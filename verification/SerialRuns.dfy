/** Handlers that run alone, as runs of the transition system: what one whole request or delivery adds up to. */
module SerialRuns {
  import opened Options
  import opened Amounts
  import opened Payments
  import opened Stock
  import opened Reservations
  import opened Shop
  import opened Rules
  import opened FlightInvariants
  import opened ShopInvariants

  /** Nothing is in flight. */
  ghost predicate Quiet(s: State) {
    s.sums == map[] && s.cons == map[] && s.whs == map[] && s.draws == map[]
  }

  /** A run that keeps the given rules leads from one state to the other. */
  ghost predicate ReachesBy(s: State, t: State, rules: set<Rule>) {
    exists run :: Legal(s, run) && RunKeeps(s, run, rules) && Exec(s, run) == t
  }

  ghost predicate Reaches(s: State, t: State) {
    ReachesBy(s, t, {})
  }

  lemma ReachesSelf(s: State, rules: set<Rule>)
    ensures ReachesBy(s, s, rules)
  {
    assert Legal(s, []) && RunKeeps(s, [], rules) && Exec(s, []) == s;
  }

  lemma ReachesTo(s: State, t: State, a: Action, u: State, rules: set<Rule>)
    requires ReachesBy(s, t, rules) && Enabled(t, a) && Keeps(t, a, rules) && u == Do(t, a)
    ensures ReachesBy(s, u, rules)
  {
    var run :| Legal(s, run) && RunKeeps(s, run, rules) && Exec(s, run) == t;
    var more := run + [a];
    assert more[..|more| - 1] == run;
    assert Legal(s, more) && RunKeeps(s, more, rules) && Exec(s, more) == u;
  }

  lemma {:induction false} ReachesAlong(s: State, t: State, run: seq<Action>, rules: set<Rule>)
    requires ReachesBy(s, t, rules) && Legal(t, run) && RunKeeps(t, run, rules)
    ensures ReachesBy(s, Exec(t, run), rules)
    decreases |run|
  {
    if run != [] {
      var n := |run| - 1;
      ReachesAlong(s, t, run[..n], rules);
      ReachesTo(s, Exec(t, run[..n]), run[n], Exec(t, run), rules);
    }
  }

  lemma ReachesOn(s: State, t: State, u: State, rules: set<Rule>)
    requires ReachesBy(s, t, rules) && ReachesBy(t, u, rules)
    ensures ReachesBy(s, u, rules)
  {
    var run :| Legal(t, run) && RunKeeps(t, run, rules) && Exec(t, run) == u;
    ReachesAlong(s, t, run, rules);
  }

  lemma {:induction false} RunKeepsInv(s: State, run: seq<Action>)
    requires Inv(s) && Legal(s, run)
    ensures Inv(Exec(s, run))
    decreases |run|
  {
    if run != [] {
      var n := |run| - 1;
      RunKeepsInv(s, run[..n]);
      InvKept(Exec(s, run[..n]), run[n], Do(Exec(s, run[..n]), run[n]));
    }
  }

  /** So handlers called one after the other keep the invariant of all interleaved runs. */
  lemma ReachesKeepsInv(s: State, t: State, rules: set<Rule>)
    requires Inv(s) && ReachesBy(s, t, rules)
    ensures Inv(t)
  {
    var run :| Legal(s, run) && RunKeeps(s, run, rules) && Exec(s, run) == t;
    RunKeepsInv(s, run);
  }

  /** No other captured order is from the same checkout. */
  ghost predicate FirstCapture(b: Book, p: nat) {
    forall q :: 0 <= q < |b.payments| && b.payments[q].status == CAPTURED ==> !SameCheckout(b, q, p)
  }

  // ---- one action more

  lemma TakesTick(s0: State, s: State, d: nat, u: State, rules: set<Rule>)
    requires ReachesBy(s0, s, rules) && u == DoTick(s, d)
    ensures ReachesBy(s0, u, rules)
  {
    ReachesTo(s0, s, Tick(d), u, rules);
  }

  lemma TakesSetStock(s0: State, s: State, pid: nat, qty: nat, u: State, rules: set<Rule>)
    requires ReachesBy(s0, s, rules) && CanSetStock(s, pid) && u == DoSetStock(s, pid, qty)
    requires NotLowered in rules && pid in s.stock ==> s.stock[pid] <= qty
    ensures ReachesBy(s0, u, rules)
  {
    ReachesTo(s0, s, SetStock(pid, qty), u, rules);
  }

  lemma TakesInitiate(s0: State, s: State, user: nat, u: State, rules: set<Rule>)
    requires ReachesBy(s0, s, rules) && CanInitiate(s, user) && u == DoInitiate(s, user)
    ensures ReachesBy(s0, u, rules)
  {
    ReachesTo(s0, s, Initiate(user), u, rules);
  }

  lemma TakesDeactivate(s0: State, s: State, cs: nat, u: State, rules: set<Rule>)
    requires ReachesBy(s0, s, rules) && CanDeactivate(s, cs) && u == DoDeactivate(s, cs)
    ensures ReachesBy(s0, u, rules)
  {
    ReachesTo(s0, s, Deactivate(cs), u, rules);
  }

  lemma TakesSumStart(s0: State, s: State, t: nat, cs: nat, items: seq<Item>, how: PayMethod, u: State, rules: set<Rule>)
    requires ReachesBy(s0, s, rules) && CanSumStart(s, t, cs, items) && u == DoSumStart(s, t, cs, items, how)
    ensures ReachesBy(s0, u, rules)
  {
    ReachesTo(s0, s, SumStart(t, cs, items, how), u, rules);
  }

  lemma TakesSumLock(s0: State, s: State, t: nat, u: State, rules: set<Rule>)
    requires ReachesBy(s0, s, rules) && CanSumLock(s, t) && u == DoSumLock(s, t)
    ensures ReachesBy(s0, u, rules)
  {
    ReachesTo(s0, s, SumLock(t), u, rules);
  }

  lemma TakesSumCheck(s0: State, s: State, t: nat, u: State, rules: set<Rule>)
    requires ReachesBy(s0, s, rules) && CanSumCheck(s, t) && u == DoSumCheck(s, t)
    ensures ReachesBy(s0, u, rules)
  {
    ReachesTo(s0, s, SumCheck(t), u, rules);
  }

  lemma TakesSumCommit(s0: State, s: State, t: nat, u: State, rules: set<Rule>)
    requires ReachesBy(s0, s, rules) && CanSumCommit(s, t) && u == DoSumCommit(s, t)
    requires OneSummary in rules ==> s.checkouts[s.sums[t].cs].snapshot.NoSnapshot?
    ensures ReachesBy(s0, u, rules)
  {
    ReachesTo(s0, s, SumCommit(t), u, rules);
  }

  lemma TakesSumAbort(s0: State, s: State, t: nat, u: State, rules: set<Rule>)
    requires ReachesBy(s0, s, rules) && t in s.sums && u == DoSumAbort(s, t)
    ensures ReachesBy(s0, u, rules)
  {
    ReachesTo(s0, s, SumAbort(t), u, rules);
  }

  lemma TakesConStart(s0: State, s: State, t: nat, cs: nat, key: nat, u: State, rules: set<Rule>)
    requires ReachesBy(s0, s, rules) && CanConStart(s, t, cs) && u == DoConStart(s, t, cs, key)
    ensures ReachesBy(s0, u, rules)
  {
    ReachesTo(s0, s, ConStart(t, cs, key), u, rules);
  }

  lemma TakesConFresh(s0: State, s: State, t: nat, u: State, rules: set<Rule>)
    requires ReachesBy(s0, s, rules) && CanConFresh(s, t) && u == DoConKey(s, t, Fresh)
    ensures ReachesBy(s0, u, rules)
  {
    ReachesTo(s0, s, ConFresh(t), u, rules);
  }

  lemma TakesConCommit(s0: State, s: State, t: nat, u: State, rules: set<Rule>)
    requires ReachesBy(s0, s, rules) && CanConCommit(s, t) && u == DoConCommit(s, t)
    ensures ReachesBy(s0, u, rules)
  {
    ReachesTo(s0, s, ConCommit(t), u, rules);
  }

  lemma TakesPspAccept(s0: State, s: State, p: nat, provider: nat, u: State, rules: set<Rule>)
    requires ReachesBy(s0, s, rules) && CanPspAccept(s.book, p, provider) && u == WithBook(s, DoPspAccept(s.book, p, provider))
    ensures ReachesBy(s0, u, rules)
  {
    ReachesTo(s0, s, PspAccept(p, provider), u, rules);
  }

  lemma TakesPspFail(s0: State, s: State, p: nat, u: State, rules: set<Rule>)
    requires ReachesBy(s0, s, rules) && p in s.book.awaiting && u == WithBook(s, s.book.(awaiting := s.book.awaiting - {p}))
    ensures ReachesBy(s0, u, rules)
  {
    ReachesTo(s0, s, PspFail(p), u, rules);
  }

  lemma TakesWhStart(s0: State, s: State, t: nat, e: nat, p: nat, u: State, rules: set<Rule>)
    requires ReachesBy(s0, s, rules) && CanWhStart(s, t, e, p) && u == DoWhStart(s, t, e, p)
    ensures ReachesBy(s0, u, rules)
  {
    ReachesTo(s0, s, WhStart(t, e, p), u, rules);
  }

  lemma TakesWhAdvance(s0: State, s: State, t: nat, u: State, rules: set<Rule>)
    requires ReachesBy(s0, s, rules) && CanWhAdvance(s, t) && u == DoWhAdvance(s, t)
    ensures ReachesBy(s0, u, rules)
  {
    ReachesTo(s0, s, WhAdvance(t), u, rules);
  }

  lemma TakesWhStale(s0: State, s: State, t: nat, u: State, rules: set<Rule>)
    requires ReachesBy(s0, s, rules) && CanWhStale(s, t) && u == DoWhStale(s, t)
    ensures ReachesBy(s0, u, rules)
  {
    ReachesTo(s0, s, WhStale(t), u, rules);
  }

  lemma TakesWhCommit(s0: State, s: State, t: nat, u: State, rules: set<Rule>)
    requires ReachesBy(s0, s, rules) && CanWhCommit(s, t) && u == DoWhCommit(s, t)
    requires OneCapture in rules && VerdictOf(s.book, s.whs[t].ev).pay == CAPTURED ==> FirstCapture(s.book, s.whs[t].pay)
    ensures ReachesBy(s0, u, rules)
  {
    ReachesTo(s0, s, WhCommit(t), u, rules);
  }

  lemma TakesClaim(s0: State, s: State, t: nat, i: nat, u: State, rules: set<Rule>)
    requires ReachesBy(s0, s, rules) && CanClaim(s, t, i) && u == DoClaiming(s, t, i)
    ensures ReachesBy(s0, u, rules)
  {
    ReachesTo(s0, s, Claim(t, i), u, rules);
  }

  lemma TakesDrawNext(s0: State, s: State, t: nat, u: State, rules: set<Rule>)
    requires ReachesBy(s0, s, rules) && CanDrawNext(s, t) && u == DoDrawNext(s, t)
    requires DrawnInTime in rules ==> InTime(s, s.book.intents[s.draws[t].intent].order)
    ensures ReachesBy(s0, u, rules)
  {
    ReachesTo(s0, s, DrawNext(t), u, rules);
  }

  lemma TakesDrawCommit(s0: State, s: State, t: nat, u: State, rules: set<Rule>)
    requires ReachesBy(s0, s, rules) && CanDrawCommit(s, t) && u == DoDrawCommit(s, t)
    ensures ReachesBy(s0, u, rules)
  {
    ReachesTo(s0, s, DrawCommit(t), u, rules);
  }

  lemma TakesDrawRollback(s0: State, s: State, t: nat, u: State, rules: set<Rule>)
    requires ReachesBy(s0, s, rules) && CanDrawRollback(s, t) && u == DoDrawRollback(s, t)
    ensures ReachesBy(s0, u, rules)
  {
    ReachesTo(s0, s, DrawRollback(t), u, rules);
  }

  lemma TakesDrawSettle(s0: State, s: State, t: nat, u: State, rules: set<Rule>)
    requires ReachesBy(s0, s, rules) && CanDrawSettle(s, t) && u == DoDrawSettle(s, t)
    ensures ReachesBy(s0, u, rules)
  {
    ReachesTo(s0, s, DrawSettle(t), u, rules);
  }

  lemma TakesDrawCrash(s0: State, s: State, t: nat, u: State, rules: set<Rule>)
    requires ReachesBy(s0, s, rules) && t in s.draws && u == DoDrawCrash(s, t)
    ensures ReachesBy(s0, u, rules)
  {
    ReachesTo(s0, s, DrawCrash(t), u, rules);
  }

  lemma TakesConAbort(s0: State, s: State, t: nat, u: State, rules: set<Rule>)
    requires ReachesBy(s0, s, rules) && t in s.cons && u == DoConAbort(s, t)
    ensures ReachesBy(s0, u, rules)
  {
    ReachesTo(s0, s, ConAbort(t), u, rules);
  }

  lemma TakesWhAbort(s0: State, s: State, t: nat, u: State, rules: set<Rule>)
    requires ReachesBy(s0, s, rules) && t in s.whs && u == DoWhAbort(s, t)
    ensures ReachesBy(s0, u, rules)
  {
    ReachesTo(s0, s, WhAbort(t), u, rules);
  }

  lemma {:induction false} Above(ids: set<nat>) returns (n: nat)
    ensures forall id :: id in ids ==> id < n
  {
    n := 0;
    if ids != {} {
      var last :| last in ids;
      var rest := Above(ids - {last});
      n := rest + last + 1;
      forall id | id in ids ensures id < n {
        assert id == last || id in ids - {last};
      }
    }
  }

  // ---- giving up what is in flight

  lemma {:induction false} DropSums(s0: State, s: State)
    requires Reaches(s0, s)
    ensures Reaches(s0, s.(sums := map[]))
    decreases |s.sums|
  {
    if s.sums != map[] {
      var t :| t in s.sums;
      var u := DoSumAbort(s, t);
      assert u.sums.Keys == s.sums.Keys - {t};
      TakesSumAbort(s0, s, t, u, {});
      DropSums(s0, u);
    }
  }

  function KeptDraws(draws: map<nat, DrawTx>, keep: nat): map<nat, DrawTx> {
    if keep in draws then map[keep := draws[keep]] else map[]
  }

  lemma OnlyKept(draws: map<nat, DrawTx>, keep: nat)
    requires draws.Keys - {keep} == {}
    ensures KeptDraws(draws, keep) == draws
  {
    assert draws.Keys <= (draws.Keys - {keep}) + {keep};
  }

  lemma CrashDrops(s: State, t: nat, keep: nat)
    requires t in s.draws && t != keep
    ensures |DoDrawCrash(s, t).draws| < |s.draws| && KeptDraws(DoDrawCrash(s, t).draws, keep) == KeptDraws(s.draws, keep)
  {
    assert DoDrawCrash(s, t).draws.Keys == s.draws.Keys - {t};
  }

  lemma {:induction false} DropDraws(s0: State, s: State, keep: nat)
    requires Reaches(s0, s)
    ensures Reaches(s0, s.(draws := KeptDraws(s.draws, keep)))
    decreases |s.draws|
  {
    var others := s.draws.Keys - {keep};
    if others == {} {
      OnlyKept(s.draws, keep);
    } else {
      var t :| t in others;
      TakesDrawCrash(s0, s, t, DoDrawCrash(s, t), {});
      CrashDrops(s, t, keep);
      DropDraws(s0, DoDrawCrash(s, t), keep);
    }
  }

  function KeptCons(cons: map<nat, ConTx>, keep: set<nat>): map<nat, ConTx> {
    map t | t in cons && t in keep :: cons[t]
  }

  lemma AllKept(cons: map<nat, ConTx>, keep: set<nat>)
    requires cons.Keys - keep == {}
    ensures KeptCons(cons, keep) == cons
  {
    assert cons.Keys <= (cons.Keys - keep) + keep;
  }

  lemma AbortDrops(s: State, t: nat, keep: set<nat>)
    requires t in s.cons && t !in keep
    ensures |DoConAbort(s, t).cons| < |s.cons| && KeptCons(DoConAbort(s, t).cons, keep) == KeptCons(s.cons, keep)
  {
    assert DoConAbort(s, t).cons.Keys == s.cons.Keys - {t};
  }

  lemma {:induction false} DropCons(s0: State, s: State, keep: set<nat>)
    requires Reaches(s0, s)
    ensures Reaches(s0, s.(cons := KeptCons(s.cons, keep)))
    decreases |s.cons|
  {
    var others := s.cons.Keys - keep;
    if others == {} {
      AllKept(s.cons, keep);
    } else {
      var t :| t in others;
      TakesConAbort(s0, s, t, DoConAbort(s, t), {});
      AbortDrops(s, t, keep);
      DropCons(s0, DoConAbort(s, t), keep);
    }
  }

  lemma {:induction false} DropWhs(s0: State, s: State)
    requires Reaches(s0, s)
    ensures Reaches(s0, s.(whs := map[]))
    decreases |s.whs|
  {
    if s.whs != map[] {
      var t :| t in s.whs;
      var u := DoWhAbort(s, t);
      assert u.whs.Keys == s.whs.Keys - {t};
      TakesWhAbort(s0, s, t, u, {});
      DropWhs(s0, u);
    }
  }

  // ---- order-summary

  ghost predicate CanSummarise(s: State, cs: nat, items: seq<Item>) {
    && cs < |s.checkouts| && s.checkouts[cs].active && s.checkouts[cs].expires >= s.now
    && s.checkouts[cs].snapshot.NoSnapshot?
    && items != [] && Pids(items) <= s.stock.Keys && Distinct(items)
    && forall i :: 0 <= i < |items| ==> items[i].qty >= 1
  }

  /** The stock read with the locks. */
  function Seen(stock: Shelf, items: seq<Item>): (r: seq<int>)
    requires Pids(items) <= stock.Keys
    ensures |r| == |items| && forall i :: 0 <= i < |r| ==> items[i].pid in stock && r[i] == stock[items[i].pid]
  {
    if items == [] then []
    else
      var n := |items| - 1;
      PidsSnoc(items);
      Seen(stock, items[..n]) + [stock[items[n].pid]]
  }

  lemma {:induction false} LocksReached(s: State, cs: nat, items: seq<Item>, how: PayMethod, k: nat, rules: set<Rule>)
    requires Quiet(s) && CanSummarise(s, cs, items) && k <= |items|
    ensures ReachesBy(s, s.(sums := map[0 := SumTx(cs, items, how, Seen(s.stock, items)[..k], false)]), rules)
  {
    if k == 0 {
      ReachesSelf(s, rules);
      TakesSumStart(s, s, 0, cs, items, how, DoSumStart(s, 0, cs, items, how), rules);
    } else {
      LocksReached(s, cs, items, how, k - 1, rules);
      var seen := Seen(s.stock, items);
      var t := s.(sums := map[0 := SumTx(cs, items, how, seen[..k - 1], false)]);
      assert seen[..k] == seen[..k - 1] + [seen[k - 1]];
      TakesSumLock(s, t, 0, DoSumLock(t, 0), rules);
    }
  }

  function Summarised(s: State, cs: nat, items: seq<Item>, how: PayMethod): State
    requires cs < |s.checkouts|
  {
    s.(reservations := Reserve(s.reservations, items, cs, s.checkouts[cs].expires),
       checkouts := s.checkouts[cs := s.checkouts[cs].(snapshot := Taken(items, how))])
  }

  lemma SummaryEnds(s: State, cs: nat, items: seq<Item>, how: PayMethod, seen: seq<int>)
    requires Quiet(s) && cs < |s.checkouts| && |seen| == |items| && Available(s.reservations, items, seen, s.now)
    ensures var t, u := s.(sums := map[0 := SumTx(cs, items, how, seen, false)]), s.(sums := map[0 := SumTx(cs, items, how, seen, true)]);
            && CanSumCheck(t, 0) && DoSumCheck(t, 0) == u
            && CanSumCommit(u, 0) && DoSumCommit(u, 0) == Summarised(s, cs, items, how)
  {
  }

  lemma SummaryRun(s: State, cs: nat, items: seq<Item>, how: PayMethod, rules: set<Rule>)
    requires Quiet(s) && CanSummarise(s, cs, items)
    requires Available(s.reservations, items, Seen(s.stock, items), s.now)
    ensures ReachesBy(s, Summarised(s, cs, items, how), rules)
  {
    LocksReached(s, cs, items, how, |items|, rules);
    var seen := Seen(s.stock, items);
    assert seen[..|items|] == seen;
    SummaryEnds(s, cs, items, how, seen);
    var t := s.(sums := map[0 := SumTx(cs, items, how, seen, false)]);
    var u := s.(sums := map[0 := SumTx(cs, items, how, seen, true)]);
    TakesSumCheck(s, t, 0, u, rules);
    TakesSumCommit(s, u, 0, Summarised(s, cs, items, how), rules);
  }

  // ---- secure-confirm

  ghost predicate CanConfirm(s: State, cs: nat, key: nat) {
    && cs < |s.checkouts| && s.checkouts[cs].active && s.checkouts[cs].expires >= s.now + CONFIRM_MARGIN
    && s.checkouts[cs].snapshot.Taken? && s.checkouts[cs].snapshot.how == Upi && !KeyTaken(s.book, key)
  }

  /** One new key row, one order and one pending payment. */
  function BookOrdered(b: Book, row: IKey, items: seq<Item>, how: PayMethod): Book {
    var totals := FinalTotals(items, how);
    b.(iks := b.iks + [row],
       orders := b.orders + [Order(|b.iks|, row.user, PendingPayment, totals, items)],
       payments := b.payments + [Payment(|b.orders|, PENDING, totals.total, None)],
       awaiting := b.awaiting + {|b.payments|})
  }

  /** All for the checkout's snapshot. */
  function Ordered(s: State, cs: nat, key: nat): State
    requires cs < |s.checkouts| && s.checkouts[cs].snapshot.Taken?
  {
    var snap := s.checkouts[cs].snapshot;
    s.(book := BookOrdered(s.book, IKey(key, s.checkouts[cs].user, cs, s.now + KEY_TTL, false), snap.items, snap.how))
  }

  function Confirming(s: State, cs: nat, key: nat, ik: KeyState): State
    requires cs < |s.checkouts| && s.checkouts[cs].snapshot.Taken?
  {
    s.(cons := map[0 := ConTx(cs, key, s.checkouts[cs].snapshot.items, s.checkouts[cs].snapshot.how, ik)])
  }

  lemma ConfirmSteps(s: State, cs: nat, key: nat)
    requires Quiet(s) && CanConfirm(s, cs, key)
    ensures CanConStart(s, 0, cs) && DoConStart(s, 0, cs, key) == Confirming(s, cs, key, Unread)
    ensures CanConFresh(Confirming(s, cs, key, Unread), 0)
    ensures DoConKey(Confirming(s, cs, key, Unread), 0, Fresh) == Confirming(s, cs, key, Fresh)
    ensures CanConCommit(Confirming(s, cs, key, Fresh), 0)
  {
  }

  lemma ConfirmEnds(s: State, cs: nat, key: nat)
    requires Quiet(s) && CanConfirm(s, cs, key) && CanConCommit(Confirming(s, cs, key, Fresh), 0)
    ensures DoConCommit(Confirming(s, cs, key, Fresh), 0) == Ordered(s, cs, key)
  {
  }

  lemma ConfirmRun(s: State, cs: nat, key: nat, rules: set<Rule>)
    requires Quiet(s) && CanConfirm(s, cs, key)
    ensures ReachesBy(s, Ordered(s, cs, key), rules)
  {
    ConfirmSteps(s, cs, key);
    ConfirmEnds(s, cs, key);
    ReachesSelf(s, rules);
    TakesConStart(s, s, 0, cs, key, Confirming(s, cs, key, Unread), rules);
    TakesConFresh(s, Confirming(s, cs, key, Unread), 0, Confirming(s, cs, key, Fresh), rules);
    TakesConCommit(s, Confirming(s, cs, key, Fresh), 0, Ordered(s, cs, key), rules);
  }

  // ---- webhook

  ghost predicate CanProcess(b: Book, e: nat, p: nat) {
    && e in b.feed && VerdictOf(b, e).valid && e !in b.events
    && p < |b.payments| && b.payments[p].provider == Some(b.feed[e].order) && b.payments[p].order < |b.orders|
  }

  function Holding(s: State, e: nat, p: nat, holding: bool): State {
    s.(whs := map[0 := WhTx(e, p, holding)])
  }

  function Processed(s: State, e: nat, p: nat): State
    requires CanProcess(s.book, e, p)
  {
    s.(book := DoWebhook(s.book, e, p))
  }

  function Superseded(s: State, e: nat): State {
    s.(book := s.book.(delivered := s.book.delivered + {e}))
  }

  lemma WebhookStarts(s: State, e: nat, p: nat)
    requires Quiet(s) && CanProcess(s.book, e, p)
    ensures CanWhStart(s, 0, e, p) && DoWhStart(s, 0, e, p) == Holding(s, e, p, false)
  {
  }

  lemma WebhookAdvances(s: State, e: nat, p: nat)
    requires Quiet(s) && CanProcess(s.book, e, p) && s.book.payments[p].status < VerdictOf(s.book, e).pay
    ensures CanWhAdvance(Holding(s, e, p, false), 0)
    ensures DoWhAdvance(Holding(s, e, p, false), 0) == Holding(s, e, p, true)
  {
  }

  lemma WebhookEnds(s: State, e: nat, p: nat)
    requires Quiet(s) && CanProcess(s.book, e, p)
    ensures CanWhCommit(Holding(s, e, p, true), 0)
    ensures DoWhCommit(Holding(s, e, p, true), 0) == Processed(s, e, p)
  {
  }

  lemma WebhookIsStale(s: State, e: nat, p: nat)
    requires Quiet(s) && CanProcess(s.book, e, p) && s.book.payments[p].status >= VerdictOf(s.book, e).pay
    ensures CanWhStale(Holding(s, e, p, false), 0)
    ensures DoWhStale(Holding(s, e, p, false), 0) == Superseded(s, e)
  {
  }

  lemma WebhookRun(s: State, e: nat, p: nat, rules: set<Rule>)
    requires Quiet(s) && CanProcess(s.book, e, p) && s.book.payments[p].status < VerdictOf(s.book, e).pay
    requires OneCapture in rules && VerdictOf(s.book, e).pay == CAPTURED ==> FirstCapture(s.book, p)
    ensures ReachesBy(s, Processed(s, e, p), rules)
  {
    WebhookStarts(s, e, p);
    WebhookAdvances(s, e, p);
    WebhookEnds(s, e, p);
    ReachesSelf(s, rules);
    TakesWhStart(s, s, 0, e, p, Holding(s, e, p, false), rules);
    TakesWhAdvance(s, Holding(s, e, p, false), 0, Holding(s, e, p, true), rules);
    TakesWhCommit(s, Holding(s, e, p, true), 0, Processed(s, e, p), rules);
  }

  lemma StaleWebhookRun(s: State, e: nat, p: nat, rules: set<Rule>)
    requires Quiet(s) && CanProcess(s.book, e, p) && s.book.payments[p].status >= VerdictOf(s.book, e).pay
    ensures ReachesBy(s, Superseded(s, e), rules)
  {
    WebhookStarts(s, e, p);
    WebhookIsStale(s, e, p);
    ReachesSelf(s, rules);
    TakesWhStart(s, s, 0, e, p, Holding(s, e, p, false), rules);
    TakesWhStale(s, Holding(s, e, p, false), 0, Superseded(s, e), rules);
  }

  // ---- worker

  function Claimed(s: State, i: nat, x: DrawTx): State
    requires i < |s.book.intents|
  {
    s.(book := DoClaim(s.book, i), draws := map[0 := x])
  }

  lemma ClaimStep(s: State, i: nat)
    requires Quiet(s) && i < |s.book.intents| && s.book.intents[i].status.Pending?
    ensures CanClaim(s, 0, i)
    ensures DoClaiming(s, 0, i) == Claimed(s, i, DrawTx(i, 0, Draft(map[], false), false))
  {
  }

  lemma DrawStep(s: State, i: nat, k: nat, d: Draft)
    requires Quiet(s) && i < |s.book.intents| && k < |s.book.intents[i].items|
    requires s.book.intents[i].items[k].pid in s.stock
    ensures CanDrawNext(Claimed(s, i, DrawTx(i, k, d, false)), 0)
    ensures DoDrawNext(Claimed(s, i, DrawTx(i, k, d, false)), 0)
            == Claimed(s, i, DrawTx(i, k + 1, DrawRow(s.stock, d, s.book.intents[i].items[k]), false))
  {
  }

  /** The worker has drawn k lines of intent i. */
  ghost predicate DrawnSoFar(s: State, i: nat, k: nat, rules: set<Rule>) {
    && i < |s.book.intents| && k <= |s.book.intents[i].items| && Stocked(s.stock, s.book.intents[i].items[..k])
    && ReachesBy(s, Claimed(s, i, DrawTx(i, k, DrawRows(s.stock, s.book.intents[i].items[..k]), false)), rules)
  }

  lemma NoneDrawn(s: State, i: nat, rules: set<Rule>)
    requires Quiet(s) && i < |s.book.intents| && s.book.intents[i].status.Pending?
    ensures DrawnSoFar(s, i, 0, rules)
  {
    ReachesSelf(s, rules);
    ClaimStep(s, i);
    assert s.book.intents[i].items[..0] == [];
    TakesClaim(s, s, 0, i, Claimed(s, i, DrawTx(i, 0, Draft(map[], false), false)), rules);
  }

  lemma {:induction false} DrawsReached(s: State, i: nat, k: nat, rules: set<Rule>)
    requires Quiet(s) && i < |s.book.intents| && s.book.intents[i].status.Pending?
    requires k <= |s.book.intents[i].items| && Stocked(s.stock, s.book.intents[i].items)
    requires DrawnInTime in rules ==> InTime(s, s.book.intents[i].order)
    ensures DrawnSoFar(s, i, k, rules)
  {
    if k == 0 {
      NoneDrawn(s, i, rules);
    } else {
      var items := s.book.intents[i].items;
      DrawsReached(s, i, k - 1, rules);
      DrawRowsSnoc(s.stock, items, k - 1);
      OneMoreDrawn(s, i, k - 1, DrawRows(s.stock, items[..k - 1]), rules);
    }
  }

  lemma OneMoreDrawn(s: State, i: nat, k: nat, d: Draft, rules: set<Rule>)
    requires Quiet(s) && i < |s.book.intents| && k < |s.book.intents[i].items|
    requires s.book.intents[i].items[k].pid in s.stock && (DrawnInTime in rules ==> InTime(s, s.book.intents[i].order))
    requires ReachesBy(s, Claimed(s, i, DrawTx(i, k, d, false)), rules)
    ensures ReachesBy(s, Claimed(s, i, DrawTx(i, k + 1, DrawRow(s.stock, d, s.book.intents[i].items[k]), false)), rules)
  {
    DrawStep(s, i, k, d);
    TakesDrawNext(s, Claimed(s, i, DrawTx(i, k, d, false)), 0, Claimed(s, i, DrawTx(i, k + 1, DrawRow(s.stock, d, s.book.intents[i].items[k]), false)), rules);
  }

  lemma DrawRowsSnoc(stock: Shelf, items: seq<Item>, k: nat)
    requires k < |items| && Stocked(stock, items)
    ensures Stocked(stock, items[..k]) && Stocked(stock, items[..k + 1]) && items[k].pid in stock
    ensures DrawRows(stock, items[..k + 1]) == DrawRow(stock, DrawRows(stock, items[..k]), items[k])
  {
    PidsPrefix(items, k);
  }

  /** The intent done, once claimed, and every line drawn. */
  function Finished(b: Book, i: nat): Book
    requires i < |b.intents|
  {
    var c := DoClaim(b, i);
    c.(intents := c.intents[i := c.intents[i].(status := Done)])
  }

  lemma DrawnIsWritten(stock: Shelf, items: seq<Item>, after: Shelf)
    requires Covers(stock, items) && Drawn(stock, items, after)
    ensures after == stock + DrawRows(stock, items).writes
  {
    DrawRowsExact(stock, items);
    forall pid | pid in stock && pid !in Pids(items) ensures Demand(items, pid) == 0 {
      DemandZero(items, pid);
    }
  }

  lemma DrawEnds(s: State, i: nat, d: Draft)
    requires Quiet(s) && i < |s.book.intents| && !d.failed
    ensures var t := Claimed(s, i, DrawTx(i, |s.book.intents[i].items|, d, false));
            CanDrawCommit(t, 0) && DoDrawCommit(t, 0) == s.(stock := s.stock + d.writes, book := Finished(s.book, i))
  {
  }

  lemma DrawRun(s: State, i: nat, after: Shelf, rules: set<Rule>)
    requires Quiet(s) && i < |s.book.intents| && s.book.intents[i].status.Pending?
    requires Covers(s.stock, s.book.intents[i].items) && Drawn(s.stock, s.book.intents[i].items, after)
    requires DrawnInTime in rules ==> InTime(s, s.book.intents[i].order)
    ensures ReachesBy(s, s.(stock := after, book := Finished(s.book, i)), rules)
  {
    var items := s.book.intents[i].items;
    DrawsReached(s, i, |items|, rules);
    assert items[..|items|] == items;
    DrawRowsExact(s.stock, items);
    DrawnIsWritten(s.stock, items, after);
    var d := DrawRows(s.stock, items);
    DrawEnds(s, i, d);
    TakesDrawCommit(s, Claimed(s, i, DrawTx(i, |items|, d, false)), 0, s.(stock := after, book := Finished(s.book, i)), rules);
  }

  lemma RollbackSteps(s: State, i: nat, d: Draft)
    requires Quiet(s) && i < |s.book.intents|
    ensures var t, u := Claimed(s, i, DrawTx(i, 0, d, false)), Claimed(s, i, DrawTx(i, 0, d, true));
            && CanDrawRollback(t, 0) && DoDrawRollback(t, 0) == u
            && CanDrawSettle(u, 0) && DoDrawSettle(u, 0) == s.(book := DoSettle(DoClaim(s.book, i), i))
  {
  }

  lemma FailedDrawRun(s: State, i: nat, rules: set<Rule>)
    requires Quiet(s) && i < |s.book.intents| && s.book.intents[i].status.Pending?
    ensures ReachesBy(s, s.(book := DoSettle(DoClaim(s.book, i), i)), rules)
  {
    var d := Draft(map[], false);
    ClaimStep(s, i);
    RollbackSteps(s, i, d);
    ReachesSelf(s, rules);
    TakesClaim(s, s, 0, i, Claimed(s, i, DrawTx(i, 0, d, false)), rules);
    TakesDrawRollback(s, Claimed(s, i, DrawTx(i, 0, d, false)), 0, Claimed(s, i, DrawTx(i, 0, d, true)), rules);
    TakesDrawSettle(s, Claimed(s, i, DrawTx(i, 0, d, true)), 0, s.(book := DoSettle(DoClaim(s.book, i), i)), rules);
  }
}
