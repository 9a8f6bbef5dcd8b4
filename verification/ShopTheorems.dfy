/** What holds of every run of the pipeline. */
module ShopTheorems {
  import opened Amounts
  import opened Payments
  import opened Stock
  import opened Reservations
  import opened Shop
  import opened BookInvariants
  import opened FlightInvariants
  import opened ShopInvariants

  // ---- exactly once

  predicate OrderOfKey(b: Book, o: nat, key: nat) {
    o < |b.orders| && b.orders[o].ik < |b.iks| && b.iks[b.orders[o].ik].key == key
  }

  ghost predicate AtMostOneOrder(b: Book, key: nat) {
    forall o, q :: OrderOfKey(b, o, key) && OrderOfKey(b, q, key) ==> o == q
  }

  ghost predicate AtMostOnePayment(b: Book, key: nat) {
    forall p, q | 0 <= p < |b.payments| && 0 <= q < |b.payments| ::
      OrderOfKey(b, b.payments[p].order, key) && OrderOfKey(b, b.payments[q].order, key) ==> p == q
  }

  ghost predicate AtMostOneIntent(b: Book, key: nat) {
    forall i, j | 0 <= i < |b.intents| && 0 <= j < |b.intents| ::
      OrderOfKey(b, b.intents[i].order, key) && OrderOfKey(b, b.intents[j].order, key) ==> i == j
  }

  /** However confirms are retried and interleaved, a key has at most one order, one payment and one commit intent. */
  lemma OneOrderPerKey(s0: State, run: seq<Action>, key: nat)
    requires Init(s0) && Legal(s0, run)
    ensures AtMostOneOrder(Exec(s0, run).book, key)
    ensures AtMostOnePayment(Exec(s0, run).book, key)
    ensures AtMostOneIntent(Exec(s0, run).book, key)
  {
    InvHolds(s0, run);
    var b := Exec(s0, run).book;
    forall o: nat, q: nat | OrderOfKey(b, o, key) && OrderOfKey(b, q, key) ensures o == q {
      assert b.orders[o].ik == o && b.orders[q].ik == q;
    }
  }

  /** How often a run took an order's items out of stock. */
  ghost function DrawsOf(s0: State, run: seq<Action>, o: nat): nat
    requires Legal(s0, run)
  {
    if run == [] then 0
    else
      var n := |run| - 1;
      DrawsOf(s0, run[..n], o) + if CommitsDrawOf(Exec(s0, run[..n]), run[n], o) then 1 else 0
  }

  predicate CommitsDrawOf(s: State, a: Action, o: nat)
    requires Enabled(s, a)
  {
    a.DrawCommit? && s.book.intents[s.draws[a.t].intent].order == o
  }

  ghost predicate DrawnIn(intents: seq<Intent>, o: nat) {
    exists i :: 0 <= i < |intents| && intents[i].order == o && intents[i].status == Done
  }

  ghost predicate IsDrawn(b: Book, o: nat) {
    DrawnIn(b.intents, o)
  }

  /** Over every run an order's items leave stock once if its intent is done, and not at all otherwise. */
  lemma {:induction false} DrawnOnce(s0: State, run: seq<Action>, o: nat)
    requires Init(s0) && Legal(s0, run)
    ensures DrawsOf(s0, run, o) == if IsDrawn(Exec(s0, run).book, o) then 1 else 0
    decreases |run|
  {
    if run != [] {
      var n := |run| - 1;
      DrawnOnce(s0, run[..n], o);
      InvHolds(s0, run[..n]);
      DrawnStep(Exec(s0, run[..n]), run[n], Do(Exec(s0, run[..n]), run[n]), o);
    }
  }

  lemma DrawnStep(s: State, a: Action, next: State, o: nat)
    requires DrawsSound(s.stock, s.book.intents, s.draws) && Step(s, a, next)
    requires forall i, j :: 0 <= i < j < |s.book.intents| ==> s.book.intents[i].order != s.book.intents[j].order
    ensures IsDrawn(next.book, o) <==> IsDrawn(s.book, o) || CommitsDrawOf(s, a, o)
    ensures CommitsDrawOf(s, a, o) ==> !IsDrawn(s.book, o)
  {
    if a.DrawCommit? {
      DrawnByCommit(s, a.t, o);
    } else {
      DrawnByOthers(s, a, next, o);
    }
  }

  lemma DrawnByOthers(s: State, a: Action, next: State, o: nat)
    requires DrawsSound(s.stock, s.book.intents, s.draws) && Step(s, a, next) && !a.DrawCommit?
    requires forall i, j :: 0 <= i < j < |s.book.intents| ==> s.book.intents[i].order != s.book.intents[j].order
    ensures IsDrawn(next.book, o) <==> IsDrawn(s.book, o)
  {
    IntentStep(s, a, next);
    DrawnByMoves(s, a, next.book.intents, o);
  }

  lemma DrawnByMoves(s: State, a: Action, later: seq<Intent>, o: nat)
    requires IntentsMove(s, a, later) && !a.DrawCommit?
    requires forall i, j :: 0 <= i < j < |s.book.intents| ==> s.book.intents[i].order != s.book.intents[j].order
    ensures DrawnIn(later, o) <==> DrawnIn(s.book.intents, o)
  {
    DrawnByRows(s.book.intents, later, |s.book.intents|, o);
  }

  lemma DrawnByCommit(s: State, t: nat, o: nat)
    requires DrawsSound(s.stock, s.book.intents, s.draws) && CanDrawCommit(s, t)
    requires forall i, j :: 0 <= i < j < |s.book.intents| ==> s.book.intents[i].order != s.book.intents[j].order
    ensures var hits := s.book.intents[s.draws[t].intent].order == o;
            && (IsDrawn(DoDrawCommit(s, t).book, o) <==> IsDrawn(s.book, o) || hits)
            && (hits ==> !IsDrawn(s.book, o))
  {
    CommitDraws(s, t);
    DrawnByRows(s.book.intents, DoDrawCommit(s, t).book.intents, s.draws[t].intent, o);
  }

  /** Only row d became done, if it is a row at all, and no other row has its order. */
  lemma DrawnByRows(intents: seq<Intent>, later: seq<Intent>, d: nat, o: nat)
    requires |intents| <= |later|
    requires forall i :: 0 <= i < |intents| ==>
               later[i].order == intents[i].order && (later[i].status == Done <==> intents[i].status == Done || i == d)
    requires forall i :: |intents| <= i < |later| ==> later[i].status != Done
    requires forall i, j :: 0 <= i < j < |intents| ==> intents[i].order != intents[j].order
    requires d < |intents| ==> intents[d].status != Done
    ensures DrawnIn(later, o) <==> DrawnIn(intents, o) || (d < |intents| && intents[d].order == o)
    ensures d < |intents| && intents[d].order == o ==> !DrawnIn(intents, o)
  {
    if DrawnIn(intents, o) {
      var i :| 0 <= i < |intents| && intents[i].order == o && intents[i].status == Done;
      assert later[i].order == o && later[i].status == Done;
    }
    if d < |intents| {
      assert later[d].status == Done;
    }
  }

  lemma CommitDraws(s: State, t: nat)
    requires DrawsSound(s.stock, s.book.intents, s.draws) && CanDrawCommit(s, t)
    ensures s.book.intents[s.draws[t].intent].status == Processing
    ensures DoDrawCommit(s, t).book.intents
            == s.book.intents[s.draws[t].intent := s.book.intents[s.draws[t].intent].(status := Done)]
  {
    assert DrawSound(s.stock, s.book.intents, s.draws[t]);
  }

  /** How an action may change an intent; drawn says that the action commits its draw. */
  ghost predicate IntentMoves(it: Intent, later: Intent, drawn: bool) {
    && it.order == later.order && it.items == later.items
    && (it.status.Done? || it.status.Failed? ==> later == it)
    && (drawn ==> it.status.Processing? && later.status.Done?)
    && (later.status.Done? && !it.status.Done? ==> drawn)
    && (later.claims == it.claims || later.claims == it.claims + 1)
    && (later.claims > it.claims <==> it.status.Pending? && later.status.Processing?)
  }

  predicate CommitsDraw(s: State, a: Action, i: nat) {
    a.DrawCommit? && a.t in s.draws && s.draws[a.t].intent == i
  }

  ghost predicate IntentsMove(s: State, a: Action, later: seq<Intent>) {
    && |s.book.intents| <= |later|
    && (forall i :: 0 <= i < |s.book.intents| ==> IntentMoves(s.book.intents[i], later[i], CommitsDraw(s, a, i)))
    && (forall i :: |s.book.intents| <= i < |later| ==> later[i].status == Pending)
  }

  lemma IntentStepByWorker(s: State, a: Action, next: State)
    requires DrawsSound(s.stock, s.book.intents, s.draws) && Step(s, a, next)
    requires a.DrawCommit? || a.DrawSettle? || a.Claim?
    ensures IntentsMove(s, a, next.book.intents)
  {
    if a.DrawCommit? {
      CommitMoves(s, a.t);
    } else if a.DrawSettle? {
      SettleMoves(s, a.t);
    } else {
      ClaimMoves(s, a.t, a.intent);
    }
  }

  /** DONE and FAILED are never left, only a committed draw makes an intent DONE, and new intents start PENDING. */
  lemma IntentStep(s: State, a: Action, next: State)
    requires DrawsSound(s.stock, s.book.intents, s.draws) && Step(s, a, next)
    ensures IntentsMove(s, a, next.book.intents)
  {
    if a.DrawCommit? || a.DrawSettle? || a.Claim? {
      IntentStepByWorker(s, a, next);
    } else if a.WhCommit? {
      WebhookMoves(s, a.t);
    } else {
      IntentsFrame(s, a, next);
    }
  }

  lemma IntentsFrame(s: State, a: Action, next: State)
    requires Step(s, a, next) && !a.DrawCommit? && !a.DrawSettle? && !a.Claim? && !a.WhCommit?
    ensures next.book.intents == s.book.intents
  {
    if !TouchesBook(a) {
      BookFrame(s, a, next);
    }
  }

  lemma CommitMoves(s: State, t: nat)
    requires DrawsSound(s.stock, s.book.intents, s.draws) && CanDrawCommit(s, t)
    ensures IntentsMove(s, DrawCommit(t), DoDrawCommit(s, t).book.intents)
  {
    CommitDraws(s, t);
  }

  lemma SettleMoves(s: State, t: nat)
    requires DrawsSound(s.stock, s.book.intents, s.draws) && CanDrawSettle(s, t)
    ensures IntentsMove(s, DrawSettle(t), DoSettle(s.book, s.draws[t].intent).intents)
  {
    assert DrawSound(s.stock, s.book.intents, s.draws[t]);
  }

  lemma ClaimMoves(s: State, t: nat, i: nat)
    requires CanClaim(s, t, i)
    ensures IntentsMove(s, Claim(t, i), DoClaim(s.book, i).intents)
  {
  }

  lemma WebhookMoves(s: State, t: nat)
    requires CanWhCommit(s, t)
    ensures IntentsMove(s, WhCommit(t), DoWebhook(s.book, s.whs[t].ev, s.whs[t].pay).intents)
  {
  }

  /** No intent is claimed more than three times, whatever is delivered to the workers. */
  lemma RetriesEnd(s0: State, run: seq<Action>, i: nat)
    requires Init(s0) && Legal(s0, run) && i < |Exec(s0, run).book.intents|
    ensures var it := Exec(s0, run).book.intents[i];
            && it.claims <= 3 && it.failures <= it.claims
            && (it.status == Pending || it.status == Failed ==> it.claims == it.failures)
            && (it.status == Processing || it.status == Done ==> it.claims == it.failures + 1)
            && (it.status == Failed <==> it.failures == 3)
            && it.attempts == 2 * it.failures + (if it.claims > it.failures then 1 else 0) - (if it.status == Failed then 1 else 0)
  {
    InvHolds(s0, run);
  }

  // ---- stock

  /** Nothing is lost and nothing is drawn twice: what was put on the shelf is there or in done intents. */
  lemma StockConserved(s0: State, run: seq<Action>, pid: nat)
    requires Init(s0) && Legal(s0, run) && pid in Exec(s0, run).stock
    ensures var s := Exec(s0, run);
            s.stock[pid] >= 0 && pid in s.supplied && s.supplied[pid] == s.stock[pid] + DrawnQty(s.book.intents, pid)
  {
    InvHolds(s0, run);
  }

  ghost predicate NoManualEdits(run: seq<Action>) {
    forall i :: 0 <= i < |run| ==> !run[i].SetStock?
  }

  /** Without edits by hand, supplied is the initial stock. */
  lemma {:induction false} SuppliedIsInitial(s0: State, run: seq<Action>)
    requires Init(s0) && Legal(s0, run) && NoManualEdits(run)
    ensures Exec(s0, run).supplied == s0.stock
    decreases |run|
  {
    if run != [] {
      var n := |run| - 1;
      SuppliedIsInitial(s0, run[..n]);
      assert !run[n].SetStock?;
      SuppliedFrame(Exec(s0, run[..n]), run[n], Do(Exec(s0, run[..n]), run[n]));
    }
  }

  lemma SuppliedFrame(s: State, a: Action, next: State)
    requires Step(s, a, next) && !a.SetStock?
    ensures next.supplied == s.supplied
  {
    if !TouchesDraws(a) {
      DrawsFrame(s, a, next);
    }
  }

  /** An action moves stock only as an edit by hand or as one order's complete draw. */
  lemma StockStep(s: State, a: Action, next: State)
    requires DrawsSound(s.stock, s.book.intents, s.draws) && IntentsInv(s.book)
    requires Step(s, a, next) && !a.SetStock? && next.stock != s.stock
    ensures a.DrawCommit? && s.draws[a.t].intent < |s.book.intents|
    ensures var it := s.book.intents[s.draws[a.t].intent];
            && it.order < |s.book.orders| && it.status == Processing
            && Drawn(s.stock, s.book.orders[it.order].items, next.stock)
  {
    if !a.DrawCommit? {
      StockFrame(s, a, next);
    } else {
      DrawCommitDraws(s, a.t);
    }
  }

  /** A committed draw lowers every product by exactly what the intent asks of it. */
  lemma DrawCommitDraws(s: State, t: nat)
    requires DrawsSound(s.stock, s.book.intents, s.draws) && CanDrawCommit(s, t)
    ensures Drawn(s.stock, s.book.intents[s.draws[t].intent].items, DoDrawCommit(s, t).stock)
    ensures Covers(s.stock, s.book.intents[s.draws[t].intent].items)
  {
    CommitDraws(s, t);
    var x := s.draws[t];
    assert DrawSound(s.stock, s.book.intents, x);
    var items := s.book.intents[x.intent].items;
    assert items[..x.done] == items;
    DrawRowsExact(s.stock, items);
    forall pid | pid in s.stock && pid !in Pids(items) ensures Demand(items, pid) == 0 {
      DemandZero(items, pid);
    }
  }

  lemma StockFrame(s: State, a: Action, next: State)
    requires Step(s, a, next) && !a.SetStock? && !a.DrawCommit?
    ensures next.stock == s.stock
  {
    if !TouchesDraws(a) {
      DrawsFrame(s, a, next);
    }
  }

  // ---- longer runs

  lemma ExecThen(s0: State, run: seq<Action>, more: seq<Action>)
    requires Legal(s0, run + more) && more != []
    ensures Legal(s0, run + more[..|more| - 1])
    ensures Enabled(Exec(s0, run + more[..|more| - 1]), more[|more| - 1])
    ensures Exec(s0, run + more) == Do(Exec(s0, run + more[..|more| - 1]), more[|more| - 1])
  {
    var all, n := run + more, |run + more| - 1;
    assert all[..n] == run + more[..|more| - 1];
    assert all[n] == more[|more| - 1];
  }

  /** A DONE or FAILED intent is the same row for ever after. */
  lemma {:induction false} SettledForGood(s0: State, run: seq<Action>, more: seq<Action>, i: nat)
    requires Init(s0) && Legal(s0, run) && Legal(s0, run + more)
    requires i < |Exec(s0, run).book.intents| && Exec(s0, run).book.intents[i].status in {Done, Failed}
    ensures i < |Exec(s0, run + more).book.intents|
    ensures Exec(s0, run + more).book.intents[i] == Exec(s0, run).book.intents[i]
    decreases |more|
  {
    if more == [] {
      assert run + more == run;
    } else {
      ExecThen(s0, run, more);
      var before, a := run + more[..|more| - 1], more[|more| - 1];
      SettledForGood(s0, run, more[..|more| - 1], i);
      InvHolds(s0, before);
      SettledStep(Exec(s0, before), a, Do(Exec(s0, before), a), i);
    }
  }

  lemma SettledStep(s: State, a: Action, next: State, i: nat)
    requires DrawsSound(s.stock, s.book.intents, s.draws) && Step(s, a, next)
    requires i < |s.book.intents| && s.book.intents[i].status in {Done, Failed}
    ensures i < |next.book.intents| && next.book.intents[i] == s.book.intents[i]
  {
    IntentStep(s, a, next);
    assert IntentMoves(s.book.intents[i], next.book.intents[i], CommitsDraw(s, a, i));
  }

  // ---- no oversell

  /** All unexpired reservations of the product fit its stock. */
  ghost predicate Fits(s: State, pid: nat) {
    pid in s.stock && Held(s.reservations, pid, s.now, {}) <= s.stock[pid]
  }

  lemma SummaryCommitFits(s: State, t: nat, pid: nat)
    requires SummariesSound(s) && CanSumCommit(s, t) && pid in Pids(s.sums[t].items)
    ensures Fits(DoSumCommit(s, t), pid)
  {
    var x := s.sums[t];
    assert SummarySound(s, x);
    var i :| 0 <= i < |x.items| && x.items[i].pid == pid;
    DemandOfLine(x.items, i);
    ReserveAdds(s.reservations, x.items, x.cs, s.checkouts[x.cs].expires);
  }

  /** Whatever else is in flight, an order summary that commits leaves each of its products within stock. */
  lemma SummaryNeverOversells(s0: State, run: seq<Action>, t: nat, pid: nat)
    requires Init(s0) && Legal(s0, run) && Enabled(Exec(s0, run), SumCommit(t))
    requires pid in Pids(Exec(s0, run).sums[t].items)
    ensures Legal(s0, run + [SumCommit(t)]) && Fits(Exec(s0, run + [SumCommit(t)]), pid)
  {
    assert (run + [SumCommit(t)])[..|run|] == run;
    InvHolds(s0, run);
    SummaryCommitFits(Exec(s0, run), t, pid);
  }

  /** The product's stock is at no point of the continuation lower than it was just before. */
  ghost predicate NeverLowered(s0: State, run: seq<Action>, more: seq<Action>, pid: nat)
    requires Legal(s0, run + more)
    decreases |more|
  {
    more == [] ||
    (ExecThen(s0, run, more);
     var before, after := Exec(s0, run + more[..|more| - 1]), Exec(s0, run + more);
     NeverLowered(s0, run, more[..|more| - 1], pid)
     && (pid in before.stock ==> pid in after.stock && before.stock[pid] <= after.stock[pid]))
  }

  /** Only lowering the stock can break it: no reservation, expiry, payment or worker retry does. */
  lemma {:induction false} FitsUntilLowered(s0: State, run: seq<Action>, more: seq<Action>, pid: nat)
    requires Init(s0) && Legal(s0, run) && Legal(s0, run + more)
    requires Fits(Exec(s0, run), pid) && NeverLowered(s0, run, more, pid)
    ensures Fits(Exec(s0, run + more), pid)
    decreases |more|
  {
    if more == [] {
      assert run + more == run;
    } else {
      ExecThen(s0, run, more);
      FitsUntilLowered(s0, run, more[..|more| - 1], pid);
      InvHolds(s0, run + more[..|more| - 1]);
      FitsStep(Exec(s0, run + more[..|more| - 1]), more[|more| - 1], Do(Exec(s0, run + more[..|more| - 1]), more[|more| - 1]), pid);
    }
  }

  lemma FitsStep(s: State, a: Action, next: State, pid: nat)
    requires SummariesSound(s) && Step(s, a, next) && Fits(s, pid)
    requires pid in next.stock && s.stock[pid] <= next.stock[pid]
    ensures Fits(next, pid)
  {
    if a.SumCommit? {
      if pid in Pids(s.sums[a.t].items) {
        SummaryCommitFits(s, a.t, pid);
      } else {
        ReservedElsewhere(s, s.sums[a.t], pid, s.now, {});
      }
    } else {
      ReservationsFrame(s, a, next);
      HeldShrinks(s.reservations, pid, s.now, next.now, {}, {});
    }
  }

  lemma ReservationsFrame(s: State, a: Action, next: State)
    requires Step(s, a, next) && !a.SumCommit?
    ensures next.reservations == s.reservations && s.now <= next.now
  {
  }

  // ---- webhooks

  /** The events that were delivered for one provider order. */
  function DeliveredTo(b: Book, provider: nat): set<nat> {
    set e | e in b.delivered && e in b.feed && b.feed[e].order == provider
  }

  /** The status of an accepted payment is the greatest of ACCEPTED and the statuses delivered to it. */
  ghost predicate IsGreatest(b: Book, provider: nat, status: nat) {
    && ACCEPTED <= status
    && (forall e :: e in DeliveredTo(b, provider) ==> VerdictOf(b, e).valid && VerdictOf(b, e).pay <= status)
    && (status == ACCEPTED || exists e :: e in DeliveredTo(b, provider) && VerdictOf(b, e).pay == status)
  }

  lemma StatusIsGreatest(b: Book, p: nat)
    requires BookInv(b) && p < |b.payments| && b.payments[p].provider.Some?
    ensures IsGreatest(b, b.payments[p].provider.value, b.payments[p].status)
  {
    var provider := b.payments[p].provider.value;
    forall e | e in DeliveredTo(b, provider)
      ensures VerdictOf(b, e).valid && VerdictOf(b, e).pay <= b.payments[p].status
    {
      assert HasTarget(b, e);
      var q: nat :| IsApplied(b, e, q);
      assert b.payments[q].provider == b.payments[p].provider;
      assert p == q;
    }
    if b.payments[p].status != ACCEPTED {
      assert HasCause(b, p);
      var e :| IsCause(b, e, p);
      assert e in DeliveredTo(b, provider);
    }
  }

  /** Captured, confirmed, announced and queued with the order's own lines, in every reachable state. */
  lemma CapturedMeansQueued(s0: State, run: seq<Action>, p: nat)
    requires Init(s0) && Legal(s0, run) && p < |Exec(s0, run).book.payments|
    ensures var b := Exec(s0, run).book;
            var o := b.payments[p].order;
            && o < |b.orders|
            && (b.payments[p].status == CAPTURED <==> b.orders[o].status == Confirmed)
            && (b.payments[p].status == CAPTURED <==> (OrderPaid, o) in b.outbox)
            && (b.payments[p].status == CAPTURED <==> exists i :: QueuesOrder(b, i, o))
            && (forall i, j :: QueuesOrder(b, i, o) && QueuesOrder(b, j, o) ==> i == j)
  {
    InvHolds(s0, run);
    var b := Exec(s0, run).book;
    assert b.payments[p].order == p && CapturedTogether(b, p);
    if HasIntent(b, p) {
      var i :| 0 <= i < |b.intents| && b.intents[i].order == p;
      assert QueuesOrder(b, i, p);
    }
  }

  predicate QueuesOrder(b: Book, i: nat, o: nat) {
    i < |b.intents| && o < |b.orders| && b.intents[i].order == o && b.intents[i].items == b.orders[o].items
  }

  /** Two runs that deliver the same events for a provider order agree on it, in whatever order and however often. */
  lemma DeliveriesConfluent(s1: State, run1: seq<Action>, s2: State, run2: seq<Action>, p1: nat, p2: nat)
    requires Init(s1) && Legal(s1, run1) && Init(s2) && Legal(s2, run2)
    requires Exec(s1, run1).book.feed == Exec(s2, run2).book.feed
    requires p1 < |Exec(s1, run1).book.payments| && p2 < |Exec(s2, run2).book.payments|
    requires Exec(s1, run1).book.payments[p1].provider.Some?
    requires Exec(s2, run2).book.payments[p2].provider == Exec(s1, run1).book.payments[p1].provider
    requires var x := Exec(s1, run1).book.payments[p1].provider.value;
             DeliveredTo(Exec(s1, run1).book, x) == DeliveredTo(Exec(s2, run2).book, x)
    ensures var b, c := Exec(s1, run1).book, Exec(s2, run2).book;
            && b.payments[p1].status == c.payments[p2].status
            && p1 < |b.orders| && p2 < |c.orders| && b.orders[p1].status == c.orders[p2].status
            && (HasIntent(b, p1) <==> HasIntent(c, p2))
            && IsGreatest(b, b.payments[p1].provider.value, b.payments[p1].status)
  {
    InvHolds(s1, run1);
    InvHolds(s2, run2);
    BooksAgree(Exec(s1, run1).book, Exec(s2, run2).book, p1, p2);
  }

  lemma BooksAgree(b: Book, c: Book, p1: nat, p2: nat)
    requires BookInv(b) && BookInv(c) && b.feed == c.feed && p1 < |b.payments| && p2 < |c.payments|
    requires b.payments[p1].provider.Some? && c.payments[p2].provider == b.payments[p1].provider
    requires DeliveredTo(b, b.payments[p1].provider.value) == DeliveredTo(c, b.payments[p1].provider.value)
    ensures b.payments[p1].status == c.payments[p2].status
    ensures p1 < |b.orders| && p2 < |c.orders| && b.orders[p1].status == c.orders[p2].status
    ensures HasIntent(b, p1) <==> HasIntent(c, p2)
    ensures IsGreatest(b, b.payments[p1].provider.value, b.payments[p1].status)
  {
    StatusIsGreatest(b, p1);
    StatusIsGreatest(c, p2);
    GreatestIsUnique(b, c, b.payments[p1].provider.value, b.payments[p1].status, c.payments[p2].status);
    assert CapturedTogether(b, p1) && CapturedTogether(c, p2);
  }

  lemma GreatestIsUnique(b: Book, c: Book, provider: nat, m: nat, n: nat)
    requires b.feed == c.feed && DeliveredTo(b, provider) == DeliveredTo(c, provider)
    requires IsGreatest(b, provider, m) && IsGreatest(c, provider, n)
    ensures m == n
  {
  }

  // ---- amounts

  /** In every reachable state the payment asks for the order's total, which is the sum of its parts; for a single line
      that is price times quantity and two per cent of it, rounded down. */
  lemma AmountsMatch(s0: State, run: seq<Action>, p: nat)
    requires Init(s0) && Legal(s0, run) && p < |Exec(s0, run).book.payments|
    ensures var b := Exec(s0, run).book;
            var o := b.payments[p].order;
            && o < |b.orders| && b.payments[p].amount == b.orders[o].totals.total
            && Balanced(b.orders[o].totals) && b.orders[o].totals.subtotal == Subtotal(b.orders[o].items)
            && b.orders[o].totals.codFee == b.orders[o].totals.shipping == b.orders[o].totals.discount == 0
            && (forall it :: b.orders[o].items == [it] ==> b.payments[p].amount == it.price * it.qty + it.price * it.qty / 50)
            && (b.orders[o].items != [] ==>
                  TaxSnapshots(b.orders[o].items) <= b.orders[o].totals.tax
                  <= TaxSnapshots(b.orders[o].items) + |b.orders[o].items| - 1)
  {
    InvHolds(s0, run);
    var b := Exec(s0, run).book;
    var o := b.payments[p].order;
    assert b.orders[o].totals == FinalTotals(b.orders[o].items, Upi);
    if b.orders[o].items != [] {
      TaxRounding(b.orders[o].items);
    }
    forall it | b.orders[o].items == [it] ensures b.payments[p].amount == it.price * it.qty + it.price * it.qty / 50 {
      SubtotalMeaning([], it);
      assert [] + [it] == [it];
    }
  }
}
