/** Which orders a checkout can still get, and what a key that has ordered can still get, over every continuation. */
module CheckoutOrders {
  import opened Amounts
  import opened Stock
  import opened Reservations
  import opened Shop
  import opened Rules
  import opened BookInvariants
  import opened FlightInvariants
  import opened ShopInvariants
  import opened ShopTheorems
  import opened SerialRuns

  ghost function OrdersOf(b: Book, cs: nat): set<nat> {
    set o | 0 <= o < |b.orders| && b.orders[o].ik < |b.iks| && CheckoutOf(b, o) == cs
  }

  // ---- no further order

  /** A confirm in flight that will not commit: a cash order, an old key read, or a key that is taken by now. */
  ghost predicate Hopeless(b: Book, x: ConTx) {
    x.how == Cod || x.ik.Existing? || (x.ik.Unread? && KeyTaken(b, x.key))
  }

  ghost predicate NoneConfirms(b: Book, cons: map<nat, ConTx>, cs: nat) {
    forall t :: t in cons && cons[t].cs == cs ==> Hopeless(b, cons[t])
  }

  /** No confirm of the checkout will commit, and none can start: it is inactive or too close to its end. */
  ghost predicate Closed(s: State, cs: nat) {
    && cs < |s.checkouts| && NoneConfirms(s.book, s.cons, cs)
    && (!s.checkouts[cs].active || s.checkouts[cs].expires < s.now + CONFIRM_MARGIN)
  }

  /** Its snapshot is to be paid in cash, and no summary is about to replace it by another. */
  ghost predicate CashOnly(s: State, cs: nat) {
    && cs < |s.checkouts| && s.checkouts[cs].snapshot.Taken? && s.checkouts[cs].snapshot.how == Cod
    && (forall t :: t in s.sums && s.sums[t].cs == cs ==> s.sums[t].how == Cod)
    && NoneConfirms(s.book, s.cons, cs)
  }

  lemma NoneConfirmsInBook(b: Book, c: Book, cons: map<nat, ConTx>, cs: nat)
    requires NoneConfirms(b, cons, cs) && |b.iks| <= |c.iks| && forall i :: 0 <= i < |b.iks| ==> c.iks[i].key == b.iks[i].key
    ensures NoneConfirms(c, cons, cs)
  {
    forall key | KeyTaken(b, key) ensures KeyTaken(c, key) {
      var i :| 0 <= i < |b.iks| && b.iks[i].key == key;
      assert c.iks[i].key == key;
    }
  }

  /** A confirm's own statements. */
  predicate ByConfirm(a: Action) {
    a.ConStart? || a.ConFresh? || a.ConReplay? || a.ConCommit? || a.ConAbort?
  }

  lemma NoneConfirmsByConfirm(s: State, a: Action, next: State, cs: nat)
    requires Step(s, a, next) && ByConfirm(a) && !a.ConCommit? && NoneConfirms(s.book, s.cons, cs)
    requires a.ConStart? && a.cs == cs ==> s.checkouts[cs].snapshot.how == Cod
    ensures NoneConfirms(next.book, next.cons, cs)
  {
  }

  lemma NoneConfirmsByCommit(s: State, t: nat, cs: nat)
    requires CanConCommit(s, t) && NoneConfirms(s.book, s.cons, cs)
    ensures NoneConfirms(DoConCommit(s, t).book, s.cons - {t}, cs)
  {
    NoneConfirmsInBook(s.book, DoConCommit(s, t).book, s.cons, cs);
  }

  lemma ConsFrame(s: State, a: Action, next: State)
    requires Step(s, a, next) && !ByConfirm(a)
    ensures next.cons == s.cons
  {
  }

  lemma NoneConfirmsStep(s: State, a: Action, next: State, cs: nat)
    requires Step(s, a, next) && NoneConfirms(s.book, s.cons, cs)
    requires a.ConStart? && a.cs == cs ==> s.checkouts[cs].snapshot.how == Cod
    ensures NoneConfirms(next.book, next.cons, cs)
  {
    if a.ConCommit? {
      NoneConfirmsByCommit(s, a.t, cs);
    } else if ByConfirm(a) {
      NoneConfirmsByConfirm(s, a, next, cs);
    } else {
      ConsFrame(s, a, next);
      RowsFrame(s, a, next);
      NoneConfirmsInBook(s.book, next.book, s.cons, cs);
    }
  }

  /** A checkout never becomes active again, and its end and the clock only draw nearer. */
  lemma StaysShut(s: State, a: Action, next: State, cs: nat)
    requires Step(s, a, next) && cs < |s.checkouts|
    requires !s.checkouts[cs].active || s.checkouts[cs].expires < s.now + CONFIRM_MARGIN
    ensures cs < |next.checkouts| && (!next.checkouts[cs].active || next.checkouts[cs].expires < next.now + CONFIRM_MARGIN)
  {
    if !TouchesConfirms(a) {
      ConfirmsFrame(s, a, next);
      ReservationsFrame(s, a, next);
    }
  }

  lemma ClosedStep(s: State, a: Action, next: State, cs: nat)
    requires Step(s, a, next) && Closed(s, cs)
    ensures Closed(next, cs)
  {
    NoneConfirmsStep(s, a, next, cs);
    StaysShut(s, a, next, cs);
  }

  lemma CashOnlyBySummary(s: State, a: Action, next: State, cs: nat)
    requires Step(s, a, next) && BySummary(a) && CashOnly(s, cs)
    ensures cs < |next.checkouts| && next.checkouts[cs].snapshot.Taken? && next.checkouts[cs].snapshot.how == Cod
    ensures forall t :: t in next.sums && next.sums[t].cs == cs ==> next.sums[t].how == Cod
  {
  }

  lemma CheckoutsKeepSnapshots(s: State, a: Action, next: State, cs: nat)
    requires Step(s, a, next) && !BySummary(a) && cs < |s.checkouts|
    ensures cs < |next.checkouts| && next.checkouts[cs].snapshot == s.checkouts[cs].snapshot
  {
    if !TouchesConfirms(a) {
      ConfirmsFrame(s, a, next);
    }
  }

  lemma CashOnlyStep(s: State, a: Action, next: State, cs: nat)
    requires Step(s, a, next) && CashOnly(s, cs)
    ensures CashOnly(next, cs)
  {
    NoneConfirmsStep(s, a, next, cs);
    if BySummary(a) {
      CashOnlyBySummary(s, a, next, cs);
    } else {
      SumsFrame(s, a, next);
      CheckoutsKeepSnapshots(s, a, next, cs);
    }
  }

  lemma OrdersFromRows(b: Book, c: Book, cs: nat)
    requires RowsStay(b, c)
    ensures OrdersOf(c, cs) == OrdersOf(b, cs)
  {
  }

  lemma OrdersByCommit(s: State, t: nat, cs: nat)
    requires RowsInv(s.book) && ConfirmsSound(s.checkouts, s.book.iks, s.cons) && CanConCommit(s, t)
    ensures OrdersOf(DoConCommit(s, t).book, cs)
            == if s.cons[t].cs == cs then OrdersOf(s.book, cs) + {|s.book.orders|} else OrdersOf(s.book, cs)
  {
    FreshCommit(s, t);
  }

  /** An action gives a checkout an order exactly as the commit of one of its confirms. */
  lemma OrdersStep(s: State, a: Action, next: State, cs: nat)
    requires RowsInv(s.book) && ConfirmsSound(s.checkouts, s.book.iks, s.cons) && Step(s, a, next)
    ensures OrdersOf(next.book, cs)
            == if a.ConCommit? && s.cons[a.t].cs == cs then OrdersOf(s.book, cs) + {|s.book.orders|} else OrdersOf(s.book, cs)
  {
    if a.ConCommit? {
      OrdersByCommit(s, a.t, cs);
    } else {
      RowsFrame(s, a, next);
      OrdersFromRows(s.book, next.book, cs);
    }
  }

  lemma HopelessNeverCommits(s: State, a: Action, next: State, cs: nat)
    requires RowsInv(s.book) && ConfirmsSound(s.checkouts, s.book.iks, s.cons) && Step(s, a, next)
    requires NoneConfirms(s.book, s.cons, cs)
    ensures a.ConCommit? ==> s.cons[a.t].cs != cs
  {
    if a.ConCommit? {
      FreshCommit(s, a.t);
    }
  }

  /** Over every continuation, whatever else is in flight, a closed checkout gets no further order. */
  lemma {:induction false} ClosedForGood(s: State, run: seq<Action>, cs: nat)
    requires Inv(s) && Legal(s, run) && Closed(s, cs)
    ensures Closed(Exec(s, run), cs) && OrdersOf(Exec(s, run).book, cs) == OrdersOf(s.book, cs)
    decreases |run|
  {
    if run != [] {
      var n := |run| - 1;
      ClosedForGood(s, run[..n], cs);
      RunKeepsInv(s, run[..n]);
      ClosedStep(Exec(s, run[..n]), run[n], Do(Exec(s, run[..n]), run[n]), cs);
      HopelessNeverCommits(Exec(s, run[..n]), run[n], Do(Exec(s, run[..n]), run[n]), cs);
      OrdersStep(Exec(s, run[..n]), run[n], Do(Exec(s, run[..n]), run[n]), cs);
    }
  }

  lemma {:induction false} CashOnlyForGood(s: State, run: seq<Action>, cs: nat)
    requires Inv(s) && Legal(s, run) && CashOnly(s, cs)
    ensures CashOnly(Exec(s, run), cs) && OrdersOf(Exec(s, run).book, cs) == OrdersOf(s.book, cs)
    decreases |run|
  {
    if run != [] {
      var n := |run| - 1;
      CashOnlyForGood(s, run[..n], cs);
      RunKeepsInv(s, run[..n]);
      CashOnlyStep(Exec(s, run[..n]), run[n], Do(Exec(s, run[..n]), run[n]), cs);
      HopelessNeverCommits(Exec(s, run[..n]), run[n], Do(Exec(s, run[..n]), run[n]), cs);
      OrdersStep(Exec(s, run[..n]), run[n], Do(Exec(s, run[..n]), run[n]), cs);
    }
  }

  // ---- exactly when there can be one more

  /** What a caller can see of the checkout: active, in time, and not to be paid in cash. */
  predicate StillOpen(s: State, cs: nat)
    requires cs < |s.checkouts|
  {
    var c := s.checkouts[cs];
    c.active && c.expires >= s.now + CONFIRM_MARGIN && !(c.snapshot.Taken? && c.snapshot.how == Cod)
  }

  ghost predicate GainsOrder(s: State, run: seq<Action>, cs: nat) {
    Legal(s, run) && OrdersOf(Exec(s, run).book, cs) != OrdersOf(s.book, cs)
  }

  /** Some continuation gives the checkout one more order. */
  ghost predicate MayOrder(s: State, cs: nat) {
    exists run :: GainsOrder(s, run, cs)
  }

  function UnusedKey(iks: seq<IKey>): (key: nat)
    ensures forall i :: 0 <= i < |iks| ==> iks[i].key < key
  {
    if iks == [] then 0
    else
      var before, last := UnusedKey(iks[..|iks| - 1]), iks[|iks| - 1].key;
      if last < before then before else last + 1
  }

  lemma ReachedMayOrder(s: State, t: State, cs: nat)
    requires Reaches(s, t) && OrdersOf(t.book, cs) != OrdersOf(s.book, cs)
    ensures MayOrder(s, cs)
  {
    var run :| Legal(s, run) && RunKeeps(s, run, {}) && Exec(s, run) == t;
    assert GainsOrder(s, run, cs);
  }

  lemma ConfirmGains(s: State, cs: nat, key: nat)
    requires Quiet(s) && CanConfirm(s, cs, key)
    ensures |s.book.orders| in OrdersOf(Ordered(s, cs, key).book, cs)
    ensures |s.book.orders| !in OrdersOf(s.book, cs)
  {
  }

  /** A product in stock, summarised for a checkout without snapshot. */
  function OnePieceMore(s: State): State {
    DoSetStock(s, 0, Held(s.reservations, 0, s.now, {}) + 1)
  }

  lemma OnePieceAvailable(s: State, cs: nat)
    requires cs < |s.checkouts| && StillOpen(s, cs) && s.checkouts[cs].snapshot.NoSnapshot?
    ensures var t, items := OnePieceMore(s), [Item(0, 1, 1)];
            CanSummarise(t, cs, items) && Available(t.reservations, items, Seen(t.stock, items), t.now)
  {
    assert Pids([Item(0, 1, 1)]) == {0};
  }

  lemma SummaryPossible(s: State, cs: nat)
    requires Quiet(s) && cs < |s.checkouts| && StillOpen(s, cs) && s.checkouts[cs].snapshot.NoSnapshot?
    ensures Reaches(s, Summarised(OnePieceMore(s), cs, [Item(0, 1, 1)], Upi))
  {
    var t, items := OnePieceMore(s), [Item(0, 1, 1)];
    OnePieceAvailable(s, cs);
    ReachesSelf(s, {});
    TakesSetStock(s, s, 0, Held(s.reservations, 0, s.now, {}) + 1, t, {});
    SummaryRun(t, cs, items, Upi, {});
    ReachesOn(s, t, Summarised(t, cs, items, Upi), {});
  }

  lemma OrderPossible(s: State, cs: nat)
    requires Quiet(s) && cs < |s.checkouts| && StillOpen(s, cs)
    ensures MayOrder(s, cs)
  {
    ReachesSelf(s, {});
    var t := s;
    if s.checkouts[cs].snapshot.NoSnapshot? {
      SummaryPossible(s, cs);
      t := Summarised(OnePieceMore(s), cs, [Item(0, 1, 1)], Upi);
    }
    var key := UnusedKey(t.book.iks);
    ConfirmRun(t, cs, key, {});
    ReachesOn(s, t, Ordered(t, cs, key), {});
    ConfirmGains(t, cs, key);
    ReachedMayOrder(s, Ordered(t, cs, key), cs);
  }

  /** A UPI confirm of the checkout is past its validation, and its key is its own. */
  ghost predicate StillConfirming(b: Book, x: ConTx, cs: nat) {
    x.cs == cs && !Hopeless(b, x)
  }

  /** All but one confirm given up. */
  function Cleared(s: State, keep: set<nat>): State {
    s.(sums := map[], cons := KeptCons(s.cons, keep), whs := map[], draws := map[])
  }

  lemma ClearedReached(s: State, keep: set<nat>)
    ensures Reaches(s, Cleared(s, keep))
  {
    ReachesSelf(s, {});
    DropSums(s, s);
    var u := s.(sums := map[]);
    DropCons(s, u, keep);
    var v := u.(cons := KeptCons(s.cons, keep));
    DropWhs(s, v);
    var w := v.(whs := map[]);
    var none := Above(w.draws.Keys);
    DropDraws(s, w, none);
    assert KeptDraws(w.draws, none) == map[];
  }

  lemma MayOrderFrom(s: State, t: State, cs: nat)
    requires Reaches(s, t) && OrdersOf(t.book, cs) == OrdersOf(s.book, cs) && MayOrder(t, cs)
    ensures MayOrder(s, cs)
  {
    var run :| GainsOrder(t, run, cs);
    RunReaches(t, run);
    ReachesOn(s, t, Exec(t, run), {});
    ReachedMayOrder(s, Exec(t, run), cs);
  }

  lemma {:induction false} RunReaches(s: State, run: seq<Action>)
    requires Legal(s, run)
    ensures RunKeeps(s, run, {}) && Reaches(s, Exec(s, run))
    decreases |run|
  {
    if run != [] {
      RunReaches(s, run[..|run| - 1]);
    }
  }

  lemma OpenMayOrder(s: State, cs: nat)
    requires cs < |s.checkouts| && StillOpen(s, cs)
    ensures MayOrder(s, cs)
  {
    ClearedReached(s, {});
    var t := Cleared(s, {});
    OrderPossible(t, cs);
    MayOrderFrom(s, t, cs);
  }

  lemma FreshConfirms(s0: State, s: State, t: nat)
    requires Reaches(s0, s) && t in s.cons && s.cons[t].ik.Fresh? && s.cons[t].how == Upi && s.cons[t].cs < |s.checkouts|
    requires RowsInv(s.book) && ConfirmsSound(s.checkouts, s.book.iks, s.cons)
    requires OrdersOf(s.book, s.cons[t].cs) == OrdersOf(s0.book, s.cons[t].cs)
    ensures MayOrder(s0, s.cons[t].cs)
  {
    var u, cs := DoConCommit(s, t), s.cons[t].cs;
    TakesConCommit(s0, s, t, u, {});
    OrdersByCommit(s, t, cs);
    assert |s.book.orders| !in OrdersOf(s.book, cs);
    ReachedMayOrder(s0, u, cs);
  }

  lemma UnreadConfirms(s0: State, s: State, t: nat)
    requires Inv(s0) && Reaches(s0, s) && s.cons.Keys == {t} && s.cons[t].cs < |s.checkouts|
    requires s.cons[t].ik.Unread? && s.cons[t].how == Upi && !KeyTaken(s.book, s.cons[t].key)
    requires OrdersOf(s.book, s.cons[t].cs) == OrdersOf(s0.book, s.cons[t].cs)
    ensures MayOrder(s0, s.cons[t].cs)
  {
    var u := DoConKey(s, t, Fresh);
    TakesConFresh(s0, s, t, u, {});
    ReachesKeepsInv(s0, u, {});
    FreshConfirms(s0, u, t);
  }

  lemma InFlightMayOrder(s: State, t: nat)
    requires Inv(s) && t in s.cons && !Hopeless(s.book, s.cons[t])
    ensures MayOrder(s, s.cons[t].cs)
  {
    ClearedReached(s, {t});
    ClearedKeeps(s, t);
    ReachesKeepsInv(s, Cleared(s, {t}), {});
    if s.cons[t].ik.Fresh? {
      FreshConfirms(s, Cleared(s, {t}), t);
    } else {
      UnreadConfirms(s, Cleared(s, {t}), t);
    }
  }

  lemma ClearedKeeps(s: State, t: nat)
    requires t in s.cons
    ensures Cleared(s, {t}).cons.Keys == {t} && Cleared(s, {t}).cons[t] == s.cons[t]
    ensures Cleared(s, {t}).book == s.book && Cleared(s, {t}).checkouts == s.checkouts
  {
  }

  lemma BarredNeverOrders(s: State, run: seq<Action>, cs: nat)
    requires Inv(s) && (Closed(s, cs) || CashOnly(s, cs))
    ensures !GainsOrder(s, run, cs)
  {
    if Legal(s, run) {
      if Closed(s, cs) {
        ClosedForGood(s, run, cs);
      } else {
        CashOnlyForGood(s, run, cs);
      }
    }
  }

  /** Whatever is in flight, a checkout can get one more order if and only if it is active, in time and not to be paid in
      cash, or a UPI confirm of it with a key that is still its own is past its validation. (A cash snapshot that a summary
      in flight is about to replace by a UPI one is left aside.) */
  lemma FurtherOrderInFlight(s: State, cs: nat)
    requires Inv(s) && cs < |s.checkouts|
    requires s.checkouts[cs].snapshot.Taken? && s.checkouts[cs].snapshot.how == Cod ==>
               forall t :: t in s.sums && s.sums[t].cs == cs ==> s.sums[t].how == Cod
    ensures MayOrder(s, cs) <==> StillOpen(s, cs) || exists t :: t in s.cons && StillConfirming(s.book, s.cons[t], cs)
  {
    if StillOpen(s, cs) {
      OpenMayOrder(s, cs);
    } else if t :| t in s.cons && StillConfirming(s.book, s.cons[t], cs) {
      InFlightMayOrder(s, t);
    } else {
      assert NoneConfirms(s.book, s.cons, cs);
      forall run ensures !GainsOrder(s, run, cs) {
        BarredNeverOrders(s, run, cs);
      }
    }
  }

  /** With nothing in flight, a checkout can get one more order if and only if it is active, in time, and not to be paid
      in cash; with a snapshot that is: if and only if some key that is not used yet can confirm it now. */
  lemma FurtherOrderExactly(s: State, cs: nat)
    requires Inv(s) && Quiet(s) && cs < |s.checkouts|
    ensures MayOrder(s, cs) <==> StillOpen(s, cs)
    ensures s.checkouts[cs].snapshot.Taken? ==> (MayOrder(s, cs) <==> exists key :: CanConfirm(s, cs, key))
  {
    FurtherOrderInFlight(s, cs);
    assert s.checkouts[cs].snapshot.Taken? && StillOpen(s, cs) ==> CanConfirm(s, cs, UnusedKey(s.book.iks));
  }

  /** From every initial state the first checkout can be made ready to confirm. */
  lemma ReadyReached(s: State) returns (t: State)
    requires Init(s)
    ensures Reaches(s, t) && Quiet(t) && t.book == s.book && t.now == s.now
    ensures t.checkouts == [Checkout(0, s.now + CHECKOUT_TTL, true, Taken([Item(0, 1, 1)], Upi))]
  {
    var open := s.(checkouts := [Checkout(0, s.now + CHECKOUT_TTL, true, NoSnapshot)]);
    ReachesSelf(s, {});
    TakesInitiate(s, s, 0, open, {});
    SummaryPossible(open, 0);
    t := Summarised(OnePieceMore(open), 0, [Item(0, 1, 1)], Upi);
    ReachesOn(s, open, t, {});
  }

  lemma ExactlyTwo(s: State)
    requires s.book.iks == [] && s.book.orders == [] && 0 < |s.checkouts| && s.checkouts[0].snapshot.Taken?
    ensures OrdersOf(Ordered(Ordered(s, 0, 0), 0, 1).book, 0) == {0, 1}
  {
  }

  /** And then it can get two orders. */
  lemma TwoOrdersReached(s: State)
    requires Init(s)
    ensures exists t :: Reaches(s, t) && OrdersOf(t.book, 0) == {0, 1}
  {
    var t0 := ReadyReached(s);
    var t1, t2 := Ordered(t0, 0, 0), Ordered(Ordered(t0, 0, 0), 0, 1);
    ConfirmRun(t0, 0, 0, {});
    ReachesOn(s, t0, t1, {});
    ConfirmRun(t1, 0, 1, {});
    ReachesOn(s, t1, t2, {});
    ExactlyTwo(t0);
  }

  lemma OtherKeyConfirms(s: State, cs: nat, key: nat, other: nat)
    requires Quiet(s) && CanConfirm(s, cs, key) && !KeyTaken(s.book, other) && key != other
    ensures Quiet(Ordered(s, cs, key)) && CanConfirm(Ordered(s, cs, key), cs, other)
  {
    var t := Ordered(s, cs, key);
    assert forall i :: 0 <= i < |t.book.iks| ==> t.book.iks[i].key == if i < |s.book.iks| then s.book.iks[i].key else key;
  }

  lemma BothOrders(s: State, cs: nat, key: nat, other: nat)
    requires CanConfirm(s, cs, key) && CanConfirm(Ordered(s, cs, key), cs, other)
    ensures var b, n := Ordered(Ordered(s, cs, key), cs, other).book, |s.book.orders|;
            {n, n + 1} <= OrdersOf(b, cs) && b.orders[n].items == b.orders[n + 1].items
  {
  }

  /** As one order per key is not one order per checkout: until the provider has answered, a second key gets a second
      order for the same lines. */
  lemma TwoOrdersOneCheckout(s: State, cs: nat, key: nat, other: nat)
    requires Quiet(s) && CanConfirm(s, cs, key) && !KeyTaken(s.book, other) && key != other
    ensures var t := Ordered(s, cs, key);
            CanConfirm(t, cs, other) && Reaches(s, Ordered(t, cs, other))
    ensures var b, n := Ordered(Ordered(s, cs, key), cs, other).book, |s.book.orders|;
            {n, n + 1} <= OrdersOf(b, cs) && b.orders[n].items == b.orders[n + 1].items
  {
    var t := Ordered(s, cs, key);
    ConfirmRun(s, cs, key, {});
    OtherKeyConfirms(s, cs, key, other);
    ConfirmRun(t, cs, other, {});
    ReachesOn(s, t, Ordered(t, cs, other), {});
    BothOrders(s, cs, key, other);
  }

  // ---- what the retry of a confirmed key can rely on

  lemma InactiveStep(s: State, a: Action, next: State, cs: nat)
    requires Step(s, a, next) && cs < |s.checkouts| && !s.checkouts[cs].active
    ensures cs < |next.checkouts| && !next.checkouts[cs].active
  {
    if !TouchesConfirms(a) {
      ConfirmsFrame(s, a, next);
    }
  }

  lemma {:induction false} InactiveForGood(s: State, run: seq<Action>, cs: nat)
    requires Legal(s, run) && cs < |s.checkouts| && !s.checkouts[cs].active
    ensures cs < |Exec(s, run).checkouts| && !Exec(s, run).checkouts[cs].active
    decreases |run|
  {
    if run != [] {
      var n := |run| - 1;
      InactiveForGood(s, run[..n], cs);
      InactiveStep(Exec(s, run[..n]), run[n], Do(Exec(s, run[..n]), run[n]), cs);
    }
  }

  /** The checkout keeps its user and its snapshot, which no summary is about to replace. */
  ghost predicate Fixed(s: State, cs: nat, user: nat, snap: Snapshot) {
    && cs < |s.checkouts| && s.checkouts[cs].user == user && s.checkouts[cs].snapshot == snap && snap.Taken?
    && (forall t :: t in s.sums ==> s.sums[t].cs != cs)
  }

  lemma FixedBySummary(s: State, a: Action, next: State, cs: nat, user: nat, snap: Snapshot)
    requires Step(s, a, next) && BySummary(a) && Fixed(s, cs, user, snap)
    ensures Fixed(next, cs, user, snap)
  {
  }

  lemma FixedStep(s: State, a: Action, next: State, cs: nat, user: nat, snap: Snapshot)
    requires Step(s, a, next) && Fixed(s, cs, user, snap)
    ensures Fixed(next, cs, user, snap)
  {
    if BySummary(a) {
      FixedBySummary(s, a, next, cs, user, snap);
    } else {
      SumsFrame(s, a, next);
      if !TouchesConfirms(a) {
        ConfirmsFrame(s, a, next);
      }
    }
  }

  /** The key row with its unanswered order, whose payment nobody waits for any more. */
  ghost predicate Abandoned(b: Book, ik: nat, row: IKey) {
    && ik < |b.iks| && b.iks[ik] == row && !row.answered && ik < |b.payments| && ik !in b.awaiting
  }

  lemma AbandonedByCommit(s: State, t: nat, ik: nat, row: IKey)
    requires RowsInv(s.book) && ConfirmsSound(s.checkouts, s.book.iks, s.cons) && CanConCommit(s, t)
    requires Abandoned(s.book, ik, row)
    ensures Abandoned(DoConCommit(s, t).book, ik, row)
  {
    FreshCommit(s, t);
  }

  lemma AbandonedByAccept(b: Book, p: nat, provider: nat, ik: nat, row: IKey)
    requires RowsInv(b) && CanPspAccept(b, p, provider) && Abandoned(b, ik, row)
    ensures Abandoned(DoPspAccept(b, p, provider), ik, row)
  {
  }

  lemma AbandonedByWebhook(b: Book, e: nat, p: nat, ik: nat, row: IKey)
    requires e in b.feed && p < |b.payments| && b.payments[p].order < |b.orders| && Abandoned(b, ik, row)
    ensures Abandoned(DoWebhook(b, e, p), ik, row)
  {
  }

  lemma AbandonedStep(s: State, a: Action, next: State, ik: nat, row: IKey)
    requires RowsInv(s.book) && ConfirmsSound(s.checkouts, s.book.iks, s.cons) && Step(s, a, next)
    requires Abandoned(s.book, ik, row)
    ensures Abandoned(next.book, ik, row)
  {
    if a.ConCommit? {
      AbandonedByCommit(s, a.t, ik, row);
    } else {
      AbandonedByOthers(s, a, next, ik, row);
    }
  }

  lemma AbandonedByOthers(s: State, a: Action, next: State, ik: nat, row: IKey)
    requires RowsInv(s.book) && Step(s, a, next) && !a.ConCommit? && Abandoned(s.book, ik, row)
    ensures Abandoned(next.book, ik, row)
  {
    if !TouchesBook(a) {
      BookFrame(s, a, next);
    } else if ByWorker(a) {
      WorkersLeaveRows(s, a, next);
    } else if a.PspAccept? {
      AbandonedByAccept(s.book, a.pay, a.provider, ik, row);
    } else if a.WhCommit? {
      AbandonedByWebhook(s.book, s.whs[a.t].ev, s.whs[a.t].pay, ik, row);
    }
  }

  lemma {:induction false} AbandonedForGood(s: State, run: seq<Action>, cs: nat, user: nat, snap: Snapshot, ik: nat, row: IKey)
    requires Inv(s) && Legal(s, run) && Fixed(s, cs, user, snap) && Abandoned(s.book, ik, row)
    ensures Fixed(Exec(s, run), cs, user, snap) && Abandoned(Exec(s, run).book, ik, row)
    decreases |run|
  {
    if run != [] {
      var n := |run| - 1;
      AbandonedForGood(s, run[..n], cs, user, snap, ik, row);
      RunKeepsInv(s, run[..n]);
      FixedStep(Exec(s, run[..n]), run[n], Do(Exec(s, run[..n]), run[n]), cs, user, snap);
      AbandonedStep(Exec(s, run[..n]), run[n], Do(Exec(s, run[..n]), run[n]), ik, row);
    }
  }
}
