/** The reservation guarantee: under four rules of use, a captured order always finds its stock. */
module Guarantee {
  import opened Payments
  import opened Stock
  import opened Reservations
  import opened Amounts
  import opened Shop
  import opened Rules
  import opened BookInvariants
  import opened FlightInvariants
  import opened ShopInvariants
  import opened ShopTheorems

  /** The checkouts whose order has been drawn. */
  ghost function DrawnCheckouts(b: Book): set<nat> {
    set i | 0 <= i < |b.intents| && b.intents[i].status == Done && b.intents[i].order < |b.iks| :: b.iks[b.intents[i].order].cs
  }

  ghost predicate HasReservation(rows: seq<Reservation>, r: Reservation) {
    exists i :: 0 <= i < |rows| && rows[i] == r
  }

  /** A checkout's reservations are exactly its snapshot: each line once, until the checkout expires. */
  ghost predicate SnapshotReserved(s: State, cs: nat)
    requires cs < |s.checkouts|
  {
    s.checkouts[cs].snapshot.Taken? ==>
      var items := s.checkouts[cs].snapshot.items;
      Distinct(items) &&
      forall k :: 0 <= k < |items| ==>
        HasReservation(s.reservations, Reservation(items[k].pid, cs, items[k].qty, s.checkouts[cs].expires))
  }

  ghost predicate ReservedInv(s: State) {
    && (forall i :: 0 <= i < |s.reservations| ==>
          && s.reservations[i].cs < |s.checkouts| && s.checkouts[s.reservations[i].cs].snapshot.Taken?
          && s.reservations[i].pid in s.stock)
    && (forall cs :: 0 <= cs < |s.checkouts| ==> SnapshotReserved(s, cs))
  }

  /** Every order's lines are its checkout's snapshot. */
  ghost predicate OrdersFromSnapshots(checkouts: seq<Checkout>, iks: seq<IKey>, orders: seq<Order>) {
    |iks| == |orders| &&
    forall o :: 0 <= o < |orders| ==>
      && iks[o].cs < |checkouts| && checkouts[iks[o].cs].snapshot.Taken?
      && orders[o].items == checkouts[iks[o].cs].snapshot.items
  }

  ghost predicate OneCapturedEach(iks: seq<IKey>, payments: seq<Payment>) {
    |iks| == |payments| &&
    forall p, q :: 0 <= p < q < |payments| && payments[p].status == CAPTURED && payments[q].status == CAPTURED ==>
      iks[p].cs != iks[q].cs
  }

  /** What is promised and not yet handed over never exceeds what is there. */
  ghost predicate Covered(s: State, pid: nat) {
    pid in s.stock ==> Held(s.reservations, pid, s.now, DrawnCheckouts(s.book)) <= s.stock[pid]
  }

  /** A worker has met no shortage, and each row it took leaves room for everybody else's reservations. */
  ghost predicate DrawOnTrack(s: State, x: DrawTx) {
    x.intent < |s.book.intents| && s.book.intents[x.intent].order < |s.book.iks| &&
    (!x.failing ==>
      && !x.draft.failed
      && forall pid :: pid in x.draft.writes ==>
           Held(s.reservations, pid, s.now, DrawnCheckouts(s.book) + {s.book.iks[s.book.intents[x.intent].order].cs})
           <= x.draft.writes[pid])
  }

  ghost predicate GuaranteeInv(s: State) {
    && ReservedInv(s)
    && OrdersFromSnapshots(s.checkouts, s.book.iks, s.book.orders)
    && OneCapturedEach(s.book.iks, s.book.payments)
    && (forall pid {:trigger Covered(s, pid)} :: Covered(s, pid))
    && (forall t :: t in s.draws ==> DrawOnTrack(s, s.draws[t]))
  }

  // ---- the reservations of a checkout

  lemma ReservedKeptBySummary(s: State, t: nat)
    requires ReservedInv(s) && SummariesSound(s) && Enabled(s, SumCommit(t)) && ByTheRules(s, SumCommit(t))
    ensures ReservedInv(DoSumCommit(s, t))
  {
    var s', x := DoSumCommit(s, t), s.sums[t];
    var until := s.checkouts[x.cs].expires;
    assert SummarySound(s, x);
    ReserveExact(s.reservations, x.items, x.cs, until);
    forall cs | 0 <= cs < |s'.checkouts| ensures SnapshotReserved(s', cs) {
      if cs == x.cs {
        forall k | 0 <= k < |x.items|
          ensures HasReservation(s'.reservations, Reservation(x.items[k].pid, cs, x.items[k].qty, until))
        {
          assert s'.reservations[|s.reservations| + k] == Reservation(x.items[k].pid, cs, x.items[k].qty, until);
        }
      } else {
        ReservationsStay(s, s', cs);
      }
    }
    forall i | 0 <= i < |s'.reservations|
      ensures s'.reservations[i].cs < |s'.checkouts| && s'.checkouts[s'.reservations[i].cs].snapshot.Taken?
              && s'.reservations[i].pid in s'.stock
    {
      if i >= |s.reservations| {
        assert s'.reservations[i].pid == x.items[i - |s.reservations|].pid;
      }
    }
  }

  lemma ReservationsStay(s: State, s': State, cs: nat)
    requires cs < |s.checkouts| && cs < |s'.checkouts| && SnapshotReserved(s, cs)
    requires s'.checkouts[cs].snapshot == s.checkouts[cs].snapshot && s'.checkouts[cs].expires == s.checkouts[cs].expires
    requires s.reservations <= s'.reservations
    ensures SnapshotReserved(s', cs)
  {
    if s.checkouts[cs].snapshot.Taken? {
      var items := s.checkouts[cs].snapshot.items;
      forall k | 0 <= k < |items|
        ensures HasReservation(s'.reservations, Reservation(items[k].pid, cs, items[k].qty, s.checkouts[cs].expires))
      {
        var r := Reservation(items[k].pid, cs, items[k].qty, s.checkouts[cs].expires);
        assert HasReservation(s.reservations, r);
        var i :| 0 <= i < |s.reservations| && s.reservations[i] == r;
        assert s'.reservations[i] == r;
      }
    }
  }

  lemma CheckoutsFrame(s: State, a: Action, next: State)
    requires Step(s, a, next) && !a.SumCommit?
    ensures |s.checkouts| <= |next.checkouts|
    ensures forall cs :: 0 <= cs < |s.checkouts| ==>
              && next.checkouts[cs].snapshot == s.checkouts[cs].snapshot
              && next.checkouts[cs].expires == s.checkouts[cs].expires
    ensures forall cs :: |s.checkouts| <= cs < |next.checkouts| ==> next.checkouts[cs].snapshot.NoSnapshot?
  {
    if !TouchesConfirms(a) {
      ConfirmsFrame(s, a, next);
    }
  }

  lemma StockKeysGrow(s: State, a: Action, next: State)
    requires Step(s, a, next)
    ensures s.stock.Keys <= next.stock.Keys
  {
    if !TouchesDraws(a) {
      DrawsFrame(s, a, next);
    }
  }

  lemma ReservedKept(s: State, a: Action, next: State)
    requires ReservedInv(s) && SummariesSound(s) && Step(s, a, next) && ByTheRules(s, a)
    ensures ReservedInv(next)
  {
    if a.SumCommit? {
      ReservedKeptBySummary(s, a.t);
    } else {
      CheckoutsFrame(s, a, next);
      ReservationsFrame(s, a, next);
      StockKeysGrow(s, a, next);
      ReservedCarries(s, next);
    }
  }

  lemma ReservedCarries(s: State, s': State)
    requires ReservedInv(s) && s'.reservations == s.reservations && s.stock.Keys <= s'.stock.Keys
    requires |s.checkouts| <= |s'.checkouts|
    requires forall cs :: 0 <= cs < |s.checkouts| ==>
               && s'.checkouts[cs].snapshot == s.checkouts[cs].snapshot && s'.checkouts[cs].expires == s.checkouts[cs].expires
    requires forall cs :: |s.checkouts| <= cs < |s'.checkouts| ==> s'.checkouts[cs].snapshot.NoSnapshot?
    ensures ReservedInv(s')
  {
    forall cs | 0 <= cs < |s'.checkouts| ensures SnapshotReserved(s', cs) {
      if cs < |s.checkouts| {
        ReservationsStay(s, s', cs);
      }
    }
  }

  // ---- orders and their checkouts

  lemma OrdersKeptByCheckouts(checkouts: seq<Checkout>, later: seq<Checkout>, iks: seq<IKey>, orders: seq<Order>)
    requires OrdersFromSnapshots(checkouts, iks, orders) && |checkouts| <= |later|
    requires forall cs :: 0 <= cs < |checkouts| && checkouts[cs].snapshot.Taken? ==> later[cs].snapshot == checkouts[cs].snapshot
    ensures OrdersFromSnapshots(later, iks, orders)
  {
  }

  lemma OrdersKeptByConfirm(s: State, t: nat)
    requires OrdersFromSnapshots(s.checkouts, s.book.iks, s.book.orders)
    requires ConfirmsSound(s.checkouts, s.book.iks, s.cons) && CanConCommit(s, t) && s.cons[t].ik.Fresh?
    ensures OrdersFromSnapshots(s.checkouts, DoConCommit(s, t).book.iks, DoConCommit(s, t).book.orders)
  {
  }

  lemma OrdersKeptByOthers(s: State, a: Action, next: State)
    requires OrdersFromSnapshots(s.checkouts, s.book.iks, s.book.orders) && Step(s, a, next) && ByTheRules(s, a)
    requires ConfirmsSound(s.checkouts, s.book.iks, s.cons) && RowsInv(s.book)
    requires !a.ConCommit?
    ensures OrdersFromSnapshots(next.checkouts, next.book.iks, next.book.orders)
  {
    RowsFrame(s, a, next);
    if !a.SumCommit? {
      CheckoutsFrame(s, a, next);
    }
    OrdersKeptByCheckouts(s.checkouts, next.checkouts, s.book.iks, s.book.orders);
  }

  lemma OrdersKept(s: State, a: Action, next: State)
    requires OrdersFromSnapshots(s.checkouts, s.book.iks, s.book.orders) && Step(s, a, next) && ByTheRules(s, a)
    requires ConfirmsSound(s.checkouts, s.book.iks, s.cons) && RowsInv(s.book)
    ensures OrdersFromSnapshots(next.checkouts, next.book.iks, next.book.orders)
  {
    if a.ConCommit? {
      FreshCommit(s, a.t);
      OrdersKeptByConfirm(s, a.t);
    } else {
      OrdersKeptByOthers(s, a, next);
    }
  }

  // ---- one captured order per checkout

  lemma CapturedAtConfirm(s: State, a: Action, next: State)
    requires OneCapturedEach(s.book.iks, s.book.payments) && RowsInv(s.book) && ConfirmsSound(s.checkouts, s.book.iks, s.cons)
    requires Step(s, a, next) && a.ConCommit?
    ensures OneCapturedEach(next.book.iks, next.book.payments)
  {
    FreshCommit(s, a.t);
    CapturedKeptByConfirm(s, a.t);
  }

  lemma CapturedAtWebhook(s: State, a: Action, next: State)
    requires OneCapturedEach(s.book.iks, s.book.payments) && WebhooksSound(s.book, s.whs)
    requires Step(s, a, next) && ByTheRules(s, a) && a.WhCommit?
    ensures OneCapturedEach(next.book.iks, next.book.payments)
  {
    CapturedKeptByWebhook(s, a.t);
  }

  lemma CapturedKept(s: State, a: Action, next: State)
    requires OneCapturedEach(s.book.iks, s.book.payments) && RowsInv(s.book) && WebhooksSound(s.book, s.whs)
    requires ConfirmsSound(s.checkouts, s.book.iks, s.cons)
    requires Step(s, a, next) && ByTheRules(s, a)
    ensures OneCapturedEach(next.book.iks, next.book.payments)
  {
    if a.ConCommit? {
      CapturedAtConfirm(s, a, next);
    } else if a.WhCommit? {
      CapturedAtWebhook(s, a, next);
    } else {
      PaymentsFrame(s, a, next);
    }
  }

  lemma CapturedKeptByConfirm(s: State, t: nat)
    requires OneCapturedEach(s.book.iks, s.book.payments) && CanConCommit(s, t) && s.cons[t].ik.Fresh?
    ensures OneCapturedEach(DoConCommit(s, t).book.iks, DoConCommit(s, t).book.payments)
  {
  }

  lemma CapturedKeptByWebhook(s: State, t: nat)
    requires OneCapturedEach(s.book.iks, s.book.payments) && Enabled(s, WhCommit(t)) && ByTheRules(s, WhCommit(t))
    requires s.book.payments[s.whs[t].pay].status < VerdictOf(s.book, s.whs[t].ev).pay
    requires VerdictOf(s.book, s.whs[t].ev).pay <= CAPTURED
    ensures OneCapturedEach(s.book.iks, DoWebhook(s.book, s.whs[t].ev, s.whs[t].pay).payments)
  {
    var b, p := s.book, s.whs[t].pay;
    if VerdictOf(b, s.whs[t].ev).pay == CAPTURED {
      forall q | 0 <= q < |b.payments| && q != p && b.payments[q].status == CAPTURED ensures b.iks[q].cs != b.iks[p].cs {
        assert !SameCheckout(b, q, p);
      }
    }
  }

  lemma CapturedKeptByAccept(b: Book, p: nat, provider: nat)
    requires OneCapturedEach(b.iks, b.payments) && p < |b.payments| && b.payments[p].order < |b.orders|
    requires b.orders[b.payments[p].order].ik < |b.iks|
    ensures OneCapturedEach(DoPspAccept(b, p, provider).iks, DoPspAccept(b, p, provider).payments)
  {
    var c := DoPspAccept(b, p, provider);
    assert forall i :: 0 <= i < |b.iks| ==> c.iks[i].cs == b.iks[i].cs;
  }

  lemma PaymentsFrame(s: State, a: Action, next: State)
    requires Step(s, a, next) && !a.ConCommit? && !a.WhCommit? && OneCapturedEach(s.book.iks, s.book.payments)
    ensures OneCapturedEach(next.book.iks, next.book.payments)
  {
    if !TouchesBook(a) {
      BookFrame(s, a, next);
    } else if a.PspAccept? {
      CapturedKeptByAccept(s.book, a.pay, a.provider);
    }
  }

  // ---- what is drawn

  lemma InDrawn(b: Book, cs: nat)
    ensures cs in DrawnCheckouts(b) <==>
            exists i :: 0 <= i < |b.intents| && b.intents[i].status == Done && b.intents[i].order < |b.iks| && b.iks[b.intents[i].order].cs == cs
  {
  }

  /** Only a committed draw adds to the drawn checkouts. */
  lemma DrawnFrame(s: State, a: Action, next: State)
    requires DrawsSound(s.stock, s.book.intents, s.draws) && IntentsInv(s.book) && RowsInv(s.book)
    requires Step(s, a, next) && !a.DrawCommit?
    ensures DrawnCheckouts(next.book) == DrawnCheckouts(s.book)
  {
    IntentStep(s, a, next);
    KeyRowsFrame(s, a, next);
    DrawnFromMoves(s, a, next.book);
  }

  lemma DrawnFromMoves(s: State, a: Action, c: Book)
    requires RowsInv(s.book) && IntentsInv(s.book) && IntentsMove(s, a, c.intents) && !a.DrawCommit?
    requires |s.book.iks| <= |c.iks| && forall i :: 0 <= i < |s.book.iks| ==> c.iks[i].cs == s.book.iks[i].cs
    ensures DrawnCheckouts(c) == DrawnCheckouts(s.book)
  {
    DrawnFromRows(s.book, c);
  }

  lemma DrawnFromRows(b: Book, c: Book)
    requires RowsInv(b) && IntentsInv(b) && |b.intents| <= |c.intents| && |b.iks| <= |c.iks|
    requires forall i :: 0 <= i < |b.intents| ==>
               c.intents[i].order == b.intents[i].order && (c.intents[i].status == Done <==> b.intents[i].status == Done)
    requires forall i :: |b.intents| <= i < |c.intents| ==> c.intents[i].status != Done
    requires forall i :: 0 <= i < |b.iks| ==> c.iks[i].cs == b.iks[i].cs
    ensures DrawnCheckouts(c) == DrawnCheckouts(b)
  {
    forall cs ensures cs in DrawnCheckouts(c) <==> cs in DrawnCheckouts(b) {
      InDrawn(b, cs);
      InDrawn(c, cs);
      if cs in DrawnCheckouts(b) {
        var i :| 0 <= i < |b.intents| && b.intents[i].status == Done && b.intents[i].order < |b.iks| && b.iks[b.intents[i].order].cs == cs;
        assert c.intents[i].status == Done && c.intents[i].order == b.intents[i].order;
      }
    }
  }

  lemma KeyRowsFrame(s: State, a: Action, next: State)
    requires Step(s, a, next)
    ensures |s.book.iks| <= |next.book.iks|
    ensures forall i :: 0 <= i < |s.book.iks| ==> next.book.iks[i].cs == s.book.iks[i].cs
  {
    if !a.ConCommit? {
      RowsFrame(s, a, next);
    }
  }

  lemma DrawnGrows(s: State, t: nat)
    requires DrawsSound(s.stock, s.book.intents, s.draws) && IntentsInv(s.book) && RowsInv(s.book)
    requires CanDrawCommit(s, t)
    ensures var i := s.draws[t].intent;
            && s.book.intents[i].order < |s.book.iks|
            && DrawnCheckouts(DoDrawCommit(s, t).book) == DrawnCheckouts(s.book) + {s.book.iks[s.book.intents[i].order].cs}
  {
    CommitDraws(s, t);
    DrawnWithRow(s.book, DoDrawCommit(s, t).book, s.draws[t].intent);
  }

  lemma DrawnWithRow(b: Book, c: Book, i: nat)
    requires i < |b.intents| == |c.intents| && b.iks == c.iks && b.intents[i].order < |b.iks|
    requires c.intents[i].status == Done && c.intents[i].order == b.intents[i].order
    requires forall j :: 0 <= j < |b.intents| && j != i ==> c.intents[j] == b.intents[j]
    ensures DrawnCheckouts(c) == DrawnCheckouts(b) + {b.iks[b.intents[i].order].cs}
  {
    forall cs ensures cs in DrawnCheckouts(c) <==> cs in DrawnCheckouts(b) || cs == b.iks[b.intents[i].order].cs {
      InDrawn(b, cs);
      InDrawn(c, cs);
      if cs in DrawnCheckouts(b) {
        var j :| 0 <= j < |b.intents| && b.intents[j].status == Done && b.intents[j].order < |b.iks| && b.iks[b.intents[j].order].cs == cs;
        assert c.intents[j].status == Done && c.intents[j].order == b.intents[j].order;
      }
    }
  }

  /** The checkout of an order still to be drawn has not been drawn: its other orders are not captured. */
  lemma NotDrawnYet(b: Book, i: nat)
    requires BookInv(b) && OneCapturedEach(b.iks, b.payments)
    requires i < |b.intents| && b.intents[i].status == Processing
    ensures b.intents[i].order < |b.iks| && b.iks[b.intents[i].order].cs !in DrawnCheckouts(b)
  {
    QueuedIsCaptured(b, i);
    var o := b.intents[i].order;
    InDrawn(b, b.iks[o].cs);
    forall j | 0 <= j < |b.intents| && b.intents[j].status == Done ensures b.iks[b.intents[j].order].cs != b.iks[o].cs {
      QueuedIsCaptured(b, j);
      assert b.intents[j].order != o;
    }
  }

  lemma QueuedIsCaptured(b: Book, i: nat)
    requires RowsInv(b) && PaymentsInv(b) && IntentsInv(b) && i < |b.intents|
    ensures b.intents[i].order < |b.iks| && b.payments[b.intents[i].order].status == CAPTURED
  {
    assert HasIntent(b, b.intents[i].order);
    assert CapturedTogether(b, b.intents[i].order);
  }

  // ---- every promise is covered

  lemma CoveredKeptByOthers(s: State, a: Action, next: State, pid: nat)
    requires DrawsSound(s.stock, s.book.intents, s.draws) && IntentsInv(s.book) && RowsInv(s.book) && Covered(s, pid)
    requires Step(s, a, next) && !a.SumCommit? && !a.DrawCommit? && !a.SetStock?
    ensures Covered(next, pid)
  {
    DrawnFrame(s, a, next);
    ReservationsFrame(s, a, next);
    StockFrame(s, a, next);
    HeldShrinks(s.reservations, pid, s.now, next.now, DrawnCheckouts(s.book), DrawnCheckouts(s.book));
  }

  lemma CoveredKept(s: State, a: Action, next: State, pid: nat)
    requires BookInv(s.book) && DrawsSound(s.stock, s.book.intents, s.draws) && SummariesSound(s)
    requires ReservedInv(s) && Covered(s, pid) && forall t :: t in s.draws ==> DrawOnTrack(s, s.draws[t])
    requires Step(s, a, next) && ByTheRules(s, a)
    ensures Covered(next, pid)
  {
    if a.SumCommit? {
      CoveredBySummary(s, a.t, pid);
    } else if a.DrawCommit? {
      CoveredByDraw(s, a.t, pid);
    } else if a.SetStock? {
      CoveredBySetStock(s, a.pid, a.qty, pid);
    } else {
      CoveredKeptByOthers(s, a, next, pid);
    }
  }

  lemma CoveredBySetStock(s: State, p: nat, qty: nat, pid: nat)
    requires ReservedInv(s) && Covered(s, pid) && (p in s.stock ==> s.stock[p] <= qty)
    ensures Covered(DoSetStock(s, p, qty), pid)
  {
    if pid !in s.stock {
      HeldZero(s.reservations, pid, s.now, DrawnCheckouts(s.book));
    }
  }

  lemma CoveredBySummary(s: State, t: nat, pid: nat)
    requires SummariesSound(s) && Covered(s, pid) && CanSumCommit(s, t)
    ensures Covered(DoSumCommit(s, t), pid)
  {
    var s' := DoSumCommit(s, t);
    if pid in Pids(s.sums[t].items) {
      SummaryCommitFits(s, t, pid);
      HeldShrinks(s'.reservations, pid, s.now, s.now, {}, DrawnCheckouts(s.book));
    } else {
      ReservedElsewhere(s, s.sums[t], pid, s.now, DrawnCheckouts(s.book));
    }
  }

  lemma CoveredByDraw(s: State, t: nat, pid: nat)
    requires BookInv(s.book) && DrawsSound(s.stock, s.book.intents, s.draws)
    requires Covered(s, pid) && CanDrawCommit(s, t) && DrawOnTrack(s, s.draws[t])
    ensures Covered(DoDrawCommit(s, t), pid)
  {
    DrawnGrows(s, t);
    var c := s.book.iks[s.book.intents[s.draws[t].intent].order].cs;
    WritesLocked(s, t);
    HeldShrinks(s.reservations, pid, s.now, s.now, DrawnCheckouts(s.book), DrawnCheckouts(s.book) + {c});
  }

  // ---- no worker is ever short

  /** A row the worker comes to holds at least what the order reserved of it, beyond what others reserved. */
  lemma RowSuffices(s: State, t: nat)
    requires BookInv(s.book) && GuaranteeInv(s) && DrawsSound(s.stock, s.book.intents, s.draws)
    requires Enabled(s, DrawNext(t)) && ByTheRules(s, DrawNext(t))
    ensures var x := s.draws[t];
            var i := s.book.intents[x.intent];
            var it := i.items[x.done];
            && it.pid in s.stock && i.order < |s.book.iks|
            && it.pid !in x.draft.writes
            && Held(s.reservations, it.pid, s.now, DrawnCheckouts(s.book) + {s.book.iks[i.order].cs}) + it.qty <= s.stock[it.pid]
  {
    var x, b := s.draws[t], s.book;
    var cs, items := b.iks[b.intents[x.intent].order].cs, b.intents[x.intent].items;
    var it := items[x.done];
    assert DrawSound(s.stock, b.intents, x);
    NotDrawnYet(b, x.intent);
    assert items == s.checkouts[cs].snapshot.items;
    LineReserved(s, cs, x.done);
    assert Covered(s, it.pid);
    DrawRowsExact(s.stock, items[..x.done]);
    forall e | e in items[..x.done] ensures e.pid != it.pid {}
  }

  /** A line of a live snapshot is reserved, on top of what everybody else holds. */
  lemma LineReserved(s: State, cs: nat, k: nat)
    requires cs < |s.checkouts| && SnapshotReserved(s, cs) && s.checkouts[cs].snapshot.Taken? && s.now < s.checkouts[cs].expires
    requires k < |s.checkouts[cs].snapshot.items| && cs !in DrawnCheckouts(s.book)
    ensures var it := s.checkouts[cs].snapshot.items[k];
            Held(s.reservations, it.pid, s.now, DrawnCheckouts(s.book) + {cs}) + it.qty
            <= Held(s.reservations, it.pid, s.now, DrawnCheckouts(s.book))
  {
    var it := s.checkouts[cs].snapshot.items[k];
    assert HasReservation(s.reservations, Reservation(it.pid, cs, it.qty, s.checkouts[cs].expires));
    var r: nat :| r < |s.reservations| && s.reservations[r] == Reservation(it.pid, cs, it.qty, s.checkouts[cs].expires);
    HeldIncludes(s.reservations, r, s.now, DrawnCheckouts(s.book));
  }

  lemma TrackCarries(s: State, s': State, x: DrawTx)
    requires DrawOnTrack(s, x) && x.intent < |s'.book.intents|
    requires s'.book.intents[x.intent].order == s.book.intents[x.intent].order
    requires s.book.intents[x.intent].order < |s'.book.iks|
    requires s'.book.iks[s.book.intents[x.intent].order].cs == s.book.iks[s.book.intents[x.intent].order].cs
    requires DrawnCheckouts(s.book) <= DrawnCheckouts(s'.book)
    requires !x.failing ==> forall pid, released :: pid in x.draft.writes ==>
               Held(s'.reservations, pid, s'.now, released) <= Held(s.reservations, pid, s.now, released)
    ensures DrawOnTrack(s', x)
  {
    if !x.failing {
      var c := s.book.iks[s.book.intents[x.intent].order].cs;
      forall pid | pid in x.draft.writes
        ensures Held(s'.reservations, pid, s'.now, DrawnCheckouts(s'.book) + {c}) <= x.draft.writes[pid]
      {
        HeldShrinks(s'.reservations, pid, s'.now, s'.now, DrawnCheckouts(s.book) + {c}, DrawnCheckouts(s'.book) + {c});
      }
    }
  }

  /** Nobody reserves a row that a worker has written. */
  lemma HeldUnderDraw(s: State, a: Action, next: State, t: nat, pid: nat, released: set<nat>)
    requires Step(s, a, next) && SummariesSound(s) && LocksDisjoint(s.book, s.sums, s.draws)
    requires t in s.draws && DrawSound(s.stock, s.book.intents, s.draws[t]) && !s.draws[t].failing
    requires pid in s.draws[t].draft.writes
    ensures Held(next.reservations, pid, next.now, released) <= Held(s.reservations, pid, s.now, released)
  {
    if a.SumCommit? {
      var x := s.sums[a.t];
      assert SummarySound(s, x);
      assert x.items[..|x.items|] == x.items;
      WritesLocked(s, t);
      assert SumLocks(x) !! DrawLocks(s.book, s.draws[t]);
      ReservedElsewhere(s, x, pid, s.now, released);
    } else {
      ReservationsFrame(s, a, next);
      HeldShrinks(s.reservations, pid, s.now, next.now, released, released);
    }
  }

  lemma IntentOrdersKept(s: State, a: Action, next: State, i: nat)
    requires DrawsSound(s.stock, s.book.intents, s.draws) && Step(s, a, next) && i < |s.book.intents|
    ensures i < |next.book.intents| && next.book.intents[i].order == s.book.intents[i].order
  {
    IntentStep(s, a, next);
    assert IntentMoves(s.book.intents[i], next.book.intents[i], CommitsDraw(s, a, i));
  }

  lemma DrawnKept(s: State, a: Action, next: State)
    requires DrawsSound(s.stock, s.book.intents, s.draws) && IntentsInv(s.book) && RowsInv(s.book) && Step(s, a, next)
    ensures DrawnCheckouts(s.book) <= DrawnCheckouts(next.book)
  {
    if a.DrawCommit? {
      DrawnGrows(s, a.t);
    } else {
      DrawnFrame(s, a, next);
    }
  }

  lemma HeldUnderDraws(s: State, a: Action, next: State, t: nat)
    requires Step(s, a, next) && SummariesSound(s) && LocksDisjoint(s.book, s.sums, s.draws)
    requires t in s.draws && DrawSound(s.stock, s.book.intents, s.draws[t]) && !s.draws[t].failing
    ensures forall pid, released :: pid in s.draws[t].draft.writes ==>
              Held(next.reservations, pid, next.now, released) <= Held(s.reservations, pid, s.now, released)
  {
    forall pid, released | pid in s.draws[t].draft.writes
      ensures Held(next.reservations, pid, next.now, released) <= Held(s.reservations, pid, s.now, released)
    {
      HeldUnderDraw(s, a, next, t, pid, released);
    }
  }

  /** A worker that an action leaves alone stays on track. */
  lemma TrackKept(s: State, a: Action, next: State, t: nat)
    requires BookInv(s.book) && DrawsSound(s.stock, s.book.intents, s.draws)
    requires SummariesSound(s) && LocksDisjoint(s.book, s.sums, s.draws)
    requires Step(s, a, next) && t in s.draws && DrawOnTrack(s, s.draws[t])
    ensures DrawOnTrack(next, s.draws[t])
  {
    IntentOrdersKept(s, a, next, s.draws[t].intent);
    KeyRowsFrame(s, a, next);
    DrawnKept(s, a, next);
    assert DrawSound(s.stock, s.book.intents, s.draws[t]);
    if !s.draws[t].failing {
      HeldUnderDraws(s, a, next, t);
    }
    TrackCarries(s, next, s.draws[t]);
  }

  lemma TrackGrows(s: State, x: DrawTx, it: Item)
    requires DrawOnTrack(s, x) && !x.failing && it.pid in s.stock && it.pid !in x.draft.writes
    requires Held(s.reservations, it.pid, s.now, DrawnCheckouts(s.book) + {s.book.iks[s.book.intents[x.intent].order].cs}) + it.qty
             <= s.stock[it.pid]
    ensures DrawOnTrack(s, x.(done := x.done + 1, draft := DrawRow(s.stock, x.draft, it)))
  {
  }

  lemma TrackOfNext(s: State, t: nat)
    requires BookInv(s.book) && GuaranteeInv(s) && DrawsSound(s.stock, s.book.intents, s.draws)
    requires Enabled(s, DrawNext(t)) && ByTheRules(s, DrawNext(t))
    ensures DrawOnTrack(DoDrawNext(s, t), DoDrawNext(s, t).draws[t])
  {
    var x := s.draws[t];
    assert DrawOnTrack(s, x);
    RowSuffices(s, t);
    TrackGrows(s, x, s.book.intents[x.intent].items[x.done]);
  }

  lemma TrackStep(s: State, a: Action, next: State, t: nat)
    requires BookInv(s.book) && DrawsSound(s.stock, s.book.intents, s.draws)
    requires SummariesSound(s) && LocksDisjoint(s.book, s.sums, s.draws)
    requires Step(s, a, next) && t in s.draws && t in next.draws && !(a.DrawNext? && a.t == t) && DrawOnTrack(s, s.draws[t])
    ensures DrawOnTrack(next, next.draws[t])
  {
    TrackKept(s, a, next, t);
    OtherDraws(s, a, next, t);
  }

  lemma TrackOfOthers(s: State, a: Action, next: State, t: nat)
    requires BookInv(s.book) && DrawsSound(s.stock, s.book.intents, s.draws)
    requires SummariesSound(s) && LocksDisjoint(s.book, s.sums, s.draws)
    requires Step(s, a, next) && t in next.draws && !(a.DrawNext? && a.t == t) && (t in s.draws ==> DrawOnTrack(s, s.draws[t]))
    ensures DrawOnTrack(next, next.draws[t])
  {
    if t in s.draws {
      TrackStep(s, a, next, t);
    } else {
      NewDraw(s, a, next, t);
    }
  }

  lemma TrackAt(s: State, a: Action, next: State, t: nat)
    requires BookInv(s.book) && GuaranteeInv(s) && DrawsSound(s.stock, s.book.intents, s.draws)
    requires SummariesSound(s) && LocksDisjoint(s.book, s.sums, s.draws)
    requires Step(s, a, next) && ByTheRules(s, a) && t in next.draws
    ensures DrawOnTrack(next, next.draws[t])
  {
    if a.DrawNext? && a.t == t {
      TrackOfNext(s, t);
    } else {
      TrackOfOthers(s, a, next, t);
    }
  }

  lemma TracksKept(s: State, a: Action, next: State)
    requires Inv(s) && GuaranteeInv(s) && Step(s, a, next) && ByTheRules(s, a)
    ensures forall t :: t in next.draws ==> DrawOnTrack(next, next.draws[t])
  {
    forall t | t in next.draws ensures DrawOnTrack(next, next.draws[t]) {
      TrackAt(s, a, next, t);
    }
  }

  lemma OtherDraws(s: State, a: Action, next: State, t: nat)
    requires Step(s, a, next) && t in s.draws && t in next.draws && !(a.DrawNext? && a.t == t)
    ensures next.draws[t] == s.draws[t] || next.draws[t] == s.draws[t].(failing := true)
  {
    if !ByWorker(a) {
      WorkersFrame(s, a, next);
    }
  }

  lemma OnlyClaimsStart(s: State, a: Action, next: State, t: nat)
    requires Step(s, a, next) && t !in s.draws && t in next.draws
    ensures a.Claim? && a.t == t && CanClaim(s, t, a.intent) && next == DoClaiming(s, t, a.intent)
  {
    if !ByWorker(a) {
      WorkersFrame(s, a, next);
    }
  }

  lemma NewDraw(s: State, a: Action, next: State, t: nat)
    requires IntentsInv(s.book) && RowsInv(s.book) && Step(s, a, next) && t !in s.draws && t in next.draws
    ensures DrawOnTrack(next, next.draws[t])
  {
    OnlyClaimsStart(s, a, next, t);
    ClaimOnTrack(s, t, a.intent);
  }

  lemma ClaimOnTrack(s: State, t: nat, i: nat)
    requires IntentsInv(s.book) && RowsInv(s.book) && CanClaim(s, t, i)
    ensures DrawOnTrack(DoClaiming(s, t, i), DrawTx(i, 0, Draft(map[], false), false))
  {
  }

  // ---- every run by the rules

  lemma GuaranteeKept(s: State, a: Action, next: State)
    requires Inv(s) && GuaranteeInv(s) && Step(s, a, next) && ByTheRules(s, a)
    ensures GuaranteeInv(next)
  {
    ReservedKept(s, a, next);
    OrdersKept(s, a, next);
    CapturedKept(s, a, next);
    forall pid ensures Covered(next, pid) {
      assert Covered(s, pid);
      CoveredKept(s, a, next, pid);
    }
    TracksKept(s, a, next);
  }

  lemma {:induction false} GuaranteeHolds(s0: State, run: seq<Action>)
    requires Init(s0) && Legal(s0, run) && RunKeeps(s0, run, ALL)
    ensures GuaranteeInv(Exec(s0, run))
    decreases |run|
  {
    if run != [] {
      var n := |run| - 1;
      GuaranteeHolds(s0, run[..n]);
      InvHolds(s0, run[..n]);
      GuaranteeKept(Exec(s0, run[..n]), run[n], Do(Exec(s0, run[..n]), run[n]));
    }
  }

  /** Live, undrawn reservations never exceed stock, and no worker ever takes the insufficient-stock branch. */
  lemma ReservationGuarantee(s0: State, run: seq<Action>)
    requires Init(s0) && Legal(s0, run) && RunKeeps(s0, run, ALL)
    ensures var s := Exec(s0, run);
            && (forall pid :: pid in s.stock ==> Held(s.reservations, pid, s.now, DrawnCheckouts(s.book)) <= s.stock[pid])
            && (forall t :: t in s.draws && !s.draws[t].failing ==> !s.draws[t].draft.failed)
  {
    GuaranteeHolds(s0, run);
    var s := Exec(s0, run);
    forall pid | pid in s.stock ensures Held(s.reservations, pid, s.now, DrawnCheckouts(s.book)) <= s.stock[pid] {
      assert Covered(s, pid);
    }
    forall t | t in s.draws && !s.draws[t].failing ensures !s.draws[t].draft.failed {
      assert DrawOnTrack(s, s.draws[t]);
    }
  }
}
