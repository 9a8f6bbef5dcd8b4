/** The checkout, order, payment and stock pipeline as a transition system over committed rows.

    Requests and workers are transactions in flight; each action is one statement, one lock or one
    commit of one of them, so a run is any interleaving. A lock that is not free keeps its action
    disabled; a crash or an error is an abort. Time is in seconds.
 */
module Shop {
  import opened Options
  import opened Amounts
  import opened Payments
  import opened Reservations
  import opened Stock

  const CHECKOUT_TTL := 3600
  const KEY_TTL := 86400
  const CONFIRM_MARGIN := 40
  const MAX_ATTEMPTS := 5

  // ---- committed rows

  datatype Snapshot = NoSnapshot | Taken(items: seq<Item>, how: PayMethod)
  datatype Checkout = Checkout(user: nat, expires: int, active: bool, snapshot: Snapshot)

  datatype IKey = IKey(key: nat, user: nat, cs: nat, expires: int, answered: bool)
  datatype Order = Order(ik: nat, user: nat, status: OrderStatus, totals: Totals, items: seq<Item>)
  datatype Payment = Payment(order: nat, status: nat, amount: int, provider: Option<nat>)

  datatype IntentStatus = Pending | Processing | Failed | Done
  /** A commit intent; the two counters are history and no action reads them. */
  datatype Intent = Intent(order: nat, items: seq<Item>, status: IntentStatus, attempts: nat, claims: nat, failures: nat)

  /** The content the payment provider gives to an event id. */
  datatype PspEvent = PspEvent(order: nat, psp: string, event: string)

  datatype Topic = OrderPaid | OrderPendingPayment

  /** The order side. Row ids are positions; delivered is history, the events whose delivery was decided. */
  datatype Book = Book(
    feed: map<nat, PspEvent>,
    iks: seq<IKey>,
    orders: seq<Order>,
    payments: seq<Payment>,
    intents: seq<Intent>,
    events: set<nat>,
    delivered: set<nat>,
    awaiting: set<nat>,
    outbox: set<(Topic, nat)>)

  // ---- transactions in flight

  /** An order-summary request: seen holds the stock read with each row lock taken so far. */
  datatype SumTx = SumTx(cs: nat, items: seq<Item>, how: PayMethod, seen: seq<int>, checked: bool)

  datatype KeyState = Unread | Fresh | Existing(id: nat)
  /** A secure-confirm request, holding its checkout row. */
  datatype ConTx = ConTx(cs: nat, key: nat, items: seq<Item>, how: PayMethod, ik: KeyState)

  /** A webhook request; holding means it has updated the payment row and keeps its lock. */
  datatype WhTx = WhTx(ev: nat, pay: nat, holding: bool)

  /** A worker after its claim: done rows are locked; failing means the draw was rolled back. */
  datatype DrawTx = DrawTx(intent: nat, done: nat, draft: Draft, failing: bool)

  datatype State = State(
    now: int,
    checkouts: seq<Checkout>,
    reservations: seq<Reservation>,
    stock: Shelf,
    supplied: Shelf,
    book: Book,
    sums: map<nat, SumTx>,
    cons: map<nat, ConTx>,
    whs: map<nat, WhTx>,
    draws: map<nat, DrawTx>)

  ghost predicate Init(s: State) {
    && s.checkouts == [] && s.reservations == [] && s.stock == s.supplied
    && (forall pid :: pid in s.stock ==> s.stock[pid] >= 0)
    && s.book == Book(s.book.feed, [], [], [], [], {}, {}, {}, {})
    && s.sums == map[] && s.cons == map[] && s.whs == map[] && s.draws == map[]
  }

  // ---- reading the state

  function VerdictOf(b: Book, e: nat): Verdict
    requires e in b.feed
  {
    Classify(b.feed[e].psp, b.feed[e].event)
  }

  /** The checkout an order came from. */
  function CheckoutOf(b: Book, o: nat): nat
    requires o < |b.orders| && b.orders[o].ik < |b.iks|
  {
    b.iks[b.orders[o].ik].cs
  }

  function SumLocks(x: SumTx): set<nat> {
    if |x.seen| <= |x.items| then Pids(x.items[..|x.seen|]) else {}
  }

  function DrawLocks(b: Book, x: DrawTx): set<nat> {
    if x.failing || x.intent >= |b.intents| || x.done > |b.intents[x.intent].items| then {}
    else Pids(b.intents[x.intent].items[..x.done])
  }

  /** The product row is locked by nobody but possibly order-summary t and worker u. */
  predicate RowFree(s: State, pid: nat, t: Option<nat>, u: Option<nat>) {
    && (forall v :: v in s.sums && t != Some(v) ==> pid !in SumLocks(s.sums[v]))
    && (forall v :: v in s.draws && u != Some(v) ==> pid !in DrawLocks(s.book, s.draws[v]))
  }

  predicate CheckoutRowFree(s: State, cs: nat) {
    forall v :: v in s.cons ==> s.cons[v].cs != cs
  }

  predicate KeyTaken(b: Book, key: nat) {
    exists i :: 0 <= i < |b.iks| && b.iks[i].key == key
  }

  // ---- actions

  datatype Action =
    | Tick(d: nat)
    | SetStock(pid: nat, qty: nat)
    | Initiate(user: nat)
    | Deactivate(cs: nat)
    | SumStart(t: nat, cs: nat, items: seq<Item>, how: PayMethod)
    | SumLock(t: nat)
    | SumCheck(t: nat)
    | SumCommit(t: nat)
    | SumAbort(t: nat)
    | ConStart(t: nat, cs: nat, key: nat)
    | ConFresh(t: nat)
    | ConReplay(t: nat, id: nat)
    | ConCommit(t: nat)
    | ConAbort(t: nat)
    | PspAccept(pay: nat, provider: nat)
    | PspFail(pay: nat)
    | WhStart(t: nat, ev: nat, pay: nat)
    | WhAdvance(t: nat)
    | WhStale(t: nat)
    | WhCommit(t: nat)
    | WhAbort(t: nat)
    | Claim(t: nat, intent: nat)
    | DrawNext(t: nat)
    | DrawCommit(t: nat)
    | DrawRollback(t: nat)
    | DrawSettle(t: nat)
    | DrawCrash(t: nat)

  // an operator's update waits for the row lock like any other
  predicate CanSetStock(s: State, pid: nat) {
    RowFree(s, pid, None, None)
  }

  // at most one active checkout per user
  predicate CanInitiate(s: State, user: nat) {
    forall i :: 0 <= i < |s.checkouts| ==> s.checkouts[i].user == user ==> !s.checkouts[i].active
  }

  predicate CanDeactivate(s: State, cs: nat) {
    cs < |s.checkouts| && CheckoutRowFree(s, cs)
  }

  // a checkout that already has a snapshot is answered from it; the cart has each product once
  predicate CanSumStart(s: State, t: nat, cs: nat, items: seq<Item>) {
    && t !in s.sums && cs < |s.checkouts|
    && s.checkouts[cs].active && s.checkouts[cs].expires >= s.now && s.checkouts[cs].snapshot.NoSnapshot?
    && items != [] && Pids(items) <= s.stock.Keys
    && (forall i, j :: 0 <= i < j < |items| ==> items[i].pid != items[j].pid)
    && (forall i :: 0 <= i < |items| ==> items[i].qty >= 1)
  }

  predicate CanSumLock(s: State, t: nat) {
    && t in s.sums && |s.sums[t].seen| < |s.sums[t].items|
    && s.sums[t].items[|s.sums[t].seen|].pid in s.stock
    && RowFree(s, s.sums[t].items[|s.sums[t].seen|].pid, Some(t), None)
  }

  predicate CanSumCheck(s: State, t: nat) {
    && t in s.sums && |s.sums[t].seen| == |s.sums[t].items|
    && Available(s.reservations, s.sums[t].items, s.sums[t].seen, s.now)
  }

  predicate CanSumCommit(s: State, t: nat) {
    t in s.sums && s.sums[t].checked && s.sums[t].cs < |s.checkouts| && CheckoutRowFree(s, s.sums[t].cs)
  }

  predicate CanConStart(s: State, t: nat, cs: nat) {
    && t !in s.cons && cs < |s.checkouts| && CheckoutRowFree(s, cs)
    && s.checkouts[cs].active && s.checkouts[cs].expires >= s.now + CONFIRM_MARGIN && s.checkouts[cs].snapshot.Taken?
  }

  // the key is inserted; an insert in flight on the same key is waited for
  predicate CanConFresh(s: State, t: nat) {
    && t in s.cons && s.cons[t].ik.Unread? && !KeyTaken(s.book, s.cons[t].key)
    && (forall v :: v in s.cons && v != t ==> !(s.cons[v].ik.Fresh? && s.cons[v].key == s.cons[t].key))
  }

  // the key exists, belongs to the user and has no answer yet: the request goes on with the old row
  predicate CanConReplay(s: State, t: nat, id: nat) {
    && t in s.cons && s.cons[t].ik.Unread? && s.cons[t].cs < |s.checkouts|
    && id < |s.book.iks| && s.book.iks[id].key == s.cons[t].key
    && s.book.iks[id].user == s.checkouts[s.cons[t].cs].user
    && !s.book.iks[id].answered && s.book.iks[id].expires >= s.now + CONFIRM_MARGIN
  }

  // orders.ik_id is unique; a cash order fails on its response body
  predicate CanConCommit(s: State, t: nat) {
    && t in s.cons && s.cons[t].cs < |s.checkouts| && s.cons[t].how == Upi
    && match s.cons[t].ik {
         case Unread => false
         case Fresh => true
         case Existing(id) => forall o :: 0 <= o < |s.book.orders| ==> s.book.orders[o].ik != id
       }
  }

  // the provider order id is unique
  predicate CanPspAccept(b: Book, p: nat, provider: nat) {
    && p in b.awaiting && p < |b.payments| && b.payments[p].order < |b.orders|
    && b.orders[b.payments[p].order].ik < |b.iks|
    && (forall q :: 0 <= q < |b.payments| ==> b.payments[q].provider != Some(provider))
  }

  // the event row is inserted; a committed one aborts the delivery, one in flight is waited for
  predicate CanWhStart(s: State, t: nat, e: nat, p: nat) {
    && t !in s.whs && e in s.book.feed && VerdictOf(s.book, e).valid && e !in s.book.events
    && (forall v :: v in s.whs ==> s.whs[v].ev != e)
    && p < |s.book.payments| && s.book.payments[p].provider == Some(s.book.feed[e].order)
  }

  predicate CanWhCommit(s: State, t: nat) {
    && t in s.whs && s.whs[t].holding && s.whs[t].pay < |s.book.payments| && s.whs[t].ev in s.book.feed
    && s.book.payments[s.whs[t].pay].order < |s.book.orders|
  }

  predicate CanDrawNext(s: State, t: nat) {
    && t in s.draws && !s.draws[t].failing && s.draws[t].intent < |s.book.intents|
    && s.draws[t].done < |s.book.intents[s.draws[t].intent].items|
    && s.book.intents[s.draws[t].intent].items[s.draws[t].done].pid in s.stock
    && RowFree(s, s.book.intents[s.draws[t].intent].items[s.draws[t].done].pid, None, Some(t))
  }

  predicate CanDrawCommit(s: State, t: nat) {
    && t in s.draws && !s.draws[t].failing && s.draws[t].intent < |s.book.intents|
    && s.draws[t].done == |s.book.intents[s.draws[t].intent].items| && !s.draws[t].draft.failed
  }

  predicate CanWhAdvance(s: State, t: nat) {
    PaymentRowFree(s, t) && s.book.payments[s.whs[t].pay].status < VerdictOf(s.book, s.whs[t].ev).pay
  }

  predicate CanWhStale(s: State, t: nat) {
    PaymentRowFree(s, t) && s.book.payments[s.whs[t].pay].status >= VerdictOf(s.book, s.whs[t].ev).pay
  }

  predicate CanClaim(s: State, t: nat, i: nat) {
    t !in s.draws && i < |s.book.intents| && s.book.intents[i].status.Pending?
  }

  predicate CanDrawRollback(s: State, t: nat) {
    t in s.draws && !s.draws[t].failing
  }

  predicate CanDrawSettle(s: State, t: nat) {
    t in s.draws && s.draws[t].failing && s.draws[t].intent < |s.book.intents|
  }

  predicate Enabled(s: State, a: Action) {
    match a
    case Tick(d) => true
    case SetStock(pid, qty) => CanSetStock(s, pid)
    case Initiate(user) => CanInitiate(s, user)
    case Deactivate(cs) => CanDeactivate(s, cs)
    case SumStart(t, cs, items, how) => CanSumStart(s, t, cs, items)
    case SumLock(t) => CanSumLock(s, t)
    case SumCheck(t) => CanSumCheck(s, t)
    case SumCommit(t) => CanSumCommit(s, t)
    case SumAbort(t) => t in s.sums
    case ConStart(t, cs, key) => CanConStart(s, t, cs)
    case ConFresh(t) => CanConFresh(s, t)
    case ConReplay(t, id) => CanConReplay(s, t, id)
    case ConCommit(t) => CanConCommit(s, t)
    case ConAbort(t) => t in s.cons
    case PspAccept(p, provider) => CanPspAccept(s.book, p, provider)
    case PspFail(p) => p in s.book.awaiting
    case WhStart(t, e, p) => CanWhStart(s, t, e, p)
    case WhAdvance(t) => CanWhAdvance(s, t)
    case WhStale(t) => CanWhStale(s, t)
    case WhCommit(t) => CanWhCommit(s, t)
    case WhAbort(t) => t in s.whs
    case Claim(t, i) => CanClaim(s, t, i)
    case DrawNext(t) => CanDrawNext(s, t)
    case DrawCommit(t) => CanDrawCommit(s, t)
    case DrawRollback(t) => CanDrawRollback(s, t)
    case DrawSettle(t) => CanDrawSettle(s, t)
    case DrawCrash(t) => t in s.draws
  }

  /** The guarded update waits for the payment row and then reads its committed status. */
  predicate PaymentRowFree(s: State, t: nat) {
    && t in s.whs && !s.whs[t].holding && s.whs[t].pay < |s.book.payments| && s.whs[t].ev in s.book.feed
    && forall v :: v in s.whs && v != t ==> !(s.whs[v].holding && s.whs[v].pay == s.whs[t].pay)
  }

  /** The clock, the operator, and what customers' requests do. */
  predicate ByCustomer(a: Action) {
    || a.Tick? || a.SetStock? || a.Initiate? || a.Deactivate?
    || a.SumStart? || a.SumLock? || a.SumCheck? || a.SumCommit? || a.SumAbort?
    || a.ConStart? || a.ConFresh? || a.ConReplay? || a.ConCommit? || a.ConAbort?
  }

  function DoCustomer(s: State, a: Action): State
    requires Enabled(s, a) && ByCustomer(a)
  {
    match a
    case Tick(d) => DoTick(s, d)
    case SetStock(pid, qty) => DoSetStock(s, pid, qty)
    case Initiate(user) => DoInitiate(s, user)
    case Deactivate(cs) => DoDeactivate(s, cs)
    case SumStart(t, cs, items, how) => DoSumStart(s, t, cs, items, how)
    case SumLock(t) => DoSumLock(s, t)
    case SumCheck(t) => DoSumCheck(s, t)
    case SumCommit(t) => DoSumCommit(s, t)
    case SumAbort(t) => DoSumAbort(s, t)
    case ConStart(t, cs, key) => DoConStart(s, t, cs, key)
    case ConFresh(t) => DoConKey(s, t, Fresh)
    case ConReplay(t, id) => DoConKey(s, t, Existing(id))
    case ConCommit(t) => DoConCommit(s, t)
    case ConAbort(t) => DoConAbort(s, t)
  }

  /** The provider, its webhooks and the workers. */
  function DoBackground(s: State, a: Action): State
    requires Enabled(s, a) && !ByCustomer(a)
  {
    match a
    case PspAccept(p, provider) => WithBook(s, DoPspAccept(s.book, p, provider))
    case PspFail(p) => WithBook(s, s.book.(awaiting := s.book.awaiting - {p}))
    case WhStart(t, e, p) => DoWhStart(s, t, e, p)
    case WhAdvance(t) => DoWhAdvance(s, t)
    case WhStale(t) => DoWhStale(s, t)
    case WhCommit(t) => DoWhCommit(s, t)
    case WhAbort(t) => DoWhAbort(s, t)
    case Claim(t, i) => DoClaiming(s, t, i)
    case DrawNext(t) => DoDrawNext(s, t)
    case DrawCommit(t) => DoDrawCommit(s, t)
    case DrawRollback(t) => DoDrawRollback(s, t)
    case DrawSettle(t) => DoDrawSettle(s, t)
    case DrawCrash(t) => DoDrawCrash(s, t)
  }

  function Do(s: State, a: Action): State
    requires Enabled(s, a)
  {
    if ByCustomer(a) then DoCustomer(s, a) else DoBackground(s, a)
  }

  predicate Step(s: State, a: Action, next: State) {
    Enabled(s, a) && next == Do(s, a)
  }

  function WithBook(s: State, b: Book): State {
    s.(book := b)
  }

  function DoTick(s: State, d: nat): State {
    s.(now := s.now + d)
  }

  function DoInitiate(s: State, user: nat): State {
    s.(checkouts := s.checkouts + [Checkout(user, s.now + CHECKOUT_TTL, true, NoSnapshot)])
  }

  function DoDeactivate(s: State, cs: nat): State
    requires cs < |s.checkouts|
  {
    s.(checkouts := s.checkouts[cs := s.checkouts[cs].(active := false)])
  }

  function DoSumStart(s: State, t: nat, cs: nat, items: seq<Item>, how: PayMethod): State {
    s.(sums := s.sums[t := SumTx(cs, items, how, [], false)])
  }

  function DoSumCheck(s: State, t: nat): State
    requires t in s.sums
  {
    s.(sums := s.sums[t := s.sums[t].(checked := true)])
  }

  function DoSumAbort(s: State, t: nat): State {
    s.(sums := s.sums - {t})
  }

  function DoConStart(s: State, t: nat, cs: nat, key: nat): State
    requires cs < |s.checkouts| && s.checkouts[cs].snapshot.Taken?
  {
    var snap := s.checkouts[cs].snapshot;
    s.(cons := s.cons[t := ConTx(cs, key, snap.items, snap.how, Unread)])
  }

  function DoConKey(s: State, t: nat, ik: KeyState): State
    requires t in s.cons
  {
    s.(cons := s.cons[t := s.cons[t].(ik := ik)])
  }

  function DoConAbort(s: State, t: nat): State {
    s.(cons := s.cons - {t})
  }

  function DoWhStart(s: State, t: nat, e: nat, p: nat): State {
    s.(whs := s.whs[t := WhTx(e, p, false)])
  }

  function DoWhAdvance(s: State, t: nat): State
    requires t in s.whs
  {
    s.(whs := s.whs[t := s.whs[t].(holding := true)])
  }

  function DoWhStale(s: State, t: nat): State
    requires t in s.whs
  {
    s.(whs := s.whs - {t}, book := s.book.(delivered := s.book.delivered + {s.whs[t].ev}))
  }

  function DoWhCommit(s: State, t: nat): State
    requires CanWhCommit(s, t)
  {
    s.(whs := s.whs - {t}, book := DoWebhook(s.book, s.whs[t].ev, s.whs[t].pay))
  }

  function DoWhAbort(s: State, t: nat): State {
    s.(whs := s.whs - {t})
  }

  function DoClaiming(s: State, t: nat, i: nat): State
    requires i < |s.book.intents|
  {
    s.(book := DoClaim(s.book, i), draws := s.draws[t := DrawTx(i, 0, Draft(map[], false), false)])
  }

  function DoDrawRollback(s: State, t: nat): State
    requires t in s.draws
  {
    s.(draws := s.draws[t := s.draws[t].(failing := true)])
  }

  function DoDrawSettle(s: State, t: nat): State
    requires t in s.draws && s.draws[t].intent < |s.book.intents|
  {
    s.(draws := s.draws - {t}, book := DoSettle(s.book, s.draws[t].intent))
  }

  function DoDrawCrash(s: State, t: nat): State {
    s.(draws := s.draws - {t})
  }

  /** supplied is history: the initial stock corrected by every change made by hand. */
  function DoSetStock(s: State, pid: nat, qty: nat): State {
    var was := if pid in s.stock && pid in s.supplied then s.supplied[pid] - s.stock[pid] else 0;
    s.(stock := s.stock[pid := qty], supplied := s.supplied[pid := qty + was])
  }

  function DoSumLock(s: State, t: nat): State
    requires CanSumLock(s, t)
  {
    var x := s.sums[t];
    s.(sums := s.sums[t := x.(seen := x.seen + [s.stock[x.items[|x.seen|].pid]])])
  }

  function DoSumCommit(s: State, t: nat): State
    requires CanSumCommit(s, t)
  {
    var x := s.sums[t];
    s.(reservations := Reserve(s.reservations, x.items, x.cs, s.checkouts[x.cs].expires),
       checkouts := s.checkouts[x.cs := s.checkouts[x.cs].(snapshot := Taken(x.items, x.how))],
       sums := s.sums - {t})
  }

  /** The key row, the order with its lines and the pending payment become visible together. */
  function DoConCommit(s: State, t: nat): State
    requires CanConCommit(s, t)
  {
    var x, b := s.cons[t], s.book;
    var user := s.checkouts[x.cs].user;
    var iks := if x.ik.Fresh? then b.iks + [IKey(x.key, user, x.cs, s.now + KEY_TTL, false)] else b.iks;
    var ik := if x.ik.Fresh? then |b.iks| else x.ik.id;
    var totals := FinalTotals(x.items, x.how);
    s.(cons := s.cons - {t},
       book := b.(iks := iks,
                  orders := b.orders + [Order(ik, user, PendingPayment, totals, x.items)],
                  payments := b.payments + [Payment(|b.orders|, PENDING, totals.total, None)],
                  awaiting := b.awaiting + {|b.payments|}))
  }

  /** The provider answered: its order id, the accepted status and the stored response. */
  function DoPspAccept(b: Book, p: nat, provider: nat): Book
    requires p < |b.payments| && b.payments[p].order < |b.orders| && b.orders[b.payments[p].order].ik < |b.iks|
  {
    var ik := b.orders[b.payments[p].order].ik;
    b.(payments := b.payments[p := b.payments[p].(status := ACCEPTED, provider := Some(provider))],
       iks := b.iks[ik := b.iks[ik].(answered := true)],
       awaiting := b.awaiting - {p})
  }

  predicate HasIntent(b: Book, o: nat) {
    exists i :: 0 <= i < |b.intents| && b.intents[i].order == o
  }

  /** The webhook's transaction: payment, order, commit intent (once per order), outbox and event row. */
  function DoWebhook(b: Book, e: nat, p: nat): Book
    requires e in b.feed && p < |b.payments| && b.payments[p].order < |b.orders|
  {
    var v, o := VerdictOf(b, e), b.payments[p].order;
    var intents := if v.pay == CAPTURED && !HasIntent(b, o)
                   then b.intents + [Intent(o, b.orders[o].items, Pending, 0, 0, 0)] else b.intents;
    var outbox := if v.pay == CAPTURED then b.outbox + {(OrderPaid, o)}
                  else if v.pay == FAILED then b.outbox + {(OrderPendingPayment, o)} else b.outbox;
    b.(payments := b.payments[p := b.payments[p].(status := v.pay)],
       orders := b.orders[o := b.orders[o].(status := v.order)],
       intents := intents, outbox := outbox,
       events := b.events + {e}, delivered := b.delivered + {e})
  }

  function DoClaim(b: Book, i: nat): Book
    requires i < |b.intents|
  {
    var it := b.intents[i];
    b.(intents := b.intents[i := it.(status := Processing, attempts := it.attempts + 1, claims := it.claims + 1)])
  }

  function DoDrawNext(s: State, t: nat): State
    requires CanDrawNext(s, t)
  {
    var x := s.draws[t];
    var it := s.book.intents[x.intent].items[x.done];
    s.(draws := s.draws[t := x.(done := x.done + 1, draft := DrawRow(s.stock, x.draft, it))])
  }

  function DoDrawCommit(s: State, t: nat): State
    requires CanDrawCommit(s, t)
  {
    var x, b := s.draws[t], s.book;
    s.(stock := s.stock + x.draft.writes,
       book := b.(intents := b.intents[x.intent := b.intents[x.intent].(status := Done)]),
       draws := s.draws - {t})
  }

  /** The failure handler: give up at the attempt limit, otherwise back to PENDING for another delivery. */
  function DoSettle(b: Book, i: nat): Book
    requires i < |b.intents|
  {
    var it := b.intents[i].(failures := b.intents[i].failures + 1);
    b.(intents := b.intents[i :=
         if it.attempts + 1 >= MAX_ATTEMPTS then it.(status := Failed)
         else it.(status := Pending, attempts := it.attempts + 1)])
  }

  // ---- runs

  ghost predicate Legal(s: State, run: seq<Action>)
    decreases |run|, 0
  {
    run == [] ||
    var n := |run| - 1;
    Legal(s, run[..n]) && Enabled(Exec(s, run[..n]), run[n])
  }

  ghost function Exec(s: State, run: seq<Action>): State
    requires Legal(s, run)
    decreases |run|, 1
  {
    if run == [] then s
    else var n := |run| - 1; Do(Exec(s, run[..n]), run[n])
  }
}
