/** The request handlers, the webhook and the worker, each run alone on the tables it updates in place.

    Every method is proved against the transition system: what it commits is what a run of it commits.
 */
module Handlers {
  import opened Options
  import opened Amounts
  import opened Payments
  import opened Stock
  import opened Reservations
  import opened Shop
  import opened BookInvariants
  import opened SerialRuns

  const PSP_TRIES := 3

  datatype InitiateReply = CartMissing | InitiateExpired | CheckoutGiven(cs: nat)

  datatype SummaryReply =
    | SummaryForbidden
    | SummaryExpired
    | SummaryCrashed
    | SummaryConflict(errors: seq<nat>)
    | Quoted(items: seq<Item>, totals: Totals)

  datatype ConfirmReply =
    | ConfirmForbidden
    | ConfirmExpired
    | NothingChosen
    | KeyExpired
    | WrongCheckout
    | Replayed(ik: nat)
    | ConfirmCrashed
    | Placed(order: nat, payment: nat)
    | PaymentRefused(order: nat)
    | PaymentAccepted(order: nat, provider: nat)

  datatype WebhookReply = PaymentNotFound | Ignored | DuplicateCrashed | NotInOrder | EventProcessed(order: nat)

  datatype WorkerReply = Skipped | StockDrawn | Retrying | GivenUp

  // ---- the provider call

  datatype PspReply = Answered(order: Option<nat>) | Unreachable | ServerError | Rejected

  datatype AttemptStatus = AttemptPending | AttemptSuccess | AttemptRetrying | AttemptFailed
  datatype Attempt = Attempt(payment: nat, no: nat, status: AttemptStatus)

  datatype PspOutcome = Responded(order: Option<nat>) | Refused | Exhausted

  predicate IsTransient(r: PspReply) {
    r.Unreachable? || r.ServerError?
  }

  /** The row of one try: its number and how it ended. */
  ghost predicate IsTryRow(row: Attempt, payment: nat, no: nat, reply: PspReply) {
    && row.payment == payment && row.no == no
    && (row.status == AttemptSuccess <==> reply.Answered?)
    && (row.status == AttemptRetrying <==> reply.Unreachable? || reply.ServerError?)
    && (row.status == AttemptFailed <==> reply.Rejected?)
  }

  function StatusAfter(r: PspReply): AttemptStatus {
    if r.Answered? then AttemptSuccess else if IsTransient(r) then AttemptRetrying else AttemptFailed
  }

  /** The call is repeated exactly while the provider's replies are transient, each try has its numbered row,
      and the outcome is the last reply's. */
  method RetryPayments(payment: nat, replies: seq<PspReply>) returns (rows: seq<Attempt>, r: PspOutcome)
    requires |replies| == PSP_TRIES
    ensures 1 <= |rows| <= PSP_TRIES
    ensures forall i :: 0 <= i < |rows| ==> rows[i] == Attempt(payment, i + 1, StatusAfter(replies[i]))
    ensures forall i :: 0 <= i < |rows| ==> IsTryRow(rows[i], payment, i + 1, replies[i])
    ensures forall i :: 0 <= i < |rows| - 1 ==> IsTransient(replies[i])
    ensures r.Exhausted? <==> forall i :: 0 <= i < PSP_TRIES ==> IsTransient(replies[i])
    ensures r.Exhausted? ==> |rows| == PSP_TRIES
    ensures r.Responded? ==> replies[|rows| - 1] == Answered(r.order)
    ensures r.Refused? ==> replies[|rows| - 1] == Rejected
  {
    rows := [];
    for idx := 1 to PSP_TRIES + 1
      invariant |rows| == idx - 1
      invariant forall i :: 0 <= i < |rows| ==> rows[i] == Attempt(payment, i + 1, StatusAfter(replies[i]))
      invariant forall i :: 0 <= i < |rows| ==> IsTransient(replies[i])
    {
      rows := rows + [Attempt(payment, idx, AttemptPending)];
      match replies[idx - 1]
      case Answered(order) =>
        rows := rows[idx - 1 := Attempt(payment, idx, AttemptSuccess)];
        return rows, Responded(order);
      case Unreachable =>
        rows := rows[idx - 1 := Attempt(payment, idx, AttemptRetrying)];
      case ServerError =>
        rows := rows[idx - 1 := Attempt(payment, idx, AttemptRetrying)];
      case Rejected =>
        rows := rows[idx - 1 := Attempt(payment, idx, AttemptFailed)];
        return rows, Refused;
    }
    return rows, Exhausted;
  }

  // ---- selects

  function FindKey(iks: seq<IKey>, key: nat): (r: Option<nat>)
    ensures r.Some? ==> r.value < |iks| && iks[r.value].key == key
    ensures r.None? <==> forall i :: 0 <= i < |iks| ==> iks[i].key != key
  {
    if iks == [] then None
    else if iks[|iks| - 1].key == key then Some(|iks| - 1)
    else FindKey(iks[..|iks| - 1], key)
  }

  datatype KeyRead = NoKey | KeyTooOld | KeyRow(id: nat)

  predicate OwnRow(iks: seq<IKey>, id: nat, key: nat, user: nat) {
    id < |iks| && iks[id].key == key && iks[id].user == user
  }

  /** spc_by_ikey: the user's row for a key, or a refusal if it is about to expire. */
  function SpcByIkey(iks: seq<IKey>, key: nat, user: nat, now: int): (r: KeyRead)
    ensures r.KeyRow? ==> OwnRow(iks, r.id, key, user)
  {
    var found := FindKey(iks, key);
    if found.None? || iks[found.value].user != user then NoKey
    else if iks[found.value].expires < now + CONFIRM_MARGIN then KeyTooOld
    else KeyRow(found.value)
  }

  /** As keys are unique it finds the user's row exactly if there is one, and refuses it exactly if it is too old. */
  lemma SpcMeaning(iks: seq<IKey>, id: nat, key: nat, user: nat, now: int)
    requires KeysUnique(iks)
    ensures SpcByIkey(iks, key, user, now) == KeyRow(id) <==>
            OwnRow(iks, id, key, user) && iks[id].expires >= now + 40
    ensures OwnRow(iks, id, key, user) && iks[id].expires < now + 40 ==> SpcByIkey(iks, key, user, now) == KeyTooOld
    ensures SpcByIkey(iks, key, user, now).NoKey? && id < |iks| ==> !OwnRow(iks, id, key, user)
  {
    var found := FindKey(iks, key);
    if id < |iks| && iks[id].key == key {
      assert found == Some(id);
    }
  }

  function FindPayment(payments: seq<Payment>, provider: nat): (r: Option<nat>)
    ensures r.Some? ==> r.value < |payments| && payments[r.value].provider == Some(provider)
    ensures r.None? <==> forall i :: 0 <= i < |payments| ==> payments[i].provider != Some(provider)
  {
    if payments == [] then None
    else if payments[|payments| - 1].provider == Some(provider) then Some(|payments| - 1)
    else FindPayment(payments[..|payments| - 1], provider)
  }

  function FindActive(checkouts: seq<Checkout>, user: nat): (r: Option<nat>)
    ensures r.Some? ==> r.value < |checkouts| && checkouts[r.value].user == user && checkouts[r.value].active
    ensures r.None? <==> forall i :: 0 <= i < |checkouts| ==> checkouts[i].user == user ==> !checkouts[i].active
  {
    if checkouts == [] then None
    else if checkouts[|checkouts| - 1].user == user && checkouts[|checkouts| - 1].active then Some(|checkouts| - 1)
    else FindActive(checkouts[..|checkouts| - 1], user)
  }

  /** The cart joined with the product table. */
  function Joined(cart: seq<Item>, stock: Shelf): (r: seq<Item>)
    ensures forall it :: it in r <==> it in cart && it.pid in stock
    ensures Pids(r) <= stock.Keys
  {
    if cart == [] then []
    else
      var it, rest := cart[|cart| - 1], Joined(cart[..|cart| - 1], stock);
      if it.pid in stock then rest + [it] else rest
  }

  /** With every product there, as the foreign key sees to, the lines and their order stay; lines of others are dropped. */
  lemma {:induction false} JoinedMeaning(cart: seq<Item>, stock: Shelf, it: Item)
    ensures Pids(cart) <= stock.Keys ==> Joined(cart, stock) == cart
    ensures multiset(Joined(cart, stock))[it] == if it.pid in stock then multiset(cart)[it] else 0
  {
    if cart != [] {
      var n := |cart| - 1;
      JoinedMeaning(cart[..n], stock, it);
      PidsSnoc(cart);
      assert cart == cart[..n] + [cart[n]];
    }
  }

  lemma {:induction false} JoinedDistinct(cart: seq<Item>, stock: Shelf)
    requires Distinct(cart)
    ensures Distinct(Joined(cart, stock))
  {
    if cart != [] {
      var n := |cart| - 1;
      JoinedDistinct(cart[..n], stock);
      forall it | it in Joined(cart[..n], stock) ensures it.pid != cart[n].pid {}
    }
  }

  lemma SeenSnoc(stock: Shelf, items: seq<Item>, it: Item)
    requires Pids(items) <= stock.Keys && it.pid in stock
    ensures Pids(items + [it]) <= stock.Keys
    ensures Seen(stock, items + [it]) == Seen(stock, items) + [stock[it.pid]]
  {
    PidsSnoc(items + [it]);
    assert (items + [it])[..|items|] == items;
  }

  /** capture_cart_snapshot: each joined row is locked and read. */
  method CaptureCartSnapshot(cart: seq<Item>, stock: Shelf) returns (items: seq<Item>, seen: seq<int>)
    ensures items == Joined(cart, stock)
    ensures seen == Seen(stock, items)
  {
    items, seen := [], [];
    for i := 0 to |cart|
      invariant items == Joined(cart[..i], stock)
      invariant seen == Seen(stock, items)
    {
      assert cart[..i + 1][..i] == cart[..i];
      if cart[i].pid in stock {
        SeenSnoc(stock, items, cart[i]);
        items, seen := items + [cart[i]], seen + [stock[cart[i].pid]];
      }
    }
    assert cart[..|cart|] == cart;
  }

  /** reserve_inventory: one insert a line, a conflicting row left as it is. */
  method ReserveInventory(rows: seq<Reservation>, items: seq<Item>, cs: nat, until: int) returns (r: seq<Reservation>)
    ensures r == Reserve(rows, items, cs, until)
  {
    r := rows;
    for i := 0 to |items|
      invariant r == Reserve(rows, items[..i], cs, until)
    {
      assert items[..i + 1][..i] == items[..i];
      if !HasRow(r, items[i].pid, cs) {
        r := r + [Reservation(items[i].pid, cs, items[i].qty, until)];
      }
    }
    assert items[..|items|] == items;
  }

  /** Reply k, after transient ones only, gives an order id that no payment has. */
  predicate AnswersAt(payments: seq<Payment>, replies: seq<PspReply>, k: nat, id: nat) {
    && k < |replies| && replies[k] == Answered(Some(id)) && FindPayment(payments, id).None?
    && forall i :: 0 <= i < k ==> IsTransient(replies[i])
  }

  ghost predicate Answers(payments: seq<Payment>, replies: seq<PspReply>) {
    exists k: nat, id: nat :: AnswersAt(payments, replies, k, id)
  }

  /** The rows of tries 1 to k + 1. */
  function Tries(payment: nat, replies: seq<PspReply>, k: nat): (r: seq<Attempt>)
    requires k < |replies|
    ensures |r| == k + 1 && forall i :: 0 <= i <= k ==> r[i] == Attempt(payment, i + 1, StatusAfter(replies[i]))
    ensures forall i :: 0 <= i <= k ==> IsTryRow(r[i], payment, i + 1, replies[i])
  {
    seq(k + 1, i requires 0 <= i <= k => Attempt(payment, i + 1, StatusAfter(replies[i])))
  }

  lemma OnlyLastAnswers(payments: seq<Payment>, replies: seq<PspReply>, rows: seq<Attempt>, outcome: PspOutcome)
    requires 1 <= |rows| <= |replies| == PSP_TRIES && forall i :: 0 <= i < |rows| - 1 ==> IsTransient(replies[i])
    requires outcome.Exhausted? <==> forall i :: 0 <= i < PSP_TRIES ==> IsTransient(replies[i])
    requires outcome.Responded? ==> replies[|rows| - 1] == Answered(outcome.order)
    requires outcome.Refused? ==> replies[|rows| - 1] == Rejected
    ensures forall k: nat, id: nat :: AnswersAt(payments, replies, k, id) ==>
              k == |rows| - 1 && outcome == Responded(Some(id))
  {
    forall k: nat, id: nat | AnswersAt(payments, replies, k, id) ensures k == |rows| - 1 && outcome == Responded(Some(id)) {
      assert !IsTransient(replies[k]);
    }
  }

  /** A payment that has no provider order yet takes none away. */
  lemma NewPaymentAsksNobody(before: seq<Payment>, after: seq<Payment>, replies: seq<PspReply>)
    requires |after| == |before| + 1 && after[..|before|] == before && after[|before|].provider.None?
    ensures Answers(after, replies) <==> Answers(before, replies)
    ensures forall k: nat, id: nat :: AnswersAt(after, replies, k, id) <==> AnswersAt(before, replies, k, id)
  {
    forall k: nat, id: nat ensures AnswersAt(after, replies, k, id) <==> AnswersAt(before, replies, k, id) {
      assert FindPayment(after, id) == FindPayment(before, id);
    }
  }

  // ---- what each handler commits, as a relation between the tables before and after

  ghost predicate MayUse(s: State, user: nat, cs: nat) {
    cs < |s.checkouts| && s.checkouts[cs].user == user && s.checkouts[cs].active
  }

  function Deactivated(s: State, cs: nat): State
    requires cs < |s.checkouts|
  {
    s.(checkouts := s.checkouts[cs := s.checkouts[cs].(active := false)])
  }

  function Initiated(s: State, user: nat): State {
    s.(checkouts := s.checkouts + [Checkout(user, s.now + CHECKOUT_TTL, true, NoSnapshot)])
  }

  ghost predicate InitiateCommits(s: State, user: nat, cart: seq<Item>, r: InitiateReply, t: State) {
    var found := FindActive(s.checkouts, user);
    if cart == [] then r == CartMissing && t == s
    else if found.None? then r == CheckoutGiven(|s.checkouts|) && t == Initiated(s, user)
    else if s.checkouts[found.value].expires < s.now then r == InitiateExpired && t == Deactivated(s, found.value)
    else r == CheckoutGiven(found.value) && t == s
  }

  ghost predicate SummaryCommits(s: State, user: nat, cs: nat, how: PayMethod, cart: seq<Item>, r: SummaryReply, t: State) {
    if !MayUse(s, user, cs) then r == SummaryForbidden && t == s
    else if s.checkouts[cs].expires < s.now then r == SummaryExpired && t == Deactivated(s, cs)
    else match s.checkouts[cs].snapshot
      case Taken(items, chosen) => r == Quoted(items, SummaryTotals(items, chosen)) && t == s
      case NoSnapshot =>
        var items := Joined(cart, s.stock);
        if items == [] then r == SummaryCrashed && t == s
        else if Available(s.reservations, items, Seen(s.stock, items), s.now) then
          r == Quoted(items, SummaryTotals(items, how)) && t == Summarised(s, cs, items, how)
        else
          && r.SummaryConflict? && r.errors != [] && t == s
          && forall pid :: pid in r.errors <==> Short(s.reservations, items, Seen(s.stock, items), s.now, pid)
  }

  ghost predicate MayPlace(s: State, user: nat, cs: nat, key: nat) {
    MayUse(s, user, cs) && CanConfirm(s, cs, key) && s.checkouts[cs].snapshot.items != []
  }

  /** The answer a key gets: its own stored response, a refusal, or a new order. */
  ghost function KeyAnswer(b: Book, user: nat, cs: nat, key: nat, how: PayMethod, now: int): ConfirmReply {
    match SpcByIkey(b.iks, key, user, now)
    case KeyTooOld => KeyExpired
    case KeyRow(id) =>
      if b.iks[id].cs != cs then WrongCheckout else if b.iks[id].answered then Replayed(id) else ConfirmCrashed
    case NoKey =>
      if KeyTaken(b, key) || how == Cod then ConfirmCrashed else Placed(|b.orders|, |b.payments|)
  }

  ghost predicate ConfirmCommits(s: State, user: nat, cs: nat, key: nat, r: ConfirmReply, t: State) {
    if !MayUse(s, user, cs) then r == ConfirmForbidden && t == s
    else if s.checkouts[cs].expires < s.now + CONFIRM_MARGIN then r == ConfirmExpired && t == Deactivated(s, cs)
    else match s.checkouts[cs].snapshot
      case NoSnapshot => r == NothingChosen && t == s
      case Taken(items, how) =>
        if items == [] then r == NothingChosen && t == s
        else r == KeyAnswer(s.book, user, cs, key, how, s.now) && t == if r.Placed? then Ordered(s, cs, key) else s
  }

  /** The stored response belongs to this user, key and checkout. */
  ghost predicate OwnAnswer(iks: seq<IKey>, ik: nat, user: nat, cs: nat, key: nat) {
    ik < |iks| && iks[ik].key == key && iks[ik].user == user && iks[ik].cs == cs && iks[ik].answered
  }

  /** The checkout is the user's, active, in time, and has lines to order. */
  ghost predicate Chosen(s: State, user: nat, cs: nat) {
    && MayUse(s, user, cs) && s.checkouts[cs].expires >= s.now + CONFIRM_MARGIN
    && s.checkouts[cs].snapshot.Taken? && s.checkouts[cs].snapshot.items != []
  }

  /** A stored response is given out: the checkout is still usable, and the key row is the caller's own, answered, and
      not about to expire. */
  ghost predicate MayReplay(s: State, user: nat, cs: nat, key: nat) {
    && Chosen(s, user, cs)
    && exists ik: nat :: OwnAnswer(s.book.iks, ik, user, cs, key) && s.book.iks[ik].expires >= s.now + CONFIRM_MARGIN
  }

  /** Exactly when an order is placed and exactly when a stored response is replayed. */
  lemma ConfirmMeaning(s: State, user: nat, cs: nat, key: nat, r: ConfirmReply, t: State)
    requires ConfirmCommits(s, user, cs, key, r, t)
    ensures r.Placed? <==> MayPlace(s, user, cs, key)
    ensures r.Placed? ==> t == Ordered(s, cs, key) && r == Placed(|s.book.orders|, |s.book.payments|)
    ensures KeysUnique(s.book.iks) ==> (r.Replayed? <==> MayReplay(s, user, cs, key))
    ensures r.Replayed? ==> OwnAnswer(s.book.iks, r.ik, user, cs, key)
    ensures !r.Placed? && !r.ConfirmExpired? ==> t == s
    ensures r.ConfirmForbidden? <==> !(cs < |s.checkouts| && s.checkouts[cs].user == user && s.checkouts[cs].active)
    ensures r.ConfirmExpired? <==> !r.ConfirmForbidden? && s.checkouts[cs].expires < s.now + 40
    ensures r.ConfirmExpired? ==> t == s.(checkouts := s.checkouts[cs := s.checkouts[cs].(active := false)])
  {
    if MayUse(s, user, cs) && s.checkouts[cs].snapshot.Taken? {
      var found := FindKey(s.book.iks, key);
      assert found.Some? ==> s.book.iks[found.value].key == key;
    }
    if KeysUnique(s.book.iks) && MayReplay(s, user, cs, key) {
      var ik: nat :| OwnAnswer(s.book.iks, ik, user, cs, key) && s.book.iks[ik].expires >= s.now + CONFIRM_MARGIN;
      assert FindKey(s.book.iks, key) == Some(ik);
    }
  }

  /** Which refusal a usable checkout gets: by its own key row, by somebody else's, or by a cash order. */
  lemma RefusalMeaning(s: State, user: nat, cs: nat, key: nat, r: ConfirmReply, t: State, ik: nat)
    requires ConfirmCommits(s, user, cs, key, r, t) && MayUse(s, user, cs) && KeysUnique(s.book.iks)
    ensures r.NothingChosen? <==> s.checkouts[cs].expires >= s.now + CONFIRM_MARGIN && !Chosen(s, user, cs)
    ensures Chosen(s, user, cs) && OwnRow(s.book.iks, ik, key, user) ==>
              var row := s.book.iks[ik];
              && (r.KeyExpired? <==> row.expires < s.now + CONFIRM_MARGIN)
              && (r.WrongCheckout? <==> row.expires >= s.now + CONFIRM_MARGIN && row.cs != cs)
              && (r.ConfirmCrashed? <==> row.expires >= s.now + CONFIRM_MARGIN && row.cs == cs && !row.answered)
    ensures Chosen(s, user, cs) && (forall i :: 0 <= i < |s.book.iks| ==> !OwnRow(s.book.iks, i, key, user)) ==>
              (r.ConfirmCrashed? <==> KeyTaken(s.book, key) || s.checkouts[cs].snapshot.how == Cod)
  {
    if Chosen(s, user, cs) {
      SpcMeaning(s.book.iks, ik, key, user, s.now);
      var found := SpcByIkey(s.book.iks, key, user, s.now);
      if found.KeyTooOld? {
        assert OwnRow(s.book.iks, FindKey(s.book.iks, key).value, key, user);
      }
    }
  }

  ghost predicate Awaits(b: Book, p: nat, key: nat) {
    && p in b.awaiting && p < |b.payments| && b.payments[p].order < |b.orders|
    && b.orders[b.payments[p].order].ik < |b.iks| && FindKey(b.iks, key) == Some(b.orders[b.payments[p].order].ik)
  }

  /** The provider's order id and the accepted status on the payment, the response on its key. */
  function Accepted(s: State, p: nat, provider: nat): State
    requires p < |s.book.payments| && s.book.payments[p].order < |s.book.orders|
    requires s.book.orders[s.book.payments[p].order].ik < |s.book.iks|
  {
    s.(book := DoPspAccept(s.book, p, provider))
  }

  function Unanswered(s: State, p: nat): State {
    s.(book := s.book.(awaiting := s.book.awaiting - {p}))
  }

  ghost predicate PaymentCommits(s: State, p: nat, key: nat, provider: Option<nat>, t: State) {
    && Awaits(s.book, p, key)
    && match provider
       case Some(id) => FindPayment(s.book.payments, id).None? && t == Accepted(s, p, id)
       case None => t == Unanswered(s, p)
  }

  ghost predicate SecureConfirmCommits(s: State, user: nat, cs: nat, key: nat, r: ConfirmReply, t: State) {
    match r
    case PaymentAccepted(order, provider) =>
      && MayPlace(s, user, cs, key) && order == |s.book.orders|
      && FindPayment(Ordered(s, cs, key).book.payments, provider).None?
      && t == Deactivated(Accepted(Ordered(s, cs, key), |s.book.payments|, provider), cs)
    case PaymentRefused(order) =>
      && MayPlace(s, user, cs, key) && order == |s.book.orders|
      && t == Unanswered(Ordered(s, cs, key), |s.book.payments|)
    case _ => !r.Placed? && ConfirmCommits(s, user, cs, key, r, t)
  }

  /** The foreign key of payments. */
  ghost predicate OrdersExist(b: Book) {
    forall p :: 0 <= p < |b.payments| ==> b.payments[p].order < |b.orders|
  }

  ghost predicate WebhookCommits(s: State, e: nat, r: WebhookReply, t: State)
    requires e in s.book.feed && OrdersExist(s.book)
  {
    var found := FindPayment(s.book.payments, s.book.feed[e].order);
    var v := VerdictOf(s.book, e);
    if found.None? then r == PaymentNotFound && t == s
    else if !v.valid then r == Ignored && t == s
    else if e in s.book.events then r == DuplicateCrashed && t == s
    else if s.book.payments[found.value].status >= v.pay then r == NotInOrder && t == Superseded(s, e)
    else r == EventProcessed(s.book.payments[found.value].order) && t == Processed(s, e, found.value)
  }

  ghost predicate WorkerCommits(s: State, i: nat, r: WorkerReply, t: State) {
    if i >= |s.book.intents| || !s.book.intents[i].status.Pending? then r == Skipped && t == s
    else if Covers(s.stock, s.book.intents[i].items) then
      r == StockDrawn && Drawn(s.stock, s.book.intents[i].items, t.stock) && t == s.(stock := t.stock, book := Finished(s.book, i))
    else
      && t == s.(book := DoSettle(DoClaim(s.book, i), i))
      && r == (if s.book.intents[i].attempts + 2 >= MAX_ATTEMPTS then GivenUp else Retrying)
  }

  // ---- the tables

  class Database {
    const feed: map<nat, PspEvent>
    const products: ProductTable
    var clock: int
    var checkouts: seq<Checkout>
    var reservations: seq<Reservation>
    var iks: seq<IKey>
    var orders: seq<Order>
    var payments: seq<Payment>
    var attempts: seq<Attempt>
    var intents: seq<Intent>
    var events: set<nat>
    var outbox: set<(Topic, nat)>
    ghost var awaiting: set<nat>
    ghost var delivered: set<nat>
    ghost var supplied: Shelf

    ghost function TheBook(): Book
      reads this
    {
      Book(feed, iks, orders, payments, intents, events, delivered, awaiting, outbox)
    }

    /** The tables as a state of the transition system with nothing in flight. */
    ghost function Committed(): State
      reads this, products
    {
      State(clock, checkouts, reservations, products.stock, supplied, TheBook(), map[], map[], map[], map[])
    }

    constructor (feed: map<nat, PspEvent>, rows: Shelf, clock: int)
      requires forall pid :: pid in rows ==> rows[pid] >= 0
      ensures Init(Committed()) && Committed().stock == rows && TheBook().feed == feed && fresh(products)
    {
      this.feed := feed;
      products := new ProductTable(rows);
      this.clock := clock;
      checkouts, reservations, iks, orders, payments, attempts, intents := [], [], [], [], [], [], [];
      events, outbox, awaiting, delivered := {}, {}, {}, {};
      supplied := rows;
    }

    method InitiateBuyNow(user: nat, cart: seq<Item>) returns (r: InitiateReply)
      modifies this
      ensures InitiateCommits(old(Committed()), user, cart, r, Committed())
    {
      if cart == [] {
        return CartMissing;
      }
      var found := FindActive(checkouts, user);
      if found.None? {
        checkouts := checkouts + [Checkout(user, clock + CHECKOUT_TTL, true, NoSnapshot)];
        return CheckoutGiven(|checkouts| - 1);
      }
      if checkouts[found.value].expires < clock {
        checkouts := checkouts[found.value := checkouts[found.value].(active := false)];
        return InitiateExpired;
      }
      return CheckoutGiven(found.value);
    }

    /** order-summary. */
    method OrderSummary(user: nat, cs: nat, how: PayMethod, cart: seq<Item>) returns (r: SummaryReply)
      modifies this
      ensures SummaryCommits(old(Committed()), user, cs, how, cart, r, Committed())
    {
      if !(cs < |checkouts| && checkouts[cs].user == user && checkouts[cs].active) {
        return SummaryForbidden;
      }
      if checkouts[cs].expires < clock {
        checkouts := checkouts[cs := checkouts[cs].(active := false)];
        return SummaryExpired;
      }
      if checkouts[cs].snapshot.Taken? {
        var snap := checkouts[cs].snapshot;
        return Quoted(snap.items, SummaryTotals(snap.items, snap.how));
      }
      var items, seen := CaptureCartSnapshot(cart, products.stock);
      if items == [] {
        return SummaryCrashed;
      }
      var errors := ItemsAvblty(reservations, items, seen, clock);
      if errors != [] {
        return SummaryConflict(errors);
      }
      reservations := ReserveInventory(reservations, items, cs, checkouts[cs].expires);
      checkouts := checkouts[cs := checkouts[cs].(snapshot := Taken(items, how))];
      return Quoted(items, SummaryTotals(items, how));
    }

    /** place_order_with_items: orders.ik_id is unique, and a cash order's response cannot be stored. */
    method PlaceOrderWithItems(user: nat, ik: nat, items: seq<Item>, how: PayMethod, totals: Totals) returns (placed: bool)
      modifies this`orders, this`payments, this`awaiting
      ensures placed <==> how == Upi && forall o :: 0 <= o < |old(orders)| ==> old(orders)[o].ik != ik
      ensures !placed ==> orders == old(orders) && payments == old(payments) && awaiting == old(awaiting)
      ensures placed ==> orders == old(orders) + [Order(ik, user, PendingPayment, totals, items)]
      ensures placed ==> payments == old(payments) + [Payment(|old(orders)|, PENDING, totals.total, None)]
      ensures placed ==> awaiting == old(awaiting) + {|old(payments)|}
    {
      if exists o :: 0 <= o < |orders| && orders[o].ik == ik {
        return false;
      }
      if how == Cod {
        return false;
      }
      orders := orders + [Order(ik, user, PendingPayment, totals, items)];
      payments := payments + [Payment(|orders| - 1, PENDING, totals.total, None)];
      awaiting := awaiting + {|payments| - 1};
      return true;
    }

    /** validate_checkout_get_items_paymethod: the refusal, or none if there is something to order. */
    method ValidateCheckout(user: nat, cs: nat) returns (r: Option<ConfirmReply>)
      modifies this`checkouts
      ensures r.None? <==> MayUse(old(Committed()), user, cs) && old(checkouts[cs].expires >= clock + CONFIRM_MARGIN)
                           && old(checkouts[cs].snapshot.Taken? && checkouts[cs].snapshot.items != [])
      ensures r.Some? ==> r.value == if !MayUse(old(Committed()), user, cs) then ConfirmForbidden
                                     else if old(checkouts[cs].expires < clock + CONFIRM_MARGIN) then ConfirmExpired
                                     else NothingChosen
      ensures r == Some(ConfirmExpired) ==> Committed() == Deactivated(old(Committed()), cs)
      ensures r != Some(ConfirmExpired) ==> checkouts == old(checkouts)
    {
      if !(cs < |checkouts| && checkouts[cs].user == user && checkouts[cs].active) {
        return Some(ConfirmForbidden);
      }
      if checkouts[cs].expires < clock + CONFIRM_MARGIN {
        checkouts := checkouts[cs := checkouts[cs].(active := false)];
        return Some(ConfirmExpired);
      }
      if checkouts[cs].snapshot.NoSnapshot? || checkouts[cs].snapshot.items == [] {
        return Some(NothingChosen);
      }
      return None;
    }

    /** The idempotency key's part: an earlier answer, a refusal, or a new key row with its order and payment. */
    method OrderForKey(user: nat, cs: nat, key: nat, items: seq<Item>, how: PayMethod, totals: Totals) returns (r: ConfirmReply)
      requires RowsInv(TheBook()) && totals == FinalTotals(items, how)
      modifies this`iks, this`orders, this`payments, this`awaiting
      ensures r == KeyAnswer(old(TheBook()), user, cs, key, how, clock)
      ensures !r.Placed? ==> TheBook() == old(TheBook())
      ensures r.Placed? ==> TheBook() == BookOrdered(old(TheBook()), IKey(key, user, cs, clock + KEY_TTL, false), items, how)
    {
      var found := SpcByIkey(iks, key, user, clock);
      if found.KeyTooOld? {
        return KeyExpired;
      }
      if found.KeyRow? && iks[found.id].cs != cs {
        return WrongCheckout;
      }
      if found.KeyRow? && iks[found.id].answered {
        return Replayed(found.id);
      }
      // the insert is ignored if the key is there, and then the user's row is read again
      NewKeyHasNoOrder(TheBook(), key);
      var ik := |iks|;
      var saved := iks;
      if FindKey(iks, key).None? {
        iks := iks + [IKey(key, user, cs, clock + KEY_TTL, false)];
      } else if found.KeyRow? {
        ReplayFindsOrder(TheBook(), found.id);
        ik := found.id;
      } else {
        return ConfirmCrashed;
      }
      var placed := PlaceOrderWithItems(user, ik, items, how, totals);
      if !placed {
        iks := saved;
        return ConfirmCrashed;
      }
      return Placed(|orders| - 1, |payments| - 1);
    }

    /** The transaction of secure-confirm up to its commit. */
    method PlaceOrder(user: nat, cs: nat, key: nat) returns (r: ConfirmReply)
      requires RowsInv(TheBook())
      modifies this
      ensures ConfirmCommits(old(Committed()), user, cs, key, r, Committed())
    {
      var refusal := ValidateCheckout(user, cs);
      if refusal.Some? {
        return refusal.value;
      }
      var snap := checkouts[cs].snapshot;
      var totals := ComputeFinalTotal(snap.items, snap.how);
      r := OrderForKey(user, cs, key, snap.items, snap.how, totals);
    }

    /** After the commit the provider is called, and only an answer with a new order id is committed, with its tries. */
    method CreatePaymentIntent(p: nat, key: nat, replies: seq<PspReply>) returns (provider: Option<nat>)
      requires Awaits(TheBook(), p, key) && |replies| == PSP_TRIES
      modifies this
      ensures PaymentCommits(old(Committed()), p, key, provider, Committed())
      ensures provider.Some? <==> Answers(old(payments), replies)
      ensures provider.Some? ==>
                exists k: nat :: AnswersAt(old(payments), replies, k, provider.value) && attempts == old(attempts) + Tries(p, replies, k)
      ensures provider.None? ==> attempts == old(attempts)
    {
      var rows, outcome := RetryPayments(p, replies);
      var answer := if outcome.Responded? then outcome.order else None;
      OnlyLastAnswers(payments, replies, rows, outcome);
      if answer.None? || FindPayment(payments, answer.value).Some? {
        awaiting := awaiting - {p};
        return None;
      }
      assert AnswersAt(payments, replies, |rows| - 1, answer.value);
      assert rows == Tries(p, replies, |rows| - 1);
      var id := FindKey(iks, key);
      attempts := attempts + rows;
      payments := payments[p := payments[p].(status := ACCEPTED, provider := answer)];
      iks := iks[id.value := iks[id.value].(answered := true)];
      awaiting := awaiting - {p};
      return answer;
    }

    /** secure-confirm. */
    method SecureConfirm(user: nat, cs: nat, key: nat, replies: seq<PspReply>) returns (r: ConfirmReply)
      requires RowsInv(TheBook()) && |replies| == PSP_TRIES
      modifies this
      ensures SecureConfirmCommits(old(Committed()), user, cs, key, r, Committed())
      ensures r.PaymentAccepted? <==> MayPlace(old(Committed()), user, cs, key) && Answers(old(payments), replies)
      ensures r.PaymentAccepted? ==> exists k: nat :: AnswersAt(old(payments), replies, k, r.provider)
    {
      r := PlaceOrder(user, cs, key);
      ConfirmMeaning(old(Committed()), user, cs, key, r, Committed());
      if r.Placed? {
        PlacedAwaits(old(Committed()), cs, key);
        NewPaymentAsksNobody(old(payments), payments, replies);
        var order := r.order;
        var provider := CreatePaymentIntent(r.payment, key, replies);
        if provider.None? {
          return PaymentRefused(order);
        }
        checkouts := checkouts[cs := checkouts[cs].(active := false)];
        return PaymentAccepted(order, provider.value);
      }
    }

    /** A delivery of event e. */
    method RazorpayWebhook(e: nat) returns (r: WebhookReply)
      requires e in feed && OrdersExist(TheBook())
      modifies this
      ensures WebhookCommits(old(Committed()), e, r, Committed())
    {
      var found := FindPayment(payments, feed[e].order);
      if found.None? {
        return PaymentNotFound;
      }
      var p := found.value;
      var v := Classify(feed[e].psp, feed[e].event);
      if !v.valid {
        return Ignored;
      }
      if e in events {
        return DuplicateCrashed;
      }
      if !(payments[p].status < v.pay) {
        delivered := delivered + {e};
        return NotInOrder;
      }
      ApplyEvent(e, p, v);
      return EventProcessed(payments[p].order);
    }

    /** The webhook's transaction, once the event counts: payment, order, commit intent, outbox and event row. */
    method ApplyEvent(e: nat, p: nat, v: Verdict)
      requires e in feed && v == VerdictOf(TheBook(), e) && p < |payments| && payments[p].order < |orders|
      modifies this`payments, this`orders, this`intents, this`outbox, this`events, this`delivered
      ensures TheBook() == DoWebhook(old(TheBook()), e, p)
    {
      payments := payments[p := payments[p].(status := v.pay)];
      var o := payments[p].order;
      orders := orders[o := orders[o].(status := v.order)];
      if v.pay == CAPTURED || v.pay == FAILED {
        if v.pay == CAPTURED {
          var items := orders[o].items;
          if !(exists i :: 0 <= i < |intents| && intents[i].order == o) {
            intents := intents + [Intent(o, items, Pending, 0, 0, 0)];
          }
        }
        outbox := outbox + {(if v.pay == CAPTURED then OrderPaid else OrderPendingPayment, o)};
      }
      events, delivered := events + {e}, delivered + {e};
    }

    /** One delivery of commit intent i to a worker. */
    method CommitIntentHandler(i: nat) returns (r: WorkerReply)
      modifies this, products
      ensures WorkerCommits(old(Committed()), i, r, Committed())
    {
      if i >= |intents| || !intents[i].status.Pending? {
        return Skipped;
      }
      intents := intents[i := intents[i].(status := Processing, attempts := intents[i].attempts + 1, claims := intents[i].claims + 1)];
      var outcome := products.Draw(intents[i].items);
      if outcome.Committed? {
        intents := intents[i := intents[i].(status := Done)];
        return StockDrawn;
      }
      var attempts := intents[i].attempts;
      var it := intents[i].(failures := intents[i].failures + 1);
      if attempts + 1 >= MAX_ATTEMPTS {
        intents := intents[i := it.(status := Failed)];
        return GivenUp;
      }
      intents := intents[i := it.(status := Pending, attempts := attempts + 1)];
      return Retrying;
    }
  }

  /** A key that is not there yet has no order, so its insert is not refused. */
  lemma NewKeyHasNoOrder(b: Book, key: nat)
    requires RowsInv(b)
    ensures FindKey(b.iks, key).None? <==> !KeyTaken(b, key)
    ensures forall o :: 0 <= o < |b.orders| ==> b.orders[o].ik != |b.iks|
  {
  }

  lemma PlacedAwaits(s: State, cs: nat, key: nat)
    requires CanConfirm(s, cs, key)
    ensures Awaits(Ordered(s, cs, key).book, |s.book.payments|, key)
  {
  }
}
