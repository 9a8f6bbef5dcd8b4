/** The handlers refine the transition system, and what repeating one of them does. */
module HandlerTheorems {
  import opened Options
  import opened Amounts
  import opened Payments
  import opened Stock
  import opened Reservations
  import opened Shop
  import opened Rules
  import opened BookInvariants
  import opened FlightInvariants
  import opened ShopInvariants
  import opened SerialRuns
  import opened Handlers
  import opened CheckoutOrders

  ghost predicate Orderable(cart: seq<Item>) {
    Distinct(cart) && forall i :: 0 <= i < |cart| ==> cart[i].qty >= 1
  }

  // ---- each handler, run alone, is a run of the transition system

  lemma DeactivateRun(s: State, cs: nat)
    requires Quiet(s) && cs < |s.checkouts|
    ensures Reaches(s, Deactivated(s, cs))
  {
    ReachesSelf(s, {});
    TakesDeactivate(s, s, cs, Deactivated(s, cs), {});
  }

  lemma InitiateRefines(s: State, user: nat, cart: seq<Item>, r: InitiateReply, t: State)
    requires Quiet(s) && InitiateCommits(s, user, cart, r, t)
    ensures Reaches(s, t) && Quiet(t)
  {
    var found := FindActive(s.checkouts, user);
    ReachesSelf(s, {});
    if cart != [] && found.None? {
      TakesInitiate(s, s, user, Initiated(s, user), {});
    } else if cart != [] && s.checkouts[found.value].expires < s.now {
      DeactivateRun(s, found.value);
    }
  }

  lemma JoinedOrderable(cart: seq<Item>, stock: Shelf)
    requires Orderable(cart)
    ensures Orderable(Joined(cart, stock))
  {
    JoinedDistinct(cart, stock);
    var items := Joined(cart, stock);
    forall i | 0 <= i < |items| ensures items[i].qty >= 1 {
      assert items[i] in items;
    }
  }

  lemma SummaryRefines(s: State, user: nat, cs: nat, how: PayMethod, cart: seq<Item>, r: SummaryReply, t: State)
    requires Quiet(s) && Orderable(cart) && SummaryCommits(s, user, cs, how, cart, r, t)
    ensures Reaches(s, t) && Quiet(t)
  {
    ReachesSelf(s, {});
    if r.SummaryExpired? {
      DeactivateRun(s, cs);
    } else if r.Quoted? && s.checkouts[cs].snapshot.NoSnapshot? {
      JoinedOrderable(cart, s.stock);
      SummaryRun(s, cs, Joined(cart, s.stock), how, {});
    }
  }

  lemma PaymentRefines(s: State, p: nat, key: nat, provider: Option<nat>, t: State)
    requires Quiet(s) && PaymentCommits(s, p, key, provider, t)
    ensures Reaches(s, t) && Quiet(t)
  {
    ReachesSelf(s, {});
    match provider
    case Some(id) => TakesPspAccept(s, s, p, id, Accepted(s, p, id), {});
    case None => TakesPspFail(s, s, p, Unanswered(s, p), {});
  }

  lemma SecureConfirmRefines(s: State, user: nat, cs: nat, key: nat, r: ConfirmReply, t: State)
    requires Quiet(s) && SecureConfirmCommits(s, user, cs, key, r, t)
    ensures Reaches(s, t) && Quiet(t)
  {
    if r.PaymentAccepted? || r.PaymentRefused? {
      var placed, p := Ordered(s, cs, key), |s.book.payments|;
      ConfirmRun(s, cs, key, {});
      PlacedAwaits(s, cs, key);
      var provider := if r.PaymentAccepted? then Some(r.provider) else None;
      var answered := if r.PaymentAccepted? then Accepted(placed, p, r.provider) else Unanswered(placed, p);
      PaymentRefines(placed, p, key, provider, answered);
      ReachesOn(s, placed, answered, {});
      if r.PaymentAccepted? {
        DeactivateRun(answered, cs);
        ReachesOn(s, answered, t, {});
      }
    } else if r.ConfirmExpired? {
      DeactivateRun(s, cs);
    } else {
      ReachesSelf(s, {});
    }
  }

  lemma WebhookRefines(s: State, e: nat, r: WebhookReply, t: State)
    requires Quiet(s) && e in s.book.feed && OrdersExist(s.book) && WebhookCommits(s, e, r, t)
    ensures Reaches(s, t) && Quiet(t)
  {
    ReachesSelf(s, {});
    var found := FindPayment(s.book.payments, s.book.feed[e].order);
    if r.EventProcessed? {
      WebhookRun(s, e, found.value, {});
    } else if r.NotInOrder? {
      StaleWebhookRun(s, e, found.value, {});
    }
  }

  lemma WorkerRefines(s: State, i: nat, r: WorkerReply, t: State)
    requires Quiet(s) && WorkerCommits(s, i, r, t)
    ensures Reaches(s, t) && Quiet(t)
  {
    ReachesSelf(s, {});
    if r.StockDrawn? {
      DrawRun(s, i, t.stock, {});
    } else if !r.Skipped? {
      FailedDrawRun(s, i, {});
    }
  }

  // ---- so handlers one after the other stay within what every interleaving keeps

  datatype Call =
    | Wait(d: nat)
    | InitiateCall(user: nat, cart: seq<Item>, ir: InitiateReply)
    | SummaryCall(user: nat, cs: nat, how: PayMethod, cart: seq<Item>, sr: SummaryReply)
    | ConfirmCall(user: nat, cs: nat, key: nat, cr: ConfirmReply)
    | WebhookCall(e: nat, wr: WebhookReply)
    | WorkerCall(i: nat, kr: WorkerReply)

  ghost predicate Handled(s: State, c: Call, t: State) {
    match c
    case Wait(d) => t == s.(now := s.now + d)
    case InitiateCall(user, cart, r) => InitiateCommits(s, user, cart, r, t)
    case SummaryCall(user, cs, how, cart, r) => Orderable(cart) && SummaryCommits(s, user, cs, how, cart, r, t)
    case ConfirmCall(user, cs, key, r) => SecureConfirmCommits(s, user, cs, key, r, t)
    case WebhookCall(e, r) => e in s.book.feed && OrdersExist(s.book) && WebhookCommits(s, e, r, t)
    case WorkerCall(i, r) => WorkerCommits(s, i, r, t)
  }

  lemma CallRefines(s: State, c: Call, t: State)
    requires Quiet(s) && Handled(s, c, t)
    ensures Reaches(s, t) && Quiet(t)
  {
    match c
    case Wait(d) =>
      ReachesSelf(s, {});
      TakesTick(s, s, d, t, {});
    case InitiateCall(user, cart, r) => InitiateRefines(s, user, cart, r, t);
    case SummaryCall(user, cs, how, cart, r) => SummaryRefines(s, user, cs, how, cart, r, t);
    case ConfirmCall(user, cs, key, r) => SecureConfirmRefines(s, user, cs, key, r, t);
    case WebhookCall(e, r) => WebhookRefines(s, e, r, t);
    case WorkerCall(i, r) => WorkerRefines(s, i, r, t);
  }

  ghost predicate Served(states: seq<State>, calls: seq<Call>) {
    && |states| == |calls| + 1
    && forall k :: 0 <= k < |calls| ==> Handled(states[k], calls[k], states[k + 1])
  }

  lemma ServiceStep(s0: State, s: State, c: Call, t: State)
    requires Reaches(s0, s) && Quiet(s) && Handled(s, c, t)
    ensures Reaches(s0, t) && Quiet(t)
  {
    CallRefines(s, c, t);
    ReachesOn(s0, s, t, {});
  }

  lemma ServedBefore(states: seq<State>, calls: seq<Call>)
    requires Served(states, calls) && calls != []
    ensures Served(states[..|calls|], calls[..|calls| - 1])
  {
  }

  lemma LastServed(states: seq<State>, calls: seq<Call>)
    requires Served(states, calls) && calls != []
    requires Reaches(states[0], states[|calls| - 1]) && Quiet(states[|calls| - 1])
    ensures Reaches(states[0], states[|calls|]) && Quiet(states[|calls|])
  {
    var n := |calls| - 1;
    ServiceStep(states[0], states[n], calls[n], states[n + 1]);
  }

  /** Any series of calls on a new database is a run of the transition system. */
  lemma {:induction false} ServiceIsARun(states: seq<State>, calls: seq<Call>)
    requires Served(states, calls) && Init(states[0])
    ensures Reaches(states[0], states[|calls|]) && Quiet(states[|calls|])
    decreases |calls|
  {
    if calls == [] {
      ReachesSelf(states[0], {});
    } else {
      ServedBefore(states, calls);
      ServiceIsARun(states[..|calls|], calls[..|calls| - 1]);
      LastServed(states, calls);
    }
  }

  /** So it keeps the invariant of all interleavings, and with it what the next call requires. */
  lemma ServiceKeepsInv(states: seq<State>, calls: seq<Call>)
    requires Served(states, calls) && Init(states[0])
    ensures Inv(states[|calls|]) && RowsInv(states[|calls|].book) && OrdersExist(states[|calls|].book)
  {
    ServiceIsARun(states, calls);
    InitReaches(states[0], states[|calls|]);
  }

  lemma InitReaches(s: State, t: State)
    requires Init(s) && Reaches(s, t)
    ensures Inv(t) && RowsInv(t.book) && OrdersExist(t.book)
  {
    var run :| Legal(s, run) && RunKeeps(s, run, {}) && Exec(s, run) == t;
    InvHolds(s, run);
  }

  /** Which checkouts order-summary refuses, which carts it cannot quote, and what it does then. */
  lemma SummaryMeaning(s: State, user: nat, cs: nat, how: PayMethod, cart: seq<Item>, r: SummaryReply, t: State)
    requires SummaryCommits(s, user, cs, how, cart, r, t)
    ensures r.SummaryForbidden? <==> !(cs < |s.checkouts| && s.checkouts[cs].user == user && s.checkouts[cs].active)
    ensures r.SummaryExpired? <==> !r.SummaryForbidden? && s.checkouts[cs].expires < s.now
    ensures r.SummaryExpired? ==> t == s.(checkouts := s.checkouts[cs := s.checkouts[cs].(active := false)])
    ensures r.SummaryCrashed? <==>
              && !r.SummaryForbidden? && !r.SummaryExpired? && s.checkouts[cs].snapshot.NoSnapshot?
              && forall it :: it in cart ==> it.pid !in s.stock
    ensures var items := Joined(cart, s.stock);
            && (r.SummaryConflict? ==> forall pid :: pid in r.errors <==> Short(s.reservations, items, Seen(s.stock, items), s.now, pid))
            && (r.Quoted? && s.checkouts[cs].snapshot.NoSnapshot? ==>
                  r.items == items && forall pid :: !Short(s.reservations, items, Seen(s.stock, items), s.now, pid))
    ensures !r.Quoted? && !r.SummaryExpired? ==> t == s
  {
    var items := Joined(cart, s.stock);
    if items != [] {
      assert items[0] in items;
    }
  }

  /** The checkout that initiate_buy_now gives is the caller's, active and in time, and a new one has an hour. */
  lemma InitiateMeaning(s: State, user: nat, cart: seq<Item>, r: InitiateReply, t: State)
    requires InitiateCommits(s, user, cart, r, t)
    ensures r.CartMissing? <==> cart == []
    ensures r.CheckoutGiven? ==>
              && r.cs < |t.checkouts| && t.checkouts[r.cs].user == user && t.checkouts[r.cs].active
              && t.checkouts[r.cs].expires >= t.now && (r.cs >= |s.checkouts| ==> t.checkouts[r.cs].expires == s.now + 3600)
    ensures r.InitiateExpired? ==>
              exists cs :: 0 <= cs < |s.checkouts| && s.checkouts[cs].user == user && s.checkouts[cs].active
                           && s.checkouts[cs].expires < s.now && t == Deactivated(s, cs)
    ensures !r.InitiateExpired? && |t.checkouts| == |s.checkouts| ==> t == s
  {
  }

  ghost predicate OneActive(checkouts: seq<Checkout>, user: nat) {
    forall i, j :: 0 <= i < j < |checkouts| && checkouts[i].user == user && checkouts[j].user == user ==>
      !checkouts[i].active || !checkouts[j].active
  }

  /** Asked again right away it gives the same checkout, or a new one where it dropped an expired one: with at most one
      active checkout per user an expired one is in the way once. */
  lemma RepeatedInitiate(s: State, user: nat, cart: seq<Item>, r: InitiateReply, t: State, again: InitiateReply, u: State)
    requires InitiateCommits(s, user, cart, r, t) && InitiateCommits(t, user, cart, again, u) && OneActive(s.checkouts, user)
    ensures if r.InitiateExpired? then again == CheckoutGiven(|s.checkouts|) else again == r && u == t
  {
    var found := FindActive(s.checkouts, user);
    if cart != [] {
      if found.None? {
        NewFound(s.checkouts, user, s.now + CHECKOUT_TTL);
      } else if r.InitiateExpired? {
        NoneLeft(s.checkouts, user, found.value);
      }
      InitiateFinds(t, user, cart, again, u);
    }
  }

  lemma InitiateFinds(t: State, user: nat, cart: seq<Item>, again: InitiateReply, u: State)
    requires InitiateCommits(t, user, cart, again, u) && cart != []
    ensures var found := FindActive(t.checkouts, user);
            && (found.None? ==> again == CheckoutGiven(|t.checkouts|))
            && (found.Some? && t.checkouts[found.value].expires >= t.now ==> again == CheckoutGiven(found.value) && u == t)
  {
  }

  lemma NewFound(before: seq<Checkout>, user: nat, until: int)
    ensures FindActive(before + [Checkout(user, until, true, NoSnapshot)], user) == Some(|before|)
  {
  }

  lemma NoneLeft(before: seq<Checkout>, user: nat, cs: nat)
    requires cs < |before| && before[cs].user == user && before[cs].active && OneActive(before, user)
    ensures FindActive(before[cs := before[cs].(active := false)], user).None?
  {
  }

  /** What a confirm that reaches the provider leaves behind: one order of the snapshot's lines for the user, one payment
      of its charge, and the user's key for a day, with the provider's answer in them if there was one. */
  lemma ConfirmedRows(s: State, user: nat, cs: nat, key: nat, r: ConfirmReply, t: State)
    requires RowsInv(s.book) && SecureConfirmCommits(s, user, cs, key, r, t) && (r.PaymentAccepted? || r.PaymentRefused?)
    ensures s.checkouts[cs].snapshot.Taken? && r.order == |s.book.orders|
    ensures var items, n := s.checkouts[cs].snapshot.items, |s.book.orders|;
            && |t.book.orders| == n + 1 && t.book.orders[..n] == s.book.orders
            && t.book.orders[n].user == user && t.book.orders[n].items == items && t.book.orders[n].status == PendingPayment
            && |t.book.payments| == n + 1 && t.book.payments[..n] == s.book.payments
            && t.book.payments[n].order == n && t.book.payments[n].amount == Subtotal(items) + Subtotal(items) / 50
            && (if r.PaymentAccepted? then t.book.payments[n].status == ACCEPTED && t.book.payments[n].provider == Some(r.provider)
                else t.book.payments[n].status == PENDING && t.book.payments[n].provider == None)
            && t.book.iks == s.book.iks + [IKey(key, user, cs, s.now + 86400, r.PaymentAccepted?)]
    ensures t.checkouts == if r.PaymentAccepted? then s.checkouts[cs := s.checkouts[cs].(active := false)] else s.checkouts
  {
  }

  /** Payment p, the one of a provider order, was raised to a status, and nothing else about payments changed. */
  predicate RaisedAt(before: seq<Payment>, after: seq<Payment>, p: nat, provider: nat, status: nat) {
    && p < |before| && before[p].provider == Some(provider) && before[p].status < status
    && after == before[p := before[p].(status := status)]
  }

  ghost predicate Raised(before: seq<Payment>, after: seq<Payment>, provider: nat, status: nat) {
    exists p :: RaisedAt(before, after, p, provider, status)
  }

  /** The payment status that a provider status and an event name ask for. */
  function Asked(psp: string, event: string): nat {
    if psp == "failed" then FAILED
    else if event == "payment.captured" then CAPTURED
    else if event == "payment.authorized" then AUTHORIZED
    else PENDING
  }

  /** What a delivery is answered, from the event's own strings: unknown orders and unknown statuses change nothing, a
      recorded event is an error, and any other raises its payment to the status it asks for or changes no row. */
  lemma WebhookMeaning(s: State, e: nat, r: WebhookReply, t: State)
    requires e in s.book.feed && OrdersExist(s.book) && WebhookCommits(s, e, r, t)
    ensures var ev := s.book.feed[e];
            var b, settled := s.book, ev.psp in {"captured", "authorized", "success"};
            && (r.PaymentNotFound? <==> forall p :: 0 <= p < |b.payments| ==> b.payments[p].provider != Some(ev.order))
            && (r.Ignored? <==> !r.PaymentNotFound? && ev.psp != "failed" && (!settled || ev.event == "order.paid"))
            && (r.DuplicateCrashed? <==> !r.PaymentNotFound? && !r.Ignored? && e in b.events)
            && (r.EventProcessed? ==> Raised(b.payments, t.book.payments, ev.order, Asked(ev.psp, ev.event)) && e in t.book.events)
            && (r.NotInOrder? ==>
                  exists p :: 0 <= p < |b.payments| && b.payments[p].provider == Some(ev.order)
                              && b.payments[p].status >= Asked(ev.psp, ev.event))
    ensures !r.EventProcessed? ==> t == s.(book := s.book.(delivered := t.book.delivered))
  {
    var ev := s.book.feed[e];
    ClassifyMeaning(ev.psp, ev.event);
    var found := FindPayment(s.book.payments, ev.order);
    if r.EventProcessed? {
      assert RaisedAt(s.book.payments, t.book.payments, found.value, ev.order, Asked(ev.psp, ev.event));
    }
  }

  // ---- repeating a call

  /** Delivering an event again right away changes nothing more. */
  lemma RepeatedWebhook(s: State, e: nat, r: WebhookReply, t: State, again: WebhookReply, u: State)
    requires e in s.book.feed && OrdersExist(s.book) && WebhookCommits(s, e, r, t)
    requires OrdersExist(t.book) && e in t.book.feed && WebhookCommits(t, e, again, u)
    ensures u == t && !again.EventProcessed?
    ensures r.EventProcessed? ==> again == DuplicateCrashed
  {
    var found := FindPayment(s.book.payments, s.book.feed[e].order);
    if r.EventProcessed? {
      SamePayment(s, e, found.value);
    }
  }

  lemma SamePayment(s: State, e: nat, p: nat)
    requires CanProcess(s.book, e, p)
    ensures FindPayment(Processed(s, e, p).book.payments, s.book.feed[e].order).Some?
  {
    var later := Processed(s, e, p).book.payments;
    assert later[p].provider == Some(s.book.feed[e].order);
  }

  /** A quote stands: asked again, whatever cart and payment method come with it, order-summary gives the first answer
      and changes nothing while the checkout is in time. */
  lemma RepeatedSummary(
    s: State, user: nat, cs: nat, how: PayMethod, cart: seq<Item>, r: SummaryReply, t: State,
    d: nat, otherHow: PayMethod, otherCart: seq<Item>, again: SummaryReply, u: State)
    requires SummaryCommits(s, user, cs, how, cart, r, t) && r.Quoted?
    requires SummaryCommits(t.(now := t.now + d), user, cs, otherHow, otherCart, again, u)
    ensures if t.now + d <= t.checkouts[cs].expires then again == r && u == t.(now := t.now + d) else again == SummaryExpired
    ensures s.checkouts[cs].snapshot.NoSnapshot? ==> t.checkouts[cs].snapshot == Taken(r.items, how)
    ensures s.checkouts[cs].snapshot.Taken? ==> t == s && s.checkouts[cs].snapshot.items == r.items
  {
  }

  /** A new quote holds its lines for the life of the checkout and not a second longer. */
  lemma QuoteHolds(s: State, user: nat, cs: nat, how: PayMethod, cart: seq<Item>, r: SummaryReply, t: State, pid: nat, now: int)
    requires Orderable(cart) && SummaryCommits(s, user, cs, how, cart, r, t) && r.Quoted? && s.checkouts[cs].snapshot.NoSnapshot?
    requires forall i :: 0 <= i < |s.reservations| ==> s.reservations[i].cs != cs
    ensures Held(t.reservations, pid, now, {})
            == Held(s.reservations, pid, now, {}) + if now < s.checkouts[cs].expires then Demand(r.items, pid) else 0
  {
    JoinedOrderable(cart, s.stock);
    ReserveHolds(s.reservations, r.items, cs, s.checkouts[cs].expires, pid, now);
  }

  /** A worker that gets a finished or failed intent again leaves everything as it is. */
  lemma RepeatedDraw(s: State, i: nat, r: WorkerReply, t: State, again: WorkerReply, u: State)
    requires WorkerCommits(s, i, r, t) && WorkerCommits(t, i, again, u) && !r.Retrying?
    ensures again == Skipped && u == t
  {
  }

  /** A confirmed key never orders again, whatever the first answer was. */
  lemma RetriedConfirm(s: State, user: nat, cs: nat, key: nat, r: ConfirmReply, t: State, again: ConfirmReply, u: State)
    requires RowsInv(s.book) && SecureConfirmCommits(s, user, cs, key, r, t) && SecureConfirmCommits(t, user, cs, key, again, u)
    requires r.PaymentAccepted? || r.PaymentRefused?
    ensures u == t && !again.PaymentAccepted? && !again.PaymentRefused?
    ensures r.PaymentAccepted? ==> again == ConfirmForbidden
    ensures r.PaymentRefused? ==> again == ConfirmCrashed
  {
    var b := t.book;
    assert b.iks[|s.book.iks|].key == key;
    assert KeyTaken(b, key);
  }

  /** After an accepted payment the checkout is inactive, so every later retry is refused, whatever happened in between. */
  lemma RetriedAfterAcceptance(
    s: State, user: nat, cs: nat, key: nat, r: ConfirmReply, t: State, run: seq<Action>, again: ConfirmReply, v: State)
    requires SecureConfirmCommits(s, user, cs, key, r, t) && r.PaymentAccepted?
    requires Legal(t, run) && SecureConfirmCommits(Exec(t, run), user, cs, key, again, v)
    ensures again == ConfirmForbidden && v == Exec(t, run)
  {
    InactiveForGood(t, run, cs);
  }

  /** The one answer a key with an unanswered order gets. */
  function RefusedAnswer(u: State, cs: nat, row: IKey): ConfirmReply
    requires cs < |u.checkouts|
  {
    if !u.checkouts[cs].active then ConfirmForbidden
    else if u.checkouts[cs].expires < u.now + CONFIRM_MARGIN then ConfirmExpired
    else if row.expires < u.now + CONFIRM_MARGIN then KeyExpired
    else ConfirmCrashed
  }

  lemma AnswerAbandoned(u: State, user: nat, cs: nat, key: nat, ik: nat, row: IKey, again: ConfirmReply, v: State)
    requires KeysUnique(u.book.iks) && SecureConfirmCommits(u, user, cs, key, again, v)
    requires Abandoned(u.book, ik, row) && row.key == key && row.user == user && row.cs == cs
    requires cs < |u.checkouts| && u.checkouts[cs].user == user
    requires u.checkouts[cs].snapshot.Taken? && u.checkouts[cs].snapshot.items != []
    ensures again == RefusedAnswer(u, cs, row) && v.book == u.book
  {
    assert KeyTaken(u.book, key);
    assert FindKey(u.book.iks, key) == Some(ik);
  }

  lemma RefusalAbandons(s: State, user: nat, cs: nat, key: nat, r: ConfirmReply, t: State)
    requires RowsInv(s.book) && Quiet(s) && SecureConfirmCommits(s, user, cs, key, r, t) && r.PaymentRefused?
    ensures Fixed(t, cs, user, s.checkouts[cs].snapshot)
    ensures Abandoned(t.book, |s.book.iks|, IKey(key, user, cs, s.now + KEY_TTL, false))
  {
  }

  lemma StaysAbandoned(t: State, run: seq<Action>, cs: nat, user: nat, snap: Snapshot, ik: nat, row: IKey)
    requires Inv(t) && Legal(t, run) && Fixed(t, cs, user, snap) && Abandoned(t.book, ik, row)
    ensures Fixed(Exec(t, run), cs, user, snap) && Abandoned(Exec(t, run).book, ik, row) && KeysUnique(Exec(t, run).book.iks)
  {
    AbandonedForGood(t, run, cs, user, snap, ik, row);
    RunKeepsInv(t, run);
  }

  /** After a refused payment the key has an order without an answer for good: no later retry orders again or is given a
      response, and in time it fails on the order's unique key. */
  lemma RetriedAfterRefusal(
    s: State, user: nat, cs: nat, key: nat, r: ConfirmReply, t: State, run: seq<Action>, again: ConfirmReply, v: State)
    requires Inv(s) && Quiet(s) && SecureConfirmCommits(s, user, cs, key, r, t) && r.PaymentRefused?
    requires Legal(t, run) && SecureConfirmCommits(Exec(t, run), user, cs, key, again, v)
    ensures cs < |Exec(t, run).checkouts| && v.book == Exec(t, run).book
    ensures again == RefusedAnswer(Exec(t, run), cs, IKey(key, user, cs, s.now + KEY_TTL, false))
  {
    var ik, row := |s.book.iks|, IKey(key, user, cs, s.now + KEY_TTL, false);
    SecureConfirmRefines(s, user, cs, key, r, t);
    ReachesKeepsInv(s, t, {});
    RefusalAbandons(s, user, cs, key, r, t);
    StaysAbandoned(t, run, cs, user, s.checkouts[cs].snapshot, ik, row);
    AnswerAbandoned(Exec(t, run), user, cs, key, ik, row, again, v);
  }

  lemma StoredIsReplayed(t: State, key: nat)
    requires Quiet(t) && CanConfirm(t, 0, key) && t.book.iks == [] && t.book.orders == [] && t.book.payments == []
    requires t.checkouts[0].user == 0 && t.checkouts[0].snapshot.items != []
    ensures Awaits(Ordered(t, 0, key).book, 0, key)
    ensures var u := Accepted(Ordered(t, 0, key), 0, 0); MayReplay(u, 0, 0, key) && ConfirmCommits(u, 0, 0, key, Replayed(0), u)
  {
    var u := Accepted(Ordered(t, 0, key), 0, 0);
    assert OwnAnswer(u.book.iks, 0, 0, 0, key);
  }

  ghost predicate Replays(t: State, key: nat) {
    MayReplay(t, 0, 0, key) && ConfirmCommits(t, 0, 0, key, Replayed(0), t)
  }

  /** A stored response can be replayed: from every initial state the provider's answer can be stored while the checkout
      is still active. */
  lemma ReplayReached(s: State)
    requires Init(s)
    ensures exists t :: Reaches(s, t) && Replays(t, 0)
  {
    var t0 := ReadyReached(s);
    var t1 := Ordered(t0, 0, 0);
    StoredIsReplayed(t0, 0);
    ConfirmRun(t0, 0, 0, {});
    ReachesOn(s, t0, t1, {});
    PaymentRefines(t1, 0, 0, Some(0), Accepted(t1, 0, 0));
    ReachesOn(s, t1, Accepted(t1, 0, 0), {});
    assert Replays(Accepted(t1, 0, 0), 0);
  }

  /** The quote is not the charge: the payment of an order asks for exactly the shipping of 50 less than its quote did. */
  lemma QuoteIsNotCharge(
    s: State, user: nat, cs: nat, how: PayMethod, cart: seq<Item>, r: SummaryReply, t: State,
    u: State, key: nat, placed: ConfirmReply, v: State)
    requires SummaryCommits(s, user, cs, how, cart, r, t) && r.Quoted?
    requires cs < |u.checkouts| && u.checkouts[cs].snapshot == t.checkouts[cs].snapshot
    requires ConfirmCommits(u, user, cs, key, placed, v) && placed.Placed?
    ensures placed.payment < |v.book.payments| && v.book.payments[placed.payment].amount == r.totals.total - 50
  {
    ConfirmMeaning(u, user, cs, key, placed, v);
  }

  lemma LineFits(rows: seq<Reservation>, items: seq<Item>, stock: Shelf, now: int, cs: nat, until: int, i: nat)
    requires Distinct(items) && Pids(items) <= stock.Keys && Available(rows, items, Seen(stock, items), now)
    requires i < |items| && items[i].qty >= 1
    ensures items[i].pid in stock && Held(Reserve(rows, items, cs, until), items[i].pid, now, {}) <= stock[items[i].pid]
  {
    ReserveAdds(rows, items, cs, until);
    DemandOfLine(items, i);
    assert Seen(stock, items)[i] == stock[items[i].pid];
  }

  /** What order-summary commits never promises more of a product than its stock. */
  lemma SummaryFits(s: State, user: nat, cs: nat, how: PayMethod, cart: seq<Item>, r: SummaryReply, t: State)
    requires Orderable(cart) && SummaryCommits(s, user, cs, how, cart, r, t)
    requires r.Quoted? && s.checkouts[cs].snapshot.NoSnapshot?
    ensures forall it :: it in r.items ==> it.pid in t.stock && Held(t.reservations, it.pid, t.now, {}) <= t.stock[it.pid]
  {
    JoinedOrderable(cart, s.stock);
    forall it | it in r.items ensures it.pid in t.stock && Held(t.reservations, it.pid, t.now, {}) <= t.stock[it.pid] {
      var i :| 0 <= i < |r.items| && r.items[i] == it;
      LineFits(s.reservations, r.items, s.stock, s.now, cs, s.checkouts[cs].expires, i);
    }
  }
}
