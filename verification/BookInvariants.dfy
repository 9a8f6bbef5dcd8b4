/** What every committed state of the order side satisfies, and that each of its commits keeps it. */
module BookInvariants {
  import opened Options
  import opened Amounts
  import opened Payments
  import opened Shop

  /** One order and one payment per key row; no key twice. */
  ghost predicate RowsAligned(iks: seq<IKey>, orders: seq<Order>, payments: seq<Payment>) {
    && |iks| == |orders| == |payments|
    && (forall o :: 0 <= o < |orders| ==> orders[o].ik == o)
    && (forall p :: 0 <= p < |payments| ==> payments[p].order == p)
  }

  ghost predicate KeysUnique(iks: seq<IKey>) {
    forall i, j :: 0 <= i < j < |iks| ==> iks[i].key != iks[j].key
  }

  ghost predicate AmountsAgree(orders: seq<Order>, payments: seq<Payment>) {
    && |orders| == |payments|
    && forall o :: 0 <= o < |orders| ==>
         && orders[o].totals == FinalTotals(orders[o].items, Upi)
         && payments[o].amount == orders[o].totals.total
  }

  ghost predicate RowsInv(b: Book) {
    RowsAligned(b.iks, b.orders, b.payments) && KeysUnique(b.iks) && AmountsAgree(b.orders, b.payments)
  }

  /** Captured, confirmed, queued for the stock draw and announced: all four or none. */
  ghost predicate CapturedTogether(b: Book, p: nat)
    requires p < |b.payments| && p < |b.orders|
  {
    && (b.payments[p].status == CAPTURED <==> b.orders[p].status == Confirmed)
    && (b.payments[p].status == CAPTURED <==> HasIntent(b, p))
    && (b.payments[p].status == CAPTURED <==> (OrderPaid, p) in b.outbox)
  }

  ghost predicate PaymentsInv(b: Book) {
    && |b.orders| == |b.payments|
    && (forall p :: 0 <= p < |b.payments| ==>
          && CapturedTogether(b, p)
          && (b.payments[p].provider.None? ==> b.payments[p].status == PENDING)
          && (b.payments[p].provider.Some? ==> b.payments[p].status >= ACCEPTED))
    && (forall e :: e in b.outbox ==> e.1 < |b.orders|)
    && (forall p :: p in b.awaiting ==> p < |b.payments| && b.payments[p].provider.None?)
    && (forall p, q :: 0 <= p < q < |b.payments| && b.payments[p].provider.Some? ==>
          b.payments[p].provider != b.payments[q].provider)
  }

  /** Attempts are two per failure plus the one of a claim that has not failed. */
  ghost predicate AttemptsInv(it: Intent) {
    match it.status
    case Pending => it.attempts == 2 * it.failures && it.claims == it.failures <= 2
    case Processing => it.attempts == 2 * it.failures + 1 && it.claims == it.failures + 1 <= 3
    case Done => it.attempts == 2 * it.failures + 1 && it.claims == it.failures + 1 <= 3
    case Failed => it.attempts == MAX_ATTEMPTS && it.claims == it.failures == 3
  }

  /** One intent per order, carrying the order's lines, with sound counters. */
  ghost predicate IntentsSound(orders: seq<Order>, intents: seq<Intent>) {
    && (forall i :: 0 <= i < |intents| ==>
          && intents[i].order < |orders|
          && intents[i].items == orders[intents[i].order].items
          && AttemptsInv(intents[i]))
    && (forall i, j :: 0 <= i < j < |intents| ==> intents[i].order != intents[j].order)
  }

  ghost predicate IntentsInv(b: Book) {
    IntentsSound(b.orders, b.intents)
  }

  /** Event e is addressed to payment p. */
  predicate Addresses(b: Book, e: nat, p: nat) {
    e in b.feed && p < |b.payments| && b.payments[p].provider == Some(b.feed[e].order)
  }

  ghost predicate IsApplied(b: Book, e: nat, p: nat) {
    Addresses(b, e, p) && VerdictOf(b, e).valid && VerdictOf(b, e).pay <= b.payments[p].status
  }

  ghost predicate IsCause(b: Book, e: nat, p: nat) {
    e in b.delivered && Addresses(b, e, p) && VerdictOf(b, e).pay == b.payments[p].status
  }

  ghost predicate HasTarget(b: Book, e: nat) {
    exists p :: IsApplied(b, e, p)
  }

  ghost predicate HasCause(b: Book, p: nat) {
    exists e :: IsCause(b, e, p)
  }

  /** A payment's status is the greatest of ACCEPTED and what has been delivered to it. */
  ghost predicate DeliveredInv(b: Book) {
    && b.events <= b.delivered
    && (forall e {:trigger HasTarget(b, e)} :: e in b.delivered ==> HasTarget(b, e))
    && (forall p {:trigger HasCause(b, p)} :: 0 <= p < |b.payments| && b.payments[p].provider.Some? ==>
          b.payments[p].status == ACCEPTED || HasCause(b, p))
  }

  ghost predicate BookInv(b: Book) {
    RowsInv(b) && PaymentsInv(b) && IntentsInv(b) && DeliveredInv(b)
  }

  // ---- what carries over from one book to the next

  /** A payment kept its addressee, and its status if that is not a delivery's. */
  ghost predicate PaymentCarried(b: Book, c: Book, p: nat) {
    && p < |b.payments| && p < |c.payments|
    && b.payments[p].provider == c.payments[p].provider
    && b.payments[p].status <= c.payments[p].status
    && (b.payments[p].status == c.payments[p].status || HasCause(c, p))
  }

  lemma DeliveredCarries(b: Book, c: Book)
    requires DeliveredInv(b)
    requires b.feed == c.feed && b.delivered <= c.delivered && c.events <= c.delivered
    requires |b.payments| <= |c.payments|
    requires forall p :: 0 <= p < |b.payments| && b.payments[p].provider.Some? ==> PaymentCarried(b, c, p)
    requires forall p :: 0 <= p < |c.payments| ==> c.payments[p].provider.Some? ==>
               (p < |b.payments| && b.payments[p].provider.Some?) || c.payments[p].status == ACCEPTED
    requires forall e {:trigger HasTarget(c, e)} :: e in c.delivered && e !in b.delivered ==> HasTarget(c, e)
    ensures DeliveredInv(c)
  {
    forall e | e in c.delivered ensures HasTarget(c, e) {
      if e in b.delivered {
        assert HasTarget(b, e);
        var p :| IsApplied(b, e, p);
        assert PaymentCarried(b, c, p);
        assert IsApplied(c, e, p);
      }
    }
    forall p | 0 <= p < |c.payments| && c.payments[p].provider.Some?
      ensures c.payments[p].status == ACCEPTED || HasCause(c, p)
    {
      if p < |b.payments| && b.payments[p].provider.Some? {
        assert PaymentCarried(b, c, p);
        if b.payments[p].status == c.payments[p].status != ACCEPTED {
          assert HasCause(b, p);
          var e :| IsCause(b, e, p);
          assert IsCause(c, e, p);
        }
      }
    }
  }

  /** Payments that keep status, order status and announcement, with the same orders queued. */
  lemma CapturedCarries(b: Book, c: Book, p: nat)
    requires p < |b.payments| && p < |b.orders| && p < |c.payments| && p < |c.orders|
    requires CapturedTogether(b, p)
    requires b.payments[p].status == c.payments[p].status && b.orders[p].status == c.orders[p].status
    requires b.outbox == c.outbox
    requires |b.intents| == |c.intents| && forall i :: 0 <= i < |b.intents| ==> b.intents[i].order == c.intents[i].order
    ensures CapturedTogether(c, p)
  {
    if HasIntent(b, p) {
      var i :| 0 <= i < |b.intents| && b.intents[i].order == p;
      assert c.intents[i].order == p;
    }
    if HasIntent(c, p) {
      var i :| 0 <= i < |c.intents| && c.intents[i].order == p;
      assert b.intents[i].order == p;
    }
  }

  // ---- one lemma for each commit

  /** Every committed key row already has its order, so a replayed key cannot insert another. */
  lemma ReplayFindsOrder(b: Book, id: nat)
    requires RowsInv(b) && id < |b.iks|
    ensures exists o :: 0 <= o < |b.orders| && b.orders[o].ik == id
  {
    assert b.orders[id].ik == id;
  }

  lemma ConCommitKeepsRows(s: State, t: nat)
    requires RowsInv(s.book) && IntentsInv(s.book) && CanConCommit(s, t)
    requires s.cons[t].ik.Fresh? ==> !KeyTaken(s.book, s.cons[t].key)
    requires s.cons[t].ik.Existing? ==> s.cons[t].ik.id < |s.book.iks|
    ensures s.cons[t].ik.Fresh?
    ensures RowsInv(DoConCommit(s, t).book) && IntentsInv(DoConCommit(s, t).book)
  {
    if s.cons[t].ik.Existing? {
      ReplayFindsOrder(s.book, s.cons[t].ik.id);
    }
  }

  lemma ConCommitKeepsPayments(s: State, t: nat)
    requires PaymentsInv(s.book) && DeliveredInv(s.book) && IntentsInv(s.book) && CanConCommit(s, t)
    ensures PaymentsInv(DoConCommit(s, t).book) && DeliveredInv(DoConCommit(s, t).book)
  {
    var b, c := s.book, DoConCommit(s, t).book;
    DeliveredCarries(b, c);
    forall p | 0 <= p < |c.payments| ensures CapturedTogether(c, p) {
      if p < |b.payments| {
        CapturedCarries(b, c, p);
      } else {
        assert (OrderPaid, p) !in b.outbox;
      }
    }
  }

  lemma PspAcceptKeepsBook(s: State, p: nat, provider: nat)
    requires BookInv(s.book) && CanPspAccept(s.book, p, provider)
    ensures BookInv(DoPspAccept(s.book, p, provider))
  {
    var b, c := s.book, DoPspAccept(s.book, p, provider);
    DeliveredCarries(b, c);
    forall q | 0 <= q < |c.payments| ensures CapturedTogether(c, q) {
      if q != p {
        CapturedCarries(b, c, q);
      } else {
        assert CapturedTogether(b, p);
        assert HasIntent(c, p) <==> HasIntent(b, p);
      }
    }
  }

  lemma PspFailKeepsBook(b: Book, p: nat)
    requires BookInv(b)
    ensures BookInv(b.(awaiting := b.awaiting - {p}))
  {
    var c := b.(awaiting := b.awaiting - {p});
    DeliveredCarries(b, c);
    forall q | 0 <= q < |c.payments| ensures CapturedTogether(c, q) {
      CapturedCarries(b, c, q);
    }
  }

  /** A delivery that arrives too late changes no row. */
  lemma WhStaleKeepsBook(b: Book, e: nat, p: nat)
    requires BookInv(b) && IsApplied(b, e, p)
    ensures BookInv(b.(delivered := b.delivered + {e}))
  {
    var c := b.(delivered := b.delivered + {e});
    assert IsApplied(c, e, p);
    assert HasTarget(c, e);
    DeliveredCarries(b, c);
    forall q | 0 <= q < |c.payments| ensures CapturedTogether(c, q) {
      CapturedCarries(b, c, q);
    }
  }

  /** Nothing is ever delivered above CAPTURED, so a captured payment is final. */
  lemma CapturedIsTop(b: Book, e: nat)
    requires e in b.feed
    ensures VerdictOf(b, e).pay <= CAPTURED
    ensures VerdictOf(b, e).order == Confirmed <==> VerdictOf(b, e).pay == CAPTURED
  {
    ClassifyMeaning(b.feed[e].psp, b.feed[e].event);
  }

  lemma WebhookKeepsBook(b: Book, e: nat, p: nat)
    requires BookInv(b) && Addresses(b, e, p) && VerdictOf(b, e).valid
    requires b.payments[p].status < VerdictOf(b, e).pay
    ensures BookInv(DoWebhook(b, e, p))
  {
    WebhookKeepsCaptured(b, e, p);
    WebhookKeepsDelivered(b, e, p);
    WebhookKeepsIntents(b, e, p);
  }

  lemma WebhookKeepsDelivered(b: Book, e: nat, p: nat)
    requires RowsInv(b) && DeliveredInv(b) && Addresses(b, e, p) && VerdictOf(b, e).valid
    requires b.payments[p].status < VerdictOf(b, e).pay
    ensures DeliveredInv(DoWebhook(b, e, p))
  {
    var c := DoWebhook(b, e, p);
    assert IsApplied(c, e, p);
    assert HasTarget(c, e);
    assert IsCause(c, e, p);
    DeliveredCarries(b, c);
  }

  lemma WebhookKeepsIntents(b: Book, e: nat, p: nat)
    requires RowsInv(b) && IntentsInv(b) && Addresses(b, e, p)
    ensures IntentsInv(DoWebhook(b, e, p))
  {
    var c := DoWebhook(b, e, p);
    if VerdictOf(b, e).pay == CAPTURED && !HasIntent(b, p) {
      forall i | 0 <= i < |b.intents| ensures c.intents[i].order != p {
        assert b.intents[i].order != p;
      }
    }
  }

  lemma WebhookKeepsCaptured(b: Book, e: nat, p: nat)
    requires RowsInv(b) && PaymentsInv(b) && Addresses(b, e, p)
    requires b.payments[p].status < VerdictOf(b, e).pay
    ensures forall q :: 0 <= q < |b.payments| ==> CapturedTogether(DoWebhook(b, e, p), q)
  {
    var c, v := DoWebhook(b, e, p), VerdictOf(b, e);
    CapturedIsTop(b, e);
    assert CapturedTogether(b, p);
    forall q | 0 <= q < |b.payments| ensures CapturedTogether(c, q) {
      assert CapturedTogether(b, q);
      if q == p && v.pay == CAPTURED {
        assert c.intents[|b.intents|].order == p;
      } else {
        forall i | 0 <= i < |c.intents| && c.intents[i].order == q ensures HasIntent(b, q) {
          assert b.intents[i].order == q;
        }
        if HasIntent(b, q) {
          var i :| 0 <= i < |b.intents| && b.intents[i].order == q;
          assert c.intents[i].order == q;
        }
      }
    }
  }

  /** Replacing an intent by one of the same order with sound counters disturbs nothing else. */
  lemma IntentUpdateKeepsBook(b: Book, i: nat, it: Intent)
    requires BookInv(b) && i < |b.intents|
    requires it.order == b.intents[i].order && it.items == b.intents[i].items && AttemptsInv(it)
    ensures BookInv(b.(intents := b.intents[i := it]))
  {
    var c := b.(intents := b.intents[i := it]);
    assert forall j :: 0 <= j < |b.intents| ==> b.intents[j].order == c.intents[j].order;
    DeliveredCarries(b, c);
    forall q | 0 <= q < |c.payments| ensures CapturedTogether(c, q) {
      CapturedCarries(b, c, q);
    }
  }
}
