/** Which events a payment's record and its failure announcement go back to. */
module Announcements {
  import opened Options
  import opened Payments
  import opened Shop
  import opened BookInvariants
  import opened FlightInvariants
  import opened ShopInvariants

  /** A recorded event for the payment's provider order. */
  predicate IsRecorded(b: Book, e: nat, p: nat) {
    e in b.events && e in b.feed && p < |b.payments| && b.payments[p].provider == Some(b.feed[e].order)
  }

  predicate IsFailure(b: Book, e: nat, p: nat) {
    IsRecorded(b, e, p) && b.feed[e].psp == "failed"
  }

  predicate IsSource(b: Book, e: nat, p: nat) {
    IsRecorded(b, e, p) && VerdictOf(b, e).pay == b.payments[p].status
  }

  ghost predicate FailureRecorded(b: Book, p: nat) {
    exists e :: IsFailure(b, e, p)
  }

  ghost predicate SourceRecorded(b: Book, p: nat) {
    exists e :: IsSource(b, e, p)
  }

  /** The failure of payment p, whose order is o, is announced exactly if a failure of it is recorded, and a status above
      ACCEPTED was set by a recorded event. */
  ghost predicate PaymentAnnounced(b: Book, p: nat)
    requires p < |b.payments|
  {
    && ((OrderPendingPayment, b.payments[p].order) in b.outbox <==> FailureRecorded(b, p))
    && (b.payments[p].status > ACCEPTED ==> SourceRecorded(b, p))
  }

  ghost predicate AllAnnounced(b: Book) {
    forall p :: 0 <= p < |b.payments| ==> PaymentAnnounced(b, p)
  }

  /** In every reachable state an order's failed payment is announced if and only if a failure of that payment was
      recorded, whatever came after it, and every status above ACCEPTED goes back to a recorded event. */
  lemma {:induction false} FailureAnnounced(s0: State, run: seq<Action>, p: nat)
    requires Init(s0) && Legal(s0, run) && p < |Exec(s0, run).book.payments|
    ensures PaymentAnnounced(Exec(s0, run).book, p)
  {
    EveryRun(s0, run);
  }

  lemma {:induction false} EveryRun(s0: State, run: seq<Action>)
    requires Init(s0) && Legal(s0, run)
    ensures AllAnnounced(Exec(s0, run).book)
    decreases |run|
  {
    if run != [] {
      var n := |run| - 1;
      EveryRun(s0, run[..n]);
      InvHolds(s0, run[..n]);
      AnnouncedKept(Exec(s0, run[..n]), run[n], Do(Exec(s0, run[..n]), run[n]));
    }
  }

  lemma AnnouncedKept(s: State, a: Action, next: State)
    requires BookInv(s.book) && WebhooksSound(s.book, s.whs)
    requires Step(s, a, next) && AllAnnounced(s.book)
    ensures AllAnnounced(next.book)
  {
    if a.ConCommit? || a.PspAccept? || a.WhCommit? {
      KeptByCommit(s, a, next);
    } else {
      RecordsFrame(s, a, next);
      KeptByFrame(s.book, next.book);
    }
  }

  lemma KeptByCommit(s: State, a: Action, next: State)
    requires BookInv(s.book) && WebhooksSound(s.book, s.whs)
    requires Step(s, a, next) && AllAnnounced(s.book) && (a.ConCommit? || a.PspAccept? || a.WhCommit?)
    ensures AllAnnounced(next.book)
  {
    if a.ConCommit? {
      KeptByConfirm(s, a.t);
    } else if a.PspAccept? {
      KeptByAccept(s.book, a.pay, a.provider);
    } else {
      KeptByWebhook(s.book, s.whs[a.t].ev, s.whs[a.t].pay);
    }
  }

  lemma KeptByFrame(b: Book, c: Book)
    requires AllAnnounced(b)
    requires c.feed == b.feed && c.payments == b.payments && c.events == b.events && c.outbox == b.outbox
    ensures AllAnnounced(c)
  {
    forall p | 0 <= p < |c.payments| ensures PaymentAnnounced(c, p) {
      assert PaymentAnnounced(b, p);
      Carried(b, c, p);
    }
  }

  lemma RecordsFrame(s: State, a: Action, next: State)
    requires Step(s, a, next) && !a.ConCommit? && !a.PspAccept? && !a.WhCommit?
    ensures next.book.feed == s.book.feed && next.book.payments == s.book.payments
    ensures next.book.events == s.book.events && next.book.outbox == s.book.outbox
  {
    if !TouchesBook(a) {
      BookFrame(s, a, next);
    }
  }

  /** A payment that no action touched, in a book where nothing was recorded or announced for it. */
  lemma Carried(b: Book, c: Book, p: nat)
    requires p < |b.payments| && p < |c.payments| && PaymentAnnounced(b, p)
    requires c.feed == b.feed && c.payments[p] == b.payments[p]
    requires forall e :: IsRecorded(c, e, p) <==> IsRecorded(b, e, p)
    requires var note := (OrderPendingPayment, b.payments[p].order); note in c.outbox <==> note in b.outbox
    ensures PaymentAnnounced(c, p)
  {
    if FailureRecorded(b, p) {
      var e :| IsFailure(b, e, p);
      assert IsFailure(c, e, p);
    }
    if FailureRecorded(c, p) {
      var e :| IsFailure(c, e, p);
      assert IsRecorded(c, e, p);
      assert IsFailure(b, e, p);
    }
    if SourceRecorded(b, p) {
      var e :| IsSource(b, e, p);
      assert IsRecorded(b, e, p);
      assert IsSource(c, e, p);
    }
  }

  lemma KeptByConfirm(s: State, t: nat)
    requires BookInv(s.book) && CanConCommit(s, t) && AllAnnounced(s.book)
    ensures AllAnnounced(DoConCommit(s, t).book)
  {
    var b, c := s.book, DoConCommit(s, t).book;
    forall p | 0 <= p < |c.payments| ensures PaymentAnnounced(c, p) {
      if p < |b.payments| {
        Carried(b, c, p);
      } else {
        assert (OrderPendingPayment, |b.orders|) !in b.outbox;
      }
    }
  }

  /** No event is recorded for a provider order that no payment has. */
  lemma NewOrderUnrecorded(b: Book, provider: nat, e: nat)
    requires DeliveredInv(b) && e in b.events && e in b.feed
    requires forall q :: 0 <= q < |b.payments| ==> b.payments[q].provider != Some(provider)
    ensures b.feed[e].order != provider
  {
    assert HasTarget(b, e);
    var p :| IsApplied(b, e, p);
  }

  lemma KeptByAccept(b: Book, p: nat, provider: nat)
    requires BookInv(b) && CanPspAccept(b, p, provider) && AllAnnounced(b)
    ensures AllAnnounced(DoPspAccept(b, p, provider))
  {
    var c := DoPspAccept(b, p, provider);
    forall q | 0 <= q < |c.payments| ensures PaymentAnnounced(c, q) {
      assert PaymentAnnounced(b, q);
      if q != p {
        Carried(b, c, q);
      } else {
        assert b.payments[p].provider.None?;
        forall e | e in b.events && e in b.feed ensures b.feed[e].order != provider {
          NewOrderUnrecorded(b, provider, e);
        }
      }
    }
  }

  lemma KeptByWebhook(b: Book, e: nat, p: nat)
    requires BookInv(b) && Addresses(b, e, p) && VerdictOf(b, e).valid && AllAnnounced(b)
    ensures AllAnnounced(DoWebhook(b, e, p))
  {
    var c := DoWebhook(b, e, p);
    forall q | 0 <= q < |c.payments| ensures PaymentAnnounced(c, q) {
      assert PaymentAnnounced(b, q);
      if q == p {
        ReceiverAnnounced(b, e, p);
      } else {
        assert !IsRecorded(c, e, q);
        Carried(b, c, q);
      }
    }
  }

  lemma ReceiverAnnounced(b: Book, e: nat, p: nat)
    requires RowsInv(b) && Addresses(b, e, p) && VerdictOf(b, e).valid && PaymentAnnounced(b, p)
    ensures PaymentAnnounced(DoWebhook(b, e, p), p)
  {
    var c := DoWebhook(b, e, p);
    ClassifyMeaning(b.feed[e].psp, b.feed[e].event);
    assert IsRecorded(c, e, p);
    assert IsSource(c, e, p);
    if FailureRecorded(b, p) {
      var f :| IsFailure(b, f, p);
      assert IsFailure(c, f, p);
    }
    if FailureRecorded(c, p) {
      var f :| IsFailure(c, f, p);
      assert f == e || IsFailure(b, f, p);
    }
    if VerdictOf(b, e).pay == FAILED {
      assert IsFailure(c, e, p);
    }
  }
}
