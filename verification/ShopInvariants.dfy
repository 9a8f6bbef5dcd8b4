/** Every action keeps the invariant, so every reachable state satisfies it. */
module ShopInvariants {
  import opened Amounts
  import opened Stock
  import opened Reservations
  import opened Shop
  import opened BookInvariants
  import opened FlightInvariants

  // ---- which actions touch what

  predicate TouchesConfirms(a: Action) {
    || a.Initiate? || a.Deactivate? || a.SumCommit? || a.PspAccept?
    || a.ConStart? || a.ConFresh? || a.ConReplay? || a.ConCommit? || a.ConAbort?
  }

  lemma ConfirmsFrame(s: State, a: Action, next: State)
    requires Step(s, a, next) && !TouchesConfirms(a)
    ensures next.checkouts == s.checkouts && next.book.iks == s.book.iks && next.cons == s.cons
  {
  }

  predicate TouchesWebhooks(a: Action) {
    || a.WhStart? || a.WhAdvance? || a.WhStale? || a.WhCommit? || a.WhAbort? || a.ConCommit? || a.PspAccept?
  }

  lemma WebhooksFrame(s: State, a: Action, next: State)
    requires Step(s, a, next) && !TouchesWebhooks(a)
    ensures next.whs == s.whs && next.book.feed == s.book.feed
    ensures next.book.payments == s.book.payments && next.book.events == s.book.events
  {
    if !TouchesBook(a) {
      BookFrame(s, a, next);
    }
  }

  // ---- the order side

  lemma BookKeptByConfirm(s: State, a: Action, next: State)
    requires BookInv(s.book) && Step(s, a, next)
    requires ConfirmsSound(s.checkouts, s.book.iks, s.cons)
    requires a.ConCommit? || a.PspAccept? || a.PspFail?
    ensures BookInv(next.book)
  {
    if a.ConCommit? {
      ConCommitKeepsBook(s, a.t);
    } else if a.PspAccept? {
      PspAcceptKeepsBook(s, a.pay, a.provider);
    } else {
      PspFailKeepsBook(s.book, a.pay);
    }
  }

  lemma BookKeptByWebhook(s: State, a: Action, next: State)
    requires BookInv(s.book) && Step(s, a, next)
    requires WebhooksSound(s.book, s.whs)
    requires a.WhStale? || a.WhCommit?
    ensures BookInv(next.book)
  {
    if a.WhStale? {
      WhStaleKeepsBook(s.book, s.whs[a.t].ev, s.whs[a.t].pay);
    } else {
      WebhookKeepsBook(s.book, s.whs[a.t].ev, s.whs[a.t].pay);
    }
  }

  lemma BookKeptByWorker(s: State, a: Action, next: State)
    requires BookInv(s.book) && Step(s, a, next)
    requires DrawsSound(s.stock, s.book.intents, s.draws)
    requires a.Claim? || a.DrawCommit? || a.DrawSettle?
    ensures BookInv(next.book)
  {
    if a.Claim? {
      ClaimKeepsBook(s.book, a.intent);
    } else if a.DrawCommit? {
      DoneKeepsBook(s.book, s.draws[a.t].intent);
    } else {
      SettleKeepsBook(s.book, s.draws[a.t].intent);
    }
  }

  lemma BookKept(s: State, a: Action, next: State)
    requires BookInv(s.book) && Step(s, a, next)
    requires ConfirmsSound(s.checkouts, s.book.iks, s.cons)
    requires WebhooksSound(s.book, s.whs)
    requires DrawsSound(s.stock, s.book.intents, s.draws)
    ensures BookInv(next.book)
  {
    if !TouchesBook(a) {
      BookFrame(s, a, next);
    } else if a.ConCommit? || a.PspAccept? || a.PspFail? {
      BookKeptByConfirm(s, a, next);
    } else if a.WhStale? || a.WhCommit? {
      BookKeptByWebhook(s, a, next);
    } else {
      BookKeptByWorker(s, a, next);
    }
  }

  /** A confirm never commits on a key that was there. */
  lemma FreshCommit(s: State, t: nat)
    requires RowsInv(s.book) && ConfirmsSound(s.checkouts, s.book.iks, s.cons) && CanConCommit(s, t)
    ensures s.cons[t].ik.Fresh?
  {
    if s.cons[t].ik.Existing? {
      ReplayFindsOrder(s.book, s.cons[t].ik.id);
    }
  }

  lemma ConCommitKeepsBook(s: State, t: nat)
    requires BookInv(s.book) && CanConCommit(s, t) && ConfirmsSound(s.checkouts, s.book.iks, s.cons)
    ensures BookInv(DoConCommit(s, t).book)
  {
    assert s.cons[t].ik.Fresh? ==> !KeyTaken(s.book, s.cons[t].key);
    ConCommitKeepsRows(s, t);
    ConCommitKeepsPayments(s, t);
  }

  lemma ClaimKeepsBook(b: Book, i: nat)
    requires BookInv(b) && i < |b.intents| && b.intents[i].status == Pending
    ensures BookInv(DoClaim(b, i))
  {
    IntentUpdateKeepsBook(b, i, DoClaim(b, i).intents[i]);
  }

  lemma DoneKeepsBook(b: Book, i: nat)
    requires BookInv(b) && i < |b.intents| && b.intents[i].status == Processing
    ensures BookInv(b.(intents := b.intents[i := b.intents[i].(status := Done)]))
  {
    IntentUpdateKeepsBook(b, i, b.intents[i].(status := Done));
  }

  lemma SettleKeepsBook(b: Book, i: nat)
    requires BookInv(b) && i < |b.intents| && b.intents[i].status == Processing
    ensures BookInv(DoSettle(b, i))
  {
    IntentUpdateKeepsBook(b, i, DoSettle(b, i).intents[i]);
  }

  // ---- confirms

  /** Rows that other requests rewrite are not the ones a confirm holds. */
  lemma ConfirmsKeptByCheckouts(s: State, a: Action, next: State)
    requires ConfirmsSound(s.checkouts, s.book.iks, s.cons) && Step(s, a, next)
    requires a.Initiate? || a.Deactivate? || a.SumCommit?
    ensures ConfirmsSound(next.checkouts, next.book.iks, next.cons)
  {
    var later := next.checkouts;
    forall t | t in s.cons
      ensures s.cons[t].cs < |later| && later[s.cons[t].cs].snapshot == s.checkouts[s.cons[t].cs].snapshot {}
  }

  lemma ConfirmsKeptByStart(s: State, t: nat, cs: nat, key: nat)
    requires ConfirmsSound(s.checkouts, s.book.iks, s.cons) && CanConStart(s, t, cs)
    ensures ConfirmsSound(s.checkouts, s.book.iks, DoConStart(s, t, cs, key).cons)
  {
  }

  lemma ConfirmsKeptByFresh(s: State, t: nat)
    requires ConfirmsSound(s.checkouts, s.book.iks, s.cons) && CanConFresh(s, t)
    ensures ConfirmsSound(s.checkouts, s.book.iks, DoConKey(s, t, Fresh).cons)
  {
  }

  lemma ConfirmsKeptByReplay(s: State, t: nat, id: nat)
    requires ConfirmsSound(s.checkouts, s.book.iks, s.cons) && CanConReplay(s, t, id)
    ensures ConfirmsSound(s.checkouts, s.book.iks, DoConKey(s, t, Existing(id)).cons)
  {
  }

  lemma ConfirmsKeptByCommit(s: State, t: nat)
    requires ConfirmsSound(s.checkouts, s.book.iks, s.cons) && CanConCommit(s, t)
    ensures ConfirmsSound(s.checkouts, DoConCommit(s, t).book.iks, s.cons - {t})
  {
  }

  lemma ConfirmsKeptByAccept(checkouts: seq<Checkout>, iks: seq<IKey>, cons: map<nat, ConTx>, ik: nat)
    requires ConfirmsSound(checkouts, iks, cons) && ik < |iks|
    ensures ConfirmsSound(checkouts, iks[ik := iks[ik].(answered := true)], cons)
  {
    var later := iks[ik := iks[ik].(answered := true)];
    assert forall i :: 0 <= i < |iks| ==> later[i].key == iks[i].key;
  }

  lemma ConfirmsKeptByAbort(checkouts: seq<Checkout>, iks: seq<IKey>, cons: map<nat, ConTx>, t: nat)
    requires ConfirmsSound(checkouts, iks, cons)
    ensures ConfirmsSound(checkouts, iks, cons - {t})
  {
  }

  lemma ConfirmsKept(s: State, a: Action, next: State)
    requires ConfirmsSound(s.checkouts, s.book.iks, s.cons) && Step(s, a, next)
    ensures ConfirmsSound(next.checkouts, next.book.iks, next.cons)
  {
    if !TouchesConfirms(a) {
      ConfirmsFrame(s, a, next);
    } else if a.ConStart? {
      ConfirmsKeptByStart(s, a.t, a.cs, a.key);
    } else if a.ConFresh? {
      ConfirmsKeptByFresh(s, a.t);
    } else if a.ConReplay? {
      ConfirmsKeptByReplay(s, a.t, a.id);
    } else if a.ConCommit? {
      ConfirmsKeptByCommit(s, a.t);
    } else if a.ConAbort? {
      ConfirmsKeptByAbort(s.checkouts, s.book.iks, s.cons, a.t);
    } else if a.PspAccept? {
      ConfirmsKeptByAccept(s.checkouts, s.book.iks, s.cons, s.book.orders[s.book.payments[a.pay].order].ik);
    } else {
      ConfirmsKeptByCheckouts(s, a, next);
    }
  }

  // ---- webhooks

  lemma WebhooksKeptByStart(s: State, t: nat, e: nat, p: nat)
    requires WebhooksSound(s.book, s.whs) && CanWhStart(s, t, e, p)
    ensures WebhooksSound(s.book, s.whs[t := WhTx(e, p, false)])
  {
  }

  lemma WebhooksKeptByAdvance(s: State, t: nat)
    requires WebhooksSound(s.book, s.whs) && CanWhAdvance(s, t)
    ensures WebhooksSound(s.book, s.whs[t := s.whs[t].(holding := true)])
  {
  }

  lemma WebhooksKeptByAbort(b: Book, whs: map<nat, WhTx>, t: nat)
    requires WebhooksSound(b, whs)
    ensures WebhooksSound(b, whs - {t})
  {
  }

  lemma WebhooksKeptByStale(b: Book, whs: map<nat, WhTx>, t: nat, e: nat)
    requires WebhooksSound(b, whs)
    ensures WebhooksSound(b.(delivered := b.delivered + {e}), whs - {t})
  {
    forall u | u in whs ensures Addresses(b.(delivered := b.delivered + {e}), whs[u].ev, whs[u].pay) {}
  }

  lemma WebhooksKeptByConfirm(s: State, t: nat)
    requires WebhooksSound(s.book, s.whs) && CanConCommit(s, t)
    ensures WebhooksSound(DoConCommit(s, t).book, s.whs)
  {
    forall u | u in s.whs ensures Addresses(DoConCommit(s, t).book, s.whs[u].ev, s.whs[u].pay) {}
  }

  /** A payment that is being accepted was addressed by no event before. */
  lemma WebhooksKeptByAccept(s: State, p: nat, provider: nat)
    requires WebhooksSound(s.book, s.whs) && CanPspAccept(s.book, p, provider)
    requires s.book.payments[p].provider.None?
    ensures WebhooksSound(DoPspAccept(s.book, p, provider), s.whs)
  {
    forall u | u in s.whs
      ensures s.whs[u].pay != p && Addresses(DoPspAccept(s.book, p, provider), s.whs[u].ev, s.whs[u].pay)
    {
      assert Addresses(s.book, s.whs[u].ev, s.whs[u].pay);
    }
  }

  /** The committing webhook held its payment row and its event, so no other one relied on either. */
  lemma WebhooksKeptByCommit(s: State, t: nat)
    requires WebhooksSound(s.book, s.whs) && CanWhCommit(s, t)
    ensures WebhooksSound(DoWebhook(s.book, s.whs[t].ev, s.whs[t].pay), s.whs - {t})
  {
    forall u | u in s.whs && u != t
      ensures Addresses(DoWebhook(s.book, s.whs[t].ev, s.whs[t].pay), s.whs[u].ev, s.whs[u].pay) {}
  }

  lemma WebhooksKeptByRequest(s: State, a: Action, next: State)
    requires WebhooksSound(s.book, s.whs) && Step(s, a, next)
    requires forall p :: p in s.book.awaiting ==> p < |s.book.payments| && s.book.payments[p].provider.None?
    requires a.WhStart? || a.WhAdvance? || a.WhAbort?
    ensures WebhooksSound(next.book, next.whs)
  {
    if a.WhStart? {
      WebhooksKeptByStart(s, a.t, a.ev, a.pay);
    } else if a.WhAdvance? {
      WebhooksKeptByAdvance(s, a.t);
    } else {
      WebhooksKeptByAbort(s.book, s.whs, a.t);
    }
  }

  lemma WebhooksKeptByDecision(s: State, a: Action, next: State)
    requires WebhooksSound(s.book, s.whs) && Step(s, a, next)
    requires forall p :: p in s.book.awaiting ==> p < |s.book.payments| && s.book.payments[p].provider.None?
    requires a.WhStale? || a.WhCommit?
    ensures WebhooksSound(next.book, next.whs)
  {
    if a.WhStale? {
      WebhooksKeptByStale(s.book, s.whs, a.t, s.whs[a.t].ev);
    } else {
      WebhooksKeptByCommit(s, a.t);
    }
  }

  lemma WebhooksKeptByPayments(s: State, a: Action, next: State)
    requires WebhooksSound(s.book, s.whs) && Step(s, a, next)
    requires forall p :: p in s.book.awaiting ==> p < |s.book.payments| && s.book.payments[p].provider.None?
    requires a.ConCommit? || a.PspAccept?
    ensures WebhooksSound(next.book, next.whs)
  {
    if a.ConCommit? {
      WebhooksKeptByConfirm(s, a.t);
    } else {
      WebhooksKeptByAccept(s, a.pay, a.provider);
    }
  }

  lemma WebhooksKept(s: State, a: Action, next: State)
    requires WebhooksSound(s.book, s.whs) && Step(s, a, next)
    requires forall p :: p in s.book.awaiting ==> p < |s.book.payments| && s.book.payments[p].provider.None?
    ensures WebhooksSound(next.book, next.whs)
  {
    if a.WhStart? || a.WhAdvance? || a.WhAbort? {
      WebhooksKeptByRequest(s, a, next);
    } else if a.WhStale? || a.WhCommit? {
      WebhooksKeptByDecision(s, a, next);
    } else if a.ConCommit? || a.PspAccept? {
      WebhooksKeptByPayments(s, a, next);
    } else {
      WebhooksFrame(s, a, next);
      WebhooksFromParts(s.book, next.book, s.whs);
    }
  }

  lemma WebhooksFromParts(b: Book, c: Book, whs: map<nat, WhTx>)
    requires WebhooksSound(b, whs)
    requires b.feed == c.feed && b.payments == c.payments && b.events == c.events
    ensures WebhooksSound(c, whs)
  {
    forall u | u in whs ensures Addresses(c, whs[u].ev, whs[u].pay) {}
  }

  // ---- order summaries

  lemma LockedPids(x: SumTx, i: nat)
    requires i < |x.seen| <= |x.items|
    ensures x.items[i].pid in SumLocks(x)
  {
    assert x.items[..|x.seen|][i] == x.items[i];
  }

  /** Enough for a summary in flight: its locked rows kept their stock and nothing was reserved on them. */
  lemma SummaryCarries(s: State, s': State, x: SumTx)
    requires SummarySound(s, x) && |s.checkouts| <= |s'.checkouts|
    requires forall pid :: pid in SumLocks(x) && pid in s.stock ==> pid in s'.stock && s'.stock[pid] == s.stock[pid]
    requires x.checked ==> forall pid :: pid in SumLocks(x) ==>
               Held(s'.reservations, pid, s'.now, {}) <= Held(s.reservations, pid, s.now, {})
    ensures SummarySound(s', x)
  {
    forall i | 0 <= i < |x.seen| ensures x.items[i].pid in SumLocks(x) {
      LockedPids(x, i);
    }
  }

  lemma SummariesKeptByTick(s: State, d: nat)
    requires SummariesSound(s)
    ensures SummariesSound(s.(now := s.now + d))
  {
    var s' := s.(now := s.now + d);
    forall t | t in s.sums ensures SummarySound(s', s.sums[t]) {
      forall pid ensures Held(s.reservations, pid, s'.now, {}) <= Held(s.reservations, pid, s.now, {}) {
        HeldShrinks(s.reservations, pid, s.now, s'.now, {}, {});
      }
      SummaryCarries(s, s', s.sums[t]);
    }
  }

  lemma SummariesKeptBySetStock(s: State, pid: nat, qty: nat)
    requires SummariesSound(s) && CanSetStock(s, pid)
    ensures SummariesSound(DoSetStock(s, pid, qty))
  {
    forall t | t in s.sums ensures SummarySound(DoSetStock(s, pid, qty), s.sums[t]) {
      SummaryCarries(s, DoSetStock(s, pid, qty), s.sums[t]);
    }
  }

  lemma SummariesKeptByCheckouts(s: State, a: Action, next: State)
    requires SummariesSound(s) && Step(s, a, next) && (a.Initiate? || a.Deactivate?)
    ensures SummariesSound(next)
  {
    forall t | t in s.sums ensures SummarySound(next, s.sums[t]) {
      SummaryCarries(s, next, s.sums[t]);
    }
  }

  lemma SummariesKeptByStart(s: State, t: nat, cs: nat, items: seq<Item>, how: PayMethod)
    requires SummariesSound(s) && CanSumStart(s, t, cs, items)
    ensures SummariesSound(DoSumStart(s, t, cs, items, how))
  {
    var s' := DoSumStart(s, t, cs, items, how);
    forall u | u in s'.sums ensures SummarySound(s', s'.sums[u]) {
      if u != t {
        SummaryCarries(s, s', s.sums[u]);
      }
    }
  }

  lemma SummariesKeptByLock(s: State, t: nat)
    requires SummariesSound(s) && CanSumLock(s, t) && !s.sums[t].checked
    ensures SummariesSound(DoSumLock(s, t))
  {
    var s' := DoSumLock(s, t);
    forall u | u in s'.sums ensures SummarySound(s', s'.sums[u]) {
      if u != t {
        SummaryCarries(s, s', s.sums[u]);
      }
    }
  }

  /** The check itself: what it compared is the stock, and it compared it with every live reservation. */
  lemma SummariesKeptByCheck(s: State, t: nat)
    requires SummariesSound(s) && CanSumCheck(s, t)
    ensures SummariesSound(DoSumCheck(s, t))
  {
    var s', x := DoSumCheck(s, t), s.sums[t];
    forall u | u in s'.sums ensures SummarySound(s', s'.sums[u]) {
      if u != t {
        SummaryCarries(s, s', s.sums[u]);
      } else {
        forall i | 0 <= i < |x.items|
          ensures Held(s.reservations, x.items[i].pid, s.now, {}) + x.items[i].qty <= s.stock[x.items[i].pid]
        {
          assert x.items[i].qty <= Max0(x.seen[i] - Held(s.reservations, x.items[i].pid, s.now, {}));
        }
      }
    }
  }

  /** New reservations are only on rows the committing summary had locked. */
  lemma ReservedElsewhere(s: State, x: SumTx, pid: nat, now: int, released: set<nat>)
    requires pid !in Pids(x.items) && x.cs < |s.checkouts|
    ensures Held(Reserve(s.reservations, x.items, x.cs, s.checkouts[x.cs].expires), pid, now, released)
            <= Held(s.reservations, pid, now, released)
  {
    ReserveAdds(s.reservations, x.items, x.cs, s.checkouts[x.cs].expires);
    DemandZero(x.items, pid);
  }

  lemma SummariesKeptByCommit(s: State, t: nat)
    requires SummariesSound(s) && CanSumCommit(s, t) && LocksDisjoint(s.book, s.sums, s.draws)
    ensures SummariesSound(DoSumCommit(s, t))
  {
    var s', x := DoSumCommit(s, t), s.sums[t];
    assert SumLocks(x) == Pids(x.items) by {
      assert SummarySound(s, x);
      assert x.items[..|x.items|] == x.items;
    }
    forall u | u in s'.sums ensures SummarySound(s', s'.sums[u]) {
      forall pid | pid in SumLocks(s.sums[u])
        ensures Held(s'.reservations, pid, s'.now, {}) <= Held(s.reservations, pid, s.now, {})
      {
        ReservedElsewhere(s, x, pid, s.now, {});
      }
      SummaryCarries(s, s', s.sums[u]);
    }
  }

  lemma SummariesKeptByDraw(s: State, t: nat)
    requires SummariesSound(s) && CanDrawCommit(s, t) && LocksDisjoint(s.book, s.sums, s.draws)
    requires DrawSound(s.stock, s.book.intents, s.draws[t])
    ensures SummariesSound(DoDrawCommit(s, t))
  {
    var s' := DoDrawCommit(s, t);
    WritesLocked(s, t);
    forall u | u in s'.sums ensures SummarySound(s', s'.sums[u]) {
      SummaryCarries(s, s', s.sums[u]);
    }
  }

  /** A draft writes only rows the worker has locked. */
  lemma WritesLocked(s: State, t: nat)
    requires t in s.draws && DrawSound(s.stock, s.book.intents, s.draws[t]) && !s.draws[t].failing
    ensures s.draws[t].draft.writes.Keys <= DrawLocks(s.book, s.draws[t])
  {
    DrawRowsExact(s.stock, s.book.intents[s.draws[t].intent].items[..s.draws[t].done]);
  }

  predicate TouchesSummaries(a: Action) {
    || a.Tick? || a.SetStock? || a.Initiate? || a.Deactivate? || a.DrawCommit?
    || a.SumStart? || a.SumLock? || a.SumCheck? || a.SumCommit? || a.SumAbort?
  }

  lemma SummariesFrame(s: State, a: Action, next: State)
    requires Step(s, a, next) && !TouchesSummaries(a)
    ensures next.now == s.now && next.checkouts == s.checkouts && next.stock == s.stock
    ensures next.reservations == s.reservations && next.sums == s.sums
  {
  }

  lemma SummariesFromParts(s: State, s': State)
    requires SummariesSound(s)
    requires s'.now == s.now && s'.checkouts == s.checkouts && s'.stock == s.stock && s'.reservations == s.reservations
    requires forall t :: t in s'.sums ==> t in s.sums && s'.sums[t] == s.sums[t]
    ensures SummariesSound(s')
  {
    forall t | t in s'.sums ensures SummarySound(s', s'.sums[t]) {
      SummaryCarries(s, s', s.sums[t]);
    }
  }

  lemma SummariesKeptByRequest(s: State, a: Action, next: State)
    requires SummariesSound(s) && Step(s, a, next) && LocksDisjoint(s.book, s.sums, s.draws)
    requires a.SumStart? || a.SumLock? || a.SumCheck? || a.SumCommit? || a.SumAbort?
    ensures SummariesSound(next)
  {
    if a.SumStart? {
      SummariesKeptByStart(s, a.t, a.cs, a.items, a.how);
    } else if a.SumLock? {
      assert SummarySound(s, s.sums[a.t]);
      SummariesKeptByLock(s, a.t);
    } else if a.SumCheck? {
      SummariesKeptByCheck(s, a.t);
    } else if a.SumCommit? {
      SummariesKeptByCommit(s, a.t);
    } else {
      SummariesFromParts(s, next);
    }
  }

  lemma SummariesKeptElsewhere(s: State, a: Action, next: State)
    requires SummariesSound(s) && Step(s, a, next) && !TouchesSummaries(a)
    ensures SummariesSound(next)
  {
    SummariesFrame(s, a, next);
    SummariesFromParts(s, next);
  }

  lemma SummariesKeptByOthers(s: State, a: Action, next: State)
    requires SummariesSound(s) && Step(s, a, next) && LocksDisjoint(s.book, s.sums, s.draws)
    requires DrawsSound(s.stock, s.book.intents, s.draws)
    requires a.Tick? || a.SetStock? || a.Initiate? || a.Deactivate? || a.DrawCommit?
    ensures SummariesSound(next)
  {
    if a.Tick? {
      SummariesKeptByTick(s, a.d);
    } else if a.SetStock? {
      SummariesKeptBySetStock(s, a.pid, a.qty);
    } else if a.Initiate? || a.Deactivate? {
      SummariesKeptByCheckouts(s, a, next);
    } else {
      SummariesKeptByDraw(s, a.t);
    }
  }

  lemma SummariesKept(s: State, a: Action, next: State)
    requires SummariesSound(s) && Step(s, a, next) && LocksDisjoint(s.book, s.sums, s.draws)
    requires DrawsSound(s.stock, s.book.intents, s.draws)
    ensures SummariesSound(next)
  {
    if !TouchesSummaries(a) {
      SummariesKeptElsewhere(s, a, next);
    } else if a.Tick? || a.SetStock? || a.Initiate? || a.Deactivate? || a.DrawCommit? {
      SummariesKeptByOthers(s, a, next);
    } else {
      SummariesKeptByRequest(s, a, next);
    }
  }

  // ---- the stock draw

  predicate TouchesDraws(a: Action) {
    || a.SetStock? || a.WhCommit? || a.Claim? || a.DrawNext? || a.DrawCommit? || a.DrawRollback? || a.DrawSettle? || a.DrawCrash?
  }

  lemma DrawsFrame(s: State, a: Action, next: State)
    requires Step(s, a, next) && !TouchesDraws(a)
    ensures next.stock == s.stock && next.supplied == s.supplied
    ensures next.book.intents == s.book.intents && next.draws == s.draws
  {
    if !TouchesBook(a) {
      BookFrame(s, a, next);
    }
    WorkersFrame(s, a, next);
  }

  /** Enough for a worker: its intent is still its own and its locked rows kept their stock. */
  lemma DrawCarries(stock: Shelf, intents: seq<Intent>, stock': Shelf, intents': seq<Intent>, x: DrawTx)
    requires DrawSound(stock, intents, x)
    requires x.intent < |intents'| && intents'[x.intent] == intents[x.intent]
    requires !x.failing ==> forall pid :: pid in Pids(intents[x.intent].items[..x.done]) ==>
               pid in stock' && stock'[pid] == stock[pid]
    ensures DrawSound(stock', intents', x)
  {
    if !x.failing {
      DrawRowsFrame(stock, stock', intents[x.intent].items[..x.done]);
    }
  }

  lemma DrawsKeptBySetStock(s: State, pid: nat, qty: nat)
    requires DrawsSound(s.stock, s.book.intents, s.draws) && CanSetStock(s, pid)
    ensures DrawsSound(DoSetStock(s, pid, qty).stock, s.book.intents, s.draws)
  {
    forall t | t in s.draws ensures DrawSound(DoSetStock(s, pid, qty).stock, s.book.intents, s.draws[t]) {
      DrawCarries(s.stock, s.book.intents, DoSetStock(s, pid, qty).stock, s.book.intents, s.draws[t]);
    }
  }

  lemma DrawsKeptByWebhook(stock: Shelf, b: Book, draws: map<nat, DrawTx>, e: nat, p: nat)
    requires DrawsSound(stock, b.intents, draws)
    requires e in b.feed && p < |b.payments| && b.payments[p].order < |b.orders|
    ensures DrawsSound(stock, DoWebhook(b, e, p).intents, draws)
  {
    forall t | t in draws ensures DrawSound(stock, DoWebhook(b, e, p).intents, draws[t]) {
      DrawCarries(stock, b.intents, stock, DoWebhook(b, e, p).intents, draws[t]);
    }
  }

  lemma DrawsKeptByClaim(s: State, t: nat, i: nat)
    requires DrawsSound(s.stock, s.book.intents, s.draws) && CanClaim(s, t, i)
    ensures DrawsSound(s.stock, DoClaim(s.book, i).intents, DoClaiming(s, t, i).draws)
  {
    var s' := DoClaiming(s, t, i);
    forall u | u in s'.draws ensures DrawSound(s.stock, s'.book.intents, s'.draws[u]) {
      if u == t {
        assert s'.book.intents[i].items[..0] == [];
      } else {
        DrawCarries(s.stock, s.book.intents, s.stock, s'.book.intents, s.draws[u]);
      }
    }
  }

  lemma DrawnOneMore(stock: Shelf, intents: seq<Intent>, x: DrawTx)
    requires DrawSound(stock, intents, x) && !x.failing && x.done < |intents[x.intent].items|
    requires intents[x.intent].items[x.done].pid in stock
    ensures DrawSound(stock, intents, x.(done := x.done + 1, draft := DrawRow(stock, x.draft, intents[x.intent].items[x.done])))
  {
    PidsPrefix(intents[x.intent].items, x.done);
  }

  lemma DrawsKeptByNext(s: State, t: nat)
    requires DrawsSound(s.stock, s.book.intents, s.draws) && CanDrawNext(s, t)
    ensures DrawsSound(s.stock, s.book.intents, DoDrawNext(s, t).draws)
  {
    DrawnOneMore(s.stock, s.book.intents, s.draws[t]);
  }

  lemma DrawsKeptByEnd(s: State, s': State, t: nat)
    requires DrawsSound(s.stock, s.book.intents, s.draws) && LocksDisjoint(s.book, s.sums, s.draws)
    requires t in s.draws && s'.draws == s.draws - {t} && |s'.book.intents| == |s.book.intents|
    requires forall i :: 0 <= i < |s.book.intents| && i != s.draws[t].intent ==> s'.book.intents[i] == s.book.intents[i]
    requires forall pid :: pid in s.stock && pid !in DrawLocks(s.book, s.draws[t]) ==> pid in s'.stock && s'.stock[pid] == s.stock[pid]
    ensures DrawsSound(s'.stock, s'.book.intents, s'.draws)
  {
    forall u | u in s'.draws ensures DrawSound(s'.stock, s'.book.intents, s'.draws[u]) {
      assert DrawLocks(s.book, s.draws[u]) !! DrawLocks(s.book, s.draws[t]);
      assert DrawSound(s.stock, s.book.intents, s.draws[u]);
      DrawCarries(s.stock, s.book.intents, s'.stock, s'.book.intents, s.draws[u]);
    }
  }

  lemma DrawsKeptByCommit(s: State, t: nat)
    requires DrawsSound(s.stock, s.book.intents, s.draws) && LocksDisjoint(s.book, s.sums, s.draws)
    requires CanDrawCommit(s, t)
    ensures DrawsSound(DoDrawCommit(s, t).stock, DoDrawCommit(s, t).book.intents, DoDrawCommit(s, t).draws)
  {
    WritesLocked(s, t);
    DrawsKeptByEnd(s, DoDrawCommit(s, t), t);
  }

  lemma DrawsKeptByRollback(stock: Shelf, intents: seq<Intent>, draws: map<nat, DrawTx>, t: nat)
    requires DrawsSound(stock, intents, draws) && t in draws
    ensures DrawsSound(stock, intents, draws[t := draws[t].(failing := true)])
  {
  }

  lemma DrawsKeptByProgress(s: State, a: Action, next: State)
    requires DrawsSound(s.stock, s.book.intents, s.draws) && LocksDisjoint(s.book, s.sums, s.draws)
    requires Step(s, a, next) && ByWorker(a)
    requires a.Claim? || a.DrawNext?
    ensures DrawsSound(next.stock, next.book.intents, next.draws)
  {
    if a.Claim? {
      DrawsKeptByClaim(s, a.t, a.intent);
    } else {
      DrawsKeptByNext(s, a.t);
    }
  }

  lemma DrawsKeptByOutcome(s: State, a: Action, next: State)
    requires DrawsSound(s.stock, s.book.intents, s.draws) && LocksDisjoint(s.book, s.sums, s.draws)
    requires Step(s, a, next) && ByWorker(a)
    requires !a.Claim? && !a.DrawNext?
    ensures DrawsSound(next.stock, next.book.intents, next.draws)
  {
    if a.DrawCommit? {
      DrawsKeptByCommit(s, a.t);
    } else if a.DrawRollback? {
      DrawsKeptByRollback(s.stock, s.book.intents, s.draws, a.t);
    } else {
      DrawsKeptByEnd(s, next, a.t);
    }
  }

  lemma DrawsKeptByWorker(s: State, a: Action, next: State)
    requires DrawsSound(s.stock, s.book.intents, s.draws) && LocksDisjoint(s.book, s.sums, s.draws)
    requires Step(s, a, next) && ByWorker(a)
    ensures DrawsSound(next.stock, next.book.intents, next.draws)
  {
    if a.Claim? || a.DrawNext? {
      DrawsKeptByProgress(s, a, next);
    } else {
      DrawsKeptByOutcome(s, a, next);
    }
  }

  lemma DrawsKept(s: State, a: Action, next: State)
    requires DrawsSound(s.stock, s.book.intents, s.draws) && LocksDisjoint(s.book, s.sums, s.draws) && Step(s, a, next)
    ensures DrawsSound(next.stock, next.book.intents, next.draws)
  {
    if ByWorker(a) {
      DrawsKeptByWorker(s, a, next);
    } else if a.SetStock? {
      DrawsKeptBySetStock(s, a.pid, a.qty);
    } else if a.WhCommit? {
      DrawsKeptByWebhook(s.stock, s.book, s.draws, s.whs[a.t].ev, s.whs[a.t].pay);
    } else {
      DrawsFrame(s, a, next);
    }
  }

  // ---- conservation

  lemma ConservedByRow(stock: Shelf, supplied: Shelf, intents: seq<Intent>, i: nat, it: Intent, pid: nat)
    requires Conserved(stock, supplied, intents) && i < |intents| && intents[i].status != Done
    requires it == intents[i].(status := Done) && Covers(stock, it.items)
    ensures pid in stock ==> supplied[pid] == stock[pid] - Demand(it.items, pid) + DrawnQty(intents[i := it], pid)
    ensures pid in stock ==> stock[pid] >= Demand(it.items, pid)
    ensures pid !in stock ==> DrawnQty(intents[i := it], pid) == 0
  {
    DrawnQtyUpdate(intents, i, it, pid);
    if pid !in Pids(it.items) {
      DemandZero(it.items, pid);
    }
  }

  lemma ConservedByDraw(s: State, t: nat)
    requires Conserved(s.stock, s.supplied, s.book.intents) && CanDrawCommit(s, t)
    requires DrawSound(s.stock, s.book.intents, s.draws[t])
    ensures Conserved(DoDrawCommit(s, t).stock, s.supplied, DoDrawCommit(s, t).book.intents)
  {
    var s', x := DoDrawCommit(s, t), s.draws[t];
    var it := s.book.intents[x.intent];
    assert it.items[..x.done] == it.items;
    DrawRowsExact(s.stock, it.items);
    forall pid
      ensures pid in s'.stock ==> s'.stock[pid] >= 0 && s.supplied[pid] == s'.stock[pid] + DrawnQty(s'.book.intents, pid)
      ensures pid !in s'.stock ==> DrawnQty(s'.book.intents, pid) == 0
    {
      ConservedByRow(s.stock, s.supplied, s.book.intents, x.intent, it.(status := Done), pid);
      if pid !in Pids(it.items) {
        DemandZero(it.items, pid);
      }
    }
  }

  lemma SetStockConserves(s: State, pid: nat, qty: nat)
    requires Conserved(s.stock, s.supplied, s.book.intents)
    ensures Conserved(DoSetStock(s, pid, qty).stock, DoSetStock(s, pid, qty).supplied, s.book.intents)
  {
  }

  lemma ConservedByUpdate(stock: Shelf, supplied: Shelf, intents: seq<Intent>, i: nat, it: Intent)
    requires Conserved(stock, supplied, intents) && i < |intents|
    requires it.items == intents[i].items && it.status != Done && intents[i].status != Done
    ensures Conserved(stock, supplied, intents[i := it])
  {
    forall pid ensures DrawnQty(intents[i := it], pid) == DrawnQty(intents, pid) {
      DrawnQtyUpdate(intents, i, it, pid);
    }
  }

  lemma ConservedByWebhook(s: State, t: nat)
    requires Conserved(s.stock, s.supplied, s.book.intents) && CanWhCommit(s, t)
    ensures Conserved(s.stock, s.supplied, DoWebhook(s.book, s.whs[t].ev, s.whs[t].pay).intents)
  {
    var later := DoWebhook(s.book, s.whs[t].ev, s.whs[t].pay).intents;
    if later != s.book.intents {
      assert later[..|later| - 1] == s.book.intents;
    }
  }

  lemma ConservedBySettle(s: State, t: nat)
    requires Conserved(s.stock, s.supplied, s.book.intents) && CanDrawSettle(s, t) && DrawSound(s.stock, s.book.intents, s.draws[t])
    ensures Conserved(s.stock, s.supplied, DoSettle(s.book, s.draws[t].intent).intents)
  {
    var i := s.draws[t].intent;
    ConservedByUpdate(s.stock, s.supplied, s.book.intents, i, DoSettle(s.book, i).intents[i]);
  }

  lemma ConservedByClaim(s: State, i: nat)
    requires Conserved(s.stock, s.supplied, s.book.intents) && i < |s.book.intents| && s.book.intents[i].status.Pending?
    ensures Conserved(s.stock, s.supplied, DoClaim(s.book, i).intents)
  {
    ConservedByUpdate(s.stock, s.supplied, s.book.intents, i, DoClaim(s.book, i).intents[i]);
  }

  lemma ConservedByCommit(s: State, a: Action, next: State)
    requires Conserved(s.stock, s.supplied, s.book.intents) && Step(s, a, next) && a.DrawCommit?
    requires DrawSound(s.stock, s.book.intents, s.draws[a.t])
    ensures Conserved(next.stock, next.supplied, next.book.intents)
  {
    ConservedByDraw(s, a.t);
  }

  lemma ConservedByRetry(s: State, a: Action, next: State)
    requires Conserved(s.stock, s.supplied, s.book.intents) && Step(s, a, next) && (a.Claim? || a.DrawSettle?)
    requires forall t :: t in s.draws ==> DrawSound(s.stock, s.book.intents, s.draws[t])
    ensures Conserved(next.stock, next.supplied, next.book.intents)
  {
    if a.Claim? {
      ConservedByClaim(s, a.intent);
    } else {
      ConservedBySettle(s, a.t);
    }
  }

  lemma ConservedByWorker(s: State, a: Action, next: State)
    requires Conserved(s.stock, s.supplied, s.book.intents) && Step(s, a, next) && ByWorker(a)
    requires forall t :: t in s.draws ==> DrawSound(s.stock, s.book.intents, s.draws[t])
    ensures Conserved(next.stock, next.supplied, next.book.intents)
  {
    if a.Claim? || a.DrawSettle? {
      ConservedByRetry(s, a, next);
    } else if a.DrawCommit? {
      ConservedByCommit(s, a, next);
    }
  }

  lemma ConservedKept(s: State, a: Action, next: State)
    requires Conserved(s.stock, s.supplied, s.book.intents) && Step(s, a, next)
    requires DrawsSound(s.stock, s.book.intents, s.draws)
    ensures Conserved(next.stock, next.supplied, next.book.intents)
  {
    if ByWorker(a) {
      ConservedByWorker(s, a, next);
    } else if a.SetStock? {
      SetStockConserves(s, a.pid, a.qty);
    } else if a.WhCommit? {
      ConservedByWebhook(s, a.t);
    } else {
      DrawsFrame(s, a, next);
    }
  }

  // ---- every run

  lemma RowsKept(s: State, a: Action, next: State)
    requires Inv(s) && Step(s, a, next)
    ensures BookInv(next.book) && ConfirmsSound(next.checkouts, next.book.iks, next.cons) && WebhooksSound(next.book, next.whs)
  {
    BookKept(s, a, next);
    ConfirmsKept(s, a, next);
    WebhooksKept(s, a, next);
  }

  lemma StockKept(s: State, a: Action, next: State)
    requires LocksDisjoint(s.book, s.sums, s.draws) && SummariesSound(s) && DrawsSound(s.stock, s.book.intents, s.draws)
    requires Conserved(s.stock, s.supplied, s.book.intents) && Step(s, a, next)
    ensures LocksDisjoint(next.book, next.sums, next.draws) && SummariesSound(next)
    ensures DrawsSound(next.stock, next.book.intents, next.draws) && Conserved(next.stock, next.supplied, next.book.intents)
  {
    BookPayloadsKept(s, a, next);
    LocksKept(s, a, next);
    SummariesKept(s, a, next);
    DrawsKept(s, a, next);
    ConservedKept(s, a, next);
  }

  lemma InvKept(s: State, a: Action, next: State)
    requires Inv(s) && Step(s, a, next)
    ensures Inv(next)
  {
    RowsKept(s, a, next);
    StockKept(s, a, next);
  }

  lemma {:induction false} InvHolds(s: State, run: seq<Action>)
    requires Init(s) && Legal(s, run)
    ensures Inv(Exec(s, run))
    decreases |run|
  {
    if run != [] {
      var n := |run| - 1;
      InvHolds(s, run[..n]);
      InvKept(Exec(s, run[..n]), run[n], Do(Exec(s, run[..n]), run[n]));
    }
  }
}
