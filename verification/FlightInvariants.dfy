/** What the transactions in flight may rely on: the rows they hold do not move under them. */
module FlightInvariants {
  import opened Stock
  import opened Reservations
  import opened Shop
  import opened BookInvariants

  /** A confirm holds its checkout row, so its lines stay the snapshot's, and its fresh key stays unused. */
  ghost predicate ConfirmsSound(checkouts: seq<Checkout>, iks: seq<IKey>, cons: map<nat, ConTx>) {
    && (forall t :: t in cons ==>
          && cons[t].cs < |checkouts|
          && checkouts[cons[t].cs].snapshot == Taken(cons[t].items, cons[t].how)
          && (cons[t].ik.Fresh? ==> forall i :: 0 <= i < |iks| ==> iks[i].key != cons[t].key)
          && (cons[t].ik.Existing? ==> cons[t].ik.id < |iks|))
    && (forall t, u :: t in cons && u in cons && t != u ==>
          && cons[t].cs != cons[u].cs
          && (cons[t].ik.Fresh? && cons[u].ik.Fresh? ==> cons[t].key != cons[u].key))
  }

  /** A webhook has a valid, not yet recorded event; one that holds its payment row is still above its status. */
  ghost predicate WebhooksSound(b: Book, whs: map<nat, WhTx>) {
    && (forall t :: t in whs ==>
          && Addresses(b, whs[t].ev, whs[t].pay) && VerdictOf(b, whs[t].ev).valid
          && whs[t].ev !in b.events
          && (whs[t].holding ==> b.payments[whs[t].pay].status < VerdictOf(b, whs[t].ev).pay))
    && (forall t, u :: t in whs && u in whs && t != u ==>
          && whs[t].ev != whs[u].ev
          && (whs[t].holding && whs[u].holding ==> whs[t].pay != whs[u].pay))
  }

  /** No product row is locked twice. */
  ghost predicate LocksDisjoint(b: Book, sums: map<nat, SumTx>, draws: map<nat, DrawTx>) {
    && (forall t, u :: t in sums && u in sums && t != u ==> SumLocks(sums[t]) !! SumLocks(sums[u]))
    && (forall t, u :: t in sums && u in draws ==> SumLocks(sums[t]) !! DrawLocks(b, draws[u]))
    && (forall t, u :: t in draws && u in draws && t != u ==> DrawLocks(b, draws[t]) !! DrawLocks(b, draws[u]))
  }

  /** The stock a summary read under lock is still the stock; once checked, its lines still fit. */
  ghost predicate SummarySound(s: State, x: SumTx) {
    && x.cs < |s.checkouts| && |x.seen| <= |x.items|
    && Distinct(x.items) && (forall i :: 0 <= i < |x.items| ==> x.items[i].qty >= 1)
    && (forall i :: 0 <= i < |x.seen| ==> x.items[i].pid in s.stock && x.seen[i] == s.stock[x.items[i].pid])
    && (x.checked ==> |x.seen| == |x.items| && forall i :: 0 <= i < |x.items| ==>
          Held(s.reservations, x.items[i].pid, s.now, {}) + x.items[i].qty <= s.stock[x.items[i].pid])
  }

  ghost predicate SummariesSound(s: State) {
    forall t :: t in s.sums ==> SummarySound(s, s.sums[t])
  }

  /** A worker owns its PROCESSING intent, and its draft is what the draw loop makes of the rows it locked. */
  ghost predicate DrawSound(stock: Shelf, intents: seq<Intent>, x: DrawTx) {
    && x.intent < |intents| && intents[x.intent].status == Processing
    && (!x.failing ==>
          && x.done <= |intents[x.intent].items|
          && Stocked(stock, intents[x.intent].items[..x.done])
          && x.draft == DrawRows(stock, intents[x.intent].items[..x.done]))
  }

  ghost predicate DrawsSound(stock: Shelf, intents: seq<Intent>, draws: map<nat, DrawTx>) {
    && (forall t :: t in draws ==> DrawSound(stock, intents, draws[t]))
    && (forall t, u :: t in draws && u in draws && t != u ==> draws[t].intent != draws[u].intent)
  }

  /** The quantity of a product in the commit intents that are done. */
  ghost function DrawnQty(intents: seq<Intent>, pid: nat): nat {
    if intents == [] then 0
    else
      var it := intents[|intents| - 1];
      DrawnQty(intents[..|intents| - 1], pid) + if it.status == Done then Demand(it.items, pid) else 0
  }

  ghost predicate Conserved(stock: Shelf, supplied: Shelf, intents: seq<Intent>) {
    && stock.Keys == supplied.Keys
    && (forall pid :: pid in stock ==> stock[pid] >= 0 && supplied[pid] == stock[pid] + DrawnQty(intents, pid))
    && (forall pid :: pid !in stock ==> DrawnQty(intents, pid) == 0)
  }

  ghost predicate Inv(s: State) {
    && BookInv(s.book)
    && ConfirmsSound(s.checkouts, s.book.iks, s.cons)
    && WebhooksSound(s.book, s.whs)
    && LocksDisjoint(s.book, s.sums, s.draws)
    && SummariesSound(s)
    && DrawsSound(s.stock, s.book.intents, s.draws)
    && Conserved(s.stock, s.supplied, s.book.intents)
  }

  // ---- the quantities drawn

  lemma {:induction false} DrawnQtyUpdate(intents: seq<Intent>, i: nat, it: Intent, pid: nat)
    requires i < |intents| && it.items == intents[i].items
    ensures DrawnQty(intents[i := it], pid) ==
            DrawnQty(intents, pid)
            + (if it.status == Done then Demand(it.items, pid) else 0)
            - (if intents[i].status == Done then Demand(it.items, pid) else 0)
  {
    var n := |intents| - 1;
    var changed := intents[i := it];
    if i < n {
      assert changed[..n] == intents[..n][i := it];
      DrawnQtyUpdate(intents[..n], i, it, pid);
    } else {
      assert changed[..n] == intents[..n];
    }
  }

  // ---- which actions touch what

  predicate TouchesBook(a: Action) {
    a.ConCommit? || a.PspAccept? || a.PspFail? || a.WhStale? || a.WhCommit? || a.Claim? || a.DrawCommit? || a.DrawSettle?
  }

  lemma BookFrame(s: State, a: Action, next: State)
    requires Step(s, a, next) && !TouchesBook(a)
    ensures next.book == s.book
  {
  }

  /** Key rows keep all but whether they are answered, and orders keep their key row and their lines. */
  ghost predicate RowsStay(b: Book, c: Book) {
    && |c.iks| == |b.iks| && (forall i :: 0 <= i < |b.iks| ==> c.iks[i] == b.iks[i].(answered := c.iks[i].answered))
    && |c.orders| == |b.orders|
    && (forall o :: 0 <= o < |b.orders| ==> c.orders[o].ik == b.orders[o].ik && c.orders[o].items == b.orders[o].items)
  }

  lemma RowsByAccept(b: Book, p: nat, provider: nat)
    requires CanPspAccept(b, p, provider)
    ensures RowsStay(b, DoPspAccept(b, p, provider))
  {
  }

  lemma RowsByWebhook(b: Book, e: nat, p: nat)
    requires e in b.feed && p < |b.payments| && b.payments[p].order < |b.orders|
    ensures RowsStay(b, DoWebhook(b, e, p))
  {
  }

  /** The worker's actions. */
  predicate ByWorker(a: Action) {
    a.Claim? || a.DrawNext? || a.DrawCommit? || a.DrawRollback? || a.DrawSettle? || a.DrawCrash?
  }

  lemma WorkersFrame(s: State, a: Action, next: State)
    requires Step(s, a, next) && !ByWorker(a)
    ensures next.draws == s.draws
  {
  }

  lemma WorkersLeaveRows(s: State, a: Action, next: State)
    requires Step(s, a, next) && ByWorker(a)
    ensures next.book.iks == s.book.iks && next.book.orders == s.book.orders
    ensures next.book.payments == s.book.payments && next.book.awaiting == s.book.awaiting
  {
  }

  lemma RowsFrame(s: State, a: Action, next: State)
    requires Step(s, a, next) && !a.ConCommit?
    ensures RowsStay(s.book, next.book)
  {
    if !TouchesBook(a) {
      BookFrame(s, a, next);
    } else if ByWorker(a) {
      WorkersLeaveRows(s, a, next);
    } else if a.PspAccept? {
      RowsByAccept(s.book, a.pay, a.provider);
    } else if a.WhCommit? {
      RowsByWebhook(s.book, s.whs[a.t].ev, s.whs[a.t].pay);
    }
  }

  // ---- locks

  lemma SumLocksGrow(x: SumTx, seen: int)
    requires |x.seen| < |x.items|
    ensures SumLocks(x.(seen := x.seen + [seen])) == SumLocks(x) + {x.items[|x.seen|].pid}
  {
    PidsPrefix(x.items, |x.seen|);
  }

  lemma DrawLocksGrow(b: Book, x: DrawTx, draft: Draft)
    requires x.intent < |b.intents| && x.done < |b.intents[x.intent].items| && !x.failing
    ensures DrawLocks(b, x.(done := x.done + 1, draft := draft)) == DrawLocks(b, x) + {b.intents[x.intent].items[x.done].pid}
  {
    PidsPrefix(b.intents[x.intent].items, x.done);
  }

  /** A request's statements on summaries. */
  predicate BySummary(a: Action) {
    a.SumStart? || a.SumLock? || a.SumCheck? || a.SumCommit? || a.SumAbort?
  }

  lemma SumsFrame(s: State, a: Action, next: State)
    requires Step(s, a, next) && !BySummary(a)
    ensures next.sums == s.sums
  {
  }

  /** The payload of an intent never changes. */
  ghost predicate PayloadsKept(b: Book, c: Book) {
    |b.intents| <= |c.intents| && forall i :: 0 <= i < |b.intents| ==> b.intents[i].items == c.intents[i].items
  }

  /** Locks that are kept or dropped stay disjoint, and a transaction starts without any. */
  lemma LocksShrink(s: State, s': State)
    requires LocksDisjoint(s.book, s.sums, s.draws)
    requires forall t :: t in s'.sums ==> SumLocks(s'.sums[t]) == {} || (t in s.sums && SumLocks(s'.sums[t]) <= SumLocks(s.sums[t]))
    requires forall t :: t in s'.draws ==>
               DrawLocks(s'.book, s'.draws[t]) == {} || (t in s.draws && DrawLocks(s'.book, s'.draws[t]) <= DrawLocks(s.book, s.draws[t]))
    ensures LocksDisjoint(s'.book, s'.sums, s'.draws)
  {
  }

  lemma SumLockKeepsLocks(s: State, t: nat)
    requires LocksDisjoint(s.book, s.sums, s.draws) && CanSumLock(s, t)
    ensures LocksDisjoint(s.book, DoSumLock(s, t).sums, s.draws)
  {
    var x, s' := s.sums[t], DoSumLock(s, t);
    SumLocksGrow(x, s.stock[x.items[|x.seen|].pid]);
    assert forall u :: u in s.sums && u != t ==> s'.sums[u] == s.sums[u];
  }

  lemma LocksWithOneMore(b: Book, sums: map<nat, SumTx>, draws: map<nat, DrawTx>, t: nat, y: DrawTx, pid: nat)
    requires LocksDisjoint(b, sums, draws) && t in draws && DrawLocks(b, y) == DrawLocks(b, draws[t]) + {pid}
    requires forall u :: u in sums ==> pid !in SumLocks(sums[u])
    requires forall u :: u in draws && u != t ==> pid !in DrawLocks(b, draws[u])
    ensures LocksDisjoint(b, sums, draws[t := y])
  {
  }

  lemma DrawNextKeepsLocks(s: State, t: nat)
    requires LocksDisjoint(s.book, s.sums, s.draws) && CanDrawNext(s, t)
    ensures LocksDisjoint(s.book, s.sums, DoDrawNext(s, t).draws)
  {
    var x, y := s.draws[t], DoDrawNext(s, t).draws[t];
    DrawLocksGrow(s.book, x, y.draft);
    LocksWithOneMore(s.book, s.sums, s.draws, t, y, s.book.intents[x.intent].items[x.done].pid);
  }

  lemma LocksKept(s: State, a: Action, next: State)
    requires LocksDisjoint(s.book, s.sums, s.draws) && Step(s, a, next)
    requires forall t :: t in s.draws ==> s.draws[t].intent < |s.book.intents|
    requires PayloadsKept(s.book, next.book)
    ensures LocksDisjoint(next.book, next.sums, next.draws)
  {
    if a.SumLock? {
      SumLockKeepsLocks(s, a.t);
    } else if a.DrawNext? {
      DrawNextKeepsLocks(s, a.t);
    } else {
      SumLocksNarrow(s, a, next);
      DrawLocksNarrow(s, a, next);
      LocksShrink(s, next);
    }
  }

  lemma SumLocksNarrow(s: State, a: Action, next: State)
    requires Step(s, a, next) && !a.SumLock?
    ensures forall t :: t in next.sums ==>
              SumLocks(next.sums[t]) == {} || (t in s.sums && SumLocks(next.sums[t]) <= SumLocks(s.sums[t]))
  {
    if !BySummary(a) {
      SumsFrame(s, a, next);
    }
  }

  lemma DrawLocksNarrow(s: State, a: Action, next: State)
    requires Step(s, a, next) && !a.DrawNext?
    requires forall t :: t in s.draws ==> s.draws[t].intent < |s.book.intents|
    requires PayloadsKept(s.book, next.book)
    ensures forall t :: t in next.draws ==>
              DrawLocks(next.book, next.draws[t]) == {}
              || (t in s.draws && DrawLocks(next.book, next.draws[t]) <= DrawLocks(s.book, s.draws[t]))
  {
    if !ByWorker(a) {
      WorkersFrame(s, a, next);
    }
  }

  lemma PayloadsByIntents(b: Book, c: Book, i: nat)
    requires i < |b.intents| == |c.intents| && c.intents[i].items == b.intents[i].items
    requires forall j :: 0 <= j < |b.intents| && j != i ==> c.intents[j] == b.intents[j]
    ensures PayloadsKept(b, c)
  {
  }

  lemma PayloadsByWebhook(b: Book, e: nat, p: nat)
    requires e in b.feed && p < |b.payments| && b.payments[p].order < |b.orders|
    ensures PayloadsKept(b, DoWebhook(b, e, p))
  {
  }

  lemma PayloadsByWorker(s: State, a: Action, next: State)
    requires Step(s, a, next) && ByWorker(a)
    ensures PayloadsKept(s.book, next.book)
  {
    if !TouchesBook(a) {
      BookFrame(s, a, next);
    } else if a.Claim? {
      PayloadsByIntents(s.book, DoClaim(s.book, a.intent), a.intent);
    } else if a.DrawSettle? {
      PayloadsByIntents(s.book, DoSettle(s.book, s.draws[a.t].intent), s.draws[a.t].intent);
    } else if a.DrawCommit? {
      PayloadsByIntents(s.book, DoDrawCommit(s, a.t).book, s.draws[a.t].intent);
    }
  }

  lemma BookPayloadsKept(s: State, a: Action, next: State)
    requires Step(s, a, next)
    ensures PayloadsKept(s.book, next.book)
  {
    if !TouchesBook(a) {
      BookFrame(s, a, next);
    } else if ByWorker(a) {
      PayloadsByWorker(s, a, next);
    } else if a.WhCommit? {
      PayloadsByWebhook(s.book, s.whs[a.t].ev, s.whs[a.t].pay);
    }
  }
}
