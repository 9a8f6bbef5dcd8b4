/** When the order of a commit intent can still be drawn, over every continuation of any state. */
module Drawing {
  import opened Amounts
  import opened Stock
  import opened Shop
  import opened Rules
  import opened BookInvariants
  import opened FlightInvariants
  import opened ShopTheorems
  import opened SerialRuns

  ghost predicate Draws(s: State, run: seq<Action>, i: nat) {
    Legal(s, run) && i < |Exec(s, run).book.intents| && Exec(s, run).book.intents[i].status == Done
  }

  /** Some continuation draws the intent's order. */
  ghost predicate MayDraw(s: State, i: nat) {
    exists run :: Draws(s, run, i)
  }

  /** A worker has met no shortage, and what its draft leaves of each row it locked covers the lines still to come. */
  ghost predicate CanFinish(intents: seq<Intent>, x: DrawTx) {
    && x.intent < |intents| && x.done <= |intents[x.intent].items| && !x.failing && !x.draft.failed
    && forall pid :: pid in x.draft.writes ==> x.draft.writes[pid] >= Demand(intents[x.intent].items[x.done..], pid)
  }

  /** Its claim failed for good, or is the last one and its worker is gone or bound to fail. */
  ghost predicate Lost(intents: seq<Intent>, draws: map<nat, DrawTx>, i: nat) {
    && i < |intents|
    && (intents[i].status == Failed ||
        (intents[i].status == Processing &&
         forall t :: t in draws && draws[t].intent == i ==> intents[i].failures >= 2 && !CanFinish(intents, draws[t])))
  }

  lemma {:induction false} DemandCons(it: Item, rest: seq<Item>, pid: nat)
    ensures Demand([it] + rest, pid) == (if it.pid == pid then it.qty else 0) + Demand(rest, pid)
  {
    if rest == [] {
      assert [it] + rest == [it] && [it][..0] == [];
    } else {
      var n := |rest| - 1;
      assert ([it] + rest)[..|rest|] == [it] + rest[..n];
      DemandCons(it, rest[..n], pid);
    }
  }

  lemma DemandFrom(items: seq<Item>, k: nat, pid: nat)
    requires k < |items|
    ensures Demand(items[k..], pid) == (if items[k].pid == pid then items[k].qty else 0) + Demand(items[k + 1..], pid)
  {
    assert items[k..] == [items[k]] + items[k + 1..];
    DemandCons(items[k], items[k + 1..], pid);
  }

  // ---- a lost cause stays one

  lemma LostByNext(s: State, t: nat, i: nat)
    requires DrawsSound(s.stock, s.book.intents, s.draws) && CanDrawNext(s, t) && Lost(s.book.intents, s.draws, i)
    ensures Lost(s.book.intents, DoDrawNext(s, t).draws, i)
  {
    var x, y := s.draws[t], DoDrawNext(s, t).draws[t];
    var items := s.book.intents[x.intent].items;
    if x.intent == i && CanFinish(s.book.intents, y) {
      var it := items[x.done];
      DrawRowsExact(s.stock, items[..x.done]);
      forall pid | pid in x.draft.writes ensures x.draft.writes[pid] >= Demand(items[x.done..], pid) {
        DemandFrom(items, x.done, pid);
      }
      assert CanFinish(s.book.intents, x);
      assert false;
    }
  }

  /** Its worker cannot commit: with no line to come every draft without a shortage could. */
  lemma LostCannotCommit(s: State, t: nat, i: nat)
    requires DrawsSound(s.stock, s.book.intents, s.draws) && CanDrawCommit(s, t) && Lost(s.book.intents, s.draws, i)
    ensures s.draws[t].intent != i
  {
    var x := s.draws[t];
    var items := s.book.intents[x.intent].items;
    assert DrawSound(s.stock, s.book.intents, x);
    assert items[..x.done] == items && items[x.done..] == [];
    DrawRowsExact(s.stock, items);
    assert CanFinish(s.book.intents, x);
  }

  lemma LostByEnd(intents: seq<Intent>, later: seq<Intent>, draws: map<nat, DrawTx>, t: nat, i: nat)
    requires Lost(intents, draws, i) && |later| == |intents| && later[i] == intents[i]
    requires forall j :: 0 <= j < |intents| ==> later[j].items == intents[j].items
    ensures Lost(later, draws - {t}, i)
  {
  }

  lemma LostBySettle(s: State, t: nat, i: nat)
    requires DrawsSound(s.stock, s.book.intents, s.draws) && IntentsInv(s.book) && CanDrawSettle(s, t)
    requires Lost(s.book.intents, s.draws, i)
    ensures Lost(DoSettle(s.book, s.draws[t].intent).intents, s.draws - {t}, i)
  {
    assert DrawSound(s.stock, s.book.intents, s.draws[t]);
    assert AttemptsInv(s.book.intents[i]);
    if s.draws[t].intent != i {
      LostByEnd(s.book.intents, DoSettle(s.book, s.draws[t].intent).intents, s.draws, t, i);
    }
  }

  lemma LostByCommit(s: State, t: nat, i: nat)
    requires DrawsSound(s.stock, s.book.intents, s.draws) && CanDrawCommit(s, t) && Lost(s.book.intents, s.draws, i)
    ensures Lost(DoDrawCommit(s, t).book.intents, s.draws - {t}, i)
  {
    LostCannotCommit(s, t, i);
    LostByEnd(s.book.intents, DoDrawCommit(s, t).book.intents, s.draws, t, i);
  }

  lemma LostByClaim(s: State, t: nat, j: nat, i: nat)
    requires CanClaim(s, t, j) && Lost(s.book.intents, s.draws, i)
    ensures Lost(DoClaim(s.book, j).intents, DoClaiming(s, t, j).draws, i)
  {
    var later, draws := DoClaim(s.book, j).intents, DoClaiming(s, t, j).draws;
    forall u | u in draws && draws[u].intent == i && later[i].status == Processing
      ensures later[i].failures >= 2 && !CanFinish(later, draws[u])
    {
      assert u != t;
      assert !CanFinish(s.book.intents, s.draws[u]);
    }
  }

  lemma LostByRollback(intents: seq<Intent>, draws: map<nat, DrawTx>, t: nat, i: nat)
    requires Lost(intents, draws, i) && t in draws
    ensures Lost(intents, draws[t := draws[t].(failing := true)], i)
  {
  }

  /** Another intent's row at most, or a new one. */
  lemma LostByWebhook(intents: seq<Intent>, later: seq<Intent>, draws: map<nat, DrawTx>, i: nat)
    requires Lost(intents, draws, i) && intents <= later
    requires forall t :: t in draws ==> draws[t].intent < |intents|
    ensures Lost(later, draws, i)
  {
  }

  lemma LostByProgress(s: State, a: Action, next: State, i: nat)
    requires DrawsSound(s.stock, s.book.intents, s.draws) && Lost(s.book.intents, s.draws, i)
    requires Step(s, a, next) && (a.Claim? || a.DrawNext? || a.DrawCommit?)
    ensures Lost(next.book.intents, next.draws, i)
  {
    if a.Claim? {
      LostByClaim(s, a.t, a.intent, i);
    } else if a.DrawNext? {
      LostByNext(s, a.t, i);
    } else {
      LostByCommit(s, a.t, i);
    }
  }

  lemma LostByFailure(s: State, a: Action, next: State, i: nat)
    requires DrawsSound(s.stock, s.book.intents, s.draws) && IntentsInv(s.book) && Lost(s.book.intents, s.draws, i)
    requires Step(s, a, next) && (a.DrawRollback? || a.DrawSettle? || a.DrawCrash?)
    ensures Lost(next.book.intents, next.draws, i)
  {
    if a.DrawRollback? {
      LostByRollback(s.book.intents, s.draws, a.t, i);
    } else if a.DrawSettle? {
      LostBySettle(s, a.t, i);
    } else {
      LostByEnd(s.book.intents, s.book.intents, s.draws, a.t, i);
    }
  }

  lemma LostStep(s: State, a: Action, next: State, i: nat)
    requires DrawsSound(s.stock, s.book.intents, s.draws) && IntentsInv(s.book) && Lost(s.book.intents, s.draws, i)
    requires Step(s, a, next)
    ensures Lost(next.book.intents, next.draws, i)
  {
    if a.Claim? || a.DrawNext? || a.DrawCommit? {
      LostByProgress(s, a, next, i);
    } else if ByWorker(a) {
      LostByFailure(s, a, next, i);
    } else {
      WorkersFrame(s, a, next);
      if a.WhCommit? {
        LostByWebhook(s.book.intents, next.book.intents, s.draws, i);
      } else {
        IntentsFrame(s, a, next);
      }
    }
  }

  lemma {:induction false} LostForGood(s: State, run: seq<Action>, i: nat)
    requires Inv(s) && Legal(s, run) && Lost(s.book.intents, s.draws, i)
    ensures Lost(Exec(s, run).book.intents, Exec(s, run).draws, i)
    decreases |run|
  {
    if run != [] {
      var n := |run| - 1;
      LostForGood(s, run[..n], i);
      RunKeepsInv(s, run[..n]);
      LostStep(Exec(s, run[..n]), run[n], Exec(s, run), i);
    }
  }

  // ---- everything else can be drawn

  ghost predicate Only(s: State, t: nat) {
    s.sums == map[] && s.draws.Keys == {t} && CanFinish(s.book.intents, s.draws[t])
  }

  lemma ReachedMayDraw(s0: State, s: State, i: nat)
    requires Reaches(s0, s) && i < |s.book.intents| && s.book.intents[i].status == Done
    ensures MayDraw(s0, i)
  {
    var run :| Legal(s0, run) && RunKeeps(s0, run, {}) && Exec(s0, run) == s;
    assert Draws(s0, run, i);
  }

  /** A row without a write of its own is not locked by it. */
  lemma Unlocked(s: State, t: nat)
    requires DrawsSound(s.stock, s.book.intents, s.draws) && Only(s, t)
    requires s.draws[t].done < |s.book.intents[s.draws[t].intent].items|
    ensures var x := s.draws[t]; var pid := s.book.intents[x.intent].items[x.done].pid;
            if pid in x.draft.writes then pid in s.stock else CanSetStock(s, pid)
  {
    var x := s.draws[t];
    var items := s.book.intents[x.intent].items;
    assert DrawSound(s.stock, s.book.intents, x);
    DrawRowsExact(s.stock, items[..x.done]);
  }

  lemma UnlockedReached(s0: State, s: State, t: nat)
    requires Inv(s0) && Reaches(s0, s) && Only(s, t) && s.draws[t].done < |s.book.intents[s.draws[t].intent].items|
    ensures var x := s.draws[t]; var pid := s.book.intents[x.intent].items[x.done].pid;
            if pid in x.draft.writes then pid in s.stock else CanSetStock(s, pid)
  {
    ReachesKeepsInv(s0, s, {});
    Unlocked(s, t);
  }

  lemma NextEnabled(s: State, t: nat)
    requires Only(s, t) && s.draws[t].done < |s.book.intents[s.draws[t].intent].items|
    requires s.book.intents[s.draws[t].intent].items[s.draws[t].done].pid in s.stock
    ensures CanDrawNext(s, t)
  {
  }

  /** The row the worker comes to: its own draft covers the line, or an operator sees to it. */
  lemma Supplied(s0: State, s: State, t: nat) returns (u: State)
    requires Inv(s0) && Reaches(s0, s) && Only(s, t) && s.draws[t].done < |s.book.intents[s.draws[t].intent].items|
    ensures Reaches(s0, u) && Only(u, t) && u.draws == s.draws && u.book == s.book && CanDrawNext(u, t)
    ensures var x := s.draws[t]; var items := s.book.intents[x.intent].items; var pid := items[x.done].pid;
            pid in u.stock && Current(u.stock, x.draft.writes, pid) >= Demand(items[x.done..], pid)
  {
    UnlockedReached(s0, s, t);
    var x := s.draws[t];
    var items := s.book.intents[x.intent].items;
    var pid := items[x.done].pid;
    if pid in x.draft.writes {
      u := s;
    } else {
      u := DoSetStock(s, pid, Demand(items[x.done..], pid));
      TakesSetStock(s0, s, pid, Demand(items[x.done..], pid), u, {});
    }
    NextEnabled(u, t);
  }

  lemma NextFinishes(stock: Shelf, intents: seq<Intent>, x: DrawTx)
    requires CanFinish(intents, x) && x.done < |intents[x.intent].items|
    requires var items := intents[x.intent].items; var pid := items[x.done].pid;
             pid in stock && Current(stock, x.draft.writes, pid) >= Demand(items[x.done..], pid)
    ensures CanFinish(intents, x.(done := x.done + 1, draft := DrawRow(stock, x.draft, intents[x.intent].items[x.done])))
  {
    var items := intents[x.intent].items;
    var y := x.(done := x.done + 1, draft := DrawRow(stock, x.draft, items[x.done]));
    DemandFrom(items, x.done, items[x.done].pid);
    forall pid | pid in y.draft.writes ensures y.draft.writes[pid] >= Demand(items[y.done..], pid) {
      DemandFrom(items, x.done, pid);
    }
  }

  lemma FinishedDraws(s0: State, s: State, t: nat)
    requires Reaches(s0, s) && Only(s, t) && s.draws[t].done == |s.book.intents[s.draws[t].intent].items|
    ensures MayDraw(s0, s.draws[t].intent)
  {
    var u := DoDrawCommit(s, t);
    TakesDrawCommit(s0, s, t, u, {});
    ReachedMayDraw(s0, u, s.draws[t].intent);
  }

  /** One line more. */
  lemma OneMoreFinishes(s0: State, s: State, t: nat) returns (v: State)
    requires Inv(s0) && Reaches(s0, s) && Only(s, t) && s.draws[t].done < |s.book.intents[s.draws[t].intent].items|
    ensures Reaches(s0, v) && Only(v, t) && v.book == s.book
    ensures v.draws[t].intent == s.draws[t].intent && v.draws[t].done == s.draws[t].done + 1
  {
    var u := Supplied(s0, s, t);
    v := DoDrawNext(u, t);
    TakesDrawNext(s0, u, t, v, {});
    NextStaysOnly(u, t);
  }

  lemma NextStaysOnly(u: State, t: nat)
    requires Only(u, t) && CanDrawNext(u, t)
    requires var x := u.draws[t]; var items := u.book.intents[x.intent].items; var pid := items[x.done].pid;
             Current(u.stock, x.draft.writes, pid) >= Demand(items[x.done..], pid)
    ensures Only(DoDrawNext(u, t), t)
  {
    NextFinishes(u.stock, u.book.intents, u.draws[t]);
  }

  lemma {:induction false} WorkerFinishes(s0: State, s: State, t: nat)
    requires Inv(s0) && Reaches(s0, s) && Only(s, t)
    ensures MayDraw(s0, s.draws[t].intent)
    decreases |s.book.intents[s.draws[t].intent].items| - s.draws[t].done
  {
    if s.draws[t].done == |s.book.intents[s.draws[t].intent].items| {
      FinishedDraws(s0, s, t);
    } else {
      var v := OneMoreFinishes(s0, s, t);
      WorkerFinishes(s0, v, t);
    }
  }

  lemma ClaimCanFinish(s: State, i: nat)
    requires i < |s.book.intents|
    ensures CanFinish(DoClaim(s.book, i).intents, DrawTx(i, 0, Draft(map[], false), false))
  {
  }

  /** Every other request given up. */
  function Alone(s: State, keep: nat): State {
    s.(sums := map[], draws := KeptDraws(s.draws, keep))
  }

  lemma AloneReached(s0: State, s: State, keep: nat)
    requires Reaches(s0, s)
    ensures Reaches(s0, Alone(s, keep))
  {
    DropSums(s0, s);
    DropDraws(s0, s.(sums := map[]), keep);
  }

  lemma PendingDraws(s0: State, s: State, i: nat)
    requires Inv(s0) && Reaches(s0, s) && i < |s.book.intents| && s.book.intents[i].status == Pending
    ensures MayDraw(s0, i)
  {
    var t := Above(s.draws.Keys);
    AloneReached(s0, s, t);
    var v, w := Alone(s, t), DoClaiming(Alone(s, t), t, i);
    TakesClaim(s0, v, t, i, w, {});
    ClaimCanFinish(v, i);
    WorkerFinishes(s0, w, t);
  }

  lemma AloneIsOnly(s: State, t: nat)
    requires t in s.draws && CanFinish(s.book.intents, s.draws[t])
    ensures Only(Alone(s, t), t) && Alone(s, t).draws[t] == s.draws[t]
  {
  }

  lemma WorkerDraws(s: State, t: nat)
    requires Inv(s) && t in s.draws && CanFinish(s.book.intents, s.draws[t])
    ensures MayDraw(s, s.draws[t].intent)
  {
    ReachesSelf(s, {});
    AloneReached(s, s, t);
    AloneIsOnly(s, t);
    WorkerFinishes(s, Alone(s, t), t);
  }

  lemma RetryLeft(b: Book, i: nat)
    requires i < |b.intents| && AttemptsInv(b.intents[i]) && b.intents[i].status == Processing && b.intents[i].failures < 2
    ensures DoSettle(b, i).intents[i].status == Pending
  {
  }

  lemma FailedWorkerDraws(s0: State, s: State, t: nat)
    requires Inv(s0) && Reaches(s0, s) && t in s.draws && s.draws[t].failing && s.draws[t].intent < |s.book.intents|
    requires s.book.intents[s.draws[t].intent].failures < 2
    ensures MayDraw(s0, s.draws[t].intent)
  {
    ReachesKeepsInv(s0, s, {});
    var i, u := s.draws[t].intent, DoDrawSettle(s, t);
    assert DrawSound(s.stock, s.book.intents, s.draws[t]);
    RetryLeft(s.book, i);
    TakesDrawSettle(s0, s, t, u, {});
    PendingDraws(s0, u, i);
  }

  lemma RetriedWorkerDraws(s: State, t: nat)
    requires Inv(s) && t in s.draws && s.draws[t].intent < |s.book.intents| && s.book.intents[s.draws[t].intent].failures < 2
    ensures MayDraw(s, s.draws[t].intent)
  {
    ReachesSelf(s, {});
    if s.draws[t].failing {
      FailedWorkerDraws(s, s, t);
    } else {
      var u := DoDrawRollback(s, t);
      TakesDrawRollback(s, s, t, u, {});
      FailedWorkerDraws(s, u, t);
    }
  }

  lemma LostNeverDraws(s: State, run: seq<Action>, i: nat)
    requires Inv(s) && Lost(s.book.intents, s.draws, i)
    ensures !Draws(s, run, i)
  {
    if Legal(s, run) {
      LostForGood(s, run, i);
    }
  }

  lemma ClaimedDraws(s: State, i: nat)
    requires Inv(s) && i < |s.book.intents| && s.book.intents[i].status == Processing && !Lost(s.book.intents, s.draws, i)
    ensures MayDraw(s, i)
  {
    var t :| t in s.draws && s.draws[t].intent == i
             && (s.book.intents[i].failures < 2 || CanFinish(s.book.intents, s.draws[t]));
    if s.book.intents[i].failures < 2 {
      RetriedWorkerDraws(s, t);
    } else {
      WorkerDraws(s, t);
    }
  }

  /** An order can be drawn by some continuation if and only if its intent is not lost: FAILED, or claimed with its worker
      gone, or claimed for the last time by a worker that is rolled back, short, or bound to be. */
  lemma DrawsExactly(s: State, i: nat)
    requires Inv(s) && i < |s.book.intents|
    ensures MayDraw(s, i) <==> !Lost(s.book.intents, s.draws, i)
  {
    if Lost(s.book.intents, s.draws, i) {
      forall run ensures !Draws(s, run, i) {
        LostNeverDraws(s, run, i);
      }
    } else {
      ReachesSelf(s, {});
      match s.book.intents[i].status
      case Pending => PendingDraws(s, s, i);
      case Done => ReachedMayDraw(s, s, i);
      case Processing => ClaimedDraws(s, i);
    }
  }

  /** With nothing in flight: exactly the pending and the done ones. */
  lemma QuietDrawsExactly(s: State, i: nat)
    requires Inv(s) && Quiet(s) && i < |s.book.intents|
    ensures MayDraw(s, i) <==> s.book.intents[i].status in {Pending, Done}
  {
    DrawsExactly(s, i);
  }
}
