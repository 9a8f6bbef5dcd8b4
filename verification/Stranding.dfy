/** Which commit intents can still be settled: a worker that crashes after its claim leaves one behind for good. */
module Stranding {
  import opened Payments
  import opened Stock
  import opened Shop
  import opened Rules
  import opened BookInvariants
  import opened FlightInvariants
  import opened ShopTheorems
  import opened SerialRuns

  /** Claimed, and no worker is at it. */
  ghost predicate Stranded(s: State, i: nat) {
    && i < |s.book.intents| && s.book.intents[i].status == Processing
    && forall t :: t in s.draws ==> s.draws[t].intent != i
  }

  lemma StrandedByWorker(s: State, a: Action, next: State, i: nat)
    requires Step(s, a, next) && ByWorker(a) && Stranded(s, i)
    ensures Stranded(next, i) && next.book.intents[i] == s.book.intents[i]
  {
  }

  lemma StrandedStep(s: State, a: Action, next: State, i: nat)
    requires Step(s, a, next) && Stranded(s, i)
    ensures Stranded(next, i) && next.book.intents[i] == s.book.intents[i]
  {
    if ByWorker(a) {
      StrandedByWorker(s, a, next, i);
    } else {
      WorkersFrame(s, a, next);
      if !a.WhCommit? {
        IntentsFrame(s, a, next);
      }
    }
  }

  /** The row of a stranded intent never changes again. */
  lemma {:induction false} StrandedForGood(s: State, run: seq<Action>, i: nat)
    requires Legal(s, run) && Stranded(s, i)
    ensures Stranded(Exec(s, run), i) && Exec(s, run).book.intents[i] == s.book.intents[i]
    decreases |run|
  {
    if run != [] {
      var n := |run| - 1;
      StrandedForGood(s, run[..n], i);
      StrandedStep(Exec(s, run[..n]), run[n], Do(Exec(s, run[..n]), run[n]), i);
    }
  }

  /** A crash strands the intent that the worker had claimed. */
  lemma CrashStrands(s: State, t: nat)
    requires DrawsSound(s.stock, s.book.intents, s.draws) && t in s.draws
    ensures Stranded(DoDrawCrash(s, t), s.draws[t].intent)
  {
    assert DrawSound(s.stock, s.book.intents, s.draws[t]);
  }

  /** So its order is paid for and never drawn, in any continuation. */
  lemma StrandedNeverDrawn(s: State, run: seq<Action>, i: nat)
    requires Inv(s) && Legal(s, run) && Stranded(s, i)
    ensures s.book.intents[i].order < |s.book.payments| && s.book.payments[s.book.intents[i].order].status == CAPTURED
    ensures !IsDrawn(Exec(s, run).book, s.book.intents[i].order)
  {
    StrandedForGood(s, run, i);
    RunKeepsInv(s, run);
    var o := s.book.intents[i].order;
    assert HasIntent(s.book, o);
    assert CapturedTogether(s.book, o);
    assert Exec(s, run).book.intents[i].order == o;
  }

  // ---- all others can be settled

  ghost predicate SettledAt(s: State, i: nat) {
    i < |s.book.intents| && s.book.intents[i].status in {Done, Failed}
  }

  ghost predicate Settles(s: State, run: seq<Action>, i: nat) {
    Legal(s, run) && SettledAt(Exec(s, run), i)
  }

  ghost predicate MaySettle(s: State, i: nat) {
    exists run :: Settles(s, run, i)
  }

  lemma ReachedMaySettle(s0: State, s: State, i: nat)
    requires Reaches(s0, s) && SettledAt(s, i)
    ensures MaySettle(s0, i)
  {
    var run :| Legal(s0, run) && RunKeeps(s0, run, {}) && Exec(s0, run) == s;
    assert Settles(s0, run, i);
  }

  function Failing(s: State, t: nat, i: nat, failing: bool): State
    requires i < |s.book.intents|
  {
    s.(book := DoClaim(s.book, i), draws := s.draws[t := DrawTx(i, 0, Draft(map[], false), failing)])
  }

  lemma FailSteps(s: State, t: nat, i: nat)
    requires t !in s.draws && i < |s.book.intents| && s.book.intents[i].status == Pending
    ensures CanClaim(s, t, i) && DoClaiming(s, t, i) == Failing(s, t, i, false)
    ensures CanDrawRollback(Failing(s, t, i, false), t)
    ensures DoDrawRollback(Failing(s, t, i, false), t) == Failing(s, t, i, true)
  {
  }

  lemma FailEnds(s: State, t: nat, i: nat)
    requires t !in s.draws && i < |s.book.intents|
    ensures CanDrawSettle(Failing(s, t, i, true), t)
    ensures DoDrawSettle(Failing(s, t, i, true), t) == s.(book := DoSettle(DoClaim(s.book, i), i))
  {
    assert s.draws[t := Failing(s, t, i, true).draws[t]] - {t} == s.draws;
  }

  /** One more failed delivery, whatever is locked. */
  lemma FailOnce(s0: State, s: State, i: nat)
    requires Reaches(s0, s) && i < |s.book.intents| && s.book.intents[i].status == Pending
    ensures Reaches(s0, s.(book := DoSettle(DoClaim(s.book, i), i)))
  {
    var t := Above(s.draws.Keys);
    FailSteps(s, t, i);
    FailEnds(s, t, i);
    TakesClaim(s0, s, t, i, Failing(s, t, i, false), {});
    TakesDrawRollback(s0, Failing(s, t, i, false), t, Failing(s, t, i, true), {});
    TakesDrawSettle(s0, Failing(s, t, i, true), t, s.(book := DoSettle(DoClaim(s.book, i), i)), {});
  }

  lemma FailureCounts(b: Book, i: nat)
    requires i < |b.intents| && AttemptsInv(b.intents[i]) && b.intents[i].status == Pending
    ensures var it := DoSettle(DoClaim(b, i), i).intents[i];
            it.status == Failed || (it.status == Pending && MAX_ATTEMPTS > it.attempts > b.intents[i].attempts)
  {
  }

  lemma ReachedCounts(s0: State, s: State, i: nat)
    requires Inv(s0) && Reaches(s0, s) && i < |s.book.intents|
    ensures AttemptsInv(s.book.intents[i])
  {
    ReachesKeepsInv(s0, s, {});
  }

  /** A pending intent is settled by failing often enough, if nothing better happens to it. */
  lemma {:induction false} PendingSettles(s0: State, s: State, i: nat)
    requires Inv(s0) && Reaches(s0, s) && i < |s.book.intents| && s.book.intents[i].status == Pending
    ensures MaySettle(s0, i)
    decreases MAX_ATTEMPTS - s.book.intents[i].attempts
  {
    ReachedCounts(s0, s, i);
    FailureCounts(s.book, i);
    FailOnce(s0, s, i);
    var u := s.(book := DoSettle(DoClaim(s.book, i), i));
    if u.book.intents[i].status == Pending {
      PendingSettles(s0, u, i);
    } else {
      ReachedMaySettle(s0, u, i);
    }
  }

  lemma SettleStep(s: State, t: nat)
    requires t in s.draws && s.draws[t].failing && s.draws[t].intent < |s.book.intents|
    ensures var i, u := s.draws[t].intent, DoDrawSettle(s, t);
            i < |u.book.intents| && (u.book.intents[i].status == Pending || SettledAt(u, i))
  {
  }

  lemma WorkerSettles(s0: State, s: State, t: nat)
    requires Inv(s0) && Reaches(s0, s) && t in s.draws && s.draws[t].failing && s.draws[t].intent < |s.book.intents|
    ensures MaySettle(s0, s.draws[t].intent)
  {
    var i, u := s.draws[t].intent, DoDrawSettle(s, t);
    TakesDrawSettle(s0, s, t, u, {});
    SettleStep(s, t);
    if u.book.intents[i].status == Pending {
      PendingSettles(s0, u, i);
    } else {
      ReachedMaySettle(s0, u, i);
    }
  }

  lemma StrandedNeverSettles(s: State, run: seq<Action>, i: nat)
    requires Stranded(s, i)
    ensures !Settles(s, run, i)
  {
    if Legal(s, run) {
      StrandedForGood(s, run, i);
    }
  }

  lemma ClaimedSettles(s: State, t: nat)
    requires Inv(s) && t in s.draws && s.draws[t].intent < |s.book.intents|
    ensures MaySettle(s, s.draws[t].intent)
  {
    ReachesSelf(s, {});
    if s.draws[t].failing {
      WorkerSettles(s, s, t);
    } else {
      var u := DoDrawRollback(s, t);
      TakesDrawRollback(s, s, t, u, {});
      WorkerSettles(s, u, t);
    }
  }

  /** An intent can be settled by some continuation if and only if it is not stranded. */
  lemma SettlesExactly(s: State, i: nat)
    requires Inv(s) && i < |s.book.intents|
    ensures MaySettle(s, i) <==> !Stranded(s, i)
  {
    ReachesSelf(s, {});
    if Stranded(s, i) {
      forall run ensures !Settles(s, run, i) {
        StrandedNeverSettles(s, run, i);
      }
    } else if s.book.intents[i].status == Pending {
      PendingSettles(s, s, i);
    } else if s.book.intents[i].status == Processing {
      var t :| t in s.draws && s.draws[t].intent == i;
      ClaimedSettles(s, t);
    } else {
      ReachedMaySettle(s, s, i);
    }
  }
}
