/** The retry wrapper around the breaker: one caller's loop, and any number of callers interleaved. */
module Retries {
  import opened Breaker

  /** How the wrapped call ends. Cancelled is a cancellation delivered inside it. */
  datatype Ending = Returned | Cancelled | Retryable | Fatal

  datatype Exit = Result | Unavailable | CancelledExit | Error

  // ---- one caller alone

  /** What one attempt will meet: the clock at its start, the ending of the call, the clock when it is recorded. */
  datatype Turn = Turn(at: real, ending: Ending, recordedAt: real)

  datatype Report = Report(exit: Exit, runs: nat, recorded: seq<bool>, view: View)

  /** The specification of the loop from attempt k on, with a permit available whenever one is asked for. */
  function RetryFrom(c: Config, v: View, probes: nat, turns: seq<Turn>, k: nat): Report
    requires k <= |turns|
    decreases |turns| - k
  {
    if k == |turns| then Report(Error, 0, [], v)
    else
      var v1 := Step(c, v, Call(turns[k].at));
      if v1.phase == Open || (v1.phase == HalfOpen && probes == 0) then Report(Unavailable, 0, [], v1)
      else match turns[k].ending {
        case Returned => Report(Result, 1, [true], Step(c, v1, Success))
        case Cancelled => Report(CancelledExit, 1, [], v1)
        case Fatal => Report(Error, 1, [], v1)
        case Retryable =>
          if k + 1 == |turns| then Report(Error, 1, [], v1)
          else
            var rest := RetryFrom(c, Step(c, v1, Failure(turns[k].recordedAt)), probes, turns, k + 1);
            After(1, [false], rest)
      }
  }

  /** A report of the remaining attempts, with what came before it. */
  function After(runs: nat, recorded: seq<bool>, rest: Report): Report {
    rest.(runs := runs + rest.runs, recorded := recorded + rest.recorded)
  }

  lemma AfterFailure(runs: nat, recorded: seq<bool>, rest: Report)
    ensures After(runs, recorded, After(1, [false], rest)) == After(runs + 1, recorded + [false], rest)
  {
    assert recorded + ([false] + rest.recorded) == recorded + [false] + rest.recorded;
  }

  /** The wrapper's loop for a caller that nobody interrupts: turns has one entry for each allowed attempt. */
  method Retry(cb: CircuitBreaker, turns: seq<Turn>) returns (exit: Exit, runs: nat, recorded: seq<bool>)
    requires Sound(cb.Settings())
    modifies cb
    ensures Report(exit, runs, recorded, cb.Current())
            == RetryFrom(cb.Settings(), old(cb.Current()), old(cb.permits), turns, 0)
    ensures Explains(cb.Settings(), old(cb.Current()), old(cb.permits), turns, 0, Report(exit, runs, recorded, cb.Current()))
    ensures cb.permits == old(cb.permits)
  {
    RetryMeaning(cb.Settings(), cb.Current(), cb.permits, turns, 0);
    runs, recorded := 0, [];
    ghost var all := RetryFrom(cb.Settings(), cb.Current(), cb.permits, turns, 0);
    for attempt := 0 to |turns|
      invariant cb.permits == old(cb.permits)
      invariant all == After(runs, recorded, RetryFrom(cb.Settings(), cb.Current(), cb.permits, turns, attempt))
      invariant attempt == |turns| ==> turns == []
    {
      var admitted := cb.BeforeCall(turns[attempt].at);
      if !admitted {
        return Unavailable, runs, recorded;
      }
      var probe := false;
      if cb.phase == HalfOpen {
        probe := cb.AcquireProbe();
        if !probe {
          return Unavailable, runs, recorded;
        }
      }
      runs := runs + 1;
      var ending := turns[attempt].ending;
      if probe {
        cb.ReleaseProbe();
      }
      if ending.Returned? {
        cb.RecordSuccess();
        return Result, runs, recorded + [true];
      }
      if ending.Cancelled? {
        return CancelledExit, runs, recorded;
      }
      if ending.Fatal? || attempt + 1 == |turns| {
        return Error, runs, recorded;
      }
      cb.RecordFailure(turns[attempt].recordedAt);
      AfterFailure(runs - 1, recorded, RetryFrom(cb.Settings(), cb.Current(), cb.permits, turns, attempt + 1));
      recorded := recorded + [false];
    }
    // no attempt allowed: nothing is run, and there is no error to raise but the missing one
    return Error, runs, recorded;
  }

  ghost predicate AllFailures(recorded: seq<bool>) {
    forall i :: 0 <= i < |recorded| ==> !recorded[i]
  }

  /** At most one run an attempt, one recorded failure for each run that is retried, one success only at the end. */
  lemma {:induction false} RetryAccounts(c: Config, v: View, probes: nat, turns: seq<Turn>, k: nat)
    requires k < |turns|
    ensures var r := RetryFrom(c, v, probes, turns, k);
            && r.runs <= |turns| - k
            && (r.exit == Result ==> r.runs >= 1 && |r.recorded| == r.runs && r.recorded[r.runs - 1]
                                     && AllFailures(r.recorded[..r.runs - 1]))
            && (r.exit != Result ==> AllFailures(r.recorded))
            && (r.exit == Unavailable ==> |r.recorded| == r.runs)
            && (r.exit == Error || r.exit == CancelledExit ==> |r.recorded| == r.runs - 1)
    decreases |turns| - k
  {
    if k + 1 < |turns| {
      var v2 := Step(c, Step(c, v, Call(turns[k].at)), Failure(turns[k].recordedAt));
      RetryAccounts(c, v2, probes, turns, k + 1);
      var r, rest := RetryFrom(c, v, probes, turns, k), RetryFrom(c, v2, probes, turns, k + 1);
      if r.recorded == [false] + rest.recorded && rest.exit == Result && r.exit == Result {
        assert r.recorded[..r.runs - 1] == [false] + rest.recorded[..rest.runs - 1];
      }
    }
  }

  ghost predicate OnlyRetried(recorded: seq<bool>, turns: seq<Turn>, k: nat) {
    forall i :: 0 <= i < |recorded| && !recorded[i] ==> k + i + 1 < |turns| && turns[k + i].ending == Retryable
  }

  lemma OneMoreRetried(recorded: seq<bool>, turns: seq<Turn>, k: nat)
    requires k + 1 < |turns| && turns[k].ending == Retryable && OnlyRetried(recorded, turns, k + 1)
    ensures OnlyRetried([false] + recorded, turns, k)
  {
    forall i | 0 <= i < |[false] + recorded| && !([false] + recorded)[i]
      ensures k + i + 1 < |turns| && turns[k + i].ending == Retryable
    {
      assert i > 0 ==> !recorded[i - 1];
    }
  }

  /** A failure is recorded for an attempt only if its error was retryable and another attempt was left. */
  lemma {:induction false} RecordedAreRetried(c: Config, v: View, probes: nat, turns: seq<Turn>, k: nat)
    requires k < |turns|
    ensures OnlyRetried(RetryFrom(c, v, probes, turns, k).recorded, turns, k)
    decreases |turns| - k
  {
    if k + 1 < |turns| && turns[k].ending == Retryable {
      var v2 := Step(c, Step(c, v, Call(turns[k].at)), Failure(turns[k].recordedAt));
      RecordedAreRetried(c, v2, probes, turns, k + 1);
      OneMoreRetried(RetryFrom(c, v2, probes, turns, k + 1).recorded, turns, k);
    }
  }
  // ---- what the attempts and their outcomes say about the exit

  /** The circuit before attempt k + n, if attempts k to k + n - 1 were all let in and retried. */
  function ViewBefore(c: Config, v: View, turns: seq<Turn>, k: nat, n: nat): View
    requires k + n <= |turns|
  {
    if n == 0 then v
    else
      var t := turns[k + n - 1];
      Step(c, Step(c, ViewBefore(c, v, turns, k, n - 1), Call(t.at)), Failure(t.recordedAt))
  }

  lemma {:induction false} ViewShift(c: Config, v: View, turns: seq<Turn>, k: nat, n: nat)
    requires k + n + 1 <= |turns|
    ensures var v2 := Step(c, Step(c, v, Call(turns[k].at)), Failure(turns[k].recordedAt));
            ViewBefore(c, v2, turns, k + 1, n) == ViewBefore(c, v, turns, k, n + 1)
  {
    if n == 0 {
      assert ViewBefore(c, v, turns, k, 0) == v;
    } else {
      ViewShift(c, v, turns, k, n - 1);
    }
  }

  /** A circuit keeps a call out while it is open and too young, and if it is not closed and no probe is free. */
  predicate Refuses(c: Config, v: View, probes: nat, at: real) {
    (v.phase == Open && at < v.openedAt + c.recovery) || (v.phase != Closed && probes == 0)
  }

  /** n attempts in a row are run from k on: every one is let in, and every one but the last ends in a retryable error. */
  ghost predicate RunsFrom(c: Config, v: View, probes: nat, turns: seq<Turn>, k: nat, n: nat) {
    && k + n <= |turns|
    && (forall i :: 0 <= i < n ==> !Refuses(c, ViewBefore(c, v, turns, k, i), probes, turns[k + i].at))
    && (forall i :: k <= i < k + n - 1 ==> turns[i].ending == Retryable)
  }

  /** The attempt before k + n was run and its error may be retried, or k + n is the first. */
  predicate GoesOn(turns: seq<Turn>, k: nat, n: nat)
    requires k + n <= |turns|
  {
    n == 0 || turns[k + n - 1].ending == Retryable
  }

  /** How the last run ended, or that the next attempt was refused, decides the exit. */
  ghost predicate ExitFits(c: Config, v: View, probes: nat, turns: seq<Turn>, k: nat, r: Report)
    requires k + r.runs <= |turns|
  {
    var n := r.runs;
    && (r.exit == Result <==> n > 0 && turns[k + n - 1].ending == Returned)
    && (r.exit == CancelledExit <==> n > 0 && turns[k + n - 1].ending == Cancelled)
    && (r.exit == Error <==> (n > 0 && turns[k + n - 1].ending == Fatal) || (k + n == |turns| && GoesOn(turns, k, n)))
    && (r.exit == Unavailable <==> k + n < |turns| && GoesOn(turns, k, n)
                                   && Refuses(c, ViewBefore(c, v, turns, k, n), probes, turns[k + n].at))
  }

  /** The circuit is left as the last attempt found it, but for a success. */
  ghost predicate ViewFits(c: Config, v: View, turns: seq<Turn>, k: nat, r: Report)
    requires k + r.runs <= |turns| && (r.exit == Unavailable ==> k + r.runs < |turns|)
  {
    var n := r.runs;
    r.view == if r.exit == Unavailable then Step(c, ViewBefore(c, v, turns, k, n), Call(turns[k + n].at))
              else if n == 0 then v
              else var called := Step(c, ViewBefore(c, v, turns, k, n - 1), Call(turns[k + n - 1].at));
                   if r.exit == Result then Step(c, called, Success) else called
  }

  /** What a report says about the attempts from k on: which were run, why it was left at that, and what it did. */
  ghost predicate Explains(c: Config, v: View, probes: nat, turns: seq<Turn>, k: nat, r: Report) {
    && RunsFrom(c, v, probes, turns, k, r.runs)
    && ExitFits(c, v, probes, turns, k, r)
    && ViewFits(c, v, turns, k, r)
    && (r.runs == 0 ==> r.recorded == [])
  }

  lemma OneMoreRun(c: Config, v: View, probes: nat, turns: seq<Turn>, k: nat, n: nat)
    requires k + 1 < |turns| && turns[k].ending == Retryable && !Refuses(c, v, probes, turns[k].at)
    requires var v2 := Step(c, Step(c, v, Call(turns[k].at)), Failure(turns[k].recordedAt));
             RunsFrom(c, v2, probes, turns, k + 1, n)
    ensures RunsFrom(c, v, probes, turns, k, n + 1)
  {
    var v2 := Step(c, Step(c, v, Call(turns[k].at)), Failure(turns[k].recordedAt));
    forall i | 0 <= i < n + 1 ensures !Refuses(c, ViewBefore(c, v, turns, k, i), probes, turns[k + i].at) {
      if i > 0 {
        ViewShift(c, v, turns, k, i - 1);
        assert !Refuses(c, ViewBefore(c, v2, turns, k + 1, i - 1), probes, turns[k + 1 + (i - 1)].at);
      }
    }
  }

  lemma ViewsAfter(c: Config, v: View, turns: seq<Turn>, k: nat, n: nat)
    requires k + 1 + n <= |turns|
    ensures var v2 := Step(c, Step(c, v, Call(turns[k].at)), Failure(turns[k].recordedAt));
            && ViewBefore(c, v2, turns, k + 1, n) == ViewBefore(c, v, turns, k, n + 1)
            && (n > 0 ==> ViewBefore(c, v2, turns, k + 1, n - 1) == ViewBefore(c, v, turns, k, n))
  {
    ViewShift(c, v, turns, k, n);
    if n > 0 {
      ViewShift(c, v, turns, k, n - 1);
    }
  }

  lemma ExitAfter(c: Config, v: View, probes: nat, turns: seq<Turn>, k: nat, rest: Report, v2: View)
    requires k + 1 + rest.runs <= |turns| && turns[k].ending == Retryable
    requires ViewBefore(c, v2, turns, k + 1, rest.runs) == ViewBefore(c, v, turns, k, rest.runs + 1)
    requires ExitFits(c, v2, probes, turns, k + 1, rest)
    ensures ExitFits(c, v, probes, turns, k, After(1, [false], rest))
  {
  }

  lemma ViewAfter(c: Config, v: View, turns: seq<Turn>, k: nat, rest: Report, v2: View)
    requires k + 1 + rest.runs <= |turns| && (rest.exit == Unavailable ==> k + 1 + rest.runs < |turns|)
    requires v2 == Step(c, Step(c, v, Call(turns[k].at)), Failure(turns[k].recordedAt))
    requires rest.runs == 0 ==> rest.exit == Unavailable
    requires ViewFits(c, v2, turns, k + 1, rest)
    ensures ViewFits(c, v, turns, k, After(1, [false], rest))
  {
    ViewsAfter(c, v, turns, k, rest.runs);
  }

  /** One more retried attempt in front. */
  lemma ExplainsAfter(c: Config, v: View, probes: nat, turns: seq<Turn>, k: nat, rest: Report)
    requires k + 1 < |turns| && turns[k].ending == Retryable && !Refuses(c, v, probes, turns[k].at)
    requires Explains(c, Step(c, Step(c, v, Call(turns[k].at)), Failure(turns[k].recordedAt)), probes, turns, k + 1, rest)
    ensures Explains(c, v, probes, turns, k, After(1, [false], rest))
  {
    var v2 := Step(c, Step(c, v, Call(turns[k].at)), Failure(turns[k].recordedAt));
    OneMoreRun(c, v, probes, turns, k, rest.runs);
    ViewsAfter(c, v, turns, k, rest.runs);
    ExitAfter(c, v, probes, turns, k, rest, v2);
    ViewAfter(c, v, turns, k, rest, v2);
  }

  /** Attempts are run until one is refused, ends in anything but a retryable error, or was the last allowed: a result
      comes back exactly if the last run returned, and a retryable error is raised exactly by the last allowed attempt. */
  lemma {:induction false} RetryMeaning(c: Config, v: View, probes: nat, turns: seq<Turn>, k: nat)
    requires k <= |turns|
    ensures Explains(c, v, probes, turns, k, RetryFrom(c, v, probes, turns, k))
    decreases |turns| - k
  {
    if k < |turns| {
      assert ViewBefore(c, v, turns, k, 0) == v;
      if k + 1 < |turns| && turns[k].ending == Retryable && !Refuses(c, v, probes, turns[k].at) {
        var v2 := Step(c, Step(c, v, Call(turns[k].at)), Failure(turns[k].recordedAt));
        RetryMeaning(c, v2, probes, turns, k + 1);
        ExplainsAfter(c, v, probes, turns, k, RetryFrom(c, v2, probes, turns, k + 1));
      }
    }
  }
}
