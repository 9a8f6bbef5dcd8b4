/** Any number of retrying callers on one breaker, interleaved at every await. */
module Probes {
  import opened Breaker
  import opened Retries

  /** Where a caller is: before an attempt, waiting for a probe permit, inside the wrapped call, about to
      record an outcome, or gone. */
  datatype Place = Starting | Waiting | Running(probe: bool) | Recording(success: bool) | Gone(exit: Exit)

  /** attempt counts from 1; runs and failures are history. */
  datatype Caller = Caller(place: Place, attempt: nat, runs: nat, failures: nat, successes: nat)

  datatype System = System(config: Config, attempts: nat, probes: nat, view: View, permits: nat, callers: map<nat, Caller>)

  datatype Move =
    | Arrive(id: nat)
    | Ask(id: nat, now: real)
    | Acquire(id: nat)
    | GiveUp(id: nat)
    | Finish(id: nat, ending: Ending)
    | Record(id: nat, now: real)

  ghost predicate Init(s: System) {
    Sound(s.config) && s.attempts >= 1 && s.view == START && s.permits == s.probes && s.callers == map[]
  }

  predicate At(s: System, id: nat, place: Place) {
    id in s.callers && s.callers[id].place == place
  }

  predicate Enabled(s: System, m: Move) {
    match m
    case Arrive(id) => id !in s.callers
    case Ask(id, now) => At(s, id, Starting)
    case Acquire(id) => At(s, id, Waiting) && s.permits > 0
    case GiveUp(id) => At(s, id, Waiting)
    case Finish(id, ending) => id in s.callers && s.callers[id].place.Running?
    case Record(id, now) => id in s.callers && s.callers[id].place.Recording?
  }

  function Do(s: System, m: Move): System
    requires Enabled(s, m)
  {
    match m
    case Arrive(id) => s.(callers := s.callers[id := Caller(Starting, 1, 0, 0, 0)])
    case Ask(id, now) =>
      // before_call and the test of the state run without an await between them
      var x := s.callers[id];
      var v := Step(s.config, s.view, Call(now));
      var y := match v.phase {
                 case Open => x.(place := Gone(Unavailable))
                 case HalfOpen => x.(place := Waiting)
                 case Closed => x.(place := Running(false), runs := x.runs + 1)
               };
      s.(view := v, callers := s.callers[id := y])
    case Acquire(id) =>
      var x := s.callers[id];
      s.(permits := s.permits - 1, callers := s.callers[id := x.(place := Running(true), runs := x.runs + 1)])
    case GiveUp(id) => s.(callers := s.callers[id := s.callers[id].(place := Gone(Unavailable))])
    case Finish(id, ending) =>
      // the permit goes back before anything else is awaited
      var x := s.callers[id];
      var next := match ending {
                    case Returned => Recording(true)
                    case Cancelled => Gone(CancelledExit)
                    case Fatal => Gone(Error)
                    case Retryable => if x.attempt >= s.attempts then Gone(Error) else Recording(false)
                  };
      s.(permits := s.permits + if x.place.probe then 1 else 0, callers := s.callers[id := x.(place := next)])
    case Record(id, now) =>
      var x := s.callers[id];
      if x.place.success then
        s.(view := Step(s.config, s.view, Success),
           callers := s.callers[id := x.(place := Gone(Result), successes := x.successes + 1)])
      else
        s.(view := Step(s.config, s.view, Failure(now)),
           callers := s.callers[id := x.(place := Starting, attempt := x.attempt + 1, failures := x.failures + 1)])
  }

  /** The callers admitted in HALF_OPEN whose call is in flight. */
  function Probing(s: System): set<nat> {
    set id | id in s.callers && s.callers[id].place == Running(true)
  }

  /** Each finished attempt but the last was retried and recorded as one failure. */
  ghost predicate Accounted(x: Caller, attempts: nat) {
    && 1 <= x.attempt <= attempts && x.failures == x.attempt - 1
    && match x.place {
         case Starting => x.runs == x.attempt - 1 && x.successes == 0
         case Waiting => x.runs == x.attempt - 1 && x.successes == 0
         case Running(_) => x.runs == x.attempt && x.successes == 0
         case Recording(success) => x.runs == x.attempt && x.successes == 0 && (!success ==> x.attempt < attempts)
         case Gone(exit) =>
           && x.runs == (if exit == Unavailable then x.attempt - 1 else x.attempt)
           && x.successes == if exit == Result then 1 else 0
       }
  }

  ghost predicate Inv(s: System) {
    && s.attempts >= 1 && s.permits + |Probing(s)| == s.probes
    && forall id :: id in s.callers ==> Accounted(s.callers[id], s.attempts)
  }

  lemma ProbingMoves(s: System, m: Move)
    requires Enabled(s, m)
    ensures Probing(Do(s, m)) ==
            if m.Acquire? then Probing(s) + {m.id}
            else if m.Finish? then Probing(s) - {m.id}
            else Probing(s)
  {
    var s' := Do(s, m);
    forall id ensures id in Probing(s') <==>
                        if m.Acquire? then id in Probing(s) + {m.id} else if m.Finish? then id in Probing(s) - {m.id} else id in Probing(s) {
      if id != m.id {
        assert id in s'.callers <==> id in s.callers;
      }
    }
  }

  lemma AccountsKept(s: System, m: Move)
    requires Inv(s) && Enabled(s, m)
    ensures forall id :: id in Do(s, m).callers ==> Accounted(Do(s, m).callers[id], s.attempts)
  {
    if !m.Arrive? {
      assert Accounted(s.callers[m.id], s.attempts);
    }
  }

  lemma InvKept(s: System, m: Move)
    requires Inv(s) && Enabled(s, m)
    ensures Inv(Do(s, m)) && Do(s, m).probes == s.probes && Do(s, m).attempts == s.attempts
  {
    AccountsKept(s, m);
    ProbingMoves(s, m);
    if m.Acquire? {
      assert m.id !in Probing(s);
    } else if m.Finish? {
      assert m.id in Probing(s) <==> s.callers[m.id].place.probe;
    }
  }

  ghost predicate Legal(s: System, run: seq<Move>)
    decreases |run|, 0
  {
    run == [] || (Legal(s, run[..|run| - 1]) && Enabled(Exec(s, run[..|run| - 1]), run[|run| - 1]))
  }

  ghost function Exec(s: System, run: seq<Move>): System
    requires Legal(s, run)
    decreases |run|, 1
  {
    if run == [] then s else Do(Exec(s, run[..|run| - 1]), run[|run| - 1])
  }

  lemma {:induction false} InvHolds(s: System, run: seq<Move>)
    requires Init(s) && Legal(s, run)
    ensures Inv(Exec(s, run)) && Exec(s, run).probes == s.probes && Exec(s, run).attempts == s.attempts
    decreases |run|
  {
    if run == [] {
      assert Probing(s) == {};
    } else {
      InvHolds(s, run[..|run| - 1]);
      InvKept(Exec(s, run[..|run| - 1]), run[|run| - 1]);
    }
  }

  /** In every run: never more probes in flight than permits exist, no caller runs more than attempts times,
      and a caller's recorded failures are exactly its retried attempts. */
  lemma ProbesBounded(s: System, run: seq<Move>)
    requires Init(s) && Legal(s, run)
    ensures var t := Exec(s, run);
            && |Probing(t)| <= s.probes
            && forall id :: id in t.callers ==>
                 && t.callers[id].runs <= s.attempts
                 && t.callers[id].failures == t.callers[id].attempt - 1
                 && (t.callers[id].place == Gone(Result) <==> t.callers[id].successes == 1)
  {
    InvHolds(s, run);
  }

  /** When every caller has left, by whatever exit, every permit is back. */
  lemma PermitsReturn(s: System, run: seq<Move>)
    requires Init(s) && Legal(s, run)
    requires forall id :: id in Exec(s, run).callers ==> Exec(s, run).callers[id].place.Gone?
    ensures Exec(s, run).permits == s.probes
  {
    InvHolds(s, run);
    assert Probing(Exec(s, run)) == {};
  }
  // ---- a caller that nobody interrupts

  /** The moves of one attempt of a caller that is alone. */
  function AttemptMoves(s: System, id: nat, turn: Turn, last: bool): seq<Move> {
    var asked := Step(s.config, s.view, Call(turn.at)).phase;
    if asked == Open then [Ask(id, turn.at)]
    else if asked == HalfOpen && s.permits == 0 then [Ask(id, turn.at), GiveUp(id)]
    else
      [Ask(id, turn.at)] + (if asked == HalfOpen then [Acquire(id)] else [])
      + [Finish(id, turn.ending)] + (if turn.ending == Returned || (turn.ending == Retryable && !last) then [Record(id, turn.recordedAt)] else [])
  }

  /** The same system, with another view and another state of one caller. */
  function With(s: System, v: View, id: nat, x: Caller): System {
    s.(view := v, callers := s.callers[id := x])
  }

  lemma {:induction false} ThenMove(s: System, run: seq<Move>, m: Move)
    requires Legal(s, run) && Enabled(Exec(s, run), m)
    ensures Legal(s, run + [m]) && Exec(s, run + [m]) == Do(Exec(s, run), m)
  {
    assert (run + [m])[..|run|] == run;
  }

  lemma {:induction false} ThenRun(s: System, run: seq<Move>, more: seq<Move>)
    requires Legal(s, run) && Legal(Exec(s, run), more)
    ensures Legal(s, run + more) && Exec(s, run + more) == Exec(Exec(s, run), more)
    decreases |more|
  {
    if more == [] {
      assert run + more == run;
    } else {
      var n := |more| - 1;
      ThenRun(s, run, more[..n]);
      ThenMove(s, run + more[..n], more[n]);
      assert run + more == run + more[..n] + [more[n]];
    }
  }

  /** Asking, and taking a permit if the circuit is half-open. */
  lemma {:induction false} AskedAlone(s: System, id: nat, at: real)
    requires At(s, id, Starting)
    ensures var x, v := s.callers[id], Step(s.config, s.view, Call(at));
            var probe := v.phase == HalfOpen;
            && Legal(s, [Ask(id, at)])
            && (v.phase == Open ==> Exec(s, [Ask(id, at)]) == With(s, v, id, x.(place := Gone(Unavailable))))
            && (probe && s.permits == 0 ==>
                  && Legal(s, [Ask(id, at), GiveUp(id)])
                  && Exec(s, [Ask(id, at), GiveUp(id)]) == With(s, v, id, x.(place := Gone(Unavailable))))
            && (v.phase != Open && (probe ==> s.permits > 0) ==>
                  var run := [Ask(id, at)] + if probe then [Acquire(id)] else [];
                  Legal(s, run) && Exec(s, run) == Calling(s, v, id))
  {
    var v := Step(s.config, s.view, Call(at));
    assert Legal(s, []) && Exec(s, []) == s;
    ThenMove(s, [], Ask(id, at));
    assert [] + [Ask(id, at)] == [Ask(id, at)];
    if v.phase == HalfOpen {
      var u := Exec(s, [Ask(id, at)]);
      if s.permits == 0 {
        ThenMove(s, [Ask(id, at)], GiveUp(id));
        assert [Ask(id, at)] + [GiveUp(id)] == [Ask(id, at), GiveUp(id)];
      } else {
        ThenMove(s, [Ask(id, at)], Acquire(id));
      }
    }
  }

  /** The system while the call of a caller that is alone runs. */
  function Calling(s: System, v: View, id: nat): System
    requires id in s.callers && (v.phase == HalfOpen ==> s.permits > 0)
  {
    var x, probe := s.callers[id], v.phase == HalfOpen;
    With(s, v, id, x.(place := Running(probe), runs := x.runs + 1)).(permits := if probe then s.permits - 1 else s.permits)
  }

  function PlaceAfter(ending: Ending, last: bool): Place {
    match ending
    case Returned => Recording(true)
    case Cancelled => Gone(CancelledExit)
    case Fatal => Gone(Error)
    case Retryable => if last then Gone(Error) else Recording(false)
  }

  /** The call's end gives the permit back. */
  lemma {:induction false} FinishedAlone(s: System, run: seq<Move>, v: View, id: nat, ending: Ending)
    requires id in s.callers && (v.phase == HalfOpen ==> s.permits > 0)
    requires Legal(s, run) && Exec(s, run) == Calling(s, v, id)
    ensures var x := s.callers[id];
            && Legal(s, run + [Finish(id, ending)])
            && Exec(s, run + [Finish(id, ending)])
               == With(s, v, id, x.(place := PlaceAfter(ending, x.attempt >= s.attempts), runs := x.runs + 1))
  {
    ThenMove(s, run, Finish(id, ending));
  }

  lemma {:induction false} RecordedAlone(s: System, run: seq<Move>, v: View, id: nat, x: Caller, now: real)
    requires id in s.callers && x.place.Recording?
    requires Legal(s, run) && Exec(s, run) == With(s, v, id, x)
    ensures Legal(s, run + [Record(id, now)])
    ensures Exec(s, run + [Record(id, now)]) ==
            if x.place.success then With(s, Step(s.config, v, Success), id, x.(place := Gone(Result), successes := x.successes + 1))
            else With(s, Step(s.config, v, Failure(now)), id, x.(place := Starting, attempt := x.attempt + 1, failures := x.failures + 1))
  {
    ThenMove(s, run, Record(id, now));
  }

  /** The caller's state after a report of its remaining attempts. */
  function Reported(x: Caller, r: Report): Caller {
    var retried := |r.recorded| - if r.exit == Result && r.recorded != [] then 1 else 0;
    Caller(Gone(r.exit), x.attempt + retried, x.runs + r.runs, x.failures + retried, x.successes + if r.exit == Result then 1 else 0)
  }

  /** The moves of all attempts from k on. */
  function AloneMoves(s: System, id: nat, turns: seq<Turn>, k: nat): seq<Move>
    requires At(s, id, Starting) && k < |turns|
    decreases |turns| - k
  {
    var moves := AttemptMoves(s, id, turns[k], k + 1 == |turns|);
    var v := Step(s.config, s.view, Call(turns[k].at));
    if Refuses(s.config, s.view, s.permits, turns[k].at) || turns[k].ending != Retryable || k + 1 == |turns| then moves
    else moves + AloneMoves(Retried(s, id, turns[k]), id, turns, k + 1)
  }

  /** The system after an attempt that failed and is to be retried. */
  function Retried(s: System, id: nat, turn: Turn): System
    requires id in s.callers
  {
    var x := s.callers[id];
    With(s, Step(s.config, Step(s.config, s.view, Call(turn.at)), Failure(turn.recordedAt)), id,
         x.(place := Starting, attempt := x.attempt + 1, runs := x.runs + 1, failures := x.failures + 1))
  }

  lemma {:induction false} RefusedAlone(s: System, id: nat, turns: seq<Turn>, k: nat)
    requires At(s, id, Starting) && k < |turns| && Refuses(s.config, s.view, s.permits, turns[k].at)
    ensures var moves := AttemptMoves(s, id, turns[k], k + 1 == |turns|);
            var r := RetryFrom(s.config, s.view, s.permits, turns, k);
            Legal(s, moves) && Exec(s, moves) == With(s, r.view, id, Reported(s.callers[id], r))
  {
    AskedAlone(s, id, turns[k].at);
  }

  /** How an attempt that is let in leaves the system. */
  function Attempted(s: System, id: nat, turn: Turn, last: bool): System
    requires id in s.callers
  {
    var v, x := Step(s.config, s.view, Call(turn.at)), s.callers[id];
    match turn.ending
    case Returned => With(s, Step(s.config, v, Success), id, x.(place := Gone(Result), runs := x.runs + 1, successes := x.successes + 1))
    case Cancelled => With(s, v, id, x.(place := Gone(CancelledExit), runs := x.runs + 1))
    case Fatal => With(s, v, id, x.(place := Gone(Error), runs := x.runs + 1))
    case Retryable => if last then With(s, v, id, x.(place := Gone(Error), runs := x.runs + 1)) else Retried(s, id, turn)
  }

  lemma {:induction false} MovesOfAdmitted(s: System, id: nat, turn: Turn, last: bool, run: seq<Move>)
    requires !Refuses(s.config, s.view, s.permits, turn.at)
    requires run == [Ask(id, turn.at)] + if Step(s.config, s.view, Call(turn.at)).phase == HalfOpen then [Acquire(id)] else []
    ensures AttemptMoves(s, id, turn, last) ==
            if PlaceAfter(turn.ending, last).Recording? then run + [Finish(id, turn.ending)] + [Record(id, turn.recordedAt)]
            else run + [Finish(id, turn.ending)]
  {
  }

  lemma {:induction false} AdmittedAlone(s: System, id: nat, turn: Turn, last: bool)
    requires At(s, id, Starting) && !Refuses(s.config, s.view, s.permits, turn.at)
    requires last <==> s.callers[id].attempt >= s.attempts
    ensures Legal(s, AttemptMoves(s, id, turn, last)) && Exec(s, AttemptMoves(s, id, turn, last)) == Attempted(s, id, turn, last)
  {
    var v, x := Step(s.config, s.view, Call(turn.at)), s.callers[id];
    AskedAlone(s, id, turn.at);
    var run := [Ask(id, turn.at)] + if v.phase == HalfOpen then [Acquire(id)] else [];
    MovesOfAdmitted(s, id, turn, last, run);
    CalledAlone(s, run, id, turn, last);
  }

  lemma {:induction false} CalledAlone(s: System, run: seq<Move>, id: nat, turn: Turn, last: bool)
    requires At(s, id, Starting) && !Refuses(s.config, s.view, s.permits, turn.at)
    requires last <==> s.callers[id].attempt >= s.attempts
    requires Legal(s, run) && Exec(s, run) == Calling(s, Step(s.config, s.view, Call(turn.at)), id)
    ensures var done := run + [Finish(id, turn.ending)];
            var moves := if PlaceAfter(turn.ending, last).Recording? then done + [Record(id, turn.recordedAt)] else done;
            Legal(s, moves) && Exec(s, moves) == Attempted(s, id, turn, last)
  {
    var v, x := Step(s.config, s.view, Call(turn.at)), s.callers[id];
    FinishedAlone(s, run, v, id, turn.ending);
    var y := x.(place := PlaceAfter(turn.ending, last), runs := x.runs + 1);
    if y.place.Recording? {
      RecordedAlone(s, run + [Finish(id, turn.ending)], v, id, y, turn.recordedAt);
    }
  }

  /** The report of a loop whose first attempt is let in. */
  lemma {:induction false} ReportOfAdmitted(c: Config, v: View, probes: nat, turns: seq<Turn>, k: nat)
    requires k < |turns| && !Refuses(c, v, probes, turns[k].at)
    ensures var v1 := Step(c, v, Call(turns[k].at));
            RetryFrom(c, v, probes, turns, k) == match turns[k].ending {
              case Returned => Report(Result, 1, [true], Step(c, v1, Success))
              case Cancelled => Report(CancelledExit, 1, [], v1)
              case Fatal => Report(Error, 1, [], v1)
              case Retryable =>
                if k + 1 == |turns| then Report(Error, 1, [], v1)
                else Retries.After(1, [false], RetryFrom(c, Step(c, v1, Failure(turns[k].recordedAt)), probes, turns, k + 1))
            }
  {
  }

  lemma {:induction false} ReportedAfter(x: Caller, y: Caller, r: Report)
    requires r.exit == Result ==> r.recorded != []
    requires y == Caller(Starting, x.attempt + 1, x.runs + 1, x.failures + 1, x.successes)
    ensures Reported(y, r) == Reported(x, Retries.After(1, [false], r))
  {
  }

  lemma {:induction false} RetriedThen(s: System, id: nat, turn: Turn, v: View, y: Caller)
    requires id in s.callers
    ensures With(Retried(s, id, turn), v, id, y) == With(s, v, id, y)
  {
    assert Retried(s, id, turn).callers[id := y] == s.callers[id := y];
  }

  /** The moves from k on are those of attempt k and, if it is retried, those from k + 1 on. */
  lemma {:induction false} AloneUnfolds(s: System, id: nat, turns: seq<Turn>, k: nat)
    requires At(s, id, Starting) && k < |turns|
    ensures var moves := AttemptMoves(s, id, turns[k], k + 1 == |turns|);
            AloneMoves(s, id, turns, k) ==
            if Refuses(s.config, s.view, s.permits, turns[k].at) || turns[k].ending != Retryable || k + 1 == |turns| then moves
            else moves + AloneMoves(Retried(s, id, turns[k]), id, turns, k + 1)
  {
  }

  /** A caller that nobody interrupts does what the wrapper's loop does: its moves are legal, and they leave the circuit,
      the permits and the caller's accounts as the loop's report says. */
  lemma {:induction false} AloneIsRetry(s: System, id: nat, turns: seq<Turn>, k: nat)
    requires At(s, id, Starting) && k < |turns| == s.attempts && s.callers[id].attempt == k + 1
    ensures var r := RetryFrom(s.config, s.view, s.permits, turns, k);
            && Legal(s, AloneMoves(s, id, turns, k))
            && Exec(s, AloneMoves(s, id, turns, k)) == With(s, r.view, id, Reported(s.callers[id], r))
    decreases |turns| - k
  {
    AloneUnfolds(s, id, turns, k);
    if Refuses(s.config, s.view, s.permits, turns[k].at) {
      RefusedAlone(s, id, turns, k);
    } else if turns[k].ending != Retryable || k + 1 == |turns| {
      EndedAlone(s, id, turns, k);
    } else {
      var t := Retried(s, id, turns[k]);
      AloneIsRetry(t, id, turns, k + 1);
      AdmittedAlone(s, id, turns[k], false);
      ReportOfAdmitted(s.config, s.view, s.permits, turns, k);
      RetriedAlone(s, id, turns[k], AttemptMoves(s, id, turns[k], false), AloneMoves(t, id, turns, k + 1), turns, k + 1);
    }
  }

  /** An attempt that is let in and ends the loop. */
  lemma {:induction false} EndedAlone(s: System, id: nat, turns: seq<Turn>, k: nat)
    requires At(s, id, Starting) && k < |turns| == s.attempts && s.callers[id].attempt == k + 1
    requires !Refuses(s.config, s.view, s.permits, turns[k].at) && (turns[k].ending != Retryable || k + 1 == |turns|)
    ensures var moves := AttemptMoves(s, id, turns[k], k + 1 == |turns|);
            var r := RetryFrom(s.config, s.view, s.permits, turns, k);
            Legal(s, moves) && Exec(s, moves) == With(s, r.view, id, Reported(s.callers[id], r))
  {
    AdmittedAlone(s, id, turns[k], k + 1 == |turns|);
    EndedReport(s, id, turns, k);
  }

  lemma {:induction false} EndedReport(s: System, id: nat, turns: seq<Turn>, k: nat)
    requires At(s, id, Starting) && k < |turns|
    requires !Refuses(s.config, s.view, s.permits, turns[k].at) && (turns[k].ending != Retryable || k + 1 == |turns|)
    ensures var r := RetryFrom(s.config, s.view, s.permits, turns, k);
            Attempted(s, id, turns[k], k + 1 == |turns|) == With(s, r.view, id, Reported(s.callers[id], r))
  {
    ReportOfAdmitted(s.config, s.view, s.permits, turns, k);
    var x, v := s.callers[id], Step(s.config, s.view, Call(turns[k].at));
    EndedAccounts(x, v);
  }

  lemma {:induction false} EndedAccounts(x: Caller, v: View)
    requires x.place.Starting?
    ensures forall w :: Reported(x, Report(Result, 1, [true], w)) == Caller(Gone(Result), x.attempt, x.runs + 1, x.failures, x.successes + 1)
    ensures Reported(x, Report(CancelledExit, 1, [], v)) == Caller(Gone(CancelledExit), x.attempt, x.runs + 1, x.failures, x.successes)
    ensures Reported(x, Report(Error, 1, [], v)) == Caller(Gone(Error), x.attempt, x.runs + 1, x.failures, x.successes)
  {
  }

  /** One retried attempt in front of a loop that its report describes. */
  lemma {:induction false} RetriedAlone(s: System, id: nat, turn: Turn, moves: seq<Move>, more: seq<Move>, turns: seq<Turn>, k: nat)
    requires At(s, id, Starting) && k < |turns|
    requires Legal(s, moves) && Exec(s, moves) == Retried(s, id, turn)
    requires var t := Retried(s, id, turn);
             var r := RetryFrom(t.config, t.view, t.permits, turns, k);
             Legal(t, more) && Exec(t, more) == With(t, r.view, id, Reported(t.callers[id], r))
    ensures var t := Retried(s, id, turn);
            var r := Retries.After(1, [false], RetryFrom(t.config, t.view, t.permits, turns, k));
            Legal(s, moves + more) && Exec(s, moves + more) == With(s, r.view, id, Reported(s.callers[id], r))
  {
    var t := Retried(s, id, turn);
    var rest := RetryFrom(t.config, t.view, t.permits, turns, k);
    ThenRun(s, moves, more);
    RetryAccounts(t.config, t.view, t.permits, turns, k);
    RetriedThen(s, id, turn, rest.view, Reported(t.callers[id], rest));
    ReportedAfter(s.callers[id], t.callers[id], rest);
  }
}
