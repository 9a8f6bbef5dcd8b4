/** The circuit breaker, and what its state says about the outcomes recorded so far. */
module Breaker {

  datatype Phase = Closed | Open | HalfOpen

  /** Thresholds as the constructor stores them, at least 1 each. */
  datatype Config = Config(failures: nat, recovery: real, successes: nat)

  datatype View = View(phase: Phase, fails: nat, openedAt: real, successes: nat)

  /** A call asking for admission, or a recorded outcome, with the clock reading it uses. */
  datatype Event = Call(at: real) | Success | Failure(at: real)

  predicate Sound(c: Config) {
    c.failures >= 1 && c.successes >= 1
  }

  const START := View(Closed, 0, 0.0, 0)

  function Step(c: Config, v: View, e: Event): View {
    match e
    case Call(at) =>
      if v.phase == Open && at - v.openedAt >= c.recovery then v.(phase := HalfOpen, successes := 0) else v
    case Success =>
      if v.phase == HalfOpen then
        if v.successes + 1 >= c.successes then START else v.(successes := v.successes + 1)
      else if v.phase == Closed then v.(fails := 0)
      else v
    case Failure(at) =>
      if v.phase == HalfOpen then View(Open, 0, at, 0)
      else if v.phase == Closed then
        if v.fails + 1 >= c.failures then View(Open, 0, at, v.successes) else v.(fails := v.fails + 1)
      else v
  }

  class CircuitBreaker {
    const failureThreshold: nat
    const recoveryTimeout: real
    const successThreshold: nat
    var phase: Phase
    var failCount: nat
    var openedAt: real
    var successCount: nat
    var permits: nat

    constructor (failures: int, recovery: real, successes: int, probes: nat)
      ensures Sound(Settings()) && Current() == START && permits == probes
      ensures Settings() == Config(if failures >= 1 then failures else 1, recovery, if successes >= 1 then successes else 1)
    {
      failureThreshold := if failures < 1 then 1 else failures;
      recoveryTimeout := recovery;
      successThreshold := if successes < 1 then 1 else successes;
      phase, failCount, openedAt, successCount, permits := Closed, 0, 0.0, 0, probes;
    }

    function Settings(): Config {
      Config(failureThreshold, recoveryTimeout, successThreshold)
    }

    function Current(): View
      reads this
    {
      View(phase, failCount, openedAt, successCount)
    }

    /** before_call: refused exactly when the circuit is still open. */
    method BeforeCall(now: real) returns (admitted: bool)
      modifies this`phase, this`successCount
      ensures Current() == Step(Settings(), old(Current()), Call(now))
      ensures admitted <==> Current().phase != Open
    {
      if phase == Open {
        if now - openedAt >= recoveryTimeout {
          phase := HalfOpen;
          successCount := 0;
        }
      }
      admitted := phase != Open;
    }

    method RecordSuccess()
      modifies this`phase, this`failCount, this`openedAt, this`successCount
      ensures Current() == Step(Settings(), old(Current()), Success)
    {
      if phase == HalfOpen {
        successCount := successCount + 1;
        if successCount >= successThreshold {
          phase, failCount, openedAt, successCount := Closed, 0, 0.0, 0;
        }
      } else if phase == Closed {
        failCount := 0;
      }
    }

    method RecordFailure(now: real)
      modifies this`phase, this`failCount, this`openedAt, this`successCount
      ensures Current() == Step(Settings(), old(Current()), Failure(now))
    {
      if phase == HalfOpen {
        phase, openedAt, failCount, successCount := Open, now, 0, 0;
      } else if phase == Closed {
        failCount := failCount + 1;
        if failCount >= failureThreshold {
          phase, openedAt, failCount := Open, now, 0;
        }
      }
    }

    /** A free permit is taken at once; without one the wait may time out. */
    method AcquireProbe() returns (acquired: bool)
      modifies this`permits
      ensures acquired <==> old(permits) > 0
      ensures permits == old(permits) - if acquired then 1 else 0
    {
      acquired := permits > 0;
      if acquired {
        permits := permits - 1;
      }
    }

    method ReleaseProbe()
      modifies this`permits
      ensures permits == old(permits) + 1
    {
      permits := permits + 1;
    }
  }

  // ---- the state as a reading of the history

  function After(c: Config, es: seq<Event>): View {
    if es == [] then START else Step(c, After(c, es[..|es| - 1]), es[|es| - 1])
  }

  /** The outcomes recorded since the current phase began, true for a success. */
  function Since(c: Config, es: seq<Event>): seq<bool> {
    if es == [] then []
    else
      var n := |es| - 1;
      if After(c, es).phase != After(c, es[..n]).phase then []
      else match es[n] {
        case Call(_) => Since(c, es[..n])
        case Success => Since(c, es[..n]) + [true]
        case Failure(_) => Since(c, es[..n]) + [false]
      }
  }

  /** The last k outcomes are all there and all failures. */
  predicate LastAllFailed(outcomes: seq<bool>, k: nat) {
    k <= |outcomes| && forall i :: |outcomes| - k <= i < |outcomes| ==> !outcomes[i]
  }

  /** What each phase says about the outcomes recorded in it. */
  lemma {:induction false} PhaseReadsHistory(c: Config, es: seq<Event>)
    requires Sound(c)
    ensures var v, h := After(c, es), Since(c, es);
            && (v.phase == Closed ==> v.fails < c.failures && LastAllFailed(h, v.fails)
                                      && (v.fails < |h| ==> h[|h| - 1 - v.fails]))
            && (v.phase == HalfOpen ==> v.successes == |h| < c.successes && forall i :: 0 <= i < |h| ==> h[i])
  {
    if es != [] {
      PhaseReadsHistory(c, es[..|es| - 1]);
    }
  }

  lemma AfterNext(c: Config, es: seq<Event>, e: Event)
    ensures After(c, es + [e]) == Step(c, After(c, es), e)
  {
    assert (es + [e])[..|es|] == es;
  }

  /** A closed circuit opens exactly when the last failure_threshold outcomes since it closed are failures. */
  lemma OpensExactly(c: Config, es: seq<Event>, e: Event)
    requires Sound(c) && After(c, es).phase == Closed
    ensures var h := Since(c, es);
            After(c, es + [e]).phase == Open <==> e.Failure? && LastAllFailed(h + [false], c.failures)
    ensures After(c, es + [e]).phase == Open ==> After(c, es + [e]).openedAt == e.at
    ensures After(c, es + [e]).phase != HalfOpen
  {
    AfterNext(c, es, e);
    PhaseReadsHistory(c, es);
    var v, h := After(c, es), Since(c, es);
    if e.Failure? {
      if v.fails + 1 < c.failures && c.failures <= |h| + 1 {
        assert (h + [false])[|h| - 1 - v.fails];
      }
      forall i | 0 <= i < |h| + 1 && i >= |h| + 1 - (v.fails + 1) ensures !(h + [false])[i] {}
    }
  }

  /** A half-open circuit closes exactly on the success_threshold-th outcome if all were successes, and any failure
      reopens it, from that failure's time on. */
  lemma ClosesExactly(c: Config, es: seq<Event>, e: Event)
    requires Sound(c) && After(c, es).phase == HalfOpen
    ensures var h := Since(c, es);
            && (After(c, es + [e]).phase == Closed <==> e.Success? && |h| + 1 == c.successes && forall i :: 0 <= i < |h| ==> h[i])
            && (After(c, es + [e]).phase == Open <==> e.Failure?)
    ensures After(c, es + [e]).phase == Open ==> After(c, es + [e]).openedAt == e.at
  {
    AfterNext(c, es, e);
    PhaseReadsHistory(c, es);
  }

  /** No call in the list comes as late as a given moment. */
  predicate CallsBefore(more: seq<Event>, at: real) {
    forall i :: 0 <= i < |more| && more[i].Call? ==> more[i].at < at
  }

  /** An open circuit stays open, whatever is recorded, until a call comes recovery_timeout after it opened;
      that call is admitted. */
  lemma {:induction false} OpenUntilRecovery(c: Config, es: seq<Event>, more: seq<Event>, now: real)
    requires After(c, es).phase == Open
    requires CallsBefore(more, After(c, es).openedAt + c.recovery)
    ensures After(c, es + more) == After(c, es)
    ensures After(c, es + more + [Call(now)]).phase == if now < After(c, es).openedAt + c.recovery then Open else HalfOpen
  {
    if more == [] {
      assert es + more == es;
    } else {
      var n := |more| - 1;
      OpenUntilRecovery(c, es, more[..n], now);
      assert es + more == es + more[..n] + [more[n]];
      AfterNext(c, es + more[..n], more[n]);
    }
    AfterNext(c, es + more, Call(now));
  }
  /** A failure that opens the circuit, whether it was closed or half-open, keeps every call out for recovery_timeout
      from that failure on, whatever is recorded meanwhile; the first call after that is let in as a probe. */
  lemma OpenedRefuses(c: Config, es: seq<Event>, e: Event, more: seq<Event>, now: real)
    requires Sound(c) && After(c, es).phase != Open && After(c, es + [e]).phase == Open
    ensures e.Failure?
    ensures CallsBefore(more, e.at + c.recovery) ==>
              After(c, es + [e] + more + [Call(now)]).phase == if now < e.at + c.recovery then Open else HalfOpen
  {
    if After(c, es).phase == Closed {
      OpensExactly(c, es, e);
    } else {
      ClosesExactly(c, es, e);
    }
    if CallsBefore(more, e.at + c.recovery) {
      OpenUntilRecovery(c, es + [e], more, now);
    }
  }
}
