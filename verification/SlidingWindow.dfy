/** The sliding-window limiter: the Redis script over one key's sorted set, and the reply computed from it. */
module SlidingWindow {

  /** How many admissions are later than a point in time. */
  function Recent(log: seq<nat>, after: int): nat {
    if log == [] then 0 else Recent(log[..|log| - 1], after) + if log[|log| - 1] > after then 1 else 0
  }

  /** Admissions in the half-open interval [from, to). */
  function CountIn(log: seq<nat>, from: int, to: int): nat {
    if log == [] then 0 else CountIn(log[..|log| - 1], from, to) + if from <= log[|log| - 1] < to then 1 else 0
  }

  ghost predicate Sorted(log: seq<nat>) {
    |log| <= 1 || (Sorted(log[..|log| - 1]) && log[|log| - 2] <= log[|log| - 1])
  }

  /** The clock has not yet run past the log. */
  ghost predicate UpTo(log: seq<nat>, clock: int) {
    log == [] || log[|log| - 1] <= clock
  }

  /** The rule without pruning and without expiry: the log is never forgotten. */
  predicate Admits(log: seq<nat>, limit: nat, window: nat, now: nat) {
    Recent(log, now - window) < limit
  }

  function ResetMs(log: seq<nat>, window: nat, now: nat): nat {
    var n := Recent(log, now - window);
    if n == 0 || n > |log| || log[|log| - n] + window < now then window else log[|log| - n] + window - now
  }

  /** The reset time in whole seconds: now rounded down plus the wait rounded up. */
  function ResetSeconds(now: nat, resetMs: nat): nat {
    now / 1000 + (resetMs + 999) / 1000
  }

  /** ZREMRANGEBYSCORE key 0 cut, on scores in order. */
  function Prune(scores: seq<nat>, cut: int): seq<nat> {
    if scores != [] && scores[0] <= cut then Prune(scores[1..], cut) else scores
  }

  lemma {:induction false} SortedAt(log: seq<nat>, i: nat, j: nat)
    requires Sorted(log) && i <= j < |log|
    ensures log[i] <= log[j]
  {
    if i < j {
      if j < |log| - 1 {
        SortedAt(log[..|log| - 1], i, j);
      } else {
        SortedAt(log[..|log| - 1], i, j - 1);
      }
    }
  }

  /** In a sorted log the recent entries are the last ones. */
  lemma {:induction false} RecentAt(log: seq<nat>, after: int, i: nat)
    requires Sorted(log) && i < |log|
    ensures log[i] > after <==> i >= |log| - Recent(log, after)
  {
    var n := |log| - 1;
    RecentLength(log[..n], after);
    if log[n] <= after {
      RecentNone(log, after);
      SortedAt(log, i, n);
    } else if i < n {
      RecentAt(log[..n], after, i);
    }
  }

  lemma {:induction false} RecentLength(log: seq<nat>, after: int)
    ensures Recent(log, after) <= |log|
  {
    if log != [] {
      RecentLength(log[..|log| - 1], after);
    }
  }

  lemma {:induction false} RecentNone(log: seq<nat>, after: int)
    requires Sorted(log) && UpTo(log, after)
    ensures Recent(log, after) == 0
  {
    if log != [] {
      RecentNone(log[..|log| - 1], after);
    }
  }

  /** Pruning removes exactly the entries that no longer count. */
  lemma {:induction false} PruneCuts(scores: seq<nat>, k: nat, cut: int)
    requires k <= |scores| && forall i :: 0 <= i < |scores| ==> (scores[i] > cut <==> i >= k)
    ensures Prune(scores, cut) == scores[k..]
  {
    if k > 0 {
      PruneCuts(scores[1..], k - 1, cut);
      assert scores[1..][k - 1..] == scores[k..];
    }
  }

  /** What a key's set remembers of the log: its end, and all of it that can still count. */
  ghost predicate Remembers(log: seq<nat>, scores: seq<nat>, deadline: nat, clock: nat, window: nat) {
    && Sorted(log) && UpTo(log, clock)
    && |scores| <= |log| && scores == log[|log| - |scores|..]
    && UpTo(log[..|log| - |scores|], clock - window)
    && (scores != [] ==> deadline == log[|log| - 1] + window)
  }

  /** An expired key has nothing left that counts, so losing it goes unnoticed. */
  lemma ExpiryUnnoticed(log: seq<nat>, scores: seq<nat>, deadline: nat, clock: nat, window: nat, now: nat)
    requires Remembers(log, scores, deadline, clock, window) && clock <= now
    ensures Remembers(log, if scores != [] && deadline <= now then [] else scores, deadline, now, window)
  {
    assert log[..|log|] == log;
  }

  lemma PruningUnnoticed(log: seq<nat>, scores: seq<nat>, deadline: nat, now: nat, window: nat)
    requires Remembers(log, scores, deadline, now, window)
    ensures Remembers(log, Prune(scores, now - window), deadline, now, window)
    ensures |Prune(scores, now - window)| == Recent(log, now - window)
  {
    var cut, gone := now - window, |log| - |scores|;
    var n := Recent(log, cut);
    RecentLength(log, cut);
    if gone > 0 {
      RecentAt(log, cut, gone - 1);
    }
    forall i | 0 <= i < |scores| ensures scores[i] > cut <==> i >= |scores| - n {
      RecentAt(log, cut, gone + i);
    }
    PruneCuts(scores, |scores| - n, cut);
    if n < |log| {
      RecentAt(log, cut, |log| - n - 1);
    }
  }

  lemma Admitted(log: seq<nat>, scores: seq<nat>, deadline: nat, now: nat, window: nat)
    requires Remembers(log, scores, deadline, now, window) && |scores| == Recent(log, now - window)
    ensures Remembers(log + [now], scores + [now], now + window, now, window)
    ensures window > 0 ==> Recent(log + [now], now - window) == |scores| + 1
    ensures window == 0 ==> Recent(log + [now], now - window) == 0 && scores == []
  {
    assert (log + [now])[..|log|] == log;
    assert (log + [now])[..|log| - |scores|] == log[..|log| - |scores|];
    if window == 0 {
      RecentNone(log, now);
    }
  }

  lemma OldestDecides(log: seq<nat>, scores: seq<nat>, deadline: nat, now: nat, window: nat)
    requires Remembers(log, scores, deadline, now, window)
    requires if window > 0 then |scores| == Recent(log, now - window) else scores == [] || scores == [now]
    ensures ResetMs(log, window, now) ==
            if scores == [] then window else if scores[0] + window < now then 0 else scores[0] + window - now
  {
    if window == 0 {
      RecentNone(log, now);
    } else if scores != [] {
      RecentAt(log, now - window, |log| - |scores|);
    }
  }

  /** What the script leaves behind and answers. */
  datatype Outcome = Outcome(scores: seq<nat>, deadline: nat, current: nat, resetMs: nat, allowed: bool)

  function RunScript(scores: seq<nat>, deadline: nat, window: nat, limit: nat, now: nat): Outcome {
    // an expired key is gone
    var live := if scores != [] && deadline <= now then [] else scores;
    var kept := Prune(live, now - window);
    var allowed := |kept| < limit;
    var scores' := if allowed then kept + [now] else kept;
    Outcome(
      scores',
      if allowed then now + window else deadline,
      |scores'|,
      if scores' == [] then window else if scores'[0] + window < now then 0 else scores'[0] + window - now,
      allowed)
  }

  ghost function LogAfter(log: seq<nat>, r: Outcome, now: nat): seq<nat> {
    if r.allowed then log + [now] else log
  }

  lemma ScriptRemembers(log: seq<nat>, scores: seq<nat>, deadline: nat, clock: nat, window: nat, limit: nat, now: nat)
    requires Remembers(log, scores, deadline, clock, window) && clock <= now
    ensures var r := RunScript(scores, deadline, window, limit, now);
            Remembers(LogAfter(log, r, now), r.scores, r.deadline, now, window)
  {
    var live := if scores != [] && deadline <= now then [] else scores;
    ExpiryUnnoticed(log, scores, deadline, clock, window, now);
    PruningUnnoticed(log, live, deadline, now, window);
    Admitted(log, Prune(live, now - window), deadline, now, window);
  }

  /** One run of the script decides and counts as the unforgetting log would. */
  lemma ScriptDecides(log: seq<nat>, scores: seq<nat>, deadline: nat, clock: nat, window: nat, limit: nat, now: nat)
    requires Remembers(log, scores, deadline, clock, window) && clock <= now
    ensures var r := RunScript(scores, deadline, window, limit, now);
            && (r.allowed <==> Admits(log, limit, window, now))
            && r.current == Recent(log, now - window) + (if r.allowed then 1 else 0)
  {
    var live := if scores != [] && deadline <= now then [] else scores;
    ExpiryUnnoticed(log, scores, deadline, clock, window, now);
    PruningUnnoticed(log, live, deadline, now, window);
  }

  lemma ScriptResets(log: seq<nat>, scores: seq<nat>, deadline: nat, clock: nat, window: nat, limit: nat, now: nat)
    requires Remembers(log, scores, deadline, clock, window) && clock <= now
    ensures var r := RunScript(scores, deadline, window, limit, now);
            r.resetMs == ResetMs(LogAfter(log, r, now), window, now)
  {
    var r := RunScript(scores, deadline, window, limit, now);
    var live := if scores != [] && deadline <= now then [] else scores;
    ExpiryUnnoticed(log, scores, deadline, clock, window, now);
    PruningUnnoticed(log, live, deadline, now, window);
    if window == 0 {
      RecentNone(log, now);
    }
    if r.allowed {
      Admitted(log, Prune(live, now - window), deadline, now, window);
    }
    OldestDecides(LogAfter(log, r, now), r.scores, r.deadline, now, window);
  }

  // ---- every sequence of requests

  /** The admissions of a sequence of request times, nothing ever forgotten. */
  ghost function Admissions(limit: nat, window: nat, times: seq<nat>): seq<nat> {
    if times == [] then []
    else
      var n := |times| - 1;
      var log := Admissions(limit, window, times[..n]);
      if Admits(log, limit, window, times[n]) then log + [times[n]] else log
  }

  /** Any limit + 1 consecutive admissions take at least a window. */
  ghost predicate Spaced(log: seq<nat>, limit: nat, window: nat) {
    forall k :: 0 <= k < |log| - limit ==> log[k + limit] - log[k] >= window
  }

  lemma {:induction false} AdmissionsSorted(limit: nat, window: nat, times: seq<nat>, clock: nat)
    requires Sorted(times) && UpTo(times, clock)
    ensures Sorted(Admissions(limit, window, times)) && UpTo(Admissions(limit, window, times), clock)
  {
    if times != [] {
      var n := |times| - 1;
      AdmissionsSorted(limit, window, times[..n], times[n]);
      var log := Admissions(limit, window, times[..n]);
      assert (log + [times[n]])[..|log|] == log;
    }
  }

  lemma {:induction false} AdmissionsSpaced(limit: nat, window: nat, times: seq<nat>)
    requires Sorted(times)
    ensures Spaced(Admissions(limit, window, times), limit, window)
  {
    if times != [] {
      var n := |times| - 1;
      AdmissionsSorted(limit, window, times[..n], times[n]);
      AdmissionsSpaced(limit, window, times[..n]);
      var log := Admissions(limit, window, times[..n]);
      if |log| >= limit > 0 {
        RecentAt(log, times[n] - window, |log| - limit);
      }
    }
  }

  lemma {:induction false} SpacedBoundsWindow(log: seq<nat>, limit: nat, window: nat, from: int)
    requires Sorted(log) && Spaced(log, limit, window)
    ensures CountIn(log, from, from + window) <= limit
  {
    if log != [] {
      var n := |log| - 1;
      if from <= log[n] < from + window {
        CountAtMostRecent(log, from, from + window);
        RecentLength(log, from - 1);
        if |log| > limit {
          RecentAt(log, from - 1, n - limit);
          assert log[n - limit + limit] - log[n - limit] >= window;
        }
      } else {
        SpacedBoundsWindow(log[..n], limit, window, from);
      }
    }
  }

  lemma {:induction false} CountAtMostRecent(log: seq<nat>, from: int, to: int)
    ensures CountIn(log, from, to) <= Recent(log, from - 1)
  {
    if log != [] {
      CountAtMostRecent(log[..|log| - 1], from, to);
    }
  }

  /** No half-open interval of one window ever holds more than limit admissions. */
  lemma WindowBound(limit: nat, window: nat, times: seq<nat>, from: int)
    requires Sorted(times)
    ensures CountIn(Admissions(limit, window, times), from, from + window) <= limit
  {
    if times != [] {
      AdmissionsSorted(limit, window, times, times[|times| - 1]);
    }
    AdmissionsSpaced(limit, window, times);
    SpacedBoundsWindow(Admissions(limit, window, times), limit, window, from);
  }

  /** A denied caller, if nothing else is admitted, gets in exactly from now + reset on; with limit 0 never. */
  lemma RetryExact(limit: nat, window: nat, times: seq<nat>, now: nat, later: nat)
    requires Sorted(times) && UpTo(times, now) && now <= later
    requires !Admits(Admissions(limit, window, times), limit, window, now)
    ensures var log := Admissions(limit, window, times);
            Admits(log, limit, window, later) <==> limit > 0 && later >= now + ResetMs(log, window, now)
  {
    var log := Admissions(limit, window, times);
    AdmissionsSorted(limit, window, times, now);
    AdmissionsSpaced(limit, window, times);
    if limit > 0 {
      DeniedIsFull(log, limit, window, now);
      RecentLength(log, later - window);
      RecentAt(log, later - window, |log| - limit);
    }
  }

  /** A denial means that exactly limit admissions count, and the oldest of them sets the reset. */
  lemma DeniedIsFull(log: seq<nat>, limit: nat, window: nat, now: nat)
    requires Sorted(log) && UpTo(log, now) && Spaced(log, limit, window)
    requires limit > 0 && !Admits(log, limit, window, now)
    ensures Recent(log, now - window) == limit <= |log|
    ensures ResetMs(log, window, now) == log[|log| - limit] + window - now > 0
  {
    RecentLength(log, now - window);
    if |log| > limit {
      assert log[|log| - 1 - limit + limit] - log[|log| - 1 - limit] >= window;
      RecentAt(log, now - window, |log| - 1 - limit);
    }
    RecentAt(log, now - window, |log| - limit);
  }

  /** The reset in whole seconds is late enough exactly when the rounding up outweighs the rounding down. */
  lemma ResetSecondsLate(now: nat, resetMs: nat)
    requires resetMs > 0
    ensures 1000 * ResetSeconds(now, resetMs) >= now
    ensures 1000 * ResetSeconds(now, resetMs) >= now + resetMs <==> now % 1000 + (resetMs - 1) % 1000 < 1000
  {
    var up := resetMs - 1;
    assert (resetMs + 999) / 1000 == up / 1000 + 1;
  }

  lemma DeniedWaits(limit: nat, window: nat, times: seq<nat>, now: nat)
    requires Sorted(times) && UpTo(times, now) && limit > 0
    requires !Admits(Admissions(limit, window, times), limit, window, now)
    ensures ResetMs(Admissions(limit, window, times), window, now) > 0
  {
    var log := Admissions(limit, window, times);
    AdmissionsSorted(limit, window, times, now);
    AdmissionsSpaced(limit, window, times);
    DeniedIsFull(log, limit, window, now);
  }

  /** A denied caller that comes back at the advertised second, with no other admission, is admitted exactly when the
      denial's millisecond and the last millisecond of its wait do not add up to a whole second. */
  lemma ResetSecondsExact(limit: nat, window: nat, times: seq<nat>, now: nat, wait: nat)
    requires Sorted(times) && UpTo(times, now) && limit > 0
    requires !Admits(Admissions(limit, window, times), limit, window, now)
    requires wait == ResetMs(Admissions(limit, window, times), window, now)
    ensures wait > 0 && 1000 * ResetSeconds(now, wait) >= now
    ensures Admits(Admissions(limit, window, times), limit, window, 1000 * ResetSeconds(now, wait))
            <==> now % 1000 + (wait - 1) % 1000 < 1000
  {
    DeniedWaits(limit, window, times, now);
    ResetSecondsLate(now, wait);
    RetryExact(limit, window, times, now, 1000 * ResetSeconds(now, wait));
  }

  /** One request a second: after the one at 1050 a request at 1950 is told to come back at second 2, and is denied there. */
  lemma ResetSecondsTooEarly()
    ensures var log := Admissions(1, 1000, [1050]);
            && log == [1050] && !Admits(log, 1, 1000, 1950)
            && ResetSeconds(1950, ResetMs(log, 1000, 1950)) == 2 && !Admits(log, 1, 1000, 2000)
  {
    assert [1050][..0] == [];
  }

  lemma ServedNext(limit: nat, window: nat, requests: seq<nat>, now: nat)
    ensures Admissions(limit, window, requests + [now]) ==
            var log := Admissions(limit, window, requests); if Admits(log, limit, window, now) then log + [now] else log
  {
    assert (requests + [now])[..|requests|] == requests;
  }

  /** max(0, limit - count) for an admitted request, nothing for a denied one. */
  function Remaining(r: Outcome, limit: nat): nat {
    if r.allowed && limit > r.current then limit - r.current else 0
  }

  /** What a request leaves of the limit: one less than there was, or nothing. */
  function RemainingAfter(log: seq<nat>, limit: nat, window: nat, now: nat): nat {
    var n := Recent(log, now - window);
    if n < limit then limit - 1 - n else 0
  }

  /** The log after k more requests at one moment. */
  function Burst(log: seq<nat>, limit: nat, window: nat, now: nat, k: nat): seq<nat> {
    if k == 0 then log
    else
      var before := Burst(log, limit, window, now, k - 1);
      if Admits(before, limit, window, now) then before + [now] else before
  }

  lemma {:induction false} BurstFills(log: seq<nat>, limit: nat, window: nat, now: nat, k: nat)
    requires window > 0
    ensures var n, room := Recent(log, now - window), limit - Recent(log, now - window);
            var got := if room <= 0 then 0 else if k <= room then k else room;
            |Burst(log, limit, window, now, k)| == |log| + got && Recent(Burst(log, limit, window, now, k), now - window) == n + got
  {
    if k > 0 {
      BurstFills(log, limit, window, now, k - 1);
    }
  }

  /** What a request is told remains is how many of the requests that follow at the same moment get in. */
  lemma RemainingExact(log: seq<nat>, limit: nat, window: nat, now: nat, k: nat)
    requires window > 0
    ensures var after := Burst(log, limit, window, now, 1);
            var left := RemainingAfter(log, limit, window, now);
            |Burst(after, limit, window, now, k)| == |after| + if k <= left then k else left
  {
    BurstFills(log, limit, window, now, 1);
    BurstFills(Burst(log, limit, window, now, 1), limit, window, now, k);
  }

  /** The reset is when the first of the admissions that count stops counting. */
  lemma ResetMeaning(log: seq<nat>, window: nat, now: nat, later: nat)
    requires Sorted(log) && UpTo(log, now) && now <= later && Recent(log, now - window) > 0
    ensures Recent(log, later - window) < Recent(log, now - window) <==> later >= now + ResetMs(log, window, now)
  {
    RecentLength(log, now - window);
    RecentLength(log, later - window);
    var first := |log| - Recent(log, now - window);
    RecentAt(log, now - window, first);
    RecentAt(log, later - window, first);
  }

  /** An outcome that keeps what the key remembers and answers as the unforgetting log would. */
  ghost predicate Served(log: seq<nat>, requests: seq<nat>, window: nat, limit: nat, now: nat, r: Outcome) {
    && Remembers(LogAfter(log, r, now), r.scores, r.deadline, now, window)
    && LogAfter(log, r, now) == Admissions(limit, window, requests + [now])
    && (r.allowed <==> Admits(log, limit, window, now))
    && Remaining(r, limit) == RemainingAfter(log, limit, window, now)
    && r.resetMs == ResetMs(LogAfter(log, r, now), window, now)
  }

  /** One run of the script, as the log and the requests see it. */
  lemma ScriptServes(log: seq<nat>, requests: seq<nat>, scores: seq<nat>, deadline: nat, clock: nat, window: nat, limit: nat, now: nat)
    requires Remembers(log, scores, deadline, clock, window) && clock <= now
    requires log == Admissions(limit, window, requests)
    ensures Served(log, requests, window, limit, now, RunScript(scores, deadline, window, limit, now))
  {
    ScriptRemembers(log, scores, deadline, clock, window, limit, now);
    ScriptDecides(log, scores, deadline, clock, window, limit, now);
    ScriptResets(log, scores, deadline, clock, window, limit, now);
    ServedNext(limit, window, requests, now);
  }

  class Key {
    const window: nat
    const limit: nat
    /** The sorted set's scores, and when the key expires while it has any. */
    var scores: seq<nat>
    var deadline: nat
    /** Every admission ever made, and the latest clock reading. */
    ghost var log: seq<nat>
    ghost var clock: nat
    /** Every request ever made. */
    ghost var requests: seq<nat>

    ghost predicate Valid()
      reads this
    {
      Serving() && Sorted(requests) && UpTo(requests, clock)
    }

    ghost predicate Serving()
      reads this
    {
      && Remembers(log, scores, deadline, clock, window)
      && log == Admissions(limit, window, requests)
    }

    constructor (window: nat, limit: nat)
      ensures Valid() && log == [] && requests == [] && clock == 0 && this.window == window && this.limit == limit
    {
      this.window, this.limit := window, limit;
      scores, deadline, log, clock, requests := [], 0, [], 0, [];
    }

    /** The Lua script, statement by statement. */
    method Script(now: nat) returns (r: Outcome)
      modifies this`scores, this`deadline
      ensures r == RunScript(old(scores), old(deadline), window, limit, now)
      ensures scores == r.scores && deadline == r.deadline
    {
      if scores != [] && deadline <= now {
        scores := [];
      }
      scores := Prune(scores, now - window);
      var current := |scores|;
      var allowed := false;
      if current < limit {
        scores := scores + [now];
        deadline := now + window;
        current := current + 1;
        allowed := true;
      }
      var resetMs := window;
      if scores != [] {
        resetMs := if scores[0] + window < now then 0 else scores[0] + window - now;
      }
      r := Outcome(scores, deadline, current, resetMs, allowed);
    }

    /** EVAL of the script, seen by what it serves. */
    method Eval(now: nat) returns (r: Outcome)
      requires Serving() && clock <= now
      modifies this`scores, this`deadline
      ensures Served(log, requests, window, limit, now, r) && scores == r.scores && deadline == r.deadline
    {
      ScriptServes(log, requests, scores, deadline, clock, window, limit, now);
      r := Script(now);
    }

    method Serve(now: nat) returns (r: Outcome)
      requires Serving() && clock <= now
      modifies this
      ensures Serving() && clock == now && requests == old(requests) + [now]
      ensures log == LogAfter(old(log), r, now) && Served(old(log), old(requests), window, limit, now, r)
    {
      r := Eval(now);
      log, clock, requests := LogAfter(log, r, now), now, requests + [now];
    }

    /** redis_allow_sliding, for a clock that does not run backwards: decisions are those of the log. */
    method Allow(now: nat) returns (allowed: bool, remaining: nat, resetTs: nat)
      requires Valid() && clock <= now
      modifies this
      ensures Valid() && clock == now && requests == old(requests) + [now]
      ensures allowed <==> Admits(old(log), limit, window, now)
      ensures log == if allowed then old(log) + [now] else old(log)
      ensures remaining == RemainingAfter(old(log), limit, window, now)
      ensures resetTs == ResetSeconds(now, ResetMs(log, window, now))
    {
      StillSorted(requests, clock, now);
      var r := Serve(now);
      allowed := r.allowed;
      remaining := Remaining(r, limit);
      resetTs := ResetSeconds(now, r.resetMs);
    }
  }

  lemma StillSorted(requests: seq<nat>, clock: nat, now: nat)
    requires Sorted(requests) && UpTo(requests, clock) && clock <= now
    ensures Sorted(requests + [now]) && UpTo(requests + [now], now)
  {
    assert (requests + [now])[..|requests|] == requests;
  }
}
