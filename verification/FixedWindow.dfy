/** The fixed-window limiter, as the Redis script with its caller and as the in-memory fallback. */
module FixedWindow {

  datatype Reply = Reply(allowed: bool, remaining: nat, reset: nat)

  // ---- the Redis counter, in milliseconds

  /** The key's counter and when it expires; a counter of 0 stands for no key. */
  datatype Counter = Counter(count: nat, deadline: nat)

  function Incr(c: Counter, windowMs: nat, now: nat): Counter {
    if c.count == 0 || c.deadline <= now then Counter(1, now + windowMs) else c.(count := c.count + 1)
  }

  function CounterReply(c: Counter, limit: nat, window: nat, now: nat): Reply {
    var ttl := c.deadline - now;
    var seconds := now / 1000;
    Reply(c.count <= limit, if c.count <= limit then limit - c.count else 0,
          if ttl > 0 then seconds + ttl / 1000 else seconds + window)
  }

  class RedisKey {
    var count: nat
    var deadline: nat

    constructor ()
      ensures View() == Counter(0, 0)
    {
      count, deadline := 0, 0;
    }

    function View(): Counter
      reads this
    {
      Counter(count, deadline)
    }

    /** INCR, with an expiry on the first count, and the reply computed from count and time to live. */
    method Allow(limit: nat, window: nat, now: nat) returns (r: Reply)
      modifies this
      ensures View() == Incr(old(View()), 1000 * window, now)
      ensures r == CounterReply(View(), limit, window, now)
    {
      if deadline <= now {
        count := 0;
      }
      count := count + 1;
      if count == 1 {
        deadline := now + 1000 * window;
      }
      var ttl := deadline - now;
      var reset := if ttl > 0 then now / 1000 + ttl / 1000 else now / 1000 + window;
      var allowed := count <= limit;
      r := Reply(allowed, if allowed then limit - count else 0, reset);
    }
  }

  // ---- the fallback, in seconds

  datatype Entry = Missing | Entry(count: nat, expires: nat)

  function Fallback(e: Entry, limit: nat, window: nat, now: nat): (Entry, Reply) {
    if e.Missing? || e.expires <= now then
      (Entry(1, now + window), Reply(true, if limit >= 1 then limit - 1 else 0, now + window))
    else if e.count >= limit then
      (e, Reply(false, 0, e.expires))
    else
      (e.(count := e.count + 1), Reply(true, limit - e.count - 1, e.expires))
  }

  class MemoryCounters {
    var counters: map<nat, Entry>

    constructor ()
      ensures counters == map[]
    {
      counters := map[];
    }

    function At(key: nat): Entry
      reads this
    {
      if key in counters then counters[key] else Missing
    }

    /** _in_memory_allow: only the key's own entry changes. */
    method Allow(key: nat, limit: nat, window: nat, now: nat) returns (r: Reply)
      modifies this
      ensures (At(key), r) == Fallback(old(At(key)), limit, window, now)
      ensures forall other :: other != key ==> At(other) == old(At(other))
    {
      var existing := At(key);
      if existing.Missing? || existing.expires <= now {
        counters := counters[key := Entry(1, now + window)];
        return Reply(true, if limit >= 1 then limit - 1 else 0, now + window);
      }
      if existing.count >= limit {
        return Reply(false, 0, existing.expires);
      }
      var bumped := existing.count + 1;
      counters := counters[key := existing.(count := bumped)];
      return Reply(true, limit - bumped, existing.expires);
    }
  }

  // ---- the two forms on a sequence of requests at whole seconds

  function CounterAfter(limit: nat, window: nat, times: seq<nat>): Counter {
    if times == [] then Counter(0, 0)
    else Incr(CounterAfter(limit, window, times[..|times| - 1]), 1000 * window, 1000 * times[|times| - 1])
  }

  function CounterReplies(limit: nat, window: nat, times: seq<nat>): (r: seq<Reply>)
    ensures |r| == |times|
  {
    if times == [] then []
    else
      var n := |times| - 1;
      CounterReplies(limit, window, times[..n])
      + [CounterReply(CounterAfter(limit, window, times), limit, window, 1000 * times[n])]
  }

  function EntryAfter(limit: nat, window: nat, times: seq<nat>): Entry {
    if times == [] then Missing
    else Fallback(EntryAfter(limit, window, times[..|times| - 1]), limit, window, times[|times| - 1]).0
  }

  function FallbackReplies(limit: nat, window: nat, times: seq<nat>): (r: seq<Reply>)
    ensures |r| == |times|
  {
    if times == [] then []
    else
      var n := |times| - 1;
      FallbackReplies(limit, window, times[..n])
      + [Fallback(EntryAfter(limit, window, times[..n]), limit, window, times[n]).1]
  }

  /** One counts on past the limit where the other stops at it. */
  ghost predicate Coupled(c: Counter, e: Entry, limit: nat) {
    match e
    case Missing => c.count == 0
    case Entry(count, expires) =>
      c.count >= 1 && c.deadline == 1000 * expires && count == if c.count <= limit then c.count else limit
  }

  lemma {:induction false} FormsCoupled(limit: nat, window: nat, times: seq<nat>)
    requires limit >= 1
    ensures Coupled(CounterAfter(limit, window, times), EntryAfter(limit, window, times), limit)
    ensures CounterReplies(limit, window, times) == FallbackReplies(limit, window, times)
  {
    if times != [] {
      FormsCoupled(limit, window, times[..|times| - 1]);
    }
  }

  /** The fallback answers every request sequence as Redis does exactly when the limit is not 0. */
  lemma FallbackAgrees(limit: nat, window: nat)
    ensures (forall times :: CounterReplies(limit, window, times) == FallbackReplies(limit, window, times)) <==> limit >= 1
  {
    if limit >= 1 {
      forall times ensures CounterReplies(limit, window, times) == FallbackReplies(limit, window, times) {
        FormsCoupled(limit, window, times);
      }
    } else {
      var once: seq<nat> := [0];
      assert once[..0] == [];
      assert !CounterReplies(limit, window, once)[0].allowed && FallbackReplies(limit, window, once)[0].allowed;
    }
  }

  // ---- what the replies say about the requests

  /** Which request opened the window of the last one: the first, and then each that comes a window after the opener. */
  function OpenAt(window: nat, times: seq<nat>): (k: nat)
    requires times != []
    ensures k < |times|
  {
    var n := |times| - 1;
    if n == 0 then 0
    else
      var k := OpenAt(window, times[..n]);
      if times[n] >= times[k] + window then n else k
  }

  /** The reply to the last request: it is allowed if it is one of the first limit of its window, what remains is what
      the others of them are, and the reset is the end of the window. */
  ghost predicate IsWindowReply(r: Reply, limit: nat, window: nat, times: seq<nat>)
    requires times != []
  {
    var k := OpenAt(window, times);
    && (r.allowed <==> |times| - k <= limit)
    && (r.remaining == if r.allowed then limit - (|times| - k) else 0)
    && r.reset == times[k] + window
  }

  lemma {:induction false} CounterReadsWindow(limit: nat, window: nat, times: seq<nat>)
    requires times != []
    ensures var k := OpenAt(window, times);
            CounterAfter(limit, window, times) == Counter(|times| - k, 1000 * (times[k] + window))
  {
    var n := |times| - 1;
    if n > 0 {
      CounterReadsWindow(limit, window, times[..n]);
    } else {
      assert CounterAfter(limit, window, times[..0]) == Counter(0, 0);
    }
  }

  /** At whole seconds every reply, of the script for every limit and of the fallback for a limit of at least 1, is the
      one that the request sequence calls for. */
  lemma RepliesMeaning(limit: nat, window: nat, times: seq<nat>)
    requires times != []
    ensures IsWindowReply(CounterReplies(limit, window, times)[|times| - 1], limit, window, times)
    ensures limit >= 1 ==> IsWindowReply(FallbackReplies(limit, window, times)[|times| - 1], limit, window, times)
  {
    CounterReadsWindow(limit, window, times);
    if limit >= 1 {
      FormsCoupled(limit, window, times);
    }
  }

  // ---- how many requests get through

  /** An admission: its time, and the time that opened its window. */
  datatype Admission = Admission(time: nat, start: nat)
  datatype Run = Run(counter: Counter, start: nat, log: seq<Admission>)

  function Serve(r: Run, limit: nat, windowMs: nat, now: nat): Run {
    var c := Incr(r.counter, windowMs, now);
    var start := if c.count == 1 then now else r.start;
    Run(c, start, if c.count <= limit then r.log + [Admission(now, start)] else r.log)
  }

  /** The admissions at a sequence of times, in milliseconds. */
  function ServeAll(limit: nat, windowMs: nat, times: seq<nat>): Run {
    if times == [] then Run(Counter(0, 0), 0, [])
    else Serve(ServeAll(limit, windowMs, times[..|times| - 1]), limit, windowMs, times[|times| - 1])
  }

  ghost predicate InOrder(times: seq<nat>) {
    |times| <= 1 || (InOrder(times[..|times| - 1]) && times[|times| - 2] <= times[|times| - 1])
  }

  /** limit admissions later, another window has begun; an admission that did not open its window follows one of it. */
  ghost predicate Windowed(log: seq<Admission>, limit: nat, windowMs: nat) {
    && (forall i :: 0 <= i < |log| ==> log[i].start <= log[i].time < log[i].start + windowMs || log[i].time == log[i].start)
    && (forall i {:trigger log[i].time} :: 0 <= i < |log| && log[i].time != log[i].start ==> i > 0 && log[i - 1].start == log[i].start)
    && (forall i, j :: 0 <= i && i + limit <= j < |log| ==> log[j].start >= log[i].start + windowMs)
  }

  /** The open window's admissions are the last ones, as many as the counter says, up to the limit. */
  ghost predicate Current(r: Run, limit: nat, windowMs: nat, now: int) {
    var n := if r.counter.count <= limit then r.counter.count else limit;
    && n <= |r.log|
    && (r.counter.count == 0 ==> r.log == [])
    && (r.counter.count > 0 ==> r.counter.deadline == r.start + windowMs && r.start <= now)
    && (forall i :: |r.log| - n <= i < |r.log| ==> r.log[i].start == r.start)
    && (forall i :: 0 <= i < |r.log| - n ==> r.log[i].start + windowMs <= r.start)
  }

  lemma {:induction false} ServedWindowed(limit: nat, windowMs: nat, times: seq<nat>)
    requires InOrder(times) && limit >= 1
    ensures var r := ServeAll(limit, windowMs, times);
            && Windowed(r.log, limit, windowMs)
            && Current(r, limit, windowMs, if times == [] then 0 else times[|times| - 1])
  {
    if times != [] {
      var n := |times| - 1;
      ServedWindowed(limit, windowMs, times[..n]);
      ServeKeeps(ServeAll(limit, windowMs, times[..n]), limit, windowMs, if n == 0 then 0 else times[n - 1], times[n]);
    }
  }

  lemma ServeKeeps(r: Run, limit: nat, windowMs: nat, before: nat, now: nat)
    requires limit >= 1 && before <= now
    requires Windowed(r.log, limit, windowMs) && Current(r, limit, windowMs, before)
    ensures Windowed(Serve(r, limit, windowMs, now).log, limit, windowMs)
    ensures Current(Serve(r, limit, windowMs, now), limit, windowMs, now)
  {
    ServeStaysCurrent(r, limit, windowMs, before, now);
    var c := Incr(r.counter, windowMs, now);
    if c.count <= limit {
      AdmitStaysWindowed(r, limit, windowMs, before, now);
    }
  }

  lemma ServeStaysCurrent(r: Run, limit: nat, windowMs: nat, before: nat, now: nat)
    requires limit >= 1 && before <= now && Current(r, limit, windowMs, before)
    ensures Current(Serve(r, limit, windowMs, now), limit, windowMs, now)
  {
  }

  lemma AdmitStaysWindowed(r: Run, limit: nat, windowMs: nat, before: nat, now: nat)
    requires limit >= 1 && before <= now && Incr(r.counter, windowMs, now).count <= limit
    requires Windowed(r.log, limit, windowMs) && Current(r, limit, windowMs, before)
    ensures Windowed(Serve(r, limit, windowMs, now).log, limit, windowMs)
  {
  }

  /** In any interval of one window at most 2 * limit - 1 requests get through, one fewer than two full windows. */
  lemma TwoWindowBound(limit: nat, windowMs: nat, times: seq<nat>, i: nat)
    requires InOrder(times) && limit >= 1
    requires i + 2 * limit - 1 < |ServeAll(limit, windowMs, times).log|
    ensures var log := ServeAll(limit, windowMs, times).log;
            log[i + 2 * limit - 1].time - log[i].time >= windowMs
  {
    ServedWindowed(limit, windowMs, times);
    var log := ServeAll(limit, windowMs, times).log;
    var j := i + 2 * limit - 1;
    assert log[j].start <= log[j].time;
    if log[i].time == log[i].start {
      assert i + limit <= j;
    } else {
      assert log[i - 1].start == log[i].start;
      var k := i - 1 + limit;
      assert log[k].start >= log[i - 1].start + windowMs;
      assert log[j].start >= log[k].start + windowMs;
    }
  }

  function Times(t: nat, k: nat): seq<nat> {
    seq(k, i => t)
  }

  /** k requests at one moment. */
  function Burst(r: Run, limit: nat, windowMs: nat, t: nat, k: nat): Run {
    if k == 0 then r else Serve(Burst(r, limit, windowMs, t, k - 1), limit, windowMs, t)
  }

  lemma {:induction false} BurstIsServed(limit: nat, windowMs: nat, times: seq<nat>, t: nat, k: nat)
    requires InOrder(times) && (times != [] ==> times[|times| - 1] <= t)
    ensures var all := times + Times(t, k);
            && InOrder(all) && (all != [] ==> all[|all| - 1] <= t)
            && ServeAll(limit, windowMs, all) == Burst(ServeAll(limit, windowMs, times), limit, windowMs, t, k)
  {
    if k == 0 {
      assert times + Times(t, 0) == times;
    } else {
      var before := times + Times(t, k - 1);
      BurstIsServed(limit, windowMs, times, t, k - 1);
      ServeOneMore(limit, windowMs, before, t);
      assert times + Times(t, k) == before + [t];
    }
  }

  lemma ServeOneMore(limit: nat, windowMs: nat, before: seq<nat>, t: nat)
    requires InOrder(before) && (before != [] ==> before[|before| - 1] <= t)
    ensures InOrder(before + [t])
    ensures ServeAll(limit, windowMs, before + [t]) == Serve(ServeAll(limit, windowMs, before), limit, windowMs, t)
  {
    assert (before + [t])[..|before|] == before;
  }

  /** In an open window with room for them they all get through. */
  lemma {:induction false} BurstFits(r: Run, limit: nat, windowMs: nat, t: nat, k: nat)
    requires t < r.counter.deadline && 1 <= r.counter.count && r.counter.count + k <= limit
    ensures var r' := Burst(r, limit, windowMs, t, k);
            && r'.counter == r.counter.(count := r.counter.count + k) && r'.start == r.start
            && |r'.log| == |r.log| + k && r.log <= r'.log
            && forall i :: |r.log| <= i < |r'.log| ==> r'.log[i].time == t
  {
    if k > 0 {
      BurstFits(r, limit, windowMs, t, k - 1);
    }
  }

  /** One request at 0, the rest of the limit at the last moment of its window, and the limit at the next one. */
  function EdgeTimes(limit: nat, windowMs: nat): seq<nat>
    requires limit >= 1 && windowMs >= 1
  {
    [] + Times(0, 1) + Times(windowMs - 1, limit - 1) + Times(windowMs, limit)
  }

  /** The bound is reached: 2 * limit - 1 requests within a millisecond, for every limit and every window. */
  lemma TwoWindowBoundReached(limit: nat, windowMs: nat)
    requires limit >= 1 && windowMs >= 1
    ensures var log := ServeAll(limit, windowMs, EdgeTimes(limit, windowMs)).log;
            && InOrder(EdgeTimes(limit, windowMs)) && |log| == 2 * limit
            && log[2 * limit - 1].time <= log[1].time + 1
  {
    var w := windowMs;
    var t1 := [] + Times(0, 1);
    var t2 := t1 + Times(w - 1, limit - 1);
    BurstIsServed(limit, w, [], 0, 1);
    BurstIsServed(limit, w, t1, w - 1, limit - 1);
    BurstIsServed(limit, w, t2, w, limit);
    var empty := Run(Counter(0, 0), 0, []);
    EdgeBursts(limit, w, empty, Burst(empty, limit, w, 0, 1));
  }

  lemma EdgeBursts(limit: nat, w: nat, empty: Run, begun: Run)
    requires limit >= 1 && w >= 1 && empty == Run(Counter(0, 0), 0, [])
    requires begun == Burst(empty, limit, w, 0, 1)
    ensures var log := Burst(Burst(begun, limit, w, w - 1, limit - 1), limit, w, w, limit).log;
            |log| == 2 * limit && log[2 * limit - 1].time <= log[1].time + 1
  {
    assert begun == Serve(Burst(empty, limit, w, 0, 0), limit, w, 0);
    BurstFits(begun, limit, w, w - 1, limit - 1);
    var full := Burst(begun, limit, w, w - 1, limit - 1);
    BurstReopens(full, limit, w);
  }

  /** At its deadline a full counter starts over and takes the whole limit at once. */
  lemma {:induction false} BurstReopens(full: Run, limit: nat, w: nat)
    requires limit >= 1 && w >= 1 && full.counter == Counter(limit, w)
    ensures var r := Burst(full, limit, w, w, limit);
            && |r.log| == |full.log| + limit && full.log <= r.log
            && forall i :: |full.log| <= i < |r.log| ==> r.log[i].time == w
  {
    BurstShift(full, limit, w, w, limit - 1);
    var reopened := Serve(full, limit, w, w);
    BurstFits(reopened, limit, w, w, limit - 1);
    assert reopened.log == full.log + [Admission(w, w)];
  }

  lemma {:induction false} BurstShift(r: Run, limit: nat, windowMs: nat, t: nat, k: nat)
    ensures Burst(r, limit, windowMs, t, k + 1) == Burst(Serve(r, limit, windowMs, t), limit, windowMs, t, k)
  {
    if k > 0 {
      BurstShift(r, limit, windowMs, t, k - 1);
    }
  }

  // ---- the reset at any millisecond

  lemma {:induction false} ServedReadsWindow(limit: nat, windowMs: nat, times: seq<nat>)
    requires times != []
    ensures var k := OpenAt(windowMs, times);
            ServeAll(limit, windowMs, times).counter == Counter(|times| - k, times[k] + windowMs)
  {
    var n := |times| - 1;
    if n > 0 {
      ServedReadsWindow(limit, windowMs, times[..n]);
    } else {
      assert ServeAll(limit, windowMs, times[..0]) == Run(Counter(0, 0), 0, []);
    }
  }

  /** Rounding both the moment and the time to live down loses less than two seconds, and nothing at whole seconds only. */
  lemma SecondsLost(now: nat, start: nat, window: nat)
    requires now < start + 1000 * window
    ensures var end := start + 1000 * window;
            var reset := now / 1000 + (end - now) / 1000;
            && 1000 * reset <= end < 1000 * reset + 2000
            && (1000 * reset == end <==> now % 1000 == 0 && start % 1000 == 0)
  {
    var end := start + 1000 * window;
    assert end % 1000 == start % 1000;
    var left := end - now;
    assert now == 1000 * (now / 1000) + now % 1000 && left == 1000 * (left / 1000) + left % 1000;
  }

  /** The advertised second is at most the end of the window and less than two seconds before it, and coming back
      right then opens a new window exactly if both this request and the window's first one came at a whole second. */
  lemma ResetSecondsExact(limit: nat, window: nat, times: seq<nat>)
    requires times != []
    ensures var now, k := times[|times| - 1], OpenAt(1000 * window, times);
            var r := CounterReply(ServeAll(limit, 1000 * window, times).counter, limit, window, now);
            var end := times[k] + 1000 * window;
            && (r.allowed <==> |times| - k <= limit)
            && (r.remaining == if r.allowed then limit - (|times| - k) else 0)
            && 1000 * r.reset <= end < 1000 * r.reset + 2000
            && (OpenAt(1000 * window, times + [1000 * r.reset]) == |times| <==> now % 1000 == 0 && times[k] % 1000 == 0)
  {
    ServedReadsWindow(limit, 1000 * window, times);
    var n := |times| - 1;
    var now, k := times[n], OpenAt(1000 * window, times);
    var r := CounterReply(ServeAll(limit, 1000 * window, times).counter, limit, window, now);
    if now < times[k] + 1000 * window {
      SecondsLost(now, times[k], window);
    } else {
      StartsWindow(1000 * window, times);
      assert window == 0 && k == n;
      assert r.reset == now / 1000;
    }
    NextOpens(1000 * window, times, 1000 * r.reset);
  }

  lemma StartsWindow(window: nat, times: seq<nat>)
    requires times != [] && times[|times| - 1] >= times[OpenAt(window, times)] + window
    ensures OpenAt(window, times) == |times| - 1
  {
  }

  lemma NextOpens(window: nat, times: seq<nat>, next: nat)
    requires times != []
    ensures OpenAt(window, times + [next]) == |times| <==> next >= times[OpenAt(window, times)] + window
  {
    assert (times + [next])[..|times|] == times;
  }
}
