/**
  FixedWindowAttemptThrottle (apps/server/src/throttle.ts:25-62): one map of fixed windows, pruned on
  every call. Times are integers of milliseconds and the clock does not run backwards.
 */
module Throttle {
  import opened Wrappers

  datatype AttemptWindow = AttemptWindow(attempts: nat, resetAt: int)

  /** One call: the key, and what the clock said. */
  datatype Call = Call(key: string, now: int)

  // ---------------------------------------------------------------------------------------------
  // One key on its own
  // ---------------------------------------------------------------------------------------------

  type Windows = Option<AttemptWindow>

  function Live(w: Windows, now: int): Windows
  {
    if w.Some? && now < w.value.resetAt then w else None
  }

  /** What a single key's window answers: the new window and the wait, 0 when allowed. */
  function Attempt(w: Windows, now: int, maxAttempts: nat, windowMs: nat): (Windows, int)
  {
    match Live(w, now)
    case None => (Some(AttemptWindow(1, now + windowMs)), 0)
    case Some(window) =>
      if window.attempts >= maxAttempts then (Some(window), window.resetAt - now)
      else (Some(window.(attempts := window.attempts + 1)), 0)
  }

  /** The waits of one key's calls at `times`. */
  function Waits(w: Windows, times: seq<int>, maxAttempts: nat, windowMs: nat): (r: seq<int>)
    ensures |r| == |times|
    decreases |times|
  {
    if times == [] then []
    else
      var (next, wait) := Attempt(w, times[0], maxAttempts, windowMs);
      [wait] + Waits(next, times[1..], maxAttempts, windowMs)
  }

  predicate NonDecreasing(times: seq<int>)
  {
    forall i, j :: 0 <= i < j < |times| ==> times[i] <= times[j]
  }

  /** How many of the calls in [from, from + windowMs) were allowed. */
  function Allowed(times: seq<int>, waits: seq<int>, from: int, windowMs: nat): nat
    requires |times| == |waits|
  {
    if times == [] then 0
    else (if from <= times[0] < from + windowMs && waits[0] == 0 then 1 else 0)
         + Allowed(times[1..], waits[1..], from, windowMs)
  }

  predicate Counted(w: Windows, maxAttempts: nat)
  {
    w.Some? ==> 1 <= w.value.attempts <= maxAttempts
  }

  /** What a window can still allow before from + windowMs, once the clock has reached `from`. */
  function Capacity(w: Windows, now: int, from: int, maxAttempts: nat, windowMs: nat): int
  {
    match Live(w, now)
    case None => maxAttempts
    case Some(window) =>
      maxAttempts - window.attempts + (if window.resetAt < from + windowMs then maxAttempts else 0)
  }

  lemma {:induction false} CapacityBounds(w: Windows, times: seq<int>, from: int, maxAttempts: nat, windowMs: nat)
    requires maxAttempts >= 1 && windowMs >= 1 && Counted(w, maxAttempts)
    requires times != [] && NonDecreasing(times) && times[0] >= from
    ensures Allowed(times, Waits(w, times, maxAttempts, windowMs), from, windowMs)
            <= Capacity(w, times[0], from, maxAttempts, windowMs)
    decreases |times|
  {
    var (next, wait) := Attempt(w, times[0], maxAttempts, windowMs);
    var waits := Waits(w, times, maxAttempts, windowMs);
    assert waits[1..] == Waits(next, times[1..], maxAttempts, windowMs);
    if |times| > 1 {
      if times[1] < from + windowMs {
        CapacityBounds(next, times[1..], from, maxAttempts, windowMs);
      } else {
        NoneAfter(times[1..], waits[1..], from, windowMs);
      }
    }
  }

  lemma {:induction false} NoneAfter(times: seq<int>, waits: seq<int>, from: int, windowMs: nat)
    requires |times| == |waits| && NonDecreasing(times) && (times != [] ==> times[0] >= from + windowMs)
    ensures Allowed(times, waits, from, windowMs) == 0
    decreases |times|
  {
    if times != [] { NoneAfter(times[1..], waits[1..], from, windowMs); }
  }

  /**
    The sliding bound, one better than twice the limit: a window that reaches into the interval was
    opened before it, by an attempt that does not count.
   */
  lemma {:induction false} SlidingBound(w: Windows, times: seq<int>, from: int, maxAttempts: nat, windowMs: nat)
    requires maxAttempts >= 1 && windowMs >= 1 && Counted(w, maxAttempts) && NonDecreasing(times)
    ensures Allowed(times, Waits(w, times, maxAttempts, windowMs), from, windowMs) <= 2 * maxAttempts - 1
    decreases |times|
  {
    if times != [] {
      if times[0] >= from {
        CapacityBounds(w, times, from, maxAttempts, windowMs);
      } else {
        var (next, wait) := Attempt(w, times[0], maxAttempts, windowMs);
        assert Waits(w, times, maxAttempts, windowMs)[1..] == Waits(next, times[1..], maxAttempts, windowMs);
        SlidingBound(next, times[1..], from, maxAttempts, windowMs);
      }
    }
  }

  /** A refusal names the exact moment of release: nothing is allowed before it, everything from it on. */
  lemma WaitIsExact(w: Windows, now: int, later: int, maxAttempts: nat, windowMs: nat)
    requires maxAttempts >= 1 && windowMs >= 1 && later >= now
    requires Attempt(w, now, maxAttempts, windowMs).1 != 0
    ensures
      var (next, wait) := Attempt(w, now, maxAttempts, windowMs);
      var (again, answer) := Attempt(next, later, maxAttempts, windowMs);
      && wait > 0 && (answer == 0 <==> later >= now + wait)
      && (later < now + wait ==> again == next && later + answer == now + wait)
  {
  }

  // ---------------------------------------------------------------------------------------------
  // The bound is tight
  // ---------------------------------------------------------------------------------------------

  function Repeat(t: int, n: nat): (r: seq<int>)
    ensures |r| == n
  {
    if n == 0 then [] else [t] + Repeat(t, n - 1)
  }

  /** A run of `n` further attempts at one moment, all allowed while the window has room. */
  lemma {:induction false} Burst(attempts: nat, resetAt: int, t: int, n: nat, rest: seq<int>, from: int, maxAttempts: nat, windowMs: nat)
    requires attempts + n <= maxAttempts && t < resetAt && from <= t < from + windowMs
    ensures
      var w := Some(AttemptWindow(attempts, resetAt));
      var times := Repeat(t, n) + rest;
      var after := Some(AttemptWindow(attempts + n, resetAt));
      Allowed(times, Waits(w, times, maxAttempts, windowMs), from, windowMs)
      == n + Allowed(rest, Waits(after, rest, maxAttempts, windowMs), from, windowMs)
    decreases n
  {
    var w := Some(AttemptWindow(attempts, resetAt));
    var times := Repeat(t, n) + rest;
    if n == 0 {
      assert times == rest;
    } else {
      assert times[1..] == Repeat(t, n - 1) + rest;
      var next := Some(AttemptWindow(attempts + 1, resetAt));
      assert Waits(w, times, maxAttempts, windowMs)[1..] == Waits(next, times[1..], maxAttempts, windowMs);
      Burst(attempts + 1, resetAt, t, n - 1, rest, from, maxAttempts, windowMs);
    }
  }

  /** The calls that reach it: one just before the interval, then two bursts inside. */
  function Burstful(from: int, maxAttempts: nat, windowMs: nat): seq<int>
    requires maxAttempts >= 1
  {
    [from - 1] + (Repeat(from, maxAttempts - 1) + ([from - 1 + windowMs] + (Repeat(from - 1 + windowMs, maxAttempts - 1) + [])))
  }

  lemma SlidingBoundIsTight(from: int, maxAttempts: nat, windowMs: nat)
    requires maxAttempts >= 1 && windowMs >= 2
    ensures
      var times := Burstful(from, maxAttempts, windowMs);
      Allowed(times, Waits(None, times, maxAttempts, windowMs), from, windowMs) == 2 * maxAttempts - 1
  {
    var r := from - 1 + windowMs;
    var last := Repeat(r, maxAttempts - 1) + [];
    var second := [r] + last;
    var first := Repeat(from, maxAttempts - 1) + second;
    var times := [from - 1] + first;
    var opened1, opened2 := Some(AttemptWindow(1, r)), Some(AttemptWindow(1, r + windowMs));
    assert times[1..] == first && Waits(None, times, maxAttempts, windowMs)[1..] == Waits(opened1, first, maxAttempts, windowMs);
    Burst(1, r, from, maxAttempts - 1, second, from, maxAttempts, windowMs);
    var full := Some(AttemptWindow(maxAttempts, r));
    assert second[1..] == last && Waits(full, second, maxAttempts, windowMs)[1..] == Waits(opened2, last, maxAttempts, windowMs);
    Burst(1, r + windowMs, r, maxAttempts - 1, [], from, maxAttempts, windowMs);
  }

  // ---------------------------------------------------------------------------------------------
  // The shared map
  // ---------------------------------------------------------------------------------------------

  function Pruned(windows: map<string, AttemptWindow>, now: int): map<string, AttemptWindow>
  {
    map k | k in windows && now < windows[k].resetAt :: windows[k]
  }

  function Of(windows: map<string, AttemptWindow>, key: string): Windows
  {
    if key in windows then Some(windows[key]) else None
  }

  function Recorded(windows: map<string, AttemptWindow>, call: Call, maxAttempts: nat, windowMs: nat)
    : (map<string, AttemptWindow>, int)
  {
    var kept := Pruned(windows, call.now);
    var (next, wait) := Attempt(Of(kept, call.key), call.now, maxAttempts, windowMs);
    (if next.Some? then kept[call.key := next.value] else kept, wait)
  }

  function Answers(windows: map<string, AttemptWindow>, calls: seq<Call>, maxAttempts: nat, windowMs: nat): (r: seq<int>)
    ensures |r| == |calls|
    decreases |calls|
  {
    if calls == [] then []
    else
      var (next, wait) := Recorded(windows, calls[0], maxAttempts, windowMs);
      [wait] + Answers(next, calls[1..], maxAttempts, windowMs)
  }

  function TimesOf(calls: seq<Call>, key: string): seq<int>
  {
    if calls == [] then []
    else (if calls[0].key == key then [calls[0].now] else []) + TimesOf(calls[1..], key)
  }

  function WaitsOf(calls: seq<Call>, waits: seq<int>, key: string): seq<int>
    requires |calls| == |waits|
  {
    if calls == [] then []
    else (if calls[0].key == key then [waits[0]] else []) + WaitsOf(calls[1..], waits[1..], key)
  }

  predicate ClockRuns(calls: seq<Call>)
  {
    forall i, j :: 0 <= i < j < |calls| ==> calls[i].now <= calls[j].now
  }

  /** The shared map and the key's own window agree from `now` on. */
  predicate Agree(windows: map<string, AttemptWindow>, w: Windows, key: string, now: int)
  {
    Live(Of(windows, key), now) == Live(w, now)
  }

  lemma RecordedAgrees(windows: map<string, AttemptWindow>, w: Windows, key: string, call: Call, maxAttempts: nat, windowMs: nat)
    requires Agree(windows, w, key, call.now)
    ensures
      var (next, wait) := Recorded(windows, call, maxAttempts, windowMs);
      if call.key == key then
        wait == Attempt(w, call.now, maxAttempts, windowMs).1
        && Of(next, key) == Attempt(w, call.now, maxAttempts, windowMs).0
      else Agree(next, w, key, call.now)
  {
  }

  /** After a call the map holds the call's own key and exactly the other keys whose windows are still open. */
  lemma MapHoldsOpenWindows(windows: map<string, AttemptWindow>, call: Call, maxAttempts: nat, windowMs: nat)
    ensures
      var next := Recorded(windows, call, maxAttempts, windowMs).0;
      && (forall k :: k in next <==> k == call.key || (k in windows && windows[k].resetAt > call.now))
      && (forall k :: k in next && k != call.key ==> next[k] == windows[k])
  {
  }

  /**
    Pruning and other keys never change an answer: under any interleaving, a key gets exactly the
    answers of a window of its own.
   */
  lemma {:induction false} KeysAreIndependent(
    windows: map<string, AttemptWindow>, w: Windows, calls: seq<Call>, key: string, maxAttempts: nat, windowMs: nat)
    requires ClockRuns(calls)
    requires calls != [] ==> Agree(windows, w, key, calls[0].now)
    ensures WaitsOf(calls, Answers(windows, calls, maxAttempts, windowMs), key)
            == Waits(w, TimesOf(calls, key), maxAttempts, windowMs)
    decreases |calls|
  {
    hide Recorded, Attempt, Live;
    if calls != [] {
      var (next, wait) := Recorded(windows, calls[0], maxAttempts, windowMs);
      var answers := Answers(windows, calls, maxAttempts, windowMs);
      assert answers[1..] == Answers(next, calls[1..], maxAttempts, windowMs);
      RecordedAgrees(windows, w, key, calls[0], maxAttempts, windowMs);
      var own := if calls[0].key == key then Attempt(w, calls[0].now, maxAttempts, windowMs).0 else w;
      if |calls| > 1 { StillAgree(next, own, key, calls[0].now, calls[1].now); }
      KeysAreIndependent(next, own, calls[1..], key, maxAttempts, windowMs);
      var times := TimesOf(calls, key);
      if calls[0].key == key {
        assert times[0] == calls[0].now && times[1..] == TimesOf(calls[1..], key);
      } else {
        assert times == TimesOf(calls[1..], key);
      }
    }
  }

  lemma StillAgree(windows: map<string, AttemptWindow>, w: Windows, key: string, now: int, later: int)
    requires now <= later && (Agree(windows, w, key, now) || Of(windows, key) == w)
    ensures Agree(windows, w, key, later)
  {
  }

  lemma {:induction false} TimesRun(calls: seq<Call>, key: string)
    requires ClockRuns(calls)
    ensures NonDecreasing(TimesOf(calls, key))
    ensures forall t :: t in TimesOf(calls, key) ==> calls != [] && calls[0].now <= t
    decreases |calls|
  {
    if calls != [] {
      var rest := TimesOf(calls[1..], key);
      TimesRun(calls[1..], key);
      if calls[0].key == key {
        assert TimesOf(calls, key) == [calls[0].now] + rest;
        assert forall i :: 0 <= i < |rest| ==> rest[i] in rest;
      } else {
        assert TimesOf(calls, key) == rest;
      }
    }
  }

  /** Over every interleaving of keys from an empty throttle, each key obeys the sliding bound. */
  lemma EveryKeyIsBounded(calls: seq<Call>, key: string, from: int, maxAttempts: nat, windowMs: nat)
    requires maxAttempts >= 1 && windowMs >= 1 && ClockRuns(calls)
    ensures
      var waits := WaitsOf(calls, Answers(map[], calls, maxAttempts, windowMs), key);
      |waits| == |TimesOf(calls, key)|
      && Allowed(TimesOf(calls, key), waits, from, windowMs) <= 2 * maxAttempts - 1
  {
    KeysAreIndependent(map[], None, calls, key, maxAttempts, windowMs);
    TimesRun(calls, key);
    SlidingBound(None, TimesOf(calls, key), from, maxAttempts, windowMs);
  }

  // ---------------------------------------------------------------------------------------------
  // The object
  // ---------------------------------------------------------------------------------------------

  class FixedWindowAttemptThrottle {
    var windows: map<string, AttemptWindow>
    const maxAttempts: nat
    const windowMs: nat

    /** The constructor throws for limits below one. */
    constructor (maxAttempts: nat, windowMs: nat)
      requires maxAttempts >= 1 && windowMs >= 1
      ensures windows == map[] && this.maxAttempts == maxAttempts && this.windowMs == windowMs
    {
      windows := map[];
      this.maxAttempts, this.windowMs := maxAttempts, windowMs;
    }

    method RecordAttempt(key: string, now: int) returns (wait: int)
      modifies this
      ensures (windows, wait) == Recorded(old(windows), Call(key, now), maxAttempts, windowMs)
    {
      Prune(now);
      if key !in windows {
        windows := windows[key := AttemptWindow(1, now + windowMs)];
        return 0;
      }
      var window := windows[key];
      if window.attempts >= maxAttempts {
        assert windows[key := window] == windows;
        return window.resetAt - now;
      }
      windows := windows[key := window.(attempts := window.attempts + 1)];
      return 0;
    }

    method Prune(now: int)
      modifies this
      ensures windows == Pruned(old(windows), now)
    {
      var keys := windows.Keys;
      while keys != {}
        invariant keys <= windows.Keys && windows.Keys <= old(windows).Keys
        invariant forall k :: k in windows ==> windows[k] == old(windows)[k]
        invariant forall k :: k in old(windows) && k !in keys ==> (k in windows <==> now < old(windows)[k].resetAt)
        decreases keys
      {
        var k :| k in keys;
        if now >= windows[k].resetAt { windows := windows - {k}; }
        keys := keys - {k};
      }
      assert windows.Keys == Pruned(old(windows), now).Keys;
    }
  }
}
