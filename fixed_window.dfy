/**
 * The fixed-window counter both rate limiters use: per key, a count and the
 * time the window opened. A first attempt or one after the window opens a new
 * window with count 1; inside the window an attempt is refused once the count
 * has reached the limit (state unchanged) and otherwise bumps the count
 * without moving the window start. Times are milliseconds.
 */
module FixedWindow {

  /** `{ count, timestamp }`: attempts seen and the start of the current window. */
  datatype Attempt = Attempt(count: nat, timestamp: int)

  /** One check for `key` at time `now`: whether it is allowed and the new table. */
  function StepKey(m: map<string, Attempt>, key: string, maxAttempts: int, windowMs: int, now: int)
    : (r: (bool, map<string, Attempt>))
    ensures key in r.1
    ensures forall k :: k != key ==> (k in r.1 <==> k in m) && (k in m ==> r.1[k] == m[k])
  {
    if key !in m then (true, m[key := Attempt(1, now)])
    else if now - m[key].timestamp > windowMs then (true, m[key := Attempt(1, now)])
    else if m[key].count >= maxAttempts then (false, m)
    else (true, m[key := Attempt(m[key].count + 1, m[key].timestamp)])
  }

  /** Inside the window, an attempt is allowed exactly while the count is under the limit. */
  predicate InWindow(m: map<string, Attempt>, key: string, windowMs: int, now: int)
  {
    key in m && now - m[key].timestamp <= windowMs
  }

  /**
   * The four branches of one step: a new or expired window restarts at count 1
   * at `now`; inside the window the attempt is refused with the state unchanged
   * once the limit is reached, and otherwise counts one more, keeping the start.
   */
  lemma StepCases(m: map<string, Attempt>, key: string, maxAttempts: int, windowMs: int, now: int)
    ensures var r := StepKey(m, key, maxAttempts, windowMs, now);
      && (!InWindow(m, key, windowMs, now) ==> r.0 && r.1[key] == Attempt(1, now))
      && (InWindow(m, key, windowMs, now) && m[key].count >= maxAttempts ==> !r.0 && r.1 == m)
      && (InWindow(m, key, windowMs, now) && m[key].count < maxAttempts ==>
            r.0 && r.1[key] == Attempt(m[key].count + 1, m[key].timestamp))
  {
  }

  /** A refused attempt never changes the table; an allowed one always leaves a count of at least 1. */
  lemma StepDeniedIsReadOnly(m: map<string, Attempt>, key: string, maxAttempts: int, windowMs: int, now: int)
    ensures var r := StepKey(m, key, maxAttempts, windowMs, now);
      (!r.0 ==> r.1 == m) && (r.0 ==> r.1[key].count >= 1)
  {
  }

  /**
   * The block is only reported: once the window has passed, the key is allowed
   * again whatever its count, however long the configured block would last.
   */
  lemma BlockNotEnforcedAfterWindow(m: map<string, Attempt>, key: string, maxAttempts: int, windowMs: int, now: int)
    requires key in m && m[key].count >= maxAttempts
    requires now - m[key].timestamp > windowMs
    ensures StepKey(m, key, maxAttempts, windowMs, now) == (true, m[key := Attempt(1, now)])
  {
  }

  /** All counts in the table are within the limit. */
  ghost predicate Bounded(m: map<string, Attempt>, maxAttempts: int)
  {
    forall k :: k in m ==> m[k].count <= maxAttempts
  }

  /** With a limit of at least one, a step keeps every count within the limit. */
  lemma StepKeepsBounded(m: map<string, Attempt>, key: string, maxAttempts: int, windowMs: int, now: int)
    requires maxAttempts >= 1 && Bounded(m, maxAttempts)
    ensures Bounded(StepKey(m, key, maxAttempts, windowMs, now).1, maxAttempts)
  {
  }

  /** A series of checks for one key at the given times, in order. */
  function RunKey(m: map<string, Attempt>, key: string, maxAttempts: int, windowMs: int, times: seq<int>)
    : (r: (seq<bool>, map<string, Attempt>))
    ensures |r.0| == |times|
    decreases |times|
  {
    if times == [] then ([], m)
    else
      var step := StepKey(m, key, maxAttempts, windowMs, times[0]);
      var rest := RunKey(step.1, key, maxAttempts, windowMs, times[1..]);
      ([step.0] + rest.0, rest.1)
  }

  /**
   * Checks that all fall inside the window already open for `key`: the i-th is
   * allowed exactly when the count it meets plus i is still under the limit,
   * and the window start never moves.
   */
  lemma {:induction false} RunInsideWindow(m: map<string, Attempt>, key: string, maxAttempts: int, windowMs: int, times: seq<int>)
    requires key in m
    requires forall i :: 0 <= i < |times| ==> times[i] - m[key].timestamp <= windowMs
    ensures var r := RunKey(m, key, maxAttempts, windowMs, times);
      && (forall i :: 0 <= i < |times| ==> r.0[i] == (m[key].count + i < maxAttempts))
      && key in r.1 && r.1[key].timestamp == m[key].timestamp
    decreases |times|
  {
    if times != [] {
      var c := m[key].count;
      var step := StepKey(m, key, maxAttempts, windowMs, times[0]);
      assert step.1[key].timestamp == m[key].timestamp;
      assert step.1[key].count == if c >= maxAttempts then c else c + 1;
      var tail := times[1..];
      assert forall i :: 0 <= i < |tail| ==> tail[i] == times[i + 1];
      RunInsideWindow(step.1, key, maxAttempts, windowMs, tail);
      var r := RunKey(m, key, maxAttempts, windowMs, times);
      var rest := RunKey(step.1, key, maxAttempts, windowMs, tail);
      assert r.0 == [step.0] + rest.0;
      forall i | 0 <= i < |times|
        ensures r.0[i] == (c + i < maxAttempts)
      {
        if i > 0 {
          assert r.0[i] == rest.0[i - 1];
        }
      }
    }
  }

  /**
   * For a key seen for the first time, `maxAttempts` checks inside one window
   * are all allowed and the next one in the same window is refused; the
   * window start is the time of the first check.
   */
  lemma MaxAttemptsThenRefused(m: map<string, Attempt>, key: string, maxAttempts: int, windowMs: int, times: seq<int>)
    requires key !in m && maxAttempts >= 1
    requires |times| == maxAttempts + 1
    requires forall i :: 0 <= i < |times| ==> times[i] - times[0] <= windowMs
    ensures var r := RunKey(m, key, maxAttempts, windowMs, times);
      && (forall i :: 0 <= i < maxAttempts ==> r.0[i])
      && !r.0[maxAttempts]
      && key in r.1 && r.1[key] == Attempt(maxAttempts, times[0])
  {
    var first := StepKey(m, key, maxAttempts, windowMs, times[0]);
    var tail := times[1..];
    assert forall i :: 0 <= i < |tail| ==> tail[i] == times[i + 1];
    RunInsideWindow(first.1, key, maxAttempts, windowMs, tail);
    RunCountInsideWindow(first.1, key, maxAttempts, windowMs, tail);
    var r := RunKey(m, key, maxAttempts, windowMs, times);
    var rest := RunKey(first.1, key, maxAttempts, windowMs, tail);
    assert r.0 == [first.0] + rest.0;
    forall i | 0 <= i < maxAttempts + 1
      ensures r.0[i] == (i < maxAttempts)
    {
      if i > 0 {
        assert r.0[i] == rest.0[i - 1];
      }
    }
  }

  /** Inside one window the count climbs by one per check and stops at the limit. */
  lemma {:induction false} RunCountInsideWindow(m: map<string, Attempt>, key: string, maxAttempts: int, windowMs: int, times: seq<int>)
    requires key in m && m[key].count <= maxAttempts
    requires forall i :: 0 <= i < |times| ==> times[i] - m[key].timestamp <= windowMs
    ensures var r := RunKey(m, key, maxAttempts, windowMs, times);
      key in r.1 && r.1[key].count == if m[key].count + |times| <= maxAttempts then m[key].count + |times| else maxAttempts
    decreases |times|
  {
    if times != [] {
      var step := StepKey(m, key, maxAttempts, windowMs, times[0]);
      var tail := times[1..];
      assert forall i :: 0 <= i < |tail| ==> tail[i] == times[i + 1];
      RunCountInsideWindow(step.1, key, maxAttempts, windowMs, tail);
    }
  }
}
