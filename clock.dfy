/**
 * The time gap between two requests. As written, `receive_data` assigns `prev_time` as a local
 * (app.py:155; it is missing from the `global` lines app.py:126-130), so the module-level
 * `prev_time` read by `generate_alerts` stays `None` and `time.time() - prev_time` (app.py:29)
 * raises on every request. The corrected clock measures the gap from the previous request's time,
 * taken before that time is overwritten.
 */
module Clock {
  import opened Wrappers

  // ----- As written -----

  /** The module-level `prev_time` after a request at time `now`: the assignment binds a local. */
  function StoredTimeAfterRequestAsWritten(stored: Option<real>, now: real): Option<real> {
    stored
  }

  /** `time.time() - prev_time` (app.py:29); `None` stands for the TypeError on a missing time. */
  function TimegapAsWritten(stored: Option<real>, now: real): (g: Option<real>)
    ensures g.Some? <==> stored.Some?
    ensures g.Some? ==> g.value + stored.value == now
  {
    if stored.Some? then Some(now - stored.value) else None
  }

  /** The module-level `prev_time` after requests at the given times, starting from `None` (app.py:11). */
  function StoredTimeAsWritten(times: seq<real>): Option<real> {
    if times == [] then None
    else StoredTimeAfterRequestAsWritten(StoredTimeAsWritten(times[..|times| - 1]), times[|times| - 1])
  }

  /**
   * As written, the stored time never leaves `None`, so the gap computation raises on every
   * request, however many came before: every POST ends in the 400 reply.
   */
  lemma {:induction false} AsWrittenEveryRequestRaises(times: seq<real>)
    ensures StoredTimeAsWritten(times) == None
    ensures forall i :: 0 <= i < |times| ==> TimegapAsWritten(StoredTimeAsWritten(times[..i]), times[i]).None?
  {
    if times != [] {
      var n := |times| - 1;
      AsWrittenEveryRequestRaises(times[..n]);
      forall i | 0 <= i < |times|
        ensures TimegapAsWritten(StoredTimeAsWritten(times[..i]), times[i]).None?
      {
        if i < n {
          assert times[..n][..i] == times[..i];
          assert times[..n][i] == times[i];
        } else {
          assert times[..i] == times[..n];
        }
      }
    }
  }

  // ----- Corrected -----

  /** The stored request time after a request at time `now`. */
  function StoredTimeAfterRequest(stored: Option<real>, now: real): (s: Option<real>)
    ensures s.Some? && s.value == now
  {
    Some(now)
  }

  /**
   * The seconds since the previous request; on the first request there is none and the gap is
   * zero, which the truthiness tests of app.py:74 and app.py:86 treat as "suppress".
   */
  function Timegap(stored: Option<real>, now: real): (g: real)
    ensures stored.None? ==> g == 0.0
    ensures stored.Some? ==> g + stored.value == now
  {
    if stored.Some? then now - stored.value else 0.0
  }

  /** The stored request time after requests at the given times, starting from `None`. */
  function StoredTime(times: seq<real>): Option<real> {
    if times == [] then None
    else StoredTimeAfterRequest(StoredTime(times[..|times| - 1]), times[|times| - 1])
  }

  /** With the corrected clock, every gap after the first is the interval since the previous request. */
  lemma GapIsIntervalSincePreviousRequest(times: seq<real>, i: nat)
    requires 0 < i < |times|
    ensures Timegap(StoredTime(times[..i]), times[i]) == times[i] - times[i - 1]
  {
    assert times[..i][..i - 1] == times[..i - 1];
  }

  /** The first request's gap is zero, so neither slope rule can fire on it. */
  lemma FirstGapIsZero(times: seq<real>)
    requires |times| > 0
    ensures Timegap(StoredTime(times[..0]), times[0]) == 0.0
  {
  }
}
