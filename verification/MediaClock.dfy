/** Unwrapping 32-bit RTP timestamps and the media-clock drift built from them.

Models signedRtpDelta and mediaClockMetrics of e2e-tests/perf-harness/summarize.ts over exact reals, without the
final rounding. The timestamp is the 32-bit field of section 5.1 of RFC 3550.
*/
module MediaClock {
  const RTP_WRAP: int := 0x1_0000_0000
  const HALF: int := 0x8000_0000
  const RTP_TICKS_PER_MS: real := 90.0

  datatype Frame = Frame(arrivalMs: real, rtpTs: int)

  datatype Metrics = TooShort | Metrics(driftMs: real, pacingErrors: seq<real>)

  function SignedRtpDelta(cur: int, prev: int): (d: int) {
    var d := cur - prev;
    if d > HALF then d - RTP_WRAP else if d < -HALF then d + RTP_WRAP else d
  }

  // ---------------------------------------------------------------- one pair

  /** True ticks whose timestamps unwrap to their difference. */
  predicate Unwraps(a: int, b: int) {
    || -0x8000_0000 < a - b < 0x8000_0000
    || ((a - b == 0x8000_0000 || a - b == -0x8000_0000) && a / 0x1_0000_0000 == b / 0x1_0000_0000)
  }

  /** How many wraps the pair loses. */
  function Misread(a: int, b: int): (k: int) {
    var q := a / RTP_WRAP - b / RTP_WRAP;
    var d := a % RTP_WRAP - b % RTP_WRAP;
    if d > HALF then q + 1 else if d < -HALF then q - 1 else q
  }

  /** The delta of two timestamps is the true difference less whole wraps. */
  lemma DeltaMisread(a: int, b: int)
    ensures SignedRtpDelta(a % 0x1_0000_0000, b % 0x1_0000_0000) == a - b - 0x1_0000_0000 * Misread(a, b)
  {
    assert a == RTP_WRAP * (a / RTP_WRAP) + a % RTP_WRAP;
    assert b == RTP_WRAP * (b / RTP_WRAP) + b % RTP_WRAP;
  }

  /** A pair is unwrapped to its true difference exactly when that is below half the range, or half of it
      without crossing a wrap. */
  lemma UnwrapsExactly(a: int, b: int)
    ensures SignedRtpDelta(a % 0x1_0000_0000, b % 0x1_0000_0000) == a - b <==> Unwraps(a, b)
    ensures Misread(a, b) == 0 <==> Unwraps(a, b)
  {
    DeltaMisread(a, b);
    assert a == RTP_WRAP * (a / RTP_WRAP) + a % RTP_WRAP;
    assert b == RTP_WRAP * (b / RTP_WRAP) + b % RTP_WRAP;
  }

  /** Half a range forward across a wrap reads as half a range back. */
  lemma HalfRangeFlips(wraps: int)
    ensures var a, b := (wraps + 1) * 0x1_0000_0000, wraps * 0x1_0000_0000 + 0x8000_0000;
            a - b == 0x8000_0000 && SignedRtpDelta(a % 0x1_0000_0000, b % 0x1_0000_0000) == -0x8000_0000
  {
    WrapResidue(wraps + 1, 0);
    WrapResidue(wraps, HALF);
  }

  lemma WrapResidue(q: int, r: int)
    requires 0 <= r < RTP_WRAP
    ensures (q * RTP_WRAP + r) % RTP_WRAP == r
  {
  }

  // ---------------------------------------------------------------- a series

  function Elapsed(frames: seq<Frame>): (ticks: int) {
    if |frames| < 2 then 0
    else Elapsed(frames[..|frames| - 1]) + SignedRtpDelta(frames[|frames| - 1].rtpTs, frames[|frames| - 2].rtpTs)
  }

  function LostWraps(ticks: seq<int>): (k: int) {
    if |ticks| < 2 then 0 else LostWraps(ticks[..|ticks| - 1]) + Misread(ticks[|ticks| - 1], ticks[|ticks| - 2])
  }

  /** The frames carry the low 32 bits of a true media clock. */
  ghost predicate Carries(frames: seq<Frame>, ticks: seq<int>) {
    |frames| == |ticks| && forall i :: 0 <= i < |frames| ==> frames[i].rtpTs == ticks[i] % 0x1_0000_0000
  }

  ghost predicate AllUnwrap(ticks: seq<int>) {
    forall i :: 1 <= i < |ticks| ==> Unwraps(ticks[i], ticks[i - 1])
  }

  /** Summed deltas telescope to last minus first, less the wraps lost on the way. */
  lemma {:induction false} ElapsedTelescopes(frames: seq<Frame>, ticks: seq<int>)
    requires Carries(frames, ticks) && |ticks| > 0
    ensures Elapsed(frames) == ticks[|ticks| - 1] - ticks[0] - 0x1_0000_0000 * LostWraps(ticks)
  {
    var n := |ticks| - 1;
    if n > 0 {
      ElapsedTelescopes(frames[..n], ticks[..n]);
      DeltaMisread(ticks[n], ticks[n - 1]);
    }
  }

  lemma {:induction false} NoLostWraps(ticks: seq<int>)
    requires AllUnwrap(ticks)
    ensures LostWraps(ticks) == 0
  {
    if |ticks| >= 2 {
      var n := |ticks| - 1;
      UnwrapsExactly(ticks[n], ticks[n - 1]);
      NoLostWraps(ticks[..n]);
    }
  }

  function PacingErrors(frames: seq<Frame>): (errors: seq<real>) {
    if |frames| < 2 then []
    else
      var cur, prev := frames[|frames| - 1], frames[|frames| - 2];
      var rtp := SignedRtpDelta(cur.rtpTs, prev.rtpTs) as real / RTP_TICKS_PER_MS;
      var rest := PacingErrors(frames[..|frames| - 1]);
      if rtp >= 0.0 then rest + [Abs(cur.arrivalMs - prev.arrivalMs - rtp)] else rest
  }

  function Abs(x: real): (r: real) {
    if x < 0.0 then -x else x
  }

  /** How far two spans are apart. */
  function Distance(x: real, y: real): (d: real)
    ensures d >= 0.0 && (x == y + d || y == x + d)
  {
    if x >= y then x - y else y - x
  }

  /** The series against the true clock: the pairs that did not go backwards, each with how far its arrival
      spacing is from its true spacing in milliseconds, at 90 ticks each. */
  function TrueErrors(frames: seq<Frame>, ticks: seq<int>): (errors: seq<real>)
    requires |frames| == |ticks|
  {
    if |frames| < 2 then []
    else
      var n := |frames| - 1;
      var rest := TrueErrors(frames[..n], ticks[..n]);
      if ticks[n] >= ticks[n - 1]
      then rest + [Distance(frames[n].arrivalMs - frames[n - 1].arrivalMs, (ticks[n] - ticks[n - 1]) as real / 90.0)]
      else rest
  }

  /** Wraps leave no trace in the pacing errors, and exactly the reordered pairs are skipped. */
  lemma {:induction false} PacingIsTrue(frames: seq<Frame>, ticks: seq<int>)
    requires Carries(frames, ticks) && AllUnwrap(ticks)
    ensures PacingErrors(frames) == TrueErrors(frames, ticks)
  {
    if |frames| >= 2 {
      var n := |frames| - 1;
      PacingIsTrue(frames[..n], ticks[..n]);
      UnwrapsExactly(ticks[n], ticks[n - 1]);
    }
  }

  // ---------------------------------------------------------------- the metrics

  /** The loop of mediaClockMetrics. */
  method MediaClockMetrics(frames: seq<Frame>) returns (m: Metrics)
    ensures m.TooShort? <==> |frames| < 2
    ensures |frames| >= 2 ==>
              && m.driftMs == frames[|frames| - 1].arrivalMs - frames[0].arrivalMs - Elapsed(frames) as real / RTP_TICKS_PER_MS
              && m.pacingErrors == PacingErrors(frames)
  {
    if |frames| < 2 { return TooShort; }
    var rtpElapsedMs, pacingErrors := 0.0, [];
    for i := 1 to |frames|
      invariant rtpElapsedMs == Elapsed(frames[..i]) as real / RTP_TICKS_PER_MS
      invariant pacingErrors == PacingErrors(frames[..i])
    {
      var arrivalDelta := frames[i].arrivalMs - frames[i - 1].arrivalMs;
      var rtpTsDelta := SignedRtpDelta(frames[i].rtpTs, frames[i - 1].rtpTs) as real / RTP_TICKS_PER_MS;
      assert frames[..i + 1][..i] == frames[..i];
      rtpElapsedMs := rtpElapsedMs + rtpTsDelta;
      if rtpTsDelta >= 0.0 { pacingErrors := pacingErrors + [Abs(arrivalDelta - rtpTsDelta)]; }
    }
    assert frames[..|frames|] == frames;
    m := Metrics(frames[|frames| - 1].arrivalMs - frames[0].arrivalMs - rtpElapsedMs, pacingErrors);
  }

  /** The drift mediaClockMetrics reports. */
  function Drift(frames: seq<Frame>): (ms: real)
    requires |frames| >= 2
  {
    frames[|frames| - 1].arrivalMs - frames[0].arrivalMs - Elapsed(frames) as real / RTP_TICKS_PER_MS
  }

  /** Drift is wall time minus true media time, exactly when the pairs lose no wraps on balance; always
      up to whole wraps. */
  lemma DriftIsTrue(frames: seq<Frame>, ticks: seq<int>)
    requires Carries(frames, ticks) && |frames| >= 2
    ensures var n := |frames| - 1;
            var truth := frames[n].arrivalMs - frames[0].arrivalMs - (ticks[n] - ticks[0]) as real / 90.0;
            && Drift(frames) == truth + (0x1_0000_0000 * LostWraps(ticks)) as real / 90.0
            && (AllUnwrap(ticks) ==> Drift(frames) == truth)
  {
    ElapsedTelescopes(frames, ticks);
    if AllUnwrap(ticks) { NoLostWraps(ticks); }
  }

  /** Any rearrangement of the frames between the first and the last, indeed any other interior whose pairs
      unwrap, leaves the drift as it is. */
  lemma InteriorIrrelevant(frames: seq<Frame>, ticks: seq<int>, frames': seq<Frame>, ticks': seq<int>)
    requires Carries(frames, ticks) && Carries(frames', ticks') && |frames| >= 2 && |frames'| >= 2
    requires AllUnwrap(ticks) && AllUnwrap(ticks')
    requires ticks[0] == ticks'[0] && ticks[|ticks| - 1] == ticks'[|ticks'| - 1]
    requires frames[0] == frames'[0] && frames[|frames| - 1] == frames'[|frames'| - 1]
    ensures Drift(frames) == Drift(frames')
  {
    DriftIsTrue(frames, ticks);
    DriftIsTrue(frames', ticks');
  }
}
