/** The arithmetic of a recording session that the recorder's fields follow: the fixed
    frame pacer, the active duration with pauses subtracted, the encoder-load monitor, and
    the frame a poll-mode capture tick hands to the encoder. */
module Session {
  import opened Wrappers

  // ---------------------------------------------------------------------------------------
  // Frame pacer

  function Abs(x: int): nat
  {
    if x < 0 then -x else x
  }

  /** Division of naturals, which rounds down. */
  function Quotient(x: nat, y: nat): nat
    requires y > 0
  {
    x / y
  }

  /** Kotlin's Long division, which truncates toward zero: for every sign of `a` and `b`
      the quotient's magnitude is |a| / |b| rounded down and its sign is the sign of
      a * b, so it agrees with Euclidean division on non-negative operands. */
  function TruncDiv(a: int, b: int): (q: int)
    requires b != 0
    ensures Abs(q) == Quotient(Abs(a), Abs(b))
    ensures q == 0 || (q < 0 <==> (a < 0) != (b < 0))
    ensures a >= 0 && b > 0 ==> q == a / b
  {
    var n := Quotient(Abs(a), Abs(b));
    if (a < 0) == (b < 0) then n as int else -(n as int)
  }

  /** Microseconds per frame at `fps` frames per second. */
  function FrameDurationUs(fps: int): (d: int)
    requires fps != 0
  {
    TruncDiv(1000000, fps)
  }

  /** A positive rate up to a million frames a second gives a positive frame duration, and
      then duration * fps never exceeds a second. */
  lemma FrameDurationPositive(fps: int)
    requires fps != 0
    ensures FrameDurationUs(fps) > 0 <==> 0 < fps <= 1000000
    ensures 0 < fps ==> FrameDurationUs(fps) * fps <= 1000000 < (FrameDurationUs(fps) + 1) * fps
  {
  }

  /** Timestamp of the frame queued as number `n`. */
  function PresentationTimeUs(n: int, durationUs: int): int
  {
    n * durationUs
  }

  lemma Distribute(a: int, b: int, c: int)
    ensures (a + b) * c == a * c + b * c
  {
  }

  lemma ProductAtLeast(k: int, d: int)
    requires k >= 1 && d > 0
    ensures k * d >= d
  {
    Distribute(k - 1, 1, d);
  }

  /** With a positive frame duration, later frames get strictly later timestamps, spaced by
      exactly the duration per frame. */
  lemma PacerStrictlyIncreasing(n: int, m: int, durationUs: int)
    requires n < m && durationUs > 0
    ensures PresentationTimeUs(n, durationUs) < PresentationTimeUs(m, durationUs)
    ensures PresentationTimeUs(m, durationUs) - PresentationTimeUs(n, durationUs) == (m - n) * durationUs
  {
    Distribute(n, m - n, durationUs);
    ProductAtLeast(m - n, durationUs);
  }

  /** Timestamps handed out by the pacer from frame 0 on: the k-th is PresentationTimeUs(k). */
  predicate PacedStamps(stamps: seq<int>, durationUs: int)
  {
    forall k :: 0 <= k < |stamps| ==> stamps[k] == PresentationTimeUs(k, durationUs)
  }

  /** The timestamps of the frames queued since a session began, all at a positive frame
      duration, strictly increase and are spaced by whole frame durations. */
  lemma PacedStampsIncrease(stamps: seq<int>, durationUs: int)
    requires PacedStamps(stamps, durationUs) && durationUs > 0
    ensures forall i, j :: 0 <= i < j < |stamps| ==>
              stamps[i] < stamps[j] && stamps[j] - stamps[i] == (j - i) * durationUs
  {
    forall i, j | 0 <= i < j < |stamps|
      ensures stamps[i] < stamps[j] && stamps[j] - stamps[i] == (j - i) * durationUs
    {
      PacerStrictlyIncreasing(i, j, durationUs);
    }
  }

  // ---------------------------------------------------------------------------------------
  // Active duration

  /** The reported duration in milliseconds: 0 when not recording, otherwise the time since
      the start less the accumulated pauses, less the pause in progress if any. */
  function ActiveDuration(recording: bool, paused: bool, startTime: int, pausedTotal: int,
                          lastPauseTime: int, now: int): (d: int)
    ensures !recording ==> d == 0
    ensures recording && !paused ==> d == now - startTime - pausedTotal
    ensures recording && paused ==> d == lastPauseTime - startTime - pausedTotal
  {
    if !recording then 0
    else
      var active := (now - startTime) - pausedTotal;
      if paused then active - (now - lastPauseTime) else active
  }

  /** While paused the duration stands still. */
  lemma DurationFrozenWhilePaused(startTime: int, pausedTotal: int, lastPauseTime: int, t1: int, t2: int)
    ensures ActiveDuration(true, true, startTime, pausedTotal, lastPauseTime, t1)
            == ActiveDuration(true, true, startTime, pausedTotal, lastPauseTime, t2)
  {
  }

  /** Pausing at t1 and resuming at t2 changes nothing at either moment, and afterwards the
      duration is the unpaused one less exactly the pause t2 - t1. */
  lemma PauseResumeContinuity(startTime: int, pausedTotal: int, t1: int, t2: int, now: int)
    ensures ActiveDuration(true, false, startTime, pausedTotal, 0, t1)
            == ActiveDuration(true, true, startTime, pausedTotal, t1, t1)
    ensures ActiveDuration(true, true, startTime, pausedTotal, t1, t2)
            == ActiveDuration(true, false, startTime, pausedTotal + (t2 - t1), t1, t2)
    ensures ActiveDuration(true, false, startTime, pausedTotal + (t2 - t1), t1, now)
            == ActiveDuration(true, false, startTime, pausedTotal, t1, now) - (t2 - t1)
  {
  }

  // ---------------------------------------------------------------------------------------
  // Encoder-load monitor

  const MaxInputBuffers: int := 16
  const WarningBufferThreshold: int := 12
  const CriticalBufferThreshold: int := 14

  datatype Load = Normal | Warning | Critical

  /** The level the monitor reports for a count of outstanding input buffers. */
  function MonitorLoad(inputBufferCount: int): (l: Load)
    ensures l == Critical <==> inputBufferCount >= CriticalBufferThreshold
    ensures l == Warning <==> WarningBufferThreshold <= inputBufferCount < CriticalBufferThreshold
    ensures l == Normal <==> inputBufferCount < WarningBufferThreshold
  {
    if inputBufferCount >= CriticalBufferThreshold then Critical
    else if inputBufferCount >= WarningBufferThreshold then Warning
    else Normal
  }

  function Severity(l: Load): nat
  {
    match l
    case Normal => 0
    case Warning => 1
    case Critical => 2
  }

  /** More outstanding buffers never lower the reported level, and both thresholds lie
      below the encoder's buffer count. */
  lemma MonitorMonotone(a: int, b: int)
    requires a <= b
    ensures Severity(MonitorLoad(a)) <= Severity(MonitorLoad(b))
    ensures WarningBufferThreshold < CriticalBufferThreshold < MaxInputBuffers
  {
  }

  // ---------------------------------------------------------------------------------------
  // Poll-mode capture

  /** One unpaused capture tick: a frame captured now replaces the last good frame and is
      submitted; when the capture fails, the last good frame, if any, is submitted again. */
  function Tick<T>(last: Option<T>, captured: Option<T>): (r: (Option<T>, Option<T>))
    ensures captured.Some? ==> r == (captured, captured)
    ensures captured.None? ==> r == (last, last)
  {
    if captured.Some? then (captured, captured) else (last, last)
  }

  /** The last good frame after a run of unpaused ticks. */
  function LastGood<T>(last: Option<T>, captures: seq<Option<T>>): Option<T>
  {
    if |captures| == 0 then last
    else Tick(LastGood(last, captures[..|captures| - 1]), captures[|captures| - 1]).1
  }

  /** The frames a run of unpaused ticks submits, in order. */
  function Submitted<T>(last: Option<T>, captures: seq<Option<T>>): seq<T>
  {
    if |captures| == 0 then []
    else
      var n := |captures| - 1;
      var submit := Tick(LastGood(last, captures[..n]), captures[n]).0;
      Submitted(last, captures[..n]) + (if submit.Some? then [submit.value] else [])
  }

  /** The last good frame is the initial one or one of the captured frames. */
  lemma {:induction false} LastGoodIsCaptured<T>(last: Option<T>, captures: seq<Option<T>>)
    ensures LastGood(last, captures) == last || LastGood(last, captures) in captures
  {
    if |captures| > 0 {
      var n := |captures| - 1;
      if captures[n].None? {
        LastGoodIsCaptured(last, captures[..n]);
        assert LastGood(last, captures[..n]) in captures[..n] ==> LastGood(last, captures[..n]) in captures;
      }
    }
  }

  /** Failed captures after tick k leave the last good frame as it was after tick k. */
  lemma {:induction false} FailuresKeepLastGood<T>(last: Option<T>, captures: seq<Option<T>>, k: nat)
    requires k <= |captures|
    requires forall j :: k <= j < |captures| ==> captures[j].None?
    ensures LastGood(last, captures) == LastGood(last, captures[..k])
  {
    if k < |captures| {
      var n := |captures| - 1;
      assert captures[..n][..k] == captures[..k];
      FailuresKeepLastGood(last, captures[..n], k);
    } else {
      assert captures[..k] == captures;
    }
  }

  /** Once a good frame exists, every tick submits one, keeping the frame rate however
      often the capture fails; the frame of tick k is the last good frame after that tick. */
  lemma {:induction false} CaptureKeepsTiming<T>(last: Option<T>, captures: seq<Option<T>>)
    requires last.Some?
    ensures |Submitted(last, captures)| == |captures|
    ensures forall k :: 0 <= k < |captures| ==>
              LastGood(last, captures[..k + 1]) == Some(Submitted(last, captures)[k])
  {
    if |captures| > 0 {
      var n := |captures| - 1;
      var before := captures[..n];
      CaptureKeepsTiming(last, before);
      LastGoodSome(last, before);
      forall k | 0 <= k < |captures|
        ensures LastGood(last, captures[..k + 1]) == Some(Submitted(last, captures)[k])
      {
        if k < n {
          assert captures[..k + 1] == before[..k + 1];
        } else {
          assert captures[..k + 1] == captures;
        }
      }
    }
  }

  /** Starting from a good frame, a good frame always remains. */
  lemma {:induction false} LastGoodSome<T>(last: Option<T>, captures: seq<Option<T>>)
    requires last.Some?
    ensures LastGood(last, captures).Some?
  {
    if |captures| > 0 {
      LastGoodSome(last, captures[..|captures| - 1]);
    }
  }

  /** Ticks compose: the last good frame after `a + b` is the one `b` leaves when started
      from the last good frame after `a`. */
  lemma {:induction false} LastGoodAppend<T>(last: Option<T>, a: seq<Option<T>>, b: seq<Option<T>>)
    ensures LastGood(last, a + b) == LastGood(LastGood(last, a), b)
  {
    if |b| == 0 {
      assert a + b == a;
    } else {
      var n := |b| - 1;
      assert (a + b)[..|a + b| - 1] == a + b[..n];
      assert (a + b)[|a + b| - 1] == b[n];
      LastGoodAppend(last, a, b[..n]);
    }
  }

  /** The frames submitted over `a + b` are those of `a` followed by those `b` submits when
      started from the last good frame after `a`. */
  lemma {:induction false} SubmittedAppend<T>(last: Option<T>, a: seq<Option<T>>, b: seq<Option<T>>)
    ensures Submitted(last, a + b) == Submitted(last, a) + Submitted(LastGood(last, a), b)
  {
    if |b| == 0 {
      assert a + b == a;
    } else {
      var n := |b| - 1;
      assert (a + b)[..|a + b| - 1] == a + b[..n];
      assert (a + b)[|a + b| - 1] == b[n];
      SubmittedAppend(last, a, b[..n]);
      LastGoodAppend(last, a, b[..n]);
    }
  }

  /** The number of failed captures before the first successful one. */
  function LeadingNones<T>(captures: seq<Option<T>>): (k: nat)
    ensures k <= |captures|
    ensures forall j :: 0 <= j < k ==> captures[j].None?
    ensures k < |captures| ==> captures[k].Some?
  {
    if |captures| == 0 || captures[0].Some? then 0 else 1 + LeadingNones(captures[1..])
  }

  /** A session that starts with no frame submits nothing for the failed captures before
      the first good one, and from that one on submits a frame on every tick, starting with
      the first good frame. */
  lemma SubmittedFromNothing<T>(captures: seq<Option<T>>)
    ensures |Submitted(None, captures)| == |captures| - LeadingNones(captures)
    ensures LeadingNones(captures) < |captures| ==>
              Submitted(None, captures)[0] == captures[LeadingNones(captures)].value
  {
    var k := LeadingNones(captures);
    var before, after := captures[..k], captures[k..];
    assert captures == before + after;
    NothingBeforeFirstCapture(before);
    SubmittedAppend(None, before, after);
    if k < |captures| {
      var first, rest := after[..1], after[1..];
      assert after == first + rest;
      assert first[..0] == [];
      SubmittedAppend(None, first, rest);
      CaptureKeepsTiming(LastGood(None, first), rest);
    }
  }

  /** Before the first successful capture of a session nothing is submitted. */
  lemma {:induction false} NothingBeforeFirstCapture<T>(captures: seq<Option<T>>)
    requires forall k :: 0 <= k < |captures| ==> captures[k].None?
    ensures Submitted(None, captures) == [] && LastGood(None, captures) == None
  {
    if |captures| > 0 {
      NothingBeforeFirstCapture(captures[..|captures| - 1]);
    }
  }
}
