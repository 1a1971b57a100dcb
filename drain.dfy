/** The output side of the recorder's video encoder: what one pass of the drain loop does
    with the events the encoder reports, and how it gates the muxer. The encoder and the
    muxer are not modelled; the encoder is the sequence of events it reports, and the muxer
    is the track count and the samples written to it. */
module Drain {

  /** What one dequeueOutputBuffer call reports. Output carries the buffer-info fields the
      loop reads: whether the output buffer was returned, its size and time, and the
      codec-config and end-of-stream flags. */
  datatype OutputEvent =
    | TryAgainLater
    | FormatChanged
    | OtherInfo
    | Output(hasData: bool, size: int, timeUs: int, codecConfig: bool, endOfStream: bool)

  /** One writeSampleData call on the muxer. */
  datatype Sample = Sample(track: int, size: int, timeUs: int)

  /** The muxer gate as the drain loop reads and changes it: whether the muxer has started,
      the video track index, the number of tracks added to the muxer, the samples written to
      it and the number of output buffers handed back to the encoder. */
  datatype MuxState = MuxState(started: bool, videoTrack: int, trackCount: nat, written: seq<Sample>, released: nat)

  /** The events that end the loop: no output ready, or an output flagged end of stream. */
  predicate Stops(e: OutputEvent)
  {
    e.TryAgainLater? || (e.Output? && e.endOfStream)
  }

  /** One iteration of the loop. A format change before the muxer has started adds the
      video track and starts the muxer only when no audio track is awaited; after the start
      it changes nothing. An output buffer is written when it is not codec config, is
      non-empty and the muxer has started, and is released in every case. */
  function Step(includeAudio: bool, audioTrack: int, m: MuxState, e: OutputEvent): (r: MuxState)
    ensures e.FormatChanged? && !m.started ==>
              r == m.(videoTrack := m.trackCount, trackCount := m.trackCount + 1,
                      started := !includeAudio || audioTrack >= 0)
    ensures !(e.FormatChanged? && !m.started) ==>
              r.started == m.started && r.videoTrack == m.videoTrack && r.trackCount == m.trackCount
    ensures e.Output? ==> r.released == m.released + 1
    ensures !e.Output? ==> r.released == m.released && r.written == m.written
    ensures e.Output? ==>
              r.written == m.written + (if Writes(m, e) then [Sample(m.videoTrack, e.size, e.timeUs)] else [])
  {
    match e
    case TryAgainLater => m
    case OtherInfo => m
    case FormatChanged =>
      if m.started then m
      else m.(videoTrack := m.trackCount, trackCount := m.trackCount + 1, started := !includeAudio || audioTrack >= 0)
    case Output(hasData, size, timeUs, codecConfig, endOfStream) =>
      var written := if hasData && !codecConfig && size > 0 && m.started
                     then m.written + [Sample(m.videoTrack, size, timeUs)]
                     else m.written;
      m.(written := written, released := m.released + 1)
  }

  /** Whether an output buffer reaches the muxer: it was returned, it is not codec config
      (whose size the loop zeroes), it is non-empty, and the muxer has started. */
  predicate Writes(m: MuxState, e: OutputEvent)
    requires e.Output?
  {
    e.hasData && !e.codecConfig && e.size > 0 && m.started
  }

  /** A whole drain loop over the events the encoder reports, up to and including the first
      event that stops it. An encoder with nothing more to report answers TryAgainLater,
      which is what running out of events stands for. */
  function Run(includeAudio: bool, audioTrack: int, m: MuxState, events: seq<OutputEvent>): MuxState
    decreases |events|
  {
    if |events| == 0 then m
    else
      var next := Step(includeAudio, audioTrack, m, events[0]);
      if Stops(events[0]) then next else Run(includeAudio, audioTrack, next, events[1..])
  }

  /** Number of events one drain loop consumes. */
  function Consumed(events: seq<OutputEvent>): (n: nat)
    ensures n <= |events|
    ensures forall k :: 0 <= k < n - 1 ==> !Stops(events[k])
    ensures n < |events| ==> n > 0 && Stops(events[n - 1])
  {
    if |events| == 0 then 0
    else if Stops(events[0]) then 1
    else 1 + Consumed(events[1..])
  }

  /** Number of output buffers among some events. */
  function Outputs(events: seq<OutputEvent>): nat
  {
    if |events| == 0 then 0 else (if events[0].Output? then 1 else 0) + Outputs(events[1..])
  }

  /** The loop looks at no event past the first one that stops it. */
  lemma {:induction false} RunIgnoresLaterEvents(includeAudio: bool, audioTrack: int, m: MuxState,
                                                 events: seq<OutputEvent>, later: seq<OutputEvent>)
    requires exists k :: 0 <= k < |events| && Stops(events[k])
    ensures Run(includeAudio, audioTrack, m, events + later) == Run(includeAudio, audioTrack, m, events)
    decreases |events|
  {
    assert (events + later)[0] == events[0];
    if !Stops(events[0]) {
      var k :| 0 <= k < |events| && Stops(events[k]);
      assert Stops(events[1..][k - 1]);
      assert (events + later)[1..] == events[1..] + later;
      RunIgnoresLaterEvents(includeAudio, audioTrack, Step(includeAudio, audioTrack, m, events[0]), events[1..], later);
    }
  }

  /** A run equals the run over the consumed events alone. */
  lemma {:induction false} RunOfConsumed(includeAudio: bool, audioTrack: int, m: MuxState, events: seq<OutputEvent>)
    ensures Run(includeAudio, audioTrack, m, events) == Run(includeAudio, audioTrack, m, events[..Consumed(events)])
    decreases |events|
  {
    if |events| > 0 {
      var e := events[..Consumed(events)];
      assert e[0] == events[0];
      if !Stops(events[0]) {
        assert e[1..] == events[1..][..Consumed(events[1..])];
        RunOfConsumed(includeAudio, audioTrack, Step(includeAudio, audioTrack, m, events[0]), events[1..]);
      }
    }
  }

  /** Every output buffer the loop consumes is released, and nothing else is. */
  lemma {:induction false} RunReleasesEveryOutput(includeAudio: bool, audioTrack: int, m: MuxState, events: seq<OutputEvent>)
    ensures Run(includeAudio, audioTrack, m, events).released == m.released + Outputs(events[..Consumed(events)])
    decreases |events|
  {
    if |events| > 0 {
      var e := events[..Consumed(events)];
      assert e[0] == events[0];
      var next := Step(includeAudio, audioTrack, m, events[0]);
      if Stops(events[0]) {
        assert e == [events[0]];
        assert Outputs(e[1..]) == 0;
      } else {
        assert e[1..] == events[1..][..Consumed(events[1..])];
        RunReleasesEveryOutput(includeAudio, audioTrack, next, events[1..]);
      }
    }
  }

  /** The sample a started muxer receives for one event: one for an output buffer that was
      returned, is not codec config and is non-empty, with the buffer's size and time, on
      the given track; none for anything else. */
  function SampleOf(track: int, e: OutputEvent): (r: seq<Sample>)
    ensures |r| <= 1 && (r != [] ==> e.Output? && r[0].track == track && r[0].size > 0)
  {
    if e.Output? && e.hasData && !e.codecConfig && e.size > 0 then [Sample(track, e.size, e.timeUs)] else []
  }

  /** The samples a started muxer receives from some events, read off the events alone, in
      order. */
  function Samples(track: int, events: seq<OutputEvent>): (r: seq<Sample>)
    ensures |r| <= Outputs(events)
    ensures forall k :: 0 <= k < |r| ==> r[k].track == track && r[k].size > 0
  {
    if |events| == 0 then [] else SampleOf(track, events[0]) + Samples(track, events[1..])
  }

  /** One iteration after the start keeps the muxer gate and writes the event's sample. */
  lemma StepAfterStart(includeAudio: bool, audioTrack: int, m: MuxState, e: OutputEvent)
    requires m.started
    ensures var n := Step(includeAudio, audioTrack, m, e);
            n.started && n.videoTrack == m.videoTrack && n.trackCount == m.trackCount &&
            n.written == m.written + SampleOf(m.videoTrack, e)
  {
  }

  /** Once the muxer has started, a drain loop keeps it started, keeps the video track, adds
      no track, and appends exactly the samples of the output buffers it consumes that are
      returned, not codec config and non-empty, in order, all on the video track. */
  lemma {:induction false} RunAfterStart(includeAudio: bool, audioTrack: int, m: MuxState, events: seq<OutputEvent>)
    requires m.started
    ensures var r := Run(includeAudio, audioTrack, m, events);
            r.started && r.videoTrack == m.videoTrack && r.trackCount == m.trackCount &&
            r.written == m.written + Samples(m.videoTrack, events[..Consumed(events)])
    decreases |events|
  {
    var e := events[..Consumed(events)];
    if |events| == 0 {
      assert e == [];
    } else {
      assert e[0] == events[0];
      var next := Step(includeAudio, audioTrack, m, events[0]);
      StepAfterStart(includeAudio, audioTrack, m, events[0]);
      var head := SampleOf(m.videoTrack, events[0]);
      if Stops(events[0]) {
        assert e[1..] == [];
        assert Samples(m.videoTrack, e) == head + [];
      } else {
        var tail := events[1..];
        assert e[1..] == tail[..Consumed(tail)];
        RunAfterStart(includeAudio, audioTrack, next, tail);
        var rest := Samples(m.videoTrack, e[1..]);
        assert (m.written + head) + rest == m.written + (head + rest);
      }
    }
  }

  /** Before the muxer has started nothing is written: a loop whose muxer never starts
      leaves the samples as they were. */
  lemma {:induction false} RunWritesOnlyAfterStart(includeAudio: bool, audioTrack: int, m: MuxState, events: seq<OutputEvent>)
    requires !Run(includeAudio, audioTrack, m, events).started
    ensures !m.started
    ensures Run(includeAudio, audioTrack, m, events).written == m.written
    decreases |events|
  {
    if m.started {
      RunAfterStart(includeAudio, audioTrack, m, events);
    } else if |events| > 0 {
      var next := Step(includeAudio, audioTrack, m, events[0]);
      if !Stops(events[0]) {
        RunWritesOnlyAfterStart(includeAudio, audioTrack, next, events[1..]);
      }
    }
  }

  /** With audio included and no audio track ever added, the muxer never starts, so no
      sample is ever written, whatever the encoder reports. */
  lemma {:induction false} AwaitedAudioBlocksMuxer(audioTrack: int, m: MuxState, events: seq<OutputEvent>)
    requires audioTrack < 0 && !m.started
    ensures !Run(true, audioTrack, m, events).started
    ensures Run(true, audioTrack, m, events).written == m.written
    decreases |events|
  {
    if |events| > 0 {
      var next := Step(true, audioTrack, m, events[0]);
      if !Stops(events[0]) {
        AwaitedAudioBlocksMuxer(audioTrack, next, events[1..]);
      }
    }
  }

  /** Without audio, the first format change starts the muxer with the track it adds. */
  lemma VideoOnlyStartsOnFormatChange(m: MuxState)
    requires !m.started
    ensures var r := Step(false, -1, m, FormatChanged);
            r.started && r.videoTrack == m.trackCount && r.trackCount == m.trackCount + 1
  {
  }
}
