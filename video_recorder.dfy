/** The recording engine: a VideoRecorder object whose methods start, pause, resume and stop
    a session, feed frames to the video encoder, and drain the encoder into the muxer.

    The Android codec objects are not modelled. What the recorder hands to them is: the
    input buffers queued on the encoder (`queued`), and the tracks added to the muxer, the
    samples written to it and the output buffers released back to the encoder (`mux`).
    What they answer arrives as parameters: whether an input slot was free and how large
    its buffer is, and the events the encoder reports to a drain loop. The wall clock is
    the parameter `now`.

    The recorder's fields are grouped the way the class declares them (recording state,
    codec references, configuration, frame timing); a method updates each group with one
    assignment. */
module Recorder {
  import opened Wrappers
  import opened YuvConvert
  import opened Drain
  import opened Session

  /** A bitmap as getPixels returns it: ARGB ints in row-major order. */
  datatype Bitmap = Bitmap(width: nat, height: nat, pixels: seq<int>)

  predicate ValidBitmap(b: Bitmap)
  {
    b.width > 0 && b.height > 0 && |b.pixels| == Mul(b.height, b.width)
  }

  /** One queueInputBuffer call: its bytes, presentation time, and end-of-stream flag. */
  datatype InputBuffer = InputBuffer(data: seq<byte>, timeUs: int, endOfStream: bool)

  /** The empty buffer queued back when an input slot came without a usable buffer. */
  const EmptyInput: InputBuffer := InputBuffer([], 0, false)

  /** What one iteration of the capture loop receives: the bitmap the view returned, if
      any; the bitmap scaled to the recording size, used when a frame is larger than that;
      whether the encoder had an input slot free and the capacity of its buffer (None when
      getInputBuffer returned null); and the events the encoder reports to the drain that
      follows. */
  datatype CaptureTick = CaptureTick(captured: Option<Bitmap>, scaled: Bitmap, slot: bool,
                                     capacity: Option<nat>, events: seq<OutputEvent>)

  /** The captures of a run of ticks. */
  function Captures(ticks: seq<CaptureTick>): (c: seq<Option<Bitmap>>)
    ensures |c| == |ticks| && forall k :: 0 <= k < |ticks| ==> c[k] == ticks[k].captured
  {
    seq(|ticks|, k requires 0 <= k < |ticks| => ticks[k].captured)
  }

  /** The bitmap the converter works on: a frame larger than the recording size in either
      direction is replaced by its scaled copy. */
  function TargetFrame(frame: Bitmap, scaled: Bitmap, videoWidth: int, videoHeight: int): (t: Bitmap)
    ensures frame.width <= videoWidth && frame.height <= videoHeight ==> t == frame
    ensures ValidBitmap(frame) && (frame.width > videoWidth || frame.height > videoHeight ==> ValidBitmap(scaled)) ==>
              ValidBitmap(t)
  {
    if frame.width > videoWidth || frame.height > videoHeight then scaled else frame
  }

  /** convertBitmapToYUV420: the frame, replaced by its scaled copy when it is larger than
      the recording size, converted by the recorder's formulas. With an odd dimension the
      chroma writes run past the end of the array (ChromaFitsIffEvenDimensions) and the
      conversion throws: None. */
  method ConvertBitmap(frame: Bitmap, scaled: Bitmap, videoWidth: int, videoHeight: int) returns (r: Option<seq<byte>>)
    requires ValidBitmap(frame)
    requires frame.width > videoWidth || frame.height > videoHeight ==> ValidBitmap(scaled)
    ensures var t := TargetFrame(frame, scaled, videoWidth, videoHeight);
            (r.Some? <==> t.width % 2 == 0 && t.height % 2 == 0) &&
            (r.Some? ==> |r.value| == Yuv420Size(t.width, t.height) &&
                         r.value == Yuv420(RecorderFormulas, t.pixels, t.width, t.height))
  {
    var target := TargetFrame(frame, scaled, videoWidth, videoHeight);
    if target.width % 2 != 0 || target.height % 2 != 0 {
      return None;
    }
    var yuv := ConvertToYuv420(RecorderFormulas, target.pixels, target.width, target.height);
    return Some(yuv[..]);
  }

  /** The recording state: isRecording, isPaused, recordingStartTime, pausedDuration and
      lastPauseTime. */
  datatype Clock = Clock(recording: bool, paused: bool, startTime: int, pausedTotal: int, lastPauseTime: int)

  /** Which codec object references are non-null: videoEncoder, audioEncoder, mediaMuxer. */
  datatype Codecs = Codecs(videoEncoder: bool, audioEncoder: bool, muxer: bool)

  const NoCodecs: Codecs := Codecs(false, false, false)

  /** The configuration: recording size, frame rate, bit rate, device type, audio. */
  datatype Config = Config(width: int, height: int, frameRate: int, bitrateMbps: int,
                           deviceType: string, includeAudio: bool)

  /** The fixed frame timing: frameCounter, frameDurationUs and lastCapturedBitmap. */
  datatype Pacer = Pacer(frameCounter: nat, frameDurationUs: int, lastCaptured: Option<Bitmap>)

  /** The muxer of a fresh recording: not started, no video track, nothing received. */
  const FreshMux: MuxState := MuxState(false, -1, 0, [], 0)

  class VideoRecorder {
    var clock: Clock
    var codecs: Codecs
    /** muxerStarted and videoTrackIndex, with what the muxer and the encoder's output
        side have received. */
    var mux: MuxState
    var audioTrackIndex: int
    var config: Config
    var inputBufferCount: int
    /** Whether the texture capture job is running. */
    var captureRunning: bool
    var pacer: Pacer
    var useDirectRecording: bool
    /** The input buffers queued on the current video encoder, in order. */
    var queued: seq<InputBuffer>

    /** The frames handed to encodeBitmapFrame, in order. */
    ghost var encodedFrames: seq<Bitmap>
    /** The presentation times the pacer has handed out since the session began, in order. */
    ghost var stamps: seq<int>

    /** What holds between calls: no audio track is ever added, the outstanding-buffer
        count is back to 0 after every frame, paused implies recording, a started muxer
        exists, and a kept frame is a valid bitmap. */
    ghost predicate Valid()
      reads this`audioTrackIndex, this`inputBufferCount, this`clock, this`mux, this`codecs, this`pacer
    {
      audioTrackIndex == -1 && inputBufferCount == 0 &&
      (clock.paused ==> clock.recording) && MuxerGate() &&
      (pacer.lastCaptured.Some? ==> ValidBitmap(pacer.lastCaptured.value))
    }

    /** The pacer has stamped frames 0, 1, ... in order: stamp k is k * frameDurationUs and
        the frame counter is the number of stamps. */
    ghost predicate Paced()
      reads this`stamps, this`pacer
    {
      |stamps| == pacer.frameCounter && PacedStamps(stamps, pacer.frameDurationUs)
    }

    /** A started muxer exists. */
    predicate MuxerGate()
      reads this`mux, this`codecs
    {
      mux.started ==> codecs.muxer
    }

    /** getRecordingDuration at wall-clock time `now`. */
    function RecordingDuration(now: int): int
      reads this`clock
    {
      ActiveDuration(clock.recording, clock.paused, clock.startTime, clock.pausedTotal, clock.lastPauseTime, now)
    }

    /** A new recorder: 256x192 at 25 fps, 15 Mbps, device "256", audio included, 20000 us
        per frame, direct mode on, nothing recording. */
    constructor ()
      ensures Valid() && fresh(this)
      ensures clock == Clock(false, false, 0, 0, 0) && codecs == NoCodecs && mux == FreshMux
      ensures config == Config(256, 192, 25, 15, "256", true)
      ensures pacer == Pacer(0, 20000, None)
      ensures audioTrackIndex == -1 && inputBufferCount == 0 && !captureRunning && useDirectRecording
      ensures queued == [] && encodedFrames == [] && stamps == [] && Paced()
    {
      clock := Clock(false, false, 0, 0, 0);
      codecs := NoCodecs;
      mux := FreshMux;
      audioTrackIndex := -1;
      config := Config(256, 192, 25, 15, "256", true);
      inputBufferCount := 0;
      captureRunning := false;
      pacer := Pacer(0, 20000, None);
      useDirectRecording := true;
      queued := [];
      encodedFrames := [];
      stamps := [];
    }

    /** configure: stores the settings, then derives the frame duration from the rate by
        Kotlin's truncating Long division. A zero rate throws (`thrown`) after the settings
        are stored, leaving the frame duration as it was. */
    method Configure(width: int, height: int, fps: int, deviceType: string, bitrateMbps: int, includeAudio: bool)
      returns (thrown: bool)
      requires Valid()
      modifies this`config, this`pacer
      ensures Valid()
      ensures thrown <==> fps == 0
      ensures config == Config(width, height, fps, bitrateMbps, deviceType, includeAudio)
      ensures pacer == old(pacer).(frameDurationUs := if thrown then old(pacer.frameDurationUs) else FrameDurationUs(fps))
      ensures old(Paced()) && old(pacer.frameCounter) == 0 ==> Paced()
    {
      config := Config(width, height, fps, bitrateMbps, deviceType, includeAudio);
      if fps == 0 {
        return true;
      }
      pacer := pacer.(frameDurationUs := FrameDurationUs(fps));
      return false;
    }

    /** cleanup: releases the codec objects and the kept frame, and resets the muxer gate,
        the track indices, the buffer count and the frame counter. */
    method Cleanup()
      requires Valid()
      modifies this`codecs, this`pacer, this`mux, this`audioTrackIndex, this`inputBufferCount, this`stamps
      ensures Valid() && Paced()
      ensures codecs == NoCodecs && audioTrackIndex == -1 && inputBufferCount == 0
      ensures pacer == old(pacer).(frameCounter := 0, lastCaptured := None) && stamps == []
      ensures mux == old(mux).(started := false, videoTrack := -1)
    {
      codecs := NoCodecs;
      pacer := pacer.(frameCounter := 0, lastCaptured := None);
      stamps := [];
      mux := mux.(started := false, videoTrack := -1);
      audioTrackIndex := -1;
      inputBufferCount := 0;
    }

    /** startRecording at time `now`. Already recording: nothing changes. Otherwise, when
        setting up the file, encoders and muxer fails (`setupFails`), the method cleans up
        and leaves recording off. On success it creates the video encoder, the audio encoder
        when audio is included, and a fresh muxer with no track, resets the frame pacer,
        and starts the session unpaused at `now`. In direct mode a native library that
        cannot be linked switches the recorder to view capture; view capture starts only
        when there is a view. Starting view capture divides by the frame rate, so with a
        rate of 0 it throws after the session has begun: the catch cleans up, releasing
        the codecs, and recording stays on with no capture running. */
    method StartRecording(now: int, setupFails: bool, nativeLinks: bool, hasTextureView: bool)
      requires Valid()
      modifies this`clock, this`codecs, this`mux, this`queued, this`pacer, this`audioTrackIndex
      modifies this`inputBufferCount, this`useDirectRecording, this`captureRunning, this`stamps
      ensures Valid()
      ensures old(clock.recording) ==> unchanged(this)
      ensures !old(clock.recording) ==> stamps == [] && Paced()
      ensures !old(clock.recording) && setupFails ==>
                clock == old(clock) && codecs == NoCodecs && !mux.started && pacer.frameCounter == 0 &&
                useDirectRecording == old(useDirectRecording) && captureRunning == old(captureRunning)
      ensures !old(clock.recording) && !setupFails ==>
                clock == old(clock).(recording := true, paused := false, startTime := now, pausedTotal := 0) &&
                RecordingDuration(now) == 0 && mux == FreshMux && queued == [] &&
                pacer == old(pacer).(frameCounter := 0, lastCaptured := None) &&
                useDirectRecording == (old(useDirectRecording) && nativeLinks) &&
                if !useDirectRecording && hasTextureView && config.frameRate == 0 then
                  codecs == NoCodecs && captureRunning == old(captureRunning)
                else
                  codecs == Codecs(true, config.includeAudio, true) &&
                  captureRunning == (old(captureRunning) || (!useDirectRecording && hasTextureView))
    {
      if clock.recording {
        return;
      }
      if setupFails {
        Cleanup();
        return;
      }
      // createOutputFile, setupVideoEncoder, setupAudioEncoder (when audio is included),
      // setupMuxer: a fresh encoder and muxer
      codecs := Codecs(true, config.includeAudio, true);
      queued := [];
      mux := FreshMux;
      audioTrackIndex := -1;
      // reset frame timing
      pacer := pacer.(frameCounter := 0, lastCaptured := None);
      stamps := [];
      clock := clock.(recording := true, paused := false, startTime := now, pausedTotal := 0);
      var direct, startCapture := useDirectRecording, false;
      if direct {
        if !nativeLinks {
          direct := false;
          startCapture := hasTextureView;
        }
      } else {
        startCapture := hasTextureView;
      }
      useDirectRecording := direct;
      if startCapture {
        if config.frameRate == 0 {
          // startTextureCapture: 1000L / frameRate throws before the job is launched
          Cleanup();
          return;
        }
        captureRunning := true;
      }
    }

    /** stopRecording. Not recording: nothing changes, so a second stop does nothing.
        Otherwise the session ends unpaused, view capture stops, the encoder is drained
        with end of stream, and cleanup runs. */
    method StopRecording(inputSlot: bool, events: seq<OutputEvent>)
      requires Valid()
      modifies this`clock, this`captureRunning, this`queued, this`mux
      modifies this`codecs, this`pacer, this`audioTrackIndex, this`inputBufferCount, this`stamps
      ensures Valid()
      ensures !old(clock.recording) ==> unchanged(this)
      ensures old(clock.recording) ==> stamps == [] && Paced()
      ensures old(clock.recording) ==>
                clock == old(clock).(recording := false, paused := false) && RecordingDuration(0) == 0 &&
                codecs == NoCodecs && !mux.started && pacer.frameCounter == 0 && pacer.lastCaptured.None? &&
                captureRunning == (old(captureRunning) && useDirectRecording)
      ensures old(clock.recording && codecs.videoEncoder && codecs.muxer) ==>
                queued == old(queued) + (if inputSlot then [InputBuffer([], old(pacer.frameCounter) * pacer.frameDurationUs, true)] else []) &&
                mux.written == Run(config.includeAudio, -1, old(mux), events).written
    {
      if !clock.recording {
        return;
      }
      clock := clock.(recording := false, paused := false);
      if !useDirectRecording {
        captureRunning := false;
      }
      DrainEncoder(true, inputSlot, events);
      Cleanup();
    }

    /** pauseRecording at time `now`: allowed only while recording and not paused; the
        reported duration does not change. */
    method Pause(now: int)
      requires Valid()
      modifies this`clock
      ensures Valid()
      ensures old(clock.recording && !clock.paused) ==> clock == old(clock).(paused := true, lastPauseTime := now)
      ensures !old(clock.recording && !clock.paused) ==> unchanged(this)
      ensures RecordingDuration(now) == old(RecordingDuration(now))
    {
      if !clock.recording || clock.paused {
        return;
      }
      clock := clock.(paused := true, lastPauseTime := now);
    }

    /** resumeRecording at time `now`: allowed only while recording and paused; the pause
        just ended is added to the paused total, and the reported duration does not change. */
    method Resume(now: int)
      requires Valid()
      modifies this`clock
      ensures Valid()
      ensures old(clock.recording && clock.paused) ==>
                clock == old(clock).(paused := false, pausedTotal := old(clock.pausedTotal) + (now - clock.lastPauseTime))
      ensures !old(clock.recording && clock.paused) ==> unchanged(this)
      ensures RecordingDuration(now) == old(RecordingDuration(now))
    {
      if !clock.recording || !clock.paused {
        return;
      }
      clock := clock.(paused := false, pausedTotal := clock.pausedTotal + (now - clock.lastPauseTime));
    }

    /** drainEncoder. Without an encoder or a muxer it does nothing. With end of stream it
        queues one empty end-of-stream buffer stamped with the next frame time if an input
        slot is free, and does not retry otherwise. Then it runs the output loop, which
        follows Drain.Run. */
    method DrainEncoder(endOfStream: bool, inputSlot: bool, events: seq<OutputEvent>)
      requires MuxerGate()
      modifies this`queued, this`mux
      ensures MuxerGate()
      ensures !(codecs.videoEncoder && codecs.muxer) ==> unchanged(this)
      ensures codecs.videoEncoder && codecs.muxer ==>
                queued == old(queued) + (if endOfStream && inputSlot
                                         then [InputBuffer([], pacer.frameCounter * pacer.frameDurationUs, true)] else []) &&
                mux == Run(config.includeAudio, audioTrackIndex, old(mux), events)
    {
      if !codecs.videoEncoder || !codecs.muxer {
        return;
      }
      if endOfStream && inputSlot {
        queued := queued + [InputBuffer([], pacer.frameCounter * pacer.frameDurationUs, true)];
      }
      var includeAudio, audioTrack := config.includeAudio, audioTrackIndex;
      var m := mux;
      var available := true;
      var i := 0;
      while available
        invariant i <= |events|
        invariant available ==> Run(includeAudio, audioTrack, old(mux), events) == Run(includeAudio, audioTrack, m, events[i..])
        invariant !available ==> m == Run(includeAudio, audioTrack, old(mux), events)
        decreases |events| - i, available
      {
        if i == |events| {
          // nothing more to report: INFO_TRY_AGAIN_LATER
          available := false;
        } else {
          var e := events[i];
          assert events[i..][0] == e && events[i..][1..] == events[i + 1..];
          i := i + 1;
          match e {
            case TryAgainLater =>
              available := false;
            case FormatChanged =>
              if !m.started {
                m := m.(videoTrack := m.trackCount, trackCount := m.trackCount + 1);
                if !includeAudio || audioTrack >= 0 {
                  m := m.(started := true);
                }
              }
            case OtherInfo =>
            case Output(hasData, size, timeUs, codecConfig, eos) =>
              if hasData {
                var size' := if codecConfig then 0 else size;
                if size' > 0 && m.started {
                  m := m.(written := m.written + [Sample(m.videoTrack, size', timeUs)]);
                }
              }
              m := m.(released := m.released + 1);
              if eos {
                available := false;
              }
          }
        }
      }
      mux := m;
    }

    /** onNativeYUVFrame: a frame from the native producer, queued with the producer's own
        timestamp. Dropped while not recording or paused, without an encoder, or without a
        free input slot; a slot whose buffer is missing or too small is queued back empty. */
    method OnNativeYuvFrame(yuvData: seq<byte>, timestampUs: int, slot: bool, capacity: Option<nat>,
                            events: seq<OutputEvent>)
      requires Valid()
      modifies this`queued, this`mux
      ensures Valid()
      ensures !(clock.recording && !clock.paused && codecs.videoEncoder && slot) ==> unchanged(this)
      ensures clock.recording && !clock.paused && codecs.videoEncoder && slot ==>
                if capacity.Some? && |yuvData| <= capacity.value
                then queued == old(queued) + [InputBuffer(yuvData, timestampUs, false)] &&
                     mux == (if codecs.muxer then Run(config.includeAudio, audioTrackIndex, old(mux), events) else old(mux))
                else queued == old(queued) + [EmptyInput] && mux == old(mux)
    {
      if !clock.recording || clock.paused {
        return;
      }
      if !codecs.videoEncoder || !slot {
        return;
      }
      if capacity.Some? && |yuvData| <= capacity.value {
        queued := queued + [InputBuffer(yuvData, timestampUs, false)];
        DrainEncoder(false, false, events);
      } else {
        queued := queued + [EmptyInput];
      }
    }

    /** Whether encodeBitmapFrame gets as far as queueing the converted `target`: an
        encoder, a free slot with a buffer, even dimensions (otherwise the conversion
        overruns its array), and a buffer that holds the converted frame (otherwise put
        overflows). */
    predicate Accepts(target: Bitmap, slot: bool, capacity: Option<nat>)
      reads this`codecs
    {
      codecs.videoEncoder && slot && capacity.Some? &&
      target.width % 2 == 0 && target.height % 2 == 0 && Yuv420Size(target.width, target.height) <= capacity.value
    }

    /** encodeBitmapFrame. Without an encoder or a free input slot the frame is dropped; a
        slot without a buffer is queued back empty. Otherwise the frame, scaled down when it
        is larger than the recording size, is converted; a conversion that throws (an odd
        dimension, ChromaFitsIffEvenDimensions) or does not fit the buffer drops the frame.
        A converted frame is queued with the pacer's timestamp frameCounter * frameDurationUs,
        the counter advances, the encoder is drained, and the monitored load is back to
        normal. */
    method EncodeBitmapFrame(frame: Bitmap, scaled: Bitmap, slot: bool, capacity: Option<nat>, events: seq<OutputEvent>)
      requires Valid() && ValidBitmap(frame)
      requires frame.width > config.width || frame.height > config.height ==>
                 ValidBitmap(scaled) && scaled.width == config.width && scaled.height == config.height
      modifies this`encodedFrames, this`queued, this`pacer, this`inputBufferCount, this`mux, this`stamps
      ensures Valid()
      ensures old(Paced()) ==> Paced()
      ensures encodedFrames == old(encodedFrames) + [frame]
      ensures var target := TargetFrame(frame, scaled, config.width, config.height);
              if Accepts(target, slot, capacity) then
                queued == old(queued) + [InputBuffer(Yuv420(RecorderFormulas, target.pixels, target.width, target.height),
                                                     old(pacer.frameCounter) * pacer.frameDurationUs, false)] &&
                pacer == old(pacer).(frameCounter := old(pacer.frameCounter) + 1) &&
                stamps == old(stamps) + [old(pacer.frameCounter) * pacer.frameDurationUs] &&
                mux == (if codecs.muxer then Run(config.includeAudio, audioTrackIndex, old(mux), events) else old(mux)) &&
                MonitorLoad(inputBufferCount) == Normal
              else
                pacer == old(pacer) && stamps == old(stamps) && mux == old(mux) &&
                queued == old(queued) + (if codecs.videoEncoder && slot && capacity.None? then [EmptyInput] else [])
    {
      encodedFrames := encodedFrames + [frame];
      if !codecs.videoEncoder || !slot {
        return;
      }
      if capacity.None? {
        queued := queued + [EmptyInput];
        return;
      }
      var converted := ConvertBitmap(frame, scaled, config.width, config.height);
      if converted.None? || |converted.value| > capacity.value {
        // the conversion threw, or put overflows the buffer: the exception drops the frame
        return;
      }
      QueueFrame(converted.value, events);
    }

    /** The part of encodeBitmapFrame after a successful conversion: the frame is queued
        with the pacer's timestamp frameCounter * frameDurationUs, the counter advances,
        the encoder is drained, and the outstanding-buffer count is back where it was, so
        the monitored load is normal. */
    method QueueFrame(data: seq<byte>, events: seq<OutputEvent>)
      requires Valid() && codecs.videoEncoder
      modifies this`queued, this`pacer, this`inputBufferCount, this`mux, this`stamps
      ensures Valid()
      ensures old(Paced()) ==> Paced()
      ensures queued == old(queued) + [InputBuffer(data, old(pacer.frameCounter) * pacer.frameDurationUs, false)]
      ensures stamps == old(stamps) + [old(pacer.frameCounter) * pacer.frameDurationUs]
      ensures pacer == old(pacer).(frameCounter := old(pacer.frameCounter) + 1)
      ensures mux == (if codecs.muxer then Run(config.includeAudio, audioTrackIndex, old(mux), events) else old(mux))
      ensures MonitorLoad(inputBufferCount) == Normal
    {
      var presentationTimeUs := pacer.frameCounter * pacer.frameDurationUs;
      pacer := pacer.(frameCounter := pacer.frameCounter + 1);
      queued := queued + [InputBuffer(data, presentationTimeUs, false)];
      stamps := stamps + [presentationTimeUs];
      inputBufferCount := inputBufferCount + 1;
      DrainEncoder(false, false, events);
      inputBufferCount := if inputBufferCount - 1 < 0 then 0 else inputBufferCount - 1;
    }

    /** What a tick's inputs must be: a captured bitmap is a valid bitmap, and the scaled
        copy has the recording size. */
    ghost predicate TickFits(tick: CaptureTick)
      reads this`config
    {
      (tick.captured.Some? ==> ValidBitmap(tick.captured.value)) &&
      ValidBitmap(tick.scaled) && tick.scaled.width == config.width && tick.scaled.height == config.height
    }

    /** One iteration of the capture loop while recording: when not paused, a captured
        bitmap becomes the kept frame and is encoded; when the capture failed, the kept
        frame, if any, is encoded again. */
    method CaptureOnce(tick: CaptureTick)
      requires Valid() && TickFits(tick)
      modifies this`encodedFrames, this`queued, this`pacer, this`inputBufferCount, this`mux, this`stamps
      ensures Valid()
      ensures old(Paced()) ==> Paced()
      ensures clock.paused ==> unchanged(this)
      ensures !clock.paused ==>
                var (submit, last) := Tick(old(pacer.lastCaptured), tick.captured);
                pacer.lastCaptured == last &&
                encodedFrames == old(encodedFrames) + (if submit.Some? then [submit.value] else [])
    {
      if clock.paused {
        return;
      }
      if tick.captured.Some? {
        pacer := pacer.(lastCaptured := tick.captured);
        EncodeBitmapFrame(tick.captured.value, tick.scaled, tick.slot, tick.capacity, tick.events);
      } else if pacer.lastCaptured.Some? {
        EncodeBitmapFrame(pacer.lastCaptured.value, tick.scaled, tick.slot, tick.capacity, tick.events);
      }
    }

    /** The capture loop of startTextureCapture over a run of ticks: it runs while
        recording; a paused session submits nothing, and an unpaused one submits the
        frames Session.Submitted describes and keeps the frame Session.LastGood describes. */
    method CaptureLoop(ticks: seq<CaptureTick>)
      requires Valid()
      requires forall k :: 0 <= k < |ticks| ==> TickFits(ticks[k])
      modifies this`encodedFrames, this`queued, this`pacer, this`inputBufferCount, this`mux, this`stamps
      ensures Valid()
      ensures old(Paced()) ==> Paced()
      ensures !clock.recording || clock.paused ==> unchanged(this)
      ensures clock.recording && !clock.paused ==>
                pacer.lastCaptured == LastGood(old(pacer.lastCaptured), Captures(ticks)) &&
                encodedFrames == old(encodedFrames) + Submitted(old(pacer.lastCaptured), Captures(ticks))
    {
      if !clock.recording || clock.paused {
        return;
      }
      var i := 0;
      while i < |ticks| && clock.recording
        invariant Valid()
        invariant old(Paced()) ==> Paced()
        invariant i <= |ticks|
        invariant pacer.lastCaptured == LastGood(old(pacer.lastCaptured), Captures(ticks)[..i])
        invariant encodedFrames == old(encodedFrames) + Submitted(old(pacer.lastCaptured), Captures(ticks)[..i])
      {
        ghost var before := Captures(ticks)[..i];
        assert Captures(ticks)[..i + 1] == before + [ticks[i].captured];
        assert (before + [ticks[i].captured])[..i] == before;
        CaptureOnce(ticks[i]);
        i := i + 1;
      }
      assert Captures(ticks)[..i] == Captures(ticks);
    }
  }
}
