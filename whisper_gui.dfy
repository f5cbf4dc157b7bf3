/** The windowed front end, whisper_gui.py: its `WhisperRecorder` (with the
    guarded callback, the probe stream and the guarded stop) and the
    toggle/stop handlers of `WhisperGUI` around it. The recorder's operations
    are first given as functions on `RecorderState`; the classes are proved
    against them. Worker threads and `root.after` callbacks are taken to run
    one at a time, each to completion. */
module WhisperGui {
  import opened Dictation
  import Meter

  // ---------------------------------------------------------------------------
  // The recorder's operations on values.

  /** `start_recording`: open and close a probe stream, open the real stream,
      start it, and only then raise the flag. Any failure re-raises and
      leaves the flag as it was; a stream that opened but would not start
      stays in the `stream` field. */
  function Start(s: RecorderState, d: Device): (r: StartResult)
    ensures r.state.buffer == s.buffer && r.state.level == s.level
    ensures r.state.recording == (s.recording || r.result.Returns?)
  {
    if d.probeOpen.Fails? then StartResult(s, Raises(d.probeOpen.message))
    else if d.probeClose.Fails? then StartResult(s, Raises(d.probeClose.message))
    else if d.open.Fails? then StartResult(s, Raises(d.open.message))
    else if d.start.Fails? then StartResult(s.(stream := Opened), Raises(d.start.message))
    else StartResult(s.(stream := Running, recording := true), Returns(()))
  }

  /** What `stop_recording` leaves behind and the audio it returns. */
  datatype StopResult = StopResult(state: RecorderState, audio: Option<Waveform>)

  /** `stop_recording`: nothing when not recording; otherwise stop and close
      the stream and lower the flag, and return the blocks joined in arrival
      order, clearing the buffer, unless there are none. A failing stream
      call is caught: the result is then no audio, and the flag stays up. */
  function Stop(s: RecorderState, d: Device): (r: StopResult)
    ensures r.state.level == s.level
    ensures r.state.buffer == s.buffer || r.state.buffer == []
    ensures r.audio.Some? ==> s.recording && !r.state.recording && r.state.buffer == []
                              && |r.audio.value| == TotalLength(s.buffer)
  {
    if !s.recording then StopResult(s, None)
    else if d.stop.Fails? then StopResult(s, None)
    else if d.close.Fails? then StopResult(s.(stream := Stopped), None)
    else if s.buffer == [] then StopResult(s.(stream := Closed, recording := false), None)
    else StopResult(s.(stream := Closed, recording := false, buffer := []), Some(Flatten(s.buffer)))
  }

  /** `callback`: append the block, then overwrite the level; a failure in
      either is logged and goes no further. */
  function Receive(s: RecorderState, dv: Delivery): (r: RecorderState)
    ensures r.recording == s.recording && r.stream == s.stream
    ensures r.buffer == s.buffer || r.buffer == s.buffer + [dv.block]
  {
    match dv.fault
    case CopyFails(_) => s
    case LevelFails(_) => s.(buffer := s.buffer + [dv.block])
    case NoFault => s.(buffer := s.buffer + [dv.block], level := dv.rms)
  }

  /** A run of callbacks, in delivery order. */
  function ReceiveAll(s: RecorderState, ds: seq<Delivery>): (r: RecorderState)
    ensures r.recording == s.recording && r.stream == s.stream
    ensures |s.buffer| <= |r.buffer| <= |s.buffer| + |ds| && r.buffer[..|s.buffer|] == s.buffer
    decreases ds
  {
    if ds == [] then s else ReceiveAll(Receive(s, ds[0]), ds[1..])
  }

  // ---------------------------------------------------------------------------
  // What the recorder promises.

  /** The flag goes up exactly when every device call succeeds, and then the
      stream is running; on every failure the flag, the buffer and the level
      are as they were. */
  lemma StartOnlyAfterStreamStarts(s: RecorderState, d: Device)
    ensures var r := Start(s, d);
      (r.result.Returns? <==> d.probeOpen.Succeeds? && d.probeClose.Succeeds? && d.open.Succeeds? && d.start.Succeeds?)
      && (r.result.Returns? ==> r.state.recording && r.state.stream == Running)
      && (r.result.Raises? ==> r.state.recording == s.recording)
      && r.state.buffer == s.buffer && r.state.level == s.level
  {
  }

  /** Stopping while not recording returns no audio and changes nothing, so
      stopping twice is the same as stopping once. */
  lemma StopWhenIdle(s: RecorderState, d: Device)
    requires !s.recording
    ensures Stop(s, d) == StopResult(s, None)
  {
  }

  /** A second stop after a stop that went through is a no-op. */
  lemma SecondStopIsNoOp(s: RecorderState, d: Device, d': Device)
    requires d.stop.Succeeds? && d.close.Succeeds?
    ensures var first := Stop(s, d);
      Stop(first.state, d') == StopResult(first.state, None)
  {
  }

  /** Stopping a recording that received no blocks lowers the flag and
      returns no audio. */
  lemma StopWithEmptyBuffer(s: RecorderState, d: Device)
    requires s.recording && s.buffer == [] && d.stop.Succeeds? && d.close.Succeeds?
    ensures Stop(s, d) == StopResult(s.(recording := false, stream := Closed), None)
  {
  }

  /** Stopping a recording that received blocks returns all of them, joined
      in arrival order, as many samples as the blocks hold together, and leaves the buffer
      empty and the flag down. */
  lemma StopDeliversBlocksInOrder(s: RecorderState, d: Device)
    requires s.recording && s.buffer != [] && d.stop.Succeeds? && d.close.Succeeds?
    ensures var r := Stop(s, d);
      r.audio.Some? && |r.audio.value| == TotalLength(s.buffer) && InArrivalOrder(s.buffer, r.audio.value)
      && r.state.buffer == [] && !r.state.recording && r.state.stream == Closed
  {
    FlattenInArrivalOrder(s.buffer);
  }

  /** A stream call that fails while stopping is swallowed: the result is no
      audio, and the flag and the buffer are as they were, so the blocks are
      not lost and the next toggle stops again. */
  lemma StopFailureKeepsRecording(s: RecorderState, d: Device)
    requires s.recording && (d.stop.Fails? || d.close.Fails?)
    ensures var r := Stop(s, d);
      r.audio == None && r.state.recording && r.state.buffer == s.buffer
  {
  }

  /** One callback appends exactly one block at the end, leaving the earlier
      blocks untouched, unless copying the block failed; the level is
      overwritten exactly when nothing failed; the flag and stream are never
      touched and no failure escapes. */
  lemma ReceiveAppendsOne(s: RecorderState, dv: Delivery)
    ensures var r := Receive(s, dv);
      (dv.fault.CopyFails? ==> r == s)
      && (!dv.fault.CopyFails? ==> r.buffer == s.buffer + [dv.block] && r.buffer[..|s.buffer|] == s.buffer)
      && r.level == (if dv.fault.NoFault? then dv.rms else s.level)
      && r.recording == s.recording && r.stream == s.stream
  {
  }

  /** A run of callbacks appends exactly the blocks that were copied, in
      delivery order, and leaves flag and stream alone. */
  lemma {:induction false} ReceiveAllAppends(s: RecorderState, ds: seq<Delivery>)
    ensures var r := ReceiveAll(s, ds);
      r.buffer == s.buffer + Kept(ds) && r.recording == s.recording && r.stream == s.stream
    decreases ds
  {
    if ds != [] {
      var s' := Receive(s, ds[0]);
      ReceiveAllAppends(s', ds[1..]);
      assert s'.buffer == s.buffer + (if ds[0].fault.CopyFails? then [] else [ds[0].block]);
    }
  }

  /** A whole recording session from an idle recorder: when the device
      behaves, the waveform is exactly the blocks received during this
      session, joined in order (none at all when no block was kept), and the
      recorder is idle again with an empty buffer. */
  lemma SessionRoundTrip(s: RecorderState, d: Device, ds: seq<Delivery>)
    requires s.Inv() && !s.recording
    requires d == Device(Succeeds, Succeeds, Succeeds, Succeeds, Succeeds, Succeeds)
    ensures var stopped := Stop(ReceiveAll(Start(s, d).state, ds), d);
      stopped.audio == (if Kept(ds) == [] then None else Some(Flatten(Kept(ds))))
      && !stopped.state.recording && stopped.state.buffer == []
  {
    var started := Start(s, d).state;
    assert started.buffer == [] && started.recording;
    ReceiveAllAppends(started, ds);
    var received := ReceiveAll(started, ds);
    assert received.recording && received.buffer == Kept(ds);
  }

  /** The number of frames per block the stream is opened with. */
  const BlockSize := 1024

  /** A session of `n` silent blocks of the stream's block size yields a
      waveform of `n * 1024` samples, all of them zero, and no audio at all
      when no block arrived. */
  lemma SilentSession(s: RecorderState, d: Device, n: nat)
    requires s.Inv() && !s.recording
    requires d == Device(Succeeds, Succeeds, Succeeds, Succeeds, Succeeds, Succeeds)
    ensures var silent := seq(n, _ => Delivery(seq(BlockSize, _ => 0.0), 0.0, NoFault));
      var stopped := Stop(ReceiveAll(Start(s, d).state, silent), d);
      (n == 0 ==> stopped.audio == None)
      && (n > 0 ==> stopped.audio.Some? && |stopped.audio.value| == n * BlockSize
                    && forall j :: 0 <= j < |stopped.audio.value| ==> stopped.audio.value[j] == 0.0)
  {
    var block := seq(BlockSize, _ => 0.0);
    var silent := seq(n, _ => Delivery(block, 0.0, NoFault));
    SessionRoundTrip(s, d, silent);
    var kept := Kept(silent);
    AllKept(silent, block);
    assert kept == seq(n, _ => block);
    FlattenUniform(kept, BlockSize);
    FlattenConstant(kept, 0.0);
  }

  /** A run of fault-free deliveries of one block keeps every copy of it. */
  lemma {:induction false} AllKept(ds: seq<Delivery>, b: Block)
    requires forall i :: 0 <= i < |ds| ==> ds[i].block == b && ds[i].fault.NoFault?
    ensures Kept(ds) == seq(|ds|, _ => b)
  {
    if ds != [] {
      AllKept(ds[1..], b);
      assert seq(|ds|, _ => b) == [b] + seq(|ds| - 1, _ => b);
    }
  }

  /** The invariant holds initially and every operation keeps it (a callback
      only with a non-negative loudness, which is what an RMS is). */
  lemma OperationsKeepInv(s: RecorderState, d: Device, dv: Delivery)
    requires s.Inv()
    ensures Initial.Inv()
    ensures Start(s, d).state.Inv() && Stop(s, d).state.Inv()
    ensures dv.rms >= 0.0 && s.stream.Running? ==> Receive(s, dv).Inv()
  {
  }

  // ---------------------------------------------------------------------------
  // The recorder object.

  /** `WhisperRecorder` of whisper_gui.py. The model lives in `engine`
      arguments; the sample rate and channel count only reach the audio
      library. */
  class Recorder {
    var isRecording: bool
    var buffer: seq<Block>
    var audioLevel: real
    var stream: Stream

    function State(): (st: RecorderState)
      reads this
    {
      RecorderState(isRecording, buffer, audioLevel, stream)
    }

    predicate Valid()
      reads this
    {
      State().Inv()
    }

    constructor ()
      ensures Valid() && State() == Initial
    {
      isRecording := false;
      buffer := [];
      audioLevel := 0.0;
      stream := NoStream;
    }

    /** Called by the audio library for each block of a running stream. */
    method Callback(block: Block, rms: real, fault: BlockFault)
      requires Valid() && stream.Running? && rms >= 0.0
      modifies this
      ensures Valid()
      ensures State() == Receive(old(State()), Delivery(block, rms, fault))
    {
      if !fault.CopyFails? {
        buffer := buffer + [block];
        if fault.NoFault? {
          audioLevel := rms;
        }
      }
    }

    method StartRecording(device: Device) returns (r: Outcome<()>)
      requires Valid()
      modifies this
      ensures Valid()
      ensures StartResult(State(), r) == Start(old(State()), device)
    {
      if device.probeOpen.Fails? {
        return Raises(device.probeOpen.message);
      }
      if device.probeClose.Fails? {
        return Raises(device.probeClose.message);
      }
      if device.open.Fails? {
        return Raises(device.open.message);
      }
      stream := Opened;
      if device.start.Fails? {
        return Raises(device.start.message);
      }
      stream := Running;
      isRecording := true;
      r := Returns(());
    }

    method StopRecording(device: Device) returns (audio: Option<Waveform>)
      requires Valid()
      modifies this
      ensures Valid()
      ensures StopResult(State(), audio) == Stop(old(State()), device)
    {
      if !isRecording {
        return None;
      }
      if device.stop.Fails? {
        return None;
      }
      stream := Stopped;
      if device.close.Fails? {
        return None;
      }
      stream := Closed;
      isRecording := false;
      if buffer == [] {
        return None;
      }
      audio := Some(Flatten(buffer));
      buffer := [];
    }
  }

  // ---------------------------------------------------------------------------
  // The window.

  /** A message box. */
  datatype Dialog = Dialog(title: string, message: string)

  function StartErrorText(message: string): (t: string)
    ensures |t| == 26 + |message| && t[26..] == message
    ensures t[..26] == "Error starting recording: "
  {
    "Error starting recording: " + message
  }

  /** `WhisperGUI`: what the window shows (record button icon, status label,
      text box, whether the meter is packed, the 40 meter canvases), the
      number of meter redraws pending on the Tk timer, the message boxes
      shown, the texts handed to the clipboard, and the audio each stop worker
      got from the recorder and has not yet published. */
  class App {
    const recorder: Recorder
    const bars: array<Meter.Bar>
    var icon: Icon
    var status: string
    var text: string
    var visualizerShown: bool
    var pendingRedraws: nat
    var dialogs: seq<Dialog>
    var clipboard: seq<string>
    var workers: seq<Option<Waveform>>

    predicate Valid()
      reads this, recorder
    {
      recorder.Valid() && bars.Length == Meter.BarCount
    }

    constructor ()
      ensures Valid() && fresh(recorder) && fresh(bars)
      ensures recorder.State() == Initial
      ensures icon == RecordIcon && status == ReadyText && text == "" && !visualizerShown
      ensures pendingRedraws == 0 && dialogs == [] && clipboard == [] && workers == []
      ensures forall i :: 0 <= i < bars.Length ==> bars[i] == Meter.Blank
    {
      recorder := new Recorder();
      bars := new Meter.Bar[Meter.BarCount](_ => Meter.Blank);
      icon := RecordIcon;
      status := ReadyText;
      text := "";
      visualizerShown := false;
      pendingRedraws := 0;
      dialogs := [];
      clipboard := [];
      workers := [];
    }

    /** `update_visualizer`: nothing while not recording; otherwise redraw
      every bar from the capped level and schedule one more redraw. */
    method UpdateVisualizer()
      requires Valid()
      modifies this`pendingRedraws, bars
      ensures Valid()
      ensures !recorder.isRecording ==> pendingRedraws == old(pendingRedraws) && bars[..] == old(bars[..])
      ensures recorder.isRecording ==> pendingRedraws == old(pendingRedraws) + 1
      ensures recorder.isRecording ==>
        forall i :: 0 <= i < bars.Length ==> bars[i] == Meter.DrawnBar(Meter.Level(recorder.audioLevel), i)
    {
      if !recorder.isRecording {
        return;
      }
      var level := Meter.Level(recorder.audioLevel);
      for i := 0 to bars.Length
        invariant pendingRedraws == old(pendingRedraws)
        invariant forall j :: 0 <= j < i ==> bars[j] == Meter.DrawnBar(level, j)
      {
        var height := Meter.BarHeight(level, i);
        bars[i] := Meter.Rect(Meter.CanvasHeight - height, Meter.Fill(level));
      }
      pendingRedraws := pendingRedraws + 1;
    }

    /** A redraw scheduled with `root.after(50, ...)` comes due: the chain
      goes on exactly while the recorder is recording. */
    method Tick()
      requires Valid() && pendingRedraws > 0
      modifies this`pendingRedraws, bars
      ensures Valid()
      ensures pendingRedraws == old(pendingRedraws) - 1 + (if recorder.isRecording then 1 else 0)
      ensures !recorder.isRecording ==> bars[..] == old(bars[..])
      ensures recorder.isRecording ==>
        forall i :: 0 <= i < bars.Length ==> bars[i] == Meter.DrawnBar(Meter.Level(recorder.audioLevel), i)
    {
      pendingRedraws := pendingRedraws - 1;
      UpdateVisualizer();
    }

    /** `_record`: start the recorder; on failure show the error in a message
      box and in the text box and put the record icon back. */
    method Record(device: Device)
      requires Valid()
      modifies this`icon, this`text, this`dialogs, recorder
      ensures Valid()
      ensures var r := Start(old(recorder.State()), device);
        recorder.State() == r.state
        && (r.result.Returns? ==> icon == old(icon) && text == old(text) && dialogs == old(dialogs))
        && (r.result.Raises? ==>
              icon == RecordIcon && text == StartErrorText(r.result.message)
              && dialogs == old(dialogs) + [Dialog("Recording Error", StartErrorText(r.result.message))])
    {
      var r := recorder.StartRecording(device);
      if r.Raises? {
        var message := StartErrorText(r.message);
        dialogs := dialogs + [Dialog("Recording Error", message)];
        icon := RecordIcon;
        text := message;
      }
    }

    /** `start_recording` in the order the source has it: the first redraw
      runs before the worker has started the recorder, so it finds the flag
      down and schedules nothing. */
    method StartRecordingAsWritten(device: Device)
      requires Valid()
      modifies this, recorder, bars
      ensures Valid()
      ensures var r := Start(old(recorder.State()), device);
        recorder.State() == r.state
        && (r.result.Returns? ==> icon == MicIcon && text == old(text) && dialogs == old(dialogs))
        && (r.result.Raises? ==>
              icon == RecordIcon && text == StartErrorText(r.result.message)
              && dialogs == old(dialogs) + [Dialog("Recording Error", StartErrorText(r.result.message))])
      ensures status == RecordingText && visualizerShown && clipboard == old(clipboard) && workers == old(workers)
      ensures pendingRedraws == old(pendingRedraws) + (if old(recorder.isRecording) then 1 else 0)
      ensures !old(recorder.isRecording) ==> bars[..] == old(bars[..])
      ensures old(recorder.isRecording) ==>
        forall i :: 0 <= i < bars.Length ==> bars[i] == Meter.DrawnBar(Meter.Level(old(recorder.audioLevel)), i)
    {
      icon := MicIcon;
      status := RecordingText;
      visualizerShown := true;
      UpdateVisualizer();
      Record(device);
    }

    /** `start_recording` with the first redraw after the recorder has
      started: the meter runs exactly when the recording does. */
    method StartRecordingCorrected(device: Device)
      requires Valid()
      modifies this, recorder, bars
      ensures Valid()
      ensures var r := Start(old(recorder.State()), device);
        recorder.State() == r.state
        && (r.result.Returns? ==> icon == MicIcon && text == old(text) && dialogs == old(dialogs))
        && (r.result.Raises? ==>
              icon == RecordIcon && text == StartErrorText(r.result.message)
              && dialogs == old(dialogs) + [Dialog("Recording Error", StartErrorText(r.result.message))])
      ensures status == RecordingText && visualizerShown && clipboard == old(clipboard) && workers == old(workers)
      ensures pendingRedraws == old(pendingRedraws) + (if recorder.isRecording then 1 else 0)
      ensures !recorder.isRecording ==> bars[..] == old(bars[..])
      ensures recorder.isRecording ==>
        forall i :: 0 <= i < bars.Length ==> bars[i] == Meter.DrawnBar(Meter.Level(recorder.audioLevel), i)
    {
      icon := MicIcon;
      status := RecordingText;
      visualizerShown := true;
      Record(device);
      UpdateVisualizer();
    }

    /** The first step of the `_stop_and_transcribe` worker: stop the
      recorder. The worker keeps the audio until it publishes. */
    method WorkerStop(device: Device)
      requires Valid()
      modifies this`workers, recorder
      ensures Valid()
      ensures var r := Stop(old(recorder.State()), device);
        recorder.State() == r.state && workers == old(workers) + [r.audio]
    {
      var audio := recorder.StopRecording(device);
      workers := workers + [audio];
    }

    /** The rest of the `_stop_and_transcribe` worker `k`: with audio,
      transcribe it and put the text both in the text box and on the
      clipboard; without, say so. The status is "Ready to record" on every
      path, whatever the recorder is doing by then: the recorder is not
      touched. */
    method FinishTranscription(k: nat, engine: Waveform -> Outcome<string>)
      requires Valid() && k < |workers|
      modifies this`text, this`status, this`clipboard, this`workers
      ensures Valid() && recorder.State() == old(recorder.State())
      ensures var p := Publish(old(workers[k]), engine);
        text == p.text && clipboard == old(clipboard) + Copied(p)
      ensures status == ReadyText && workers == old(workers[..k] + workers[k + 1..])
    {
      // The source's `except` branch is not modelled as a path: transcribing
      // catches its own failures, and so does the clipboard call.
      var audio := workers[k];
      workers := workers[..k] + workers[k + 1..];
      if audio.Some? {
        var t := Transcribe(audio, engine);
        text := t;
        clipboard := clipboard + [t];
        status := ReadyText;
      } else {
        text := NoAudioText;
        status := ReadyText;
      }
    }

    /** `_stop_and_transcribe` run without a toggle in between: the recorder
      moves as `Stop` says, and the text box and the clipboard follow
      `Publish` of the audio it returned. */
    method StopAndTranscribe(device: Device, engine: Waveform -> Outcome<string>)
      requires Valid()
      modifies this`text, this`status, this`clipboard, this`workers, recorder
      ensures Valid()
      ensures var r := Stop(old(recorder.State()), device);
        var p := Publish(r.audio, engine);
        recorder.State() == r.state && text == p.text && clipboard == old(clipboard) + Copied(p)
      ensures status == ReadyText && workers == old(workers)
    {
      WorkerStop(device);
      FinishTranscription(|workers| - 1, engine);
    }

    /** `stop_recording`: put the record icon back, hide the meter, say the
      text is being generated, and start the worker, which stops the
      recorder; its transcription is still to come. */
    method StopRecording(device: Device)
      requires Valid()
      modifies this, recorder
      ensures Valid()
      ensures var r := Stop(old(recorder.State()), device);
        recorder.State() == r.state && workers == old(workers) + [r.audio]
      ensures status == GeneratingText && icon == RecordIcon && !visualizerShown
      ensures text == old(text) && clipboard == old(clipboard)
      ensures pendingRedraws == old(pendingRedraws) && dialogs == old(dialogs)
    {
      icon := RecordIcon;
      status := GeneratingText;
      visualizerShown := false;
      WorkerStop(device);
    }

    /** `toggle_recording`: start exactly when the flag is down, stop
      otherwise. There is no third state: once a stop has lowered the flag,
      the next toggle starts a new recording, even while the stop worker is
      still transcribing. The start is the one the source has, so a toggle
      from idle leaves the meter unscheduled and its bars as they were. */
    method Toggle(device: Device)
      requires Valid()
      modifies this, recorder, bars
      ensures Valid()
      ensures !old(recorder.isRecording) ==>
        var r := Start(old(recorder.State()), device);
        recorder.State() == r.state
        && (r.result.Returns? ==> icon == MicIcon && text == old(text) && dialogs == old(dialogs))
        && (r.result.Raises? ==>
              icon == RecordIcon && text == StartErrorText(r.result.message)
              && dialogs == old(dialogs) + [Dialog("Recording Error", StartErrorText(r.result.message))])
        && status == RecordingText && visualizerShown && clipboard == old(clipboard) && workers == old(workers)
        && pendingRedraws == old(pendingRedraws) && bars[..] == old(bars[..])
      ensures old(recorder.isRecording) ==>
        var r := Stop(old(recorder.State()), device);
        recorder.State() == r.state && workers == old(workers) + [r.audio]
        && status == GeneratingText && icon == RecordIcon && !visualizerShown
        && text == old(text) && clipboard == old(clipboard)
        && pendingRedraws == old(pendingRedraws) && bars[..] == old(bars[..]) && dialogs == old(dialogs)
    {
      if !recorder.isRecording {
        StartRecordingAsWritten(device);
      } else {
        StopRecording(device);
      }
    }

    /** `toggle_recording` over the corrected start: a toggle from idle that
      starts the recorder also starts the meter. */
    method ToggleCorrected(device: Device)
      requires Valid()
      modifies this, recorder, bars
      ensures Valid()
      ensures !old(recorder.isRecording) ==>
        var r := Start(old(recorder.State()), device);
        recorder.State() == r.state
        && (r.result.Returns? ==> icon == MicIcon && text == old(text) && dialogs == old(dialogs))
        && (r.result.Raises? ==>
              icon == RecordIcon && text == StartErrorText(r.result.message)
              && dialogs == old(dialogs) + [Dialog("Recording Error", StartErrorText(r.result.message))])
        && status == RecordingText && visualizerShown && clipboard == old(clipboard) && workers == old(workers)
        && pendingRedraws == old(pendingRedraws) + (if recorder.isRecording then 1 else 0)
        && (!recorder.isRecording ==> bars[..] == old(bars[..]))
        && (recorder.isRecording ==>
              forall i :: 0 <= i < bars.Length ==> bars[i] == Meter.DrawnBar(Meter.Level(recorder.audioLevel), i))
      ensures old(recorder.isRecording) ==>
        var r := Stop(old(recorder.State()), device);
        recorder.State() == r.state && workers == old(workers) + [r.audio]
        && status == GeneratingText && icon == RecordIcon && !visualizerShown
        && text == old(text) && clipboard == old(clipboard)
        && pendingRedraws == old(pendingRedraws) && bars[..] == old(bars[..]) && dialogs == old(dialogs)
    {
      if !recorder.isRecording {
        StartRecordingCorrected(device);
      } else {
        StopRecording(device);
      }
    }
  }

  /** A device whose every call succeeds. */
  const Working := Device(Succeeds, Succeeds, Succeeds, Succeeds, Succeeds, Succeeds)

  /** One toggle of a fresh window with a device that works: the recorder
      records, yet no redraw is pending and every bar is blank, so the meter
      stays empty for the whole recording. */
  method MeterStaysBlankAsWritten() returns (recording: bool, redraws: nat, blank: bool)
    ensures recording && redraws == 0 && blank
  {
    var app := new App();
    app.Toggle(Working);
    recording := app.recorder.isRecording;
    redraws := app.pendingRedraws;
    blank := forall i :: 0 <= i < app.bars.Length ==> app.bars[i] == Meter.Blank;
  }

  /** One toggle of a fresh window over the corrected start, with a device
      that works: one redraw is pending and every bar shows a rectangle. */
  method MeterRunsCorrected() returns (recording: bool, redraws: nat, drawn: bool)
    ensures recording && redraws == 1 && drawn
  {
    var app := new App();
    app.ToggleCorrected(Working);
    recording := app.recorder.isRecording;
    redraws := app.pendingRedraws;
    drawn := forall i :: 0 <= i < app.bars.Length ==> app.bars[i].Rect?;
  }

  /** A toggle while a stop worker is still transcribing: the worker has
      already lowered the flag, so the toggle starts a new recording. When the
      worker then publishes, the old transcript lands in the text box and on
      the clipboard, and the status says "Ready to record" while the new
      recording runs. */
  method ToggleDuringTranscription() returns (recording: bool, status: string, text: string, copied: seq<string>)
    ensures recording && status == ReadyText && text == "hello" && copied == ["hello"]
  {
    var app := new App();
    app.Toggle(Working);
    app.recorder.Callback([0.5], 0.5, NoFault);
    app.Toggle(Working);
    app.Toggle(Working);
    app.FinishTranscription(0, _ => Returns("hello"));
    recording := app.recorder.isRecording;
    status := app.status;
    text := app.text;
    copied := app.clipboard;
  }
}
