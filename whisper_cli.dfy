/** The plain front end, whisper_cli.py. Its `WhisperRecorder` is the
    windowed one without the guards: the callback does not catch, there is no
    probe stream, and a failing stream call while stopping raises out of
    `stop_recording`, to be caught by the stop handler. Its window has no
    meter and no message boxes. As in the windowed front end, worker threads
    are taken to run one at a time, each to completion. */
module WhisperCli {
  import opened Dictation
  import WhisperGui

  // ---------------------------------------------------------------------------
  // The recorder's operations on values.

  /** `start_recording`: open the stream, start it, and only then raise the
      flag; any failure re-raises with the flag as it was. */
  function Start(s: RecorderState, d: Device): (r: StartResult)
    ensures r.state.buffer == s.buffer && r.state.level == s.level
    ensures r.state.recording == (s.recording || r.result.Returns?)
  {
    if d.open.Fails? then StartResult(s, Raises(d.open.message))
    else if d.start.Fails? then StartResult(s.(stream := Opened), Raises(d.start.message))
    else StartResult(s.(stream := Running, recording := true), Returns(()))
  }

  /** What `stop_recording` leaves behind, and what it returns or raises. */
  datatype StopResult = StopResult(state: RecorderState, result: Outcome<Option<Waveform>>)

  /** `stop_recording`: nothing when not recording; otherwise stop and close
      the stream (either may raise, with the flag still up), lower the flag,
      and return the blocks joined in arrival order, clearing the buffer,
      unless there are none. */
  function Stop(s: RecorderState, d: Device): (r: StopResult)
    ensures r.state.level == s.level
    ensures r.state.buffer == s.buffer || r.state.buffer == []
    ensures r.result.Raises? ==> s.recording && r.state.recording && r.state.buffer == s.buffer
    ensures r.result.Returns? && r.result.value.Some? ==>
      s.recording && !r.state.recording && r.state.buffer == [] && |r.result.value.value| == TotalLength(s.buffer)
  {
    if !s.recording then StopResult(s, Returns(None))
    else if d.stop.Fails? then StopResult(s, Raises(d.stop.message))
    else if d.close.Fails? then StopResult(s.(stream := Stopped), Raises(d.close.message))
    else if s.buffer == [] then StopResult(s.(stream := Closed, recording := false), Returns(None))
    else StopResult(s.(stream := Closed, recording := false, buffer := []), Returns(Some(Flatten(s.buffer))))
  }

  /** What one callback leaves behind and whether it raised. */
  datatype ReceiveResult = ReceiveResult(state: RecorderState, result: Outcome<()>)

  /** `callback`: append the block, then overwrite the level; nothing is
      caught, so a failure in either raises out of the callback. */
  function Receive(s: RecorderState, dv: Delivery): (r: ReceiveResult)
    ensures r.state.recording == s.recording && r.state.stream == s.stream
    ensures r.state.buffer == s.buffer || r.state.buffer == s.buffer + [dv.block]
    ensures r.result.Returns? ==> r.state.buffer == s.buffer + [dv.block] && r.state.level == dv.rms
  {
    match dv.fault
    case CopyFails(m) => ReceiveResult(s, Raises(m))
    case LevelFails(m) => ReceiveResult(s.(buffer := s.buffer + [dv.block]), Raises(m))
    case NoFault => ReceiveResult(s.(buffer := s.buffer + [dv.block], level := dv.rms), Returns(()))
  }

  // ---------------------------------------------------------------------------
  // What the recorder promises.

  /** The flag goes up exactly when opening and starting the stream both
      succeed; on failure the flag, the buffer and the level are as they were. */
  lemma StartOnlyAfterStreamStarts(s: RecorderState, d: Device)
    ensures var r := Start(s, d);
      (r.result.Returns? <==> d.open.Succeeds? && d.start.Succeeds?)
      && (r.result.Returns? ==> r.state.recording && r.state.stream == Running)
      && (r.result.Raises? ==> r.state.recording == s.recording)
      && r.state.buffer == s.buffer && r.state.level == s.level
  {
  }

  /** Without a probe stream to fail, starting is the same in both front ends. */
  lemma StartAgreesWithGui(s: RecorderState, d: Device)
    requires d.probeOpen.Succeeds? && d.probeClose.Succeeds?
    ensures Start(s, d) == WhisperGui.Start(s, d)
  {
  }

  /** Stopping while not recording returns no audio and changes nothing. */
  lemma StopWhenIdle(s: RecorderState, d: Device)
    requires !s.recording
    ensures Stop(s, d) == StopResult(s, Returns(None))
  {
  }

  /** Stopping a recording that received no blocks lowers the flag and
      returns no audio. */
  lemma StopWithEmptyBuffer(s: RecorderState, d: Device)
    requires s.recording && s.buffer == [] && d.stop.Succeeds? && d.close.Succeeds?
    ensures Stop(s, d) == StopResult(s.(recording := false, stream := Closed), Returns(None))
  {
  }

  /** Stopping a recording that received blocks returns all of them, joined
      in arrival order, as many samples as the blocks hold together, and
      leaves the buffer empty and the flag down. */
  lemma StopDeliversBlocksInOrder(s: RecorderState, d: Device)
    requires s.recording && s.buffer != [] && d.stop.Succeeds? && d.close.Succeeds?
    ensures var r := Stop(s, d);
      r.result.Returns? && r.result.value.Some?
      && |r.result.value.value| == TotalLength(s.buffer) && InArrivalOrder(s.buffer, r.result.value.value)
      && r.state.buffer == [] && !r.state.recording
  {
    FlattenInArrivalOrder(s.buffer);
  }

  /** A stream call that fails while stopping raises out of `stop_recording`
      with the flag still up and the blocks still buffered. */
  lemma StopFailureRaises(s: RecorderState, d: Device)
    requires s.recording && (d.stop.Fails? || d.close.Fails?)
    ensures var r := Stop(s, d);
      r.result.Raises? && r.state.recording && r.state.buffer == s.buffer
  {
  }

  /** The two front ends leave the recorder in the same state on every stop;
      they differ only where a stream call fails, which the plain one raises
      and the windowed one turns into no audio. */
  lemma StopAgreesWithGui(s: RecorderState, d: Device)
    ensures var cli, gui := Stop(s, d), WhisperGui.Stop(s, d);
      cli.state == gui.state
      && (cli.result.Returns? ==> cli.result.value == gui.audio)
      && (cli.result.Raises? <==> s.recording && (d.stop.Fails? || d.close.Fails?))
      && (cli.result.Raises? ==> gui.audio == None)
  {
  }

  /** One callback appends exactly one block at the end, leaving the earlier
      blocks untouched, unless copying it raised; the level is overwritten
      exactly when nothing raised; a failure escapes the callback. */
  lemma ReceiveAppendsOne(s: RecorderState, dv: Delivery)
    ensures var r := Receive(s, dv);
      (dv.fault.CopyFails? ==> r.state == s)
      && (!dv.fault.CopyFails? ==> r.state.buffer == s.buffer + [dv.block] && r.state.buffer[..|s.buffer|] == s.buffer)
      && r.state.level == (if dv.fault.NoFault? then dv.rms else s.level)
      && (r.result.Raises? <==> !dv.fault.NoFault?)
  {
  }

  /** A callback changes the recorder as the windowed one does; it only
      raises where the windowed one logs. */
  lemma ReceiveAgreesWithGui(s: RecorderState, dv: Delivery)
    ensures Receive(s, dv).state == WhisperGui.Receive(s, dv)
  {
  }

  // ---------------------------------------------------------------------------
  // The recorder object.

  /** `WhisperRecorder` of whisper_cli.py. */
  class Recorder {
    var isRecording: bool
    var buffer: seq<Block>
    var audioLevel: real
    var stream: Stream

    function State(): (st: RecorderState)
      reads this
    {
      RecorderState(isRecording, buffer, audioLevel, stream)
    }

    predicate Valid()
      reads this
    {
      State().Inv()
    }

    constructor ()
      ensures Valid() && State() == Initial
    {
      isRecording := false;
      buffer := [];
      audioLevel := 0.0;
      stream := NoStream;
    }

    /** Called by the audio library for each block of a running stream. */
    method Callback(block: Block, rms: real, fault: BlockFault) returns (r: Outcome<()>)
      requires Valid() && stream.Running? && rms >= 0.0
      modifies this
      ensures Valid()
      ensures ReceiveResult(State(), r) == Receive(old(State()), Delivery(block, rms, fault))
    {
      if fault.CopyFails? {
        return Raises(fault.message);
      }
      buffer := buffer + [block];
      if fault.LevelFails? {
        return Raises(fault.message);
      }
      audioLevel := rms;
      r := Returns(());
    }

    method StartRecording(device: Device) returns (r: Outcome<()>)
      requires Valid()
      modifies this
      ensures Valid()
      ensures StartResult(State(), r) == Start(old(State()), device)
    {
      if device.open.Fails? {
        return Raises(device.open.message);
      }
      stream := Opened;
      if device.start.Fails? {
        return Raises(device.start.message);
      }
      stream := Running;
      isRecording := true;
      r := Returns(());
    }

    method StopRecording(device: Device) returns (r: Outcome<Option<Waveform>>)
      requires Valid()
      modifies this
      ensures Valid()
      ensures StopResult(State(), r) == Stop(old(State()), device)
    {
      if !isRecording {
        return Returns(None);
      }
      if device.stop.Fails? {
        return Raises(device.stop.message);
      }
      stream := Stopped;
      if device.close.Fails? {
        return Raises(device.close.message);
      }
      stream := Closed;
      isRecording := false;
      if buffer == [] {
        return Returns(None);
      }
      r := Returns(Some(Flatten(buffer)));
      buffer := [];
    }
  }

  // ---------------------------------------------------------------------------
  // The window.

  function ErrorText(message: string): (t: string)
    ensures |t| == 7 + |message| && t[7..] == message
    ensures t[..7] == "Error: "
  {
    "Error: " + message
  }

  /** `WhisperGUI` of whisper_cli.py: record button icon, status label, text
      box, the texts handed to the clipboard, and what each stop worker got
      from the recorder and has not yet published. */
  class App {
    const recorder: Recorder
    var icon: Icon
    var status: string
    var text: string
    var clipboard: seq<string>
    var workers: seq<Outcome<Option<Waveform>>>

    predicate Valid()
      reads this, recorder
    {
      recorder.Valid()
    }

    constructor ()
      ensures Valid() && fresh(recorder) && recorder.State() == Initial
      ensures icon == RecordIcon && status == ReadyText && text == "" && clipboard == [] && workers == []
    {
      recorder := new Recorder();
      icon := RecordIcon;
      status := ReadyText;
      text := "";
      clipboard := [];
      workers := [];
    }

    /** `_record`: start the recorder; on failure show the error in the text
      box and put the record icon back. */
    method Record(device: Device)
      requires Valid()
      modifies this`icon, this`text, recorder
      ensures Valid()
      ensures var r := Start(old(recorder.State()), device);
        recorder.State() == r.state
        && (r.result.Returns? ==> icon == old(icon) && text == old(text))
        && (r.result.Raises? ==> icon == RecordIcon && text == ErrorText(r.result.message))
    {
      var r := recorder.StartRecording(device);
      if r.Raises? {
        icon := RecordIcon;
        text := ErrorText(r.message);
      }
    }

    /** `start_recording`: show the microphone icon and "Recording...", then
      hand over to the worker. */
    method StartRecording(device: Device)
      requires Valid()
      modifies this, recorder
      ensures Valid()
      ensures var r := Start(old(recorder.State()), device);
        recorder.State() == r.state
        && (r.result.Returns? ==> icon == MicIcon && text == old(text))
        && (r.result.Raises? ==> icon == RecordIcon && text == ErrorText(r.result.message))
      ensures status == RecordingText && clipboard == old(clipboard) && workers == old(workers)
    {
      icon := MicIcon;
      status := RecordingText;
      Record(device);
    }

    /** The first step of the `_stop_and_transcribe` worker: stop the
      recorder. The worker keeps what that returned or raised until it
      publishes. */
    method WorkerStop(device: Device)
      requires Valid()
      modifies this`workers, recorder
      ensures Valid()
      ensures var r := Stop(old(recorder.State()), device);
        recorder.State() == r.state && workers == old(workers) + [r.result]
    {
      var r := recorder.StopRecording(device);
      workers := workers + [r];
    }

    /** The rest of the `_stop_and_transcribe` worker `k`: if stopping raised,
      show the error; with audio, transcribe it and put the text both in the
      text box and on the clipboard; without, say so. The clipboard is only
      used on the audio path, the status is "Ready to record" on every path,
      and the recorder is not touched. */
    method FinishTranscription(k: nat, engine: Waveform -> Outcome<string>)
      requires Valid() && k < |workers|
      modifies this`text, this`status, this`clipboard, this`workers
      ensures Valid() && recorder.State() == old(recorder.State())
      ensures var r := old(workers[k]);
        (r.Raises? ==> text == ErrorText(r.message) && clipboard == old(clipboard))
        && (r.Returns? ==>
              var p := Publish(r.value, engine);
              text == p.text && clipboard == old(clipboard) + Copied(p))
      ensures status == ReadyText && workers == old(workers[..k] + workers[k + 1..])
    {
      var r := workers[k];
      workers := workers[..k] + workers[k + 1..];
      if r.Raises? {
        text := ErrorText(r.message);
        status := ReadyText;
        return;
      }
      var audio := r.value;
      if audio.Some? {
        var t := Transcribe(audio, engine);
        text := t;
        clipboard := clipboard + [t];
        status := ReadyText;
      } else {
        text := NoAudioText;
        status := ReadyText;
      }
    }

    /** `_stop_and_transcribe` run without a toggle in between. */
    method StopAndTranscribe(device: Device, engine: Waveform -> Outcome<string>)
      requires Valid()
      modifies this`text, this`status, this`clipboard, this`workers, recorder
      ensures Valid()
      ensures var r := Stop(old(recorder.State()), device);
        recorder.State() == r.state
        && (r.result.Raises? ==> text == ErrorText(r.result.message) && clipboard == old(clipboard))
        && (r.result.Returns? ==>
              var p := Publish(r.result.value, engine);
              text == p.text && clipboard == old(clipboard) + Copied(p))
      ensures status == ReadyText && workers == old(workers)
    {
      WorkerStop(device);
      FinishTranscription(|workers| - 1, engine);
    }

    /** `stop_recording`: put the record icon back, say the text is being
      generated, and start the worker, which stops the recorder; its
      transcription is still to come. */
    method StopRecording(device: Device)
      requires Valid()
      modifies this, recorder
      ensures Valid()
      ensures var r := Stop(old(recorder.State()), device);
        recorder.State() == r.state && workers == old(workers) + [r.result]
      ensures status == GeneratingText && icon == RecordIcon && text == old(text) && clipboard == old(clipboard)
    {
      icon := RecordIcon;
      status := GeneratingText;
      WorkerStop(device);
    }

    /** `toggle_recording`: start exactly when the flag is down, stop
      otherwise; a toggle while a stop worker is still transcribing starts a
      new recording once the worker has lowered the flag. */
    method Toggle(device: Device)
      requires Valid()
      modifies this, recorder
      ensures Valid()
      ensures !old(recorder.isRecording) ==>
        var r := Start(old(recorder.State()), device);
        recorder.State() == r.state
        && (r.result.Returns? ==> icon == MicIcon && text == old(text))
        && (r.result.Raises? ==> icon == RecordIcon && text == ErrorText(r.result.message))
        && status == RecordingText && clipboard == old(clipboard) && workers == old(workers)
      ensures old(recorder.isRecording) ==>
        var r := Stop(old(recorder.State()), device);
        recorder.State() == r.state && workers == old(workers) + [r.result]
        && status == GeneratingText && icon == RecordIcon && text == old(text) && clipboard == old(clipboard)
    {
      if !recorder.isRecording {
        StartRecording(device);
      } else {
        StopRecording(device);
      }
    }
  }

  /** A toggle while a stop worker is still transcribing: the new recording
      starts, and the worker's later publication puts the old transcript in
      the text box and on the clipboard and says "Ready to record" while the
      new recording runs. */
  method ToggleDuringTranscription() returns (recording: bool, status: string, text: string, copied: seq<string>)
    ensures recording && status == ReadyText && text == "hello" && copied == ["hello"]
  {
    var works := WhisperGui.Working;
    var app := new App();
    app.Toggle(works);
    var _ := app.recorder.Callback([0.5], 0.5, NoFault);
    app.Toggle(works);
    app.Toggle(works);
    app.FinishTranscription(0, _ => Returns("hello"));
    recording := app.recorder.isRecording;
    status := app.status;
    text := app.text;
    copied := app.clipboard;
  }
}
