# Whisper dictation: the recorder and its toggle, modelled in Dafny

The tool records from the microphone, transcribes the recording with a
speech-to-text engine, and puts the text in a text box and on the
clipboard. One button (or Space/Return) toggles recording. The repository
has two near-identical front ends, `whisper_gui.py` and `whisper_cli.py`.
Each has a `WhisperRecorder` and a `WhisperGUI` window class. This project
models both, not just one of them:

- `dictation.dfy` (module `Dictation`): what the two files share. This
  covers the audio block and waveform types, and the joining of the buffered
  blocks into one waveform (`np.concatenate(...).flatten()`) with its
  length and order lemmas. It also defines the recorder state
  (`is_recording`, `BUFFER`, `audio_level`, `stream`) and the invariant
  every operation keeps. Last come `transcribe` and the outcome choice of
  `_stop_and_transcribe` (`Publish`).
- `whisper_gui.dfy` (module `WhisperGui`): the windowed recorder (callback
  guard, probe stream, guarded stop). Its operations are given as functions
  on `RecorderState` (`Start`, `Stop`, `Receive`, `ReceiveAll`) with
  lemmas about them. The classes `Recorder` and `App` are proved against
  these functions. `App` models the window: record icon, status label,
  text box, meter frame, 40 meter canvases, pending meter redraws, message
  boxes, the texts handed to the clipboard, and the stop workers that have
  stopped the recorder but not yet published.
- `meter.dfy` (module `Meter`): the bar geometry of `update_visualizer`
  over exact reals. The level is capped at 1 and each height is truncated
  and raised to at least 2.
- `whisper_cli.dfy` (module `WhisperCli`): the plain recorder and window,
  in the same shape. It adds lemmas saying exactly where this variant
  agrees with the windowed one and where it differs.

Foreign calls are inputs. A `Device` gives the outcome of each
audio-library call: probe open and close, open, start, stop and close. A
`Delivery` is one callback, with its block, its loudness and the fault its
processing meets, if any. The engine is a function from a waveform to a
text or an exception. An exception is `Raises(message)`, and the message
is what `str(e)` gives. Calls are serialised. The `_record` worker and
the `root.after(0, ...)` error box run to completion where they are
started. Each `root.after(50, ...)` meter redraw stays pending
(`pendingRedraws`) until `App.Tick` runs it. The `_stop_and_transcribe` worker is two steps: `WorkerStop` stops the
recorder, and `FinishTranscription` later publishes, so toggles may come
in between.

Behaviour of the code that the model keeps, which a reader might not
expect:

- There is no "transcribing" state. Only `is_recording` exists, and the
  stop worker lowers it before transcription starts. So a toggle during
  transcription starts a new recording and is not dropped. When the worker
  then publishes, the old transcript goes to the text box and the
  clipboard, and the status says "Ready to record" while the new recording
  runs (`WhisperGui.ToggleDuringTranscription`,
  `WhisperCli.ToggleDuringTranscription`).
- `audio_level` is never reset when a recording stops. Between recordings
  it keeps the last block's loudness.
- The callback appends to `BUFFER` unconditionally. The model has it
  called only while the stream is running, since only a running stream
  delivers blocks. Under that condition an idle recorder always has an
  empty buffer (`RecorderState.Inv`), even though starting never clears it.
  This holds as long as joining the blocks succeeds: a join that raises
  would leave the flag down with the blocks still buffered, and the model
  has no such join.
- An engine failure is not reported separately. The text becomes `""`,
  and `""` is still handed to the clipboard
  (`Dictation.EngineFailurePublishesEmptyText`).
- In the windowed variant, a failing stream stop or close while stopping is
  swallowed. The window then says "No audio recorded", but the flag stays
  up and the blocks stay buffered, so the next toggle stops again. The plain
  variant raises instead, and its window shows `Error: ...`.
- In the windowed variant, a failed start leaves the status label at
  "Recording..." and the meter frame shown. Only the icon and the text box
  are reset.

## Model

| member | source | states |
|---|---|---|
| `Dictation.Flatten` | whisper_gui.py:182-185 | joining the buffered blocks gives a waveform exactly as long as all of them together |
| `Dictation.FlattenSnoc` | whisper_gui.py:137 | appending a block extends the waveform by exactly that block and keeps what came before |
| `Dictation.FlattenAt` | whisper_gui.py:183 | sample k of block i is at position (length of blocks before i) + k of the waveform |
| `Dictation.FlattenInArrivalOrder` | whisper_gui.py:183 | every sample of every block sits where arrival order puts it, and the waveform has exactly the total length |
| `Dictation.FlattenUniform` | whisper_gui.py:155 | N blocks of B samples join into N * B samples |
| `Dictation.FlattenConstant` | whisper_gui.py:183 | blocks whose samples are all c join into a waveform whose samples are all c |
| `Dictation.Kept` | whisper_gui.py:136-141 | the blocks a run of callbacks buffers are those whose copy succeeded, never more than were delivered |
| `Dictation.Transcription` | whisper_gui.py:190-201 | no audio gives ""; an engine failure gives "" and is not propagated; otherwise the engine's text (the same code is whisper_cli.py:80-91) |
| `Dictation.Transcribe` | whisper_gui.py:190-201 | returns `Transcription` of the audio; one method for both front ends, whose `transcribe` is the same code (whisper_cli.py:80-91) |
| `Dictation.Copied` | whisper_gui.py:452 | a publication hands at most one text to the clipboard, and one exactly when it copies |
| `Dictation.Publish` | whisper_gui.py:447-459 | no audio: the text box says "No audio recorded" and nothing is copied; audio: text box and clipboard both get exactly the transcription (same choice at whisper_cli.py:262-274) |
| `Dictation.EngineFailurePublishesEmptyText` | whisper_gui.py:197-201 | when the engine raises on a waveform, the text box gets "" and "" is still handed to the clipboard |
| `Meter.Level` | whisper_gui.py:393 | the shown level is the smaller of 1 and five times the loudness, so at most 1, and non-negative for a loudness |
| `Meter.Trunc` | whisper_gui.py:398 | `int()` truncates toward zero: within 1 of its argument, on the zero side |
| `Meter.Weight` | whisper_gui.py:398 | the weight of each bar between 0 and 40 lies in [0, 1] |
| `Meter.BarHeight` | whisper_gui.py:398-399 | every bar is at least 2 pixels high |
| `Meter.ScaledBounds` | whisper_gui.py:398 | for a shown level and each of the 40 bars, `20 * level * weight` lies in [0, 20] |
| `Meter.ScaledRisesToCentre` | whisper_gui.py:398 | from bar 0 to bar 20, `20 * level * weight` never decreases |
| `Meter.BarHeightBounds` | whisper_gui.py:396-399 | for a shown level and each of the 40 bars, the height lies in [2, 20] |
| `Meter.DrawnBar` | whisper_gui.py:402-410 | the rectangle runs from 20 minus the height to the bottom, so its top lies in [0, 18]; its colour is "#ff4444" exactly when the shown level is above one half, "#ff8888" otherwise |
| `Meter.BarsSymmetric` | whisper_gui.py:398 | bars equally far from bar 20 are equally tall |
| `Meter.TruncMonotone` | whisper_gui.py:398 | truncation keeps the order of non-negative values |
| `Meter.BarsRiseToCentre` | whisper_gui.py:396-399 | from bar 0 to bar 20 the heights never decrease |
| `Meter.QuietMeter` | whisper_gui.py:398-399 | at level 0 every bar has the minimum height 2 |
| `Meter.FullMeter` | whisper_gui.py:398-399 | at level 1 the centre bar is 20 pixels, filling its canvas |
| `WhisperGui.Start` | whisper_gui.py:143-163 | starting never touches the buffer or the level, and the flag is up afterwards exactly when it was up already or the start returned |
| `WhisperGui.Stop` | whisper_gui.py:165-188 | stopping never touches the level and either keeps the buffer or empties it; audio comes back only from a recording, and then the flag is down, the buffer empty, and the audio as long as the blocks together |
| `WhisperGui.Receive` | whisper_gui.py:132-141 | a callback leaves flag and stream alone and either keeps the buffer or appends exactly the delivered block |
| `WhisperGui.ReceiveAll` | whisper_gui.py:132-141 | a run of callbacks leaves flag and stream alone, keeps the old buffer as a prefix, and adds at most one block per delivery |
| `WhisperGui.StartOnlyAfterStreamStarts` | whisper_gui.py:143-163 | the flag goes up exactly when probe, open and start all succeed, with the stream running; on any failure it re-raises and the flag, buffer and level are unchanged |
| `WhisperGui.StopWhenIdle` | whisper_gui.py:165-168 | stop while not recording returns None and changes nothing |
| `WhisperGui.SecondStopIsNoOp` | whisper_gui.py:165-173 | after a stop whose stream calls succeed, a second stop returns None and changes nothing |
| `WhisperGui.StopWithEmptyBuffer` | whisper_gui.py:170-180 | stop while recording with no blocks lowers the flag, closes the stream, returns None |
| `WhisperGui.StopDeliversBlocksInOrder` | whisper_gui.py:182-185 | stop with blocks returns their in-order join, whose length is the sum of block lengths, and leaves the buffer empty and the flag down |
| `WhisperGui.StopFailureKeepsRecording` | whisper_gui.py:170-188 | a failing stream stop or close is caught: None is returned and the flag and buffer are unchanged |
| `WhisperGui.ReceiveAppendsOne` | whisper_gui.py:132-141 | a callback appends exactly one block at the end with the prefix untouched (unless the copy fails), overwrites the level only when nothing fails, never touches flag or stream, and no failure escapes |
| `WhisperGui.ReceiveAllAppends` | whisper_gui.py:132-141 | a run of callbacks appends exactly the copied blocks in delivery order |
| `WhisperGui.SessionRoundTrip` | whisper_gui.py:143-185 | start, callbacks, stop from an idle recorder on a working device: the waveform is exactly this session's kept blocks in order (None if there are none), and the recorder ends idle and empty |
| `WhisperGui.SilentSession` | whisper_gui.py:150-185 | a session of n silent 1024-sample blocks yields n * 1024 zero samples, and no audio when n is 0 |
| `WhisperGui.AllKept` | whisper_gui.py:136-137 | fault-free deliveries of one block (with any loudness) buffer every copy of it |
| `WhisperGui.OperationsKeepInv` | whisper_gui.py:52-188 | the initial state satisfies the invariant (non-negative level, running stream implies recording, idle implies empty buffer) and start, stop and callback keep it |
| `WhisperGui.Recorder.constructor` | whisper_gui.py:52-61 | a new recorder is idle, with an empty buffer, level 0 and no stream |
| `WhisperGui.Recorder.Callback` | whisper_gui.py:132-141 | the new state is `Receive` of the old one; the method has no way to raise |
| `WhisperGui.Recorder.StartRecording` | whisper_gui.py:143-163 | new state and raised/returned outcome are those of `Start` |
| `WhisperGui.Recorder.StopRecording` | whisper_gui.py:165-188 | new state and returned audio are those of `Stop` |
| `WhisperGui.App.constructor` | whisper_gui.py:322-361 | the window starts with the record icon, "Ready to record", an empty text box, the meter hidden, 40 blank canvases, no redraw and no worker pending |
| `WhisperGui.App.UpdateVisualizer` | whisper_gui.py:387-413 | not recording: nothing changes and nothing is scheduled; recording: every canvas shows `DrawnBar` of the capped level and one more redraw is pending |
| `WhisperGui.App.Tick` | whisper_gui.py:412-413 | a due redraw repaints and reschedules exactly while recording, so the chain dies once recording stops |
| `WhisperGui.App.Record` | whisper_gui.py:428-437 | the recorder moves as `Start` says; on a raise, a "Recording Error" box, the error text and the record icon |
| `WhisperGui.App.StartRecordingAsWritten` | whisper_gui.py:421-437 | as written: the recorder moves as `Start` says; mic icon and "Recording..." with the meter shown, and on failure a "Recording Error" box, the error text and the record icon; starting from idle schedules no redraw and leaves the bars untouched, even when recording starts |
| `WhisperGui.App.StartRecordingCorrected` | whisper_gui.py:421-426 | corrected order: mic icon and "Recording..." (record icon and error text on failure); a redraw is pending exactly when recording started |
| `WhisperGui.App.WorkerStop` | whisper_gui.py:447 | the worker's first step: the recorder moves as `Stop` says and the worker holds the audio it returned |
| `WhisperGui.App.FinishTranscription` | whisper_gui.py:448-459 | the worker's publication: text box and clipboard follow `Publish` of its audio, the status is "Ready to record" on every path, the worker is gone, and the recorder is untouched |
| `WhisperGui.App.StopAndTranscribe` | whisper_gui.py:445-466 | the worker run with no toggle in between: the recorder moves as `Stop` says; text box and clipboard follow `Publish`; status is "Ready to record" on every path |
| `WhisperGui.App.StopRecording` | whisper_gui.py:439-443 | record icon, meter hidden, "Generating text...", and a new worker holding what `Stop` returned; text box and clipboard unchanged until it publishes |
| `WhisperGui.App.Toggle` | whisper_gui.py:415-419 | flag down: exactly the effect of the start as written, so no redraw is pending afterwards and the bars are as they were; flag up: exactly the effect of `StopRecording` |
| `WhisperGui.App.ToggleCorrected` | whisper_gui.py:415-426 | the same dispatch over the corrected start: a toggle from idle that starts the recorder leaves one redraw pending and every bar drawn |
| `WhisperGui.ToggleDuringTranscription` | whisper_gui.py:415-459 | start, one block, stop, then a toggle before the worker publishes: a new recording runs, and the worker's publication still sets the old transcript in the text box and on the clipboard and "Ready to record" as the status |
| `WhisperGui.MeterStaysBlankAsWritten` | whisper_gui.py:421-426 | fresh window, working device, as-written start: recording, zero redraws pending, every bar blank |
| `WhisperGui.MeterRunsCorrected` | whisper_gui.py:421-426 | fresh window, working device, corrected start: recording, one redraw pending, every bar drawn |
| `WhisperCli.Start` | whisper_cli.py:47-57 | starting never touches the buffer or the level, and the flag is up afterwards exactly when it was up already or the start returned |
| `WhisperCli.Stop` | whisper_cli.py:59-78 | stopping never touches the level; a raise leaves the flag up and the blocks buffered; returned audio comes only from a recording, with the flag down, the buffer empty and the audio as long as the blocks together |
| `WhisperCli.Receive` | whisper_cli.py:39-45 | a callback leaves flag and stream alone and either keeps the buffer or appends exactly the delivered block; when it does not raise, the block is appended and the level is the block's loudness |
| `WhisperCli.StartOnlyAfterStreamStarts` | whisper_cli.py:47-57 | the flag goes up exactly when open and start succeed; on failure it re-raises with flag, buffer and level unchanged |
| `WhisperCli.StartAgreesWithGui` | whisper_cli.py:47-57 | when the probe stream would work, both variants start identically |
| `WhisperCli.StopWhenIdle` | whisper_cli.py:59-62 | stop while not recording returns None with no state change |
| `WhisperCli.StopWithEmptyBuffer` | whisper_cli.py:64-73 | stop while recording with no blocks lowers the flag and returns None |
| `WhisperCli.StopDeliversBlocksInOrder` | whisper_cli.py:75-78 | stop with blocks returns their in-order join of total length and clears the buffer |
| `WhisperCli.StopFailureRaises` | whisper_cli.py:64-66 | a failing stream stop or close raises out of stop, with the flag up and the blocks kept |
| `WhisperCli.StopAgreesWithGui` | whisper_cli.py:59-78 | both variants leave the same state on every stop; the plain one raises exactly where the windowed one returns None after a failing stream call |
| `WhisperCli.ReceiveAppendsOne` | whisper_cli.py:39-45 | a callback appends one block at the end (prefix untouched) unless the copy raises, overwrites the level only if nothing raises, and raises exactly on a fault |
| `WhisperCli.ReceiveAgreesWithGui` | whisper_cli.py:39-45 | the callback changes the recorder exactly as the windowed one does |
| `WhisperCli.Recorder.constructor` | whisper_cli.py:18-27 | a new recorder is idle, with an empty buffer, level 0 and no stream |
| `WhisperCli.Recorder.Callback` | whisper_cli.py:39-45 | new state and raised/returned outcome are those of `Receive` |
| `WhisperCli.Recorder.StartRecording` | whisper_cli.py:47-57 | new state and outcome are those of `Start` |
| `WhisperCli.Recorder.StopRecording` | whisper_cli.py:59-78 | new state and returned or raised outcome are those of `Stop` |
| `WhisperCli.App.constructor` | whisper_cli.py:196-230 | the window starts with the record icon, "Ready to record", an empty text box, nothing copied |
| `WhisperCli.App.Record` | whisper_cli.py:247-253 | the recorder moves as `Start` says; on a raise, the record icon and "Error: " plus the message |
| `WhisperCli.App.StartRecording` | whisper_cli.py:242-245 | mic icon and "Recording..." (record icon and error text on failure) |
| `WhisperCli.App.WorkerStop` | whisper_cli.py:262 | the worker's first step: the recorder moves as `Stop` says and the worker holds what it returned or raised |
| `WhisperCli.App.FinishTranscription` | whisper_cli.py:263-279 | the worker's publication: a raised stop shows "Error: " plus the message and copies nothing; otherwise text box and clipboard follow `Publish`; the status is "Ready to record" on every path; the recorder is untouched |
| `WhisperCli.App.StopAndTranscribe` | whisper_cli.py:260-279 | the worker run with no toggle in between: a raising stop shows "Error: " plus the message and copies nothing; otherwise text box and clipboard follow `Publish`; the status is "Ready to record" on every path |
| `WhisperCli.App.StopRecording` | whisper_cli.py:255-258 | record icon, "Generating text...", and a new worker holding what `Stop` returned or raised; text box and clipboard unchanged until it publishes |
| `WhisperCli.App.Toggle` | whisper_cli.py:236-240 | flag down: exactly the start effect (recorder, icon, text, status, clipboard); flag up: exactly the effect of `StopRecording` |
| `WhisperCli.ToggleDuringTranscription` | whisper_cli.py:236-268 | a toggle before the stop worker publishes starts a new recording, and the later publication still writes the old transcript, copies it and says "Ready to record" |

## Left out

- Device queries in the recorder constructor, the creation of the sounddevice streams (sample rate 16000, one channel, block size 1024 in the windowed variant) and the probe stream itself: foreign I/O. Only each call's success or failure is modelled, through `Device`.
- The RMS computation `np.sqrt(np.mean(indata**2))`: floating-point numpy. The loudness is an opaque non-negative input of each callback.
- Loading the Whisper model and searching for its assets: a foreign library plus filesystem and environment probing. The engine is a function argument.
- `copy_to_clipboard` through win32clipboard: an OS call that catches its own failures. The model records each text handed to it, and a failure to set the system clipboard is not modelled.
- The `except` branch of the windowed `_stop_and_transcribe` ("Transcription Error" box and "Error during transcription: ..." text): within the model it cannot be reached, because `stop_recording`, `transcribe` and `copy_to_clipboard` catch their own exceptions, so only a failure of the Tk widgets themselves could reach it.
- Threads and `root.after`: the `_record` worker and the `root.after(0, ...)` error box run to completion where they are started, a `root.after(50, ...)` redraw runs when `App.Tick` is called, and the stop worker is split only between stopping the recorder and publishing. The race where a toggle arrives before a worker has changed `is_recording`, and interleavings inside `stop_recording` itself, are not modelled.
- What the audio library does after the plain variant's callback has raised: not visible in the source.
- Widget construction, styling, geometry, icons and their paths, `get_resource_path`/`get_icon_path`, and the icon-loading failure paths (for example `self.icons['mic']` missing): UI and filesystem code. The icon is either the record icon or the microphone icon.
- `time.time()` and the logged durations: only logged.
- Logging, and the `status` argument of the callback, which is only logged.
- Floating point in the meter formula: computed over exact reals, so rounding of `20 * level * (1 - abs(i - 20) / 20)` is not modelled.
- Multi-channel blocks: both windows build the recorder with one channel, so a block is a sequence of samples.
- `create_icons.py`: image conversion outside the recorder and the window.

## Findings

| source | as written | input that shows it | evidently intended | confidence | as-written member | corrected member |
|---|---|---|---|---|---|---|
| whisper_gui.py:421-426 | `start_recording` calls `update_visualizer()` before starting the thread that runs `recorder.start_recording()`, so the redraw finds `is_recording` false and neither draws nor schedules another | a fresh window, a device whose every call succeeds, one toggle: the recorder records, zero redraws are pending, and all 40 canvases stay blank for the whole recording | the meter redraws every 50 ms while recording, starting once the recorder has started | not executed; high (the only other way into the redraw chain is a second toggle racing the worker) | `WhisperGui.App.StartRecordingAsWritten`, `WhisperGui.App.Toggle`, `WhisperGui.MeterStaysBlankAsWritten` | `WhisperGui.App.StartRecordingCorrected`, `WhisperGui.App.ToggleCorrected`, `WhisperGui.MeterRunsCorrected` |
