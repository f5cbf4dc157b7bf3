/** Concepts shared by the two front ends of the dictation tool (the windowed
    one and the plain one): audio blocks and the waveform built from them, the
    answers of the foreign libraries the recorder calls, the recorder's state,
    and what the stop handler shows and copies once the recorder has answered. */
module Dictation {

  /** One float32 sample, modelled by an exact real. */
  type Sample = real
  /** One block as the audio library hands it to the callback. The recorder is
      always built with one channel, so a block is one sample per frame. */
  type Block = seq<Sample>
  /** The flattened recording handed to the speech-to-text engine. */
  type Waveform = seq<Sample>

  datatype Option<+T> = None | Some(value: T)

  /** How a Python call turns out: it returns a value, or it raises an
      exception whose `str()` is `message`. */
  datatype Outcome<+T> = Returns(value: T) | Raises(message: string)

  /** How one call into the audio library turns out. */
  datatype Step = Succeeds | Fails(message: string)

  /** The answers the audio library gives to the calls the recorder makes, in
      the order it makes them: open and close a probe stream (windowed front
      end only), open the real stream, start it, and later stop and close it. */
  datatype Device = Device(probeOpen: Step, probeClose: Step, open: Step, start: Step, stop: Step, close: Step)

  /** The recorder's `stream` field, abstracted to where it is in its life. */
  datatype Stream = NoStream | Opened | Running | Stopped | Closed

  /** Where processing of one delivered block fails, if anywhere:
      `indata.copy()` raising (nothing is appended) or the level
      computation raising (the block is already appended). */
  datatype BlockFault = NoFault | CopyFails(message: string) | LevelFails(message: string)

  /** One call of the recorder's callback: the block, its loudness as the
      audio code would compute it (an opaque non-negative value), and the
      fault, if any, that processing it meets. */
  datatype Delivery = Delivery(block: Block, rms: real, fault: BlockFault)

  /** The fields of `WhisperRecorder` the model keeps: `is_recording`,
      `BUFFER`, `audio_level` and `stream`. */
  datatype RecorderState = RecorderState(recording: bool, buffer: seq<Block>, level: real, stream: Stream)
  {
    /** What every operation keeps: the level is a loudness (never negative),
        a running stream belongs to a recording, and an idle recorder holds no
        blocks, so every recording starts from an empty buffer even though
        starting never clears it. */
    predicate Inv() {
      level >= 0.0 && (stream.Running? ==> recording) && (!recording ==> buffer == [])
    }
  }

  /** The recorder as its constructor leaves it. */
  const Initial := RecorderState(false, [], 0.0, NoStream)

  /** What `start_recording` leaves behind and whether it raised. */
  datatype StartResult = StartResult(state: RecorderState, result: Outcome<()>)

  /** The blocks of a run of deliveries that reach the buffer: all but those
      whose copy failed. */
  function Kept(ds: seq<Delivery>): (blocks: seq<Block>)
    ensures |blocks| <= |ds|
  {
    if ds == [] then []
    else (if ds[0].fault.CopyFails? then [] else [ds[0].block]) + Kept(ds[1..])
  }

  // ---------------------------------------------------------------------------
  // The waveform: `np.concatenate(BUFFER, axis=0).flatten()` on mono blocks.

  /** The sum of the block lengths. */
  function TotalLength(blocks: seq<Block>): (n: nat) {
    if blocks == [] then 0 else |blocks[0]| + TotalLength(blocks[1..])
  }

  /** Where block `i` starts in the waveform: the length of the blocks before it. */
  function Offset(blocks: seq<Block>, i: nat): (n: nat)
    requires i <= |blocks|
  {
    TotalLength(blocks[..i])
  }

  /** The blocks joined end to end in arrival order. The waveform is exactly
      as long as all blocks together. */
  function Flatten(blocks: seq<Block>): (w: Waveform)
    ensures |w| == TotalLength(blocks)
  {
    if blocks == [] then [] else blocks[0] + Flatten(blocks[1..])
  }

  /** Appending one block to the buffer extends the waveform by exactly that
      block and leaves what was there before untouched. */
  lemma {:induction false} FlattenSnoc(blocks: seq<Block>, b: Block)
    ensures Flatten(blocks + [b]) == Flatten(blocks) + b
  {
    if blocks == [] {
      assert blocks + [b] == [b];
      assert [b][1..] == [];
    } else {
      assert (blocks + [b])[1..] == blocks[1..] + [b];
      FlattenSnoc(blocks[1..], b);
    }
  }

  /** Arrival order: sample `k` of block `i` sits in the waveform right after
      all samples of the blocks that arrived before block `i`. */
  lemma {:induction false} FlattenAt(blocks: seq<Block>, i: nat, k: nat)
    requires i < |blocks| && k < |blocks[i]|
    ensures Offset(blocks, i) + k < |Flatten(blocks)|
    ensures Flatten(blocks)[Offset(blocks, i) + k] == blocks[i][k]
  {
    if i == 0 {
      assert blocks[..0] == [];
    } else {
      var rest := blocks[1..];
      assert blocks[..i][0] == blocks[0];
      assert blocks[..i][1..] == rest[..i - 1];
      FlattenAt(rest, i - 1, k);
    }
  }

  /** Sample `k` of block `i` sits in `w` right after the blocks before it. */
  predicate SampleInPlace(blocks: seq<Block>, w: Waveform, i: nat, k: nat) {
    i < |blocks| && k < |blocks[i]| && Offset(blocks, i) + k < |w| && w[Offset(blocks, i) + k] == blocks[i][k]
  }

  /** `w` holds every sample of every block at the place arrival order gives it. */
  predicate InArrivalOrder(blocks: seq<Block>, w: Waveform) {
    forall i: nat, k: nat :: i < |blocks| && k < |blocks[i]| ==> SampleInPlace(blocks, w, i, k)
  }

  /** The waveform is the blocks in arrival order, exactly as long as all of them together. */
  lemma FlattenInArrivalOrder(blocks: seq<Block>)
    ensures InArrivalOrder(blocks, Flatten(blocks))
    ensures |Flatten(blocks)| == TotalLength(blocks)
  {
    forall i: nat, k: nat | i < |blocks| && k < |blocks[i]|
      ensures SampleInPlace(blocks, Flatten(blocks), i, k)
    {
      FlattenAt(blocks, i, k);
    }
  }

  /** A recording of N blocks of B samples each yields N * B samples. */
  lemma {:induction false} FlattenUniform(blocks: seq<Block>, n: nat)
    requires forall i :: 0 <= i < |blocks| ==> |blocks[i]| == n
    ensures |Flatten(blocks)| == |blocks| * n
  {
    if blocks != [] {
      FlattenUniform(blocks[1..], n);
      assert |blocks| * n == n + (|blocks| - 1) * n;
    }
  }

  /** Blocks whose samples all equal `c` yield a waveform whose samples all
      equal `c` (silence in, silence out). */
  lemma {:induction false} FlattenConstant(blocks: seq<Block>, c: Sample)
    requires forall i, k :: 0 <= i < |blocks| && 0 <= k < |blocks[i]| ==> blocks[i][k] == c
    ensures forall j :: 0 <= j < |Flatten(blocks)| ==> Flatten(blocks)[j] == c
  {
    if blocks != [] {
      FlattenConstant(blocks[1..], c);
      assert forall i, k :: 0 <= i < |blocks[1..]| && 0 <= k < |blocks[1..][i]| ==> blocks[1..][i][k] == blocks[i + 1][k];
    }
  }

  // ---------------------------------------------------------------------------
  // Transcription and what the stop handler publishes.

  /** `WhisperRecorder.transcribe`: no audio gives the empty text; otherwise
      the engine's text, and an engine failure is turned into the empty text
      rather than propagated. */
  function Transcription(audio: Option<Waveform>, engine: Waveform -> Outcome<string>): (text: string)
    ensures audio.None? ==> text == ""
    ensures audio.Some? && engine(audio.value).Raises? ==> text == ""
    ensures audio.Some? && engine(audio.value).Returns? ==> text == engine(audio.value).value
  {
    match audio
    case None => ""
    case Some(w) =>
      match engine(w)
      case Returns(t) => t
      case Raises(_) => ""
  }

  /** `WhisperRecorder.transcribe`, the same in both front ends. */
  method Transcribe(audio: Option<Waveform>, engine: Waveform -> Outcome<string>) returns (text: string)
    ensures text == Transcription(audio, engine)
  {
    if audio.None? {
      return "";
    }
    var result := engine(audio.value);
    if result.Returns? {
      text := result.value;
    } else {
      text := "";
    }
  }

  const NoAudioText := "No audio recorded"
  const ReadyText := "Ready to record"
  const RecordingText := "Recording..."
  const GeneratingText := "Generating text..."

  /** What the stop handler ends with in the text box, and the text it hands
      to the clipboard, if any. */
  datatype Publication = Publication(text: string, copied: Option<string>)

  /** The outcome choice of `_stop_and_transcribe` once `stop_recording` has
      returned: without audio the text box says so and the clipboard is left
      alone; with audio the text box and the clipboard both get exactly the
      transcribed text. */
  function Publish(audio: Option<Waveform>, engine: Waveform -> Outcome<string>): (p: Publication)
    ensures audio.None? ==> p.text == NoAudioText && p.copied == None
    ensures audio.Some? ==> p.copied == Some(p.text) && p.text == Transcription(audio, engine)
  {
    if audio.Some? then
      var text := Transcription(audio, engine);
      Publication(text, Some(text))
    else
      Publication(NoAudioText, None)
  }

  /** An engine failure is not told apart from silence: the text box is
      emptied and the empty text is still handed to the clipboard. */
  lemma EngineFailurePublishesEmptyText(w: Waveform, engine: Waveform -> Outcome<string>)
    requires engine(w).Raises?
    ensures Publish(Some(w), engine) == Publication("", Some(""))
  {
  }

  /** The clipboard calls a publication makes, as a log of texts: at most
      one, and exactly when the publication copies. */
  function Copied(p: Publication): (log: seq<string>)
    ensures |log| <= 1 && (log != [] <==> p.copied.Some?)
  {
    if p.copied.Some? then [p.copied.value] else []
  }

  /** The two icons the record button switches between. */
  datatype Icon = RecordIcon | MicIcon
}
