/**
 * One listening session of the Parakeet recogniser: the endpointing
 * recorder that accumulates microphone chunks until silence follows speech,
 * the final inference (encoder output transpose, TDT decoding, vocabulary
 * lookup) and the event it produces.
 *
 * The microphone is the sequence of chunks it delivers before recording is
 * stopped from outside; the preprocessor and encoder networks are one
 * oracle `encode`, the decoder-joint network the oracle of `TdtDecoding`.
 */
module ParakeetListening {
  import opened Wrappers
  import opened Text
  import opened SttInput
  import ParakeetStates
  import TdtDecoding

  const SAMPLE_RATE: nat := 16000
  /** The RMS threshold 300 on 16-bit samples, squared so that the test stays in integers. */
  const SILENCE_RMS_THRESHOLD_SQUARED: nat := 300 * 300
  const SILENCE_DURATION_MS: nat := 1000
  const MAX_RECORDING_SECONDS: nat := 30
  const MAX_RECORDING_SAMPLES: nat := SAMPLE_RATE * MAX_RECORDING_SECONDS
  const MIN_SPEECH_SAMPLES_BEFORE_AUTO_STOP: nat := SAMPLE_RATE * 2 / 5

  // ---------------------------------------------------------------------------
  // Endpointing

  function SumSquares(chunk: seq<Sample>): nat {
    if chunk == [] then 0
    else
      var x: int := chunk[|chunk| - 1];
      SumSquares(chunk[..|chunk| - 1]) + x * x
  }

  /** `sqrt(sumSquares / readSize) < 300`, restated without division or square root. */
  predicate IsSilent(chunk: seq<Sample>) {
    SumSquares(chunk) < SILENCE_RMS_THRESHOLD_SQUARED * |chunk|
  }

  /** `max(1, samplesPerSilenceUnit / readSize) * silencesBeforeStop`. */
  function RequiredSilentReads(readSize: nat, silencesBeforeStop: int): (r: int)
    requires readSize > 0
    ensures silencesBeforeStop >= 1 ==> r >= silencesBeforeStop
    ensures readSize >= SILENCE_DURATION_MS * SAMPLE_RATE / 1000 ==> r == silencesBeforeStop
  {
    var samplesPerSilenceUnit := SILENCE_DURATION_MS * SAMPLE_RATE / 1000;
    var readsPerSilenceUnit := if samplesPerSilenceUnit / readSize >= 1 then samplesPerSilenceUnit / readSize else 1;
    readsPerSilenceUnit * silencesBeforeStop
  }

  /** The recorder's variables: the audio so far, the speech counters and the run of silent reads. */
  datatype Recorder = Recorder(audio: seq<Sample>, speechSamples: int, hasHeardSpeech: bool, silentReads: nat)

  const START: Recorder := Recorder([], 0, false, 0)

  /** `hasHeardSpeech` is exactly "at least the minimum amount of speech". */
  predicate Consistent(r: Recorder) {
    r.hasHeardSpeech <==> r.speechSamples >= MIN_SPEECH_SAMPLES_BEFORE_AUTO_STOP as int
  }

  /** Accounts for one non-empty chunk: append it, then count it as speech or as a silent read. */
  function Observe(r: Recorder, chunk: seq<Sample>): (r': Recorder)
    requires |chunk| > 0
    ensures r'.audio == r.audio + chunk
    ensures IsSilent(chunk) ==>
      r'.silentReads == r.silentReads + 1 && r'.speechSamples == r.speechSamples
      && r'.hasHeardSpeech == r.hasHeardSpeech
    ensures !IsSilent(chunk) ==> r'.silentReads == 0 && r'.speechSamples == r.speechSamples + |chunk|
    ensures !IsSilent(chunk) ==> Consistent(r')
    ensures Consistent(r) ==> Consistent(r')
  {
    if !IsSilent(chunk) then
      var speech := r.speechSamples + |chunk|;
      Recorder(r.audio + chunk, speech, speech >= MIN_SPEECH_SAMPLES_BEFORE_AUTO_STOP as int, 0)
    else
      r.(audio := r.audio + chunk, silentReads := r.silentReads + 1)
  }

  datatype StopReason = SilenceAfterSpeech | MaxDuration | Interrupted

  /** How a recording ended, the recorder at that point and how many chunks were read. */
  datatype Recording = Recording(rec: Recorder, reason: StopReason, consumed: nat)

  /**
   * The recording loop from recorder `r` over the chunks the microphone
   * delivers; an empty chunk (a read of zero or fewer samples) is skipped.
   * Running out of chunks means recording was stopped from outside.
   */
  function RecordFrom(r: Recorder, chunks: seq<seq<Sample>>, silencesBeforeStop: int): (out: Recording)
    ensures out.consumed <= |chunks|
    ensures out.reason == Interrupted ==> out.consumed == |chunks|
    ensures out.reason != Interrupted ==> out.consumed >= 1 && chunks[out.consumed - 1] != []
    decreases |chunks|
  {
    if chunks == [] then Recording(r, Interrupted, 0)
    else
      var chunk := chunks[0];
      if chunk == [] then
        var rest := RecordFrom(r, chunks[1..], silencesBeforeStop);
        rest.(consumed := rest.consumed + 1)
      else
        var r1 := Observe(r, chunk);
        if r1.hasHeardSpeech && r1.silentReads >= RequiredSilentReads(|chunk|, silencesBeforeStop) then
          Recording(r1, SilenceAfterSpeech, 1)
        else if |r1.audio| >= MAX_RECORDING_SAMPLES then
          Recording(r1, MaxDuration, 1)
        else
          var rest := RecordFrom(r1, chunks[1..], silencesBeforeStop);
          rest.(consumed := rest.consumed + 1)
  }

  /** The concatenation of chunks. */
  function Concat(chunks: seq<seq<Sample>>): seq<Sample> {
    if chunks == [] then [] else chunks[0] + Concat(chunks[1..])
  }

  /** The number of samples in the non-silent chunks. */
  function SpeechOf(chunks: seq<seq<Sample>>): nat {
    if chunks == [] then 0
    else (if chunks[0] != [] && !IsSilent(chunks[0]) then |chunks[0]| else 0) + SpeechOf(chunks[1..])
  }

  /** The recorded audio is every chunk read, in order; the speech count is the size of the loud ones. */
  lemma ConcatCons(chunk: seq<Sample>, chunks: seq<seq<Sample>>)
    ensures Concat([chunk] + chunks) == chunk + Concat(chunks)
    ensures SpeechOf([chunk] + chunks) == SpeechOf([chunk]) + SpeechOf(chunks)
  {
    assert ([chunk] + chunks)[1..] == chunks;
    assert [chunk][1..] == [];
  }

  lemma {:induction false} RecordFromAccumulates(r: Recorder, chunks: seq<seq<Sample>>, silencesBeforeStop: int)
    ensures var out := RecordFrom(r, chunks, silencesBeforeStop);
      out.rec.audio == r.audio + Concat(chunks[..out.consumed])
      && out.rec.speechSamples == r.speechSamples + SpeechOf(chunks[..out.consumed])
    decreases |chunks|, 1
  {
    if chunks != [] {
      var chunk := chunks[0];
      if chunk == [] {
        RecordFromTail(r, r, chunks, silencesBeforeStop);
      } else {
        var r1 := Observe(r, chunk);
        if r1.hasHeardSpeech && r1.silentReads >= RequiredSilentReads(|chunk|, silencesBeforeStop) {
          RecordFromStops(r, r1, chunks, silencesBeforeStop);
        } else if |r1.audio| >= MAX_RECORDING_SAMPLES {
          RecordFromStops(r, r1, chunks, silencesBeforeStop);
        } else {
          RecordFromTail(r, r1, chunks, silencesBeforeStop);
        }
      }
    }
  }

  /** The case of `RecordFromAccumulates` where the first chunk ends the recording. */
  lemma RecordFromStops(r: Recorder, r1: Recorder, chunks: seq<seq<Sample>>, silencesBeforeStop: int)
    requires chunks != [] && chunks[0] != [] && r1 == Observe(r, chunks[0])
    requires RecordFrom(r, chunks, silencesBeforeStop) == Recording(r1, RecordFrom(r, chunks, silencesBeforeStop).reason, 1)
    ensures var out := RecordFrom(r, chunks, silencesBeforeStop);
      out.rec.audio == r.audio + Concat(chunks[..out.consumed])
      && out.rec.speechSamples == r.speechSamples + SpeechOf(chunks[..out.consumed])
  {
    assert chunks[..1] == [chunks[0]];
    ConcatCons(chunks[0], []);
  }

  /** The case of `RecordFromAccumulates` where recording goes on with `r1` after the first chunk. */
  lemma {:induction false} RecordFromTail(r: Recorder, r1: Recorder, chunks: seq<seq<Sample>>, silencesBeforeStop: int)
    requires chunks != []
    requires r1.audio == r.audio + chunks[0]
    requires r1.speechSamples == r.speechSamples + SpeechOf([chunks[0]])
    requires var rest := RecordFrom(r1, chunks[1..], silencesBeforeStop);
      RecordFrom(r, chunks, silencesBeforeStop) == rest.(consumed := rest.consumed + 1)
    ensures var out := RecordFrom(r, chunks, silencesBeforeStop);
      out.rec.audio == r.audio + Concat(chunks[..out.consumed])
      && out.rec.speechSamples == r.speechSamples + SpeechOf(chunks[..out.consumed])
    decreases |chunks|, 0
  {
    var rest := RecordFrom(r1, chunks[1..], silencesBeforeStop);
    RecordFromAccumulates(r1, chunks[1..], silencesBeforeStop);
    var tail := chunks[1..][..rest.consumed];
    assert chunks[..rest.consumed + 1] == [chunks[0]] + tail;
    ConcatCons(chunks[0], tail);
  }

  /**
   * A silence stop needs the minimum amount of speech and enough consecutive
   * silent reads; with at least one silence unit the chunk that triggers it
   * is itself silent.
   */
  lemma {:induction false} SilenceStopIsJustified(r: Recorder, chunks: seq<seq<Sample>>, silencesBeforeStop: int)
    requires Consistent(r)
    requires RecordFrom(r, chunks, silencesBeforeStop).reason == SilenceAfterSpeech
    ensures var out := RecordFrom(r, chunks, silencesBeforeStop);
      var last := chunks[out.consumed - 1];
      out.rec.speechSamples >= MIN_SPEECH_SAMPLES_BEFORE_AUTO_STOP as int
      && out.rec.silentReads >= RequiredSilentReads(|last|, silencesBeforeStop)
      && (silencesBeforeStop >= 1 ==> IsSilent(last))
    decreases |chunks|
  {
    var chunk := chunks[0];
    if chunk == [] {
      SilenceStopIsJustified(r, chunks[1..], silencesBeforeStop);
    } else {
      var r1 := Observe(r, chunk);
      if !(r1.hasHeardSpeech && r1.silentReads >= RequiredSilentReads(|chunk|, silencesBeforeStop)) {
        SilenceStopIsJustified(r1, chunks[1..], silencesBeforeStop);
      }
    }
  }

  /** An outside stop happens before the 30-second cap; a cap stop has reached it. */
  lemma {:induction false} RecordingRespectsCap(r: Recorder, chunks: seq<seq<Sample>>, silencesBeforeStop: int)
    requires |r.audio| < MAX_RECORDING_SAMPLES
    ensures var out := RecordFrom(r, chunks, silencesBeforeStop);
      (out.reason == Interrupted ==> |out.rec.audio| < MAX_RECORDING_SAMPLES)
      && (out.reason == MaxDuration ==> |out.rec.audio| >= MAX_RECORDING_SAMPLES)
    decreases |chunks|
  {
    if chunks != [] {
      var chunk := chunks[0];
      if chunk == [] {
        RecordingRespectsCap(r, chunks[1..], silencesBeforeStop);
      } else {
        var r1 := Observe(r, chunk);
        if |r1.audio| < MAX_RECORDING_SAMPLES {
          RecordingRespectsCap(r1, chunks[1..], silencesBeforeStop);
        }
      }
    }
  }

  // ---------------------------------------------------------------------------
  // Final inference

  /** What the preprocessor and encoder return: a `[1, D, T]` tensor in row-major order and the encoded length. */
  datatype EncoderOutput = EncoderOutput(flat: seq<real>, outD: int, outT: int, encodedLength: int)

  /** The networks one inference uses; `S` is the decoder-joint's LSTM state. */
  datatype Network<!S> = Network(
    encode: seq<Sample> -> Result<EncoderOutput, Throwable>,
    joint: (seq<real>, int, S) -> Option<TdtDecoding.JointOutput<S>>,
    initState: S)

  lemma FlatIndexInRange(d: int, t: int, outD: int, outT: int)
    requires 0 <= d < outD && 0 <= t < outT
    ensures 0 <= d * outT + t < outD * outT
  {
    assert d * outT <= (outD - 1) * outT;
  }

  /**
   * `Array(outT) { t -> FloatArray(outD) { d -> flat[d * outT + t] } }`:
   * fails where Kotlin throws (a negative size, or an index past the data).
   */
  function Transpose(flat: seq<real>, outD: int, outT: int): (r: Result<seq<seq<real>>, Throwable>)
    ensures r.Success? <==> outT == 0 || (outT > 0 && outD >= 0 && |flat| >= outD * outT)
    ensures r.Success? ==> |r.value| == outT
    ensures r.Success? ==> forall t :: 0 <= t < outT ==> |r.value[t]| == outD
  {
    if outT < 0 then Failure(Throwable("NegativeArraySizeException"))
    else if outT == 0 then Success([])
    else if outD < 0 then Failure(Throwable("NegativeArraySizeException"))
    else if |flat| < outD * outT then Failure(Throwable("ArrayIndexOutOfBoundsException"))
    else
      Success(seq(outT, t requires 0 <= t < outT =>
        seq(outD, d requires 0 <= d < outD =>
          FlatIndexInRange(d, t, outD, outT);
          flat[d * outT + t])))
  }

  /** Entry `[t][d]` of the transposed matrix is element `d * outT + t` of the encoder data. */
  lemma TransposeEntry(flat: seq<real>, outD: int, outT: int, t: int, d: int)
    requires Transpose(flat, outD, outT).Success?
    requires 0 <= t < outT && 0 <= d < outD
    ensures 0 <= d * outT + t < |flat|
    ensures Transpose(flat, outD, outT).value[t][d] == flat[d * outT + t]
  {
    FlatIndexInRange(d, t, outD, outT);
  }

  /** Reads a `[T][D]` matrix back into `[D, T]` row-major order. */
  function Flatten(frames: seq<seq<real>>, outD: nat, outT: nat): (flat: seq<real>)
    requires |frames| == outT && forall t :: 0 <= t < outT ==> |frames[t]| == outD
    ensures |flat| == outD * outT
  {
    seq(outD * outT, i requires 0 <= i < outD * outT =>
      DivModInRange(i, outD, outT);
      frames[i % outT][i / outT])
  }

  lemma DivModInRange(i: nat, outD: nat, outT: nat)
    requires i < outD * outT
    ensures outT > 0 && 0 <= i % outT < outT && 0 <= i / outT < outD
  {
  }

  /** Transposing loses nothing: flattening the frames back gives the encoder's data. */
  lemma TransposeRoundTrip(flat: seq<real>, outD: nat, outT: nat)
    requires outT > 0 && |flat| >= outD * outT
    ensures Transpose(flat, outD, outT).Success?
    ensures Flatten(Transpose(flat, outD, outT).value, outD, outT) == flat[..outD * outT]
  {
    var frames := Transpose(flat, outD, outT).value;
    var back := Flatten(frames, outD, outT);
    forall i | 0 <= i < outD * outT ensures back[i] == flat[i] {
      DivModInRange(i, outD, outT);
      TransposeEntry(flat, outD, outT, i % outT, i / outT);
      assert i == (i / outT) * outT + i % outT;
    }
  }

  /** `mapNotNull { vocab[it] }.joinToString("")`. */
  function JoinTokens(ids: seq<int>, vocab: ParakeetStates.Vocab): string {
    if ids == [] then []
    else
      (match ParakeetStates.Get(vocab, ids[0]) case None => [] case Some(token) => token)
      + JoinTokens(ids[1..], vocab)
  }

  /** `decodeTokens`: the joined tokens, trimmed. */
  function DecodeTokens(ids: seq<int>, vocab: ParakeetStates.Vocab): string {
    Trim(JoinTokens(ids, vocab))
  }

  /** Joining distributes over concatenation: tokens are joined with no separator. */
  lemma {:induction false} JoinTokensAppend(a: seq<int>, b: seq<int>, vocab: ParakeetStates.Vocab)
    ensures JoinTokens(a + b, vocab) == JoinTokens(a, vocab) + JoinTokens(b, vocab)
  {
    if a == [] {
      assert a + b == b;
    } else {
      assert (a + b)[0] == a[0];
      assert (a + b)[1..] == a[1..] + b;
      JoinTokensAppend(a[1..], b, vocab);
    }
  }

  /** An id missing from the vocabulary contributes nothing. */
  lemma JoinTokensSkipsMissing(ids: seq<int>, k: nat, vocab: ParakeetStates.Vocab)
    requires k < |ids| && ParakeetStates.Get(vocab, ids[k]).None?
    ensures JoinTokens(ids, vocab) == JoinTokens(ids[..k] + ids[k + 1..], vocab)
  {
    assert ids == ids[..k] + [ids[k]] + ids[k + 1..];
    JoinTokensAppend(ids[..k] + [ids[k]], ids[k + 1..], vocab);
    JoinTokensAppend(ids[..k], [ids[k]], vocab);
    JoinTokensAppend(ids[..k], ids[k + 1..], vocab);
  }

  /** The decoded text is a piece of the joined tokens with no whitespace at either end. */
  lemma DecodeTokensIsTrimmedJoin(ids: seq<int>, vocab: ParakeetStates.Vocab) returns (i: nat, j: nat)
    ensures var joined := JoinTokens(ids, vocab);
      i <= j <= |joined| && DecodeTokens(ids, vocab) == joined[i..j]
      && (forall k :: 0 <= k < i ==> IsWhitespace(joined[k]))
      && (forall k :: j <= k < |joined| ==> IsWhitespace(joined[k]))
    ensures var text := DecodeTokens(ids, vocab);
      text != [] ==> !IsWhitespace(text[0]) && !IsWhitespace(text[|text| - 1])
  {
    i, j := TrimByIsInfix(JoinTokens(ids, vocab), IsWhitespace);
  }

  function DecodeErrorThrowable(e: TdtDecoding.DecodeError): Throwable {
    match e
    case JointFailed => Throwable("OrtException")
    case LogitsTooShort(_, _) => Throwable("IndexOutOfBoundsException")
  }

  /** `runInference`: encoder, transpose, TDT greedy decoding, vocabulary lookup. */
  function RunInference<S>(audio: seq<Sample>, net: Network<S>, sessions: ParakeetStates.Sessions): Result<string, Throwable> {
    var enc :- net.encode(audio);
    var frames :- Transpose(enc.flat, enc.outD, enc.outT);
    match TdtDecoding.Decode(frames, enc.encodedLength, sessions.BlankIdx(), sessions.VocabSize(), net.joint, net.initState)
    case Failure(e) => Failure(DecodeErrorThrowable(e))
    case Success(tokens) => Success(DecodeTokens(tokens, sessions.vocab))
  }

  /**
   * The event `processAudio` sends: None for empty audio or a blank
   * transcription, one alternative with confidence 1.0 otherwise, and an
   * Error when inference throws.
   */
  function FinalEvent<S>(audio: seq<Sample>, net: Network<S>, sessions: ParakeetStates.Sessions): (e: InputEvent)
    ensures e.NoneEvent? <==>
      audio == [] || (RunInference(audio, net, sessions).Success? && IsBlank(RunInference(audio, net, sessions).value))
    ensures e.Error? <==> audio != [] && RunInference(audio, net, sessions).Failure?
    ensures e.Final? ==> e == Final([(RunInference(audio, net, sessions).value, 1.0)])
    ensures !e.Partial?
  {
    if audio == [] then NoneEvent
    else
      match RunInference(audio, net, sessions)
      case Failure(t) => Error(t)
      case Success(text) => if IsBlank(text) then NoneEvent else Final([(text, 1.0)])
  }

  /** A Final event carries a non-blank text without surrounding whitespace. */
  lemma FinalTextIsTrimmed<S>(audio: seq<Sample>, net: Network<S>, sessions: ParakeetStates.Sessions)
    requires FinalEvent(audio, net, sessions).Final?
    ensures var text := FinalEvent(audio, net, sessions).alternatives[0].0;
      text != [] && !IsWhitespace(text[0]) && !IsWhitespace(text[|text| - 1])
  {
    var enc := net.encode(audio).value;
    var frames := Transpose(enc.flat, enc.outD, enc.outT).value;
    var tokens := TdtDecoding.Decode(frames, enc.encodedLength, sessions.BlankIdx(), sessions.VocabSize(), net.joint, net.initState).value;
    var i, j := DecodeTokensIsTrimmedJoin(tokens, sessions.vocab);
  }

  // ---------------------------------------------------------------------------
  // The listener object

  /** `AudioRecord.ERROR` and `AudioRecord.ERROR_BAD_VALUE`. */
  const AUDIO_RECORD_ERROR: int := -1
  const AUDIO_RECORD_ERROR_BAD_VALUE: int := -2

  /** What the hardware reports when recording starts. */
  datatype Microphone = Microphone(minBufferSize: int, initialized: bool)

  /** How a recording job ended. */
  datatype RecordingOutcome =
    | Stopped
      /** An error before `processAudio` ran; the device state is left as it is. */
    | Failed(event: InputEvent)
      /** `processAudio` ran: the device went back to Loaded, then `event` was sent. */
    | Processed(silenceDetected: bool, event: InputEvent)

  /** The outcome of the recording job, given how the loop ended and the listener's flags at that point. */
  function OutcomeOf<S>(
    out: Recording, readFailure: Option<Throwable>, shouldProcessFinalAudio: bool,
    stopRequestedByUser: bool, net: Network<S>, sessions: ParakeetStates.Sessions): (o: RecordingOutcome)
    ensures o.Processed? ==> shouldProcessFinalAudio
    ensures o.Processed? <==> shouldProcessFinalAudio && (out.reason != Interrupted || readFailure.None?)
    ensures o.Failed? ==> o.event.Error? && !stopRequestedByUser
  {
    if out.reason == Interrupted && readFailure.Some? then
      if stopRequestedByUser then Stopped else Failed(Error(readFailure.value))
    else if !shouldProcessFinalAudio then Stopped
    else Processed(out.reason == SilenceAfterSpeech, FinalEvent(out.rec.audio, net, sessions))
  }

  /** Recording from `cur` on the chunks left after `done` of them ends as `whole` does. */
  ghost predicate Resumes(cur: Recorder, rest: seq<seq<Sample>>, silencesBeforeStop: int, whole: Recording, done: nat) {
    var out := RecordFrom(cur, rest, silencesBeforeStop);
    out.rec == whole.rec && out.reason == whole.reason && done + out.consumed == whole.consumed
  }

  /** One chunk of `RecordFrom`: it either ends the recording or leaves the rest to the next chunk. */
  lemma RecordFromAdvance(cur: Recorder, rest: seq<seq<Sample>>, silencesBeforeStop: int)
    requires rest != []
    ensures rest[0] == [] ==>
      var tail := RecordFrom(cur, rest[1..], silencesBeforeStop);
      RecordFrom(cur, rest, silencesBeforeStop) == tail.(consumed := tail.consumed + 1)
    ensures rest[0] != [] ==>
      var r1 := Observe(cur, rest[0]);
      var tail := RecordFrom(r1, rest[1..], silencesBeforeStop);
      RecordFrom(cur, rest, silencesBeforeStop) ==
        if r1.hasHeardSpeech && r1.silentReads >= RequiredSilentReads(|rest[0]|, silencesBeforeStop) then
          Recording(r1, SilenceAfterSpeech, 1)
        else if |r1.audio| >= MAX_RECORDING_SAMPLES then Recording(r1, MaxDuration, 1)
        else tail.(consumed := tail.consumed + 1)
  {
  }

  /**
   * The body of the recording loop for one non-empty chunk: appends its
   * samples and updates the speech and silence counters.
   */
  method ReadChunk(audioData: seq<Sample>, speechSamples: int, hasHeardSpeech: bool, consecutiveSilentReads: nat,
    chunk: seq<Sample>)
    returns (audio': seq<Sample>, speech': int, heard': bool, silent': nat)
    requires |chunk| > 0
    ensures Recorder(audio', speech', heard', silent')
      == Observe(Recorder(audioData, speechSamples, hasHeardSpeech, consecutiveSilentReads), chunk)
  {
    var readSize := |chunk|;
    audio' := audioData;
    var k := 0;
    while k < readSize
      invariant 0 <= k <= readSize
      invariant audio' == audioData + chunk[..k]
    {
      audio' := audio' + [chunk[k]];
      k := k + 1;
    }
    assert chunk[..readSize] == chunk;
    var isSilent := SumSquares(chunk) < SILENCE_RMS_THRESHOLD_SQUARED * readSize;
    if !isSilent {
      speech' := speechSamples + readSize;
      heard' := speech' >= MIN_SPEECH_SAMPLES_BEFORE_AUTO_STOP as int;
      silent' := 0;
    } else {
      speech', heard' := speechSamples, hasHeardSpeech;
      silent' := consecutiveSilentReads + 1;
    }
  }

  class ParakeetListener {
    const eventListener: EventListener
    const silencesBeforeStop: int
    const sessions: ParakeetStates.Sessions
    var isRecording: bool
    var shouldProcessFinalAudio: bool
    var stopRequestedByUser: bool

    constructor(eventListener: EventListener, silencesBeforeStop: int, sessions: ParakeetStates.Sessions)
      ensures this.eventListener == eventListener && this.silencesBeforeStop == silencesBeforeStop
      ensures this.sessions == sessions
      ensures !isRecording && shouldProcessFinalAudio && !stopRequestedByUser
    {
      this.eventListener := eventListener;
      this.silencesBeforeStop := silencesBeforeStop;
      this.sessions := sessions;
      isRecording := false;
      shouldProcessFinalAudio := true;
      stopRequestedByUser := false;
    }

    /**
     * The first part of `startRecording`: resets the flags and checks the
     * hardware; on a failure it returns the Error event to send.
     */
    method StartRecording(mic: Microphone) returns (error: Option<InputEvent>)
      modifies this
      ensures shouldProcessFinalAudio && !stopRequestedByUser
      ensures error.Some? <==>
        mic.minBufferSize == AUDIO_RECORD_ERROR || mic.minBufferSize == AUDIO_RECORD_ERROR_BAD_VALUE
        || !mic.initialized
      ensures error.Some? ==> error.value.Error?
      ensures error.None? ==> isRecording
      ensures error.Some? ==> isRecording == old(isRecording)
    {
      shouldProcessFinalAudio := true;
      stopRequestedByUser := false;
      if mic.minBufferSize == AUDIO_RECORD_ERROR || mic.minBufferSize == AUDIO_RECORD_ERROR_BAD_VALUE {
        return Some(Error(Throwable("Invalid audio buffer size")));
      }
      if !mic.initialized {
        return Some(Error(Throwable("AudioRecord initialization failed")));
      }
      isRecording := true;
      return None;
    }

    /**
     * The recording loop and what follows it: `chunks` are the chunks read
     * before recording was stopped from outside, `readFailure` an exception
     * thrown by the read after them.
     */
    method RecordUntilStopped<S>(chunks: seq<seq<Sample>>, readFailure: Option<Throwable>, net: Network<S>)
      returns (outcome: RecordingOutcome)
      modifies this
      ensures outcome == OutcomeOf(RecordFrom(START, chunks, silencesBeforeStop), readFailure,
        shouldProcessFinalAudio, stopRequestedByUser, net, sessions)
      ensures !isRecording
      ensures shouldProcessFinalAudio == old(shouldProcessFinalAudio)
      ensures stopRequestedByUser == old(stopRequestedByUser)
    {
      var audioData: seq<Sample> := [];
      var hasHeardSpeech := false;
      var silenceDetected := false;
      var speechSamples := 0;
      var consecutiveSilentReads: nat := 0;
      ghost var whole := RecordFrom(START, chunks, silencesBeforeStop);
      var i := 0;
      var stoppedInLoop := false;
      while i < |chunks|
        invariant 0 <= i <= |chunks|
        invariant Resumes(Recorder(audioData, speechSamples, hasHeardSpeech, consecutiveSilentReads),
          chunks[i..], silencesBeforeStop, whole, i)
        invariant !silenceDetected
        invariant unchanged(this)
      {
        var chunk := chunks[i];
        ghost var before := Recorder(audioData, speechSamples, hasHeardSpeech, consecutiveSilentReads);
        RecordFromAdvance(before, chunks[i..], silencesBeforeStop);
        assert chunks[i..][0] == chunk && chunks[i..][1..] == chunks[i + 1..];
        var readSize := |chunk|;
        if readSize > 0 {
          audioData, speechSamples, hasHeardSpeech, consecutiveSilentReads :=
            ReadChunk(audioData, speechSamples, hasHeardSpeech, consecutiveSilentReads, chunk);
          var requiredSilentReads := RequiredSilentReads(readSize, silencesBeforeStop);
          if hasHeardSpeech && consecutiveSilentReads >= requiredSilentReads {
            silenceDetected := true;
            stoppedInLoop := true;
            break;
          }
          if |audioData| >= MAX_RECORDING_SAMPLES {
            stoppedInLoop := true;
            break;
          }
        }
        i := i + 1;
      }
      isRecording := false;
      assert whole.rec == Recorder(audioData, speechSamples, hasHeardSpeech, consecutiveSilentReads);
      assert stoppedInLoop <==> whole.reason != Interrupted;
      assert silenceDetected <==> whole.reason == SilenceAfterSpeech;
      if !stoppedInLoop && readFailure.Some? {
        if stopRequestedByUser {
          return Stopped;
        }
        return Failed(Error(readFailure.value));
      }
      if !shouldProcessFinalAudio {
        return Stopped;
      }
      var event := FinalEvent(audioData, net, sessions);
      return Processed(silenceDetected, event);
    }

    /** `stopAndDiscardCurrentAudio`: stops the loop and suppresses the final inference. */
    method StopAndDiscardCurrentAudio()
      modifies this
      ensures stopRequestedByUser && !shouldProcessFinalAudio && !isRecording
    {
      stopRequestedByUser := true;
      shouldProcessFinalAudio := false;
      isRecording := false;
    }
  }

  /** After a discard, whatever the microphone delivered, no inference runs and no event is produced. */
  lemma DiscardedRecordingProducesNothing<S>(chunks: seq<seq<Sample>>, readFailure: Option<Throwable>,
    silencesBeforeStop: int, net: Network<S>, sessions: ParakeetStates.Sessions)
    ensures OutcomeOf(RecordFrom(START, chunks, silencesBeforeStop), readFailure, false, true, net, sessions) == Stopped
  {
  }
}
