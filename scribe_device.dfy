/**
 * The cloud speech-to-text device backed by a realtime transcription
 * websocket. A session is: the caller clicks, the device opens a websocket
 * and becomes `Listening`; once the server says the session started, a
 * background job streams microphone audio as little-endian PCM; partial
 * transcripts are forwarded, and the first committed transcript, a server
 * error, a socket failure or a close ends the session with exactly one
 * final event.
 *
 * `Device` is the device's whole mutable state as a value, with one
 * function per operation giving the state afterwards; the lemmas below are
 * about these functions. `ScribeRealtimeInputDevice` is the class whose
 * methods update the same fields in place, each proved to leave the state
 * its function describes.
 */
module ScribeDevice {
  import opened Wrappers
  import opened Text
  import SttInput

  type EventListener = SttInput.EventListener
  type Emission = SttInput.Emission
  type Sample = SttInput.Sample

  const REALTIME_BASE_URL: string := "wss://api.elevenlabs.io/v1/speech-to-text/realtime"
  const MODEL_ID: string := "scribe_v2_realtime"
  const AUDIO_FORMAT: string := "pcm_16000"
  const COMMIT_STRATEGY: string := "vad"
  const SAMPLE_RATE: int := 16000
  /** 100 ms of audio at 16 kHz. */
  const CHUNK_SAMPLES: int := 1600
  const BYTES_PER_SAMPLE: int := 2
  const DEFAULT_LANGUAGE_CODE: string := "en"

  /** The websocket close code for a normal closure, also the one the device closes with. */
  const NORMAL_CLOSURE: int := 1000

  /** `AudioRecord.ERROR_INVALID_OPERATION` and `AudioRecord.ERROR_BAD_VALUE`. */
  const ERROR_INVALID_OPERATION: int := -3
  const ERROR_BAD_VALUE: int := -2

  /** The server message types that end the session with an error. */
  const ERROR_MESSAGE_TYPES: set<string> := {
    "error", "auth_error", "quota_exceeded", "transcriber_error", "input_error",
    "commit_throttled", "unaccepted_terms", "rate_limited", "queue_overflow",
    "resource_exhausted", "session_time_limit_exceeded", "chunk_size_exceeded",
    "insufficient_audio_activity"
  }

  /** A blank API key makes the device unavailable; any other key makes it ready at once. */
  function ReadyStateFromApiKey(apiKey: string): (r: SttInput.SttState)
    ensures r == SttInput.NotAvailable <==> IsBlank(apiKey)
    ensures r == SttInput.Loaded <==> !IsBlank(apiKey)
  {
    if IsBlank(apiKey) then SttInput.NotAvailable else SttInput.Loaded
  }

  /** The locale's language code, or English when the locale has none. */
  function LanguageCodeFromLocale(language: string): (code: string)
    ensures !IsBlank(code)
    ensures !IsBlank(language) ==> code == language
    ensures IsBlank(language) ==> code == DEFAULT_LANGUAGE_CODE
  {
    if IsBlank(language) then
      assert !IsWhitespace(DEFAULT_LANGUAGE_CODE[0]);
      DEFAULT_LANGUAGE_CODE
    else language
  }

  // ---------------------------------------------------------------------
  // Server messages
  // ---------------------------------------------------------------------

  /**
   * A parsed JSON object, reduced to what `optString` sees: each present key
   * with its value rendered as a string.
   */
  datatype JsonObject = JsonObject(fields: map<string, string>)

  /** `JSONObject.optString(key, fallback)`. */
  function OptString(o: JsonObject, key: string, fallback: string): (r: string)
    ensures key in o.fields ==> r == o.fields[key]
    ensures key !in o.fields ==> r == fallback
  {
    if key in o.fields then o.fields[key] else fallback
  }

  /** The message type: `message_type`, else `type`, else empty. */
  function MessageType(o: JsonObject): string {
    OptString(o, "message_type", OptString(o, "type", ""))
  }

  /** What a server message asks the device to do. */
  datatype ServerEvent =
    | SessionStarted
    | PartialTranscript(text: string)
    | CommittedTranscript(text: string)
    | ServerError(messageType: string, errorMessage: string)
    | Ignored

  /**
   * The dispatch on the message type. The error message is the `error`
   * field, else the `message` field, else the type itself.
   */
  function Classify(o: JsonObject): (e: ServerEvent)
    ensures e.SessionStarted? <==> MessageType(o) == "session_started"
    ensures e.PartialTranscript? <==> MessageType(o) == "partial_transcript"
    ensures e.CommittedTranscript? <==>
      MessageType(o) in {"committed_transcript", "committed_transcript_with_timestamps"}
    ensures e.ServerError? <==> MessageType(o) in ERROR_MESSAGE_TYPES
    ensures e.PartialTranscript? || e.CommittedTranscript? ==> e.text == OptString(o, "text", "")
    ensures e.ServerError? ==>
      e.messageType == MessageType(o)
      && e.errorMessage == OptString(o, "error", OptString(o, "message", MessageType(o)))
  {
    var t := MessageType(o);
    if t == "session_started" then SessionStarted
    else if t == "partial_transcript" then PartialTranscript(OptString(o, "text", ""))
    else if t == "committed_transcript" || t == "committed_transcript_with_timestamps" then
      CommittedTranscript(OptString(o, "text", ""))
    else if t in ERROR_MESSAGE_TYPES then
      ServerError(t, OptString(o, "error", OptString(o, "message", t)))
    else Ignored
  }

  function ServerErrorThrowable(messageType: string, errorMessage: string): SttInput.Throwable {
    SttInput.Throwable("Scribe realtime error (" + messageType + "): " + errorMessage)
  }

  function ConnectionClosedThrowable(code: int, reason: string): SttInput.Throwable {
    SttInput.Throwable("Scribe connection closed: " + IntToDecimal(code) + " " + reason)
  }

  // ---------------------------------------------------------------------
  // The device state and its transitions
  // ---------------------------------------------------------------------

  /**
   * All of the device's mutable state. Websockets are numbered in opening
   * order: `webSocket` is the one the device holds, `socketsOpened` how many
   * were opened, `closed` the ones the device closed (with code 1000), in
   * order. `streaming` says the audio streaming job is active, `events` is
   * every callback invocation, in order.
   */
  datatype Device = Device(
    uiState: SttInput.SttState,
    languageCode: string,
    apiKey: string,
    webSocket: Option<nat>,
    socketsOpened: nat,
    closed: seq<nat>,
    shouldRecordAudio: bool,
    listener: Option<EventListener>,
    streaming: bool,
    events: seq<Emission>)
  {
    /**
     * A listener is registered exactly while a websocket is held, and audio
     * is wanted exactly then too; listening implies both. The held socket
     * is the latest one opened, and every socket is closed at most once, in
     * opening order, the held one not yet.
     */
    predicate Valid() {
      (listener.Some? <==> webSocket.Some?)
      && (shouldRecordAudio <==> webSocket.Some?)
      && (uiState == SttInput.Listening ==> webSocket.Some?)
      && SocketsValid()
    }

    /** The part of `Valid` about socket numbering, which also holds mid-way through `startListening`. */
    predicate SocketsValid() {
      (webSocket.Some? ==> webSocket.value + 1 == socketsOpened)
      && (forall i, j :: 0 <= i < j < |closed| ==> closed[i] < closed[j])
      && (forall k :: k in closed ==> k < socketsOpened)
      && (webSocket.Some? ==> webSocket.value !in closed)
      && !IsBlank(languageCode)
    }

    /** The condition of the audio streaming loop. */
    predicate KeepsStreaming() {
      shouldRecordAudio && uiState == SttInput.Listening
    }

    /** `listener?.invoke(event)`. */
    function Notify(to: Option<EventListener>, event: SttInput.InputEvent): (r: Device)
      ensures to.None? ==> r == this
      ensures to.Some? ==> r == this.(events := events + [SttInput.Emission(to.value, event)])
    {
      if to.Some? then this.(events := events + [SttInput.Emission(to.value, event)]) else this
    }

    /**
     * `stopListeningInternal`: ends the session. Leaving `Listening` goes to
     * the key's ready state; the listener, the wish to record, the streaming
     * job and the held socket (closed normally) are all dropped; the old
     * listener gets `None` only when the device was listening and
     * `sendNoneEvent` asks for it.
     */
    function StopListeningInternal(sendNoneEvent: bool): (r: Device)
      ensures r.listener.None? && r.webSocket.None? && !r.shouldRecordAudio && !r.streaming
      ensures r.uiState != SttInput.Listening && !r.KeepsStreaming()
      ensures uiState == SttInput.Listening ==> r.uiState == ReadyStateFromApiKey(apiKey)
      ensures uiState != SttInput.Listening ==> r.uiState == uiState
      ensures r.closed == closed + (if webSocket.Some? then [webSocket.value] else [])
      ensures r.events == events
        || (uiState == SttInput.Listening && sendNoneEvent && listener.Some?
            && r.events == events + [SttInput.Emission(listener.value, SttInput.NoneEvent)])
      ensures r.apiKey == apiKey && r.languageCode == languageCode && r.socketsOpened == socketsOpened
    {
      var wasListening := uiState == SttInput.Listening;
      var stopped := this.(
        uiState := if wasListening then ReadyStateFromApiKey(apiKey) else uiState,
        listener := None,
        shouldRecordAudio := false,
        streaming := false,
        webSocket := None,
        closed := closed + (if webSocket.Some? then [webSocket.value] else []));
      if wasListening && sendNoneEvent then stopped.Notify(listener, SttInput.NoneEvent) else stopped
    }

    /** Stops without the `None` event and tells the old listener about the error instead. */
    function EmitErrorAndStop(t: SttInput.Throwable): Device {
      StopListeningInternal(false).Notify(listener, SttInput.Error(t))
    }

    /** Stops without the `None` event from the stop itself, then sends `None` to the old listener. */
    function EmitNoneAndStop(): Device {
      StopListeningInternal(false).Notify(listener, SttInput.NoneEvent)
    }

    /**
     * `startListening`: ignored while listening; a blank key makes the
     * device unavailable; otherwise the listener is registered, the device
     * listens and a websocket is opened. `connectError` is the exception
     * building the request may throw, which ends the session at once.
     */
    function StartListening(l: EventListener, connectError: Option<SttInput.Throwable>): (r: Device)
      ensures uiState == SttInput.Listening ==> r == this
      ensures uiState != SttInput.Listening && IsBlank(apiKey) ==> r == this.(uiState := SttInput.NotAvailable)
      ensures uiState != SttInput.Listening && !IsBlank(apiKey) && connectError.None? ==>
        r.uiState == SttInput.Listening && r.listener == Some(l) && r.KeepsStreaming()
        && r.webSocket == Some(socketsOpened) && r.socketsOpened == socketsOpened + 1
        && r.events == events
    {
      if uiState == SttInput.Listening then this
      else if IsBlank(apiKey) then this.(uiState := SttInput.NotAvailable)
      else
        var started := this.(listener := Some(l), uiState := SttInput.Listening, shouldRecordAudio := true);
        match connectError
        case Some(e) => started.EmitErrorAndStop(e)
        case None => started.(webSocket := Some(socketsOpened), socketsOpened := socketsOpened + 1)
    }

    /**
     * `tryLoad`: fails only for a blank key. Without a listener the device
     * only reports being ready; with one it starts listening.
     */
    function TryLoad(l: Option<EventListener>, connectError: Option<SttInput.Throwable>): (r: (Device, bool))
      ensures r.1 <==> !IsBlank(apiKey)
      ensures !r.1 ==> r.0 == this.(uiState := SttInput.NotAvailable)
      ensures r.1 && l.None? ==> r.0 == this.(uiState := SttInput.Loaded)
      ensures r.1 && l.Some? ==> r.0 == StartListening(l.value, connectError)
      ensures r.1 && l.Some? && uiState != SttInput.Listening && connectError.None? ==>
        r.0.uiState == SttInput.Listening && r.0.listener == l && r.0.KeepsStreaming()
    {
      if IsBlank(apiKey) then (this.(uiState := SttInput.NotAvailable), false)
      else if l.None? then (this.(uiState := SttInput.Loaded), true)
      else (StartListening(l.value, connectError), true)
    }

    /** `onClick`: stops (with `None`) while listening, otherwise starts with this listener. */
    function OnClick(l: EventListener, connectError: Option<SttInput.Throwable>): Device {
      if uiState == SttInput.Listening then StopListeningInternal(true)
      else if IsBlank(apiKey) then this.(uiState := SttInput.NotAvailable)
      else StartListening(l, connectError)
    }

    function StopListening(): Device {
      StopListeningInternal(true)
    }

    /** Starts the streaming job unless one is already active. */
    function StartAudioStreaming(): Device {
      if streaming then this else this.(streaming := true)
    }

    /**
     * `handleServerMessage`; `parsed` is the JSON parse of the text frame,
     * or the exception it threw.
     */
    function HandleServerMessage(parsed: Result<JsonObject, SttInput.Throwable>): Device {
      match parsed
      case Failure(e) => EmitErrorAndStop(e)
      case Success(o) =>
        match Classify(o)
        case SessionStarted => StartAudioStreaming()
        case PartialTranscript(p) =>
          if IsBlank(p) then this else Notify(listener, SttInput.Partial(p))
        case CommittedTranscript(t) =>
          if IsBlank(t) then this
          else StopListeningInternal(false).Notify(listener, SttInput.Final([(t, 1.0)]))
        case ServerError(t, m) => EmitErrorAndStop(ServerErrorThrowable(t, m))
        case Ignored => this
    }

    /** `onClosed`: only a listening device reacts; a normal close ends with `None`, any other with an error. */
    function OnClosed(code: int, reason: string): (r: Device)
      ensures uiState != SttInput.Listening ==> r == this
    {
      if uiState != SttInput.Listening then this
      else if code == NORMAL_CLOSURE then EmitNoneAndStop()
      else EmitErrorAndStop(ConnectionClosedThrowable(code, reason))
    }

    function OnFailure(t: SttInput.Throwable): Device {
      EmitErrorAndStop(t)
    }

    /** A new API key is stored trimmed; the state follows it unless the device is listening. */
    function ApiKeyChanged(key: string): Device {
      var k := Trim(key);
      this.(apiKey := k,
            uiState := if uiState != SttInput.Listening then ReadyStateFromApiKey(k) else uiState)
    }

    function LocaleChanged(language: string): Device {
      this.(languageCode := LanguageCodeFromLocale(language))
    }

    /**
     * The streaming job ends, normally or with `error`; an error ends the
     * session only while the device is still listening.
     */
    function StreamingEnded(error: Option<SttInput.Throwable>): Device {
      (if error.Some? && uiState == SttInput.Listening then EmitErrorAndStop(error.value) else this)
        .(streaming := false)
    }

    function Destroy(): Device {
      StopListeningInternal(false)
    }
  }

  /** `init`: the locale's language, the trimmed key and the ready state it implies. */
  function Init(language: string, apiKey: string): Device {
    var key := Trim(apiKey);
    Device(ReadyStateFromApiKey(key), LanguageCodeFromLocale(language), key, None, 0, [], false, None, false, [])
  }

  lemma InitIsValid(language: string, apiKey: string)
    ensures Init(language, apiKey).Valid()
  {
  }

  /** Everything that can happen to the device: calls from the app and callbacks from the socket or job. */
  datatype Call =
    | TryLoadCall(l: Option<EventListener>, connectError: Option<SttInput.Throwable>)
    | OnClickCall(listener: EventListener, connectError: Option<SttInput.Throwable>)
    | StopListeningCall
    | MessageCall(parsed: Result<JsonObject, SttInput.Throwable>)
    | ClosedCall(code: int, reason: string)
    | FailureCall(throwable: SttInput.Throwable)
    | ApiKeyCall(key: string)
    | LocaleCall(language: string)
    | StreamingEndedCall(error: Option<SttInput.Throwable>)
    | DestroyCall

  function Apply(d: Device, c: Call): Device {
    match c
    case TryLoadCall(l, e) => d.TryLoad(l, e).0
    case OnClickCall(l, e) => d.OnClick(l, e)
    case StopListeningCall => d.StopListening()
    case MessageCall(p) => d.HandleServerMessage(p)
    case ClosedCall(code, reason) => d.OnClosed(code, reason)
    case FailureCall(t) => d.OnFailure(t)
    case ApiKeyCall(k) => d.ApiKeyChanged(k)
    case LocaleCall(lang) => d.LocaleChanged(lang)
    case StreamingEndedCall(e) => d.StreamingEnded(e)
    case DestroyCall => d.Destroy()
  }

  /** The listener a call brings along, if any. */
  function CallListener(c: Call): Option<EventListener> {
    match c
    case TryLoadCall(l, _) => l
    case OnClickCall(l, _) => Some(l)
    case _ => None
  }

  function RunCalls(d: Device, calls: seq<Call>): Device
    decreases |calls|
  {
    if calls == [] then d else RunCalls(Apply(d, calls[0]), calls[1..])
  }

  predicate Terminal(e: SttInput.InputEvent) {
    e.Final? || e.NoneEvent? || e.Error?
  }

  // ---------------------------------------------------------------------
  // Properties
  // ---------------------------------------------------------------------

  /** Stopping twice is stopping once: the second stop finds nothing to stop. */
  lemma StopIsIdempotent(d: Device, first: bool, second: bool)
    ensures d.StopListeningInternal(first).StopListeningInternal(second) == d.StopListeningInternal(first)
  {
  }

  lemma StopKeepsValid(d: Device, sendNoneEvent: bool)
    requires d.SocketsValid()
    ensures d.StopListeningInternal(sendNoneEvent).Valid()
  {
    var r := d.StopListeningInternal(sendNoneEvent);
    if d.webSocket.Some? {
      var v := d.webSocket.value;
      assert r.closed == d.closed + [v];
      forall i, j | 0 <= i < j < |r.closed| ensures r.closed[i] < r.closed[j] {
        if j == |d.closed| {
          assert r.closed[i] == d.closed[i] && d.closed[i] in d.closed;
        }
      }
    }
  }

  lemma NotifyKeepsValid(d: Device, to: Option<EventListener>, e: SttInput.InputEvent)
    requires d.Valid()
    ensures d.Notify(to, e).Valid()
  {
  }

  lemma StartListeningKeepsValid(d: Device, l: EventListener, connectError: Option<SttInput.Throwable>)
    requires d.Valid()
    ensures d.StartListening(l, connectError).Valid()
  {
    if d.uiState != SttInput.Listening && !IsBlank(d.apiKey) {
      var started := d.(listener := Some(l), uiState := SttInput.Listening, shouldRecordAudio := true);
      if connectError.Some? {
        // The device may still hold a socket left open by `tryLoad` without a listener.
        StopKeepsValid(started, false);
        NotifyKeepsValid(started.StopListeningInternal(false), started.listener, SttInput.Error(connectError.value));
      }
    }
  }

  lemma OnClickKeepsValid(d: Device, l: EventListener, connectError: Option<SttInput.Throwable>)
    requires d.Valid()
    ensures d.OnClick(l, connectError).Valid()
  {
    if d.uiState == SttInput.Listening {
      StopKeepsValid(d, true);
    } else if !IsBlank(d.apiKey) {
      StartListeningKeepsValid(d, l, connectError);
    }
  }

  lemma MessageKeepsValid(d: Device, parsed: Result<JsonObject, SttInput.Throwable>)
    requires d.Valid()
    ensures d.HandleServerMessage(parsed).Valid()
  {
    StopKeepsValid(d, false);
    var s := d.StopListeningInternal(false);
    match parsed
    case Failure(e) => NotifyKeepsValid(s, d.listener, SttInput.Error(e));
    case Success(o) =>
      match Classify(o)
      case SessionStarted =>
      case PartialTranscript(p) => NotifyKeepsValid(d, d.listener, SttInput.Partial(p));
      case CommittedTranscript(t) => NotifyKeepsValid(s, d.listener, SttInput.Final([(t, 1.0)]));
      case ServerError(t, m) => NotifyKeepsValid(s, d.listener, SttInput.Error(ServerErrorThrowable(t, m)));
      case Ignored =>
  }

  lemma ErrorAndStopKeepsValid(d: Device, t: SttInput.Throwable)
    requires d.Valid()
    ensures d.EmitErrorAndStop(t).Valid()
  {
    StopKeepsValid(d, false);
    NotifyKeepsValid(d.StopListeningInternal(false), d.listener, SttInput.Error(t));
  }

  /** Every call keeps the device's invariant. */
  lemma ApplyKeepsValid(d: Device, c: Call)
    requires d.Valid()
    ensures Apply(d, c).Valid()
  {
    match c
    case TryLoadCall(l, e) =>
      if !IsBlank(d.apiKey) && l.Some? { StartListeningKeepsValid(d, l.value, e); }
    case OnClickCall(l, e) => OnClickKeepsValid(d, l, e);
    case StopListeningCall => StopKeepsValid(d, true);
    case MessageCall(p) => MessageKeepsValid(d, p);
    case ClosedCall(code, reason) =>
      if d.uiState == SttInput.Listening {
        StopKeepsValid(d, false);
        ErrorAndStopKeepsValid(d, ConnectionClosedThrowable(code, reason));
        NotifyKeepsValid(d.StopListeningInternal(false), d.listener, SttInput.NoneEvent);
      }
    case FailureCall(t) => ErrorAndStopKeepsValid(d, t);
    case ApiKeyCall(k) =>
    case LocaleCall(lang) =>
    case StreamingEndedCall(e) =>
      if e.Some? && d.uiState == SttInput.Listening { ErrorAndStopKeepsValid(d, e.value); }
    case DestroyCall => StopKeepsValid(d, false);
  }

  /** The invariant holds after any sequence of calls from a valid start, e.g. `Init`. */
  lemma {:induction false} RunKeepsValid(d: Device, calls: seq<Call>)
    requires d.Valid()
    ensures RunCalls(d, calls).Valid()
    decreases |calls|
  {
    if calls != [] {
      ApplyKeepsValid(d, calls[0]);
      RunKeepsValid(Apply(d, calls[0]), calls[1..]);
    }
  }

  /**
   * `r` follows `d` with at most one more event, sent to the listener
   * registered in `d` or to `brought`; a terminal event means the session
   * ended, and a partial transcript changes nothing else.
   */
  predicate EmitsAtMostOne(d: Device, r: Device, brought: Option<EventListener>) {
    |d.events| <= |r.events| <= |d.events| + 1 && r.events[..|d.events|] == d.events
    && (|r.events| == |d.events| + 1 ==>
          var e := r.events[|d.events|];
          (Some(e.listener) == d.listener || Some(e.listener) == brought)
          && (Terminal(e.event) ==> r.listener.None? && r.uiState != SttInput.Listening)
          && (e.event.Partial? ==> r == d.(events := r.events)))
  }

  lemma StopEmitsAtMostOne(d: Device, sendNoneEvent: bool, brought: Option<EventListener>)
    ensures EmitsAtMostOne(d, d.StopListeningInternal(sendNoneEvent), brought)
  {
  }

  /** Stopping and then telling the old listener about a terminal event. */
  lemma StopThenNotifyEmitsAtMostOne(d: Device, event: SttInput.InputEvent, brought: Option<EventListener>)
    requires Terminal(event)
    ensures EmitsAtMostOne(d, d.StopListeningInternal(false).Notify(d.listener, event), brought)
  {
    var s := d.StopListeningInternal(false);
    assert s.events == d.events;
  }

  lemma StartListeningEmitsAtMostOne(d: Device, l: EventListener, connectError: Option<SttInput.Throwable>)
    ensures EmitsAtMostOne(d, d.StartListening(l, connectError), Some(l))
  {
    if d.uiState != SttInput.Listening && !IsBlank(d.apiKey) && connectError.Some? {
      var started := d.(listener := Some(l), uiState := SttInput.Listening, shouldRecordAudio := true);
      StopThenNotifyEmitsAtMostOne(started, SttInput.Error(connectError.value), Some(l));
    }
  }

  lemma MessageEmitsAtMostOne(d: Device, parsed: Result<JsonObject, SttInput.Throwable>)
    ensures EmitsAtMostOne(d, d.HandleServerMessage(parsed), None)
  {
    match parsed
    case Failure(e) => StopThenNotifyEmitsAtMostOne(d, SttInput.Error(e), None);
    case Success(o) =>
      match Classify(o)
      case SessionStarted =>
      case PartialTranscript(p) =>
      case CommittedTranscript(t) => StopThenNotifyEmitsAtMostOne(d, SttInput.Final([(t, 1.0)]), None);
      case ServerError(t, m) => StopThenNotifyEmitsAtMostOne(d, SttInput.Error(ServerErrorThrowable(t, m)), None);
      case Ignored =>
  }

  /** Each call sends at most one event, addressed to the session's listener or to the caller's. */
  lemma ApplyEmitsAtMostOne(d: Device, c: Call)
    ensures EmitsAtMostOne(d, Apply(d, c), CallListener(c))
  {
    match c
    case TryLoadCall(l, e) =>
      if !IsBlank(d.apiKey) && l.Some? { StartListeningEmitsAtMostOne(d, l.value, e); }
    case OnClickCall(l, e) =>
      if d.uiState == SttInput.Listening {
        StopEmitsAtMostOne(d, true, Some(l));
      } else if !IsBlank(d.apiKey) {
        StartListeningEmitsAtMostOne(d, l, e);
      }
    case StopListeningCall => StopEmitsAtMostOne(d, true, None);
    case MessageCall(p) => MessageEmitsAtMostOne(d, p);
    case ClosedCall(code, reason) =>
      if d.uiState == SttInput.Listening {
        if code == NORMAL_CLOSURE {
          StopThenNotifyEmitsAtMostOne(d, SttInput.NoneEvent, None);
        } else {
          StopThenNotifyEmitsAtMostOne(d, SttInput.Error(ConnectionClosedThrowable(code, reason)), None);
        }
      }
    case FailureCall(t) => StopThenNotifyEmitsAtMostOne(d, SttInput.Error(t), None);
    case ApiKeyCall(k) =>
    case LocaleCall(lang) =>
    case StreamingEndedCall(e) =>
      if e.Some? && d.uiState == SttInput.Listening {
        StopThenNotifyEmitsAtMostOne(d, SttInput.Error(e.value), None);
      }
    case DestroyCall => StopEmitsAtMostOne(d, false, None);
  }

  /** A device without a session sends nothing, unless the call itself starts one. */
  lemma IdleDeviceIsSilent(d: Device, c: Call)
    requires d.Valid() && d.listener.None?
    requires CallListener(c).None?
    ensures Apply(d, c).events == d.events
  {
  }

  /** A committed transcript delivers the single final alternative, with confidence 1, and ends the session without `None`. */
  lemma CommittedTranscriptEndsSession(d: Device, o: JsonObject)
    requires d.Valid() && d.uiState == SttInput.Listening
    requires Classify(o).CommittedTranscript? && !IsBlank(Classify(o).text)
    ensures var r := d.HandleServerMessage(Success(o));
      r.events == d.events + [SttInput.Emission(d.listener.value, SttInput.Final([(Classify(o).text, 1.0)]))]
      && r.uiState == ReadyStateFromApiKey(d.apiKey)
      && r.webSocket.None? && r.closed == d.closed + [d.webSocket.value]
  {
  }

  /**
   * An error ends the session the way `emitErrorAndStop` does: the listener
   * and the held socket (closed normally) are dropped, a listening device
   * goes back to the key's ready state, and the old listener, if any, gets
   * the error as the only event.
   */
  ghost predicate EndedWithError(d: Device, r: Device, t: SttInput.Throwable) {
    r.listener.None? && r.webSocket.None? && !r.shouldRecordAudio && !r.streaming
    && r.closed == d.closed + (if d.webSocket.Some? then [d.webSocket.value] else [])
    && (d.uiState == SttInput.Listening ==> r.uiState == ReadyStateFromApiKey(d.apiKey))
    && (d.uiState != SttInput.Listening ==> r.uiState == d.uiState)
    && r.events == d.events + (if d.listener.Some? then [SttInput.Emission(d.listener.value, SttInput.Error(t))] else [])
  }

  /** A text frame that is not JSON ends the session with the parse exception. */
  lemma ParseFailureEndsSession(d: Device, e: SttInput.Throwable)
    ensures EndedWithError(d, d.HandleServerMessage(Failure(e)), e)
  {
  }

  /** An error message type ends the session with an error naming the type and the server's message. */
  lemma ServerErrorEndsSession(d: Device, o: JsonObject)
    requires Classify(o).ServerError?
    ensures EndedWithError(d, d.HandleServerMessage(Success(o)),
      ServerErrorThrowable(Classify(o).messageType, Classify(o).errorMessage))
  {
  }

  /**
   * A non-blank partial transcript is forwarded to the session's listener,
   * if there is one, and nothing else changes.
   */
  lemma PartialTranscriptForwarded(d: Device, o: JsonObject)
    requires Classify(o).PartialTranscript? && !IsBlank(Classify(o).text)
    ensures d.HandleServerMessage(Success(o))
      == d.(events := d.events + (if d.listener.Some?
                                  then [SttInput.Emission(d.listener.value, SttInput.Partial(Classify(o).text))]
                                  else []))
  {
  }

  /** A blank partial or committed transcript is dropped. */
  lemma BlankTranscriptIgnored(d: Device, o: JsonObject)
    requires Classify(o).PartialTranscript? || Classify(o).CommittedTranscript?
    requires IsBlank(Classify(o).text)
    ensures d.HandleServerMessage(Success(o)) == d
  {
  }

  /** A message of any other type leaves the device as it was. */
  lemma IgnoredMessageChangesNothing(d: Device, o: JsonObject)
    requires Classify(o).Ignored?
    ensures d.HandleServerMessage(Success(o)) == d
  {
  }

  /** `session_started` starts the streaming job once and changes nothing else. */
  lemma SessionStartedStartsStreaming(d: Device, o: JsonObject)
    requires Classify(o).SessionStarted?
    ensures d.HandleServerMessage(Success(o)) == d.(streaming := true)
  {
  }

  /** A close while listening ends the session: `None` for a normal closure, an error naming code and reason otherwise. */
  lemma ClosedWhileListening(d: Device, code: int, reason: string)
    requires d.Valid() && d.uiState == SttInput.Listening
    ensures var r := d.OnClosed(code, reason);
      r.uiState == ReadyStateFromApiKey(d.apiKey) && r.listener.None? && r.webSocket.None?
      && r.events == d.events + [SttInput.Emission(d.listener.value,
           if code == NORMAL_CLOSURE then SttInput.NoneEvent
           else SttInput.Error(ConnectionClosedThrowable(code, reason)))]
  {
  }

  /** A click toggles: a listening device stops, sending `None`; a ready idle device starts a session. */
  lemma ClickToggles(d: Device, l: EventListener)
    requires d.Valid()
    ensures d.uiState == SttInput.Listening ==>
      var r := d.OnClick(l, None);
      r.uiState != SttInput.Listening
      && r.events == d.events + [SttInput.Emission(d.listener.value, SttInput.NoneEvent)]
    ensures d.uiState != SttInput.Listening && !IsBlank(d.apiKey) ==>
      var r := d.OnClick(l, None);
      r.uiState == SttInput.Listening && r.listener == Some(l) && r.events == d.events
  {
  }

  // ---------------------------------------------------------------------
  // Audio streaming
  // ---------------------------------------------------------------------

  datatype ReadAction = SendChunk | RetryRead | ReadFailed(throwable: SttInput.Throwable)

  /**
   * What the streaming loop does with the result of one `AudioRecord.read`:
   * positive sizes are sent, the two error codes end the job, other
   * non-positive results are retried.
   */
  function ActionForRead(readSize: int): (a: ReadAction)
    ensures a.SendChunk? <==> readSize > 0
    ensures a.ReadFailed? <==> readSize == ERROR_INVALID_OPERATION || readSize == ERROR_BAD_VALUE
  {
    if readSize > 0 then SendChunk
    else if readSize == ERROR_INVALID_OPERATION || readSize == ERROR_BAD_VALUE then
      ReadFailed(SttInput.Throwable("AudioRecord read error: " + IntToDecimal(readSize)))
    else RetryRead
  }

  /** A Kotlin `Byte`. */
  type KByte = x: int | -0x80 <= x <= 0x7F

  /** `Int.toByte()` on a value in 0..255: its low eight bits, signed. */
  function ToByte(u: int): KByte
    requires 0 <= u < 0x100
  {
    if u >= 0x80 then u - 0x100 else u
  }

  /** `b.toInt() and 0xFF`. */
  function Unsigned(b: KByte): (u: int)
    ensures 0 <= u < 0x100
  {
    if b < 0 then b + 0x100 else b
  }

  /** The low byte of a sample's 16-bit two's complement form. */
  function LowByte(s: Sample): KByte {
    ToByte(s % 0x100)
  }

  /** `((sample ushr 8) and 0xFF).toByte()`: the high byte of the sign-extended sample. */
  function HighByte(s: Sample): KByte {
    ToByte((s / 0x100) % 0x100)
  }

  /** Little-endian 16-bit PCM: two bytes per sample, low byte first. */
  function EncodePcm(samples: seq<Sample>): (bytes: seq<KByte>)
    ensures |bytes| == 2 * |samples|
  {
    if samples == [] then [] else [LowByte(samples[0]), HighByte(samples[0])] + EncodePcm(samples[1..])
  }

  /** How a receiver reads little-endian 16-bit PCM back into samples. */
  function DecodePcm(bytes: seq<KByte>): seq<Sample>
    requires |bytes| % 2 == 0
  {
    if bytes == [] then []
    else
      var v := Unsigned(bytes[0]) + 0x100 * Unsigned(bytes[1]);
      [if v >= 0x8000 then v - 0x10000 else v] + DecodePcm(bytes[2..])
  }

  lemma SampleRoundTrip(s: Sample)
    ensures var v := Unsigned(LowByte(s)) + 0x100 * Unsigned(HighByte(s));
      (if v >= 0x8000 then v - 0x10000 else v) == s
  {
    var lo := s % 0x100;
    var q := s / 0x100;
    assert s == 0x100 * q + lo;
    assert -0x80 <= q < 0x80;
    assert Unsigned(LowByte(s)) == lo;
    assert Unsigned(HighByte(s)) == q % 0x100;
    if q < 0 {
      assert q % 0x100 == q + 0x100;
    }
  }

  /** The bytes a receiver decodes are exactly the samples sent. */
  lemma {:induction false} DecodeEncodePcm(samples: seq<Sample>)
    ensures DecodePcm(EncodePcm(samples)) == samples
  {
    if samples != [] {
      var bytes := EncodePcm(samples);
      assert bytes[2..] == EncodePcm(samples[1..]);
      SampleRoundTrip(samples[0]);
      DecodeEncodePcm(samples[1..]);
    }
  }

  lemma {:induction false} EncodePcmAt(samples: seq<Sample>, i: nat)
    requires i < |samples|
    ensures EncodePcm(samples)[2 * i] == LowByte(samples[i])
    ensures EncodePcm(samples)[2 * i + 1] == HighByte(samples[i])
  {
    if i > 0 {
      EncodePcmAt(samples[1..], i - 1);
    }
  }

  /** `toLittleEndianPcm`: the first `readSize` samples of the buffer as PCM bytes. */
  method ToLittleEndianPcm(samples: array<Sample>, readSize: int) returns (bytes: array<KByte>)
    requires 0 <= readSize <= samples.Length
    ensures bytes[..] == EncodePcm(samples[..readSize])
    ensures DecodePcm(bytes[..]) == samples[..readSize]
  {
    bytes := new KByte[readSize * BYTES_PER_SAMPLE];
    ghost var expected := EncodePcm(samples[..readSize]);
    for i := 0 to readSize
      invariant forall k :: 0 <= k < 2 * i ==> bytes[k] == expected[k]
    {
      var sample := samples[i];
      EncodePcmAt(samples[..readSize], i);
      bytes[i * 2] := LowByte(sample);
      bytes[i * 2 + 1] := HighByte(sample);
    }
    assert bytes[..] == expected;
    DecodeEncodePcm(samples[..readSize]);
  }

  // ---------------------------------------------------------------------
  // The device as an object
  // ---------------------------------------------------------------------

  class ScribeRealtimeInputDevice {
    var uiState: SttInput.SttState
    var currentLanguageCode: string
    var currentApiKey: string
    var webSocket: Option<nat>
    var socketsOpened: nat
    var closed: seq<nat>
    var shouldRecordAudio: bool
    var activeEventListener: Option<EventListener>
    var audioStreaming: bool
    var events: seq<Emission>

    function Snapshot(): Device
      reads this
    {
      Device(uiState, currentLanguageCode, currentApiKey, webSocket, socketsOpened, closed,
             shouldRecordAudio, activeEventListener, audioStreaming, events)
    }

    /** `init`: the language of the first locale, the trimmed key and the ready state that key implies. */
    constructor(language: string, apiKey: string)
      ensures Snapshot() == Init(language, apiKey)
    {
      var initial := Init(language, apiKey);
      currentLanguageCode := initial.languageCode;
      currentApiKey := initial.apiKey;
      uiState := initial.uiState;
      webSocket := initial.webSocket;
      socketsOpened := initial.socketsOpened;
      closed := initial.closed;
      shouldRecordAudio := initial.shouldRecordAudio;
      activeEventListener := initial.listener;
      audioStreaming := initial.streaming;
      events := initial.events;
    }

    method Invoke(to: Option<EventListener>, event: SttInput.InputEvent)
      modifies this
      ensures Snapshot() == old(Snapshot()).Notify(to, event)
    {
      if to.Some? {
        events := events + [SttInput.Emission(to.value, event)];
      }
    }

    method StopListeningInternal(sendNoneEvent: bool)
      modifies this
      ensures Snapshot() == old(Snapshot()).StopListeningInternal(sendNoneEvent)
    {
      var eventListener := activeEventListener;
      var wasListening := uiState == SttInput.Listening;
      if wasListening {
        uiState := ReadyStateFromApiKey(currentApiKey);
      }
      activeEventListener := None;
      shouldRecordAudio := false;
      audioStreaming := false;
      if webSocket.Some? {
        closed := closed + [webSocket.value];
      }
      webSocket := None;
      assert Snapshot() == old(Snapshot()).StopListeningInternal(false);
      if wasListening && sendNoneEvent {
        Invoke(eventListener, SttInput.NoneEvent);
      }
    }

    method EmitErrorAndStop(t: SttInput.Throwable)
      modifies this
      ensures Snapshot() == old(Snapshot()).EmitErrorAndStop(t)
    {
      var eventListener := activeEventListener;
      StopListeningInternal(false);
      Invoke(eventListener, SttInput.Error(t));
    }

    method EmitNoneAndStop()
      modifies this
      ensures Snapshot() == old(Snapshot()).EmitNoneAndStop()
    {
      var eventListener := activeEventListener;
      StopListeningInternal(false);
      Invoke(eventListener, SttInput.NoneEvent);
    }

    method StartListening(l: EventListener, connectError: Option<SttInput.Throwable>)
      modifies this
      ensures Snapshot() == old(Snapshot()).StartListening(l, connectError)
    {
      if uiState == SttInput.Listening {
        return;
      }
      if IsBlank(currentApiKey) {
        uiState := SttInput.NotAvailable;
        return;
      }
      activeEventListener := Some(l);
      uiState := SttInput.Listening;
      shouldRecordAudio := true;
      ghost var started := Snapshot();
      assert started == old(Snapshot()).(listener := Some(l), uiState := SttInput.Listening, shouldRecordAudio := true);
      if connectError.Some? {
        EmitErrorAndStop(connectError.value);
      } else {
        var socket := socketsOpened;
        webSocket := Some(socket);
        socketsOpened := socket + 1;
        assert Snapshot() == started.(webSocket := Some(socket), socketsOpened := socket + 1);
      }
    }

    method TryLoad(l: Option<EventListener>, connectError: Option<SttInput.Throwable>) returns (ok: bool)
      modifies this
      ensures (Snapshot(), ok) == old(Snapshot()).TryLoad(l, connectError)
    {
      if IsBlank(currentApiKey) {
        uiState := SttInput.NotAvailable;
        return false;
      }
      if l.None? {
        uiState := SttInput.Loaded;
        return true;
      }
      StartListening(l.value, connectError);
      return true;
    }

    method OnClick(l: EventListener, connectError: Option<SttInput.Throwable>)
      modifies this
      ensures Snapshot() == old(Snapshot()).OnClick(l, connectError)
    {
      if uiState == SttInput.Listening {
        StopListeningInternal(true);
      } else if IsBlank(currentApiKey) {
        uiState := SttInput.NotAvailable;
      } else {
        StartListening(l, connectError);
      }
    }

    method StopListening()
      modifies this
      ensures Snapshot() == old(Snapshot()).StopListening()
    {
      StopListeningInternal(true);
    }

    method StartAudioStreaming()
      modifies this
      ensures Snapshot() == old(Snapshot()).StartAudioStreaming()
    {
      if audioStreaming {
        return;
      }
      audioStreaming := true;
    }

    method HandleServerMessage(parsed: Result<JsonObject, SttInput.Throwable>)
      modifies this
      ensures Snapshot() == old(Snapshot()).HandleServerMessage(parsed)
    {
      if parsed.Failure? {
        EmitErrorAndStop(parsed.error);
        return;
      }
      match Classify(parsed.value) {
        case SessionStarted =>
          StartAudioStreaming();
        case PartialTranscript(p) =>
          if !IsBlank(p) {
            Invoke(activeEventListener, SttInput.Partial(p));
          }
        case CommittedTranscript(t) =>
          if !IsBlank(t) {
            var eventListener := activeEventListener;
            StopListeningInternal(false);
            Invoke(eventListener, SttInput.Final([(t, 1.0)]));
          }
        case ServerError(t, m) =>
          EmitErrorAndStop(ServerErrorThrowable(t, m));
        case Ignored =>
      }
    }

    method OnClosed(code: int, reason: string)
      modifies this
      ensures Snapshot() == old(Snapshot()).OnClosed(code, reason)
    {
      if uiState == SttInput.Listening {
        if code == NORMAL_CLOSURE {
          EmitNoneAndStop();
        } else {
          EmitErrorAndStop(ConnectionClosedThrowable(code, reason));
        }
      }
    }

    method OnFailure(t: SttInput.Throwable)
      modifies this
      ensures Snapshot() == old(Snapshot()).OnFailure(t)
    {
      EmitErrorAndStop(t);
    }

    method ApiKeyChanged(key: string)
      modifies this
      ensures Snapshot() == old(Snapshot()).ApiKeyChanged(key)
    {
      ghost var before := Snapshot();
      var k := Trim(key);
      currentApiKey := k;
      if uiState != SttInput.Listening {
        uiState := ReadyStateFromApiKey(k);
      }
      assert Snapshot() == before.(apiKey := k, uiState := uiState);
    }

    method LocaleChanged(language: string)
      modifies this
      ensures Snapshot() == old(Snapshot()).LocaleChanged(language)
    {
      currentLanguageCode := LanguageCodeFromLocale(language);
    }

    method StreamingEnded(error: Option<SttInput.Throwable>)
      modifies this
      ensures Snapshot() == old(Snapshot()).StreamingEnded(error)
    {
      if error.Some? && uiState == SttInput.Listening {
        EmitErrorAndStop(error.value);
      }
      audioStreaming := false;
    }

    method Destroy()
      modifies this
      ensures Snapshot() == old(Snapshot()).Destroy()
    {
      StopListeningInternal(false);
    }
  }
}
