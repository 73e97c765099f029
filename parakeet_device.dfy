/**
 * The Parakeet input device: the lifecycle state machine that downloads,
 * loads and runs the on-device recogniser.
 *
 * Every public call and every background completion (download finished,
 * load finished, recording started or finished) is one atomic step. A
 * compare-and-set on the state is a conditional assignment with the
 * equality of `ParakeetStates.StateEquals`. The disk holds the URL sentinel
 * file and the four model files; native sessions are identified by a
 * creation counter, and closing them is recorded in ghost logs.
 */
module ParakeetDevice {
  import opened Wrappers
  import opened Text
  import SttInput
  import opened ParakeetStates
  import L = ParakeetListening

  const DEFAULT_SILENCES_BEFORE_STOP: int := 1

  const PARAKEET_MODEL_BASE_URL: string := "https://huggingface.co/istupakov/parakeet-tdt-0.6b-v3-onnx"

  // ---------------------------------------------------------------------------
  // Initial state

  /**
   * `init`: no model for the locale gives NotAvailable; a sentinel that is
   * missing or names another URL, or a missing model file, gives
   * NotDownloaded; otherwise the model is ready to load.
   */
  function InitialState(modelUrl: Option<string>, sentinel: Option<string>, filesPresent: bool): (s: ParakeetState)
    ensures s == NotAvailable <==> modelUrl.None?
    ensures s == NotLoaded <==> modelUrl.Some? && sentinel == modelUrl && filesPresent
    ensures s.NotDownloaded? <==> modelUrl.Some? && !(sentinel == modelUrl && filesPresent)
    ensures s.NotDownloaded? ==> s.modelUrl == modelUrl.value
  {
    var modelUrlChanged := sentinel.None? || sentinel != modelUrl;
    if modelUrl.None? then NotAvailable
    else if modelUrlChanged then NotDownloaded(modelUrl.value)
    else if filesPresent then NotLoaded
    else NotDownloaded(modelUrl.value)
  }

  /** The state shown to the caller: the transient phase if one is set, else the projection of the state. */
  function CombinedUiState(state: ParakeetState, transient: Option<SttInput.SttState>): (r: SttInput.SttState)
    ensures transient.None? ==> r == ToUiState(state)
    ensures transient.Some? ==> r == transient.value
  {
    transient.GetOr(ToUiState(state))
  }

  /**
   * The listening phases SilenceDetected and Thinking are shown only while a
   * transient phase is set; without one the caller sees the state's own
   * variant, with a download's progress and whether a load will listen.
   */
  lemma TransientPhasesOnlyFromOverlay(state: ParakeetState, transient: Option<SttInput.SttState>)
    ensures var r := CombinedUiState(state, transient);
      && (r.SilenceDetected? || r.Thinking? ==> transient.Some?)
      && (transient.None? ==>
            (r.Loading? <==> state.Loading?)
            && (state.Loading? ==> r.thenStartListening == state.thenStartListening.Some?)
            && (r.Downloading? <==> state.Downloading?)
            && (state.Downloading? ==> r.progress == state.progress))
  {
  }

  // ---------------------------------------------------------------------------
  // Vocabulary file

  const WORD_BOUNDARY: char := '\U{2581}'

  /**
   * One line of `vocab.txt`: `token id` after trimming the end, split at the
   * first space; U+2581 in the token stands for a space. Lines without a
   * space or with an id that is not a 32-bit integer give nothing.
   */
  function ParseVocabLine(line: string): (r: Option<(int, string)>)
    ensures r.Some? ==> INT_MIN <= r.value.0 <= INT_MAX && WORD_BOUNDARY !in r.value.1
    ensures ' ' !in TrimEnd(line) ==> r.None?
  {
    match SplitFirst(TrimEnd(line), ' ')
    case None => None
    case Some((token, idText)) =>
      match ParseInt(idText)
      case None => None
      case Some(id) => Some((id, ReplaceChar(token, WORD_BOUNDARY, ' ')))
  }

  /** The vocabulary built from the lines in order. */
  function VocabOf(lines: seq<string>): (v: Vocab)
    ensures DistinctKeys(v)
  {
    if lines == [] then Vocab([])
    else
      var v := VocabOf(lines[..|lines| - 1]);
      match ParseVocabLine(lines[|lines| - 1])
      case None => v
      case Some((id, token)) => Put(v, id, token)
  }

  /** The token of the last line that parses with id `id`: later lines win. */
  function LastTokenFor(lines: seq<string>, id: int): Option<string> {
    if lines == [] then None
    else
      match ParseVocabLine(lines[|lines| - 1])
      case Some((k, token)) =>
        if k == id then Some(token) else LastTokenFor(lines[..|lines| - 1], id)
      case None => LastTokenFor(lines[..|lines| - 1], id)
  }

  /** A looked-up id gives the token of its last well-formed line, and ids never defined are absent. */
  lemma {:induction false} VocabOfIsLastDefinition(lines: seq<string>, id: int)
    ensures Get(VocabOf(lines), id) == LastTokenFor(lines, id)
  {
    if lines != [] {
      VocabOfIsLastDefinition(lines[..|lines| - 1], id);
    }
  }

  /** `loadVocab`: fills the map line by line. */
  method LoadVocab(lines: seq<string>) returns (vocab: Vocab)
    ensures vocab == VocabOf(lines)
  {
    vocab := Vocab([]);
    for i := 0 to |lines|
      invariant vocab == VocabOf(lines[..i])
    {
      assert lines[..i + 1][..i] == lines[..i];
      var line := TrimEnd(lines[i]);
      var parts := SplitFirst(line, ' ');
      if parts.Some? {
        var token := ReplaceChar(parts.value.0, WORD_BOUNDARY, ' ');
        var id := ParseInt(parts.value.1);
        if id.Some? {
          vocab := Put(vocab, id.value, token);
        }
      }
    }
    assert lines[..|lines|] == lines;
  }

  // ---------------------------------------------------------------------------
  // The device

  /** The background operation in flight (`operationsJob`). */
  datatype Pending = Idle | DownloadPending(modelUrl: string) | LoadPending

  datatype DownloadResult = DownloadSucceeded | DownloadFailed(error: SttInput.Throwable)

  /** How loading the sessions ends: an exception, or the lines of the vocabulary file. */
  datatype LoadResult = LoadFailed(error: SttInput.Throwable) | LoadSucceeded(vocabLines: seq<string>)

  /** The native resources released when the session set `id` is closed, in order. */
  function Releases(id: nat): seq<(nat, Resource)> {
    seq(|CLOSE_ORDER|, k requires 0 <= k < |CLOSE_ORDER| => (id, CLOSE_ORDER[k]))
  }

  ghost predicate NoDuplicates(s: seq<nat>) {
    forall i, j :: 0 <= i < j < |s| ==> s[i] != s[j]
  }

  /**
   * Session bookkeeping: of the `created` session sets, `live` is the one
   * the state holds and the others are in `closed`, each exactly once.
   */
  ghost predicate Accounted(closed: seq<nat>, created: nat, live: Option<nat>) {
    NoDuplicates(closed)
    && (forall k :: 0 <= k < |closed| ==> closed[k] < created)
    && (live.Some? ==> live.value < created && live.value !in closed)
    && (forall id :: 0 <= id < created ==> id in closed || live == Some(id))
  }

  /** Closing the live session set keeps the bookkeeping. */
  lemma AccountedAfterClose(closed: seq<nat>, created: nat, id: nat)
    requires Accounted(closed, created, Some(id))
    ensures Accounted(closed + [id], created, None)
  {
    assert forall k :: 0 <= k < |closed| ==> (closed + [id])[k] == closed[k];
  }

  /** A new session set becomes the live one. */
  lemma AccountedAfterCreate(closed: seq<nat>, created: nat)
    requires Accounted(closed, created, None)
    ensures Accounted(closed, created + 1, Some(created))
  {
  }

  class ParakeetInputDevice {
    var state: ParakeetState
    var transientUiState: Option<SttInput.SttState>
    var activeListener: L.ParakeetListener?
    var pending: Pending
    /** The URL sentinel file's contents, None when it does not exist. */
    var sentinel: Option<string>
    /** Whether all four model files exist. */
    var filesPresent: bool
    /** Every callback invocation, in order. */
    var events: seq<SttInput.Emission>
    /** The number of session sets created so far; the next one gets this id. */
    var sessionsCreated: nat
    /** The ids of closed session sets, in closing order. */
    var closed: seq<nat>
    /** Every native resource released, in order. */
    ghost var released: seq<(nat, Resource)>

    /** The session set the state holds, if any. */
    function Live(): Option<nat>
      reads this
    {
      if state.Loaded? || state.Listening? then Some(state.sessions.id) else None
    }

    function UiState(): SttInput.SttState
      reads this
    {
      CombinedUiState(state, transientUiState)
    }

    /** Every session set ever created is either held by the state or closed, and none is closed twice. */
    ghost predicate SessionsAccounted()
      reads this
    {
      Accounted(closed, sessionsCreated, Live())
    }

    ghost predicate Valid()
      reads this, activeListener
    {
      (state.Loading? ==> !state.shouldEqualAnyLoading)
      && (pending.DownloadPending? <==> state.Downloading?)
      && (pending.LoadPending? <==> state.Loading?)
      && (activeListener != null ==> ListenerMatches())
      && SessionsAccounted()
    }

    /** The active listener serves the listening state and still means to process its audio. */
    ghost predicate ListenerMatches()
      reads this, activeListener
    {
      activeListener != null
      && state.Listening? && activeListener.sessions == state.sessions
      && activeListener.eventListener == state.eventListener
      && activeListener.silencesBeforeStop == DEFAULT_SILENCES_BEFORE_STOP
      && activeListener.shouldProcessFinalAudio && !activeListener.stopRequestedByUser
    }

    /** Constructs the device and runs `init` for the current locale's model URL. */
    constructor(modelUrl: Option<string>, sentinel: Option<string>, filesPresent: bool)
      ensures Valid()
      ensures state == InitialState(modelUrl, sentinel, filesPresent)
      ensures UiState() == ToUiState(state)
      ensures this.sentinel == sentinel && this.filesPresent == filesPresent
      ensures events == [] && closed == []
    {
      state := InitialState(modelUrl, sentinel, filesPresent);
      transientUiState := None;
      activeListener := null;
      pending := Idle;
      this.sentinel := sentinel;
      this.filesPresent := filesPresent;
      events := [];
      sessionsCreated := 0;
      closed := [];
      released := [];
    }

    // -------------------------------------------------------------------------
    // The state flow

    /** `_state.value = v`: a value equal to the current one is not stored. */
    method SetState(v: ParakeetState)
      modifies this
      ensures state == if StateEquals(old(state), v) then old(state) else v
      ensures transientUiState == old(transientUiState) && activeListener == old(activeListener)
      ensures pending == old(pending) && events == old(events)
      ensures sentinel == old(sentinel) && filesPresent == old(filesPresent)
      ensures sessionsCreated == old(sessionsCreated) && closed == old(closed) && released == old(released)
    {
      if !StateEquals(state, v) {
        state := v;
      }
    }

    /** `_state.compareAndSet(expected, update)`, with the state's own equality. */
    method CompareAndSet(expected: ParakeetState, update: ParakeetState) returns (ok: bool)
      modifies this
      ensures ok <==> StateEquals(old(state), expected)
      ensures state == if ok && !StateEquals(old(state), update) then update else old(state)
      ensures transientUiState == old(transientUiState) && activeListener == old(activeListener)
      ensures pending == old(pending) && events == old(events)
      ensures sentinel == old(sentinel) && filesPresent == old(filesPresent)
      ensures sessionsCreated == old(sessionsCreated) && closed == old(closed) && released == old(released)
    {
      if !StateEquals(state, expected) {
        return false;
      }
      if !StateEquals(state, update) {
        state := update;
      }
      return true;
    }

    /** `ParakeetSessions.close()`: releases the preprocessor, the encoder, the decoder-joint and the environment. */
    method Close(sessions: Sessions)
      modifies this
      ensures closed == old(closed) + [sessions.id]
      ensures released == old(released) + Releases(sessions.id)
      ensures state == old(state) && transientUiState == old(transientUiState)
      ensures activeListener == old(activeListener) && pending == old(pending) && events == old(events)
      ensures sentinel == old(sentinel) && filesPresent == old(filesPresent)
      ensures sessionsCreated == old(sessionsCreated)
    {
      closed := closed + [sessions.id];
      released := released + Releases(sessions.id);
    }

    // -------------------------------------------------------------------------
    // Public operations

    /**
     * `tryLoad`: loads when the model is on disk but not loaded (or failed to
     * load), starts listening when it is loaded and a listener is given, and
     * otherwise reports that the user must act.
     */
    method TryLoad(thenStartListening: Option<SttInput.EventListener>) returns (r: bool)
      requires Valid()
      modifies this, activeListener
      ensures Valid()
      ensures r <==> (old(state) == NotLoaded || old(state).ErrorLoading?
                      || (thenStartListening.Some? && old(state).Loaded?))
      ensures (old(state) == NotLoaded || old(state).ErrorLoading?) ==>
        state == Loading(thenStartListening, false) && pending == LoadPending
      ensures thenStartListening.Some? && old(state).Loaded? ==>
        state == Listening(old(state).sessions, thenStartListening.value)
        && activeListener != null && fresh(activeListener)
      ensures !r ==> state == old(state) && activeListener == old(activeListener) && pending == old(pending)
      ensures events == old(events) && closed == old(closed)
    {
      var s := state;
      if s == NotLoaded || s.ErrorLoading? {
        Load(thenStartListening);
        return true;
      } else if thenStartListening.Some? && s.Loaded? {
        StartListening(s.sessions, thenStartListening.value);
        return true;
      } else {
        return false;
      }
    }

    /**
     * `onClick`: downloads when the model is missing, loads when it is on
     * disk, toggles "start listening after loading" while loading, starts
     * listening when loaded and stops (sending None) while listening.
     */
    method OnClick(eventListener: SttInput.EventListener)
      requires Valid()
      modifies this, activeListener
      ensures Valid()
      ensures old(state).NotDownloaded? || old(state).ErrorDownloading? ==>
        state == Downloading(SttInput.Unknown) && pending == DownloadPending(old(state).modelUrl)
      ensures old(state) == Downloaded || old(state) == NotLoaded || old(state).ErrorLoading? ==>
        state == Loading(Some(eventListener), false) && pending == LoadPending
      ensures old(state).Loading? ==>
        state == Loading(if old(state).thenStartListening.None? then Some(eventListener) else None, false)
      ensures old(state).Loaded? ==>
        state == Listening(old(state).sessions, eventListener) && activeListener != null && fresh(activeListener)
      ensures old(state).Listening? ==>
        state == Loaded(old(state).sessions) && activeListener == null
        && events == old(events) + [SttInput.Emission(old(state).eventListener, SttInput.NoneEvent)]
      ensures !old(state).Listening? ==> events == old(events)
      ensures old(state) == NotInitialized || old(state) == NotAvailable || old(state).Downloading? ==>
        state == old(state) && pending == old(pending) && activeListener == old(activeListener)
      ensures closed == old(closed)
    {
      var s := state;
      match s
      case NotInitialized =>
      case NotAvailable =>
      case NotDownloaded(url) => Download(url);
      case Downloading(_) =>
      case ErrorDownloading(url, _) => Download(url);
      case Downloaded => Load(Some(eventListener));
      case NotLoaded => Load(Some(eventListener));
      case Loading(_, _) => ToggleThenStartListening(eventListener);
      case ErrorLoading(_) => Load(Some(eventListener));
      case Loaded(sessions) => StartListening(sessions, eventListener);
      case Listening(sessions, l) => StopListeningInternal(sessions, l, true);
    }

    /** `stopListening()`: stops and sends None if listening, otherwise does nothing. */
    method StopListening()
      requires Valid()
      modifies this, activeListener
      ensures Valid()
      ensures old(state).Listening? ==>
        state == Loaded(old(state).sessions) && activeListener == null
        && events == old(events) + [SttInput.Emission(old(state).eventListener, SttInput.NoneEvent)]
      ensures !old(state).Listening? ==> state == old(state) && events == old(events)
      ensures closed == old(closed)
    {
      var s := state;
      if s.Listening? {
        StopListeningInternal(s.sessions, s.eventListener, true);
      }
    }

    // -------------------------------------------------------------------------
    // Download

    /** `download`: shows unknown progress and starts the download job. */
    method Download(modelUrl: string)
      modifies this
      ensures state == Downloading(SttInput.Unknown) && pending == DownloadPending(modelUrl)
      ensures transientUiState == old(transientUiState) && activeListener == old(activeListener)
      ensures events == old(events) && sentinel == old(sentinel) && filesPresent == old(filesPresent)
      ensures sessionsCreated == old(sessionsCreated) && closed == old(closed) && released == old(released)
    {
      SetState(Downloading(SttInput.Unknown));
      pending := DownloadPending(modelUrl);
    }

    /** The download job reports progress. */
    method DownloadProgress(progress: SttInput.Progress)
      requires Valid() && pending.DownloadPending?
      modifies this
      ensures Valid()
      ensures state == Downloading(progress) && pending == old(pending)
    {
      SetState(Downloading(progress));
    }

    /**
     * The download job ends: on success the sentinel records the URL and the
     * model is ready to load; on an I/O error the same URL can be retried.
     */
    method DownloadFinished(result: DownloadResult)
      requires Valid() && pending.DownloadPending?
      modifies this
      ensures Valid()
      ensures pending == Idle
      ensures result.DownloadFailed? ==>
        state == ErrorDownloading(old(pending).modelUrl, result.error) && sentinel == old(sentinel)
      ensures result.DownloadSucceeded? ==>
        state == NotLoaded && sentinel == Some(old(pending).modelUrl) && filesPresent
      ensures events == old(events) && closed == old(closed)
    {
      var modelUrl := pending.modelUrl;
      match result {
        case DownloadFailed(e) =>
          SetState(ErrorDownloading(modelUrl, e));
        case DownloadSucceeded =>
          filesPresent := true;
          sentinel := Some(modelUrl);
          SetState(NotLoaded);
      }
      pending := Idle;
    }

    // -------------------------------------------------------------------------
    // Load

    /** `load`: enters Loading with the optional listener and starts the load job. */
    method Load(thenStartListening: Option<SttInput.EventListener>)
      modifies this
      ensures state == if StateEquals(old(state), Loading(thenStartListening, false))
        then old(state) else Loading(thenStartListening, false)
      ensures pending == LoadPending
      ensures transientUiState == old(transientUiState) && activeListener == old(activeListener)
      ensures events == old(events) && sentinel == old(sentinel) && filesPresent == old(filesPresent)
      ensures sessionsCreated == old(sessionsCreated) && closed == old(closed) && released == old(released)
    {
      SetState(Loading(thenStartListening, false));
      pending := LoadPending;
    }

    /**
     * The end of the load job, whatever the state is by then: an exception
     * gives ErrorLoading; new sessions go to Loaded, or start listening with
     * the listener the state holds now, or are closed when the state is no
     * longer Loading.
     */
    method LoadCompletes(result: LoadResult)
      modifies this, activeListener
      ensures pending == Idle
      ensures result.LoadFailed? ==>
        state == (if StateEquals(old(state), ErrorLoading(result.error)) then old(state) else ErrorLoading(result.error))
        && sessionsCreated == old(sessionsCreated) && closed == old(closed)
        && activeListener == old(activeListener)
      ensures result.LoadSucceeded? ==> sessionsCreated == old(sessionsCreated) + 1
      ensures result.LoadSucceeded? && old(state) == Loading(None, false) ==>
        state == Loaded(Sessions(old(sessionsCreated), VocabOf(result.vocabLines)))
        && closed == old(closed) && activeListener == old(activeListener)
      ensures (result.LoadSucceeded? && old(state).Loading? && old(state).thenStartListening.Some?
               && !old(state).shouldEqualAnyLoading) ==>
        state == Listening(Sessions(old(sessionsCreated), VocabOf(result.vocabLines)), old(state).thenStartListening.value)
        && closed == old(closed) && ListenerMatches() && fresh(activeListener)
      ensures result.LoadSucceeded? && !old(state).Loading? ==>
        state == old(state) && closed == old(closed) + [old(sessionsCreated)]
        && activeListener == old(activeListener)
      ensures events == old(events) && sentinel == old(sentinel) && filesPresent == old(filesPresent)
    {
      match result {
        case LoadFailed(e) =>
          SetState(ErrorLoading(e));
        case LoadSucceeded(lines) =>
          var vocab := LoadVocab(lines);
          var sessions := Sessions(sessionsCreated, vocab);
          sessionsCreated := sessionsCreated + 1;
          var loaded := CompareAndSet(Loading(None, false), Loaded(sessions));
          if !loaded {
            var s := state;
            if s.Loading? && s.thenStartListening.Some? {
              StartListening(sessions, s.thenStartListening.value);
            } else {
              var loadedAnyway := CompareAndSet(Loading(None, true), Loaded(sessions));
              if !loadedAnyway {
                Close(sessions);
              }
            }
          }
      }
      pending := Idle;
    }

    /** The load job finishes while the device is loading. */
    method LoadFinished(result: LoadResult)
      requires Valid() && pending.LoadPending?
      modifies this, activeListener
      ensures Valid()
      ensures pending == Idle && closed == old(closed) && events == old(events)
      ensures activeListener == null || fresh(activeListener)
      ensures result.LoadFailed? ==> state == ErrorLoading(result.error)
      ensures result.LoadSucceeded? && old(state).thenStartListening.None? ==>
        state == Loaded(Sessions(old(sessionsCreated), VocabOf(result.vocabLines)))
      ensures result.LoadSucceeded? && old(state).thenStartListening.Some? ==>
        state == Listening(Sessions(old(sessionsCreated), VocabOf(result.vocabLines)), old(state).thenStartListening.value)
    {
      AccountedAfterCreate(closed, sessionsCreated);
      LoadCompletes(result);
    }

    /**
     * `toggleThenStartListening`: flips whether listening starts after
     * loading; if loading has already finished, starts listening (Loaded) or
     * stops it (Listening) instead.
     */
    method ToggleThenStartListening(eventListener: SttInput.EventListener)
      requires Valid()
      modifies this, activeListener
      ensures Valid()
      ensures old(state).Loading? ==>
        state == Loading(if old(state).thenStartListening.None? then Some(eventListener) else None, false)
        && activeListener == old(activeListener) && events == old(events)
      ensures old(state).Loaded? ==>
        state == Listening(old(state).sessions, eventListener) && activeListener != null && fresh(activeListener)
        && events == old(events)
      ensures old(state).Listening? ==>
        state == Loaded(old(state).sessions) && activeListener == null
        && events == old(events) + [SttInput.Emission(old(state).eventListener, SttInput.NoneEvent)]
      ensures !old(state).Loading? && !old(state).Loaded? && !old(state).Listening? ==>
        state == old(state) && events == old(events) && activeListener == old(activeListener)
      ensures pending == old(pending) && closed == old(closed)
    {
      var toListen := CompareAndSet(Loading(None, false), Loading(Some(eventListener), false));
      if !toListen {
        var toNotListen := CompareAndSet(Loading(Some(eventListener), false), Loading(None, false));
        if !toNotListen {
          var s := state;
          match s
          case Loaded(sessions) => StartListening(sessions, eventListener);
          case Listening(sessions, l) => StopListeningInternal(sessions, l, true);
          case _ =>
        }
      }
    }

    // -------------------------------------------------------------------------
    // Listening

    /**
     * `startListening`: discards the previous listener's audio, enters
     * Listening and makes a fresh listener the active one.
     */
    method StartListening(sessions: Sessions, eventListener: SttInput.EventListener)
      modifies this, activeListener
      ensures state == Listening(sessions, eventListener)
      ensures ListenerMatches() && fresh(activeListener)
      ensures activeListener.sessions == sessions && activeListener.eventListener == eventListener
      ensures activeListener.silencesBeforeStop == DEFAULT_SILENCES_BEFORE_STOP
      ensures activeListener.shouldProcessFinalAudio && !activeListener.stopRequestedByUser
      ensures old(activeListener) != null ==> !old(activeListener).shouldProcessFinalAudio
      ensures transientUiState.None? && pending == old(pending) && events == old(events)
      ensures sentinel == old(sentinel) && filesPresent == old(filesPresent)
      ensures sessionsCreated == old(sessionsCreated) && closed == old(closed) && released == old(released)
    {
      transientUiState := None;
      if activeListener != null {
        activeListener.StopAndDiscardCurrentAudio();
      }
      SetState(Listening(sessions, eventListener));
      var listener := new L.ParakeetListener(eventListener, DEFAULT_SILENCES_BEFORE_STOP, sessions);
      activeListener := listener;
    }

    /**
     * `stopListening(sessions, eventListener, sendNoneEvent)`: goes back to
     * Loaded with the same sessions; only with `sendNoneEvent` is the active
     * listener discarded and None sent.
     */
    method StopListeningInternal(sessions: Sessions, eventListener: SttInput.EventListener, sendNoneEvent: bool)
      modifies this, activeListener
      ensures state == Loaded(sessions) && transientUiState.None?
      ensures sendNoneEvent ==>
        activeListener == null && events == old(events) + [SttInput.Emission(eventListener, SttInput.NoneEvent)]
      ensures sendNoneEvent && old(activeListener) != null ==> !old(activeListener).shouldProcessFinalAudio
      ensures !sendNoneEvent ==>
        activeListener == old(activeListener) && events == old(events)
        && (activeListener != null ==> unchanged(activeListener))
      ensures pending == old(pending) && sentinel == old(sentinel) && filesPresent == old(filesPresent)
      ensures sessionsCreated == old(sessionsCreated) && closed == old(closed) && released == old(released)
    {
      if sendNoneEvent {
        if activeListener != null {
          activeListener.StopAndDiscardCurrentAudio();
        }
        activeListener := null;
      }
      transientUiState := None;
      SetState(Loaded(sessions));
      if sendNoneEvent {
        events := events + [SttInput.Emission(eventListener, SttInput.NoneEvent)];
      }
    }

    /**
     * The listening job starts recording; a hardware failure sends Error to
     * the listener and ends the job, leaving the state Listening.
     */
    method RecordingStarted(mic: L.Microphone)
      requires Valid() && activeListener != null
      modifies this, activeListener
      ensures Valid()
      ensures state == old(state) && pending == old(pending) && closed == old(closed)
      ensures activeListener == null <==>
        mic.minBufferSize == L.AUDIO_RECORD_ERROR || mic.minBufferSize == L.AUDIO_RECORD_ERROR_BAD_VALUE
        || !mic.initialized
      ensures activeListener != null ==> activeListener.isRecording && events == old(events)
      ensures activeListener == null ==>
        |events| == |old(events)| + 1 && events[..|old(events)|] == old(events)
        && events[|old(events)|].listener == old(state).eventListener && events[|old(events)|].event.Error?
    {
      var listener := activeListener;
      var error := listener.StartRecording(mic);
      if error.Some? {
        events := events + [SttInput.Emission(listener.eventListener, error.value)];
        activeListener := null;
      }
    }

    /**
     * The listening job's recording loop ends: after a read error the
     * listener gets Error; otherwise `processAudio` puts the device back to
     * Loaded and sends the final event. Either way the listener stops being
     * the active one.
     */
    method RecordingFinished<S>(chunks: seq<seq<SttInput.Sample>>, readFailure: Option<SttInput.Throwable>, net: L.Network<S>)
      requires Valid() && activeListener != null && activeListener.isRecording
      modifies this, activeListener
      ensures Valid()
      ensures activeListener == null && pending == old(pending) && closed == old(closed)
      ensures var out := L.RecordFrom(L.START, chunks, DEFAULT_SILENCES_BEFORE_STOP);
        if out.reason == L.Interrupted && readFailure.Some? then
          state == old(state)
          && events == old(events) + [SttInput.Emission(old(state).eventListener, SttInput.Error(readFailure.value))]
        else
          state == Loaded(old(state).sessions) && transientUiState.None?
          && events == old(events) + [SttInput.Emission(old(state).eventListener,
               L.FinalEvent(out.rec.audio, net, old(state).sessions))]
    {
      var listener := activeListener;
      ghost var out := L.RecordFrom(L.START, chunks, DEFAULT_SILENCES_BEFORE_STOP);
      ghost var before := state;
      var outcome := listener.RecordUntilStopped(chunks, readFailure, net);
      assert outcome == L.OutcomeOf(out, readFailure, true, false, net, before.sessions);
      assert outcome.Stopped? ==> false;
      match outcome {
        case Stopped =>
        case Failed(e) =>
          events := events + [SttInput.Emission(listener.eventListener, e)];
        case Processed(silenceDetected, e) =>
          if silenceDetected {
            transientUiState := Some(SttInput.SilenceDetected);
          }
          ProcessAudio(listener.sessions, listener.eventListener, e);
      }
      activeListener := null;
    }

    /**
     * `processAudio` once inference has produced `event`: back to Loaded
     * without a None event, "thinking" while the event is delivered, then no
     * transient phase.
     */
    method ProcessAudio(sessions: Sessions, eventListener: SttInput.EventListener, event: SttInput.InputEvent)
      modifies this, activeListener
      ensures state == Loaded(sessions) && transientUiState.None?
      ensures events == old(events) + [SttInput.Emission(eventListener, event)]
      ensures activeListener == old(activeListener) && (activeListener != null ==> unchanged(activeListener))
      ensures pending == old(pending) && sentinel == old(sentinel) && filesPresent == old(filesPresent)
      ensures sessionsCreated == old(sessionsCreated) && closed == old(closed) && released == old(released)
    {
      StopListeningInternal(sessions, eventListener, false);
      transientUiState := Some(SttInput.Thinking);
      events := events + [SttInput.Emission(eventListener, event)];
      transientUiState := None;
    }

    // -------------------------------------------------------------------------
    // Deinitialisation

    /** `stopActiveListenerAndWait`: discards the active listener's audio and forgets it. */
    method StopActiveListenerAndWait()
      modifies this, activeListener
      ensures activeListener == null
      ensures old(activeListener) != null ==> !old(activeListener).shouldProcessFinalAudio
      ensures state == old(state) && transientUiState == old(transientUiState)
      ensures pending == old(pending) && events == old(events)
      ensures sentinel == old(sentinel) && filesPresent == old(filesPresent)
      ensures sessionsCreated == old(sessionsCreated) && closed == old(closed) && released == old(released)
    {
      if activeListener != null {
        activeListener.StopAndDiscardCurrentAudio();
      }
      activeListener := null;
    }

    /**
     * What `deinit` does with the state it finds after joining the load job:
     * the state becomes NotInitialized, sessions a Loaded state held are
     * closed, and a Listening state is stopped with
     * `stopListening(sessions, listener, false)`, which stores
     * `Loaded(sessions)` again, before those sessions are closed.
     */
    method SettleAfterLoadJoined()
      modifies this, activeListener
      ensures old(state).Listening? ==>
        state == Loaded(old(state).sessions) && activeListener == null && transientUiState.None?
      ensures !old(state).Listening? ==> state == NotInitialized && activeListener == old(activeListener)
      ensures old(state).Loaded? || old(state).Listening? ==> closed == old(closed) + [old(state).sessions.id]
      ensures !(old(state).Loaded? || old(state).Listening?) ==> closed == old(closed)
      ensures pending == old(pending) && events == old(events) && sessionsCreated == old(sessionsCreated)
      ensures sentinel == old(sentinel) && filesPresent == old(filesPresent)
    {
      var s := state;
      state := NotInitialized;
      match s
      case Loaded(sessions) =>
        Close(sessions);
      case Listening(sessions, l) =>
        StopActiveListenerAndWait();
        StopListeningInternal(sessions, l, false);
        Close(sessions);
      case _ =>
    }

    /**
     * `deinit` while loading, once the state is NotInitialized: waits for the
     * load job, whose sessions (if any) find the state changed and are
     * closed, then settles whatever state the job left.
     */
    method JoinLoad(loadResult: LoadResult)
      requires state == NotInitialized && activeListener == null
      requires Accounted(closed, sessionsCreated, None)
      modifies this
      ensures state == NotInitialized && pending == Idle && activeListener == null
      ensures Accounted(closed, sessionsCreated, None)
      ensures loadResult.LoadSucceeded? ==> closed == old(closed) + [old(sessionsCreated)]
      ensures loadResult.LoadFailed? ==> closed == old(closed)
      ensures events == old(events) && sentinel == old(sentinel) && filesPresent == old(filesPresent)
    {
      AccountedAfterCreate(closed, sessionsCreated);
      AccountedAfterClose(closed, sessionsCreated + 1, sessionsCreated);
      LoadCompletes(loadResult);
      SettleAfterLoadJoined();
    }

    /**
     * `deinit` as evidently intended: leaves NotInitialized, cancels a
     * download, waits for a load to finish (`loadResult` is how it ends),
     * stops listening, and closes every session set exactly once. From
     * Listening the source differs: see `DeinitAsWritten`.
     */
    method Deinit(loadResult: LoadResult)
      requires Valid()
      modifies this, activeListener
      ensures Valid()
      ensures state == NotInitialized && pending == Idle && activeListener == null
      ensures old(state).Loaded? || old(state).Listening? ==> closed == old(closed) + [old(state).sessions.id]
      ensures old(state).Loading? && loadResult.LoadSucceeded? ==> closed == old(closed) + [old(sessionsCreated)]
      ensures !(old(state).Loaded? || old(state).Listening?) && !(old(state).Loading? && loadResult.LoadSucceeded?) ==>
        closed == old(closed)
      ensures events == old(events) && sentinel == old(sentinel) && filesPresent == old(filesPresent)
    {
      var prevState := state;
      state := NotInitialized;
      match prevState
      case Downloading(_) =>
        pending := Idle;
      case Loading(_, _) =>
        JoinLoad(loadResult);
      case Loaded(sessions) =>
        AccountedAfterClose(closed, sessionsCreated, sessions.id);
        Close(sessions);
      case Listening(sessions, l) =>
        AccountedAfterClose(closed, sessionsCreated, sessions.id);
        StopActiveListenerAndWait();
        transientUiState := None;
        Close(sessions);
      case _ =>
    }

    /**
     * `deinit` as the source writes it: from Listening it calls
     * `stopListening(sessions, listener, false)`, which stores
     * `Loaded(sessions)` after the state was set to NotInitialized, and then
     * closes those very sessions.
     */
    method DeinitAsWritten(loadResult: LoadResult)
      requires Valid()
      modifies this, activeListener
      ensures old(state).Listening? ==>
        state == Loaded(old(state).sessions) && old(state).sessions.id in closed
      ensures !old(state).Listening? ==> state == NotInitialized
    {
      var prevState := state;
      state := NotInitialized;
      match prevState
      case Downloading(_) =>
        pending := Idle;
      case Loading(_, _) =>
        LoadCompletes(loadResult);
        SettleAfterLoadJoined();
      case Loaded(sessions) =>
        Close(sessions);
      case Listening(sessions, l) =>
        StopActiveListenerAndWait();
        StopListeningInternal(sessions, l, false);
        Close(sessions);
      case _ =>
    }

    /** `reinit`: deinitialises, then runs `init` for the new locale's model URL. */
    method Reinit(modelUrl: Option<string>, loadResult: LoadResult)
      requires Valid()
      modifies this, activeListener
      ensures Valid()
      ensures state == InitialState(modelUrl, sentinel, filesPresent)
      ensures sentinel == old(sentinel) && filesPresent == old(filesPresent)
      ensures events == old(events) && activeListener == null
    {
      Deinit(loadResult);
      SetState(InitialState(modelUrl, sentinel, filesPresent));
    }

    /**
     * `destroy` over the corrected `Deinit`; the coroutine scope's
     * cancellation is not modelled. The source's `destroy` from Listening
     * ends like `DeinitAsWritten`.
     */
    method Destroy(loadResult: LoadResult)
      requires Valid()
      modifies this, activeListener
      ensures Valid()
      ensures state == NotInitialized && activeListener == null
      ensures forall id :: 0 <= id < sessionsCreated ==> id in closed
    {
      Deinit(loadResult);
    }
  }

  /**
   * A device that was listening and is destroyed with the source's `deinit`
   * ends in Loaded with sessions that are already closed.
   */
  method DeinitAsWrittenFromListening() returns (state: ParakeetState, closed: seq<nat>)
    ensures state.Loaded? && state.sessions.id in closed
  {
    var url := Some(PARAKEET_MODEL_BASE_URL);
    var device := new ParakeetInputDevice(url, url, true);
    assert device.state == NotLoaded;
    device.OnClick(7);
    assert device.state == Loading(Some(7), false);
    device.LoadFinished(LoadSucceeded([]));
    assert device.state.Listening?;
    device.DeinitAsWritten(LoadSucceeded([]));
    return device.state, device.closed;
  }
}
