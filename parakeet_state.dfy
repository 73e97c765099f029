/**
 * The internal state of the on-device Parakeet recogniser, its custom
 * `Loading` equality, its projection onto the caller-visible `SttState`, and
 * the loaded session set (vocabulary, blank token, native resources).
 */
module ParakeetStates {
  import opened Wrappers
  import SttInput

  // ---------------------------------------------------------------------------
  // Vocabulary: Kotlin's `mutableMapOf<Int, String>()`, an insertion-ordered map

  datatype Vocab = Vocab(entries: seq<(int, string)>)

  predicate DistinctKeys(v: Vocab) {
    forall i, j :: 0 <= i < j < |v.entries| ==> v.entries[i].0 != v.entries[j].0
  }

  /** The position of the first entry with key `id`. */
  function IndexOfKey(entries: seq<(int, string)>, id: int): (r: Option<nat>)
    ensures r.Some? ==> r.value < |entries| && entries[r.value].0 == id
    ensures r.Some? ==> forall i :: 0 <= i < r.value ==> entries[i].0 != id
    ensures r.None? ==> forall i :: 0 <= i < |entries| ==> entries[i].0 != id
  {
    if entries == [] then None
    else if entries[0].0 == id then Some(0)
    else match IndexOfKey(entries[1..], id)
      case None => None
      case Some(k) => Some(k + 1)
  }

  /** `vocab[id]`: the token stored for `id`, if any. */
  function Get(v: Vocab, id: int): Option<string> {
    match IndexOfKey(v.entries, id)
    case None => None
    case Some(i) => Some(v.entries[i].1)
  }

  /**
   * `vocab[id] = token`: overwrites the value of an existing key in place,
   * otherwise appends a new entry at the end.
   */
  function Put(v: Vocab, id: int, token: string): (r: Vocab)
    requires DistinctKeys(v)
    ensures DistinctKeys(r)
    ensures Get(r, id) == Some(token)
    ensures forall k :: k != id ==> Get(r, k) == Get(v, k)
    ensures |r.entries| == |v.entries| + (if Get(v, id).Some? then 0 else 1)
    ensures forall i :: 0 <= i < |v.entries| ==> r.entries[i].0 == v.entries[i].0
  {
    match IndexOfKey(v.entries, id)
    case Some(i) =>
      var r := Vocab(v.entries[i := (id, token)]);
      assert forall k :: k != id ==> IndexOfKey(r.entries, k) == IndexOfKey(v.entries, k) by {
        forall k | k != id ensures IndexOfKey(r.entries, k) == IndexOfKey(v.entries, k) {
          IndexOfKeyUnchanged(v.entries, r.entries, k);
        }
      }
      IndexOfKeyUnchanged(v.entries, r.entries, id);
      r
    case None =>
      var r := Vocab(v.entries + [(id, token)]);
      assert forall k :: k != id ==> IndexOfKey(r.entries, k) == IndexOfKey(v.entries, k) by {
        forall k | k != id ensures IndexOfKey(r.entries, k) == IndexOfKey(v.entries, k) {
          IndexOfKeyAppend(v.entries, (id, token), k);
        }
      }
      IndexOfKeyAppendNew(v.entries, id, token);
      r
  }

  lemma IndexOfKeyUnchanged(a: seq<(int, string)>, b: seq<(int, string)>, k: int)
    requires |a| == |b|
    requires forall i :: 0 <= i < |a| ==> (a[i].0 == k <==> b[i].0 == k)
    ensures IndexOfKey(a, k) == IndexOfKey(b, k)
  {
    if a != [] {
      IndexOfKeyUnchanged(a[1..], b[1..], k);
    }
  }

  lemma IndexOfKeyAppend(a: seq<(int, string)>, e: (int, string), k: int)
    requires e.0 != k
    ensures IndexOfKey(a + [e], k) == IndexOfKey(a, k)
  {
    if a != [] {
      assert (a + [e])[1..] == a[1..] + [e];
      IndexOfKeyAppend(a[1..], e, k);
    }
  }

  lemma IndexOfKeyAppendNew(a: seq<(int, string)>, id: int, token: string)
    requires forall i :: 0 <= i < |a| ==> a[i].0 != id
    ensures IndexOfKey(a + [(id, token)], id) == Some(|a|)
  {
    if a != [] {
      assert (a + [(id, token)])[1..] == a[1..] + [(id, token)];
      IndexOfKeyAppendNew(a[1..], id, token);
    }
  }

  // ---------------------------------------------------------------------------
  // The session set

  /** The native resources a session set owns; `close()` releases them in this order. */
  datatype Resource = Preprocessor | Encoder | DecoderJoint | Env

  const CLOSE_ORDER: seq<Resource> := [Preprocessor, Encoder, DecoderJoint, Env]

  const BLANK_TOKEN: string := "<blk>"

  /**
   * `ParakeetSessions`: the three inference sessions and the environment are
   * native handles, identified here by `id`; the vocabulary is kept.
   */
  datatype Sessions = Sessions(id: nat, vocab: Vocab) {

    /** The key of the first entry whose token is `<blk>`, else `vocab.size - 1`. */
    function BlankIdx(): (r: int)
      ensures (exists i :: 0 <= i < |vocab.entries| && vocab.entries[i].1 == BLANK_TOKEN) ==>
        exists i :: 0 <= i < |vocab.entries| && vocab.entries[i] == (r, BLANK_TOKEN)
          && forall j :: 0 <= j < i ==> vocab.entries[j].1 != BLANK_TOKEN
      ensures (forall i :: 0 <= i < |vocab.entries| ==> vocab.entries[i].1 != BLANK_TOKEN) ==>
        r == |vocab.entries| - 1
    {
      match IndexOfToken(vocab.entries, BLANK_TOKEN)
      case Some(i) => vocab.entries[i].0
      case None => |vocab.entries| - 1
    }

    /** The number of vocabulary entries. */
    function VocabSize(): nat {
      |vocab.entries|
    }
  }

  /** The position of the first entry whose token is `token`. */
  function IndexOfToken(entries: seq<(int, string)>, token: string): (r: Option<nat>)
    ensures r.Some? ==> r.value < |entries| && entries[r.value].1 == token
    ensures r.Some? ==> forall j :: 0 <= j < r.value ==> entries[j].1 != token
    ensures r.None? ==> forall i :: 0 <= i < |entries| ==> entries[i].1 != token
  {
    if entries == [] then None
    else if entries[0].1 == token then Some(0)
    else match IndexOfToken(entries[1..], token)
      case None => None
      case Some(k) => Some(k + 1)
  }

  /** A vocabulary with no `<blk>` entry falls back to the last index as blank. */
  lemma BlankFallsBackToLastIndex(s: Sessions)
    requires forall i :: 0 <= i < |s.vocab.entries| ==> s.vocab.entries[i].1 != BLANK_TOKEN
    ensures s.BlankIdx() == s.VocabSize() - 1
  {
  }

  // ---------------------------------------------------------------------------
  // The state

  datatype ParakeetState =
    | NotInitialized
    | NotAvailable
    | NotDownloaded(modelUrl: string)
    | Downloading(progress: SttInput.Progress)
    | ErrorDownloading(modelUrl: string, throwable: SttInput.Throwable)
    | Downloaded
    | NotLoaded
      /** `shouldEqualAnyLoading` only ever appears in the comparand of a compare-and-set. */
    | Loading(thenStartListening: Option<SttInput.EventListener>, shouldEqualAnyLoading: bool)
    | ErrorLoading(throwable: SttInput.Throwable)
    | Loaded(sessions: Sessions)
    | Listening(sessions: Sessions, eventListener: SttInput.EventListener)

  /**
   * Kotlin's `a == b` on states: data-class equality, except that `Loading`
   * compares only whether a listener is present, and a `Loading` with
   * `shouldEqualAnyLoading` equals every `Loading`.
   */
  function StateEquals(a: ParakeetState, b: ParakeetState): (r: bool)
    ensures a.Loading? != b.Loading? ==> !r
    ensures !a.Loading? && !b.Loading? ==> (r <==> a == b)
    ensures a.Loading? && b.Loading? && (a.shouldEqualAnyLoading || b.shouldEqualAnyLoading) ==> r
    ensures a.Loading? && b.Loading? && !a.shouldEqualAnyLoading && !b.shouldEqualAnyLoading ==>
      (r <==> a.thenStartListening.None? == b.thenStartListening.None?)
  {
    match a
    case Loading(l, any) =>
      b.Loading? && (any || b.shouldEqualAnyLoading
        || (l == None) == (b.thenStartListening == None))
    case _ => !b.Loading? && a == b
  }

  /** `Loading.hashCode()`: 0 without a listener, 1 with one. */
  function LoadingHashCode(s: ParakeetState): (h: int)
    requires s.Loading?
    ensures h == 0 || h == 1
    ensures h == 0 <==> s.thenStartListening.None?
  {
    if s.thenStartListening == None then 0 else 1
  }

  /** Equality is symmetric (both sides of `equals` agree). */
  lemma StateEqualsSymmetric(a: ParakeetState, b: ParakeetState)
    ensures StateEquals(a, b) == StateEquals(b, a)
  {
  }

  /** Among states that can actually be stored (no `shouldEqualAnyLoading`), equal values hash alike. */
  lemma HashCodeAgreesWithEquals(a: ParakeetState, b: ParakeetState)
    requires a.Loading? && b.Loading?
    requires !a.shouldEqualAnyLoading && !b.shouldEqualAnyLoading
    ensures StateEquals(a, b) <==> LoadingHashCode(a) == LoadingHashCode(b)
  {
  }

  /** The wildcard comparand makes equality non-transitive: it equals both kinds of `Loading`. */
  lemma WildcardBreaksTransitivity(l: SttInput.EventListener)
    ensures StateEquals(Loading(None, false), Loading(None, true))
    ensures StateEquals(Loading(None, true), Loading(Some(l), false))
    ensures !StateEquals(Loading(None, false), Loading(Some(l), false))
  {
  }

  /** The variant of a state, as a number. */
  function Variant(s: ParakeetState): nat {
    match s
    case NotInitialized => 0
    case NotAvailable => 1
    case NotDownloaded(_) => 2
    case Downloading(_) => 3
    case ErrorDownloading(_, _) => 4
    case Downloaded => 5
    case NotLoaded => 6
    case Loading(_, _) => 7
    case ErrorLoading(_) => 8
    case Loaded(_) => 9
    case Listening(_, _) => 10
  }

  /**
   * `toUiState()`: the same variant with sessions, listeners and URLs
   * stripped; download progress and the two errors' throwables are kept,
   * and `Loading` keeps only whether a listener is waiting.
   */
  function ToUiState(s: ParakeetState): (r: SttInput.SttState)
    ensures !r.SilenceDetected? && !r.Thinking?
    ensures r.Loading? <==> s.Loading?
    ensures s.Loading? ==> r.thenStartListening == s.thenStartListening.Some?
    ensures r.Downloading? <==> s.Downloading?
    ensures s.Downloading? ==> r.progress == s.progress
    ensures r.ErrorDownloading? <==> s.ErrorDownloading?
    ensures s.ErrorDownloading? ==> r.throwable == s.throwable
    ensures r.ErrorLoading? <==> s.ErrorLoading?
    ensures s.ErrorLoading? ==> r.throwable == s.throwable
    ensures r.NotInitialized? <==> s.NotInitialized?
    ensures r.NotAvailable? <==> s.NotAvailable?
    ensures r.NotDownloaded? <==> s.NotDownloaded?
    ensures r.Downloaded? <==> s.Downloaded?
    ensures r.NotLoaded? <==> s.NotLoaded?
    ensures r.Loaded? <==> s.Loaded?
    ensures r.Listening? <==> s.Listening?
  {
    match s
    case NotInitialized => SttInput.SttState.NotInitialized
    case NotAvailable => SttInput.SttState.NotAvailable
    case NotDownloaded(_) => SttInput.SttState.NotDownloaded
    case Downloading(p) => SttInput.SttState.Downloading(p)
    case ErrorDownloading(_, e) => SttInput.SttState.ErrorDownloading(e)
    case Downloaded => SttInput.SttState.Downloaded
    case NotLoaded => SttInput.SttState.NotLoaded
    case Loading(l, _) => SttInput.SttState.Loading(l.Some?)
    case ErrorLoading(e) => SttInput.SttState.ErrorLoading(e)
    case Loaded(_) => SttInput.SttState.Loaded
    case Listening(_, _) => SttInput.SttState.Listening
  }

  /** The projection is one-to-one on variants: different variants never look alike to the UI. */
  lemma ToUiStateKeepsVariant(a: ParakeetState, b: ParakeetState)
    requires ToUiState(a) == ToUiState(b)
    ensures Variant(a) == Variant(b)
  {
  }

  /** The projection forgets sessions and listeners: states that differ only in those look alike. */
  lemma ToUiStateForgetsResources(s1: Sessions, s2: Sessions, l1: SttInput.EventListener, l2: SttInput.EventListener)
    ensures ToUiState(Loaded(s1)) == ToUiState(Loaded(s2))
    ensures ToUiState(Listening(s1, l1)) == ToUiState(Listening(s2, l2))
    ensures ToUiState(Loading(Some(l1), false)) == ToUiState(Loading(Some(l2), false))
  {
  }
}
