/**
 * The contract shared by every speech-to-text input device: the events sent
 * to a caller's callback, the caller-visible UI state, and the default for
 * the "silence duration" setting.
 */
module SttInput {

  /** An exception, identified by its message. */
  datatype Throwable = Throwable(message: string)

  /** A signed 16-bit PCM audio sample (Kotlin's `Short`). */
  type Sample = x: int | -0x8000 <= x <= 0x7FFF

  /** A caller's event callback `(InputEvent) -> Unit`, identified by reference. */
  type EventListener = nat

  /** Download progress, advisory only. */
  datatype Progress = Unknown | Fraction(done: real)

  /** The events a device sends to the callback of a listening session. */
  datatype InputEvent =
    | Partial(text: string)
    | Final(alternatives: seq<(string, real)>)
    | NoneEvent
    | Error(throwable: Throwable)

  /** One invocation of a callback with an event. */
  datatype Emission = Emission(listener: EventListener, event: InputEvent)

  /** The caller-visible state: internal resources and callbacks are stripped. */
  datatype SttState =
    | NotInitialized
    | NotAvailable
    | NotDownloaded
    | Downloading(progress: Progress)
    | ErrorDownloading(throwable: Throwable)
    | Downloaded
    | NotLoaded
    | Loading(thenStartListening: bool)
    | ErrorLoading(throwable: Throwable)
    | Loaded
    | Listening
    | SilenceDetected
    | Thinking

  const DEFAULT_STT_SILENCE_DURATION: int := 2

  /**
   * `getSttSilenceDurationOrDefault`: a positive setting is kept, anything
   * else (protobuf's unset 0, or a negative value) becomes the default.
   */
  function SilenceDurationOrDefault(setting: int): (r: int)
    ensures r >= 1
    ensures setting > 0 ==> r == setting
    ensures setting <= 0 ==> r == DEFAULT_STT_SILENCE_DURATION
  {
    if setting > 0 then setting else DEFAULT_STT_SILENCE_DURATION
  }
}
