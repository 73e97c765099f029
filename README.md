# Dicio speech input, sentence constructs and build settings in Dafny

This project models the core of Dicio, an Android voice assistant, and proves
properties of that model. Four areas are covered:

* **Speech-to-text input devices.**
  - The on-device Parakeet recogniser: its state machine (`ParakeetInputDevice`
    and `ParakeetState`), its recording loop with silence detection, the
    encoder-output transpose and the TDT (token-and-duration transducer) greedy
    decoder (`ParakeetListener`).
  - The ElevenLabs Scribe realtime device: its session life-cycle over a
    websocket, its server-message dispatch and its PCM encoding.
  - The silence-duration setting shared by the input devices.
* **Standard-recogniser constructs.** The backwards dynamic-programming pass of
  the free capturing construct and of the ranges construct (number, duration
  and date-time captures) over the `memToEnd` score table, and the memo of
  `MatchHelper`.
* **Skills and code generation.**
  - The navigation skill's assembly of a place name from mixed text and numbers.
  - The sentences-compiler plugin's Kotlin code generation for constructs and
    capture parameters.
* **Build settings.** The `useLocalDicioLibraries` parser and the choice between
  local builds and pinned git checkouts in `settings.gradle.kts`.

Each source file is one module:

| module | file | models |
|---|---|---|
| `Wrappers` | `wrappers.dfy` | `Option` and `Result` |
| `Text` | `text.dfy` | the Kotlin string functions the core uses: `isBlank`, `trim`, `split`, `length`, `toIntOrNull` |
| `SttInput` | `stt_input.dfy` | events, the caller-visible state, and the silence-duration default |
| `ParakeetStates` | `parakeet_state.dfy` | `ParakeetState`, its equality, `toUiState`, `ParakeetSessions` |
| `TdtDecoding` | `tdt_decoder.dfy` | `tdtGreedyDecode` |
| `ParakeetListening` | `parakeet_listener.dfy` | `ParakeetListener` (recording, transpose, token decoding, final event) |
| `ParakeetDevice` | `parakeet_device.dfy` | `ParakeetInputDevice`, as a class with the device's fields |
| `ScribeDevice` | `scribe_device.dfy` | `ScribeRealtimeInputDevice`, as a state value plus a class over it |
| `Scoring` | `scoring.dfy` | the `StandardScore` operations, taken as parameters, and `addRefWeightEverywhere` |
| `MatchHelpers` | `match_helper.dfy` | `MatchHelper.getOrTokenize` |
| `CapturingConstructs` | `capturing_construct.dfy` | `CapturingConstruct` |
| `RangesConstructs` | `ranges_construct.dfy` | `RangesConstruct` |
| `Navigation` | `navigation_skill.dfy` | `NavigationSkill.generateOutput` |
| `CaptureUtils` | `capture_utils.dfy` | `getTypeName`, `getCapturingGroupClassName`, `getParams` |
| `GenerateConstructs` | `generate_construct.dfy` | `generateConstruct` and its helpers |
| `SettingsGradle` | `settings_gradle.dfy` | `includeGitRepos`, `parseKeyValuePairs`, the include loop |

The modules follow the source's own form:

* **State that the source updates in place is a class.** This covers the
  Parakeet device and listener, the Scribe device, `MatchHelper`, and
  `memToEnd`, which is an array.
* **Loops are methods proved against a specification function.** Examples are
  `TdtGreedyDecode` against `Decode`, `MatchToEnd` against `Result`,
  `ParseKeyValuePairs` against `KeyValuePairs`, and `LoadVocab` against
  `VocabOf`.
* **Pure code is functions and lemmas.**

**Things outside the model become parameters.** This covers the neural
networks, the microphone, the number parser, the `StandardScore` algebra and
the set of Unicode letters.

**Where the code and its documented behaviour differ, the model follows the code** (the two defects under "## Findings" are the exception, see below):

* **Silence setting.** The Parakeet listener always gets
  `DEFAULT_SILENCES_BEFORE_STOP = 1` (ParakeetInputDevice.kt:448, 506), not the
  user's silence-duration setting.
* **Microphone failure.** When the microphone cannot start, the listener sends
  an Error event and its job ends, but the device state stays `Listening`
  (ParakeetListener.kt:88-106; see `RecordingStarted`).
* **`tryLoad(null)` while listening.** On the Scribe device this sets the state
  to `Loaded` without ending the session (ScribeRealtimeInputDevice.kt:84-96).
  As a result, `Valid()` there does not require that a held socket implies
  `Listening`.

**The two defects under "## Findings" are modelled both ways.**

* **`deinit` from Listening.** `DeinitAsWritten` follows the source, and the
  scenario `DeinitAsWrittenFromListening` shows where it ends. `Deinit` is the
  corrected version, and `Reinit` and `Destroy` are built on it.
  `SettleAfterLoadJoined`, the branch taken after a load was joined, follows
  the source.
* **The capturing-group separator.** `Generate` takes the separator that
  `generateCapturingGroup` joins named arguments with as a parameter. The
  source is `Generate(c, sentence, ", ")` and the corrected generator is
  `Generate(c, sentence, "")`. Every property of `Generate` is proved for
  both; only the no-empty-argument property differs.

## Specification functions

The "## Model" rows name the members whose contracts state properties. The
functions those contracts speak about model the following source code; each
line gives the rows where its properties are proved.

* `Text.TrimBy` (NavigationSkill.kt:75): `TrimByIsInfix`, `TrimByIdempotent`, `BlankIffTrimEmpty`.
* `Text.IsBlank` (settings.gradle.kts:82): `BlankIffAllWhitespace`, `BlankIffTrimEmpty`.
* `Text.IntToDecimal` (Kotlin's `toString`, read back at ParakeetInputDevice.kt:399): `NatToDecimalValue`, `ParseIntOfDecimal`.
* `Text.Utf16Length` (NavigationSkill.kt:91): `Utf16LengthBounds`, `IsSingleDigit`.
* `ParakeetStates.LoadingHashCode` (ParakeetState.kt:86-88): `HashCodeAgreesWithEquals`.
* `ParakeetDevice.CombinedUiState` (ParakeetInputDevice.kt:104-108): `TransientPhasesOnlyFromOverlay`.
* `TdtDecoding.Run` and `TdtDecoding.Decode` (ParakeetListener.kt:387-522): `StepShape`, `RunEmitsValidTokens`, `RunKeepsStateWithoutEmission`, `RunKeepsTraceInv`, `DecodeEmptyWithoutFrames`, `DecodeOutputProperties`, `TdtGreedyDecode`.
* `ParakeetListening.JoinTokens` and `ParakeetListening.DecodeTokens` (ParakeetListener.kt:528-532): `JoinTokensAppend`, `JoinTokensSkipsMissing`, `DecodeTokensIsTrimmedJoin`, `FinalTextIsTrimmed`.
* `ScribeDevice.ReadyStateFromApiKey` (ScribeRealtimeInputDevice.kt:348-354): `InitIsValid`, `ScribeRealtimeInputDevice.ApiKeyChanged`, `OnClickKeepsValid`.
* `ScribeDevice.OptString` (ScribeRealtimeInputDevice.kt:180): `Classify`.
* `ScribeDevice.Apply` and `ScribeDevice.RunCalls` (ScribeRealtimeInputDevice.kt:84-363): `ApplyKeepsValid`, `ApplyEmitsAtMostOne`, `RunKeepsValid`, `IdleDeviceIsSilent`.
* `ScribeDevice.EncodePcm` (ScribeRealtimeInputDevice.kt:272-280): `EncodePcmAt`, `DecodeEncodePcm`, `ToLittleEndianPcm`. `ScribeDevice.DecodePcm` is how a receiver reads the bytes, the inverse the round trip is stated against.
* `CapturingConstructs.Decide` and `CapturingConstructs.Result` (CapturingConstruct.kt:17-61): `StepShape`, `EndSlot`, `LastEndIsGroupEnd`, `GroupSharesEnd`, `CaptureSpansToGroupEnd`, `DecideAt`, `MatchToEnd`.
* `RangesConstructs.RefWeightFor`, `RangesConstructs.ApplyRanges` and `RangesConstructs.Result` (RangesConstruct.kt:35-70): `ApplyRangesAt`, `ResultAt`, `TryRanges`, `MatchToEnd`.
* `Navigation.StrItems` and `Navigation.Expand` (NavigationSkill.kt:26-37): `RenderStrItems`, `RenderAppend`, `ExpandKeepsRendering`.
* `Navigation.Piece`, `Navigation.AssembledUpTo` and `Navigation.CleanPlace` (NavigationSkill.kt:51-75): `FailurePersists`, `FailsIffOther`, `AssembledIsRendering`, `CleanPlaceIsTrimmedRendering`, `CleanPlaceIsTrimmed`, `AssembleAddress`.
* `GenerateConstructs.WordBlock` (GenerateConstruct.kt:31-51): `WordFormatKinds`, `WordIsRegexIffVariations`.
* `GenerateConstructs.ListBlock` (GenerateConstruct.kt:53-59 and 81-90): `ListFormat`, `ListBlockArgs`, `ListBlockWellFormed`, `ListChildren`.
* `GenerateConstructs.CapturingGroupWith`, `CapturingGroupAsWritten` and `GenerateCapturingGroup` (GenerateConstruct.kt:68-79): `CapturingGroupFormat`, `CapturingGroupWellFormed`, `CapturingGroupArguments`, `AsWrittenEmptyArgument`, `CorrectedArgumentsNamed`.
* `GenerateConstructs.Generate`, `GenerateEach` and `GenerateAll` (GenerateConstruct.kt:15-29, 57 and 88): `GenerateEachAt`, `GenerateAllInOrder`, `GenerateWellFormed`, `GenerateSucceedsIff`, `GenerateFailures`.
* `SettingsGradle.KeyValuePairs` (settings.gradle.kts:81-98): `ParseKeyValuePairs`, `ParseSucceedsIff`, `KeyValuePairsSucceeds`, `KeyValuePairsEntries`, `KeyValuePairsFailure`.
* `SettingsGradle.Inclusions` (settings.gradle.kts:109-158): `IncludeLibraries`, `LocalBuildsShape`, `GitCheckoutsShape`, `CheckoutsConfiguredIff`, `EachLibraryOneWay`, `CheckoutsShape`.
* `SettingsGradle.Configure` (settings.gradle.kts:99-158): `EveryLibraryIncluded`.

## Model

| member | source | states |
|---|---|---|
| Text.BlankIffAllWhitespace | settings.gradle.kts:82 | `isBlank` holds exactly when every character is whitespace |
| Text.TrimByIsInfix | app/src/main/kotlin/org/stypox/dicio/skills/navigation/NavigationSkill.kt:24 | the trimmed place is a contiguous slice of the input; only characters up to the space are cut from either end, and the result neither starts nor ends with one |
| Text.TrimByIdempotent | app/src/main/kotlin/org/stypox/dicio/skills/navigation/NavigationSkill.kt:75 | trimming an already trimmed place changes nothing |
| Text.BlankIffTrimEmpty | app/src/main/kotlin/org/stypox/dicio/io/input/parakeet/ParakeetListener.kt:231 | a transcription is blank exactly when trimming leaves nothing |
| Text.Split | settings.gradle.kts:87 | `split(',')` yields at least one piece and no piece contains the separator |
| Text.SplitJoin | settings.gradle.kts:87 | joining the pieces with commas gives back the setting: splitting drops nothing, empty pieces included |
| Text.SplitFirst | settings.gradle.kts:88 | `split(":", limit = 2)` is None exactly when there is no colon; otherwise it is the text before the first colon and everything after it, so the key holds no colon |
| Text.ReplaceChar | app/src/main/kotlin/org/stypox/dicio/io/input/parakeet/ParakeetInputDevice.kt:398 | the token keeps its length, and exactly the U+2581 characters become spaces |
| Text.Utf16LengthBounds | app/src/main/kotlin/org/stypox/dicio/skills/navigation/NavigationSkill.kt:91 | Kotlin's `length` counts each character once or twice: between the number of characters and twice it, and equal to it exactly when every character is in the Basic Multilingual Plane |
| Text.NatToDecimalValue | app/src/main/kotlin/org/stypox/dicio/io/input/parakeet/ParakeetInputDevice.kt:399 | the decimal rendering reads back as the number, so ids are rendered without loss |
| Text.ParseInt | app/src/main/kotlin/org/stypox/dicio/io/input/parakeet/ParakeetInputDevice.kt:399 | `toIntOrNull` only ever yields values in the 32-bit range (ASCII digits only, see Left out) |
| Text.ParseIntRejectsNonDigit | app/src/main/kotlin/org/stypox/dicio/io/input/parakeet/ParakeetInputDevice.kt:399 | a character that is not a digit, other than the sign of a longer string, makes `toIntOrNull` fail, so the vocabulary line is skipped |
| Text.ParseIntOfDecimal | app/src/main/kotlin/org/stypox/dicio/io/input/parakeet/ParakeetInputDevice.kt:399 | every 32-bit id written in decimal parses back to itself |
| SttInput.SilenceDurationOrDefault | app/src/main/kotlin/org/stypox/dicio/io/input/SttInputDevice.kt:18-22 | the result is always at least 1; a positive setting is kept, and 0 (protobuf's unset value) or a negative value gives the default 2 |
| ParakeetStates.IndexOfKey | app/src/main/kotlin/org/stypox/dicio/io/input/parakeet/ParakeetInputDevice.kt:400 | finds the first entry with the id, and reports None only when no entry has it |
| ParakeetStates.Put | app/src/main/kotlin/org/stypox/dicio/io/input/parakeet/ParakeetInputDevice.kt:400 | `vocab[id] = token`: afterwards the id maps to the token and every other id is unchanged; keys stay distinct; the map grows by one entry only for a new id, and existing entries keep their order |
| ParakeetStates.IndexOfToken | app/src/main/kotlin/org/stypox/dicio/io/input/parakeet/ParakeetState.kt:150 | finds the first entry whose token is `<blk>`, and reports None only when there is none |
| ParakeetStates.Sessions.BlankIdx | app/src/main/kotlin/org/stypox/dicio/io/input/parakeet/ParakeetState.kt:149-151 | blank is the key of the first `<blk>` entry when there is one, otherwise `vocab.size - 1` |
| ParakeetStates.BlankFallsBackToLastIndex | app/src/main/kotlin/org/stypox/dicio/io/input/parakeet/ParakeetState.kt:150-154 | without a `<blk>` token, blank is the last index `vocabSize - 1` |
| ParakeetStates.StateEquals | app/src/main/kotlin/org/stypox/dicio/io/input/parakeet/ParakeetState.kt:78-84 | a `Loading` never equals another variant; a wildcard `Loading` equals every `Loading`; two ordinary `Loading` states compare only whether a listener is present; other states use data equality |
| ParakeetStates.StateEqualsSymmetric | app/src/main/kotlin/org/stypox/dicio/io/input/parakeet/ParakeetState.kt:78-84 | `equals` is symmetric |
| ParakeetStates.HashCodeAgreesWithEquals | app/src/main/kotlin/org/stypox/dicio/io/input/parakeet/ParakeetState.kt:78-88 | on storable `Loading` states, equality holds exactly when the hashes `hashCode` computes (0 without a listener, 1 with one) agree |
| ParakeetStates.WildcardBreaksTransitivity | app/src/main/kotlin/org/stypox/dicio/io/input/parakeet/ParakeetState.kt:67-84 | the wildcard `Loading(null, true)` equals both kinds of `Loading`, which differ from each other, so equality is not transitive |
| ParakeetStates.ToUiState | app/src/main/kotlin/org/stypox/dicio/io/input/parakeet/ParakeetState.kt:114-128 | each state maps to the UI state of the same variant; `Loading` keeps only whether a listener waits; `Downloading` keeps its progress, and `ErrorDownloading` and `ErrorLoading` keep their throwable; the transient phases never come out |
| ParakeetStates.ToUiStateKeepsVariant | app/src/main/kotlin/org/stypox/dicio/io/input/parakeet/ParakeetState.kt:114-128 | states whose UI projections are equal have the same variant |
| ParakeetStates.ToUiStateForgetsResources | app/src/main/kotlin/org/stypox/dicio/io/input/parakeet/ParakeetState.kt:110-128 | states that differ only in sessions or listeners project alike |
| TdtDecoding.ToInt32 | app/src/main/kotlin/org/stypox/dicio/io/input/parakeet/ParakeetListener.kt:421 | `Long.toInt()`: the result is in the 32-bit range, agrees with the input modulo 2^32, and equals it when it already fits |
| TdtDecoding.FrameBound | app/src/main/kotlin/org/stypox/dicio/io/input/parakeet/ParakeetListener.kt:421 | `encodedLength.toInt().coerceAtMost(frames)`: the result is the smaller of the frame count and the truncated length |
| TdtDecoding.ArgMax | app/src/main/kotlin/org/stypox/dicio/io/input/parakeet/ParakeetListener.kt:486 | `maxByOrNull` over a non-empty sequence returns an index inside it |
| TdtDecoding.ArgMaxIsFirstMax | app/src/main/kotlin/org/stypox/dicio/io/input/parakeet/ParakeetListener.kt:486 | the chosen logit is a maximum, and no earlier logit is as large, so the first maximum wins ties |
| TdtDecoding.ChooseToken | app/src/main/kotlin/org/stypox/dicio/io/input/parakeet/ParakeetListener.kt:486 | without token logits the token is blank; otherwise it is a valid logit index |
| TdtDecoding.ChooseStep | app/src/main/kotlin/org/stypox/dicio/io/input/parakeet/ParakeetListener.kt:489-493 | the step is -1 exactly when there are no duration logits; otherwise it is a valid index |
| TdtDecoding.Step | app/src/main/kotlin/org/stypox/dicio/io/input/parakeet/ParakeetListener.kt:423-516 | one iteration fails exactly when the decoder-joint call fails or returns fewer than `vocabSize` outputs |
| TdtDecoding.StepShape | app/src/main/kotlin/org/stypox/dicio/io/input/parakeet/ParakeetListener.kt:495-510 | each iteration makes progress: either it moves to a later frame and resets the per-frame count, or it emits on the same frame under the cap of ten. It either emits nothing and keeps the LSTM state, or emits one non-blank vocabulary token on the current frame and takes the state the joint call returned |
| TdtDecoding.RunEmitsValidTokens | app/src/main/kotlin/org/stypox/dicio/io/input/parakeet/ParakeetListener.kt:423-521 | the loop keeps the earlier tokens, and every token it adds is non-blank and below `vocabSize` |
| TdtDecoding.RunKeepsStateWithoutEmission | app/src/main/kotlin/org/stypox/dicio/io/input/parakeet/ParakeetListener.kt:495-500 | the token list only grows, and a run that emits nothing leaves the LSTM state as it was |
| TdtDecoding.StepKeepsTraceInv | app/src/main/kotlin/org/stypox/dicio/io/input/parakeet/ParakeetListener.kt:495-510 | one iteration keeps the emission trace in frame order, with at most ten tokens per frame |
| TdtDecoding.RunKeepsTraceInv | app/src/main/kotlin/org/stypox/dicio/io/input/parakeet/ParakeetListener.kt:423-518 | the whole loop keeps that trace invariant |
| TdtDecoding.DecodeEmptyWithoutFrames | app/src/main/kotlin/org/stypox/dicio/io/input/parakeet/ParakeetListener.kt:421-423 | a zero or negative loop bound (including a length that wraps around) decodes to no tokens |
| TdtDecoding.DecodeOutputProperties | app/src/main/kotlin/org/stypox/dicio/io/input/parakeet/ParakeetListener.kt:387-522 | the decoded tokens contain no blank and are all vocabulary indices. They can be assigned to frames in order, with no frame yielding more than `MAX_TOKENS_PER_STEP` = 10 |
| TdtDecoding.TdtGreedyDecode | app/src/main/kotlin/org/stypox/dicio/io/input/parakeet/ParakeetListener.kt:387-522 | the while loop returns exactly `Decode`: the tokens, or the failure of the first failing network call |
| ParakeetListening.RequiredSilentReads | app/src/main/kotlin/org/stypox/dicio/io/input/parakeet/ParakeetListener.kt:151-155 | at least `silencesBeforeStop` silent reads are needed, and exactly that many once a read covers a whole second |
| ParakeetListening.Observe | app/src/main/kotlin/org/stypox/dicio/io/input/parakeet/ParakeetListener.kt:127-149 | a read appends its samples to the audio. A loud chunk adds its size to the speech count, resets the silent run and re-evaluates "heard speech"; a silent chunk only extends the silent run |
| ParakeetListening.RecordFrom | app/src/main/kotlin/org/stypox/dicio/io/input/parakeet/ParakeetListener.kt:124-173 | the loop reads no more chunks than there are. An outside stop has read all of them; a silence or cap stop ends on a non-empty chunk |
| ParakeetListening.ConcatCons | app/src/main/kotlin/org/stypox/dicio/io/input/parakeet/ParakeetListener.kt:127-149 | audio and speech accounting distribute over the chunks read |
| ParakeetListening.RecordFromAccumulates | app/src/main/kotlin/org/stypox/dicio/io/input/parakeet/ParakeetListener.kt:124-173 | the recorded audio is exactly the concatenation of the chunks read, and the speech count is the size of the loud ones among them |
| ParakeetListening.RecordFromStops | app/src/main/kotlin/org/stypox/dicio/io/input/parakeet/ParakeetListener.kt:157-171 | a chunk that ends the loop is the only one consumed, and it is accounted for |
| ParakeetListening.RecordFromTail | app/src/main/kotlin/org/stypox/dicio/io/input/parakeet/ParakeetListener.kt:124-127 | empty reads are skipped; accounting carries over to the rest of the chunks |
| ParakeetListening.SilenceStopIsJustified | app/src/main/kotlin/org/stypox/dicio/io/input/parakeet/ParakeetListener.kt:142-164 | a silence stop happens only after at least 0.4 s of speech (6400 samples) and enough consecutive silent reads, and the chunk that triggers it is silent |
| ParakeetListening.RecordingRespectsCap | app/src/main/kotlin/org/stypox/dicio/io/input/parakeet/ParakeetListener.kt:166-171 | an outside stop happens below the 30-second cap (480000 samples); a cap stop has reached it |
| ParakeetListening.Transpose | app/src/main/kotlin/org/stypox/dicio/io/input/parakeet/ParakeetListener.kt:366-368 | the transpose succeeds exactly when Kotlin does not throw (sizes non-negative, enough data); the result is `outT` frames of `outD` values |
| ParakeetListening.TransposeEntry | app/src/main/kotlin/org/stypox/dicio/io/input/parakeet/ParakeetListener.kt:366-368 | entry `[t][d]` is element `d * outT + t` of the encoder output, and that index is in range |
| ParakeetListening.TransposeRoundTrip | app/src/main/kotlin/org/stypox/dicio/io/input/parakeet/ParakeetListener.kt:366-368 | flattening the transposed frames gives back the encoder data, so the transpose loses nothing |
| ParakeetListening.JoinTokensAppend | app/src/main/kotlin/org/stypox/dicio/io/input/parakeet/ParakeetListener.kt:528-532 | token strings are joined with no separator, so joining distributes over concatenation |
| ParakeetListening.JoinTokensSkipsMissing | app/src/main/kotlin/org/stypox/dicio/io/input/parakeet/ParakeetListener.kt:529 | an id missing from the vocabulary contributes nothing (`mapNotNull`) |
| ParakeetListening.DecodeTokensIsTrimmedJoin | app/src/main/kotlin/org/stypox/dicio/io/input/parakeet/ParakeetListener.kt:528-532 | the decoded text is a contiguous piece of the joined tokens, with no whitespace at either end |
| ParakeetListening.FinalEvent | app/src/main/kotlin/org/stypox/dicio/io/input/parakeet/ParakeetListener.kt:211-242 | None for empty audio or a blank result; Error exactly when inference throws on non-empty audio; otherwise one alternative with confidence 1.0; never Partial |
| ParakeetListening.FinalTextIsTrimmed | app/src/main/kotlin/org/stypox/dicio/io/input/parakeet/ParakeetListener.kt:228-235 | a Final event carries non-empty text that neither starts nor ends with whitespace |
| ParakeetListening.OutcomeOf | app/src/main/kotlin/org/stypox/dicio/io/input/parakeet/ParakeetListener.kt:175-203 | the final audio is processed exactly when processing is still wanted and no read threw. A read failure sends Error only when the user did not request the stop |
| ParakeetListening.RecordFromAdvance | app/src/main/kotlin/org/stypox/dicio/io/input/parakeet/ParakeetListener.kt:124-173 | one chunk of the loop either ends the recording (on silence after speech, or at the cap) or hands the rest to the next chunk |
| ParakeetListening.ReadChunk | app/src/main/kotlin/org/stypox/dicio/io/input/parakeet/ParakeetListener.kt:127-149 | the loop body leaves the recorder exactly as `Observe` describes |
| ParakeetListening.ParakeetListener.constructor | app/src/main/kotlin/org/stypox/dicio/io/input/parakeet/ParakeetListener.kt:55-68 | the listener starts not recording, wanting to process its audio, with no stop requested |
| ParakeetListening.ParakeetListener.StartRecording | app/src/main/kotlin/org/stypox/dicio/io/input/parakeet/ParakeetListener.kt:77-108 | the flags are reset. An invalid buffer size or an uninitialised recorder returns an Error event and leaves `isRecording` as it was; otherwise recording starts |
| ParakeetListening.ParakeetListener.RecordUntilStopped | app/src/main/kotlin/org/stypox/dicio/io/input/parakeet/ParakeetListener.kt:110-204 | the loop and what follows it end exactly as `OutcomeOf(RecordFrom(...))` says, with recording stopped and the flags unchanged |
| ParakeetListening.ParakeetListener.StopAndDiscardCurrentAudio | app/src/main/kotlin/org/stypox/dicio/io/input/parakeet/ParakeetListener.kt:548-552 | afterwards a stop is requested, the audio is not to be processed, and recording has stopped |
| ParakeetListening.DiscardedRecordingProducesNothing | app/src/main/kotlin/org/stypox/dicio/io/input/parakeet/ParakeetListener.kt:184-199 | after a discard, whatever the microphone delivered or threw, no inference runs and no event is sent |
| ParakeetDevice.InitialState | app/src/main/kotlin/org/stypox/dicio/io/input/parakeet/ParakeetInputDevice.kt:116-141 | NotAvailable exactly when the locale has no model. NotLoaded exactly when the sentinel names the same URL and all files exist. NotDownloaded, with that URL, otherwise |
| ParakeetDevice.TransientPhasesOnlyFromOverlay | app/src/main/kotlin/org/stypox/dicio/io/input/parakeet/ParakeetInputDevice.kt:104-108 | SilenceDetected and Thinking are shown only while a transient phase is set; without one the caller sees the state's own variant, its download progress and whether a load will listen |
| ParakeetDevice.ParseVocabLine | app/src/main/kotlin/org/stypox/dicio/io/input/parakeet/ParakeetInputDevice.kt:396-399 | a parsed line has a 32-bit id and a token without U+2581, and a line without a space (after trimming its end) gives nothing |
| ParakeetDevice.VocabOf | app/src/main/kotlin/org/stypox/dicio/io/input/parakeet/ParakeetInputDevice.kt:392-405 | the vocabulary built from the lines has distinct keys |
| ParakeetDevice.VocabOfIsLastDefinition | app/src/main/kotlin/org/stypox/dicio/io/input/parakeet/ParakeetInputDevice.kt:392-405 | looking up an id gives the token of its last well-formed line, and an id no line defines is absent |
| ParakeetDevice.LoadVocab | app/src/main/kotlin/org/stypox/dicio/io/input/parakeet/ParakeetInputDevice.kt:392-405 | the line-by-line loop builds exactly `VocabOf(lines)` |
| ParakeetDevice.AccountedAfterClose | app/src/main/kotlin/org/stypox/dicio/io/input/parakeet/ParakeetState.kt:156-161 | closing the live session set keeps every created set either live or closed exactly once |
| ParakeetDevice.AccountedAfterCreate | app/src/main/kotlin/org/stypox/dicio/io/input/parakeet/ParakeetInputDevice.kt:357-359 | a newly created session set becomes the live one and the bookkeeping holds |
| ParakeetDevice.ParakeetInputDevice.constructor | app/src/main/kotlin/org/stypox/dicio/io/input/parakeet/ParakeetInputDevice.kt:92-114 | the device starts in `init`'s state, shows its projection, and has sent no events and closed nothing |
| ParakeetDevice.ParakeetInputDevice.SetState | app/src/main/kotlin/org/stypox/dicio/io/input/parakeet/ParakeetInputDevice.kt:275 | the state flow stores a value only when it differs, under the state's own equality, and nothing else changes |
| ParakeetDevice.ParakeetInputDevice.CompareAndSet | app/src/main/kotlin/org/stypox/dicio/io/input/parakeet/ParakeetInputDevice.kt:366-376 | succeeds exactly when the current state equals `expected` under the state's equality; stores `update` only then and only if it differs |
| ParakeetDevice.ParakeetInputDevice.Close | app/src/main/kotlin/org/stypox/dicio/io/input/parakeet/ParakeetState.kt:156-161 | the session set is recorded as closed, and its preprocessor, encoder, decoder-joint and environment are released in that order |
| ParakeetDevice.ParakeetInputDevice.TryLoad | app/src/main/kotlin/org/stypox/dicio/io/input/parakeet/ParakeetInputDevice.kt:217-228 | returns true exactly when loading starts (NotLoaded or ErrorLoading) or listening starts (Loaded with a listener); otherwise it changes nothing |
| ParakeetDevice.ParakeetInputDevice.OnClick | app/src/main/kotlin/org/stypox/dicio/io/input/parakeet/ParakeetInputDevice.kt:238-257 | per state: download (or retry), load, toggle while loading, start listening, or stop with one None to the old listener. Nothing happens while not initialised, unavailable or downloading, and only a stop sends an event |
| ParakeetDevice.ParakeetInputDevice.StopListening | app/src/main/kotlin/org/stypox/dicio/io/input/parakeet/ParakeetInputDevice.kt:262-267 | from Listening: back to Loaded with the same sessions and one None event. Otherwise nothing changes |
| ParakeetDevice.ParakeetInputDevice.Download | app/src/main/kotlin/org/stypox/dicio/io/input/parakeet/ParakeetInputDevice.kt:274-277 | the state becomes Downloading with unknown progress, and a download for that URL is pending |
| ParakeetDevice.ParakeetInputDevice.DownloadProgress | app/src/main/kotlin/org/stypox/dicio/io/input/parakeet/ParakeetInputDevice.kt:300-302 | progress updates the Downloading state only |
| ParakeetDevice.ParakeetInputDevice.DownloadFinished | app/src/main/kotlin/org/stypox/dicio/io/input/parakeet/ParakeetInputDevice.kt:304-313 | on an I/O error the state becomes ErrorDownloading with the URL. On success the sentinel holds the URL, the files exist and the state is NotLoaded |
| ParakeetDevice.ParakeetInputDevice.Load | app/src/main/kotlin/org/stypox/dicio/io/input/parakeet/ParakeetInputDevice.kt:325-328 | the state becomes `Loading(listener)` (kept if equal) and a load is pending |
| ParakeetDevice.ParakeetInputDevice.LoadCompletes | app/src/main/kotlin/org/stypox/dicio/io/input/parakeet/ParakeetInputDevice.kt:329-384 | a failure gives ErrorLoading. New sessions become Loaded from `Loading(null)`, start listening with the listener the state holds now, or are closed when the state is no longer Loading |
| ParakeetDevice.ParakeetInputDevice.LoadFinished | app/src/main/kotlin/org/stypox/dicio/io/input/parakeet/ParakeetInputDevice.kt:325-385 | while loading, a failure gives ErrorLoading; success gives Loaded without a listener, or Listening with a fresh active listener when one waits; nothing is closed |
| ParakeetDevice.ParakeetInputDevice.ToggleThenStartListening | app/src/main/kotlin/org/stypox/dicio/io/input/parakeet/ParakeetInputDevice.kt:416-433 | while loading it flips whether listening follows. If loading already ended, it starts listening (from Loaded) or stops with None (from Listening); otherwise it changes nothing |
| ParakeetDevice.ParakeetInputDevice.StartListening | app/src/main/kotlin/org/stypox/dicio/io/input/parakeet/ParakeetInputDevice.kt:438-468 | the state is Listening. The previous listener's audio is discarded, and a fresh listener with `DEFAULT_SILENCES_BEFORE_STOP` becomes the active one |
| ParakeetDevice.ParakeetInputDevice.StopListeningInternal | app/src/main/kotlin/org/stypox/dicio/io/input/parakeet/ParakeetInputDevice.kt:474-488 | the state is Loaded with the same sessions and no transient phase. Only with `sendNoneEvent` is the active listener discarded and None sent |
| ParakeetDevice.ParakeetInputDevice.RecordingStarted | app/src/main/kotlin/org/stypox/dicio/io/input/parakeet/ParakeetInputDevice.kt:453-460 | a microphone failure sends one Error to the session's listener and ends the job, leaving the state Listening; otherwise recording runs |
| ParakeetDevice.ParakeetInputDevice.RecordingFinished | app/src/main/kotlin/org/stypox/dicio/io/input/parakeet/ParakeetInputDevice.kt:453-460 | after a read error the listener gets Error. Otherwise the device is back in Loaded and the listener gets `FinalEvent` of the recorded audio. Either way the listener is no longer active |
| ParakeetDevice.ParakeetInputDevice.ProcessAudio | app/src/main/kotlin/org/stypox/dicio/io/input/parakeet/ParakeetListener.kt:211-242 | back to Loaded without a None event, then exactly the one result event to the session's listener, and no transient phase at the end |
| ParakeetDevice.ParakeetInputDevice.StopActiveListenerAndWait | app/src/main/kotlin/org/stypox/dicio/io/input/parakeet/ParakeetInputDevice.kt:197-203 | the active listener's audio is discarded and the listener is forgotten; nothing else changes |
| ParakeetDevice.ParakeetInputDevice.SettleAfterLoadJoined | app/src/main/kotlin/org/stypox/dicio/io/input/parakeet/ParakeetInputDevice.kt:162-175 | the state found after the load job becomes NotInitialized and Loaded sessions are closed; a Listening state is stopped through `stopListening`, which stores `Loaded` again, and its sessions are then closed, as lines 167-171 write it |
| ParakeetDevice.ParakeetInputDevice.JoinLoad | app/src/main/kotlin/org/stypox/dicio/io/input/parakeet/ParakeetInputDevice.kt:160-176 | after waiting for the load, the sessions it created (if any) are closed exactly once and the state is NotInitialized |
| ParakeetDevice.ParakeetInputDevice.Deinit | app/src/main/kotlin/org/stypox/dicio/io/input/parakeet/ParakeetInputDevice.kt:152-195 | corrected `deinit`: the end state is NotInitialized with nothing pending and no active listener. The held sessions, or those a finishing load creates, are closed exactly once, and no event is sent |
| ParakeetDevice.ParakeetInputDevice.DeinitAsWritten | app/src/main/kotlin/org/stypox/dicio/io/input/parakeet/ParakeetInputDevice.kt:180-184 | as written: from Listening the device ends in `Loaded` with the sessions it has just closed; from other states it ends in NotInitialized |
| ParakeetDevice.DeinitAsWrittenFromListening | app/src/main/kotlin/org/stypox/dicio/io/input/parakeet/ParakeetInputDevice.kt:180-184 | the concrete scenario: a listening device deinitialised as written ends in Loaded holding closed sessions |
| ParakeetDevice.ParakeetInputDevice.Reinit | app/src/main/kotlin/org/stypox/dicio/io/input/parakeet/ParakeetInputDevice.kt:143-150 | after deinitialising, the state is `init`'s state for the new model URL, with no active listener and no event sent |
| ParakeetDevice.ParakeetInputDevice.Destroy | app/src/main/kotlin/org/stypox/dicio/io/input/parakeet/ParakeetInputDevice.kt:498-502 | `destroy` over the corrected `Deinit` (Findings row 1): the state is NotInitialized with no active listener, and every session set ever created has been closed; from Listening the source's `destroy` instead ends like `DeinitAsWritten` |
| ScribeDevice.LanguageCodeFromLocale | app/src/main/kotlin/org/stypox/dicio/io/input/scribe/ScribeRealtimeInputDevice.kt:356-358 | the code is never blank: the locale's language, or "en" when it is blank |
| ScribeDevice.Classify | app/src/main/kotlin/org/stypox/dicio/io/input/scribe/ScribeRealtimeInputDevice.kt:180-204 | the message type selects the action. Both committed types end the session. The 13 error types give an error carrying the `error` field, else `message`, else the type. Any other type is ignored |
| ScribeDevice.Device.Notify | app/src/main/kotlin/org/stypox/dicio/io/input/scribe/ScribeRealtimeInputDevice.kt:188 | a missing listener sends nothing; otherwise exactly one event is appended for that listener |
| ScribeDevice.Device.StopListeningInternal | app/src/main/kotlin/org/stypox/dicio/io/input/scribe/ScribeRealtimeInputDevice.kt:294-317 | ends the session: no listener, socket, recording or job; Listening becomes the key's ready state. The held socket is closed. Only a listening device with `sendNoneEvent` sends one None to the old listener |
| ScribeDevice.Device.StartListening | app/src/main/kotlin/org/stypox/dicio/io/input/scribe/ScribeRealtimeInputDevice.kt:115-169 | ignored while listening. A blank key gives NotAvailable. Otherwise the listener is registered, the state is Listening and a new socket is held, or a request error ends the session with Error |
| ScribeDevice.Device.TryLoad | app/src/main/kotlin/org/stypox/dicio/io/input/scribe/ScribeRealtimeInputDevice.kt:84-96 | returns false exactly for a blank key (state NotAvailable). Without a listener the device just reports Loaded; with one it does what `startListening` does, so an idle device whose socket opens is then listening with that listener |
| ScribeDevice.Device.OnClosed | app/src/main/kotlin/org/stypox/dicio/io/input/scribe/ScribeRealtimeInputDevice.kt:154-163 | only a listening device reacts to a closed socket |
| ScribeDevice.InitIsValid | app/src/main/kotlin/org/stypox/dicio/io/input/scribe/ScribeRealtimeInputDevice.kt:58-66 | the initial device satisfies the invariant |
| ScribeDevice.StopIsIdempotent | app/src/main/kotlin/org/stypox/dicio/io/input/scribe/ScribeRealtimeInputDevice.kt:294-317 | stopping twice is the same as stopping once |
| ScribeDevice.StopKeepsValid | app/src/main/kotlin/org/stypox/dicio/io/input/scribe/ScribeRealtimeInputDevice.kt:294-317 | stopping restores the invariant from any socket-consistent state |
| ScribeDevice.NotifyKeepsValid | app/src/main/kotlin/org/stypox/dicio/io/input/scribe/ScribeRealtimeInputDevice.kt:282-292 | sending an event keeps the invariant |
| ScribeDevice.StartListeningKeepsValid | app/src/main/kotlin/org/stypox/dicio/io/input/scribe/ScribeRealtimeInputDevice.kt:115-169 | starting keeps the invariant |
| ScribeDevice.OnClickKeepsValid | app/src/main/kotlin/org/stypox/dicio/io/input/scribe/ScribeRealtimeInputDevice.kt:98-109 | a click keeps the invariant |
| ScribeDevice.MessageKeepsValid | app/src/main/kotlin/org/stypox/dicio/io/input/scribe/ScribeRealtimeInputDevice.kt:171-205 | handling any server message, or a parse failure, keeps the invariant |
| ScribeDevice.ErrorAndStopKeepsValid | app/src/main/kotlin/org/stypox/dicio/io/input/scribe/ScribeRealtimeInputDevice.kt:282-286 | `emitErrorAndStop` keeps the invariant |
| ScribeDevice.ApplyKeepsValid | app/src/main/kotlin/org/stypox/dicio/io/input/scribe/ScribeRealtimeInputDevice.kt:84-363 | every call and callback keeps the invariant: a listener exactly while a socket is held, each socket closed at most once and in opening order |
| ScribeDevice.RunKeepsValid | app/src/main/kotlin/org/stypox/dicio/io/input/scribe/ScribeRealtimeInputDevice.kt:84-363 | the invariant holds after any sequence of calls and callbacks from a valid start |
| ScribeDevice.StopEmitsAtMostOne | app/src/main/kotlin/org/stypox/dicio/io/input/scribe/ScribeRealtimeInputDevice.kt:294-317 | a stop sends at most one event, to the session's listener |
| ScribeDevice.StopThenNotifyEmitsAtMostOne | app/src/main/kotlin/org/stypox/dicio/io/input/scribe/ScribeRealtimeInputDevice.kt:282-292 | stop-then-notify sends exactly one terminal event, to the old listener |
| ScribeDevice.StartListeningEmitsAtMostOne | app/src/main/kotlin/org/stypox/dicio/io/input/scribe/ScribeRealtimeInputDevice.kt:115-169 | starting sends at most one event |
| ScribeDevice.MessageEmitsAtMostOne | app/src/main/kotlin/org/stypox/dicio/io/input/scribe/ScribeRealtimeInputDevice.kt:171-205 | a server message sends at most one event; a partial transcript changes nothing else |
| ScribeDevice.ApplyEmitsAtMostOne | app/src/main/kotlin/org/stypox/dicio/io/input/scribe/ScribeRealtimeInputDevice.kt:84-363 | every call sends at most one event, addressed to the session's listener or to the caller's. A terminal event ends the session |
| ScribeDevice.IdleDeviceIsSilent | app/src/main/kotlin/org/stypox/dicio/io/input/scribe/ScribeRealtimeInputDevice.kt:282-317 | without a session nothing is sent, unless the call itself starts one |
| ScribeDevice.ParseFailureEndsSession | app/src/main/kotlin/org/stypox/dicio/io/input/scribe/ScribeRealtimeInputDevice.kt:172-178 | a text frame that is not JSON ends the session with the parse exception: listener and socket dropped, the socket closed, a listening device back to its ready state, and the error the only event, sent to the old listener |
| ScribeDevice.SessionStartedStartsStreaming | app/src/main/kotlin/org/stypox/dicio/io/input/scribe/ScribeRealtimeInputDevice.kt:182-184 | `session_started` starts the streaming job, unless one runs already, and changes nothing else |
| ScribeDevice.PartialTranscriptForwarded | app/src/main/kotlin/org/stypox/dicio/io/input/scribe/ScribeRealtimeInputDevice.kt:185-190 | a non-blank partial transcript is sent as `Partial` to the active listener, if any, and nothing else changes |
| ScribeDevice.BlankTranscriptIgnored | app/src/main/kotlin/org/stypox/dicio/io/input/scribe/ScribeRealtimeInputDevice.kt:185-198 | a blank partial or committed transcript leaves the device unchanged |
| ScribeDevice.ServerErrorEndsSession | app/src/main/kotlin/org/stypox/dicio/io/input/scribe/ScribeRealtimeInputDevice.kt:200-203 | an error message type ends the session like a parse failure, with the error naming the type and the server's `error` or `message` field |
| ScribeDevice.IgnoredMessageChangesNothing | app/src/main/kotlin/org/stypox/dicio/io/input/scribe/ScribeRealtimeInputDevice.kt:181-204 | a message of any other type leaves the device unchanged |
| ScribeDevice.CommittedTranscriptEndsSession | app/src/main/kotlin/org/stypox/dicio/io/input/scribe/ScribeRealtimeInputDevice.kt:191-198 | a non-blank committed transcript sends exactly one Final alternative with confidence 1.0, and ends the session without None |
| ScribeDevice.ClosedWhileListening | app/src/main/kotlin/org/stypox/dicio/io/input/scribe/ScribeRealtimeInputDevice.kt:154-163 | a close while listening ends the session: None for code 1000, otherwise an error naming the code and reason |
| ScribeDevice.ClickToggles | app/src/main/kotlin/org/stypox/dicio/io/input/scribe/ScribeRealtimeInputDevice.kt:98-109 | a click stops a listening device with one None, and starts a session on an idle device with a key |
| ScribeDevice.ActionForRead | app/src/main/kotlin/org/stypox/dicio/io/input/scribe/ScribeRealtimeInputDevice.kt:241-249 | positive read sizes are sent; exactly the two error codes end the job; other non-positive sizes are retried |
| ScribeDevice.SampleRoundTrip | app/src/main/kotlin/org/stypox/dicio/io/input/scribe/ScribeRealtimeInputDevice.kt:275-277 | the low and high bytes recombine into the sample's 16-bit two's complement value |
| ScribeDevice.DecodeEncodePcm | app/src/main/kotlin/org/stypox/dicio/io/input/scribe/ScribeRealtimeInputDevice.kt:272-280 | decoding the little-endian bytes gives back exactly the samples sent |
| ScribeDevice.EncodePcmAt | app/src/main/kotlin/org/stypox/dicio/io/input/scribe/ScribeRealtimeInputDevice.kt:276-277 | byte `2i` is sample i's low byte and byte `2i + 1` its high byte |
| ScribeDevice.ToLittleEndianPcm | app/src/main/kotlin/org/stypox/dicio/io/input/scribe/ScribeRealtimeInputDevice.kt:272-280 | the array loop yields `EncodePcm` of the first `readSize` samples, and those decode back to the samples |
| ScribeDevice.ScribeRealtimeInputDevice.constructor | app/src/main/kotlin/org/stypox/dicio/io/input/scribe/ScribeRealtimeInputDevice.kt:58-82 | the object's fields equal `Init`: the locale's language, the trimmed key and its ready state |
| ScribeDevice.ScribeRealtimeInputDevice.StopListeningInternal | app/src/main/kotlin/org/stypox/dicio/io/input/scribe/ScribeRealtimeInputDevice.kt:294-317 | the fields change exactly as `Device.StopListeningInternal` says |
| ScribeDevice.ScribeRealtimeInputDevice.EmitErrorAndStop | app/src/main/kotlin/org/stypox/dicio/io/input/scribe/ScribeRealtimeInputDevice.kt:282-286 | stop, then one Error to the old listener |
| ScribeDevice.ScribeRealtimeInputDevice.EmitNoneAndStop | app/src/main/kotlin/org/stypox/dicio/io/input/scribe/ScribeRealtimeInputDevice.kt:288-292 | stop, then one None to the old listener |
| ScribeDevice.ScribeRealtimeInputDevice.StartListening | app/src/main/kotlin/org/stypox/dicio/io/input/scribe/ScribeRealtimeInputDevice.kt:115-169 | the fields change exactly as `Device.StartListening` says |
| ScribeDevice.ScribeRealtimeInputDevice.TryLoad | app/src/main/kotlin/org/stypox/dicio/io/input/scribe/ScribeRealtimeInputDevice.kt:84-96 | the fields and the result are as `Device.TryLoad` says |
| ScribeDevice.ScribeRealtimeInputDevice.OnClick | app/src/main/kotlin/org/stypox/dicio/io/input/scribe/ScribeRealtimeInputDevice.kt:98-109 | stops while listening; otherwise a blank key gives NotAvailable and any other key starts |
| ScribeDevice.ScribeRealtimeInputDevice.StopListening | app/src/main/kotlin/org/stypox/dicio/io/input/scribe/ScribeRealtimeInputDevice.kt:111-113 | a stop that sends None |
| ScribeDevice.ScribeRealtimeInputDevice.StartAudioStreaming | app/src/main/kotlin/org/stypox/dicio/io/input/scribe/ScribeRealtimeInputDevice.kt:207-212 | starts the streaming job unless one is active |
| ScribeDevice.ScribeRealtimeInputDevice.HandleServerMessage | app/src/main/kotlin/org/stypox/dicio/io/input/scribe/ScribeRealtimeInputDevice.kt:171-205 | the fields change as `Device.HandleServerMessage` says for the parsed message or the parse error; each case of that dispatch has its own lemma, from ParseFailureEndsSession to CommittedTranscriptEndsSession |
| ScribeDevice.ScribeRealtimeInputDevice.OnClosed | app/src/main/kotlin/org/stypox/dicio/io/input/scribe/ScribeRealtimeInputDevice.kt:154-163 | the fields change as `Device.OnClosed` says |
| ScribeDevice.ScribeRealtimeInputDevice.OnFailure | app/src/main/kotlin/org/stypox/dicio/io/input/scribe/ScribeRealtimeInputDevice.kt:149-152 | a socket failure ends the session with that error |
| ScribeDevice.ScribeRealtimeInputDevice.ApiKeyChanged | app/src/main/kotlin/org/stypox/dicio/io/input/scribe/ScribeRealtimeInputDevice.kt:74-81 | the key is stored trimmed; the state follows it unless listening |
| ScribeDevice.ScribeRealtimeInputDevice.LocaleChanged | app/src/main/kotlin/org/stypox/dicio/io/input/scribe/ScribeRealtimeInputDevice.kt:68-72 | the language code follows the locale |
| ScribeDevice.ScribeRealtimeInputDevice.StreamingEnded | app/src/main/kotlin/org/stypox/dicio/io/input/scribe/ScribeRealtimeInputDevice.kt:261-267 | an error from the streaming job ends the session only while listening |
| ScribeDevice.ScribeRealtimeInputDevice.Destroy | app/src/main/kotlin/org/stypox/dicio/io/input/scribe/ScribeRealtimeInputDevice.kt:360-363 | a stop without None |
| Scoring.AddRefWeightEverywhere | skill/src/main/java/org/dicio/skill/standard/construct/RangesConstruct.kt:43-53 | every slot of the array gains the reference weight in place, and the array is exactly `AddedEverywhere` of its old contents |
| MatchHelpers.MatchHelper.constructor | skill/src/main/java/org/dicio/skill/standard/util/MatchHelper.kt:3-10 | the helper holds the input and its tables, with an empty memo |
| MatchHelpers.MatchHelper.GetOrTokenize | skill/src/main/java/org/dicio/skill/standard/util/MatchHelper.kt:13-22 | a stored value, even null, is returned and the memo is left alone. A new key runs the tokenizer once and stores its result, and no other entry changes |
| CapturingConstructs.ToStringShowsNameOnly | skill/src/main/java/org/dicio/skill/standard/construct/CapturingConstruct.kt:65-67 | two constructs print alike exactly when their names agree: `toString` shows the name and not the weight |
| CapturingConstructs.LastEndFrom | skill/src/main/java/org/dicio/skill/standard/construct/CapturingConstruct.kt:22-58 | the group end in force always lies between the next position to decide and the end of the input |
| CapturingConstructs.StepShape | skill/src/main/java/org/dicio/skill/standard/construct/CapturingConstruct.kt:24-58 | a span holding only whitespace is never captured. Otherwise the capture up to the current group end is taken when it scores at least as well as skipping. The group end moves only when skipping, or when starting a new group scores strictly better |
| CapturingConstructs.EndSlot | skill/src/main/java/org/dicio/skill/standard/construct/CapturingConstruct.kt:61 | the slot for the end of the input only gains the construct's reference weight |
| CapturingConstructs.LastEndIsGroupEnd | skill/src/main/java/org/dicio/skill/standard/construct/CapturingConstruct.kt:22-58 | the group end in force is always a place where a group may end |
| CapturingConstructs.GroupSharesEnd | skill/src/main/java/org/dicio/skill/standard/construct/CapturingConstruct.kt:22-58 | every position inside a group sees the same end: one group, one end |
| CapturingConstructs.CaptureSpansToGroupEnd | skill/src/main/java/org/dicio/skill/standard/construct/CapturingConstruct.kt:37-46 | a capture is a non-empty span, not all whitespace, that runs to a group end, with no group end strictly inside it |
| CapturingConstructs.DecideAt | skill/src/main/java/org/dicio/skill/standard/construct/CapturingConstruct.kt:24-58 | one iteration computes exactly the decision `Decide` describes |
| CapturingConstructs.MatchToEnd | skill/src/main/java/org/dicio/skill/standard/construct/CapturingConstruct.kt:17-61 | the backwards in-place loop leaves `memToEnd` equal to `Result` of the table it started with |
| RangesConstructs.ApplyRangesAt | skill/src/main/java/org/dicio/skill/standard/construct/RangesConstruct.kt:57-70 | a slot ends up as its value before the loop, combined by `keepBest` with the captures of exactly the ranges starting there, in order |
| RangesConstructs.ResultAt | skill/src/main/java/org/dicio/skill/standard/construct/RangesConstruct.kt:35-70 | for an unsupported language every slot gains the huge weight 1e9. Otherwise each slot gains the weight first, then keeps the best of that and each range's capture starting there |
| RangesConstructs.MatchToEnd | skill/src/main/java/org/dicio/skill/standard/construct/RangesConstruct.kt:35-73 | the ranges come from the memo (parsed and stored under the construct's key on a miss), and the array ends equal to `Result` |
| RangesConstructs.TryRanges | skill/src/main/java/org/dicio/skill/standard/construct/RangesConstruct.kt:57-70 | the loop over the ranges leaves the array equal to `ApplyRanges` |
| RangesConstructs.RemoveSuffix | skill/src/main/java/org/dicio/skill/standard/construct/RangesConstruct.kt:76 | drops the suffix exactly when the string ends with it; otherwise returns the string |
| RangesConstructs.ToString | skill/src/main/java/org/dicio/skill/standard/construct/RangesConstruct.kt:75-77 | `.name:Kind.`, where Kind is the class name without `Construct`, or `null` without a name |
| Navigation.IsSingleDigit | app/src/main/kotlin/org/stypox/dicio/skills/navigation/NavigationSkill.kt:89-95 | fails exactly for an item that is neither text nor a number. True exactly for an integer from 0 to 9, or for text that is empty or one character of the Basic Multilingual Plane (`length` counts UTF-16 units) |
| Navigation.LetterRun | app/src/main/kotlin/org/stypox/dicio/skills/navigation/NavigationSkill.kt:87 | the longest prefix of letters: every character in it is a letter, and the next one is not |
| Navigation.Tokens | app/src/main/kotlin/org/stypox/dicio/skills/navigation/NavigationSkill.kt:87 | no token is empty |
| Navigation.TokensConcat | app/src/main/kotlin/org/stypox/dicio/skills/navigation/NavigationSkill.kt:33 | joining the tokens gives back the text: tokenising drops and reorders nothing |
| Navigation.TokensShape | app/src/main/kotlin/org/stypox/dicio/skills/navigation/NavigationSkill.kt:87 | every token is a single non-letter or a maximal run of letters, and the first token starts with the text's first character |
| Navigation.RenderAppend | app/src/main/kotlin/org/stypox/dicio/skills/navigation/NavigationSkill.kt:51-74 | rendering distributes over concatenation |
| Navigation.RenderStrItems | app/src/main/kotlin/org/stypox/dicio/skills/navigation/NavigationSkill.kt:33 | rendering the tokens' items is their concatenation |
| Navigation.ExpandKeepsRendering | app/src/main/kotlin/org/stypox/dicio/skills/navigation/NavigationSkill.kt:26-37 | the `flatMap` keeps the characters and the numbers, in order |
| Navigation.FailurePersists | app/src/main/kotlin/org/stypox/dicio/skills/navigation/NavigationSkill.kt:52-74 | once the loop has thrown, later items do not matter |
| Navigation.FailsIffOther | app/src/main/kotlin/org/stypox/dicio/skills/navigation/NavigationSkill.kt:52-95 | assembling fails exactly when some item is neither text nor a number |
| Navigation.AssembledIsRendering | app/src/main/kotlin/org/stypox/dicio/skills/navigation/NavigationSkill.kt:51-74 | without blanks between single digits and without foreign items, the builder holds every item's text, in order |
| Navigation.CleanPlaceIsTrimmedRendering | app/src/main/kotlin/org/stypox/dicio/skills/navigation/NavigationSkill.kt:51-75 | in that case the cleaned place is the trimmed rendering |
| Navigation.CleanPlaceIsTrimmed | app/src/main/kotlin/org/stypox/dicio/skills/navigation/NavigationSkill.kt:75 | a cleaned place neither starts nor ends with a character up to the space |
| Navigation.AssembleAddress | app/src/main/kotlin/org/stypox/dicio/skills/navigation/NavigationSkill.kt:51-75 | the builder loop computes exactly `CleanPlace` |
| Navigation.GenerateOutput | app/src/main/kotlin/org/stypox/dicio/skills/navigation/NavigationSkill.kt:16-84 | no place gives an empty output. Without a number parser the place is only trimmed; otherwise it is expanded and assembled, and an error is passed through |
| CaptureUtils.GetTypeName | sentences-compiler-plugin/src/main/kotlin/org/stypox/dicio/sentencesCompilerPlugin/gen/CaptureUtils.kt:8-15 | each capture kind maps to its value type (String, Number, Duration, LocalDateTime), one-to-one |
| CaptureUtils.GetCapturingGroupClassName | sentences-compiler-plugin/src/main/kotlin/org/stypox/dicio/sentencesCompilerPlugin/gen/CaptureUtils.kt:17-24 | every construct class is in the construct package. A string capture uses CapturingConstruct; the others use the construct named after their type |
| CaptureUtils.CollectNames | sentences-compiler-plugin/src/main/kotlin/org/stypox/dicio/sentencesCompilerPlugin/gen/CaptureUtils.kt:28-45 | collecting keeps exactly the present fields, in order |
| CaptureUtils.CollectFrom | sentences-compiler-plugin/src/main/kotlin/org/stypox/dicio/sentencesCompilerPlugin/gen/CaptureUtils.kt:28-45 | each parameter comes from some field, with that field's name, format and value |
| CaptureUtils.CollectHead | sentences-compiler-plugin/src/main/kotlin/org/stypox/dicio/sentencesCompilerPlugin/gen/CaptureUtils.kt:28 | a present first field leads the parameters, and only it can lead with its name |
| CaptureUtils.ParamsShape | sentences-compiler-plugin/src/main/kotlin/org/stypox/dicio/sentencesCompilerPlugin/gen/CaptureUtils.kt:26-48 | exactly the present fields of the capture's kind, in the source's order, each float with `%Lf` and each boolean with `%L`, carrying its value |
| CaptureUtils.WeightFirst | sentences-compiler-plugin/src/main/kotlin/org/stypox/dicio/sentencesCompilerPlugin/gen/CaptureUtils.kt:28 | the weight comes first exactly when it is set |
| CaptureUtils.ArgumentName | sentences-compiler-plugin/src/main/kotlin/org/stypox/dicio/sentencesCompilerPlugin/gen/CaptureUtils.kt:28-44 | every parameter name can be written as a named argument |
| CaptureUtils.GetParams | sentences-compiler-plugin/src/main/kotlin/org/stypox/dicio/sentencesCompilerPlugin/gen/CaptureUtils.kt:26-48 | the appending method returns exactly `ParamsOf` |
| GenerateConstructs.PlaceholdersAppend | sentences-compiler-plugin/src/main/kotlin/org/stypox/dicio/sentencesCompilerPlugin/gen/GenerateConstruct.kt:74 | gluing two formats adds up their placeholders, unless a trailing `%` pairs with the next letter |
| GenerateConstructs.NoPlaceholders | sentences-compiler-plugin/src/main/kotlin/org/stypox/dicio/sentencesCompilerPlugin/gen/GenerateConstruct.kt:74 | text without `%`, such as the `,name=` prefixes and the separator glued into the format, has no placeholder |
| GenerateConstructs.RepeatLiterals | sentences-compiler-plugin/src/main/kotlin/org/stypox/dicio/sentencesCompilerPlugin/gen/GenerateConstruct.kt:55 | `"%L,".repeat(n)` asks for exactly `n` literals |
| GenerateConstructs.FirstWithId | sentences-compiler-plugin/src/main/kotlin/org/stypox/dicio/sentencesCompilerPlugin/gen/GenerateConstruct.kt:69 | `firstOrNull`: None exactly when no capture has the name; otherwise the first capture with it |
| GenerateConstructs.GenerateEachAt | sentences-compiler-plugin/src/main/kotlin/org/stypox/dicio/sentencesCompilerPlugin/gen/GenerateConstruct.kt:57 | each child's result is the child's own code or exception |
| GenerateConstructs.SequenceShape | sentences-compiler-plugin/src/main/kotlin/org/stypox/dicio/sentencesCompilerPlugin/gen/GenerateConstruct.kt:57 | the map succeeds exactly when every child does, keeps the values in order, and fails with the first failure |
| GenerateConstructs.GenerateAllInOrder | sentences-compiler-plugin/src/main/kotlin/org/stypox/dicio/sentencesCompilerPlugin/gen/GenerateConstruct.kt:57 | the children's code is each child's own code, in order, and a failure is the first failing child's |
| GenerateConstructs.WordFormatKinds | sentences-compiler-plugin/src/main/kotlin/org/stypox/dicio/sentencesCompilerPlugin/gen/GenerateConstruct.kt:33 | the word format asks for a type, a string and two literals |
| GenerateConstructs.ListOpenKinds | sentences-compiler-plugin/src/main/kotlin/org/stypox/dicio/sentencesCompilerPlugin/gen/GenerateConstruct.kt:55 | the list format opens with one type |
| GenerateConstructs.ListBlockWellFormed | sentences-compiler-plugin/src/main/kotlin/org/stypox/dicio/sentencesCompilerPlugin/gen/GenerateConstruct.kt:53-59 | a list with well-formed children is well formed: one literal per child |
| GenerateConstructs.ParamFormatShape | sentences-compiler-plugin/src/main/kotlin/org/stypox/dicio/sentencesCompilerPlugin/gen/GenerateConstruct.kt:74 | one named argument asks for exactly one literal |
| GenerateConstructs.JoinLiterals | sentences-compiler-plugin/src/main/kotlin/org/stypox/dicio/sentencesCompilerPlugin/gen/GenerateConstruct.kt:74 | joining such arguments with a separator free of `%` asks for one literal per argument |
| GenerateConstructs.ParamSpecs | sentences-compiler-plugin/src/main/kotlin/org/stypox/dicio/sentencesCompilerPlugin/gen/CaptureUtils.kt:28-44 | every parameter is a `%Lf` float or a `%L` boolean |
| GenerateConstructs.CaptureOpenKinds | sentences-compiler-plugin/src/main/kotlin/org/stypox/dicio/sentencesCompilerPlugin/gen/GenerateConstruct.kt:74 | the capturing group's format opens with a type and a string |
| GenerateConstructs.CapturingGroupFormat | sentences-compiler-plugin/src/main/kotlin/org/stypox/dicio/sentencesCompilerPlugin/gen/GenerateConstruct.kt:74 | the capturing group's format asks for a type, a string, then one literal per parameter |
| GenerateConstructs.FlatWellFormed | sentences-compiler-plugin/src/main/kotlin/org/stypox/dicio/sentencesCompilerPlugin/gen/GenerateConstruct.kt:32-38 | one fitting argument per placeholder makes a block well formed |
| GenerateConstructs.CaptureArgsFit | sentences-compiler-plugin/src/main/kotlin/org/stypox/dicio/sentencesCompilerPlugin/gen/GenerateConstruct.kt:75-77 | the construct class, the name and each value fit those placeholders |
| GenerateConstructs.CaptureBlockWellFormed | sentences-compiler-plugin/src/main/kotlin/org/stypox/dicio/sentencesCompilerPlugin/gen/GenerateConstruct.kt:73-78 | a capturing group's block is well formed for any class, name and parameters |
| GenerateConstructs.CapturingGroupWellFormed | sentences-compiler-plugin/src/main/kotlin/org/stypox/dicio/sentencesCompilerPlugin/gen/GenerateConstruct.kt:68-79 | the capturing group's code is well formed |
| GenerateConstructs.GenerateWellFormed | sentences-compiler-plugin/src/main/kotlin/org/stypox/dicio/sentencesCompilerPlugin/gen/GenerateConstruct.kt:15-90 | every block the generator emits is well formed, nested blocks included: placeholder count and kinds match the arguments. This holds for the source's separator `", "` and the corrected `""` alike |
| GenerateConstructs.ChildrenWellFormed | sentences-compiler-plugin/src/main/kotlin/org/stypox/dicio/sentencesCompilerPlugin/gen/GenerateConstruct.kt:53-90 | list children are well formed, and so is the list |
| GenerateConstructs.GenerateSucceedsIff | sentences-compiler-plugin/src/main/kotlin/org/stypox/dicio/sentencesCompilerPlugin/gen/GenerateConstruct.kt:15-90 | generation succeeds exactly for constructs with no unknown kind whose capturing groups are all declared, whatever the separator |
| GenerateConstructs.GenerateFailures | sentences-compiler-plugin/src/main/kotlin/org/stypox/dicio/sentencesCompilerPlugin/gen/GenerateConstruct.kt:23-71 | an unknown construct throws the "Unexpected construct" exception with its type and text; an undeclared capturing group throws the "not found among captures" exception |
| GenerateConstructs.WordIsRegexIffVariations | sentences-compiler-plugin/src/main/kotlin/org/stypox/dicio/sentencesCompilerPlugin/gen/GenerateConstruct.kt:31-51 | a word becomes a `WordConstruct` of its text, a regex exactly when it has variations, with its diacritics flag |
| GenerateConstructs.ListChildren | sentences-compiler-plugin/src/main/kotlin/org/stypox/dicio/sentencesCompilerPlugin/gen/GenerateConstruct.kt:53-90 | an or-list becomes OrConstruct and a sentence list CompositeConstruct, applied to the children's code in order, one literal each |
| GenerateConstructs.ListBlockArgs | sentences-compiler-plugin/src/main/kotlin/org/stypox/dicio/sentencesCompilerPlugin/gen/GenerateConstruct.kt:53-90 | a list block's arguments are its class, then each child's code |
| GenerateConstructs.ListFormat | sentences-compiler-plugin/src/main/kotlin/org/stypox/dicio/sentencesCompilerPlugin/gen/GenerateConstruct.kt:55 | the list format asks for a type and then one literal per child |
| GenerateConstructs.CapturingGroupArguments | sentences-compiler-plugin/src/main/kotlin/org/stypox/dicio/sentencesCompilerPlugin/gen/GenerateConstruct.kt:68-79 | a capturing group passes the capture's construct class, its name, and the value of each parameter of the first capture with that name |
| GenerateConstructs.CommasAppend | sentences-compiler-plugin/src/main/kotlin/org/stypox/dicio/sentencesCompilerPlugin/gen/GenerateConstruct.kt:74 | gluing formats whose commas each precede a name keeps that property |
| GenerateConstructs.ParamFormatCommas | sentences-compiler-plugin/src/main/kotlin/org/stypox/dicio/sentencesCompilerPlugin/gen/GenerateConstruct.kt:74 | in `,name=%Lf` the comma precedes the name |
| GenerateConstructs.JoinCommas | sentences-compiler-plugin/src/main/kotlin/org/stypox/dicio/sentencesCompilerPlugin/gen/GenerateConstruct.kt:74 | named arguments glued with nothing keep every comma before a name |
| GenerateConstructs.CaptureOpenCommas | sentences-compiler-plugin/src/main/kotlin/org/stypox/dicio/sentencesCompilerPlugin/gen/GenerateConstruct.kt:74 | the opening `%T(%S` has no dangling comma |
| GenerateConstructs.JoinedParamsCommas | sentences-compiler-plugin/src/main/kotlin/org/stypox/dicio/sentencesCompilerPlugin/gen/GenerateConstruct.kt:74 | the glued named arguments keep a name after every comma |
| GenerateConstructs.CaptureFormatCommas | sentences-compiler-plugin/src/main/kotlin/org/stypox/dicio/sentencesCompilerPlugin/gen/GenerateConstruct.kt:74 | the corrected capturing-group format has a name after every comma |
| GenerateConstructs.CorrectedArgumentsNamed | sentences-compiler-plugin/src/main/kotlin/org/stypox/dicio/sentencesCompilerPlugin/gen/GenerateConstruct.kt:68-79 | with the arguments joined by nothing, no argument of the generated call is empty |
| GenerateConstructs.AsWrittenEmptyArgument | sentences-compiler-plugin/src/main/kotlin/org/stypox/dicio/sentencesCompilerPlugin/gen/GenerateConstruct.kt:74 | as written, with two or more parameters the generated call contains `, ,`, an empty argument |
| GenerateConstructs.TwoParameters | sentences-compiler-plugin/src/main/kotlin/org/stypox/dicio/sentencesCompilerPlugin/gen/CaptureUtils.kt:31-36 | a number capture with a weight and a short-scale flag has two parameters, so the as-written defect is reachable |
| SettingsGradle.IncludeGitRepos | settings.gradle.kts:65-78 | two libraries with distinct names, pinned at the commits given |
| SettingsGradle.ParseKeyValuePairs | settings.gradle.kts:81-98 | the loop returns exactly `KeyValuePairs`, removing each key from the valid set as it goes |
| SettingsGradle.AcceptedCons | settings.gradle.kts:87-95 | a list is accepted when its first piece names a still-valid library after a colon and the rest are accepted with that name used up |
| SettingsGradle.ParseSucceedsIff | settings.gradle.kts:87-96 | the loop finishes exactly when the pieces are accepted |
| SettingsGradle.ParseEntries | settings.gradle.kts:94-95 | a finished loop maps each piece's name to its value and keeps the entries it started with |
| SettingsGradle.ParseFailure | settings.gradle.kts:88-93 | a failing loop throws for the first piece that is not accepted |
| SettingsGradle.RestKeys | settings.gradle.kts:91-94 | after an accepted first piece no later piece repeats its name |
| SettingsGradle.KeyValuePairsSucceeds | settings.gradle.kts:81-98 | a blank setting means no local library. Otherwise parsing succeeds exactly when every comma-separated piece is `name:path` with a library name, none repeated |
| SettingsGradle.KeyValuePairsEntries | settings.gradle.kts:87-96 | on success the keys are exactly the pieces' names. Each name maps to all the text after its first colon, further colons included |
| SettingsGradle.KeyValuePairsFailure | settings.gradle.kts:88-93 | a failure names the first bad piece: "Invalid key-value pair specification" with its text when it has no colon, "Invalid name" with its name otherwise |
| SettingsGradle.NameSetSize | settings.gradle.kts:65-78 | there are as many names as libraries when no two share one |
| SettingsGradle.LocalLibrariesBound | settings.gradle.kts:86-95 | only libraries can be local, each once: there are never more local libraries than libraries |
| SettingsGradle.IncludeLibraries | settings.gradle.kts:109-158 | the two loops include exactly `Inclusions`: the local builds, then the git checkouts when some library is not local |
| SettingsGradle.LocalBuildsShape | settings.gradle.kts:110-117 | the local builds are exactly those of the libraries named in the setting, each with its path and coordinates |
| SettingsGradle.GitCheckoutsShape | settings.gradle.kts:140-158 | the checkouts are exactly those of the libraries not named in the setting, at their pinned commit |
| SettingsGradle.CheckoutsConfiguredIff | settings.gradle.kts:118-143 | `gitRepositories` is set up exactly when some library is not local |
| SettingsGradle.EachLibraryOneWay | settings.gradle.kts:109-158 | each library is included once, from its local path or from git, and only a non-local library is checked out |
| SettingsGradle.CheckoutsShape | settings.gradle.kts:109-158 | local builds cover the local libraries, and checkouts cover the others when configured |
| SettingsGradle.EveryLibraryIncluded | settings.gradle.kts:99-158 | the whole settings step includes each library one way: from the path the property gives it, or from git at its commit |

## Left out

- Concurrency is not modelled. Coroutines, `@Volatile` flags and `StateFlow` races are out of scope: each call and each background completion is one atomic step. A discarded listener's job (or a cancelled Scribe streaming job) that finishes late is not modelled, nor is the `activeListener === listener` check that guards it.
- Neural-network inference is a parameter. The preprocessor, the encoder and the decoder-joint network are functions given to the model. `runPreprocessor`, the ONNX tensor handling, and the LSTM state-shape computation (ParakeetListener.kt:404-416) are not modelled; the LSTM state is an opaque type.
- Floating point is not modelled. Logits and features are reals, with no NaN. Download progress and the Scribe silence threshold are advisory and not computed.
- ParakeetListening.Observe: silence is decided by comparing the sum of squares with 300² times the chunk size. This is the exact-arithmetic form of `sqrt(sum / n) < 300`; the rounding of the source's `Double` division and square root is not modelled.
- ParseInt: only the ASCII digits `0`-`9` count as decimal digits. Kotlin's `toIntOrNull` also accepts the other Unicode decimal digits, through `Character.digit`. So a vocabulary line whose id is written in, for example, Arabic-Indic digits is read by the source but skipped by the model (ParakeetInputDevice.kt:399).
- Destroy: it is built on the corrected `Deinit`. On a listening device, the source's `destroy()` ends in `Loaded` holding closed sessions. `DeinitAsWritten` and `DeinitAsWrittenFromListening` capture that behaviour (Findings row 1).
- TdtDecoding.ArgMax: the first maximal logit is chosen over reals, so `maxByOrNull` on NaN logits is not modelled.
- Hardware and I/O are not modelled. `AudioRecord` becomes the sequence of chunks it delivers, the exception a read throws, and what `getMinBufferSize`/`state` report; `stopRecording` and `releaseRecorder` only clear the flags. The model files, `downloadBinaryFilesWithPartial` and the sentinel file become parameters (their outcome and contents).
- Locale resolution is not modelled. The model URL is a parameter: `MODEL_URLS` and `LocaleUtils.resolveValueForSupportedLocale` are not part of this model.
- `ParakeetState.hashCode` is modelled only for `Loading`, the one variant that overrides it; the data-class hashes of the other variants are not modelled.
- Scribe networking is not modelled. OkHttp, JSON parsing and Base64 are out: a parsed message is the map of the fields `optString` sees, and a parse failure is its exception. `buildRealtimeUrl` (URI building and formatting of the silence threshold) is not modelled; the request appears only through the exception building it may throw.
- `StandardScore` is a parameter. `plus`, `score` and `keepBest` are functions given to the model. `normalizeMemToEnd` is not part of this model, so the constructs' results describe `memToEnd` just before it. The source of `addRefWeightEverywhere` is not part of this model: it is modelled as adding the reference weight to every slot, in place, as its uses in RangesConstruct.kt:43-53 describe.
- `MatchHelper`'s tables are inputs. `splitWords`, `splitWordsIndices`, `cumulativeWeight` and `cumulativeWhitespace` are given to the helper; the functions computing them are not part of this model.
- dicio-numbers is a parameter. `parserParams(helper)?.parsePossibleIntervals()` and the navigation skill's `extractNumber(...).preferOrdinal(true).mixedWithText` are functions given to the model. A decimal number is kept as its rendering.
- Unicode letters are a parameter. Which characters `\p{L}` matches is a predicate given to the model.
- Text.IsWhitespace: Kotlin's `isWhitespace` is modelled by a fixed list: the Java whitespace controls and the Unicode space separators. Other Unicode properties (case folding, normalisation) play no part.
- The navigation skill's Android side is not modelled: building the `geo:` URI with `String.format` and starting the activity. The model returns the cleaned place that the output carries.
- Sentences-compiler inputs are fields. `WordWithVariations.toJavaRegex()` and `Word.normalizedValue` come from the sentences compiler and are taken as fields of the construct. KotlinPoet is modelled only as far as its placeholders: a `CodeBlock` is its format and arguments, and "well formed" means one argument of the right kind per `%T`, `%S` or `%L`.
- In `settings.gradle.kts`, the commits that `findInVersionCatalog` reads are parameters. The JGit clone, fetch, checkout and delete steps inside `gitRepositories` are not modelled. A `local.properties` that cannot be read is modelled as a missing property, which reads as the empty setting.

## Findings

| source | as written | input that shows it | evidently intended | confidence | as-written member | corrected member |
|---|---|---|---|---|---|---|
| app/src/main/kotlin/org/stypox/dicio/io/input/parakeet/ParakeetInputDevice.kt:180-184 | `deinit` sets the state to NotInitialized, then in the Listening branch calls `stopListening(sessions, listener, false)`, which stores `Loaded(sessions)`. It then closes those same sessions (lines 167-171 repeat this after a load) | `destroy()` on a device that is listening: it ends in `Loaded` holding sessions that are already closed | `deinit` leaves the device NotInitialized and never keeps closed sessions | medium; not executed | ParakeetDevice.DeinitAsWrittenFromListening | ParakeetDevice.ParakeetInputDevice.Deinit |
| sentences-compiler-plugin/src/main/kotlin/org/stypox/dicio/sentencesCompilerPlugin/gen/GenerateConstruct.kt:74 | the named arguments `,name=spec` are joined with `joinToString`'s default separator `", "`, so two of them become `,weight=%Lf, ,shortScale=%L` | a number capture with a weight and a short-scale flag | the named arguments follow each other with no empty argument between them (joined with `""`) | high; not executed | GenerateConstructs.AsWrittenEmptyArgument | GenerateConstructs.CorrectedArgumentsNamed |

