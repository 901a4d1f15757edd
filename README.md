# Speech analyzer session lifecycle

A Dafny model of the one piece of logic in the SoundAnalysis demo app: the
session lifecycle of `SpeechAnalyzer` and the button toggle that drives it.
The analyzer holds four optional session handles (input node, speech
recognizer, recognition request, recognition task) and two published fields
(the recognized text and the processing flag). Four transitions change them:
`start()`, `stop()`, the recognition task's result callback and the
recognizer delegate's availability callback; the view's toggle calls `stop()`
while processing and `start()` otherwise.

- `wrappers.dfy` — `Option`, for Swift optionals.
- `speech_session.dfy` (module `SpeechSession`) — the analyzer as a value
  (`AnalyzerState`), the frameworks' replies to one `start()` as an input
  record (`StartEnvironment`: whether audio-session configuration throws, the
  recognizer or nil and whether it is available, the handles the frameworks
  create, whether the engine start throws), one function per transition, the
  consistency predicate every reachable state keeps, event sequences (`Run`)
  and the intended two-phase (Idle/Active) lifecycle (`AbstractStep`).
- `content_view.dfy` (module `ContentView`) — the `SpeechAnalyzer` class with
  the source's fields, whose methods assign and clear them step by step in the
  source's order, and the `SpeechRecognitionView` class with the toggle. The
  effects on the frameworks (tap installed on the input node, engine running,
  tasks cancelled) are ghost fields. Each method is proved to reach exactly
  the state the matching `SpeechSession` function computes, and to keep the
  class invariant `Valid()`.
- `session_properties.dfy` (module `SessionProperties`) — lemmas about the
  transition functions.

Where the app's intended behaviour and its code differ, the model follows the code:

- A `start()` whose recognizer is nil or unavailable does not leave the
  analyzer without handles: the input node, the recognizer and the request
  are assigned before the guard and stay assigned (`Start`,
  `UnreadyStartKeepsHandles`). So there is no "all handles present or all
  absent" invariant; `Consistent` only ties the task, the tap, the engine and
  the flag together and asks for every handle while processing.
- That guard failure is a plain early return (the release-build behaviour of
  `assertionFailure`), not a fatal error.
- `start()` has no re-entry guard. The model requires `!isProcessing` of it;
  the toggle only calls it then.
- `stop()` removes the tap through `inputNode?`, so it would leave a tap in
  place if the input node were nil. `Stop` states that; `Consistent` shows
  the case never arises.

## Model

| member | source | states |
|---|---|---|
| SpeechSession.Stop | TheSoundAnalysisDemo/ContentView.swift:79-91 | from any state: all four handles nil, not processing, engine stopped; the tap is gone unless there was no input node to remove it through; the text is kept; the current task, if any, is the one task cancelled |
| SpeechSession.Start | TheSoundAnalysisDemo/ContentView.swift:21-77 | text kept; recognizer nil or unavailable: early return with input node, recognizer and request assigned and no tap, task or processing; ready and engine started: processing with tap, running engine, the new task and all handles; engine start throws: ends idle through stop with the new task cancelled |
| SpeechSession.OnRecognitionResult | TheSoundAnalysisDemo/ContentView.swift:61-66 | the text becomes the latest transcription, or nil without a result, whatever it was; stop runs exactly when an error came or the result is final, and then every handle is released |
| SpeechSession.OnAvailabilityChange | TheSoundAnalysisDemo/ContentView.swift:93-101 | available: no change at all; unavailable: text is exactly "Text recognition unavailable. Sorry!", then stop, so handles released and not processing |
| SpeechSession.Toggle | TheSoundAnalysisDemo/ContentView.swift:133-139 | from a processing analyzer ends not processing with handles released and text kept; from an idle one ends processing exactly when the recognizer is ready and the engine starts |
| ContentView.SpeechAnalyzer.constructor | TheSoundAnalysisDemo/ContentView.swift:11-19 | a new analyzer has no handles, no text, is not processing, and satisfies the invariant |
| ContentView.SpeechAnalyzer.Start | TheSoundAnalysisDemo/ContentView.swift:21-77 | the in-place start reaches exactly `SpeechSession.Start` of the old state and keeps the invariant |
| ContentView.SpeechAnalyzer.Stop | TheSoundAnalysisDemo/ContentView.swift:79-91 | the in-place stop reaches exactly `SpeechSession.Stop` of the old state, from any state; from a valid state it ends idle and valid |
| ContentView.SpeechAnalyzer.RecognitionTaskDidDeliver | TheSoundAnalysisDemo/ContentView.swift:61-66 | the in-place result callback reaches exactly `OnRecognitionResult` of the old state and keeps the invariant |
| ContentView.SpeechAnalyzer.AvailabilityDidChange | TheSoundAnalysisDemo/ContentView.swift:93-101 | the in-place availability callback reaches exactly `OnAvailabilityChange` of the old state and keeps the invariant |
| ContentView.SpeechRecognitionView.constructor | TheSoundAnalysisDemo/ContentView.swift:109 | the view owns a fresh analyzer in its initial state |
| ContentView.SpeechRecognitionView.ToggleSpeechRecognition | TheSoundAnalysisDemo/ContentView.swift:133-139 | the toggle reaches exactly `Toggle` of the analyzer's old state and keeps its invariant |
| SessionProperties.StopIdempotent | TheSoundAnalysisDemo/ContentView.swift:79-91 | stopping twice gives the same state as stopping once |
| SessionProperties.StopFromConsistentIsIdle | TheSoundAnalysisDemo/ContentView.swift:79-91 | from a consistent state stop leaves no handle, tap, running engine or processing flag, keeps the text, and cancels the active task |
| SessionProperties.StopOnIdleIsNoOp | TheSoundAnalysisDemo/ContentView.swift:79-91 | stop on an idle analyzer changes nothing |
| SessionProperties.AudioSessionFailureIgnored | TheSoundAnalysisDemo/ContentView.swift:22-28 | start ends in the same state whether configuring the audio session throws or not |
| SessionProperties.StepPreservesConsistency | TheSoundAnalysisDemo/ContentView.swift:21-101 | every transition (toggle, result callback, availability callback) keeps flag, tap, engine and task in step |
| SessionProperties.RunPreservesConsistency | TheSoundAnalysisDemo/ContentView.swift:21-139 | every state reached from a consistent one by any sequence of events is consistent |
| SessionProperties.StepRefinesPhases | TheSoundAnalysisDemo/ContentView.swift:21-139 | each event moves the processing flag as the intended Idle/Active lifecycle does |
| SessionProperties.RunRefinesPhases | TheSoundAnalysisDemo/ContentView.swift:21-139 | over any event sequence the processing flag follows the intended Idle/Active lifecycle |
| SessionProperties.LatestResultWins | TheSoundAnalysisDemo/ContentView.swift:61-62 | after any two results, final or failed or not, the text is the second one's transcription (or nil without a result): callbacks overwrite, never accumulate |
| SessionProperties.PartialThenFinal | TheSoundAnalysisDemo/ContentView.swift:61-76 | start, partial "hel", final "hello": text "hello", analyzer idle, the session's task cancelled |
| SessionProperties.UnavailableMidSession | TheSoundAnalysisDemo/ContentView.swift:93-101 | start then loss of availability: text is the unavailable message and the analyzer is idle |
| SessionProperties.UnreadyStartKeepsHandles | TheSoundAnalysisDemo/ContentView.swift:30-52 | a toggle from idle with no ready recognizer starts nothing but leaves input node and request (and a created recognizer) assigned |

## Left out

- Audio data: the tap's block appending buffers to the request, the buffer size and the recording format are not modelled; a tap is a ghost flag.
- The frameworks themselves (audio session, engine, input node, recognizer, task): only their outcomes are modelled, as the inputs of `StartEnvironment` and of the callbacks. `audioEngine.prepare()` has no modelled effect, and neither has activating the audio session.
- Setting the analyzer as the recognizer's delegate is not modelled; the availability callback may arrive in any state.
- Threading of the callbacks and `@Published` change propagation: each callback is one atomic transition.
- `[weak self]` in the result callback: the analyzer is assumed to be alive when a callback arrives.
- Logging (`print`), the on-device recognition diagnostic, and the debug-build trap of `assertionFailure`.
- The SwiftUI layout, rendering and preview, and the app entry point.
