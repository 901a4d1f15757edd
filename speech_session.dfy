/**
  * The session lifecycle of the speech analyzer as values: one snapshot of the
  * analyzer's fields (and of the effects it has had on the audio engine and the
  * recognizer), and one function per transition. The class in module
  * ContentView performs these transitions step by step and is proved to reach
  * exactly the snapshot these functions compute.
  */
module SpeechSession {
  import opened Wrappers

  /** Identity of an object created by the audio or speech framework. */
  type Handle = nat

  /** The text shown after the recognizer reports that it became unavailable. */
  const UnavailableMessage: string := "Text recognition unavailable. Sorry!"

  /**
    * Everything the analyzer holds: its four optional session handles, its two
    * published fields, and three records of what it has done to the frameworks
    * (whether a tap is installed on the input node, whether the audio engine
    * runs, and the tasks it has cancelled, in order).
    */
  datatype AnalyzerState = AnalyzerState(
    inputNode: Option<Handle>,
    speechRecognizer: Option<Handle>,
    recognitionRequest: Option<Handle>,
    recognitionTask: Option<Handle>,
    recognizedText: Option<string>,
    isProcessing: bool,
    tapInstalled: bool,
    engineRunning: bool,
    cancelledTasks: seq<Handle>)

  /** A recognizer created by the speech framework, and whether it is available. */
  datatype Recognizer = Recognizer(handle: Handle, isAvailable: bool)

  /**
    * What the frameworks do during one call of start: whether configuring the
    * audio session throws, the engine's input node, the recognizer (none when
    * the framework's failable initializer gives nil), the new request, the task
    * that submitting the request creates, and whether starting the engine throws.
    */
  datatype StartEnvironment = StartEnvironment(
    audioSessionThrows: bool,
    inputNode: Handle,
    recognizer: Option<Recognizer>,
    request: Handle,
    task: Handle,
    engineStartThrows: bool)

  /** A result delivered by the recognition task: its best transcription and whether it is final. */
  datatype RecognitionResult = RecognitionResult(formattedString: string, isFinal: bool)

  /** The analyzer as the view first creates it. */
  const Initial: AnalyzerState :=
    AnalyzerState(None, None, None, None, None, false, false, false, [])

  /** All four session handles are nil. */
  predicate HandlesReleased(s: AnalyzerState) {
    s.inputNode.None? && s.speechRecognizer.None? &&
    s.recognitionRequest.None? && s.recognitionTask.None?
  }

  /** No session at all: handles released, nothing installed, nothing running. */
  predicate IsIdle(s: AnalyzerState) {
    HandlesReleased(s) && !s.isProcessing && !s.tapInstalled && !s.engineRunning
  }

  /**
    * The consistency every reachable state keeps: the processing flag, the
    * installed tap, the running engine and the presence of a task go together,
    * and a processing analyzer holds all four handles. Handles without
    * processing are allowed: an aborted start leaves three of them set.
    */
  predicate Consistent(s: AnalyzerState) {
    (s.isProcessing <==> s.tapInstalled) &&
    (s.isProcessing <==> s.engineRunning) &&
    (s.isProcessing <==> s.recognitionTask.Some?) &&
    (s.isProcessing ==> s.inputNode.Some? && s.speechRecognizer.Some? && s.recognitionRequest.Some?)
  }

  /**
    * stop: cancel the task if any, stop the engine, remove the tap through the
    * input node if any, clear the flag, release all four handles.
    */
  function Stop(s: AnalyzerState): (r: AnalyzerState)
    ensures HandlesReleased(r) && !r.isProcessing && !r.engineRunning
    ensures r.tapInstalled <==> s.tapInstalled && s.inputNode.None?
    ensures r.recognizedText == s.recognizedText
    ensures s.recognitionTask.Some? ==> r.cancelledTasks == s.cancelledTasks + [s.recognitionTask.value]
    ensures s.recognitionTask.None? ==> r.cancelledTasks == s.cancelledTasks
  {
    var cancelled := if s.recognitionTask.Some? then s.cancelledTasks + [s.recognitionTask.value]
                     else s.cancelledTasks;
    var tap := if s.inputNode.Some? then false else s.tapInstalled;
    s.(cancelledTasks := cancelled, engineRunning := false, tapInstalled := tap,
       isProcessing := false,
       recognitionRequest := None, recognitionTask := None,
       speechRecognizer := None, inputNode := None)
  }

  /** The guard of start: a recognizer exists and reports itself available. */
  predicate RecognizerReady(env: StartEnvironment) {
    env.recognizer.Some? && env.recognizer.value.isAvailable
  }

  function RecognizerHandle(recognizer: Option<Recognizer>): Option<Handle> {
    if recognizer.Some? then Some(recognizer.value.handle) else None
  }

  /**
    * start. A failing audio-session configuration is only logged. The input
    * node, the recognizer and the request are assigned before the guard; when
    * the guard fails start returns with those three handles set. Otherwise it
    * installs the tap, creates the task and starts the engine; when that throws
    * it ends through stop.
    */
  function Start(s: AnalyzerState, env: StartEnvironment): (r: AnalyzerState)
    requires !s.isProcessing
    ensures r.recognizedText == s.recognizedText
    ensures !RecognizerReady(env) ==>
      r.isProcessing == s.isProcessing && r.tapInstalled == s.tapInstalled &&
      r.engineRunning == s.engineRunning && r.recognitionTask == s.recognitionTask &&
      r.cancelledTasks == s.cancelledTasks &&
      r.inputNode == Some(env.inputNode) && r.recognitionRequest == Some(env.request) &&
      r.speechRecognizer == RecognizerHandle(env.recognizer)
    ensures RecognizerReady(env) && !env.engineStartThrows ==>
      r.isProcessing && r.tapInstalled && r.engineRunning &&
      r.recognitionTask == Some(env.task) && r.inputNode == Some(env.inputNode) &&
      r.speechRecognizer == Some(env.recognizer.value.handle) &&
      r.recognitionRequest == Some(env.request) && r.cancelledTasks == s.cancelledTasks
    ensures RecognizerReady(env) && env.engineStartThrows ==>
      IsIdle(r) && r.cancelledTasks == s.cancelledTasks + [env.task]
  {
    // env.audioSessionThrows is caught and logged only
    var prepared := s.(inputNode := Some(env.inputNode),
                       speechRecognizer := RecognizerHandle(env.recognizer),
                       recognitionRequest := Some(env.request));
    if !(prepared.speechRecognizer.Some? && RecognizerReady(env) &&
         prepared.recognitionRequest.Some? && prepared.inputNode.Some?) then
      prepared
    else
      var submitted := prepared.(tapInstalled := true, recognitionTask := Some(env.task));
      if env.engineStartThrows then Stop(submitted)
      else submitted.(engineRunning := true, isProcessing := true)
  }

  /** The transcription a callback carries: the result's text, or nil without a result. */
  function Transcription(result: Option<RecognitionResult>): Option<string> {
    if result.Some? then Some(result.value.formattedString) else None
  }

  /** The condition under which the result callback ends the session. */
  predicate EndsSession(result: Option<RecognitionResult>, hasError: bool) {
    hasError || (result.Some? && result.value.isFinal)
  }

  /**
    * The recognition task's callback: overwrite the text with the latest
    * transcription, then stop when an error came or the result is final.
    */
  function OnRecognitionResult(s: AnalyzerState, result: Option<RecognitionResult>, hasError: bool): (r: AnalyzerState)
    ensures r.recognizedText == Transcription(result)
    ensures EndsSession(result, hasError) ==> HandlesReleased(r) && !r.isProcessing && !r.engineRunning
    ensures EndsSession(result, hasError) ==> r == Stop(s.(recognizedText := r.recognizedText))
    ensures !EndsSession(result, hasError) ==> r == s.(recognizedText := r.recognizedText)
  {
    var updated := s.(recognizedText := Transcription(result));
    if EndsSession(result, hasError) then Stop(updated) else updated
  }

  /**
    * The recognizer delegate's availability callback: when the recognizer
    * becomes unavailable, show the fixed message and stop; otherwise only log.
    */
  function OnAvailabilityChange(s: AnalyzerState, available: bool): (r: AnalyzerState)
    ensures available ==> r == s
    ensures !available ==> r.recognizedText == Some(UnavailableMessage) && HandlesReleased(r) && !r.isProcessing
    ensures !available ==> r == Stop(s.(recognizedText := Some(UnavailableMessage)))
  {
    if available then s else Stop(s.(recognizedText := Some(UnavailableMessage)))
  }

  /** The view's toggle: stop an active session, start one otherwise. */
  function Toggle(s: AnalyzerState, env: StartEnvironment): (r: AnalyzerState)
    ensures s.isProcessing ==> !r.isProcessing && HandlesReleased(r) && r.recognizedText == s.recognizedText
    ensures !s.isProcessing ==> (r.isProcessing <==> RecognizerReady(env) && !env.engineStartThrows)
  {
    if s.isProcessing then Stop(s) else Start(s, env)
  }

  /** The events that drive the analyzer: a tap on the button and the two callbacks. */
  datatype Event =
    | TogglePressed(env: StartEnvironment)
    | ResultDelivered(result: Option<RecognitionResult>, hasError: bool)
    | AvailabilityChanged(available: bool)

  function Step(s: AnalyzerState, e: Event): AnalyzerState {
    match e
    case TogglePressed(env) => Toggle(s, env)
    case ResultDelivered(result, hasError) => OnRecognitionResult(s, result, hasError)
    case AvailabilityChanged(available) => OnAvailabilityChange(s, available)
  }

  /** The state after a sequence of events, each handled atomically in order. */
  function Run(s: AnalyzerState, events: seq<Event>): AnalyzerState
    decreases |events|
  {
    if events == [] then s else Run(Step(s, events[0]), events[1..])
  }

  /** The two steady phases of the intended lifecycle. */
  datatype Phase = Idle | Active

  function PhaseOf(s: AnalyzerState): Phase {
    if s.isProcessing then Active else Idle
  }

  /**
    * The intended two-phase (Idle/Active) lifecycle, stated independently of the fields: a
    * tap ends an active session and starts one that becomes active exactly
    * when the recognizer is ready and the engine starts; a terminal result or
    * lost availability ends the session; anything else leaves the phase.
    */
  function AbstractStep(p: Phase, e: Event): Phase {
    match e
    case TogglePressed(env) =>
      if p == Active then Idle
      else if RecognizerReady(env) && !env.engineStartThrows then Active else Idle
    case ResultDelivered(result, hasError) =>
      if EndsSession(result, hasError) then Idle else p
    case AvailabilityChanged(available) =>
      if available then p else Idle
  }

  function AbstractRun(p: Phase, events: seq<Event>): Phase
    decreases |events|
  {
    if events == [] then p else AbstractRun(AbstractStep(p, events[0]), events[1..])
  }
}
