/**
  * The speech analyzer object and the view's toggle. The analyzer's fields
  * are assigned and cleared in place, in the order the application does it;
  * what the frameworks do in reply is passed in, and what the analyzer does to
  * them is kept in ghost fields. Each method is proved to reach exactly the
  * state the matching function of SpeechSession computes.
  */
module ContentView {
  import opened Wrappers
  import opened SpeechSession

  class SpeechAnalyzer {
    var inputNode: Option<Handle>
    var speechRecognizer: Option<Handle>
    var recognitionRequest: Option<Handle>
    var recognitionTask: Option<Handle>

    var recognizedText: Option<string>
    var isProcessing: bool

    // Effects on the audio engine and the recognizer
    ghost var tapInstalled: bool
    ghost var engineRunning: bool
    ghost var cancelledTasks: seq<Handle>

    /** The analyzer as a value. */
    ghost function State(): AnalyzerState
      reads this
    {
      AnalyzerState(inputNode, speechRecognizer, recognitionRequest, recognitionTask,
                    recognizedText, isProcessing, tapInstalled, engineRunning, cancelledTasks)
    }

    ghost predicate Valid()
      reads this
    {
      Consistent(State())
    }

    constructor ()
      ensures Valid() && State() == Initial
    {
      inputNode, speechRecognizer, recognitionRequest, recognitionTask := None, None, None, None;
      recognizedText := None;
      isProcessing := false;
      tapInstalled, engineRunning, cancelledTasks := false, false, [];
    }

    /** Starts a session; the frameworks' replies come in `env`. */
    method Start(env: StartEnvironment)
      requires Valid() && !isProcessing
      modifies this
      ensures Valid()
      ensures State() == SpeechSession.Start(old(State()), env)
    {
      // A failure to configure the audio session is only logged.
      inputNode := Some(env.inputNode);
      speechRecognizer := RecognizerHandle(env.recognizer);
      recognitionRequest := Some(env.request);

      if !(speechRecognizer.Some? && RecognizerReady(env) &&
           recognitionRequest.Some? && inputNode.Some?) {
        return;
      }

      tapInstalled := true;
      recognitionTask := Some(env.task);

      if !env.engineStartThrows {
        engineRunning := true;
        isProcessing := true;
      } else {
        Stop();
      }
    }

    /** Tears the session down; safe in any state. */
    method Stop()
      modifies this
      ensures State() == SpeechSession.Stop(old(State()))
      ensures old(Valid()) ==> Valid() && IsIdle(State())
    {
      if recognitionTask.Some? {
        cancelledTasks := cancelledTasks + [recognitionTask.value];
      }

      engineRunning := false;
      if inputNode.Some? {
        tapInstalled := false;
      }

      isProcessing := false;

      recognitionRequest := None;
      recognitionTask := None;
      speechRecognizer := None;
      inputNode := None;
    }

    /** The recognition task's result handler. */
    method RecognitionTaskDidDeliver(result: Option<RecognitionResult>, hasError: bool)
      requires Valid()
      modifies this
      ensures Valid()
      ensures State() == OnRecognitionResult(old(State()), result, hasError)
    {
      recognizedText := if result.Some? then Some(result.value.formattedString) else None;

      if !(hasError || (result.Some? && result.value.isFinal)) {
        return;
      }
      Stop();
    }

    /** The recognizer delegate's availability handler. */
    method AvailabilityDidChange(available: bool)
      requires Valid()
      modifies this
      ensures Valid()
      ensures State() == OnAvailabilityChange(old(State()), available)
    {
      if !available {
        recognizedText := Some(UnavailableMessage);
        Stop();
      }
    }
  }

  class SpeechRecognitionView {
    const speechAnalyzer: SpeechAnalyzer

    constructor ()
      ensures fresh(speechAnalyzer)
      ensures speechAnalyzer.Valid() && speechAnalyzer.State() == Initial
    {
      speechAnalyzer := new SpeechAnalyzer();
    }

    /** The button's action: stop when processing, start otherwise. */
    method ToggleSpeechRecognition(env: StartEnvironment)
      requires speechAnalyzer.Valid()
      modifies speechAnalyzer
      ensures speechAnalyzer.Valid()
      ensures speechAnalyzer.State() == Toggle(old(speechAnalyzer.State()), env)
    {
      if speechAnalyzer.isProcessing {
        speechAnalyzer.Stop();
      } else {
        speechAnalyzer.Start(env);
      }
    }
  }
}
