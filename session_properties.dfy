/**
  * What the lifecycle guarantees, proved about the transition functions of
  * SpeechSession: teardown is total and idempotent, callbacks overwrite the
  * text, every reachable state is consistent, and the analyzer follows the
  * intended two-phase (Idle/Active) lifecycle over any sequence of events.
  */
module SessionProperties {
  import opened Wrappers
  import opened SpeechSession

  /** Stopping twice is stopping once. */
  lemma StopIdempotent(s: AnalyzerState)
    ensures Stop(Stop(s)) == Stop(s)
  {
  }

  /** Stop from a consistent state leaves nothing behind and keeps the text. */
  lemma StopFromConsistentIsIdle(s: AnalyzerState)
    requires Consistent(s)
    ensures IsIdle(Stop(s)) && Consistent(Stop(s))
    ensures Stop(s).recognizedText == s.recognizedText
    ensures s.isProcessing ==> Stop(s).cancelledTasks == s.cancelledTasks + [s.recognitionTask.value]
  {
  }

  /** Stop on an idle analyzer changes nothing. */
  lemma StopOnIdleIsNoOp(s: AnalyzerState)
    requires IsIdle(s)
    ensures Stop(s) == s
  {
  }

  /** Whether configuring the audio session throws makes no difference to start. */
  lemma AudioSessionFailureIgnored(s: AnalyzerState, env: StartEnvironment)
    requires !s.isProcessing
    ensures Start(s, env.(audioSessionThrows := true)) == Start(s, env.(audioSessionThrows := false))
  {
  }

  /** Each event keeps the analyzer consistent. */
  lemma StepPreservesConsistency(s: AnalyzerState, e: Event)
    requires Consistent(s)
    ensures Consistent(Step(s, e))
  {
  }

  /** Every state reachable from a consistent one is consistent. */
  lemma {:induction false} RunPreservesConsistency(s: AnalyzerState, events: seq<Event>)
    requires Consistent(s)
    ensures Consistent(Run(s, events))
    decreases |events|
  {
    if events != [] {
      StepPreservesConsistency(s, events[0]);
      RunPreservesConsistency(Step(s, events[0]), events[1..]);
    }
  }

  /** Each event moves a consistent analyzer as the intended Idle/Active lifecycle does. */
  lemma StepRefinesPhases(s: AnalyzerState, e: Event)
    requires Consistent(s)
    ensures PhaseOf(Step(s, e)) == AbstractStep(PhaseOf(s), e)
  {
  }

  /** Over any sequence of events the analyzer's phase is the intended lifecycle's. */
  lemma {:induction false} RunRefinesPhases(s: AnalyzerState, events: seq<Event>)
    requires Consistent(s)
    ensures PhaseOf(Run(s, events)) == AbstractRun(PhaseOf(s), events)
    decreases |events|
  {
    if events != [] {
      StepRefinesPhases(s, events[0]);
      StepPreservesConsistency(s, events[0]);
      RunRefinesPhases(Step(s, events[0]), events[1..]);
    }
  }

  /**
    * Two results in a row, whatever the first one was (final, failed, or
    * arriving after the session ended): the second one's text is what remains.
    */
  lemma LatestResultWins(s: AnalyzerState, first: Option<RecognitionResult>, firstHasError: bool,
                         second: Option<RecognitionResult>, secondHasError: bool)
    ensures OnRecognitionResult(OnRecognitionResult(s, first, firstHasError), second, secondHasError).recognizedText
            == Transcription(second)
  {
  }

  /** A session that started successfully. */
  predicate StartsSession(env: StartEnvironment) {
    RecognizerReady(env) && !env.engineStartThrows
  }

  /** A tap from idle, partial "hel", final "hello": the text is "hello" and the session is over. */
  lemma PartialThenFinal(s: AnalyzerState, env: StartEnvironment)
    requires Consistent(s) && !s.isProcessing && StartsSession(env)
    ensures var r := Run(s, [TogglePressed(env),
                             ResultDelivered(Some(RecognitionResult("hel", false)), false),
                             ResultDelivered(Some(RecognitionResult("hello", true)), false)]);
            r.recognizedText == Some("hello") && IsIdle(r) &&
            r.cancelledTasks == s.cancelledTasks + [env.task]
  {
    var events := [TogglePressed(env),
                   ResultDelivered(Some(RecognitionResult("hel", false)), false),
                   ResultDelivered(Some(RecognitionResult("hello", true)), false)];
    var s1 := Step(s, events[0]);
    var s2 := Step(s1, events[1]);
    assert s2.recognizedText == Some("hel") && s2.isProcessing;
    assert Run(s, events) == Run(s2, events[2..]);
  }

  /** Losing availability mid-session shows the message and ends the session. */
  lemma UnavailableMidSession(s: AnalyzerState, env: StartEnvironment)
    requires Consistent(s) && !s.isProcessing && StartsSession(env)
    ensures var r := Run(s, [TogglePressed(env), AvailabilityChanged(false)]);
            r.recognizedText == Some(UnavailableMessage) && IsIdle(r)
  {
    var events := [TogglePressed(env), AvailabilityChanged(false)];
    assert Run(s, events) == Run(Step(s, events[0]), events[1..]);
  }

  /** A start whose recognizer is missing or unavailable keeps three handles but starts nothing. */
  lemma UnreadyStartKeepsHandles(s: AnalyzerState, env: StartEnvironment)
    requires Consistent(s) && !s.isProcessing && !RecognizerReady(env)
    ensures var r := Toggle(s, env);
            !r.isProcessing && !r.tapInstalled && !r.engineRunning && r.recognitionTask.None? &&
            r.inputNode.Some? && r.recognitionRequest.Some? &&
            (env.recognizer.Some? ==> r.speechRecognizer.Some?)
  {
  }
}
