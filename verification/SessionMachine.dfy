/** The interview session's states, and the words of events that are legal in them. */
module SessionMachine {
  import opened Prelude

  datatype SessionState =
    | Initializing | AiSpeaking | Listening | CandidateSpeaking | Processing | FollowUpDecision
    | AiResponding | Interrupted | Paused | Completed | ErrorRecovery

  datatype Event =
    | StartSpeaking | FinishedSpeaking | CandidateVoiceDetected | CandidateTurnEnded | ProcessingStarted
    | TurnDecided | InterviewComplete | BargeIn | Pause | Resume | Fault | Recovered

  datatype IllegalTransition = IllegalTransition(from: SessionState, event: Event)

  function Transition(state: SessionState, event: Event): Result<SessionState, IllegalTransition> {
    match (state, event)
    case (Initializing, StartSpeaking) => Ok(AiSpeaking)
    case (Initializing, Fault) => Ok(ErrorRecovery)
    case (AiSpeaking, FinishedSpeaking) => Ok(Listening)
    case (AiSpeaking, BargeIn) => Ok(Interrupted)
    case (AiSpeaking, Fault) => Ok(ErrorRecovery)
    case (AiSpeaking, Pause) => Ok(Paused)
    case (Listening, CandidateVoiceDetected) => Ok(CandidateSpeaking)
    case (Listening, Pause) => Ok(Paused)
    case (Listening, Fault) => Ok(ErrorRecovery)
    case (CandidateSpeaking, CandidateTurnEnded) => Ok(Processing)
    case (CandidateSpeaking, Pause) => Ok(Paused)
    case (CandidateSpeaking, Fault) => Ok(ErrorRecovery)
    case (Processing, ProcessingStarted) => Ok(Processing)
    case (Processing, TurnDecided) => Ok(FollowUpDecision)
    case (Processing, InterviewComplete) => Ok(Completed)
    case (Processing, Fault) => Ok(ErrorRecovery)
    case (FollowUpDecision, StartSpeaking) => Ok(AiResponding)
    case (FollowUpDecision, InterviewComplete) => Ok(Completed)
    case (FollowUpDecision, Fault) => Ok(ErrorRecovery)
    case (AiResponding, FinishedSpeaking) => Ok(Listening)
    case (AiResponding, BargeIn) => Ok(Interrupted)
    case (AiResponding, Fault) => Ok(ErrorRecovery)
    case (AiResponding, Pause) => Ok(Paused)
    case (AiResponding, InterviewComplete) => Ok(Completed)
    case (Interrupted, CandidateVoiceDetected) => Ok(CandidateSpeaking)
    case (Paused, Resume) => Ok(Listening)
    case (ErrorRecovery, Recovered) => Ok(Listening)
    case (ErrorRecovery, StartSpeaking) => Ok(AiSpeaking)
    case (ErrorRecovery, Fault) => Ok(ErrorRecovery)
    case _ => Err(IllegalTransition(state, event))
  }

  // ----- the same table read by columns -----

  predicate Speaks(state: SessionState) {
    state == AiSpeaking || state == AiResponding
  }

  predicate LegalIn(event: Event, state: SessionState) {
    match event
    case StartSpeaking => state == Initializing || state == FollowUpDecision || state == ErrorRecovery
    case FinishedSpeaking => Speaks(state)
    case BargeIn => Speaks(state)
    case CandidateVoiceDetected => state == Listening || state == Interrupted
    case CandidateTurnEnded => state == CandidateSpeaking
    case ProcessingStarted => state == Processing
    case TurnDecided => state == Processing
    case InterviewComplete => state == Processing || state == FollowUpDecision || state == AiResponding
    case Pause => Speaks(state) || state == Listening || state == CandidateSpeaking
    case Resume => state == Paused
    case Fault => state != Interrupted && state != Paused && state != Completed
    case Recovered => state == ErrorRecovery
  }

  /** Where an event leads, wherever it is legal; only speaking has two goals, the opening and a response. */
  function Goal(event: Event, state: SessionState): SessionState {
    match event
    case StartSpeaking => if state == FollowUpDecision then AiResponding else AiSpeaking
    case FinishedSpeaking => Listening
    case BargeIn => Interrupted
    case CandidateVoiceDetected => CandidateSpeaking
    case CandidateTurnEnded => Processing
    case ProcessingStarted => Processing
    case TurnDecided => FollowUpDecision
    case InterviewComplete => Completed
    case Pause => Paused
    case Resume => Listening
    case Fault => ErrorRecovery
    case Recovered => Listening
  }

  lemma TransitionByEvent(state: SessionState, event: Event)
    ensures Transition(state, event)
         == if LegalIn(event, state) then Ok(Goal(event, state)) else Err(IllegalTransition(state, event))
  {
    match state {
      case Initializing => case AiSpeaking => case Listening => case CandidateSpeaking => case Processing =>
      case FollowUpDecision => case AiResponding => case Interrupted => case Paused => case Completed => case ErrorRecovery =>
    }
  }

  /** Where a word of events leads, if all of them are legal. */
  function After(state: SessionState, word: seq<Event>): Option<SessionState> {
    if word == [] then Some(state)
    else
      var before := After(state, word[..|word| - 1]);
      if before.None? then None
      else
        var next := Transition(before.value, word[|word| - 1]);
        if next.Ok? then Some(next.value) else None
  }

  lemma AfterOne(state: SessionState, word: seq<Event>, e: Event)
    requires After(state, word).Some?
    ensures After(state, word + [e])
         == var next := Transition(After(state, word).value, e); if next.Ok? then Some(next.value) else None
  {
    assert (word + [e])[..|word|] == word;
  }

  /** Completed is final: no event is legal there, so a legal word meets it at its end only. */
  lemma {:induction false} CompletedIsFinal(state: SessionState, word: seq<Event>, i: nat)
    requires i <= |word| && After(state, word[..i]) == Some(Completed) && After(state, word).Some?
    ensures i == |word|
    decreases |word|
  {
    if i < |word| {
      var front := word[..|word| - 1];
      assert front[..i] == word[..i];
      if i < |front| {
        CompletedIsFinal(state, front, i);
      }
    }
  }
}
