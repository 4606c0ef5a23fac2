/**
 The browser socket's handler: one interview as the loop that speaks, listens,
 and hands the candidate's answers over, whatever arrives in whatever order.
 */
module InterviewSocket {
  import opened Prelude
  import opened Bytes
  import opened Vad
  import opened VadDetector
  import opened SessionMachine

  datatype Incoming = Audio(bytes: seq<Byte>) | CloseFrame | OtherMessage | ReadError | EndOfStream

  datatype TtsItem = Chunk | Broken | Exhausted

  datatype Reply = Reply(isComplete: bool)

  /**
   What the world answers at one suspension point of the handler. Each point
   looks at the part it waits for. An incoming message wins over speech, as the
   biased selection has it.
   */
  datatype Moment = Moment(
    incoming: Option<Incoming>, tts: TtsItem, sendFails: bool, opens: bool, played: bool,
    transcribes: bool, reply: Option<Reply>)

  /** `Cut`: the schedule ends while the handler is still waiting. */
  datatype Outcome = Finished | BargedIn | Ended | Closed | TooLong | Failed | Cut

  function Count(word: seq<Event>, e: Event): nat {
    if word == [] then 0
    else Count(word[..|word| - 1], e) + (if word[|word| - 1] == e then 1 else 0)
  }

  lemma CountOne(word: seq<Event>, e: Event)
    ensures forall x :: Count(word + [e], x) == Count(word, x) + (if e == x then 1 else 0)
  {
    assert (word + [e])[..|word|] == word;
  }

  // ----- what the messages decide -----

  /** The detector and the capture after the audio among some moments, and the events of the last one. */
  function HeardBy(ear: Ear, start: Captured, moments: seq<Moment>): Captured {
    if moments == [] then start.(events := [])
    else
      var before := HeardBy(ear, start, moments[..|moments| - 1]);
      match moments[|moments| - 1].incoming
      case Some(Audio(bytes)) => PushCapturing(ear, before.detector, bytes, before.capture)
      case _ => before.(events := [])
  }

  lemma HeardOne(ear: Ear, start: Captured, schedule: seq<Moment>, from: nat, at: nat)
    requires from <= at < |schedule|
    ensures var before := HeardBy(ear, start, schedule[from..at]);
            HeardBy(ear, start, schedule[from..at + 1])
            == match schedule[at].incoming
               case Some(Audio(bytes)) => PushCapturing(ear, before.detector, bytes, before.capture)
               case _ => before.(events := [])
  {
    assert schedule[from..at + 1][..at - from] == schedule[from..at];
  }

  predicate HangsUp(incoming: Incoming) {
    incoming == CloseFrame || incoming == ReadError || incoming == EndOfStream
  }

  /** What a message decides while listening, when `heard` is what has been heard with it. */
  function ListenDecision(heard: Captured, incoming: Option<Incoming>, maxUtteranceBytes: nat): Option<Outcome> {
    if incoming.None? then None
    else if HangsUp(incoming.value) then Some(Closed)
    else if !incoming.value.Audio? then None
    else if |heard.capture| > maxUtteranceBytes then Some(TooLong)
    else if TurnEnded in heard.events then Some(Ended)
    else None
  }

  /** What a message decides while speaking. */
  function HearDecision(heard: Captured, incoming: Incoming, maxUtteranceBytes: nat): Option<Outcome> {
    if HangsUp(incoming) then Some(Closed)
    else if !incoming.Audio? then None
    else if |heard.capture| > maxUtteranceBytes then Some(TooLong)
    else if SpeechStarted in heard.events then Some(BargedIn)
    else None
  }

  /** The synthesized speech has come to its end before moment k. */
  ghost predicate RunOut(schedule: seq<Moment>, from: nat, k: nat)
    requires k <= |schedule|
  {
    exists j :: from < j < k && schedule[j].incoming.None? && schedule[j].tts == Exhausted
  }

  /** What moment k decides about a speech that was requested at moment `from`. */
  ghost function SpeakDecision(ear: Ear, start: Captured, schedule: seq<Moment>, from: nat, maxUtteranceBytes: nat, k: nat)
    : Option<Outcome>
    requires from <= k < |schedule|
  {
    var m := schedule[k];
    if k == from then if m.opens then None else Some(Failed)
    else if RunOut(schedule, from, k) && (m.played || m.incoming.None?) then Some(Finished)
    else if m.incoming.Some? then
      HearDecision(HeardBy(ear, start, schedule[from + 1..k + 1]), m.incoming.value, maxUtteranceBytes)
    else
      match m.tts
      case Chunk => if m.sendFails then Some(Closed) else None
      case Broken => Some(Failed)
      case Exhausted => None
  }

  /** The outcome of a speech is what the first deciding moment decides, which is the last one looked at. */
  ghost predicate Spoken(ear: Ear, start: Captured, schedule: seq<Moment>, from: nat, maxUtteranceBytes: nat, outcome: Outcome, at: nat)
  {
    && from <= at <= |schedule|
    && (outcome == Cut ==> at == |schedule|)
    && (outcome != Cut ==> from < at)
    && (outcome != Cut ==> SpeakDecision(ear, start, schedule, from, maxUtteranceBytes, at - 1) == Some(outcome))
    && (forall k :: from <= k < at - (if outcome == Cut then 0 else 1) ==>
         SpeakDecision(ear, start, schedule, from, maxUtteranceBytes, k) == None)
  }

  /** No moment before `at` decides anything. */
  ghost predicate NoneSpoken(ear: Ear, start: Captured, schedule: seq<Moment>, from: nat, maxUtteranceBytes: nat, at: nat)
    requires at <= |schedule|
  {
    forall k :: from <= k < at ==> SpeakDecision(ear, start, schedule, from, maxUtteranceBytes, k) == None
  }

  lemma NothingSpoken(ear: Ear, start: Captured, schedule: seq<Moment>, from: nat, maxUtteranceBytes: nat)
    requires from == |schedule|
    ensures Spoken(ear, start, schedule, from, maxUtteranceBytes, Cut, from)
  {
  }

  lemma FirstFails(ear: Ear, start: Captured, schedule: seq<Moment>, from: nat, maxUtteranceBytes: nat)
    requires from < |schedule| && !schedule[from].opens
    ensures Spoken(ear, start, schedule, from, maxUtteranceBytes, Failed, from + 1)
  {
  }

  lemma FirstOpens(ear: Ear, start: Captured, schedule: seq<Moment>, from: nat, maxUtteranceBytes: nat)
    requires from < |schedule| && schedule[from].opens
    ensures NoneSpoken(ear, start, schedule, from, maxUtteranceBytes, from + 1) && !RunOut(schedule, from, from + 1)
  {
  }

  lemma SpokenCut(ear: Ear, start: Captured, schedule: seq<Moment>, from: nat, maxUtteranceBytes: nat)
    requires from <= |schedule| && NoneSpoken(ear, start, schedule, from, maxUtteranceBytes, |schedule|)
    ensures Spoken(ear, start, schedule, from, maxUtteranceBytes, Cut, |schedule|)
  {
    hide SpeakDecision;
  }

  lemma OneDecides(ear: Ear, start: Captured, schedule: seq<Moment>, from: nat, maxUtteranceBytes: nat, outcome: Outcome, at: nat)
    requires from < at <= |schedule| && outcome != Cut && NoneSpoken(ear, start, schedule, from, maxUtteranceBytes, at - 1)
    requires SpeakDecision(ear, start, schedule, from, maxUtteranceBytes, at - 1) == Some(outcome)
    ensures Spoken(ear, start, schedule, from, maxUtteranceBytes, outcome, at)
  {
    hide SpeakDecision;
  }

  lemma NoneSpokenGrows(ear: Ear, start: Captured, schedule: seq<Moment>, from: nat, maxUtteranceBytes: nat, at: nat)
    requires from < at <= |schedule| && NoneSpoken(ear, start, schedule, from, maxUtteranceBytes, at - 1)
    requires SpeakDecision(ear, start, schedule, from, maxUtteranceBytes, at - 1) == None
    ensures NoneSpoken(ear, start, schedule, from, maxUtteranceBytes, at)
  {
    hide SpeakDecision;
  }

  lemma RunOutGrows(schedule: seq<Moment>, from: nat, at: nat)
    requires from + 1 < at <= |schedule|
    ensures RunOut(schedule, from, at)
       <==> RunOut(schedule, from, at - 1) || (schedule[at - 1].incoming.None? && schedule[at - 1].tts == Exhausted)
  {
  }

  lemma NothingHeard(ear: Ear, start: Captured, schedule: seq<Moment>, from: nat)
    requires from <= |schedule|
    ensures HeardBy(ear, start, schedule[from..from]) == start.(events := [])
  {
  }

  /** The outcome of listening, in the same way. */
  ghost predicate Listened(ear: Ear, start: Captured, schedule: seq<Moment>, from: nat, maxUtteranceBytes: nat, outcome: Outcome, at: nat)
  {
    && from <= at <= |schedule|
    && (outcome == Cut ==> at == |schedule|)
    && (outcome != Cut ==> from < at)
    && (outcome != Cut ==>
         ListenDecision(HeardBy(ear, start, schedule[from..at]), schedule[at - 1].incoming, maxUtteranceBytes) == Some(outcome))
    && (forall k :: from <= k < at - (if outcome == Cut then 0 else 1) ==>
         ListenDecision(HeardBy(ear, start, schedule[from..k + 1]), schedule[k].incoming, maxUtteranceBytes) == None)
  }

  ghost predicate NoneListened(ear: Ear, start: Captured, schedule: seq<Moment>, from: nat, maxUtteranceBytes: nat, at: nat)
    requires at <= |schedule|
  {
    forall k :: from <= k < at ==>
      ListenDecision(HeardBy(ear, start, schedule[from..k + 1]), schedule[k].incoming, maxUtteranceBytes) == None
  }

  lemma NoneListenedYet(ear: Ear, start: Captured, schedule: seq<Moment>, from: nat, maxUtteranceBytes: nat)
    requires from <= |schedule|
    ensures NoneListened(ear, start, schedule, from, maxUtteranceBytes, from)
  {
  }

  lemma ListenedCut(ear: Ear, start: Captured, schedule: seq<Moment>, from: nat, maxUtteranceBytes: nat)
    requires from <= |schedule| && NoneListened(ear, start, schedule, from, maxUtteranceBytes, |schedule|)
    ensures Listened(ear, start, schedule, from, maxUtteranceBytes, Cut, |schedule|)
  {
    hide HeardBy, ListenDecision;
  }

  lemma OneEnds(ear: Ear, start: Captured, schedule: seq<Moment>, from: nat, maxUtteranceBytes: nat, outcome: Outcome, at: nat)
    requires from < at <= |schedule| && outcome != Cut && NoneListened(ear, start, schedule, from, maxUtteranceBytes, at - 1)
    requires ListenDecision(HeardBy(ear, start, schedule[from..at]), schedule[at - 1].incoming, maxUtteranceBytes) == Some(outcome)
    ensures Listened(ear, start, schedule, from, maxUtteranceBytes, outcome, at)
  {
    hide HeardBy, ListenDecision;
  }

  lemma NoneListenedGrows(ear: Ear, start: Captured, schedule: seq<Moment>, from: nat, maxUtteranceBytes: nat, at: nat)
    requires from < at <= |schedule| && NoneListened(ear, start, schedule, from, maxUtteranceBytes, at - 1)
    requires ListenDecision(HeardBy(ear, start, schedule[from..at]), schedule[at - 1].incoming, maxUtteranceBytes) == None
    ensures NoneListened(ear, start, schedule, from, maxUtteranceBytes, at)
  {
    hide HeardBy, ListenDecision;
  }

  /** The events a speech leads to once it is over. */
  function EventsAfter(outcome: Outcome): seq<Event> {
    match outcome
    case Finished => [FinishedSpeaking]
    case BargedIn => [BargeIn, CandidateVoiceDetected]
    case _ => []
  }

  /** A fault met while an answer was being processed. */
  predicate ProcessingFault(word: seq<Event>, i: nat)
    requires i < |word|
  {
    word[i] == Fault && After(Initializing, word[..i]) == Some(Processing)
  }

  /** No such fault, or only within the last n events. */
  ghost predicate FaultsWithin(word: seq<Event>, n: nat) {
    forall i :: 0 <= i < |word| && ProcessingFault(word, i) ==> |word| <= i + n
  }

  lemma FaultsWithinGrows(word: seq<Event>, e: Event, n: nat)
    requires FaultsWithin(word, n) && After(Initializing, word).Some?
    ensures FaultsWithin(word + [e], n + 1)
    ensures n == 0 && !(e == Fault && After(Initializing, word) == Some(Processing)) ==> FaultsWithin(word + [e], 0)
  {
    var longer := word + [e];
    forall i | 0 <= i < |longer| && ProcessingFault(longer, i)
      ensures i == |word| || ProcessingFault(word, i)
    {
      assert longer[..i] == if i < |word| then word[..i] else word;
    }
    assert longer[..|word|] == word;
  }

  lemma FaultsWithinMore(word: seq<Event>, m: nat, n: nat)
    requires FaultsWithin(word, m) && m <= n
    ensures FaultsWithin(word, n)
  {
  }

  class Interview {
    const vad: TurnDetector
    const maxUtteranceBytes: nat
    var state: SessionState
    var utteranceBuf: seq<Byte>
    var turnNumber: nat
    /** The legal events applied, and how many were swallowed as illegal. */
    ghost var history: seq<Event>
    ghost var swallowed: nat
    /** The audio received since the detector was last reset, and the answers handed over. */
    ghost var received: seq<Byte>
    ghost var handedOver: seq<seq<Byte>>

    constructor (ear: Ear, silenceMs: nat, maxUtteranceBytes: nat)
      ensures Valid() && fresh(vad) && swallowed == 0
      ensures state == Initializing && history == [] && handedOver == [] && !vad.inSpeech
      ensures this.maxUtteranceBytes == maxUtteranceBytes
    {
      vad := new TurnDetector(ear, silenceMs);
      this.maxUtteranceBytes := maxUtteranceBytes;
      state, utteranceBuf, turnNumber := Initializing, [], 0;
      history, swallowed, received, handedOver := [], 0, [], [];
    }

    ghost predicate AnswersBounded()
      reads this
    {
      forall i :: 0 <= i < |handedOver| ==> 0 < |handedOver[i]| <= maxUtteranceBytes
    }

    ghost predicate Sound()
      reads this, vad
    {
      && vad.State().Valid()
      && After(Initializing, history) == Some(state)
      && turnNumber == Count(history, TurnDecided)
      && CapturesSince(vad.State(), utteranceBuf, received)
      && AnswersBounded()
      && |handedOver| >= turnNumber
    }

    /** One answer has been handed over for each turn that ended. */
    ghost predicate Valid()
      reads this, vad
    {
      Sound() && |handedOver| == Count(history, CandidateTurnEnded)
    }

    /** What has been heard so far, as the next message finds it. */
    ghost function SoFar(): Captured
      reads this, vad
    {
      Captured(vad.State(), utteranceBuf, [])
    }

    /** `apply` */
    method Apply(event: Event)
      requires After(Initializing, history) == Some(state)
      modifies this`state, this`history, this`swallowed
      ensures After(Initializing, history) == Some(state)
      ensures var next := Transition(old(state), event);
              if next.Ok? then state == next.value && history == old(history) + [event] && swallowed == old(swallowed)
              else state == old(state) && history == old(history) && swallowed == old(swallowed) + 1
    {
      match Transition(state, event)
      case Ok(next) =>
        AfterOne(Initializing, history, event);
        history := history + [event];
        state := next;
      case Err(_) =>
        swallowed := swallowed + 1;
    }

    /** `capture_audio` */
    method CaptureAudio(bytes: seq<Byte>) returns (r: Result<seq<VadEvent>, ()>)
      requires Valid()
      modifies this`utteranceBuf, this`received, vad
      ensures Valid()
      ensures r.Ok? <==> |utteranceBuf| <= maxUtteranceBytes
      ensures var heard := PushCapturing(vad.ear, old(vad.State()), bytes, old(utteranceBuf));
              SoFar() == heard.(events := []) && (r.Ok? ==> r.value == heard.events)
      ensures r.Ok? && SpeechStarted in r.value ==> vad.capturing
      ensures r.Ok? && old(vad.capturing) ==> vad.capturing
      ensures r.Ok? && !old(vad.inSpeech) && SpeechStarted !in r.value ==> r.value == [] && !vad.inSpeech
    {
      hide PushCapturing, CapturesSince, Count, After;
      CaptureIsASuffix(vad.ear, vad.State(), bytes, utteranceBuf, received);
      CaptureFacts(vad.ear, vad.State(), bytes, utteranceBuf);
      var events;
      utteranceBuf, events := vad.PushPcm16Capturing(bytes, utteranceBuf);
      received := received + bytes;
      if |utteranceBuf| > maxUtteranceBytes {
        return Err(());
      }
      return Ok(events);
    }

    /** One message while speech is playing: None means carry on. */
    method HearWhileSpeaking(incoming: Incoming, ghost before: Captured, ghost schedule: seq<Moment>, ghost from: nat, ghost at: nat)
      returns (r: Option<Outcome>)
      requires Valid() && !vad.inSpeech
      requires from <= at < |schedule| && schedule[at].incoming == Some(incoming)
      requires SoFar() == HeardBy(vad.ear, before, schedule[from..at]).(events := [])
      modifies this`utteranceBuf, this`received, vad
      ensures Valid()
      ensures r in {None, Some(BargedIn), Some(Closed), Some(TooLong)}
      ensures r == None ==> !vad.inSpeech
      ensures r == Some(BargedIn) ==> vad.capturing && |utteranceBuf| <= maxUtteranceBytes
      ensures r == Some(TooLong) ==> |utteranceBuf| > maxUtteranceBytes
      ensures var heard := HeardBy(vad.ear, before, schedule[from..at + 1]);
              SoFar() == heard.(events := []) && r == HearDecision(heard, incoming, maxUtteranceBytes)
    {
      hide PushCapturing, HeardBy, CapturesSince, Count, After;
      HeardOne(vad.ear, before, schedule, from, at);
      match incoming
      case Audio(bytes) =>
        var heard := CaptureAudio(bytes);
        if heard.Err? {
          return Some(TooLong);
        }
        if SpeechStarted in heard.value {
          return Some(BargedIn);
        }
        return None;
      case CloseFrame => return Some(Closed);
      case EndOfStream => return Some(Closed);
      case ReadError => return Some(Closed);
      case OtherMessage => return None;
    }

    /** `speak`: forwards the synthesized audio, then waits for it to play out, listening for a barge-in all along. */
    method Speak(schedule: seq<Moment>, from: nat) returns (outcome: Outcome, at: nat)
      requires Valid() && !vad.inSpeech && from <= |schedule|
      modifies this`utteranceBuf, this`received, vad
      ensures Valid() && from <= at <= |schedule|
      ensures outcome in {Finished, BargedIn, Closed, TooLong, Failed, Cut}
      ensures outcome != Cut ==> from < at
      ensures outcome == Finished || outcome == Failed ==> !vad.inSpeech
      ensures outcome == BargedIn ==> vad.capturing && |utteranceBuf| <= maxUtteranceBytes
      ensures outcome == TooLong ==> |utteranceBuf| > maxUtteranceBytes
      ensures Spoken(vad.ear, old(SoFar()), schedule, from, maxUtteranceBytes, outcome, at)
    {
      hide HeardBy, CapturesSince, Count, After, HearDecision, Spoken, NoneSpoken, RunOut;
      ghost var before := SoFar();
      at := from;
      if at == |schedule| {
        NothingSpoken(vad.ear, before, schedule, from, maxUtteranceBytes);
        return Cut, at;
      }
      at := at + 1;
      if !schedule[at - 1].opens {
        FirstFails(vad.ear, before, schedule, from, maxUtteranceBytes);
        return Failed, at;
      }
      NothingHeard(vad.ear, before, schedule, from + 1);
      FirstOpens(vad.ear, before, schedule, from, maxUtteranceBytes);
      var speaking := true;
      while speaking
        invariant Valid() && !vad.inSpeech && from < at <= |schedule|
        invariant speaking <==> !RunOut(schedule, from, at)
        invariant NoneSpoken(vad.ear, before, schedule, from, maxUtteranceBytes, at)
        invariant SoFar() == HeardBy(vad.ear, before, schedule[from + 1..at]).(events := [])
        decreases |schedule| - at, speaking
      {
        if at == |schedule| {
          SpokenCut(vad.ear, before, schedule, from, maxUtteranceBytes);
          return Cut, at;
        }
        var m := schedule[at];
        at := at + 1;
        if m.incoming.Some? {
          var heard := HearWhileSpeaking(m.incoming.value, before, schedule, from + 1, at - 1);
          if heard.Some? {
            OneDecides(vad.ear, before, schedule, from, maxUtteranceBytes, heard.value, at);
            return heard.value, at;
          }
        } else {
          HeardOne(vad.ear, before, schedule, from + 1, at - 1);
          match m.tts
          case Chunk =>
            if m.sendFails {
              OneDecides(vad.ear, before, schedule, from, maxUtteranceBytes, Closed, at);
              return Closed, at;
            }
          case Broken =>
            OneDecides(vad.ear, before, schedule, from, maxUtteranceBytes, Failed, at);
            return Failed, at;
          case Exhausted =>
            speaking := false;
        }
        RunOutGrows(schedule, from, at);
        NoneSpokenGrows(vad.ear, before, schedule, from, maxUtteranceBytes, at);
      }
      outcome, at := PlayOut(schedule, from, at, before);
    }

    /** The second half of `speak`: everything is sent, and the candidate may still be listening to it. */
    method PlayOut(schedule: seq<Moment>, ghost from: nat, sentAt: nat, ghost before: Captured) returns (outcome: Outcome, at: nat)
      requires Valid() && !vad.inSpeech && from < sentAt <= |schedule|
      requires RunOut(schedule, from, sentAt) && NoneSpoken(vad.ear, before, schedule, from, maxUtteranceBytes, sentAt)
      requires SoFar() == HeardBy(vad.ear, before, schedule[from + 1..sentAt]).(events := [])
      modifies this`utteranceBuf, this`received, vad
      ensures Valid() && sentAt <= at <= |schedule|
      ensures outcome in {Finished, BargedIn, Closed, TooLong, Cut}
      ensures outcome == Finished ==> !vad.inSpeech
      ensures outcome == BargedIn ==> vad.capturing && |utteranceBuf| <= maxUtteranceBytes
      ensures outcome == TooLong ==> |utteranceBuf| > maxUtteranceBytes
      ensures Spoken(vad.ear, before, schedule, from, maxUtteranceBytes, outcome, at)
    {
      hide HeardBy, CapturesSince, Count, After, HearDecision, Spoken, NoneSpoken, RunOut;
      at := sentAt;
      while true
        invariant Valid() && !vad.inSpeech && sentAt <= at <= |schedule|
        invariant RunOut(schedule, from, at)
        invariant NoneSpoken(vad.ear, before, schedule, from, maxUtteranceBytes, at)
        invariant SoFar() == HeardBy(vad.ear, before, schedule[from + 1..at]).(events := [])
        decreases |schedule| - at
      {
        if at == |schedule| {
          SpokenCut(vad.ear, before, schedule, from, maxUtteranceBytes);
          return Cut, at;
        }
        var m := schedule[at];
        at := at + 1;
        if m.played {
          OneDecides(vad.ear, before, schedule, from, maxUtteranceBytes, Finished, at);
          return Finished, at;
        }
        if m.incoming.None? {
          OneDecides(vad.ear, before, schedule, from, maxUtteranceBytes, Finished, at);
          return Finished, at;
        }
        var heard := HearWhileSpeaking(m.incoming.value, before, schedule, from + 1, at - 1);
        if heard.Some? {
          OneDecides(vad.ear, before, schedule, from, maxUtteranceBytes, heard.value, at);
          return heard.value, at;
        }
        RunOutGrows(schedule, from, at);
        NoneSpokenGrows(vad.ear, before, schedule, from, maxUtteranceBytes, at);
      }
    }

    /** Listening is either for an answer already begun, or for one that has not. */
    ghost predicate ReadyToListen()
      reads this, vad
    {
      || (state == CandidateSpeaking && vad.capturing && |utteranceBuf| <= maxUtteranceBytes)
      || (state == Listening && !vad.inSpeech)
    }

    /** One message while listening: None means carry on. */
    method HearWhileListening(incoming: Option<Incoming>, ghost before: Captured, ghost schedule: seq<Moment>, ghost from: nat, ghost at: nat)
      returns (r: Option<Outcome>)
      requires Valid() && ReadyToListen() && FaultsWithin(history, 0)
      requires from <= at < |schedule| && schedule[at].incoming == incoming
      requires SoFar() == HeardBy(vad.ear, before, schedule[from..at]).(events := [])
      modifies this`utteranceBuf, this`received, this`state, this`history, this`swallowed, vad
      ensures Valid() && swallowed == old(swallowed) && FaultsWithin(history, 0)
      ensures r in {None, Some(Ended), Some(Closed), Some(TooLong)}
      ensures r == None ==> ReadyToListen()
      ensures r == Some(Ended) ==> state == CandidateSpeaking && 0 < |utteranceBuf| <= maxUtteranceBytes
      ensures r == Some(TooLong) ==> |utteranceBuf| > maxUtteranceBytes
      ensures var heard := HeardBy(vad.ear, before, schedule[from..at + 1]);
              SoFar() == heard.(events := []) && r == ListenDecision(heard, incoming, maxUtteranceBytes)
      ensures if state == old(state) then history == old(history)
              else old(state) == Listening && state == CandidateSpeaking && history == old(history) + [CandidateVoiceDetected]
    {
      hide PushCapturing, HeardBy, After, Count, FaultsWithin;
      HeardOne(vad.ear, before, schedule, from, at);
      match incoming
      case Some(Audio(bytes)) =>
        var heard := CaptureAudio(bytes);
        if heard.Err? {
          return Some(TooLong);
        }
        if SpeechStarted in heard.value && state == Listening {
          Advance(CandidateVoiceDetected, 0);
        }
        if TurnEnded in heard.value {
          return Some(Ended);
        }
        return None;
      case Some(CloseFrame) => return Some(Closed);
      case Some(ReadError) => return Some(Closed);
      case Some(EndOfStream) => return Some(Closed);
      case _ => return None;
    }

    /** `listen_for_turn` */
    method ListenForTurn(schedule: seq<Moment>, from: nat) returns (outcome: Outcome, at: nat)
      requires Valid() && ReadyToListen() && from <= |schedule|
      requires FaultsWithin(history, 0)
      modifies this`utteranceBuf, this`received, this`state, this`history, this`swallowed, vad
      ensures Valid() && swallowed == old(swallowed) && from <= at <= |schedule|
      ensures FaultsWithin(history, 0)
      ensures outcome in {Ended, Closed, TooLong, Cut}
      ensures outcome == Ended ==> state == CandidateSpeaking && 0 < |utteranceBuf| <= maxUtteranceBytes
      ensures outcome == TooLong ==> |utteranceBuf| > maxUtteranceBytes
      ensures Listened(vad.ear, old(SoFar()), schedule, from, maxUtteranceBytes, outcome, at)
      ensures if state == old(state) then history == old(history)
              else old(state) == Listening && state == CandidateSpeaking && history == old(history) + [CandidateVoiceDetected]
    {
      hide HeardBy, After, Count, FaultsWithin, CapturesSince, ListenDecision, Listened, NoneListened;
      ghost var before := SoFar();
      at := from;
      NothingHeard(vad.ear, before, schedule, from);
      NoneListenedYet(vad.ear, before, schedule, from, maxUtteranceBytes);
      while true
        invariant Valid() && ReadyToListen() && swallowed == old(swallowed) && from <= at <= |schedule|
        invariant FaultsWithin(history, 0)
        invariant SoFar() == HeardBy(vad.ear, before, schedule[from..at]).(events := [])
        invariant NoneListened(vad.ear, before, schedule, from, maxUtteranceBytes, at)
        invariant if state == old(state) then history == old(history)
                  else old(state) == Listening && state == CandidateSpeaking && history == old(history) + [CandidateVoiceDetected]
        decreases |schedule| - at
      {
        if at == |schedule| {
          ListenedCut(vad.ear, before, schedule, from, maxUtteranceBytes);
          return Cut, at;
        }
        var decided := HearWhileListening(schedule[at].incoming, before, schedule, from, at);
        at := at + 1;
        if decided.Some? {
          OneEnds(vad.ear, before, schedule, from, maxUtteranceBytes, decided.value, at);
          return decided.value, at;
        }
        NoneListenedGrows(vad.ear, before, schedule, from, maxUtteranceBytes, at);
      }
    }

    /** Applies an event that cannot be illegal here. */
    method Advance(event: Event, ghost n: nat)
      requires Sound() && Transition(state, event).Ok? && FaultsWithin(history, n) && event != TurnDecided
      modifies this`state, this`history, this`swallowed
      ensures Sound() && swallowed == old(swallowed) && state == Transition(old(state), event).value
      ensures old(Valid()) && event != CandidateTurnEnded ==> Valid()
      ensures Count(history, CandidateTurnEnded)
              == old(Count(history, CandidateTurnEnded)) + (if event == CandidateTurnEnded then 1 else 0)
      ensures history == old(history) + [event]
      ensures FaultsWithin(history, n + 1)
      ensures n == 0 && !(event == Fault && old(state) == Processing) ==> FaultsWithin(history, 0)
    {
      hide Count, CapturesSince, FaultsWithin, After;
      FaultsWithinGrows(history, event, n);
      CountOne(history, event);
      Apply(event);
    }

    /** What follows a speech that was heard to its end or interrupted. */
    method Follow(outcome: Outcome, ghost n: nat)
      requires Valid() && (state == AiSpeaking || state == AiResponding) && FaultsWithin(history, n)
      requires outcome == Finished || outcome == BargedIn
      requires if outcome == Finished then !vad.inSpeech else vad.capturing && |utteranceBuf| <= maxUtteranceBytes
      modifies this`state, this`history, this`swallowed
      ensures Valid() && swallowed == old(swallowed) && ReadyToListen()
      ensures history == old(history) + EventsAfter(outcome)
      ensures FaultsWithin(history, if n == 0 then 0 else n + 2)
    {
      hide After, Count, FaultsWithin, CapturesSince, Sound;
      if outcome == Finished {
        Advance(FinishedSpeaking, n);
        FaultsWithinMore(history, if n == 0 then 0 else n + 1, if n == 0 then 0 else n + 2);
      } else {
        Advance(BargeIn, n);
        Advance(CandidateVoiceDetected, if n == 0 then 0 else n + 1);
      }
    }

    /** `speak_recovery`: recovered means Finished or BargedIn; everything else closes the connection. */
    method SpeakRecovery(schedule: seq<Moment>, from: nat, ghost n: nat)
      returns (recovered: bool, at: nat, ghost outcome: Outcome)
      requires Valid() && state == ErrorRecovery && !vad.inSpeech && from <= |schedule| && FaultsWithin(history, n)
      modifies this`utteranceBuf, this`received, this`state, this`history, this`swallowed, vad
      ensures Valid() && swallowed == old(swallowed) && from <= at <= |schedule| && state != Completed
      ensures FaultsWithin(history, if n == 0 then 0 else n + 3)
      ensures recovered ==> ReadyToListen() && from < at
      ensures Spoken(vad.ear, old(SoFar()), schedule, from, maxUtteranceBytes, outcome, at)
      ensures outcome in {Finished, BargedIn, Closed, TooLong, Failed, Cut}
      ensures recovered <==> outcome == Finished || outcome == BargedIn
      ensures history == old(history) + [StartSpeaking] + EventsAfter(outcome)
      ensures outcome == TooLong ==> |utteranceBuf| > maxUtteranceBytes
    {
      hide After, Count, FaultsWithin, CapturesSince, Spoken, Sound;
      Advance(StartSpeaking, n);
      var spoken;
      spoken, at := Speak(schedule, from);
      outcome := spoken;
      recovered := spoken == Finished || spoken == BargedIn;
      if recovered {
        Follow(spoken, if n == 0 then 0 else n + 1);
      } else {
        FaultsWithinMore(history, if n == 0 then 0 else n + 1, if n == 0 then 0 else n + 3);
      }
    }

    /** Speaks the next text, and recovers if that fails; false when the handler gives up. */
    method Ask(schedule: seq<Moment>, from: nat)
      returns (listening: bool, at: nat, ghost outcome: Outcome, ghost spokenAt: nat, ghost recovery: Outcome)
      requires Valid() && (state == AiSpeaking || state == AiResponding) && !vad.inSpeech && from <= |schedule|
      requires FaultsWithin(history, 0)
      modifies this`utteranceBuf, this`received, this`state, this`history, this`swallowed, vad
      ensures Valid() && swallowed == old(swallowed) && from <= at <= |schedule| && FaultsWithin(history, 0)
      ensures listening ==> ReadyToListen() && from < at
      ensures Spoken(vad.ear, old(SoFar()), schedule, from, maxUtteranceBytes, outcome, spokenAt)
      ensures history == old(history) + (if outcome == Failed then [Fault, StartSpeaking] + EventsAfter(recovery)
                                         else EventsAfter(outcome))
      ensures listening <==> (if outcome == Failed then recovery else outcome) in {Finished, BargedIn}
      ensures !listening ==> GivesUp(schedule, at)
    {
      hide After, Count, FaultsWithin, CapturesSince, Spoken, Sound;
      var spoken;
      spoken, at := Speak(schedule, from);
      outcome, spokenAt, recovery := spoken, at, Cut;
      SpokenWhy(vad.ear, old(SoFar()), schedule, from, maxUtteranceBytes, spoken, at);
      if spoken == Finished || spoken == BargedIn {
        listening := true;
        Follow(spoken, 0);
      } else if spoken == Failed {
        listening, at, recovery := Recover(schedule, at);
      } else {
        listening := false;
      }
    }

    /** A speech that fails is followed by a recovery. */
    method Recover(schedule: seq<Moment>, from: nat) returns (listening: bool, at: nat, ghost recovery: Outcome)
      requires Valid() && (state == AiSpeaking || state == AiResponding) && !vad.inSpeech && from <= |schedule|
      requires FaultsWithin(history, 0)
      modifies this`utteranceBuf, this`received, this`state, this`history, this`swallowed, vad
      ensures Valid() && swallowed == old(swallowed) && from <= at <= |schedule| && FaultsWithin(history, 0)
      ensures listening ==> ReadyToListen() && from < at
      ensures history == old(history) + ([Fault, StartSpeaking] + EventsAfter(recovery))
      ensures listening <==> recovery == Finished || recovery == BargedIn
      ensures Spoken(vad.ear, old(SoFar()), schedule, from, maxUtteranceBytes, recovery, at)
      ensures !listening ==> GivesUp(schedule, at)
    {
      hide After, Count, FaultsWithin, CapturesSince, Spoken, Sound;
      Advance(Fault, 0);
      listening, at, recovery := SpeakRecovery(schedule, from, 0);
      SpokenWhy(vad.ear, old(SoFar()), schedule, from, maxUtteranceBytes, recovery, at);
      assert history == old(history) + ([Fault, StartSpeaking] + EventsAfter(recovery));
    }

    /** A recovery has been begun and nothing has come of it. */
    ghost predicate Recovering()
      reads this
    {
      |history| >= 2 && history[|history| - 2] == Fault && history[|history| - 1] == StartSpeaking
    }

    /** Why the handler may stop while speaking or listening: no more moments, or what the last one brought. */
    ghost predicate GivesUp(schedule: seq<Moment>, at: nat)
      reads this
    {
      || at == |schedule|
      || (0 < at < |schedule| && (EndsConnection(schedule[at - 1]) || |utteranceBuf| > maxUtteranceBytes
                                  || (FailsToSpeak(schedule[at - 1]) && Recovering())))
    }

    /** An answer was met with a fault while it was processed. */
    ghost predicate FaultMet()
      reads this
    {
      exists i :: 0 <= i < |history| && ProcessingFault(history, i)
    }

    /** Hands the answer over and takes the agent's decision; true when there is a next text to speak. */
    method Process(schedule: seq<Moment>, from: nat) returns (hasText: bool, at: nat, ghost spoken: Outcome)
      requires Valid() && state == CandidateSpeaking && 0 < |utteranceBuf| <= maxUtteranceBytes && from <= |schedule|
      requires FaultsWithin(history, 0)
      modifies this`utteranceBuf, this`received, this`state, this`history, this`swallowed, this`turnNumber, this`handedOver, vad
      ensures Valid() && swallowed == old(swallowed) && from <= at <= |schedule|
      ensures hasText ==> state == AiResponding && !vad.inSpeech && FaultsWithin(history, 0) && from < at
      ensures FaultsWithin(history, 4)
      ensures handedOver == old(handedOver) + [old(utteranceBuf)]
      ensures from == |schedule| ==> !hasText && at == from
      ensures from < |schedule| ==>
                var m := schedule[from];
                var decided := m.transcribes && m.reply.Some?;
                && turnNumber == old(turnNumber) + (if decided then 1 else 0)
                && (hasText <==> decided && !m.reply.value.isComplete)
                && (state == Completed <==> decided && m.reply.value.isComplete)
                && (!decided ==> FaultMet())
                && (if hasText then at == from + 1
                    else Spoken(vad.ear, Captured(Vad.ResetTurn(old(vad.State())), [], []), schedule, from + 1,
                                maxUtteranceBytes, spoken, at))
    {
      hide After, Count, FaultsWithin, CapturesSince, Spoken, ProcessingFault;
      at := from;
      hasText := false;
      spoken := Cut;
      Advance(CandidateTurnEnded, 0);
      HandOver();
      FaultsWithinMore(history, 0, 4);
      if at == |schedule| {
        return;
      }
      var m := schedule[at];
      at := at + 1;
      if !m.transcribes || m.reply.None? {
        at, spoken := RecoverFromProcessing(schedule, at);
        return;
      }
      Decided();
      hasText, at, spoken := Respond(schedule, at, m.reply.value.isComplete);
    }

    /** An answer that cannot be processed is followed by a recovery, after which there is nothing left to say. */
    method RecoverFromProcessing(schedule: seq<Moment>, from: nat) returns (at: nat, ghost outcome: Outcome)
      requires Valid() && state == Processing && !vad.inSpeech && from <= |schedule| && FaultsWithin(history, 0)
      modifies this`utteranceBuf, this`received, this`state, this`history, this`swallowed, vad
      ensures Valid() && swallowed == old(swallowed) && from <= at <= |schedule| && state != Completed
      ensures FaultsWithin(history, 4) && FaultMet()
      ensures Spoken(vad.ear, old(SoFar()), schedule, from, maxUtteranceBytes, outcome, at)
    {
      hide After, Count, FaultsWithin, CapturesSince, Spoken, ProcessingFault;
      ghost var word := history;
      Advance(Fault, 0);
      var recovered;
      recovered, at, outcome := SpeakRecovery(schedule, from, 1);
      assert history == word + [Fault] + ([StartSpeaking] + EventsAfter(outcome));
      FaultIsMet(word, [StartSpeaking] + EventsAfter(outcome));
    }

    /** Starts the response; a closing remark is spoken here, and whatever comes of it completes the interview. */
    method Respond(schedule: seq<Moment>, from: nat, isComplete: bool) returns (hasText: bool, at: nat, ghost spoken: Outcome)
      requires Valid() && state == FollowUpDecision && !vad.inSpeech && from <= |schedule| && FaultsWithin(history, 0)
      modifies this`utteranceBuf, this`received, this`state, this`history, this`swallowed, vad
      ensures Valid() && swallowed == old(swallowed) && from <= at <= |schedule| && FaultsWithin(history, 4)
      ensures hasText == !isComplete
      ensures hasText ==> state == AiResponding && !vad.inSpeech && FaultsWithin(history, 0)
      ensures isComplete <==> state == Completed
      ensures if isComplete then Spoken(vad.ear, old(SoFar()), schedule, from, maxUtteranceBytes, spoken, at) else at == from
    {
      hide After, Count, FaultsWithin, CapturesSince, Spoken;
      at := from;
      hasText := !isComplete;
      spoken := Cut;
      Advance(StartSpeaking, 0);
      if isComplete {
        var outcome;
        outcome, at := Speak(schedule, at);
        spoken := outcome;
        Advance(InterviewComplete, 0);
      }
      FaultsWithinMore(history, 0, 4);
    }

    /**
     `handle_socket`, once the service has started the session: every event it
     applies is legal, for any messages, barge-ins and failures in any order.
     It stops before the schedule ends only when the connection ends, the
     utterance is over-long, a recovery cannot be spoken, an answer could not be
     processed, or the interview is complete. An answer that could not be
     processed ends the interview, whether or not the recovery was spoken: at
     most three more events follow the fault.
     */
    method Handle(schedule: seq<Moment>) returns (ghost at: nat)
      requires Valid() && state == Initializing && history == [] && swallowed == 0 && !vad.inSpeech && handedOver == []
      modifies this`utteranceBuf, this`received, this`state, this`history, this`swallowed, this`turnNumber, this`handedOver, vad
      ensures Valid() && swallowed == 0
      ensures |handedOver| == Count(history, CandidateTurnEnded)
      ensures FaultsWithin(history, 4)
      ensures at <= |schedule| && (GivesUp(schedule, at) || state == Completed || FaultMet())
    {
      hide Count, CapturesSince, Spoken, Listened, ProcessingFault;
      Advance(StartSpeaking, 0);
      var next := 0;
      var hasText := true;
      while hasText
        invariant Valid() && swallowed == 0 && FaultsWithin(history, 4) && next <= |schedule|
        invariant hasText ==> (state == AiSpeaking || state == AiResponding) && !vad.inSpeech && FaultsWithin(history, 0)
        invariant hasText || next == |schedule| || state == Completed || FaultMet()
        decreases |schedule| - next, hasText
      {
        var listening;
        ghost var spoken, spokenAt, recovery;
        listening, next, spoken, spokenAt, recovery := Ask(schedule, next);
        if !listening {
          return next;
        }
        var outcome;
        ghost var from, before := next, SoFar();
        outcome, next := ListenForTurn(schedule, next);
        if outcome != Ended {
          ListenedWhy(vad.ear, before, schedule, from, maxUtteranceBytes, outcome, next);
          return next;
        }
        hasText, next, spoken := Process(schedule, next);
      }
      return next;
    }

    /** Takes the answer and makes the detector ready for the next one. */
    method HandOver()
      requires Sound() && 0 < |utteranceBuf| <= maxUtteranceBytes && |handedOver| + 1 == Count(history, CandidateTurnEnded)
      modifies this`utteranceBuf, this`received, this`handedOver, vad
      ensures Valid() && !vad.inSpeech && SoFar() == Captured(Vad.ResetTurn(old(vad.State())), [], [])
      ensures handedOver == old(handedOver) + [old(utteranceBuf)] && |handedOver| > turnNumber
      ensures exists from :: 0 <= from <= |old(received)| && old(utteranceBuf) == old(received)[from..]
    {
      hide After, Count;
      handedOver := handedOver + [utteranceBuf];
      utteranceBuf, received := [], [];
      vad.ResetTurn();
    }

    method Decided()
      requires Valid() && state == Processing && FaultsWithin(history, 0) && |handedOver| > turnNumber
      modifies this`state, this`history, this`swallowed, this`turnNumber
      ensures Valid() && swallowed == old(swallowed) && state == FollowUpDecision && FaultsWithin(history, 0)
      ensures turnNumber == old(turnNumber) + 1
    {
      hide After, Count, FaultsWithin, CapturesSince;
      FaultsWithinGrows(history, TurnDecided, 0);
      CountOne(history, TurnDecided);
      turnNumber := turnNumber + 1;
      Apply(TurnDecided);
    }
  }

  // ----- why a speech or the listening ends -----

  /** The candidate's side ends the connection, or nothing can be sent to it any more. */
  predicate EndsConnection(m: Moment) {
    || (m.incoming.Some? && HangsUp(m.incoming.value))
    || (m.incoming.None? && m.tts == Chunk && m.sendFails)
  }

  predicate FailsToSpeak(m: Moment) {
    !m.opens || (m.incoming.None? && m.tts == Broken)
  }

  lemma SpokenWhy(ear: Ear, start: Captured, schedule: seq<Moment>, from: nat, maxUtteranceBytes: nat, outcome: Outcome, at: nat)
    requires Spoken(ear, start, schedule, from, maxUtteranceBytes, outcome, at)
    ensures outcome == Cut ==> at == |schedule|
    ensures outcome == Closed ==> 0 < at && EndsConnection(schedule[at - 1])
    ensures outcome == Failed ==> 0 < at && FailsToSpeak(schedule[at - 1])
    ensures outcome == TooLong ==> 0 < at
  {
    hide HeardBy, RunOut;
  }

  lemma ListenedWhy(ear: Ear, start: Captured, schedule: seq<Moment>, from: nat, maxUtteranceBytes: nat, outcome: Outcome, at: nat)
    requires Listened(ear, start, schedule, from, maxUtteranceBytes, outcome, at)
    ensures outcome == Cut ==> at == |schedule|
    ensures outcome == Closed ==> 0 < at && EndsConnection(schedule[at - 1])
    ensures outcome == TooLong ==> 0 < at
  {
    hide HeardBy;
  }

  /** A schedule leaves no choice: a speech has one outcome, at one moment. */
  lemma SpokenIsDetermined(ear: Ear, start: Captured, schedule: seq<Moment>, from: nat, maxUtteranceBytes: nat,
                           outcome: Outcome, at: nat, outcome': Outcome, at': nat)
    requires Spoken(ear, start, schedule, from, maxUtteranceBytes, outcome, at)
    requires Spoken(ear, start, schedule, from, maxUtteranceBytes, outcome', at')
    ensures outcome == outcome' && at == at'
  {
    hide SpeakDecision;
  }

  /** And so has listening. */
  lemma ListenedIsDetermined(ear: Ear, start: Captured, schedule: seq<Moment>, from: nat, maxUtteranceBytes: nat,
                             outcome: Outcome, at: nat, outcome': Outcome, at': nat)
    requires Listened(ear, start, schedule, from, maxUtteranceBytes, outcome, at)
    requires Listened(ear, start, schedule, from, maxUtteranceBytes, outcome', at')
    ensures outcome == outcome' && at == at'
  {
    hide ListenDecision, HeardBy;
  }

  lemma FaultIsMet(word: seq<Event>, rest: seq<Event>)
    requires After(Initializing, word) == Some(Processing)
    ensures var longer := word + [Fault] + rest; ProcessingFault(longer, |word|)
  {
    assert (word + [Fault] + rest)[..|word|] == word;
  }
}
