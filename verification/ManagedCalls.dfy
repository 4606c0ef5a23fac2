/** The managed-call workflow's queues, with webhooks that are accepted under one lock and queued under another. */
module ManagedCalls {
  import opened Prelude
  import opened Collections
  import opened Dedup

  datatype EventType =
    | SessionStatus | SpeechStarted | SpeechEnded | TranscriptPartial | TranscriptFinal | SessionCompleted
    | ToolCalls | AssistantRequested | ConversationUpdated | ErrorReport | Unknown

  /** A normalized webhook; `transcript` and the error fields are what its data holds. */
  datatype ManagedEvent = ManagedEvent(
    eventType: EventType, callId: Option<string>, dedupKey: string, transcript: Option<string>,
    errorCode: Option<string>, errorMessage: Option<string>, message: Option<string>)

  datatype ProviderEvent =
    | SpeechBegan | SpeechOver | Partial(text: string) | Final(text: string) | Completed
    | Failure(code: string, message: string)

  function TranscriptText(e: ManagedEvent): seq<string> {
    if e.transcript.Some? && e.transcript.value != "" then [e.transcript.value] else []
  }

  function OrElse(o: Option<string>, default: string): string {
    if o.Some? then o.value else default
  }

  /** `to_provider_events` */
  function ToProviderEvents(e: ManagedEvent): (r: seq<ProviderEvent>)
    ensures |r| <= 1
  {
    match e.eventType
    case SpeechStarted => [SpeechBegan]
    case SpeechEnded => [SpeechOver]
    case TranscriptPartial => if TranscriptText(e) == [] then [] else [Partial(TranscriptText(e)[0])]
    case TranscriptFinal => if TranscriptText(e) == [] then [] else [Final(TranscriptText(e)[0])]
    case SessionCompleted => [Completed]
    case ErrorReport =>
      [Failure(OrElse(e.errorCode, "managed_call_error"),
               OrElse(e.errorMessage, OrElse(e.message, "managed call provider error")))]
    case _ => []
  }

  /** What each provider event says about the webhook it comes from: every event but one with a blank transcript is passed on, with its text. */
  lemma EventsMean(e: ManagedEvent, p: ProviderEvent)
    ensures p in ToProviderEvents(e) <==>
            match p
            case SpeechBegan => e.eventType == SpeechStarted
            case SpeechOver => e.eventType == SpeechEnded
            case Partial(text) => e.eventType == TranscriptPartial && e.transcript == Some(text) && text != ""
            case Final(text) => e.eventType == TranscriptFinal && e.transcript == Some(text) && text != ""
            case Completed => e.eventType == SessionCompleted
            case Failure(code, message) =>
              && e.eventType == ErrorReport
              && (e.errorCode == Some(code) || (e.errorCode == None && code == "managed_call_error"))
              && (e.errorMessage == Some(message)
                  || (e.errorMessage == None && e.message == Some(message))
                  || (e.errorMessage == None && e.message == None && message == "managed call provider error"))
  {
    match e.eventType {
      case SpeechStarted => case SpeechEnded => case TranscriptPartial => case TranscriptFinal =>
      case SessionCompleted => case ErrorReport => case _ =>
    }
  }

  datatype ManagedSession = ManagedSession(callId: string, queue: seq<ProviderEvent>)

  type Sessions = map<nat, ManagedSession>

  /**
   A webhook is accepted in one step and queued in a later one, so that any
   operations may come in between. `Queue` queues accepted webhook i; `to` is the
   session its events went to, if any.
   */
  datatype Op =
    | StartCall(session: nat, callId: string)
    | Admit(event: ManagedEvent)
    | Queue(i: nat, to: Option<nat>)
    | Drain(session: nat)
    | EndCall(session: nat)

  /** `order` lists the accepted webhooks queued so far, by their place among the accepted ones. */
  datatype State = State(accepted: seq<ManagedEvent>, order: seq<nat>, sessions: Sessions)

  const EMPTY := State([], [], map[])

  const DEDUP_CAPACITY := 4096

  function KeysOf(events: seq<ManagedEvent>): (keys: seq<string>)
    ensures |keys| == |events| && forall i :: 0 <= i < |keys| ==> keys[i] == events[i].dedupKey
  {
    seq(|events|, i requires 0 <= i < |events| => events[i].dedupKey)
  }

  /** Whether a webhook with this key would be accepted. */
  predicate Fresh(s: State, key: string) {
    key !in LastOf(KeysOf(s.accepted), DEDUP_CAPACITY)
  }

  /** A webhook of the call that has something to queue. */
  predicate Concerns(e: ManagedEvent, callId: string) {
    e.callId == Some(callId) && ToProviderEvents(e) != []
  }

  /** An accepted webhook still to be queued. */
  predicate Waits(s: State, i: nat) {
    i < |s.accepted| && i !in s.order && s.accepted[i].callId.Some? && ToProviderEvents(s.accepted[i]) != []
  }

  function Enqueue(sessions: Sessions, e: ManagedEvent, to: Option<nat>): Sessions {
    if to.Some? && to.value in sessions then
      sessions[to.value := sessions[to.value].(queue := sessions[to.value].queue + ToProviderEvents(e))]
    else sessions
  }

  function Step(s: State, op: Op): State {
    match op
    case StartCall(session, callId) => s.(sessions := s.sessions[session := ManagedSession(callId, [])])
    case Admit(e) => if Fresh(s, e.dedupKey) then s.(accepted := s.accepted + [e]) else s
    case Queue(i, to) =>
      if Waits(s, i) then s.(order := s.order + [i], sessions := Enqueue(s.sessions, s.accepted[i], to)) else s
    case Drain(session) =>
      if session in s.sessions then s.(sessions := s.sessions[session := s.sessions[session].(queue := [])]) else s
    case EndCall(session) => s.(sessions := s.sessions - {session})
  }

  function Run(ops: seq<Op>): State {
    if ops == [] then EMPTY else Step(Run(ops[..|ops| - 1]), ops[|ops| - 1])
  }

  /** The workflow queues for a session with the event's call id, whichever it finds first; for none only if there is none. */
  ghost predicate Finds(sessions: Sessions, e: ManagedEvent, to: Option<nat>) {
    if to.Some? then to.value in sessions && e.callId == Some(sessions[to.value].callId)
    else forall id :: id in sessions ==> e.callId != Some(sessions[id].callId)
  }

  /** Every webhook was queued where the workflow finds its session. */
  ghost predicate Routed(ops: seq<Op>) {
    ops != [] ==>
      var front, last := ops[..|ops| - 1], ops[|ops| - 1];
      && Routed(front)
      && (last.Queue? && Waits(Run(front), last.i) ==> Finds(Run(front).sessions, Run(front).accepted[last.i], last.to))
  }

  // ----- admission -----

  function AdmittedKeys(ops: seq<Op>): seq<string> {
    if ops == [] then []
    else
      var last := ops[|ops| - 1];
      AdmittedKeys(ops[..|ops| - 1]) + (if last.Admit? then [last.event.dedupKey] else [])
  }

  /** Whatever comes in between, the webhooks accepted are those bounded deduplication lets in. */
  lemma {:induction false} AdmissionIsDedup(ops: seq<Op>)
    ensures KeysOf(Run(ops).accepted) == Accepted(AdmittedKeys(ops), DEDUP_CAPACITY)
    decreases |ops|
  {
    hide LastOf, ToProviderEvents, Waits, Enqueue;
    if ops != [] {
      var front, last := ops[..|ops| - 1], ops[|ops| - 1];
      AdmissionIsDedup(front);
      var keys := AdmittedKeys(front);
      if last.Admit? {
        assert (keys + [last.event.dedupKey])[..|keys|] == keys;
        assert KeysOf(Run(front).accepted + [last.event]) == KeysOf(Run(front).accepted) + [last.event.dedupKey];
      } else {
        assert AdmittedKeys(ops) == keys;
      }
    }
  }

  /** What is among the last n is within n of the end. */
  lemma AmongTheLast(keys: seq<string>, n: nat, key: string)
    ensures key in LastOf(keys, n) <==> exists i :: 0 <= i < |keys| && |keys| - i <= n && keys[i] == key
  {
    var recent := LastOf(keys, n);
    var k := |keys| - |recent|;
    if key in recent {
      var j :| 0 <= j < |recent| && recent[j] == key;
      assert keys[k + j] == key;
    }
    if i :| 0 <= i < |keys| && |keys| - i <= n && keys[i] == key {
      assert recent[i - k] == keys[i];
    }
  }

  /** A webhook changes nothing exactly if one of the last 4096 accepted ones has its key. */
  lemma RedeliveryIsTurnedAway(s: State, e: ManagedEvent)
    ensures Step(s, Admit(e)) == s
       <==> exists i :: 0 <= i < |s.accepted| && |s.accepted| - i <= 4096 && s.accepted[i].dedupKey == e.dedupKey
  {
    hide LastOf, ToProviderEvents, Waits;
    var keys := KeysOf(s.accepted);
    AmongTheLast(keys, DEDUP_CAPACITY, e.dedupKey);
    assert |s.accepted + [e]| != |s.accepted|;
    if i :| 0 <= i < |keys| && |keys| - i <= DEDUP_CAPACITY && keys[i] == e.dedupKey {
      assert s.accepted[i].dedupKey == e.dedupKey;
    }
    if i :| 0 <= i < |s.accepted| && |s.accepted| - i <= DEDUP_CAPACITY && s.accepted[i].dedupKey == e.dedupKey {
      assert keys[i] == e.dedupKey;
    }
  }

  // ----- the order of queueing -----

  /** The places of the accepted webhooks of a call. */
  function AcceptedOf(accepted: seq<ManagedEvent>, callId: string): seq<nat> {
    if accepted == [] then []
    else
      var n := |accepted| - 1;
      AcceptedOf(accepted[..n], callId) + (if Concerns(accepted[n], callId) then [n] else [])
  }

  /** The places of the webhooks of a call among those queued, in the order they were queued. */
  function QueuedOf(accepted: seq<ManagedEvent>, order: seq<nat>, callId: string): (q: seq<nat>)
    ensures |q| <= |order|
  {
    if order == [] then []
    else
      var front, i := order[..|order| - 1], order[|order| - 1];
      QueuedOf(accepted, front, callId) + (if i < |accepted| && Concerns(accepted[i], callId) then [i] else [])
  }

  predicate Within(places: seq<nat>, n: nat) {
    forall k :: 0 <= k < |places| ==> places[k] < n
  }

  ghost predicate Rising(places: seq<nat>) {
    forall j, k :: 0 <= j < k < |places| ==> places[j] < places[k]
  }

  /** Each accepted webhook is queued at most once, and only accepted ones are. */
  ghost predicate Ordered(s: State) {
    Distinct(s.order) && Within(s.order, |s.accepted|)
  }

  /** The webhooks of the call have been queued in the order of their acceptance, none left out. */
  predicate InAcceptance(s: State, callId: string) {
    QueuedOf(s.accepted, s.order, callId) <= AcceptedOf(s.accepted, callId)
  }

  /** A webhook of the call is queued while an earlier accepted one still waits. */
  ghost predicate Overtakes(s: State, op: Op, callId: string) {
    && op.Queue? && Waits(s, op.i) && Concerns(s.accepted[op.i], callId)
    && exists j :: 0 <= j < op.i && Waits(s, j) && Concerns(s.accepted[j], callId)
  }

  lemma StepKeepsOrdered(s: State, op: Op)
    requires Ordered(s)
    ensures Ordered(Step(s, op))
  {
    hide Fresh, ToProviderEvents, Enqueue;
  }

  lemma {:induction false} RunIsOrdered(ops: seq<Op>)
    ensures Ordered(Run(ops))
    decreases |ops|
  {
    hide Step, Ordered;
    if ops == [] {
      EmptyIsOrdered();
    } else {
      RunIsOrdered(ops[..|ops| - 1]);
      StepKeepsOrdered(Run(ops[..|ops| - 1]), ops[|ops| - 1]);
    }
  }

  lemma EmptyIsOrdered()
    ensures Ordered(EMPTY)
  {
  }

  lemma {:induction false} AcceptedOfHas(accepted: seq<ManagedEvent>, callId: string, i: nat)
    ensures i in AcceptedOf(accepted, callId) <==> i < |accepted| && Concerns(accepted[i], callId)
    decreases |accepted|
  {
    hide Concerns;
    if accepted != [] {
      AcceptedOfHas(accepted[..|accepted| - 1], callId, i);
    }
  }

  lemma AcceptedOfIsOfTheCall(accepted: seq<ManagedEvent>, callId: string)
    ensures forall i: nat :: i in AcceptedOf(accepted, callId) <==> i < |accepted| && Concerns(accepted[i], callId)
    ensures Within(AcceptedOf(accepted, callId), |accepted|)
  {
    hide AcceptedOf, Concerns;
    forall i: nat
      ensures i in AcceptedOf(accepted, callId) <==> i < |accepted| && Concerns(accepted[i], callId)
    {
      AcceptedOfHas(accepted, callId, i);
    }
    var a := AcceptedOf(accepted, callId);
    assert forall k :: 0 <= k < |a| ==> a[k] in a;
  }

  lemma {:induction false} AcceptedOfRises(accepted: seq<ManagedEvent>, callId: string)
    ensures Rising(AcceptedOf(accepted, callId))
    decreases |accepted|
  {
    hide Concerns;
    if accepted != [] {
      var n := |accepted| - 1;
      AcceptedOfRises(accepted[..n], callId);
      AcceptedOfIsOfTheCall(accepted[..n], callId);
    }
  }

  lemma {:induction false} QueuedOfIsOfTheCall(accepted: seq<ManagedEvent>, order: seq<nat>, callId: string)
    ensures forall i: nat :: i in QueuedOf(accepted, order, callId)
                        <==> i in order && i < |accepted| && Concerns(accepted[i], callId)
    ensures Within(QueuedOf(accepted, order, callId), |accepted|)
    decreases |order|
  {
    hide Concerns;
    if order != [] {
      var front, last := order[..|order| - 1], order[|order| - 1];
      QueuedOfIsOfTheCall(accepted, front, callId);
      assert order == front + [last];
    }
  }

  /** Accepting more does not change what has been queued. */
  lemma {:induction false} QueuedOfStays(accepted: seq<ManagedEvent>, e: ManagedEvent, order: seq<nat>, callId: string)
    requires Within(order, |accepted|)
    ensures QueuedOf(accepted + [e], order, callId) == QueuedOf(accepted, order, callId)
    decreases |order|
  {
    hide Concerns;
    if order != [] {
      QueuedOfStays(accepted, e, order[..|order| - 1], callId);
    }
  }

  lemma QueuedOneMore(accepted: seq<ManagedEvent>, order: seq<nat>, i: nat, callId: string)
    ensures QueuedOf(accepted, order + [i], callId)
         == QueuedOf(accepted, order, callId) + (if i < |accepted| && Concerns(accepted[i], callId) then [i] else [])
  {
    assert (order + [i])[..|order|] == order;
  }

  lemma AcceptedOneMore(accepted: seq<ManagedEvent>, e: ManagedEvent, callId: string)
    ensures AcceptedOf(accepted + [e], callId)
         == AcceptedOf(accepted, callId) + (if Concerns(e, callId) then [|accepted|] else [])
  {
    assert (accepted + [e])[..|accepted|] == accepted;
  }

  /** What a step adds to the queued and to the accepted webhooks of a call. */
  lemma StepOfTheCall(s: State, op: Op, callId: string)
    requires Ordered(s)
    ensures var t := Step(s, op);
            && QueuedOf(t.accepted, t.order, callId)
               == QueuedOf(s.accepted, s.order, callId)
                  + (if op.Queue? && Waits(s, op.i) && Concerns(s.accepted[op.i], callId) then [op.i] else [])
            && AcceptedOf(t.accepted, callId)
               == AcceptedOf(s.accepted, callId)
                  + (if op.Admit? && Fresh(s, op.event.dedupKey) && Concerns(op.event, callId) then [|s.accepted|] else [])
  {
    hide Fresh, Concerns, ToProviderEvents, Enqueue, QueuedOf, AcceptedOf, Distinct;
    if op.Admit? && Fresh(s, op.event.dedupKey) {
      QueuedOfStays(s.accepted, op.event, s.order, callId);
      AcceptedOneMore(s.accepted, op.event, callId);
    } else if op.Queue? && Waits(s, op.i) {
      QueuedOneMore(s.accepted, s.order, op.i, callId);
    }
  }

  /** In a rising list what follows a prefix is not in it, and what is not in it follows. */
  lemma BeyondThePrefix(q: seq<nat>, a: seq<nat>, p: nat)
    requires q <= a && p < |a| && Rising(a)
    ensures a[p] in q <==> p < |q|
  {
    if p < |q| {
      assert q[p] == a[p];
    }
  }

  /** Queued in order, the waiting webhook of the call accepted first is the next in the list. */
  lemma NextWaits(s: State, i: nat, callId: string)
    requires InAcceptance(s, callId) && Waits(s, i) && Concerns(s.accepted[i], callId)
    ensures var q, a := QueuedOf(s.accepted, s.order, callId), AcceptedOf(s.accepted, callId);
            |q| < |a| && a[|q|] <= i < |s.accepted| && Waits(s, a[|q|]) && Concerns(s.accepted[a[|q|]], callId)
  {
    hide QueuedOf, AcceptedOf, ToProviderEvents;
    var q, a := QueuedOf(s.accepted, s.order, callId), AcceptedOf(s.accepted, callId);
    AcceptedOfRises(s.accepted, callId);
    AcceptedOfIsOfTheCall(s.accepted, callId);
    QueuedOfIsOfTheCall(s.accepted, s.order, callId);
    var p :| 0 <= p < |a| && a[p] == i;
    BeyondThePrefix(q, a, p);
    BeyondThePrefix(q, a, |q|);
    assert a[|q|] in a;
  }

  /** A step keeps the order of acceptance exactly if it does not queue a webhook past an earlier one that waits. */
  lemma OrderIsKeptExactly(s: State, op: Op, callId: string)
    requires Ordered(s) && InAcceptance(s, callId)
    ensures InAcceptance(Step(s, op), callId) <==> !Overtakes(s, op, callId)
  {
    hide Step, Fresh, Concerns, ToProviderEvents, QueuedOf, AcceptedOf, Ordered;
    StepOfTheCall(s, op, callId);
    if op.Queue? && Waits(s, op.i) && Concerns(s.accepted[op.i], callId) {
      var q, a := QueuedOf(s.accepted, s.order, callId), AcceptedOf(s.accepted, callId);
      NextWaits(s, op.i, callId);
      assert q + [op.i] <= a <==> a[|q|] == op.i;
      if j :| 0 <= j < op.i && Waits(s, j) && Concerns(s.accepted[j], callId) {
        NextWaits(s, j, callId);
      }
    }
  }

  /** An order once broken stays broken. */
  lemma DisorderStays(s: State, op: Op, callId: string)
    requires Ordered(s) && !InAcceptance(s, callId)
    ensures !InAcceptance(Step(s, op), callId)
  {
    hide Step, Fresh, Concerns, QueuedOf, AcceptedOf;
    StepOfTheCall(s, op, callId);
    QueuedOfIsOfTheCall(s.accepted, s.order, callId);
    var q, a := QueuedOf(s.accepted, s.order, callId), AcceptedOf(s.accepted, callId);
    FrontOfThePrefix(q, a, |s.accepted|);
    assert a + [] == a;
    assert q <= QueuedOf(Step(s, op).accepted, Step(s, op).order, callId);
  }

  lemma FrontOfThePrefix(q: seq<nat>, a: seq<nat>, n: nat)
    ensures q <= a + [n] ==> q <= a || n in q
  {
    if q <= a + [n] && |q| > |a| {
      assert q[|a|] == n;
    }
  }

  ghost predicate NeverOvertakes(ops: seq<Op>, callId: string) {
    ops != [] ==>
      NeverOvertakes(ops[..|ops| - 1], callId) && !Overtakes(Run(ops[..|ops| - 1]), ops[|ops| - 1], callId)
  }

  /**
   Over a whole run the webhooks of a call are queued as they were accepted exactly
   if none is queued past an earlier one that waits.
   */
  lemma {:induction false} QueuedInOrderExactly(ops: seq<Op>, callId: string)
    ensures InAcceptance(Run(ops), callId) <==> NeverOvertakes(ops, callId)
    decreases |ops|
  {
    hide Step, Overtakes, Ordered;
    if ops != [] {
      var front, last := ops[..|ops| - 1], ops[|ops| - 1];
      QueuedInOrderExactly(front, callId);
      RunIsOrdered(front);
      if InAcceptance(Run(front), callId) {
        OrderIsKeptExactly(Run(front), last, callId);
      } else {
        DisorderStays(Run(front), last, callId);
      }
    }
  }

  // ----- conservation -----

  /** The provider events of the webhooks at these places. */
  function EventsOf(accepted: seq<ManagedEvent>, places: seq<nat>): seq<ProviderEvent> {
    if places == [] then []
    else
      var front, i := places[..|places| - 1], places[|places| - 1];
      EventsOf(accepted, front) + (if i < |accepted| then ToProviderEvents(accepted[i]) else [])
  }

  /** Everything drained from the session since its call was started. */
  function Drained(ops: seq<Op>, session: nat): seq<ProviderEvent> {
    if ops == [] then []
    else
      var front, last := ops[..|ops| - 1], ops[|ops| - 1];
      if last.StartCall? && last.session == session then []
      else if last == Drain(session) && session in Run(front).sessions then
        Drained(front, session) + Run(front).sessions[session].queue
      else Drained(front, session)
  }

  /** How many webhooks had been queued when the session's present call was started. */
  function QueuedBefore(ops: seq<Op>, session: nat): (n: nat)
    ensures n <= |Run(ops).order|
  {
    if ops == [] then 0
    else
      var front, last := ops[..|ops| - 1], ops[|ops| - 1];
      if last.StartCall? && last.session == session then |Run(front).order| else QueuedBefore(front, session)
  }

  /** The webhooks of the call that were queued since the session's call was started, in the order of queueing. */
  function QueuedSince(ops: seq<Op>, session: nat, callId: string): seq<nat> {
    QueuedOf(Run(ops).accepted, Run(ops).order[QueuedBefore(ops, session)..], callId)
  }

  /** No other session has this session's call. */
  ghost predicate Alone(sessions: Sessions, session: nat) {
    session in sessions ==>
      forall other :: other in sessions && other != session ==> sessions[other].callId != sessions[session].callId
  }

  /** Whenever a webhook was queued since the session's call was started, no other session had that call. */
  ghost predicate OwnCall(ops: seq<Op>, session: nat) {
    ops != [] ==>
      var front, last := ops[..|ops| - 1], ops[|ops| - 1];
      (last.StartCall? && last.session == session)
      || (OwnCall(front, session) && (last.Queue? ==> Alone(Run(front).sessions, session)))
  }

  /** Alone with its call, the session gets the webhook's events if and only if the webhook is of its call. */
  lemma FoundIsTheSession(sessions: Sessions, e: ManagedEvent, to: Option<nat>, session: nat)
    requires session in sessions && Alone(sessions, session) && Finds(sessions, e, to) && ToProviderEvents(e) != []
    ensures var after := Enqueue(sessions, e, to);
            && session in after && after[session].callId == sessions[session].callId
            && after[session].queue
               == sessions[session].queue + (if Concerns(e, sessions[session].callId) then ToProviderEvents(e) else [])
  {
    assert sessions[session].queue + [] == sessions[session].queue;
  }

  lemma {:induction false} EventsStay(accepted: seq<ManagedEvent>, e: ManagedEvent, places: seq<nat>)
    requires Within(places, |accepted|)
    ensures EventsOf(accepted + [e], places) == EventsOf(accepted, places)
    decreases |places|
  {
    hide ToProviderEvents;
    if places != [] {
      EventsStay(accepted, e, places[..|places| - 1]);
    }
  }

  lemma EventsOneMore(accepted: seq<ManagedEvent>, places: seq<nat>, i: nat)
    requires i < |accepted|
    ensures EventsOf(accepted, places + [i]) == EventsOf(accepted, places) + ToProviderEvents(accepted[i])
  {
    assert (places + [i])[..|places|] == places;
  }

  /** What a step adds to the events a session should have got, from webhook n of the order on. */
  lemma StepAddsEvents(s: State, op: Op, n: nat, callId: string)
    requires Ordered(s) && n <= |s.order|
    ensures var t := Step(s, op);
            && n <= |t.order|
            && EventsOf(t.accepted, QueuedOf(t.accepted, t.order[n..], callId))
               == EventsOf(s.accepted, QueuedOf(s.accepted, s.order[n..], callId))
                  + (if op.Queue? && Waits(s, op.i) && Concerns(s.accepted[op.i], callId)
                     then ToProviderEvents(s.accepted[op.i]) else [])
  {
    hide Fresh, Concerns, ToProviderEvents, Enqueue, QueuedOf, EventsOf, Distinct;
    var since := s.order[n..];
    var q := QueuedOf(s.accepted, since, callId);
    if op.Admit? && Fresh(s, op.event.dedupKey) {
      QueuedOfStays(s.accepted, op.event, since, callId);
      QueuedOfIsOfTheCall(s.accepted, since, callId);
      EventsStay(s.accepted, op.event, q);
    } else if op.Queue? && Waits(s, op.i) {
      assert (s.order + [op.i])[n..] == since + [op.i];
      QueuedOneMore(s.accepted, since, op.i, callId);
      if Concerns(s.accepted[op.i], callId) {
        EventsOneMore(s.accepted, q, op.i);
      } else {
        assert q + [] == q;
      }
    }
  }

  /** What a step moves out of a session's queue and into it. */
  lemma StepMovesEvents(s: State, op: Op, session: nat)
    requires session in s.sessions && session in Step(s, op).sessions && !(op.StartCall? && op.session == session)
    requires op.Queue? ==> Alone(s.sessions, session)
    requires op.Queue? && Waits(s, op.i) ==> Finds(s.sessions, s.accepted[op.i], op.to)
    ensures var before, after := s.sessions[session], Step(s, op).sessions[session];
            && after.callId == before.callId
            && (if op == Drain(session) then before.queue else []) + after.queue
               == before.queue + (if op.Queue? && Waits(s, op.i) && Concerns(s.accepted[op.i], before.callId)
                                  then ToProviderEvents(s.accepted[op.i]) else [])
  {
    hide Fresh, ToProviderEvents, Concerns;
    if op.Queue? && Waits(s, op.i) {
      FoundIsTheSession(s.sessions, s.accepted[op.i], op.to, session);
    }
  }

  /** A session that appears in a step was started in it. */
  lemma OnlyStartsAppear(s: State, op: Op, session: nat)
    requires session in Step(s, op).sessions && session !in s.sessions
    ensures op.StartCall? && op.session == session
  {
    hide ToProviderEvents, Waits, Fresh;
  }

  /**
   For every session and every interleaving: what was drained from it, followed by
   what is still queued, is exactly the provider events of the webhooks of its call
   queued since it was started, once each and in the order of queueing.
   */
  lemma {:induction false} NothingLostNothingTwice(ops: seq<Op>, session: nat)
    requires Routed(ops) && OwnCall(ops, session) && session in Run(ops).sessions
    ensures var call := Run(ops).sessions[session];
            Drained(ops, session) + call.queue == EventsOf(Run(ops).accepted, QueuedSince(ops, session, call.callId))
    decreases |ops|
  {
    hide Step, Waits, Concerns, ToProviderEvents, QueuedOf, EventsOf, Finds, Alone, Ordered;
    var front, last := ops[..|ops| - 1], ops[|ops| - 1];
    var s, t := Run(front), Run(ops);
    if last.StartCall? && last.session == session {
      JustStarted(s, session, last.callId);
    } else {
      if session !in s.sessions {
        OnlyStartsAppear(s, last, session);
      }
      NothingLostNothingTwice(front, session);
      RunIsOrdered(front);
      StepAddsEvents(s, last, QueuedBefore(front, session), s.sessions[session].callId);
      StepMovesEvents(s, last, session);
      var drained := if last == Drain(session) then s.sessions[session].queue else [];
      Regroup(Drained(front, session), drained, t.sessions[session].queue);
    }
  }

  lemma Regroup(a: seq<ProviderEvent>, b: seq<ProviderEvent>, c: seq<ProviderEvent>)
    ensures (a + b) + c == a + (b + c) && a + [] == a
  {
  }

  lemma JustStarted(s: State, session: nat, callId: string)
    ensures var t := Step(s, StartCall(session, callId));
            && t.order == s.order && t.sessions[session] == ManagedSession(callId, [])
            && EventsOf(t.accepted, QueuedOf(t.accepted, t.order[|s.order|..], callId)) == []
  {
    assert s.order[|s.order|..] == [];
  }

  lemma {:induction false} QueuedSplit(accepted: seq<ManagedEvent>, order: seq<nat>, k: nat, callId: string)
    requires k <= |order|
    ensures QueuedOf(accepted, order, callId) == QueuedOf(accepted, order[..k], callId) + QueuedOf(accepted, order[k..], callId)
    decreases |order|
  {
    hide Concerns;
    if k < |order| {
      var front := order[..|order| - 1];
      QueuedSplit(accepted, front, k, callId);
      assert front[..k] == order[..k] && front[k..] == order[k..][..|order| - k - 1];
    } else {
      assert order[..k] == order;
    }
  }

  /** All webhooks of the call have been queued exactly if none of them waits. */
  lemma AllQueuedExactly(s: State, callId: string)
    requires InAcceptance(s, callId)
    ensures |QueuedOf(s.accepted, s.order, callId)| == |AcceptedOf(s.accepted, callId)|
       <==> forall i: nat :: i < |s.accepted| && Concerns(s.accepted[i], callId) ==> !Waits(s, i)
  {
    hide QueuedOf, AcceptedOf, ToProviderEvents;
    var q, a := QueuedOf(s.accepted, s.order, callId), AcceptedOf(s.accepted, callId);
    AcceptedOfRises(s.accepted, callId);
    AcceptedOfIsOfTheCall(s.accepted, callId);
    QueuedOfIsOfTheCall(s.accepted, s.order, callId);
    if |q| < |a| {
      assert a[|q|] in a;
      BeyondThePrefix(q, a, |q|);
    } else {
      assert q == a;
    }
  }

  /**
   When no webhook of the call was queued past an earlier one, the session has got
   a stretch of the webhooks accepted for its call, in the order of acceptance: from
   the first not yet queued at its start up to the first that still waits.
   */
  lemma OrderOfAcceptance(ops: seq<Op>, session: nat)
    requires Routed(ops) && OwnCall(ops, session) && session in Run(ops).sessions
    requires NeverOvertakes(ops, Run(ops).sessions[session].callId)
    ensures var s, call := Run(ops), Run(ops).sessions[session];
            var places := AcceptedOf(s.accepted, call.callId);
            var from := |QueuedOf(s.accepted, s.order[..QueuedBefore(ops, session)], call.callId)|;
            var to := |QueuedOf(s.accepted, s.order, call.callId)|;
            && from <= to <= |places|
            && Drained(ops, session) + call.queue == EventsOf(s.accepted, places[from..to])
            && (to == |places| <==> forall i: nat :: i < |s.accepted| && Concerns(s.accepted[i], call.callId) ==> !Waits(s, i))
  {
    hide Concerns, Waits, Run, Routed, OwnCall, NeverOvertakes, QueuedOf, AcceptedOf, Drained, EventsOf;
    var s, callId := Run(ops), Run(ops).sessions[session].callId;
    QueuedInOrderExactly(ops, callId);
    NothingLostNothingTwice(ops, session);
    AllQueuedExactly(s, callId);
    QueuedSplit(s.accepted, s.order, QueuedBefore(ops, session), callId);
    var q, places := QueuedOf(s.accepted, s.order, callId), AcceptedOf(s.accepted, callId);
    var from := |QueuedOf(s.accepted, s.order[..QueuedBefore(ops, session)], callId)|;
    assert QueuedSince(ops, session, callId) == q[from..] == places[from..|q|];
  }

  /** A session that has ended is forgotten, and nothing is queued for it until it is started again. */
  lemma EndedIsForgotten(s: State, session: nat, op: Op)
    requires !(op.StartCall? && op.session == session)
    ensures session !in Step(Step(s, EndCall(session)), op).sessions
    ensures forall other :: other != session ==>
              (other in Step(s, EndCall(session)).sessions <==> other in s.sessions)
              && (other in s.sessions ==> Step(s, EndCall(session)).sessions[other] == s.sessions[other])
  {
    hide Fresh, Waits, ToProviderEvents;
  }

  lemma OneMoreStep(ops: seq<Op>, op: Op)
    ensures var longer := ops + [op];
            && Run(longer) == Step(Run(ops), op)
            && (Routed(longer) <==> Routed(ops) && (op.Queue? && Waits(Run(ops), op.i) ==>
                 Finds(Run(ops).sessions, Run(ops).accepted[op.i], op.to)))
  {
    assert (ops + [op])[..|ops|] == ops;
  }

  lemma OneMoreOwnCall(ops: seq<Op>, op: Op, session: nat)
    ensures OwnCall(ops + [op], session)
       <==> (op.StartCall? && op.session == session)
            || (OwnCall(ops, session) && (op.Queue? ==> Alone(Run(ops).sessions, session)))
  {
    hide Run, Alone;
    assert (ops + [op])[..|ops|] == ops;
  }

  // ----- what the two locks allow -----

  /** Both webhooks are accepted before either is queued. */
  function BothAccepted(first: ManagedEvent, second: ManagedEvent, session: nat, callId: string): seq<Op> {
    [StartCall(session, callId)] + [Admit(first)] + [Admit(second)]
  }

  lemma FreshAtFirst(s: State, key: string)
    requires |s.accepted| <= 1
    ensures Fresh(s, key) <==> forall e :: e in s.accepted ==> e.dedupKey != key
  {
  }

  lemma BothWait(first: ManagedEvent, second: ManagedEvent, session: nat, callId: string)
    requires Concerns(first, callId) && Concerns(second, callId) && first.dedupKey != second.dedupKey
    ensures var ops := BothAccepted(first, second, session, callId);
            && Routed(ops) && OwnCall(ops, session)
            && Run(ops) == State([first, second], [], map[session := ManagedSession(callId, [])])
  {
    hide Routed, OwnCall, Run, ToProviderEvents, Waits, Fresh;
    var start := [StartCall(session, callId)];
    FreshAtFirst(State([], [], map[session := ManagedSession(callId, [])]), first.dedupKey);
    FreshAtFirst(State([first], [], map[session := ManagedSession(callId, [])]), second.dedupKey);
    OneMoreStep([], start[0]);
    OneMoreStep(start, Admit(first));
    OneMoreStep(start + [Admit(first)], Admit(second));
    OneMoreOwnCall([], start[0], session);
    OneMoreOwnCall(start, Admit(first), session);
    OneMoreOwnCall(start + [Admit(first)], Admit(second), session);
    EmptyRun();
    assert [] + start == start && [] + [first] == [first] && [first] + [second] == [first, second];
  }

  lemma EmptyRun()
    ensures Run([]) == EMPTY && Routed([]) && KeysOf([]) == []
  {
  }

  /** Two webhooks of a call are accepted in one order and reach the queue in the other. */
  lemma WebhooksCanOvertake(first: ManagedEvent, second: ManagedEvent, session: nat, callId: string)
    requires Concerns(first, callId) && Concerns(second, callId) && first.dedupKey != second.dedupKey
    ensures var ops := BothAccepted(first, second, session, callId) + [Queue(1, Some(session))] + [Queue(0, Some(session))];
            && Routed(ops) && OwnCall(ops, session) && session in Run(ops).sessions
            && Run(ops).accepted == [first, second]
            && Run(ops).sessions[session].queue == ToProviderEvents(second) + ToProviderEvents(first)
            && !InAcceptance(Run(ops), callId)
  {
    hide Routed, OwnCall, Run, ToProviderEvents, BothAccepted, InAcceptance, Fresh;
    var both := BothAccepted(first, second, session, callId);
    BothWait(first, second, session, callId);
    OneMoreStep(both, Queue(1, Some(session)));
    OneMoreOwnCall(both, Queue(1, Some(session)), session);
    OneMoreStep(both + [Queue(1, Some(session))], Queue(0, Some(session)));
    OneMoreOwnCall(both + [Queue(1, Some(session))], Queue(0, Some(session)), session);
    var s := Run(both);
    NothingQueued(s, callId);
    assert Waits(s, 0) && Overtakes(s, Queue(1, Some(session)), callId);
    OrderIsKeptExactly(s, Queue(1, Some(session)), callId);
    StepKeepsOrdered(s, Queue(1, Some(session)));
    DisorderStays(Step(s, Queue(1, Some(session))), Queue(0, Some(session)), callId);
  }

  lemma NothingQueued(s: State, callId: string)
    requires s.order == []
    ensures Ordered(s) && InAcceptance(s, callId)
  {
  }

  /** A webhook accepted before the call is started reaches the session if it is queued after the start, and otherwise not. */
  lemma AcceptedBeforeTheStart(e: ManagedEvent, session: nat, callId: string)
    requires Concerns(e, callId)
    ensures var late := [Admit(e)] + [StartCall(session, callId)] + [Queue(0, Some(session))];
            Routed(late) && Run(late).sessions == map[session := ManagedSession(callId, ToProviderEvents(e))]
    ensures var early := [Admit(e)] + [Queue(0, None)] + [StartCall(session, callId)];
            Routed(early) && Run(early).sessions == map[session := ManagedSession(callId, [])]
  {
    hide Routed, Run, ToProviderEvents, Step, Concerns, Waits;
    EmptyRun();
    OneMoreStep([], Admit(e));
    assert [] + [Admit(e)] == [Admit(e)];
    FirstIsAccepted(e);
    OneMoreStep([Admit(e)], StartCall(session, callId));
    OneMoreStep([Admit(e)] + [StartCall(session, callId)], Queue(0, Some(session)));
    QueuedAfterTheStart(e, session, callId);
    OneMoreStep([Admit(e)], Queue(0, None));
    OneMoreStep([Admit(e)] + [Queue(0, None)], StartCall(session, callId));
    QueuedBeforeTheStart(e, session, callId);
  }

  lemma FirstIsAccepted(e: ManagedEvent)
    ensures Step(EMPTY, Admit(e)) == State([e], [], map[])
  {
    hide Fresh;
    FreshAtFirst(EMPTY, e.dedupKey);
    assert [] + [e] == [e];
  }

  lemma QueuedAfterTheStart(e: ManagedEvent, session: nat, callId: string)
    requires Concerns(e, callId)
    ensures var s := Step(State([e], [], map[]), StartCall(session, callId));
            && s == State([e], [], map[session := ManagedSession(callId, [])])
            && Finds(s.sessions, e, Some(session))
            && Step(s, Queue(0, Some(session))).sessions == map[session := ManagedSession(callId, ToProviderEvents(e))]
  {
    hide ToProviderEvents;
    assert [] + ToProviderEvents(e) == ToProviderEvents(e);
  }

  lemma QueuedBeforeTheStart(e: ManagedEvent, session: nat, callId: string)
    ensures var s := Step(State([e], [], map[]), Queue(0, None));
            Step(s, StartCall(session, callId)).sessions == map[session := ManagedSession(callId, [])]
  {
    hide ToProviderEvents;
  }

  // ----- the workflow object -----

  datatype IngestError = PayloadTooLarge | InvalidWebhook | InvalidPayload

  class ManagedCallWorkflow {
    var sessions: Sessions
    const seen: BoundedSeen
    const maxWebhookBytes: nat
    /** The steps so far, in the order in which the locks were taken. */
    ghost var history: seq<Op>

    constructor (maxWebhookBytes: nat)
      ensures Valid() && fresh(seen) && history == []
    {
      hide Run, Routed, KeysOf, LastOf, Remembers;
      seen := new BoundedSeen(DEDUP_CAPACITY);
      sessions := map[];
      this.maxWebhookBytes := maxWebhookBytes;
      history := [];
      new;
      EmptyRun();
    }

    /** The tables are those of the run, and each webhook was queued for a session it found. */
    ghost predicate Valid()
      reads this, seen
    {
      && seen.Valid() && seen.capacity == DEDUP_CAPACITY
      && seen.accepted == KeysOf(Run(history).accepted)
      && sessions == Run(history).sessions
      && Routed(history)
    }

    /** The conservation law for the object, at any moment between two steps. */
    lemma Conserves(session: nat)
      requires Valid() && OwnCall(history, session) && session in sessions
      ensures Drained(history, session) + sessions[session].queue
           == EventsOf(Run(history).accepted, QueuedSince(history, session, sessions[session].callId))
    {
      NothingLostNothingTwice(history, session);
    }

    /** `start_call`, once the provider has created the call. */
    method Start(session: nat, callId: string)
      requires Valid()
      modifies this`sessions, this`history
      ensures Valid() && history == old(history) + [StartCall(session, callId)]
    {
      OneMoreStep(history, StartCall(session, callId));
      sessions := sessions[session := ManagedSession(callId, [])];
      history := history + [StartCall(session, callId)];
    }

    /** The bookkeeping of `end_call`. */
    method End(session: nat) returns (callId: Option<string>)
      requires Valid()
      modifies this`sessions, this`history
      ensures Valid() && history == old(history) + [EndCall(session)]
      ensures callId == if session in old(sessions) then Some(old(sessions)[session].callId) else None
    {
      OneMoreStep(history, EndCall(session));
      callId := if session in sessions then Some(sessions[session].callId) else None;
      sessions := sessions - {session};
      history := history + [EndCall(session)];
    }

    /** `drain_provider_events` */
    method DrainEvents(session: nat) returns (events: seq<ProviderEvent>)
      requires Valid()
      modifies this`sessions, this`history
      ensures Valid() && history == old(history) + [Drain(session)]
      ensures events == if session in old(sessions) then old(sessions)[session].queue else []
    {
      OneMoreStep(history, Drain(session));
      events := [];
      if session in sessions {
        events := sessions[session].queue;
        sessions := sessions[session := sessions[session].(queue := [])];
      }
      history := history + [Drain(session)];
    }

    /** The part of `ingest_webhook` under the deduplication lock: true exactly if none of the last 4096 accepted has the key. */
    method Accept(e: ManagedEvent) returns (inserted: bool)
      requires Valid()
      modifies this`history, seen
      ensures Valid() && history == old(history) + [Admit(e)]
      ensures inserted <==> Fresh(Run(old(history)), e.dedupKey)
      ensures Run(history).accepted == Run(old(history)).accepted + if inserted then [e] else []
    {
      hide LastOf, Remembers, ToProviderEvents;
      OneMoreStep(history, Admit(e));
      inserted := seen.Insert(e.dedupKey);
      history := history + [Admit(e)];
    }

    /** The part under the session lock, for accepted webhook i, which its handler comes to once. */
    method QueueEvents(e: ManagedEvent, ghost i: nat) returns (to: Option<nat>)
      requires Valid()
      requires i < |Run(history).accepted| && Run(history).accepted[i] == e && i !in Run(history).order
      modifies this`sessions, this`history
      ensures Valid() && history == old(history) + [Queue(i, to)]
      ensures if ToProviderEvents(e) == [] then to == None else Finds(old(sessions), e, to)
    {
      hide ToProviderEvents, Remembers;
      to := None;
      if e.callId.Some? && ToProviderEvents(e) != [] {
        to := FindSession(e);
        sessions := Enqueue(sessions, e, to);
      }
      OneMoreStep(history, Queue(i, to));
      history := history + [Queue(i, to)];
    }

    /**
     `ingest_webhook` with nothing in between its parts: `authentic` is the
     verifier's verdict, `parsed` the normalized body. A refused webhook leaves no trace.
     */
    method Ingest(bodyLength: nat, authentic: bool, parsed: Option<ManagedEvent>)
      returns (r: Result<seq<ManagedEvent>, IngestError>, to: Option<nat>)
      requires Valid()
      modifies this`sessions, this`history, seen
      ensures Valid()
      ensures r.Ok? <==> bodyLength <= maxWebhookBytes && authentic && parsed.Some?
      ensures r.Err? ==> history == old(history) && sessions == old(sessions)
      ensures r.Ok? ==> r.value == if Fresh(Run(old(history)), parsed.value.dedupKey) then [parsed.value] else []
      ensures r.Ok? ==> history == old(history) + [Admit(parsed.value)]
                                   + if r.value == [] then [] else [Queue(|Run(old(history)).accepted|, to)]
      ensures r.Ok? && r.value != [] ==>
                if ToProviderEvents(parsed.value) == [] then to == None else Finds(old(sessions), parsed.value, to)
    {
      hide Fresh, ToProviderEvents, Remembers, Routed, Finds, Run;
      to := None;
      if bodyLength > maxWebhookBytes {
        return Err(PayloadTooLarge), None;
      }
      if !authentic {
        return Err(InvalidWebhook), None;
      }
      if parsed.None? {
        return Err(InvalidPayload), None;
      }
      var e := parsed.value;
      ghost var i := |Run(history).accepted|;
      RunIsOrdered(history);
      OneMoreStep(history, Admit(e));
      var inserted := Accept(e);
      if !inserted {
        return Ok([]), None;
      }
      to := QueueEvents(e, i);
      return Ok([e]), to;
    }

    /** The session to queue for: any with the event's call. */
    method FindSession(e: ManagedEvent) returns (to: Option<nat>)
      requires e.callId.Some?
      ensures Finds(sessions, e, to)
    {
      var ids := sessions.Keys;
      while ids != {}
        invariant ids <= sessions.Keys
        invariant forall id :: id in sessions && id !in ids ==> sessions[id].callId != e.callId.value
        decreases ids
      {
        var id :| id in ids;
        if sessions[id].callId == e.callId.value {
          return Some(id);
        }
        ids := ids - {id};
      }
      return None;
    }
  }
}
