/**
 The voice runtime under concurrency: a session's byte budget, its event
 numbers, and the registry of sessions, with the atomic steps of any number of
 callers interleaved in any order.
 */
module VoiceRuntime {
  import opened Collections

  // ----- one session: audio budget and event numbers -----

  /**
   Where a call stands between two atomic steps. `Waiting`: about to reserve.
   `Reserved`: the counter holds its bytes, the limit is not checked yet.
   `Sending`: with the provider. `Settled`: the outcome is known, its event has
   no number yet. `Numbered`: the number is taken, the event not yet sent.
   */
  datatype Phase = Waiting | Reserved(total: nat) | Sending(total: nat) | TooLarge | Settled(ok: bool)
                 | Numbered(ok: bool, number: nat) | Announced(ok: bool, number: nat)

  datatype Call = Call(bytes: nat, phase: Phase)

  /**
   `counter` and `sequence` are the atomics. `takers` remembers who took each
   number, `published` the numbers in the order the events were sent.
   */
  datatype Session = Session(counter: nat, sequence: nat, calls: seq<Call>, takers: seq<nat>, published: seq<nat>)

  const NEW_SESSION := Session(0, 0, [], [], [])

  datatype Action =
    | EnterAudio(length: nat)      // send_audio past its validation
    | EnterEvent                   // any other operation about to publish
    | Reserve(call: nat)           // fetch_add
    | CheckLimit(call: nat)        // compare, and fetch_sub on refusal
    | ProviderAccepts(call: nat)
    | ProviderFails(call: nat)     // fetch_sub, then the error event
    | TakeNumber(call: nat)        // next_sequence
    | Send(call: nat)              // events.send

  function SetPhase(s: Session, i: nat, phase: Phase): Session
    requires i < |s.calls|
  {
    s.(calls := s.calls[i := s.calls[i].(phase := phase)])
  }

  predicate Holds(phase: Phase) {
    phase.Reserved? || phase.Sending?
  }

  /** fetch_sub on a counter that holds at least that much. */
  function Release(counter: nat, bytes: nat): nat {
    if counter >= bytes then counter - bytes else 0
  }

  /** One atomic step; a step its caller is not ready for changes nothing. */
  function Step(s: Session, maxBytes: nat, a: Action): Session {
    match a
    case EnterAudio(length) =>
      if length == 0 || length % 2 != 0 then s else s.(calls := s.calls + [Call(length, Waiting)])
    case EnterEvent => s.(calls := s.calls + [Call(0, Settled(false))])
    case Reserve(i) =>
      if i < |s.calls| && s.calls[i].phase == Waiting then
        var total := s.counter + s.calls[i].bytes;
        SetPhase(s, i, Reserved(total)).(counter := total)
      else s
    case CheckLimit(i) =>
      if i < |s.calls| && s.calls[i].phase.Reserved? then
        if s.calls[i].phase.total > maxBytes then SetPhase(s, i, TooLarge).(counter := Release(s.counter, s.calls[i].bytes))
        else SetPhase(s, i, Sending(s.calls[i].phase.total))
      else s
    case ProviderAccepts(i) =>
      if i < |s.calls| && s.calls[i].phase.Sending? then SetPhase(s, i, Settled(true)) else s
    case ProviderFails(i) =>
      if i < |s.calls| && s.calls[i].phase.Sending? then
        SetPhase(s, i, Settled(false)).(counter := Release(s.counter, s.calls[i].bytes))
      else s
    case TakeNumber(i) =>
      if i < |s.calls| && s.calls[i].phase.Settled? then
        SetPhase(s, i, Numbered(s.calls[i].phase.ok, s.sequence + 1)).(sequence := s.sequence + 1, takers := s.takers + [i])
      else s
    case Send(i) =>
      if i < |s.calls| && s.calls[i].phase.Numbered? then
        var number := s.calls[i].phase.number;
        SetPhase(s, i, Announced(s.calls[i].phase.ok, number)).(published := s.published + [number])
      else s
  }

  function Run(s: Session, maxBytes: nat, actions: seq<Action>): Session
    decreases |actions|
  {
    if actions == [] then s else Run(Step(s, maxBytes, actions[0]), maxBytes, actions[1..])
  }

  // ----- what the counter counts -----

  function Weigh(calls: seq<Call>, weight: Call -> nat): nat {
    if calls == [] then 0 else Weigh(calls[..|calls| - 1], weight) + weight(calls[|calls| - 1])
  }

  lemma WeighAppend(calls: seq<Call>, c: Call, weight: Call -> nat)
    ensures Weigh(calls + [c], weight) == Weigh(calls, weight) + weight(c)
  {
    assert (calls + [c])[..|calls|] == calls;
  }

  lemma {:induction false} WeighUpdate(calls: seq<Call>, i: nat, c: Call, weight: Call -> nat)
    requires i < |calls|
    ensures Weigh(calls[i := c], weight) + weight(calls[i]) == Weigh(calls, weight) + weight(c)
    decreases |calls|
  {
    var last := |calls| - 1;
    if i == last {
      assert calls[i := c][..last] == calls[..last];
    } else {
      WeighUpdate(calls[..last], i, c, weight);
      assert calls[i := c][..last] == calls[..last][i := c];
    }
  }

  lemma {:induction false} WeighAtMost(calls: seq<Call>, light: Call -> nat, heavy: Call -> nat)
    requires forall i :: 0 <= i < |calls| ==> light(calls[i]) <= heavy(calls[i])
    ensures Weigh(calls, light) <= Weigh(calls, heavy)
    decreases |calls|
  {
    if calls != [] {
      WeighAtMost(calls[..|calls| - 1], light, heavy);
    }
  }

  /** Bytes the provider has taken. */
  function AcceptedBytes(c: Call): nat {
    match c.phase
    case Settled(ok) => if ok then c.bytes else 0
    case Numbered(ok, _) => if ok then c.bytes else 0
    case Announced(ok, _) => if ok then c.bytes else 0
    case _ => 0
  }

  /** Bytes the counter holds for calls still under way. */
  function HeldBytes(c: Call): nat {
    if Holds(c.phase) then c.bytes else 0
  }

  /** Bytes of the calls under way that are or will be within the limit. */
  function AdmittedBytes(maxBytes: nat): Call -> nat {
    (c: Call) =>
      match c.phase
      case Reserved(total) => if total <= maxBytes then c.bytes else 0
      case Sending(_) => c.bytes
      case _ => 0
  }

  function Accepted(s: Session): nat {
    Weigh(s.calls, AcceptedBytes)
  }

  function Held(s: Session): nat {
    Weigh(s.calls, HeldBytes)
  }

  function Admitted(s: Session, maxBytes: nat): nat {
    Weigh(s.calls, AdmittedBytes(maxBytes))
  }

  ghost predicate Budget(s: Session, maxBytes: nat) {
    && s.counter == Accepted(s) + Held(s)
    && Accepted(s) + Admitted(s, maxBytes) <= maxBytes
    && (forall i :: 0 <= i < |s.calls| && s.calls[i].phase.Sending? ==> s.calls[i].phase.total <= maxBytes)
  }

  lemma EnterKeepsBudget(s: Session, maxBytes: nat, c: Call)
    requires Budget(s, maxBytes) && (c.phase == Waiting || c.phase == Settled(false))
    ensures Budget(s.(calls := s.calls + [c]), maxBytes)
  {
    WeighAppend(s.calls, c, AcceptedBytes);
    WeighAppend(s.calls, c, HeldBytes);
    WeighAppend(s.calls, c, AdmittedBytes(maxBytes));
  }

  lemma HeldIsCounted(s: Session, i: nat)
    requires i < |s.calls| && Holds(s.calls[i].phase)
    ensures s.calls[i].bytes <= Held(s)
  {
    WeighUpdate(s.calls, i, Call(0, Waiting), HeldBytes);
  }

  /** A phase change moves a call's bytes between the three accounts. */
  lemma PhaseMovesBytes(s: Session, maxBytes: nat, i: nat, phase: Phase)
    requires i < |s.calls|
    ensures var c, c' := s.calls[i], s.calls[i].(phase := phase);
            var s' := SetPhase(s, i, phase);
            && Accepted(s') + AcceptedBytes(c) == Accepted(s) + AcceptedBytes(c')
            && Held(s') + HeldBytes(c) == Held(s) + HeldBytes(c')
            && Admitted(s', maxBytes) + AdmittedBytes(maxBytes)(c) == Admitted(s, maxBytes) + AdmittedBytes(maxBytes)(c')
  {
    var c' := s.calls[i].(phase := phase);
    WeighUpdate(s.calls, i, c', AcceptedBytes);
    WeighUpdate(s.calls, i, c', HeldBytes);
    WeighUpdate(s.calls, i, c', AdmittedBytes(maxBytes));
  }

  lemma AdmittedIsHeld(s: Session, maxBytes: nat)
    ensures Admitted(s, maxBytes) <= Held(s)
  {
    WeighAtMost(s.calls, AdmittedBytes(maxBytes), HeldBytes);
  }

  lemma ReserveKeepsBudget(s: Session, maxBytes: nat, i: nat)
    requires Budget(s, maxBytes) && i < |s.calls| && s.calls[i].phase == Waiting
    ensures Budget(Step(s, maxBytes, Reserve(i)), maxBytes)
  {
    hide Weigh;
    AdmittedIsHeld(s, maxBytes);
    PhaseMovesBytes(s, maxBytes, i, Reserved(s.counter + s.calls[i].bytes));
  }

  lemma CheckKeepsBudget(s: Session, maxBytes: nat, i: nat)
    requires Budget(s, maxBytes) && i < |s.calls| && s.calls[i].phase.Reserved?
    ensures Budget(Step(s, maxBytes, CheckLimit(i)), maxBytes)
  {
    hide Weigh;
    HeldIsCounted(s, i);
    if s.calls[i].phase.total > maxBytes {
      PhaseMovesBytes(s, maxBytes, i, TooLarge);
    } else {
      PhaseMovesBytes(s, maxBytes, i, Sending(s.calls[i].phase.total));
    }
  }

  lemma FailureKeepsBudget(s: Session, maxBytes: nat, i: nat)
    requires Budget(s, maxBytes) && i < |s.calls| && s.calls[i].phase.Sending?
    ensures Budget(Step(s, maxBytes, ProviderFails(i)), maxBytes)
  {
    hide Weigh;
    HeldIsCounted(s, i);
    PhaseMovesBytes(s, maxBytes, i, Settled(false));
  }

  /** A step that only moves a call on, with its bytes where they were. */
  lemma MoveKeepsBudget(s: Session, maxBytes: nat, i: nat, phase: Phase, s': Session)
    requires Budget(s, maxBytes) && i < |s.calls| && s'.calls == SetPhase(s, i, phase).calls && s'.counter == s.counter
    requires !phase.Sending? && !phase.Reserved?
    requires var c, c' := s.calls[i], s.calls[i].(phase := phase);
             AcceptedBytes(c) + HeldBytes(c) == AcceptedBytes(c') && AdmittedBytes(maxBytes)(c) == HeldBytes(c)
    ensures Budget(s', maxBytes)
  {
    hide Weigh;
    PhaseMovesBytes(s, maxBytes, i, phase);
  }

  /** Audio is taken up exactly if it is made of whole samples, at least one. */
  lemma AudioIsTakenExactly(s: Session, maxBytes: nat, length: nat)
    ensures var s' := Step(s, maxBytes, EnterAudio(length));
            if length > 0 && length % 2 == 0 then s' == s.(calls := s.calls + [Call(length, Waiting)]) else s' == s
  {
  }

  /** What the provider takes is accepted; what it does not take is given back. Either way the call has its outcome. */
  lemma ProviderDecides(s: Session, maxBytes: nat, i: nat, takes: bool)
    requires Budget(s, maxBytes) && i < |s.calls| && s.calls[i].phase.Sending?
    ensures var s' := Step(s, maxBytes, if takes then ProviderAccepts(i) else ProviderFails(i));
            && |s'.calls| == |s.calls| && s'.calls[i] == Call(s.calls[i].bytes, Settled(takes))
            && Held(s') + s.calls[i].bytes == Held(s)
            && Accepted(s') == Accepted(s) + (if takes then s.calls[i].bytes else 0)
            && s'.counter == s.counter - (if takes then 0 else s.calls[i].bytes)
  {
    hide Weigh;
    HeldIsCounted(s, i);
    PhaseMovesBytes(s, maxBytes, i, Settled(takes));
  }

  lemma StepKeepsBudget(s: Session, maxBytes: nat, a: Action)
    requires Budget(s, maxBytes)
    ensures Budget(Step(s, maxBytes, a), maxBytes)
  {
    hide Budget;
    var s' := Step(s, maxBytes, a);
    match a
    case EnterAudio(length) => EnterKeepsBudget(s, maxBytes, Call(length, Waiting));
    case EnterEvent => EnterKeepsBudget(s, maxBytes, Call(0, Settled(false)));
    case Reserve(i) =>
      if i < |s.calls| && s.calls[i].phase == Waiting {
        ReserveKeepsBudget(s, maxBytes, i);
      }
    case CheckLimit(i) =>
      if i < |s.calls| && s.calls[i].phase.Reserved? {
        CheckKeepsBudget(s, maxBytes, i);
      }
    case ProviderAccepts(i) =>
      if i < |s.calls| && s.calls[i].phase.Sending? {
        MoveKeepsBudget(s, maxBytes, i, Settled(true), s');
      }
    case ProviderFails(i) =>
      if i < |s.calls| && s.calls[i].phase.Sending? {
        FailureKeepsBudget(s, maxBytes, i);
      }
    case TakeNumber(i) =>
      if i < |s.calls| && s.calls[i].phase.Settled? {
        MoveKeepsBudget(s, maxBytes, i, Numbered(s.calls[i].phase.ok, s.sequence + 1), s');
      }
    case Send(i) =>
      if i < |s.calls| && s.calls[i].phase.Numbered? {
        MoveKeepsBudget(s, maxBytes, i, Announced(s.calls[i].phase.ok, s.calls[i].phase.number), s');
      }
  }

  lemma {:induction false} RunKeepsBudget(s: Session, maxBytes: nat, actions: seq<Action>)
    requires Budget(s, maxBytes)
    ensures Budget(Run(s, maxBytes, actions), maxBytes)
    decreases |actions|
  {
    if actions != [] {
      hide Budget, Step;
      StepKeepsBudget(s, maxBytes, actions[0]);
      RunKeepsBudget(Step(s, maxBytes, actions[0]), maxBytes, actions[1..]);
    }
  }

  lemma NewSessionIsInBudget(maxBytes: nat)
    ensures Budget(NEW_SESSION, maxBytes)
  {
  }

  /** However the calls interleave, the provider never takes more than the limit, and the counter never loses a byte. */
  lemma BudgetIsNeverExceeded(maxBytes: nat, actions: seq<Action>)
    ensures var s := Run(NEW_SESSION, maxBytes, actions);
            Accepted(s) <= maxBytes && s.counter == Accepted(s) + Held(s)
  {
    RunKeepsBudget(NEW_SESSION, maxBytes, actions);
  }

  ghost predicate NothingHeld(s: Session) {
    forall i :: 0 <= i < |s.calls| ==> !Holds(s.calls[i].phase)
  }

  lemma {:induction false} NothingHeldWeighsNothing(calls: seq<Call>)
    requires forall i :: 0 <= i < |calls| ==> !Holds(calls[i].phase)
    ensures Weigh(calls, HeldBytes) == 0
    decreases |calls|
  {
    if calls != [] {
      NothingHeldWeighsNothing(calls[..|calls| - 1]);
    }
  }

  /** With no call under way the counter is what was accepted, so a lone call is admitted exactly if its bytes fit. */
  lemma AtRestTheCounterIsExact(maxBytes: nat, actions: seq<Action>, length: nat)
    requires NothingHeld(Run(NEW_SESSION, maxBytes, actions)) && length > 0 && length % 2 == 0
    ensures var s := Run(NEW_SESSION, maxBytes, actions);
            var i := |s.calls|;
            var s1 := Step(Step(Step(s, maxBytes, EnterAudio(length)), maxBytes, Reserve(i)), maxBytes, CheckLimit(i));
            && s.counter == Accepted(s)
            && (s1.calls[i].phase.Sending? <==> Accepted(s) + length <= maxBytes)
            && (s1.calls[i].phase == TooLarge <==> Accepted(s) + length > maxBytes)
            && (s1.calls[i].phase == TooLarge ==> s1.counter == s.counter)
  {
    NewSessionIsInBudget(maxBytes);
    RunKeepsBudget(NEW_SESSION, maxBytes, actions);
    hide Weigh, Run;
    NothingHeldWeighsNothing(Run(NEW_SESSION, maxBytes, actions).calls);
  }

  /** A reservation stands, with the total it saw, through any steps but its own check. */
  lemma {:induction false} ReservationStands(s: Session, maxBytes: nat, i: nat, actions: seq<Action>)
    requires i < |s.calls| && s.calls[i].phase.Reserved? && CheckLimit(i) !in actions
    ensures i < |Run(s, maxBytes, actions).calls| && Run(s, maxBytes, actions).calls[i] == s.calls[i]
    decreases |actions|
  {
    if actions != [] {
      assert actions[0] in actions && forall a :: a in actions[1..] ==> a in actions;
      ReservationStands(Step(s, maxBytes, actions[0]), maxBytes, i, actions[1..]);
    }
  }

  /**
   A call is admitted exactly if, when it reserved, its bytes fitted beside the
   accepted ones and those held for the calls then under way, doomed ones
   included. What happens between its reservation and its check does not matter.
   */
  lemma AdmittedExactlyIfItFits(maxBytes: nat, before: seq<Action>, i: nat, between: seq<Action>)
    requires i < |Run(NEW_SESSION, maxBytes, before).calls| && Run(NEW_SESSION, maxBytes, before).calls[i].phase == Waiting
    requires CheckLimit(i) !in between
    ensures var s := Run(NEW_SESSION, maxBytes, before);
            var checked := Step(Run(Step(s, maxBytes, Reserve(i)), maxBytes, between), maxBytes, CheckLimit(i));
            && i < |checked.calls|
            && (checked.calls[i].phase.Sending? <==> Accepted(s) + Held(s) + s.calls[i].bytes <= maxBytes)
            && (checked.calls[i].phase == TooLarge <==> Accepted(s) + Held(s) + s.calls[i].bytes > maxBytes)
  {
    hide Run, Weigh;
    BudgetIsNeverExceeded(maxBytes, before);
    ReservationStands(Step(Run(NEW_SESSION, maxBytes, before), maxBytes, Reserve(i)), maxBytes, i, between);
  }

  /** The reservation is only optimistic: a call that fits can be refused because a doomed one holds the counter. */
  lemma ADoomedCallCanCrowdOut()
    ensures var s := Run(NEW_SESSION, 10, [EnterAudio(12), EnterAudio(4), Reserve(0), Reserve(1), CheckLimit(0), CheckLimit(1)]);
            s.calls[1].phase == TooLarge && Accepted(s) == 0 && s.counter == 0
  {
    var s2 := Step(Step(NEW_SESSION, 10, EnterAudio(12)), 10, EnterAudio(4));
    assert s2.calls == [Call(12, Waiting), Call(4, Waiting)];
    var s4 := Step(Step(s2, 10, Reserve(0)), 10, Reserve(1));
    assert s4 == Session(16, 0, [Call(12, Reserved(12)), Call(4, Reserved(16))], [], []);
    var s6 := Step(Step(s4, 10, CheckLimit(0)), 10, CheckLimit(1));
    assert s6 == Session(0, 0, [Call(12, TooLarge), Call(4, TooLarge)], [], []);
    RunSix(NEW_SESSION, 10, EnterAudio(12), EnterAudio(4), Reserve(0), Reserve(1), CheckLimit(0), CheckLimit(1));
    WeighAppend([Call(12, TooLarge)], Call(4, TooLarge), AcceptedBytes);
  }

  lemma RunSix(s: Session, maxBytes: nat, a: Action, b: Action, c: Action, d: Action, e: Action, f: Action)
    ensures Run(s, maxBytes, [a, b, c, d, e, f])
         == Step(Step(Step(Step(Step(Step(s, maxBytes, a), maxBytes, b), maxBytes, c), maxBytes, d), maxBytes, e), maxBytes, f)
  {
    hide Step;
    var w := [a, b, c, d, e, f];
    assert w[1..] == [b, c, d, e, f] && [b, c, d, e, f][1..] == [c, d, e, f] && [c, d, e, f][1..] == [d, e, f];
    assert [d, e, f][1..] == [e, f] && [e, f][1..] == [f] && [f][1..] == [];
    var s1 := Step(s, maxBytes, a);
    var s2 := Step(s1, maxBytes, b);
    var s3 := Step(s2, maxBytes, c);
    var s4 := Step(s3, maxBytes, d);
    assert Run(s, maxBytes, w) == Run(s1, maxBytes, [b, c, d, e, f]);
    assert Run(s1, maxBytes, [b, c, d, e, f]) == Run(s2, maxBytes, [c, d, e, f]);
    assert Run(s2, maxBytes, [c, d, e, f]) == Run(s3, maxBytes, [d, e, f]);
    assert Run(s3, maxBytes, [d, e, f]) == Run(s4, maxBytes, [e, f]);
    assert Run(s4, maxBytes, [e, f]) == Run(Step(s4, maxBytes, e), maxBytes, [f]);
  }

  // ----- event numbers -----

  predicate HasNumber(c: Call, n: nat) {
    (c.phase.Numbered? || c.phase.Announced?) && c.phase.number == n
  }

  /** The n-th number taken was n, and its taker still has it. */
  ghost predicate TakersNumbered(s: Session) {
    && |s.takers| == s.sequence
    && forall n :: 0 <= n < |s.takers| ==> s.takers[n] < |s.calls| && HasNumber(s.calls[s.takers[n]], n + 1)
  }

  ghost predicate OnlyTakersNumbered(s: Session) {
    forall i :: 0 <= i < |s.calls| && (s.calls[i].phase.Numbered? || s.calls[i].phase.Announced?) ==>
      1 <= s.calls[i].phase.number <= |s.takers| && s.takers[s.calls[i].phase.number - 1] == i
  }

  /** Exactly the announced numbers are published, each once. */
  ghost predicate PublishedOnce(s: Session) {
    && (forall k :: 0 <= k < |s.published| ==> 1 <= s.published[k] <= |s.takers|)
    && (forall k, l :: 0 <= k < l < |s.published| ==> s.published[k] != s.published[l])
    && (forall i :: 0 <= i < |s.calls| && s.calls[i].phase.Numbered? ==> s.calls[i].phase.number !in s.published)
    && (forall i :: 0 <= i < |s.calls| && s.calls[i].phase.Announced? ==> s.calls[i].phase.number in s.published)
  }

  ghost predicate Numbering(s: Session) {
    TakersNumbered(s) && OnlyTakersNumbered(s) && PublishedOnce(s)
  }

  /** A step that neither takes nor announces a number. */
  lemma QuietStepKeepsNumbers(s: Session, s': Session)
    requires Numbering(s) && s'.takers == s.takers && s'.sequence == s.sequence && s'.published == s.published
    requires |s.calls| <= |s'.calls|
    requires forall i :: 0 <= i < |s'.calls| && i < |s.calls| && (s.calls[i].phase.Numbered? || s.calls[i].phase.Announced?) ==>
               s'.calls[i] == s.calls[i]
    requires forall i :: 0 <= i < |s'.calls| && (s'.calls[i].phase.Numbered? || s'.calls[i].phase.Announced?) ==>
               i < |s.calls| && s'.calls[i] == s.calls[i]
    ensures Numbering(s')
  {
  }

  lemma TakeKeepsNumbers(s: Session, maxBytes: nat, i: nat)
    requires Numbering(s) && i < |s.calls| && s.calls[i].phase.Settled?
    ensures Numbering(Step(s, maxBytes, TakeNumber(i)))
  {
    var s' := Step(s, maxBytes, TakeNumber(i));
    assert TakersNumbered(s') && OnlyTakersNumbered(s');
    assert forall k :: 0 <= k < |s.published| ==> s.published[k] != s.sequence + 1;
  }

  lemma SendKeepsTakers(s: Session, maxBytes: nat, i: nat)
    requires Numbering(s) && i < |s.calls| && s.calls[i].phase.Numbered?
    ensures TakersNumbered(Step(s, maxBytes, Send(i))) && OnlyTakersNumbered(Step(s, maxBytes, Send(i)))
    ensures 1 <= s.calls[i].phase.number <= |s.takers|
    ensures forall j :: 0 <= j < |s.calls| && j != i && s.calls[j].phase.Numbered? ==>
              s.calls[j].phase.number != s.calls[i].phase.number
  {
    hide PublishedOnce;
    var s' := Step(s, maxBytes, Send(i));
    assert forall n :: 0 <= n < |s.takers| ==> HasNumber(s.calls[s.takers[n]], n + 1) && HasNumber(s'.calls[s.takers[n]], n + 1);
  }

  lemma SendKeepsNumbers(s: Session, maxBytes: nat, i: nat)
    requires Numbering(s) && i < |s.calls| && s.calls[i].phase.Numbered?
    ensures Numbering(Step(s, maxBytes, Send(i)))
  {
    hide TakersNumbered, OnlyTakersNumbered;
    var s' := Step(s, maxBytes, Send(i));
    var n := s.calls[i].phase.number;
    SendKeepsTakers(s, maxBytes, i);
    assert s'.published[|s.published|] == n;
    forall j | 0 <= j < |s'.calls| && s'.calls[j].phase.Announced?
      ensures s'.calls[j].phase.number in s'.published
    {
      if j != i {
        assert s.calls[j].phase.number in s.published;
      }
    }
  }

  lemma StepKeepsNumbers(s: Session, maxBytes: nat, a: Action)
    requires Numbering(s)
    ensures Numbering(Step(s, maxBytes, a))
  {
    hide Numbering;
    match a
    case TakeNumber(i) =>
      if i < |s.calls| && s.calls[i].phase.Settled? {
        TakeKeepsNumbers(s, maxBytes, i);
      }
    case Send(i) =>
      if i < |s.calls| && s.calls[i].phase.Numbered? {
        SendKeepsNumbers(s, maxBytes, i);
      }
    case _ => QuietStepKeepsNumbers(s, Step(s, maxBytes, a));
  }

  lemma {:induction false} RunKeepsNumbers(s: Session, maxBytes: nat, actions: seq<Action>)
    requires Numbering(s)
    ensures Numbering(Run(s, maxBytes, actions))
    decreases |actions|
  {
    if actions != [] {
      hide Numbering, Step;
      StepKeepsNumbers(s, maxBytes, actions[0]);
      RunKeepsNumbers(Step(s, maxBytes, actions[0]), maxBytes, actions[1..]);
    }
  }

  /**
   The numbers issued are exactly 1 to `sequence`, one caller each; once every
   caller has announced its event, each of them was published exactly once.
   */
  lemma NumbersAreExact(maxBytes: nat, actions: seq<Action>)
    ensures var s := Run(NEW_SESSION, maxBytes, actions);
            && (forall n :: 0 <= n < s.sequence ==> n < |s.takers| && s.takers[n] < |s.calls| && HasNumber(s.calls[s.takers[n]], n + 1))
            && (forall i, j, n: nat :: 0 <= i < j < |s.calls| && HasNumber(s.calls[i], n) ==> !HasNumber(s.calls[j], n))
            && (forall i, n: nat :: 0 <= i < |s.calls| && HasNumber(s.calls[i], n) ==> 1 <= n <= s.sequence)
            && (forall k, l :: 0 <= k < l < |s.published| ==> s.published[k] != s.published[l])
            && ((forall i :: 0 <= i < |s.calls| ==> !s.calls[i].phase.Numbered?) ==>
                 forall n :: 1 <= n <= s.sequence ==> n in s.published)
  {
    assert Numbering(NEW_SESSION);
    RunKeepsNumbers(NEW_SESSION, maxBytes, actions);
    hide Run;
    var s := Run(NEW_SESSION, maxBytes, actions);
    if forall i :: 0 <= i < |s.calls| ==> !s.calls[i].phase.Numbered? {
      forall n | 1 <= n <= s.sequence
        ensures n in s.published
      {
        assert HasNumber(s.calls[s.takers[n - 1]], n);
      }
    }
  }

  // ----- the order of publication -----

  /** The events sent so far carry the numbers 1, 2, 3 and so on. */
  ghost predicate InOrder(published: seq<nat>) {
    forall k :: 0 <= k < |published| ==> published[k] == k + 1
  }

  /** A send while another call holds a smaller number it has not announced yet. */
  ghost predicate Overtakes(s: Session, a: Action) {
    && a.Send? && a.call < |s.calls| && s.calls[a.call].phase.Numbered?
    && exists j :: 0 <= j < |s.calls| && s.calls[j].phase.Numbered? && s.calls[j].phase.number < s.calls[a.call].phase.number
  }

  lemma InOrderHolds(published: seq<nat>, n: nat)
    requires InOrder(published)
    ensures n in published <==> 1 <= n <= |published|
  {
    if 1 <= n <= |published| {
      assert published[n - 1] == n;
    }
  }

  /** With the numbers up to m published, the others are all above m, and m + 1, once taken, waits for its taker. */
  lemma UnpublishedAreAbove(s: Session, i: nat)
    requires Numbering(s) && InOrder(s.published)
    requires i < |s.calls| && s.calls[i].phase.Numbered?
    ensures |s.published| < s.calls[i].phase.number <= |s.takers|
    ensures var j := s.takers[|s.published|];
            j < |s.calls| && s.calls[j].phase.Numbered? && s.calls[j].phase.number == |s.published| + 1
  {
    InOrderHolds(s.published, s.calls[i].phase.number);
    assert HasNumber(s.calls[s.takers[|s.published|]], |s.published| + 1);
    InOrderHolds(s.published, |s.published| + 1);
  }

  /** A step keeps the events in the order of their numbers exactly if it does not overtake. */
  lemma OrderIsKeptExactly(s: Session, maxBytes: nat, a: Action)
    requires Numbering(s) && InOrder(s.published)
    ensures InOrder(Step(s, maxBytes, a).published) <==> !Overtakes(s, a)
  {
    hide Numbering;
    if a.Send? && a.call < |s.calls| && s.calls[a.call].phase.Numbered? {
      var m := |s.published|;
      UnpublishedAreAbove(s, a.call);
      assert Step(s, maxBytes, a).published[m] == s.calls[a.call].phase.number;
      if Overtakes(s, a) {
        var j :| 0 <= j < |s.calls| && s.calls[j].phase.Numbered? && s.calls[j].phase.number < s.calls[a.call].phase.number;
        UnpublishedAreAbove(s, j);
      }
    }
  }

  ghost predicate NeverOvertakes(s: Session, maxBytes: nat, actions: seq<Action>)
    decreases |actions|
  {
    actions != [] ==>
      !Overtakes(s, actions[0]) && NeverOvertakes(Step(s, maxBytes, actions[0]), maxBytes, actions[1..])
  }

  /** Nothing is ever unpublished. */
  lemma {:induction false} PublishedGrows(s: Session, maxBytes: nat, actions: seq<Action>)
    ensures s.published <= Run(s, maxBytes, actions).published
    decreases |actions|
  {
    if actions != [] {
      PublishedGrows(Step(s, maxBytes, actions[0]), maxBytes, actions[1..]);
    }
  }

  lemma {:induction false} RunKeepsOrderExactly(s: Session, maxBytes: nat, actions: seq<Action>)
    requires Numbering(s) && InOrder(s.published)
    ensures InOrder(Run(s, maxBytes, actions).published) <==> NeverOvertakes(s, maxBytes, actions)
    decreases |actions|
  {
    hide Numbering, Step, Overtakes;
    if actions != [] {
      var next := Step(s, maxBytes, actions[0]);
      OrderIsKeptExactly(s, maxBytes, actions[0]);
      StepKeepsNumbers(s, maxBytes, actions[0]);
      if InOrder(next.published) {
        RunKeepsOrderExactly(next, maxBytes, actions[1..]);
      } else {
        PublishedGrows(next, maxBytes, actions[1..]);
        StaysOutOfOrder(next.published, Run(next, maxBytes, actions[1..]).published);
      }
    }
  }

  lemma StaysOutOfOrder(early: seq<nat>, late: seq<nat>)
    requires early <= late && !InOrder(early)
    ensures !InOrder(late)
  {
    var k :| 0 <= k < |early| && early[k] != k + 1;
    assert late[k] == early[k];
  }

  /** The events of a run are sent in the order of their numbers exactly if no call announces its event past a smaller number. */
  lemma SentInOrderExactly(maxBytes: nat, actions: seq<Action>)
    ensures InOrder(Run(NEW_SESSION, maxBytes, actions).published) <==> NeverOvertakes(NEW_SESSION, maxBytes, actions)
  {
    assert Numbering(NEW_SESSION);
    RunKeepsOrderExactly(NEW_SESSION, maxBytes, actions);
  }

  /** A call takes a number while another has one it has not announced yet. */
  ghost predicate Overlaps(s: Session, a: Action) {
    && a.TakeNumber? && a.call < |s.calls| && s.calls[a.call].phase.Settled?
    && exists j :: 0 <= j < |s.calls| && s.calls[j].phase.Numbered?
  }

  ghost predicate NeverOverlaps(s: Session, maxBytes: nat, actions: seq<Action>)
    decreases |actions|
  {
    actions != [] ==>
      !Overlaps(s, actions[0]) && NeverOverlaps(Step(s, maxBytes, actions[0]), maxBytes, actions[1..])
  }

  ghost predicate OneAnnouncing(s: Session) {
    forall i, j :: 0 <= i < j < |s.calls| && s.calls[i].phase.Numbered? ==> !s.calls[j].phase.Numbered?
  }

  lemma StepKeepsOneAnnouncing(s: Session, maxBytes: nat, a: Action)
    requires OneAnnouncing(s) && !Overlaps(s, a)
    ensures OneAnnouncing(Step(s, maxBytes, a)) && !Overtakes(s, a)
  {
    var s' := Step(s, maxBytes, a);
    assert forall i :: 0 <= i < |s'.calls| && s'.calls[i].phase.Numbered? ==>
        (i < |s.calls| && s.calls[i].phase.Numbered?) || (a == TakeNumber(i) && s.calls[i].phase.Settled?);
  }

  lemma {:induction false} OneAtATimeNeverOvertakes(s: Session, maxBytes: nat, actions: seq<Action>)
    requires OneAnnouncing(s) && NeverOverlaps(s, maxBytes, actions)
    ensures NeverOvertakes(s, maxBytes, actions)
    decreases |actions|
  {
    if actions != [] {
      hide Step, Overtakes, Overlaps, OneAnnouncing;
      StepKeepsOneAnnouncing(s, maxBytes, actions[0]);
      OneAtATimeNeverOvertakes(Step(s, maxBytes, actions[0]), maxBytes, actions[1..]);
    }
  }

  /** Publishers that never overlap publish exactly 1 to k, in order. */
  lemma PublishersInTurnPublishInOrder(maxBytes: nat, actions: seq<Action>)
    requires NeverOverlaps(NEW_SESSION, maxBytes, actions)
    ensures var s := Run(NEW_SESSION, maxBytes, actions);
            && InOrder(s.published)
            && ((forall i :: 0 <= i < |s.calls| ==> !s.calls[i].phase.Numbered?) ==> |s.published| == s.sequence)
  {
    OneAtATimeNeverOvertakes(NEW_SESSION, maxBytes, actions);
    SentInOrderExactly(maxBytes, actions);
    assert Numbering(NEW_SESSION);
    RunKeepsNumbers(NEW_SESSION, maxBytes, actions);
    AllAnnouncedAllPublished(Run(NEW_SESSION, maxBytes, actions));
  }

  lemma AllAnnouncedAllPublished(s: Session)
    requires Numbering(s) && InOrder(s.published)
    ensures (forall i :: 0 <= i < |s.calls| ==> !s.calls[i].phase.Numbered?) ==> |s.published| == s.sequence
  {
    InOrderHolds(s.published, |s.published|);
    if forall i :: 0 <= i < |s.calls| ==> !s.calls[i].phase.Numbered? {
      forall n | 1 <= n <= s.sequence
        ensures n in s.published
      {
        assert HasNumber(s.calls[s.takers[n - 1]], n);
      }
      InOrderHolds(s.published, s.sequence);
    }
  }

  /** Taking a number and sending the event are two steps, so events can be published out of order. */
  lemma EventsCanOvertake()
    ensures Run(NEW_SESSION, 0, [EnterEvent, EnterEvent, TakeNumber(0), TakeNumber(1), Send(1), Send(0)]).published == [2, 1]
  {
    var s2 := Step(Step(NEW_SESSION, 0, EnterEvent), 0, EnterEvent);
    assert s2.calls == [Call(0, Settled(false)), Call(0, Settled(false))];
    var s4 := Step(Step(s2, 0, TakeNumber(0)), 0, TakeNumber(1));
    assert s4.calls == [Call(0, Numbered(false, 1)), Call(0, Numbered(false, 2))];
    var s6 := Step(Step(s4, 0, Send(1)), 0, Send(0));
    assert s6.published == [2, 1];
    RunSix(NEW_SESSION, 0, EnterEvent, EnterEvent, TakeNumber(0), TakeNumber(1), Send(1), Send(0));
  }

  // ----- the registry: capacity under concurrent starts -----

  /**
   A start: past the first capacity check, past the provider, refused by the
   second check (the provider's session still has to be ended), or over.
   `ending` sessions were ended at the provider but are still registered;
   `leaked` are those the provider failed to end, which the runtime ignores.
   */
  datatype StartPhase = Checked | Opened | Overflowed | Over

  datatype Registry = Registry(starts: seq<StartPhase>, sessions: set<nat>, ending: set<nat>, atProvider: set<nat>, leaked: set<nat>)

  const NO_SESSIONS := Registry([], {}, {}, {}, {})

  datatype RegistryAction =
    | CheckCapacity                            // read lock; a new start, identified by its index
    | OpenAtProvider(start: nat, opens: bool)
    | Register(start: nat)                     // write lock, second check
    | RollBack(start: nat, ends: bool)         // end_session at the provider
    | CloseAtProvider(session: nat, ends: bool)  // end_session or sweep_idle, first half
    | Unregister(session: nat)                 // second half

  function EndAtProvider(r: Registry, x: nat, ends: bool): Registry {
    if ends then r.(atProvider := r.atProvider - {x}, leaked := r.leaked - {x})
    else if x in r.atProvider then r.(leaked := r.leaked + {x})
    else r
  }

  function RegistryStep(r: Registry, maxSessions: nat, a: RegistryAction): Registry {
    match a
    case CheckCapacity => if |r.sessions| >= maxSessions then r else r.(starts := r.starts + [Checked])
    case OpenAtProvider(i, opens) =>
      if i < |r.starts| && r.starts[i] == Checked then
        if opens then r.(starts := r.starts[i := Opened], atProvider := r.atProvider + {i}) else r.(starts := r.starts[i := Over])
      else r
    case Register(i) =>
      if i < |r.starts| && r.starts[i] == Opened then
        if |r.sessions| >= maxSessions then r.(starts := r.starts[i := Overflowed])
        else r.(starts := r.starts[i := Over], sessions := r.sessions + {i})
      else r
    case RollBack(i, ends) =>
      if i < |r.starts| && r.starts[i] == Overflowed then EndAtProvider(r.(starts := r.starts[i := Over]), i, ends) else r
    case CloseAtProvider(x, ends) =>
      if x < |r.starts| && r.starts[x] == Over then
        EndAtProvider(if x in r.sessions then r.(ending := r.ending + {x}) else r, x, ends)
      else r
    case Unregister(x) =>
      if x in r.ending then r.(sessions := r.sessions - {x}, ending := r.ending - {x}) else r
  }

  function RegistryRun(r: Registry, maxSessions: nat, actions: seq<RegistryAction>): Registry
    decreases |actions|
  {
    if actions == [] then r else RegistryRun(RegistryStep(r, maxSessions, actions[0]), maxSessions, actions[1..])
  }

  predicate InTransit(r: Registry, i: nat) {
    i < |r.starts| && (r.starts[i] == Opened || r.starts[i] == Overflowed)
  }

  /** What the provider has open for start or session x. */
  ghost predicate OpenFor(r: Registry, x: nat) {
    InTransit(r, x) || (x in r.sessions && x !in r.ending) || x in r.leaked
  }

  ghost predicate Tracked(r: Registry) {
    && r.ending <= r.sessions
    && (forall x :: x in r.sessions ==> x < |r.starts| && r.starts[x] == Over)
    && (forall x :: x in r.leaked ==> x < |r.starts| && r.starts[x] == Over && (x in r.sessions ==> x in r.ending))
    && (forall x :: x in r.atProvider <==> OpenFor(r, x))
  }

  ghost predicate Capacity(r: Registry, maxSessions: nat) {
    |r.sessions| <= maxSessions && Tracked(r)
  }

  lemma CheckTracks(r: Registry)
    requires Tracked(r)
    ensures Tracked(r.(starts := r.starts + [Checked]))
  {
    var r' := r.(starts := r.starts + [Checked]);
    assert forall x :: InTransit(r', x) <==> InTransit(r, x);
  }

  lemma OpenTracks(r: Registry, i: nat, opens: bool)
    requires Tracked(r) && i < |r.starts| && r.starts[i] == Checked
    ensures Tracked(if opens then r.(starts := r.starts[i := Opened], atProvider := r.atProvider + {i})
                    else r.(starts := r.starts[i := Over]))
  {
    var r' := if opens then r.(starts := r.starts[i := Opened], atProvider := r.atProvider + {i}) else r.(starts := r.starts[i := Over]);
    assert forall x :: InTransit(r', x) <==> InTransit(r, x) || (opens && x == i);
  }

  lemma RegisterTracks(r: Registry, i: nat, full: bool)
    requires Tracked(r) && i < |r.starts| && r.starts[i] == Opened
    ensures Tracked(if full then r.(starts := r.starts[i := Overflowed])
                    else r.(starts := r.starts[i := Over], sessions := r.sessions + {i}))
  {
    var r' := if full then r.(starts := r.starts[i := Overflowed]) else r.(starts := r.starts[i := Over], sessions := r.sessions + {i});
    assert forall x :: InTransit(r', x) <==> InTransit(r, x) && (full || x != i);
  }

  lemma StartStepsTrack(r: Registry, maxSessions: nat, a: RegistryAction)
    requires Tracked(r) && (a.CheckCapacity? || a.OpenAtProvider? || a.Register?)
    ensures Tracked(RegistryStep(r, maxSessions, a))
  {
    hide Tracked;
    match a
    case CheckCapacity => CheckTracks(r);
    case OpenAtProvider(i, opens) =>
      if i < |r.starts| && r.starts[i] == Checked {
        OpenTracks(r, i, opens);
      }
    case Register(i) =>
      if i < |r.starts| && r.starts[i] == Opened {
        RegisterTracks(r, i, |r.sessions| >= maxSessions);
      }
  }

  lemma EndStepsTrack(r: Registry, maxSessions: nat, a: RegistryAction)
    requires Tracked(r) && (a.RollBack? || a.CloseAtProvider? || a.Unregister?)
    ensures Tracked(RegistryStep(r, maxSessions, a))
  {
    var r' := RegistryStep(r, maxSessions, a);
    assert r'.ending <= r'.sessions;
  }

  lemma RegistryStepKeeps(r: Registry, maxSessions: nat, a: RegistryAction)
    requires Capacity(r, maxSessions)
    ensures Capacity(RegistryStep(r, maxSessions, a), maxSessions)
  {
    hide Tracked;
    var r' := RegistryStep(r, maxSessions, a);
    if a.Unregister? {
      SubsetIsSmaller(r'.sessions, r.sessions);
    }
    if a.CheckCapacity? || a.OpenAtProvider? || a.Register? {
      StartStepsTrack(r, maxSessions, a);
    } else {
      EndStepsTrack(r, maxSessions, a);
    }
  }

  lemma {:induction false} RegistryRunKeeps(r: Registry, maxSessions: nat, actions: seq<RegistryAction>)
    requires Capacity(r, maxSessions)
    ensures Capacity(RegistryRun(r, maxSessions, actions), maxSessions)
    decreases |actions|
  {
    if actions != [] {
      hide Capacity, RegistryStep;
      RegistryStepKeeps(r, maxSessions, actions[0]);
      RegistryRunKeeps(RegistryStep(r, maxSessions, actions[0]), maxSessions, actions[1..]);
    }
  }

  // ----- what starts and ends achieve -----

  /** A start with nothing in between, and what is left of it when the registry has filled up meanwhile. */
  lemma StartsExactlyWithRoom(r: Registry, maxSessions: nat)
    requires Capacity(r, maxSessions)
    ensures var i := |r.starts|;
            var r1 := RegistryStep(r, maxSessions, CheckCapacity);
            var r2 := RegistryStep(r1, maxSessions, OpenAtProvider(i, true));
            var r3 := RegistryStep(r2, maxSessions, Register(i));
            if |r.sessions| < maxSessions then r3.sessions == r.sessions + {i} && r3.atProvider == r.atProvider + {i}
            else r3 == r
  {
    assert |r.starts| !in r.sessions && |r.starts| !in r.atProvider;
  }

  /** A start that the provider opened is registered exactly if there is room when its turn comes, and rolled back if not. */
  lemma RegistersExactlyWithRoom(r: Registry, maxSessions: nat, i: nat)
    requires Capacity(r, maxSessions) && i < |r.starts| && r.starts[i] == Opened
    ensures var r1 := RegistryStep(r, maxSessions, Register(i));
            var r2 := RegistryStep(r1, maxSessions, RollBack(i, true));
            if |r.sessions| < maxSessions then r2 == r1 && r1.sessions == r.sessions + {i} && i in r1.atProvider
            else r2.sessions == r.sessions && r2.atProvider == r.atProvider - {i} && r2.leaked == r.leaked
  {
    assert InTransit(r, i);
    assert i in r.atProvider && i !in r.sessions && i !in r.leaked;
  }

  /** A session that is ended is gone from the registry and from the provider. */
  lemma EndsCompletely(r: Registry, maxSessions: nat, x: nat)
    requires Capacity(r, maxSessions) && x in r.sessions
    ensures var r1 := RegistryStep(r, maxSessions, CloseAtProvider(x, true));
            var r2 := RegistryStep(r1, maxSessions, Unregister(x));
            r2.sessions == r.sessions - {x} && r2.atProvider == r.atProvider - {x} && x !in r2.leaked
  {
    assert x < |r.starts|;
  }

  /** Nothing stays open at the provider unnoticed unless the provider failed to end it. */
  lemma {:induction false} LeaksNeedFailures(r: Registry, maxSessions: nat, actions: seq<RegistryAction>)
    requires r.leaked == {}
    requires forall i :: 0 <= i < |actions| && (actions[i].RollBack? || actions[i].CloseAtProvider?) ==> actions[i].ends
    ensures RegistryRun(r, maxSessions, actions).leaked == {}
    decreases |actions|
  {
    if actions != [] {
      assert forall i :: 0 <= i < |actions| - 1 ==> actions[1..][i] == actions[i + 1];
      LeaksNeedFailures(RegistryStep(r, maxSessions, actions[0]), maxSessions, actions[1..]);
    }
  }

  /**
   However starts, ends and sweeps interleave, the registry stays within its
   capacity, and when nothing is in transit the provider has open exactly the
   registered sessions and those it failed to end: a start refused late leaves
   nothing behind.
   */
  lemma RegistryMatchesProvider(maxSessions: nat, actions: seq<RegistryAction>)
    ensures var r := RegistryRun(NO_SESSIONS, maxSessions, actions);
            && |r.sessions| <= maxSessions
            && ((forall i :: 0 <= i < |r.starts| ==> !InTransit(r, i)) && r.ending == {} ==>
                 r.atProvider == r.sessions + r.leaked && r.sessions !! r.leaked)
  {
    assert Capacity(NO_SESSIONS, maxSessions);
    RegistryRunKeeps(NO_SESSIONS, maxSessions, actions);
  }
}
