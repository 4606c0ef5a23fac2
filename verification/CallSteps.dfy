/** What walking a plan, delivering a report and replaying one do to a call and its log. */
module CallSteps {
  import opened Prelude
  import opened CallDomain
  import opened CallPaths
  import opened CallStore

  /** The version counts steps of a graph without cycles, so it never saturates. */
  ghost predicate Bounded(call: Call) {
    call.version <= call.state.Rank()
  }

  // ----- the log -----

  ghost predicate Chain(log: seq<LogRow>, state: CallState) {
    && (forall i :: 0 <= i < |log| ==> Transition(log[i].from, log[i].transition) == Ok(log[i].to))
    && (forall i {:trigger log[i + 1]} :: 0 <= i < |log| - 1 ==> log[i + 1].from == log[i].to)
    && (if log == [] then state == Requested else log[0].from == Requested && log[|log| - 1].to == state)
  }

  ghost predicate Increasing(log: seq<LogRow>) {
    forall i, j :: 0 <= i < j < |log| && log[i].sequence.Some? && log[j].sequence.Some? ==>
      log[i].sequence.value < log[j].sequence.value
  }

  /** The last sequence number that occurs in the log. */
  ghost predicate IsLastSequence(log: seq<LogRow>, last: Option<U64>) {
    match last
    case None => forall i :: 0 <= i < |log| ==> log[i].sequence.None?
    case Some(n) =>
      exists i :: 0 <= i < |log| && log[i].sequence == last && forall j :: i < j < |log| ==> log[j].sequence.None?
  }

  /**
   The call row and its transition log tell one story: the log is an unbroken
   chain of legal steps from Requested to the row's state, and every counter
   and timestamp of the row can be read off it.
   */
  ghost predicate Consistent(call: Call, log: seq<LogRow>) {
    && Chain(log, call.state)
    && |log| == call.version
    && Increasing(log)
    && IsLastSequence(log, call.lastSequence)
    && call.updatedAt == (if log == [] then call.createdAt else log[|log| - 1].occurredAt)
    && (if call.state.IsTerminal() then
      && log != []
      && call.endedAt == Some(log[|log| - 1].occurredAt)
      && call.terminalTransition == Some(log[|log| - 1].transition)
    else
      call.endedAt == None && call.terminalTransition == None)
  }

  lemma LastSequenceBoundsAll(log: seq<LogRow>, n: U64)
    requires Increasing(log) && IsLastSequence(log, Some(n))
    ensures forall i :: 0 <= i < |log| && log[i].sequence.Some? ==> log[i].sequence.value <= n
  {
  }

  lemma ChainGrows(log: seq<LogRow>, state: CallState, row: LogRow)
    requires Chain(log, state) && row.from == state && Transition(row.from, row.transition) == Ok(row.to)
    ensures Chain(log + [row], row.to)
  {
    hide Transition;
    forall i | 0 <= i < |log|
      ensures (log + [row])[i + 1].from == (log + [row])[i].to
    {
      if i < |log| - 1 {
        assert log[i + 1].from == log[i].to;
      }
    }
  }

  lemma SequencesGrow(log: seq<LogRow>, last: Option<U64>, row: LogRow)
    requires Increasing(log) && IsLastSequence(log, last) && !Stale(last, row.sequence)
    ensures Increasing(log + [row])
    ensures IsLastSequence(log + [row], if row.sequence.Some? then row.sequence else last)
  {
    var log' := log + [row];
    if row.sequence.Some? {
      if last.Some? {
        LastSequenceBoundsAll(log, last.value);
      }
      assert log'[|log|].sequence == row.sequence;
    } else if last.Some? {
      var i :| 0 <= i < |log| && log[i].sequence == last && forall j :: i < j < |log| ==> log[j].sequence.None?;
      assert log'[i].sequence == last;
    }
  }

  lemma AdvanceKeepsConsistent(call: Call, log: seq<LogRow>, event: CallTransition, sequence: Option<U64>, at: nat)
    requires Consistent(call, log) && Bounded(call)
    requires Advance(call, event, sequence, at).Ok?
    ensures var next := Advance(call, event, sequence, at).value;
            && Bounded(next)
            && Consistent(next, log + [LogRow(call.state, next.state, event, sequence, at)])
  {
    hide Chain, Increasing, IsLastSequence;
    var next := Advance(call, event, sequence, at).value;
    var row := LogRow(call.state, next.state, event, sequence, at);
    ChainGrows(log, call.state, row);
    SequencesGrow(log, call.lastSequence, row);
  }

  /** The columns that neither a transition nor a link ever changes. */
  ghost predicate SameIdentity(a: Call, b: Call) {
    && a.interviewId == b.interviewId && a.provider == b.provider && a.direction == b.direction
    && a.transport == b.transport && a.createdAt == b.createdAt
  }

  lemma {:induction false} WalkCounts(call: Call, plan: Word, sequence: Option<U64>, index: U64, at: nat)
    requires index + |plan| <= U64_MAX && Bounded(call)
    ensures var w := Walk(call, plan, sequence, index, at);
            && Bounded(w.call)
            && w.call.version == call.version + |w.rows|
            && w.call.providerCallId == call.providerCallId
            && SameIdentity(w.call, call)
    decreases |plan|
  {
    if plan != [] {
      match Advance(call, plan[0], StepSequence(sequence, index), at)
      case Err(_) =>
      case Ok(next) => WalkCounts(next, plan[1..], sequence, index + 1, at);
    }
  }

  /** The first step of a walk that gets anywhere. */
  lemma WalkUnfolds(call: Call, log: seq<LogRow>, plan: Word, sequence: Option<U64>, index: U64, at: nat)
    requires index + |plan| <= U64_MAX
    requires Walk(call, plan, sequence, index, at).rows != []
    ensures plan != []
    ensures var received := StepSequence(sequence, index);
            && Advance(call, plan[0], received, at).Ok?
            && var next := Advance(call, plan[0], received, at).value;
               var row := LogRow(call.state, next.state, plan[0], received, at);
               var w := Walk(call, plan, sequence, index, at);
               var rest := Walk(next, plan[1..], sequence, index + 1, at);
               w.call == rest.call && log + w.rows == (log + [row]) + rest.rows
  {
  }

  lemma {:induction false} WalkKeepsConsistent(
    call: Call, log: seq<LogRow>, plan: Word, sequence: Option<U64>, index: U64, at: nat)
    requires index + |plan| <= U64_MAX && Bounded(call) && Consistent(call, log)
    ensures var w := Walk(call, plan, sequence, index, at);
            Consistent(w.call, log + w.rows)
    decreases |plan|
  {
    hide Consistent, Advance;
    var w := Walk(call, plan, sequence, index, at);
    if w.rows == [] {
      assert log + w.rows == log;
    } else {
      WalkUnfolds(call, log, plan, sequence, index, at);
      var received := StepSequence(sequence, index);
      var next := Advance(call, plan[0], received, at).value;
      AdvanceKeepsConsistent(call, log, plan[0], received, at);
      var log' := log + [LogRow(call.state, next.state, plan[0], received, at)];
      WalkKeepsConsistent(next, log', plan[1..], sequence, index + 1, at);
    }
  }

  /** A walk along a legal word completes when its first step is fresh and its numbers do not run past the last u64. */
  lemma {:induction false} WalkCompletes(call: Call, plan: Word, sequence: Option<U64>, index: U64, at: nat)
    requires index + |plan| <= U64_MAX
    requires Follow(call.state, plan).Some?
    requires plan != [] ==> !Stale(call.lastSequence, StepSequence(sequence, index))
    requires sequence.Some? ==> sequence.value + index + |plan| <= U64_MAX + 1
    ensures Walk(call, plan, sequence, index, at).complete
    ensures Walk(call, plan, sequence, index, at).call.state == Follow(call.state, plan).value
    decreases |plan|
  {
    if plan != [] {
      var next := Advance(call, plan[0], StepSequence(sequence, index), at).value;
      WalkCompletes(next, plan[1..], sequence, index + 1, at);
    }
  }

  /** A walk whose numbers would run past the last u64 is refused part of the way. */
  lemma {:induction false} WalkSaturates(call: Call, plan: Word, sequence: U64, index: U64, at: nat)
    requires index + |plan| <= U64_MAX
    requires sequence + index + |plan| > U64_MAX + 1 && plan != []
    requires index > 0 ==> call.lastSequence == Some(SaturatingAdd(sequence, index - 1))
    ensures !Walk(call, plan, Some(sequence), index, at).complete
    decreases |plan|
  {
    match Advance(call, plan[0], StepSequence(Some(sequence), index), at)
    case Err(_) =>
    case Ok(next) =>
      if |plan| > 1 {
        WalkSaturates(next, plan[1..], sequence, index + 1, at);
      }
  }

  // ----- delivery against replay -----

  /**
   The branch of `apply_state` that commits log rows without the call row: a
   fresh report whose step numbers, counted up from its sequence, pass u64::MAX.
   */
  predicate Overrun(d: Dossier, m: Message) {
    && m.eventId !in d.events
    && var plan := Moves(d.call.state, m.target);
       && plan.Some?
       && m.sequence.Some?
       && !Stale(d.call.lastSequence, m.sequence)
       && m.sequence.value + |plan.value| > U64_MAX + 1
  }

  lemma MovesIsShortest(from: CallState, to: CallState)
    ensures Moves(from, to).Some? ==> from != to && Shortest(from, Moves(from, to).value, to)
    ensures Moves(from, to).None? ==> from == to || forall u :: !Reaches(from, u, to)
  {
    PlanIsShortest(from, to);
  }

  /** Outside an overrun a report is applied whole or not at all. */
  lemma WholeOrNothing(d: Dossier, m: Message)
    requires m.eventId !in d.events && Moves(d.call.state, m.target).Some?
    ensures var plan := Moves(d.call.state, m.target).value;
            var w := Walk(d.call, plan, m.sequence, 0, m.at);
            if Overrun(d, m) then !w.complete && w.rows != []
            else if Stale(d.call.lastSequence, m.sequence) then w == Walked(d.call, [], false)
            else w.complete && w.rows != [] && w.call.state == m.target
  {
    var plan := Moves(d.call.state, m.target).value;
    MovesIsShortest(d.call.state, m.target);
    assert Follow(d.call.state, plan).Some?;
    if Overrun(d, m) {
      WalkSaturates(d.call, plan, m.sequence.value, 0, m.at);
    } else if !Stale(d.call.lastSequence, m.sequence) {
      WalkCompletes(d.call, plan, m.sequence, 0, m.at);
    }
  }

  /** The event rows agree up to the outcome label, which replay writes differently. */
  ghost predicate SameEvents(a: map<string, EventRow>, b: map<string, EventRow>) {
    a.Keys == b.Keys && forall e :: e in a ==> a[e].target == b[e].target && a[e].receivedAt == b[e].receivedAt
  }

  /** Same call row, same log, same recorded events. */
  ghost predicate Alike(a: Dossier, b: Dossier) {
    a.call == b.call && a.log == b.log && SameEvents(a.events, b.events)
  }

  /** How many log rows the call row does not account for. */
  ghost function Gap(d: Dossier): int {
    |d.log| - d.call.version as int
  }

  lemma ReplayKeeps(d: Dossier, m: Message)
    requires Bounded(d.call)
    ensures var r := Replay(d, m);
            && Bounded(r.call) && Gap(r) == Gap(d)
            && r.call.providerCallId == d.call.providerCallId && SameIdentity(r.call, d.call)
            && r.events.Keys == d.events.Keys + {m.eventId}
            && (Consistent(d.call, d.log) ==> Consistent(r.call, r.log))
            && ((r.call, r.log) != (d.call, d.log) ==> m.eventId !in d.events)
  {
    var plan := Moves(d.call.state, m.target);
    if m.eventId !in d.events && plan.Some? {
      WalkCounts(d.call, plan.value, m.sequence, 0, m.at);
      if Consistent(d.call, d.log) {
        WalkKeepsConsistent(d.call, d.log, plan.value, m.sequence, 0, m.at);
      }
    }
  }

  lemma DeliverKeeps(d: Dossier, m: Message)
    requires Bounded(d.call)
    ensures var r := Deliver(d, m);
            && Bounded(r.call)
            && (if Overrun(d, m) then Gap(r) > Gap(d) else Gap(r) == Gap(d))
            && r.call.providerCallId == d.call.providerCallId && SameIdentity(r.call, d.call)
            && r.events.Keys == d.events.Keys + {m.eventId}
            && (Consistent(d.call, d.log) && !Overrun(d, m) ==> Consistent(r.call, r.log))
            && ((r.call, r.log) != (d.call, d.log) ==> m.eventId !in d.events)
  {
    var plan := Moves(d.call.state, m.target);
    if m.eventId !in d.events && plan.Some? {
      var w := Walk(d.call, plan.value, m.sequence, 0, m.at);
      WholeOrNothing(d, m);
      WalkCounts(d.call, plan.value, m.sequence, 0, m.at);
      assert w.rows == [] ==> d.log + w.rows == d.log;
      if Consistent(d.call, d.log) {
        WalkKeepsConsistent(d.call, d.log, plan.value, m.sequence, 0, m.at);
      }
    }
  }

  /** Outside an overrun the two ways of handling a report leave the same row and log. */
  lemma SameUnlessOverrun(a: Dossier, m: Message)
    requires !Overrun(a, m)
    ensures Alike(Deliver(a, m), Replay(a, m))
  {
    if m.eventId !in a.events && Moves(a.call.state, m.target).Some? {
      WholeOrNothing(a, m);
    }
  }

  lemma ReplayIsBlindToLabels(a: Dossier, b: Dossier, m: Message)
    requires Alike(a, b)
    ensures Alike(Replay(a, m), Replay(b, m))
    ensures Overrun(a, m) <==> Overrun(b, m)
  {
  }

  /** Delivering and replaying one report do the same exactly when there is no overrun. */
  lemma DeliverIsReplay(a: Dossier, b: Dossier, m: Message)
    requires Alike(a, b) && Bounded(a.call)
    ensures Alike(Deliver(a, m), Replay(b, m)) <==> !Overrun(a, m)
    ensures Overrun(a, m) <==> Overrun(b, m)
  {
    ReplayIsBlindToLabels(a, b, m);
    if Overrun(a, m) {
      DeliverKeeps(a, m);
      ReplayKeeps(b, m);
      assert Gap(a) == Gap(b);
    } else {
      SameUnlessOverrun(a, m);
    }
  }

  /**
   A report brings the call to its target exactly when the call is there
   already, or the report is new, in sequence and within u64 range and some
   word of transitions leads there; it then costs the shortest distance.
   */
  lemma ReportArrives(d: Dossier, m: Message)
    requires Bounded(d.call)
    ensures Deliver(d, m).call.state == m.target <==>
            || d.call.state == m.target
            || (&& m.eventId !in d.events
                && !Stale(d.call.lastSequence, m.sequence)
                && !Overrun(d, m)
                && exists u :: Reaches(d.call.state, u, m.target))
    ensures Deliver(d, m).call.state == m.target && d.call.state != m.target ==>
            exists word :: Shortest(d.call.state, word, m.target)
                           && Deliver(d, m).call.version == d.call.version + |word|
  {
    MovesIsShortest(d.call.state, m.target);
    var plan := Moves(d.call.state, m.target);
    if m.eventId !in d.events && plan.Some? {
      assert Reaches(d.call.state, plan.value, m.target);
      WholeOrNothing(d, m);
      WalkCounts(d.call, plan.value, m.sequence, 0, m.at);
    }
  }

  lemma {:induction false} ReplayAllKeeps(d: Dossier, ms: seq<Message>)
    requires Bounded(d.call)
    ensures var r := ReplayAll(d, ms);
            && Bounded(r.call) && Gap(r) == Gap(d)
            && r.call.providerCallId == d.call.providerCallId && SameIdentity(r.call, d.call)
            && r.events.Keys == d.events.Keys + (set m | m in ms :: m.eventId)
            && (Consistent(d.call, d.log) ==> Consistent(r.call, r.log))
    decreases |ms|
  {
    if ms != [] {
      var last := |ms| - 1;
      ReplayAllKeeps(d, ms[..last]);
      ReplayKeeps(ReplayAll(d, ms[..last]), ms[last]);
      assert ms == ms[..last] + [ms[last]];
    }
  }

  lemma {:induction false} ReplayAllConcat(d: Dossier, a: seq<Message>, b: seq<Message>)
    ensures ReplayAll(d, a + b) == ReplayAll(ReplayAll(d, a), b)
    decreases |b|
  {
    if b == [] {
      assert a + b == a;
    } else {
      var last := |b| - 1;
      assert (a + b)[..|a + b| - 1] == a + b[..last];
      ReplayAllConcat(d, a, b[..last]);
    }
  }

  lemma ReplayAllSnoc(d: Dossier, ms: seq<Message>, m: Message)
    ensures ReplayAll(d, ms + [m]) == Replay(ReplayAll(d, ms), m)
  {
    assert (ms + [m])[..|ms|] == ms;
  }

  // ----- the end of a call -----

  /** No plan leaves a terminal state. */
  lemma TerminalHasNoMoves(from: CallState, to: CallState)
    requires from.IsTerminal()
    ensures Moves(from, to).None?
  {
  }

  lemma TerminalDelivery(d: Dossier, m: Message)
    requires d.call.state.IsTerminal()
    ensures Deliver(d, m).call == d.call && Deliver(d, m).log == d.log
  {
    TerminalHasNoMoves(d.call.state, m.target);
  }

  lemma {:induction false} TerminalIsFrozen(d: Dossier, ms: seq<Message>)
    requires d.call.state.IsTerminal()
    ensures ReplayAll(d, ms).call == d.call && ReplayAll(d, ms).log == d.log
    decreases |ms|
  {
    if ms != [] {
      TerminalIsFrozen(d, ms[..|ms| - 1]);
      TerminalHasNoMoves(d.call.state, ms[|ms| - 1].target);
    }
  }
}
