/** What the callers of the call transactions are told, against what the tables hold before and after. */
module CallAnswers {
  import opened Prelude
  import opened Text
  import opened CallDomain
  import opened CallPaths
  import opened CallStore
  import opened CallSteps
  import opened CallRuns
  import opened CallKeys

  // ----- reports -----

  function Told(db: Database, report: Report): Result<ApplyOutcome, StoreError>
    requires Valid(db)
  {
    ApplyState(db, report).1
  }

  /** The call a report is about: the one with its call id if that is on file, else the one linked to its provider call. */
  ghost predicate IsAbout(db: Database, report: Report, c: CallId) {
    && c in db.calls
    && (report.callId == Some(c)
        || ((report.callId.None? || report.callId.value !in db.calls) && Given(report.providerCallId)
            && db.calls[c].providerCallId == report.providerCallId))
  }

  /** A call takes a report that names a provider call if it is linked to that, or to none and can be linked. */
  ghost predicate MayTake(db: Database, report: Report, c: CallId)
    requires c in db.calls
  {
    && db.calls[c].provider == report.provider
    && (Given(report.providerCallId) ==>
        || db.calls[c].providerCallId == report.providerCallId
        || (db.calls[c].providerCallId.None? && Trim(report.providerCallId.value) != ""
            && forall k :: k in db.calls ==> db.calls[k].providerCallId != Some(Trim(report.providerCallId.value))))
  }

  /** A report reaches exactly the call it is about, if it has an event id and that call takes it. */
  lemma ReachesExactly(db: Database, report: Report, c: CallId)
    requires Valid(db)
    ensures TargetOf(db, report) == Some(c)
       <==> Trim(report.eventId) != "" && IsAbout(db, report, c) && MayTake(db, report, c)
  {
    hide Trim, DistinctKeys, VersionsBounded, KeysPointToCalls;
  }

  /** A report moves the call it reaches: it was new, and the call is now where the report says, by at least one step. */
  ghost predicate Moved(before: Dossier, after: Dossier, m: Message) {
    m.eventId !in before.events && after.call.version > before.call.version && after.call.state == m.target
  }

  /**
   What is said of a delivery is what it did; the row that is shown is the one on
   file exactly if the delivery did not overrun. An overrun shows the row its steps
   would have made.
   */
  lemma DeliveryIsTold(d: Dossier, m: Message)
    requires Bounded(d.call)
    ensures var d', told := Deliver(d, m), DeliveryOutcome(d, m);
            && !told.Unmatched?
            && (told.Duplicate? <==> m.eventId in d.events)
            && (told.Applied? <==> Moved(d, d', m))
            && (!told.Applied? ==> d'.call == d.call)
            && (told.call == d'.call <==> !Overrun(d, m))
            && (!told.Duplicate? ==>
                 d'.events == d.events[m.eventId := EventRow(m.target, if told.Applied? then AppliedLabel else IgnoredLabel, m.at)])
  {
    hide Advance, Plan, Search, Stale, StepSequence;
    if m.eventId !in d.events && Moves(d.call.state, m.target).Some? {
      var plan := Moves(d.call.state, m.target).value;
      WholeOrNothing(d, m);
      WalkCounts(d.call, plan, m.sequence, 0, m.at);
      WalkStays(d.call, plan, m.sequence, m.at);
    }
  }

  /** A replay labels its event applied whenever there was somewhere to go, taken or not. */
  lemma ReplayIsLabelled(d: Dossier, m: Message)
    requires m.eventId !in d.events
    ensures var somewhere := d.call.state != m.target && exists u :: Reaches(d.call.state, u, m.target);
            Replay(d, m).events
            == d.events[m.eventId := EventRow(m.target, if somewhere then AppliedLabel else IgnoredLabel, m.at)]
  {
    hide Walk;
    MovesIsShortest(d.call.state, m.target);
    var plan := Moves(d.call.state, m.target);
    if plan.Some? {
      assert Reaches(d.call.state, plan.value, m.target);
    }
  }

  lemma WalkStays(call: Call, plan: Word, sequence: Option<U64>, at: nat)
    requires |plan| <= 7
    ensures var w := Walk(call, plan, sequence, 0, at); w.rows == [] ==> w.call == call
  {
    hide Walk;
  }

  /**
   A report that reaches a call is told whether it moved the call, was known
   already, or was put on record without effect, and shown the call's row as it is
   now unless it overran. One that reaches none is told an error and leaves no trace, or is buffered.
   */
  lemma ReportIsTold(db: Database, report: Report)
    requires Valid(db)
    ensures Valid(Step(db, Receive(report)))
    ensures var db', m := Step(db, Receive(report)), AsMessage(report);
            match TargetOf(db, report)
            case Some(c) =>
              && c in db'.calls && Told(db, report).Ok?
              && var told := Told(db, report).value;
                 && !told.Unmatched?
                 && (told.call == db'.calls[c] <==> !Overrun(File(Admit(db, c, report).value, c), m))
                 && (told.Duplicate? <==> m.eventId in db.events[c])
                 && (told.Applied? <==> Moved(File(db, c), File(db', c), m))
                 && m.eventId in db'.events[c]
            case None =>
              && db' == db.(unmatched := db'.unmatched)
              && (Told(db, report).Ok? ==> Told(db, report).value == Unmatched && Given(report.providerCallId)
                                           && InBuffer(db'.unmatched, AsBuffered(report)))
              && (Told(db, report).Err? ==> db' == db)
  {
    hide ApplyState, Deliver, DeliveryOutcome, Lookup, TargetOf, SameButLink, Indexed, DistinctKeys, KeysPointToCalls, InBuffer,
         Overrun, Moved, Trim;
    StepValid(db, Receive(report));
    match TargetOf(db, report)
    case Some(c) =>
      AdmitChangesLinkOnly(db, c, report, c);
      ReachedIsTold(db, report, c);
    case None => UnreachedIsTold(db, report);
  }

  lemma ReachedIsTold(db: Database, report: Report, c: CallId)
    requires Valid(db) && TargetOf(db, report) == Some(c)
    ensures var db', m := ApplyState(db, report).0, AsMessage(report);
            && c in db'.calls && c in db'.log && c in db'.events && Told(db, report).Ok?
            && var told := Told(db, report).value;
               && !told.Unmatched?
               && (told.call == db'.calls[c] <==> !Overrun(File(Admit(db, c, report).value, c), m))
               && (told.Duplicate? <==> m.eventId in db.events[c])
               && (told.Applied? <==> Moved(File(db, c), File(db', c), m))
               && m.eventId in db'.events[c]
  {
    hide Deliver, DeliveryOutcome, Admit, Lookup, Indexed, DistinctKeys, KeysPointToCalls, Overrun;
    AdmitChangesLinkOnly(db, c, report, c);
    var d := File(Admit(db, c, report).value, c);
    DeliveryIsTold(d, AsMessage(report));
    DeliverKeeps(d, AsMessage(report));
  }

  lemma UnreachedIsTold(db: Database, report: Report)
    requires Valid(db) && TargetOf(db, report).None?
    ensures var db' := ApplyState(db, report).0;
            && db' == db.(unmatched := db'.unmatched)
            && (Told(db, report).Ok? ==> Told(db, report).value == Unmatched && Given(report.providerCallId)
                                         && InBuffer(db'.unmatched, AsBuffered(report)))
            && (Told(db, report).Err? ==> db' == db)
  {
    hide Admit, Lookup, Trim, Indexed, DistinctKeys, VersionsBounded, KeysPointToCalls, Deliver, DeliveryOutcome;
    if Told(db, report).Ok? {
      var b := AsBuffered(report);
      var buffer := ApplyState(db, report).0.unmatched;
      if !InBuffer(db.unmatched, b) {
        assert buffer[|db.unmatched|] == b && SameKey(b, b);
      }
    }
  }

  /** The errors of a report, each with its cause. */
  lemma ReportIsRefused(db: Database, report: Report)
    requires Valid(db) && Told(db, report).Err?
    ensures var c, given := report.callId, Given(report.providerCallId);
            match Told(db, report).error
            case EmptyEventId => Trim(report.eventId) == ""
            case MissingLookup => c.None? && !given
            case NotFound(id) => c == Some(id) && id !in db.calls && !given
            case ProviderMismatch(expected, found) =>
              expected == report.provider && exists k :: IsAbout(db, report, k) && db.calls[k].provider == found != expected
            case _ => given && exists k :: IsAbout(db, report, k) && db.calls[k].providerCallId != report.providerCallId
  {
    hide Trim, DistinctKeys, VersionsBounded, Deliver, DeliveryOutcome;
    if Trim(report.eventId) != "" && Lookup(db, report.callId, report.providerCallId).Ok? {
      var found := Lookup(db, report.callId, report.providerCallId).value;
      if found.Some? {
        assert IsAbout(db, report, found.value);
      }
    }
  }

  // ----- linking -----

  /** Linking succeeds exactly for a call on file, an id that is not blank, and no other link of either; the row told is the row filed. */
  lemma LinkIsTold(db: Database, c: CallId, pid: string)
    requires Valid(db)
    ensures var (db', told) := LinkProviderCall(db, c, pid);
            && (told.Ok? <==>
                && c in db.calls && Trim(pid) != ""
                && (db.calls[c].providerCallId.None? || db.calls[c].providerCallId == Some(Trim(pid)))
                && (forall k :: k in db.calls && k != c ==> db.calls[k].providerCallId != Some(Trim(pid))))
            && (told.Ok? ==> c in db'.calls && told.value == db'.calls[c] && told.value.providerCallId == Some(Trim(pid)))
            && (told.Err? ==> db' == db)
            && (told.Err? ==> told.error == LinkError(db, c, pid))
  {
    hide ReplayAll, Pending, Others, DistinctKeys, Trim;
    var r := LinkProviderCall(db, c, pid);
    TrimmedIsTrim(pid);
    if r.1.Ok? {
      AttachValid(db, c, pid);
      var db' := Attach(db, c, pid).value;
      ReplayAllKeeps(File(db', c), Pending(db', db'.calls[c].provider, db'.calls[c].providerCallId.value));
    }
  }

  /** Why a link is refused, the first reason that applies. */
  ghost function LinkError(db: Database, c: CallId, pid: string): StoreError {
    if c !in db.calls then NotFound(c)
    else if exists k :: k in db.calls && k != c && db.calls[k].providerCallId == Some(pid) then Conflict
    else if Trim(pid) == "" then Refused(EmptyProviderCallId)
    else if db.calls[c].providerCallId.Some? && db.calls[c].providerCallId != Some(Trim(pid)) then Refused(ProviderCallConflict)
    else Constraint
  }

  lemma TrimmedIsTrim(pid: string)
    ensures Trimmed(pid) ==> Trim(pid) == pid
  {
  }

  // ----- inbound calls -----

  /** An inbound call as it is filed: its row, and the four steps that make it active. */
  ghost predicate JustArrived(db: Database, c: CallId, op: Op)
    requires op.Register?
  {
    && c in db.calls && c in db.log && c in db.events
    && db.calls[c] == Call(op.interviewId, op.provider, Some(Trim(op.pid)), Inbound, op.transport, Active, 4, Some(4),
                           op.at, op.at, None, None)
    && db.log[c] == [LogRow(Requested, Validating, Validated, Some(1), op.at),
                     LogRow(Validating, Initiating, Initiate, Some(2), op.at),
                     LogRow(Initiating, Connected, Connect, Some(3), op.at),
                     LogRow(Connected, Active, Activate, Some(4), op.at)]
    && db.events[c] == map[]
  }

  lemma OpeningIsFourSteps(call: Call, at: nat)
    requires call.state == Requested && call.version == 0 && call.lastSequence.None? && call.endedAt.None?
             && call.terminalTransition.None?
    ensures var w := Walk(call, INBOUND_OPENING, Some(1), 0, at);
            && w.call == call.(state := Active, version := 4, lastSequence := Some(4), updatedAt := at)
            && w.rows == [LogRow(Requested, Validating, Validated, Some(1), at),
                          LogRow(Validating, Initiating, Initiate, Some(2), at),
                          LogRow(Initiating, Connected, Connect, Some(3), at),
                          LogRow(Connected, Active, Activate, Some(4), at)]
  {
    hide Walk, Transition;
    var a := call.(state := Validating, version := 1, lastSequence := Some(1), updatedAt := at);
    var b := a.(state := Initiating, version := 2, lastSequence := Some(2));
    TransitionByEvent(Requested, Validated);
    TransitionByEvent(Validating, Initiate);
    TransitionByEvent(Initiating, Connect);
    TransitionByEvent(Connected, Activate);
    WalkOne(a, [Initiate, Connect, Activate], Some(1), 1, at);
    WalkOne(call, INBOUND_OPENING, Some(1), 0, at);
    LastTwoSteps(b, at);
    assert [Initiate, Connect, Activate][1..] == [Connect, Activate];
    assert INBOUND_OPENING[1..] == [Initiate, Connect, Activate];
  }

  lemma LastTwoSteps(call: Call, at: nat)
    requires call.state == Initiating && call.version == 2 && call.lastSequence == Some(2)
    ensures var w := Walk(call, [Connect, Activate], Some(1), 2, at);
            && w.call == call.(state := Active, version := 4, lastSequence := Some(4), updatedAt := at) && w.complete
            && w.rows == [LogRow(Initiating, Connected, Connect, Some(3), at), LogRow(Connected, Active, Activate, Some(4), at)]
  {
    hide Walk, Transition;
    var c := call.(state := Connected, version := 3, lastSequence := Some(3), updatedAt := at);
    var d := c.(state := Active, version := 4, lastSequence := Some(4));
    TransitionByEvent(Initiating, Connect);
    TransitionByEvent(Connected, Activate);
    WalkOne(d, [], Some(1), 4, at);
    WalkOne(c, [Activate], Some(1), 3, at);
    WalkOne(call, [Connect, Activate], Some(1), 2, at);
    assert [Activate][1..] == [] && [Connect, Activate][1..] == [Activate];
  }

  lemma WalkOne(call: Call, plan: Word, sequence: Option<U64>, index: U64, at: nat)
    requires index + |plan| <= U64_MAX
    ensures plan == [] ==> Walk(call, plan, sequence, index, at) == Walked(call, [], true)
    ensures plan != [] && Advance(call, plan[0], StepSequence(sequence, index), at).Ok? ==>
              var next := Advance(call, plan[0], StepSequence(sequence, index), at).value;
              var rest := Walk(next, plan[1..], sequence, index + 1, at);
              Walk(call, plan, sequence, index, at)
              == Walked(rest.call, [LogRow(call.state, next.state, plan[0], StepSequence(sequence, index), at)] + rest.rows,
                        rest.complete)
  {
  }

  function Registered(db: Database, op: Op): Result<Call, StoreError>
    requires Valid(db) && op.Register?
  {
    RegisterInbound(db, op.id, op.refusal, op.provider, op.transport, op.pid, op.interviewId, op.at).1
  }

  /**
   An inbound call that no provider check refuses is answered by the call its
   provider id is linked to, unchanged; without one it is filed as a new active
   call under that id.
   */
  lemma RegisterIsTold(db: Database, op: Op)
    requires Valid(db) && op.Register? && op.refusal.None? && Trim(op.pid) != ""
    ensures Valid(Step(db, op))
    ensures forall c :: c in db.calls && db.calls[c].providerCallId == Some(Trim(op.pid)) ==>
              Step(db, op) == db && Registered(db, op) == Ok(db.calls[c])
    ensures (forall c :: c in db.calls ==> db.calls[c].providerCallId != Some(Trim(op.pid))) && op.id !in db.calls ==>
              && JustArrived(Step(db, op), op.id, op) && OthersUntouched(db, Step(db, op), op.id)
              && Registered(db, op) == Ok(Step(db, op).calls[op.id])
  {
    hide RegisterInbound, Trim, DistinctKeys, VersionsBounded, KeysPointToCalls, JustArrived, OthersUntouched;
    StepValid(db, op);
    var p := Trim(op.pid);
    if p in db.byProviderCall {
      KnownIsAnswered(db, op);
    } else if op.id !in db.calls {
      UnknownIsFiled(db, op);
    }
  }

  lemma KnownIsAnswered(db: Database, op: Op)
    requires Valid(db) && op.Register? && op.refusal.None? && Trim(op.pid) != "" && Trim(op.pid) in db.byProviderCall
    ensures Step(db, op) == db && Registered(db, op) == Ok(db.calls[db.byProviderCall[Trim(op.pid)]])
  {
    hide Trim, DistinctKeys, VersionsBounded, KeysPointToCalls;
  }

  lemma UnknownIsFiled(db: Database, op: Op)
    requires Valid(db) && op.Register? && op.refusal.None? && Trim(op.pid) != "" && Trim(op.pid) !in db.byProviderCall
    requires op.id !in db.calls
    ensures Valid(Step(db, op)) && JustArrived(Step(db, op), op.id, op) && OthersUntouched(db, Step(db, op), op.id)
    ensures Registered(db, op) == Ok(Step(db, op).calls[op.id])
  {
    hide Walk, Trim, Indexed, DistinctKeys, VersionsBounded, KeysPointToCalls;
    StepValid(db, op);
    OpeningIsFourSteps(NewCall(op.interviewId, op.provider, Inbound, op.transport, op.at), op.at);
  }
}
