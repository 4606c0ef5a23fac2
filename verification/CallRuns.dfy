/** What holds of the call database after any run of transactions. */
module CallRuns {
  import opened Prelude
  import opened Text
  import opened Collections
  import opened CallDomain
  import opened CallPaths
  import opened CallStore
  import opened CallSteps

  // ----- the schema's keys and indexes survive every transaction -----

  /** The two opening words are legal; a new call walks them to the end. */
  lemma OpeningWalk(call: Call, plan: Word, at: nat)
    requires call.state == Requested && call.version == 0 && call.lastSequence.None?
    requires plan == OUTBOUND_OPENING || plan == INBOUND_OPENING
    ensures var w := Walk(call, plan, Some(1), 0, at);
            && w.complete && Bounded(w.call) && w.call.providerCallId == call.providerCallId
            && w.call.state == if plan == OUTBOUND_OPENING then Initiating else Active
  {
    FollowSnoc(Requested, [], Validated);
    assert [] + [Validated] == [Validated];
    FollowSnoc(Requested, [Validated], Initiate);
    assert [Validated] + [Initiate] == OUTBOUND_OPENING;
    FollowSnoc(Requested, OUTBOUND_OPENING, Connect);
    FollowSnoc(Requested, OUTBOUND_OPENING + [Connect], Activate);
    assert OUTBOUND_OPENING + [Connect] + [Activate] == INBOUND_OPENING;
    WalkCompletes(call, plan, Some(1), 0, at);
    WalkCounts(call, plan, Some(1), 0, at);
  }

  lemma OpeningIsConsistent(call: Call, plan: Word, at: nat)
    requires plan == OUTBOUND_OPENING || plan == INBOUND_OPENING
    requires Bounded(call) && Consistent(call, [])
    ensures var w := Walk(call, plan, Some(1), 0, at);
            Consistent(w.call, w.rows)
  {
    var w := Walk(call, plan, Some(1), 0, at);
    WalkKeepsConsistent(call, [], plan, Some(1), 0, at);
    assert [] + w.rows == w.rows;
  }

  lemma RefileValid(db: Database, c: CallId, d: Dossier)
    requires Valid(db) && c in db.calls
    requires Bounded(d.call) && d.call.providerCallId == db.calls[c].providerCallId
    ensures Valid(Refile(db, c, d))
  {
  }

  lemma InsertValid(db: Database, id: CallId, w: Walked, key: Option<string>)
    requires Valid(db) && id !in db.calls && Bounded(w.call)
    requires w.call.providerCallId.Some? ==>
               var p := w.call.providerCallId.value;
               p != "" && Trimmed(p) && p !in db.byProviderCall
    ensures Valid(Insert(db, id, w, key))
  {
  }

  lemma AttachValid(db: Database, c: CallId, pid: string)
    requires Valid(db) && c in db.calls && Attach(db, c, pid).Ok?
    ensures Valid(Attach(db, c, pid).value)
  {
    TrimFixpoint(Trim(pid));
  }

  lemma {:induction false} OthersKeepKeys(buffer: seq<Buffered>, provider: CallProvider, pid: string)
    requires DistinctKeys(buffer)
    ensures var r := Others(buffer, provider, pid);
            && (forall b :: b in r <==> b in buffer && !(b.provider == provider && b.providerCallId == pid))
            && DistinctKeys(r)
    decreases |buffer|
  {
    if buffer != [] {
      var front, b := buffer[..|buffer| - 1], buffer[|buffer| - 1];
      OthersKeepKeys(front, provider, pid);
      assert buffer == front + [b];
      assert forall x :: x in front ==> !SameKey(x, b);
    }
  }

  lemma {:induction false} ReceivedSinceKeepKeys(buffer: seq<Buffered>, cutoff: nat)
    requires DistinctKeys(buffer)
    ensures var r := ReceivedSince(buffer, cutoff);
            && (forall b :: b in r <==> b in buffer && cutoff <= b.receivedAt)
            && DistinctKeys(r)
    decreases |buffer|
  {
    if buffer != [] {
      var front, b := buffer[..|buffer| - 1], buffer[|buffer| - 1];
      ReceivedSinceKeepKeys(front, cutoff);
      assert buffer == front + [b];
      assert forall x :: x in front ==> !SameKey(x, b);
    }
  }

  // ----- what the purges take -----

  /** Exactly the calls that ended before the cutoff are gone, each with its log, events and index entries. */
  ghost predicate TerminalPurged(db: Database, db': Database, cutoff: nat)
    requires Valid(db) && Valid(db')
  {
    && (forall c :: c in db'.calls <==>
         c in db.calls && (db.calls[c].endedAt.None? || cutoff <= db.calls[c].endedAt.value))
    && (forall c :: c in db'.calls ==> File(db', c) == File(db, c))
    && (forall p :: p in db'.byProviderCall <==> p in db.byProviderCall && db.byProviderCall[p] in db'.calls)
    && (forall p :: p in db'.byProviderCall ==> db'.byProviderCall[p] == db.byProviderCall[p])
    && (forall k :: k in db'.byKey <==> k in db.byKey && db.byKey[k] in db'.calls)
    && (forall k :: k in db'.byKey ==> db'.byKey[k] == db.byKey[k])
    && db'.unmatched == db.unmatched
  }

  lemma PurgeTerminalExactly(db: Database, cutoff: nat)
    requires Valid(db)
    ensures Valid(PurgeTerminal(db, cutoff)) && TerminalPurged(db, PurgeTerminal(db, cutoff), cutoff)
  {
    StepValid(db, PurgeCalls(cutoff));
  }

  /** Row a comes before row b. */
  ghost predicate Precedes(buffer: seq<Buffered>, a: Buffered, b: Buffered) {
    exists i, j :: 0 <= i < j < |buffer| && buffer[i] == a && buffer[j] == b
  }

  /** Exactly the rows received before the cutoff are gone, and the others keep their order. */
  ghost predicate BufferPurged(buffer: seq<Buffered>, buffer': seq<Buffered>, cutoff: nat) {
    && (forall b :: b in buffer' <==> b in buffer && cutoff <= b.receivedAt)
    && (forall a, b :: Precedes(buffer', a, b)
                       <==> Precedes(buffer, a, b) && cutoff <= a.receivedAt && cutoff <= b.receivedAt)
  }

  lemma PrecedesGrows(buffer: seq<Buffered>, x: Buffered, a: Buffered, b: Buffered)
    ensures Precedes(buffer + [x], a, b) <==> Precedes(buffer, a, b) || (a in buffer && b == x)
  {
    var longer := buffer + [x];
    if Precedes(buffer, a, b) {
      var i, j :| 0 <= i < j < |buffer| && buffer[i] == a && buffer[j] == b;
      assert longer[i] == a && longer[j] == b;
    }
    if a in buffer && b == x {
      var i :| 0 <= i < |buffer| && buffer[i] == a;
      assert longer[i] == a && longer[|buffer|] == b;
    }
  }

  lemma {:induction false} PurgeUnmatchedExactly(buffer: seq<Buffered>, cutoff: nat)
    ensures BufferPurged(buffer, ReceivedSince(buffer, cutoff), cutoff)
    decreases |buffer|
  {
    if buffer != [] {
      var front, x := buffer[..|buffer| - 1], buffer[|buffer| - 1];
      PurgeUnmatchedExactly(front, cutoff);
      assert buffer == front + [x];
      var kept := ReceivedSince(front, cutoff);
      assert kept + [] == kept;
      forall a, b
        ensures Precedes(ReceivedSince(buffer, cutoff), a, b)
                <==> Precedes(buffer, a, b) && cutoff <= a.receivedAt && cutoff <= b.receivedAt
      {
        PrecedesGrows(front, x, a, b);
        PrecedesGrows(kept, x, a, b);
      }
    }
  }

  lemma BeginValid(db: Database, id: CallId, refusal: Option<StoreError>, provider: CallProvider, interviewId: Option<nat>,
                   direction: CallDirection, transport: CallTransport, key: Option<string>, at: nat)
    requires Valid(db)
    ensures Valid(BeginCall(db, id, refusal, provider, interviewId, direction, transport, key, at).0)
  {
    hide Walk, Insert;
    var call := NewCall(interviewId, provider, direction, transport, at);
    OpeningWalk(call, OUTBOUND_OPENING, at);
    if id !in db.calls {
      InsertValid(db, id, Walk(call, OUTBOUND_OPENING, Some(1), 0, at), CleanKey(key));
    }
  }

  lemma RegisterValid(db: Database, id: CallId, refusal: Option<StoreError>, provider: CallProvider,
                      transport: CallTransport, pid: string, interviewId: Option<nat>, at: nat)
    requires Valid(db)
    ensures Valid(RegisterInbound(db, id, refusal, provider, transport, pid, interviewId, at).0)
  {
    hide Walk, Insert;
    var call := NewCall(interviewId, provider, Inbound, transport, at);
    OpeningWalk(call, INBOUND_OPENING, at);
    var w := Walk(call, INBOUND_OPENING, Some(1), 0, at);
    var p := Trim(pid);
    if id !in db.calls && p != "" && p !in db.byProviderCall {
      InsertValid(db, id, w.(call := w.call.(providerCallId := Some(p))), None);
    }
  }

  lemma LinkValid(db: Database, c: CallId, pid: string)
    requires Valid(db)
    ensures Valid(LinkProviderCall(db, c, pid).0)
  {
    var r := LinkProviderCall(db, c, pid);
    if r.1.Ok? {
      AttachValid(db, c, pid);
      var db' := Attach(db, c, pid).value;
      var provider, p := db'.calls[c].provider, db'.calls[c].providerCallId.value;
      var ms := Pending(db', provider, p);
      ReplayAllKeeps(File(db', c), ms);
      RefileValid(db', c, ReplayAll(File(db', c), ms));
      OthersKeepKeys(db'.unmatched, provider, p);
    }
  }

  lemma ApplyValid(db: Database, report: Report)
    requires Valid(db)
    ensures Valid(ApplyState(db, report).0)
  {
    var target := TargetOf(db, report);
    if target.Some? {
      var c := target.value;
      var db' := Admit(db, c, report).value;
      if db' != db {
        AttachValid(db, c, report.providerCallId.value);
      }
      DeliverKeeps(File(db', c), AsMessage(report));
      RefileValid(db', c, Deliver(File(db', c), AsMessage(report)));
    }
  }

  lemma StepValid(db: Database, op: Op)
    requires Valid(db)
    ensures Valid(Step(db, op))
  {
    match op
    case Begin(id, refusal, provider, interviewId, direction, transport, key, at) =>
      BeginValid(db, id, refusal, provider, interviewId, direction, transport, key, at);
    case Register(id, refusal, provider, transport, pid, interviewId, at) =>
      RegisterValid(db, id, refusal, provider, transport, pid, interviewId, at);
    case Link(c, pid) => LinkValid(db, c, pid);
    case Receive(report) => ApplyValid(db, report);
    case PurgeCalls(cutoff) =>
    case PurgeBuffer(cutoff) => ReceivedSinceKeepKeys(db.unmatched, cutoff);
  }

  ghost function RunFrom(db: Database, ops: seq<Op>): (r: Database)
    requires Valid(db)
    ensures Valid(r)
    decreases |ops|
  {
    if ops == [] then db
    else
      var before := RunFrom(db, ops[..|ops| - 1]);
      StepValid(before, ops[|ops| - 1]);
      Step(before, ops[|ops| - 1])
  }

  /** The database after a run that starts with empty tables. */
  ghost function Run(ops: seq<Op>): (r: Database)
    ensures Valid(r)
  {
    RunFrom(EMPTY, ops)
  }

  // ----- what one transaction does to one call -----

  /** The call a report is delivered to, if it gets that far. */
  function TargetOf(db: Database, report: Report): (r: Option<CallId>)
    requires Valid(db)
    ensures r.Some? ==> r.value in db.calls && Admit(db, r.value, report).Ok?
  {
    if Trim(report.eventId) == "" then None
    else
      match Lookup(db, report.callId, report.providerCallId)
      case Ok(Some(c)) => if Admit(db, c, report).Ok? then Some(c) else None
      case _ => None
  }

  datatype Effect =
    | Untouched
    | Delivered(d: Dossier, m: Message)
    | Replayed(d: Dossier, ms: seq<Message>)

  /** What a transaction does to call c: hands it one report, replays its backlog, or nothing. */
  ghost function EffectOn(db: Database, op: Op, c: CallId): Effect
    requires Valid(db) && c in db.calls
  {
    match op
    case Receive(report) =>
      if TargetOf(db, report) == Some(c) then Delivered(File(Admit(db, c, report).value, c), AsMessage(report))
      else Untouched
    case Link(k, pid) =>
      if k == c && LinkProviderCall(db, c, pid).1.Ok? then
        var db' := Attach(db, c, pid).value;
        Replayed(File(db', c), Pending(db', db'.calls[c].provider, db'.calls[c].providerCallId.value))
      else Untouched
    case _ => Untouched
  }

  ghost function Outcome(e: Effect, d: Dossier): Dossier {
    match e
    case Untouched => d
    case Delivered(d0, m) => Deliver(d0, m)
    case Replayed(d0, ms) => ReplayAll(d0, ms)
  }

  /** The same dossier, up to the provider call id having been filled in. */
  ghost predicate SameButLink(a: Dossier, b: Dossier) {
    && a == b.(call := b.call.(providerCallId := a.call.providerCallId))
    && (b.call.providerCallId.Some? ==> a.call.providerCallId == b.call.providerCallId)
  }

  lemma BeginEffect(db: Database, op: Op, c: CallId)
    requires Valid(db) && c in db.calls && (op.Begin? || op.Register?)
    ensures var db' := Step(db, op);
            && c in db'.calls && c in db'.log && c in db'.events && File(db', c) == File(db, c)
            && db'.unmatched == db.unmatched
  {
    hide Walk;
  }

  lemma LinkEffect(db: Database, c: CallId, k: CallId, pid: string)
    requires Valid(db) && c in db.calls
    ensures var e := EffectOn(db, Link(k, pid), c);
            var db' := LinkProviderCall(db, k, pid).0;
            && c in db'.calls && c in db'.log && c in db'.events
            && File(db', c) == Outcome(e, File(db, c))
            && (e.Replayed? ==> SameButLink(e.d, File(db, c)))
            && !e.Delivered?
  {
    hide ReplayAll, Pending, Indexed, DistinctKeys, VersionsBounded, KeysPointToCalls;
  }

  /** A report either reaches its target call or leaves every call alone. */
  lemma ApplyByTarget(db: Database, report: Report)
    requires Valid(db)
    ensures var db' := ApplyState(db, report).0;
            match TargetOf(db, report)
            case Some(k) =>
              var admitted := Admit(db, k, report).value;
              k in admitted.calls && k in admitted.log && k in admitted.events
              && db' == Refile(admitted, k, Deliver(File(admitted, k), AsMessage(report)))
            case None => db' == db.(unmatched := db'.unmatched)
  {
    hide Deliver, DeliveryOutcome, Buffer, Indexed, DistinctKeys, VersionsBounded, KeysPointToCalls, Trim;
  }

  lemma AdmitChangesLinkOnly(db: Database, k: CallId, report: Report, c: CallId)
    requires Valid(db) && k in db.calls && c in db.calls && Admit(db, k, report).Ok?
    ensures var admitted := Admit(db, k, report).value;
            && c in admitted.calls && c in admitted.log && c in admitted.events
            && SameButLink(File(admitted, c), File(db, c))
            && (c != k ==> File(admitted, c) == File(db, c))
  {
    hide Indexed, DistinctKeys, VersionsBounded, KeysPointToCalls, Trim;
  }

  lemma ReceiveEffect(db: Database, c: CallId, report: Report)
    requires Valid(db) && c in db.calls
    ensures var e := EffectOn(db, Receive(report), c);
            var db' := ApplyState(db, report).0;
            && c in db'.calls && c in db'.log && c in db'.events
            && File(db', c) == Outcome(e, File(db, c))
            && (e.Delivered? ==> SameButLink(e.d, File(db, c)))
            && !e.Replayed?
  {
    hide ApplyState, Admit, Deliver, TargetOf, SameButLink, Indexed, DistinctKeys, VersionsBounded, KeysPointToCalls;
    ApplyByTarget(db, report);
    if TargetOf(db, report).Some? {
      AdmitChangesLinkOnly(db, TargetOf(db, report).value, report, c);
    }
  }

  lemma StepEffect(db: Database, op: Op, c: CallId)
    requires Valid(db) && c in db.calls
    ensures Valid(Step(db, op))
    ensures !op.PurgeCalls? ==> c in Step(db, op).calls
    ensures var e := EffectOn(db, op, c);
            && (c in Step(db, op).calls ==> File(Step(db, op), c) == Outcome(e, File(db, c)))
            && (e.Delivered? || e.Replayed? ==> SameButLink(e.d, File(db, c)))
  {
    hide BeginCall, RegisterInbound, LinkProviderCall, ApplyState, Deliver, ReplayAll;
    StepValid(db, op);
    match op
    case Link(k, pid) => LinkEffect(db, c, k, pid);
    case Receive(report) => ReceiveEffect(db, c, report);
    case PurgeCalls(cutoff) =>
    case PurgeBuffer(cutoff) =>
    case _ => BeginEffect(db, op, c);
  }

  /** A call is filed with its opening rows and no events. */
  ghost predicate Opened(db: Database, c: CallId) {
    && c in db.calls && c in db.log && c in db.events
    && Consistent(db.calls[c], db.log[c]) && Bounded(db.calls[c]) && db.events[c] == map[]
  }

  lemma BeginCreates(db: Database, op: Op, c: CallId)
    requires Valid(db) && c !in db.calls && op.Begin? && c in Step(db, op).calls
    ensures Opened(Step(db, op), c)
  {
    hide Walk, Chain, Increasing, IsLastSequence;
    var call := NewCall(op.interviewId, op.provider, op.direction, op.transport, op.at);
    NewCallIsConsistent(call);
    OpeningIsConsistent(call, OUTBOUND_OPENING, op.at);
    OpeningWalk(call, OUTBOUND_OPENING, op.at);
  }

  lemma RegisterCreates(db: Database, op: Op, c: CallId)
    requires Valid(db) && c !in db.calls && op.Register? && c in Step(db, op).calls
    ensures Opened(Step(db, op), c)
  {
    hide Walk, Chain, Increasing, IsLastSequence;
    var call := NewCall(op.interviewId, op.provider, Inbound, op.transport, op.at);
    NewCallIsConsistent(call);
    OpeningIsConsistent(call, INBOUND_OPENING, op.at);
    OpeningWalk(call, INBOUND_OPENING, op.at);
  }

  lemma NewCallIsConsistent(call: Call)
    requires call == NewCall(call.interviewId, call.provider, call.direction, call.transport, call.createdAt)
    ensures Consistent(call, [])
  {
  }

  /** Only the two opening transactions add a call. */
  lemma OthersCreateNone(db: Database, op: Op)
    requires Valid(db) && !op.Begin? && !op.Register?
    ensures Step(db, op).calls.Keys <= db.calls.Keys
  {
    hide Deliver, DeliveryOutcome, ReplayAll, Pending, Buffer, Trim, DistinctKeys, KeysPointToCalls, VersionsBounded;
    if op.Receive? {
      ApplyByTarget(db, op.report);
    }
  }

  lemma StepCreates(db: Database, op: Op, c: CallId)
    requires Valid(db) && c !in db.calls && c in Step(db, op).calls
    ensures Opened(Step(db, op), c)
  {
    hide Opened, BeginCall, RegisterInbound, LinkProviderCall, ApplyState, Valid;
    if op.Begin? {
      BeginCreates(db, op, c);
    } else if op.Register? {
      RegisterCreates(db, op, c);
    } else {
      OthersCreateNone(db, op);
    }
  }

  // ----- the row and the log agree -----

  /** Call c took an overrun in this run since it was created. */
  ghost predicate Overran(ops: seq<Op>, c: CallId)
    decreases |ops|
  {
    ops != [] &&
    var front, op := ops[..|ops| - 1], ops[|ops| - 1];
    var db := Run(front);
    && c in db.calls
    && c in Run(ops).calls
    && (Overran(front, c) || (EffectOn(db, op, c).Delivered? && Overrun(EffectOn(db, op, c).d, EffectOn(db, op, c).m)))
  }

  lemma EffectOnBooks(d: Dossier, e: Effect)
    requires Bounded(d.call)
    requires e.Delivered? || e.Replayed? ==> SameButLink(e.d, d)
    ensures var r := Outcome(e, d);
            && Bounded(r.call)
            && (if e.Delivered? && Overrun(e.d, e.m) then Gap(r) > Gap(d) else Gap(r) == Gap(d))
            && (Consistent(d.call, d.log) && !(e.Delivered? && Overrun(e.d, e.m)) ==> Consistent(r.call, r.log))
  {
    match e
    case Untouched =>
    case Delivered(d0, m) => DeliverKeeps(d0, m);
    case Replayed(d0, ms) => ReplayAllKeeps(d0, ms);
  }

  lemma {:induction false} BooksThroughRun(ops: seq<Op>, c: CallId)
    requires c in Run(ops).calls
    ensures var d := File(Run(ops), c);
            && Bounded(d.call)
            && (if Overran(ops, c) then Gap(d) > 0 else Consistent(d.call, d.log))
    decreases |ops|
  {
    if ops != [] {
      var front, op := ops[..|ops| - 1], ops[|ops| - 1];
      var db := Run(front);
      if c in db.calls {
        BooksThroughRun(front, c);
        StepEffect(db, op, c);
        EffectOnBooks(File(db, c), EffectOn(db, op, c));
      } else {
        StepCreates(db, op, c);
      }
    }
  }

  /**
   In every reachable database a call's row agrees with its transition log
   exactly when no report to it ever ran past the last u64 sequence number.
   */
  lemma RowAgreesWithLog(ops: seq<Op>, c: CallId)
    requires c in Run(ops).calls
    ensures Consistent(Run(ops).calls[c], Run(ops).log[c]) <==> !Overran(ops, c)
  {
    BooksThroughRun(ops, c);
  }

  lemma TwoStepsToActive()
    ensures Moves(Initiating, Active).Some? && |Moves(Initiating, Active).value| >= 2
  {
    hide Search;
    FollowSnoc(Initiating, [], Connect);
    assert [] + [Connect] == [Connect];
    FollowSnoc(Initiating, [Connect], Activate);
    assert Reaches(Initiating, [Connect] + [Activate], Active);
    PlanIsShortest(Initiating, Active);
    if |Plan(Initiating, Active).value| <= 1 {
      OneStepIsShort(Plan(Initiating, Active).value);
      assert false;
    }
  }

  lemma OneStepIsShort(word: Word)
    requires |word| <= 1
    ensures !Reaches(Initiating, word, Active)
  {
    if word != [] {
      FollowSnoc(Initiating, [], word[0]);
      assert [] + [word[0]] == word;
    }
  }

  /** The simplest overrun: the last sequence number, and a target two steps away. */
  lemma OverrunExample(db: Database, c: CallId, report: Report)
    requires Valid(db) && c in db.calls && db.calls[c].state == Initiating && Consistent(db.calls[c], db.log[c])
    requires db.calls[c].lastSequence == Some(2)
    requires report.callId == Some(c) && report.provider == db.calls[c].provider && report.providerCallId == None
    requires Trim(report.eventId) !in db.events[c] && Trim(report.eventId) != ""
    requires report.target == Active && report.sequence == Some(U64_MAX)
    ensures var db' := ApplyState(db, report).0;
            && db'.calls[c] == db.calls[c]
            && |db'.log[c]| > |db.log[c]|
            && !Consistent(db'.calls[c], db'.log[c])
  {
    var d, m := File(db, c), AsMessage(report);
    assert TargetOf(db, report) == Some(c);
    TwoStepsToActive();
    assert Overrun(d, m);
    WholeOrNothing(d, m);
    DeliverKeeps(d, m);
  }

  /** Once a call has ended, no transaction changes its row, except to fill in the provider call id, or its log. */
  lemma EndIsFinal(db: Database, op: Op, c: CallId)
    requires Valid(db) && c in db.calls && c in Step(db, op).calls
    requires db.calls[c].state.IsTerminal()
    ensures var call, call' := db.calls[c], Step(db, op).calls[c];
            && call' == call.(providerCallId := call'.providerCallId)
            && (call.providerCallId.Some? ==> call' == call)
            && c in Step(db, op).log && Step(db, op).log[c] == db.log[c]
  {
    hide Step, EffectOn, Deliver, ReplayAll, Indexed, DistinctKeys, KeysPointToCalls;
    StepEffect(db, op, c);
    match EffectOn(db, op, c)
    case Untouched =>
    case Delivered(d, m) => TerminalDelivery(d, m);
    case Replayed(d, ms) => TerminalIsFrozen(d, ms);
  }

  // ----- each event moves a call at most once -----

  ghost predicate Differs(a: Dossier, b: Dossier) {
    a.call != b.call || a.log != b.log
  }

  ghost function ReplayMovers(d: Dossier, ms: seq<Message>): seq<string>
    decreases |ms|
  {
    if ms == [] then []
    else
      var before, m := ReplayAll(d, ms[..|ms| - 1]), ms[|ms| - 1];
      ReplayMovers(d, ms[..|ms| - 1]) + (if Differs(before, Replay(before, m)) then [m.eventId] else [])
  }

  ghost function EffectMovers(e: Effect): seq<string> {
    match e
    case Untouched => []
    case Delivered(d, m) => if Differs(d, Deliver(d, m)) then [m.eventId] else []
    case Replayed(d, ms) => ReplayMovers(d, ms)
  }

  /** The event ids that changed the row or the log of call c, in the order they did, since it was created. */
  ghost function Movers(ops: seq<Op>, c: CallId): seq<string>
    decreases |ops|
  {
    if ops == [] || c !in Run(ops).calls then []
    else
      var db := Run(ops[..|ops| - 1]);
      if c !in db.calls then []
      else Movers(ops[..|ops| - 1], c) + EffectMovers(EffectOn(db, ops[|ops| - 1], c))
  }

  lemma {:induction false} ReplayMoversAreNew(d: Dossier, ms: seq<Message>)
    requires Bounded(d.call)
    ensures var movers := ReplayMovers(d, ms);
            && Distinct(movers)
            && (forall e :: e in movers ==> e !in d.events && e in ReplayAll(d, ms).events)
    decreases |ms|
  {
    if ms != [] {
      var front, m := ms[..|ms| - 1], ms[|ms| - 1];
      ReplayMoversAreNew(d, front);
      ReplayAllKeeps(d, front);
      ReplayKeeps(ReplayAll(d, front), m);
    }
  }

  lemma EffectMoversAreNew(d: Dossier, e: Effect)
    requires Bounded(d.call)
    requires e.Delivered? || e.Replayed? ==> SameButLink(e.d, d)
    ensures Distinct(EffectMovers(e))
    ensures forall x :: x in EffectMovers(e) ==> x !in d.events && x in Outcome(e, d).events
    ensures d.events.Keys <= Outcome(e, d).events.Keys
  {
    match e
    case Untouched =>
    case Delivered(d0, m) => DeliverKeeps(d0, m);
    case Replayed(d0, ms) =>
      ReplayMoversAreNew(d0, ms);
      ReplayAllKeeps(d0, ms);
  }

  lemma DistinctConcat(a: seq<string>, b: seq<string>)
    requires Distinct(a) && Distinct(b) && forall x :: x in a ==> x !in b
    ensures Distinct(a + b)
  {
    forall i, j | 0 <= i < j < |a + b|
      ensures (a + b)[i] != (a + b)[j]
    {
      if i < |a| <= j {
        assert a[i] in a && b[j - |a|] in b;
      }
    }
  }

  /** However often an event is redelivered, buffered or replayed in a run, it moves a call at most once. */
  lemma {:induction false} NoEventMovesTwice(ops: seq<Op>, c: CallId)
    ensures Distinct(Movers(ops, c))
    ensures c in Run(ops).calls ==> forall e :: e in Movers(ops, c) ==> e in Run(ops).events[c]
    decreases |ops|
  {
    hide Step, EffectOn, EffectMovers, Outcome, Consistent, Indexed, DistinctKeys, KeysPointToCalls;
    if ops != [] && c in Run(ops).calls {
      var front, op := ops[..|ops| - 1], ops[|ops| - 1];
      var db := Run(front);
      if c in db.calls {
        NoEventMovesTwice(front, c);
        BooksThroughRun(front, c);
        StepEffect(db, op, c);
        EffectMoversAreNew(File(db, c), EffectOn(db, op, c));
        assert Movers(ops, c) == Movers(front, c) + EffectMovers(EffectOn(db, op, c));
        DistinctConcat(Movers(front, c), EffectMovers(EffectOn(db, op, c)));
      }
    }
  }

  /** Two calls never share a provider call id. */
  lemma ProviderCallIdsAreUnique(ops: seq<Op>, a: CallId, b: CallId)
    requires a in Run(ops).calls && b in Run(ops).calls
    requires Run(ops).calls[a].providerCallId.Some? && Run(ops).calls[a].providerCallId == Run(ops).calls[b].providerCallId
    ensures a == b
  {
    assert Valid(Run(ops));
  }

  // ----- accepted events are kept -----

  ghost predicate InBuffer(buffer: seq<Buffered>, b: Buffered) {
    exists i :: 0 <= i < |buffer| && SameKey(buffer[i], b)
  }

  ghost predicate OnRecord(db: Database, c: CallId, b: Buffered)
    requires Valid(db) && c in db.calls
  {
    && db.calls[c].provider == b.provider
    && db.calls[c].providerCallId == Some(b.providerCallId)
    && b.eventId in db.events[c]
  }

  /** The event is recorded on a call linked to its provider call, or waits for one. */
  ghost predicate Kept(db: Database, b: Buffered)
    requires Valid(db)
  {
    InBuffer(db.unmatched, b) || exists c :: c in db.calls && OnRecord(db, c, b)
  }

  predicate Purges(op: Op) {
    op.PurgeCalls? || op.PurgeBuffer?
  }

  lemma StepKeepsCalls(db: Database, op: Op, c: CallId)
    requires Valid(db) && c in db.calls && !Purges(op)
    ensures var db' := Step(db, op);
            && Valid(db') && c in db'.calls && db.events[c].Keys <= db'.events[c].Keys
            && db'.calls[c].provider == db.calls[c].provider
            && (db.calls[c].providerCallId.Some? ==> db'.calls[c].providerCallId == db.calls[c].providerCallId)
  {
    hide Step, EffectOn, Deliver, ReplayAll, Indexed, DistinctKeys, KeysPointToCalls;
    StepEffect(db, op, c);
    match EffectOn(db, op, c)
    case Untouched =>
    case Delivered(d, m) => DeliverKeeps(d, m);
    case Replayed(d, ms) => ReplayAllKeeps(d, ms);
  }

  lemma {:induction false} MatchingIsFilter(buffer: seq<Buffered>, provider: CallProvider, pid: string, b: Buffered)
    ensures b in Matching(buffer, provider, pid) <==> b in buffer && b.provider == provider && b.providerCallId == pid
    decreases |buffer|
  {
    if buffer != [] {
      MatchingIsFilter(buffer[..|buffer| - 1], provider, pid, b);
      assert buffer == buffer[..|buffer| - 1] + [buffer[|buffer| - 1]];
    }
  }

  lemma PendingHolds(db: Database, b: Buffered)
    requires b in db.unmatched
    ensures ToMessage(b) in Pending(db, b.provider, b.providerCallId)
  {
    var matching := Matching(db.unmatched, b.provider, b.providerCallId);
    MatchingIsFilter(db.unmatched, b.provider, b.providerCallId, b);
    assert b in multiset(matching);
    var sorted := SortByTime(matching);
    assert b in multiset(sorted);
    var i :| 0 <= i < |sorted| && sorted[i] == b;
    assert Messages(sorted)[i] == ToMessage(b);
  }

  lemma LinkKeepsBuffered(db: Database, c: CallId, pid: string, b: Buffered)
    requires Valid(db) && b in db.unmatched && LinkProviderCall(db, c, pid).1.Ok?
    ensures Valid(LinkProviderCall(db, c, pid).0) && Kept(LinkProviderCall(db, c, pid).0, b)
  {
    hide Pending, Matching, Others, ReplayAll;
    LinkValid(db, c, pid);
    AttachValid(db, c, pid);
    var db' := Attach(db, c, pid).value;
    var later := LinkProviderCall(db, c, pid).0;
    var provider, p := db'.calls[c].provider, db'.calls[c].providerCallId.value;
    OthersKeepKeys(db'.unmatched, provider, p);
    if b.provider == provider && b.providerCallId == p {
      PendingHolds(db', b);
      ReplayAllKeeps(File(db', c), Pending(db', provider, p));
      assert OnRecord(later, c, b);
    } else {
      assert b in later.unmatched;
      BufferedIsKept(later, b);
    }
  }

  lemma BufferedIsKept(db: Database, b: Buffered)
    requires Valid(db) && b in db.unmatched
    ensures Kept(db, b)
  {
    assert SameKey(b, b);
  }

  /** Outside links and purges the buffer only grows. */
  lemma BufferGrows(db: Database, op: Op, b: Buffered)
    requires Valid(db) && !Purges(op) && !op.Link? && b in db.unmatched
    ensures b in Step(db, op).unmatched
  {
    hide Deliver, DeliveryOutcome, Walk, Trim, DistinctKeys, KeysPointToCalls, VersionsBounded;
  }

  lemma BufferOrCall(db: Database, op: Op, b: Buffered)
    requires Valid(db) && !Purges(op) && b in db.unmatched
    ensures Valid(Step(db, op)) && Kept(Step(db, op), b)
  {
    hide BeginCall, RegisterInbound, ApplyState, Valid, Kept;
    StepValid(db, op);
    if op.Link? {
      if LinkProviderCall(db, op.c, op.pid).1.Ok? {
        LinkKeepsBuffered(db, op.c, op.pid, b);
      } else {
        BufferedIsKept(db, b);
      }
    } else {
      BufferGrows(db, op, b);
      BufferedIsKept(Step(db, op), b);
    }
  }

  lemma StepKeeps(db: Database, op: Op, b: Buffered)
    requires Valid(db) && !Purges(op) && Kept(db, b)
    ensures Valid(Step(db, op)) && Kept(Step(db, op), b)
  {
    hide Step, Valid;
    StepValid(db, op);
    if InBuffer(db.unmatched, b) {
      var i :| 0 <= i < |db.unmatched| && SameKey(db.unmatched[i], b);
      BufferOrCall(db, op, db.unmatched[i]);
      KeptByKey(Step(db, op), db.unmatched[i], b);
    } else {
      var c :| c in db.calls && OnRecord(db, c, b);
      StepKeepsRecord(db, op, c, b);
    }
  }

  lemma KeptByKey(db: Database, b: Buffered, b': Buffered)
    requires Valid(db) && Kept(db, b) && SameKey(b, b')
    ensures Kept(db, b')
  {
    hide Valid;
    if InBuffer(db.unmatched, b) {
      var i :| 0 <= i < |db.unmatched| && SameKey(db.unmatched[i], b);
      assert SameKey(db.unmatched[i], b');
    } else {
      var c :| c in db.calls && OnRecord(db, c, b);
      assert OnRecord(db, c, b') by { SameRecord(db, c, b, b'); }
    }
  }

  lemma SameRecord(db: Database, c: CallId, b: Buffered, b': Buffered)
    requires Valid(db) && c in db.calls && OnRecord(db, c, b) && SameKey(b, b')
    ensures OnRecord(db, c, b')
  {
  }

  lemma StepKeepsRecord(db: Database, op: Op, c: CallId, b: Buffered)
    requires Valid(db) && !Purges(op) && c in db.calls && OnRecord(db, c, b)
    ensures Valid(Step(db, op)) && c in Step(db, op).calls && OnRecord(Step(db, op), c, b)
  {
    hide Step;
    StepKeepsCalls(db, op, c);
  }

  /**
   A report that `apply_state` accepts stays on record through any later run
   without purges: on its call if it found one, otherwise in the buffer or on
   the call its provider call was linked to meanwhile.
   */
  lemma {:induction false} AcceptedReportsAreKept(db: Database, report: Report, ops: seq<Op>)
    requires Valid(db) && ApplyState(db, report).1.Ok?
    requires forall i :: 0 <= i < |ops| ==> !Purges(ops[i])
    ensures Valid(Step(db, Receive(report)))
    ensures var later := RunFrom(Step(db, Receive(report)), ops);
            match TargetOf(db, report)
            case Some(c) => c in later.calls && Trim(report.eventId) in later.events[c]
            case None => report.providerCallId.Some? && Kept(later, AsBuffered(report))
    decreases |ops|
  {
    var first := Step(db, Receive(report));
    StepValid(db, Receive(report));
    if ops == [] {
      match TargetOf(db, report) {
        case Some(c) =>
          StepEffect(db, Receive(report), c);
          DeliverKeeps(EffectOn(db, Receive(report), c).d, AsMessage(report));
        case None =>
          var b := AsBuffered(report);
          if !InBuffer(db.unmatched, b) {
            assert first.unmatched[|db.unmatched|] == b && SameKey(b, b);
          }
          assert InBuffer(first.unmatched, b);
      }
    } else {
      var front, op := ops[..|ops| - 1], ops[|ops| - 1];
      AcceptedReportsAreKept(db, report, front);
      var before := RunFrom(first, front);
      match TargetOf(db, report)
      case Some(c) => StepKeepsCalls(before, op, c);
      case None => StepKeeps(before, op, AsBuffered(report));
    }
  }
}
