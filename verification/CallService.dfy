/**
 The gateway's call workflow as it runs: every operation works on a copy of the
 tables and commits it at the end, or leaves the database as it was.
 */
module CallService {
  import opened Prelude
  import opened Text
  import opened CallDomain
  import opened CallPaths
  import opened CallStore
  import opened CallSteps
  import opened CallRuns

  // ----- statements on the tables -----

  /** INSERT INTO calls, under the primary key and the two unique indexes. */
  function InsertCall(db: Database, id: CallId, row: Call, key: Option<string>): Result<Database, StoreError> {
    if id in db.calls then Err(Constraint)
    else if row.providerCallId.Some? && row.providerCallId.value in db.byProviderCall then Err(Constraint)
    else if key.Some? && key.value in db.byKey then Err(Constraint)
    else Ok(Insert(db, id, Walked(row, [], true), key))
  }

  /** UPDATE calls ... WHERE id = ? AND version = ?, under the unique index. */
  function UpdateCall(db: Database, id: CallId, row: Call, expectedVersion: U64): Result<Database, StoreError> {
    if id !in db.calls || db.calls[id].version != expectedVersion then Err(ConcurrentModification)
    else if row.providerCallId.Some? && row.providerCallId.value in db.byProviderCall
            && db.byProviderCall[row.providerCallId.value] != id then Err(Constraint)
    else
      Ok(db.(calls := db.calls[id := row],
             byProviderCall := if row.providerCallId.Some? then db.byProviderCall[row.providerCallId.value := id]
                               else db.byProviderCall))
  }

  /** INSERT INTO call_transitions. */
  function RecordTransition(db: Database, id: CallId, row: LogRow): Database
    requires id in db.log
  {
    db.(log := db.log[id := db.log[id] + [row]])
  }

  function RecordAll(db: Database, id: CallId, rows: seq<LogRow>): Database
    requires id in db.log
    decreases |rows|
  {
    if rows == [] then db else RecordTransition(RecordAll(db, id, rows[..|rows| - 1]), id, rows[|rows| - 1])
  }

  lemma {:induction false} RecordAllAppends(db: Database, id: CallId, rows: seq<LogRow>)
    requires id in db.log
    ensures RecordAll(db, id, rows) == db.(log := db.log[id := db.log[id] + rows])
    decreases |rows|
  {
    if rows == [] {
      assert db.log[id] + [] == db.log[id];
      assert db.log[id := db.log[id]] == db.log;
    } else {
      var front := rows[..|rows| - 1];
      RecordAllAppends(db, id, front);
      assert db.log[id] + front + [rows[|rows| - 1]] == db.log[id] + rows;
    }
  }

  lemma InsertThenRecord(db: Database, id: CallId, row: Call, rows: seq<LogRow>, key: Option<string>)
    ensures RecordAll(Insert(db, id, Walked(row, [], true), key), id, rows) == Insert(db, id, Walked(row, rows, true), key)
  {
    RecordAllAppends(Insert(db, id, Walked(row, [], true), key), id, rows);
    assert [] + rows == rows;
    assert db.log[id := []][id := rows] == db.log[id := rows];
  }

  /** INSERT INTO call_events. */
  function InsertEvent(db: Database, id: CallId, eventId: string, target: CallState, outcome: Label, at: nat): Database
    requires id in db.events
  {
    db.(events := db.events[id := db.events[id][eventId := EventRow(target, outcome, at)]])
  }

  /** DELETE FROM unmatched_call_events of the given events of one provider call. */
  function Without(buffer: seq<Buffered>, provider: CallProvider, pid: string, ids: set<string>): seq<Buffered> {
    if buffer == [] then []
    else
      var b := buffer[|buffer| - 1];
      var rest := Without(buffer[..|buffer| - 1], provider, pid, ids);
      if b.provider == provider && b.providerCallId == pid && b.eventId in ids then rest else rest + [b]
  }

  lemma {:induction false} WithoutNone(buffer: seq<Buffered>, provider: CallProvider, pid: string)
    ensures Without(buffer, provider, pid, {}) == buffer
    decreases |buffer|
  {
    if buffer != [] {
      WithoutNone(buffer[..|buffer| - 1], provider, pid);
    }
  }

  lemma {:induction false} WithoutTwice(buffer: seq<Buffered>, provider: CallProvider, pid: string, a: set<string>, b: set<string>)
    ensures Without(Without(buffer, provider, pid, a), provider, pid, b) == Without(buffer, provider, pid, a + b)
    decreases |buffer|
  {
    if buffer != [] {
      var front, x := buffer[..|buffer| - 1], buffer[|buffer| - 1];
      WithoutTwice(front, provider, pid, a, b);
      var once := Without(front, provider, pid, a);
      assert (once + [x])[..|once|] == once;
    }
  }

  lemma {:induction false} WithoutAll(buffer: seq<Buffered>, provider: CallProvider, pid: string, ids: set<string>)
    requires forall b :: b in buffer && b.provider == provider && b.providerCallId == pid ==> b.eventId in ids
    ensures Without(buffer, provider, pid, ids) == Others(buffer, provider, pid)
    decreases |buffer|
  {
    if buffer != [] {
      var front, x := buffer[..|buffer| - 1], buffer[|buffer| - 1];
      assert buffer == front + [x];
      WithoutAll(front, provider, pid, ids);
      assert Others(front, provider, pid) + [] == Others(front, provider, pid);
    }
  }

  /** Storing a row whose link and version have not changed under it. */
  lemma StoreRow(db: Database, id: CallId, log: map<CallId, seq<LogRow>>, row: Call)
    requires Valid(db) && id in db.calls && row.providerCallId == db.calls[id].providerCallId
    ensures UpdateCall(db.(log := log), id, row, db.calls[id].version)
            == Ok(db.(calls := db.calls[id := row], log := log))
  {
    hide DistinctKeys, KeysPointToCalls, VersionsBounded;
    var pid := row.providerCallId;
    assert pid.Some? ==> db.byProviderCall[pid.value := id] == db.byProviderCall;
  }

  /** Storing a row that is already there changes nothing. */
  lemma StoreAgain(db: Database, id: CallId)
    requires Valid(db) && id in db.calls
    ensures UpdateCall(db, id, db.calls[id], db.calls[id].version) == Ok(db)
  {
    StoreRow(db, id, db.log, db.calls[id]);
    assert db.calls[id := db.calls[id]] == db.calls;
  }

  /** One step of a walk, seen from its place in the plan. */
  lemma WalkAt(call: Call, plan: Word, sequence: Option<U64>, index: nat, at: nat)
    requires index < |plan| <= 7
    ensures Walk(call, plan[index..], sequence, index, at) ==
            var received := StepSequence(sequence, index);
            match Advance(call, plan[index], received, at)
            case Err(_) => Walked(call, [], false)
            case Ok(next) =>
              var rest := Walk(next, plan[index + 1..], sequence, index + 1, at);
              Walked(rest.call, [LogRow(call.state, next.state, plan[index], received, at)] + rest.rows, rest.complete)
  {
    hide Advance;
    assert plan[index..][0] == plan[index] && plan[index..][1..] == plan[index + 1..];
  }

  /** Runs a planned word on a session, recording each step; stops at the first refusal. */
  method RunPlan(db: Database, session: CallSession, plan: Word, sequence: Option<U64>, at: nat)
    returns (tx: Database, complete: bool, any: bool)
    requires session.id in db.log && |plan| <= 7
    modifies session
    ensures var w := Walk(old(session.Row()), plan, sequence, 0, at);
            && session.Row() == w.call
            && tx == db.(log := db.log[session.id := db.log[session.id] + w.rows])
            && complete == w.complete
            && any == (w.rows != [])
  {
    hide Walk, Advance;
    var id := session.id;
    ghost var w := Walk(session.Row(), plan, sequence, 0, at);
    ghost var rows: seq<LogRow> := [];
    assert plan[0..] == plan;
    assert db.log[id] + [] == db.log[id];
    assert db.log[id := db.log[id]] == db.log;
    tx := db;
    for index := 0 to |plan|
      invariant var rest := Walk(session.Row(), plan[index..], sequence, index, at);
                w == Walked(rest.call, rows + rest.rows, rest.complete)
      invariant |rows| == index
      invariant tx == db.(log := db.log[id := db.log[id] + rows])
    {
      WalkAt(session.Row(), plan, sequence, index, at);
      var from := session.state;
      var received := StepSequence(sequence, index);
      var step := session.Apply(plan[index], received, at);
      if step.Err? {
        assert rows + [] == rows;
        return tx, false, index > 0;
      }
      var row := LogRow(from, step.value, plan[index], received, at);
      ghost var rest := Walk(session.Row(), plan[index + 1..], sequence, index + 1, at);
      assert rows + ([row] + rest.rows) == (rows + [row]) + rest.rows;
      tx := RecordTransition(tx, id, row);
      assert db.log[id] + rows + [row] == db.log[id] + (rows + [row]);
      rows := rows + [row];
    }
    WalkOfNothing(session.Row(), plan[|plan|..], sequence, |plan|, at);
    assert rows + [] == rows;
    complete, any := true, |plan| > 0;
  }

  lemma WalkOfNothing(call: Call, plan: Word, sequence: Option<U64>, index: U64, at: nat)
    requires plan == []  && index <= 7
    ensures Walk(call, plan, sequence, index, at) == Walked(call, [], true)
  {
  }

  /** The steps to a target, if there are any to take. */
  method PlanMoves(from: CallState, to: CallState) returns (plan: Option<Word>)
    ensures plan == Moves(from, to)
  {
    hide Plan;
    plan := PathTo(from, to);
    PlanIsShortest(from, to);
    if plan == Some([]) {
      plan := None;
    }
  }

  /** Replays one buffered report on a session. */
  method ReplayOne(db: Database, session: CallSession, m: Message) returns (tx: Database)
    requires Valid(db) && session.id in db.calls && db.calls[session.id] == session.Row()
    modifies session
    ensures var d := Replay(File(db, session.id), m);
            session.Row() == d.call && tx == Refile(db, session.id, d)
    ensures Valid(tx)
  {
    hide Walk, Moves, Indexed, DistinctKeys, KeysPointToCalls, VersionsBounded;
    var id := session.id;
    ghost var row := session.Row();
    BoundedFile(db, id);
    ReplayKeeps(File(db, id), m);
    RefileValid(db, id, Replay(File(db, id), m));
    RefileSame(db, id);
    if m.eventId in db.events[id] {
      return db;
    }
    tx := db;
    var expectedVersion := session.version;
    var plan := PlanMoves(session.state, m.target);
    var outcome := IgnoredLabel;
    if plan.Some? {
      WalkCounts(row, plan.value, m.sequence, 0, m.at);
      var complete, any;
      tx, complete, any := RunPlan(tx, session, plan.value, m.sequence, m.at);
      StoreRow(db, id, tx.log, session.Row());
      assert db.calls[id := row] == db.calls;
      if any {
        // the version guard of the update cannot fail inside the transaction
        tx := UpdateCall(tx, id, session.Row(), expectedVersion).value;
      }
      outcome := AppliedLabel;
    }
    tx := InsertEvent(tx, id, m.eventId, m.target, outcome, m.at);
  }

  lemma BoundedFile(db: Database, c: CallId)
    requires Valid(db) && c in db.calls
    ensures Bounded(db.calls[c])
  {
  }

  lemma RefileSame(db: Database, c: CallId)
    requires Valid(db) && c in db.calls
    ensures Refile(db, c, File(db, c)) == db
  {
    assert db.calls[c := db.calls[c]] == db.calls;
    assert db.log[c := db.log[c]] == db.log;
    assert db.events[c := db.events[c]] == db.events;
  }

  lemma RefileTwice(db: Database, c: CallId, a: Dossier, b: Dossier)
    requires Valid(db) && c in db.calls
    ensures Refile(Refile(db, c, a), c, b) == Refile(db, c, b)
  {
    assert db.calls[c := a.call][c := b.call] == db.calls[c := b.call];
    assert db.log[c := a.log][c := b.log] == db.log[c := b.log];
    assert db.events[c := a.events][c := b.events] == db.events[c := b.events];
  }

  /** The tables after some of a backlog has been replayed and deleted. */
  ghost function Partway(db: Database, c: CallId, provider: CallProvider, pid: string, ms: seq<Message>): Database
    requires Valid(db) && c in db.calls
  {
    Refile(db, c, ReplayAll(File(db, c), ms))
      .(unmatched := Without(db.unmatched, provider, pid, set m | m in ms :: m.eventId))
  }

  lemma PartwayStarts(db: Database, c: CallId, provider: CallProvider, pid: string)
    requires Valid(db) && c in db.calls
    ensures Partway(db, c, provider, pid, []) == db
  {
    RefileSame(db, c);
    WithoutNone(db.unmatched, provider, pid);
    var none: seq<Message> := [];
    assert (set m | m in none :: m.eventId) == {};
  }

  lemma PartwayIsValid(db: Database, c: CallId, provider: CallProvider, pid: string, ms: seq<Message>)
    requires Valid(db) && c in db.calls
    ensures Valid(Partway(db, c, provider, pid, ms))
    ensures ReplayAll(File(db, c), ms).call.providerCallId == db.calls[c].providerCallId
    ensures ReplayAll(File(db, c), ms).call.provider == db.calls[c].provider
  {
    hide ReplayAll, Without;
    BoundedFile(db, c);
    ReplayAllKeeps(File(db, c), ms);
    DeletingKeepsValid(db, c, ReplayAll(File(db, c), ms), provider, pid, set m | m in ms :: m.eventId);
  }

  lemma PartwaySteps(db: Database, c: CallId, provider: CallProvider, pid: string, ms: seq<Message>, m: Message)
    requires Valid(db) && c in db.calls
    ensures var now := Partway(db, c, provider, pid, ms);
            && c in now.calls && c in now.log && c in now.events
            && var next := Refile(now, c, Replay(File(now, c), m));
               Partway(db, c, provider, pid, ms + [m])
               == next.(unmatched := Without(next.unmatched, provider, pid, {m.eventId}))
  {
    hide Replay, Without;
    var d := ReplayAll(File(db, c), ms);
    ReplayAllSnoc(File(db, c), ms, m);
    RefileTwice(db, c, d, Replay(d, m));
    var ids := set x | x in ms :: x.eventId;
    WithoutTwice(db.unmatched, provider, pid, ids, {m.eventId});
    assert (set x | x in ms + [m] :: x.eventId) == ids + {m.eventId};
  }

  lemma PartwayEnds(db: Database, c: CallId, provider: CallProvider, pid: string)
    requires Valid(db) && c in db.calls
    ensures var ms := Pending(db, provider, pid);
            Partway(db, c, provider, pid, ms)
            == Refile(db, c, ReplayAll(File(db, c), ms)).(unmatched := Others(db.unmatched, provider, pid))
  {
    hide ReplayAll, PendingIn;
    var ms := Pending(db, provider, pid);
    var ids := set m | m in ms :: m.eventId;
    forall b | b in db.unmatched && b.provider == provider && b.providerCallId == pid
      ensures b.eventId in ids
    {
      PendingHolds(db, b);
      assert ToMessage(b).eventId in ids;
    }
    WithoutAll(db.unmatched, provider, pid, ids);
  }

  /** Replays the backlog of the provider call a session is linked to, and empties it. */
  method ReplayUnmatched(db: Database, session: CallSession) returns (tx: Database)
    requires Valid(db) && session.id in db.calls && db.calls[session.id] == session.Row()
    modifies session
    ensures match old(session.providerCallId)
            case None => tx == db && session.Row() == old(session.Row())
            case Some(pid) =>
              var d := ReplayAll(File(db, session.id), Pending(db, session.provider, pid));
              && session.Row() == d.call
              && tx == Refile(db, session.id, d).(unmatched := Others(db.unmatched, session.provider, pid))
    ensures Valid(tx) && session.id in tx.calls && tx.calls[session.id] == session.Row()
  {
    hide ReplayAll, Replay, Without, Others, PendingIn, Indexed, DistinctKeys, KeysPointToCalls, VersionsBounded;
    if session.providerCallId.None? {
      return db;
    }
    var id, provider, pid := session.id, session.provider, session.providerCallId.value;
    var pending := Pending(db, provider, pid);
    tx := db;
    PartwayStarts(db, id, provider, pid);
    assert pending[..0] == [];
    for i := 0 to |pending|
      invariant tx == Partway(db, id, provider, pid, pending[..i]) && Valid(tx)
      invariant id in tx.calls && tx.calls[id] == session.Row()
    {
      var m := pending[i];
      PartwaySteps(db, id, provider, pid, pending[..i], m);
      assert pending[..i + 1] == pending[..i] + [m];
      tx := ReplayOne(tx, session, m);
      tx := tx.(unmatched := Without(tx.unmatched, provider, pid, {m.eventId}));
      PartwayIsValid(db, id, provider, pid, pending[..i + 1]);
    }
    assert pending[..|pending|] == pending;
    PartwayEnds(db, id, provider, pid);
  }

  lemma DeletingKeepsValid(db: Database, c: CallId, d: Dossier, provider: CallProvider, pid: string, ids: set<string>)
    requires Valid(db) && c in db.calls && Bounded(d.call) && d.call.providerCallId == db.calls[c].providerCallId
    ensures Valid(Refile(db, c, d).(unmatched := Without(db.unmatched, provider, pid, ids)))
  {
    RefileValid(db, c, d);
    WithoutKeepsKeys(db.unmatched, provider, pid, ids);
  }

  lemma {:induction false} WithoutKeepsKeys(buffer: seq<Buffered>, provider: CallProvider, pid: string, ids: set<string>)
    requires DistinctKeys(buffer)
    ensures DistinctKeys(Without(buffer, provider, pid, ids))
    ensures forall b :: b in Without(buffer, provider, pid, ids) ==> b in buffer
    decreases |buffer|
  {
    if buffer != [] {
      var front, x := buffer[..|buffer| - 1], buffer[|buffer| - 1];
      assert buffer == front + [x];
      WithoutKeepsKeys(front, provider, pid, ids);
      assert forall b :: b in front ==> !SameKey(b, x);
    }
  }

  /** Delivers one report to the session's call; the row is stored only if every step was taken. */
  method DeliverReport(db: Database, session: CallSession, m: Message) returns (r: ApplyOutcome, tx: Database)
    requires Valid(db) && session.id in db.calls && db.calls[session.id] == session.Row()
    modifies session
    ensures var d := File(db, session.id);
            r == DeliveryOutcome(d, m) && tx == Refile(db, session.id, Deliver(d, m))
  {
    hide Walk, Moves, Indexed, DistinctKeys, KeysPointToCalls, VersionsBounded;
    var id := session.id;
    var row := session.Row();
    RefileSame(db, id);
    if m.eventId in db.events[id] {
      return Duplicate(row), db;
    }
    tx := db;
    var expectedVersion := session.version;
    var plan := PlanMoves(session.state, m.target);
    if plan.None? {
      tx := InsertEvent(tx, id, m.eventId, m.target, IgnoredLabel, m.at);
      return Ignored(row), tx;
    }
    BoundedFile(db, id);
    WalkCounts(row, plan.value, m.sequence, 0, m.at);
    var complete, any;
    tx, complete, any := RunPlan(tx, session, plan.value, m.sequence, m.at);
    if !complete {
      // the recorded steps are committed without the call row
      assert db.calls[id := row] == db.calls;
      tx := InsertEvent(tx, id, m.eventId, m.target, IgnoredLabel, m.at);
      return Ignored(session.Row()), tx;
    }
    StoreRow(db, id, tx.log, session.Row());
    tx := UpdateCall(tx, id, session.Row(), expectedVersion).value;
    tx := InsertEvent(tx, id, m.eventId, m.target, AppliedLabel, m.at);
    return Applied(session.Row()), tx;
  }

  /** An outbound call takes the first two opening steps. */
  lemma OutboundSteps(call: Call, at: nat)
    requires call.state == Requested && call.version == 0 && call.lastSequence.None?
    ensures var c1 := Advance(call, Validated, Some(1), at);
            && c1.Ok?
            && var c2 := Advance(c1.value, Initiate, Some(2), at);
            && c2.Ok? && c2.value.providerCallId == call.providerCallId
            && Walk(call, OUTBOUND_OPENING, Some(1), 0, at) == Walked(c2.value, OpeningRows(at)[..2], true)
  {
    var c1 := Advance(call, Validated, Some(1), at).value;
    var c2 := Advance(c1, Initiate, Some(2), at).value;
    WalkOfNothing(c2, OUTBOUND_OPENING[2..], Some(1), 2, at);
    WalkAt(c1, OUTBOUND_OPENING, Some(1), 1, at);
    WalkAt(call, OUTBOUND_OPENING, Some(1), 0, at);
    assert OUTBOUND_OPENING[0..] == OUTBOUND_OPENING;
  }

  /** An inbound call takes all four. */
  lemma InboundSteps(call: Call, at: nat)
    requires call.state == Requested && call.version == 0 && call.lastSequence.None?
    ensures var c1 := Advance(call, Validated, Some(1), at);
            && c1.Ok?
            && var c2 := Advance(c1.value, Initiate, Some(2), at);
            && c2.Ok?
            && var c3 := Advance(c2.value, Connect, Some(3), at);
            && c3.Ok?
            && var c4 := Advance(c3.value, Activate, Some(4), at);
            && c4.Ok? && c4.value.providerCallId == call.providerCallId
            && Walk(call, INBOUND_OPENING, Some(1), 0, at) == Walked(c4.value, OpeningRows(at), true)
  {
    var c1 := Advance(call, Validated, Some(1), at).value;
    var c2 := Advance(c1, Initiate, Some(2), at).value;
    var c3 := Advance(c2, Connect, Some(3), at).value;
    var c4 := Advance(c3, Activate, Some(4), at).value;
    WalkOfNothing(c4, INBOUND_OPENING[4..], Some(1), 4, at);
    WalkAt(c3, INBOUND_OPENING, Some(1), 3, at);
    WalkAt(c2, INBOUND_OPENING, Some(1), 2, at);
    WalkAt(c1, INBOUND_OPENING, Some(1), 1, at);
    WalkAt(call, INBOUND_OPENING, Some(1), 0, at);
    assert INBOUND_OPENING[0..] == INBOUND_OPENING;
  }

  /** The log rows of an opening; an outbound call records the first two. */
  function OpeningRows(at: nat): (r: seq<LogRow>)
    ensures |r| == 4
  {
    [LogRow(Requested, Validating, Validated, Some(1), at),
     LogRow(Validating, Initiating, Initiate, Some(2), at),
     LogRow(Initiating, Connected, Connect, Some(3), at),
     LogRow(Connected, Active, Activate, Some(4), at)]
  }

  /** Walks a new call through the outbound opening and files it. */
  method OpenOutbound(db: Database, id: CallId, row: Call, key: Option<string>, at: nat)
    returns (r: Result<Database, StoreError>)
    requires row.state == Requested && row.version == 0 && row.lastSequence.None? && row.providerCallId.None?
    requires key.Some? ==> key.value !in db.byKey
    ensures r == if id in db.calls then Err(Constraint)
                 else Ok(Insert(db, id, Walk(row, OUTBOUND_OPENING, Some(1), 0, at), key))
  {
    hide Walk, Advance, Insert, RecordAll;
    var session := new CallSession(id, row);
    OutboundSteps(row, at);
    var _ := session.Apply(Validated, Some(1), at);
    var _ := session.Apply(Initiate, Some(2), at);
    var inserted := InsertCall(db, id, session.Row(), key);
    if inserted.Err? {
      return Err(inserted.error);
    }
    InsertThenRecord(db, id, session.Row(), OpeningRows(at)[..2], key);
    return Ok(RecordAll(inserted.value, id, OpeningRows(at)[..2]));
  }

  class CallWorkflow {
    var conn: Database
    /** The provider registry's verdict on a new call; None when the provider can serve it. */
    const registry: (CallProvider, CallDirection, CallTransport) -> Option<StoreError>

    constructor (registry: (CallProvider, CallDirection, CallTransport) -> Option<StoreError>)
      ensures Valid(conn) && conn == EMPTY && this.registry == registry
    {
      conn := EMPTY;
      this.registry := registry;
    }

    method BeginCallOutcome(id: CallId, provider: CallProvider, interviewId: Option<nat>, direction: CallDirection,
                            transport: CallTransport, idempotencyKey: Option<string>, at: nat)
      returns (r: Result<BeginOutcome, StoreError>)
      requires Valid(conn)
      modifies this
      ensures Valid(conn)
      ensures (conn, r) == BeginCall(old(conn), id, registry(provider, direction, transport), provider, interviewId,
                                     direction, transport, idempotencyKey, at)
    {
      hide Walk, Advance, Indexed, DistinctKeys, VersionsBounded;
      var refusal := registry(provider, direction, transport);
      BeginValid(conn, id, refusal, provider, interviewId, direction, transport, idempotencyKey, at);
      if refusal.Some? {
        return Err(refusal.value);
      }
      var key := CleanKey(idempotencyKey);
      if key.Some? && key.value in conn.byKey {
        var existing := conn.calls[conn.byKey[key.value]];
        if existing.provider != provider || existing.interviewId != interviewId {
          return Err(Conflict);
        }
        return Ok(Existing(existing));
      }
      var created := OpenOutbound(conn, id, NewCall(interviewId, provider, direction, transport, at), key, at);
      if created.Err? {
        return Err(created.error);
      }
      conn := created.value;
      return Ok(Created(conn.calls[id]));
    }

    method RegisterInboundCall(id: CallId, provider: CallProvider, transport: CallTransport, providerCallId: string,
                               interviewId: Option<nat>, at: nat)
      returns (r: Result<Call, StoreError>)
      requires Valid(conn)
      modifies this
      ensures Valid(conn)
      ensures (conn, r) == RegisterInbound(old(conn), id, registry(provider, Inbound, transport), provider, transport,
                                           providerCallId, interviewId, at)
    {
      hide Walk, Advance, Insert, RecordAll, DistinctKeys, VersionsBounded, KeysPointToCalls;
      var refusal := registry(provider, Inbound, transport);
      RegisterValid(conn, id, refusal, provider, transport, providerCallId, interviewId, at);
      var pid := Trim(providerCallId);
      if pid == "" {
        return Err(Refused(EmptyProviderCallId));
      }
      if refusal.Some? {
        return Err(refusal.value);
      }
      if pid in conn.byProviderCall {
        return Ok(conn.calls[conn.byProviderCall[pid]]);
      }
      var session := new CallSession(id, NewCall(interviewId, provider, Inbound, transport, at));
      InboundSteps(session.Row(), at);
      var _ := session.Apply(Validated, Some(1), at);
      var _ := session.Apply(Initiate, Some(2), at);
      var _ := session.Apply(Connect, Some(3), at);
      var _ := session.Apply(Activate, Some(4), at);
      TrimFixpoint(pid);
      var _ := session.LinkProviderCall(pid);
      var inserted := InsertCall(conn, id, session.Row(), None);
      if inserted.Err? {
        return Err(inserted.error);
      }
      InsertThenRecord(conn, id, session.Row(), OpeningRows(at), None);
      conn := RecordAll(inserted.value, id, OpeningRows(at));
      return Ok(session.Row());
    }

    method Link(callId: CallId, providerCallId: string) returns (r: Result<Call, StoreError>)
      requires Valid(conn)
      modifies this
      ensures Valid(conn)
      ensures (conn, r) == LinkProviderCall(old(conn), callId, providerCallId)
    {
      hide ReplayAll, Pending, Others, Indexed, DistinctKeys, KeysPointToCalls, VersionsBounded;
      LinkValid(conn, callId, providerCallId);
      if callId !in conn.calls {
        return Err(NotFound(callId));
      }
      if providerCallId in conn.byProviderCall && conn.byProviderCall[providerCallId] != callId {
        return Err(Conflict);
      }
      var session := new CallSession(callId, conn.calls[callId]);
      var linked := session.LinkProviderCall(providerCallId);
      if linked.Err? {
        return Err(Refused(linked.error));
      }
      var attached := UpdateCall(conn, callId, session.Row(), session.version);
      if attached.Err? {
        return Err(attached.error);
      }
      ghost var db := attached.value;
      AttachValid(conn, callId, providerCallId);
      assert Attach(conn, callId, providerCallId) == Ok(db);
      var tx := ReplayUnmatched(attached.value, session);
      StoreAgain(tx, callId);
      conn := UpdateCall(tx, callId, session.Row(), session.version).value;
      return Ok(session.Row());
    }

    method ApplyStateReport(report: Report) returns (r: Result<ApplyOutcome, StoreError>)
      requires Valid(conn)
      modifies this
      ensures Valid(conn)
      ensures (conn, r) == ApplyState(old(conn), report)
    {
      ApplyValid(conn, report);
      var eventId := Trim(report.eventId);
      if eventId == "" {
        return Err(EmptyEventId);
      }
      var found := Lookup(conn, report.callId, report.providerCallId);
      if found.Err? {
        return Err(found.error);
      }
      if found.value.None? {
        if Given(report.providerCallId) {
          conn := conn.(unmatched := Buffer(conn.unmatched, AsBuffered(report)));
          return Ok(Unmatched);
        }
        return Err(NotFound(report.callId.value));
      }
      var c := found.value.value;
      var session := new CallSession(c, conn.calls[c]);
      if session.provider != report.provider {
        return Err(ProviderMismatch(report.provider, session.provider));
      }
      var tx := conn;
      if Given(report.providerCallId) {
        if session.providerCallId.None? {
          var linked := session.LinkProviderCall(report.providerCallId.value);
          if linked.Err? {
            return Err(Refused(linked.error));
          }
          var attached := UpdateCall(tx, c, session.Row(), session.version);
          if attached.Err? {
            return Err(attached.error);
          }
          tx := attached.value;
          AttachValid(conn, c, report.providerCallId.value);
          assert Attach(conn, c, report.providerCallId.value) == Ok(tx);
        } else if session.providerCallId != report.providerCallId {
          return Err(Conflict);
        }
      }
      assert Admit(conn, c, report) == Ok(tx);
      var outcome;
      outcome, conn := DeliverReport(tx, session, AsMessage(report));
      return Ok(outcome);
    }

    method PurgeTerminalBefore(cutoff: nat)
      requires Valid(conn)
      modifies this
      ensures Valid(conn) && conn == PurgeTerminal(old(conn), cutoff)
      ensures TerminalPurged(old(conn), conn, cutoff)
    {
      PurgeTerminalExactly(conn, cutoff);
      conn := PurgeTerminal(conn, cutoff);
    }

    method PurgeUnmatchedBefore(cutoff: nat)
      requires Valid(conn)
      modifies this
      ensures Valid(conn) && conn == old(conn).(unmatched := conn.unmatched)
      ensures BufferPurged(old(conn).unmatched, conn.unmatched, cutoff)
      ensures conn == PurgeUnmatched(old(conn), cutoff)
    {
      StepValid(conn, PurgeBuffer(cutoff));
      PurgeUnmatchedExactly(conn.unmatched, cutoff);
      conn := PurgeUnmatched(conn, cutoff);
    }
  }
}
