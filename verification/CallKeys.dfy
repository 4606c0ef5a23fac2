/** Idempotency keys of calls: a key names one call for as long as that call is on file. */
module CallKeys {
  import opened Prelude
  import opened Text
  import opened CallDomain
  import opened CallStore
  import opened CallSteps
  import opened CallRuns

  // ----- which keys are the same -----

  /** The first 200 characters of x are those of y. */
  predicate Agrees(x: string, y: string) {
    forall i :: 0 <= i < |x| && i < 200 ==> SameAt(x, y, i)
  }

  predicate SameAt(x: string, y: string, i: nat) {
    i < |x| && i < |y| && x[i] == y[i]
  }

  /** Two keys are the same when, without the blanks at their ends, their first 200 characters are. */
  predicate SameKeyText(a: string, b: string) {
    Agrees(Trim(a), Trim(b)) && Agrees(Trim(b), Trim(a))
  }

  lemma CleanKeysAgree(a: string, b: string)
    ensures CleanKey(Some(a)) == CleanKey(Some(b)) <==> SameKeyText(a, b)
    ensures CleanKey(Some(a)).None? <==> Trim(a) == ""
  {
    hide Trim;
    var x, y := Trim(a), Trim(b);
    var x', y' := if |x| <= 200 then x else x[..200], if |y| <= 200 then y else y[..200];
    DifferSomewhere(x, y, x', y');
    AgreesThroughout(x, y, x', y');
  }

  lemma LengthsAgree(x: string, y: string)
    ensures Agrees(x, y) ==> |x| <= |y| || |y| >= 200
  {
    if |x| > |y| && |y| < 200 {
      assert !SameAt(x, y, |y|);
    }
  }

  lemma DifferSomewhere(x: string, y: string, x': string, y': string)
    requires x' == if |x| <= 200 then x else x[..200]
    requires y' == if |y| <= 200 then y else y[..200]
    ensures x' == y' ==> Agrees(x, y) && Agrees(y, x)
  {
    assert forall i :: 0 <= i < |x| && i < 200 ==> x'[i] == x[i];
    assert forall i :: 0 <= i < |y| && i < 200 ==> y'[i] == y[i];
  }

  lemma AgreesThroughout(x: string, y: string, x': string, y': string)
    requires x' == if |x| <= 200 then x else x[..200]
    requires y' == if |y| <= 200 then y else y[..200]
    ensures Agrees(x, y) && Agrees(y, x) ==> x' == y'
  {
    if Agrees(x, y) && Agrees(y, x) {
      LengthsAgree(x, y);
      LengthsAgree(y, x);
      forall i | 0 <= i < |x'|
        ensures x'[i] == y'[i]
      {
        assert SameAt(x, y, i);
      }
    }
  }

  // ----- which call a key names -----

  ghost function Answer(db: Database, op: Op): Result<BeginOutcome, StoreError>
    requires Valid(db) && op.Begin?
  {
    BeginCall(db, op.id, op.refusal, op.provider, op.interviewId, op.direction, op.transport, op.key, op.at).1
  }

  ghost predicate Creates(db: Database, op: Op)
    requires Valid(db)
  {
    op.Begin? && Answer(db, op).Ok? && Answer(db, op).value.Created?
  }

  /** The call that a request with this key created and that has not been purged since. */
  ghost function Holder(ops: seq<Op>, key: string): Option<CallId>
    decreases |ops|
  {
    if ops == [] then None
    else
      var front, last := ops[..|ops| - 1], ops[|ops| - 1];
      var before := Holder(front, key);
      if before.Some? then if before.value in Run(ops).calls then before else None
      else if Creates(Run(front), last) && CleanKey(last.key) == Some(key) then Some(last.id)
      else None
  }

  function OnFile(db: Database, key: string): Option<CallId> {
    if key in db.byKey then Some(db.byKey[key]) else None
  }

  lemma BeginFiles(db: Database, op: Op, key: string)
    requires Valid(db) && op.Begin?
    ensures Valid(Step(db, op))
    ensures OnFile(Step(db, op), key)
         == if OnFile(db, key).Some? then OnFile(db, key)
            else if Creates(db, op) && CleanKey(op.key) == Some(key) then Some(op.id)
            else None
    ensures db.calls.Keys <= Step(db, op).calls.Keys
  {
    hide Walk, CleanKey, Valid;
    StepValid(db, op);
  }

  lemma RegisterFilesNone(db: Database, op: Op)
    requires Valid(db) && op.Register?
    ensures Step(db, op).byKey == db.byKey && db.calls.Keys <= Step(db, op).calls.Keys
  {
    hide Walk, Indexed, DistinctKeys, VersionsBounded, KeysPointToCalls, Trim;
  }

  lemma LinkFilesNone(db: Database, op: Op)
    requires Valid(db) && op.Link?
    ensures Step(db, op).byKey == db.byKey && db.calls.Keys <= Step(db, op).calls.Keys
  {
    hide ReplayAll, Pending, Others, Indexed, DistinctKeys, VersionsBounded, KeysPointToCalls, Trim;
  }

  lemma ReceiveFilesNone(db: Database, op: Op)
    requires Valid(db) && op.Receive?
    ensures Step(db, op).byKey == db.byKey && db.calls.Keys <= Step(db, op).calls.Keys
  {
    hide ApplyState, Deliver, TargetOf, Indexed, DistinctKeys, VersionsBounded, KeysPointToCalls, Trim;
    ApplyByTarget(db, op.report);
  }

  /** No other transaction files a key, and a key goes only with its call. */
  lemma OthersFileNone(db: Database, op: Op, key: string)
    requires Valid(db) && !op.Begin?
    ensures Valid(Step(db, op))
    ensures OnFile(Step(db, op), key)
         == if OnFile(db, key).Some? && OnFile(db, key).value in Step(db, op).calls then OnFile(db, key) else None
  {
    hide RegisterInbound, LinkProviderCall, ApplyState, PurgeTerminal, Indexed, DistinctKeys, VersionsBounded;
    StepValid(db, op);
    match op
    case Register(_, _, _, _, _, _, _) => RegisterFilesNone(db, op);
    case Link(_, _) => LinkFilesNone(db, op);
    case Receive(_) => ReceiveFilesNone(db, op);
    case PurgeCalls(cutoff) => PurgeTerminalExactly(db, cutoff);
    case PurgeBuffer(_) =>
  }

  /** In any run a key is on file exactly for the call it created. */
  lemma {:induction false} KeyNamesItsCall(ops: seq<Op>, key: string)
    ensures Holder(ops, key) == OnFile(Run(ops), key)
    ensures Holder(ops, key).Some? ==> Holder(ops, key).value in Run(ops).calls
    decreases |ops|
  {
    hide Step, Creates, CleanKey;
    if ops == [] {
      NothingOnFile(key);
    } else {
      var front, op := ops[..|ops| - 1], ops[|ops| - 1];
      KeyNamesItsCall(front, key);
      if op.Begin? {
        BeginFiles(Run(front), op, key);
      } else {
        OthersFileNone(Run(front), op, key);
        OnlyBeginCreates(Run(front), op);
      }
    }
  }

  lemma NothingOnFile(key: string)
    ensures OnFile(EMPTY, key) == None
  {
  }

  lemma OnlyBeginCreates(db: Database, op: Op)
    requires Valid(db)
    ensures Creates(db, op) ==> op.Begin?
  {
  }

  // ----- what a request is answered -----

  /** A call that has just been requested: its row, and the two steps it has taken. */
  ghost predicate JustBegun(db: Database, c: CallId, op: Op)
    requires op.Begin?
  {
    && c in db.calls && c in db.log && c in db.events
    && db.calls[c] == Call(op.interviewId, op.provider, None, op.direction, op.transport, Initiating, 2, Some(2),
                           op.at, op.at, None, None)
    && db.log[c] == [LogRow(Requested, Validating, Validated, Some(1), op.at),
                     LogRow(Validating, Initiating, Initiate, Some(2), op.at)]
    && db.events[c] == map[]
  }

  /** Every other call, its index entries and the buffer are as they were. */
  ghost predicate OthersUntouched(db: Database, db': Database, c: CallId)
    requires Valid(db) && Valid(db')
  {
    && db'.calls.Keys == db.calls.Keys + {c}
    && (forall k :: k in db.calls ==> File(db', k) == File(db, k))
    && db'.unmatched == db.unmatched
  }

  lemma OpeningIsTwoSteps(call: Call, at: nat)
    requires call.state == Requested && call.version == 0 && call.lastSequence.None? && call.endedAt.None?
             && call.terminalTransition.None?
    ensures var w := Walk(call, OUTBOUND_OPENING, Some(1), 0, at);
            && w.call == call.(state := Initiating, version := 2, lastSequence := Some(2), updatedAt := at)
            && w.rows == [LogRow(Requested, Validating, Validated, Some(1), at),
                          LogRow(Validating, Initiating, Initiate, Some(2), at)]
  {
    var validated := Advance(call, Validated, Some(1), at).value;
    var initiated := Advance(validated, Initiate, Some(2), at).value;
    assert OUTBOUND_OPENING[1..] == [Initiate] && [Initiate][1..] == [];
    assert Walk(initiated, [], Some(1), 2, at) == Walked(initiated, [], true);
    assert Walk(validated, [Initiate], Some(1), 1, at)
        == Walked(initiated, [LogRow(Validating, Initiating, Initiate, Some(2), at)], true);
  }

  lemma BeginCreatesRow(db: Database, op: Op)
    requires Valid(db) && op.Begin? && op.refusal.None? && op.id !in db.calls
    requires CleanKey(op.key).None? || OnFile(db, CleanKey(op.key).value).None?
    ensures Valid(Step(db, op)) && JustBegun(Step(db, op), op.id, op) && OthersUntouched(db, Step(db, op), op.id)
    ensures Answer(db, op) == Ok(Created(Step(db, op).calls[op.id]))
    ensures CleanKey(op.key).Some? ==> OnFile(Step(db, op), CleanKey(op.key).value) == Some(op.id)
  {
    hide Walk, CleanKey, Indexed, DistinctKeys, VersionsBounded, KeysPointToCalls;
    StepValid(db, op);
    OpeningIsTwoSteps(NewCall(op.interviewId, op.provider, op.direction, op.transport, op.at), op.at);
  }

  /**
   After any run a request that no provider check refuses is answered by the call
   its key holds, if that call is of the same provider and interview, and by a
   conflict if not; only without such a call is a new one created. Nothing else
   changes.
   */
  lemma BeginAnswersExactly(ops: seq<Op>, op: Op)
    requires op.Begin? && op.refusal.None?
    ensures var db, key := Run(ops), CleanKey(op.key);
            var holder := if key.Some? then Holder(ops, key.value) else None;
            if holder.Some? then
              && holder.value in db.calls && Step(db, op) == db
              && var call := db.calls[holder.value];
                 Answer(db, op) == if call.provider == op.provider && call.interviewId == op.interviewId
                                   then Ok(Existing(call)) else Err(Conflict)
            else if op.id in db.calls then Step(db, op) == db && Answer(db, op) == Err(Constraint)
            else
              && Valid(Step(db, op)) && JustBegun(Step(db, op), op.id, op) && OthersUntouched(db, Step(db, op), op.id)
              && Answer(db, op) == Ok(Created(Step(db, op).calls[op.id]))
  {
    hide CleanKey, Holder, JustBegun, OthersUntouched, Walk, Run, Insert;
    var key := CleanKey(op.key);
    if key.Some? {
      KeyNamesItsCall(ops, key.value);
    }
    if op.id !in Run(ops).calls && (key.None? || OnFile(Run(ops), key.value).None?) {
      BeginCreatesRow(Run(ops), op);
    }
  }

  /** From the request at place i on the call has not been purged. */
  ghost predicate StaysFrom(ops: seq<Op>, i: nat, c: CallId) {
    forall k :: i < k <= |ops| ==> c in Run(ops[..k]).calls
  }

  lemma StepKeepsIdentity(db: Database, op: Op, c: CallId)
    requires Valid(db) && c in db.calls && c in Step(db, op).calls
    ensures Step(db, op).calls[c].provider == db.calls[c].provider
            && Step(db, op).calls[c].interviewId == db.calls[c].interviewId
  {
    hide Step, EffectOn, Deliver, ReplayAll, Indexed, DistinctKeys, KeysPointToCalls;
    StepEffect(db, op, c);
    match EffectOn(db, op, c)
    case Untouched =>
    case Delivered(d, m) => DeliverKeeps(d, m);
    case Replayed(d, ms) => ReplayAllKeeps(d, ms);
  }

  /** The key holds the call, with the provider and the interview of the request. */
  ghost predicate Holds(db: Database, key: string, op: Op)
    requires op.Begin?
  {
    && OnFile(db, key) == Some(op.id) && op.id in db.calls
    && db.calls[op.id].provider == op.provider && db.calls[op.id].interviewId == op.interviewId
  }

  lemma StepKeepsHolding(db: Database, op: Op, key: string, made: Op)
    requires Valid(db) && made.Begin? && Holds(db, key, made) && made.id in Step(db, op).calls
    ensures Valid(Step(db, op)) && Holds(Step(db, op), key, made)
  {
    hide Step, CleanKey, Creates;
    if op.Begin? {
      BeginFiles(db, op, key);
    } else {
      OthersFileNone(db, op, key);
    }
    StepKeepsIdentity(db, op, made.id);
  }

  lemma {:induction false} KeyIsHeld(ops: seq<Op>, i: nat, key: string)
    requires i < |ops| && Creates(Run(ops[..i]), ops[i]) && CleanKey(ops[i].key) == Some(key) && StaysFrom(ops, i, ops[i].id)
    ensures Holds(Run(ops), key, ops[i])
    decreases |ops|
  {
    hide Step, CleanKey, Creates, Holds, StaysFrom, Run;
    var front, op := ops[..|ops| - 1], ops[|ops| - 1];
    OnlyBeginCreates(Run(ops[..i]), ops[i]);
    if i == |ops| - 1 {
      assert ops[..i] == front;
      RunOneMore(ops);
      CreationFiles(Run(front), op);
    } else {
      RunOneMore(ops);
      StaysToTheEnd(ops, i);
      assert front[..i] == ops[..i];
      StaysInFront(ops, i);
      KeyIsHeld(front, i, key);
      StepKeepsHolding(Run(front), op, key, ops[i]);
    }
  }

  lemma RunOneMore(ops: seq<Op>)
    requires ops != []
    ensures Run(ops) == Step(Run(ops[..|ops| - 1]), ops[|ops| - 1])
  {
    hide Step;
  }

  lemma StaysToTheEnd(ops: seq<Op>, i: nat)
    requires i < |ops| && ops[i].Begin? && StaysFrom(ops, i, ops[i].id)
    ensures ops[i].id in Run(ops).calls
  {
    hide Run;
    assert ops[..|ops|] == ops;
  }

  lemma StaysInFront(ops: seq<Op>, i: nat)
    requires i < |ops| - 1 && ops[i].Begin? && StaysFrom(ops, i, ops[i].id)
    ensures StaysFrom(ops[..|ops| - 1], i, ops[i].id)
  {
    hide Run;
    var front := ops[..|ops| - 1];
    forall k | i < k <= |front|
      ensures ops[i].id in Run(front[..k]).calls
    {
      assert front[..k] == ops[..k];
    }
  }

  lemma CreationFiles(db: Database, op: Op)
    requires Valid(db) && Creates(db, op) && CleanKey(op.key).Some?
    ensures Holds(Step(db, op), CleanKey(op.key).value, op)
  {
    hide Walk, CleanKey, JustBegun, OthersUntouched;
    BeginCreatesRow(db, op);
    RowIsOfTheRequest(Step(db, op), op.id, op);
  }

  lemma RowIsOfTheRequest(db: Database, c: CallId, op: Op)
    requires op.Begin? && JustBegun(db, c, op)
    ensures c in db.calls && db.calls[c].provider == op.provider && db.calls[c].interviewId == op.interviewId
  {
  }

  /**
   Once a request with a key has created a call, then as long as the call is not
   purged, a request with the same key changes nothing: it is answered by that
   call's row as it stands by then if provider and interview are the same, and by
   a conflict if not.
   */
  lemma RepeatedRequest(ops: seq<Op>, i: nat, key: string, retry: Op, key': string)
    requires i < |ops| && Creates(Run(ops[..i]), ops[i]) && ops[i].key == Some(key) && Trim(key) != ""
    requires StaysFrom(ops, i, ops[i].id)
    requires retry.Begin? && retry.refusal.None? && retry.key == Some(key') && SameKeyText(key, key')
    ensures Step(Run(ops), retry) == Run(ops) && ops[i].id in Run(ops).calls
    ensures Answer(Run(ops), retry)
         == if retry.provider == ops[i].provider && retry.interviewId == ops[i].interviewId
            then Ok(Existing(Run(ops).calls[ops[i].id])) else Err(Conflict)
  {
    hide Run, CleanKey, SameKeyText, Holder, Creates, Step, JustBegun, OthersUntouched;
    CleanKeysAgree(key, key');
    KeyIsHeld(ops, i, CleanKey(Some(key)).value);
    KeyNamesItsCall(ops, CleanKey(Some(key)).value);
    BeginAnswersExactly(ops, retry);
  }

  /** Two calls come from requests with the same key only if the first was purged in between. */
  lemma KeysCreateOnce(ops: seq<Op>, i: nat, j: nat, key: string, key': string)
    requires i < j < |ops| && Creates(Run(ops[..i]), ops[i]) && Creates(Run(ops[..j]), ops[j])
    requires ops[i].key == Some(key) && ops[j].key == Some(key') && Trim(key) != "" && SameKeyText(key, key')
    ensures exists k :: i < k <= j && ops[i].id !in Run(ops[..k]).calls
  {
    hide Run, SameKeyText, StaysFrom, Creates;
    var before := ops[..j];
    assert before[..i] == ops[..i] && before[i] == ops[i];
    CreatesUnrefused(Run(ops[..i]), ops[i]);
    CreatesUnrefused(Run(before), ops[j]);
    if StaysFrom(before, i, ops[i].id) {
      RepeatedRequest(before, i, key, ops[j], key');
    } else {
      NotStaying(ops, i, j, ops[i].id);
    }
  }

  lemma CreatesUnrefused(db: Database, op: Op)
    requires Valid(db) && Creates(db, op)
    ensures op.Begin? && op.refusal.None? && Answer(db, op).Ok? && !Answer(db, op).value.Existing?
  {
    hide Walk;
  }

  lemma NotStaying(ops: seq<Op>, i: nat, j: nat, c: CallId)
    requires i < j < |ops| && !StaysFrom(ops[..j], i, c)
    ensures exists k :: i < k <= j && c !in Run(ops[..k]).calls
  {
    hide Run;
    var k :| i < k <= j && c !in Run(ops[..j][..k]).calls;
    assert ops[..j][..k] == ops[..k];
  }
}
