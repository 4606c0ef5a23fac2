/**
 Where the rows behind a production deployment come from: not only do a passing
 test run and an approval stand on record, but the operations that made them
 took effect, in this order and by these people.
 */
module WorkflowProvenance {
  import opened Prelude
  import opened Text
  import opened WorkflowShelf
  import opened WorkflowSafety
  import opened WorkflowRuns

  /** Where a run starts, and under which hash and workflow id. */
  datatype Origin = Origin(first: Shelf, hash: Hasher, workflow: nat)

  /** The shelf after the first n operations. */
  function At(o: Origin, ops: seq<Op>, n: nat): Shelf
    requires n <= |ops|
  {
    Run(o.first, o.hash, o.workflow, ops[..n])
  }

  /** An operation made this test run, with this verdict: the row was not there before it and is after it. */
  predicate MadeTest(op: Op, id: RowId, before: Shelf, after: Shelf, t: TestRun) {
    && op.Test? && op.id == id && op.version == t.version && op.deployment == t.deployment
    && op.actor == t.requestedBy && op.passed == t.passed
    && id !in before.tests && id in after.tests && after.tests[id] == t
  }

  function AsRequested(a: Approval): Approval {
    a.(decision := Pending, decidedBy := None)
  }

  /** An operation made this request for approval. */
  predicate MadeRequest(op: Op, id: RowId, before: Shelf, after: Shelf, a: Approval) {
    && op.Request? && op.id == id && op.version == a.version && op.testRun == a.testRun
    && op.actor == a.requestedBy && Strip(op.approver, IsPythonSpace) == a.approver
    && id !in before.approvals && id in after.approvals && after.approvals[id] == AsRequested(a)
  }

  /** An operation by the assigned approver decided the pending request this way. */
  predicate MadeDecision(op: Op, id: RowId, before: Shelf, after: Shelf, a: Approval) {
    && op == Decide(id, a.approver, a.decision == Approved)
    && id in before.approvals && before.approvals[id] == AsRequested(a)
    && id in after.approvals && after.approvals[id] == a
  }

  predicate TestedAt(o: Origin, ops: seq<Op>, i: nat, id: RowId, t: TestRun) {
    i < |ops| && MadeTest(ops[i], id, At(o, ops, i), At(o, ops, i + 1), t)
  }

  predicate RequestedAt(o: Origin, ops: seq<Op>, j: nat, id: RowId, a: Approval) {
    j < |ops| && MadeRequest(ops[j], id, At(o, ops, j), At(o, ops, j + 1), a)
  }

  predicate DecidedAt(o: Origin, ops: seq<Op>, k: nat, id: RowId, a: Approval) {
    k < |ops| && MadeDecision(ops[k], id, At(o, ops, k), At(o, ops, k + 1), a)
  }

  ghost predicate TestTraced(o: Origin, ops: seq<Op>, id: RowId, t: TestRun, before: nat) {
    exists i :: 0 <= i < before && TestedAt(o, ops, i, id, t)
  }

  /** First the test, then the request, then the decision if there is one. */
  ghost predicate ApprovalTraced(o: Origin, ops: seq<Op>, s: Shelf, id: RowId, a: Approval) {
    a.testRun in s.tests
    && exists j :: 0 <= j < |ops| && RequestedAt(o, ops, j, id, a) && TestTraced(o, ops, a.testRun, s.tests[a.testRun], j)
                   && (a.decision == Pending || exists k :: j < k < |ops| && DecidedAt(o, ops, k, id, a))
  }

  ghost predicate Traced(o: Origin, ops: seq<Op>, s: Shelf) {
    && (forall t :: t in s.tests ==> TestTraced(o, ops, t, s.tests[t], |ops|))
    && (forall a :: a in s.approvals ==> ApprovalTraced(o, ops, s, a, s.approvals[a]))
  }

  lemma {:induction false} RunSnoc(s: Shelf, hash: Hasher, workflow: nat, ops: seq<Op>, op: Op)
    ensures Run(s, hash, workflow, ops + [op]) == Step(Run(s, hash, workflow, ops), hash, workflow, op)
    decreases |ops|
  {
    hide Step;
    if ops == [] {
      assert ([] + [op])[1..] == [];
    } else {
      RunSnoc(Step(s, hash, workflow, ops[0]), hash, workflow, ops[1..], op);
      assert (ops + [op])[1..] == ops[1..] + [op];
    }
  }

  // ----- a longer run passes through the same shelves -----

  lemma AtEarlier(o: Origin, ops: seq<Op>, op: Op, n: nat)
    requires n <= |ops|
    ensures At(o, ops + [op], n) == At(o, ops, n)
  {
    assert (ops + [op])[..n] == ops[..n];
  }

  lemma AtLast(o: Origin, ops: seq<Op>, op: Op)
    ensures At(o, ops + [op], |ops|) == Run(o.first, o.hash, o.workflow, ops)
    ensures At(o, ops + [op], |ops| + 1) == Step(Run(o.first, o.hash, o.workflow, ops), o.hash, o.workflow, op)
  {
    hide Step, Run;
    assert (ops + [op])[..|ops|] == ops && (ops + [op])[..|ops| + 1] == ops + [op];
    RunSnoc(o.first, o.hash, o.workflow, ops, op);
  }

  lemma TestStaysTraced(o: Origin, ops: seq<Op>, op: Op, id: RowId, t: TestRun, before: nat)
    requires before <= |ops| && TestTraced(o, ops, id, t, before)
    ensures TestTraced(o, ops + [op], id, t, before)
  {
    hide At, MadeTest;
    var i :| 0 <= i < before && TestedAt(o, ops, i, id, t);
    AtEarlier(o, ops, op, i);
    AtEarlier(o, ops, op, i + 1);
    assert TestedAt(o, ops + [op], i, id, t);
  }

  lemma RequestStays(o: Origin, ops: seq<Op>, op: Op, j: nat, id: RowId, a: Approval)
    requires RequestedAt(o, ops, j, id, a)
    ensures RequestedAt(o, ops + [op], j, id, a)
  {
    hide At, MadeRequest;
    AtEarlier(o, ops, op, j);
    AtEarlier(o, ops, op, j + 1);
  }

  lemma DecisionStays(o: Origin, ops: seq<Op>, op: Op, k: nat, id: RowId, a: Approval)
    requires DecidedAt(o, ops, k, id, a)
    ensures DecidedAt(o, ops + [op], k, id, a)
  {
    hide At, MadeDecision;
    AtEarlier(o, ops, op, k);
    AtEarlier(o, ops, op, k + 1);
  }

  lemma ApprovalStaysTraced(o: Origin, ops: seq<Op>, op: Op, s: Shelf, s': Shelf, id: RowId, a: Approval)
    requires ApprovalTraced(o, ops, s, id, a) && a.testRun in s'.tests && s'.tests[a.testRun] == s.tests[a.testRun]
    ensures ApprovalTraced(o, ops + [op], s', id, a)
  {
    hide RequestedAt, DecidedAt, TestTraced;
    var j :| 0 <= j < |ops| && RequestedAt(o, ops, j, id, a) && TestTraced(o, ops, a.testRun, s.tests[a.testRun], j)
             && (a.decision == Pending || exists k :: j < k < |ops| && DecidedAt(o, ops, k, id, a));
    RequestStays(o, ops, op, j, id, a);
    TestStaysTraced(o, ops, op, a.testRun, s.tests[a.testRun], j);
    if a.decision != Pending {
      var k :| j < k < |ops| && DecidedAt(o, ops, k, id, a);
      DecisionStays(o, ops, op, k, id, a);
    }
  }

  // ----- one operation -----

  /** Every row is as it was, or the operation made it. */
  ghost predicate OnlyMade(s: Shelf, s': Shelf, op: Op) {
    && (forall t :: t in s'.tests ==>
         (t in s.tests && s'.tests[t] == s.tests[t]) || MadeTest(op, t, s, s', s'.tests[t]))
    && (forall a :: a in s'.approvals ==>
         || (a in s.approvals && s'.approvals[a] == s.approvals[a])
         || (MadeRequest(op, a, s, s', s'.approvals[a]) && s'.approvals[a].decision == Pending)
         || MadeDecision(op, a, s, s', s'.approvals[a]))
  }

  lemma TestMakes(s: Shelf, hash: Hasher, workflow: nat, op: Op)
    requires op.Test? && s.tests.Keys <= s.ids
    ensures OnlyMade(s, Step(s, hash, workflow, op), op)
  {
    hide CleanKey, FindVersion, FindDeployment, Strip, MadeRequest, MadeDecision;
  }

  lemma RequestMakes(s: Shelf, hash: Hasher, workflow: nat, op: Op)
    requires op.Request? && s.approvals.Keys <= s.ids
    ensures OnlyMade(s, Step(s, hash, workflow, op), op)
  {
    hide CleanKey, FindVersion, Strip, MadeTest, MadeDecision;
  }

  lemma DecideMakes(s: Shelf, hash: Hasher, workflow: nat, op: Op)
    requires op.Decide? && forall a :: a in s.approvals && s.approvals[a].decision == Pending ==> s.approvals[a].decidedBy == None
    ensures OnlyMade(s, Step(s, hash, workflow, op), op)
  {
    hide Strip, MadeTest, MadeRequest;
  }

  lemma ProductionMakesNeither(s: Shelf, hash: Hasher, workflow: nat, op: Op)
    requires op.ToProduction?
    ensures var s' := Step(s, hash, workflow, op); s'.tests == s.tests && s'.approvals == s.approvals
  {
    hide OperationKey, FindVersion, ExistingDeployment, Current, ProductionChecks, Supersede, DeploySandbox, RollbackProduction,
         ReplayProduction;
  }

  lemma OtherDeploymentsMakeNeither(s: Shelf, hash: Hasher, workflow: nat, op: Op)
    requires op.ToSandbox? || op.Rollback?
    ensures var s' := Step(s, hash, workflow, op); s'.tests == s.tests && s'.approvals == s.approvals
  {
    hide OperationKey, FindVersion, FindDeployment, ExistingDeployment, Current, Supersede, DeployProduction;
  }

  lemma OthersMakeNeither(s: Shelf, hash: Hasher, workflow: nat, op: Op)
    requires !op.Test? && !op.Request? && !op.Decide?
    ensures var s' := Step(s, hash, workflow, op); s'.tests == s.tests && s'.approvals == s.approvals
  {
    hide DeploySandbox, DeployProduction, RollbackProduction, CleanKey, RetireLive, DisableRows, LatestVersion, BuildArtifact,
         LoadVersion;
    if op.ToProduction? {
      ProductionMakesNeither(s, hash, workflow, op);
    } else if op.ToSandbox? || op.Rollback? {
      OtherDeploymentsMakeNeither(s, hash, workflow, op);
    }
  }

  lemma PendingIsUndecided(s: Shelf, hash: Hasher, workflow: nat)
    requires Inv(s, hash, workflow)
    ensures s.tests.Keys <= s.ids && s.approvals.Keys <= s.ids
    ensures forall a :: a in s.approvals && s.approvals[a].decision == Pending ==> s.approvals[a].decidedBy == None
  {
    hide VersionsSealed, IdsDistinct, KeysUnique, LiveIsLast, NothingLive, TestBacked, DeploymentBacked;
    forall a | a in s.approvals && s.approvals[a].decision == Pending
      ensures s.approvals[a].decidedBy == None
    {
      assert ApprovalBacked(s, s.approvals[a]);
    }
  }

  lemma StepMakes(s: Shelf, hash: Hasher, workflow: nat, op: Op)
    requires Inv(s, hash, workflow)
    ensures OnlyMade(s, Step(s, hash, workflow, op), op)
  {
    hide Step, Inv, MadeTest, MadeRequest, MadeDecision;
    PendingIsUndecided(s, hash, workflow);
    if op.Test? {
      TestMakes(s, hash, workflow, op);
    } else if op.Request? {
      RequestMakes(s, hash, workflow, op);
    } else if op.Decide? {
      DecideMakes(s, hash, workflow, op);
    } else {
      OthersMakeNeither(s, hash, workflow, op);
    }
  }

  lemma ApprovalTracedAfter(o: Origin, ops: seq<Op>, op: Op, s: Shelf, s': Shelf, a: RowId)
    requires s == Run(o.first, o.hash, o.workflow, ops) && s' == Step(s, o.hash, o.workflow, op)
    requires Traced(o, ops, s) && Extends(s, s') && OnlyMade(s, s', op) && a in s'.approvals
    requires s'.approvals[a].testRun in s.tests
    ensures ApprovalTraced(o, ops + [op], s', a, s'.approvals[a])
  {
    hide At, TestedAt, MadeRequest, MadeTest, Extends, Run, Step, DecidedAt, ApprovalTraced, TestTraced;
    var row := s'.approvals[a];
    TestIsKept(s, s', row.testRun);
    AtLast(o, ops, op);
    if a in s.approvals && row == s.approvals[a] {
      ApprovalStaysTraced(o, ops, op, s, s', a, row);
    } else if MadeDecision(op, a, s, s', row) {
      DecisionIsTraced(o, ops, op, s, s', a, row);
    } else {
      RequestIsTraced(o, ops, op, s, s', a, row);
    }
  }

  lemma RequestIsTraced(o: Origin, ops: seq<Op>, op: Op, s: Shelf, s': Shelf, id: RowId, a: Approval)
    requires s == Run(o.first, o.hash, o.workflow, ops) && s' == Step(s, o.hash, o.workflow, op)
    requires MadeRequest(op, id, s, s', a) && a.decision == Pending
    requires a.testRun in s.tests && TestTraced(o, ops, a.testRun, s.tests[a.testRun], |ops|)
    requires a.testRun in s'.tests && s'.tests[a.testRun] == s.tests[a.testRun]
    ensures ApprovalTraced(o, ops + [op], s', id, a)
  {
    hide At, TestTraced, MadeRequest, Run, Step, DecidedAt;
    AtLast(o, ops, op);
    TestStaysTraced(o, ops, op, a.testRun, s.tests[a.testRun], |ops|);
    assert RequestedAt(o, ops + [op], |ops|, id, a);
  }

  lemma TestIsKept(s: Shelf, s': Shelf, t: RowId)
    requires Extends(s, s') && t in s.tests
    ensures t in s'.tests && s'.tests[t] == s.tests[t]
  {
  }

  /** A request does not depend on how it was decided later. */
  lemma SameRequest(o: Origin, ops: seq<Op>, j: nat, id: RowId, a: Approval, a': Approval)
    requires RequestedAt(o, ops, j, id, a) && AsRequested(a') == AsRequested(a)
    ensures RequestedAt(o, ops, j, id, a')
  {
    hide At, Strip;
  }

  lemma DecisionIsTraced(o: Origin, ops: seq<Op>, op: Op, s: Shelf, s': Shelf, id: RowId, a: Approval)
    requires s == Run(o.first, o.hash, o.workflow, ops) && s' == Step(s, o.hash, o.workflow, op)
    requires MadeDecision(op, id, s, s', a) && ApprovalTraced(o, ops, s, id, s.approvals[id])
    requires a.testRun in s'.tests && s'.tests[a.testRun] == s.tests[a.testRun]
    ensures ApprovalTraced(o, ops + [op], s', id, a)
  {
    hide At, RequestedAt, TestTraced, Run, Step;
    var pending := s.approvals[id];
    var j :| 0 <= j < |ops| && RequestedAt(o, ops, j, id, pending) && TestTraced(o, ops, pending.testRun, s.tests[pending.testRun], j);
    SameRequest(o, ops, j, id, pending, a);
    RequestStays(o, ops, op, j, id, a);
    TestStaysTraced(o, ops, op, a.testRun, s.tests[a.testRun], j);
    AtLast(o, ops, op);
    assert DecidedAt(o, ops + [op], |ops|, id, a);
  }

  lemma StepTraces(o: Origin, ops: seq<Op>, op: Op)
    requires Inv(Run(o.first, o.hash, o.workflow, ops), o.hash, o.workflow)
    requires Traced(o, ops, Run(o.first, o.hash, o.workflow, ops))
    ensures Traced(o, ops + [op], Step(Run(o.first, o.hash, o.workflow, ops), o.hash, o.workflow, op))
  {
    hide Step, Run, At, TestTraced, Inv, Extends, ApprovalTraced, MadeTest, MadeRequest, MadeDecision;
    var s := Run(o.first, o.hash, o.workflow, ops);
    var s' := Step(s, o.hash, o.workflow, op);
    StepKeeps(s, o.hash, o.workflow, op);
    StepMakes(s, o.hash, o.workflow, op);
    forall t | t in s'.tests
      ensures TestTraced(o, ops + [op], t, s'.tests[t], |ops + [op]|)
    {
      TestTracedAfter(o, ops, op, s, s', t);
    }
    forall a | a in s'.approvals
      ensures ApprovalTraced(o, ops + [op], s', a, s'.approvals[a])
    {
      ApprovalTestWasThere(s, o.hash, o.workflow, op, a);
      ApprovalTracedAfter(o, ops, op, s, s', a);
    }
  }

  lemma TestTracedAfter(o: Origin, ops: seq<Op>, op: Op, s: Shelf, s': Shelf, t: RowId)
    requires s == Run(o.first, o.hash, o.workflow, ops) && s' == Step(s, o.hash, o.workflow, op)
    requires Traced(o, ops, s) && OnlyMade(s, s', op) && t in s'.tests
    ensures TestTraced(o, ops + [op], t, s'.tests[t], |ops + [op]|)
  {
    hide Step, Run, At, MadeTest, MadeRequest, MadeDecision, ApprovalTraced;
    if t in s.tests && s'.tests[t] == s.tests[t] {
      TestStaysTraced(o, ops, op, t, s.tests[t], |ops|);
    } else {
      AtLast(o, ops, op);
      assert TestedAt(o, ops + [op], |ops|, t, s'.tests[t]);
    }
  }

  /** The test run of any approval was on record before the operation: only a request names a new one, and it checks. */
  lemma ApprovalTestWasThere(s: Shelf, hash: Hasher, workflow: nat, op: Op, a: RowId)
    requires Inv(s, hash, workflow) && Inv(Step(s, hash, workflow, op), hash, workflow)
    requires OnlyMade(s, Step(s, hash, workflow, op), op)
    requires a in Step(s, hash, workflow, op).approvals
    ensures Step(s, hash, workflow, op).approvals[a].testRun in s.tests
  {
    hide VersionsSealed, IdsDistinct, KeysUnique, LiveIsLast, NothingLive, TestBacked, DeploymentBacked, Step, Strip;
    var s' := Step(s, hash, workflow, op);
    assert ApprovalBacked(s', s'.approvals[a]);
    if a in s.approvals {
      assert ApprovalBacked(s, s.approvals[a]);
    }
  }

  lemma {:induction false} RunTraces(o: Origin, ops: seq<Op>)
    requires Inv(o.first, o.hash, o.workflow) && o.first.tests == map[] && o.first.approvals == map[]
    ensures Traced(o, ops, Run(o.first, o.hash, o.workflow, ops))
    decreases |ops|
  {
    hide Step, Inv, Traced, Run;
    if ops == [] {
      NothingToTrace(o);
    } else {
      var front, last := ops[..|ops| - 1], ops[|ops| - 1];
      RunTraces(o, front);
      RunKeeps(o.first, o.hash, o.workflow, front);
      StepTraces(o, front, last);
      RunSnoc(o.first, o.hash, o.workflow, front, last);
      assert front + [last] == ops;
    }
  }

  lemma NothingToTrace(o: Origin)
    requires o.first.tests == map[] && o.first.approvals == map[]
    ensures Traced(o, [], Run(o.first, o.hash, o.workflow, []))
  {
  }

  /**
   A test that took effect and passed, a request that took effect and names it,
   and a decision that took effect and approved it, by the assigned approver and
   not by the requester.
   */
  predicate Promoted(o: Origin, ops: seq<Op>, i: nat, j: nat, k: nat, testRun: RowId, approval: RowId)
    requires i < |ops| && j < |ops| && k < |ops|
  {
    && ops[i].Test? && ops[i].id == testRun && ops[i].passed
    && testRun !in At(o, ops, i).tests && testRun in At(o, ops, i + 1).tests && At(o, ops, i + 1).tests[testRun].passed
    && ops[j].Request? && ops[j].id == approval && ops[j].testRun == testRun
    && approval !in At(o, ops, j).approvals && approval in At(o, ops, j + 1).approvals
    && At(o, ops, j + 1).approvals[approval].decision == Pending
    && ops[k].Decide? && ops[k].approval == approval && ops[k].approve
    && ops[k].actor == Strip(ops[j].approver, IsPythonSpace) && ops[k].actor != ops[j].actor
    && approval in At(o, ops, k).approvals && At(o, ops, k).approvals[approval].decision == Pending
    && approval in At(o, ops, k + 1).approvals && At(o, ops, k + 1).approvals[approval].decision == Approved
  }

  /**
   Behind every production deployment of every run stand three operations of
   that run that took effect, in this order: a test whose suites passed, a
   request for approval naming that test, and the approval itself, given by the
   approver the request assigned, who is not the one who made it.
   */
  lemma EveryProductionDeploymentHasItsHistory(
      hash: Hasher, workflow: nat, owner: string, draft: Draft, creator: string, ops: seq<Op>, d: Deployment)
    requires d in Run(NewShelf(owner, draft, creator), hash, workflow, ops).deployments
    requires d.environment == Production && d.status != Failed
    ensures d.testRun.Some? && d.approval.Some?
    ensures exists i, j, k ::
              0 <= i < j < k < |ops|
              && Promoted(Origin(NewShelf(owner, draft, creator), hash, workflow), ops, i, j, k, d.testRun.value, d.approval.value)
  {
    hide Run, Inv, TestedAt, RequestedAt, DecidedAt, At;
    var o := Origin(NewShelf(owner, draft, creator), hash, workflow);
    EveryProductionDeploymentIsCleared(hash, workflow, owner, draft, creator, ops, d);
    NewShelfIsSafe(hash, workflow, owner, draft, creator);
    RunTraces(o, ops);
    var s := Run(o.first, hash, workflow, ops);
    var a := s.approvals[d.approval.value];
    var t := s.tests[d.testRun.value];
    assert ApprovalTraced(o, ops, s, d.approval.value, a);
    var j :| 0 <= j < |ops| && RequestedAt(o, ops, j, d.approval.value, a) && TestTraced(o, ops, a.testRun, s.tests[a.testRun], j)
             && (a.decision == Pending || exists k :: j < k < |ops| && DecidedAt(o, ops, k, d.approval.value, a));
    var k :| j < k < |ops| && DecidedAt(o, ops, k, d.approval.value, a);
    var i :| 0 <= i < j && TestedAt(o, ops, i, a.testRun, t);
    HistoryPromotes(o, ops, i, j, k, d.testRun.value, d.approval.value, t, a);
  }

  lemma HistoryPromotes(o: Origin, ops: seq<Op>, i: nat, j: nat, k: nat, testRun: RowId, approval: RowId, t: TestRun, a: Approval)
    requires TestedAt(o, ops, i, testRun, t) && RequestedAt(o, ops, j, approval, a) && DecidedAt(o, ops, k, approval, a)
    requires t.passed && a.testRun == testRun && a.decision == Approved && a.approver != a.requestedBy
    ensures Promoted(o, ops, i, j, k, testRun, approval)
  {
    hide At, Strip;
  }
}
