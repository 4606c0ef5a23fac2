/** What the callers of the workflow transactions are told, against what the tables hold before and after. */
module WorkflowAnswers {
  import opened Prelude
  import opened Text
  import opened WorkflowShelf
  import opened WorkflowSafety
  import opened WorkflowRuns
  import opened WorkflowReplay

  ghost predicate HasVersion(s: Shelf, version: nat) {
    1 <= version <= |s.versions|
  }

  /** The environment serves version v on the binding, by row d. */
  ghost predicate Serves(s: Shelf, environment: Environment, d: Deployment, v: Version, fingerprint: string) {
    && Current(s, environment) == Some(d)
    && d.status == Live && d.environment == environment
    && d.version == v.version && d.hash == v.hash && d.fingerprint == fingerprint
  }

  /** Row d is the one new row. */
  ghost predicate AddsRow(s: Shelf, s': Shelf, d: Deployment) {
    |s'.deployments| == |s.deployments| + 1 && s'.deployments[|s.deployments|] == d
  }

  /** The transaction is on record, with the version and the one who asked for it. */
  ghost predicate Logged(s: Shelf, s': Shelf, version: nat, action: Action, actor: string) {
    s'.audit == s.audit + [AuditRow(Some(version), action, actor)]
  }

  lemma InstalledIsServed(s: Shelf, s': Shelf, hash: Hasher, workflow: nat, d: Deployment, action: Action)
    requires s' == Install(s, d, action) && d.status == Live && Inv(s', hash, workflow)
    ensures Current(s', d.environment) == Some(d) && AddsRow(s, s', d) && Logged(s, s', d.version, action, d.actor)
  {
    hide Current, VersionsSealed, IdsDistinct, KeysUnique, AllBacked;
    assert s'.deployments[|s.deployments|] == d;
    CurrentIsTheLiveOne(s', |s.deployments|);
  }

  lemma FailedIsNotServed(s: Shelf, s': Shelf, d: Deployment, environment: Environment)
    requires s'.deployments == s.deployments + [d] && d.status == Failed
    ensures Current(s', environment) == Current(s, environment)
  {
    assert s'.deployments[..|s'.deployments| - 1] == s.deployments;
  }

  // ----- keys -----

  /** Two keys are the same exactly if they are without the blanks at their ends; blank ones are none. */
  lemma CleanKeysAgree(a: string, b: string)
    ensures CleanKey(Some(a)) == CleanKey(Some(b)) <==> Strip(a, IsPythonSpace) == Strip(b, IsPythonSpace)
    ensures CleanKey(Some(a)).None? <==> Strip(a, IsPythonSpace) == ""
  {
    hide Strip;
  }

  // ----- production -----

  function ProductionAnswer(s: Shelf, hash: Hasher, op: Op): Result<Deployment, WorkflowError>
    requires op.ToProduction?
  {
    DeployProduction(s, hash, op.id, op.version, op.testRun, op.approval, op.actor, op.key, op.binding, op.now).1
  }

  /** The row the request asks for, live or failed. */
  ghost predicate IsRowOf(d: Deployment, op: Op, v: Version)
    requires op.ToProduction?
  {
    && d.id == op.id && d.version == op.version && d.environment == Production && d.hash == v.hash
    && d.fingerprint == (if op.binding.Some? then op.binding.value.fingerprint else "")
    && d.actor == op.actor && d.testRun == Some(op.testRun) && d.approval == Some(op.approval)
    && d.key == OperationKey(PRODUCTION_DEPLOY, op.key) && d.createdAt == op.now
  }

  /** Production serves the version now: by a new row, or by the row that served it already. */
  ghost predicate Deployed(s: Shelf, s': Shelf, answer: Result<Deployment, WorkflowError>, op: Op, v: Version)
    requires op.ToProduction? && op.binding.Some?
  {
    && answer.Ok?
    && Serves(s', Production, answer.value, v, op.binding.value.fingerprint)
    && (if AlreadyServed(s, op.version, v.hash, op.binding) then s' == s
        else AddsRow(s, s', answer.value) && IsRowOf(answer.value, op, v)
             && Logged(s, s', op.version, ProductionActive(op.id), op.actor))
  }

  /** The caller is told, production serves what it served, and the attempt is on record as failed. */
  ghost predicate TurnedDown(s: Shelf, s': Shelf, answer: Result<Deployment, WorkflowError>, op: Op, v: Version)
    requires op.ToProduction?
  {
    && answer == Err(State)
    && Current(s', Production) == Current(s, Production)
    && |s'.deployments| == |s.deployments| + 1
    && var d := s'.deployments[|s.deployments|];
       s'.deployments == s.deployments + [d] && IsRowOf(d, op, v) && d.status == Failed
       && Logged(s, s', op.version, ProductionFailed(op.id), op.actor)
  }

  /** A production deployment with a new key is accepted exactly if the version exists and has everything it needs. */
  lemma ProductionAnswersExactly(s: Shelf, hash: Hasher, workflow: nat, op: Op)
    requires Inv(s, hash, workflow) && op.ToProduction? && !Recorded(s, op) && op.id !in s.ids
    ensures var s', answer := Step(s, hash, workflow, op), ProductionAnswer(s, hash, op);
            if !HasVersion(s, op.version) then s' == s && answer == Err(NotFound)
            else if Promotable(s, hash, s.versions[op.version - 1], op.testRun, op.approval, op.binding) then
              op.binding.Some? && Deployed(s, s', answer, op, s.versions[op.version - 1])
            else TurnedDown(s, s', answer, op, s.versions[op.version - 1])
  {
    hide Inv, Step, Promotable, DeployProduction, Deployed, TurnedDown, Recorded;
    if !HasVersion(s, op.version) {
      NoVersionNoDeployment(s, hash, workflow, op);
    } else if !Promotable(s, hash, s.versions[op.version - 1], op.testRun, op.approval, op.binding) {
      UnfitIsTurnedDown(s, hash, workflow, op);
    } else {
      ChecksClear(s, hash, s.versions[op.version - 1], op.testRun, op.approval, op.binding);
      NeedsBinding(s, hash, s.versions[op.version - 1], op.testRun, op.approval, op.binding);
      FitIsDeployed(s, hash, workflow, op);
    }
  }

  lemma NoVersionNoDeployment(s: Shelf, hash: Hasher, workflow: nat, op: Op)
    requires Inv(s, hash, workflow) && op.ToProduction? && !Recorded(s, op) && !HasVersion(s, op.version)
    ensures Step(s, hash, workflow, op) == s && ProductionAnswer(s, hash, op) == Err(NotFound)
  {
    hide Inv, Current, ProductionChecks, Install, DeploymentRecorded, ExistingDeployment, OperationKey, FindVersion;
    InvParts(s, hash, workflow);
    VersionIsAtItsNumber(s, hash, workflow, op.version);
    UnrecordedIsNotFound(s, OperationKey(PRODUCTION_DEPLOY, op.key));
  }

  lemma FitIsDeployed(s: Shelf, hash: Hasher, workflow: nat, op: Op)
    requires Inv(s, hash, workflow) && op.ToProduction? && !Recorded(s, op)
    requires HasVersion(s, op.version) && op.id !in s.ids && op.binding.Some?
    requires Promotable(s, hash, s.versions[op.version - 1], op.testRun, op.approval, op.binding)
    ensures Deployed(s, Step(s, hash, workflow, op), ProductionAnswer(s, hash, op), op, s.versions[op.version - 1])
  {
    hide Inv, Current, ProductionChecks, Promotable, Install, DeploymentRecorded, ExistingDeployment, OperationKey, FindVersion,
         DeployProduction;
    InvParts(s, hash, workflow);
    VersionIsAtItsNumber(s, hash, workflow, op.version);
    VersionHasItsNumber(s, hash, workflow, op.version);
    UnrecordedIsNotFound(s, OperationKey(PRODUCTION_DEPLOY, op.key));
    var v := s.versions[op.version - 1];
    ChecksClear(s, hash, v, op.testRun, op.approval, op.binding);
    FitIsAccepted(s, hash, op, v);
    if AlreadyServed(s, op.version, v.hash, op.binding) {
      LiveHasStatus(s, Production);
    } else {
      ProductionKeeps(s, hash, workflow, op.id, op.version, op.testRun, op.approval, op.actor, op.key, op.binding, op.now);
      InstalledIsServed(s, Step(s, hash, workflow, op), hash, workflow, ProductionAnswer(s, hash, op).value, ProductionActive(op.id));
    }
  }

  /** The transaction when the checks are clear: nothing if production serves it already, else one new live row. */
  lemma FitIsAccepted(s: Shelf, hash: Hasher, op: Op, v: Version)
    requires op.ToProduction? && op.binding.Some? && op.id !in s.ids && FindVersion(s.versions, op.version) == Some(v)
    requires ExistingDeployment(s, OperationKey(PRODUCTION_DEPLOY, op.key)).None?
    requires ProductionChecks(s, hash, v, op.testRun, op.approval, op.binding) == []
    ensures var (s', answer) :=
              DeployProduction(s, hash, op.id, op.version, op.testRun, op.approval, op.actor, op.key, op.binding, op.now);
            if AlreadyServed(s, op.version, v.hash, op.binding) then s' == s && answer == Ok(Current(s, Production).value)
            else answer.Ok? && s' == Install(s, answer.value, ProductionActive(op.id)) && IsRowOf(answer.value, op, v)
                 && answer.value.status == Live
  {
    hide Current, ProductionChecks, Install, ExistingDeployment, OperationKey, FindVersion;
  }

  lemma UnfitIsTurnedDown(s: Shelf, hash: Hasher, workflow: nat, op: Op)
    requires Inv(s, hash, workflow) && op.ToProduction? && !Recorded(s, op)
    requires HasVersion(s, op.version) && op.id !in s.ids
    requires !Promotable(s, hash, s.versions[op.version - 1], op.testRun, op.approval, op.binding)
    ensures TurnedDown(s, Step(s, hash, workflow, op), ProductionAnswer(s, hash, op), op, s.versions[op.version - 1])
  {
    hide Inv, Current, ProductionChecks, Promotable, Install, DeploymentRecorded, ExistingDeployment, OperationKey, FindVersion;
    InvParts(s, hash, workflow);
    VersionIsAtItsNumber(s, hash, workflow, op.version);
    UnrecordedIsNotFound(s, OperationKey(PRODUCTION_DEPLOY, op.key));
    ChecksClear(s, hash, s.versions[op.version - 1], op.testRun, op.approval, op.binding);
    var s' := Step(s, hash, workflow, op);
    FailedIsNotServed(s, s', s'.deployments[|s.deployments|], Production);
  }

  lemma VersionHasItsNumber(s: Shelf, hash: Hasher, workflow: nat, n: nat)
    requires VersionsSealed(s.versions, hash, workflow) && HasVersion(s, n)
    ensures s.versions[n - 1].version == n
  {
  }

  lemma LiveHasStatus(s: Shelf, environment: Environment)
    requires Current(s, environment).Some?
    ensures var d := Current(s, environment).value;
            d.status == Live && d.environment == environment && d in s.deployments
  {
  }

  /**
   What a repeated production request is told: the first one's row as it stands by
   then, a conflict if it asks for another version, and once more the refusal if
   the first one failed.
   */
  lemma RetriedProductionDeployment(s: Shelf, hash: Hasher, workflow: nat, op: Op, ops: seq<Op>, retry: Op)
    requires Inv(s, hash, workflow) && op.ToProduction? && Step(s, hash, workflow, op) != s && Retries(op, retry)
    requires retry.ToProduction?
    ensures var first := ProductionAnswer(s, hash, op);
            var again := ProductionAnswer(Run(Step(s, hash, workflow, op), hash, workflow, ops), hash, retry);
            if first.Err? then first == Err(State) && again == Err(State)
            else if retry.version == op.version then again.Ok? && Aged(first.value, again.value)
            else again == Err(Conflict)
  {
    hide Inv, Run, CleanKey, Current, FindVersion, Aged, ProductionChecks, Install, ExistingDeployment;
    var s0 := Step(s, hash, workflow, op);
    var n := |s.deployments|;
    StepKeeps(s, hash, workflow, op);
    ProductionAdds(s, hash, op);
    KeyKeepsItsRow(s0, hash, workflow, n, ops);
    AgedStaysPut(s0.deployments[n], ExistingDeployment(Run(s0, hash, workflow, ops), s0.deployments[n].key).value);
  }

  lemma ProductionAdds(s: Shelf, hash: Hasher, op: Op)
    requires op.ToProduction?
    requires DeployProduction(s, hash, op.id, op.version, op.testRun, op.approval, op.actor, op.key, op.binding, op.now).0 != s
    ensures var (s', answer) :=
              DeployProduction(s, hash, op.id, op.version, op.testRun, op.approval, op.actor, op.key, op.binding, op.now);
            && |s'.deployments| == |s.deployments| + 1
            && var d := s'.deployments[|s.deployments|];
               && d.key == OperationKey(PRODUCTION_DEPLOY, op.key) && d.environment == Production && d.version == op.version
               && (if answer.Ok? then answer.value == d && d.status == Live else answer == Err(State) && d.status == Failed)
  {
    hide Current, FindVersion, ProductionChecks, OperationKey, ExistingDeployment, When;
  }

  /** A row never changes its place in the tables, and one that failed or ended stays so. */
  lemma AgedStaysPut(d: Deployment, d': Deployment)
    requires Aged(d, d')
    ensures d'.environment == d.environment && d'.version == d.version && (d.status == Failed <==> d'.status == Failed)
  {
  }

  // ----- rollback -----

  function RollbackAnswer(s: Shelf, op: Op): Result<Deployment, WorkflowError>
    requires op.Rollback?
  {
    RollbackProduction(s, op.id, op.deployment, op.actor, op.key, op.binding, op.now).1
  }

  /** The row with this id, if there is one. */
  ghost predicate IsRow(s: Shelf, id: RowId, d: Deployment) {
    d in s.deployments && d.id == id
  }

  lemma RowIsFound(s: Shelf, hash: Hasher, workflow: nat, id: RowId)
    requires Inv(s, hash, workflow)
    ensures forall d :: IsRow(s, id, d) <==> FindDeployment(s.deployments, id) == Some(d)
  {
    hide VersionsSealed, KeysUnique, AllBacked, LiveIsLast;
    var found := FindDeployment(s.deployments, id);
    forall d | IsRow(s, id, d)
      ensures found == Some(d)
    {
      var i :| 0 <= i < |s.deployments| && s.deployments[i] == d;
      var j :| 0 <= j < |s.deployments| && s.deployments[j] == found.value;
      assert i == j;
    }
  }

  /** What a rollback goes back to: a production row that did not fail, on the binding that is configured. */
  ghost predicate IsTarget(s: Shelf, op: Op, target: Deployment)
    requires op.Rollback?
  {
    && IsRow(s, op.deployment, target) && target.environment == Production && target.status != Failed
    && op.binding.Some? && op.binding.value.fingerprint == target.fingerprint
  }

  /** Production serves what the target served, with the test run and the approval it was cleared by. */
  ghost predicate RolledBack(s: Shelf, s': Shelf, answer: Result<Deployment, WorkflowError>, op: Op, target: Deployment)
    requires op.Rollback?
  {
    && answer.Ok? && var d := answer.value;
       && Current(s', Production) == Some(d) && d.status == Live && d.environment == Production
       && d.version == target.version && d.hash == target.hash && d.fingerprint == target.fingerprint
       && d.testRun == target.testRun && d.approval == target.approval
       && (if Current(s, Production) == Some(target) then s' == s && d == target
           else AddsRow(s, s', d) && d.id == op.id && d.actor == op.actor && d.createdAt == op.now
                && d.key == OperationKey(PRODUCTION_ROLLBACK, op.key)
                && Logged(s, s', target.version, ProductionRollback(op.id, IdOf(Current(s, Production)), target.id), op.actor))
  }

  /** A rollback with a new key succeeds exactly if the workflow is active and there is a row to go back to. */
  lemma RollbackAnswersExactly(s: Shelf, hash: Hasher, workflow: nat, op: Op)
    requires Inv(s, hash, workflow) && op.Rollback? && !Recorded(s, op) && op.id !in s.ids
    ensures var s', answer := Step(s, hash, workflow, op), RollbackAnswer(s, op);
            && (answer.Ok? <==> s.status == Active && exists d :: IsTarget(s, op, d))
            && (forall d :: s.status == Active && IsTarget(s, op, d) ==> RolledBack(s, s', answer, op, d))
            && (answer.Err? ==> s' == s)
            && (answer.Err? ==> answer.error == if s.status == Active && (forall d :: !IsRow(s, op.deployment, d)) then NotFound else State)
  {
    hide Inv, Current, Install, DeploymentRecorded, ExistingDeployment, OperationKey, FindDeployment;
    UnrecordedIsNotFound(s, OperationKey(PRODUCTION_ROLLBACK, op.key));
    RowIsFound(s, hash, workflow, op.deployment);
    var found := FindDeployment(s.deployments, op.deployment);
    if found.Some? {
      assert IsRow(s, op.deployment, found.value);
      if s.status == Active && IsTarget(s, op, found.value) {
        RollbackInstalls(s, hash, workflow, op, found.value);
      }
    }
  }

  lemma RollbackInstalls(s: Shelf, hash: Hasher, workflow: nat, op: Op, target: Deployment)
    requires Inv(s, hash, workflow) && op.Rollback? && !Recorded(s, op) && op.id !in s.ids && s.status == Active
    requires IsTarget(s, op, target) && FindDeployment(s.deployments, op.deployment) == Some(target)
    ensures RolledBack(s, Step(s, hash, workflow, op), RollbackAnswer(s, op), op, target)
  {
    hide Inv, Current, Install, DeploymentRecorded, ExistingDeployment, OperationKey, FindDeployment;
    UnrecordedIsNotFound(s, OperationKey(PRODUCTION_ROLLBACK, op.key));
    var current := Current(s, Production);
    if current.Some? {
      LiveHasStatus(s, Production);
    }
    if current.Some? && current.value.id == op.deployment {
      RowIsFound(s, hash, workflow, op.deployment);
      assert IsRow(s, op.deployment, current.value);
    } else {
      RollbackKeeps(s, hash, workflow, op.id, op.deployment, op.actor, op.key, op.binding, op.now);
      InstalledIsServed(s, Step(s, hash, workflow, op), hash, workflow, RollbackAnswer(s, op).value,
                        ProductionRollback(op.id, IdOf(current), op.deployment));
    }
  }

  /** A repeated rollback is told the first one's row, as it stands by then. */
  lemma RetriedRollback(s: Shelf, hash: Hasher, workflow: nat, op: Op, ops: seq<Op>, retry: Op)
    requires Inv(s, hash, workflow) && op.Rollback? && Step(s, hash, workflow, op) != s && Retries(op, retry)
    requires retry.Rollback?
    ensures var first := RollbackAnswer(s, op);
            var again := RollbackAnswer(Run(Step(s, hash, workflow, op), hash, workflow, ops), retry);
            first.Ok? && again.Ok? && Aged(first.value, again.value)
  {
    hide Inv, Run, CleanKey, Current, FindDeployment, Aged, ExistingDeployment;
    var s0 := Step(s, hash, workflow, op);
    StepKeeps(s, hash, workflow, op);
    assert s0.deployments[|s.deployments|] == RollbackAnswer(s, op).value;
    KeyKeepsItsRow(s0, hash, workflow, |s.deployments|, ops);
  }

  // ----- sandbox -----

  function SandboxAnswer(s: Shelf, op: Op): Result<Deployment, WorkflowError>
    requires op.ToSandbox?
  {
    DeploySandbox(s, op.id, op.version, op.actor, op.key, op.sandboxBinding, op.now).1
  }

  /** A sandbox deployment with a new key succeeds exactly for a version the binding supports, and the sandbox then serves it. */
  lemma SandboxAnswersExactly(s: Shelf, hash: Hasher, workflow: nat, op: Op)
    requires Inv(s, hash, workflow) && op.ToSandbox? && !Recorded(s, op) && op.id !in s.ids
    ensures var s', answer := Step(s, hash, workflow, op), SandboxAnswer(s, op);
            && (answer.Ok? <==> s.status == Active && HasVersion(s, op.version)
                                && (forall c :: c in s.versions[op.version - 1].artifact.runtime ==> c in op.sandboxBinding.provided))
            && (answer.Ok? ==>
                var d := answer.value;
                && Serves(s', Sandbox, d, s.versions[op.version - 1], op.sandboxBinding.fingerprint) && AddsRow(s, s', d)
                && d.id == op.id && d.actor == op.actor && d.createdAt == op.now
                && d.key == OperationKey(SANDBOX_DEPLOY, op.key)
                && Logged(s, s', op.version, SandboxActive(op.id), op.actor))
            && (answer.Err? ==> s' == s)
            && (answer.Err? ==> answer.error == if s.status == Active && !HasVersion(s, op.version) then NotFound else State)
  {
    hide Inv, Current, Install, DeploymentRecorded, ExistingDeployment, OperationKey, Supersede, FindVersion;
    InvParts(s, hash, workflow);
    VersionIsAtItsNumber(s, hash, workflow, op.version);
    UnrecordedIsNotFound(s, OperationKey(SANDBOX_DEPLOY, op.key));
    var answer := SandboxAnswer(s, op);
    if answer.Ok? {
      VersionHasItsNumber(s, hash, workflow, op.version);
      SandboxKeeps(s, hash, workflow, op.id, op.version, op.actor, op.key, op.sandboxBinding, op.now);
      InstalledIsServed(s, Step(s, hash, workflow, op), hash, workflow, answer.value, SandboxActive(op.id));
    }
  }

  // ----- tests -----

  function TestAnswer(s: Shelf, op: Op): Result<TestRun, WorkflowError>
    requires op.Test?
  {
    RunTests(s, op.id, op.version, op.deployment, op.actor, op.key, op.sandboxBinding, op.passed).1
  }

  /** The sandbox serves exactly what is to be tested, on the binding that is configured. */
  ghost predicate InSandbox(s: Shelf, op: Op)
    requires op.Test? && HasVersion(s, op.version)
  {
    var current := Current(s, Sandbox);
    && current.Some? && current.value.id == op.deployment && current.value.hash == s.versions[op.version - 1].hash
    && current.value.fingerprint == op.sandboxBinding.fingerprint
  }

  /** A test with a new key is recorded exactly for what the sandbox serves, with the verdict of its suites. */
  lemma TestAnswersExactly(s: Shelf, hash: Hasher, workflow: nat, op: Op)
    requires Inv(s, hash, workflow) && op.Test? && !Recorded(s, op) && op.id !in s.ids
    ensures var s', answer := Step(s, hash, workflow, op), TestAnswer(s, op);
            && (answer.Ok? <==> HasVersion(s, op.version) && InSandbox(s, op))
            && (answer.Ok? ==>
                && answer.value == TestRun(op.version, s.versions[op.version - 1].hash, op.deployment,
                                           op.sandboxBinding.fingerprint, op.passed, op.actor, CleanKey(op.key))
                && s'.tests == s.tests[op.id := answer.value]
                && Logged(s, s', op.version, Tested(op.id, op.passed), op.actor))
            && (answer.Err? ==> s' == s)
            && (answer.Err? ==> answer.error == if !HasVersion(s, op.version) || (forall d :: !IsRow(s, op.deployment, d)) then NotFound
                                   else State)
  {
    hide VersionsSealed, KeysUnique, AllBacked, IdsDistinct, Current, CleanKey, FindVersion, FindDeployment, LiveIsLast;
    VersionIsAtItsNumber(s, hash, workflow, op.version);
    RowIsFound(s, hash, workflow, op.deployment);
    var found := FindDeployment(s.deployments, op.deployment);
    LiveRowIsCurrent(s, hash, workflow, Sandbox, op.deployment);
    assert found.Some? ==> IsRow(s, op.deployment, found.value);
  }

  /** A row is live in an environment exactly if the environment serves it. */
  lemma LiveRowIsCurrent(s: Shelf, hash: Hasher, workflow: nat, environment: Environment, id: RowId)
    requires Inv(s, hash, workflow)
    ensures forall d :: IsRow(s, id, d) && IsLive(d, environment) <==> Current(s, environment) == Some(d) && d.id == id
  {
    hide VersionsSealed, KeysUnique, AllBacked, IdsDistinct, Current;
    if Current(s, environment).Some? {
      LiveHasStatus(s, environment);
    }
    forall d | IsRow(s, id, d) && IsLive(d, environment)
      ensures Current(s, environment) == Some(d)
    {
      var i :| 0 <= i < |s.deployments| && s.deployments[i] == d;
      CurrentIsTheLiveOne(s, i);
    }
  }

  /** A repeated test is told the first one's result, whatever is tested by then. */
  lemma RetriedTest(s: Shelf, hash: Hasher, workflow: nat, op: Op, ops: seq<Op>, retry: Op)
    requires Inv(s, hash, workflow) && op.Test? && Step(s, hash, workflow, op) != s && Retries(op, retry) && retry.Test?
    ensures TestAnswer(s, op).Ok?
    ensures TestAnswer(Run(Step(s, hash, workflow, op), hash, workflow, ops), retry) == TestAnswer(s, op)
  {
    hide VersionsSealed, IdsDistinct, KeysUnique, AllBacked, LiveIsLast, NothingLive, Run, CleanKey, FindVersion, FindDeployment;
    var s0 := Step(s, hash, workflow, op);
    StepKeeps(s, hash, workflow, op);
    RunKeeps(s0, hash, workflow, ops);
  }

  // ----- approvals -----

  function RequestAnswer(s: Shelf, op: Op): Result<Approval, WorkflowError>
    requires op.Request?
  {
    RequestApproval(s, op.id, op.version, op.testRun, op.approver, op.actor, op.key).1
  }

  /** Someone else is asked to approve a version of an active workflow by a test run of that version that passed. */
  ghost predicate MayBeAsked(s: Shelf, op: Op)
    requires op.Request?
  {
    var approver := Strip(op.approver, IsPythonSpace);
    && approver != "" && approver != op.actor && s.status == Active && HasVersion(s, op.version)
    && op.testRun in s.tests && s.tests[op.testRun].passed && s.tests[op.testRun].version == op.version
  }

  /** A request with a new key is recorded as pending exactly if it may be asked. */
  lemma RequestAnswersExactly(s: Shelf, hash: Hasher, workflow: nat, op: Op)
    requires Inv(s, hash, workflow) && op.Request? && !Recorded(s, op) && op.id !in s.ids
    ensures var s', answer := Step(s, hash, workflow, op), RequestAnswer(s, op);
            var approver := Strip(op.approver, IsPythonSpace);
            && (answer.Ok? <==> MayBeAsked(s, op))
            && (answer.Ok? ==>
                && answer.value == Approval(op.version, s.versions[op.version - 1].hash, op.testRun, Pending, op.actor,
                                            approver, None, CleanKey(op.key))
                && s'.approvals == s.approvals[op.id := answer.value]
                && Logged(s, s', op.version, ApprovalRequested(op.id), op.actor))
            && (answer.Err? ==> s' == s)
            && (answer.Err? ==> answer.error == if approver != "" && approver != op.actor && s.status == Active
                                      && (!HasVersion(s, op.version) || op.testRun !in s.tests) then NotFound
                                   else State)
  {
    hide VersionsSealed, KeysUnique, IdsDistinct, LiveIsLast, ApprovalBacked, DeploymentBacked, Strip, CleanKey, FindVersion;
    VersionIsAtItsNumber(s, hash, workflow, op.version);
    if op.testRun in s.tests {
      assert TestBacked(s, s.tests[op.testRun]);
    }
  }

  /** A repeated request is told the first one's approval, as it has been decided by then, if it names an approver at all. */
  lemma RetriedRequest(s: Shelf, hash: Hasher, workflow: nat, op: Op, ops: seq<Op>, retry: Op)
    requires Inv(s, hash, workflow) && op.Request? && Step(s, hash, workflow, op) != s && Retries(op, retry) && retry.Request?
    ensures var first := RequestAnswer(s, op);
            var again := RequestAnswer(Run(Step(s, hash, workflow, op), hash, workflow, ops), retry);
            var approver := Strip(retry.approver, IsPythonSpace);
            && first.Ok?
            && (if approver == "" || approver == retry.actor then again == Err(State)
                else again.Ok? && Decided(first.value, again.value))
  {
    hide VersionsSealed, IdsDistinct, KeysUnique, AllBacked, LiveIsLast, NothingLive, Run, CleanKey, Strip, FindVersion, Decided;
    var s0 := Step(s, hash, workflow, op);
    StepKeeps(s, hash, workflow, op);
    RunKeeps(s0, hash, workflow, ops);
  }

  function DecideAnswer(s: Shelf, op: Op): Result<Approval, WorkflowError>
    requires op.Decide?
  {
    DecideApproval(s, op.approval, op.actor, op.approve).1
  }

  /**
   A decision succeeds exactly for a pending approval of an active workflow by its
   approver: the test run it names is always there and passed, so looking at it
   again never refuses anyone.
   */
  lemma DecideAnswersExactly(s: Shelf, hash: Hasher, workflow: nat, op: Op)
    requires Inv(s, hash, workflow) && op.Decide?
    ensures var s', answer := Step(s, hash, workflow, op), DecideAnswer(s, op);
            && (answer.Ok? <==> op.approval in s.approvals && s.approvals[op.approval].approver == op.actor
                                && s.status == Active && s.approvals[op.approval].decision == Pending)
            && (answer.Ok? ==>
                && answer.value.decision == (if op.approve then Approved else Rejected)
                && answer.value.decidedBy == Some(op.actor) && Decided(s.approvals[op.approval], answer.value)
                && s'.approvals == s.approvals[op.approval := answer.value]
                && Logged(s, s', answer.value.version, ApprovalDecided(op.approval, answer.value.decision), op.actor))
            && (answer.Err? ==> s' == s)
            && (answer.Err? ==> answer.error == if op.approval !in s.approvals then NotFound
                                   else if s.approvals[op.approval].approver != op.actor then Permission
                                   else State)
  {
    hide VersionsSealed, KeysUnique, IdsDistinct, LiveIsLast, TestBacked, DeploymentBacked;
    if op.approval in s.approvals {
      assert ApprovalBacked(s, s.approvals[op.approval]);
    }
  }

  // ----- versions, draft and status -----

  function PublishAnswer(s: Shelf, hash: Hasher, workflow: nat, op: Op): Result<Version, WorkflowError>
    requires op.PublishVersion?
  {
    Publish(s, hash, workflow, op.template, op.actor, op.key).1
  }

  /** A stored version whose artifact was changed under its hash is refused, unless the two artifacts collide. */
  lemma TamperingIsDetected(hash: Hasher, v: Version, a: Artifact)
    requires LoadVersion(hash, v).Ok? && a.contentHash == v.artifact.contentHash && a != v.artifact
    requires ContentHash(hash, a) == ContentHash(hash, v.artifact) ==> a.(contentHash := None) == v.artifact.(contentHash := None)
    ensures LoadVersion(hash, v.(artifact := a)) == Err(State)
  {
    assert a.(contentHash := None) != v.artifact.(contentHash := None);
  }

  /** A publication with a new key succeeds exactly if the catalogue has the draft's template. */
  lemma PublishAnswersExactly(s: Shelf, hash: Hasher, workflow: nat, op: Op)
    requires Inv(s, hash, workflow) && op.PublishVersion? && !Recorded(s, op)
    ensures var s', answer := Step(s, hash, workflow, op), PublishAnswer(s, hash, workflow, op);
            if op.template.Some? then answer.Ok? && s'.versions == s.versions + [answer.value] && s'.deployments == s.deployments
            else answer == Err(NotFound) && s' == s
  {
    hide BuildArtifact, LatestVersion, LoadVersion, CleanKey;
  }

  /** A repeated publication is told the first one's version, whatever the draft has become. */
  lemma RetriedPublication(s: Shelf, hash: Hasher, workflow: nat, op: Op, ops: seq<Op>, retry: Op)
    requires Inv(s, hash, workflow) && op.PublishVersion? && Step(s, hash, workflow, op) != s && Retries(op, retry)
    requires retry.PublishVersion? && forall a: Artifact :: hash(a) != ""
    ensures PublishAnswer(s, hash, workflow, op).Ok?
    ensures PublishAnswer(Run(Step(s, hash, workflow, op), hash, workflow, ops), hash, workflow, retry)
         == PublishAnswer(s, hash, workflow, op)
  {
    hide Inv, Run, CleanKey, Extends, LoadVersion, LatestVersion, BuildArtifact, Find;
    var s0 := Step(s, hash, workflow, op);
    var s1 := Run(s0, hash, workflow, ops);
    StepKeeps(s, hash, workflow, op);
    RunKeeps(s0, hash, workflow, ops);
    InvParts(s1, hash, workflow);
    VersionsGrow(s0, s1);
    var n := |s.versions|;
    assert s0.versions[n] == s1.versions[n] == PublishAnswer(s, hash, workflow, op).value;
    assert forall i :: 0 <= i < n ==> s1.versions[i] == s.versions[i] && s.versions[i] in s.versions;
    FirstIsFound(s1.versions, (v: Version) => v.key == CleanKey(op.key), n);
    SealedLoads(hash, workflow, s1.versions[n]);
  }

  lemma {:induction false} FirstIsFound<T>(rows: seq<T>, p: T -> bool, i: nat)
    requires i < |rows| && p(rows[i]) && forall j :: 0 <= j < i ==> !p(rows[j])
    ensures Find(rows, p) == Some(rows[i])
  {
    if i > 0 {
      FirstIsFound(rows[1..], p, i - 1);
    }
  }

  lemma SealedLoads(hash: Hasher, workflow: nat, v: Version)
    requires Sealed(v, hash, workflow) && hash(v.artifact.(contentHash := None)) != ""
    ensures LoadVersion(hash, v) == Ok(v)
  {
  }

  lemma VersionsGrow(s: Shelf, s': Shelf)
    requires Extends(s, s')
    ensures s.versions <= s'.versions
  {
  }

  /** A new workflow is active, has its draft and serves nothing. */
  lemma NewWorkflowIsOpen(hash: Hasher, workflow: nat, owner: string, draft: Draft, actor: string, op: Op, template: Snapshot)
    requires op == PublishVersion(Some(template), actor, None)
    ensures var s := NewShelf(owner, draft, actor);
            && s.status == Active && s.owner == owner && Current(s, Sandbox) == None && Current(s, Production) == None
            && s.audit == [AuditRow(None, Created, actor)]
            && var answer := PublishAnswer(s, hash, workflow, op);
               answer.Ok? && answer.value.version == 1 && answer.value.artifact.name == draft.name
  {
  }

  /** A new draft replaces the old one, and nothing else changes but the audit. */
  lemma DraftIsReplaced(s: Shelf, hash: Hasher, workflow: nat, op: Op)
    requires op.EditDraft?
    ensures Step(s, hash, workflow, op)
         == s.(draft := op.draft, audit := s.audit + [AuditRow(None, DraftUpdated, op.actor)])
  {
  }

  /** Each live deployment is logged as ended, with its version and the one who disabled it, and no other is. */
  lemma {:induction false} DisableRowsName(deployments: seq<Deployment>, actor: string, row: AuditRow)
    ensures row in DisableRows(deployments, actor)
       <==> exists d :: d in deployments && d.status == Live && row == AuditRow(Some(d.version), DeploymentDisabled(d.id), actor)
    decreases |deployments|
  {
    if deployments != [] {
      var front, last := deployments[..|deployments| - 1], deployments[|deployments| - 1];
      DisableRowsName(front, actor, row);
      assert deployments == front + [last];
    }
  }

  /** Enabling enables, and disabling disables and ends what is live; nothing else changes but the audit. */
  lemma StatusIsSet(s: Shelf, hash: Hasher, workflow: nat, op: Op)
    requires op.ChangeStatus?
    ensures var s' := Step(s, hash, workflow, op);
            && s' == s.(status := op.newStatus, deployments := s'.deployments, audit := s'.audit)
            && (op.newStatus == Active ==> s'.deployments == s.deployments)
            && s'.audit == s.audit + (if op.newStatus == Disabled then DisableRows(s.deployments, op.actor) else [])
                           + [AuditRow(None, StatusSet(op.newStatus), op.actor)]
            && |s'.deployments| == |s.deployments|
            && (forall i :: 0 <= i < |s.deployments| ==>
                 s'.deployments[i] == if op.newStatus == Disabled && s.deployments[i].status == Live
                                      then s.deployments[i].(status := Retired) else s.deployments[i])
  {
  }
}
