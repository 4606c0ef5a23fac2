/**
 Idempotency keys: a request whose key is on record changes nothing, for ever after.
 */
module WorkflowReplay {
  import opened Prelude
  import opened Text
  import opened WorkflowShelf
  import opened WorkflowSafety
  import opened WorkflowRuns

  // ----- keys of different operations -----

  predicate IsOperation(operation: string) {
    operation in {SANDBOX_DEPLOY, PRODUCTION_DEPLOY, PRODUCTION_ROLLBACK}
  }

  /** The three deployment operations share one index, but their keys never meet. */
  lemma OperationKeysNeverCollide(o1: string, k1: Option<string>, o2: string, k2: Option<string>)
    requires IsOperation(o1) && IsOperation(o2) && OperationKey(o1, k1).Some?
    ensures OperationKey(o1, k1) == OperationKey(o2, k2) <==> o1 == o2 && CleanKey(k1) == CleanKey(k2)
  {
    hide CleanKey;
    if OperationKey(o1, k1) == OperationKey(o2, k2) {
      var key := OperationKey(o1, k1).value;
      assert key[0] == o1[0] == o2[0] && key[11] == o1[11] == o2[11];
      assert o1 == o2;
      assert CleanKey(k1).value == key[|o1| + 1..] == CleanKey(k2).value;
    }
  }

  // ----- when a request is on record -----

  ghost predicate DeploymentRecorded(deployments: seq<Deployment>, key: Option<string>) {
    key.Some? && exists i :: 0 <= i < |deployments| && deployments[i].key == key
  }

  ghost predicate VersionRecorded(versions: seq<Version>, key: Option<string>) {
    key.Some? && exists i :: 0 <= i < |versions| && versions[i].key == key
  }

  predicate InIndex(index: map<string, RowId>, key: Option<string>) {
    key.Some? && key.value in index
  }

  ghost predicate Recorded(s: Shelf, op: Op) {
    match op
    case PublishVersion(_, _, key) => VersionRecorded(s.versions, CleanKey(key))
    case ToSandbox(_, _, _, key, _, _) => DeploymentRecorded(s.deployments, OperationKey(SANDBOX_DEPLOY, key))
    case Test(_, _, _, _, key, _, _) => InIndex(s.testKeys, CleanKey(key))
    case Request(_, _, _, _, _, key) => InIndex(s.approvalKeys, CleanKey(key))
    case ToProduction(_, _, _, _, _, key, _, _) => DeploymentRecorded(s.deployments, OperationKey(PRODUCTION_DEPLOY, key))
    case Rollback(_, _, _, key, _, _) => DeploymentRecorded(s.deployments, OperationKey(PRODUCTION_ROLLBACK, key))
    case _ => false
  }

  predicate HasKey(op: Op) {
    (op.PublishVersion? || op.ToSandbox? || op.Test? || op.Request? || op.ToProduction? || op.Rollback?)
    && CleanKey(op.key).Some?
  }

  /** A retry: the same operation with the same key, whatever its other arguments. */
  predicate Retries(op: Op, op': Op) {
    && HasKey(op) && HasKey(op') && CleanKey(op.key) == CleanKey(op'.key)
    && (op.PublishVersion? <==> op'.PublishVersion?)
    && (op.ToSandbox? <==> op'.ToSandbox?)
    && (op.Test? <==> op'.Test?)
    && (op.Request? <==> op'.Request?)
    && (op.ToProduction? <==> op'.ToProduction?)
  }

  lemma DeploymentRecordStays(ds: seq<Deployment>, ds': seq<Deployment>, key: Option<string>)
    requires DeploymentsAge(ds, ds') && DeploymentRecorded(ds, key)
    ensures DeploymentRecorded(ds', key)
  {
    var i :| 0 <= i < |ds| && ds[i].key == key;
    assert Aged(ds[i], ds'[i]);
    assert ds'[i].key == key;
  }

  lemma RecordStays(s: Shelf, s': Shelf, op: Op)
    requires Extends(s, s') && Recorded(s, op)
    ensures Recorded(s', op)
  {
    hide OperationKey, CleanKey, DeploymentRecorded;
    match op
    case PublishVersion(_, _, key) =>
      var i :| 0 <= i < |s.versions| && s.versions[i].key == CleanKey(key);
      assert s'.versions[i] == s.versions[i];
    case ToSandbox(_, _, _, key, _, _) => DeploymentRecordStays(s.deployments, s'.deployments, OperationKey(SANDBOX_DEPLOY, key));
    case ToProduction(_, _, _, _, _, key, _, _) =>
      DeploymentRecordStays(s.deployments, s'.deployments, OperationKey(PRODUCTION_DEPLOY, key));
    case Rollback(_, _, _, key, _, _) =>
      DeploymentRecordStays(s.deployments, s'.deployments, OperationKey(PRODUCTION_ROLLBACK, key));
    case _ =>
  }

  lemma RecordIsFound(s: Shelf, key: Option<string>)
    requires DeploymentRecorded(s.deployments, key)
    ensures ExistingDeployment(s, key).Some?
  {
    var i :| 0 <= i < |s.deployments| && s.deployments[i].key == key;
    assert s.deployments[i] in s.deployments;
  }

  /** A recorded request changes nothing. */
  lemma RecordedChangesNothing(s: Shelf, hash: Hasher, workflow: nat, op: Op)
    requires Inv(s, hash, workflow) && Recorded(s, op)
    ensures Step(s, hash, workflow, op) == s
  {
    hide OperationKey, CleanKey, Strip, DeploymentRecorded, VersionsSealed, IdsDistinct, KeysUnique, AllBacked, LiveIsLast,
         ProductionChecks, Current, Install, LoadVersion, BuildArtifact, LatestVersion;
    IndexIsTotal(s.testKeys, s.tests.Keys);
    IndexIsTotal(s.approvalKeys, s.approvals.Keys);
    match op
    case PublishVersion(_, _, key) =>
      var i :| 0 <= i < |s.versions| && s.versions[i].key == CleanKey(key);
      assert s.versions[i] in s.versions;
    case ToSandbox(_, _, _, key, _, _) => RecordIsFound(s, OperationKey(SANDBOX_DEPLOY, key));
    case ToProduction(_, _, _, _, _, key, _, _) => RecordIsFound(s, OperationKey(PRODUCTION_DEPLOY, key));
    case Rollback(_, _, _, key, _, _) => RecordIsFound(s, OperationKey(PRODUCTION_ROLLBACK, key));
    case _ =>
  }

  lemma InstalledIsRecorded(s: Shelf, d: Deployment, action: Action)
    requires d.key.Some?
    ensures DeploymentRecorded(Install(s, d, action).deployments, d.key)
  {
    assert Install(s, d, action).deployments[|s.deployments|] == d;
  }

  /** A request that changes anything leaves its key on record. */
  lemma ChangeIsRecorded(s: Shelf, hash: Hasher, workflow: nat, op: Op)
    requires HasKey(op) && Step(s, hash, workflow, op) != s
    ensures Recorded(Step(s, hash, workflow, op), op)
  {
    hide CleanKey, Strip, DeploymentRecorded, ProductionChecks, Current, Install, LoadVersion, LatestVersion, ExistingDeployment;
    match op
    case PublishVersion(template, actor, key) =>
      var s' := Publish(s, hash, workflow, template, actor, key).0;
      assert s'.versions[|s.versions|].key == CleanKey(key);
    case ToSandbox(id, version, actor, key, binding, now) =>
      var d := DeploySandbox(s, id, version, actor, key, binding, now).1.value;
      InstalledIsRecorded(s, d, SandboxActive(id));
    case ToProduction(id, version, testRun, approval, actor, key, binding, now) =>
      ProductionIsRecorded(s, hash, workflow, op);
    case Rollback(id, deployment, actor, key, binding, now) =>
      var d := RollbackProduction(s, id, deployment, actor, key, binding, now).1.value;
      InstalledIsRecorded(s, d, ProductionRollback(id, IdOf(Current(s, Production)), deployment));
    case _ =>
  }

  lemma ProductionIsRecorded(s: Shelf, hash: Hasher, workflow: nat, op: Op)
    requires op.ToProduction? && HasKey(op) && Step(s, hash, workflow, op) != s
    ensures Recorded(Step(s, hash, workflow, op), op)
  {
    hide CleanKey, Strip, ProductionChecks, Current, Install, ExistingDeployment;
    var r := DeployProduction(s, hash, op.id, op.version, op.testRun, op.approval, op.actor, op.key, op.binding, op.now);
    if r.1.Ok? {
      InstalledIsRecorded(s, r.1.value, ProductionActive(op.id));
    } else {
      assert r.0.deployments[|s.deployments|].key == OperationKey(PRODUCTION_DEPLOY, op.key);
    }
  }

  /** Once a keyed request has had its effect, no retry has another one, however much happens in between. */
  lemma RetriesChangeNothing(s: Shelf, hash: Hasher, workflow: nat, op: Op, ops: seq<Op>, retry: Op)
    requires Inv(s, hash, workflow) && Step(s, hash, workflow, op) != s && Retries(op, retry)
    ensures var s1 := Run(Step(s, hash, workflow, op), hash, workflow, ops);
            Step(s1, hash, workflow, retry) == s1
  {
    hide Inv, Run, Step, CleanKey, Extends;
    var s0 := Step(s, hash, workflow, op);
    StepKeeps(s, hash, workflow, op);
    RunKeeps(s0, hash, workflow, ops);
    ChangeIsRecorded(s, hash, workflow, op);
    RecordStays(s0, Run(s0, hash, workflow, ops), op);
    assert Recorded(Run(s0, hash, workflow, ops), retry);
    RecordedChangesNothing(Run(s0, hash, workflow, ops), hash, workflow, retry);
  }

  // ----- what a retry answers -----

  lemma KeyFindsItsRow(s: Shelf, i: nat)
    requires KeysUnique(s.deployments) && i < |s.deployments| && s.deployments[i].key.Some?
    ensures ExistingDeployment(s, s.deployments[i].key) == Some(s.deployments[i])
  {
    assert s.deployments[i] in s.deployments;
    var d := ExistingDeployment(s, s.deployments[i].key).value;
    var j :| 0 <= j < |s.deployments| && s.deployments[j] == d;
    assert j == i;
  }

  /** A retried deployment answers with the row the first request made, as it stands by then. */
  lemma KeyKeepsItsRow(s: Shelf, hash: Hasher, workflow: nat, i: nat, ops: seq<Op>)
    requires Inv(s, hash, workflow) && i < |s.deployments| && s.deployments[i].key.Some?
    ensures var found := ExistingDeployment(Run(s, hash, workflow, ops), s.deployments[i].key);
            found.Some? && Aged(s.deployments[i], found.value)
  {
    hide VersionsSealed, IdsDistinct, AllBacked, LiveIsLast, NothingLive, ExistingDeployment, Run, KeysUnique;
    var s' := Run(s, hash, workflow, ops);
    RunKeeps(s, hash, workflow, ops);
    assert Aged(s.deployments[i], s'.deployments[i]);
    KeyFindsItsRow(s', i);
  }

  lemma RetriedSandboxDeployment(s: Shelf, hash: Hasher, workflow: nat, op: Op, ops: seq<Op>, retry: Op)
    requires Inv(s, hash, workflow) && op.ToSandbox? && Step(s, hash, workflow, op) != s && Retries(op, retry)
    ensures var first := DeploySandbox(s, op.id, op.version, op.actor, op.key, op.sandboxBinding, op.now).1;
            var s1 := Run(Step(s, hash, workflow, op), hash, workflow, ops);
            var again := DeploySandbox(s1, retry.id, retry.version, retry.actor, retry.key, retry.sandboxBinding, retry.now).1;
            && first.Ok?
            && (if retry.version == op.version then again.Ok? && Aged(first.value, again.value) else again == Err(Conflict))
  {
    hide Inv, Run, CleanKey, Current, FindVersion, Aged;
    var s0 := Step(s, hash, workflow, op);
    var first := DeploySandbox(s, op.id, op.version, op.actor, op.key, op.sandboxBinding, op.now).1.value;
    StepKeeps(s, hash, workflow, op);
    assert s0.deployments[|s.deployments|] == first;
    KeyKeepsItsRow(s0, hash, workflow, |s.deployments|, ops);
    AgedKeepsPlace(first, ExistingDeployment(Run(s0, hash, workflow, ops), first.key).value);
  }

  lemma AgedKeepsPlace(d: Deployment, d': Deployment)
    requires Aged(d, d')
    ensures d'.environment == d.environment && d'.version == d.version
  {
  }

  // ----- the requests that leave no record -----

  /** Production already serves exactly this. */
  predicate AlreadyServed(s: Shelf, version: nat, h: string, binding: Option<Binding>) {
    var current := Current(s, Production);
    current.Some? && binding.Some? && current.value.version == version && current.value.hash == h
    && current.value.fingerprint == binding.value.fingerprint
  }

  /**
   A production deployment with a new key leaves its key on record, except when it
   succeeds because production already serves the version (or never gets to the
   tables at all).
   */
  lemma ProductionRecordsExactly(s: Shelf, hash: Hasher, workflow: nat, op: Op)
    requires op.ToProduction? && HasKey(op) && !Recorded(s, op)
    requires op.id !in s.ids && FindVersion(s.versions, op.version).Some?
    ensures var v := FindVersion(s.versions, op.version).value;
            Recorded(Step(s, hash, workflow, op), op)
            <==> !(ProductionChecks(s, hash, v, op.testRun, op.approval, op.binding) == []
                   && AlreadyServed(s, op.version, v.hash, op.binding))
  {
    hide CleanKey, Current, ProductionChecks, Install, DeploymentRecorded, ExistingDeployment;
    assert ExistingDeployment(s, OperationKey(PRODUCTION_DEPLOY, op.key)).None? by { UnrecordedIsNotFound(s, OperationKey(PRODUCTION_DEPLOY, op.key)); }
    var v := FindVersion(s.versions, op.version).value;
    if ProductionChecks(s, hash, v, op.testRun, op.approval, op.binding) == [] {
      NeedsBinding(s, hash, v, op.testRun, op.approval, op.binding);
      if !AlreadyServed(s, op.version, v.hash, op.binding) {
        InstallChanges(s, DeployProduction(s, hash, op.id, op.version, op.testRun, op.approval, op.actor, op.key, op.binding, op.now).1.value,
                       ProductionActive(op.id));
        ProductionIsRecorded(s, hash, workflow, op);
      }
    } else {
      ProductionIsRecorded(s, hash, workflow, op);
    }
  }

  /**
   A rollback with a new key that succeeds leaves its key on record exactly if its
   target is not the deployment that is live already; otherwise nothing happens,
   and the same request can still roll back later.
   */
  lemma RollbackRecordsExactly(s: Shelf, hash: Hasher, workflow: nat, op: Op)
    requires op.Rollback? && HasKey(op) && !Recorded(s, op)
    requires RollbackProduction(s, op.id, op.deployment, op.actor, op.key, op.binding, op.now).1.Ok?
    ensures Recorded(Step(s, hash, workflow, op), op) <==> IdOf(Current(s, Production)) != Some(op.deployment)
    ensures IdOf(Current(s, Production)) == Some(op.deployment) ==> Step(s, hash, workflow, op) == s
  {
    hide CleanKey, Current, Install, DeploymentRecorded, ExistingDeployment, FindDeployment;
    UnrecordedIsNotFound(s, OperationKey(PRODUCTION_ROLLBACK, op.key));
    if IdOf(Current(s, Production)) != Some(op.deployment) {
      var d := RollbackProduction(s, op.id, op.deployment, op.actor, op.key, op.binding, op.now).1.value;
      InstalledIsRecorded(s, d, ProductionRollback(op.id, IdOf(Current(s, Production)), op.deployment));
    }
  }

  lemma InstallChanges(s: Shelf, d: Deployment, action: Action)
    requires d.id !in s.ids
    ensures Install(s, d, action) != s
  {
    assert d.id in Install(s, d, action).ids;
  }

  lemma UnrecordedIsNotFound(s: Shelf, key: Option<string>)
    ensures DeploymentRecorded(s.deployments, key) <==> ExistingDeployment(s, key).Some?
  {
    var found := ExistingDeployment(s, key);
    if found.Some? {
      var i :| 0 <= i < |s.deployments| && s.deployments[i] == found.value;
      assert s.deployments[i].key == key;
    } else if DeploymentRecorded(s.deployments, key) {
      RecordIsFound(s, key);
    }
  }

  lemma NeedsBinding(s: Shelf, hash: Hasher, v: Version, testRun: RowId, approval: RowId, binding: Option<Binding>)
    requires ProductionChecks(s, hash, v, testRun, approval, binding) == []
    ensures binding.Some?
  {
    hide LatestSandbox, TestChecks, ApprovalChecks, SandboxChecks;
  }
}
