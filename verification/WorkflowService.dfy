/**
 The workflow store and lifecycle as they run: one workflow's tables, rewritten
 in place by each transaction. Every method is tied to the transaction function
 that the safety proofs are about.
 */
module WorkflowService {
  import opened Prelude
  import opened Text
  import opened WorkflowShelf

  class WorkflowTables {
    const owner: string
    var draft: Draft
    var status: Status
    var versions: seq<Version>
    var deployments: seq<Deployment>
    var tests: map<RowId, TestRun>
    var testKeys: map<string, RowId>
    var approvals: map<RowId, Approval>
    var approvalKeys: map<string, RowId>
    var audit: seq<AuditRow>
    var ids: set<RowId>

    /** `create_workflow` */
    constructor (owner: string, draft: Draft, actor: string)
      ensures Contents() == NewShelf(owner, draft, actor)
    {
      this.owner, this.draft, status := owner, draft, Active;
      versions, deployments, tests, testKeys, approvals, approvalKeys := [], [], map[], map[], map[], map[];
      audit, ids := [AuditRow(None, Created, actor)], {};
    }

    function Contents(): Shelf
      reads this
    {
      Shelf(owner, draft, status, versions, deployments, tests, testKeys, approvals, approvalKeys, audit, ids)
    }

    method Audit(version: Option<nat>, action: Action, actor: string)
      modifies this`audit
      ensures audit == old(audit) + [AuditRow(version, action, actor)]
    {
      audit := audit + [AuditRow(version, action, actor)];
    }

    // ----- workflow_store -----

    method EditDraft(newDraft: Draft, actor: string)
      modifies this
      ensures Contents() == UpdateDraft(old(Contents()), newDraft, actor)
    {
      draft := newDraft;
      Audit(None, DraftUpdated, actor);
    }

    /** Retires the live deployments and logs them one by one. */
    method RetireDeployments(actor: string)
      modifies this`deployments, this`audit
      ensures deployments == RetireLive(old(deployments))
      ensures audit == old(audit) + DisableRows(old(deployments), actor)
    {
      var rows := deployments;
      deployments := RetireLive(rows);
      for i := 0 to |rows|
        invariant audit == old(audit) + DisableRows(rows[..i], actor)
        invariant deployments == RetireLive(rows)
      {
        assert rows[..i + 1][..i] == rows[..i];
        if rows[i].status == Live {
          Audit(Some(rows[i].version), DeploymentDisabled(rows[i].id), actor);
        }
      }
      assert rows[..|rows|] == rows;
    }

    method ChangeStatus(newStatus: Status, actor: string)
      modifies this
      ensures Contents() == SetStatus(old(Contents()), newStatus, actor)
    {
      status := newStatus;
      if newStatus == Disabled {
        RetireDeployments(actor);
      }
      Audit(None, StatusSet(newStatus), actor);
    }

    method PublishVersion(hash: Hasher, workflow: nat, template: Option<Snapshot>, actor: string, idempotencyKey: Option<string>)
      returns (r: Result<Version, WorkflowError>)
      modifies this
      ensures (Contents(), r) == Publish(old(Contents()), hash, workflow, template, actor, idempotencyKey)
    {
      var key := CleanKey(idempotencyKey);
      if key.Some? {
        var existing := Find(versions, (v: Version) => v.key == key);
        if existing.Some? {
          return LoadVersion(hash, existing.value);
        }
      }
      if template.None? {
        return Err(NotFound);
      }
      var next := LatestVersion(versions) + 1;
      var artifact := BuildArtifact(hash, workflow, next, owner, draft, template.value);
      var v := Version(next, artifact.contentHash.value, artifact, actor, key);
      versions := versions + [v];
      Audit(Some(next), Published(v.hash), actor);
      r := Ok(v);
    }

    // ----- workflow_lifecycle -----

    /** The rows every activation writes: the one it supersedes, the new one, and its audit row. */
    method Activate(d: Deployment, action: Action)
      modifies this
      ensures Contents() == Install(old(Contents()), d, action)
    {
      if d.previous.Some? {
        var i := 0;
        ghost var rows := deployments;
        while i < |deployments|
          invariant 0 <= i <= |deployments| == |rows|
          invariant deployments[..i] == Supersede(rows, d.previous)[..i] && deployments[i..] == rows[i..]
          invariant unchanged(`draft, `status, `versions, `tests, `testKeys, `approvals, `approvalKeys, `audit, `ids)
        {
          assert deployments[i] == deployments[i..][0] == rows[i..][0];
          if deployments[i].id == d.previous.value {
            deployments := deployments[i := deployments[i].(status := Superseded)];
          }
          i := i + 1;
        }
        assert deployments == Supersede(rows, d.previous);
      } else {
        assert Supersede(deployments, d.previous) == deployments;
      }
      deployments := deployments + [d];
      ids := ids + {d.id};
      Audit(Some(d.version), action, d.actor);
    }

    method DeployToSandbox(id: RowId, version: nat, actor: string, idempotencyKey: Option<string>, binding: Binding, now: nat)
      returns (r: Result<Deployment, WorkflowError>)
      modifies this
      ensures (Contents(), r) == DeploySandbox(old(Contents()), id, version, actor, idempotencyKey, binding, now)
    {
      hide Newest, Find, Install, Supersede, CleanKey;
      var key := OperationKey(SANDBOX_DEPLOY, idempotencyKey);
      var existing := ExistingDeployment(Contents(), key);
      if existing.Some? {
        if existing.value.environment != Sandbox {
          return Err(Conflict);
        }
        if existing.value.version != version {
          return Err(Conflict);
        }
        return Ok(existing.value);
      }
      if status != Active {
        return Err(State);
      }
      var found := FindVersion(versions, version);
      if found.None? {
        return Err(NotFound);
      }
      if !binding.Supports(found.value.artifact.runtime) {
        return Err(State);
      }
      var current := Current(Contents(), Sandbox);
      if id in ids {
        return Err(Integrity);
      }
      var d := Deployment(id, version, Sandbox, found.value.hash, binding.fingerprint, Live, IdOf(current), actor,
                          None, None, key, now);
      Activate(d, SandboxActive(id));
      r := Ok(d);
    }

    method Test(id: RowId, version: nat, deployment: RowId, actor: string, idempotencyKey: Option<string>,
                binding: Binding, evidence: seq<bool>)
      returns (r: Result<TestRun, WorkflowError>)
      modifies this
      ensures (Contents(), r) == RunTests(old(Contents()), id, version, deployment, actor, idempotencyKey, binding, false !in evidence)
    {
      hide Find, CleanKey;
      var key := CleanKey(idempotencyKey);
      if key.Some? && key.value in testKeys && testKeys[key.value] in tests {
        return Ok(tests[testKeys[key.value]]);
      }
      var found := FindVersion(versions, version);
      if found.None? {
        return Err(NotFound);
      }
      var row := FindDeployment(deployments, deployment);
      if row.None? {
        return Err(NotFound);
      }
      var d := row.value;
      if d.environment != Sandbox || d.status != Live || d.hash != found.value.hash || d.fingerprint != binding.fingerprint {
        return Err(State);
      }
      var passed := AllPassed(evidence);
      if id in ids {
        return Err(Integrity);
      }
      var t := TestRun(version, found.value.hash, deployment, binding.fingerprint, passed, actor, key);
      tests := tests[id := t];
      if key.Some? {
        testKeys := testKeys[key.value := id];
      }
      ids := ids + {id};
      Audit(Some(version), Tested(id, passed), actor);
      r := Ok(t);
    }

    method RequestPromotion(id: RowId, version: nat, testRun: RowId, approverSubject: string, actor: string,
                            idempotencyKey: Option<string>)
      returns (r: Result<Approval, WorkflowError>)
      modifies this
      ensures (Contents(), r) == RequestApproval(old(Contents()), id, version, testRun, approverSubject, actor, idempotencyKey)
    {
      hide Find, CleanKey, Strip;
      var key := CleanKey(idempotencyKey);
      var approver := Strip(approverSubject, IsPythonSpace);
      if approver == "" {
        return Err(State);
      }
      if approver == actor {
        return Err(State);
      }
      if key.Some? && key.value in approvalKeys && approvalKeys[key.value] in approvals {
        return Ok(approvals[approvalKeys[key.value]]);
      }
      if status != Active {
        return Err(State);
      }
      var found := FindVersion(versions, version);
      if found.None? {
        return Err(NotFound);
      }
      if testRun !in tests {
        return Err(NotFound);
      }
      var t := tests[testRun];
      if !t.passed || t.hash != found.value.hash || t.version != version {
        return Err(State);
      }
      if id in ids {
        return Err(Integrity);
      }
      var a := Approval(version, found.value.hash, testRun, Pending, actor, approver, None, key);
      approvals := approvals[id := a];
      if key.Some? {
        approvalKeys := approvalKeys[key.value := id];
      }
      ids := ids + {id};
      Audit(Some(version), ApprovalRequested(id), actor);
      r := Ok(a);
    }

    method Decide(approval: RowId, actor: string, approve: bool) returns (r: Result<Approval, WorkflowError>)
      modifies this
      ensures (Contents(), r) == DecideApproval(old(Contents()), approval, actor, approve)
    {
      if approval !in approvals {
        return Err(NotFound);
      }
      var a := approvals[approval];
      if a.approver != actor {
        return Err(Permission);
      }
      if status != Active {
        return Err(State);
      }
      if a.decision != Pending {
        return Err(State);
      }
      if approve {
        if a.testRun !in tests || !tests[a.testRun].passed {
          return Err(State);
        }
        if tests[a.testRun].hash != a.hash {
          return Err(State);
        }
      }
      a := a.(decision := if approve then Approved else Rejected, decidedBy := Some(actor));
      approvals := approvals[approval := a];
      Audit(Some(a.version), ApprovalDecided(approval, a.decision), actor);
      r := Ok(a);
    }

    method Deploy(hash: Hasher, id: RowId, version: nat, testRun: RowId, approval: RowId, actor: string,
                  idempotencyKey: Option<string>, binding: Option<Binding>, now: nat)
      returns (r: Result<Deployment, WorkflowError>)
      modifies this
      ensures (Contents(), r)
           == DeployProduction(old(Contents()), hash, id, version, testRun, approval, actor, idempotencyKey, binding, now)
    {
      hide Newest, Find, Install, Supersede, CleanKey, ProductionChecks;
      var key := OperationKey(PRODUCTION_DEPLOY, idempotencyKey);
      var existing := ExistingDeployment(Contents(), key);
      if existing.Some? {
        return ReplayProduction(existing.value, version);
      }
      var found := FindVersion(versions, version);
      if found.None? {
        return Err(NotFound);
      }
      var v := found.value;
      var problems := CollectProblems(Contents(), hash, v, testRun, approval, binding);
      var fingerprint := if binding.Some? then binding.value.fingerprint else "";
      var current := Current(Contents(), Production);
      if problems != [] {
        if id in ids {
          return Err(Integrity);
        }
        deployments := deployments
                       + [Deployment(id, version, Production, v.hash, fingerprint, Failed, IdOf(current), actor,
                                     Some(testRun), Some(approval), key, now)];
        ids := ids + {id};
        Audit(Some(version), ProductionFailed(id), actor);
        return Err(State);
      }
      if current.Some? && current.value.version == version && current.value.hash == v.hash
         && current.value.fingerprint == fingerprint {
        return Ok(current.value);
      }
      if id in ids {
        return Err(Integrity);
      }
      var d := Deployment(id, version, Production, v.hash, fingerprint, Live, IdOf(current), actor,
                          Some(testRun), Some(approval), key, now);
      Activate(d, ProductionActive(id));
      r := Ok(d);
    }

    method Rollback(id: RowId, deployment: RowId, actor: string, idempotencyKey: Option<string>,
                    binding: Option<Binding>, now: nat)
      returns (r: Result<Deployment, WorkflowError>)
      modifies this
      ensures (Contents(), r) == RollbackProduction(old(Contents()), id, deployment, actor, idempotencyKey, binding, now)
    {
      hide Newest, Find, Install, Supersede, CleanKey;
      var key := OperationKey(PRODUCTION_ROLLBACK, idempotencyKey);
      var existing := ExistingDeployment(Contents(), key);
      if existing.Some? {
        return Ok(existing.value);
      }
      if status != Active {
        return Err(State);
      }
      var target := FindDeployment(deployments, deployment);
      if target.None? {
        return Err(NotFound);
      }
      if target.value.environment != Production {
        return Err(State);
      }
      if target.value.status == Failed {
        return Err(State);
      }
      if binding.None? {
        return Err(State);
      }
      if target.value.fingerprint != binding.value.fingerprint {
        return Err(State);
      }
      var current := Current(Contents(), Production);
      if current.Some? && current.value.id == deployment {
        return Ok(current.value);
      }
      if id in ids {
        return Err(Integrity);
      }
      var d := Deployment(id, target.value.version, Production, target.value.hash, target.value.fingerprint, Live,
                          IdOf(current), actor, target.value.testRun, target.value.approval, key, now);
      Activate(d, ProductionRollback(id, IdOf(current), deployment));
      r := Ok(d);
    }
  }

  /** A suite run passes when every item of its evidence did. */
  method AllPassed(evidence: seq<bool>) returns (passed: bool)
    ensures passed <==> false !in evidence
  {
    for i := 0 to |evidence|
      invariant false !in evidence[..i]
    {
      assert evidence[..i + 1] == evidence[..i] + [evidence[i]];
      if !evidence[i] {
        return false;
      }
    }
    assert evidence[..|evidence|] == evidence;
    return true;
  }

  /** The production checks collected one by one, as the refusal's reasons are. */
  method CollectProblems(s: Shelf, hash: Hasher, v: Version, testRun: RowId, approval: RowId, binding: Option<Binding>)
    returns (problems: seq<Problem>)
    ensures problems == ProductionChecks(s, hash, v, testRun, approval, binding)
  {
    hide LatestSandbox, VerifyContentHash, TestChecks, ApprovalChecks, SandboxChecks, BindingChecks;
    problems := [];
    if s.status != Active {
      problems := problems + [WorkflowDisabled];
    }
    if !VerifyContentHash(hash, v.artifact) {
      problems := problems + [HashInvalid];
    }
    var test := Row(s.tests, testRun);
    problems := problems + TestChecks(test, v);
    problems := problems + ApprovalChecks(Row(s.approvals, approval), testRun, test, v);
    problems := problems + SandboxChecks(LatestSandbox(s, v.version), test, v);
    problems := problems + BindingChecks(binding, v);
  }
}
