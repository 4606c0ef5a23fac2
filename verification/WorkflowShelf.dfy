/**
 The workflow tables of one workflow, and what each transaction does to them.
 Every query of the lifecycle is restricted to one workflow, so the database is
 a map from workflow ids to shelves like this one.
 */
module WorkflowShelf {
  import opened Prelude
  import opened Text

  type RowId = nat

  datatype Capability = Llm | Asr | Tts

  datatype Status = Active | Disabled

  datatype Environment = Sandbox | Production

  /** A template as it was when a version was published; `body` stands for all its other fields. */
  datatype Snapshot = Snapshot(id: string, version: nat, body: string)

  datatype Security = Security(externalSideEffects: bool, allowExternalNetwork: bool,
                               redactTranscripts: bool, requireHumanReview: bool)

  datatype Draft = Draft(name: string, description: string, templateId: string,
                         runtime: seq<Capability>, security: Security)

  datatype Artifact = Artifact(
    workflow: nat, version: nat, owner: string, name: string, description: string,
    template: Snapshot, runtime: seq<Capability>, security: Security, contentHash: Option<string>)

  /** The content hash of the canonical form, which blanks the hash field. */
  type Hasher = Artifact -> string

  function ContentHash(hash: Hasher, a: Artifact): string {
    hash(a.(contentHash := None))
  }

  predicate VerifyContentHash(hash: Hasher, a: Artifact) {
    a.contentHash.Some? && a.contentHash.value != "" && a.contentHash.value == ContentHash(hash, a)
  }

  datatype Binding = Binding(fingerprint: string, provided: set<Capability>)
  {
    predicate Supports(runtime: seq<Capability>) {
      forall c :: c in runtime ==> c in provided
    }
  }

  datatype Version = Version(version: nat, hash: string, artifact: Artifact, createdBy: string, key: Option<string>)

  datatype DeploymentStatus = Live | Superseded | Retired | Failed

  datatype Deployment = Deployment(
    id: RowId, version: nat, environment: Environment, hash: string, fingerprint: string,
    status: DeploymentStatus, previous: Option<RowId>, actor: string,
    testRun: Option<RowId>, approval: Option<RowId>, key: Option<string>, createdAt: nat)

  datatype TestRun = TestRun(
    version: nat, hash: string, deployment: RowId, fingerprint: string, passed: bool,
    requestedBy: string, key: Option<string>)

  datatype Decision = Pending | Approved | Rejected

  datatype Approval = Approval(
    version: nat, hash: string, testRun: RowId, decision: Decision,
    requestedBy: string, approver: string, decidedBy: Option<string>, key: Option<string>)

  datatype Action =
    | Created
    | DraftUpdated
    | Published(hash: string)
    | StatusSet(status: Status)
    | SandboxActive(deployment: RowId)
    | Tested(testRun: RowId, passed: bool)
    | ApprovalRequested(approval: RowId)
    | ApprovalDecided(approval: RowId, decision: Decision)
    | ProductionFailed(deployment: RowId)
    | ProductionActive(deployment: RowId)
    | ProductionRollback(deployment: RowId, rolledBackFrom: Option<RowId>, target: RowId)
    | DeploymentDisabled(deployment: RowId)

  datatype AuditRow = AuditRow(version: Option<nat>, action: Action, actor: string)

  /**
   One workflow: its row, and its rows of the other tables. Versions,
   deployments and the audit are in insertion order; the key maps are the
   unique indexes on (workflow, idempotency key); `ids` are the primary keys in use.
   */
  datatype Shelf = Shelf(
    owner: string,
    draft: Draft,
    status: Status,
    versions: seq<Version>,
    deployments: seq<Deployment>,
    tests: map<RowId, TestRun>,
    testKeys: map<string, RowId>,
    approvals: map<RowId, Approval>,
    approvalKeys: map<string, RowId>,
    audit: seq<AuditRow>,
    ids: set<RowId>)

  datatype WorkflowError = NotFound | Conflict | State | Permission | Integrity

  // ----- queries -----

  function Find<T>(rows: seq<T>, p: T -> bool): (r: Option<T>)
    ensures r.Some? ==> r.value in rows && p(r.value)
    ensures r.None? ==> forall x :: x in rows ==> !p(x)
  {
    if rows == [] then None
    else if p(rows[0]) then Some(rows[0])
    else Find(rows[1..], p)
  }

  /** ORDER BY created_at DESC LIMIT 1: the newest matching row, the last inserted of equals. */
  function Newest(rows: seq<Deployment>, p: Deployment -> bool): (r: Option<Deployment>)
    ensures r.Some? ==> r.value in rows && p(r.value)
    ensures r.None? ==> forall d :: d in rows ==> !p(d)
    ensures r.Some? ==> forall d :: d in rows && p(d) ==> d.createdAt <= r.value.createdAt
  {
    if rows == [] then None
    else
      var front, last := rows[..|rows| - 1], rows[|rows| - 1];
      assert rows == front + [last];
      var best := Newest(front, p);
      if p(last) && (best.None? || best.value.createdAt <= last.createdAt) then Some(last) else best
  }

  function FindVersion(versions: seq<Version>, version: nat): (r: Option<Version>)
    ensures r.Some? ==> r.value in versions && r.value.version == version
    ensures r.None? ==> forall v :: v in versions ==> v.version != version
  {
    Find(versions, (v: Version) => v.version == version)
  }

  function FindDeployment(deployments: seq<Deployment>, id: RowId): (r: Option<Deployment>)
    ensures r.Some? ==> r.value in deployments && r.value.id == id
    ensures r.None? ==> forall d :: d in deployments ==> d.id != id
  {
    Find(deployments, (d: Deployment) => d.id == id)
  }

  function ExistingDeployment(s: Shelf, key: Option<string>): (r: Option<Deployment>)
    ensures r.Some? ==> key.Some? && r.value in s.deployments && r.value.key == key
    ensures r.None? && key.Some? ==> forall d :: d in s.deployments ==> d.key != key
  {
    if key.None? then None else Find(s.deployments, (d: Deployment) => d.key == key)
  }

  predicate IsLive(d: Deployment, environment: Environment) {
    d.environment == environment && d.status == Live
  }

  function Current(s: Shelf, environment: Environment): (r: Option<Deployment>)
    ensures r.Some? ==> r.value in s.deployments && IsLive(r.value, environment)
    ensures r.None? ==> forall d :: d in s.deployments ==> !IsLive(d, environment)
  {
    Newest(s.deployments, (d: Deployment) => IsLive(d, environment))
  }

  function IdOf(d: Option<Deployment>): Option<RowId> {
    if d.Some? then Some(d.value.id) else None
  }

  /** COALESCE(MAX(version), 0). */
  function LatestVersion(versions: seq<Version>): (n: nat)
    ensures forall v :: v in versions ==> v.version <= n
    ensures n == 0 || exists v :: v in versions && v.version == n
  {
    if versions == [] then 0
    else
      var last := |versions| - 1;
      assert versions == versions[..last] + [versions[last]];
      var n := LatestVersion(versions[..last]);
      if versions[last].version > n then versions[last].version else n
  }

  // ----- idempotency keys -----

  function CleanKey(key: Option<string>): (r: Option<string>)
    ensures r.Some? ==> r.value != ""
  {
    if key.None? then None
    else
      var k := Strip(key.value, IsPythonSpace);
      if k == "" then None else Some(k)
  }

  const SANDBOX_DEPLOY := "sandbox_deploy"
  const PRODUCTION_DEPLOY := "production_deploy"
  const PRODUCTION_ROLLBACK := "production_rollback"

  function OperationKey(operation: string, key: Option<string>): Option<string> {
    var k := CleanKey(key);
    if k.None? then None else Some(operation + ":" + k.value)
  }

  // ----- row updates -----

  function Supersede(deployments: seq<Deployment>, id: Option<RowId>): (r: seq<Deployment>)
    ensures |r| == |deployments|
    ensures forall i :: 0 <= i < |r| ==>
              r[i] == if id == Some(deployments[i].id) then deployments[i].(status := Superseded) else deployments[i]
  {
    seq(|deployments|, i requires 0 <= i < |deployments| =>
      if id == Some(deployments[i].id) then deployments[i].(status := Superseded) else deployments[i])
  }

  function RetireLive(deployments: seq<Deployment>): (r: seq<Deployment>)
    ensures |r| == |deployments|
    ensures forall i :: 0 <= i < |r| ==>
              r[i] == if deployments[i].status == Live then deployments[i].(status := Retired) else deployments[i]
  {
    seq(|deployments|, i requires 0 <= i < |deployments| =>
      if deployments[i].status == Live then deployments[i].(status := Retired) else deployments[i])
  }

  /** One audit row per live deployment, in table order. */
  function DisableRows(deployments: seq<Deployment>, actor: string): seq<AuditRow> {
    if deployments == [] then []
    else
      var d := deployments[|deployments| - 1];
      DisableRows(deployments[..|deployments| - 1], actor)
      + (if d.status == Live then [AuditRow(Some(d.version), DeploymentDisabled(d.id), actor)] else [])
  }

  function Log(s: Shelf, version: Option<nat>, action: Action, actor: string): Shelf {
    s.(audit := s.audit + [AuditRow(version, action, actor)])
  }

  /** Supersedes the live deployment of the row's environment and inserts the row. */
  function Install(s: Shelf, d: Deployment, action: Action): Shelf {
    Log(s.(deployments := Supersede(s.deployments, d.previous) + [d], ids := s.ids + {d.id}),
        Some(d.version), action, d.actor)
  }

  // ----- versions and status -----

  /** `create_workflow`, for a name its owner has not used. */
  function NewShelf(owner: string, draft: Draft, actor: string): Shelf {
    Shelf(owner, draft, Active, [], [], map[], map[], map[], map[], [AuditRow(None, Created, actor)], {})
  }

  function UpdateDraft(s: Shelf, draft: Draft, actor: string): Shelf {
    Log(s.(draft := draft), None, DraftUpdated, actor)
  }

  function SetStatus(s: Shelf, status: Status, actor: string): Shelf {
    var s1 := s.(status := status);
    var s2 :=
      if status == Disabled then
        s1.(deployments := RetireLive(s.deployments), audit := s.audit + DisableRows(s.deployments, actor))
      else s1;
    Log(s2, None, StatusSet(status), actor)
  }

  function BuildArtifact(hash: Hasher, workflow: nat, version: nat, owner: string, draft: Draft, template: Snapshot): Artifact {
    var a := Artifact(workflow, version, owner, draft.name, draft.description, template, draft.runtime, draft.security, None);
    a.(contentHash := Some(ContentHash(hash, a)))
  }

  /** `_version_from_row`: a stored version whose artifact no longer matches its hash is refused. */
  function LoadVersion(hash: Hasher, v: Version): Result<Version, WorkflowError> {
    if VerifyContentHash(hash, v.artifact) && v.artifact.contentHash == Some(v.hash) then Ok(v) else Err(State)
  }

  /** `template` is the catalogue's entry for the draft's template, if it has one. */
  function Publish(s: Shelf, hash: Hasher, workflow: nat, template: Option<Snapshot>, actor: string,
                   idempotencyKey: Option<string>): (Shelf, Result<Version, WorkflowError>)
  {
    var key := CleanKey(idempotencyKey);
    var existing := if key.None? then None else Find(s.versions, (v: Version) => v.key == key);
    if existing.Some? then (s, LoadVersion(hash, existing.value))
    else if template.None? then (s, Err(NotFound))
    else
      var n := LatestVersion(s.versions) + 1;
      var artifact := BuildArtifact(hash, workflow, n, s.owner, s.draft, template.value);
      var v := Version(n, artifact.contentHash.value, artifact, actor, key);
      (Log(s.(versions := s.versions + [v]), Some(n), Published(v.hash), actor), Ok(v))
  }

  // ----- sandbox, tests, approval -----

  function DeploySandbox(s: Shelf, id: RowId, version: nat, actor: string, idempotencyKey: Option<string>,
                         binding: Binding, now: nat): (Shelf, Result<Deployment, WorkflowError>)
  {
    var key := OperationKey(SANDBOX_DEPLOY, idempotencyKey);
    var existing := ExistingDeployment(s, key);
    if existing.Some? then
      if existing.value.environment != Sandbox || existing.value.version != version then (s, Err(Conflict))
      else (s, Ok(existing.value))
    else if s.status != Active then (s, Err(State))
    else
      match FindVersion(s.versions, version)
      case None => (s, Err(NotFound))
      case Some(v) =>
        if !binding.Supports(v.artifact.runtime) then (s, Err(State))
        else if id in s.ids then (s, Err(Integrity))
        else
          var d := Deployment(id, version, Sandbox, v.hash, binding.fingerprint, Live,
                              IdOf(Current(s, Sandbox)), actor, None, None, key, now);
          (Install(s, d, SandboxActive(id)), Ok(d))
  }

  /** `passed` is the verdict of the mandatory suites on the artifact. */
  function RunTests(s: Shelf, id: RowId, version: nat, deployment: RowId, actor: string, idempotencyKey: Option<string>,
                    binding: Binding, passed: bool): (Shelf, Result<TestRun, WorkflowError>)
  {
    var key := CleanKey(idempotencyKey);
    if key.Some? && key.value in s.testKeys && s.testKeys[key.value] in s.tests then
      (s, Ok(s.tests[s.testKeys[key.value]]))
    else
      match FindVersion(s.versions, version)
      case None => (s, Err(NotFound))
      case Some(v) =>
        match FindDeployment(s.deployments, deployment)
        case None => (s, Err(NotFound))
        case Some(d) =>
          if d.environment != Sandbox || d.status != Live || d.hash != v.hash || d.fingerprint != binding.fingerprint
          then (s, Err(State))
          else if id in s.ids then (s, Err(Integrity))
          else
            var t := TestRun(version, v.hash, deployment, binding.fingerprint, passed, actor, key);
            (Log(s.(tests := s.tests[id := t],
                    testKeys := if key.Some? then s.testKeys[key.value := id] else s.testKeys,
                    ids := s.ids + {id}),
                 Some(version), Tested(id, passed), actor), Ok(t))
  }

  function RequestApproval(s: Shelf, id: RowId, version: nat, testRun: RowId, approverSubject: string, actor: string,
                           idempotencyKey: Option<string>): (Shelf, Result<Approval, WorkflowError>)
  {
    var key := CleanKey(idempotencyKey);
    var approver := Strip(approverSubject, IsPythonSpace);
    if approver == "" || approver == actor then (s, Err(State))
    else if key.Some? && key.value in s.approvalKeys && s.approvalKeys[key.value] in s.approvals then
      (s, Ok(s.approvals[s.approvalKeys[key.value]]))
    else if s.status != Active then (s, Err(State))
    else
      match FindVersion(s.versions, version)
      case None => (s, Err(NotFound))
      case Some(v) =>
        if testRun !in s.tests then (s, Err(NotFound))
        else
          var t := s.tests[testRun];
          if !t.passed || t.hash != v.hash || t.version != version then (s, Err(State))
          else if id in s.ids then (s, Err(Integrity))
          else
            var a := Approval(version, v.hash, testRun, Pending, actor, approver, None, key);
            (Log(s.(approvals := s.approvals[id := a],
                    approvalKeys := if key.Some? then s.approvalKeys[key.value := id] else s.approvalKeys,
                    ids := s.ids + {id}),
                 Some(version), ApprovalRequested(id), actor), Ok(a))
  }

  function DecideApproval(s: Shelf, approval: RowId, actor: string, approve: bool): (Shelf, Result<Approval, WorkflowError>) {
    if approval !in s.approvals then (s, Err(NotFound))
    else
      var a := s.approvals[approval];
      if a.approver != actor then (s, Err(Permission))
      else if s.status != Active then (s, Err(State))
      else if a.decision != Pending then (s, Err(State))
      else if approve && (a.testRun !in s.tests || !s.tests[a.testRun].passed || s.tests[a.testRun].hash != a.hash) then
        (s, Err(State))
      else
        var a' := a.(decision := if approve then Approved else Rejected, decidedBy := Some(actor));
        (Log(s.(approvals := s.approvals[approval := a']), Some(a.version), ApprovalDecided(approval, a'.decision), actor),
         Ok(a'))
  }

  // ----- production -----

  datatype Problem =
    | WorkflowDisabled | HashInvalid
    | TestRequired | TestNotPassed | TestHashMismatch
    | ApprovalRequired | NotApproved | ApprovalHashMismatch | ApprovalForOtherTest
    | SandboxRequired | SandboxHashMismatch | SandboxFailed | TestOfOtherSandbox
    | BindingUnavailable | BindingInsufficient

  function When(condition: bool, p: Problem): seq<Problem> {
    if condition then [p] else []
  }

  function TestChecks(test: Option<TestRun>, v: Version): seq<Problem> {
    if test.None? then [TestRequired]
    else When(!test.value.passed, TestNotPassed) + When(test.value.hash != v.hash, TestHashMismatch)
  }

  function ApprovalChecks(approval: Option<Approval>, testRun: RowId, test: Option<TestRun>, v: Version): seq<Problem> {
    if approval.None? then [ApprovalRequired]
    else
      When(approval.value.decision != Approved, NotApproved)
      + When(approval.value.hash != v.hash, ApprovalHashMismatch)
      + When(test.Some? && approval.value.testRun != testRun, ApprovalForOtherTest)
  }

  function SandboxChecks(sandbox: Option<Deployment>, test: Option<TestRun>, v: Version): seq<Problem> {
    if sandbox.None? then [SandboxRequired]
    else
      When(sandbox.value.hash != v.hash, SandboxHashMismatch)
      + When(sandbox.value.status == Failed, SandboxFailed)
      + When(test.Some? && sandbox.value.id != test.value.deployment, TestOfOtherSandbox)
  }

  function BindingChecks(binding: Option<Binding>, v: Version): seq<Problem> {
    if binding.None? then [BindingUnavailable]
    else When(!binding.value.Supports(v.artifact.runtime), BindingInsufficient)
  }

  function Row<T>(rows: map<RowId, T>, id: RowId): Option<T> {
    if id in rows then Some(rows[id]) else None
  }

  function LatestSandbox(s: Shelf, version: nat): (r: Option<Deployment>)
    ensures r.Some? ==> r.value in s.deployments && r.value.version == version && r.value.environment == Sandbox
    ensures forall d :: d in s.deployments && d.version == version && d.environment == Sandbox ==>
              r.Some? && d.createdAt <= r.value.createdAt
  {
    Newest(s.deployments, (d: Deployment) => d.version == version && d.environment == Sandbox)
  }

  function ProductionChecks(s: Shelf, hash: Hasher, v: Version, testRun: RowId, approval: RowId,
                            binding: Option<Binding>): seq<Problem>
  {
    var test := Row(s.tests, testRun);
    When(s.status != Active, WorkflowDisabled)
    + When(!VerifyContentHash(hash, v.artifact), HashInvalid)
    + TestChecks(test, v)
    + ApprovalChecks(Row(s.approvals, approval), testRun, test, v)
    + SandboxChecks(LatestSandbox(s, v.version), test, v)
    + BindingChecks(binding, v)
  }

  function ReplayProduction(d: Deployment, version: nat): Result<Deployment, WorkflowError> {
    if d.environment != Production then Err(Conflict)
    else if d.status == Failed then Err(State)
    else if d.version != version then Err(Conflict)
    else Ok(d)
  }

  /** `binding` is None when the production binding is not configured. A refused deployment is recorded as failed. */
  function DeployProduction(s: Shelf, hash: Hasher, id: RowId, version: nat, testRun: RowId, approval: RowId, actor: string,
                            idempotencyKey: Option<string>, binding: Option<Binding>, now: nat)
    : (Shelf, Result<Deployment, WorkflowError>)
  {
    var key := OperationKey(PRODUCTION_DEPLOY, idempotencyKey);
    var existing := ExistingDeployment(s, key);
    if existing.Some? then (s, ReplayProduction(existing.value, version))
    else
      match FindVersion(s.versions, version)
      case None => (s, Err(NotFound))
      case Some(v) =>
        var current := Current(s, Production);
        if ProductionChecks(s, hash, v, testRun, approval, binding) != [] then
          if id in s.ids then (s, Err(Integrity))
          else
            var d := Deployment(id, version, Production, v.hash,
                                if binding.Some? then binding.value.fingerprint else "", Failed,
                                IdOf(current), actor, Some(testRun), Some(approval), key, now);
            (Log(s.(deployments := s.deployments + [d], ids := s.ids + {id}), Some(version), ProductionFailed(id), actor),
             Err(State))
        else
          var fingerprint := if binding.Some? then binding.value.fingerprint else "";
          if current.Some? && current.value.version == version && current.value.hash == v.hash
             && current.value.fingerprint == fingerprint then (s, Ok(current.value))
          else if id in s.ids then (s, Err(Integrity))
          else
            var d := Deployment(id, version, Production, v.hash, fingerprint, Live,
                                IdOf(current), actor, Some(testRun), Some(approval), key, now);
            (Install(s, d, ProductionActive(id)), Ok(d))
  }

  function RollbackProduction(s: Shelf, id: RowId, deployment: RowId, actor: string, idempotencyKey: Option<string>,
                              binding: Option<Binding>, now: nat): (Shelf, Result<Deployment, WorkflowError>)
  {
    var key := OperationKey(PRODUCTION_ROLLBACK, idempotencyKey);
    var existing := ExistingDeployment(s, key);
    if existing.Some? then (s, Ok(existing.value))
    else if s.status != Active then (s, Err(State))
    else
      match FindDeployment(s.deployments, deployment)
      case None => (s, Err(NotFound))
      case Some(target) =>
        if target.environment != Production || target.status == Failed then (s, Err(State))
        else if binding.None? || target.fingerprint != binding.value.fingerprint then (s, Err(State))
        else
          var current := Current(s, Production);
          if current.Some? && current.value.id == deployment then (s, Ok(current.value))
          else if id in s.ids then (s, Err(Integrity))
          else
            var d := Deployment(id, target.version, Production, target.hash, target.fingerprint, Live,
                                IdOf(current), actor, target.testRun, target.approval, key, now);
            (Install(s, d, ProductionRollback(id, IdOf(current), deployment)), Ok(d))
  }

  // ----- routing -----

  datatype RoutingError = NotOwned | NotActive | NoDeployment | NoBinding | BindingMismatch | VersionCorrupt | VersionMissing | HashMismatch

  datatype Route = Route(deployment: RowId, version: nat, hash: string, template: Snapshot, owner: string)

  /**
   Resolving reads the tables three times, outside any transaction: the workflow
   row, then the live production deployment, then the deployed version.
   `read1`, `read2` and `read3` are the shelf at those three moments.
   */
  function ResolveRoute(read1: Shelf, read2: Shelf, read3: Shelf, hash: Hasher, tenant: Option<string>,
                        allowCrossTenant: bool, binding: Option<Binding>): Result<Route, RoutingError>
  {
    if tenant.Some? && read1.owner != tenant.value && !allowCrossTenant then Err(NotOwned)
    else if read1.status != Active then Err(NotActive)
    else
      var current := Current(read2, Production);
      if current.None? then Err(NoDeployment)
      else if binding.None? then Err(NoBinding)
      else if current.value.fingerprint != binding.value.fingerprint then Err(BindingMismatch)
      else
        match FindVersion(read3.versions, current.value.version)
        case None => Err(VersionMissing)
        case Some(row) =>
          match LoadVersion(hash, row)
          case Err(_) => Err(VersionCorrupt)
          case Ok(v) =>
            if current.value.hash != v.hash then Err(HashMismatch)
            else Ok(Route(current.value.id, v.version, v.hash, v.artifact.template, read1.owner))
  }

  // ----- operations on a shelf -----

  datatype Op =
    | EditDraft(draft: Draft, actor: string)
    | ChangeStatus(newStatus: Status, actor: string)
    | PublishVersion(template: Option<Snapshot>, actor: string, key: Option<string>)
    | ToSandbox(id: RowId, version: nat, actor: string, key: Option<string>, sandboxBinding: Binding, now: nat)
    | Test(id: RowId, version: nat, deployment: RowId, actor: string, key: Option<string>,
           sandboxBinding: Binding, passed: bool)
    | Request(id: RowId, version: nat, testRun: RowId, approver: string, actor: string, key: Option<string>)
    | Decide(approval: RowId, actor: string, approve: bool)
    | ToProduction(id: RowId, version: nat, testRun: RowId, approval: RowId, actor: string, key: Option<string>,
                   binding: Option<Binding>, now: nat)
    | Rollback(id: RowId, deployment: RowId, actor: string, key: Option<string>, binding: Option<Binding>, now: nat)

  function Step(s: Shelf, hash: Hasher, workflow: nat, op: Op): Shelf {
    match op
    case EditDraft(draft, actor) => UpdateDraft(s, draft, actor)
    case ChangeStatus(status, actor) => SetStatus(s, status, actor)
    case PublishVersion(template, actor, key) => Publish(s, hash, workflow, template, actor, key).0
    case ToSandbox(id, version, actor, key, binding, now) => DeploySandbox(s, id, version, actor, key, binding, now).0
    case Test(id, version, deployment, actor, key, binding, passed) =>
      RunTests(s, id, version, deployment, actor, key, binding, passed).0
    case Request(id, version, testRun, approver, actor, key) =>
      RequestApproval(s, id, version, testRun, approver, actor, key).0
    case Decide(approval, actor, approve) => DecideApproval(s, approval, actor, approve).0
    case ToProduction(id, version, testRun, approval, actor, key, binding, now) =>
      DeployProduction(s, hash, id, version, testRun, approval, actor, key, binding, now).0
    case Rollback(id, deployment, actor, key, binding, now) =>
      RollbackProduction(s, id, deployment, actor, key, binding, now).0
  }
}
