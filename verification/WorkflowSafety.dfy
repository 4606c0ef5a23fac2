/**
 The promotion protocol's safety: in every run, what production serves was
 tested in the sandbox and approved by the assigned approver.
 */
module WorkflowSafety {
  import opened Prelude
  import opened Text
  import opened WorkflowShelf

  // ----- the invariant -----

  /** Versions are numbered from 1 without gaps, and each artifact carries its own hash. */
  ghost predicate VersionsSealed(versions: seq<Version>, hash: Hasher, workflow: nat) {
    forall i :: 0 <= i < |versions| ==> versions[i].version == i + 1 && Sealed(versions[i], hash, workflow)
  }

  predicate Sealed(v: Version, hash: Hasher, workflow: nat) {
    && v.artifact.workflow == workflow
    && v.artifact.version == v.version
    && v.artifact.contentHash == Some(v.hash)
    && v.hash == ContentHash(hash, v.artifact)
  }

  /** Version n exists and has the content hash h. */
  predicate VersionAt(s: Shelf, n: nat, h: string) {
    1 <= n <= |s.versions| && s.versions[n - 1].hash == h
  }

  /** Deployment ids are in use and pairwise distinct. */
  ghost predicate IdsDistinct(deployments: seq<Deployment>, ids: set<RowId>) {
    && (forall i :: 0 <= i < |deployments| ==> deployments[i].id in ids)
    && (forall i, j :: 0 <= i < j < |deployments| ==> deployments[i].id != deployments[j].id)
  }

  ghost predicate KeysUnique(deployments: seq<Deployment>) {
    forall i, j :: 0 <= i < j < |deployments| && deployments[i].key.Some? ==> deployments[i].key != deployments[j].key
  }

  /** A test run belongs to a version and to a sandbox deployment of the same content and binding. */
  ghost predicate TestBacked(s: Shelf, t: TestRun) {
    VersionAt(s, t.version, t.hash)
    && exists i :: 0 <= i < |s.deployments| && s.deployments[i].id == t.deployment
                   && s.deployments[i].environment == Sandbox && s.deployments[i].hash == t.hash
                   && s.deployments[i].fingerprint == t.fingerprint
  }

  ghost predicate ApprovalBacked(s: Shelf, a: Approval) {
    && VersionAt(s, a.version, a.hash)
    && a.approver != a.requestedBy
    && a.testRun in s.tests
    && s.tests[a.testRun].passed && s.tests[a.testRun].hash == a.hash && s.tests[a.testRun].version == a.version
    && a.decidedBy == if a.decision == Pending then None else Some(a.approver)
  }

  /**
   The deployment names a passing test run and an approved approval tied to that
   run, both for exactly the content it deploys, and the approval was decided by
   its assigned approver, who is not the one who asked for it.
   */
  ghost predicate Cleared(s: Shelf, d: Deployment) {
    && d.testRun.Some? && d.testRun.value in s.tests
    && d.approval.Some? && d.approval.value in s.approvals
    && var t, a := s.tests[d.testRun.value], s.approvals[d.approval.value];
       && t.passed && t.hash == d.hash
       && a.decision == Approved && a.hash == d.hash && a.testRun == d.testRun.value
       && a.decidedBy == Some(a.approver) && a.approver != a.requestedBy
  }

  ghost predicate DeploymentBacked(s: Shelf, d: Deployment) {
    && VersionAt(s, d.version, d.hash)
    && (d.environment == Sandbox ==> d.status != Failed)
    && (d.environment == Production && d.status != Failed ==> Cleared(s, d))
  }

  /** A live deployment is the last one inserted in its environment, failed attempts aside. */
  ghost predicate LiveIsLast(deployments: seq<Deployment>) {
    forall i, j ::
      0 <= i < j < |deployments| && IsLive(deployments[i], deployments[j].environment) ==> deployments[j].status == Failed
  }

  ghost predicate NothingLive(deployments: seq<Deployment>) {
    forall i :: 0 <= i < |deployments| ==> deployments[i].status != Live
  }

  ghost predicate AllBacked(s: Shelf) {
    && (forall t :: t in s.tests ==> TestBacked(s, s.tests[t]))
    && (forall a :: a in s.approvals ==> ApprovalBacked(s, s.approvals[a]))
    && (forall i :: 0 <= i < |s.deployments| ==> DeploymentBacked(s, s.deployments[i]))
  }

  ghost predicate Inv(s: Shelf, hash: Hasher, workflow: nat) {
    && VersionsSealed(s.versions, hash, workflow)
    && IdsDistinct(s.deployments, s.ids)
    && s.tests.Keys <= s.ids
    && s.approvals.Keys <= s.ids
    && s.testKeys.Values <= s.tests.Keys
    && s.approvalKeys.Values <= s.approvals.Keys
    && KeysUnique(s.deployments)
    && AllBacked(s)
    && LiveIsLast(s.deployments)
    && (s.status == Disabled ==> NothingLive(s.deployments))
  }

  // ----- what no transaction takes away -----

  /** A deployment row only ever changes by a live deployment being superseded or retired. */
  predicate Aged(d: Deployment, d': Deployment) {
    d' == d || (d.status == Live && (d' == d.(status := Superseded) || d' == d.(status := Retired)))
  }

  /** An approval row only ever changes by a pending request being decided. */
  predicate Decided(a: Approval, a': Approval) {
    a' == a || (a.decision == Pending && a' == a.(decision := a'.decision, decidedBy := a'.decidedBy))
  }

  ghost predicate DeploymentsAge(ds: seq<Deployment>, ds': seq<Deployment>) {
    |ds| <= |ds'| && forall i :: 0 <= i < |ds| ==> Aged(ds[i], ds'[i])
  }

  ghost predicate TestsStay(ts: map<RowId, TestRun>, ts': map<RowId, TestRun>) {
    forall t :: t in ts ==> t in ts' && ts'[t] == ts[t]
  }

  ghost predicate ApprovalsStay(approvals: map<RowId, Approval>, approvals': map<RowId, Approval>) {
    forall a :: a in approvals ==> a in approvals' && Decided(approvals[a], approvals'[a])
  }

  ghost predicate IndexStays(index: map<string, RowId>, index': map<string, RowId>) {
    forall k :: k in index ==> k in index' && index'[k] == index[k]
  }

  /** Nothing on record is altered, except that a live deployment may end and a pending approval be decided. */
  ghost predicate Extends(s: Shelf, s': Shelf) {
    && s'.owner == s.owner
    && s.versions <= s'.versions
    && s.audit <= s'.audit
    && TestsStay(s.tests, s'.tests)
    && ApprovalsStay(s.approvals, s'.approvals)
    && IndexStays(s.testKeys, s'.testKeys)
    && IndexStays(s.approvalKeys, s'.approvalKeys)
    && DeploymentsAge(s.deployments, s'.deployments)
  }

  lemma ExtendsKeepsVersion(s: Shelf, s': Shelf, n: nat, h: string)
    requires Extends(s, s') && VersionAt(s, n, h)
    ensures VersionAt(s', n, h)
  {
    assert s.versions[n - 1] == s'.versions[n - 1];
  }

  lemma ExtendsKeepsCleared(s: Shelf, s': Shelf, d: Deployment)
    requires Extends(s, s') && Cleared(s, d)
    ensures Cleared(s', d)
  {
  }

  lemma ExtendsKeepsTest(s: Shelf, s': Shelf, t: TestRun)
    requires Extends(s, s') && TestBacked(s, t)
    ensures TestBacked(s', t)
  {
    ExtendsKeepsVersion(s, s', t.version, t.hash);
    var i :| 0 <= i < |s.deployments| && s.deployments[i].id == t.deployment
             && s.deployments[i].environment == Sandbox && s.deployments[i].hash == t.hash
             && s.deployments[i].fingerprint == t.fingerprint;
    assert Aged(s.deployments[i], s'.deployments[i]);
    assert s'.deployments[i].id == t.deployment;
  }

  lemma ExtendsKeepsApproval(s: Shelf, s': Shelf, a: Approval)
    requires Extends(s, s') && ApprovalBacked(s, a)
    ensures ApprovalBacked(s', a)
  {
    ExtendsKeepsVersion(s, s', a.version, a.hash);
  }

  lemma ExtendsKeepsDeployment(s: Shelf, s': Shelf, i: nat)
    requires Extends(s, s') && i < |s.deployments| && DeploymentBacked(s, s.deployments[i])
    ensures DeploymentBacked(s', s'.deployments[i])
  {
    var d, d' := s.deployments[i], s'.deployments[i];
    assert Aged(d, d');
    ExtendsKeepsVersion(s, s', d.version, d.hash);
    if d.environment == Production && d.status != Failed {
      ExtendsKeepsCleared(s, s', d);
      assert Cleared(s', d') == Cleared(s', d);
    }
  }

  /** Only new rows have to be backed afresh. */
  lemma ExtendsKeepsBacked(s: Shelf, s': Shelf)
    requires Extends(s, s') && AllBacked(s)
    requires forall t :: t in s'.tests && t !in s.tests ==> TestBacked(s', s'.tests[t])
    requires forall a :: a in s'.approvals && (a !in s.approvals || s'.approvals[a] != s.approvals[a]) ==>
               ApprovalBacked(s', s'.approvals[a])
    requires forall i :: |s.deployments| <= i < |s'.deployments| ==> DeploymentBacked(s', s'.deployments[i])
    ensures AllBacked(s')
  {
    hide TestBacked, ApprovalBacked, DeploymentBacked;
    forall t | t in s'.tests
      ensures TestBacked(s', s'.tests[t])
    {
      if t in s.tests {
        ExtendsKeepsTest(s, s', s.tests[t]);
      }
    }
    forall a | a in s'.approvals
      ensures ApprovalBacked(s', s'.approvals[a])
    {
      if a in s.approvals && s'.approvals[a] == s.approvals[a] {
        ExtendsKeepsApproval(s, s', s.approvals[a]);
      }
    }
    forall i | 0 <= i < |s'.deployments|
      ensures DeploymentBacked(s', s'.deployments[i])
    {
      if i < |s.deployments| {
        ExtendsKeepsDeployment(s, s', i);
      }
    }
  }

  // ----- the live deployment -----

  /** There is at most one live deployment per environment, so the query finds it whatever the clocks said. */
  lemma CurrentIsTheLiveOne(s: Shelf, i: nat)
    requires i < |s.deployments| && s.deployments[i].status == Live && LiveIsLast(s.deployments)
    ensures Current(s, s.deployments[i].environment) == Some(s.deployments[i])
  {
    assert IsLive(s.deployments[i], s.deployments[i].environment);
    var c := Current(s, s.deployments[i].environment).value;
    var j :| 0 <= j < |s.deployments| && s.deployments[j] == c;
    assert j == i;
  }

  /** The live deployment of an environment, if any, is its last row that did not fail. */
  lemma LiveIsLastNonFailed(s: Shelf, hash: Hasher, workflow: nat, environment: Environment, i: nat)
    requires Inv(s, hash, workflow) && Current(s, environment).Some?
    requires i < |s.deployments| && s.deployments[i].environment == environment && s.deployments[i].status != Failed
    requires forall j :: i < j < |s.deployments| && s.deployments[j].environment == environment ==> s.deployments[j].status == Failed
    ensures Current(s, environment) == Some(s.deployments[i])
  {
    var c := Current(s, environment).value;
    var j :| 0 <= j < |s.deployments| && s.deployments[j] == c;
    assert j == i;
  }

  // ----- the primitive changes -----

  ghost predicate NewKey(deployments: seq<Deployment>, key: Option<string>) {
    key.Some? ==> forall i :: 0 <= i < |deployments| ==> deployments[i].key != key
  }

  lemma SupersedeEnds(s: Shelf, environment: Environment)
    requires LiveIsLast(s.deployments) && IdsDistinct(s.deployments, s.ids)
    ensures var ds := Supersede(s.deployments, IdOf(Current(s, environment)));
            forall i :: 0 <= i < |ds| ==>
              ds[i] == if IsLive(s.deployments[i], environment) then s.deployments[i].(status := Superseded)
                       else s.deployments[i]
  {
    var current := Current(s, environment);
    var ds := Supersede(s.deployments, IdOf(current));
    forall i | 0 <= i < |ds|
      ensures ds[i] == if IsLive(s.deployments[i], environment) then s.deployments[i].(status := Superseded)
                       else s.deployments[i]
    {
      if IsLive(s.deployments[i], environment) {
        CurrentIsTheLiveOne(s, i);
      } else if current.Some? {
        var j :| 0 <= j < |s.deployments| && s.deployments[j] == current.value;
        assert i != j && s.deployments[i].id != s.deployments[j].id;
      }
    }
  }

  /** Appending a row with a new id and key. */
  lemma AppendKeepsKeys(ds: seq<Deployment>, d: Deployment, ids: set<RowId>)
    requires IdsDistinct(ds, ids) && KeysUnique(ds) && d.id !in ids && NewKey(ds, d.key)
    ensures IdsDistinct(ds + [d], ids + {d.id}) && KeysUnique(ds + [d])
  {
  }

  lemma AgeKeepsKeys(ds: seq<Deployment>, ds': seq<Deployment>, ids: set<RowId>)
    requires IdsDistinct(ds, ids) && KeysUnique(ds) && DeploymentsAge(ds, ds') && |ds| == |ds'|
    ensures IdsDistinct(ds', ids) && KeysUnique(ds')
  {
    assert forall i :: 0 <= i < |ds| ==> Aged(ds[i], ds'[i]) && ds'[i].id == ds[i].id && ds'[i].key == ds[i].key;
  }

  lemma SupersedeAges(s: Shelf, environment: Environment)
    requires LiveIsLast(s.deployments) && IdsDistinct(s.deployments, s.ids)
    ensures DeploymentsAge(s.deployments, Supersede(s.deployments, IdOf(Current(s, environment))))
  {
    SupersedeEnds(s, environment);
  }

  lemma InstalledIsLast(s: Shelf, d: Deployment)
    requires LiveIsLast(s.deployments) && IdsDistinct(s.deployments, s.ids)
    ensures LiveIsLast(Supersede(s.deployments, IdOf(Current(s, d.environment))) + [d])
  {
    SupersedeEnds(s, d.environment);
  }

  lemma AgeAppends(ds: seq<Deployment>, ds': seq<Deployment>, d: Deployment)
    requires DeploymentsAge(ds, ds')
    ensures DeploymentsAge(ds, ds' + [d])
  {
    assert forall i :: 0 <= i < |ds| ==> Aged(ds[i], ds'[i]) && (ds' + [d])[i] == ds'[i];
  }

  lemma InstallKeeps(s: Shelf, hash: Hasher, workflow: nat, d: Deployment, action: Action)
    requires Inv(s, hash, workflow) && s.status == Active
    requires d.id !in s.ids && d.status == Live && NewKey(s.deployments, d.key)
    requires d.previous == IdOf(Current(s, d.environment))
    requires VersionAt(s, d.version, d.hash)
    requires d.environment == Production ==> Cleared(s, d)
    ensures Inv(Install(s, d, action), hash, workflow) && Extends(s, Install(s, d, action))
  {
    hide VersionsSealed, IdsDistinct, KeysUnique, AllBacked, LiveIsLast, DeploymentsAge, Cleared, Supersede, Current, NewKey;
    var s' := Install(s, d, action);
    var ds := Supersede(s.deployments, d.previous);
    SupersedeAges(s, d.environment);
    AgeKeepsKeys(s.deployments, ds, s.ids);
    AppendKeepsKeys(ds, d, s.ids) by {
      KeyStaysNew(s.deployments, ds, d.key);
    }
    InstalledIsLast(s, d);
    AgeAppends(s.deployments, ds, d);
    assert Extends(s, s');
    NewDeploymentKeepsBacked(s, s', d);
  }

  lemma KeyStaysNew(ds: seq<Deployment>, ds': seq<Deployment>, key: Option<string>)
    requires DeploymentsAge(ds, ds') && |ds| == |ds'| && NewKey(ds, key)
    ensures NewKey(ds', key)
  {
    assert forall i :: 0 <= i < |ds| ==> Aged(ds[i], ds'[i]) && ds'[i].key == ds[i].key;
  }

  /** A shelf that grew by one deployment is backed if the deployment is. */
  lemma NewDeploymentKeepsBacked(s: Shelf, s': Shelf, d: Deployment)
    requires Extends(s, s') && AllBacked(s) && s'.tests == s.tests && s'.approvals == s.approvals
    requires |s'.deployments| == |s.deployments| + 1 && s'.deployments[|s.deployments|] == d
    requires VersionAt(s, d.version, d.hash)
    requires d.environment == Sandbox ==> d.status != Failed
    requires d.environment == Production && d.status != Failed ==> Cleared(s, d)
    ensures AllBacked(s')
  {
    hide Cleared, TestBacked, ApprovalBacked;
    ExtendsKeepsVersion(s, s', d.version, d.hash);
    if d.environment == Production && d.status != Failed {
      ExtendsKeepsCleared(s, s', d);
    }
    assert DeploymentBacked(s', d);
    ExtendsKeepsBacked(s, s');
  }

  lemma RecordFailureKeeps(s: Shelf, hash: Hasher, workflow: nat, d: Deployment, action: Action)
    requires Inv(s, hash, workflow) && d.id !in s.ids && NewKey(s.deployments, d.key)
    requires d.status == Failed && d.environment == Production && VersionAt(s, d.version, d.hash)
    ensures var s' := Log(s.(deployments := s.deployments + [d], ids := s.ids + {d.id}), Some(d.version), action, d.actor);
            Inv(s', hash, workflow) && Extends(s, s')
  {
    hide VersionsSealed, IdsDistinct, KeysUnique, AllBacked, Cleared, NewKey;
    var s' := Log(s.(deployments := s.deployments + [d], ids := s.ids + {d.id}), Some(d.version), action, d.actor);
    AppendKeepsKeys(s.deployments, d, s.ids);
    NewDeploymentKeepsBacked(s, s', d);
  }

  lemma AddVersionKeeps(s: Shelf, hash: Hasher, workflow: nat, v: Version, action: Action, actor: string)
    requires Inv(s, hash, workflow) && v.version == |s.versions| + 1 && Sealed(v, hash, workflow)
    ensures var s' := Log(s.(versions := s.versions + [v]), Some(v.version), action, actor);
            Inv(s', hash, workflow) && Extends(s, s')
  {
    hide IdsDistinct, KeysUnique, AllBacked, LiveIsLast, NothingLive, Sealed, TestBacked, ApprovalBacked, DeploymentBacked;
    ExtendsKeepsBacked(s, Log(s.(versions := s.versions + [v]), Some(v.version), action, actor));
  }

  /** Entering a row in an idempotency index, if it has a key that is not there yet. */
  function Enter(index: map<string, RowId>, key: Option<string>, id: RowId): map<string, RowId> {
    if key.Some? then index[key.value := id] else index
  }

  lemma EnterKeeps(index: map<string, RowId>, key: Option<string>, id: RowId, rows: set<RowId>)
    requires index.Values <= rows && (key.Some? ==> key.value !in index)
    ensures Enter(index, key, id).Values <= rows + {id} && IndexStays(index, Enter(index, key, id))
  {
    var index' := Enter(index, key, id);
    forall v | v in index'.Values
      ensures v in rows + {id}
    {
      var k :| k in index' && index'[k] == v;
      assert k in index ==> index[k] in index.Values;
    }
  }

  lemma AddTestKeeps(s: Shelf, hash: Hasher, workflow: nat, id: RowId, t: TestRun, action: Action)
    requires Inv(s, hash, workflow) && id !in s.ids && TestBacked(s, t)
    requires t.key.Some? ==> t.key.value !in s.testKeys
    ensures var s' := Log(s.(tests := s.tests[id := t], testKeys := Enter(s.testKeys, t.key, id), ids := s.ids + {id}),
                          Some(t.version), action, t.requestedBy);
            Inv(s', hash, workflow) && Extends(s, s')
  {
    hide VersionsSealed, KeysUnique, AllBacked, LiveIsLast, NothingLive, TestBacked, ApprovalBacked, DeploymentBacked, Enter;
    EnterKeeps(s.testKeys, t.key, id, s.tests.Keys);
    var s' := Log(s.(tests := s.tests[id := t], testKeys := Enter(s.testKeys, t.key, id), ids := s.ids + {id}),
                  Some(t.version), action, t.requestedBy);
    assert Extends(s, s');
    ExtendsKeepsTest(s, s', t);
    ExtendsKeepsBacked(s, s');
  }

  lemma AddApprovalKeeps(s: Shelf, hash: Hasher, workflow: nat, id: RowId, a: Approval, action: Action, actor: string)
    requires Inv(s, hash, workflow) && id !in s.ids && ApprovalBacked(s, a)
    requires a.key.Some? ==> a.key.value !in s.approvalKeys
    ensures var s' := Log(s.(approvals := s.approvals[id := a], approvalKeys := Enter(s.approvalKeys, a.key, id), ids := s.ids + {id}),
                          Some(a.version), action, actor);
            Inv(s', hash, workflow) && Extends(s, s')
  {
    hide VersionsSealed, KeysUnique, AllBacked, LiveIsLast, NothingLive, TestBacked, ApprovalBacked, DeploymentBacked, Enter;
    EnterKeeps(s.approvalKeys, a.key, id, s.approvals.Keys);
    var s' := Log(s.(approvals := s.approvals[id := a], approvalKeys := Enter(s.approvalKeys, a.key, id), ids := s.ids + {id}),
                  Some(a.version), action, actor);
    assert Extends(s, s');
    ExtendsKeepsApproval(s, s', a);
    ExtendsKeepsBacked(s, s');
  }

  lemma DecisionKeeps(s: Shelf, hash: Hasher, workflow: nat, id: RowId, a: Approval, action: Action, actor: string)
    requires Inv(s, hash, workflow) && ApprovalBacked(s, a)
    requires id in s.approvals && Decided(s.approvals[id], a)
    ensures var s' := Log(s.(approvals := s.approvals[id := a]), Some(a.version), action, actor);
            Inv(s', hash, workflow) && Extends(s, s')
  {
    hide VersionsSealed, KeysUnique, AllBacked, LiveIsLast, NothingLive, TestBacked, ApprovalBacked, DeploymentBacked;
    var s' := Log(s.(approvals := s.approvals[id := a]), Some(a.version), action, actor);
    assert s'.approvals.Keys == s.approvals.Keys;
    assert Extends(s, s');
    ExtendsKeepsApproval(s, s', a);
    ExtendsKeepsBacked(s, s');
  }

  lemma IndexIsTotal(index: map<string, RowId>, rows: set<RowId>)
    requires index.Values <= rows
    ensures forall k :: k in index ==> index[k] in rows
  {
    forall k | k in index
      ensures index[k] in rows
    {
      assert index[k] in index.Values;
    }
  }

  lemma FoundVersion(s: Shelf, hash: Hasher, workflow: nat, n: nat)
    requires VersionsSealed(s.versions, hash, workflow) && FindVersion(s.versions, n).Some?
    ensures var v := FindVersion(s.versions, n).value;
            1 <= n <= |s.versions| && s.versions[n - 1] == v && VersionAt(s, n, v.hash)
  {
    var v := FindVersion(s.versions, n).value;
    var i :| 0 <= i < |s.versions| && s.versions[i] == v;
  }

  lemma NoExistingMeansNew(s: Shelf, key: Option<string>)
    requires ExistingDeployment(s, key).None?
    ensures NewKey(s.deployments, key)
  {
  }

  // ----- each transaction -----

  lemma DraftKeeps(s: Shelf, hash: Hasher, workflow: nat, draft: Draft, actor: string)
    requires Inv(s, hash, workflow)
    ensures var s' := UpdateDraft(s, draft, actor);
            Inv(s', hash, workflow) && Extends(s, s')
  {
    hide Cleared, TestBacked, ApprovalBacked, DeploymentBacked;
    ExtendsKeepsBacked(s, UpdateDraft(s, draft, actor));
  }

  lemma StatusKeeps(s: Shelf, hash: Hasher, workflow: nat, status: Status, actor: string)
    requires Inv(s, hash, workflow)
    ensures Inv(SetStatus(s, status, actor), hash, workflow) && Extends(s, SetStatus(s, status, actor))
  {
    hide Cleared, TestBacked, ApprovalBacked, DeploymentBacked, VersionsSealed, KeysUnique, IdsDistinct;
    var s' := SetStatus(s, status, actor);
    if status == Disabled {
      AgeKeepsKeys(s.deployments, s'.deployments, s.ids);
    }
    ExtendsKeepsBacked(s, s');
  }

  lemma LatestIsCount(s: Shelf, hash: Hasher, workflow: nat)
    requires VersionsSealed(s.versions, hash, workflow)
    ensures LatestVersion(s.versions) == |s.versions|
  {
    if s.versions != [] {
      assert s.versions[|s.versions| - 1] in s.versions;
    }
  }

  lemma BuildSeals(hash: Hasher, workflow: nat, n: nat, owner: string, draft: Draft, template: Snapshot, actor: string,
                   key: Option<string>)
    ensures var a := BuildArtifact(hash, workflow, n, owner, draft, template);
            a.contentHash.Some? && Sealed(Version(n, a.contentHash.value, a, actor, key), hash, workflow)
  {
    var a := BuildArtifact(hash, workflow, n, owner, draft, template);
    assert a.(contentHash := None) == Artifact(workflow, n, owner, draft.name, draft.description, template, draft.runtime, draft.security, None);
  }

  lemma PublishKeeps(s: Shelf, hash: Hasher, workflow: nat, template: Option<Snapshot>, actor: string, key: Option<string>)
    requires Inv(s, hash, workflow)
    ensures var s' := Publish(s, hash, workflow, template, actor, key).0;
            Inv(s', hash, workflow) && Extends(s, s')
  {
    hide CleanKey, Inv, Sealed, LatestVersion, BuildArtifact, LoadVersion, Log;
    assert VersionsSealed(s.versions, hash, workflow) by { InvParts(s, hash, workflow); }
    ExtendsRefl(s);
    if template.Some? {
      LatestIsCount(s, hash, workflow);
      var n := LatestVersion(s.versions) + 1;
      BuildSeals(hash, workflow, n, s.owner, s.draft, template.value, actor, CleanKey(key));
      var artifact := BuildArtifact(hash, workflow, n, s.owner, s.draft, template.value);
      var v := Version(n, artifact.contentHash.value, artifact, actor, CleanKey(key));
      AddVersionKeeps(s, hash, workflow, v, Published(v.hash), actor);
    }
  }

  lemma InvParts(s: Shelf, hash: Hasher, workflow: nat)
    requires Inv(s, hash, workflow)
    ensures VersionsSealed(s.versions, hash, workflow) && AllBacked(s)
  {
  }

  lemma ExtendsRefl(s: Shelf)
    ensures Extends(s, s)
  {
  }

  lemma SandboxKeeps(s: Shelf, hash: Hasher, workflow: nat, id: RowId, version: nat, actor: string, key: Option<string>,
                     binding: Binding, now: nat)
    requires Inv(s, hash, workflow)
    ensures var s' := DeploySandbox(s, id, version, actor, key, binding, now).0;
            Inv(s', hash, workflow) && Extends(s, s')
  {
    hide VersionsSealed, IdsDistinct, KeysUnique, AllBacked, LiveIsLast, Install, OperationKey, ExistingDeployment, NewKey, Current;
    var r := DeploySandbox(s, id, version, actor, key, binding, now);
    if r.0 != s {
      FoundVersion(s, hash, workflow, version);
      NoExistingMeansNew(s, OperationKey(SANDBOX_DEPLOY, key));
      InstallKeeps(s, hash, workflow, r.1.value, SandboxActive(id));
    }
  }

  lemma TestsKeep(s: Shelf, hash: Hasher, workflow: nat, id: RowId, version: nat, deployment: RowId, actor: string,
                  key: Option<string>, binding: Binding, passed: bool)
    requires Inv(s, hash, workflow)
    ensures var s' := RunTests(s, id, version, deployment, actor, key, binding, passed).0;
            Inv(s', hash, workflow) && Extends(s, s')
  {
    hide VersionsSealed, IdsDistinct, KeysUnique, AllBacked, LiveIsLast, NothingLive, CleanKey;
    var r := RunTests(s, id, version, deployment, actor, key, binding, passed);
    IndexIsTotal(s.testKeys, s.tests.Keys);
    if r.0 != s {
      FoundVersion(s, hash, workflow, version);
      var d := FindDeployment(s.deployments, deployment).value;
      var i :| 0 <= i < |s.deployments| && s.deployments[i] == d;
      assert s.deployments[i].id == deployment;
      AddTestKeeps(s, hash, workflow, id, r.1.value, Tested(id, passed));
    }
  }

  lemma RequestKeeps(s: Shelf, hash: Hasher, workflow: nat, id: RowId, version: nat, testRun: RowId, approver: string,
                     actor: string, key: Option<string>)
    requires Inv(s, hash, workflow)
    ensures var s' := RequestApproval(s, id, version, testRun, approver, actor, key).0;
            Inv(s', hash, workflow) && Extends(s, s')
  {
    hide VersionsSealed, IdsDistinct, KeysUnique, AllBacked, LiveIsLast, NothingLive, CleanKey, Strip;
    var r := RequestApproval(s, id, version, testRun, approver, actor, key);
    IndexIsTotal(s.approvalKeys, s.approvals.Keys);
    if r.0 != s {
      FoundVersion(s, hash, workflow, version);
      AddApprovalKeeps(s, hash, workflow, id, r.1.value, ApprovalRequested(id), actor);
    }
  }

  lemma DecideKeeps(s: Shelf, hash: Hasher, workflow: nat, approval: RowId, actor: string, approve: bool)
    requires Inv(s, hash, workflow)
    ensures var s' := DecideApproval(s, approval, actor, approve).0;
            Inv(s', hash, workflow) && Extends(s, s')
  {
    hide VersionsSealed, IdsDistinct, KeysUnique, LiveIsLast, NothingLive, TestBacked, DeploymentBacked, Log;
    var r := DecideApproval(s, approval, actor, approve);
    if r.0 != s {
      assert ApprovalBacked(s, s.approvals[approval]);
      DecisionKeeps(s, hash, workflow, approval, r.1.value, ApprovalDecided(approval, r.1.value.decision), actor);
    }
  }

  predicate IsTestedSandbox(sandbox: Option<Deployment>, v: Version, t: TestRun) {
    sandbox.Some? && sandbox.value.hash == v.hash && sandbox.value.status != Failed && sandbox.value.id == t.deployment
  }

  /** All that a version needs to be deployed to production with this test run, approval and binding. */
  predicate Promotable(s: Shelf, hash: Hasher, v: Version, testRun: RowId, approval: RowId, binding: Option<Binding>) {
    && s.status == Active
    && VerifyContentHash(hash, v.artifact)
    && testRun in s.tests && approval in s.approvals
    && var t, a := s.tests[testRun], s.approvals[approval];
       && t.passed && t.hash == v.hash
       && a.decision == Approved && a.hash == v.hash && a.testRun == testRun
       && IsTestedSandbox(LatestSandbox(s, v.version), v, t)
       && binding.Some? && (forall c :: c in v.artifact.runtime ==> c in binding.value.provided)
  }

  /** A clean bill from the production checks means the deployment is cleared, from the newest sandbox deployment of its version. */
  lemma ChecksClear(s: Shelf, hash: Hasher, v: Version, testRun: RowId, approval: RowId, binding: Option<Binding>)
    ensures ProductionChecks(s, hash, v, testRun, approval, binding) == []
       <==> Promotable(s, hash, v, testRun, approval, binding)
  {
    hide LatestSandbox;
    var test := Row(s.tests, testRun);
    var a := When(s.status != Active, WorkflowDisabled);
    var b := When(!VerifyContentHash(hash, v.artifact), HashInvalid);
    var c, d := TestChecks(test, v), ApprovalChecks(Row(s.approvals, approval), testRun, test, v);
    var e, f := SandboxChecks(LatestSandbox(s, v.version), test, v), BindingChecks(binding, v);
    assert ProductionChecks(s, hash, v, testRun, approval, binding) == a + b + c + d + e + f;
    assert a + b + c + d + e + f == [] <==> a == [] && b == [] && c == [] && d == [] && e == [] && f == [] by {
      assert |a + b + c + d + e + f| == |a| + |b| + |c| + |d| + |e| + |f|;
    }
  }

  lemma EligibleIsCleared(s: Shelf, hash: Hasher, v: Version, testRun: RowId, approval: RowId, binding: Option<Binding>, d: Deployment)
    requires AllBacked(s) && ProductionChecks(s, hash, v, testRun, approval, binding) == []
    requires d.testRun == Some(testRun) && d.approval == Some(approval) && d.hash == v.hash
    ensures Cleared(s, d) && s.status == Active && binding.Some?
  {
    hide ProductionChecks, TestBacked, DeploymentBacked;
    ChecksClear(s, hash, v, testRun, approval, binding);
    assert ApprovalBacked(s, s.approvals[approval]);
  }

  lemma ProductionKeeps(s: Shelf, hash: Hasher, workflow: nat, id: RowId, version: nat, testRun: RowId, approval: RowId,
                        actor: string, key: Option<string>, binding: Option<Binding>, now: nat)
    requires Inv(s, hash, workflow)
    ensures var s' := DeployProduction(s, hash, id, version, testRun, approval, actor, key, binding, now).0;
            Inv(s', hash, workflow) && Extends(s, s')
  {
    hide VersionsSealed, IdsDistinct, KeysUnique, AllBacked, LiveIsLast, NothingLive, Install, OperationKey, ExistingDeployment,
         NewKey, Current, ProductionChecks, Cleared, Log;
    var r := DeployProduction(s, hash, id, version, testRun, approval, actor, key, binding, now);
    ExtendsRefl(s);
    if r.0 != s {
      var v := FindVersion(s.versions, version).value;
      FoundVersion(s, hash, workflow, version);
      NoExistingMeansNew(s, OperationKey(PRODUCTION_DEPLOY, key));
      if r.1.Ok? {
        EligibleIsCleared(s, hash, v, testRun, approval, binding, r.1.value);
        InstallKeeps(s, hash, workflow, r.1.value, ProductionActive(id));
      } else {
        var d := Deployment(id, version, Production, v.hash, if binding.Some? then binding.value.fingerprint else "",
                            Failed, IdOf(Current(s, Production)), actor, Some(testRun), Some(approval),
                            OperationKey(PRODUCTION_DEPLOY, key), now);
        RecordFailureKeeps(s, hash, workflow, d, ProductionFailed(id));
      }
    }
  }

  /** A rollback is cleared because its target was: the step that makes the argument inductive. */
  lemma RollbackKeeps(s: Shelf, hash: Hasher, workflow: nat, id: RowId, deployment: RowId, actor: string,
                      key: Option<string>, binding: Option<Binding>, now: nat)
    requires Inv(s, hash, workflow)
    ensures var s' := RollbackProduction(s, id, deployment, actor, key, binding, now).0;
            Inv(s', hash, workflow) && Extends(s, s')
  {
    hide VersionsSealed, IdsDistinct, KeysUnique, LiveIsLast, NothingLive, Install, OperationKey, ExistingDeployment, NewKey,
         Current, TestBacked, ApprovalBacked;
    var r := RollbackProduction(s, id, deployment, actor, key, binding, now);
    ExtendsRefl(s);
    if r.0 != s {
      var target := FindDeployment(s.deployments, deployment).value;
      var i :| 0 <= i < |s.deployments| && s.deployments[i] == target;
      assert DeploymentBacked(s, s.deployments[i]);
      NoExistingMeansNew(s, OperationKey(PRODUCTION_ROLLBACK, key));
      InstallKeeps(s, hash, workflow, r.1.value, ProductionRollback(id, IdOf(Current(s, Production)), deployment));
    }
  }

  lemma StepKeeps(s: Shelf, hash: Hasher, workflow: nat, op: Op)
    requires Inv(s, hash, workflow)
    ensures Inv(Step(s, hash, workflow, op), hash, workflow) && Extends(s, Step(s, hash, workflow, op))
  {
    hide Inv, Extends, UpdateDraft, SetStatus, Publish, DeploySandbox, RunTests, RequestApproval, DecideApproval, DeployProduction,
         RollbackProduction;
    match op
    case EditDraft(draft, actor) => DraftKeeps(s, hash, workflow, draft, actor);
    case ChangeStatus(status, actor) => StatusKeeps(s, hash, workflow, status, actor);
    case PublishVersion(template, actor, key) => PublishKeeps(s, hash, workflow, template, actor, key);
    case ToSandbox(id, version, actor, key, binding, now) =>
      SandboxKeeps(s, hash, workflow, id, version, actor, key, binding, now);
    case Test(id, version, deployment, actor, key, binding, passed) =>
      TestsKeep(s, hash, workflow, id, version, deployment, actor, key, binding, passed);
    case Request(id, version, testRun, approver, actor, key) =>
      RequestKeeps(s, hash, workflow, id, version, testRun, approver, actor, key);
    case Decide(approval, actor, approve) => DecideKeeps(s, hash, workflow, approval, actor, approve);
    case ToProduction(id, version, testRun, approval, actor, key, binding, now) =>
      ProductionKeeps(s, hash, workflow, id, version, testRun, approval, actor, key, binding, now);
    case Rollback(id, deployment, actor, key, binding, now) =>
      RollbackKeeps(s, hash, workflow, id, deployment, actor, key, binding, now);
  }
}
