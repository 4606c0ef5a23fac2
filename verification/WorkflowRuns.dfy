/**
 What holds of one workflow's tables after any sequence of transactions.
 */
module WorkflowRuns {
  import opened Prelude
  import opened WorkflowShelf
  import opened WorkflowSafety

  function Run(s: Shelf, hash: Hasher, workflow: nat, ops: seq<Op>): Shelf
    decreases |ops|
  {
    if ops == [] then s else Run(Step(s, hash, workflow, ops[0]), hash, workflow, ops[1..])
  }

  // ----- safety of every run -----

  lemma NewShelfIsSafe(hash: Hasher, workflow: nat, owner: string, draft: Draft, actor: string)
    ensures Inv(NewShelf(owner, draft, actor), hash, workflow)
  {
  }

  lemma AgedTrans(d: Deployment, d1: Deployment, d2: Deployment)
    requires Aged(d, d1) && Aged(d1, d2)
    ensures Aged(d, d2)
  {
  }

  lemma ExtendsTrans(s: Shelf, s1: Shelf, s2: Shelf)
    requires Extends(s, s1) && Extends(s1, s2)
    ensures Extends(s, s2)
  {
    hide Aged, Decided;
    assert DeploymentsAge(s.deployments, s2.deployments) by {
      forall i | 0 <= i < |s.deployments|
        ensures Aged(s.deployments[i], s2.deployments[i])
      {
        AgedTrans(s.deployments[i], s1.deployments[i], s2.deployments[i]);
      }
    }
    assert ApprovalsStay(s.approvals, s2.approvals) by {
      forall a | a in s.approvals
        ensures a in s2.approvals && Decided(s.approvals[a], s2.approvals[a])
      {
        DecidedTrans(s.approvals[a], s1.approvals[a], s2.approvals[a]);
      }
    }
  }

  lemma DecidedTrans(a: Approval, a1: Approval, a2: Approval)
    requires Decided(a, a1) && Decided(a1, a2)
    ensures Decided(a, a2)
  {
  }

  lemma {:induction false} RunKeeps(s: Shelf, hash: Hasher, workflow: nat, ops: seq<Op>)
    requires Inv(s, hash, workflow)
    ensures Inv(Run(s, hash, workflow, ops), hash, workflow) && Extends(s, Run(s, hash, workflow, ops))
    decreases |ops|
  {
    hide Inv, Extends, Step;
    if ops == [] {
      ExtendsRefl(s);
    } else {
      var s1 := Step(s, hash, workflow, ops[0]);
      StepKeeps(s, hash, workflow, ops[0]);
      RunKeeps(s1, hash, workflow, ops[1..]);
      ExtendsTrans(s, s1, Run(s1, hash, workflow, ops[1..]));
    }
  }

  /** No production deployment of any run lacks its passing tests or its independent approval. */
  lemma EveryProductionDeploymentIsCleared(
      hash: Hasher, workflow: nat, owner: string, draft: Draft, creator: string, ops: seq<Op>, d: Deployment)
    requires d in Run(NewShelf(owner, draft, creator), hash, workflow, ops).deployments
    requires d.environment == Production && d.status != Failed
    ensures Cleared(Run(NewShelf(owner, draft, creator), hash, workflow, ops), d)
  {
    hide Cleared, Run;
    var s := Run(NewShelf(owner, draft, creator), hash, workflow, ops);
    NewShelfIsSafe(hash, workflow, owner, draft, creator);
    RunKeeps(NewShelf(owner, draft, creator), hash, workflow, ops);
    var i :| 0 <= i < |s.deployments| && s.deployments[i] == d;
    assert DeploymentBacked(s, s.deployments[i]);
  }

  /** At most one deployment is live per environment, and it is the last that did not fail. */
  lemma OneLiveDeploymentPerEnvironment(
      hash: Hasher, workflow: nat, owner: string, draft: Draft, creator: string, ops: seq<Op>, i: nat, j: nat)
    requires i < |Run(NewShelf(owner, draft, creator), hash, workflow, ops).deployments|
    requires j < |Run(NewShelf(owner, draft, creator), hash, workflow, ops).deployments|
    requires var ds := Run(NewShelf(owner, draft, creator), hash, workflow, ops).deployments;
             ds[i].status == Live && ds[j].environment == ds[i].environment && ds[j].status != Failed
    ensures j <= i && (i != j ==> Run(NewShelf(owner, draft, creator), hash, workflow, ops).deployments[j].status != Live)
  {
    NewShelfIsSafe(hash, workflow, owner, draft, creator);
    RunKeeps(NewShelf(owner, draft, creator), hash, workflow, ops);
  }

  /** If anything is live in an environment, it is the last deployment there that did not fail. */
  lemma LiveIsTheLastNonFailed(
      hash: Hasher, workflow: nat, owner: string, draft: Draft, creator: string, ops: seq<Op>, environment: Environment, i: nat)
    requires var s := Run(NewShelf(owner, draft, creator), hash, workflow, ops);
             && Current(s, environment).Some?
             && i < |s.deployments| && s.deployments[i].environment == environment && s.deployments[i].status != Failed
             && forall j :: i < j < |s.deployments| && s.deployments[j].environment == environment ==> s.deployments[j].status == Failed
    ensures var s := Run(NewShelf(owner, draft, creator), hash, workflow, ops);
            Current(s, environment) == Some(s.deployments[i])
  {
    hide Run, Inv, Current;
    NewShelfIsSafe(hash, workflow, owner, draft, creator);
    RunKeeps(NewShelf(owner, draft, creator), hash, workflow, ops);
    LiveIsLastNonFailed(Run(NewShelf(owner, draft, creator), hash, workflow, ops), hash, workflow, environment, i);
  }

  /** A disabled workflow has nothing live. */
  lemma DisabledServesNothing(
      hash: Hasher, workflow: nat, owner: string, draft: Draft, creator: string, ops: seq<Op>, environment: Environment)
    requires Run(NewShelf(owner, draft, creator), hash, workflow, ops).status == Disabled
    ensures Current(Run(NewShelf(owner, draft, creator), hash, workflow, ops), environment) == None
  {
    NewShelfIsSafe(hash, workflow, owner, draft, creator);
    RunKeeps(NewShelf(owner, draft, creator), hash, workflow, ops);
  }

  /** `run_tests` never looks at the status, yet on a disabled workflow it does nothing but replay a recorded key. */
  lemma DisabledNeverTests(s: Shelf, hash: Hasher, workflow: nat, id: RowId, version: nat, deployment: RowId, actor: string,
                           key: Option<string>, binding: Binding, passed: bool)
    requires Inv(s, hash, workflow) && s.status == Disabled
    ensures var r := RunTests(s, id, version, deployment, actor, key, binding, passed);
            r.0 == s && (r.1.Ok? <==> CleanKey(key).Some? && CleanKey(key).value in s.testKeys)
  {
    hide VersionsSealed, AllBacked, CleanKey, KeysUnique, IdsDistinct, LiveIsLast;
    IndexIsTotal(s.testKeys, s.tests.Keys);
  }

  // ----- versions -----

  /** A version, once published, is found unchanged for ever, whatever becomes of the draft. */
  lemma VersionsAreForever(s: Shelf, hash: Hasher, workflow: nat, ops: seq<Op>, n: nat)
    requires Inv(s, hash, workflow) && 1 <= n <= |s.versions|
    ensures |s.versions| <= |Run(s, hash, workflow, ops).versions|
    ensures FindVersion(Run(s, hash, workflow, ops).versions, n) == Some(s.versions[n - 1])
    ensures s.versions[n - 1].version == n
  {
    RunKeeps(s, hash, workflow, ops);
    VersionIsAtItsNumber(s, hash, workflow, n);
    VersionIsAtItsNumber(Run(s, hash, workflow, ops), hash, workflow, n);
  }

  lemma VersionIsAtItsNumber(s: Shelf, hash: Hasher, workflow: nat, n: nat)
    requires VersionsSealed(s.versions, hash, workflow)
    ensures FindVersion(s.versions, n) == if 1 <= n <= |s.versions| then Some(s.versions[n - 1]) else None
  {
    if 1 <= n <= |s.versions| {
      assert s.versions[n - 1] in s.versions && s.versions[n - 1].version == n;
      FoundVersion(s, hash, workflow, n);
    } else if FindVersion(s.versions, n).Some? {
      FoundVersion(s, hash, workflow, n);
    }
  }

  /** A publication with a new key gets the next number, and freezes the draft of that moment. */
  lemma PublishFreezesTheDraft(s: Shelf, hash: Hasher, workflow: nat, template: Snapshot, actor: string, key: Option<string>)
    requires Inv(s, hash, workflow)
    requires CleanKey(key).Some? ==> forall v :: v in s.versions ==> v.key != CleanKey(key)
    ensures var (s', r) := Publish(s, hash, workflow, Some(template), actor, key);
            && r.Ok? && s'.versions == s.versions + [r.value]
            && r.value.version == |s.versions| + 1
            && r.value.artifact.template == template && r.value.artifact.owner == s.owner
            && r.value.createdBy == actor && r.value.key == CleanKey(key)
            && s'.audit == s.audit + [AuditRow(Some(r.value.version), Published(r.value.hash), actor)]
            && r.value.artifact.name == s.draft.name && r.value.artifact.runtime == s.draft.runtime
            && r.value.artifact.security == s.draft.security && r.value.artifact.description == s.draft.description
  {
    LatestIsCount(s, hash, workflow);
  }

  // ----- routing -----

  /** The hash is collision-free on the artifacts this workflow published. */
  ghost predicate NoCollision(versions: seq<Version>, hash: Hasher) {
    forall i, j :: 0 <= i < |versions| && 0 <= j < |versions|
                   && ContentHash(hash, versions[i].artifact) == ContentHash(hash, versions[j].artifact)
                   ==> versions[i].artifact.(contentHash := None) == versions[j].artifact.(contentHash := None)
  }

  /** The route's version was tested and approved, by content. */
  ghost predicate RouteCleared(s: Shelf, r: Route) {
    && VersionAt(s, r.version, r.hash)
    && s.versions[r.version - 1].artifact.template == r.template
    && exists i :: 0 <= i < |s.deployments| && ServedBy(s, r, s.deployments[i])
  }

  ghost predicate ServedBy(s: Shelf, r: Route, d: Deployment) {
    && d.id == r.deployment && d.environment == Production && d.status != Failed
    && d.version == r.version && d.hash == r.hash && Cleared(s, d)
  }

  /** Whatever happened between the three reads, the route that comes out is cleared. */
  lemma ReadsGiveCleared(read1: Shelf, read2: Shelf, read3: Shelf, hash: Hasher, workflow: nat, tenant: Option<string>,
                         crossTenant: bool, binding: Option<Binding>)
    requires Inv(read2, hash, workflow) && Inv(read3, hash, workflow) && Extends(read2, read3)
    requires ResolveRoute(read1, read2, read3, hash, tenant, crossTenant, binding).Ok?
    ensures RouteCleared(read3, ResolveRoute(read1, read2, read3, hash, tenant, crossTenant, binding).value)
  {
    hide VersionsSealed, IdsDistinct, KeysUnique, LiveIsLast, NothingLive, TestBacked, ApprovalBacked, LoadVersion, Cleared;
    var r := ResolveRoute(read1, read2, read3, hash, tenant, crossTenant, binding).value;
    var n := Current(read2, Production).value.version;
    LoadKeeps(hash, FindVersion(read3.versions, n).value);
    FoundVersion(read3, hash, workflow, n);
    LiveIsServed(read2, read3, r, hash, workflow);
  }

  /** So in every run, with any transactions between the reads. */
  lemma RouteServesCleared(hash: Hasher, workflow: nat, owner: string, draft: Draft, creator: string,
                           ops: seq<Op>, ops1: seq<Op>, ops2: seq<Op>, tenant: Option<string>, crossTenant: bool,
                           binding: Option<Binding>)
    requires var s := Run(NewShelf(owner, draft, creator), hash, workflow, ops);
             var s1 := Run(s, hash, workflow, ops1);
             ResolveRoute(s, s1, Run(s1, hash, workflow, ops2), hash, tenant, crossTenant, binding).Ok?
    ensures var s := Run(NewShelf(owner, draft, creator), hash, workflow, ops);
            var s1 := Run(s, hash, workflow, ops1);
            var s2 := Run(s1, hash, workflow, ops2);
            RouteCleared(s2, ResolveRoute(s, s1, s2, hash, tenant, crossTenant, binding).value)
  {
    hide Inv, Extends, Run, ResolveRoute, RouteCleared;
    var s := Run(NewShelf(owner, draft, creator), hash, workflow, ops);
    var s1 := Run(s, hash, workflow, ops1);
    NewShelfIsSafe(hash, workflow, owner, draft, creator);
    RunKeeps(NewShelf(owner, draft, creator), hash, workflow, ops);
    RunKeeps(s, hash, workflow, ops1);
    RunKeeps(s1, hash, workflow, ops2);
    ReadsGiveCleared(s, s1, Run(s1, hash, workflow, ops2), hash, workflow, tenant, crossTenant, binding);
  }

  lemma ExtendsKeepsRoute(s: Shelf, s': Shelf, r: Route)
    requires Extends(s, s') && RouteCleared(s, r)
    ensures RouteCleared(s', r)
  {
    hide Cleared;
    ExtendsKeepsVersion(s, s', r.version, r.hash);
    assert s'.versions[r.version - 1] == s.versions[r.version - 1];
    var i :| 0 <= i < |s.deployments| && ServedBy(s, r, s.deployments[i]);
    assert Aged(s.deployments[i], s'.deployments[i]);
    ExtendsKeepsCleared(s, s', s.deployments[i]);
    assert Cleared(s', s'.deployments[i]) by { ClearedByRows(s', s.deployments[i], s'.deployments[i]); }
    assert ServedBy(s', r, s'.deployments[i]);
  }

  lemma ClearedByRows(s: Shelf, d: Deployment, d': Deployment)
    requires Cleared(s, d) && d'.testRun == d.testRun && d'.approval == d.approval && d'.hash == d.hash
    ensures Cleared(s, d')
  {
  }

  lemma LoadKeeps(hash: Hasher, v: Version)
    ensures LoadVersion(hash, v).Ok? ==> LoadVersion(hash, v).value == v
  {
  }

  lemma LiveIsServed(s1: Shelf, s2: Shelf, r: Route, hash: Hasher, workflow: nat)
    requires Inv(s1, hash, workflow) && Extends(s1, s2)
    requires Current(s1, Production).Some?
    requires var c := Current(s1, Production).value; c.id == r.deployment && c.version == r.version && c.hash == r.hash
    ensures exists i :: 0 <= i < |s2.deployments| && ServedBy(s2, r, s2.deployments[i])
  {
    hide VersionsSealed, IdsDistinct, KeysUnique, LiveIsLast, NothingLive, TestBacked, ApprovalBacked;
    var c := Current(s1, Production).value;
    var i :| 0 <= i < |s1.deployments| && s1.deployments[i] == c;
    assert DeploymentBacked(s1, s1.deployments[i]);
    assert Aged(s1.deployments[i], s2.deployments[i]);
    ExtendsKeepsCleared(s1, s2, c);
    assert ServedBy(s2, r, s2.deployments[i]);
  }

  /** Without collisions, the very artifact that is served is the one that was tested and approved. */
  lemma ServedArtifactIsTheTestedOne(s: Shelf, hash: Hasher, workflow: nat, r: Route)
    requires Inv(s, hash, workflow) && NoCollision(s.versions, hash) && RouteCleared(s, r)
    ensures exists d: Deployment ::
              && ServedBy(s, r, d)
              && s.tests[d.testRun.value].passed && s.tests[d.testRun.value].version == r.version
              && s.approvals[d.approval.value].decision == Approved && s.approvals[d.approval.value].version == r.version
  {
    hide IdsDistinct, KeysUnique, LiveIsLast, NothingLive, VersionsSealed, NoCollision;
    var i :| 0 <= i < |s.deployments| && ServedBy(s, r, s.deployments[i]);
    var d := s.deployments[i];
    var t, a := s.tests[d.testRun.value], s.approvals[d.approval.value];
    assert TestBacked(s, t) && ApprovalBacked(s, a);
    SameHashSameVersion(s, hash, workflow, t.version, r.version, r.hash);
    SameHashSameVersion(s, hash, workflow, a.version, r.version, r.hash);
  }

  lemma SameHashSameVersion(s: Shelf, hash: Hasher, workflow: nat, m: nat, n: nat, h: string)
    requires VersionsSealed(s.versions, hash, workflow) && NoCollision(s.versions, hash)
    requires VersionAt(s, m, h) && VersionAt(s, n, h)
    ensures m == n
  {
    assert Sealed(s.versions[m - 1], hash, workflow) && Sealed(s.versions[n - 1], hash, workflow);
    assert s.versions[m - 1].artifact.(contentHash := None) == s.versions[n - 1].artifact.(contentHash := None);
  }

  /**
   Resolving at one moment succeeds exactly for a permitted caller of a workflow
   with a live deployment on the configured binding: the integrity errors cannot
   happen, nor can a live deployment of a disabled workflow.
   */
  lemma RouteIsExactly(s: Shelf, hash: Hasher, workflow: nat, tenant: Option<string>, crossTenant: bool, binding: Option<Binding>)
    requires Inv(s, hash, workflow) && forall a: Artifact :: hash(a) != ""
    ensures var r := ResolveRoute(s, s, s, hash, tenant, crossTenant, binding);
            var live := Current(s, Production);
            && (r.Ok? <==>
                && (tenant == None || tenant == Some(s.owner) || crossTenant)
                && live.Some? && binding.Some? && live.value.fingerprint == binding.value.fingerprint)
            && (r.Ok? ==> r.value.deployment == live.value.id && r.value.version == live.value.version
                          && r.value.hash == live.value.hash && r.value.owner == s.owner
                          && r.value.template == s.versions[live.value.version - 1].artifact.template)
            && (r.Err? ==>
                r.error == if tenant != None && tenant != Some(s.owner) && !crossTenant then NotOwned
                           else if s.status == Disabled then NotActive
                           else if live.None? then NoDeployment
                           else if binding.None? then NoBinding
                           else BindingMismatch)
  {
    hide IdsDistinct, KeysUnique, LiveIsLast, AllBacked, VersionsSealed;
    var live := Current(s, Production);
    if live.Some? {
      LiveVersionLoads(s, hash, workflow);
    }
  }

  lemma LiveVersionLoads(s: Shelf, hash: Hasher, workflow: nat)
    requires Inv(s, hash, workflow) && Current(s, Production).Some? && forall a: Artifact :: hash(a) != ""
    ensures var live := Current(s, Production).value;
            var v := FindVersion(s.versions, live.version);
            && 1 <= live.version <= |s.versions|
            && v == Some(s.versions[live.version - 1])
            && LoadVersion(hash, v.value) == Ok(v.value)
            && v.value.hash == live.hash
            && s.status == Active
  {
    hide IdsDistinct, KeysUnique, LiveIsLast, TestBacked, ApprovalBacked, Cleared;
    var live := Current(s, Production).value;
    var i :| 0 <= i < |s.deployments| && s.deployments[i] == live;
    assert DeploymentBacked(s, s.deployments[i]);
    VersionIsAtItsNumber(s, hash, workflow, live.version);
  }
}
