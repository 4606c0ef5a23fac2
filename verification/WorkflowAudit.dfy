/**
 The audit trail of a workflow is enough to tell, after any run, which deployment
 is live in each environment.
 */
module WorkflowAudit {
  import opened Prelude
  import opened Text
  import opened WorkflowShelf
  import opened WorkflowSafety
  import opened WorkflowRuns

  /** Who sits where, as far as the audit rows read so far can tell. */
  datatype Seats = Seats(sandbox: Option<RowId>, production: Option<RowId>)
  {
    function At(environment: Environment): Option<RowId> {
      if environment == Sandbox then sandbox else production
    }

    function Take(environment: Environment, d: RowId): Seats {
      if environment == Sandbox then this.(sandbox := Some(d)) else this.(production := Some(d))
    }
  }

  const VACANT := Seats(None, None)

  function Vacate(seat: Option<RowId>, d: RowId): Option<RowId> {
    if seat == Some(d) then None else seat
  }

  function ReadAction(seats: Seats, action: Action): Seats {
    match action
    case SandboxActive(d) => seats.Take(Sandbox, d)
    case ProductionActive(d) => seats.Take(Production, d)
    case ProductionRollback(d, _, _) => seats.Take(Production, d)
    case DeploymentDisabled(d) => Seats(Vacate(seats.sandbox, d), Vacate(seats.production, d))
    case _ => seats
  }

  function ReadTrail(seats: Seats, audit: seq<AuditRow>): Seats {
    if audit == [] then seats
    else ReadAction(ReadTrail(seats, audit[..|audit| - 1]), audit[|audit| - 1].action)
  }

  ghost predicate TrailAgrees(s: Shelf) {
    forall environment :: ReadTrail(VACANT, s.audit).At(environment) == IdOf(Current(s, environment))
  }

  lemma {:induction false} TrailConcat(seats: Seats, a: seq<AuditRow>, b: seq<AuditRow>)
    ensures ReadTrail(seats, a + b) == ReadTrail(ReadTrail(seats, a), b)
  {
    if b == [] {
      assert a + b == a;
    } else {
      TrailConcat(seats, a, b[..|b| - 1]);
      assert (a + b)[..|a + b| - 1] == a + b[..|b| - 1];
    }
  }

  lemma TrailAppend(seats: Seats, a: seq<AuditRow>, row: AuditRow)
    ensures ReadTrail(seats, a + [row]) == ReadAction(ReadTrail(seats, a), row.action)
  {
    assert (a + [row])[..|a + [row]| - 1] == a;
  }

  // ----- the live deployment of a changed table -----

  /** The environment's live row is where it was, unchanged. */
  ghost predicate SameLive(ds: seq<Deployment>, ds': seq<Deployment>, environment: Environment) {
    && |ds| <= |ds'|
    && (forall i :: 0 <= i < |ds| && IsLive(ds[i], environment) ==> ds'[i] == ds[i])
    && (forall i :: 0 <= i < |ds'| && IsLive(ds'[i], environment) ==> i < |ds| && ds[i] == ds'[i])
  }

  lemma SameLiveSameCurrent(s: Shelf, s': Shelf, environment: Environment)
    requires LiveIsLast(s'.deployments) && SameLive(s.deployments, s'.deployments, environment)
    ensures Current(s', environment) == Current(s, environment)
  {
    var c := Current(s, environment);
    if c.Some? {
      var i :| 0 <= i < |s.deployments| && s.deployments[i] == c.value;
      CurrentIsTheLiveOne(s', i);
    }
  }

  // ----- each kind of change -----

  predicate Neutral(action: Action) {
    !action.SandboxActive? && !action.ProductionActive? && !action.ProductionRollback? && !action.DeploymentDisabled?
  }

  lemma NeutralRowAgrees(s: Shelf, s': Shelf, row: AuditRow)
    requires TrailAgrees(s) && Neutral(row.action) && s'.audit == s.audit + [row]
    requires forall environment :: Current(s', environment) == Current(s, environment)
    ensures TrailAgrees(s')
  {
    TrailAppend(VACANT, s.audit, row);
  }

  lemma UntouchedAgrees(s: Shelf, s': Shelf, row: AuditRow)
    requires TrailAgrees(s) && Neutral(row.action) && s'.audit == s.audit + [row]
    requires s'.deployments == s.deployments && LiveIsLast(s.deployments)
    ensures TrailAgrees(s')
  {
    forall environment
      ensures Current(s', environment) == Current(s, environment)
    {
      SameLiveSameCurrent(s, s', environment);
    }
    NeutralRowAgrees(s, s', row);
  }

  predicate Announces(action: Action, d: Deployment) {
    || (d.environment == Sandbox && action == SandboxActive(d.id))
    || (d.environment == Production && action == ProductionActive(d.id))
    || (d.environment == Production && action.ProductionRollback? && action.deployment == d.id)
  }

  lemma InstallAgrees(s: Shelf, hash: Hasher, workflow: nat, d: Deployment, action: Action)
    requires Inv(s, hash, workflow) && TrailAgrees(s) && Inv(Install(s, d, action), hash, workflow)
    requires d.status == Live && d.previous == IdOf(Current(s, d.environment)) && Announces(action, d)
    ensures TrailAgrees(Install(s, d, action))
  {
    hide VersionsSealed, AllBacked, KeysUnique, ReadTrail, Current;
    var s' := Install(s, d, action);
    TrailAppend(VACANT, s.audit, AuditRow(Some(d.version), action, d.actor));
    assert s'.deployments[|s.deployments|] == d;
    CurrentIsTheLiveOne(s', |s.deployments|);
    var other := if d.environment == Sandbox then Production else Sandbox;
    SupersedeEnds(s, d.environment);
    SameLiveSameCurrent(s, s', other);
    forall environment
      ensures ReadTrail(VACANT, s'.audit).At(environment) == IdOf(Current(s', environment))
    {
      assert environment == d.environment || environment == other;
    }
  }

  ghost predicate HasLive(ds: seq<Deployment>, id: RowId) {
    exists i :: 0 <= i < |ds| && ds[i].status == Live && ds[i].id == id
  }

  lemma HasLiveAppend(ds: seq<Deployment>, d: Deployment, id: RowId)
    ensures HasLive(ds + [d], id) <==> HasLive(ds, id) || (d.status == Live && d.id == id)
  {
    var ds' := ds + [d];
    if HasLive(ds, id) {
      var i :| 0 <= i < |ds| && ds[i].status == Live && ds[i].id == id;
      assert ds'[i] == ds[i];
    }
    if d.status == Live && d.id == id {
      assert ds'[|ds|] == d;
    }
  }

  function VacateAll(seat: Option<RowId>, vacated: bool): Option<RowId> {
    if seat.Some? && vacated then None else seat
  }

  ghost predicate SeatIsLive(ds: seq<Deployment>, seat: Option<RowId>) {
    seat.Some? && HasLive(ds, seat.value)
  }

  lemma {:induction false} DisableRowsVacate(seats: Seats, ds: seq<Deployment>, actor: string, environment: Environment)
    ensures ReadTrail(seats, DisableRows(ds, actor)).At(environment)
         == VacateAll(seats.At(environment), SeatIsLive(ds, seats.At(environment)))
  {
    hide HasLive, DisableRows, ReadTrail;
    if ds == [] {
      NothingToDisable(seats, actor);
    } else {
      var front, d := ds[..|ds| - 1], ds[|ds| - 1];
      var seat := seats.At(environment);
      DisableRowsVacate(seats, front, actor, environment);
      assert ds == front + [d];
      DisableRowsGrow(seats, front, d, actor);
      SeatIsLiveGrows(front, d, seat);
    }
  }

  lemma NothingToDisable(seats: Seats, actor: string)
    ensures ReadTrail(seats, DisableRows([], actor)) == seats
    ensures forall id :: !HasLive([], id)
  {
  }

  lemma SeatIsLiveGrows(front: seq<Deployment>, d: Deployment, seat: Option<RowId>)
    ensures SeatIsLive(front + [d], seat) <==> SeatIsLive(front, seat) || (d.status == Live && seat == Some(d.id))
  {
    hide HasLive;
    if seat.Some? {
      HasLiveAppend(front, d, seat.value);
    }
  }

  lemma DisableRowsGrow(seats: Seats, front: seq<Deployment>, d: Deployment, actor: string)
    ensures ReadTrail(seats, DisableRows(front + [d], actor))
         == var seen := ReadTrail(seats, DisableRows(front, actor));
            if d.status == Live then ReadAction(seen, DeploymentDisabled(d.id)) else seen
  {
    assert (front + [d])[..|front + [d]| - 1] == front;
    if d.status == Live {
      TrailAppend(seats, DisableRows(front, actor), AuditRow(Some(d.version), DeploymentDisabled(d.id), actor));
    } else {
      assert DisableRows(front, actor) + [] == DisableRows(front, actor);
    }
  }

  lemma DisableAgrees(s: Shelf, hash: Hasher, workflow: nat, actor: string)
    requires Inv(s, hash, workflow) && TrailAgrees(s)
    requires Inv(SetStatus(s, Disabled, actor), hash, workflow)
    ensures TrailAgrees(SetStatus(s, Disabled, actor))
  {
    hide VersionsSealed, AllBacked, KeysUnique, ReadTrail, DisableRows, HasLive;
    var s' := SetStatus(s, Disabled, actor);
    var rows := DisableRows(s.deployments, actor);
    TrailConcat(VACANT, s.audit, rows);
    TrailAppend(VACANT, s.audit + rows, AuditRow(None, StatusSet(Disabled), actor));
    forall environment
      ensures ReadTrail(VACANT, s'.audit).At(environment) == IdOf(Current(s', environment))
    {
      DisableRowsVacate(ReadTrail(VACANT, s.audit), s.deployments, actor, environment);
      CurrentIsLive(s, environment);
    }
  }

  lemma CurrentIsLive(s: Shelf, environment: Environment)
    ensures Current(s, environment).Some? ==> HasLive(s.deployments, Current(s, environment).value.id)
  {
    if Current(s, environment).Some? {
      var i :| 0 <= i < |s.deployments| && s.deployments[i] == Current(s, environment).value;
      assert s.deployments[i].status == Live;
    }
  }

  // ----- every transaction -----

  lemma StatusAgrees(s: Shelf, hash: Hasher, workflow: nat, status: Status, actor: string)
    requires Inv(s, hash, workflow) && TrailAgrees(s)
    ensures TrailAgrees(SetStatus(s, status, actor))
  {
    hide TrailAgrees, VersionsSealed, AllBacked, KeysUnique;
    if status == Disabled {
      StatusKeeps(s, hash, workflow, status, actor);
      DisableAgrees(s, hash, workflow, actor);
    } else {
      UntouchedAgrees(s, SetStatus(s, status, actor), AuditRow(None, StatusSet(status), actor));
    }
  }

  lemma SandboxAgrees(s: Shelf, hash: Hasher, workflow: nat, id: RowId, version: nat, actor: string, key: Option<string>,
                      binding: Binding, now: nat)
    requires Inv(s, hash, workflow) && TrailAgrees(s)
    ensures TrailAgrees(DeploySandbox(s, id, version, actor, key, binding, now).0)
  {
    hide TrailAgrees, Inv, Install, OperationKey, ExistingDeployment, Current;
    var r := DeploySandbox(s, id, version, actor, key, binding, now);
    SandboxKeeps(s, hash, workflow, id, version, actor, key, binding, now);
    if r.0 != s {
      InstallAgrees(s, hash, workflow, r.1.value, SandboxActive(id));
    }
  }

  lemma ProductionAgrees(s: Shelf, hash: Hasher, workflow: nat, id: RowId, version: nat, testRun: RowId, approval: RowId,
                         actor: string, key: Option<string>, binding: Option<Binding>, now: nat)
    requires Inv(s, hash, workflow) && TrailAgrees(s)
    ensures TrailAgrees(DeployProduction(s, hash, id, version, testRun, approval, actor, key, binding, now).0)
  {
    hide TrailAgrees, Inv, Install, OperationKey, ExistingDeployment, Current, ProductionChecks;
    var r := DeployProduction(s, hash, id, version, testRun, approval, actor, key, binding, now);
    ProductionKeeps(s, hash, workflow, id, version, testRun, approval, actor, key, binding, now);
    if r.0 != s {
      if r.1.Ok? {
        InstallAgrees(s, hash, workflow, r.1.value, ProductionActive(id));
      } else {
        assert LiveIsLast(r.0.deployments) by { InvLast(r.0, hash, workflow); }
        forall environment
          ensures Current(r.0, environment) == Current(s, environment)
        {
          SameLiveSameCurrent(s, r.0, environment);
        }
        NeutralRowAgrees(s, r.0, AuditRow(Some(version), ProductionFailed(id), actor));
      }
    }
  }

  lemma InvLast(s: Shelf, hash: Hasher, workflow: nat)
    requires Inv(s, hash, workflow)
    ensures LiveIsLast(s.deployments)
  {
  }

  lemma RollbackAgrees(s: Shelf, hash: Hasher, workflow: nat, id: RowId, deployment: RowId, actor: string,
                       key: Option<string>, binding: Option<Binding>, now: nat)
    requires Inv(s, hash, workflow) && TrailAgrees(s)
    ensures TrailAgrees(RollbackProduction(s, id, deployment, actor, key, binding, now).0)
  {
    hide TrailAgrees, Inv, Install, OperationKey, ExistingDeployment, Current;
    var r := RollbackProduction(s, id, deployment, actor, key, binding, now);
    RollbackKeeps(s, hash, workflow, id, deployment, actor, key, binding, now);
    if r.0 != s {
      InstallAgrees(s, hash, workflow, r.1.value, ProductionRollback(id, IdOf(Current(s, Production)), deployment));
    }
  }

  /** The operations that leave the deployments alone add at most one row, about something else. */
  lemma OthersAgree(s: Shelf, hash: Hasher, workflow: nat, op: Op)
    requires Inv(s, hash, workflow) && TrailAgrees(s)
    requires op.EditDraft? || op.PublishVersion? || op.Test? || op.Request? || op.Decide?
    ensures TrailAgrees(Step(s, hash, workflow, op))
  {
    hide TrailAgrees, Inv, CleanKey, Strip, FindVersion, FindDeployment, LatestVersion, BuildArtifact, LoadVersion;
    var s' := Step(s, hash, workflow, op);
    InvLast(s, hash, workflow);
    if s' != s {
      UntouchedAgrees(s, s', s'.audit[|s.audit|]);
    }
  }

  lemma StepAgrees(s: Shelf, hash: Hasher, workflow: nat, op: Op)
    requires Inv(s, hash, workflow) && TrailAgrees(s)
    ensures TrailAgrees(Step(s, hash, workflow, op))
  {
    hide TrailAgrees, Inv, SetStatus, DeploySandbox, DeployProduction, RollbackProduction;
    match op
    case ChangeStatus(status, actor) => StatusAgrees(s, hash, workflow, status, actor);
    case ToSandbox(id, version, actor, key, binding, now) =>
      SandboxAgrees(s, hash, workflow, id, version, actor, key, binding, now);
    case ToProduction(id, version, testRun, approval, actor, key, binding, now) =>
      ProductionAgrees(s, hash, workflow, id, version, testRun, approval, actor, key, binding, now);
    case Rollback(id, deployment, actor, key, binding, now) =>
      RollbackAgrees(s, hash, workflow, id, deployment, actor, key, binding, now);
    case _ => OthersAgree(s, hash, workflow, op);
  }

  lemma {:induction false} RunAgrees(s: Shelf, hash: Hasher, workflow: nat, ops: seq<Op>)
    requires Inv(s, hash, workflow) && TrailAgrees(s)
    ensures TrailAgrees(Run(s, hash, workflow, ops))
    decreases |ops|
  {
    hide Inv, TrailAgrees, Step;
    if ops != [] {
      StepKeeps(s, hash, workflow, ops[0]);
      StepAgrees(s, hash, workflow, ops[0]);
      RunAgrees(Step(s, hash, workflow, ops[0]), hash, workflow, ops[1..]);
    }
  }

  /** Reading the audit trail from the start tells which deployment is live in each environment. */
  lemma AuditTellsWhatIsLive(hash: Hasher, workflow: nat, owner: string, draft: Draft, creator: string, ops: seq<Op>)
    ensures var s := Run(NewShelf(owner, draft, creator), hash, workflow, ops);
            ReadTrail(VACANT, s.audit) == Seats(IdOf(Current(s, Sandbox)), IdOf(Current(s, Production)))
  {
    hide Run;
    var s0 := NewShelf(owner, draft, creator);
    NewShelfIsSafe(hash, workflow, owner, draft, creator);
    assert TrailAgrees(s0) by { TrailAppend(VACANT, [], s0.audit[0]); assert [] + s0.audit == s0.audit; }
    RunAgrees(s0, hash, workflow, ops);
    var s := Run(s0, hash, workflow, ops);
    assert ReadTrail(VACANT, s.audit).At(Sandbox) == IdOf(Current(s, Sandbox));
    assert ReadTrail(VACANT, s.audit).At(Production) == IdOf(Current(s, Production));
  }
}
