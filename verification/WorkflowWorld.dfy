/**
 All workflows together, and the interview sessions that were routed to them.
 */
module WorkflowWorld {
  import opened Prelude
  import opened Text
  import opened WorkflowShelf
  import opened WorkflowSafety
  import opened WorkflowRuns

  /** A session row keeps the route it was started with, template included. */
  datatype Session = Session(workflow: nat, route: Route)

  /** A session start in progress: what it has read of its workflow so far. */
  datatype Attempt = Attempt(workflow: nat, seen: seq<Shelf>)

  /** `ids` are the primary keys in use, `homes` the workflow column of the approvals table. */
  datatype World = World(
    shelves: map<nat, Shelf>, ids: set<RowId>, homes: map<RowId, nat>,
    attempts: map<nat, Attempt>, sessions: map<nat, Session>)

  datatype WorldOp =
    | Create(workflow: nat, owner: string, draft: Draft, actor: string)
    | On(workflow: nat, op: Op)
    | DecideAnywhere(approval: RowId, actor: string, approve: bool)
    | BeginStart(attempt: nat, workflow: nat)
    | Look(attempt: nat)
    | InsertSession(attempt: nat, session: nat, tenant: Option<string>, crossTenant: bool, binding: Option<Binding>)

  const EMPTY := World(map[], {}, map[], map[], map[])

  ghost predicate NameTaken(shelves: map<nat, Shelf>, except: nat, owner: string, name: string) {
    exists w :: w in shelves && w != except && shelves[w].owner == owner && shelves[w].draft.name == name
  }

  ghost function CreateWorkflow(world: World, workflow: nat, owner: string, draft: Draft, actor: string): World {
    if workflow in world.shelves || NameTaken(world.shelves, workflow, owner, draft.name) then world
    else world.(shelves := world.shelves[workflow := NewShelf(owner, draft, actor)])
  }

  ghost function StepOn(world: World, hash: Hasher, w: nat, op: Op): World {
    if w !in world.shelves then world
    else if op.EditDraft? && NameTaken(world.shelves, w, world.shelves[w].owner, op.draft.name) then world
    else
      var s := Step(world.shelves[w].(ids := world.ids), hash, w, op);
      world.(shelves := world.shelves[w := s], ids := s.ids, homes := world.homes + map a | a in s.approvals :: w)
  }

  /** `decide_approval` finds the workflow by the approval. */
  ghost function Decision(world: World, hash: Hasher, approval: RowId, actor: string, approve: bool): World {
    if approval in world.homes then StepOn(world, hash, world.homes[approval], Decide(approval, actor, approve)) else world
  }

  ghost function LookAgain(world: World, attempt: nat): World {
    if attempt !in world.attempts || world.attempts[attempt].workflow !in world.shelves then world
    else
      var a := world.attempts[attempt];
      world.(attempts := world.attempts[attempt := a.(seen := a.seen + [world.shelves[a.workflow]])])
  }

  ghost function InsertRouted(world: World, hash: Hasher, attempt: nat, session: nat, tenant: Option<string>,
                              crossTenant: bool, binding: Option<Binding>): World
  {
    if attempt !in world.attempts || |world.attempts[attempt].seen| < 3 || session in world.sessions then world
    else
      var a := world.attempts[attempt];
      var r := ResolveRoute(a.seen[0], a.seen[1], a.seen[2], hash, tenant, crossTenant, binding);
      if r.Err? then world else world.(sessions := world.sessions[session := Session(a.workflow, r.value)])
  }

  ghost function WorldStep(world: World, hash: Hasher, op: WorldOp): World {
    match op
    case Create(w, owner, draft, actor) => CreateWorkflow(world, w, owner, draft, actor)
    case On(w, o) => StepOn(world, hash, w, o)
    case DecideAnywhere(approval, actor, approve) => Decision(world, hash, approval, actor, approve)
    case BeginStart(attempt, w) => world.(attempts := world.attempts[attempt := Attempt(w, [])])
    case Look(attempt) => LookAgain(world, attempt)
    case InsertSession(attempt, session, tenant, cross, binding) =>
      InsertRouted(world, hash, attempt, session, tenant, cross, binding)
  }

  ghost function WorldRun(world: World, hash: Hasher, ops: seq<WorldOp>): World
    decreases |ops|
  {
    if ops == [] then world else WorldRun(WorldStep(world, hash, ops[0]), hash, ops[1..])
  }

  // ----- the invariant -----

  ghost predicate ShelvesSafe(world: World, hash: Hasher) {
    forall w :: w in world.shelves ==> Inv(world.shelves[w], hash, w) && world.shelves[w].ids <= world.ids
  }

  ghost predicate NamesUnique(shelves: map<nat, Shelf>) {
    forall v, w :: v in shelves && w in shelves && v != w && shelves[v].owner == shelves[w].owner
                   ==> shelves[v].draft.name != shelves[w].draft.name
  }

  ghost predicate Housed(world: World) {
    && (forall w, a :: w in world.shelves && a in world.shelves[w].approvals ==> a in world.homes && world.homes[a] == w)
    && world.homes.Keys <= world.ids
  }

  ghost predicate SessionsCleared(world: World) {
    forall i :: i in world.sessions ==>
      world.sessions[i].workflow in world.shelves
      && RouteCleared(world.shelves[world.sessions[i].workflow], world.sessions[i].route)
  }

  /** Each look saw a sound shelf, and nothing on record went away since. */
  ghost predicate Sound(a: Attempt, world: World, hash: Hasher) {
    && (a.seen != [] ==> a.workflow in world.shelves && Extends(a.seen[|a.seen| - 1], world.shelves[a.workflow]))
    && (forall i :: 0 <= i < |a.seen| ==> Inv(a.seen[i], hash, a.workflow))
    && (forall i :: 0 < i < |a.seen| ==> Extends(a.seen[i - 1], a.seen[i]))
  }

  ghost predicate AttemptsSound(world: World, hash: Hasher) {
    forall i :: i in world.attempts ==> Sound(world.attempts[i], world, hash)
  }

  ghost predicate WorldInv(world: World, hash: Hasher) {
    && ShelvesSafe(world, hash)
    && NamesUnique(world.shelves)
    && Housed(world)
    && SessionsCleared(world)
    && AttemptsSound(world, hash)
  }

  /** Workflows only extend their records, and a session row is never rewritten. */
  ghost predicate WorldExtends(world: World, world': World) {
    && (forall w :: w in world.shelves ==> w in world'.shelves && Extends(world.shelves[w], world'.shelves[w]))
    && (forall i :: i in world.sessions ==> i in world'.sessions && world'.sessions[i] == world.sessions[i])
  }

  // ----- one step -----

  lemma MoreIdsKeep(s: Shelf, hash: Hasher, w: nat, ids: set<RowId>)
    requires Inv(s, hash, w) && s.ids <= ids
    ensures Inv(s.(ids := ids), hash, w)
  {
    var s' := s.(ids := ids);
    assert AllBacked(s') by {
      hide Cleared;
      assert Extends(s, s') by { ExtendsRefl(s); }
      ExtendsKeepsBacked(s, s');
    }
  }

  ghost predicate Framed(s: Shelf, s': Shelf) {
    && s'.owner == s.owner && s'.draft == s.draft
    && s.ids <= s'.ids
    && (forall a :: a in s'.approvals && a !in s.approvals ==> a !in s.ids && a in s'.ids)
  }

  lemma ProductionFrame(s: Shelf, hash: Hasher, id: RowId, version: nat, testRun: RowId, approval: RowId, actor: string,
                        key: Option<string>, binding: Option<Binding>, now: nat)
    ensures Framed(s, DeployProduction(s, hash, id, version, testRun, approval, actor, key, binding, now).0)
  {
    hide OperationKey, ExistingDeployment, FindVersion, Current, ProductionChecks, Supersede;
  }

  lemma TestFrame(s: Shelf, id: RowId, version: nat, deployment: RowId, actor: string, key: Option<string>,
                  binding: Binding, passed: bool)
    ensures Framed(s, RunTests(s, id, version, deployment, actor, key, binding, passed).0)
  {
    hide CleanKey, FindVersion, FindDeployment;
  }

  lemma RequestFrame(s: Shelf, id: RowId, version: nat, testRun: RowId, approver: string, actor: string, key: Option<string>)
    ensures Framed(s, RequestApproval(s, id, version, testRun, approver, actor, key).0)
  {
    hide CleanKey, Strip, FindVersion;
  }

  /** A transaction keeps the owner and, unless it edits the draft, the name; new approvals have new ids. */
  lemma StepFrame(s: Shelf, hash: Hasher, w: nat, op: Op)
    ensures if op.EditDraft? then Framed(s, Step(s, hash, w, op).(draft := s.draft)) && Step(s, hash, w, op).draft == op.draft
            else Framed(s, Step(s, hash, w, op))
  {
    hide OperationKey, CleanKey, ExistingDeployment, FindVersion, FindDeployment, Current, LatestVersion, LoadVersion, Supersede,
         RetireLive, DisableRows, DeployProduction, RunTests, RequestApproval, BuildArtifact;
    match op
    case Test(id, version, deployment, actor, key, binding, passed) =>
      TestFrame(s, id, version, deployment, actor, key, binding, passed);
    case Request(id, version, testRun, approver, actor, key) => RequestFrame(s, id, version, testRun, approver, actor, key);
    case ToProduction(id, version, testRun, approval, actor, key, binding, now) =>
      ProductionFrame(s, hash, id, version, testRun, approval, actor, key, binding, now);
    case _ =>
  }

  lemma SessionsStayCleared(world: World, world': World)
    requires SessionsCleared(world) && WorldExtends(world, world') && world'.sessions == world.sessions
    ensures SessionsCleared(world')
  {
    hide Extends, RouteCleared;
    forall i | i in world'.sessions
      ensures world'.sessions[i].workflow in world'.shelves
              && RouteCleared(world'.shelves[world'.sessions[i].workflow], world'.sessions[i].route)
    {
      var x := world.sessions[i];
      ExtendsKeepsRoute(world.shelves[x.workflow], world'.shelves[x.workflow], x.route);
    }
  }

  lemma AttemptsStaySound(world: World, world': World, hash: Hasher)
    requires AttemptsSound(world, hash) && WorldExtends(world, world') && world'.attempts == world.attempts
    ensures AttemptsSound(world', hash)
  {
    hide Extends, Inv;
    forall i | i in world'.attempts
      ensures Sound(world'.attempts[i], world', hash)
    {
      var a := world.attempts[i];
      assert Sound(a, world, hash);
      if a.seen != [] {
        ExtendsTrans(a.seen[|a.seen| - 1], world.shelves[a.workflow], world'.shelves[a.workflow]);
      }
    }
  }

  lemma CreateKeepsNames(world: World, w: nat, owner: string, draft: Draft, actor: string)
    requires NamesUnique(world.shelves)
    ensures NamesUnique(CreateWorkflow(world, w, owner, draft, actor).shelves)
  {
  }

  lemma CreateKeepsShelves(world: World, hash: Hasher, w: nat, owner: string, draft: Draft, actor: string)
    requires ShelvesSafe(world, hash) && Housed(world)
    ensures ShelvesSafe(CreateWorkflow(world, w, owner, draft, actor), hash) && Housed(CreateWorkflow(world, w, owner, draft, actor))
  {
    hide Inv, NameTaken;
    NewShelfIsSafe(hash, w, owner, draft, actor);
  }

  lemma CreateKeeps(world: World, hash: Hasher, w: nat, owner: string, draft: Draft, actor: string)
    requires WorldInv(world, hash)
    ensures WorldInv(CreateWorkflow(world, w, owner, draft, actor), hash)
    ensures WorldExtends(world, CreateWorkflow(world, w, owner, draft, actor))
  {
    hide Extends, SessionsCleared, AttemptsSound, ShelvesSafe, NamesUnique, Housed, NameTaken;
    var world' := CreateWorkflow(world, w, owner, draft, actor);
    forall v | v in world.shelves
      ensures Extends(world.shelves[v], world'.shelves[v])
    {
      ExtendsRefl(world.shelves[v]);
    }
    CreateKeepsShelves(world, hash, w, owner, draft, actor);
    CreateKeepsNames(world, w, owner, draft, actor);
    SessionsStayCleared(world, world');
    AttemptsStaySound(world, world', hash);
  }

  lemma StepOnExtends(world: World, hash: Hasher, w: nat, op: Op)
    requires ShelvesSafe(world, hash)
    ensures ShelvesSafe(StepOn(world, hash, w, op), hash) && WorldExtends(world, StepOn(world, hash, w, op))
  {
    hide Inv, Extends, Step, NameTaken;
    var world' := StepOn(world, hash, w, op);
    forall v | v in world.shelves
      ensures Extends(world.shelves[v], world'.shelves[v])
    {
      ExtendsRefl(world.shelves[v]);
      if v == w {
        SteppedShelf(world.shelves[w], hash, w, world.ids, op);
      }
    }
    if w in world.shelves {
      SteppedShelf(world.shelves[w], hash, w, world.ids, op);
    }
  }

  lemma SteppedShelf(s: Shelf, hash: Hasher, w: nat, ids: set<RowId>, op: Op)
    requires Inv(s, hash, w) && s.ids <= ids
    ensures var s' := Step(s.(ids := ids), hash, w, op);
            Inv(s', hash, w) && Extends(s, s') && ids <= s'.ids
  {
    hide Inv, Extends, Step;
    MoreIdsKeep(s, hash, w, ids);
    StepKeeps(s.(ids := ids), hash, w, op);
    StepFrame(s.(ids := ids), hash, w, op);
    IdsAreNoRecord(s, ids, Step(s.(ids := ids), hash, w, op));
  }

  lemma IdsAreNoRecord(s: Shelf, ids: set<RowId>, s': Shelf)
    requires Extends(s.(ids := ids), s')
    ensures Extends(s, s')
  {
  }

  lemma StepOnKeepsNames(world: World, hash: Hasher, w: nat, op: Op)
    requires NamesUnique(world.shelves)
    ensures NamesUnique(StepOn(world, hash, w, op).shelves)
  {
    hide Step;
    if w in world.shelves {
      StepFrame(world.shelves[w].(ids := world.ids), hash, w, op);
    }
  }

  lemma StepOnKeepsHomes(world: World, hash: Hasher, w: nat, op: Op)
    requires Housed(world) && ShelvesSafe(world, hash)
    ensures Housed(StepOn(world, hash, w, op))
  {
    hide Step, NameTaken, Inv;
    var world' := StepOn(world, hash, w, op);
    if w in world.shelves && world' != world {
      var s := world.shelves[w].(ids := world.ids);
      var s' := Step(s, hash, w, op);
      StepFrame(s, hash, w, op);
      assert forall a :: a in s'.approvals ==> a in s'.ids by {
        forall a | a in s'.approvals
          ensures a in s'.ids
        {
          if a in s.approvals {
            assert a in world.homes.Keys;
          }
        }
      }
      forall v, a | v in world'.shelves && a in world'.shelves[v].approvals
        ensures a in world'.homes && world'.homes[a] == v
      {
        if v != w {
          assert a in world.homes.Keys && world.homes[a] == v;
          assert a !in s'.approvals;
        }
      }
    }
  }

  lemma StepOnKeeps(world: World, hash: Hasher, w: nat, op: Op)
    requires WorldInv(world, hash)
    ensures WorldInv(StepOn(world, hash, w, op), hash) && WorldExtends(world, StepOn(world, hash, w, op))
  {
    hide ShelvesSafe, NamesUnique, Housed, SessionsCleared, AttemptsSound, WorldExtends, NameTaken, Step;
    var world' := StepOn(world, hash, w, op);
    StepOnExtends(world, hash, w, op);
    StepOnKeepsNames(world, hash, w, op);
    StepOnKeepsHomes(world, hash, w, op);
    SessionsStayCleared(world, world');
    AttemptsStaySound(world, world', hash);
  }

  lemma LookKeeps(world: World, hash: Hasher, attempt: nat)
    requires WorldInv(world, hash)
    ensures WorldInv(LookAgain(world, attempt), hash)
  {
    hide Inv, Extends, RouteCleared;
    var world' := LookAgain(world, attempt);
    assert SessionsCleared(world');
    forall i | i in world'.attempts
      ensures Sound(world'.attempts[i], world', hash)
    {
      assert i in world.attempts && Sound(world.attempts[i], world, hash);
      if i == attempt && world' != world {
        ExtendsRefl(world.shelves[world.attempts[i].workflow]);
      }
    }
  }

  lemma InsertKeeps(world: World, hash: Hasher, attempt: nat, session: nat, tenant: Option<string>, crossTenant: bool,
                    binding: Option<Binding>)
    requires WorldInv(world, hash)
    ensures WorldInv(InsertRouted(world, hash, attempt, session, tenant, crossTenant, binding), hash)
  {
    hide Inv, Extends, RouteCleared, ResolveRoute, AttemptsSound;
    var world' := InsertRouted(world, hash, attempt, session, tenant, crossTenant, binding);
    if world' != world {
      SameShelvesExtend(world, world');
      AttemptsStaySound(world, world', hash);
      AttemptIsSound(world, hash, attempt);
      SeenRouteIsCleared(world.attempts[attempt], world, hash, tenant, crossTenant, binding);
    }
  }

  lemma AttemptIsSound(world: World, hash: Hasher, attempt: nat)
    requires AttemptsSound(world, hash) && attempt in world.attempts
    ensures Sound(world.attempts[attempt], world, hash)
  {
  }

  lemma SeenRouteIsCleared(a: Attempt, world: World, hash: Hasher, tenant: Option<string>, crossTenant: bool,
                           binding: Option<Binding>)
    requires |a.seen| >= 3 && Sound(a, world, hash)
    requires ResolveRoute(a.seen[0], a.seen[1], a.seen[2], hash, tenant, crossTenant, binding).Ok?
    ensures RouteCleared(world.shelves[a.workflow],
                         ResolveRoute(a.seen[0], a.seen[1], a.seen[2], hash, tenant, crossTenant, binding).value)
  {
    hide Inv, Extends, RouteCleared, ResolveRoute;
    var r := ResolveRoute(a.seen[0], a.seen[1], a.seen[2], hash, tenant, crossTenant, binding).value;
    ReadsGiveCleared(a.seen[0], a.seen[1], a.seen[2], hash, a.workflow, tenant, crossTenant, binding);
    var i := 2;
    while i < |a.seen| - 1
      invariant 2 <= i < |a.seen| && RouteCleared(a.seen[i], r)
    {
      assert Extends(a.seen[i], a.seen[i + 1]);
      ExtendsKeepsRoute(a.seen[i], a.seen[i + 1], r);
      i := i + 1;
    }
    ExtendsKeepsRoute(a.seen[i], world.shelves[a.workflow], r);
  }

  lemma SameShelvesExtend(world: World, world': World)
    requires world'.shelves == world.shelves
    requires forall i :: i in world.sessions ==> i in world'.sessions && world'.sessions[i] == world.sessions[i]
    ensures WorldExtends(world, world')
  {
    hide Extends;
    forall w | w in world.shelves
      ensures Extends(world.shelves[w], world'.shelves[w])
    {
      ExtendsRefl(world.shelves[w]);
    }
  }

  lemma BeginKeeps(world: World, hash: Hasher, attempt: nat, w: nat)
    requires WorldInv(world, hash)
    ensures WorldInv(world.(attempts := world.attempts[attempt := Attempt(w, [])]), hash)
  {
    hide Inv, Extends, RouteCleared;
    var world' := world.(attempts := world.attempts[attempt := Attempt(w, [])]);
    forall i | i in world'.attempts
      ensures Sound(world'.attempts[i], world', hash)
    {
      assert i != attempt ==> i in world.attempts && Sound(world.attempts[i], world, hash);
    }
  }

  lemma WorldStepKeeps(world: World, hash: Hasher, op: WorldOp)
    requires WorldInv(world, hash)
    ensures WorldInv(WorldStep(world, hash, op), hash) && WorldExtends(world, WorldStep(world, hash, op))
  {
    hide WorldInv, WorldExtends, StepOn, CreateWorkflow;
    var world' := WorldStep(world, hash, op);
    if op.BeginStart? || op.Look? || op.InsertSession? {
      SameShelvesExtend(world, world');
    }
    match op
    case Create(w, owner, draft, actor) => CreateKeeps(world, hash, w, owner, draft, actor);
    case On(w, o) => StepOnKeeps(world, hash, w, o);
    case DecideAnywhere(approval, actor, approve) =>
      if approval in world.homes {
        StepOnKeeps(world, hash, world.homes[approval], Decide(approval, actor, approve));
      } else {
        SameShelvesExtend(world, world);
      }
    case BeginStart(attempt, w) => BeginKeeps(world, hash, attempt, w);
    case Look(attempt) => LookKeeps(world, hash, attempt);
    case InsertSession(attempt, session, tenant, cross, binding) =>
      InsertKeeps(world, hash, attempt, session, tenant, cross, binding);
  }

  lemma WorldExtendsTrans(a: World, b: World, c: World)
    requires WorldExtends(a, b) && WorldExtends(b, c)
    ensures WorldExtends(a, c)
  {
    hide Extends;
    forall w | w in a.shelves
      ensures w in c.shelves && Extends(a.shelves[w], c.shelves[w])
    {
      ExtendsTrans(a.shelves[w], b.shelves[w], c.shelves[w]);
    }
  }

  lemma {:induction false} WorldRunKeeps(world: World, hash: Hasher, ops: seq<WorldOp>)
    requires WorldInv(world, hash)
    ensures WorldInv(WorldRun(world, hash, ops), hash) && WorldExtends(world, WorldRun(world, hash, ops))
    decreases |ops|
  {
    hide WorldInv, WorldExtends, WorldStep;
    if ops == [] {
      SameShelvesExtend(world, world);
    } else {
      var next := WorldStep(world, hash, ops[0]);
      WorldStepKeeps(world, hash, ops[0]);
      WorldRunKeeps(next, hash, ops[1..]);
      WorldExtendsTrans(world, next, WorldRun(next, hash, ops[1..]));
    }
  }

  // ----- what follows for every run -----

  /** A session keeps the template it started with for ever, and that template stays a tested and approved one. */
  lemma PinnedTemplateStays(hash: Hasher, ops: seq<WorldOp>, later: seq<WorldOp>, session: nat)
    requires session in WorldRun(EMPTY, hash, ops).sessions
    ensures var x := WorldRun(EMPTY, hash, ops).sessions[session];
            var world := WorldRun(WorldRun(EMPTY, hash, ops), hash, later);
            && session in world.sessions && world.sessions[session] == x
            && x.workflow in world.shelves
            && RouteCleared(world.shelves[x.workflow], x.route)
  {
    hide RouteCleared, Inv, WorldRun;
    EmptyIsSafe(hash);
    WorldRunKeeps(EMPTY, hash, ops);
    WorldRunKeeps(WorldRun(EMPTY, hash, ops), hash, later);
  }

  /** No owner ever has two workflows of the same name. */
  lemma OwnersNamesStayUnique(hash: Hasher, ops: seq<WorldOp>)
    ensures NamesUnique(WorldRun(EMPTY, hash, ops).shelves)
  {
    hide WorldRun;
    EmptyIsSafe(hash);
    WorldRunKeeps(EMPTY, hash, ops);
  }

  /** Deciding an approval touches no workflow but the one that asked for it. */
  lemma DecisionStaysHome(hash: Hasher, ops: seq<WorldOp>, approval: RowId, actor: string, approve: bool, w: nat)
    requires var world := WorldRun(EMPTY, hash, ops); w in world.shelves && approval !in world.shelves[w].approvals
    ensures var world := WorldRun(EMPTY, hash, ops);
            var world' := Decision(world, hash, approval, actor, approve);
            w in world'.shelves && world'.shelves[w] == world.shelves[w].(ids := world'.shelves[w].ids)
  {
    hide WorldRun, WorldInv;
    EmptyIsSafe(hash);
    WorldRunKeeps(EMPTY, hash, ops);
    DecisionHasOneHome(WorldRun(EMPTY, hash, ops), hash, approval, actor, approve, w);
  }

  lemma DecisionHasOneHome(world: World, hash: Hasher, approval: RowId, actor: string, approve: bool, w: nat)
    requires w in world.shelves && approval !in world.shelves[w].approvals
    ensures var world' := Decision(world, hash, approval, actor, approve);
            w in world'.shelves && world'.shelves[w] == world.shelves[w].(ids := world'.shelves[w].ids)
  {
    hide Log;
  }

  lemma EmptyIsSafe(hash: Hasher)
    ensures WorldInv(EMPTY, hash)
  {
  }
}
