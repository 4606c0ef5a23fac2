/** What one operation on all workflows does, beside what it keeps. */
module WorkflowWorldAnswers {
  import opened Prelude
  import opened WorkflowShelf
  import opened WorkflowSafety
  import opened WorkflowRuns
  import opened WorkflowWorld
  import opened WorkflowAnswers

  /** A new workflow is added exactly if its owner has no other of that name; the others stay as they are. */
  lemma CreatedExactly(world: World, w: nat, owner: string, draft: Draft, actor: string)
    requires w !in world.shelves
    ensures var world' := CreateWorkflow(world, w, owner, draft, actor);
            if forall v :: v in world.shelves && world.shelves[v].owner == owner ==> world.shelves[v].draft.name != draft.name then
              && w in world'.shelves && world' == world.(shelves := world.shelves[w := world'.shelves[w]])
              && var s := world'.shelves[w];
                 s.owner == owner && s.draft == draft && s.status == Active && s.versions == [] && s.deployments == []
            else world' == world
  {
  }

  /** An operation on a workflow happens there, unless it would give its owner two workflows of one name; the others stay. */
  lemma OperationHappens(world: World, hash: Hasher, w: nat, op: Op)
    requires w in world.shelves
    ensures var world', s := StepOn(world, hash, w, op), world.shelves[w];
            var clash := op.EditDraft? && exists v :: v in world.shelves && v != w && world.shelves[v].owner == s.owner
                                                     && world.shelves[v].draft.name == op.draft.name;
            if clash then world' == world
            else
              && w in world'.shelves && world'.shelves[w] == Step(s.(ids := world.ids), hash, w, op)
              && (forall v :: v in world.shelves && v != w ==> v in world'.shelves && world'.shelves[v] == world.shelves[v])
              && world'.attempts == world.attempts && world'.sessions == world.sessions
  {
    hide Step;
  }

  /** A decision on an approval takes effect at the workflow that asked for it, exactly if it may be made there. */
  lemma DecisionTakesEffect(world: World, hash: Hasher, w: nat, approval: RowId, actor: string, approve: bool)
    requires WorldInv(world, hash) && w in world.shelves && approval in world.shelves[w].approvals
    ensures var s, world' := world.shelves[w], WorldStep(world, hash, DecideAnywhere(approval, actor, approve));
            var a := s.approvals[approval];
            && w in world'.shelves && approval in world'.shelves[w].approvals
            && var a' := world'.shelves[w].approvals[approval];
               if a.approver == actor && s.status == Active && a.decision == Pending then
                 a'.decision == (if approve then Approved else Rejected) && a'.decidedBy == Some(actor)
               else a' == a
  {
    hide Inv, Step, DecideApproval, SessionsCleared, AttemptsSound, NamesUnique, NameTaken;
    var s := world.shelves[w].(ids := world.ids);
    MoreIdsKeep(world.shelves[w], hash, w, world.ids);
    assert world.homes[approval] == w;
    DecideAnswersExactly(s, hash, w, Decide(approval, actor, approve));
  }

  /** The steps of a start that nothing comes in between of. */
  function WholeStart(attempt: nat, w: nat, session: nat, tenant: Option<string>, crossTenant: bool, binding: Option<Binding>)
    : seq<WorldOp>
  {
    [BeginStart(attempt, w), Look(attempt), Look(attempt), Look(attempt),
     InsertSession(attempt, session, tenant, crossTenant, binding)]
  }

  lemma RunFive(world: World, hash: Hasher, a: WorldOp, b: WorldOp, c: WorldOp, d: WorldOp, e: WorldOp)
    ensures WorldRun(world, hash, [a, b, c, d, e])
         == WorldStep(WorldStep(WorldStep(WorldStep(WorldStep(world, hash, a), hash, b), hash, c), hash, d), hash, e)
  {
    hide WorldStep;
    RunOne(world, hash, a, [b, c, d, e]);
    var w1 := WorldStep(world, hash, a);
    RunOne(w1, hash, b, [c, d, e]);
    var w2 := WorldStep(w1, hash, b);
    RunOne(w2, hash, c, [d, e]);
    var w3 := WorldStep(w2, hash, c);
    RunOne(w3, hash, d, [e]);
    RunOne(WorldStep(w3, hash, d), hash, e, []);
    assert [a] + [b, c, d, e] == [a, b, c, d, e] && [b] + [c, d, e] == [b, c, d, e] && [c] + [d, e] == [c, d, e];
    assert [d] + [e] == [d, e] && [e] + [] == [e];
  }

  lemma RunOne(world: World, hash: Hasher, op: WorldOp, rest: seq<WorldOp>)
    ensures WorldRun(world, hash, [op] + rest) == WorldRun(WorldStep(world, hash, op), hash, rest)
  {
    hide WorldStep;
    assert ([op] + rest)[1..] == rest;
  }

  /**
   A session start that is not disturbed inserts the session exactly if the caller
   may use the workflow and production serves it on the configured binding, and
   pins it to the deployment that is live.
   */
  lemma StartsExactly(world: World, hash: Hasher, attempt: nat, w: nat, session: nat, tenant: Option<string>,
                      crossTenant: bool, binding: Option<Binding>)
    requires WorldInv(world, hash) && w in world.shelves && session !in world.sessions && forall a: Artifact :: hash(a) != ""
    ensures var world' := WorldRun(world, hash, WholeStart(attempt, w, session, tenant, crossTenant, binding));
            var s := world.shelves[w];
            var live := Current(s, Production);
            if (tenant == None || tenant == Some(s.owner) || crossTenant)
               && live.Some? && binding.Some? && live.value.fingerprint == binding.value.fingerprint then
              && session in world'.sessions && world'.sessions == world.sessions[session := world'.sessions[session]]
              && world'.sessions[session].workflow == w
              && var r := world'.sessions[session].route;
                 r.deployment == live.value.id && r.version == live.value.version && r.hash == live.value.hash
            else world'.sessions == world.sessions
  {
    hide WorldRun, Inv, ResolveRoute, SessionsCleared, AttemptsSound, NamesUnique, Housed, Current;
    RunFive(world, hash, BeginStart(attempt, w), Look(attempt), Look(attempt), Look(attempt),
            InsertSession(attempt, session, tenant, crossTenant, binding));
    LooksSee(world, hash, attempt, w);
    RouteIsExactly(world.shelves[w], hash, w, tenant, crossTenant, binding);
  }

  lemma LookSees(world: World, hash: Hasher, attempt: nat, w: nat, seen: seq<Shelf>)
    requires w in world.shelves && attempt in world.attempts && world.attempts[attempt] == Attempt(w, seen)
    ensures WorldStep(world, hash, Look(attempt))
         == world.(attempts := world.attempts[attempt := Attempt(w, seen + [world.shelves[w]])])
  {
    hide StepOn, CreateWorkflow, InsertRouted;
  }

  lemma LooksSee(world: World, hash: Hasher, attempt: nat, w: nat)
    requires w in world.shelves
    ensures var s := world.shelves[w];
            var seen := WorldStep(WorldStep(WorldStep(WorldStep(world, hash, BeginStart(attempt, w)),
                                                      hash, Look(attempt)), hash, Look(attempt)), hash, Look(attempt));
            seen == world.(attempts := world.attempts[attempt := Attempt(w, [s, s, s])])
  {
    hide StepOn, CreateWorkflow, InsertRouted, LookAgain;
    var s := world.shelves[w];
    var w0 := WorldStep(world, hash, BeginStart(attempt, w));
    LookSees(w0, hash, attempt, w, []);
    var w1 := WorldStep(w0, hash, Look(attempt));
    LookSees(w1, hash, attempt, w, [] + [s]);
    var w2 := WorldStep(w1, hash, Look(attempt));
    LookSees(w2, hash, attempt, w, [] + [s] + [s]);
    assert [] + [s] + [s] + [s] == [s, s, s];
  }
}
