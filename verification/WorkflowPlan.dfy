/** Semantic validation of a workflow plan. */
module WorkflowPlan {
  import opened Wrappers
  import opened DependencyGraph
  import opened RuntimeWorkflow
  import opened Totals

  function StepIdList(steps: seq<PlanStep>): (ids: seq<StepId>)
    ensures |ids| == |steps| && forall i | 0 <= i < |steps| :: ids[i] == steps[i].id
  {
    seq(|steps|, i requires 0 <= i < |steps| => steps[i].id)
  }

  function StepIds(steps: seq<PlanStep>): set<StepId> {
    set s | s in steps :: s.id
  }

  ghost predicate DistinctSteps(steps: seq<PlanStep>) {
    NoDuplicates(StepIdList(steps))
  }

  lemma IdsAreElements(steps: seq<PlanStep>)
    ensures StepIds(steps) == Elements(StepIdList(steps))
  {
    forall id | id in StepIds(steps) ensures id in StepIdList(steps) {
      var s :| s in steps && s.id == id;
      var k :| 0 <= k < |steps| && steps[k] == s;
      assert StepIdList(steps)[k] == id;
    }
  }

  lemma {:induction false} FindStepUnique(steps: seq<PlanStep>, k: nat)
    requires DistinctSteps(steps) && k < |steps|
    ensures FindStep(steps, steps[k].id) == Some(steps[k])
  {
    var ids, rest := StepIdList(steps), StepIdList(steps[1..]);
    if k > 0 {
      assert ids[0] != ids[k];
      assert forall i | 0 <= i < |rest| :: rest[i] == ids[i + 1];
      FindStepUnique(steps[1..], k - 1);
    }
  }

  /** The dependency dictionary; a later step with the same id replaces the entry. */
  function DependencyMap(steps: seq<PlanStep>): (edges: Edges)
    ensures edges.Keys == StepIds(steps)
  {
    if steps == [] then map[]
    else
      var last := |steps| - 1;
      assert steps == steps[..last] + [steps[last]];
      DependencyMap(steps[..last])[steps[last].id := steps[last].dependsOn]
  }

  lemma {:induction false} DependencyMapFinds(steps: seq<PlanStep>, k: nat)
    requires DistinctSteps(steps) && k < |steps|
    ensures steps[k].id in DependencyMap(steps) && DependencyMap(steps)[steps[k].id] == steps[k].dependsOn
  {
    var last := |steps| - 1;
    if k < last {
      var ids, front := StepIdList(steps), StepIdList(steps[..last]);
      assert ids[k] != ids[last];
      assert forall i | 0 <= i < last :: front[i] == ids[i];
      DependencyMapFinds(steps[..last], k);
    }
  }

  /** The dependency search of `validate_plan`: it never stops early, and reports every grey node it meets. */
  class DependencySearch {
    const ids: set<StepId>
    const edges: Edges
    var visiting: set<StepId>
    var visited: set<StepId>
    var cycles: nat
    // The grey path, and the finishing times of the visited nodes for as long as no cycle is reported.
    ghost var stack: seq<StepId>
    ghost var rank: map<StepId, nat>
    ghost var clock: nat

    constructor (ids: set<StepId>, edges: Edges)
      ensures this.ids == ids && this.edges == edges
      ensures Valid() && stack == [] && visited == {}
    {
      this.ids, this.edges := ids, edges;
      visiting, visited, cycles := {}, {}, 0;
      stack, rank, clock := [], map[], 0;
    }

    ghost predicate Valid()
      reads this
    {
      && visiting <= ids && visited <= ids && visiting !! visited
      && IsPath(ids, edges, stack) && (forall u :: u in stack <==> u in visiting)
      && (cycles > 0 ==> !Acyclic(ids, edges))
      && (cycles == 0 ==> RankedVisits(ids, edges, visited, rank, clock))
    }

    ghost function Unvisited(): set<StepId>
      reads this
    {
      ids - visiting - visited
    }

    /** `visit`. */
    method VisitStep(u: StepId)
      requires Valid() && u in ids && (stack == [] || IsEdge(ids, edges, stack[|stack| - 1], u))
      modifies this
      ensures Valid() && stack == old(stack) && visiting == old(visiting) && old(visited) <= visited
      ensures u in visited || u in visiting
      ensures cycles >= old(cycles) && (u in old(visiting) ==> cycles > 0)
      ensures Unvisited() <= old(Unvisited())
      decreases Unvisited()
    {
      hide RankedVisits, Acyclic, IsCycle;
      if u in visiting {
        ghost var k :| 0 <= k < |stack| && stack[k] == u;
        GreyNodeClosesCycle(ids, edges, stack, k);
        cycles := cycles + 1;
        return;
      }
      if u in visited {
        return;
      }
      visiting := visiting + {u};
      stack := stack + [u];
      ghost var path := stack;
      assert forall i | 0 <= i < |path| - 1 :: path[i] == old(stack)[i];
      assert forall x :: x in path <==> x in old(stack) || x == u;
      var successors := Successors(edges, u);
      for k := 0 to |successors|
        invariant Valid() && stack == path && visiting == old(visiting) + {u} && old(visited) <= visited
        invariant cycles >= old(cycles)
        invariant Unvisited() <= old(Unvisited()) - {u}
        invariant forall j | 0 <= j < k && successors[j] in ids :: cycles == 0 ==> successors[j] in visited
      {
        if successors[k] in ids {
          assert IsEdge(ids, edges, u, successors[k]);
          VisitStep(successors[k]);
        }
      }
      Leave(u, old(stack));
    }

    /** The node turns from grey to visited; without a cycle, all its successors are visited by now. */
    method Leave(u: StepId, ghost below: seq<StepId>)
      requires Valid() && stack == below + [u] && u in visiting && u !in below
      requires forall v | IsEdge(ids, edges, u, v) :: cycles == 0 ==> v in visited
      modifies this
      ensures Valid() && stack == below && visiting == old(visiting) - {u} && visited == old(visited) + {u}
              && cycles == old(cycles)
    {
      visiting := visiting - {u};
      visited := visited + {u};
      stack := below;
      assert forall i | 0 <= i < |below| :: (below + [u])[i] == below[i];
      assert forall x :: x in below + [u] <==> x in below || x == u;
      if cycles == 0 {
        rank, clock := rank[u := clock], clock + 1;
      }
    }
  }

  lemma GreyNodeClosesCycle(ids: set<StepId>, edges: Edges, stack: seq<StepId>, k: nat)
    requires IsPath(ids, edges, stack) && k < |stack| && IsEdge(ids, edges, stack[|stack| - 1], stack[k])
    ensures !Acyclic(ids, edges)
  {
    CloseCycle(ids, edges, stack, k);
  }

  /** Edges of visited nodes lead to visited nodes of lower rank. */
  ghost predicate RankedVisits(ids: set<StepId>, edges: Edges, visited: set<StepId>, rank: map<StepId, nat>,
                               clock: nat) {
    && rank.Keys == visited && (forall u | u in visited :: rank[u] < clock)
    && forall u, v | u in visited && IsEdge(ids, edges, u, v) :: v in visited && rank[v] < rank[u]
  }

  // ----- the faults -----

  datatype PlanFault =
    | DuplicateStep
    | UnknownDependency
    | DependencyCycle
    | DuplicateEdge
    | UnknownEdgeStep
    | EdgeToItself
    | EdgeRoleMismatch
    | ProviderAttemptContradiction
    | CheckAttemptContradiction
    | DispatchAttemptContradiction
    | EdgeBudgetContradiction

  predicate KnownDependencies(steps: seq<PlanStep>) {
    var edges := DependencyMap(steps);
    forall s, d | s in edges && d in edges[s] :: d in StepIds(steps)
  }

  predicate DistinctEdges(edges: seq<PlannedEdge>) {
    |set e | e in edges :: e.id| == |edges|
  }

  function ProviderAllowance(s: PlanStep): int {
    if s.kind.Check? || s.kind.Dispatch? then 0 else s.maxAttempts
  }

  function CheckAllowance(s: PlanStep): int {
    if s.kind.Check? then s.maxAttempts else 0
  }

  function DispatchAllowance(s: PlanStep): int {
    if s.kind.Dispatch? then s.maxAttempts else 0
  }

  ghost predicate Dependable(plan: Plan) {
    && DistinctSteps(plan.steps)
    && KnownDependencies(plan.steps)
    && Acyclic(StepIds(plan.steps), DependencyMap(plan.steps))
  }

  ghost predicate Affordable(plan: Plan) {
    && Total(plan.steps, ProviderAllowance) <= plan.budgets.providerAttempts
    && Total(plan.steps, CheckAllowance) <= plan.budgets.checkAttempts
    && (plan.version >= 2 ==> Total(plan.steps, DispatchAllowance) <= plan.budgets.dispatchAttempts)
    && |plan.edges| <= plan.budgets.artifactEdges
  }

  /** The kind listed for an id; of two steps with one id, the later counts. */
  function KindOf(steps: seq<PlanStep>, id: StepId): Option<StepKind> {
    if steps == [] then None
    else
      var last := |steps| - 1;
      if steps[last].id == id then Some(steps[last].kind) else KindOf(steps[..last], id)
  }

  /** Whether a step of that kind may produce such an artifact, in that version of plans. */
  predicate Produces(version: nat, kind: StepKind, role: EdgeRole) {
    match role
    case PatchEdge => kind.Builder? || kind.Repair?
    case ReportEdge => kind.Check?
    case ReviewEdge => kind.Reviewer?
    case RepairEdge => kind.Repair?
    case EvidenceEdge => !kind.Dispatch?
    case DecisionEdge => version >= 2 && (kind.Builder? || kind.Reviewer?)
    case ReceiptEdge => version >= 2 && kind.Dispatch?
    case OutputEdge => version >= 2 && kind.Dispatch?
    case OperationEdge => version == 3 && kind.Dispatch?
  }

  function FirstDispatch(steps: seq<PlanStep>): Option<StepId> {
    if steps == [] then None
    else if steps[0].kind.Dispatch? then Some(steps[0].id)
    else FirstDispatch(steps[1..])
  }

  /** The producer may produce it, and a decision goes to the first dispatch step. */
  predicate RoleFits(plan: Plan, e: PlannedEdge) {
    var kind := KindOf(plan.steps, e.producer);
    && kind.Some? && Produces(plan.version, kind.value, e.role)
    && (e.role.DecisionEdge? ==> FirstDispatch(plan.steps) == Some(e.consumer))
  }

  predicate EndsKnown(plan: Plan, e: PlannedEdge) {
    e.producer in StepIds(plan.steps) && e.consumer in StepIds(plan.steps)
  }

  ghost predicate EdgesPlanned(plan: Plan) {
    && DistinctEdges(plan.edges)
    && forall e | e in plan.edges :: EndsKnown(plan, e) && e.producer != e.consumer && RoleFits(plan, e)
  }

  /** The search from every node: a cycle is reported exactly when there is one. */
  method FindCycles(ids: set<StepId>, edges: Edges) returns (cyclic: bool)
    ensures cyclic <==> !Acyclic(ids, edges)
  {
    var search := new DependencySearch(ids, edges);
    var todo := ids;
    while todo != {}
      invariant search.ids == ids && search.edges == edges && todo <= ids
      invariant search.Valid() && search.stack == [] && search.visiting == {} && ids - todo <= search.visited
      decreases |todo|
    {
      var u :| u in todo;
      todo := todo - {u};
      search.VisitStep(u);
    }
    cyclic := search.cycles > 0;
    if !cyclic {
      forall u, v | IsEdge(ids, edges, u, v)
        ensures u in search.rank && v in search.rank && search.rank[v] < search.rank[u]
      {
        assert u in search.visited;
      }
      RankedIsAcyclic(ids, edges, search.rank);
    }
  }

  /** The loops over the artifact edges. */
  method EdgeFaults(plan: Plan) returns (faults: set<PlanFault>)
    ensures faults <= {UnknownEdgeStep, EdgeToItself, EdgeRoleMismatch}
    ensures UnknownEdgeStep in faults <==> exists e :: e in plan.edges && !EndsKnown(plan, e)
    ensures EdgeToItself in faults <==> exists e :: e in plan.edges && e.producer == e.consumer
    ensures EdgeRoleMismatch in faults <==> exists e :: e in plan.edges && !RoleFits(plan, e)
  {
    hide EndsKnown, RoleFits;
    var edges := plan.edges;
    faults := {};
    for n := 0 to |edges|
      invariant faults <= {UnknownEdgeStep, EdgeToItself, EdgeRoleMismatch}
      invariant UnknownEdgeStep in faults <==> exists e :: e in edges[..n] && !EndsKnown(plan, e)
      invariant EdgeToItself in faults <==> exists e :: e in edges[..n] && e.producer == e.consumer
      invariant EdgeRoleMismatch in faults <==> exists e :: e in edges[..n] && !RoleFits(plan, e)
    {
      assert forall e :: e in edges[..n + 1] <==> e in edges[..n] || e == edges[n];
      if !EndsKnown(plan, edges[n]) {
        faults := faults + {UnknownEdgeStep};
      }
      if edges[n].producer == edges[n].consumer {
        faults := faults + {EdgeToItself};
      }
      if !RoleFits(plan, edges[n]) {
        faults := faults + {EdgeRoleMismatch};
      }
    }
    assert edges[..|edges|] == edges;
  }

  /** The checks on step ids and dependencies. */
  method DependencyFaults(plan: Plan) returns (faults: set<PlanFault>)
    ensures faults <= {DuplicateStep, UnknownDependency, DependencyCycle}
    ensures faults == {} <==> Dependable(plan)
    ensures DuplicateStep in faults <==> !DistinctSteps(plan.steps)
    ensures DependencyCycle in faults <==> !Acyclic(StepIds(plan.steps), DependencyMap(plan.steps))
  {
    hide DependencyMap, Acyclic, NoDuplicates, KnownDependencies, StepIds, StepIdList, DistinctSteps;
    var ids := StepIds(plan.steps);
    DistinctIdCount(plan.steps);
    faults := if |plan.steps| != |ids| then {DuplicateStep} else {};
    if !KnownDependencies(plan.steps) {
      faults := faults + {UnknownDependency};
    }
    var cyclic := FindCycles(ids, DependencyMap(plan.steps));
    if cyclic {
      faults := faults + {DependencyCycle};
    }
  }

  lemma DistinctIdCount(steps: seq<PlanStep>)
    ensures |StepIds(steps)| == |steps| <==> DistinctSteps(steps)
  {
    hide NoDuplicates, Elements, StepIds;
    IdsAreElements(steps);
    DistinctCount(StepIdList(steps));
  }

  /** The checks that a plan can afford its own attempts and edges. */
  method BudgetFaults(plan: Plan) returns (faults: set<PlanFault>)
    ensures faults <= {ProviderAttemptContradiction, CheckAttemptContradiction, DispatchAttemptContradiction,
                       EdgeBudgetContradiction}
    ensures faults == {} <==> Affordable(plan)
  {
    faults := {};
    if Total(plan.steps, ProviderAllowance) > plan.budgets.providerAttempts {
      faults := faults + {ProviderAttemptContradiction};
    }
    if Total(plan.steps, CheckAllowance) > plan.budgets.checkAttempts {
      faults := faults + {CheckAttemptContradiction};
    }
    if plan.version >= 2 && Total(plan.steps, DispatchAllowance) > plan.budgets.dispatchAttempts {
      faults := faults + {DispatchAttemptContradiction};
    }
    if |plan.edges| > plan.budgets.artifactEdges {
      faults := faults + {EdgeBudgetContradiction};
    }
  }

  /** `validate_plan`: no fault exactly when the plan is well formed, acyclic and within its own budgets. */
  method ValidatePlan(plan: Plan) returns (faults: set<PlanFault>)
    ensures faults == {} <==> Dependable(plan) && Affordable(plan) && EdgesPlanned(plan)
    ensures DuplicateStep in faults <==> !DistinctSteps(plan.steps)
    ensures DependencyCycle in faults <==> !Acyclic(StepIds(plan.steps), DependencyMap(plan.steps))
  {
    hide DependencyMap, Acyclic, NoDuplicates, Affordable, Dependable, DistinctEdges, EndsKnown, RoleFits;
    faults := DependencyFaults(plan);
    if !DistinctEdges(plan.edges) {
      faults := faults + {DuplicateEdge};
    }
    var edgeFaults := EdgeFaults(plan);
    faults := faults + edgeFaults;
    var budgetFaults := BudgetFaults(plan);
    faults := faults + budgetFaults;
  }
}
