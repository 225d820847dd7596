/** The dependency checks of execution-plan validation, and their agreement with ordering. */
module PlanValidation {
  import opened DependencyGraph
  import opened PlanModel
  import opened PlanOrder

  datatype SemanticError =
    | DuplicateId(id: StepId)
    | UnknownDependencyAt(index: nat, dependency: StepId)
    | DependencyCycle(nodes: seq<StepId>)

  ghost predicate Needs(steps: seq<Step>, dependency: StepId, dependent: StepId) {
    exists s :: s in steps && s.id == dependent && dependency in s.dependsOn
  }

  /** Edges from each dependency to its dependents, the direction in which validation searches. */
  ghost predicate ForwardEdges(steps: seq<Step>, ids: set<StepId>, edges: Edges) {
    && edges.Keys == ids
    && forall u, v | u in ids :: v in edges[u] <==> Needs(steps, u, v)
  }

  lemma ForwardIsOpposite(steps: seq<Step>, edges: Edges)
    requires UniqueIds(steps) && KnownDependencies(steps) && ForwardEdges(steps, IdSet(steps), edges)
    ensures Opposite(IdSet(steps), Dependencies(steps), edges)
  {
    var ids, deps := IdSet(steps), Dependencies(steps);
    forall u, v ensures IsEdge(ids, deps, u, v) <==> IsEdge(ids, edges, v, u) {
      if IsEdge(ids, deps, u, v) {
        assert ById(steps)[u] in steps && Needs(steps, v, u);
      }
      if IsEdge(ids, edges, v, u) {
        var s :| s in steps && s.id == u && v in s.dependsOn;
        var k :| 0 <= k < |steps| && steps[k] == s;
        ByIdFinds(steps, k);
      }
    }
  }

  /** The two edge directions give validation and ordering the same verdict. */
  lemma SearchDirectionsAgree(steps: seq<Step>, edges: Edges)
    requires UniqueIds(steps) && KnownDependencies(steps) && ForwardEdges(steps, IdSet(steps), edges)
    ensures Acyclic(IdSet(steps), edges) <==> OrderSteps(steps).Ok?
  {
    ForwardIsOpposite(steps, edges);
    OppositeAcyclic(IdSet(steps), Dependencies(steps), edges);
    OrderStepsSucceedsIffOrderable(steps);
  }

  method FindDuplicates(ids: seq<StepId>) returns (dupes: set<StepId>)
    ensures forall d :: d in dupes <==> exists i, j :: 0 <= i < j < |ids| && ids[i] == d && ids[j] == d
  {
    var seen: set<StepId> := {};
    dupes := {};
    for k := 0 to |ids|
      invariant forall d :: d in seen <==> d in ids[..k]
      invariant forall d :: d in dupes <==> exists i, j :: 0 <= i < j < k && ids[i] == d && ids[j] == d
    {
      if ids[k] in seen {
        dupes := dupes + {ids[k]};
      }
      seen := seen + {ids[k]};
    }
  }

  /** The loop over the dependencies of one step: unknown ones are reported, known ones become edges. */
  method LinkStep(step: Step, index: nat, ids: set<StepId>, edges: Edges)
    returns (linked: Edges, errors: seq<SemanticError>)
    requires edges.Keys == ids && step.id in ids
    ensures linked.Keys == ids
    ensures forall u, v | u in ids :: v in linked[u] <==> v in edges[u] || (v == step.id && u in step.dependsOn)
    ensures forall e ::
              e in errors <==> exists d :: d in step.dependsOn && d !in ids && e == UnknownDependencyAt(index, d)
  {
    linked, errors := edges, [];
    var deps := step.dependsOn;
    for k := 0 to |deps|
      invariant linked.Keys == ids
      invariant forall u, v | u in ids :: v in linked[u] <==> v in edges[u] || (v == step.id && u in deps[..k])
      invariant forall e ::
                  e in errors <==> exists d :: d in deps[..k] && d !in ids && e == UnknownDependencyAt(index, d)
    {
      var dep := deps[k];
      assert deps[..k + 1] == deps[..k] + [dep];
      if dep !in ids {
        errors := errors + [UnknownDependencyAt(index, dep)];
      } else {
        linked := linked[dep := linked[dep] + [step.id]];
      }
    }
    assert deps[..|deps|] == deps;
  }

  method LinkSteps(steps: seq<Step>) returns (edges: Edges, errors: seq<SemanticError>)
    ensures ForwardEdges(steps, IdSet(steps), edges)
    ensures forall e :: e in errors <==> exists i, d ::
              0 <= i < |steps| && d in steps[i].dependsOn && d !in IdSet(steps) && e == UnknownDependencyAt(i, d)
  {
    var ids := IdSet(steps);
    edges, errors := map id | id in ids :: [], [];
    for i := 0 to |steps|
      invariant ForwardEdges(steps[..i], ids, edges)
      invariant forall e :: e in errors <==> exists j, d ::
                0 <= j < i && d in steps[j].dependsOn && d !in ids && e == UnknownDependencyAt(j, d)
    {
      ghost var before := edges;
      var unknown;
      edges, unknown := LinkStep(steps[i], i, ids, edges);
      errors := errors + unknown;
      assert steps[..i + 1] == steps[..i] + [steps[i]];
      forall u, v | u in ids ensures v in edges[u] <==> Needs(steps[..i + 1], u, v) {
        assert v in before[u] <==> Needs(steps[..i], u, v);
        if v == steps[i].id && u in steps[i].dependsOn {
          assert steps[i] in steps[..i + 1];
        }
      }
    }
    assert steps[..|steps|] == steps;
  }

  lemma NoErrorsIffDistinct(ids: seq<StepId>, dupes: set<StepId>, errors: seq<SemanticError>)
    requires forall d :: d in dupes <==> exists i, j :: 0 <= i < j < |ids| && ids[i] == d && ids[j] == d
    requires forall e :: e in errors <==> exists d :: d in dupes && e == DuplicateId(d)
    ensures errors == [] <==> NoDuplicates(ids)
  {
    if errors != [] {
      assert errors[0] in errors;
    }
    if !NoDuplicates(ids) {
      var i, j :| 0 <= i < j < |ids| && ids[i] == ids[j];
      assert ids[i] in dupes && DuplicateId(ids[i]) in errors;
    }
  }

  lemma NoErrorsIffKnown(steps: seq<Step>, errors: seq<SemanticError>)
    requires forall e :: e in errors <==> exists i, d ::
               0 <= i < |steps| && d in steps[i].dependsOn && d !in IdSet(steps) && e == UnknownDependencyAt(i, d)
    ensures errors == [] <==> KnownDependencies(steps)
  {
    if errors != [] {
      assert errors[0] in errors;
    }
    if !KnownDependencies(steps) {
      var s, d :| s in steps && d in s.dependsOn && d !in IdSet(steps);
      var i :| 0 <= i < |steps| && steps[i] == s;
      assert UnknownDependencyAt(i, d) in errors;
    }
  }

  /** One error for each id used twice; the source lists them in sorted order. */
  method DuplicateErrors(ids: seq<StepId>) returns (errors: seq<SemanticError>)
    ensures errors == [] <==> NoDuplicates(ids)
    ensures forall e ::
              e in errors <==> exists i, j :: 0 <= i < j < |ids| && ids[i] == ids[j] && e == DuplicateId(ids[i])
  {
    var dupes := FindDuplicates(ids);
    errors := [];
    var todo := dupes;
    while todo != {}
      invariant todo <= dupes
      invariant forall e :: e in errors <==> exists d :: d in dupes - todo && e == DuplicateId(d)
      decreases |todo|
    {
      var d :| d in todo;
      ghost var before := todo;
      todo := todo - {d};
      assert dupes - todo == (dupes - before) + {d};
      errors := errors + [DuplicateId(d)];
    }
    assert dupes - todo == dupes;
    NoErrorsIffDistinct(ids, dupes, errors);
  }

  /** `_semantic_execution_plan_errors`, for the dependency structure of tool steps. */
  method DependencyErrors(steps: seq<Step>) returns (errors: seq<SemanticError>)
    ensures errors == [] <==> OrderSteps(steps).Ok?
    ensures forall d :: DuplicateId(d) in errors <==>
              exists i, j :: 0 <= i < j < |steps| && steps[i].id == steps[j].id == d
    ensures forall i: nat, d :: UnknownDependencyAt(i, d) in errors <==>
              i < |steps| && d in steps[i].dependsOn && d !in IdSet(steps)
    ensures forall c | DependencyCycle(c) in errors :: exists edges ::
              ForwardEdges(steps, IdSet(steps), edges) && IsCycle(IdSet(steps), edges, c)
  {
    hide OrderSteps, Dependencies, ForwardEdges, Acyclic, IsCycle;
    var duplicates := DuplicateErrors(Ids(steps));
    var edges, unknown := LinkSteps(steps);
    NoErrorsIffKnown(steps, unknown);
    var cycle := GraphHasCycle(IdSet(steps), edges);
    var cycles := if cycle != [] then [DependencyCycle(cycle)] else [];
    OrderStepsSucceedsIffOrderable(steps);
    if UniqueIds(steps) && KnownDependencies(steps) {
      SearchDirectionsAgree(steps, edges);
    }
    errors := duplicates + unknown + cycles;
  }
}
