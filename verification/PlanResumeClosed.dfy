/** Resuming with any dependency-closed set of completed steps, and what goes wrong without closure. */
module PlanResumeClosed {
  import opened Wrappers
  import opened DependencyGraph
  import opened PlanModel
  import opened PlanOrder
  import opened StepReferences
  import opened PlanResume
  import opened PlanResumeOrder
  import opened PlanRun

  function KeepCalls(calls: seq<Call>, keep: set<StepId>): seq<Call> {
    if calls == [] then []
    else (if calls[0].step in keep then [calls[0]] else []) + KeepCalls(calls[1..], keep)
  }

  function KeepOutputs(context: Context, keep: set<StepId>): Context {
    map s | s in context && s in keep :: context[s]
  }

  function DropOutputs(context: Context, keep: set<StepId>): Context {
    map s | s in context && s !in keep :: context[s]
  }

  /** `kept` holds the pending steps of `steps`, in order and prepared. */
  ghost predicate Thinned(steps: seq<Step>, kept: seq<Step>, pending: set<StepId>, completed: Context) {
    if steps == [] then kept == []
    else if steps[0].id in pending then
      kept != [] && Prepared(steps[0], kept[0], completed) && Thinned(steps[1..], kept[1..], pending, completed)
    else Thinned(steps[1..], kept, pending, completed)
  }

  lemma {:induction false} RunKeepsOutputs(steps: seq<Step>, context: Context, exec: Executor)
    requires forall s | s in steps :: s.id !in context
    requires NoDuplicates(Ids(steps)) && RunFrom(steps, context, exec).failedAt.None?
    ensures var final := RunFrom(steps, context, exec).context;
      forall s | s in context :: s in final && final[s] == context[s]
    decreases |steps|
  {
    if steps != [] {
      var outputs := exec(steps[0].id, steps[0].tool, Resolve(steps[0].inputs, context).value).value;
      TailApart(steps, context, outputs);
      RunKeepsOutputs(steps[1..], context[steps[0].id := outputs], exec);
    }
  }

  lemma TailApart(steps: seq<Step>, context: Context, outputs: seq<Field>)
    requires steps != [] && NoDuplicates(Ids(steps)) && forall s | s in steps :: s.id !in context
    ensures NoDuplicates(Ids(steps[1..]))
    ensures forall s | s in steps[1..] :: s.id !in context[steps[0].id := outputs]
  {
    IdsOfSuffix(steps, 1);
    forall s | s in steps[1..] ensures s.id != steps[0].id {
      var i :| 0 <= i < |steps[1..]| && steps[1..][i] == s;
      assert Ids(steps)[i + 1] != Ids(steps)[0];
    }
  }

  /** Every completed output of the final context is stored, and nothing else. */
  ghost predicate StoresCompleted(final: Context, pending: set<StepId>, completed: Context) {
    completed == DropOutputs(final, pending)
  }

  /** At each step the stored outputs and the pending context resolve what the full context resolves. */
  lemma ResolvesFromStore(value: Value, context: Context, final: Context, pending: set<StepId>, completed: Context)
    requires Resolve(value, context).Ok? && StoresCompleted(final, pending, completed) && StoredSafely(completed)
    requires forall s | s in context :: s in final && final[s] == context[s]
    ensures Materialize(value, completed).Ok?
    ensures Resolve(Materialize(value, completed).value, KeepOutputs(context, pending)) == Resolve(value, context)
  {
    var kept := KeepOutputs(context, pending);
    ResolveMonotone(value, context, completed + kept);
    MaterializeAgrees(value, completed, kept);
  }

  lemma {:induction false} StoredReferencesResolve(steps: seq<Step>, context: Context, final: Context,
                                                   pending: set<StepId>,
                                                   completed: Context, exec: Executor)
    requires (forall s | s in steps :: s.id !in context) && NoDuplicates(Ids(steps))
    requires RunFrom(steps, context, exec).failedAt.None? && final == RunFrom(steps, context, exec).context
    requires StoresCompleted(final, pending, completed) && StoredSafely(completed)
    ensures forall s | s in steps :: Materialize(s.inputs, completed).Ok?
    decreases |steps|
  {
    if steps != [] {
      RunKeepsOutputs(steps, context, exec);
      ResolvesFromStore(steps[0].inputs, context, final, pending, completed);
      var outputs := exec(steps[0].id, steps[0].tool, Resolve(steps[0].inputs, context).value).value;
      TailApart(steps, context, outputs);
      StoredReferencesResolve(steps[1..], context[steps[0].id := outputs], final, pending, completed, exec);
    }
  }

  lemma {:induction false} ThinnedRun(steps: seq<Step>, kept: seq<Step>, context: Context, final: Context,
                                      pending: set<StepId>,
                                      completed: Context, exec: Executor)
    requires (forall s | s in steps :: s.id !in context) && NoDuplicates(Ids(steps))
    requires RunFrom(steps, context, exec).failedAt.None? && final == RunFrom(steps, context, exec).context
    requires StoresCompleted(final, pending, completed) && StoredSafely(completed)
    requires Thinned(steps, kept, pending, completed)
    ensures RunFrom(kept, KeepOutputs(context, pending), exec) ==
            Outcome(KeepOutputs(final, pending), KeepCalls(RunFrom(steps, context, exec).calls, pending), None)
    decreases |steps|
  {
    if steps != [] {
      var s := steps[0];
      RunKeepsOutputs(steps, context, exec);
      ResolvesFromStore(s.inputs, context, final, pending, completed);
      var outputs := exec(s.id, s.tool, Resolve(s.inputs, context).value).value;
      TailApart(steps, context, outputs);
      var next := context[s.id := outputs];
      if s.id in pending {
        ThinnedRun(steps[1..], kept[1..], next, final, pending, completed, exec);
        assert KeepOutputs(next, pending) == KeepOutputs(context, pending)[s.id := outputs];
      } else {
        ThinnedRun(steps[1..], kept, next, final, pending, completed, exec);
        assert KeepOutputs(next, pending) == KeepOutputs(context, pending);
      }
      var rest := RunFrom(steps[1..], next, exec).calls;
      assert RunFrom(steps, context, exec).calls[1..] == rest;
    }
  }

  lemma {:induction false} ThinnedFromIds(steps: seq<Step>, kept: seq<Step>, pending: set<StepId>, completed: Context,
                                          byId: map<StepId, Step>)
    requires Ids(kept) == Filter(Ids(steps), pending)
    requires forall s | s in steps :: s.id in byId && byId[s.id] == s
    requires forall p | p in kept :: p.id in byId && Prepared(byId[p.id], p, completed)
    ensures Thinned(steps, kept, pending, completed)
  {
    if steps != [] {
      IdsOfSuffix(steps, 1);
      if steps[0].id in pending {
        assert Ids(kept)[0] == steps[0].id;
        IdsOfSuffix(kept, 1);
        assert Filter(Ids(steps), pending)[1..] == Filter(Ids(steps)[1..], pending);
        ThinnedFromIds(steps[1..], kept[1..], pending, completed, byId);
      } else {
        assert Filter(Ids(steps), pending) == Filter(Ids(steps)[1..], pending);
        ThinnedFromIds(steps[1..], kept, pending, completed, byId);
      }
    } else {
      assert |Ids(kept)| == 0;
    }
  }

  /** The materialized resumed plan orders as the pending steps of the original order, prepared. */
  lemma ResumedIsThinned(plan: seq<Step>, ordered: seq<Step>, pending: set<StepId>, done: seq<Step>, completed: Context)
    requires OrderSteps(plan) == Ok(ordered) && DependencyClosed(Dependencies(plan), pending)
    requires MaterializeSteps(Pending(plan, pending), completed) == Ok(done)
    ensures OrderSteps(done).Ok? && Thinned(ordered, OrderSteps(done).value, pending, completed)
  {
    hide OrderSteps, Pending, MaterializeSteps, Thinned;
    var resumed := Pending(plan, pending);
    ResumedOrderIsFiltered(plan, pending);
    OrderIgnoresInputs(resumed, completed);
    OrderedDistinct(plan, ordered);
    ResumedStepsAreTrimmed(plan, pending);
    OrderedStepsAreSteps(plan);
    var a, b, byId := OrderSteps(resumed).value, OrderSteps(done).value, ById(plan);
    forall p | p in b ensures p.id in byId && Prepared(byId[p.id], p, completed) {
      var i :| 0 <= i < |b| && b[i] == p;
      assert a[i] in a && Prepared(a[i], b[i], completed);
    }
    assert Ids(b) == Ids(a);
    ThinnedFromIds(ordered, b, pending, completed, byId);
  }

  /**
   * After a run that completes, any dependency-closed set of its steps may be kept as completed: resuming the others
   * from the kept outputs makes exactly their calls again, with the same inputs, and leaves exactly their outputs.
   * With no other step left, resuming is refused.
   */
  lemma ClosedResumePreservesRun(plan: seq<Step>, ordered: seq<Step>, pending: set<StepId>, full: Outcome,
                                 exec: Executor)
    requires OrderSteps(plan) == Ok(ordered) && DependencyClosed(Dependencies(plan), pending)
    requires full == RunFrom(ordered, map[], exec) && full.failedAt.None?
    requires StoredSafely(DropOutputs(full.context, pending))
    ensures ResumeSteps(Pending(plan, pending), DropOutputs(full.context, pending), exec) ==
            if exists s :: s in plan && s.id in pending
            then Ok(Outcome(KeepOutputs(full.context, pending), KeepCalls(full.calls, pending), None))
            else Err(PlanRefused(InvalidPlan))
  {
    hide OrderSteps, Pending, MaterializeSteps, Thinned, RunFrom, StoredSafely, DropOutputs, DependencyClosed,
         KeepCalls;
    var completed, resumed := DropOutputs(full.context, pending), Pending(plan, pending);
    OrderedDistinct(plan, ordered);
    StoredReferencesResolve(ordered, map[], full.context, pending, completed, exec);
    forall s | s in plan && s.id in pending ensures s in ordered {
      PlanStepIsOrdered(plan, ordered, s);
    }
    PendingMaterializes(plan, pending, ordered, completed);
    var done := MaterializeSteps(resumed, completed).value;
    ResumedIsThinned(plan, ordered, pending, done, completed);
    ThinnedRun(ordered, OrderSteps(done).value, map[], full.context, pending, completed, exec);
    assert KeepOutputs(map[], pending) == map[];
    PendingIffSome(plan, pending);
    assert |done| == |resumed| by { MaterializedShape(resumed, completed); }
  }

  lemma PendingIffSome(plan: seq<Step>, pending: set<StepId>)
    ensures Pending(plan, pending) != [] <==> exists s :: s in plan && s.id in pending
  {
    if Pending(plan, pending) != [] {
      assert Pending(plan, pending)[0] in Pending(plan, pending);
      PendingComesFrom(plan, pending);
    }
    forall s | s in plan && s.id in pending ensures Pending(plan, pending) != [] {
      PendingFindsAny(plan, pending, s);
    }
  }

  lemma {:induction false} PendingFindsAny(plan: seq<Step>, pending: set<StepId>, s: Step)
    requires s in plan && s.id in pending
    ensures Pending(plan, pending) != []
  {
    if plan[0].id !in pending {
      PendingFindsAny(plan[1..], pending, s);
    }
  }

  lemma PlanStepIsOrdered(plan: seq<Step>, ordered: seq<Step>, s: Step)
    requires OrderSteps(plan) == Ok(ordered) && s in plan
    ensures s in ordered
  {
    OrderStepsIsTopological(plan, ordered);
    assert s in multiset(plan);
  }

  // ----- without closure -----

  /** A plan whose last step `c` needs `b`, which needs `a`, listed backwards. */
  ghost predicate Backwards(plan: seq<Step>, a: StepId, b: StepId, c: StepId) {
    && |plan| == 3 && a != b && b != c && a != c
    && plan[0].id == c && plan[0].dependsOn == [b]
    && plan[1].id == b && plan[1].dependsOn == [a]
    && plan[2].id == a && plan[2].dependsOn == []
  }

  lemma BackwardsIds(plan: seq<Step>, a: StepId, b: StepId, c: StepId)
    requires Backwards(plan, a, b, c)
    ensures UniqueIds(plan) && Ids(plan) == [c, b, a] && IdSet(plan) == {a, b, c}
  {
    hide ById;
    assert Ids(plan) == [c, b, a];
    IdSetIsElements(plan);
  }

  lemma BackwardsDependencies(plan: seq<Step>, a: StepId, b: StepId, c: StepId)
    requires Backwards(plan, a, b, c)
    ensures Dependencies(plan) == map[a := [], b := [a], c := [b]]
  {
    hide ById;
    BackwardsIds(plan, a, b, c);
    ByIdFinds(plan, 0);
    ByIdFinds(plan, 1);
    ByIdFinds(plan, 2);
    SameEdges(Dependencies(plan), map[a := [], b := [a], c := [b]]);
  }

  lemma {:induction false} IndependentOrder(deps: Edges, roots: seq<StepId>, at: Progress)
    requires (forall id | id in deps :: deps[id] == []) && forall id | id in roots :: id in deps
    requires at.visiting == {} && NoDuplicates(roots) && forall id | id in roots :: id !in at.seen
    ensures VisitAll(deps, roots, at).Ok? && VisitAll(deps, roots, at).value.ordered == at.ordered + roots
    decreases |roots|
  {
    if roots != [] {
      var next := Progress(at.ordered + [roots[0]], at.seen + {roots[0]}, at.visiting);
      assert at.visiting + {roots[0]} - {roots[0]} == at.visiting;
      assert Visit(deps, roots[0], at) == Ok(next);
      assert forall i | 0 <= i < |roots[1..]| :: roots[1..][i] == roots[i + 1] != roots[0];
      IndependentOrder(deps, roots[1..], next);
      assert at.ordered + roots == next.ordered + roots[1..];
    }
  }

  /** Dependencies through completed steps are forgotten: without direct ones, the listing order decides. */
  lemma ResumeForgetsIndirectDependencies(plan: seq<Step>, pending: set<StepId>)
    requires UniqueIds(plan)
    requires forall u, v | u in Dependencies(plan) && u in pending && v in Dependencies(plan)[u] :: v !in pending
    ensures OrderSteps(Pending(plan, pending)).Ok?
    ensures Ordered(Pending(plan, pending)) == Filter(Ids(plan), pending)
  {
    hide OrderSteps, ById, Pending, Dependencies;
    var resumed, kept, ids := Pending(plan, pending), Kept(Dependencies(plan), pending), Filter(Ids(plan), pending);
    PendingDependencies(plan, pending);
    forall id | id in kept ensures kept[id] == [] {
      FilterAll(Dependencies(plan)[id], pending);
    }
    KeptIsKnown(resumed, kept);
    PendingIds(plan, pending);
    IdSetIsElements(resumed);
    IndependentOrder(kept, ids, Progress([], {}, {}));
    assert [] + ids == ids && Ids(resumed) == ids;
    assert Order(kept, ids) == Ok(ids);
    OrderDeterminesSteps(resumed, ids);
  }

  lemma BackwardsOrders(plan: seq<Step>, a: StepId, b: StepId, c: StepId)
    requires Backwards(plan, a, b, c)
    ensures OrderSteps(plan).Ok? && Ordered(plan) != [] && Ordered(plan)[0] == a
  {
    hide OrderSteps, ById, Acyclic;
    BackwardsIds(plan, a, b, c);
    BackwardsDependencies(plan, a, b, c);
    var deps := Dependencies(plan);
    RankedIsAcyclic(IdSet(plan), deps, map[a := 0, b := 1, c := 2]);
    OrderStepsSucceedsIffOrderable(plan);
    var ids := OrderStepsIds(plan);
    LookupDependenciesFirst(plan, ids, OrderSteps(plan).value);
    assert a in deps && a in ids;
    assert ids[0] in deps && forall d | d in deps[ids[0]] :: d in ids[..0];
    HeadIsMember(deps[ids[0]]);
  }

  lemma HeadIsMember(s: seq<StepId>)
    ensures s == [] || s[0] in s
  {
  }

  lemma LostThroughCompleted(deps: Edges, a: StepId, b: StepId, c: StepId)
    requires a != b && b != c && a != c && deps == map[a := [], b := [a], c := [b]]
    ensures !PathsStayPending(deps, {a, c})
  {
    var kept := Kept(deps, {a, c});
    assert Leads(deps, [c, b, a], c, a);
    assert c in kept && forall x :: x !in kept[c];
    forall p ensures !Leads(kept, p, c, a) {
      assert |p| >= 2 && p[0] == c ==> !IsEdge(kept.Keys, kept, p[0], p[1]);
    }
  }

  /** A valid checkpoint after which the resumed plan runs its steps in another order than the original plan. */
  ghost predicate Reorders(plan: seq<Step>, completed: set<StepId>, pending: set<StepId>) {
    && CreateCheckpoint(plan, "id", "subject", completed, pending, map[]).Ok?
    && OrderSteps(plan).Ok? && OrderSteps(Pending(plan, pending)).Ok?
    && Ordered(Pending(plan, pending)) != Filter(Ordered(plan), pending)
  }

  /**
   * Checkpoints may name any partition. When a completed step depends on a pending one, the resumed plan can run a
   * step before another that it needs in the original plan; `PlanResumeOrder.ResumeKeepsDependenciesIff` says when it
   * cannot.
   */
  lemma UnclosedResumeReorders(plan: seq<Step>, a: StepId, b: StepId, c: StepId)
    requires Backwards(plan, a, b, c)
    ensures !DependencyClosed(Dependencies(plan), {a, c}) && Reorders(plan, {b}, {a, c})
    ensures !PathsStayPending(Dependencies(plan), {a, c})
  {
    hide OrderSteps, ById, Pending, Filter, Dependencies, UniqueIds;
    var pending, ids := {a, c}, [c, b, a];
    BackwardsIds(plan, a, b, c);
    BackwardsDependencies(plan, a, b, c);
    assert b in Dependencies(plan) && a in Dependencies(plan)[b];
    LostThroughCompleted(Dependencies(plan), a, b, c);
    ResumeForgetsIndirectDependencies(plan, pending);
    assert ids == [c] + [b, a];
    FilterAppend([c], [b, a], pending);
    FilterAll([c], pending);
    BackwardsOrders(plan, a, b, c);
    var original := Ordered(plan);
    assert original == [a] + original[1..];
    FilterAppend([a], original[1..], pending);
    FilterAll([a], pending);
    assert Filter(ids, pending)[0] == c && Filter(original, pending)[0] == a;
  }
}
