/** Approval checkpoints, resumed plans, and the proof that resuming runs the rest of the original plan. */
module PlanResume {
  import opened Wrappers
  import opened DependencyGraph
  import opened PlanModel
  import opened PlanOrder

  // ----- checkpoints and resumed plans -----

  /** The canonical digest of a plan; equal digests mean equal plans. */
  datatype PlanDigest = PlanDigest(plan: seq<Step>)

  datatype Checkpoint = Checkpoint(
    id: string, subject: string, plan: PlanDigest, evidence: map<string, string>,
    completed: seq<StepId>, pending: seq<StepId>)

  datatype Decision = Decision(
    approved: bool, checkpoint: string, subject: string, plan: PlanDigest, evidence: map<string, string>)

  datatype ApprovalError = InvalidPartition | UnaccountedStep | NotApproved | PlanChanged | BindingMismatch

  function Filter(ids: seq<StepId>, keep: set<StepId>): (kept: seq<StepId>)
    ensures forall id :: id in kept <==> id in ids && id in keep
  {
    if ids == [] then []
    else (if ids[0] in keep then [ids[0]] else []) + Filter(ids[1..], keep)
  }

  /** `create_checkpoint`: every plan step is either completed or pending. */
  function CreateCheckpoint(plan: seq<Step>, id: string, subject: string, completed: set<StepId>, pending: set<StepId>,
                            evidence: map<string, string>): Result<Checkpoint, ApprovalError>
  {
    if completed * pending != {} || !(completed + pending <= IdSet(plan)) then Err(InvalidPartition)
    else if completed + pending != IdSet(plan) then Err(UnaccountedStep)
    else Ok(Checkpoint(id, subject, PlanDigest(plan), evidence, Filter(Ids(plan), completed),
                       Filter(Ids(plan), pending)))
  }

  function Trim(step: Step, keep: set<StepId>): Step {
    step.(dependsOn := Filter(step.dependsOn, keep))
  }

  /** The pending steps, in plan order, without their dependencies on completed steps. */
  function Pending(steps: seq<Step>, keep: set<StepId>): (kept: seq<Step>)
    ensures Ids(kept) == Filter(Ids(steps), keep)
  {
    if steps == [] then []
    else
      assert Ids(steps)[1..] == Ids(steps[1..]);
      var rest := Pending(steps[1..], keep);
      assert Ids([Trim(steps[0], keep)] + rest) == [steps[0].id] + Ids(rest);
      (if steps[0].id in keep then [Trim(steps[0], keep)] else []) + rest
  }

  function PendingSet(checkpoint: Checkpoint): set<StepId> {
    Elements(checkpoint.pending)
  }

  /** `build_resumed_plan`. */
  function BuildResumedPlan(plan: seq<Step>, checkpoint: Checkpoint,
                            decision: Decision): Result<seq<Step>, ApprovalError> {
    if !decision.approved then Err(NotApproved)
    else if PlanDigest(plan) != checkpoint.plan then Err(PlanChanged)
    else if decision.checkpoint != checkpoint.id || decision.subject != checkpoint.subject
            || decision.plan != checkpoint.plan || decision.evidence != checkpoint.evidence then Err(BindingMismatch)
    else Ok(Pending(plan, PendingSet(checkpoint)))
  }

  // ----- the order of a resumed plan -----

  /** No completed step depends on a pending one. */
  ghost predicate DependencyClosed(deps: Edges, pending: set<StepId>) {
    forall u, v | u in deps && u !in pending && v in deps[u] :: v !in pending
  }

  function Kept(deps: Edges, keep: set<StepId>): Edges {
    map id | id in deps && id in keep :: Filter(deps[id], keep)
  }

  function Restrict(at: Progress, keep: set<StepId>): Progress {
    Progress(Filter(at.ordered, keep), at.seen * keep, at.visiting * keep)
  }

  lemma {:induction false} FilterAppend(a: seq<StepId>, b: seq<StepId>, keep: set<StepId>)
    ensures Filter(a + b, keep) == Filter(a, keep) + Filter(b, keep)
  {
    if a == [] {
      assert a + b == b;
    } else {
      assert (a + b)[1..] == a[1..] + b;
      FilterAppend(a[1..], b, keep);
    }
  }

  lemma KeptClosed(deps: Edges, keep: set<StepId>)
    requires Closed(deps)
    ensures Closed(Kept(deps, keep))
  {
  }

  lemma RestrictPush(at: Progress, id: StepId, keep: set<StepId>)
    ensures var inner := Restrict(at.(visiting := at.visiting + {id}), keep);
      inner == if id in keep then Restrict(at, keep).(visiting := at.visiting * keep + {id}) else Restrict(at, keep)
  {
    assert (at.visiting + {id}) * keep == at.visiting * keep + (if id in keep then {id} else {});
  }

  lemma RestrictPop(below: Progress, id: StepId, keep: set<StepId>)
    requires id in below.visiting
    ensures var after := Restrict(Progress(below.ordered + [id], below.seen + {id}, below.visiting - {id}), keep);
      var kept := Restrict(below, keep);
      after == if id in keep then Progress(kept.ordered + [id], kept.seen + {id}, kept.visiting - {id}) else kept
  {
    FilterAppend(below.ordered, [id], keep);
    assert (below.seen + {id}) * keep == below.seen * keep + (if id in keep then {id} else {});
    assert (below.visiting - {id}) * keep == below.visiting * keep - (if id in keep then {id} else {});
  }

  /** A visit of the original graph is, on the pending part, a visit of the kept graph or nothing at all. */
  ghost predicate Simulates(deps: Edges, id: StepId, at: Progress, keep: set<StepId>)
    requires Closed(deps) && Closed(Kept(deps, keep)) && id in deps && Visit(deps, id, at).Ok?
  {
    var after := Restrict(Visit(deps, id, at).value, keep);
    if id in keep then Visit(Kept(deps, keep), id, Restrict(at, keep)) == Ok(after) else after == Restrict(at, keep)
  }

  lemma {:induction false} VisitRestricts(deps: Edges, id: StepId, at: Progress, keep: set<StepId>)
    requires Closed(deps) && Closed(Kept(deps, keep)) && DependencyClosed(deps, keep)
    requires id in deps && Visit(deps, id, at).Ok?
    ensures Simulates(deps, id, at, keep)
    decreases deps.Keys - at.visiting, 0, 0
  {
    if id !in at.seen {
      var inner := at.(visiting := at.visiting + {id});
      VisitAllRestricts(deps, deps[id], inner, keep);
      RestrictPush(at, id, keep);
      RestrictPop(VisitAll(deps, deps[id], inner).value, id, keep);
      if id !in keep {
        assert Filter(deps[id], keep) == [];
      }
    }
  }

  lemma {:induction false} VisitAllRestricts(deps: Edges, ids: seq<StepId>, at: Progress, keep: set<StepId>)
    requires Closed(deps) && Closed(Kept(deps, keep)) && DependencyClosed(deps, keep)
    requires (forall id | id in ids :: id in deps) && VisitAll(deps, ids, at).Ok?
    ensures VisitAll(Kept(deps, keep), Filter(ids, keep), Restrict(at, keep))
            == Ok(Restrict(VisitAll(deps, ids, at).value, keep))
    decreases deps.Keys - at.visiting, 1, |ids|
  {
    if ids != [] {
      var rest := Filter(ids[1..], keep);
      VisitRestricts(deps, ids[0], at, keep);
      VisitAllRestricts(deps, ids[1..], Visit(deps, ids[0], at).value, keep);
      if ids[0] in keep {
        assert Filter(ids, keep) == [ids[0]] + rest && Filter(ids, keep)[1..] == rest;
      } else {
        assert Filter(ids, keep) == rest;
      }
    }
  }

  function Ordered(steps: seq<Step>): seq<StepId>
    requires OrderSteps(steps).Ok?
  {
    Ids(OrderSteps(steps).value)
  }

  lemma {:induction false} FilterKeepsDistinct(ids: seq<StepId>, keep: set<StepId>)
    requires NoDuplicates(ids)
    ensures NoDuplicates(Filter(ids, keep))
  {
    if ids != [] {
      FilterKeepsDistinct(ids[1..], keep);
      assert forall j | 0 <= j < |ids[1..]| :: ids[1..][j] == ids[j + 1] != ids[0];
    }
  }

  lemma {:induction false} PendingFinds(steps: seq<Step>, keep: set<StepId>, s: Step)
    requires s in steps && s.id in keep
    ensures Trim(s, keep) in Pending(steps, keep)
  {
    if s != steps[0] {
      PendingFinds(steps[1..], keep, s);
    }
  }

  /** A step of the resumed plan is the original step without its completed dependencies. */
  lemma PendingStep(steps: seq<Step>, keep: set<StepId>, id: StepId)
    requires UniqueIds(steps) && id in IdSet(steps) && id in keep
    ensures id in ById(Pending(steps, keep)) && ById(Pending(steps, keep))[id] == Trim(ById(steps)[id], keep)
  {
    var resumed := Pending(steps, keep);
    FilterKeepsDistinct(Ids(steps), keep);
    var s := ById(steps)[id];
    PendingFinds(steps, keep, s);
    var k :| 0 <= k < |resumed| && resumed[k] == Trim(s, keep);
    ByIdFinds(resumed, k);
  }

  lemma PendingIds(steps: seq<Step>, keep: set<StepId>)
    ensures IdSet(Pending(steps, keep)) == IdSet(steps) * keep
  {
    IdSetIsElements(steps);
    IdSetIsElements(Pending(steps, keep));
  }

  lemma SameEdges(a: Edges, b: Edges)
    requires a.Keys == b.Keys && forall id | id in a :: a[id] == b[id]
    ensures a == b
  {
  }

  /** The resumed plan's dependency map is the original one cut down to the pending steps. */
  lemma PendingDependencies(steps: seq<Step>, keep: set<StepId>)
    requires UniqueIds(steps)
    ensures UniqueIds(Pending(steps, keep))
    ensures Dependencies(Pending(steps, keep)) == Kept(Dependencies(steps), keep)
  {
    var resumed, kept := Dependencies(Pending(steps, keep)), Kept(Dependencies(steps), keep);
    assert UniqueIds(Pending(steps, keep)) by {
      FilterKeepsDistinct(Ids(steps), keep);
    }
    assert resumed.Keys == kept.Keys by {
      PendingIds(steps, keep);
    }
    forall id | id in kept ensures resumed[id] == kept[id] {
      PendingStep(steps, keep, id);
    }
    SameEdges(resumed, kept);
  }

  lemma KeptIsKnown(steps: seq<Step>, deps: Edges)
    requires UniqueIds(steps) && Dependencies(steps) == deps && Closed(deps)
    ensures KnownDependencies(steps)
  {
    forall s, d | s in steps && d in s.dependsOn ensures d in IdSet(steps) {
      var k :| 0 <= k < |steps| && steps[k] == s;
      ByIdFinds(steps, k);
      assert deps[s.id] == s.dependsOn;
    }
  }

  lemma OrderDeterminesSteps(steps: seq<Step>, ids: seq<StepId>)
    requires UniqueIds(steps) && KnownDependencies(steps) && Order(Dependencies(steps), Ids(steps)) == Ok(ids)
    ensures OrderSteps(steps).Ok? && Ordered(steps) == ids
  {
    IdSetIsElements(steps);
    OrdersIffAcyclic(Dependencies(steps), Ids(steps));
    OrderStepsSucceedsIffOrderable(steps);
    var same := OrderStepsIds(steps);
    LookupDependenciesFirst(steps, same, OrderSteps(steps).value);
  }

  lemma OrderedStepsAreSteps(steps: seq<Step>)
    requires OrderSteps(steps).Ok?
    ensures forall s | s in OrderSteps(steps).value :: s.id in ById(steps) && s == ById(steps)[s.id]
  {
    var ids := OrderStepsIds(steps);
  }

  /** The resumed plan orders, and in the original order of its steps. */
  lemma ResumedOrderIsFiltered(steps: seq<Step>, pending: set<StepId>)
    requires OrderSteps(steps).Ok? && DependencyClosed(Dependencies(steps), pending)
    ensures OrderSteps(Pending(steps, pending)).Ok?
    ensures Ordered(Pending(steps, pending)) == Filter(Ordered(steps), pending)
  {
    hide ById, IdSet, UniqueIds, KnownDependencies, Lookup, Visit, VisitAll, OrderSteps, Kept, Closed, DependencyClosed,
         Elements;
    var resumed, deps := Pending(steps, pending), Dependencies(steps);
    var ids := OrderStepsIds(steps);
    LookupDependenciesFirst(steps, ids, OrderSteps(steps).value);
    PendingDependencies(steps, pending);
    KeptClosed(deps, pending);
    KeptIsKnown(resumed, Kept(deps, pending));
    IdSetIsElements(steps);
    VisitAllRestricts(deps, Ids(steps), Progress([], {}, {}), pending);
    assert Restrict(Progress([], {}, {}), pending) == Progress([], {}, {});
    OrderDeterminesSteps(resumed, Filter(ids, pending));
  }

  lemma ResumedStepsAreTrimmed(steps: seq<Step>, pending: set<StepId>)
    requires UniqueIds(steps) && OrderSteps(Pending(steps, pending)).Ok?
    ensures forall s | s in OrderSteps(Pending(steps, pending)).value ::
              s.id in ById(steps) && s == Trim(ById(steps)[s.id], pending)
  {
    OrderedStepsAreSteps(Pending(steps, pending));
    PendingIds(steps, pending);
    forall s | s in OrderSteps(Pending(steps, pending)).value
      ensures s.id in ById(steps) && s == Trim(ById(steps)[s.id], pending)
    {
      PendingStep(steps, pending, s.id);
    }
  }
}
