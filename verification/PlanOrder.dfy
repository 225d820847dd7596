/** Dependency ordering of plan steps, and its agreement with plan validation. */
module PlanOrder {
  import opened Wrappers
  import opened DependencyGraph
  import opened PlanModel

  datatype PlanError =
    | DuplicateIds
    | UnknownDependency(step: StepId, dependency: StepId)
    | CycleAt(step: StepId)
    | InvalidPlan

  /** What the nested `visit` reads and writes: the order so far and the two marker sets. */
  datatype Progress = Progress(ordered: seq<StepId>, seen: set<StepId>, visiting: set<StepId>)

  ghost predicate Closed(deps: Edges) {
    forall u, v | u in deps && v in deps[u] :: v in deps
  }

  function Visit(deps: Edges, id: StepId, at: Progress): (r: Result<Progress, PlanError>)
    requires Closed(deps) && id in deps
    ensures r.Ok? ==> r.value.visiting == at.visiting
    decreases deps.Keys - at.visiting, 0, 0
  {
    if id in at.seen then Ok(at)
    else if id in at.visiting then Err(CycleAt(id))
    else
      match VisitAll(deps, deps[id], at.(visiting := at.visiting + {id}))
      case Err(e) => Err(e)
      case Ok(below) => Ok(Progress(below.ordered + [id], below.seen + {id}, below.visiting - {id}))
  }

  function VisitAll(deps: Edges, ids: seq<StepId>, at: Progress): (r: Result<Progress, PlanError>)
    requires Closed(deps) && forall id | id in ids :: id in deps
    ensures r.Ok? ==> r.value.visiting == at.visiting
    decreases deps.Keys - at.visiting, 1, |ids|
  {
    if ids == [] then Ok(at)
    else
      match Visit(deps, ids[0], at)
      case Err(e) => Err(e)
      case Ok(next) => VisitAll(deps, ids[1..], next)
  }

  /** The order produced from a list of roots. */
  function Order(deps: Edges, roots: seq<StepId>): Result<seq<StepId>, PlanError>
    requires Closed(deps) && forall id | id in roots :: id in deps
  {
    match VisitAll(deps, roots, Progress([], {}, {}))
    case Err(e) => Err(e)
    case Ok(done) => Ok(done.ordered)
  }

  /** `order_steps` on values. */
  function OrderSteps(steps: seq<Step>): Result<seq<Step>, PlanError> {
    if |IdSet(steps)| != |steps| then Err(DuplicateIds)
    else
      match FirstUnknown(steps, IdSet(steps))
      case Some(e) => Err(e)
      case None =>
        UnknownAbsent(steps, IdSet(steps));
        match Order(Dependencies(steps), Ids(steps))
        case Err(e) => Err(e)
        case Ok(ids) =>
          OrderStaysInside(Dependencies(steps), Ids(steps));
          Ok(Lookup(ById(steps), ids))
  }

  function Lookup(byId: map<StepId, Step>, ids: seq<StepId>): (steps: seq<Step>)
    requires forall id | id in ids :: id in byId
    ensures |steps| == |ids| && forall i | 0 <= i < |ids| :: steps[i] == byId[ids[i]]
  {
    seq(|ids|, i requires 0 <= i < |ids| => byId[ids[i]])
  }

  /** The first unknown dependency, in plan order. */
  function FirstUnknown(steps: seq<Step>, known: set<StepId>): Option<PlanError> {
    if steps == [] then None
    else
      match FirstUnknownOf(steps[0], steps[0].dependsOn, known)
      case Some(e) => Some(e)
      case None => FirstUnknown(steps[1..], known)
  }

  function FirstUnknownOf(step: Step, dependsOn: seq<StepId>, known: set<StepId>): Option<PlanError> {
    if dependsOn == [] then None
    else if dependsOn[0] !in known then Some(UnknownDependency(step.id, dependsOn[0]))
    else FirstUnknownOf(step, dependsOn[1..], known)
  }

  lemma UnknownOfAbsent(step: Step, dependsOn: seq<StepId>, known: set<StepId>)
    ensures FirstUnknownOf(step, dependsOn, known).None? <==> forall d | d in dependsOn :: d in known
  {
    if dependsOn != [] {
      UnknownOfAbsent(step, dependsOn[1..], known);
      assert forall d :: d in dependsOn <==> d == dependsOn[0] || d in dependsOn[1..];
    }
  }

  lemma UnknownAbsent(steps: seq<Step>, known: set<StepId>)
    ensures FirstUnknown(steps, known).None? <==> forall s, d | s in steps && d in s.dependsOn :: d in known
  {
    if steps != [] {
      UnknownOfAbsent(steps[0], steps[0].dependsOn, known);
      UnknownAbsent(steps[1..], known);
      assert forall s :: s in steps <==> s == steps[0] || s in steps[1..];
    }
  }

  // ----- the order is topological and complete -----

  /** Emitted steps are the seen ones, each once, each after all its dependencies. */
  ghost predicate Emitted(deps: Edges, at: Progress) {
    && NoDuplicates(at.ordered)
    && (forall id :: id in at.ordered <==> id in at.seen)
    && at.seen <= deps.Keys && at.visiting <= deps.Keys && at.seen !! at.visiting
    && DependenciesFirst(deps, at.ordered)
  }

  ghost predicate DependenciesFirst(deps: Edges, ordered: seq<StepId>) {
    forall i, d | 0 <= i < |ordered| && ordered[i] in deps && d in deps[ordered[i]] :: d in ordered[..i]
  }

  lemma {:induction false} VisitEmits(deps: Edges, id: StepId, at: Progress)
    requires Closed(deps) && id in deps && Emitted(deps, at) && Visit(deps, id, at).Ok?
    ensures var r := Visit(deps, id, at).value; Emitted(deps, r) && at.ordered <= r.ordered && id in r.seen
    decreases deps.Keys - at.visiting, 0, 0
  {
    if id !in at.seen {
      var inner := at.(visiting := at.visiting + {id});
      VisitAllEmits(deps, deps[id], inner);
      var below := VisitAll(deps, deps[id], inner).value;
      var r := Visit(deps, id, at).value;
      assert id !in below.ordered;
      forall i, d | 0 <= i < |r.ordered| && r.ordered[i] in deps && d in deps[r.ordered[i]]
        ensures d in r.ordered[..i]
      {
        if i < |below.ordered| {
          assert d in below.ordered[..i];
          assert below.ordered[..i] == r.ordered[..i];
        } else {
          assert r.ordered[..i] == below.ordered;
        }
      }
    }
  }

  lemma {:induction false} VisitAllEmits(deps: Edges, ids: seq<StepId>, at: Progress)
    requires Closed(deps) && (forall id | id in ids :: id in deps) && Emitted(deps, at)
    requires VisitAll(deps, ids, at).Ok?
    ensures var r := VisitAll(deps, ids, at).value;
      Emitted(deps, r) && at.ordered <= r.ordered && forall id | id in ids :: id in r.seen
    decreases deps.Keys - at.visiting, 1, |ids|
  {
    if ids != [] {
      VisitEmits(deps, ids[0], at);
      var next := Visit(deps, ids[0], at).value;
      VisitAllEmits(deps, ids[1..], next);
      assert ids[0] in next.ordered;
      assert forall id :: id in ids <==> id == ids[0] || id in ids[1..];
    }
  }

  lemma OrderStaysInside(deps: Edges, roots: seq<StepId>)
    requires Closed(deps) && (forall id | id in roots :: id in deps) && Order(deps, roots).Ok?
    ensures var ids := Order(deps, roots).value;
      && NoDuplicates(ids) && DependenciesFirst(deps, ids)
      && (forall id | id in ids :: id in deps) && (forall id | id in roots :: id in ids)
  {
    VisitAllEmits(deps, roots, Progress([], {}, {}));
  }

  // ----- the search fails only on a genuine cycle -----

  lemma {:induction false} VisitFailsOnCycle(deps: Edges, id: StepId, at: Progress, path: seq<StepId>)
    requires Closed(deps) && id in deps && Visit(deps, id, at).Err?
    requires (forall x :: x in path <==> x in at.visiting) && IsPath(deps.Keys, deps, path + [id])
    ensures !Acyclic(deps.Keys, deps)
    decreases deps.Keys - at.visiting, 0, 0
  {
    if id in at.visiting {
      var idx :| 0 <= idx < |path| && path[idx] == id;
      assert (path + [id])[|path| - 1] == path[|path| - 1];
      assert IsEdge(deps.Keys, deps, (path + [id])[|path| - 1], (path + [id])[|path|]);
      forall i | 0 <= i < |path| - 1 ensures IsEdge(deps.Keys, deps, path[i], path[i + 1]) {
        assert IsEdge(deps.Keys, deps, (path + [id])[i], (path + [id])[i + 1]);
      }
      CloseCycle(deps.Keys, deps, path, idx);
    } else {
      VisitAllFailsOnCycle(deps, deps[id], at.(visiting := at.visiting + {id}), path, id);
    }
  }

  lemma {:induction false} VisitAllFailsOnCycle(deps: Edges, ids: seq<StepId>, at: Progress, path: seq<StepId>,
                                                from: StepId)
    requires Closed(deps) && from in deps && (forall id | id in ids :: id in deps[from])
    requires VisitAll(deps, ids, at).Err?
    requires (forall x :: x in path + [from] <==> x in at.visiting) && IsPath(deps.Keys, deps, path + [from])
    ensures !Acyclic(deps.Keys, deps)
    decreases deps.Keys - at.visiting, 1, |ids|
  {
    var extended := path + [from];
    if Visit(deps, ids[0], at).Err? {
      assert IsEdge(deps.Keys, deps, from, ids[0]);
      forall i | 0 <= i < |extended + [ids[0]]| - 1
        ensures IsEdge(deps.Keys, deps, (extended + [ids[0]])[i], (extended + [ids[0]])[i + 1])
      {
        if i < |path| {
          assert IsEdge(deps.Keys, deps, extended[i], extended[i + 1]);
        }
      }
      VisitFailsOnCycle(deps, ids[0], at, extended);
    } else {
      VisitAllFailsOnCycle(deps, ids[1..], Visit(deps, ids[0], at).value, path, from);
    }
  }

  lemma {:induction false} RootsFailOnCycle(deps: Edges, roots: seq<StepId>, at: Progress)
    requires Closed(deps) && (forall id | id in roots :: id in deps) && at.visiting == {}
    requires VisitAll(deps, roots, at).Err?
    ensures !Acyclic(deps.Keys, deps)
    decreases |roots|
  {
    if Visit(deps, roots[0], at).Err? {
      VisitFailsOnCycle(deps, roots[0], at, []);
    } else {
      RootsFailOnCycle(deps, roots[1..], Visit(deps, roots[0], at).value);
    }
  }

  function IndexOf(s: seq<StepId>, x: StepId): (i: nat)
    requires x in s
    ensures i < |s| && s[i] == x
  {
    if s[0] == x then 0 else 1 + IndexOf(s[1..], x)
  }

  /** A duplicate-free order with dependencies first ranks every node. */
  lemma OrderedIsAcyclic(deps: Edges, ordered: seq<StepId>)
    requires NoDuplicates(ordered) && DependenciesFirst(deps, ordered)
    requires forall id | id in deps :: id in ordered
    ensures Acyclic(deps.Keys, deps)
  {
    var rank := map id | id in deps :: IndexOf(ordered, id);
    forall u, v | IsEdge(deps.Keys, deps, u, v) ensures rank[v] < rank[u] {
      assert v in ordered[..rank[u]];
    }
    RankedIsAcyclic(deps.Keys, deps, rank);
  }

  /** Ordering all nodes succeeds exactly on acyclic graphs. */
  lemma OrdersIffAcyclic(deps: Edges, roots: seq<StepId>)
    requires Closed(deps) && forall id :: id in roots <==> id in deps
    ensures Order(deps, roots).Ok? <==> Acyclic(deps.Keys, deps)
  {
    if Order(deps, roots).Ok? {
      OrderStaysInside(deps, roots);
      OrderedIsAcyclic(deps, Order(deps, roots).value);
    } else {
      RootsFailOnCycle(deps, roots, Progress([], {}, {}));
    }
  }

  // ----- the step list -----

  lemma IdSetIsElements(steps: seq<Step>)
    ensures IdSet(steps) == Elements(Ids(steps))
    ensures forall id :: id in Ids(steps) <==> id in IdSet(steps)
  {
    forall id ensures id in Ids(steps) <==> id in IdSet(steps) {
      if id in Ids(steps) {
        var i :| 0 <= i < |steps| && Ids(steps)[i] == id;
        assert steps[i].id == id;
      }
      if id in IdSet(steps) {
        var s :| s in steps && s.id == id;
        var i :| 0 <= i < |steps| && steps[i] == s;
        assert Ids(steps)[i] == id;
      }
    }
  }

  lemma RootsKnown(steps: seq<Step>)
    requires KnownDependencies(steps)
    ensures Closed(Dependencies(steps)) && forall id | id in Ids(steps) :: id in Dependencies(steps)
  {
    IdSetIsElements(steps);
  }

  /** What plan validation demands of the dependency structure. */
  ghost predicate Orderable(steps: seq<Step>) {
    UniqueIds(steps) && KnownDependencies(steps) && Acyclic(IdSet(steps), Dependencies(steps))
  }

  /** `order_steps` succeeds exactly on the plans validation accepts. */
  lemma OrderStepsSucceedsIffOrderable(steps: seq<Step>)
    ensures OrderSteps(steps).Ok? <==> Orderable(steps)
  {
    IdSetIsElements(steps);
    DistinctCount(Ids(steps));
    UnknownAbsent(steps, IdSet(steps));
    if UniqueIds(steps) && KnownDependencies(steps) {
      OrdersIffAcyclic(Dependencies(steps), Ids(steps));
    }
  }

  lemma {:induction false} DistinctMultiset<T(!new)>(s: seq<T>, x: T)
    requires NoDuplicates(s)
    ensures multiset(s)[x] == if x in s then 1 else 0
  {
    if s != [] {
      var init, last := s[..|s| - 1], s[|s| - 1];
      assert s == init + [last];
      DistinctMultiset(init, x);
      assert multiset(s) == multiset(init) + multiset{last};
      assert last !in init;
    }
  }

  lemma SameElementsOnce<T(!new)>(a: seq<T>, b: seq<T>)
    requires NoDuplicates(a) && NoDuplicates(b) && forall x :: x in a <==> x in b
    ensures multiset(a) == multiset(b)
  {
    forall x ensures multiset(a)[x] == multiset(b)[x] {
      DistinctMultiset(a, x);
      DistinctMultiset(b, x);
    }
  }

  lemma UniqueIdsUniqueSteps(steps: seq<Step>)
    requires UniqueIds(steps)
    ensures NoDuplicates(steps)
  {
    forall i, j | 0 <= i < j < |steps| ensures steps[i] != steps[j] {
      assert Ids(steps)[i] != Ids(steps)[j];
    }
  }

  /** The steps a successful ordering returns, by id. */
  ghost predicate OrderedIds(steps: seq<Step>, ids: seq<StepId>) {
    && UniqueIds(steps) && NoDuplicates(ids)
    && (forall id :: id in ids <==> id in ById(steps))
    && DependenciesFirst(Dependencies(steps), ids)
  }

  /** The ids in the order in which the steps come out. */
  ghost predicate OrdersAs(steps: seq<Step>, ids: seq<StepId>) {
    && OrderedIds(steps, ids) && KnownDependencies(steps) && Order(Dependencies(steps), Ids(steps)) == Ok(ids)
    && OrderSteps(steps) == Ok(Lookup(ById(steps), ids))
  }

  lemma OrderStepsIds(steps: seq<Step>) returns (ids: seq<StepId>)
    requires OrderSteps(steps).Ok?
    ensures OrdersAs(steps, ids)
  {
    OrderStepsSucceedsIffOrderable(steps);
    OrderStaysInside(Dependencies(steps), Ids(steps));
    ids := Order(Dependencies(steps), Ids(steps)).value;
    IdSetIsElements(steps);
  }

  lemma LookupPermutes(steps: seq<Step>, ids: seq<StepId>)
    requires OrderedIds(steps, ids)
    ensures multiset(Lookup(ById(steps), ids)) == multiset(steps)
  {
    var byId := ById(steps);
    var ordered := Lookup(byId, ids);
    assert Ids(ordered) == ids;
    UniqueIdsUniqueSteps(ordered);
    UniqueIdsUniqueSteps(steps);
    forall x ensures x in ordered <==> x in steps {
      if x in steps {
        var k :| 0 <= k < |steps| && steps[k] == x;
        ByIdFinds(steps, k);
        var i :| 0 <= i < |ids| && ids[i] == x.id;
        assert ordered[i] == x;
      }
    }
    SameElementsOnce(ordered, steps);
  }

  lemma LookupDependenciesFirst(steps: seq<Step>, ids: seq<StepId>, ordered: seq<Step>)
    requires OrderedIds(steps, ids) && ordered == Lookup(ById(steps), ids)
    ensures Ids(ordered) == ids
    ensures forall i, d | 0 <= i < |ordered| && d in ordered[i].dependsOn :: d in Ids(ordered)[..i]
  {
    var deps := Dependencies(steps);
    assert Ids(ordered) == ids;
    forall i, d | 0 <= i < |ordered| && d in ordered[i].dependsOn ensures d in ids[..i] {
      assert deps[ids[i]] == ordered[i].dependsOn;
    }
  }

  /** The result is a permutation of the plan in which every dependency comes first. */
  lemma OrderStepsIsTopological(steps: seq<Step>, ordered: seq<Step>)
    requires OrderSteps(steps) == Ok(ordered)
    ensures multiset(ordered) == multiset(steps)
    ensures forall i, d | 0 <= i < |ordered| && d in ordered[i].dependsOn :: d in Ids(ordered)[..i]
  {
    var ids := OrderStepsIds(steps);
    LookupPermutes(steps, ids);
    LookupDependenciesFirst(steps, ids, ordered);
  }

  // ----- the imperative ordering -----

  /** The variables `order_steps` shares with its nested `visit`. */
  class StepOrderer {
    const steps: seq<Step>
    const byId: map<StepId, Step>
    var ordered: seq<Step>
    var seen: set<StepId>
    var visiting: set<StepId>

    constructor (steps: seq<Step>)
      ensures this.steps == steps && byId == ById(steps)
      ensures ordered == [] && seen == {} && visiting == {}
    {
      this.steps, byId := steps, ById(steps);
      ordered, seen, visiting := [], {}, {};
    }

    ghost function Reached(): Progress
      reads this
    {
      Progress(Ids(ordered), seen, visiting)
    }

    ghost predicate Prepared()
      reads this
    {
      && byId == ById(steps) && KnownDependencies(steps)
      && forall s | s in ordered :: s.id in byId && byId[s.id] == s
    }

    /** What `visit` needs to know of a step before it walks its dependencies. */
    static lemma StepDependencies(steps: seq<Step>, id: StepId)
      requires KnownDependencies(steps) && id in ById(steps)
      ensures Closed(Dependencies(steps)) && id in Dependencies(steps)
              && Dependencies(steps)[id] == ById(steps)[id].dependsOn
      ensures forall d | d in ById(steps)[id].dependsOn :: d in ById(steps)
    {
      assert ById(steps)[id] in steps;
    }

    /** The nested `visit`; a returned error is the raised `PlanError`. */
    method VisitStep(id: StepId) returns (error: Option<PlanError>)
      requires Prepared() && id in byId
      modifies this
      ensures Prepared()
      ensures match Visit(Dependencies(steps), id, old(Reached()))
              case Ok(done) => error.None? && Reached() == done
              case Err(e) => error == Some(e)
      decreases byId.Keys - visiting
    {
      hide ById, Dependencies, KnownDependencies, IdSet;
      if id in seen {
        return None;
      }
      if id in visiting {
        return Some(CycleAt(id));
      }
      StepDependencies(steps, id);
      visiting := visiting + {id};
      ghost var entered := Reached();
      ghost var deps := Dependencies(steps);
      var step := byId[id];
      var dependsOn := step.dependsOn;
      assert deps[id] == dependsOn;
      for k := 0 to |dependsOn|
        invariant Prepared() && visiting == old(visiting) + {id}
        invariant VisitAll(deps, dependsOn, entered) == VisitAll(deps, dependsOn[k..], Reached())
      {
        assert dependsOn[k..][0] == dependsOn[k] && dependsOn[k..][1..] == dependsOn[k + 1..];
        error := VisitStep(dependsOn[k]);
        if error.Some? {
          return;
        }
      }
      visiting := visiting - {id};
      seen := seen + {id};
      assert Ids(ordered + [step]) == Ids(ordered) + [id];
      ordered := ordered + [step];
      error := None;
    }
  }

  /** The loop that rejects a dependency no step provides. */
  method FindUnknownDependency(steps: seq<Step>, byId: map<StepId, Step>) returns (error: Option<PlanError>)
    requires byId == ById(steps)
    ensures error == FirstUnknown(steps, IdSet(steps))
  {
    for i := 0 to |steps|
      invariant FirstUnknown(steps, IdSet(steps)) == FirstUnknown(steps[i..], IdSet(steps))
    {
      var dependsOn := steps[i].dependsOn;
      assert steps[i..][0] == steps[i] && steps[i..][1..] == steps[i + 1..];
      for k := 0 to |dependsOn|
        invariant FirstUnknownOf(steps[i], dependsOn, IdSet(steps))
                  == FirstUnknownOf(steps[i], dependsOn[k..], IdSet(steps))
      {
        assert dependsOn[k..][1..] == dependsOn[k + 1..];
        if dependsOn[k] !in byId {
          return Some(UnknownDependency(steps[i].id, dependsOn[k]));
        }
      }
    }
    return None;
  }

  /** The loop that visits every step in plan order. */
  method VisitRoots(orderer: StepOrderer) returns (error: Option<PlanError>)
    requires orderer.Prepared() && orderer.Reached() == Progress([], {}, {})
    modifies orderer
    ensures orderer.Prepared()
    ensures match Order(Dependencies(orderer.steps), Ids(orderer.steps))
            case Ok(ids) => error.None? && Ids(orderer.ordered) == ids
            case Err(e) => error == Some(e)
  {
    hide Visit, ById, Dependencies, Closed;
    var steps := orderer.steps;
    RootsKnown(steps);
    ghost var deps, roots := Dependencies(steps), Ids(steps);
    for i := 0 to |steps|
      invariant orderer.Prepared()
      invariant VisitAll(deps, roots, Progress([], {}, {})) == VisitAll(deps, roots[i..], orderer.Reached())
    {
      assert roots[i..][0] == steps[i].id && roots[i..][1..] == roots[i + 1..];
      error := orderer.VisitStep(steps[i].id);
      if error.Some? {
        return;
      }
    }
    error := None;
  }

  /** `order_steps`. */
  method OrderPlanSteps(steps: seq<Step>) returns (r: Result<seq<Step>, PlanError>)
    ensures r == OrderSteps(steps)
  {
    hide Order, ById, FirstUnknown, NoDuplicates, DependenciesFirst;
    var orderer := new StepOrderer(steps);
    assert |orderer.byId| == |IdSet(steps)|;
    if |orderer.byId| != |steps| {
      return Err(DuplicateIds);
    }
    var unknown := FindUnknownDependency(steps, orderer.byId);
    if unknown.Some? {
      return Err(unknown.value);
    }
    UnknownAbsent(steps, IdSet(steps));
    var error := VisitRoots(orderer);
    if error.Some? {
      return Err(error.value);
    }
    OrderStaysInside(Dependencies(steps), Ids(steps));
    assert orderer.ordered == Lookup(ById(steps), Ids(orderer.ordered));
    r := Ok(orderer.ordered);
  }
}
