/** When a resumed plan still runs its steps after all they need in the original plan. */
module PlanResumeOrder {
  import opened Wrappers
  import opened DependencyGraph
  import opened PlanModel
  import opened PlanOrder
  import opened PlanResume

  /** `p` leads from `u` to `v` along one dependency at least. */
  ghost predicate Leads(deps: Edges, p: seq<StepId>, u: StepId, v: StepId) {
    |p| >= 2 && p[0] == u && p[|p| - 1] == v && IsPath(deps.Keys, deps, p)
  }

  /** Step `u` depends on step `v`, directly or through others. */
  ghost predicate Requires(deps: Edges, u: StepId, v: StepId) {
    exists p :: Leads(deps, p, u, v)
  }

  ghost predicate Before(order: seq<StepId>, v: StepId, u: StepId) {
    forall i | 0 <= i < |order| && order[i] == u :: v in order[..i]
  }

  /** Every pending step comes after all the pending steps it depends on in the whole plan. */
  ghost predicate Respects(order: seq<StepId>, deps: Edges, pending: set<StepId>) {
    forall u, v | u in pending && v in pending && Requires(deps, u, v) :: Before(order, v, u)
  }

  /** Every dependency between pending steps also leads through pending steps only. */
  ghost predicate PathsStayPending(deps: Edges, pending: set<StepId>) {
    forall u, v | u in pending && v in pending && Requires(deps, u, v) :: Requires(Kept(deps, pending), u, v)
  }

  // ----- listings of one plan -----

  lemma {:induction false} CountsTwice<T(!new)>(s: seq<T>, i: nat, j: nat)
    requires i < j < |s| && s[i] == s[j]
    ensures multiset(s)[s[i]] >= 2
  {
    assert s == s[..j] + s[j..] && s[i] in s[..j] && s[j] in s[j..];
    assert multiset(s) == multiset(s[..j]) + multiset(s[j..]);
  }

  lemma SameListing(plan: seq<Step>, listing: seq<Step>)
    requires UniqueIds(plan) && multiset(listing) == multiset(plan)
    ensures UniqueIds(listing) && Dependencies(listing) == Dependencies(plan)
  {
    UniqueIdsUniqueSteps(plan);
    forall s ensures s in listing <==> s in plan {
      assert s in multiset(listing) <==> s in multiset(plan);
    }
    forall i, j | 0 <= i < j < |listing| ensures Ids(listing)[i] != Ids(listing)[j] {
      if listing[i].id == listing[j].id {
        SameIdSameStep(plan, listing[i], listing[j]);
        CountsTwice(listing, i, j);
        DistinctMultiset(plan, listing[i]);
      }
    }
    assert IdSet(listing) == IdSet(plan);
    forall id | id in ById(plan) ensures ById(listing)[id] == ById(plan)[id] {
      SameIdSameStep(plan, ById(listing)[id], ById(plan)[id]);
    }
    SameEdges(Dependencies(listing), Dependencies(plan));
  }

  lemma SameIdSameStep(plan: seq<Step>, s: Step, t: Step)
    requires UniqueIds(plan) && s in plan && t in plan && s.id == t.id
    ensures s == t
  {
    var i :| 0 <= i < |plan| && plan[i] == s;
    var j :| 0 <= j < |plan| && plan[j] == t;
    ByIdFinds(plan, i);
    ByIdFinds(plan, j);
  }

  // ----- a resumed plan always orders, and its order is that of the kept dependencies -----

  lemma KeptEdge(deps: Edges, pending: set<StepId>, u: StepId, v: StepId)
    requires IsEdge(Kept(deps, pending).Keys, Kept(deps, pending), u, v)
    ensures IsEdge(deps.Keys, deps, u, v) && u in pending && v in pending
  {
  }

  lemma KeptCycle(deps: Edges, pending: set<StepId>, c: seq<StepId>)
    requires IsCycle(Kept(deps, pending).Keys, Kept(deps, pending), c)
    ensures IsCycle(deps.Keys, deps, c)
  {
    hide Kept;
    forall i | 0 <= i < |c| - 1 ensures IsEdge(deps.Keys, deps, c[i], c[i + 1]) {
      KeptEdge(deps, pending, c[i], c[i + 1]);
    }
    KeptEdge(deps, pending, c[|c| - 1], c[0]);
  }

  lemma KeptAcyclic(deps: Edges, pending: set<StepId>)
    requires Acyclic(deps.Keys, deps)
    ensures Acyclic(Kept(deps, pending).Keys, Kept(deps, pending))
  {
    hide Kept, IsCycle;
    forall c | IsCycle(Kept(deps, pending).Keys, Kept(deps, pending), c) ensures IsCycle(deps.Keys, deps, c) {
      KeptCycle(deps, pending, c);
    }
  }

  /** Whatever is pending, the resumed plan orders: `ids` is the order, found from its own listing. */
  lemma ResumedOrders(plan: seq<Step>, pending: set<StepId>) returns (ids: seq<StepId>)
    requires Orderable(plan)
    ensures OrderSteps(Pending(plan, pending)).Ok? && Ordered(Pending(plan, pending)) == ids
    ensures var kept := Kept(Dependencies(plan), pending);
      && Closed(kept) && (forall id | id in Filter(Ids(plan), pending) :: id in kept)
      && Order(kept, Filter(Ids(plan), pending)) == Ok(ids)
  {
    hide OrderSteps, ById, Acyclic, Kept, Order;
    var resumed, deps := Pending(plan, pending), Dependencies(plan);
    var kept := Kept(deps, pending);
    PlanCloses(plan);
    PendingDependencies(plan, pending);
    KeptClosed(deps, pending);
    KeptIsKnown(resumed, kept);
    KeptAcyclic(deps, pending);
    OrderStepsSucceedsIffOrderable(resumed);
    ids := OrderStepsIds(resumed);
    LookupDependenciesFirst(resumed, ids, OrderSteps(resumed).value);
    IdSetIsElements(resumed);
  }

  lemma PlanCloses(plan: seq<Step>)
    requires UniqueIds(plan) && KnownDependencies(plan)
    ensures Closed(Dependencies(plan))
  {
    forall u, v | u in Dependencies(plan) && v in Dependencies(plan)[u] ensures v in Dependencies(plan) {
      assert ById(plan)[u] in plan;
    }
  }

  // ----- kept paths are respected -----

  lemma {:induction false} PathComesBefore(deps: Edges, order: seq<StepId>, p: seq<StepId>, i: nat, j: nat)
    requires DependenciesFirst(deps, order) && IsPath(deps.Keys, deps, p) && 1 <= j < |p|
    requires i < |order| && order[i] == p[0]
    ensures p[j] in order[..i]
  {
    assert IsEdge(deps.Keys, deps, p[j - 1], p[j]);
    if j > 1 {
      PathComesBefore(deps, order, p, i, j - 1);
      var m :| 0 <= m < i && order[..i][m] == p[j - 1];
      assert p[j] in order[..m] && order[..m] <= order[..i];
    }
  }

  lemma KeptOrderRespects(deps: Edges, pending: set<StepId>, roots: seq<StepId>)
    requires Closed(Kept(deps, pending)) && (forall id | id in roots :: id in Kept(deps, pending))
    requires Order(Kept(deps, pending), roots).Ok? && PathsStayPending(deps, pending)
    ensures Respects(Order(Kept(deps, pending), roots).value, deps, pending)
  {
    hide Kept, Order;
    var kept := Kept(deps, pending);
    OrderStaysInside(kept, roots);
    var order := Order(kept, roots).value;
    forall u, v, i | u in pending && v in pending && Requires(deps, u, v) && 0 <= i < |order| && order[i] == u
      ensures v in order[..i]
    {
      assert Requires(kept, u, v);
      var p :| Leads(kept, p, u, v);
      PathComesBefore(kept, order, p, i, |p| - 1);
    }
  }

  // ----- a visit emits only what its root requires -----

  lemma RequiresStep(deps: Edges, u: StepId, w: StepId, x: StepId)
    requires IsEdge(deps.Keys, deps, u, w) && (x == w || Requires(deps, w, x))
    ensures Requires(deps, u, x)
  {
    if x == w {
      assert Leads(deps, [u, w], u, w);
    } else {
      var p :| Leads(deps, p, w, x);
      var q := [u] + p;
      forall i | 0 <= i < |q| - 1 ensures IsEdge(deps.Keys, deps, q[i], q[i + 1]) {
        if i > 0 { assert IsEdge(deps.Keys, deps, p[i - 1], p[i]); }
      }
      assert Leads(deps, q, u, x);
    }
  }

  lemma {:induction false} VisitStaysBelow(deps: Edges, id: StepId, at: Progress)
    requires Closed(deps) && id in deps && Visit(deps, id, at).Ok?
    ensures forall x | x in Visit(deps, id, at).value.ordered && x !in at.ordered :: x == id || Requires(deps, id, x)
    decreases deps.Keys - at.visiting, 0, 0
  {
    hide Requires;
    if id !in at.seen {
      var inner := at.(visiting := at.visiting + {id});
      VisitAllStaysBelow(deps, deps[id], inner);
      forall x | x in Visit(deps, id, at).value.ordered && x !in at.ordered ensures x == id || Requires(deps, id, x) {
        if x != id {
          var w :| w in deps[id] && (x == w || Requires(deps, w, x));
          RequiresStep(deps, id, w, x);
        }
      }
    }
  }

  lemma {:induction false} VisitAllStaysBelow(deps: Edges, ids: seq<StepId>, at: Progress)
    requires Closed(deps) && (forall id | id in ids :: id in deps) && VisitAll(deps, ids, at).Ok?
    ensures forall x | x in VisitAll(deps, ids, at).value.ordered && x !in at.ordered ::
              exists w :: w in ids && (x == w || Requires(deps, w, x))
    decreases deps.Keys - at.visiting, 1, |ids|
  {
    hide Requires;
    if ids != [] {
      VisitStaysBelow(deps, ids[0], at);
      var next := Visit(deps, ids[0], at).value;
      VisitAllStaysBelow(deps, ids[1..], next);
      forall x | x in VisitAll(deps, ids, at).value.ordered && x !in at.ordered
        ensures exists w :: w in ids && (x == w || Requires(deps, w, x))
      {
        if x in next.ordered {
          assert ids[0] in ids;
        } else {
          var w :| w in ids[1..] && (x == w || Requires(deps, w, x));
          assert w in ids;
        }
      }
    }
  }

  /** The first root comes before every step it does not require. */
  lemma FirstRootComesFirst(deps: Edges, roots: seq<StepId>, v: StepId)
    requires Closed(deps) && (forall id | id in roots :: id in deps) && Order(deps, roots).Ok? && roots != []
    requires v != roots[0] && !Requires(deps, roots[0], v)
    ensures !Before(Order(deps, roots).value, v, roots[0])
  {
    hide Requires;
    var start := Progress([], {}, {});
    var first := Visit(deps, roots[0], start).value;
    VisitStaysBelow(deps, roots[0], start);
    VisitEmits(deps, roots[0], start);
    VisitAllEmits(deps, roots[1..], first);
    var order := Order(deps, roots).value;
    assert first.ordered <= order && roots[0] in first.ordered && v !in first.ordered;
    var i :| 0 <= i < |first.ordered| && first.ordered[i] == roots[0];
    assert order[i] == roots[0] && order[..i] <= first.ordered;
  }

  // ----- the exact condition -----

  function PutFirst(plan: seq<Step>, k: nat): (listing: seq<Step>)
    requires k < |plan|
    ensures multiset(listing) == multiset(plan) && |listing| > 0 && listing[0] == plan[k]
  {
    assert plan == plan[..k] + [plan[k]] + plan[k + 1..];
    [plan[k]] + plan[..k] + plan[k + 1..]
  }

  lemma NothingRequiresItself(deps: Edges, u: StepId)
    requires Acyclic(deps.Keys, deps)
    ensures !Requires(deps, u, u)
  {
    if Requires(deps, u, u) {
      var p :| Leads(deps, p, u, u);
      var c := p[..|p| - 1];
      assert IsEdge(deps.Keys, deps, p[|p| - 2], p[|p| - 1]);
      forall i | 0 <= i < |c| - 1 ensures IsEdge(deps.Keys, deps, c[i], c[i + 1]) {
        assert IsEdge(deps.Keys, deps, p[i], p[i + 1]);
      }
      assert IsCycle(deps.Keys, deps, c);
    }
  }

  /** A lost dependency shows in the listing that puts its dependent first. */
  lemma LostDependencyShows(plan: seq<Step>, pending: set<StepId>, u: StepId, v: StepId) returns (listing: seq<Step>)
    requires Orderable(plan) && u in pending && v in pending
    requires Requires(Dependencies(plan), u, v) && !Requires(Kept(Dependencies(plan), pending), u, v)
    ensures multiset(listing) == multiset(plan) && OrderSteps(Pending(listing, pending)).Ok?
    ensures !Before(Ordered(Pending(listing, pending)), v, u)
  {
    hide OrderSteps, ById, Kept, Order, Pending, Ids;
    var deps := Dependencies(plan);
    var p :| Leads(deps, p, u, v);
    assert IsEdge(deps.Keys, deps, p[0], p[1]) && u in IdSet(plan);
    var k :| 0 <= k < |plan| && plan[k].id == u;
    listing := PutFirst(plan, k);
    SameListing(plan, listing);
    ListingOrderable(plan, listing);
    var ids := ResumedOrders(listing, pending);
    FilterHead(Ids(listing), pending);
    NothingRequiresItself(deps, u);
    assert Ids(listing)[0] == u by { IdsAt(listing, 0); }
    FirstRootComesFirst(Kept(deps, pending), Filter(Ids(listing), pending), v);
  }

  lemma IdsAt(steps: seq<Step>, i: nat)
    requires i < |steps|
    ensures |Ids(steps)| == |steps| && Ids(steps)[i] == steps[i].id
  {
  }

  lemma FilterHead(ids: seq<StepId>, keep: set<StepId>)
    requires ids != [] && ids[0] in keep
    ensures Filter(ids, keep) != [] && Filter(ids, keep)[0] == ids[0]
  {
  }

  lemma ListingOrderable(plan: seq<Step>, listing: seq<Step>)
    requires Orderable(plan) && multiset(listing) == multiset(plan)
    requires UniqueIds(listing) && Dependencies(listing) == Dependencies(plan)
    ensures Orderable(listing)
  {
    hide ById, Acyclic, UniqueIds;
    PlanCloses(plan);
    KeptIsKnown(listing, Dependencies(plan));
    assert IdSet(listing) == Dependencies(listing).Keys == IdSet(plan);
  }

  /**
   * However a plan lists its steps, its resumption runs every pending step after all pending steps it depends on,
   * exactly when each of those dependencies leads through pending steps only.
   */
  lemma ResumeKeepsDependenciesIff(plan: seq<Step>, pending: set<StepId>)
    requires OrderSteps(plan).Ok?
    ensures PathsStayPending(Dependencies(plan), pending) <==>
            forall listing | multiset(listing) == multiset(plan) ::
              && OrderSteps(Pending(listing, pending)).Ok?
              && Respects(Ordered(Pending(listing, pending)), Dependencies(plan), pending)
  {
    hide OrderSteps, Pending, Kept, Order, Orderable, Dependencies, UniqueIds;
    var deps := Dependencies(plan);
    OrderStepsSucceedsIffOrderable(plan);
    OrderableUnique(plan);
    if PathsStayPending(deps, pending) {
      forall listing | multiset(listing) == multiset(plan)
        ensures OrderSteps(Pending(listing, pending)).Ok? && Respects(Ordered(Pending(listing, pending)), deps, pending)
      {
        SameListing(plan, listing);
        ListingOrderable(plan, listing);
        var ids := ResumedOrders(listing, pending);
        KeptOrderRespects(deps, pending, Filter(Ids(listing), pending));
      }
    } else {
      var u, v :| u in pending && v in pending && Requires(deps, u, v) && !Requires(Kept(deps, pending), u, v);
      var listing := LostDependencyShows(plan, pending, u, v);
      assert !Respects(Ordered(Pending(listing, pending)), deps, pending);
    }
  }

  lemma OrderableUnique(plan: seq<Step>)
    requires Orderable(plan)
    ensures UniqueIds(plan)
  {
  }

  /** Without a completed step that depends on a pending one, no dependency is lost. */
  lemma ClosedPathsStayPending(deps: Edges, pending: set<StepId>)
    requires DependencyClosed(deps, pending)
    ensures PathsStayPending(deps, pending)
  {
    forall u, v | u in pending && v in pending && Requires(deps, u, v) ensures Requires(Kept(deps, pending), u, v) {
      var p :| Leads(deps, p, u, v);
      PathIsPending(deps, pending, p, 0);
      assert Leads(Kept(deps, pending), p, u, v);
    }
  }

  lemma {:induction false} PathIsPending(deps: Edges, pending: set<StepId>, p: seq<StepId>, from: nat)
    requires DependencyClosed(deps, pending) && IsPath(deps.Keys, deps, p) && from < |p| && p[|p| - 1] in pending
    ensures forall i | from <= i < |p| :: p[i] in pending
    ensures forall i | from <= i < |p| - 1 :: IsEdge(Kept(deps, pending).Keys, Kept(deps, pending), p[i], p[i + 1])
    decreases |p| - from
  {
    if from < |p| - 1 {
      PathIsPending(deps, pending, p, from + 1);
      assert IsEdge(deps.Keys, deps, p[from], p[from + 1]);
    }
  }
}
