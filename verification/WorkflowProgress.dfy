/** A validated plan never deadlocks, and never runs out of its global attempt budgets. */
module WorkflowProgress {
  import opened Wrappers
  import opened DependencyGraph
  import opened RuntimeWorkflow
  import opened Totals
  import opened WorkflowPlan
  import opened WorkflowAccounting
  import opened WorkflowScheduling
  import opened WorkflowLog
  import opened WorkflowRuns
  import opened WorkflowFencing
  import opened WorkflowBalance

  /** What the plan schema asks of a version 1 plan besides its shape: no dispatch step and no repeated dependency. */
  ghost predicate SchemaValid(plan: Plan) {
    && plan.version == 1 && plan.steps != [] && plan.budgets.concurrentSteps >= 1
    && forall s | s in plan.steps :: NoDuplicates(s.dependsOn) && !s.kind.Dispatch? && s.maxAttempts >= 1
  }

  ghost predicate Validated(plan: Plan) {
    SchemaValid(plan) && Dependable(plan) && Affordable(plan) && EdgesPlanned(plan)
  }

  // ----- deadlock freedom -----

  /** Dependencies of a planned step are exactly its edges in the validated dependency graph. */
  lemma DependenciesAreEdges(plan: Plan, step: PlanStep, d: StepId)
    requires Dependable(plan) && step in plan.steps && d in step.dependsOn
    ensures IsEdge(StepIds(plan.steps), DependencyMap(plan.steps), step.id, d)
  {
    hide NoDuplicates, Acyclic;
    var k :| 0 <= k < |plan.steps| && plan.steps[k] == step;
    DependencyMapFinds(plan.steps, k);
  }

  ghost function Unsucceeded(w: Workflow): set<StepId> {
    set s | s in w.steps && w.steps[s].state != StepDone(Succeeded)
  }

  /** An active workflow with nothing running has a step it can start. */
  lemma SomeStepIsReady(w: Workflow) returns (step: PlanStep)
    requires Sound(w) && Validated(w.plan) && IsActive(w) && ActiveCount(w.claims) == 0
    ensures step in w.plan.steps && FindStep(w.plan.steps, step.id) == Some(step) && Ready(w, step)
  {
    hide Accounted, Logged, Acyclic, DependencyMap, DependenciesSucceeded, Affordable, EdgesPlanned, FindStep,
         ActiveCount;
    var ids, edges := StepIds(w.plan.steps), DependencyMap(w.plan.steps);
    UnsucceededIsPlanned(w);
    var u := AcyclicHasSink(ids, edges, Unsucceeded(w));
    var k :| 0 <= k < |w.plan.steps| && w.plan.steps[k].id == u;
    step := w.plan.steps[k];
    FindStepUnique(w.plan.steps, k);
    NothingRuns(w, u);
    forall d | d in step.dependsOn ensures d in w.steps && w.steps[d].state == StepDone(Succeeded) {
      DependenciesAreEdges(w.plan, step, d);
      assert d !in Unsucceeded(w);
    }
    ReadinessQuery(w.steps, step.dependsOn);
  }

  lemma UnsucceededIsPlanned(w: Workflow)
    requires Sound(w) && IsActive(w)
    ensures Unsucceeded(w) != {} && Unsucceeded(w) <= StepIds(w.plan.steps)
    ensures forall s | s in StepIds(w.plan.steps) :: s in w.steps
  {
    hide Accounted, Logged;
    var s :| s in w.steps && w.steps[s].state != StepDone(Succeeded);
    assert s in Unsucceeded(w);
    forall s | s in w.steps ensures s in StepIds(w.plan.steps) {
      var step := PlannedStep(w, s).value;
      assert step in w.plan.steps && step.id == s;
    }
  }

  lemma {:induction false} NoneActive(claims: seq<Claim>)
    requires ActiveCount(claims) == 0
    ensures forall i | 0 <= i < |claims| :: !claims[i].status.Active?
  {
    if claims != [] {
      NoneActive(claims[..|claims| - 1]);
      assert forall i | 0 <= i < |claims| - 1 :: claims[..|claims| - 1][i] == claims[i];
    }
  }

  lemma NothingRuns(w: Workflow, s: StepId)
    requires Sound(w) && IsActive(w) && ActiveCount(w.claims) == 0 && s in w.steps
             && w.steps[s].state != StepDone(Succeeded)
    requires SchemaValid(w.plan)
    ensures w.steps[s].state.StepPending?
  {
    hide Accounted, Logged, Ended;
    NoneActive(w.claims);
    assert !HasActiveClaim(w, s);
    assert PlannedStep(w, s).Some? && PlannedStep(w, s).value in w.plan.steps;
  }

  // ----- global attempt budgets -----

  function AttemptsIn(claims: seq<Claim>, check: bool): PlanStep -> int {
    (s: PlanStep) => if s.kind.Check? == check then ClaimsOf(claims, s.id) else 0
  }

  function KindRow(check: bool): Claim -> int {
    (c: Claim) => One(c.kind.Check? == check)
  }

  /** Counting claims by row or by planned step gives the same number. */
  lemma {:induction false} ClaimsByStep(steps: seq<PlanStep>, claims: seq<Claim>, check: bool)
    requires DistinctSteps(steps)
    requires forall c | c in claims :: FindStep(steps, c.step).Some? && FindStep(steps, c.step).value.kind == c.kind
    ensures Total(claims, KindRow(check)) == Total(steps, AttemptsIn(claims, check))
  {
    hide FindStep, Total;
    if claims == [] {
      TotalEmpty(KindRow(check));
      forall s | s in steps ensures AttemptsIn(claims, check)(s) == 0 {
        TotalEmpty(AttemptAt(s.id));
      }
      TotalZero(steps, AttemptsIn(claims, check));
    } else {
      var front, c := claims[..|claims| - 1], claims[|claims| - 1];
      assert claims == front + [c];
      ClaimsByStep(steps, front, check);
      TotalAppend(front, c, KindRow(check));
      forall s ensures ClaimsOf(claims, s) == ClaimsOf(front, s) + One(s == c.step) {
        TotalAppend(front, c, AttemptAt(s));
      }
      var p := FindStep(steps, c.step).value;
      var k :| 0 <= k < |steps| && steps[k] == p;
      OthersDiffer(steps, k);
      if c.kind.Check? == check {
        TotalOneMore(steps, k, AttemptsIn(front, check), AttemptsIn(claims, check));
      } else {
        TotalAgree(steps, AttemptsIn(front, check), AttemptsIn(claims, check));
      }
    }
  }

  lemma OthersDiffer(steps: seq<PlanStep>, k: nat)
    requires DistinctSteps(steps) && k < |steps|
    ensures forall i | 0 <= i < |steps| && i != k :: steps[i].id != steps[k].id
  {
    var ids := StepIdList(steps);
    assert forall i | 0 <= i < |steps| && i != k :: ids[i] != ids[k];
  }

  /** The attempt counters are bounded by what the plan's steps may still use, so a step with an attempt left finds
      room. */
  lemma RoomForAttempt(w: Workflow, step: PlanStep)
    requires Sound(w) && Validated(w.plan) && step in w.plan.steps
    requires step.id in w.steps && w.steps[step.id].attempts < step.maxAttempts
    ensures step.kind.Check? ==> w.counters.checkAttempts < w.plan.budgets.checkAttempts
    ensures !step.kind.Check? ==> w.counters.providerAttempts < w.plan.budgets.providerAttempts
  {
    hide Total, FindStep, Logged, Ended, Acyclic, NoDuplicates, ClaimsOf;
    var steps, check := w.plan.steps, step.kind.Check?;
    RowsOfPlan(w);
    ClaimsByStep(steps, w.claims, check);
    var allowance := if check then CheckAllowance else ProviderAllowance;
    forall i | 0 <= i < |steps| ensures AttemptsIn(w.claims, check)(steps[i]) <= allowance(steps[i]) {
      FindStepUnique(steps, i);
      assert steps[i] in steps;
    }
    TotalAtMost(steps, AttemptsIn(w.claims, check), allowance);
    var k :| 0 <= k < |steps| && steps[k] == step;
    assert AttemptsIn(w.claims, check)(steps[k]) < allowance(steps[k]);
    if check {
      TotalAgree(w.claims, KindRow(true), CheckRow);
    } else {
      TotalAgree(w.claims, KindRow(false), ProviderRow);
    }
  }

  lemma RowsOfPlan(w: Workflow)
    requires Scheduled(w)
    ensures forall c | c in w.claims ::
              FindStep(w.plan.steps, c.step).Some? && FindStep(w.plan.steps, c.step).value.kind == c.kind
  {
    hide FindStep;
    forall c | c in w.claims
      ensures FindStep(w.plan.steps, c.step).Some? && FindStep(w.plan.steps, c.step).value.kind == c.kind
    {
      var i :| 0 <= i < |w.claims| && w.claims[i] == c;
      assert PlannedStep(w, w.claims[i].step).value.kind == w.claims[i].kind;
    }
  }

  /** Under a validated plan only concurrency or the step's own attempts can exhaust an activation. */
  lemma OnlyOwnLimitsBind(w: Workflow, step: PlanStep)
    requires Sound(w) && Validated(w.plan) && step in w.plan.steps && step.id in w.steps
    ensures AttemptsExhausted(w, step) <==>
            ActiveCount(w.claims) >= w.plan.budgets.concurrentSteps || w.steps[step.id].attempts >= step.maxAttempts
  {
    hide Sound, Validated;
    if w.steps[step.id].attempts < step.maxAttempts {
      RoomForAttempt(w, step);
    }
  }

  /** From an active workflow with nothing running, one activation either opens a claim or ends the workflow,
      the latter exactly when the ready step has used up its attempts. */
  lemma NeverStuck(w: Workflow, key: string, invocation: Option<string>, now: int, keys: Keyring, ready: bool)
      returns (request: Activation)
    requires Sound(w) && Validated(w.plan) && IsActive(w) && ActiveCount(w.claims) == 0
    requires FindKey(w.claims, key).None? && !InvocationBound(w.claims, invocation)
    ensures request.key == key && request.invocation == invocation && request.step in w.steps
    ensures var t := Activate(w, request, now, keys, ready);
      var usedUp := w.steps[request.step].attempts >= FindStep(w.plan.steps, request.step).value.maxAttempts;
      && FindStep(w.plan.steps, request.step).Some?
      && (if usedUp then t.CommitFailure? && !IsActive(t.state) else t.Commit? && ActiveCount(t.state.claims) == 1)
  {
    hide Sound, Validated, FindStep, FindKey, DependenciesSucceeded, AttemptsExhausted, Activate, ActiveCount,
         InvocationBound;
    var step := SomeStepIsReady(w);
    OnlyOwnLimitsBind(w, step);
    PlanOffersRoom(w.plan, step);
    request := Activation(step.kind.Check?, step.id, key, invocation, "", "", 0);
    ReadyActivation(w, step, request, now, keys, ready);
    ExhaustionEnds(w, ready);
    OneMoreActive(w, step, request, now, keys);
  }

  /** Activating a ready step under a fresh key either opens its claim or exhausts the attempt budget. */
  lemma ReadyActivation(w: Workflow, step: PlanStep, request: Activation, now: int, keys: Keyring, ready: bool)
    requires IsActive(w) && FindStep(w.plan.steps, step.id) == Some(step) && Ready(w, step) && !step.kind.Dispatch?
    requires request.step == step.id && request.check == step.kind.Check?
    requires FindKey(w.claims, request.key).None? && !InvocationBound(w.claims, request.invocation)
    ensures var t := Activate(w, request, now, keys, ready);
      && (AttemptsExhausted(w, step) ==> t == CommitFailure(Exhaust(w, "attempt", ready), WorkflowBudgetExhausted))
      && (!AttemptsExhausted(w, step) ==> t.Commit? && t.state == OpenClaim(w, step, request, now, keys))
  {
    hide FindStep, FindKey, DependenciesSucceeded, AttemptsExhausted, Exhaust, OpenClaim, InvocationBound;
  }

  lemma ExhaustionEnds(w: Workflow, ready: bool)
    requires Sound(w) && IsActive(w)
    ensures !IsActive(Exhaust(w, "attempt", ready))
  {
    hide Kept, Books, Freeze, Halt;
    EndKept(w, StaleRejected, Failed, BudgetExhausted("attempt"), ready);
  }

  lemma OneMoreActive(w: Workflow, step: PlanStep, request: Activation, now: int, keys: Keyring)
    requires step.id in w.steps
    ensures ActiveCount(OpenClaim(w, step, request, now, keys).claims) == ActiveCount(w.claims) + 1
  {
    var claims := OpenClaim(w, step, request, now, keys).claims;
    assert claims[..|claims| - 1] == w.claims;
  }

  lemma PlanOffersRoom(plan: Plan, step: PlanStep)
    requires Validated(plan) && step in plan.steps
    ensures plan.budgets.concurrentSteps >= 1 && !step.kind.Dispatch?
  {
  }

  // ----- recovery -----

  /** What the reconcile loop makes of a claim it has passed: stale if its lease had run out, else as it was. */
  predicate Swept(before: Claim, after: Claim, now: int) {
    if Expired(before, now)
        then after == before.(status := StaleRejected, accounted := Max(before.accounted, Max(0, now - before.started)))
    else after == before
  }

  lemma ReleasedRow(w: Workflow, i: nat, now: int)
    requires i < |w.claims| && Expired(w.claims[i], now)
    ensures |Meter(w, i, now).claims| == |w.claims|
    ensures var f := Release(Meter(w, i, now), i);
      && f.claims == w.claims[i := f.claims[i]] && Swept(w.claims[i], f.claims[i], now) && !f.claims[i].status.Active?
      && f.plan == w.plan && f.state == w.state
  {
  }

  /** A reconcile that ends no workflow releases exactly the claims whose lease has run out. */
  lemma {:induction false} ReleasesExactlyExpired(w: Workflow, from: nat, now: int, ready: bool)
    requires from <= |w.claims| && ReleaseExpired(w, from, now, ready).Commit?
    ensures var v := ReleaseExpired(w, from, now, ready).state;
      && |v.claims| == |w.claims| && v.plan == w.plan && v.state == w.state && v.claims[..from] == w.claims[..from]
      && forall i | from <= i < |w.claims| :: Swept(w.claims[i], v.claims[i], now)
    decreases |w.claims| - from
  {
    hide Meter, Release, RuntimeExhausted, Swept;
    if from == |w.claims| {
    } else if !Expired(w.claims[from], now) {
      ReleasesExactlyExpired(w, from + 1, now, ready);
      var v := ReleaseExpired(w, from, now, ready).state;
      assert v.claims[..from] == v.claims[..from + 1][..from]
             && v.claims[from] == v.claims[..from + 1][from] == w.claims[from];
      assert Swept(w.claims[from], v.claims[from], now) by { LiveIsSwept(w.claims[from], now); }
    } else {
      ReleasedRow(w, from, now);
      var f := Release(Meter(w, from, now), from);
      ReleasesExactlyExpired(f, from + 1, now, ready);
      var v := ReleaseExpired(f, from + 1, now, ready).state;
      assert v.claims[..from] == v.claims[..from + 1][..from]
             && v.claims[from] == v.claims[..from + 1][from] == f.claims[from];
    }
  }

  lemma LiveIsSwept(c: Claim, now: int)
    requires !Expired(c, now)
    ensures Swept(c, c, now)
  {
  }

  /** When every lease of an active workflow has run out, reconciling it either ends it or leaves it with a step to
      start. */
  lemma RecoveryUnblocks(w: Workflow, now: int, ready: bool) returns (step: Option<PlanStep>)
    requires Sound(w) && Validated(w.plan) && IsActive(w)
    requires forall i | 0 <= i < |w.claims| && w.claims[i].status.Active? :: w.claims[i].leaseExpires < now
    ensures var v := After(w, Reconcile(w, now, ready));
      && (step.Some? <==> IsActive(v))
      && (step.Some? ==>
          step.value in v.plan.steps && FindStep(v.plan.steps, step.value.id) == Some(step.value)
              && Ready(v, step.value))
      && (step.None? ==> v.receipt.Some?)
  {
    hide Kept, Books, Validated, Meter, Release, RuntimeExhausted, FindStep, DependenciesSucceeded, ActiveCount;
    ReleaseExpiredKept(w, 0, now, ready);
    var t := ReleaseExpired(w, 0, now, ready);
    var v := t.state;
    if t.Commit? {
      ReleasesExactlyExpired(w, 0, now, ready);
      forall i | 0 <= i < |v.claims| ensures !v.claims[i].status.Active? {
        assert Swept(w.claims[i], v.claims[i], now);
      }
      NoneActiveCount(v.claims);
      var found := SomeStepIsReady(v);
      step := Some(found);
    } else {
      OverHasReceipt(v);
      CommitFailureEnds(w, 0, now, ready);
      step := None;
    }
  }

  lemma OverHasReceipt(w: Workflow)
    requires Kept(w)
    ensures !IsActive(w) ==> w.receipt.Some?
  {
    hide Scheduled, Logged;
  }

  lemma {:induction false} CommitFailureEnds(w: Workflow, from: nat, now: int, ready: bool)
    requires ReleaseExpired(w, from, now, ready).CommitFailure?
    ensures !IsActive(ReleaseExpired(w, from, now, ready).state)
    decreases |w.claims| - from
  {
    hide Meter, Release, RuntimeExhausted, Exhaust;
    if from < |w.claims| {
      if !Expired(w.claims[from], now) {
        CommitFailureEnds(w, from + 1, now, ready);
      } else if RuntimeExhausted(w, from, now) {
        ExhaustEnds(w, "runtime", ready);
      } else {
        ReleasedRow(w, from, now);
        CommitFailureEnds(Release(Meter(w, from, now), from), from + 1, now, ready);
      }
    }
  }
}
