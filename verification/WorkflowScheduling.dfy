/** Who may run when: step states against claims, attempts in order, and successes in dependency order. */
module WorkflowScheduling {
  import opened Wrappers
  import opened DependencyGraph
  import opened RuntimeWorkflow

  function PlannedStep(w: Workflow, s: StepId): Option<PlanStep> {
    FindStep(w.plan.steps, s)
  }

  /** Every row belongs to a planned step; a step's claims carry growing attempt numbers, the last being its attempt
      count. */
  ghost predicate AttemptsOrdered(w: Workflow) {
    && (forall s | s in w.steps :: PlannedStep(w, s).Some?)
    && (forall p | p in w.plan.steps :: p.id in w.steps)
    && (forall i | 0 <= i < |w.claims| :: w.claims[i].step in w.steps)
    && (forall i | 0 <= i < |w.claims| ::
          PlannedStep(w, w.claims[i].step).value.kind == w.claims[i].kind && !w.claims[i].kind.Dispatch?)
    && (forall i | 0 <= i < |w.claims| :: 1 <= w.claims[i].attempt <= w.steps[w.claims[i].step].attempts)
    && (forall i, j | 0 <= i < j < |w.claims| && w.claims[i].step == w.claims[j].step ::
          w.claims[i].attempt < w.claims[j].attempt)
  }

  /** Only a running step has an active claim, only a finished one an outcome, and both belong to its latest attempt. */
  ghost predicate ClaimsMatchSteps(w: Workflow)
    requires AttemptsOrdered(w)
  {
    && (forall i | 0 <= i < |w.claims| && !w.claims[i].status.StaleRejected? && !w.claims[i].status.CancelledClaim? ::
          w.claims[i].attempt == w.steps[w.claims[i].step].attempts)
    && (forall i | 0 <= i < |w.claims| && w.claims[i].status.Active? :: w.steps[w.claims[i].step].state.StepRunning?)
    && (forall i | 0 <= i < |w.claims| && w.claims[i].status.Finished? ::
          w.steps[w.claims[i].step].state == StepDone(w.claims[i].status.terminal))
  }

  ghost predicate HasActiveClaim(w: Workflow, s: StepId) {
    exists i :: 0 <= i < |w.claims| && w.claims[i].step == s && w.claims[i].status.Active?
  }

  ghost predicate HasOutcome(w: Workflow, s: StepId) {
    exists i :: 0 <= i < |w.claims| && w.claims[i].step == s && w.claims[i].status.Finished?
  }

  /** Dispatch steps are run by other services, not by claims. */
  predicate IsDispatch(w: Workflow, s: StepId) {
    PlannedStep(w, s).Some? && PlannedStep(w, s).value.kind.Dispatch?
  }

  /** A running step of an active workflow is held by a claim, and a finished step by an outcome. */
  ghost predicate StepsMatchClaims(w: Workflow) {
    && (IsActive(w) ==>
        forall s | s in w.steps && w.steps[s].state.StepRunning? && !IsDispatch(w, s) :: HasActiveClaim(w, s))
    && (forall s | s in w.steps && w.steps[s].state.StepDone? && !IsDispatch(w, s) :: HasOutcome(w, s))
    && (IsActive(w) ==>
        forall s | s in w.steps && w.steps[s].state.StepDone? :: w.steps[s].state == StepDone(Succeeded))
  }

  ghost predicate Succeeds(w: Workflow, s: StepId) {
    s in w.steps && w.steps[s].state == StepDone(Succeeded)
  }

  /** `successes` lists each succeeded step once, every one after all the steps it depends on. */
  ghost predicate SuccessesOrdered(w: Workflow) {
    && NoDuplicates(w.successes)
    && (forall s :: s in w.successes <==> Succeeds(w, s))
    && (forall n, d | 0 <= n < |w.successes| && d in DependsOn(w, w.successes[n]) :: d in w.successes[..n])
    && (forall s, d | s in w.steps && w.steps[s].state.StepRunning? && d in DependsOn(w, s) :: Succeeds(w, d))
  }

  function DependsOn(w: Workflow, s: StepId): seq<StepId> {
    if PlannedStep(w, s).Some? then PlannedStep(w, s).value.dependsOn else []
  }

  ghost predicate Scheduled(w: Workflow) {
    AttemptsOrdered(w) && ClaimsMatchSteps(w) && StepsMatchClaims(w) && SuccessesOrdered(w)
  }

  /** Never two active claims, and never two outcomes, of one step. */
  lemma OneHolderPerStep(w: Workflow, i: nat, j: nat)
    requires Scheduled(w) && i < j < |w.claims| && w.claims[i].step == w.claims[j].step
    ensures !w.claims[i].status.Active? && !w.claims[i].status.Finished?
  {
  }

  // ----- readiness -----

  /** The readiness query holds exactly when the list has no repetition and every dependency has succeeded. */
  lemma ReadinessQuery(steps: map<StepId, StepRow>, dependsOn: seq<StepId>)
    ensures DependenciesSucceeded(steps, dependsOn) <==>
            NoDuplicates(dependsOn) && forall d | d in dependsOn :: d in steps && steps[d].state == StepDone(Succeeded)
  {
    var all := Elements(dependsOn);
    var found := set d | d in dependsOn && d in steps;
    DistinctCount(dependsOn);
    if forall d | d in dependsOn :: d in steps {
      assert found == all;
    } else {
      var d :| d in dependsOn && d !in steps;
      assert found <= all - {d};
      SubsetSize(found, all - {d});
    }
  }

  lemma {:induction false} SubsetSize<T>(a: set<T>, b: set<T>)
    requires a <= b
    ensures |a| <= |b|
  {
    if a != {} {
      var x :| x in a;
      SubsetSize(a - {x}, b - {x});
    }
  }

  // ----- every primitive keeps the schedule -----

  lemma CreateScheduled(plan: Plan)
    ensures Scheduled(Create(plan))
  {
    var w := Create(plan);
    forall s | s in w.steps ensures PlannedStep(w, s).Some? {
      var step :| step in plan.steps && step.id == s;
    }
  }

  lemma OpenClaimAttempts(w: Workflow, step: PlanStep, request: Activation, now: int, keys: Keyring)
    requires AttemptsOrdered(w) && ClaimsMatchSteps(w) && PlannedStep(w, step.id) == Some(step) && !step.kind.Dispatch?
    requires step.id in w.steps && w.steps[step.id].state.StepPending?
    ensures var o := OpenClaim(w, step, request, now, keys); AttemptsOrdered(o) && ClaimsMatchSteps(o)
  {
    hide FindStep;
    var o := OpenClaim(w, step, request, now, keys);
    OpenClaimNumbers(w, step, request, now, keys);
    assert forall i | 0 <= i < |w.claims| :: o.claims[i] == w.claims[i];
    assert forall s | s != step.id && s in w.steps :: o.steps[s] == w.steps[s];
  }

  lemma OpenClaimNumbers(w: Workflow, step: PlanStep, request: Activation, now: int, keys: Keyring)
    requires AttemptsOrdered(w) && PlannedStep(w, step.id) == Some(step) && !step.kind.Dispatch?
    requires step.id in w.steps && w.steps[step.id].state.StepPending?
    ensures AttemptsOrdered(OpenClaim(w, step, request, now, keys))
  {
    hide FindStep;
    var o := OpenClaim(w, step, request, now, keys);
    assert forall i | 0 <= i < |w.claims| :: o.claims[i] == w.claims[i];
    assert forall s :: PlannedStep(o, s) == PlannedStep(w, s) && IsDispatch(o, s) == IsDispatch(w, s);
    assert forall s | s != step.id && s in w.steps :: o.steps[s] == w.steps[s];
  }

  lemma OpenClaimHolders(w: Workflow, step: PlanStep, request: Activation, now: int, keys: Keyring)
    requires StepsMatchClaims(w) && IsActive(w) && step.id in w.steps && w.steps[step.id].state.StepPending?
    ensures StepsMatchClaims(OpenClaim(w, step, request, now, keys))
  {
    hide StepsMatchClaims, HasOutcome;
    var o := OpenClaim(w, step, request, now, keys);
    assert forall i | 0 <= i < |w.claims| :: o.claims[i] == w.claims[i];
    assert HasActiveClaim(o, step.id) by { assert o.claims[|w.claims|].step == step.id; }
    OutcomesKept(w, o);
    ActiveClaimsKept(w, o, step.id);
    HoldersKept(w, o, step.id);
  }

  lemma OpenClaimOrdered(w: Workflow, step: PlanStep, request: Activation, now: int, keys: Keyring)
    requires SuccessesOrdered(w) && PlannedStep(w, step.id) == Some(step) && Ready(w, step)
    ensures SuccessesOrdered(OpenClaim(w, step, request, now, keys))
  {
    hide DependenciesSucceeded, FindStep;
    var o := OpenClaim(w, step, request, now, keys);
    ReadinessQuery(w.steps, step.dependsOn);
    assert forall s :: DependsOn(o, s) == DependsOn(w, s);
    assert forall s :: Succeeds(o, s) <==> Succeeds(w, s);
  }

  lemma OpenClaimScheduled(w: Workflow, step: PlanStep, request: Activation, now: int, keys: Keyring)
    requires Scheduled(w) && IsActive(w) && PlannedStep(w, step.id) == Some(step) && Ready(w, step)
             && !step.kind.Dispatch?
    ensures Scheduled(OpenClaim(w, step, request, now, keys))
  {
    hide FindStep, DependenciesSucceeded, OpenClaim, AttemptsOrdered, ClaimsMatchSteps, StepsMatchClaims,
         SuccessesOrdered;
    OpenClaimAttempts(w, step, request, now, keys);
    OpenClaimHolders(w, step, request, now, keys);
    OpenClaimOrdered(w, step, request, now, keys);
  }

  /** Outcomes are found again in a table whose finished rows are unchanged. */
  lemma OutcomesKept(w: Workflow, o: Workflow)
    requires |o.claims| >= |w.claims|
    requires forall i | 0 <= i < |w.claims| && w.claims[i].status.Finished? ::
               o.claims[i].step == w.claims[i].step && o.claims[i].status.Finished?
    ensures forall s | HasOutcome(w, s) :: HasOutcome(o, s)
  {
    forall s | HasOutcome(w, s) ensures HasOutcome(o, s) {
      var i :| 0 <= i < |w.claims| && w.claims[i].step == s && w.claims[i].status.Finished?;
      assert o.claims[i].step == s;
    }
  }

  lemma ActiveClaimsKept(w: Workflow, o: Workflow, except: StepId)
    requires |o.claims| >= |w.claims|
    requires forall i | 0 <= i < |w.claims| && w.claims[i].status.Active? && w.claims[i].step != except ::
               o.claims[i].step == w.claims[i].step && o.claims[i].status.Active?
    ensures forall s | s != except && HasActiveClaim(w, s) :: HasActiveClaim(o, s)
  {
    forall s | s != except && HasActiveClaim(w, s) ensures HasActiveClaim(o, s) {
      var i :| 0 <= i < |w.claims| && w.claims[i].step == s && w.claims[i].status.Active?;
      assert o.claims[i].step == s;
    }
  }

  /** One step changes; the holders and outcomes of all others are found again. */
  lemma HoldersKept(w: Workflow, o: Workflow, step: StepId)
    requires StepsMatchClaims(w) && IsActive(w) && o.plan == w.plan && o.steps.Keys == w.steps.Keys && step in o.steps
    requires forall s | s in w.steps && s != step :: o.steps[s] == w.steps[s]
    requires forall s | HasOutcome(w, s) :: HasOutcome(o, s)
    requires forall s | s != step && HasActiveClaim(w, s) :: HasActiveClaim(o, s)
    requires o.steps[step].state.StepRunning? ==> HasActiveClaim(o, step)
    requires o.steps[step].state.StepDone? ==>
             HasOutcome(o, step) && (IsActive(o) ==> o.steps[step].state == StepDone(Succeeded))
    ensures StepsMatchClaims(o)
  {
    hide FindStep, HasOutcome, HasActiveClaim, IsActive;
    assert forall s :: IsDispatch(o, s) == IsDispatch(w, s);
  }

  /** A change to one row that leaves its step, attempt and status alone, as metering, renewal and events do. */
  ghost predicate SameScheduling(w: Workflow, o: Workflow) {
    && o.plan == w.plan && o.steps == w.steps && o.successes == w.successes && |o.claims| == |w.claims|
    && IsActive(o) == IsActive(w)
    && forall i | 0 <= i < |w.claims| ::
         && o.claims[i].step == w.claims[i].step && o.claims[i].kind == w.claims[i].kind
         && o.claims[i].attempt == w.claims[i].attempt && o.claims[i].status == w.claims[i].status
  }

  lemma SameScheduled(w: Workflow, o: Workflow)
    requires Scheduled(w) && SameScheduling(w, o)
    ensures Scheduled(o)
  {
    hide FindStep;
    assert forall s :: PlannedStep(o, s) == PlannedStep(w, s) && IsDispatch(o, s) == IsDispatch(w, s);
    OutcomesKept(w, o);
    forall s | HasActiveClaim(w, s) ensures HasActiveClaim(o, s) {
      var i :| 0 <= i < |w.claims| && w.claims[i].step == s && w.claims[i].status.Active?;
      assert o.claims[i].step == s;
    }
    assert forall s :: DependsOn(o, s) == DependsOn(w, s);
    assert forall s :: Succeeds(o, s) == Succeeds(w, s);
  }

  /** While a claim on a step is active, no other claim of it is active or has an outcome. */
  ghost predicate SoleHolder(w: Workflow, i: nat)
    requires i < |w.claims|
  {
    forall k | 0 <= k < |w.claims| && k != i && w.claims[k].step == w.claims[i].step ::
      !w.claims[k].status.Active? && !w.claims[k].status.Finished?
  }

  lemma ActiveClaimIsSole(w: Workflow, i: nat)
    requires AttemptsOrdered(w) && ClaimsMatchSteps(w) && i < |w.claims| && w.claims[i].status.Active?
    ensures SoleHolder(w, i)
  {
    hide FindStep;
    forall k | 0 <= k < |w.claims| && k != i && w.claims[k].step == w.claims[i].step
      ensures !w.claims[k].status.Active? && !w.claims[k].status.Finished?
    {
      if k < i {
        assert w.claims[k].attempt < w.claims[i].attempt;
      }
    }
  }

  lemma FinishMatches(w: Workflow, i: nat, r: Record, edge: Option<RecordedEdge>)
    requires AttemptsOrdered(w) && ClaimsMatchSteps(w) && i < |w.claims| && r.payload.Outcome?
    requires w.claims[i].status.Active? && SoleHolder(w, i)
    ensures var f := Finish(w, i, r, edge); AttemptsOrdered(f) && ClaimsMatchSteps(f)
  {
    hide FindStep, AllSucceeded;
    var f := Finish(w, i, r, edge);
    assert forall k | 0 <= k < |w.claims| && k != i :: f.claims[k] == w.claims[k];
    assert forall s :: PlannedStep(f, s) == PlannedStep(w, s) && IsDispatch(f, s) == IsDispatch(w, s);
    assert forall s | s in w.steps :: f.steps[s].attempts == w.steps[s].attempts;
  }

  lemma FinishHolders(w: Workflow, i: nat, r: Record, edge: Option<RecordedEdge>)
    requires StepsMatchClaims(w) && IsActive(w) && i < |w.claims| && r.payload.Outcome? && w.claims[i].step in w.steps
    requires w.claims[i].status.Active?
    ensures StepsMatchClaims(Finish(w, i, r, edge))
  {
    hide AllSucceeded, StepsMatchClaims;
    var f := Finish(w, i, r, edge);
    var step := w.claims[i].step;
    assert forall k | 0 <= k < |w.claims| && k != i :: f.claims[k] == w.claims[k];
    assert HasOutcome(f, step) by { assert f.claims[i].step == step && f.claims[i].status.Finished?; }
    OutcomesKept(w, f);
    ActiveClaimsKept(w, f, step);
    HoldersKept(w, f, step);
  }

  lemma FinishScheduled(w: Workflow, i: nat, r: Record, edge: Option<RecordedEdge>)
    requires Scheduled(w) && IsActive(w) && i < |w.claims| && r.payload.Outcome? && w.claims[i].step in w.steps
    requires w.claims[i].status.Active?
    ensures Scheduled(Finish(w, i, r, edge))
  {
    hide FindStep, AllSucceeded, Finish, AttemptsOrdered, ClaimsMatchSteps, StepsMatchClaims, SuccessesOrdered;
    ActiveClaimIsSole(w, i);
    FinishMatches(w, i, r, edge);
    FinishHolders(w, i, r, edge);
    FinishOrdered(w, i, r, edge);
  }

  lemma FinishOrdered(w: Workflow, i: nat, r: Record, edge: Option<RecordedEdge>)
    requires Scheduled(w) && IsActive(w) && i < |w.claims| && r.payload.Outcome? && w.claims[i].step in w.steps
    requires w.claims[i].status.Active?
    ensures SuccessesOrdered(Finish(w, i, r, edge))
  {
    hide FindStep, AllSucceeded;
    var f := Finish(w, i, r, edge);
    var step := w.claims[i].step;
    assert forall s :: DependsOn(f, s) == DependsOn(w, s);
    assert w.steps[step].state.StepRunning? && step !in w.successes;
    if r.payload.terminal.Succeeded? {
      assert f.successes == w.successes + [step];
      assert forall s :: Succeeds(f, s) <==> Succeeds(w, s) || s == step;
      forall n, d | 0 <= n < |f.successes| && d in DependsOn(f, f.successes[n]) ensures d in f.successes[..n] {
        if n < |w.successes| {
          assert f.successes[..n] == w.successes[..n];
        } else {
          assert Succeeds(w, d);
          assert f.successes[..n] == w.successes;
        }
      }
    } else {
      assert f.successes == w.successes;
      assert forall s :: Succeeds(f, s) <==> Succeeds(w, s);
    }
  }

  lemma HaltMatches(w: Workflow, status: ClaimStatus, state: WorkflowState, error: WorkflowError)
    requires AttemptsOrdered(w) && ClaimsMatchSteps(w) && (status.StaleRejected? || status.CancelledClaim?)
    ensures var h := Halt(w, status, state, error); AttemptsOrdered(h) && ClaimsMatchSteps(h)
  {
    hide FindStep;
    var h := Halt(w, status, state, error);
    assert forall s :: PlannedStep(h, s) == PlannedStep(w, s) && IsDispatch(h, s) == IsDispatch(w, s);
  }

  lemma HaltScheduled(w: Workflow, status: ClaimStatus, state: WorkflowState, error: WorkflowError)
    requires Scheduled(w) && (status.StaleRejected? || status.CancelledClaim?) && state.Stopped?
    ensures Scheduled(Halt(w, status, state, error))
  {
    hide FindStep, AttemptsOrdered, ClaimsMatchSteps;
    var h := Halt(w, status, state, error);
    HaltMatches(w, status, state, error);
    assert forall s :: DependsOn(h, s) == DependsOn(w, s);
    OutcomesKept(w, h);
    assert forall s :: Succeeds(h, s) == Succeeds(w, s);
  }

  lemma ReleaseMatches(w: Workflow, i: nat)
    requires AttemptsOrdered(w) && ClaimsMatchSteps(w) && i < |w.claims| && w.claims[i].status.Active?
             && SoleHolder(w, i)
    ensures var f := Release(w, i); AttemptsOrdered(f) && ClaimsMatchSteps(f)
  {
    hide FindStep;
    var f := Release(w, i);
    assert forall k | 0 <= k < |w.claims| && k != i :: f.claims[k] == w.claims[k];
    assert forall s :: PlannedStep(f, s) == PlannedStep(w, s) && IsDispatch(f, s) == IsDispatch(w, s);
    assert forall s | s in w.steps :: f.steps[s].attempts == w.steps[s].attempts;
  }

  lemma ReleaseHolders(w: Workflow, i: nat)
    requires StepsMatchClaims(w) && IsActive(w) && i < |w.claims| && w.claims[i].status.Active?
    requires w.claims[i].step in w.steps && w.steps[w.claims[i].step].state.StepRunning?
    ensures StepsMatchClaims(Release(w, i))
  {
    hide StepsMatchClaims, HasOutcome;
    var f := Release(w, i);
    assert forall k | 0 <= k < |w.claims| && k != i :: f.claims[k] == w.claims[k];
    OutcomesKept(w, f);
    ActiveClaimsKept(w, f, w.claims[i].step);
    HoldersKept(w, f, w.claims[i].step);
  }

  lemma ReleaseOrdered(w: Workflow, i: nat)
    requires SuccessesOrdered(w) && i < |w.claims|
    ensures SuccessesOrdered(Release(w, i))
  {
    hide FindStep;
    var f := Release(w, i);
    assert forall s :: DependsOn(f, s) == DependsOn(w, s);
    assert forall s :: Succeeds(f, s) == Succeeds(w, s);
  }

  lemma ReleaseScheduled(w: Workflow, i: nat)
    requires Scheduled(w) && IsActive(w) && i < |w.claims| && w.claims[i].status.Active?
    ensures Scheduled(Release(w, i))
  {
    hide FindStep, Release, StepsMatchClaims, SuccessesOrdered;
    ActiveClaimIsSole(w, i);
    ReleaseMatches(w, i);
    ReleaseHolders(w, i);
    ReleaseOrdered(w, i);
  }

  lemma FreezeScheduled(w: Workflow, ready: bool)
    requires Scheduled(w) && !IsActive(w)
    ensures Scheduled(Freeze(w, ready))
  {
    hide FindStep, Outcomes;
    SameScheduled(w, Freeze(w, ready));
  }
}
