/** Version 3 parents: what external steps keep of the claims' invariants, and why a frozen parent receipt validates. */
module ExternalParents {
  import opened Wrappers
  import opened DependencyGraph
  import opened RuntimeWorkflow
  import opened WorkflowOutcomes
  import opened WorkflowPlan
  import opened WorkflowScheduling
  import opened WorkflowLog
  import opened WorkflowRuns
  import opened ExternalOperation
  import opened ExternalReceipts
  import opened ExternalWorld

  // ----- external steps keep the parent in order -----

  /** Claims look at no dispatch step, so changing one leaves their order as it was. */
  lemma DispatchStepApart(w: Workflow, v: Workflow, step: StepId)
    requires AttemptsOrdered(w) && ClaimsMatchSteps(w) && step in w.steps && IsDispatch(w, step)
    requires v.plan == w.plan && v.claims == w.claims && v.steps.Keys == w.steps.Keys
    requires forall s | s in w.steps && s != step :: v.steps[s] == w.steps[s]
    ensures AttemptsOrdered(v) && ClaimsMatchSteps(v)
  {
    hide FindStep;
    assert forall s :: PlannedStep(v, s) == PlannedStep(w, s);
    assert forall i | 0 <= i < |w.claims| :: w.claims[i].step != step;
  }

  lemma DispatchHoldersApart(w: Workflow, v: Workflow, step: StepId)
    requires StepsMatchClaims(w) && IsActive(w) && step in w.steps && IsDispatch(w, step)
    requires v.plan == w.plan && v.claims == w.claims && v.steps.Keys == w.steps.Keys
    requires forall s | s in w.steps && s != step :: v.steps[s] == w.steps[s]
    requires IsActive(v) && v.steps[step].state.StepDone? ==> v.steps[step].state == StepDone(Succeeded)
    ensures StepsMatchClaims(v)
  {
    hide FindStep;
    assert forall s :: PlannedStep(v, s) == PlannedStep(w, s) && IsDispatch(v, s) == IsDispatch(w, s);
    OutcomesKept(w, v);
    ActiveClaimsKept(w, v, step);
  }

  lemma OpenExternalScheduled(w: Workflow, step: PlanStep)
    requires Scheduled(w) && IsActive(w) && FindStep(w.plan.steps, step.id) == Some(step) && step.kind.Dispatch?
             && ExternallyReady(w, step)
    ensures Scheduled(OpenExternal(w, step.id))
  {
    hide FindStep, AttemptsOrdered, ClaimsMatchSteps, StepsMatchClaims, SuccessesOrdered;
    assert IsDispatch(w, step.id);
    DispatchStepApart(w, OpenExternal(w, step.id), step.id);
    DispatchHoldersApart(w, OpenExternal(w, step.id), step.id);
    OpenExternalOrdered(w, step);
  }

  lemma OpenExternalOrdered(w: Workflow, step: PlanStep)
    requires SuccessesOrdered(w) && FindStep(w.plan.steps, step.id) == Some(step) && ExternallyReady(w, step)
    ensures SuccessesOrdered(OpenExternal(w, step.id))
  {
    hide FindStep;
    var o := OpenExternal(w, step.id);
    assert forall s :: DependsOn(o, s) == DependsOn(w, s);
    assert forall s :: Succeeds(o, s) <==> Succeeds(w, s);
  }

  lemma OpenExternalKept(w: Workflow, step: PlanStep)
    requires Kept(w) && IsActive(w) && FindStep(w.plan.steps, step.id) == Some(step) && step.kind.Dispatch?
             && ExternallyReady(w, step)
    ensures Kept(OpenExternal(w, step.id)) && IsActive(OpenExternal(w, step.id))
  {
    hide Scheduled, GoodLog, SingleUse, Outcomes, FindStep;
    OpenExternalScheduled(w, step);
    var o := OpenExternal(w, step.id);
    assert o.steps[step.id].state != StepDone(Succeeded);
  }

  lemma AdvanceOrdered(w: Workflow, step: StepId, succeeded: bool)
    requires SuccessesOrdered(w) && step in w.steps
    ensures SuccessesOrdered(Advance(w, step, succeeded))
  {
    hide FindStep, AllSucceeded;
    var v := Advance(w, step, succeeded);
    assert forall s :: DependsOn(v, s) == DependsOn(w, s);
    if w.steps[step].state.StepRunning? && succeeded {
      assert v.successes == w.successes + [step] && step !in w.successes;
      assert forall s :: Succeeds(v, s) <==> Succeeds(w, s) || s == step;
      forall n, d | 0 <= n < |v.successes| && d in DependsOn(v, v.successes[n]) ensures d in v.successes[..n] {
        if n < |w.successes| {
          assert v.successes[..n] == w.successes[..n];
        } else {
          assert Succeeds(w, d);
          assert v.successes[..n] == w.successes;
        }
      }
    } else {
      assert v.successes == w.successes;
      assert forall s :: Succeeds(v, s) <==> Succeeds(w, s);
    }
  }

  lemma AdvanceEnded(w: Workflow, step: StepId, succeeded: bool, ready: bool)
    requires Ended(w) && IsActive(w) && step in w.steps
             && (w.steps[step].state.StepRunning? || w.steps[step].state == StepDone(Succeeded))
    requires !succeeded ==> w.steps[step].state.StepRunning?
    ensures var v := Advance(w, step, succeeded); Ended(if IsActive(v) then v else Freeze(v, ready))
  {
    hide Outcomes, AllSucceeded;
    var v := Advance(w, step, succeeded);
    if !succeeded {
      OneFailed(v.steps, step);
    }
  }

  lemma AdvanceParentKept(w: Workflow, op: Operation, ready: bool)
    requires Kept(w) && op.who.application.step in w.steps && IsDispatch(w, op.who.application.step)
    requires IsActive(w) && Confirmed(op.outcome) ==>
               var s := w.steps[op.who.application.step].state;
               s.StepRunning? || (s == StepDone(Succeeded) && op.outcome.ConfirmedSucceeded?)
    ensures Kept(AdvanceParent(w, op, ready))
  {
    hide Scheduled, Logged, Ended, Advance, Freeze, IsDispatch;
    if IsActive(w) && Confirmed(op.outcome) && !op.reconciliation {
      var step, succeeded := op.who.application.step, op.outcome.ConfirmedSucceeded?;
      var v := Advance(w, step, succeeded);
      AdvanceScheduled(w, step, succeeded);
      AdvanceLogged(w, step, succeeded);
      AdvanceEnded(w, step, succeeded, ready);
      if !IsActive(v) {
        FreezeScheduled(v, ready);
        FreezeLogged(v, ready);
      }
    }
  }

  lemma AdvanceScheduled(w: Workflow, step: StepId, succeeded: bool)
    requires Scheduled(w) && IsActive(w) && step in w.steps && IsDispatch(w, step)
    ensures Scheduled(Advance(w, step, succeeded))
  {
    hide AttemptsOrdered, ClaimsMatchSteps, SuccessesOrdered, StepsMatchClaims, IsDispatch, AllSucceeded;
    DispatchStepApart(w, Advance(w, step, succeeded), step);
    assert w.steps[step].state.StepDone? ==> w.steps[step].state == StepDone(Succeeded) by {
      if w.steps[step].state.StepDone? { DoneIsSucceeded(w, step); }
    }
    DispatchHoldersApart(w, Advance(w, step, succeeded), step);
    AdvanceOrdered(w, step, succeeded);
  }

  lemma DoneIsSucceeded(w: Workflow, step: StepId)
    requires StepsMatchClaims(w) && IsActive(w) && step in w.steps && w.steps[step].state.StepDone?
    ensures w.steps[step].state == StepDone(Succeeded)
  {
  }

  lemma AdvanceLogged(w: Workflow, step: StepId, succeeded: bool)
    requires Logged(w) && step in w.steps
    ensures Logged(Advance(w, step, succeeded))
  {
    hide GoodLog, SingleUse;
  }

  // ----- the rows of a parent receipt -----

  lemma Snoc<T(!new)>(s: seq<T>, x: T)
    requires NoDuplicates(s) && x !in s
    ensures NoDuplicates(s + [x])
  {
  }

  lemma {:induction false} OutcomeOfClaim(claims: seq<Claim>)
    ensures forall r :: r in Outcomes(claims) <==> exists i :: 0 <= i < |claims| && claims[i].outcome == Some(r)
  {
    if claims != [] {
      var last := |claims| - 1;
      var front := claims[..last];
      OutcomeOfClaim(front);
      forall r ensures r in Outcomes(claims) <==> exists i :: 0 <= i < |claims| && claims[i].outcome == Some(r) {
        if r in Outcomes(front) {
          var i :| 0 <= i < |front| && front[i].outcome == Some(r);
          assert claims[i].outcome == Some(r);
        }
        if i :| 0 <= i < |claims| && claims[i].outcome == Some(r) {
          if i < last { assert front[i].outcome == Some(r); }
        }
      }
    }
  }

  /** Claims with outcomes are of different steps. */
  ghost predicate OneOutcomeEach(claims: seq<Claim>) {
    && (forall i | 0 <= i < |claims| && claims[i].outcome.Some? :: claims[i].outcome.value.step == claims[i].step)
    && forall i, j | 0 <= i < j < |claims| && claims[i].outcome.Some? && claims[j].outcome.Some? ::
         claims[i].step != claims[j].step
  }

  lemma KeptOneOutcomeEach(w: Workflow)
    requires Kept(w)
    ensures OneOutcomeEach(w.claims)
  {
    hide Ended, SingleUse, EdgesOnce, FindStep, Contiguous;
    forall i | 0 <= i < |w.claims| && w.claims[i].outcome.Some?
      ensures w.claims[i].outcome.value.step == w.claims[i].step && w.claims[i].status.Finished?
    {
      assert GoodLog(w.claims[i]);
    }
    forall i, j | 0 <= i < j < |w.claims| && w.claims[i].outcome.Some? && w.claims[j].outcome.Some?
      ensures w.claims[i].step != w.claims[j].step
    {
      if w.claims[i].step == w.claims[j].step {
        OneHolderPerStep(w, i, j);
      }
    }
  }

  lemma {:induction false} OutcomeStepsDistinct(claims: seq<Claim>)
    requires OneOutcomeEach(claims)
    ensures NoDuplicates(ClaimSteps(Outcomes(claims)))
    ensures forall s | s in ClaimSteps(Outcomes(claims)) ::
              exists i :: 0 <= i < |claims| && claims[i].outcome.Some? && claims[i].step == s
  {
    if claims != [] {
      var last := |claims| - 1;
      var front := claims[..last];
      OutcomeStepsDistinct(front);
      var c := claims[last];
      if c.outcome.Some? {
        assert ClaimSteps(Outcomes(claims)) == ClaimSteps(Outcomes(front)) + [c.step];
        Snoc(ClaimSteps(Outcomes(front)), c.step);
      } else {
        assert Outcomes(claims) == Outcomes(front);
      }
      forall s | s in ClaimSteps(Outcomes(claims))
        ensures exists i :: 0 <= i < |claims| && claims[i].outcome.Some? && claims[i].step == s
      {
        if s in ClaimSteps(Outcomes(front)) {
          var i :| 0 <= i < |front| && front[i].outcome.Some? && front[i].step == s;
          assert claims[i].outcome.Some? && claims[i].step == s;
        } else {
          assert claims[last].step == s;
        }
      }
    }
  }

  /** The operations of a parent are of its external steps, as bound, and show their latest receipts. */
  ghost predicate OperationsOf(ops: seq<Operation>, job: string, parent: Workflow) {
    forall n | 0 <= n < |ops| && ops[n].who.application.job == job :: OperationOf(ops[n], parent)
  }

  ghost predicate OperationOf(op: Operation, parent: Workflow) {
    var app := op.who.application;
    var planned := FindStep(parent.plan.steps, app.step);
    && GoodOperation(op) && app.step in parent.steps
    && planned.Some? && planned.value.kind.Dispatch? && planned.value.external.Some?
    && Binds(planned.value.external.value, app) && planned.value.external.value.profile == op.who.profile.digest
    && app.planDigest == PlanDigest(parent.plan)
  }

  ghost predicate StepsUnique(ops: seq<Operation>) {
    forall i, j | 0 <= i < j < |ops| ::
      ops[i].who.application.job != ops[j].who.application.job
          || ops[i].who.application.step != ops[j].who.application.step
  }

  lemma {:induction false} OperationRowsAre(ops: seq<Operation>, job: string, steps: map<StepId, StepRow>)
    requires StepsUnique(ops) && forall n | 0 <= n < |ops| && ops[n].who.application.job == job ::
                                   ops[n].who.application.step in steps
    ensures NoDuplicates(ExternalSteps(OperationRows(ops, job, steps)))
    ensures forall s ::
              s in ExternalSteps(OperationRows(ops, job, steps)) <==>
                  exists n :: 0 <= n < |ops| && HasStep(ops[n], job, s)
  {
    var rows := OperationRows(ops, job, steps);
    if ops != [] {
      var last := |ops| - 1;
      var front, op := ops[..last], ops[last];
      OperationRowsAre(front, job, steps);
      var before := OperationRows(front, job, steps);
      var step := op.who.application.step;
      if op.who.application.job == job {
        assert ExternalSteps(rows) == ExternalSteps(before) + [step];
        Snoc(ExternalSteps(before), step);
        assert HasStep(ops[last], job, step);
      } else {
        assert rows == before;
      }
      forall s ensures s in ExternalSteps(rows) <==> exists n :: 0 <= n < |ops| && HasStep(ops[n], job, s) {
        if n :| 0 <= n < |ops| && HasStep(ops[n], job, s) {
          if n < last { assert HasStep(front[n], job, s); }
        }
        if s in ExternalSteps(before) {
          var n :| 0 <= n < last && HasStep(front[n], job, s);
          assert HasStep(ops[n], job, s);
        }
      }
    }
  }

  lemma {:induction false} OperationRowsShow(ops: seq<Operation>, job: string, steps: map<StepId, StepRow>)
    ensures forall row | row in OperationRows(ops, job, steps) ::
              exists n ::
                0 <= n < |ops| && HasStep(ops[n], job, row.step) && row.succeeded == Successful(ops[n])
                    && row.operation == ops[n].latest
    ensures forall row | row in OperationRows(ops, job, steps) ::
              row.step in steps && row.attempt == steps[row.step].attempts
  {
    if ops != [] {
      var last := |ops| - 1;
      OperationRowsShow(ops[..last], job, steps);
      forall row | row in OperationRows(ops, job, steps)
        ensures exists n ::
                  0 <= n < |ops| && HasStep(ops[n], job, row.step) && row.succeeded == Successful(ops[n])
                      && row.operation == ops[n].latest
      {
        if row in OperationRows(ops[..last], job, steps) {
          var n :| 0 <= n < last && HasStep(ops[..last][n], job, row.step) && row.succeeded == Successful(ops[n])
              && row.operation == ops[n].latest;
          assert HasStep(ops[n], job, row.step);
        } else {
          assert HasStep(ops[last], job, row.step);
        }
      }
    }
  }

  lemma {:induction false} UnallocatedRowsAre(ops: seq<Operation>, job: string, planned: seq<PlanStep>)
    requires DistinctSteps(planned)
    ensures NoDuplicates(ExternalSteps(UnallocatedRows(ops, job, planned)))
    ensures forall s :: s in ExternalSteps(UnallocatedRows(ops, job, planned)) <==>
              exists k ::
                0 <= k < |planned| && planned[k].id == s && planned[k].external.Some? && FindByStep(ops, job, s).None?
    ensures forall row | row in UnallocatedRows(ops, job, planned) ::
              !row.succeeded && row.operation.None? && row.attempt == 1
  {
    hide FindByStep;
    var rows := UnallocatedRows(ops, job, planned);
    if planned != [] {
      var last := |planned| - 1;
      var front, s := planned[..last], planned[last];
      DistinctFront(planned);
      UnallocatedRowsAre(ops, job, front);
      var before := UnallocatedRows(ops, job, front);
      if s.external.Some? && FindByStep(ops, job, s.id).None? {
        assert ExternalSteps(rows) == ExternalSteps(before) + [s.id];
        assert s.id !in ExternalSteps(before);
        Snoc(ExternalSteps(before), s.id);
        assert planned[last].id == s.id;
      } else {
        assert rows == before;
      }
      forall t ensures t in ExternalSteps(rows) <==>
                       exists k ::
                         0 <= k < |planned| && planned[k].id == t && planned[k].external.Some?
                             && FindByStep(ops, job, t).None? {
        if k :| 0 <= k < |planned| && planned[k].id == t && planned[k].external.Some? && FindByStep(ops, job, t).None? {
          if k < last { assert front[k].id == t; }
        }
        if t in ExternalSteps(before) {
          var k :| 0 <= k < last && front[k].id == t && front[k].external.Some? && FindByStep(ops, job, t).None?;
          assert planned[k].id == t;
        }
      }
    }
  }

  lemma DistinctFront(planned: seq<PlanStep>)
    requires DistinctSteps(planned) && planned != []
    ensures DistinctSteps(planned[..|planned| - 1])
    ensures forall k | 0 <= k < |planned| - 1 :: planned[k].id != planned[|planned| - 1].id
  {
    var last := |planned| - 1;
    var ids, front := StepIdList(planned), StepIdList(planned[..last]);
    assert forall i | 0 <= i < last :: front[i] == ids[i];
    assert forall k | 0 <= k < last :: ids[k] != ids[last];
  }

  // ----- the parent receipt validates -----

  /** What a frozen parent and its operations have to do with each other. */
  ghost predicate Frozen(ops: seq<Operation>, job: string, v: Workflow) {
    && Kept(v) && v.receipt.Some? && ParentPlan(v.plan)
    && StepsUnique(ops) && OperationsOf(ops, job, v)
    && (v.state.Completed? ==> CompletionReady(ops, job, v.plan))
  }

  lemma JoinDistinct<T(!new)>(a: seq<T>, b: seq<T>)
    requires NoDuplicates(a) && NoDuplicates(b) && forall x | x in a :: x !in b
    ensures NoDuplicates(a + b)
  {
    assert forall i | 0 <= i < |a| :: (a + b)[i] in a;
    assert forall j | |a| <= j < |a + b| :: (a + b)[j] in b;
  }

  /** A planned external step, whichever way it is looked up. */
  lemma PlannedExternal(plan: Plan, k: nat)
    requires ParentPlan(plan) && k < |plan.steps| && plan.steps[k].external.Some?
    ensures FindStep(plan.steps, plan.steps[k].id) == Some(plan.steps[k]) && plan.steps[k].kind.Dispatch?
  {
    hide FindStep;
    FindStepUnique(plan.steps, k);
  }

  lemma ExternalRowsDistinct(ops: seq<Operation>, job: string, v: Workflow)
    requires Frozen(ops, job, v)
    ensures var rows := ExternalSteps(ParentReceiptOf(ops, job, v).external);
      && NoDuplicates(rows)
      && (forall s | s in rows :: FindStep(v.plan.steps, s).Some? && FindStep(v.plan.steps, s).value.kind.Dispatch?)
  {
    hide FindStep, FindByStep, OperationRows, UnallocatedRows, Kept, GoodOperation, CompletionReady;
    var resolved, missing := OperationRows(ops, job, v.steps), UnallocatedRows(ops, job, v.plan.steps);
    OperationRowsAre(ops, job, v.steps);
    UnallocatedRowsAre(ops, job, v.plan.steps);
    assert ExternalSteps(resolved + missing) == ExternalSteps(resolved) + ExternalSteps(missing);
    forall s | s in ExternalSteps(resolved)
      ensures s !in ExternalSteps(missing) && FindStep(v.plan.steps, s).Some?
              && FindStep(v.plan.steps, s).value.kind.Dispatch?
    {
      var n :| 0 <= n < |ops| && HasStep(ops[n], job, s);
      assert OperationOf(ops[n], v);
    }
    JoinDistinct(ExternalSteps(resolved), ExternalSteps(missing));
    forall s | s in ExternalSteps(missing)
      ensures FindStep(v.plan.steps, s).Some? && FindStep(v.plan.steps, s).value.kind.Dispatch?
    {
      var k :| 0 <= k < |v.plan.steps| && v.plan.steps[k].id == s && v.plan.steps[k].external.Some?
          && FindByStep(ops, job, s).None?;
      PlannedExternal(v.plan, k);
    }
  }

  lemma ClaimRowsValid(v: Workflow)
    requires Kept(v)
    ensures forall row | row in Outcomes(v.claims) :: ClaimRowValid(v.plan, row)
    ensures NoDuplicates(ClaimSteps(Outcomes(v.claims)))
    ensures forall s | s in ClaimSteps(Outcomes(v.claims)) ::
              FindStep(v.plan.steps, s).Some? && !FindStep(v.plan.steps, s).value.kind.Dispatch?
  {
    hide FindStep, Outcomes, Ended, SingleUse, Contiguous, StepsMatchClaims, SuccessesOrdered, ClaimsMatchSteps;
    OutcomeOfClaim(v.claims);
    KeptOneOutcomeEach(v);
    OutcomeStepsDistinct(v.claims);
    forall row | row in Outcomes(v.claims) ensures ClaimRowValid(v.plan, row) {
      var i :| 0 <= i < |v.claims| && v.claims[i].outcome == Some(row);
      assert GoodLog(v.claims[i]);
    }
    forall s | s in ClaimSteps(Outcomes(v.claims))
      ensures FindStep(v.plan.steps, s).Some? && !FindStep(v.plan.steps, s).value.kind.Dispatch?
    {
      var i :| 0 <= i < |v.claims| && v.claims[i].outcome.Some? && v.claims[i].step == s;
      assert PlannedStep(v, v.claims[i].step).value.kind == v.claims[i].kind;
    }
  }

  lemma AllocatedRowsValid(ops: seq<Operation>, job: string, v: Workflow)
    requires Frozen(ops, job, v)
    ensures forall row | row in OperationRows(ops, job, v.steps) :: ExternalRowValid(v.plan, v.state.Completed?, row)
    ensures v.state.Completed? ==> forall row | row in OperationRows(ops, job, v.steps) :: row.succeeded
  {
    hide FindStep, FindByStep, OperationRows, Kept, CompletionReady, Coherent, Reservations, WithinLimits, Linked;
    OperationRowsShow(ops, job, v.steps);
    forall row | row in OperationRows(ops, job, v.steps)
      ensures ExternalRowValid(v.plan, v.state.Completed?, row) && (v.state.Completed? ==> row.succeeded)
    {
      var n :| 0 <= n < |ops| && HasStep(ops[n], job, row.step) && row.succeeded == Successful(ops[n])
          && row.operation == ops[n].latest;
      assert OperationOf(ops[n], v);
      if v.state.Completed? {
        ReadyOperation(ops, job, v.plan, n);
      }
    }
  }

  /** When a parent is ready, every operation bound to one of its steps is resolved. */
  lemma ReadyOperation(ops: seq<Operation>, job: string, plan: Plan, n: nat)
    requires CompletionReady(ops, job, plan) && StepsUnique(ops) && n < |ops| && ops[n].who.application.job == job
    requires FindStep(plan.steps, ops[n].who.application.step).Some?
             && FindStep(plan.steps, ops[n].who.application.step).value.external.Some?
    ensures ops[n].outcome.ConfirmedSucceeded? && !ops[n].reconciliation && ops[n].conflicts == []
  {
    hide FindStep, FindByStep;
    var s := FindStep(plan.steps, ops[n].who.application.step).value;
    var m := FindByStep(ops, job, s.id);
    assert s in plan.steps;
    assert HasStep(ops[n], job, s.id);
    assert m.Some? && m.value == n;
  }

  lemma UnallocatedRowsValid(ops: seq<Operation>, job: string, v: Workflow)
    requires Frozen(ops, job, v)
    ensures forall row | row in UnallocatedRows(ops, job, v.plan.steps) ::
              ExternalRowValid(v.plan, v.state.Completed?, row)
    ensures v.state.Completed? ==> UnallocatedRows(ops, job, v.plan.steps) == []
  {
    hide FindStep, FindByStep, UnallocatedRows, Kept, GoodOperation;
    var rows := UnallocatedRows(ops, job, v.plan.steps);
    UnallocatedRowsAre(ops, job, v.plan.steps);
    forall row | row in rows ensures ExternalRowValid(v.plan, v.state.Completed?, row) {
      var i :| 0 <= i < |rows| && rows[i] == row;
      assert ExternalSteps(rows)[i] == row.step && row.step in ExternalSteps(rows);
      var k :| 0 <= k < |v.plan.steps| && v.plan.steps[k].id == row.step && v.plan.steps[k].external.Some?
          && FindByStep(ops, job, row.step).None?;
      PlannedExternal(v.plan, k);
    }
    if v.state.Completed? {
      NoneMissing(ops, job, v.plan.steps);
    }
  }

  lemma {:induction false} NoneMissing(ops: seq<Operation>, job: string, planned: seq<PlanStep>)
    requires forall s | s in planned && s.external.Some? :: FindByStep(ops, job, s.id).Some?
    ensures UnallocatedRows(ops, job, planned) == []
  {
    hide FindByStep;
    if planned != [] {
      NoneMissing(ops, job, planned[..|planned| - 1]);
    }
  }

  lemma CompletedCovers(ops: seq<Operation>, job: string, v: Workflow)
    requires Frozen(ops, job, v) && v.state.Completed?
    ensures CoversPlan(v.plan, ParentReceiptOf(ops, job, v))
  {
    hide FindStep, FindByStep, Outcomes, OperationRows, UnallocatedRows, GoodOperation, CompletionReady,
         SuccessesOrdered, SingleUse, Contiguous;
    var r := ParentReceiptOf(ops, job, v);
    AllocatedRowsValid(ops, job, v);
    UnallocatedRowsValid(ops, job, v);
    assert r.external == OperationRows(ops, job, v.steps);
    OutcomeOfClaim(v.claims);
    forall row | row in r.base.steps ensures row.terminal.Succeeded? {
      var i :| 0 <= i < |v.claims| && v.claims[i].outcome == Some(row);
      assert GoodLog(v.claims[i]);
      assert v.steps[v.claims[i].step].state == StepDone(v.claims[i].status.terminal);
    }
    forall s | s in v.plan.steps ensures s.id in ClaimSteps(r.base.steps) + ExternalSteps(r.external) {
      StepHasRow(ops, job, v, s);
    }
  }

  lemma StepHasRow(ops: seq<Operation>, job: string, v: Workflow, s: PlanStep)
    requires Frozen(ops, job, v) && v.state.Completed? && s in v.plan.steps
    ensures s.id in ClaimSteps(Outcomes(v.claims)) || s.id in ExternalSteps(OperationRows(ops, job, v.steps))
  {
    hide FindStep, FindByStep, Outcomes, OperationRows, UnallocatedRows, GoodOperation, SuccessesOrdered, SingleUse,
         Contiguous, ClaimsMatchSteps;
    var k :| 0 <= k < |v.plan.steps| && v.plan.steps[k] == s;
    FindStepUnique(v.plan.steps, k);
    if s.external.Some? {
      OperationRowsAre(ops, job, v.steps);
      var n := FindByStep(ops, job, s.id);
      assert HasStep(ops[n.value], job, s.id);
    } else {
      assert !IsDispatch(v, s.id) && v.steps[s.id].state == StepDone(Succeeded);
      OutcomeHasRow(v, s.id);
    }
  }

  lemma OutcomeHasRow(v: Workflow, s: StepId)
    requires Logged(v) && HasOutcome(v, s)
    ensures s in ClaimSteps(Outcomes(v.claims))
  {
    hide Outcomes, SingleUse, Contiguous;
    var i :| 0 <= i < |v.claims| && v.claims[i].step == s && v.claims[i].status.Finished?;
    assert GoodLog(v.claims[i]);
    OutcomeOfClaim(v.claims);
    var row := v.claims[i].outcome.value;
    var m :| 0 <= m < |Outcomes(v.claims)| && Outcomes(v.claims)[m] == row;
    assert ClaimSteps(Outcomes(v.claims))[m] == s;
  }

  /** What the receipt schema asks of a parent's rows beyond what every run keeps. */
  ghost predicate Receivable(v: Workflow) {
    ReportsMatch(Outcomes(v.claims)) && ListedError(v.error)
  }

  lemma ShapeIfReceivable(v: Workflow)
    requires Kept(v) && v.receipt.Some? && CountersFit(v.receipt.value.counters)
    ensures ReceiptShapeOk(v.receipt.value) <==> Receivable(v)
  {
    hide Scheduled, Logged, Outcomes, ReportsMatch, ListedError, CountersFit, AllSucceeded;
  }

  /** The validator accepts the receipt of every parent that ends, unless the parent's name leaves no room for the
      receipt's, or a claim's outcome carries a report it must not or an error code that version 3 does not list. */
  lemma ReceiptValidates(ops: seq<Operation>, job: string, v: Workflow)
    requires Frozen(ops, job, v) && CountersFit(v.receipt.value.counters)
    ensures ParentReceiptValid(v.plan, ParentReceiptOf(ops, job, v)) <==> ReceiptIdFits(job) && Receivable(v)
  {
    hide FindStep, FindByStep, Outcomes, OperationRows, UnallocatedRows, GoodOperation, CompletionReady, Scheduled,
         Logged, CoversPlan, ClaimRowValid, ExternalRowValid, NoDuplicates, Receivable, ReceiptShapeOk;
    ShapeIfReceivable(v);
    var r := ParentReceiptOf(ops, job, v);
    assert r.base.steps == Outcomes(v.claims) && r.base.status == v.state;
    ClaimRowsValid(v);
    ExternalRowsDistinct(ops, job, v);
    AllocatedRowsValid(ops, job, v);
    UnallocatedRowsValid(ops, job, v);
    JoinDistinct(ClaimSteps(r.base.steps), ExternalSteps(r.external));
    if v.state.Completed? {
      CompletedCovers(ops, job, v);
    }
  }
}
