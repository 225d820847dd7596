/** Runs in which version 3 parents do what they should not: a reported failure that cannot be stored, and too many
    steps at once. */
module ExternalWitnesses {
  import opened Wrappers
  import opened DependencyGraph
  import opened RuntimeWorkflow
  import opened WorkflowPlan
  import opened WorkflowEventBytes
  import opened ExternalOperation
  import opened ExternalWorld
  import opened ExternalInvariant
  import opened ExternalSteps
  import opened ExternalRuns
  import opened ExternalRefusals
  import ExternalTheorems

  // ----- a failure that cannot be reported -----

  lemma BuildFailedIsUnlisted()
    ensures !ParentErrorCode("BUILD_FAILED")
  {
  }

  /** The one claim's holder reports that it failed, under a code of its own. */
  function SoleFailure(step: PlanStep, request: Activation, keys: Keyring, id: string, size: nat,
                       code: string): Update {
    var payload := Payload.Outcome(Unsuccessful(Failed, code), "", size);
    Update(FirstHolder(step, request, keys), Record(id, 0, payload, PayloadDigest(payload)), Artifact("", "", 0), false)
  }

  lemma ParentCreated(w: World, job: string, plan: Plan)
    requires ParentsPlanned(w) && job !in w.parents && ParentPlan(plan)
    ensures Happen(w, CreateParent(job, plan), 0) == w.(parents := w.parents[job := Create(plan)])
  {
  }

  /** A claim request that ends nothing is written to its parent. */
  lemma ClaimServed(w: World, job: string, action: Action)
    requires ParentsPlanned(w) && job in w.parents
    requires Step(w.parents[job], action, CompletionReady(w.operations, job, w.parents[job].plan)).receipt.None?
    ensures Happen(w, ClaimRequest(job, action), 0) ==
            w.(parents := w.parents[job :=
                                    Step(w.parents[job], action,
                                         CompletionReady(w.operations, job, w.parents[job].plan))])
  {
    hide Step, CompletionReady, ParentsPlanned;
  }

  lemma FailureIsIrreceivable(plan: Plan, step: PlanStep, request: Activation, keys: Keyring, id: string, size: nat,
                              code: string)
    requires OneBuilder(plan, step) && Opens(request, step) && step.id in Create(plan).steps && !ParentErrorCode(code)
    ensures Irreceivable(OpenClaim(Create(plan), step, request, 0, keys),
                         DoUpdate(SoleFailure(step, request, keys, id, size, code), 0))
  {
    hide ParentErrorCode;
    var w := OpenClaim(Create(plan), step, request, 0, keys);
    assert w.claims[0].records == [];
  }

  lemma NothingExternal(job: string, plan: Plan, step: PlanStep)
    requires ParentPlan(plan) && OneBuilder(plan, step)
    ensures CompletionReady([], job, plan)
  {
    hide DistinctSteps;
  }

  /** A parent created with one claim opened on its one step. */
  function Opened(plan: Plan, step: PlanStep, request: Activation, keys: Keyring): Workflow
    requires step.id in Create(plan).steps
  {
    OpenClaim(Create(plan), step, request, 0, keys)
  }

  lemma OpenedServed(w: World, job: string, plan: Plan, step: PlanStep, request: Activation, keys: Keyring)
    requires Opens(request, step)
    requires ParentsPlanned(w) && w == EMPTY.(parents := EMPTY.parents[job := Create(plan)])
    requires ParentPlan(plan) && OneBuilder(plan, step) && step.id in Create(plan).steps
    ensures Happen(w, ClaimRequest(job, DoActivate(request, 0, keys)), 0)
            == EMPTY.(parents := EMPTY.parents[job := Opened(plan, step, request, keys)])
  {
    hide Happen, ParentPlan, OneBuilder, OpenClaim, Create, Step, CompletionReady, ParentsPlanned;
    CreatedIsOpen(plan, step, request, keys);
    OpensSole(plan, step, request, keys);
    NothingExternal(job, plan, step);
    ClaimServed(w, job, DoActivate(request, 0, keys));
  }

  lemma OpenedRun(job: string, plan: Plan, step: PlanStep, request: Activation, keys: Keyring)
      returns (events: seq<Timed>)
    requires Opens(request, step) && ParentPlan(plan) && OneBuilder(plan, step)
    ensures step.id in Create(plan).steps
    ensures ExternalTheorems.History(events)
            == EMPTY.(parents := EMPTY.parents[job := Opened(plan, step, request, keys)])
  {
    hide ExternalTheorems.History, Inv, Happen, ParentPlan, OneBuilder, Opened, Create;
    var create := Timed(CreateParent(job, plan), 0);
    var open := Timed(ClaimRequest(job, DoActivate(request, 0, keys)), 0);
    events := [create, open];
    OneStep(plan, step);
    ExternalTheorems.EmptyHistory();
    ExternalTheorems.HistorySnoc([], create);
    ExternalTheorems.HistorySnoc([create], open);
    assert [] + [create] == [create] && [create] + [open] == events;
    ParentCreated(EMPTY, job, plan);
    OpenedServed(ExternalTheorems.History([create]), job, plan, step, request, keys);
  }

  /** A builder that reports "BUILD_FAILED" after a creation and an activation: its request is rolled back, and it
      stays active. */
  lemma FailureCannotBeReported(job: string, plan: Plan, step: PlanStep, request: Activation, keys: Keyring, id: string,
                                size: nat)
    returns (events: seq<Timed>)
    requires Opens(request, step) && ParentPlan(plan) && OneBuilder(plan, step)
    ensures var w, action := ExternalTheorems.History(events),
            DoUpdate(SoleFailure(step, request, keys, id, size, "BUILD_FAILED"), 0);
      && job in w.parents && |w.parents[job].claims| == 1 && w.parents[job].claims[0].status.Active?
      && ParentsPlanned(w) && ClaimAction(w, job, action, 0).Err? && Happen(w, ClaimRequest(job, action), 0) == w
  {
    hide ExternalTheorems.History, Inv, Happen, ParentPlan, OneBuilder, OpenClaim, Create, Irreceivable,
         ParentErrorCode, ClaimAction,
         SoleFailure, Opens, ParentsPlanned;
    events := OpenedRun(job, plan, step, request, keys);
    var v, action := ExternalTheorems.History(events),
        DoUpdate(SoleFailure(step, request, keys, id, size, "BUILD_FAILED"), 0);
    CreatedIsOpen(plan, step, request, keys);
    BuildFailedIsUnlisted();
    FailureIsIrreceivable(plan, step, request, keys, id, size, "BUILD_FAILED");
    ExternalTheorems.Planned(v);
    ExternalTheorems.ClaimRequestsCommitUnless(v, job, action, 0);
    RefusedStays(v, job, action);
  }

  lemma CreatedIsOpen(plan: Plan, step: PlanStep, request: Activation, keys: Keyring)
    requires step.id in Create(plan).steps
    ensures var w := OpenClaim(Create(plan), step, request, 0, keys);
      w.receipt.None? && Create(plan).plan == plan && |w.claims| == 1 && w.claims[0].status.Active?
  {
  }

  lemma RefusedStays(w: World, job: string, action: Action)
    requires ParentsPlanned(w) && ClaimAction(w, job, action, 0).Err?
    ensures Happen(w, ClaimRequest(job, action), 0) == w
  {
    hide ClaimAction;
  }

  // ----- a name too long to end under -----

  /** A parent whose name has more than 120 characters is created, and cannot be cancelled. */
  lemma LongNameCannotBeCancelled(job: string, plan: Plan, reason: string) returns (events: seq<Timed>)
    requires ParentPlan(plan) && |job| > 120
    ensures var w := ExternalTheorems.History(events);
      && job in w.parents && IsActive(w.parents[job]) && ParentsPlanned(w)
      && ClaimAction(w, job, DoCancel(reason), 0).Err? && Happen(w, ClaimRequest(job, DoCancel(reason)), 0) == w
  {
    hide ExternalTheorems.History, Inv, Happen, ParentPlan, Irreceivable, ClaimAction, ParentsPlanned, CompletionReady,
         Outcomes;
    events := [Timed(CreateParent(job, plan), 0)];
    ExternalTheorems.EmptyHistory();
    ExternalTheorems.HistorySnoc([], events[0]);
    assert [] + [events[0]] == events;
    ParentCreated(EMPTY, job, plan);
    var w := ExternalTheorems.History(events);
    ExternalTheorems.Planned(w);
    ExternalTheorems.ClaimRequestsCommitUnless(w, job, DoCancel(reason), 0);
    RefusedStays(w, job, DoCancel(reason));
  }

  // ----- more steps at once than the plan allows -----

  /** A plan of one external operation and one builder, both startable at once, of which only one at a time may run. */
  ghost predicate OneAtATime(plan: Plan, operation: PlanStep, step: PlanStep) {
    && ParentPlan(plan) && plan.steps == [operation, step] && operation.id != step.id
    && operation.kind.Dispatch? && operation.external.Some? && operation.dependsOn == [] && operation.maxAttempts >= 1
    && step.kind.Builder? && step.dependsOn == [] && step.maxAttempts >= 1
    && plan.budgets.concurrentSteps == 1 && plan.budgets.providerAttempts >= 1
    && plan.budgets.externalOperations >= 1 && plan.budgets.dispatchAttempts >= 1
  }

  const CONTROLLER := Principal("controller", "instance")

  function BoundSubject(b: ExternalBinding): Subject {
    Subject(b.operation, "policy", Profile(b.profile, "account", "policy", false))
  }

  function BoundApproval(b: ExternalBinding): Approval {
    Approval(b.subject, b.operation, b.issuer, CONTROLLER.name, "policy", 0, 0, 1)
  }

  function BoundApplication(b: ExternalBinding, job: string, plan: Plan, step: StepId): Application {
    Application(b.namespace, b.subject, b.operation, b.approval, b.issuer, job, step, PlanDigest(plan))
  }

  /** The registry once subject, issuer and approval of a binding are in it. */
  function Registered(b: ExternalBinding): World {
    EMPTY.(subjects := EMPTY.subjects[Key(b.namespace, b.subject) := BoundSubject(b)],
           issuers := EMPTY.issuers[Key(b.namespace, b.issuer) := Issuer(0, Some(Freshness(0, 1)))],
           approvals := EMPTY.approvals[Key(b.namespace, b.approval) := BoundApproval(b)])
  }

  function Registrations(b: ExternalBinding): seq<Timed> {
    [Timed(SubjectRegistered(Key(b.namespace, b.subject), BoundSubject(b)), 0),
     Timed(FreshnessAsserted(Key(b.namespace, b.issuer), 0, Freshness(0, 1)), 0),
     Timed(ApprovalRegistered(Key(b.namespace, b.approval), BoundApproval(b)), 0)]
  }

  lemma RegistrationsServed(b: ExternalBinding)
    ensures ExternalTheorems.History(Registrations(b)) == Registered(b)
  {
    hide ExternalTheorems.History, Inv;
    var events := Registrations(b);
    ExternalTheorems.EmptyHistory();
    ExternalTheorems.HistorySnoc([], events[0]);
    ExternalTheorems.HistorySnoc(events[..1], events[1]);
    ExternalTheorems.HistorySnoc(events[..2], events[2]);
    assert [] + [events[0]] == events[..1] && events[..1] + [events[1]] == events[..2]
           && events[..2] + [events[2]] == events;
  }

  lemma BothPlanned(plan: Plan, operation: PlanStep, step: PlanStep)
    requires OneAtATime(plan, operation, step)
    ensures FindStep(plan.steps, operation.id) == Some(operation) && FindStep(plan.steps, step.id) == Some(step)
    ensures Create(plan).steps == map[operation.id := StepRow(StepPending, 0), step.id := StepRow(StepPending, 0)]
  {
    hide ParentPlan;
    assert plan.steps[1..] == [step];
    assert plan.steps[0] in plan.steps && plan.steps[1] in plan.steps;
  }

  lemma NothingAmiss(w: World, job: string, plan: Plan, operation: PlanStep, step: PlanStep)
    requires OneAtATime(plan, operation, step)
    requires w == Registered(operation.external.value).(parents := EMPTY.parents[job := Create(plan)])
    ensures ActivationFault(w, BoundApplication(operation.external.value, job, plan, operation.id), CONTROLLER, true,
                            0).None?
  {
    hide DistinctSteps, FindStep;
    BothPlanned(plan, operation, step);
  }

  lemma OperationActivated(w: World, job: string, plan: Plan, operation: PlanStep, step: PlanStep)
    requires ParentsPlanned(w) && OneAtATime(plan, operation, step) && operation.id in Create(plan).steps
    requires w == Registered(operation.external.value).(parents := EMPTY.parents[job := Create(plan)])
    ensures var v :=
            Happen(w, Activated(BoundApplication(operation.external.value, job, plan, operation.id), "key", CONTROLLER,
                                true), 0);
      v.parents == EMPTY.parents[job := OpenExternal(Create(plan), operation.id)]
  {
    hide ActivationFault, ParentPlan, Create, OpenExternal, Snapshot, ParentsPlanned;
    var app := BoundApplication(operation.external.value, job, plan, operation.id);
    NothingAmiss(w, job, plan, operation, step);
    ActivatedIsNew(Identity(0, app, CONTROLLER, w.subjects[Key(app.namespace, app.subject)].profile, 0), 0);
  }

  lemma BuilderStartable(plan: Plan, operation: PlanStep, step: PlanStep)
    requires OneAtATime(plan, operation, step) && operation.id in Create(plan).steps
    ensures var p := OpenExternal(Create(plan), operation.id);
      && IsActive(p) && p.plan == plan && FindStep(plan.steps, step.id) == Some(step) && Ready(p, step)
      && p.claims == [] && p.steps[step.id].attempts == 0 && p.counters.activeDispatches == 1
         && p.counters.activeSteps == 1
      && p.counters.providerAttempts == 0
  {
    hide ParentPlan, FindStep;
    BothPlanned(plan, operation, step);
    var p := OpenExternal(Create(plan), operation.id);
    assert (set d | d in step.dependsOn && d in p.steps) == {};
  }

  lemma BuilderOverruns(p: Workflow, step: PlanStep, request: Activation, keys: Keyring, ready: bool)
    requires Opens(request, step)
    requires IsActive(p) && FindStep(p.plan.steps, step.id) == Some(step) && Ready(p, step) && step.kind.Builder?
             && step.maxAttempts >= 1
    requires p.claims == [] && p.steps[step.id].attempts == 0 && p.counters.activeDispatches == 1
             && p.counters.activeSteps == 1
    requires p.plan.budgets.concurrentSteps == 1 && p.plan.budgets.providerAttempts > p.counters.providerAttempts
             && p.receipt.None?
    ensures var v := Step(p, DoActivate(request, 0, keys), ready);
      v.receipt.None? && v.counters.activeSteps == 2 && v.plan == p.plan && IsActive(v)
  {
    hide FindStep, DependenciesSucceeded;
  }

  /** Registrations, a creation, an operation's activation and a builder's: two steps run where the plan allows one. */
  lemma StepsOverrun(job: string, plan: Plan, operation: PlanStep, step: PlanStep, request: Activation, keys: Keyring)
    returns (events: seq<Timed>)
    requires Opens(request, step) && OneAtATime(plan, operation, step)
    ensures var w := ExternalTheorems.History(events);
      && job in w.parents && IsActive(w.parents[job]) && w.parents[job].plan == plan
      && w.parents[job].counters.activeSteps == 2 > plan.budgets.concurrentSteps
  {
    hide ExternalTheorems.History, Inv, Happen, ParentPlan, Registered, Registrations, Create, OpenExternal, Step,
         FindStep, Ready,
         CompletionReady, BoundApplication, ParentsPlanned;
    var b := operation.external.value;
    var registered := Registrations(b);
    var create := Timed(CreateParent(job, plan), 0);
    var activate := Timed(Activated(BoundApplication(b, job, plan, operation.id), "key", CONTROLLER, true), 0);
    var open := Timed(ClaimRequest(job, DoActivate(request, 0, keys)), 0);
    RegistrationsServed(b);
    ExternalTheorems.HistorySnoc(registered, create);
    ExternalTheorems.HistorySnoc(registered + [create], activate);
    ExternalTheorems.HistorySnoc(registered + [create] + [activate], open);
    events := registered + [create] + [activate] + [open];
    NoParents(b);
    ParentCreated(Registered(b), job, plan);
    BothPlanned(plan, operation, step);
    OperationActivated(ExternalTheorems.History(registered + [create]), job, plan, operation, step);
    BuilderStartable(plan, operation, step);
    var w := ExternalTheorems.History(registered + [create] + [activate]);
    OpenIsUnended(plan, operation.id);
    BuilderOverruns(w.parents[job], step, request, keys, CompletionReady(w.operations, job, plan));
    ClaimServed(w, job, open.event.action);
  }

  lemma NoParents(b: ExternalBinding)
    ensures Registered(b).parents == EMPTY.parents == map[]
  {
  }

  lemma OpenIsUnended(plan: Plan, step: StepId)
    requires step in Create(plan).steps
    ensures OpenExternal(Create(plan), step).receipt.None?
  {
  }
}
