/** Running a plan of tool steps, resuming one from a snapshot, and why the two mean the same. */
module PlanRun {
  import opened Wrappers
  import opened DependencyGraph
  import opened PlanModel
  import opened PlanOrder
  import opened PlanValidation
  import opened StepReferences
  import opened PlanResume

  /** A deterministic executor: outputs for a step, tool and resolved inputs, or a raised exception. */
  type Executor = (StepId, string, Value) -> Option<seq<Field>>

  datatype Call = Call(step: StepId, tool: string, inputs: Value)

  /** Outputs by step, the executor calls made in order, and the step at which the run stopped early. */
  datatype Outcome = Outcome(context: Context, calls: seq<Call>, failedAt: Option<StepId>)

  /** The dispatch loop from a given context on. */
  function RunFrom(steps: seq<Step>, context: Context, exec: Executor): Outcome {
    if steps == [] then Outcome(context, [], None)
    else
      match Resolve(steps[0].inputs, context)
      case Err(_) => Outcome(context, [], Some(steps[0].id))
      case Ok(inputs) =>
        var call := Call(steps[0].id, steps[0].tool, inputs);
        match exec(steps[0].id, steps[0].tool, inputs)
        case None => Outcome(context, [call], Some(steps[0].id))
        case Some(outputs) =>
          var rest := RunFrom(steps[1..], context[steps[0].id := outputs], exec);
          rest.(calls := [call] + rest.calls)
  }

  /** A run starts with validation, which refuses a plan without steps and, by `PlanValidation.DependencyErrors`,
      every plan that does not order. */
  function Run(plan: seq<Step>, exec: Executor): Result<Outcome, PlanError> {
    if plan == [] || OrderSteps(plan).Err? then Err(InvalidPlan)
    else Ok(RunFrom(OrderSteps(plan).value, map[], exec))
  }

  /** The dispatch loop. */
  method RunOrdered(ordered: seq<Step>, exec: Executor) returns (r: Outcome)
    ensures r == RunFrom(ordered, map[], exec)
  {
    var context: Context := map[];
    var calls: seq<Call> := [];
    for i := 0 to |ordered|
      invariant var rest := RunFrom(ordered[i..], context, exec);
        RunFrom(ordered, map[], exec) == rest.(calls := calls + rest.calls)
    {
      var step := ordered[i];
      assert ordered[i..][0] == step && ordered[i..][1..] == ordered[i + 1..];
      var inputs := Resolve(step.inputs, context);
      if inputs.Err? {
        return Outcome(context, calls, Some(step.id));
      }
      var outputs := exec(step.id, step.tool, inputs.value);
      calls := calls + [Call(step.id, step.tool, inputs.value)];
      if outputs.None? {
        return Outcome(context, calls, Some(step.id));
      }
      context := context[step.id := outputs.value];
    }
    r := Outcome(context, calls, None);
  }

  /** `Dispatcher.run`, the path taken by tool steps. */
  method RunPlan(plan: seq<Step>, exec: Executor) returns (r: Result<Outcome, PlanError>)
    ensures r == Run(plan, exec)
  {
    var errors := DependencyErrors(plan);
    if plan == [] || errors != [] {
      return Err(InvalidPlan);
    }
    // What validates also orders.
    var order := OrderPlanSteps(plan);
    var outcome := RunOrdered(order.value, exec);
    r := Ok(outcome);
  }

  // ----- resume_snapshot -----

  datatype StepReceipt = StepReceipt(step: StepId, succeeded: bool, ambiguous: bool, outputs: seq<Field>)

  datatype Snapshot = Snapshot(
    awaitingApproval: bool, checkpointPending: bool, checkpoint: Checkpoint, receipts: seq<StepReceipt>)

  datatype ResumeError =
    | IncoherentSnapshot
    | NotResumable
    | AmbiguousOutcome
    | ApprovalFailed(approval: ApprovalError)
    | ReferenceFailed(reference: ReferenceError)
    | PlanRefused(refusal: PlanError)

  function Completed(receipts: seq<StepReceipt>): set<StepId> {
    set r | r in receipts && r.succeeded :: r.step
  }

  /** The coherence `validate_run_snapshot` checks between receipts and checkpoint. */
  predicate Coherent(snapshot: Snapshot) {
    && (forall i, j | 0 <= i < j < |snapshot.receipts| :: snapshot.receipts[i].step != snapshot.receipts[j].step)
    && Completed(snapshot.receipts) == Elements(snapshot.checkpoint.completed)
    && Elements(snapshot.checkpoint.completed) !! Elements(snapshot.checkpoint.pending)
    && forall r | r in snapshot.receipts ::
         r.step in snapshot.checkpoint.completed || r.step in snapshot.checkpoint.pending
  }

  /** Outputs of the successful receipts; a later receipt for the same step would win. */
  function ReceiptContext(receipts: seq<StepReceipt>): (context: Context)
    ensures context.Keys == Completed(receipts)
  {
    if receipts == [] then map[]
    else
      var init, last := receipts[..|receipts| - 1], receipts[|receipts| - 1];
      assert receipts == init + [last];
      if last.succeeded then ReceiptContext(init)[last.step := last.outputs] else ReceiptContext(init)
  }

  function MaterializeSteps(steps: seq<Step>, completed: Context): Result<seq<Step>, ReferenceError> {
    if steps == [] then Ok([])
    else
      match Materialize(steps[0].inputs, completed)
      case Err(e) => Err(e)
      case Ok(inputs) =>
        match MaterializeSteps(steps[1..], completed)
        case Err(e) => Err(e)
        case Ok(rest) => Ok([steps[0].(inputs := inputs)] + rest)
  }

  /** Materialize the pending steps and run them from an empty context. */
  function ResumeSteps(resumed: seq<Step>, completed: Context, exec: Executor): Result<Outcome, ResumeError> {
    match MaterializeSteps(resumed, completed)
    case Err(e) => Err(ReferenceFailed(e))
    case Ok(steps) =>
      match Run(steps, exec)
      case Err(e) => Err(PlanRefused(e))
      case Ok(outcome) => Ok(outcome)
  }

  /** The loop that fills the context from the receipts. */
  method LoadContext(receipts: seq<StepReceipt>) returns (context: Context)
    ensures context == ReceiptContext(receipts)
  {
    context := map[];
    for i := 0 to |receipts|
      invariant context == ReceiptContext(receipts[..i])
    {
      assert receipts[..i + 1][..i] == receipts[..i];
      if receipts[i].succeeded {
        context := context[receipts[i].step := receipts[i].outputs];
      }
    }
    assert receipts[..|receipts|] == receipts;
  }

  /** The loop that overwrites the inputs of the pending steps. */
  method OverwriteInputs(resumed: seq<Step>, context: Context) returns (r: Result<seq<Step>, ReferenceError>)
    ensures r == MaterializeSteps(resumed, context)
  {
    var steps: seq<Step> := [];
    ghost var all := MaterializeSteps(resumed, context);
    assert resumed[0..] == resumed && (all.Ok? ==> [] + all.value == all.value);
    for i := 0 to |resumed|
      invariant match MaterializeSteps(resumed[i..], context)
                case Err(e) => MaterializeSteps(resumed, context) == Err(e)
                case Ok(rest) => MaterializeSteps(resumed, context) == Ok(steps + rest)
    {
      assert resumed[i..][0] == resumed[i] && resumed[i..][1..] == resumed[i + 1..];
      var inputs := Materialize(resumed[i].inputs, context);
      if inputs.Err? {
        return Err(inputs.error);
      }
      ghost var rest := MaterializeSteps(resumed[i + 1..], context);
      var step := resumed[i].(inputs := inputs.value);
      assert rest.Ok? ==> steps + ([step] + rest.value) == (steps + [step]) + rest.value;
      steps := steps + [step];
    }
    assert steps + [] == steps;
    r := Ok(steps);
  }

  /** What a resume request leads to: every guard of the source, then the pending steps. */
  function Resumed(plan: seq<Step>, snapshot: Snapshot, decision: Decision,
                   exec: Executor): Result<Outcome, ResumeError> {
    if !Coherent(snapshot) then Err(IncoherentSnapshot)
    else if !snapshot.awaitingApproval || !snapshot.checkpointPending then Err(NotResumable)
    else if exists s :: s in snapshot.receipts && s.ambiguous then Err(AmbiguousOutcome)
    else
      match BuildResumedPlan(plan, snapshot.checkpoint, decision)
      case Err(e) => Err(ApprovalFailed(e))
      case Ok(pending) => ResumeSteps(pending, ReceiptContext(snapshot.receipts), exec)
  }

  /** `resume_snapshot`, given the stored output values. */
  method ResumeSnapshot(plan: seq<Step>, snapshot: Snapshot, decision: Decision, exec: Executor)
    returns (r: Result<Outcome, ResumeError>)
    ensures r == Resumed(plan, snapshot, decision, exec)
  {
    if !Coherent(snapshot) {
      return Err(IncoherentSnapshot);
    }
    if !snapshot.awaitingApproval || !snapshot.checkpointPending {
      return Err(NotResumable);
    }
    if exists s :: s in snapshot.receipts && s.ambiguous {
      return Err(AmbiguousOutcome);
    }
    var built := BuildResumedPlan(plan, snapshot.checkpoint, decision);
    if built.Err? {
      return Err(ApprovalFailed(built.error));
    }
    var context := LoadContext(snapshot.receipts);
    var steps := OverwriteInputs(built.value, context);
    if steps.Err? {
      return Err(ReferenceFailed(steps.error));
    }
    var outcome := RunPlan(steps.value, exec);
    r := match outcome
      case Err(e) => Err(PlanRefused(e))
      case Ok(o) => Ok(o);
  }

  // ----- the run of the pending steps -----

  /** A pending step whose references to completed steps have been replaced. */
  ghost predicate Prepared(original: Step, prepared: Step, completed: Context) {
    && prepared.id == original.id && prepared.tool == original.tool
    && Materialize(original.inputs, completed) == Ok(prepared.inputs)
  }

  ghost predicate AllPrepared(originals: seq<Step>, prepared: seq<Step>, completed: Context) {
    && |originals| == |prepared|
    && forall i | 0 <= i < |originals| :: Prepared(originals[i], prepared[i], completed)
  }

  /** Running the prepared steps alone does what running the originals in the full context does. */
  lemma {:induction false} PreparedRunAgrees(originals: seq<Step>, prepared: seq<Step>, completed: Context,
                                             pending: Context, exec: Executor)
    requires AllPrepared(originals, prepared, completed) && StoredSafely(completed)
    requires completed.Keys !! pending.Keys && forall s | s in originals :: s.id !in completed
    ensures var alone := RunFrom(prepared, pending, exec);
      && completed.Keys !! alone.context.Keys
      && RunFrom(originals, completed + pending, exec) == alone.(context := completed + alone.context)
    decreases |originals|
  {
    if originals != [] {
      var s, p := originals[0], prepared[0];
      assert Prepared(s, p, completed);
      MaterializeAgrees(s.inputs, completed, pending);
      var inputs := Resolve(p.inputs, pending);
      if inputs.Ok? && exec(s.id, s.tool, inputs.value).Some? {
        var outputs := exec(s.id, s.tool, inputs.value).value;
        assert (completed + pending)[s.id := outputs] == completed + pending[s.id := outputs];
        forall i | 0 <= i < |originals[1..]| ensures Prepared(originals[1..][i], prepared[1..][i], completed) {
          assert Prepared(originals[i + 1], prepared[i + 1], completed);
        }
        PreparedRunAgrees(originals[1..], prepared[1..], completed, pending[s.id := outputs], exec);
      }
    }
  }

  /** If a reference to a completed output is broken, the original run stops too. */
  lemma {:induction false} CompletedRunPrepares(originals: seq<Step>, completed: Context, pending: Context,
                                                exec: Executor)
    requires StoredSafely(completed) && completed.Keys !! pending.Keys
    requires forall s | s in originals :: s.id !in completed
    requires RunFrom(originals, completed + pending, exec).failedAt.None?
    ensures forall s | s in originals :: Materialize(s.inputs, completed).Ok?
    decreases |originals|
  {
    if originals != [] {
      var s := originals[0];
      MaterializeAgrees(s.inputs, completed, pending);
      var inputs := Resolve(s.inputs, completed + pending);
      var outputs := exec(s.id, s.tool, inputs.value).value;
      assert (completed + pending)[s.id := outputs] == completed + pending[s.id := outputs];
      CompletedRunPrepares(originals[1..], completed, pending[s.id := outputs], exec);
    }
  }

  /** A run that does not fail adds exactly its steps to the context. */
  lemma {:induction false} RunAddsSteps(a: seq<Step>, context: Context, exec: Executor)
    requires RunFrom(a, context, exec).failedAt.None?
    ensures RunFrom(a, context, exec).context.Keys == context.Keys + IdSet(a)
    decreases |a|
  {
    hide Resolve;
    if a != [] {
      var outputs := exec(a[0].id, a[0].tool, Resolve(a[0].inputs, context).value).value;
      RunAddsSteps(a[1..], context[a[0].id := outputs], exec);
      assert IdSet(a) == {a[0].id} + IdSet(a[1..]);
    }
  }

  lemma {:induction false} RunSplits(a: seq<Step>, b: seq<Step>, context: Context, exec: Executor)
    requires RunFrom(a, context, exec).failedAt.None?
    ensures var first := RunFrom(a, context, exec);
      var second := RunFrom(b, first.context, exec);
      RunFrom(a + b, context, exec) == second.(calls := first.calls + second.calls)
    decreases |a|
  {
    hide Resolve, IdSet;
    if a == [] {
      assert a + b == b;
    } else {
      assert (a + b)[1..] == a[1..] + b;
      var outputs := exec(a[0].id, a[0].tool, Resolve(a[0].inputs, context).value).value;
      RunSplits(a[1..], b, context[a[0].id := outputs], exec);
    }
  }

  // ----- materializing does not disturb the order -----

  lemma {:induction false} MaterializedShape(steps: seq<Step>, completed: Context)
    ensures MaterializeSteps(steps, completed).Ok? <==> forall s | s in steps :: Materialize(s.inputs, completed).Ok?
    ensures MaterializeSteps(steps, completed).Ok? ==>
              var done := MaterializeSteps(steps, completed).value;
              && |done| == |steps|
              && forall i | 0 <= i < |steps| ::
                   Materialize(steps[i].inputs, completed).Ok?
                   && done[i] == steps[i].(inputs := Materialize(steps[i].inputs, completed).value)
  {
    if steps != [] {
      MaterializedShape(steps[1..], completed);
      assert forall s :: s in steps <==> s == steps[0] || s in steps[1..];
    }
  }

  lemma MaterializedIds(steps: seq<Step>, completed: Context)
    requires MaterializeSteps(steps, completed).Ok?
    ensures Ids(MaterializeSteps(steps, completed).value) == Ids(steps)
  {
    MaterializedShape(steps, completed);
  }

  lemma MaterializedStep(steps: seq<Step>, completed: Context, id: StepId)
    requires UniqueIds(steps) && MaterializeSteps(steps, completed).Ok? && id in ById(steps)
    ensures var done := ById(MaterializeSteps(steps, completed).value);
      && id in done && Prepared(ById(steps)[id], done[id], completed)
      && done[id].dependsOn == ById(steps)[id].dependsOn
  {
    var done := MaterializeSteps(steps, completed).value;
    MaterializedIds(steps, completed);
    IdSetIsElements(steps);
    var k :| 0 <= k < |steps| && Ids(steps)[k] == id;
    ByIdFinds(steps, k);
    ByIdFinds(done, k);
    MaterializedShape(steps, completed);
  }

  lemma MaterializedDependencies(steps: seq<Step>, completed: Context)
    requires UniqueIds(steps) && MaterializeSteps(steps, completed).Ok?
    ensures Dependencies(MaterializeSteps(steps, completed).value) == Dependencies(steps)
  {
    var done := MaterializeSteps(steps, completed).value;
    MaterializedIds(steps, completed);
    assert IdSet(done) == IdSet(steps) by {
      IdSetIsElements(steps);
      IdSetIsElements(done);
    }
    forall id | id in IdSet(steps) ensures Dependencies(done)[id] == Dependencies(steps)[id] {
      MaterializedStep(steps, completed, id);
    }
    SameEdges(Dependencies(steps), Dependencies(done));
  }

  /** Two plans that differ only in inputs order alike, step by step. */
  lemma OrderIgnoresInputs(steps: seq<Step>, completed: Context)
    requires MaterializeSteps(steps, completed).Ok? && OrderSteps(steps).Ok?
    ensures OrderSteps(MaterializeSteps(steps, completed).value).Ok?
    ensures AllPrepared(OrderSteps(steps).value, OrderSteps(MaterializeSteps(steps, completed).value).value, completed)
  {
    var done := MaterializeSteps(steps, completed).value;
    var ids := OrderStepsIds(steps);
    LookupDependenciesFirst(steps, ids, OrderSteps(steps).value);
    MaterializedIds(steps, completed);
    MaterializedDependencies(steps, completed);
    KeptIsKnown(done, Dependencies(steps));
    OrderDeterminesSteps(done, ids);
    SameOrderPrepares(steps, done, ids, OrderSteps(steps).value, OrderSteps(done).value, completed);
  }

  lemma SameOrderPrepares(steps: seq<Step>, done: seq<Step>, ids: seq<StepId>, a: seq<Step>, b: seq<Step>,
                          completed: Context)
    requires OrderSteps(steps) == Ok(a) && OrderSteps(done) == Ok(b) && Ids(a) == Ids(b) == ids
    requires MaterializeSteps(steps, completed) == Ok(done)
    ensures AllPrepared(a, b, completed)
  {
    OrderStepsSucceedsIffOrderable(steps);
    OrderedStepsAreSteps(steps);
    OrderedStepsAreSteps(done);
    forall i | 0 <= i < |ids| ensures Prepared(a[i], b[i], completed) {
      assert a[i] in a && b[i] in b && a[i].id == b[i].id == ids[i];
      MaterializedStep(steps, completed, ids[i]);
    }
  }

  // ----- resuming after a prefix of the order -----

  lemma SuffixMembership(ids: seq<StepId>, k: nat, i: nat)
    requires NoDuplicates(ids) && k <= |ids| && i < |ids|
    ensures ids[i] in ids[k..] <==> i >= k
  {
    assert i >= k ==> ids[k..][i - k] == ids[i];
  }

  /** The steps still pending when the first `k` of the order are done. */
  function PendingAfter(plan: seq<Step>, k: nat): set<StepId>
    requires OrderSteps(plan).Ok? && k <= |OrderSteps(plan).value|
  {
    Elements(Ordered(plan)[k..])
  }

  /** Completed prefixes of the order are closed under dependencies. */
  lemma PrefixIsClosed(plan: seq<Step>, k: nat)
    requires OrderSteps(plan).Ok? && k <= |OrderSteps(plan).value|
    ensures DependencyClosed(Dependencies(plan), PendingAfter(plan, k))
  {
    hide OrderSteps, ById, IdSet, UniqueIds, KnownDependencies, Order;
    var ids := OrderStepsIds(plan);
    LookupDependenciesFirst(plan, ids, OrderSteps(plan).value);
    forall u, v | u in Dependencies(plan) && u !in ids[k..] && v in Dependencies(plan)[u] ensures v !in ids[k..] {
      var i :| 0 <= i < |ids| && ids[i] == u;
      SuffixMembership(ids, k, i);
      var j :| 0 <= j < i && ids[j] == v;
      SuffixMembership(ids, k, j);
    }
  }

  lemma {:induction false} FilterAll(ids: seq<StepId>, keep: set<StepId>)
    ensures (forall id | id in ids :: id in keep) ==> Filter(ids, keep) == ids
    ensures (forall id | id in ids :: id !in keep) ==> Filter(ids, keep) == []
  {
    if ids != [] {
      FilterAll(ids[1..], keep);
    }
  }

  /** The pending ids of a prefix checkpoint are the rest of the order. */
  lemma SuffixIds(ids: seq<StepId>, k: nat)
    requires k <= |ids| && NoDuplicates(ids)
    ensures Filter(ids, Elements(ids[k..])) == ids[k..]
  {
    var keep := Elements(ids[k..]);
    assert ids == ids[..k] + ids[k..];
    FilterAppend(ids[..k], ids[k..], keep);
    forall i | 0 <= i < k ensures ids[i] !in keep {
      SuffixMembership(ids, k, i);
    }
    FilterAll(ids[..k], keep);
    FilterAll(ids[k..], keep);
  }

  /** The ordered resumed steps do the work of the original steps at the same ids. */
  lemma ResumedWork(plan: seq<Step>, pending: set<StepId>, rest: seq<Step>, completed: Context)
    requires OrderSteps(plan).Ok? && OrderSteps(Pending(plan, pending)).Ok?
    requires Ids(rest) == Ordered(Pending(plan, pending))
    requires forall s | s in rest :: s in OrderSteps(plan).value
    requires MaterializeSteps(Pending(plan, pending), completed).Ok?
    ensures var done := MaterializeSteps(Pending(plan, pending), completed).value;
      OrderSteps(done).Ok? && AllPrepared(rest, OrderSteps(done).value, completed)
  {
    var resumed := Pending(plan, pending);
    var done := MaterializeSteps(resumed, completed).value;
    OrderIgnoresInputs(resumed, completed);
    OrderStepsSucceedsIffOrderable(plan);
    ResumedStepsAreTrimmed(plan, pending);
    OrderedStepsAreSteps(plan);
    var a, b := OrderSteps(resumed).value, OrderSteps(done).value;
    forall i | 0 <= i < |rest| ensures Prepared(rest[i], b[i], completed) {
      assert Ids(rest)[i] == Ids(a)[i] && rest[i] in rest && a[i] in a;
      assert Prepared(a[i], b[i], completed);
    }
  }

  /** Materializing the pending steps succeeds exactly when it does on the originals. */
  lemma PendingMaterializes(plan: seq<Step>, pending: set<StepId>, rest: seq<Step>, completed: Context)
    requires UniqueIds(plan) && forall s | s in plan && s.id in pending :: s in rest
    requires forall s | s in rest :: Materialize(s.inputs, completed).Ok?
    ensures MaterializeSteps(Pending(plan, pending), completed).Ok?
  {
    PendingComesFrom(plan, pending);
    MaterializedShape(Pending(plan, pending), completed);
  }

  lemma {:induction false} PendingComesFrom(plan: seq<Step>, pending: set<StepId>)
    ensures forall p | p in Pending(plan, pending) :: exists s :: s in plan && s.id in pending && p == Trim(s, pending)
  {
    if plan != [] {
      PendingComesFrom(plan[1..], pending);
    }
  }

  /** `rest` is what remains of the plan's order after its first `k` steps; `pending` are its ids. */
  ghost predicate Remaining(plan: seq<Step>, ordered: seq<Step>, k: nat, rest: seq<Step>, pending: set<StepId>) {
    OrderSteps(plan) == Ok(ordered) && k <= |ordered| && rest == ordered[k..] && pending == Elements(Ids(ordered)[k..])
  }

  lemma OrderedDistinct(plan: seq<Step>, ordered: seq<Step>)
    requires OrderSteps(plan) == Ok(ordered)
    ensures UniqueIds(plan) && NoDuplicates(Ids(ordered))
  {
    var ids := OrderStepsIds(plan);
    LookupDependenciesFirst(plan, ids, ordered);
  }

  lemma IdsOfSuffix(steps: seq<Step>, k: nat)
    requires k <= |steps|
    ensures Ids(steps[k..]) == Ids(steps)[k..]
  {
  }

  lemma RemainingIds(plan: seq<Step>, ordered: seq<Step>, k: nat, rest: seq<Step>, pending: set<StepId>)
    requires Remaining(plan, ordered, k, rest, pending)
    ensures UniqueIds(plan) && NoDuplicates(Ids(ordered)) && Ids(rest) == Ids(ordered)[k..]
  {
    OrderedDistinct(plan, ordered);
    IdsOfSuffix(ordered, k);
  }

  lemma RemainingStep(plan: seq<Step>, ordered: seq<Step>, k: nat, rest: seq<Step>, pending: set<StepId>, s: Step)
    requires Remaining(plan, ordered, k, rest, pending) && s in plan && s.id in pending
    ensures s in rest
  {
    hide OrderSteps, ById, KnownDependencies, IdSet;
    RemainingIds(plan, ordered, k, rest, pending);
    OrderedStepsAreSteps(plan);
    var j :| 0 <= j < |rest| && Ids(rest)[j] == s.id;
    assert rest[j] == ordered[k + j] && rest[j] in ordered;
    var m :| 0 <= m < |plan| && plan[m] == s;
    ByIdFinds(plan, m);
  }

  lemma RemainingApart(ordered: seq<Step>, k: nat, s: Step)
    requires NoDuplicates(Ids(ordered)) && k <= |ordered| && s in ordered[k..]
    ensures s.id !in IdSet(ordered[..k])
  {
    var j :| 0 <= j < |ordered| - k && ordered[k..][j] == s;
    forall t | t in ordered[..k] ensures t.id != s.id {
      var i :| 0 <= i < k && ordered[..k][i] == t;
      assert Ids(ordered)[i] != Ids(ordered)[k + j];
    }
  }

  /** The resumed plan orders as the remaining steps, however its inputs are materialized. */
  lemma RemainingOrder(plan: seq<Step>, ordered: seq<Step>, k: nat, rest: seq<Step>, pending: set<StepId>)
    requires Remaining(plan, ordered, k, rest, pending)
    ensures OrderSteps(Pending(plan, pending)).Ok? && Ordered(Pending(plan, pending)) == Ids(rest)
  {
    PrefixIsClosed(plan, k);
    ResumedOrderIsFiltered(plan, pending);
    RemainingIds(plan, ordered, k, rest, pending);
    SuffixIds(Ids(ordered), k);
  }

  /** What resuming with the outputs of `first` gives, against the uninterrupted run. */
  ghost predicate ResumeMatches(full: Outcome, first: Outcome, resumed: Result<Outcome, ResumeError>) {
    match resumed
    case Ok(rest) => full == Outcome(first.context + rest.context, first.calls + rest.calls, rest.failedAt)
    case Err(e) => e.ReferenceFailed? && full.failedAt.Some?
  }

  lemma NothingOrders()
    ensures OrderSteps([]) == Ok([])
  {
  }

  lemma ResumeRemaining(plan: seq<Step>, ordered: seq<Step>, k: nat, rest: seq<Step>, pending: set<StepId>,
                        completed: Context, exec: Executor)
    requires Remaining(plan, ordered, k, rest, pending) && rest != [] && StoredSafely(completed)
    requires forall s | s in rest :: s.id !in completed
    ensures ResumeMatches(RunFrom(rest, completed, exec), Outcome(completed, [], None),
                          ResumeSteps(Pending(plan, pending), completed, exec))
  {
    hide OrderSteps, Pending, MaterializeSteps, RunFrom, StoredSafely;
    assert completed + map[] == completed;
    RemainingOrder(plan, ordered, k, rest, pending);
    var resumed := Pending(plan, pending);
    if MaterializeSteps(resumed, completed).Ok? {
      var done := MaterializeSteps(resumed, completed).value;
      ResumedWork(plan, pending, rest, completed);
      NothingOrders();
      PreparedRunAgrees(rest, OrderSteps(done).value, completed, map[], exec);
    } else if RunFrom(rest, completed, exec).failedAt.None? {
      CompletedRunPrepares(rest, completed, map[], exec);
      RemainingIds(plan, ordered, k, rest, pending);
      forall s | s in plan && s.id in pending ensures s in rest {
        RemainingStep(plan, ordered, k, rest, pending, s);
      }
      PendingMaterializes(plan, pending, rest, completed);
    }
  }

  /**
   * Running the first `k` steps, stopping, and resuming from their stored outputs makes the calls of the
   * uninterrupted run, with the same inputs, stops where it stops and leaves the same outputs. Only a broken
   * reference to a completed output shows earlier: resuming refuses to start, where the uninterrupted run fails on
   * reaching the step. With no step left, resuming is refused: a plan without steps is invalid.
   */
  lemma ResumePreservesRun(plan: seq<Step>, ordered: seq<Step>, k: nat, pending: set<StepId>, first: Outcome,
                           exec: Executor)
    requires k <= |ordered| && Remaining(plan, ordered, k, ordered[k..], pending)
    requires first == RunFrom(ordered[..k], map[], exec) && first.failedAt.None? && StoredSafely(first.context)
    ensures var resumed := ResumeSteps(Pending(plan, pending), first.context, exec);
      if k < |ordered| then ResumeMatches(RunFrom(ordered, map[], exec), first, resumed)
      else first == RunFrom(ordered, map[], exec) && resumed == Err(PlanRefused(InvalidPlan))
  {
    hide OrderSteps, Pending, RunFrom, ResumeSteps, ResumeMatches, StoredSafely;
    var rest := ordered[k..];
    if rest == [] {
      NothingPending(plan, pending);
      NothingResumes(first.context, exec);
      assert ordered[..k] == ordered;
      return;
    }
    RunSplits(ordered[..k], rest, map[], exec);
    RunAddsSteps(ordered[..k], map[], exec);
    RemainingIds(plan, ordered, k, rest, pending);
    forall s | s in rest ensures s.id !in first.context {
      RemainingApart(ordered, k, s);
    }
    ResumeRemaining(plan, ordered, k, rest, pending, first.context, exec);
    var second, resumed := RunFrom(rest, first.context, exec), ResumeSteps(Pending(plan, pending), first.context, exec);
    assert ordered == ordered[..k] + rest;
    MatchesAfter(first, second, resumed);
  }

  lemma NothingPending(plan: seq<Step>, pending: set<StepId>)
    requires pending == {}
    ensures Pending(plan, pending) == []
  {
    hide UniqueIds;
    if Pending(plan, pending) != [] {
      assert Ids(Pending(plan, pending)) == Filter(Ids(plan), {});
      FilterNothing(Ids(plan));
    }
  }

  lemma {:induction false} FilterNothing(ids: seq<StepId>)
    ensures Filter(ids, {}) == []
  {
    if ids != [] {
      FilterNothing(ids[1..]);
    }
  }

  lemma NothingResumes(completed: Context, exec: Executor)
    ensures ResumeSteps([], completed, exec) == Err(PlanRefused(InvalidPlan))
  {
  }

  lemma MatchesAfter(first: Outcome, second: Outcome, resumed: Result<Outcome, ResumeError>)
    requires ResumeMatches(second, Outcome(first.context, [], None), resumed)
    ensures ResumeMatches(second.(calls := first.calls + second.calls), first, resumed)
  {
    assert resumed.Ok? ==> [] + resumed.value.calls == resumed.value.calls;
  }

  /** The same for a whole resume request on a snapshot taken after the first `k` steps of a plan that has some. */
  lemma ResumedSnapshotPreservesRun(plan: seq<Step>, ordered: seq<Step>, k: nat, first: Outcome, snapshot: Snapshot,
                                    decision: Decision, exec: Executor)
    requires OrderSteps(plan) == Ok(ordered) && plan != [] && k <= |ordered|
    requires first == RunFrom(ordered[..k], map[], exec) && first.failedAt.None? && StoredSafely(first.context)
    requires Coherent(snapshot) && snapshot.awaitingApproval && snapshot.checkpointPending
    requires ReceiptContext(snapshot.receipts) == first.context && forall r | r in snapshot.receipts :: !r.ambiguous
    requires var c := snapshot.checkpoint;
      && CreateCheckpoint(plan, c.id, c.subject, Elements(Ids(ordered)[..k]), Elements(Ids(ordered)[k..]), c.evidence)
         == Ok(c)
      && decision == Decision(true, c.id, c.subject, PlanDigest(plan), c.evidence)
    ensures Run(plan, exec).Ok?
    ensures var resumed := Resumed(plan, snapshot, decision, exec);
      if k < |ordered| then ResumeMatches(Run(plan, exec).value, first, resumed)
      else first == Run(plan, exec).value && resumed == Err(PlanRefused(InvalidPlan))
  {
    hide RunFrom, ResumeSteps, ResumeMatches, StoredSafely, OrderSteps;
    var pending := Elements(Ids(ordered)[k..]);
    assert PendingSet(snapshot.checkpoint) == pending by {
      IdSetIsElements(plan);
    }
    ResumePreservesRun(plan, ordered, k, pending, first, exec);
    assert Resumed(plan, snapshot, decision, exec) == ResumeSteps(Pending(plan, pending), first.context, exec);
  }
}
