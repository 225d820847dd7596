/** What a run of a plan did, read off its calls, and what a resume request is refused for, read off the request. */
module PlanTrace {
  import opened Wrappers
  import opened DependencyGraph
  import opened PlanModel
  import opened PlanOrder
  import opened StepReferences
  import opened PlanResume
  import opened PlanRun

  // ----- references -----

  lemma NamedReferenceParses(step: StepId, key: string)
    requires IsStepName(step) && key != "" && '\n' !in key
    ensures ParseReference("$" + step + "." + key) == Some(Reference(step, Some(key)))
  {
    var s := "$" + step + "." + key;
    assert s[|s| - 1] == key[|key| - 1] && s[1..] == step + "." + key;
    PrefixIsName(step, "." + key);
    assert step + "." + key == step + ("." + key);
    assert s[1..][..|step|] == step && s[1..][|step|..] == "." + key;
    assert ("." + key)[1..] == key;
  }

  lemma {:induction false} PrefixIsName(name: string, rest: string)
    requires (forall c | c in name :: IsNameChar(c)) && (rest == "" || !IsNameChar(rest[0]))
    ensures NamePrefix(name + rest) == |name|
  {
    if name == "" {
      assert name + rest == rest;
    } else {
      assert (name + rest)[0] == name[0] && (name + rest)[1..] == name[1..] + rest;
      PrefixIsName(name[1..], rest);
    }
  }

  /** `$step` stands for all outputs of a completed step, `$step.key` for the first of its outputs under that key; a
      step that has not completed, or has no such output, is an error. */
  lemma ReferencesMean(step: StepId, key: string, context: Context)
    requires IsStepName(step) && key != "" && '\n' !in key
    ensures Resolve(Text("$" + step), context) ==
            if step in context then Ok(Object(context[step])) else Err(NoCompletedOutputs(step))
    ensures var r := Resolve(Text("$" + step + "." + key), context);
      if step !in context then r == Err(NoCompletedOutputs(step))
      else if forall f | f in context[step] :: f.key != key then r == Err(MissingOutput(step, key, context[step]))
      else exists i :: 0 <= i < |context[step]| && context[step][i].key == key && r == Ok(context[step][i].value)
                       && forall j | 0 <= j < i :: context[step][j].key != key
  {
    StepNameParses(step);
    NamedReferenceParses(step, key);
    if step in context {
      FieldIsFirst(context[step], key);
    }
  }

  lemma {:induction false} FieldIsFirst(fields: seq<Field>, key: string)
    ensures FieldOf(fields, key).None? <==> forall f | f in fields :: f.key != key
    ensures FieldOf(fields, key).Some? ==>
            exists i :: 0 <= i < |fields| && fields[i].key == key && FieldOf(fields, key) == Some(fields[i].value)
                        && forall j | 0 <= j < i :: fields[j].key != key
  {
    if fields != [] && fields[0].key != key {
      FieldIsFirst(fields[1..], key);
      assert forall j | 0 < j < |fields| :: fields[1..][j - 1] == fields[j];
      if FieldOf(fields, key).Some? {
        var i :| 0 <= i < |fields[1..]| && fields[1..][i].key == key
                 && FieldOf(fields[1..], key) == Some(fields[1..][i].value)
                 && forall j | 0 <= j < i :: fields[1..][j].key != key;
        assert fields[i + 1].key == key;
      }
    }
  }

  // ----- the calls of a run -----

  /** What the executor answered to a call. */
  function Answer(exec: Executor, c: Call): Option<seq<Field>> {
    exec(c.step, c.tool, c.inputs)
  }

  /** The outputs known after some calls: the last answer each step gave. */
  function Learned(context: Context, calls: seq<Call>, exec: Executor): Context {
    if calls == [] then context
    else
      var last := calls[|calls| - 1];
      var before := Learned(context, calls[..|calls| - 1], exec);
      if Answer(exec, last).Some? then before[last.step := Answer(exec, last).value] else before
  }

  /** The n-th call is made for the n-th step, with its tool, on its inputs as the answers before it resolve them. */
  ghost predicate CallsStep(steps: seq<Step>, context: Context, exec: Executor, calls: seq<Call>, n: nat)
    requires n < |calls| && n < |steps|
  {
    && calls[n].step == steps[n].id && calls[n].tool == steps[n].tool
    && Resolve(steps[n].inputs, Learned(context, calls[..n], exec)) == Ok(calls[n].inputs)
  }

  /** Step by step until one fails: the calls made, the outputs they left, and where and why the run stopped. */
  ghost predicate StepByStep(steps: seq<Step>, context: Context, exec: Executor, o: Outcome) {
    var n := |o.calls|;
    && n <= |steps| && o.context == Learned(context, o.calls, exec)
    && (forall i | 0 <= i < n :: CallsStep(steps, context, exec, o.calls, i))
    && (forall i | 0 <= i < n - 1 :: Answer(exec, o.calls[i]).Some?)
    && match o.failedAt
       case None => n == |steps| && (n > 0 ==> Answer(exec, o.calls[n - 1]).Some?)
       case Some(id) =>
         if n > 0 && Answer(exec, o.calls[n - 1]).None? then id == steps[n - 1].id
         else n < |steps| && id == steps[n].id && Resolve(steps[n].inputs, o.context).Err?
  }

  lemma {:induction false} LearnedThen(context: Context, c: Call, calls: seq<Call>, exec: Executor)
    requires Answer(exec, c).Some?
    ensures Learned(context, [c] + calls, exec) == Learned(context[c.step := Answer(exec, c).value], calls, exec)
  {
    if calls == [] {
      assert ([c] + calls)[..0] == [];
    } else {
      assert ([c] + calls)[..|calls|] == [c] + calls[..|calls| - 1];
      LearnedThen(context, c, calls[..|calls| - 1], exec);
    }
  }

  /** One answered call before a run that goes step by step. */
  lemma StepByStepThen(steps: seq<Step>, context: Context, exec: Executor, c: Call, rest: Outcome)
    requires steps != [] && c.step == steps[0].id && c.tool == steps[0].tool
             && Resolve(steps[0].inputs, context) == Ok(c.inputs) && Answer(exec, c).Some?
    requires StepByStep(steps[1..], context[c.step := Answer(exec, c).value], exec, rest)
    ensures StepByStep(steps, context, exec, rest.(calls := [c] + rest.calls))
  {
    hide Resolve;
    var more, calls := context[c.step := Answer(exec, c).value], [c] + rest.calls;
    LearnedThen(context, c, rest.calls, exec);
    forall i | 0 <= i < |calls| ensures CallsStep(steps, context, exec, calls, i) {
      if i == 0 {
        assert calls[..0] == [];
      } else {
        assert calls[..i] == [c] + rest.calls[..i - 1];
        LearnedThen(context, c, rest.calls[..i - 1], exec);
        assert CallsStep(steps[1..], more, exec, rest.calls, i - 1);
      }
    }
  }

  /** A call without an answer ends the run at its step. */
  lemma StepByStepFails(steps: seq<Step>, context: Context, exec: Executor, c: Call)
    requires steps != [] && c.step == steps[0].id && c.tool == steps[0].tool
             && Resolve(steps[0].inputs, context) == Ok(c.inputs) && Answer(exec, c).None?
    ensures StepByStep(steps, context, exec, Outcome(context, [c], Some(c.step)))
  {
    hide Resolve;
    assert [c][..0] == [];
    assert Learned(context, [c], exec) == Learned(context, [], exec) == context;
    assert CallsStep(steps, context, exec, [c], 0);
  }

  /** The dispatch loop runs its steps one by one, in their order, and stops at the first broken reference or failed
      call. */
  lemma {:induction false} RunsStepByStep(steps: seq<Step>, context: Context, exec: Executor)
    ensures StepByStep(steps, context, exec, RunFrom(steps, context, exec))
    decreases |steps|
  {
    hide Resolve;
    if steps != [] && Resolve(steps[0].inputs, context).Ok? {
      hide StepByStep;
      var c := Call(steps[0].id, steps[0].tool, Resolve(steps[0].inputs, context).value);
      if Answer(exec, c).Some? {
        var more := context[c.step := Answer(exec, c).value];
        RunsStepByStep(steps[1..], more, exec);
        StepByStepThen(steps, context, exec, c, RunFrom(steps[1..], more, exec));
      } else {
        StepByStepFails(steps, context, exec, c);
      }
    }
  }

  // ----- checkpoints -----

  /** A checkpoint is given exactly for a partition of the plan's steps, and lists both parts in plan order. */
  lemma CheckpointIff(plan: seq<Step>, id: string, subject: string, completed: set<StepId>, pending: set<StepId>,
                      evidence: map<string, string>)
    ensures var t := CreateCheckpoint(plan, id, subject, completed, pending, evidence);
      && (t.Ok? <==>
          && (forall s :: s in completed || s in pending <==> exists p :: p in plan && p.id == s)
          && (forall s :: !(s in completed && s in pending)))
      && (t.Ok? ==>
          var c := t.value;
          && c.id == id && c.subject == subject && c.plan.plan == plan && c.evidence == evidence
          && (forall s :: s in c.completed <==> s in completed) && (forall s :: s in c.pending <==> s in pending)
          && c.completed == Filter(Ids(plan), completed) && c.pending == Filter(Ids(plan), pending))
  {
    InIdSet(plan);
    assert (forall s :: s in completed || s in pending <==> s in IdSet(plan)) <==> completed + pending == IdSet(plan);
    Apart(completed, pending);
    IdSetIsElements(plan);
  }

  lemma Apart(a: set<StepId>, b: set<StepId>)
    ensures (forall s :: !(s in a && s in b)) <==> a * b == {}
    ensures (forall s | s in a :: s !in b) <==> a !! b
  {
    if a * b != {} {
      var s :| s in a * b;
      assert s in a && s in b;
    } else {
      assert forall s :: s in a && s in b ==> s in a * b;
    }
  }

  lemma InIdSet(plan: seq<Step>)
    ensures forall s :: s in IdSet(plan) <==> exists p :: p in plan && p.id == s
  {
  }

  // ----- resume requests -----

  ghost predicate SucceededAt(receipts: seq<StepReceipt>, step: StepId) {
    exists r :: r in receipts && r.succeeded && r.step == step
  }

  /** One receipt a step, of a completed or a pending step; exactly the completed steps have one that succeeded. */
  ghost predicate Consistent(s: Snapshot) {
    && (forall i, j | 0 <= i < |s.receipts| && 0 <= j < |s.receipts| && s.receipts[i].step == s.receipts[j].step ::
          i == j)
    && (forall r | r in s.receipts :: r.step in s.checkpoint.completed || r.step in s.checkpoint.pending)
    && (forall step :: step in s.checkpoint.completed <==> SucceededAt(s.receipts, step))
    && (forall step | step in s.checkpoint.completed :: step !in s.checkpoint.pending)
  }

  lemma ConsistentIff(s: Snapshot)
    ensures Coherent(s) <==> Consistent(s)
  {
    var completed, pending := Elements(s.checkpoint.completed), Elements(s.checkpoint.pending);
    assert forall step :: step in Completed(s.receipts) <==> SucceededAt(s.receipts, step);
    assert Completed(s.receipts) == completed <==>
           forall step :: step in completed <==> SucceededAt(s.receipts, step);
    Apart(completed, pending);
    assert Completed(s.receipts) == completed <==>
           forall step :: step in s.checkpoint.completed <==> SucceededAt(s.receipts, step);
  }

  /** The snapshot may resume. */
  ghost predicate Waiting(s: Snapshot) {
    Consistent(s) && s.awaitingApproval && s.checkpointPending && forall r | r in s.receipts :: !r.ambiguous
  }

  /** The decision approves this checkpoint of this plan, on the evidence it was made on. */
  predicate Approves(d: Decision, c: Checkpoint, plan: seq<Step>) {
    && d.approved && c.plan.plan == plan
    && d.checkpoint == c.id && d.subject == c.subject && d.plan == c.plan && d.evidence == c.evidence
  }

  /** The stored outputs are those of the receipts that succeeded. */
  lemma {:induction false} OutputsOfReceipts(receipts: seq<StepReceipt>)
    requires forall i, j | 0 <= i < j < |receipts| :: receipts[i].step != receipts[j].step
    ensures forall r | r in receipts && r.succeeded ::
              r.step in ReceiptContext(receipts) && ReceiptContext(receipts)[r.step] == r.outputs
    ensures forall step :: step in ReceiptContext(receipts) ==> SucceededAt(receipts, step)
  {
    if receipts != [] {
      var front, last := receipts[..|receipts| - 1], receipts[|receipts| - 1];
      assert receipts == front + [last];
      OutputsOfReceipts(front);
      forall r | r in front ensures r.step != last.step {
        var i :| 0 <= i < |front| && front[i] == r;
        assert receipts[i] == r;
      }
      forall step | step in ReceiptContext(receipts) ensures SucceededAt(receipts, step) {
        if step != last.step || !last.succeeded {
          assert SucceededAt(front, step);
        }
      }
    }
  }

  /** Every refusal of a resume request, in order, each exactly when its own check is the first to fail. */
  lemma ResumeRefusedIff(plan: seq<Step>, snapshot: Snapshot, decision: Decision, exec: Executor)
    ensures var r, c := Resumed(plan, snapshot, decision, exec), snapshot.checkpoint;
      && (r == Err(IncoherentSnapshot) <==> !Consistent(snapshot))
      && (r == Err(NotResumable) <==>
          Consistent(snapshot) && !(snapshot.awaitingApproval && snapshot.checkpointPending))
      && (r == Err(AmbiguousOutcome) <==>
          Consistent(snapshot) && snapshot.awaitingApproval && snapshot.checkpointPending
          && exists s :: s in snapshot.receipts && s.ambiguous)
      && (r == Err(ApprovalFailed(NotApproved)) <==> Waiting(snapshot) && !decision.approved)
      && (r == Err(ApprovalFailed(PlanChanged)) <==> Waiting(snapshot) && decision.approved && c.plan.plan != plan)
      && (r == Err(ApprovalFailed(BindingMismatch)) <==>
          Waiting(snapshot) && decision.approved && c.plan.plan == plan && !Approves(decision, c, plan))
      && (r.Ok? || (r.Err? && (r.error.ReferenceFailed? || r.error.PlanRefused?)) <==>
          Waiting(snapshot) && Approves(decision, c, plan))
  {
    hide Coherent, Pending, ResumeSteps;
    ConsistentIff(snapshot);
    StepsRefuse(Pending(plan, PendingSet(snapshot.checkpoint)), ReceiptContext(snapshot.receipts), exec);
  }

  lemma StepsRefuse(resumed: seq<Step>, completed: Context, exec: Executor)
    ensures var r := ResumeSteps(resumed, completed, exec);
      r.Err? ==> r.error.ReferenceFailed? || r.error.PlanRefused?
  {
    hide MaterializeSteps;
  }

  /** A step of the plan that is still pending. */
  ghost predicate PendingIn(plan: seq<Step>, c: Checkpoint, s: Step) {
    s in plan && s.id in c.pending
  }

  /** The pending steps of an approved request start unless one of them refers to an output that a completed step does
      not have, or there is none, or they cannot be ordered. */
  lemma ApprovedResumesIff(plan: seq<Step>, snapshot: Snapshot, decision: Decision, exec: Executor)
    requires Waiting(snapshot) && Approves(decision, snapshot.checkpoint, plan)
    ensures var r, c := Resumed(plan, snapshot, decision, exec), snapshot.checkpoint;
      var broken := exists s :: PendingIn(plan, c, s) && Materialize(s.inputs, ReceiptContext(snapshot.receipts)).Err?;
      var runnable := (exists s :: PendingIn(plan, c, s)) && Orderable(Pending(plan, Elements(c.pending)));
      && (r.Err? && r.error.ReferenceFailed? <==> broken)
      && (r.Err? && r.error.PlanRefused? <==> !broken && !runnable)
      && (r.Ok? <==> !broken && runnable)
  {
    hide Coherent, OrderSteps, Orderable, Materialize, Pending, MaterializeSteps, PendingIn, ResumeSteps;
    var c, context := snapshot.checkpoint, ReceiptContext(snapshot.receipts);
    ConsistentIff(snapshot);
    var resumed := Pending(plan, Elements(c.pending));
    PendingMaterializesIff(plan, c, context);
    ResumeStepsIff(resumed, context, exec);
    assert Resumed(plan, snapshot, decision, exec) == ResumeSteps(resumed, context, exec);
  }

  lemma PendingMaterializesIff(plan: seq<Step>, c: Checkpoint, context: Context)
    ensures var resumed := Pending(plan, Elements(c.pending));
      && (MaterializeSteps(resumed, context).Ok? <==>
          !exists s :: PendingIn(plan, c, s) && Materialize(s.inputs, context).Err?)
      && (resumed == [] <==> !exists s :: PendingIn(plan, c, s))
  {
    hide Materialize, MaterializeSteps, Pending;
    var keep := Elements(c.pending);
    var resumed := Pending(plan, keep);
    PendingBothWays(plan, keep);
    MaterializedShape(resumed, context);
    if s :| PendingIn(plan, c, s) {
      assert Trim(s, keep) in resumed;
    }
    if resumed != [] {
      assert resumed[0] in resumed;
    }
  }

  lemma ResumeStepsIff(resumed: seq<Step>, context: Context, exec: Executor)
    ensures var r, done := ResumeSteps(resumed, context, exec), MaterializeSteps(resumed, context);
      && (r.Err? && r.error.ReferenceFailed? <==> done.Err?)
      && (r.Err? && r.error.PlanRefused? <==> done.Ok? && (resumed == [] || !Orderable(resumed)))
      && (r.Ok? <==> done.Ok? && resumed != [] && Orderable(resumed))
  {
    hide OrderSteps, Orderable, MaterializeSteps;
    if MaterializeSteps(resumed, context).Ok? {
      OrderableAlike(resumed, context);
      MaterializedIds(resumed, context);
    }
  }

  lemma PendingBothWays(plan: seq<Step>, keep: set<StepId>)
    ensures forall s | s in plan && s.id in keep :: Trim(s, keep) in Pending(plan, keep)
    ensures forall p | p in Pending(plan, keep) :: exists s :: s in plan && s.id in keep && p == Trim(s, keep)
  {
    forall s | s in plan && s.id in keep ensures Trim(s, keep) in Pending(plan, keep) {
      PendingFinds(plan, keep, s);
    }
    PendingComesFrom(plan, keep);
  }

  /** Whether steps can be ordered does not depend on their inputs. */
  lemma OrderableAlike(steps: seq<Step>, completed: Context)
    requires MaterializeSteps(steps, completed).Ok?
    ensures OrderSteps(MaterializeSteps(steps, completed).value).Ok? <==> Orderable(steps)
  {
    hide Acyclic, MaterializeSteps, Dependencies, KnownDependencies, OrderSteps;
    var done := MaterializeSteps(steps, completed).value;
    OrderStepsSucceedsIffOrderable(done);
    MaterializedIds(steps, completed);
    SameIdSets(steps, done);
    KnownAlike(steps, completed);
    if UniqueIds(steps) {
      MaterializedDependencies(steps, completed);
    }
  }

  lemma KnownAlike(steps: seq<Step>, completed: Context)
    requires MaterializeSteps(steps, completed).Ok?
    ensures KnownDependencies(MaterializeSteps(steps, completed).value) <==> KnownDependencies(steps)
  {
    hide MaterializeSteps, Materialize, IdSet;
    var done := MaterializeSteps(steps, completed).value;
    MaterializedIds(steps, completed);
    SameIdSets(steps, done);
    MaterializedShape(steps, completed);
    assert forall i | 0 <= i < |steps| :: done[i].dependsOn == steps[i].dependsOn;
    if KnownDependencies(steps) {
      forall s, d | s in done && d in s.dependsOn ensures d in IdSet(done) {
        var i :| 0 <= i < |done| && done[i] == s;
        assert steps[i] in steps;
      }
    }
    if KnownDependencies(done) {
      forall s, d | s in steps && d in s.dependsOn ensures d in IdSet(steps) {
        var i :| 0 <= i < |steps| && steps[i] == s;
        assert done[i] in done;
      }
    }
  }

  lemma SameIdSets(a: seq<Step>, b: seq<Step>)
    requires Ids(a) == Ids(b)
    ensures IdSet(a) == IdSet(b)
  {
    IdSetIsElements(a);
    IdSetIsElements(b);
  }

  /** A call for a pending step, with its own tool, after the calls for all pending steps it depends on. */
  ghost predicate CallOfPending(plan: seq<Step>, c: Checkpoint, calls: seq<Call>, n: nat, s: Step)
    requires n < |calls|
  {
    && PendingIn(plan, c, s) && s.id == calls[n].step && s.tool == calls[n].tool
    && forall d | d in s.dependsOn && d in c.pending :: CalledIn(calls[..n], d)
  }

  ghost predicate CallsPending(plan: seq<Step>, c: Checkpoint, calls: seq<Call>, n: nat)
    requires n < |calls|
  {
    exists s :: CallOfPending(plan, c, calls, n, s)
  }

  ghost predicate CalledIn(calls: seq<Call>, step: StepId) {
    exists m :: 0 <= m < |calls| && calls[m].step == step
  }

  /** What a resume request runs: pending steps only, each at most once and with its own tool, after the pending steps
      it depends on; all of them, unless one fails. */
  lemma ResumedCalls(plan: seq<Step>, snapshot: Snapshot, decision: Decision, exec: Executor)
    requires Resumed(plan, snapshot, decision, exec).Ok?
    ensures var o, c := Resumed(plan, snapshot, decision, exec).value, snapshot.checkpoint;
      && (forall n | 0 <= n < |o.calls| :: CallsPending(plan, c, o.calls, n))
      && (forall m, n | 0 <= m < n < |o.calls| :: o.calls[m].step != o.calls[n].step)
      && (o.failedAt.None? ==> forall s | PendingIn(plan, c, s) :: CalledIn(o.calls, s.id))
  {
    hide Coherent, OrderSteps, Materialize, Resolve, StepByStep, Pending, RunFrom, PendingIn, CallOfPending, CalledIn,
         MaterializeSteps, NoDuplicates;
    var c, context := snapshot.checkpoint, ReceiptContext(snapshot.receipts);
    var keep := Elements(c.pending);
    var done := MaterializeSteps(Pending(plan, keep), context).value;
    var ordered := OrderSteps(done).value;
    var o := RunFrom(ordered, map[], exec);
    RunsStepByStep(ordered, map[], exec);
    OrderedDistinct(done, ordered);
    CallsInOrder(ordered, map[], exec, o);
    OrderStepsIsTopological(done, ordered);
    OrderedAreDone(done, ordered);
    forall n | 0 <= n < |o.calls| ensures CallsPending(plan, c, o.calls, n) {
      var s := PendingCall(plan, c, context, ordered, o.calls, n);
    }
    if o.failedAt.None? {
      forall s | PendingIn(plan, c, s) ensures CalledIn(o.calls, s.id) {
        PendingIsCalled(plan, c, context, ordered, o.calls, s);
      }
    }
  }

  lemma PendingCall(plan: seq<Step>, c: Checkpoint, context: Context, ordered: seq<Step>, calls: seq<Call>, n: nat)
    returns (s: Step)
    requires n < |calls| <= |ordered|
    requires forall m | 0 <= m < |calls| :: calls[m].step == ordered[m].id && calls[m].tool == ordered[m].tool
    requires MaterializeSteps(Pending(plan, Elements(c.pending)), context).Ok?
    requires forall p | p in ordered :: p in MaterializeSteps(Pending(plan, Elements(c.pending)), context).value
    requires forall i, d | 0 <= i < |ordered| && d in ordered[i].dependsOn :: d in Ids(ordered)[..i]
    ensures CallOfPending(plan, c, calls, n, s)
  {
    hide Materialize, Pending, MaterializeSteps;
    var keep := Elements(c.pending);
    assert ordered[n] in ordered;
    s := OrderedFromPlan(plan, keep, context, ordered[n]);
    forall d | d in s.dependsOn && d in c.pending ensures CalledIn(calls[..n], d) {
      assert d in ordered[n].dependsOn && d in Ids(ordered)[..n];
      var m :| 0 <= m < n && Ids(ordered)[m] == d;
      assert calls[..n][m].step == d;
    }
  }

  lemma PendingIsCalled(plan: seq<Step>, c: Checkpoint, context: Context, ordered: seq<Step>, calls: seq<Call>, s: Step)
    requires |calls| == |ordered| && PendingIn(plan, c, s)
    requires forall m | 0 <= m < |calls| :: calls[m].step == ordered[m].id
    requires MaterializeSteps(Pending(plan, Elements(c.pending)), context).Ok?
    requires forall p | p in MaterializeSteps(Pending(plan, Elements(c.pending)), context).value :: p in ordered
    ensures CalledIn(calls, s.id)
  {
    hide Materialize, Pending, MaterializeSteps;
    var keep := Elements(c.pending);
    var resumed := Pending(plan, keep);
    PendingFinds(plan, keep, s);
    MaterializedShape(resumed, context);
    var k :| 0 <= k < |resumed| && resumed[k] == Trim(s, keep);
    var p := MaterializeSteps(resumed, context).value[k];
    assert p.id == s.id && p in ordered;
    var n :| 0 <= n < |ordered| && ordered[n] == p;
    assert calls[n].step == s.id;
  }

  lemma OrderedAreDone(done: seq<Step>, ordered: seq<Step>)
    requires multiset(ordered) == multiset(done)
    ensures forall s :: s in ordered <==> s in done
  {
    assert forall s :: s in ordered <==> s in multiset(ordered);
    assert forall s :: s in done <==> s in multiset(done);
  }

  lemma CallsInOrder(ordered: seq<Step>, context: Context, exec: Executor, o: Outcome)
    requires StepByStep(ordered, context, exec, o) && NoDuplicates(Ids(ordered))
    ensures |o.calls| <= |ordered| && (o.failedAt.None? ==> |o.calls| == |ordered|)
    ensures forall n | 0 <= n < |o.calls| :: o.calls[n].step == ordered[n].id && o.calls[n].tool == ordered[n].tool
    ensures forall m, n | 0 <= m < n < |o.calls| :: o.calls[m].step != o.calls[n].step
  {
    hide Resolve, Learned;
    forall n | 0 <= n < |o.calls| ensures o.calls[n].step == ordered[n].id && o.calls[n].tool == ordered[n].tool {
      assert CallsStep(ordered, context, exec, o.calls, n);
    }
    forall m, n | 0 <= m < n < |o.calls| ensures o.calls[m].step != o.calls[n].step {
      assert Ids(ordered)[m] != Ids(ordered)[n];
    }
  }

  lemma OrderedFromPlan(plan: seq<Step>, keep: set<StepId>, context: Context, p: Step) returns (s: Step)
    requires MaterializeSteps(Pending(plan, keep), context).Ok?
    requires p in MaterializeSteps(Pending(plan, keep), context).value
    ensures s in plan && s.id in keep && p.id == s.id && p.tool == s.tool && p.dependsOn == Filter(s.dependsOn, keep)
  {
    hide Materialize, MaterializeSteps, Pending;
    var resumed := Pending(plan, keep);
    MaterializedShape(resumed, context);
    PendingComesFrom(plan, keep);
    var done := MaterializeSteps(resumed, context).value;
    var k :| 0 <= k < |done| && done[k] == p;
    assert resumed[k] in resumed;
    s :| s in plan && s.id in keep && resumed[k] == Trim(s, keep);
  }
}
