/** What the runtime workflow service guarantees over every run, from the creation of a workflow on. */
module WorkflowTheorems {
  import opened DependencyGraph
  import opened RuntimeWorkflow
  import opened Totals
  import opened WorkflowAccounting
  import opened WorkflowScheduling
  import opened WorkflowLog
  import opened WorkflowRuns

  /** The state after any requests whatever, under any clock. */
  ghost function History(plan: Plan, requests: seq<Request>): (w: Workflow)
    requires plan.steps != []
    ensures Sound(w)
  {
    CreateSound(plan);
    Run(Create(plan), requests)
  }

  /** The attempt, concurrency and runtime counters are what the claim rows add up to, and within budget; so is each
      step's attempt count. */
  lemma ClaimsAreAccounted(plan: Plan, requests: seq<Request>)
    requires plan.steps != []
    ensures var w := History(plan, requests);
      var k, b := w.counters, w.plan.budgets;
      && k.activeSteps == ActiveCount(w.claims) <= b.concurrentSteps
      && k.providerAttempts == Total(w.claims, ProviderRow) <= b.providerAttempts
      && k.checkAttempts == Total(w.claims, CheckRow) <= b.checkAttempts
      && k.runtimeSeconds == Total(w.claims, Seconds) <= b.runtimeSeconds
      && forall s | s in w.steps ::
           && w.steps[s].attempts == ClaimsOf(w.claims, s)
           && FindStep(w.plan.steps, s).Some? && w.steps[s].attempts <= FindStep(w.plan.steps, s).value.maxAttempts
  {
    hide History, Kept, CountersFrozen, FindStep;
    ActiveCountIsTotal(History(plan, requests).claims);
  }

  /** The edge and byte counters are what the recorded edges and, but for the one ending that refuses a tool event,
      the event records add up to. */
  lemma RecordsAreAccounted(plan: Plan, requests: seq<Request>)
    requires plan.steps != []
    ensures var w := History(plan, requests);
      var k, b := w.counters, w.plan.budgets;
      && k.artifactEdges == |w.edges| <= b.artifactEdges
      && k.artifactBytes == Total(w.edges, EdgeBytes) <= b.artifactBytes
      && k.externalOperations == Total(w.claims, ToolEvents) <= b.externalOperations
      && k.eventBytes <= b.eventBytes && (!EndedOnToolEvent(w) ==> k.eventBytes == Total(w.claims, EventBytes))
  {
    hide History, Kept, CountersFrozen, ClaimsTally, FindStep;
  }

  /** At most one active claim and at most one outcome of a step, both of its latest attempt; no key is used twice;
      the records of a claim are numbered from zero without gaps. */
  lemma ClaimsAreFenced(plan: Plan, requests: seq<Request>, i: nat, j: nat)
    requires plan.steps != [] && i < |History(plan, requests).claims| && j < |History(plan, requests).claims| && i != j
    ensures var w := History(plan, requests);
      var a, b := w.claims[i], w.claims[j];
      && a.binding.key != b.binding.key && a.token != b.token
      && (a.step == b.step ==> !(a.status.Active? && b.status.Active?) && !(a.outcome.Some? && b.outcome.Some?))
      && (a.outcome.Some? || a.status.Active? ==> a.step in w.steps && a.attempt == w.steps[a.step].attempts)
      && a.nextSequence == |a.records| && forall n | 0 <= n < |a.records| :: a.records[n].sequence == n
  {
    hide History, Books, Ended, FindStep, EdgesOnce, StepsMatchClaims, SuccessesOrdered;
    var w := History(plan, requests);
    TokensAreDistinct(w, i, j);
    assert GoodLog(w.claims[i]) && GoodLog(w.claims[j]);
    if w.claims[i].step == w.claims[j].step {
      if i < j { OneHolderPerStep(w, i, j); } else { OneHolderPerStep(w, j, i); }
    }
  }

  /** Success is never undone, and successes come in an order in which every step follows all it depends on; the
      workflow is completed, or in version 3 blocked, exactly when every step has succeeded. */
  lemma SuccessesExtend(plan: Plan, requests: seq<Request>, more: seq<Request>)
    requires plan.steps != []
    ensures var w, v := History(plan, requests), History(plan, requests + more);
      && w.successes <= v.successes && NoDuplicates(v.successes)
      && (forall s :: s in v.successes <==> Succeeds(v, s))
      && (forall n, d | 0 <= n < |v.successes| && d in DependsOn(v, v.successes[n]) :: d in v.successes[..n])
      && (AllSucceeded(v.steps) <==> v.state.Completed? || v.state.Blocked?)
      && (v.state.Blocked? ==> v.plan.version == 3)
  {
    hide Run, Books, Logged, FindStep, AttemptsOrdered, ClaimsMatchSteps, StepsMatchClaims;
    CreateSound(plan);
    RunAppends(Create(plan), requests, more);
  }

  /** A workflow that is over stays exactly as it is, and its receipt shows its counters, its outcomes and its edges. */
  lemma TerminalIsFrozen(plan: Plan, requests: seq<Request>, more: seq<Request>)
    requires plan.steps != [] && !IsActive(History(plan, requests))
    ensures var w := History(plan, requests);
      && History(plan, requests + more) == w
      && w.receipt.Some? && w.receipt.value.status == w.state && w.receipt.value.counters == w.counters
      && w.receipt.value.steps == Outcomes(w.claims) && w.receipt.value.edges == w.edges
  {
    hide Run, Accounted, Scheduled, Logged, Outcomes, AllSucceeded;
    CreateSound(plan);
    RunAppends(Create(plan), requests, more);
    assert Continues(History(plan, requests), Run(History(plan, requests), more));
  }
}
