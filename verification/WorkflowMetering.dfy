/** What a claim's metered seconds are: the longest it had run at any time it was metered; and what a reconcile charges
    before it runs out of budget. */
module WorkflowMetering {
  import opened Wrappers
  import opened RuntimeWorkflow
  import opened Totals
  import opened WorkflowAccounting
  import opened WorkflowScheduling
  import opened WorkflowLog
  import opened WorkflowRuns
  import opened WorkflowRequests
  import opened WorkflowTheorems

  // ----- the reconcile loop -----

  /** The lease of an active claim has run out. */
  predicate RunOut(c: Claim, now: int) {
    c.status.Active? && c.leaseExpires < now
  }

  /** The seconds a reconcile charges for a claim. */
  function Charge(now: int): Claim -> int {
    (c: Claim) => if RunOut(c, now) then MeteredAt(c, now) - c.accounted else 0
  }

  /** The runtime budget covers what the loop charges from row `from` up to row `i`. */
  predicate Covered(w: Workflow, from: nat, i: nat, now: int)
    requires from <= i < |w.claims|
  {
    w.counters.runtimeSeconds + Total(w.claims[from..i + 1], Charge(now)) <= w.plan.budgets.runtimeSeconds
  }

  lemma {:induction false} TotalFront<T>(row: T, rows: seq<T>, f: T -> int)
    ensures Total([row] + rows, f) == f(row) + Total(rows, f)
  {
    var all := [row] + rows;
    if rows == [] {
      assert all[..0] == [];
      assert Total(all, f) == Total(all[..0], f) + f(row);
    } else {
      assert all[..|all| - 1] == [row] + rows[..|rows| - 1];
      TotalFront(row, rows[..|rows| - 1], f);
    }
  }

  lemma ChargesGrow(rows: seq<Claim>, now: int)
    ensures Total(rows, Charge(now)) >= 0
  {
    TotalBounds(rows, Charge(now));
  }

  lemma CoveredStep(w: Workflow, from: nat, i: nat, now: int)
    requires from < i < |w.claims|
    ensures Total(w.claims[from..i + 1], Charge(now)) ==
            Charge(now)(w.claims[from]) + Total(w.claims[from + 1..i + 1], Charge(now))
  {
    assert w.claims[from..i + 1] == [w.claims[from]] + w.claims[from + 1..i + 1];
    TotalFront(w.claims[from], w.claims[from + 1..i + 1], Charge(now));
  }

  lemma CoveredFirst(w: Workflow, from: nat, now: int)
    requires from < |w.claims|
    ensures Total(w.claims[from..from + 1], Charge(now)) == Charge(now)(w.claims[from])
  {
    assert w.claims[from..from + 1] == [] + [w.claims[from]];
    TotalAppend([], w.claims[from], Charge(now));
  }

  /** One turn of the loop, on a claim whose lease has run out and whose seconds the budget covers. */
  function Turned(w: Workflow, i: nat, now: int): Workflow
    requires i < |w.claims|
  {
    Release(Meter(w, i, now), i)
  }

  lemma TurnedRow(w: Workflow, i: nat, now: int)
    requires i < |w.claims|
    ensures var f, c := Turned(w, i, now), w.claims[i];
      && f.claims == w.claims[i := c.(status := StaleRejected, accounted := MeteredAt(c, now))]
      && f.counters.runtimeSeconds == w.counters.runtimeSeconds + MeteredAt(c, now) - c.accounted && f.plan == w.plan
  {
  }

  /** What the loop makes of a claim: stale and metered if its lease had run out and the budget covered it; stale as it
      was if the budget failed the workflow first; as it was otherwise. */
  predicate LeftAs(before: Claim, after: Claim, now: int, covered: bool, failed: bool) {
    after == before.(
      accounted := if RunOut(before, now) && covered then MeteredAt(before, now) else before.accounted,
      status := if before.status.Active? && (failed || RunOut(before, now)) then StaleRejected else before.status)
  }

  lemma FailedRow(w: Workflow, v: Workflow, i: nat, now: int)
    requires FailedOn(w, v, "runtime") && i < |w.claims|
    ensures LeftAs(w.claims[i], v.claims[i], now, false, true)
  {
  }

  /** What the loop from a row on comes to: it fails the workflow exactly when the budget does not cover all it
      charges. */
  ghost predicate Sweeps(w: Workflow, from: nat, now: int, t: Transaction<Workflow, ()>)
    requires from <= |w.claims|
  {
    && !t.Rollback? && |t.state.claims| == |w.claims|
    && (t.CommitFailure? <==> from < |w.claims| && !Covered(w, from, |w.claims| - 1, now))
    && (forall i | from <= i < |w.claims| ::
          LeftAs(w.claims[i], t.state.claims[i], now, Covered(w, from, i, now), t.CommitFailure?))
    && (forall i | 0 <= i < from ::
          t.state.claims[i] == if t.CommitFailure? && w.claims[i].status.Active?
                               then w.claims[i].(status := StaleRejected) else w.claims[i])
  }

  lemma {:induction false} LoopSweeps(w: Workflow, from: nat, now: int, ready: bool)
    requires from <= |w.claims| && w.counters.runtimeSeconds <= w.plan.budgets.runtimeSeconds
    ensures Sweeps(w, from, now, ReleaseExpired(w, from, now, ready))
    decreases |w.claims| - from
  {
    hide Meter, Release, RuntimeExhausted, Exhaust, FailedOn, LeftAs, Covered, Charge;
    if from < |w.claims| {
      MeteringIs(w, from, now);
      if !Expired(w.claims[from], now) {
        LoopSweeps(w, from + 1, now, ready);
        LiveTurn(w, from, now, ReleaseExpired(w, from + 1, now, ready));
      } else if RuntimeExhausted(w, from, now) {
        ExhaustFails(w, "runtime", ready);
        UncoveredTurn(w, from, now, Exhaust(w, "runtime", ready));
      } else {
        TurnedRow(w, from, now);
        var f := Turned(w, from, now);
        LoopSweeps(f, from + 1, now, ready);
        CoveredTurn(w, from, now, ReleaseExpired(f, from + 1, now, ready));
      }
    }
  }

  lemma LiveTurn(w: Workflow, from: nat, now: int, t: Transaction<Workflow, ()>)
    requires from < |w.claims| && !RunOut(w.claims[from], now) && Sweeps(w, from + 1, now, t)
    requires w.counters.runtimeSeconds <= w.plan.budgets.runtimeSeconds
    ensures Sweeps(w, from, now, t)
  {
    CoveredFirst(w, from, now);
    forall i | from < i < |w.claims| ensures Covered(w, from, i, now) <==> Covered(w, from + 1, i, now) {
      CoveredStep(w, from, i, now);
    }
  }

  lemma UncoveredTurn(w: Workflow, from: nat, now: int, v: Workflow)
    requires from < |w.claims| && RunOut(w.claims[from], now) && !RuntimeLeft(w, w.claims[from], now)
    requires FailedOn(w, v, "runtime")
    ensures Sweeps(w, from, now, CommitFailure(v, WorkflowBudgetExhausted))
  {
    CoveredFirst(w, from, now);
    forall i | from < i < |w.claims| ensures !Covered(w, from, i, now) {
      CoveredStep(w, from, i, now);
      ChargesGrow(w.claims[from + 1..i + 1], now);
    }
  }

  lemma CoveredTurn(w: Workflow, from: nat, now: int, t: Transaction<Workflow, ()>)
    requires from < |w.claims| && RunOut(w.claims[from], now) && RuntimeLeft(w, w.claims[from], now)
    requires w.counters.runtimeSeconds <= w.plan.budgets.runtimeSeconds
    requires |Turned(w, from, now).claims| == |w.claims| && Sweeps(Turned(w, from, now), from + 1, now, t)
    ensures Sweeps(w, from, now, t)
  {
    TurnedRow(w, from, now);
    hide Meter, Release, Turned;
    var f := Turned(w, from, now);
    CoveredFirst(w, from, now);
    forall i | from < i < |w.claims| ensures Covered(w, from, i, now) <==> Covered(f, from + 1, i, now) {
      CoveredStep(w, from, i, now);
      assert f.claims[from + 1..i + 1] == w.claims[from + 1..i + 1];
    }
  }

  // ----- which requests meter a claim -----

  /** The update's record is stored, was stored before, or fails the workflow. */
  ghost predicate Taken(w: Workflow, c: Claim, u: Update) {
    || u.record in c.records
    || (Tellable(w, c, u)
        && (BreaksBudget(w, c, u) || !BringsReport(c, u)
            || (u.record.payload.Outcome? && exists k: nat :: ReportFits(w, c, u, k))))
  }

  /** The request meters the claim: an accepted renewal or update of its holder, or a reconcile that finds its lease
      run out, as long as the runtime budget covers it. */
  ghost predicate Meters(w: Workflow, a: Action, i: nat)
    requires i < |w.claims|
  {
    match a
    case DoActivate(_, _, _) => false
    case DoCancel(_) => false
    case DoRenew(h, _, now) => h.claim == i && HoldsLease(w, h, now) && RuntimeLeft(w, w.claims[i], now)
    case DoUpdate(u, now) =>
      && u.holder.claim == i && HoldsLease(w, u.holder, now) && RuntimeLeft(w, w.claims[i], now)
      && u.record.digest.payload == u.record.payload && Taken(w, w.claims[i], u)
    case DoReconcile(now) =>
      (w.state.Pending? || w.state.Running?) && RunOut(w.claims[i], now) && Covered(w, 0, i, now)
  }

  function TimeOf(a: Action): int {
    if a.DoCancel? then 0 else a.now
  }

  /** What a request leaves of the seconds of all claims. */
  ghost predicate SecondsAfter(w: Workflow, a: Action, v: Workflow) {
    && |w.claims| <= |v.claims|
    && (forall i | 0 <= i < |w.claims| ::
          && v.claims[i].started == w.claims[i].started
          && v.claims[i].accounted ==
             if Meters(w, a, i) then MeteredAt(w.claims[i], TimeOf(a)) else w.claims[i].accounted)
    && (forall i | |w.claims| <= i < |v.claims| ::
          v.claims[i].accounted == 0 && a.DoActivate? && v.claims[i].started == a.now)
  }

  lemma MeteredSame(w: Workflow, i: nat, now: int, u: Update)
    requires i < |w.claims|
    ensures var m, c := Metered(w, i, now), w.claims[i];
      && |m.claims| == |w.claims| && (Taken(m, m.claims[i], u) <==> Taken(w, c, u))
      && (forall j | 0 <= j < |w.claims| ::
            && m.claims[j].started == w.claims[j].started
            && m.claims[j].accounted == if j == i then MeteredAt(c, now) else w.claims[j].accounted)
  {
    var m, c := Metered(w, i, now), w.claims[i];
    assert Tellable(m, m.claims[i], u) <==> Tellable(w, c, u) by {
      assert forall k: nat :: ReportEdgeAt(m.plan, k, c.step) <==> ReportEdgeAt(w.plan, k, c.step);
    }
    if u.record.payload.Outcome? {
      assert forall k: nat :: ReportFits(m, m.claims[i], u, k) <==> ReportFits(w, c, u, k);
    }
  }

  lemma FailedSeconds(w: Workflow, v: Workflow, budget: string)
    requires FailedOn(w, v, budget)
    ensures SameSeconds(w, v)
  {
  }

  ghost predicate SameSeconds(w: Workflow, v: Workflow) {
    && |v.claims| == |w.claims|
    && forall i | 0 <= i < |w.claims| ::
         v.claims[i].started == w.claims[i].started && v.claims[i].accounted == w.claims[i].accounted
  }

  lemma AnswerSeconds(m: Workflow, t: Transaction<Workflow, ()>, i: nat, u: Update, ready: bool)
    requires i < |m.claims| && m.claims[i].step in m.steps && RecordAnswered(m, t, i, u, ready)
    ensures t.Rollback? <==> !Taken(m, m.claims[i], u)
    ensures !t.Rollback? ==> SameSeconds(m, t.state)
  {
    hide StandsAfter, FailedOn, ReportFits, ReportEdgeAt, BreaksBudget, NextRecord;
    forall budget: string, x: Workflow, v: Workflow ensures FailedOn(x, v, budget) ==> SameSeconds(x, v) {
      if FailedOn(x, v, budget) {
        FailedSeconds(x, v, budget);
      }
    }
  }

  lemma UpdateSeconds(w: Workflow, u: Update, now: int, ready: bool)
    requires ClaimsPlanned(w) && forall c | c in w.claims :: Contiguous(c)
    ensures SecondsAfter(w, DoUpdate(u, now), After(w, ApplyUpdate(w, u, now, ready)))
  {
    hide HoldsLease, RuntimeLeft, FailedOn, RecordAnswered, ApplyUpdate, Metered, Contiguous, Taken;
    UpdateIff(w, u, now, ready);
    if HoldsLease(w, u.holder, now) {
      var t, i := ApplyUpdate(w, u, now, ready), u.holder.claim;
      HoldsLeaseIff(w, u.holder, now);
      if RuntimeLeft(w, w.claims[i], now) {
        var m := Metered(w, i, now);
        MeteredSame(w, i, now, u);
        if u.record.digest.payload == u.record.payload {
          AnswerSeconds(m, t, i, u, ready);
        }
      } else {
        FailedSeconds(w, t.state, "runtime");
      }
    }
  }

  lemma RenewSeconds(w: Workflow, h: Credential, leaseSeconds: nat, now: int, ready: bool)
    ensures SecondsAfter(w, DoRenew(h, leaseSeconds, now),
                         After(w, RuntimeWorkflow.Renew(w, h, leaseSeconds, now, ready)))
  {
    hide HoldsLease, RuntimeLeft, FailedOn, Renew;
    RenewalIff(w, h, leaseSeconds, now, ready);
    if HoldsLease(w, h, now) {
      HoldsLeaseIff(w, h, now);
      if !RuntimeLeft(w, w.claims[h.claim], now) {
        FailedSeconds(w, RuntimeWorkflow.Renew(w, h, leaseSeconds, now, ready).state, "runtime");
      }
    }
  }

  lemma ActivateSeconds(w: Workflow, r: Activation, now: int, keys: Keyring, ready: bool)
    ensures SecondsAfter(w, DoActivate(r, now, keys), After(w, Activate(w, r, now, keys, ready)))
  {
    hide Starts, FailedOn, Activate, RoomFor;
    ActivationIff(w, r, now, keys, ready);
    if k: nat :| Starts(w, r, k) {
      StartsPlanned(w, r, k);
      if !RoomFor(w, w.plan.steps[k]) {
        FailedSeconds(w, Activate(w, r, now, keys, ready).state, "attempt");
      }
    }
  }

  lemma ReconcileSeconds(w: Workflow, now: int, ready: bool)
    requires w.counters.runtimeSeconds <= w.plan.budgets.runtimeSeconds
    ensures SecondsAfter(w, DoReconcile(now), After(w, Reconcile(w, now, ready)))
  {
    hide ReleaseExpired, Covered;
    LoopSweeps(w, 0, now, ready);
    forall i | 0 <= i < |w.claims| && IsActive(w)
      ensures var v := ReleaseExpired(w, 0, now, ready).state;
        && v.claims[i].started == w.claims[i].started
        && v.claims[i].accounted ==
           if Meters(w, DoReconcile(now), i) then MeteredAt(w.claims[i], now) else w.claims[i].accounted
    {
      var t := ReleaseExpired(w, 0, now, ready);
      assert LeftAs(w.claims[i], t.state.claims[i], now, Covered(w, 0, i, now), t.CommitFailure?);
    }
  }

  lemma CancelSeconds(w: Workflow, reason: string, ready: bool)
    ensures SecondsAfter(w, DoCancel(reason), Cancel(w, reason, ready))
  {
    hide Cancel;
    CancelEnds(w, reason, ready);
  }

  /** A request that meters a claim leaves it with the seconds since its start, or what it had if that is more; every
      other claim keeps its seconds, and a new one has none. */
  lemma StepMeters(w: Workflow, r: Request)
    requires Sound(w) && ClaimsPlanned(w)
    ensures SecondsAfter(w, r.action, Step(w, r.action, r.ready))
  {
    hide SecondsAfter, Activate, Renew, ApplyUpdate, Cancel, Reconcile, Scheduled, Ended, Contiguous;
    assert forall c | c in w.claims :: GoodLog(c) && Contiguous(c);
    match r.action
    case DoActivate(request, now, keys) => ActivateSeconds(w, request, now, keys, r.ready);
    case DoRenew(holder, leaseSeconds, now) => RenewSeconds(w, holder, leaseSeconds, now, r.ready);
    case DoUpdate(update, now) => UpdateSeconds(w, update, now, r.ready);
    case DoCancel(reason) => CancelSeconds(w, reason, r.ready);
    case DoReconcile(now) =>
      RuntimeWithin(w);
      ReconcileSeconds(w, now, r.ready);
  }

  lemma RuntimeWithin(w: Workflow)
    requires Sound(w)
    ensures w.counters.runtimeSeconds <= w.plan.budgets.runtimeSeconds
  {
    hide Kept, ClaimsTally, RecordsTally, FindStep;
  }

  // ----- over runs -----

  /** The times at which a claim is metered in a run. */
  ghost function TimesMetered(w: Workflow, requests: seq<Request>, i: nat): seq<int>
    requires Sound(w)
    decreases |requests|
  {
    hide Kept, Books, Step, Meters;
    if requests == [] then []
    else
      KeptClaimsPlanned(w);
      StepKept(w, requests[0]);
      var a := requests[0].action;
      (if i < |w.claims| && Meters(w, a, i) then [TimeOf(a)] else [])
      + TimesMetered(Step(w, a, requests[0].ready), requests[1..], i)
  }

  /** `most` is the largest of `least` and what has passed since `started` at some of the times. */
  ghost predicate IsLongest(most: int, least: int, started: int, times: seq<int>) {
    && least <= most && (forall n | 0 <= n < |times| :: times[n] - started <= most)
    && (most == least || exists n :: 0 <= n < |times| && most == times[n] - started)
  }

  lemma LongestThen(most: int, next: int, least: int, started: int, metered: bool, now: int, times: seq<int>)
    requires IsLongest(most, next, started, times)
    requires next == if metered && now - started > least then now - started else least
    ensures IsLongest(most, least, started, (if metered then [now] else []) + times)
  {
    var all := (if metered then [now] else []) + times;
    var d := if metered then 1 else 0;
    assert forall n | 0 <= n < |times| :: all[n + d] == times[n];
    assert forall n | d <= n < |all| :: all[n] == times[n - d];
    if most != next {
      var n :| 0 <= n < |times| && most == times[n] - started;
      assert all[n + d] - started == most;
    } else if metered {
      assert all[0] == now;
    }
  }

  lemma {:induction false} RunMeters(w: Workflow, requests: seq<Request>, i: nat)
    requires Sound(w) && i < |Run(w, requests).claims|
    ensures var c := Run(w, requests).claims[i];
      && (i < |w.claims| ==> c.started == w.claims[i].started)
      && IsLongest(c.accounted, if i < |w.claims| then w.claims[i].accounted else 0, c.started,
                   TimesMetered(w, requests, i))
    decreases |requests|
  {
    hide Kept, Books, Step, Meters, Continues, IsLongest;
    if requests == [] {
      StaysLongest(w.claims[i]);
      assert IsLongest(w.claims[i].accounted, w.claims[i].accounted, w.claims[i].started, []);
    } else {
      var a := requests[0].action;
      KeptClaimsPlanned(w);
      StepKept(w, requests[0]);
      StepMeters(w, requests[0]);
      var next := Step(w, a, requests[0].ready);
      RunMeters(next, requests[1..], i);
      var c := Run(next, requests[1..]).claims[i];
      var metered := i < |w.claims| && Meters(w, a, i);
      LongestThen(c.accounted, if i < |next.claims| then next.claims[i].accounted else 0,
                  if i < |w.claims| then w.claims[i].accounted else 0, c.started, metered, TimeOf(a),
                  TimesMetered(next, requests[1..], i));
    }
  }

  lemma StaysLongest(c: Claim)
    ensures IsLongest(c.accounted, c.accounted, c.started, [])
  {
  }

  /** Over every run, the seconds a claim stands at are the longest it had run at any time it was metered, and none if
      it never was; the counter is the sum of them, within its budget. */
  lemma SecondsAreLongestRun(plan: Plan, requests: seq<Request>, i: nat)
    requires plan.steps != [] && i < |History(plan, requests).claims|
    ensures Sound(Create(plan))
    ensures var w := History(plan, requests);
      && IsLongest(w.claims[i].accounted, 0, w.claims[i].started, TimesMetered(Create(plan), requests, i))
      && w.counters.runtimeSeconds == Total(w.claims, Seconds) <= w.plan.budgets.runtimeSeconds
  {
    hide Run, Kept, Books, IsLongest;
    CreateSound(plan);
    RunMeters(Create(plan), requests, i);
    ClaimsAreAccounted(plan, requests);
  }
}
