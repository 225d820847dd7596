/** Job leases: rows claimed, renewed, released and overwritten under guards, by workers and services that read first
    and write later. */
module JobLease {
  import opened Wrappers

  // ----- rows -----

  datatype JobState = Pending | Running | Done(outcome: string)

  datatype Document = Document(state: JobState, run: Option<nat>, staging: Option<string>, error: Option<string>)

  /** Lease tokens are issued fresh by each claim; numbers stand for them. */
  datatype Row = Row(
    state: JobState, document: Document, attempts: nat, owner: Option<string>, expires: Option<int>, token: Option<nat>,
        result: Option<string>)

  predicate Claimable(r: Row, now: int, maxAttempts: nat) {
    && (r.state.Pending? || (r.state.Running? && r.expires.Some? && r.expires.value < now))
    && r.attempts < maxAttempts
  }

  function FindClaimable(rows: seq<Row>, now: int, maxAttempts: nat): (r: Option<nat>)
    ensures r.Some? ==>
            r.value < |rows| && Claimable(rows[r.value], now, maxAttempts) && forall i | 0 <= i < r.value ::
                                                                                !Claimable(rows[i], now, maxAttempts)
    ensures r.None? ==> forall i | 0 <= i < |rows| :: !Claimable(rows[i], now, maxAttempts)
  {
    if rows == [] then None
    else
      var last := |rows| - 1;
      match FindClaimable(rows[..last], now, maxAttempts)
      case Some(i) => Some(i)
      case None => if Claimable(rows[last], now, maxAttempts) then Some(last) else None
  }

  /** The row `claim_next` writes. */
  function Claimed(r: Row, owner: string, token: nat, expires: int): Row {
    r.(state := Running, attempts := r.attempts + 1, owner := Some(owner), expires := Some(expires), token :=
       Some(token),
       document := r.document.(state := Running, run := Some(token)))
  }

  /** `_finalize` on a record. */
  function Finalized(r: Row, outcome: string, error: Option<string>): Row {
    r.(state := Done(outcome), document := Document(Done(outcome), r.document.run, None, error), owner := None,
       expires := None, token := None)
  }

  /** The retry branch of `_maybe_retry_or_fail` on a record. */
  function Requeued(r: Row): Row {
    r.(state := Pending, document := r.document.(state := Pending), owner := None, expires := None, token := None)
  }

  // ----- the table, and those who have read it -----

  /** A worker holds the token of its claim; a cancel or a reconcile holds none. `copy` is the record it read. */
  datatype Reader = Reader(job: nat, held: Option<nat>, copy: Row)

  datatype Change =
    | ClaimedBy(job: nat, token: nat)
    | RenewedBy(job: nat, token: nat)
    | ReleasedFrom(job: nat, token: nat)
    | Overwritten(job: nat)

  /** `log` is the history of all changes; tokens below `issued` have been issued, each for the job `claims` names. */
  datatype Jobs = Jobs(maxAttempts: nat, rows: seq<Row>, issued: nat, claims: seq<nat>, readers: map<nat, Reader>,
                       log: seq<Change>)

  function Insert(w: Jobs, document: Document): Jobs {
    w.(rows := w.rows + [Row(Pending, document, 0, None, None, None, None)])
  }

  /** `claim_next`. */
  function ClaimNext(w: Jobs, owner: string, leaseSeconds: nat, now: int): Jobs {
    match FindClaimable(w.rows, now, w.maxAttempts)
    case None => w
    case Some(job) =>
      w.(rows := w.rows[job := Claimed(w.rows[job], owner, w.issued, now + leaseSeconds)], issued := w.issued + 1,
         claims := w.claims + [job], log := w.log + [ClaimedBy(job, w.issued)])
  }

  predicate Holds(r: Row, owner: string, token: nat) {
    r.owner == Some(owner) && r.token == Some(token) && r.state.Running?
  }

  /** `renew_lease`: it asks for owner and token, not for an unexpired lease. */
  function Renew(w: Jobs, job: nat, owner: string, token: nat, expires: int): Jobs {
    if job >= |w.rows| || !Holds(w.rows[job], owner, token) then w
    else w.(rows := w.rows[job := w.rows[job].(expires := Some(expires))], log := w.log + [RenewedBy(job, token)])
  }

  /** `release_expired_lease`. */
  function Release(w: Jobs, job: nat, token: nat, now: int): Jobs {
    if job >= |w.rows| then w
    else
      var r := w.rows[job];
      if !(r.state.Running? && r.token == Some(token) && r.expires.Some? && r.expires.value < now) then w
      else w.(rows := w.rows[job := Requeued(r)], log := w.log + [ReleasedFrom(job, token)])
  }

  /** Someone reads a row; a worker only after its own claim of that job. */
  function Read(w: Jobs, reader: nat, job: nat, held: Option<nat>): Jobs {
    if job >= |w.rows| || (held.Some? && !(held.value < |w.claims| && w.claims[held.value] == job)) then w
    else w.(readers := w.readers[reader := Reader(job, held, w.rows[job])])
  }

  /** `update` with an expected token: the row must still be running under it. */
  predicate GuardPasses(w: Jobs, job: nat, expected: Option<nat>) {
    job < |w.rows| && (expected.Some? ==> w.rows[job].state.Running? && w.rows[job].token == expected)
  }

  function Overwrite(w: Jobs, job: nat, expected: Option<nat>, record: Row): Jobs {
    if !GuardPasses(w, job, expected) then w
    else w.(rows := w.rows[job := record], log := w.log + [Overwritten(job)])
  }

  /** A worker's write from the record it read: it requeues, or finalizes with a result, always under its own token. */
  datatype Verdict = Requeue | Finish(outcome: string, error: Option<string>, result: Option<string>)

  function Judged(r: Row, v: Verdict): Row {
    match v
    case Requeue => Requeued(r)
    case Finish(outcome, error, result) => Finalized(r.(result := result), outcome, error)
  }

  /** `_maybe_retry_or_fail` requeues below the attempt limit only. */
  predicate VerdictAllowed(r: Row, v: Verdict, maxAttempts: nat) {
    v.Requeue? ==> r.attempts < maxAttempts
  }

  function WorkerWrite(w: Jobs, reader: nat, v: Verdict): Jobs {
    if reader !in w.readers || w.readers[reader].held.None?
        || !VerdictAllowed(w.readers[reader].copy, v, w.maxAttempts) then w
    else Overwrite(w, w.readers[reader].job, w.readers[reader].held, Judged(w.readers[reader].copy, v))
  }

  /** `cancel`: unguarded, from a record that was not terminal when read. */
  function CancelWrite(w: Jobs, reader: nat): Jobs {
    if reader !in w.readers || w.readers[reader].copy.state.Done? then w
    else Overwrite(w, w.readers[reader].job, None, Finalized(w.readers[reader].copy, "cancelled", None))
  }

  /** `_reconcile_finalize`: guarded by the token of the record it read, if that was running. */
  function ReconcileWrite(w: Jobs, reader: nat, outcome: string, error: Option<string>): Jobs {
    if reader !in w.readers || w.readers[reader].copy.state.Done? then w
    else
      var r := w.readers[reader].copy;
      Overwrite(w, w.readers[reader].job, if r.state.Running? then r.token else None, Finalized(r, outcome, error))
  }

  datatype Event =
    | Inserted(document: Document)
    | ClaimRequested(owner: string, leaseSeconds: nat, now: int)
    | RenewRequested(job: nat, owner: string, token: nat, expires: int)
    | ReleaseRequested(job: nat, token: nat, now: int)
    | RowRead(reader: nat, job: nat, held: Option<nat>)
    | WorkerWrote(reader: nat, verdict: Verdict)
    | CancelWrote(reader: nat)
    | ReconcileWrote(reader: nat, outcome: string, error: Option<string>)

  function Happen(w: Jobs, e: Event): Jobs {
    match e
    case Inserted(document) => Insert(w, document)
    case ClaimRequested(owner, leaseSeconds, now) => ClaimNext(w, owner, leaseSeconds, now)
    case RenewRequested(job, owner, token, expires) => Renew(w, job, owner, token, expires)
    case ReleaseRequested(job, token, now) => Release(w, job, token, now)
    case RowRead(reader, job, held) => Read(w, reader, job, held)
    case WorkerWrote(reader, verdict) => WorkerWrite(w, reader, verdict)
    case CancelWrote(reader) => CancelWrite(w, reader)
    case ReconcileWrote(reader, outcome, error) => ReconcileWrite(w, reader, outcome, error)
  }

  function Run(w: Jobs, events: seq<Event>): Jobs
    decreases |events|
  {
    if events == [] then w else Run(Happen(w, events[0]), events[1..])
  }

  function Empty(maxAttempts: nat): Jobs {
    Jobs(maxAttempts, [], 0, [], map[], [])
  }

  // ----- what holds in every state -----

  /** The last change to a job that was not a renewal. */
  function LastChange(log: seq<Change>, job: nat): Option<Change> {
    if log == [] then None
    else
      var last := log[|log| - 1];
      if last.job == job && !last.RenewedBy? then Some(last) else LastChange(log[..|log| - 1], job)
  }

  function ClaimsOf(log: seq<Change>, job: nat): nat {
    if log == [] then 0
    else ClaimsOf(log[..|log| - 1], job) + if log[|log| - 1].ClaimedBy? && log[|log| - 1].job == job then 1 else 0
  }

  /** A row is running exactly when it carries a token, and then nothing but renewals has happened since that token's
      claim. */
  ghost predicate RowOk(w: Jobs, job: nat)
    requires job < |w.rows|
  {
    var r := w.rows[job];
    && (r.token.Some? <==> r.state.Running?)
    && (r.token.Some? ==>
        r.token.value < w.issued && r.expires.Some? && LastChange(w.log, job) == Some(ClaimedBy(job, r.token.value)))
    && (!r.state.Done? ==> r.attempts == ClaimsOf(w.log, job))
    && ClaimsOf(w.log, job) <= w.maxAttempts
  }

  predicate SameButExpiry(a: Row, b: Row) {
    a == b.(expires := a.expires)
  }

  /** Whoever read a row under a token still current has read the row as it is, but for the expiry of its lease. */
  ghost predicate ReaderOk(w: Jobs, rd: Reader) {
    && rd.job < |w.rows|
    && (rd.held.Some? ==> rd.held.value < w.issued)
    && (rd.copy.token.Some? ==> rd.copy.token.value < w.issued)
    && (rd.copy.token.Some? <==> rd.copy.state.Running?)
    && (w.rows[rd.job].token.Some? && (w.rows[rd.job].token == rd.held || w.rows[rd.job].token == rd.copy.token) ==>
          SameButExpiry(rd.copy, w.rows[rd.job]))
  }

  ghost predicate Inv(w: Jobs) {
    && |w.claims| == w.issued
    && (forall job | 0 <= job < |w.rows| :: RowOk(w, job))
    && (forall n | n in w.readers :: ReaderOk(w, w.readers[n]))
    && (forall c | c in w.log :: c.job < |w.rows|)
  }

  lemma {:induction false} NoChangeYet(log: seq<Change>, job: nat)
    requires forall c | c in log :: c.job != job
    ensures LastChange(log, job).None? && ClaimsOf(log, job) == 0
  {
    if log != [] {
      NoChangeYet(log[..|log| - 1], job);
    }
  }

  lemma LogAppend(log: seq<Change>, c: Change)
    ensures forall job ::
              LastChange(log + [c], job) == if c.job == job && !c.RenewedBy? then Some(c) else LastChange(log, job)
    ensures forall job :: ClaimsOf(log + [c], job) == ClaimsOf(log, job) + if c.ClaimedBy? && c.job == job then 1 else 0
  {
    assert (log + [c])[..|log|] == log;
  }

  lemma InsertKeeps(w: Jobs, document: Document)
    requires Inv(w)
    ensures Inv(Insert(w, document))
  {
    hide LastChange, ClaimsOf;
    var v := Insert(w, document);
    assert forall job | 0 <= job < |w.rows| :: v.rows[job] == w.rows[job];
    NoChangeYet(w.log, |w.rows|);
    forall job | 0 <= job < |v.rows| ensures RowOk(v, job) {
      if job < |w.rows| { assert RowOk(w, job); }
    }
    forall n | n in v.readers ensures ReaderOk(v, v.readers[n]) {
      assert ReaderOk(w, w.readers[n]);
    }
  }

  lemma ClaimKeeps(w: Jobs, owner: string, leaseSeconds: nat, now: int)
    requires Inv(w)
    ensures Inv(ClaimNext(w, owner, leaseSeconds, now))
  {
    hide LastChange, ClaimsOf, FindClaimable;
    var v := ClaimNext(w, owner, leaseSeconds, now);
    if FindClaimable(w.rows, now, w.maxAttempts).Some? {
      var claimed := FindClaimable(w.rows, now, w.maxAttempts).value;
      LogAppend(w.log, ClaimedBy(claimed, w.issued));
      forall job | 0 <= job < |v.rows| ensures RowOk(v, job) {
        assert RowOk(w, job);
      }
      forall n | n in v.readers ensures ReaderOk(v, v.readers[n]) {
        assert ReaderOk(w, w.readers[n]);
      }
    }
  }

  lemma RenewKeeps(w: Jobs, job: nat, owner: string, token: nat, expires: int)
    requires Inv(w)
    ensures Inv(Renew(w, job, owner, token, expires))
  {
    hide LastChange, ClaimsOf;
    var v := Renew(w, job, owner, token, expires);
    if v != w {
      LogAppend(w.log, RenewedBy(job, token));
      forall j | 0 <= j < |v.rows| ensures RowOk(v, j) {
        assert RowOk(w, j);
      }
      forall n | n in v.readers ensures ReaderOk(v, v.readers[n]) {
        assert ReaderOk(w, w.readers[n]);
      }
    }
  }

  lemma ReleaseKeeps(w: Jobs, job: nat, token: nat, now: int)
    requires Inv(w)
    ensures Inv(Release(w, job, token, now))
  {
    hide LastChange, ClaimsOf;
    var v := Release(w, job, token, now);
    if v != w {
      LogAppend(w.log, ReleasedFrom(job, token));
      forall j | 0 <= j < |v.rows| ensures RowOk(v, j) {
        assert RowOk(w, j);
      }
      forall n | n in v.readers ensures ReaderOk(v, v.readers[n]) {
        assert ReaderOk(w, w.readers[n]);
      }
    }
  }

  lemma ReadKeeps(w: Jobs, reader: nat, job: nat, held: Option<nat>)
    requires Inv(w)
    ensures Inv(Read(w, reader, job, held))
  {
    hide LastChange, ClaimsOf;
    var v := Read(w, reader, job, held);
    if v != w {
      assert RowOk(w, job);
      forall j | 0 <= j < |v.rows| ensures RowOk(v, j) {
        assert RowOk(w, j);
      }
      forall n | n in v.readers ensures ReaderOk(v, v.readers[n]) {
        if n != reader { assert ReaderOk(w, w.readers[n]); }
      }
    }
  }

  /** A row replaced by one without a token, either over for good or with the attempts it had. */
  lemma OverwriteKeeps(w: Jobs, job: nat, expected: Option<nat>, record: Row)
    requires Inv(w) && record.token.None? && !record.state.Running?
    requires GuardPasses(w, job, expected) && record.state.Pending? ==>
             record.attempts == w.rows[job].attempts && !w.rows[job].state.Done?
    ensures Inv(Overwrite(w, job, expected, record))
  {
    hide LastChange, ClaimsOf;
    var v := Overwrite(w, job, expected, record);
    if GuardPasses(w, job, expected) {
      LogAppend(w.log, Overwritten(job));
      forall j | 0 <= j < |v.rows| ensures RowOk(v, j) {
        assert RowOk(w, j);
      }
      forall n | n in v.readers ensures ReaderOk(v, v.readers[n]) {
        assert ReaderOk(w, w.readers[n]);
      }
    }
  }

  lemma HappenKeeps(w: Jobs, e: Event)
    requires Inv(w)
    ensures Inv(Happen(w, e))
  {
    hide Inv, Insert, ClaimNext, Renew, Release, Read, Overwrite;
    match e
    case Inserted(document) => InsertKeeps(w, document);
    case ClaimRequested(owner, leaseSeconds, now) => ClaimKeeps(w, owner, leaseSeconds, now);
    case RenewRequested(job, owner, token, expires) => RenewKeeps(w, job, owner, token, expires);
    case ReleaseRequested(job, token, now) => ReleaseKeeps(w, job, token, now);
    case RowRead(reader, job, held) => ReadKeeps(w, reader, job, held);
    case WorkerWrote(reader, verdict) =>
      if reader in w.readers && w.readers[reader].held.Some?
          && VerdictAllowed(w.readers[reader].copy, verdict, w.maxAttempts) {
        var rd := w.readers[reader];
        HeldRowIsCopy(w, reader);
        OverwriteKeeps(w, rd.job, rd.held, Judged(rd.copy, verdict));
      }
    case CancelWrote(reader) =>
      if reader in w.readers && !w.readers[reader].copy.state.Done? {
        OverwriteKeeps(w, w.readers[reader].job, None, Finalized(w.readers[reader].copy, "cancelled", None));
      }
    case ReconcileWrote(reader, outcome, error) =>
      if reader in w.readers && !w.readers[reader].copy.state.Done? {
        var rd := w.readers[reader];
        OverwriteKeeps(w, rd.job, if rd.copy.state.Running? then rd.copy.token
                       else None, Finalized(rd.copy, outcome, error));
      }
  }

  /** A row that passes a reader's guard is the row it read, but for the expiry. */
  lemma HeldRowIsCopy(w: Jobs, reader: nat)
    requires Inv(w) && reader in w.readers
    ensures var rd := w.readers[reader];
      && (rd.held.Some? && GuardPasses(w, rd.job, rd.held) ==>
            SameButExpiry(rd.copy, w.rows[rd.job])
                && LastChange(w.log, rd.job) == Some(ClaimedBy(rd.job, rd.held.value)))
      && (rd.copy.token.Some? && GuardPasses(w, rd.job, rd.copy.token) ==>
            SameButExpiry(rd.copy, w.rows[rd.job])
                && LastChange(w.log, rd.job) == Some(ClaimedBy(rd.job, rd.copy.token.value)))
  {
    hide LastChange, ClaimsOf;
    var rd := w.readers[reader];
    assert ReaderOk(w, rd) && RowOk(w, rd.job);
  }

  lemma LimitStays(w: Jobs, e: Event)
    ensures Happen(w, e).maxAttempts == w.maxAttempts
  {
    hide FindClaimable, Judged;
  }

  // ----- over every run -----

  lemma {:induction false} RunKeeps(w: Jobs, events: seq<Event>)
    requires Inv(w)
    ensures Inv(Run(w, events)) && Run(w, events).maxAttempts == w.maxAttempts
    decreases |events|
  {
    hide Inv, Happen;
    if events != [] {
      HappenKeeps(w, events[0]);
      LimitStays(w, events[0]);
      RunKeeps(Happen(w, events[0]), events[1..]);
    }
  }

  /** A worker's write goes through only while nothing but renewals has happened since its claim, and what it
      overwrites is then the row it read, but for the expiry of the lease. */
  lemma GuardedWritesAreFenced(maxAttempts: nat, events: seq<Event>, reader: nat, v: Verdict)
    requires var w := Run(Empty(maxAttempts), events);
      reader in w.readers && w.readers[reader].held.Some? && VerdictAllowed(w.readers[reader].copy, v, w.maxAttempts)
          && WorkerWrite(w, reader, v) != w
    ensures var w := Run(Empty(maxAttempts), events);
      var rd := w.readers[reader];
      && rd.job < |w.rows| && LastChange(w.log, rd.job) == Some(ClaimedBy(rd.job, rd.held.value))
         && SameButExpiry(rd.copy, w.rows[rd.job])
  {
    hide Run, LastChange, ClaimsOf, SameButExpiry;
    var w := Run(Empty(maxAttempts), events);
    RunKeeps(Empty(maxAttempts), events);
    HeldRowIsCopy(w, reader);
  }

  /** The same of a reconcile that read a running row. */
  lemma GuardedReconcilesAreFenced(maxAttempts: nat, events: seq<Event>, reader: nat, outcome: string,
                                   error: Option<string>)
    requires var w := Run(Empty(maxAttempts), events);
      reader in w.readers && w.readers[reader].copy.state.Running? && ReconcileWrite(w, reader, outcome, error) != w
    ensures var w := Run(Empty(maxAttempts), events);
      var rd := w.readers[reader];
      && rd.job < |w.rows| && rd.copy.token.Some?
         && LastChange(w.log, rd.job) == Some(ClaimedBy(rd.job, rd.copy.token.value))
      && SameButExpiry(rd.copy, w.rows[rd.job])
  {
    hide Run, LastChange, ClaimsOf, SameButExpiry;
    var w := Run(Empty(maxAttempts), events);
    RunKeeps(Empty(maxAttempts), events);
    assert ReaderOk(w, w.readers[reader]);
    HeldRowIsCopy(w, reader);
  }

  /** A job is claimed at most as often as attempts allow, whatever stale writes do to its row. */
  lemma ClaimsAreBounded(maxAttempts: nat, events: seq<Event>, job: nat)
    requires job < |Run(Empty(maxAttempts), events).rows|
    ensures ClaimsOf(Run(Empty(maxAttempts), events).log, job) <= maxAttempts
  {
    hide Run, LastChange, ClaimsOf;
    RunKeeps(Empty(maxAttempts), events);
    assert RowOk(Run(Empty(maxAttempts), events), job);
  }

  /** A terminal row may be overwritten by a stale unguarded write, but only by another terminal row. */
  lemma {:induction false} TerminalStaysTerminal(w: Jobs, events: seq<Event>, job: nat)
    requires Inv(w) && job < |w.rows| && w.rows[job].state.Done?
    ensures job < |Run(w, events).rows| && Run(w, events).rows[job].state.Done?
    decreases |events|
  {
    hide Inv, Happen;
    if events != [] {
      TerminalAfter(w, events[0], job);
      HappenKeeps(w, events[0]);
      TerminalStaysTerminal(Happen(w, events[0]), events[1..], job);
    }
  }

  lemma TerminalAfter(w: Jobs, e: Event, job: nat)
    requires Inv(w) && job < |w.rows| && w.rows[job].state.Done?
    ensures job < |Happen(w, e).rows| && Happen(w, e).rows[job].state.Done?
  {
    hide LastChange, ClaimsOf, FindClaimable, Inv;
    if e.ClaimRequested? && FindClaimable(w.rows, e.now, w.maxAttempts).Some? {
      assert Claimable(w.rows[FindClaimable(w.rows, e.now, w.maxAttempts).value], e.now, w.maxAttempts);
    }
  }

  // ----- when a terminal row is overwritten -----

  /** A write without a token in its guard: a cancel, or a reconcile of a row read pending. */
  predicate Unguarded(e: Event, copy: Row) {
    (e.CancelWrote? && !copy.state.Done?) || (e.ReconcileWrote? && copy.state.Pending?)
  }

  /** A terminal row is overwritten by exactly the unguarded writes of those who read it before it was terminal;
      nothing else touches it. */
  lemma TerminalOverwrittenIff(w: Jobs, e: Event, job: nat)
    requires Inv(w) && job < |w.rows| && w.rows[job].state.Done?
    ensures var v := Happen(w, e);
      var overwritten := (e.CancelWrote? || e.ReconcileWrote?) && e.reader in w.readers
          && w.readers[e.reader].job == job
                         && Unguarded(e, w.readers[e.reader].copy);
      && w.log <= v.log
      && (overwritten <==> Overwritten(job) in v.log[|w.log|..])
      && (if overwritten
          then v.rows[job] == Finalized(w.readers[e.reader].copy, if e.CancelWrote? then "cancelled" else e.outcome,
                                        if e.CancelWrote? then None else e.error)
          else job < |v.rows| && v.rows[job] == w.rows[job])
  {
    hide LastChange, ClaimsOf, FindClaimable, Judged, Finalized, Requeued, Claimed;
    assert RowOk(w, job);
    forall n | n in w.readers ensures ReaderOk(w, w.readers[n]) {
    }
    if e.ClaimRequested? && FindClaimable(w.rows, e.now, w.maxAttempts).Some? {
      assert Claimable(w.rows[FindClaimable(w.rows, e.now, w.maxAttempts).value], e.now, w.maxAttempts);
    }
  }

  /** Someone still holds a record of the job from before it was terminal, and may write it without a token. */
  ghost predicate StaleCopy(w: Jobs, job: nat) {
    exists n :: n in w.readers && w.readers[n].job == job && !w.readers[n].copy.state.Done?
  }

  /** Nothing has overwritten the job between two states, and its row is the same. */
  ghost predicate StaysTerminal(w: Jobs, v: Jobs, job: nat) {
    && job < |w.rows| && job < |v.rows| && v.rows[job] == w.rows[job]
    && w.log <= v.log && Overwritten(job) !in v.log[|w.log|..]
  }

  /** Over every run from there on, a terminal row is sure to stay exactly as it is when no such record is out, and
      only then. */
  lemma TerminalIsFinalIff(w: Jobs, job: nat)
    requires Inv(w) && job < |w.rows| && w.rows[job].state.Done?
    ensures (forall events :: StaysTerminal(w, Run(w, events), job)) <==> !StaleCopy(w, job)
  {
    hide Inv, Happen;
    if StaleCopy(w, job) {
      var n :| n in w.readers && w.readers[n].job == job && !w.readers[n].copy.state.Done?;
      TerminalOverwrittenIff(w, CancelWrote(n), job);
      var v := Happen(w, CancelWrote(n));
      assert Run(w, [CancelWrote(n)]) == v;
      assert !StaysTerminal(w, Run(w, [CancelWrote(n)]), job);
    } else {
      forall events ensures StaysTerminal(w, Run(w, events), job) {
        TerminalStaysWithout(w, events, job);
      }
    }
  }

  lemma {:induction false} TerminalStaysWithout(w: Jobs, events: seq<Event>, job: nat)
    requires Inv(w) && job < |w.rows| && w.rows[job].state.Done? && !StaleCopy(w, job)
    ensures StaysTerminal(w, Run(w, events), job)
    decreases |events|
  {
    hide Inv, Happen, StaleCopy;
    if events != [] {
      var v := Happen(w, events[0]);
      HappenKeeps(w, events[0]);
      TerminalEventWithout(w, events[0], job);
      TerminalStaysWithout(v, events[1..], job);
      var all := Run(v, events[1..]).log;
      assert all[|w.log|..] == v.log[|w.log|..] + all[|v.log|..];
    }
  }

  /** No copy read from now on is stale. */
  lemma TerminalEventWithout(w: Jobs, e: Event, job: nat)
    requires Inv(w) && job < |w.rows| && w.rows[job].state.Done? && !StaleCopy(w, job)
    ensures var v := Happen(w, e);
      StaysTerminal(w, v, job) && !StaleCopy(v, job)
  {
    hide Inv, LastChange, ClaimsOf, FindClaimable, Judged, Finalized, Requeued, Claimed;
    TerminalOverwrittenIff(w, e, job);
  }

  lemma {:induction false} RunSnoc(w: Jobs, s: seq<Event>, e: Event)
    ensures Run(w, s + [e]) == Happen(Run(w, s), e)
    decreases |s|
  {
    hide Happen;
    if s == [] {
      assert s + [e] == [e];
    } else {
      assert (s + [e])[1..] == s[1..] + [e];
      RunSnoc(Happen(w, s[0]), s[1..], e);
    }
  }

  /** An unguarded cancel can replace a completed row: it read the job pending, a worker then claimed and completed
      it. */
  lemma CancelMayOverwriteCompletion(maxAttempts: nat, document: Document) returns (events: seq<Event>)
    requires maxAttempts >= 1
    ensures |Run(Empty(maxAttempts), events).rows| == 1
            && Run(Empty(maxAttempts), events).rows[0].state == Done("completed")
    ensures |CancelWrite(Run(Empty(maxAttempts), events), 0).rows| == 1
            && CancelWrite(Run(Empty(maxAttempts), events), 0).rows[0].state == Done("cancelled")
  {
    var a := Happen(Empty(maxAttempts), Inserted(document));
    var b := Happen(a, RowRead(0, 0, None));
    var c := Happen(b, ClaimRequested("worker", 60, 0));
    var d := Happen(c, RowRead(1, 0, Some(0)));
    assert FindClaimable(b.rows, 0, maxAttempts) == Some(0);
    events := [];
    RunSnoc(Empty(maxAttempts), events, Inserted(document));
    events := events + [Inserted(document)];
    RunSnoc(Empty(maxAttempts), events, RowRead(0, 0, None));
    events := events + [RowRead(0, 0, None)];
    RunSnoc(Empty(maxAttempts), events, ClaimRequested("worker", 60, 0));
    events := events + [ClaimRequested("worker", 60, 0)];
    RunSnoc(Empty(maxAttempts), events, RowRead(1, 0, Some(0)));
    events := events + [RowRead(1, 0, Some(0))];
    RunSnoc(Empty(maxAttempts), events, WorkerWrote(1, Finish("completed", None, None)));
    events := events + [WorkerWrote(1, Finish("completed", None, None))];
  }

  // ----- the store as it works -----

  class JobStore {
    const maxAttempts: nat
    var rows: seq<Row>
    var issued: nat
    // Histories, and the records others have read.
    var claims: seq<nat>
    var readers: map<nat, Reader>
    var log: seq<Change>

    function View(): Jobs
      reads this
    {
      Jobs(maxAttempts, rows, issued, claims, readers, log)
    }

    constructor (maxAttempts: nat)
      ensures View() == Empty(maxAttempts)
    {
      this.maxAttempts := maxAttempts;
      rows, issued, claims, readers, log := [], 0, [], map[], [];
    }

    /** `claim_next`: the first claimable row, if it is still as it was selected. */
    method ClaimFirst(owner: string, leaseSeconds: nat, now: int) returns (claimed: Option<Row>)
      modifies this
      ensures View() == ClaimNext(old(View()), owner, leaseSeconds, now)
      ensures claimed.Some? <==> exists i :: 0 <= i < |old(rows)| && Claimable(old(rows)[i], now, maxAttempts)
      ensures claimed.Some? ==> claimed.value.token == Some(old(issued)) && claimed.value in rows
    {
      var k := 0;
      while k < |rows| && !Claimable(rows[k], now, maxAttempts)
        invariant 0 <= k <= |rows|
        invariant forall i | 0 <= i < k :: !Claimable(rows[i], now, maxAttempts)
      {
        k := k + 1;
      }
      if k == |rows| {
        return None;
      }
      assert FindClaimable(rows, now, maxAttempts) == Some(k);
      var record := rows[k];
      var token := issued;
      record := record.(state := Running, attempts := record.attempts + 1);
      record := record.(owner := Some(owner), expires := Some(now + leaseSeconds), token := Some(token));
      record := record.(document := record.document.(state := Running, run := Some(token)));
      rows := rows[k := record];
      issued, claims, log := issued + 1, claims + [k], log + [ClaimedBy(k, token)];
      assert rows[k] == record;
      claimed := Some(record);
    }

    /** `renew_lease`. */
    method RenewLease(job: nat, owner: string, token: nat, expires: int) returns (renewed: bool)
      modifies this
      ensures View() == Renew(old(View()), job, owner, token, expires)
      ensures renewed <==> job < |old(rows)| && Holds(old(rows)[job], owner, token)
    {
      renewed := job < |rows| && Holds(rows[job], owner, token);
      if renewed {
        rows := rows[job := rows[job].(expires := Some(expires))];
        log := log + [RenewedBy(job, token)];
      }
    }

    /** `release_expired_lease`. */
    method ReleaseLease(job: nat, token: nat, now: int) returns (released: bool)
      modifies this
      ensures View() == Release(old(View()), job, token, now)
      ensures released <==> job < |old(rows)| && old(rows)[job].state.Running? && old(rows)[job].token == Some(token)
                            && old(rows)[job].expires.Some? && old(rows)[job].expires.value < now
    {
      if job >= |rows| {
        return false;
      }
      var record := rows[job];
      if !record.state.Running? || record.token != Some(token) || record.expires.None? || record.expires.value >= now {
        return false;
      }
      record := record.(document := record.document.(state := Pending));
      record := record.(state := Pending, owner := None, expires := None, token := None);
      rows := rows[job := record];
      log := log + [ReleasedFrom(job, token)];
      released := true;
    }

    /** `update`. */
    method Update(job: nat, expected: Option<nat>, record: Row) returns (updated: bool)
      modifies this
      ensures View() == Overwrite(old(View()), job, expected, record)
              && updated == GuardPasses(old(View()), job, expected)
    {
      updated := job < |rows| && (expected.None? || (rows[job].token == expected && rows[job].state.Running?));
      if updated {
        rows := rows[job := record];
        log := log + [Overwritten(job)];
      }
    }

    /** `_finalize`: the record, field by field, and then the guarded update. */
    method FinalizeRecord(job: nat, r: Row, outcome: string, error: Option<string>, expected: Option<nat>)
        returns (applied: bool)
      modifies this
      ensures View() == Overwrite(old(View()), job, expected, Finalized(r, outcome, error))
              && applied == GuardPasses(old(View()), job, expected)
    {
      var document := r.document.(state := Done(outcome));
      document := document.(staging := None);
      document := document.(error := error);
      var record := r.(state := Done(outcome), document := document);
      record := record.(owner := None, expires := None, token := None);
      applied := Update(job, expected, record);
    }

    /** `cancel`, after its read: refused for a record that was terminal, otherwise finalized without a guard. */
    method CancelJob(reader: nat) returns (cancelled: bool)
      requires reader in readers
      modifies this
      ensures View() == CancelWrite(old(View()), reader)
      ensures cancelled <==> !old(readers)[reader].copy.state.Done?
    {
      var r := readers[reader];
      if r.copy.state.Done? {
        return false;
      }
      var applied := FinalizeRecord(r.job, r.copy, "cancelled", None, None);
      cancelled := true;
    }

    /** `_reconcile_finalize`, after the read of `reconcile`. */
    method ReconcileFinalize(reader: nat, outcome: string, error: Option<string>) returns (applied: bool)
      requires reader in readers
      modifies this
      ensures View() == ReconcileWrite(old(View()), reader, outcome, error)
    {
      var r := readers[reader];
      if r.copy.state.Done? {
        return false;
      }
      var token := if r.copy.state.Running? then r.copy.token else None;
      applied := FinalizeRecord(r.job, r.copy, outcome, error, token);
    }

    /** `_maybe_retry_or_fail` of a worker, from the record it read last: requeued below the attempt limit, failed at
        it. */
    method RetryOrFail(reader: nat, error: Option<string>) returns (applied: bool)
      requires reader in readers && readers[reader].held.Some?
      modifies this
      ensures var copy := old(readers)[reader].copy;
        View() == WorkerWrite(old(View()), reader,
                              if copy.attempts < maxAttempts then Requeue else Finish("failed", error, copy.result))
    {
      var r := readers[reader];
      if r.copy.attempts < maxAttempts {
        var record := r.copy.(state := Pending);
        record := record.(owner := None, expires := None, token := None);
        record := record.(document := record.document.(state := Pending));
        applied := Update(r.job, r.held, record);
      } else {
        applied := FinalizeRecord(r.job, r.copy, "failed", error, r.held);
      }
    }
  }
}
