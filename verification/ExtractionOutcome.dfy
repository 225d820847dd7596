/** How an extraction ends and what its log holds, read off the ranges that were staged; and exactly when a range is
    accepted. */
module ExtractionOutcome {
  import opened Wrappers
  import opened DependencyGraph
  import opened ContinuableExtraction
  import opened ExtractionLog
  import opened ExtractionService

  // ----- the accumulated disposition -----

  /** The last range that ruled out complete coverage. */
  ghost predicate LastIncomplete(log: seq<AcceptedRange>, i: nat) {
    i < |log| && Incomplete(log[i]) && forall j | i < j < |log| :: !Incomplete(log[j])
  }

  /** The accumulated disposition is that of the last range that ruled out complete coverage; complete if none did. */
  lemma {:induction false} DispositionIsLast(log: seq<AcceptedRange>)
    ensures forall i: nat | LastIncomplete(log, i) :: CoverageOf(log).disposition == log[i].disposition
    ensures (forall i | 0 <= i < |log| :: !Incomplete(log[i])) ==> CoverageOf(log).disposition.Whole?
  {
    if log != [] {
      var last := |log| - 1;
      DispositionIsLast(log[..last]);
      assert forall i | 0 <= i < last :: log[..last][i] == log[i];
      forall i: nat | LastIncomplete(log, i) ensures CoverageOf(log).disposition == log[i].disposition {
        if i < last {
          assert LastIncomplete(log[..last], i);
        }
      }
    }
  }

  lemma {:induction false} SomeLastIncomplete(log: seq<AcceptedRange>) returns (i: nat)
    requires exists k :: 0 <= k < |log| && Incomplete(log[k])
    ensures LastIncomplete(log, i)
  {
    var last := |log| - 1;
    if Incomplete(log[last]) {
      i := last;
    } else {
      var k :| 0 <= k < |log| && Incomplete(log[k]);
      assert log[..last][k] == log[k];
      i := SomeLastIncomplete(log[..last]);
      assert forall j | 0 <= j < last :: log[..last][j] == log[j];
    }
  }

  ghost predicate EverIncomplete(log: seq<AcceptedRange>) {
    exists k :: 0 <= k < |log| && Incomplete(log[k])
  }

  /** The last range that ruled out complete coverage had this disposition. */
  ghost predicate RuledOutBy(log: seq<AcceptedRange>, d: Disposition) {
    exists i: nat :: LastIncomplete(log, i) && log[i].disposition == d
  }

  lemma RuledOutIff(log: seq<AcceptedRange>, d: Disposition)
    requires !d.Whole?
    ensures RuledOutBy(log, d) <==> CoverageOf(log).disposition == d
  {
    DispositionIsLast(log);
    if CoverageOf(log).disposition == d {
      var i := SomeLastIncomplete(log);
    }
  }

  /** The reason an operation ended for by a range, and the coverage it reports: unsupported exactly when the last range
      that ruled out complete coverage was; completed exactly when none did and the last one is complete. */
  lemma EndedForReason(first: string, e: Extraction)
    requires Good(first, e) && EndedByRange(e.ranges)
    ensures e.reason == Some("UNSUPPORTED_PROJECTION") <==> RuledOutBy(e.ranges, Unsupported)
    ensures e.reason == Some("COMPLETED") <==>
            !EverIncomplete(e.ranges) && e.ranges[|e.ranges| - 1].disposition.Whole?
    ensures e.reason == Some("INCOMPLETE_PROJECTION") <==>
            || RuledOutBy(e.ranges, PartialUnknown) || RuledOutBy(e.ranges, PartialKnown)
            || (!EverIncomplete(e.ranges) && !e.ranges[|e.ranges| - 1].disposition.Whole?)
    ensures e.state == if e.reason == Some("COMPLETED") then Completed else Failed
    ensures e.terminal.Some? && ReceiptOf(e).coverage == e.terminal.value.disposition
    ensures forall d: Disposition | !d.Whole? :: e.terminal.value.disposition == d <==> RuledOutBy(e.ranges, d)
  {
    hide Valid, CoverageOf, Gapless, LastIncomplete;
    assert e.coverage == CoverageOf(e.ranges) by { GoodCoverage(first, e); }
    forall d: Disposition | !d.Whole? ensures RuledOutBy(e.ranges, d) <==> e.coverage.disposition == d {
      RuledOutIff(e.ranges, d);
    }
    WholeUnlessIncomplete(e.ranges);
  }

  // ----- the log is what was staged -----

  /** An accepted range shows what was staged, with the defaults for what was not said. */
  predicate Shows(r: AcceptedRange, t: Transition) {
    && r.request.descriptor == t.request && r.artifact == t.artifact && r.payload == t.payload
    && r.blocks == t.blocks && r.bytes == t.bytes && r.omissions == t.omissions && r.semantic == t.semantic
    && r.ocr == t.ocr && r.terminal == t.next.None?
    && (t.next.Some? ==> r.next == Some(RangeDigest(t.next.value)))
    && r.response.descriptor == (if t.response.Some? then t.response.value else t.request)
    && (t.disposition.Some? ==> r.disposition == t.disposition.value)
    && (t.disposition.None? && t.next.Some? ==> r.disposition.PartialKnown?)
    && (t.disposition.None? && t.next.None? ==> r.disposition.PartialUnknown?)
  }

  ghost predicate LogShows(w: Tables, id: string)
    requires id in w.operations
  {
    forall r | r in w.operations[id].state.ranges ::
      StagedKey(id, r.key) in w.staged && Shows(r, w.staged[StagedKey(id, r.key)].transition)
  }

  ghost predicate LogsShow(w: Tables) {
    forall id | id in w.operations && Fresh(w.operations[id].created) :: LogShows(w, id)
  }

  lemma SameLogShows(w: Tables, v: Tables, id: string)
    requires Evolves(w, v) && id in w.operations && LogShows(w, id)
    requires id in v.operations && v.operations[id].state.ranges == w.operations[id].state.ranges
    ensures LogShows(v, id)
  {
    hide Shows;
  }

  lemma AcceptAddsRange(e: Extraction, expectedRevision: nat, key: string, t: Transition)
    requires Accept(e, expectedRevision, key, t).Ok?
    ensures var next := Accept(e, expectedRevision, key, t).value;
      next == e || next.ranges == e.ranges + [RangeOf(t, |e.ranges| + 1, key)]
  {
    hide Valid, RangeFault, Accumulate, SameRange, RangeOf;
  }

  lemma RangeShows(t: Transition, sequence: nat, key: string)
    ensures Shows(RangeOf(t, sequence, key), t) && RangeOf(t, sequence, key).key == key
  {
  }

  lemma AcceptedShows(w: Tables, id: string, key: string)
    requires Inv(w) && LogsShow(w) && AcceptStaged(w, id, key).Ok? && Fresh(w.operations[id].created)
    ensures id in AcceptStaged(w, id, key).value.operations && LogShows(AcceptStaged(w, id, key).value, id)
  {
    hide Inv, Accept, ReceiptFor, AcceptStaged, Fresh, Shows, RangeOf, Evolves;
    AcceptStagedFinds(w, id, key);
    AcceptStagedKeeps(w, id, key);
    var s := w.staged[StagedKey(id, key)];
    if s.accepted.None? {
      AcceptedShape(w, id, key);
      var e, v := w.operations[id].state, AcceptStaged(w, id, key).value;
      AcceptAddsRange(e, s.expectedRevision, key, s.transition);
      RangeShows(s.transition, |e.ranges| + 1, key);
      assert LogShows(w, id);
      forall r | r in v.operations[id].state.ranges
        ensures StagedKey(id, r.key) in v.staged && Shows(r, v.staged[StagedKey(id, r.key)].transition)
      {
        assert r in e.ranges || r == RangeOf(s.transition, |e.ranges| + 1, key);
      }
    }
  }

  /** No other request adds a range. */
  lemma OthersAddNothing(w: Tables, r: Request, id: string)
    requires Serve(w, r).Ok? && id in w.operations && id in Serve(w, r).value.operations
    requires !(r.AcceptStagedRange? && r.id == id)
    ensures Serve(w, r).value.operations[id].state.ranges == w.operations[id].state.ranges
  {
    hide Valid, ValidReceipt, Accept, StableCode;
  }

  lemma NewOperationIsEmpty(w: Tables, r: Request, id: string)
    requires Serve(w, r).Ok? && id !in w.operations && id in Serve(w, r).value.operations
    ensures Serve(w, r).value.operations[id].created == Serve(w, r).value.operations[id].state
  {
    hide Valid, ValidReceipt, Accept, StableCode;
  }

  lemma ServeShows(w: Tables, r: Request)
    requires Inv(w) && LogsShow(w) && Serve(w, r).Ok?
    ensures LogsShow(Serve(w, r).value)
  {
    hide Inv, Evolves, Serve, Fresh, LogShows;
    ServeKeeps(w, r);
    var v := Serve(w, r).value;
    forall id | id in v.operations && Fresh(v.operations[id].created) ensures LogShows(v, id) {
      if id !in w.operations {
        NewOperationIsEmpty(w, r, id);
        FreshIsEmpty(v, id);
      } else if r.AcceptStagedRange? && r.id == id {
        CreatedStays(w, v, id);
        assert v == AcceptStaged(w, id, r.key).value by { ServesAcceptance(w, r); }
        AcceptedShows(w, id, r.key);
      } else {
        OthersAddNothing(w, r, id);
        CreatedStays(w, v, id);
        SameLogShows(w, v, id);
      }
    }
  }

  lemma ServesAcceptance(w: Tables, r: Request)
    requires r.AcceptStagedRange?
    ensures Serve(w, r) == AcceptStaged(w, r.id, r.key)
  {
  }

  lemma CreatedStays(w: Tables, v: Tables, id: string)
    requires Evolves(w, v) && id in w.operations
    ensures id in v.operations && v.operations[id].created == w.operations[id].created
  {
  }

  lemma FreshIsEmpty(v: Tables, id: string)
    requires id in v.operations && v.operations[id].created == v.operations[id].state && Fresh(v.operations[id].created)
    ensures LogShows(v, id)
  {
  }

  lemma {:induction false} RunShows(w: Tables, requests: seq<Request>)
    requires Inv(w) && LogsShow(w)
    ensures LogsShow(Run(w, requests))
    decreases |requests|
  {
    hide Inv, Evolves, Serve, LogsShow;
    if requests != [] {
      if Serve(w, requests[0]).Err? {
        RunShows(w, requests[1..]);
      } else {
        ServeKeeps(w, requests[0]);
        ServeShows(w, requests[0]);
        RunShows(Serve(w, requests[0]).value, requests[1..]);
      }
    }
  }

  /** Over every run, the log of an operation holds what was staged, field by field, at the key it was staged under. */
  lemma LogIsStaged(requests: seq<Request>, id: string, i: nat)
    requires id in Run(EMPTY, requests).operations && Fresh(Run(EMPTY, requests).operations[id].created)
    requires i < |Run(EMPTY, requests).operations[id].state.ranges|
    ensures var w := Run(EMPTY, requests);
      var r := w.operations[id].state.ranges[i];
      && StagedKey(id, r.key) in w.staged && w.staged[StagedKey(id, r.key)].accepted.Some?
      && Shows(r, w.staged[StagedKey(id, r.key)].transition)
  {
    hide Run, Inv, Shows, Fresh;
    EmptyHolds();
    RunShows(EMPTY, requests);
    assert LogShows(Run(EMPTY, requests), id);
    StagedExactlyOnce(requests, id, Run(EMPTY, requests).operations[id].state.ranges[i].key);
  }

  /** Over every run, what an operation that a range ended reports follows from its log. */
  lemma ReportFollowsLog(requests: seq<Request>, id: string)
    requires id in Run(EMPTY, requests).operations && Fresh(Run(EMPTY, requests).operations[id].created)
    requires EndedByRange(Run(EMPTY, requests).operations[id].state.ranges)
    ensures var row := Run(EMPTY, requests).operations[id];
      && row.receipt.Some? && var r, log := row.receipt.value, row.state.ranges;
         && (r.reason == "UNSUPPORTED_PROJECTION" <==> RuledOutBy(log, Unsupported))
         && (r.reason == "COMPLETED" <==> !EverIncomplete(log) && log[|log| - 1].disposition.Whole?)
         && r.reason in {"UNSUPPORTED_PROJECTION", "COMPLETED", "INCOMPLETE_PROJECTION"}
         && (forall d: Disposition | !d.Whole? :: r.coverage == d <==> RuledOutBy(log, d))
         && (forall o :: o in r.omissions <==> exists k :: 0 <= k < |log| && o in log[k].omissions)
  {
    hide Run, Inv, Good, RuledOutBy, EverIncomplete, CoverageOf;
    EmptyHolds();
    var w := Run(EMPTY, requests);
    InvGood(w, id);
    var first, e := w.operations[id].created.nextRange.value, w.operations[id].state;
    EndedShape(first, e);
    EndedForReason(first, e);
    OmissionsAreUnion(e.ranges);
  }

  lemma EndedShape(first: string, e: Extraction)
    requires Good(first, e) && EndedByRange(e.ranges)
    ensures !e.state.Pending? && e.reason.Some? && e.terminal == Some(CoverageOf(e.ranges))
    ensures e.reason.value in {"UNSUPPORTED_PROJECTION", "COMPLETED", "INCOMPLETE_PROJECTION"}
  {
    hide Valid, Gapless, CoverageOf;
    GoodCoverage(first, e);
  }

  /** Over every run, the receipt of an operation that is over shows its state, its log and what it consumed. */
  lemma ReceiptShowsRow(requests: seq<Request>, id: string)
    requires id in Run(EMPTY, requests).operations && Fresh(Run(EMPTY, requests).operations[id].created)
    ensures var row := Run(EMPTY, requests).operations[id];
      var e := row.state;
      row.receipt.Some? ==>
        var r := row.receipt.value;
        && e.terminal.Some? && e.reason == Some(r.reason)
        && r == Receipt(row.created.source, e.state, r.reason, e.terminal.value.disposition, e.terminal.value.omissions,
                        e.terminal.value.ocr, e.revision, e.ranges, e.aggregate, e.consumed, row.created.limits)
  {
    hide Run, Inv, Good, ValidReceipt;
    EmptyHolds();
    var w := Run(EMPTY, requests);
    InvGood(w, id);
    RunSources(EMPTY, requests);
    if !w.operations[id].state.state.Pending? {
      ReceiptValidIffReportable(w.operations[id].created.nextRange.value, w.operations[id].state);
      EndedHasReason(w.operations[id].created.nextRange.value, w.operations[id].state);
    }
  }

  lemma EndedHasReason(first: string, e: Extraction)
    requires Good(first, e) && !e.state.Pending?
    ensures e.reason.Some? && e.terminal.Some?
  {
    hide Valid, Gapless;
  }

  /** No request changes which source an operation extracts. */
  ghost predicate SourcesKept(w: Tables) {
    forall id | id in w.operations :: w.operations[id].state.source == w.operations[id].created.source
  }

  lemma ServeKeepsSources(w: Tables, r: Request)
    requires SourcesKept(w) && Serve(w, r).Ok?
    ensures SourcesKept(Serve(w, r).value)
  {
    hide Valid, ValidReceipt, RangeFault, StableCode, Accumulate;
  }

  lemma {:induction false} RunSources(w: Tables, requests: seq<Request>)
    requires Inv(w) && SourcesKept(w)
    ensures SourcesKept(Run(w, requests))
    decreases |requests|
  {
    hide Inv, Evolves, Serve, SourcesKept;
    if requests != [] {
      if Serve(w, requests[0]).Err? {
        RunSources(w, requests[1..]);
      } else {
        ServeKeeps(w, requests[0]);
        ServeKeepsSources(w, requests[0]);
        RunSources(Serve(w, requests[0]).value, requests[1..]);
      }
    }
  }

  // ----- when a staged range is accepted -----

  /** The range the operation waits for, within every budget, complete only on evidence. */
  predicate Acceptable(e: Extraction, expectedRevision: nat, key: string, t: Transition) {
    && e.state.Pending? && e.revision == expectedRevision && e.nextRange == Some(t.request)
    && (t.disposition == Some(Whole) ==> t.next.None? && t.omissions == [] && t.semantic.Some?)
    && |e.ranges| < e.limits.ranges && |e.ranges| < 10000
    && e.consumed.blocks + t.blocks <= e.limits.blocks && e.consumed.bytes + t.bytes <= e.limits.bytes
    && 1 <= |key| <= 256
    && (forall o | o in t.omissions :: o != "")
       && (forall i, j | 0 <= i < j < |t.omissions| :: t.omissions[i] != t.omissions[j])
  }

  lemma OmissionsDistinct(omissions: seq<string>)
    ensures |Elements(omissions)| == |omissions| <==>
            forall i, j | 0 <= i < j < |omissions| :: omissions[i] != omissions[j]
  {
    DistinctCount(omissions);
  }

  lemma NoFaultIff(first: string, e: Extraction, expectedRevision: nat, t: Transition)
    requires EndsAsLogged(first, e)
    ensures RangeFault(e, expectedRevision, t).None? <==>
            && e.state.Pending? && e.revision == expectedRevision && e.nextRange == Some(t.request)
            && (t.disposition == Some(Whole) ==> t.next.None? && t.omissions == [] && t.semantic.Some?)
  {
  }

  lemma RangeFitsIff(first: string, e: Extraction, key: string, t: Transition)
    requires Valid(e) && Folded(first, e) && e.state.Pending?
             && RangeFault(e, e.revision, t).None?
    ensures Valid(WithRange(e, RangeOf(t, |e.ranges| + 1, key), t.next)) <==>
            && |e.ranges| < e.limits.ranges && |e.ranges| < 10000
            && e.consumed.blocks + t.blocks <= e.limits.blocks && e.consumed.bytes + t.bytes <= e.limits.bytes
            && 1 <= |key| <= 256
            && (forall o | o in t.omissions :: o != "")
            && (forall i, j | 0 <= i < j < |t.omissions| :: t.omissions[i] != t.omissions[j])
  {
    hide Folded, Accumulate, UpperCode;
    NaturalReasons();
    OmissionsDistinct(t.omissions);
    var r := RangeOf(t, |e.ranges| + 1, key);
    assert RangeShape(r) <==>
           && 1 <= |key| <= 256 && (forall o | o in t.omissions :: o != "")
           && (forall i, j | 0 <= i < j < |t.omissions| :: t.omissions[i] != t.omissions[j]);
    var log := e.ranges + [r];
    assert (forall x | x in log :: RangeShape(x)) <==> (forall x | x in e.ranges :: RangeShape(x)) && RangeShape(r) by {
      assert log[|e.ranges|] == r;
      assert forall x :: x in log <==> x in e.ranges || x == r;
    }
    assert forall i | 0 <= i < |log| :: log[i].sequence == i + 1;
  }

  /** A staged range not accepted yet is accepted exactly when the operation waits for it at the revision it was staged
      for, every budget has room, it is well formed, and, if it is the last, the omissions fit a receipt. */
  lemma AcceptCommitsIff(w: Tables, id: string, key: string)
    requires Inv(w) && id in w.operations && Fresh(w.operations[id].created) && StagedKey(id, key) in w.staged
    requires w.staged[StagedKey(id, key)].accepted.None?
    ensures var e, s := w.operations[id].state, w.staged[StagedKey(id, key)];
      AcceptStaged(w, id, key).Ok? <==>
      && Acceptable(e, s.expectedRevision, key, s.transition)
      && (s.transition.next.None? ==> ReportableOmissions(e.coverage.omissions + Elements(s.transition.omissions)))
  {
    hide Inv, Good, Valid, ValidReceipt, RangeFault, Acceptable, WithRange, RangeOf, ReportableOmissions;
    InvGood(w, id);
    var first, e, s := w.operations[id].created.nextRange.value, w.operations[id].state, w.staged[StagedKey(id, key)];
    NotInLog(w, id, key);
    AcceptableIff(first, e, s.expectedRevision, key, s.transition);
    if RangeFault(e, s.expectedRevision, s.transition).None? {
      PendingFault(e, s.expectedRevision, s.transition);
      var next := WithRange(e, RangeOf(s.transition, |e.ranges| + 1, key), s.transition.next);
      if Valid(next) {
        AcceptGood(first, e, s.expectedRevision, key, s.transition);
        AcceptedEnding(first, e, key, s.transition);
        if !next.state.Pending? {
          ReceiptValidIffReportable(first, next);
        }
      }
    }
  }

  lemma PendingFault(e: Extraction, expectedRevision: nat, t: Transition)
    requires RangeFault(e, expectedRevision, t).None?
    ensures e.state.Pending?
  {
  }

  lemma AcceptedEnding(first: string, e: Extraction, key: string, t: Transition)
    requires e.state.Pending?
    ensures var next := WithRange(e, RangeOf(t, |e.ranges| + 1, key), t.next);
      && (next.state.Pending? <==> t.next.Some?)
      && (t.next.None? ==>
          next.reason.Some? && next.terminal.Some?
          && next.terminal.value.omissions == e.coverage.omissions + Elements(t.omissions))
  {
  }

  lemma NotInLog(w: Tables, id: string, key: string)
    requires Inv(w) && id in w.operations && Fresh(w.operations[id].created)
    requires StagedKey(id, key) in w.staged && w.staged[StagedKey(id, key)].accepted.None?
    ensures FindRange(w.operations[id].state.ranges, key).None?
  {
    hide Inv, Good, Valid, ValidReceipt;
    InvGood(w, id);
    KeyFound(w.operations[id].state, key);
  }

  lemma AcceptableIff(first: string, e: Extraction, expectedRevision: nat, key: string, t: Transition)
    requires Good(first, e) && FindRange(e.ranges, key).None?
    ensures Accept(e, expectedRevision, key, t).Ok? <==> Acceptable(e, expectedRevision, key, t)
    ensures Valid(e)
    ensures Accept(e, expectedRevision, key, t).Ok? ==>
            && RangeFault(e, expectedRevision, t).None?
            && Accept(e, expectedRevision, key, t).value == WithRange(e, RangeOf(t, |e.ranges| + 1, key), t.next)
  {
    hide Valid, RangeFault, WithRange, RangeOf, FindRange, Folded, EndsAsLogged, Counted;
    NoFaultIff(first, e, expectedRevision, t);
    if RangeFault(e, expectedRevision, t).None? {
      RangeFitsIff(first, e, key, t);
    }
  }

  // ----- creation, staging, stops and retries -----

  /** An operation is created from a valid pending document at revision zero, once; a range is staged for an operation
      as it was sent, once under its key. The same again changes nothing, and anything else under that name is
      refused. */
  lemma CreatesAndStagesOnce(w: Tables, id: string, e: Extraction, expectedRevision: nat, key: string, t: Transition)
    ensures var c := Create(w, id, e);
      && (c.Ok? <==> Valid(e) && e.revision == 0 && e.state.Pending?
                     && (id in w.operations ==> w.operations[id].created == e))
      && (c.Ok? ==> c.value == if id in w.operations then w
                               else w.(operations := w.operations[id := Row(e, e, None)]))
    ensures var s, k := Stage(w, id, expectedRevision, key, t), StagedKey(id, key);
      && (s.Ok? <==> id in w.operations
                     && (k in w.staged ==>
                         w.staged[k].expectedRevision == expectedRevision && w.staged[k].transition == t))
      && (s.Ok? ==> s.value == if k in w.staged then w
                               else w.(staged := w.staged[k := Staged(expectedRevision, t, None)]))
  {
    hide Valid;
  }

  /** A reason that `fail` lets pass: upper-case letters, digits and underscores, not underscores alone; beyond ASCII
      what the tables of Unicode say. */
  predicate PassableReason(reason: string, wide: bool) {
    if forall c | c in reason :: c <= '\U{7F}' then
      (forall c | c in reason :: 'A' <= c <= 'Z' || '0' <= c <= '9' || c == '_') && exists c :: c in reason && c != '_'
    else wide
  }

  /** A stop is accepted of a pending operation exactly at its revision, for a code, while the omissions fit a
      receipt; of one that is over, exactly if it ended that way already, and then changes nothing. */
  lemma StopIff(w: Tables, id: string, expectedRevision: nat, g: Ending)
    requires Inv(w) && (id in w.operations ==> Fresh(w.operations[id].created))
    ensures var t := Terminate(w, id, expectedRevision, g);
      && (t.Ok? <==>
          && (g.Fail? ==> PassableReason(g.reason, g.wide)) && id in w.operations
          && var e := w.operations[id].state;
             if e.state.Pending? then
               expectedRevision == e.revision && UpperCode(EndingReason(g))
               && ReportableOmissions(e.coverage.omissions + {OmissionFor(EndingReason(g))})
             else e.state == match g case Cancel => Cancelled case TimeOut => TimedOut case Fail(_, _) => Failed)
      && (t.Ok? && !w.operations[id].state.state.Pending? ==> t.value == w)
  {
    hide Inv, Fresh, UpperCode, ReportableOmissions, OmissionFor, Valid, Stop, Store, StableCode, PassableReason;
    if g.Fail? {
      PassableIsStable(g.reason, g.wide);
      assert StableCode(g.reason, g.wide) <==> PassableReason(g.reason, g.wide);
    }
    if id in w.operations && w.operations[id].state.state.Pending?
        && expectedRevision == w.operations[id].state.revision {
      StopCommitsIff(w, id, g);
      if UpperCode(EndingReason(g)) && g.Fail? {
        CodeIsStable(g.reason, g.wide);
      }
    }
  }

  lemma PassableIsStable(reason: string, wide: bool)
    ensures StableCode(reason, wide) <==> PassableReason(reason, wide)
  {
  }

  /** A range whose key is in the log already is accepted, without effect, exactly if it is the range accepted then;
      another under that key is a conflict. */
  lemma RepeatedRangeIff(first: string, e: Extraction, expectedRevision: nat, i: nat, t: Transition)
    requires Good(first, e) && i < |e.ranges|
    ensures var r := e.ranges[i];
      Accept(e, expectedRevision, r.key, t) ==
      if r.request.descriptor == t.request && r.artifact == t.artifact && r.payload == t.payload
         && r.response.descriptor == (if t.response.Some? then t.response.value else t.request)
         && r.disposition == (if t.disposition.Some? then t.disposition.value
                              else if t.next.Some? then PartialKnown else PartialUnknown)
         && r.omissions == t.omissions && r.semantic == t.semantic
      then Ok(e) else Err(KeyConflict)
  {
    hide Valid, RangeFault, WithRange, EndsAsLogged, Counted, FindRange;
    var found := FindRange(e.ranges, e.ranges[i].key);
    assert e.ranges[i] in e.ranges;
    var j :| 0 <= j < |e.ranges| && e.ranges[j] == found.value;
  }

  /** What a stop that commits writes. */
  lemma StopWrites(w: Tables, id: string, expectedRevision: nat, g: Ending)
    requires id in w.operations && w.operations[id].state.state.Pending? && Terminate(w, id, expectedRevision, g).Ok?
    ensures var e, v := w.operations[id].state, Terminate(w, id, expectedRevision, g).value;
      && expectedRevision == e.revision && id in v.operations
      && var f := v.operations[id].state;
         && f == e.(revision := e.revision + 1, state := f.state, reason := f.reason, terminal := f.terminal,
                    nextRange := None, nextDigest := None)
         && f.reason.Some? && f.terminal.Some? && f.terminal.value.disposition.PartialUnknown?
         && f.terminal.value.ocr == e.coverage.ocr
         && match g
            case Cancel =>
              f.state.Cancelled? && f.reason.value == "CANCELLED"
              && f.terminal.value.omissions == e.coverage.omissions + {"cancelled_before_completion"}
            case TimeOut =>
              f.state.TimedOut? && f.reason.value == "TIME_LIMIT"
              && f.terminal.value.omissions == e.coverage.omissions + {"time_limit_exhausted"}
            case Fail(reason, _) => f.state.Failed? && f.reason.value == reason
  {
    hide Valid, ValidReceipt, StableCode;
  }

  /** What a retry that commits writes: one retry more, or, past the budget, the end of the operation. */
  lemma RetryWrites(w: Tables, id: string, expectedRevision: nat)
    requires RecordRetry(w, id, expectedRevision).Ok?
    ensures var v := RecordRetry(w, id, expectedRevision).value;
      && id in w.operations && id in v.operations
      && var e, f := w.operations[id].state, v.operations[id].state;
         && e.state.Pending? && expectedRevision == e.revision
         && if e.consumed.retries < e.limits.retries
            then f == e.(revision := e.revision + 1, consumed := e.consumed.(retries := e.consumed.retries + 1))
            else f.state.Failed? && f.reason == Some("RETRY_BUDGET_EXHAUSTED") && f.revision == e.revision + 1
                 && f.ranges == e.ranges && f.consumed == e.consumed && f.terminal.Some?
                 && f.terminal.value.omissions == e.coverage.omissions + {"retry_budget_exhausted"}
  {
    hide Valid, ValidReceipt;
  }
}
