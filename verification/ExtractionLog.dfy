/** An extraction is what its log says: every accumulator is a fold over the accepted ranges, and completion needs
    evidence. */
module ExtractionLog {
  import opened Wrappers
  import opened Totals
  import opened ContinuableExtraction

  // ----- folds over the log -----

  function Blocks(r: AcceptedRange): int { r.blocks }
  function Bytes(r: AcceptedRange): int { r.bytes }

  function AggregateOf(log: seq<AcceptedRange>): Aggregate {
    if log == [] then NoArtifacts
    else
      var last := log[|log| - 1];
      Extended(AggregateOf(log[..|log| - 1]), |log|, last.artifact, last.payload)
  }

  function CoverageOf(log: seq<AcceptedRange>): Coverage {
    if log == [] then Coverage(Whole, {}, NotEvaluated) else Accumulate(CoverageOf(log[..|log| - 1]), log[|log| - 1])
  }

  /** Equal aggregates mean equal artifacts and payloads, in the same order. */
  lemma {:induction false} AggregateDetermines(a: seq<AcceptedRange>, b: seq<AcceptedRange>)
    requires AggregateOf(a) == AggregateOf(b)
    ensures |a| == |b| && forall i | 0 <= i < |a| :: a[i].artifact == b[i].artifact && a[i].payload == b[i].payload
  {
    if a != [] && b != [] {
      AggregateDetermines(a[..|a| - 1], b[..|b| - 1]);
      assert forall i | 0 <= i < |a| - 1 :: a[..|a| - 1][i] == a[i] && b[..|b| - 1][i] == b[i];
    }
  }

  /** The accumulated omissions are the union over the log. */
  lemma {:induction false} OmissionsAreUnion(log: seq<AcceptedRange>)
    ensures forall o :: o in CoverageOf(log).omissions <==> exists i :: 0 <= i < |log| && o in log[i].omissions
  {
    if log != [] {
      var last := |log| - 1;
      OmissionsAreUnion(log[..last]);
      forall o ensures o in CoverageOf(log).omissions <==> exists i :: 0 <= i < |log| && o in log[i].omissions {
        if i :| 0 <= i < |log| && o in log[i].omissions {
          if i < last { assert o in log[..last][i].omissions; }
        }
        if o in CoverageOf(log[..last]).omissions {
          var i :| 0 <= i < last && o in log[..last][i].omissions;
          assert o in log[i].omissions;
        } else if o in log[last].omissions {
          assert o in CoverageOf(log).omissions;
        }
      }
    }
  }

  /** The accumulated OCR disposition is the highest any range reported. */
  lemma {:induction false} OcrIsHighest(log: seq<AcceptedRange>)
    ensures forall i | 0 <= i < |log| && log[i].ocr.Some? :: Priority(log[i].ocr.value) <= Priority(CoverageOf(log).ocr)
    ensures CoverageOf(log).ocr.NotEvaluated? || exists i :: 0 <= i < |log| && log[i].ocr == Some(CoverageOf(log).ocr)
  {
    if log != [] {
      var last := |log| - 1;
      OcrIsHighest(log[..last]);
      assert forall i | 0 <= i < last :: log[..last][i] == log[i];
      if CoverageOf(log).ocr == CoverageOf(log[..last]).ocr && !CoverageOf(log).ocr.NotEvaluated? {
        var i :| 0 <= i < last && log[..last][i].ocr == Some(CoverageOf(log[..last]).ocr);
        assert log[i].ocr == Some(CoverageOf(log).ocr);
      } else if CoverageOf(log).ocr != CoverageOf(log[..last]).ocr {
        assert log[last].ocr == Some(CoverageOf(log).ocr);
      }
    }
  }

  /** A range that rules out complete coverage. */
  predicate Incomplete(r: AcceptedRange) {
    r.disposition.Unsupported? || r.disposition.PartialUnknown? || (r.disposition.PartialKnown? && r.terminal)
  }

  lemma {:induction false} WholeUnlessIncomplete(log: seq<AcceptedRange>)
    ensures CoverageOf(log).disposition.Whole? <==> forall i | 0 <= i < |log| :: !Incomplete(log[i])
  {
    if log != [] {
      var last := |log| - 1;
      WholeUnlessIncomplete(log[..last]);
      assert forall i | 0 <= i < last :: log[..last][i] == log[i];
    }
  }

  // ----- the log -----

  /** What the next range must request. */
  function Expected(first: string, log: seq<AcceptedRange>): Option<RangeDigest> {
    if log == [] then Some(RangeDigest(first)) else log[|log| - 1].next
  }

  /** Numbered from one without gaps: each range asks for what the one before said comes next; only the last may be
      terminal. */
  ghost predicate Gapless(first: string, log: seq<AcceptedRange>) {
    && (forall i | 0 <= i < |log| :: log[i].sequence == i + 1 && Some(log[i].request) == Expected(first, log[..i]))
    && (forall i | 0 <= i < |log| :: log[i].terminal <==> log[i].next.None?)
    && (forall i | 0 <= i < |log| && log[i].disposition.Whole? ::
          log[i].terminal && log[i].omissions == [] && log[i].semantic.Some?)
    && (forall i, j | 0 <= i < j < |log| :: log[i].key != log[j].key)
  }

  predicate EndedByRange(log: seq<AcceptedRange>) {
    log != [] && log[|log| - 1].terminal
  }

  /** Ended by a cancel, a timeout, a failure or the retry budget. */
  predicate Stopped(e: Extraction) {
    !e.state.Pending? && !EndedByRange(e.ranges)
  }

  ghost predicate Folded(first: string, e: Extraction) {
    && Gapless(first, e.ranges)
    && e.consumed.ranges == |e.ranges| && e.consumed.blocks == Total(e.ranges, Blocks)
       && e.consumed.bytes == Total(e.ranges, Bytes)
    && e.aggregate == AggregateOf(e.ranges) && e.coverage == CoverageOf(e.ranges)
  }

  /** How the state follows from the log and the way it ended. */
  ghost predicate EndsAsLogged(first: string, e: Extraction) {
    && (e.state.Pending? ==>
          && !EndedByRange(e.ranges) && e.nextDigest == Expected(first, e.ranges) && e.terminal.None?
          && e.nextRange.Some? && e.nextDigest == Some(RangeDigest(e.nextRange.value)))
    && (EndedByRange(e.ranges) ==>
          var whole := e.ranges[|e.ranges| - 1].disposition.Whole? && e.coverage.disposition.Whole?;
          && e.state == (if whole then Completed else Failed) && e.terminal == Some(e.coverage)
          && e.reason == Some(if whole then COMPLETED else if e.coverage.disposition.Unsupported? then UNSUPPORTED
                              else INCOMPLETE))
    && (Stopped(e) ==>
        !e.state.Completed? && e.reason.Some? && e.terminal == Some(StoppedCoverage(e.coverage, e.reason.value)))
  }

  /** Every transition is counted once. */
  ghost predicate Counted(e: Extraction) {
    e.revision == |e.ranges| + e.consumed.retries + (if Stopped(e) then 1 else 0)
  }

  ghost predicate Good(first: string, e: Extraction) {
    Valid(e) && Folded(first, e) && EndsAsLogged(first, e) && Counted(e)
  }

  lemma CreatedGood(source: string, kernelAuthority: bool, verified: bool, first: string, limits: Amounts)
    requires Valid(Created(source, kernelAuthority, verified, first, limits))
    ensures Good(first, Created(source, kernelAuthority, verified, first, limits))
  {
  }

  lemma GaplessAppend(first: string, log: seq<AcceptedRange>, r: AcceptedRange)
    requires Gapless(first, log) && r.sequence == |log| + 1 && Some(r.request) == Expected(first, log)
    requires r.terminal <==> r.next.None?
    requires r.disposition.Whole? ==> r.terminal && r.omissions == [] && r.semantic.Some?
    requires forall x | x in log :: x.key != r.key
    ensures Gapless(first, log + [r])
  {
    hide Expected;
    var all := log + [r];
    forall i | 0 <= i < |all| ensures all[i].sequence == i + 1 && Some(all[i].request) == Expected(first, all[..i]) {
      assert all[..i] == log[..i];
      assert log[..|log|] == log;
    }
    forall i, j | 0 <= i < j < |all| ensures all[i].key != all[j].key {
      assert all[i] in log;
    }
  }

  lemma AcceptedTotals(e: Extraction, r: AcceptedRange, next: Option<string>)
    requires e.consumed.blocks == Total(e.ranges, Blocks) && e.consumed.bytes == Total(e.ranges, Bytes)
    ensures var w := WithRange(e, r, next);
            w.consumed.blocks == Total(w.ranges, Blocks) && w.consumed.bytes == Total(w.ranges, Bytes)
  {
    hide Accumulate, Total;
    TotalAppend(e.ranges, r, Blocks);
    TotalAppend(e.ranges, r, Bytes);
  }

  lemma AcceptedAccumulators(e: Extraction, r: AcceptedRange, next: Option<string>)
    requires e.aggregate == AggregateOf(e.ranges) && e.coverage == CoverageOf(e.ranges)
    ensures var w := WithRange(e, r, next); w.aggregate == AggregateOf(w.ranges) && w.coverage == CoverageOf(w.ranges)
  {
    hide Accumulate;
    assert (e.ranges + [r])[..|e.ranges|] == e.ranges;
  }

  lemma AcceptedFolds(first: string, e: Extraction, t: Transition, key: string)
    requires Folded(first, e) && e.nextDigest == Expected(first, e.ranges) && RangeFault(e, e.revision, t).None?
    requires forall x | x in e.ranges :: x.key != key
    ensures Folded(first, WithRange(e, RangeOf(t, |e.ranges| + 1, key), t.next))
  {
    hide Accumulate, Gapless, Total, AggregateOf, CoverageOf, Expected;
    var r := RangeOf(t, |e.ranges| + 1, key);
    GaplessAppend(first, e.ranges, r);
    AcceptedTotals(e, r, t.next);
    AcceptedAccumulators(e, r, t.next);
  }

  lemma AcceptGood(first: string, e: Extraction, expectedRevision: nat, key: string, t: Transition)
    requires Good(first, e) && Accept(e, expectedRevision, key, t).Ok?
    ensures Good(first, Accept(e, expectedRevision, key, t).value)
  {
    hide Valid, Folded, FindRange, Accumulate;
    if FindRange(e.ranges, key).None? {
      AcceptedFolds(first, e, t, key);
      AcceptedEnds(first, e, t, key);
    }
  }

  lemma AcceptedEnds(first: string, e: Extraction, t: Transition, key: string)
    requires EndsAsLogged(first, e) && Counted(e) && RangeFault(e, e.revision, t).None?
    ensures var next := WithRange(e, RangeOf(t, |e.ranges| + 1, key), t.next);
            EndsAsLogged(first, next) && Counted(next)
  {
    hide Accumulate;
  }

  lemma StopGood(first: string, e: Extraction, state: State, reason: string)
    requires Good(first, e) && e.state.Pending? && !state.Pending? && !state.Completed? && Valid(Stop(e, state, reason))
    ensures Good(first, Stop(e, state, reason))
  {
    hide Valid, Gapless, Total;
  }

  lemma RetryGood(first: string, e: Extraction)
    requires Good(first, e) && e.state.Pending? && Valid(Retry(e))
    ensures Good(first, Retry(e))
  {
    hide Valid, Gapless, Total;
    if e.consumed.retries >= e.limits.retries {
      StopGood(first, e, Failed, RETRY_BUDGET);
    }
  }

  // ----- completion needs evidence -----

  /** Only the last range of a log can be terminal. */
  lemma TerminalIsLast(first: string, log: seq<AcceptedRange>, i: nat)
    requires Gapless(first, log) && i < |log| - 1
    ensures !log[i].terminal
  {
    assert Some(log[i + 1].request) == Expected(first, log[..i + 1]);
    assert log[..i + 1][i] == log[i];
  }

  lemma EvidenceOfWhole(first: string, log: seq<AcceptedRange>)
    requires Gapless(first, log) && EndedByRange(log) && log[|log| - 1].disposition.Whole?
    ensures log[|log| - 1].semantic.Some? && log[|log| - 1].omissions == []
    ensures CoverageOf(log).disposition.Whole? <==>
            forall i | 0 <= i < |log| :: !log[i].disposition.Unsupported? && !log[i].disposition.PartialUnknown?
  {
    WholeUnlessIncomplete(log);
    forall i | 0 <= i < |log| - 1 ensures !log[i].terminal {
      TerminalIsLast(first, log, i);
    }
  }

  /** Completed exactly when the last range is terminal and complete, with validated evidence and no omission, and no
      range was ever unsupported or of unknown coverage. */
  lemma CompletionNeedsEvidence(first: string, e: Extraction)
    requires Good(first, e)
    ensures e.state.Completed? <==>
            && EndedByRange(e.ranges) && e.ranges[|e.ranges| - 1].disposition.Whole?
            && forall i | 0 <= i < |e.ranges| ::
                 !e.ranges[i].disposition.Unsupported? && !e.ranges[i].disposition.PartialUnknown?
    ensures e.state.Completed? ==> var last := e.ranges[|e.ranges| - 1]; last.semantic.Some? && last.omissions == []
  {
    hide Valid, Total, Gapless, CoverageOf, AggregateOf;
    if EndedByRange(e.ranges) && e.ranges[|e.ranges| - 1].disposition.Whole? {
      EvidenceOfWhole(first, e.ranges);
    }
  }

  /** The revision counts ranges, retries and one stop, and so is bounded by the limits. */
  lemma RevisionIsBounded(first: string, e: Extraction)
    requires Good(first, e)
    ensures e.revision == |e.ranges| + e.consumed.retries + (if Stopped(e) then 1 else 0) <= e.limits.ranges
            + e.limits.retries + 1
  {
    hide Folded, EndsAsLogged;
  }

  // ----- terminal receipts -----

  /** The receipt of a terminal state passes its validator exactly when its omissions fit the receipt schema. */
  lemma ReceiptValidIffReportable(first: string, e: Extraction)
    requires Good(first, e) && !e.state.Pending?
    ensures e.terminal.Some?
    ensures ValidReceipt(ReceiptOf(e)) <==> ReportableOmissions(e.terminal.value.omissions)
    ensures ReceiptOf(e).coverage.Whole? <==> e.state.Completed?
  {
    hide Folded, ReportableOmissions, OmissionFor;
    if EndedByRange(e.ranges) {
      NaturalReasons();
      EndedRevision(e);
      FailedIsNotWhole(first, e);
    }
  }

  lemma FailedIsNotWhole(first: string, e: Extraction)
    requires Folded(first, e) && EndsAsLogged(first, e) && EndedByRange(e.ranges)
    ensures e.state.Completed? <==> e.coverage.disposition.Whole?
  {
    hide Gapless, Total;
    WholeUnlessIncomplete(e.ranges);
  }

  lemma NaturalReasons()
    ensures UpperCode(COMPLETED) && UpperCode(UNSUPPORTED) && UpperCode(INCOMPLETE)
  {
  }

  lemma EndedRevision(e: Extraction)
    requires Counted(e) && EndedByRange(e.ranges)
    ensures e.revision >= 1
  {
  }

  /** A pending extraction can be stopped for a reason exactly when the reason is a code and the omissions seen so
      far, with the reason's own, fit the receipt: one with too many or too long omissions can never be stopped. */
  lemma StoppableIff(first: string, e: Extraction, state: State, reason: string)
    requires Good(first, e) && e.state.Pending? && !state.Pending? && !state.Completed?
    ensures Valid(Stop(e, state, reason)) && ValidReceipt(ReceiptOf(Stop(e, state, reason))) <==>
            UpperCode(reason) && ReportableOmissions(e.coverage.omissions + {OmissionFor(reason)})
  {
    hide Gapless, Total, ReportableOmissions, UpperCode, OmissionFor, RangeShape;
    if UpperCode(reason) {
      assert Valid(Stop(e, state, reason));
      StopGood(first, e, state, reason);
      ReceiptValidIffReportable(first, Stop(e, state, reason));
    }
  }

  // ----- omissions only grow -----

  lemma OmissionsGrow(before: seq<AcceptedRange>, log: seq<AcceptedRange>)
    requires before <= log
    ensures CoverageOf(before).omissions <= CoverageOf(log).omissions
  {
    OmissionsAreUnion(before);
    OmissionsAreUnion(log);
    forall o | o in CoverageOf(before).omissions ensures o in CoverageOf(log).omissions {
      var i :| 0 <= i < |before| && o in before[i].omissions;
      assert o in log[i].omissions;
    }
  }

  lemma OverfullStays(few: set<string>, more: set<string>)
    requires few <= more && !ReportableOmissions(few)
    ensures !ReportableOmissions(more)
  {
    assert more == few + (more - few);
  }

  lemma TerminalOmissions(first: string, e: Extraction)
    requires Good(first, e) && !e.state.Pending?
    ensures e.terminal.Some? && e.coverage.omissions <= e.terminal.value.omissions
  {
    hide Folded, Valid, OmissionFor;
    ReceiptValidIffReportable(first, e);
  }
}
