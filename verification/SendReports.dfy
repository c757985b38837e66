/**
 What the report of a finished batch comes to, with the error codes written out
 (CloudSentBatchResolver.swift:18-138): when it is retried, when it ends the sync, when a lifecycle batch is
 accepted, and what malformed reports give.
 */
module SendReports {
  import opened Prelude
  import opened Records
  import opened RecordCodec
  import opened Planner
  import opened Resolver

  /** The errors that pass by themselves. */
  ghost predicate Passing(code: ErrorCode) {
    code in {NetworkFailure, NetworkUnavailable, ServiceUnavailable, RequestRateLimited, ZoneBusy, OperationCancelled,
      NotAuthenticated, ZoneNotFound}
  }

  /** Nothing is named twice. */
  ghost predicate NamedOnce(phase: Phase, saved: seq<Record>, failures: seq<SaveFailure>) {
    && (forall i, j :: 0 <= i < j < |phase.records| ==> phase.records[i].id != phase.records[j].id)
    && (forall i, j :: 0 <= i < j < |saved| ==> saved[i].id != saved[j].id)
    && (forall i, j :: 0 <= i < j < |failures| ==> failures[i].record.id != failures[j].record.id)
  }

  ghost predicate Reported(saved: seq<Record>, failures: seq<SaveFailure>, id: RecordId) {
    (exists q :: q in saved && q.id == id) || (exists f :: f in failures && f.record.id == id)
  }

  ghost predicate NothingStrange(phase: Phase, saved: seq<Record>, failures: seq<SaveFailure>) {
    forall id :: Reported(saved, failures, id) ==> exists c :: c in phase.records && c.id == id
  }

  ghost predicate NothingOmitted(phase: Phase, saved: seq<Record>, failures: seq<SaveFailure>) {
    forall c :: c in phase.records ==> Reported(saved, failures, c.id)
  }

  lemma ReportedIds(saved: seq<Record>, failures: seq<SaveFailure>, id: RecordId)
    ensures Reported(saved, failures, id) <==> id in Ids(saved) + FailureIds(failures)
  {
  }

  /** A report that repeats an id or names a record never sent is damage; one that omits a record is retried. */
  lemma MalformedReport(j: Judge, phase: Phase, saved: seq<Record>, failures: seq<SaveFailure>, order: seq<Record>)
    ensures !NamedOnce(phase, saved, failures) || !NothingStrange(phase, saved, failures) ==>
      Resolve(j, phase, saved, failures, order) == Damaged
    ensures NamedOnce(phase, saved, failures) && NothingStrange(phase, saved, failures) ==>
      !NothingOmitted(phase, saved, failures) ==> Resolve(j, phase, saved, failures, order) == Retry
    ensures Screen(phase, saved, failures).None? <==>
      NamedOnce(phase, saved, failures) && NothingStrange(phase, saved, failures)
        && NothingOmitted(phase, saved, failures)
  {
    forall id ensures Reported(saved, failures, id) <==> id in Ids(saved) + FailureIds(failures) {
      ReportedIds(saved, failures, id);
    }
    var reported := Ids(saved) + FailureIds(failures);
    assert NothingStrange(phase, saved, failures) <==> reported <= Ids(phase.records) by {
      if reported <= Ids(phase.records) {
        forall id | Reported(saved, failures, id) ensures exists c :: c in phase.records && c.id == id {
          assert id in Ids(phase.records);
        }
      }
    }
    assert NothingOmitted(phase, saved, failures) <==> Ids(phase.records) <= reported;
  }

  // ----- complete reports -----

  ghost predicate Complete(phase: Phase, saved: seq<Record>, failures: seq<SaveFailure>) {
    && NamedOnce(phase, saved, failures) && NothingStrange(phase, saved, failures)
    && NothingOmitted(phase, saved, failures) && CarriesSent(phase, failures)
  }

  /** The saved record is readable, and in a lifecycle batch the one that was sent. */
  ghost predicate SavedWell(j: Judge, phase: Phase, c: Record, q: Record) {
    && (phase.BootstrapPhase? ==> j.bootstrapMatches(c, q) == Ok(true))
    && (q.kind == HeadType ==> j.headEntity(q).Ok?)
  }

  ghost predicate AllSavedWell(j: Judge, phase: Phase, saved: seq<Record>) {
    forall c, q :: c in phase.records && q in saved && q.id == c.id ==> SavedWell(j, phase, c, q)
  }

  /** The failure decides about its record: it was not saved as well. */
  ghost predicate Decides(saved: seq<Record>, f: SaveFailure) {
    forall q :: q in saved ==> q.id != f.record.id
  }

  lemma {:induction false} NoCollisions(j: Judge, phase: Phase, failures: seq<SaveFailure>)
    requires forall f :: f in failures ==> !f.code.ServerRecordChanged?
    ensures HeadConflicts(j, phase, failures) == Ok({})
    decreases |failures|
  {
    if failures != [] {
      NoCollisions(j, phase, failures[..|failures| - 1]);
    }
  }

  lemma DecidingFailure(saved: seq<Record>, failures: seq<SaveFailure>, f: SaveFailure)
    requires DistinctFailures(failures) && f in failures && Decides(saved, f)
    ensures f.record.id !in SavedById(saved)
    ensures f.record.id in FailedById(failures) && FailedById(failures)[f.record.id] == f
  {
    FailureOf(failures, f);
  }

  ghost predicate RaisesNothing(v: Verdict) {
    v.Fine? && v.conflict.None? && !v.collision
  }

  lemma QuietRecord(j: Judge, phase: Phase, saved: seq<Record>, failures: seq<SaveFailure>, c: Record)
    requires Screen(phase, saved, failures).None? && c in phase.records && AllSavedWell(j, phase, saved)
    requires forall f :: f in failures ==> Passing(f.code)
    ensures RaisesNothing(VerdictOf(j, phase, SavedById(saved), FailedById(failures), false, c))
  {
    var savedById, failedById := SavedById(saved), FailedById(failures);
    assert c.id in Ids(phase.records);
    if c.id in savedById {
      assert SavedWell(j, phase, c, savedById[c.id]);
    } else {
      PassingVerdict(j, phase, savedById, failedById, c);
    }
  }

  lemma PassingVerdict(j: Judge, phase: Phase, saved: map<RecordId, Record>, failed: map<RecordId, SaveFailure>,
      c: Record)
    requires c.id !in saved && c.id in failed && Passing(failed[c.id].code)
    ensures VerdictOf(j, phase, saved, failed, false, c) == Fine(None, true, false, None)
  {
  }

  lemma RetryClass(r: Resolution)
    requires ClassOf(r) == TryAgain
    ensures r == Retry
  {
  }

  /** A report whose only failures pass by themselves is retried, in every order. */
  lemma PassingErrorsRetry(j: Judge, phase: Phase, saved: seq<Record>, failures: seq<SaveFailure>, order: seq<Record>,
      f: SaveFailure)
    requires Lawful(j) && IterationOrder(order, phase) && Complete(phase, saved, failures)
    requires AllSavedWell(j, phase, saved) && forall g :: g in failures ==> Passing(g.code)
    requires f in failures && Decides(saved, f)
    ensures Resolve(j, phase, saved, failures, order) == Retry
  {
    MalformedReport(j, phase, saved, failures, order);
    ScreenedRetry(j, phase, saved, failures, order, f);
  }

  lemma ScreenedRetry(j: Judge, phase: Phase, saved: seq<Record>, failures: seq<SaveFailure>, order: seq<Record>,
      f: SaveFailure)
    requires Lawful(j) && IterationOrder(order, phase) && Screen(phase, saved, failures).None?
      && CarriesSent(phase, failures)
    requires AllSavedWell(j, phase, saved) && forall g :: g in failures ==> Passing(g.code)
    requires f in failures && Decides(saved, f)
    ensures Resolve(j, phase, saved, failures, order) == Retry
  {
    ResolveReads(j, phase, saved, failures, order);
    NoCollisions(j, phase, failures);
    var known: set<string> := HeadConflicts(j, phase, failures).value;
    var savedById, failedById := SavedById(saved), FailedById(failures);
    var verdict := (c: Record) => VerdictOf(j, phase, savedById, failedById, known != {}, c);
    forall c | c in phase.records ensures RaisesNothing(verdict(c)) {
      QuietRecord(j, phase, saved, failures, c);
    }
    DecidingFailure(saved, failures, f);
    PassingVerdict(j, phase, savedById, failedById, f.record);
    RetryReading(phase, verdict, f.record);
    RetryClass(Resolve(j, phase, saved, failures, order));
  }

  lemma RetryReading(phase: Phase, verdict: Record -> Verdict, c: Record)
    requires forall r :: r in phase.records ==> RaisesNothing(verdict(r))
    requires c in phase.records && verdict(c).Fine? && verdict(c).retry
    ensures ReadingOutcome(phase, verdict, {}) == TryAgain
  {
    var reading := ReadAll(verdict, Elements(phase.records), {});
    assert c in Elements(phase.records);
    assert reading.conflicts == {} && reading.collisions == {} && reading.retry;
  }

  /** The batch lost no compare-and-swap. */
  ghost predicate NoLostSwap(j: Judge, phase: Phase, failures: seq<SaveFailure>) {
    phase.CommitPhase? ==> forall f :: f in failures && f.code == ServerRecordChanged && f.server.Some? ==>
      !(j.classify(f.record, f.server.value).Ok? && j.classify(f.record, f.server.value).value.HeadConflict?)
  }

  lemma {:induction false} NothingLost(j: Judge, phase: Phase, failures: seq<SaveFailure>)
    requires NoLostSwap(j, phase, failures)
    ensures HeadConflicts(j, phase, failures).Ok? ==> HeadConflicts(j, phase, failures).value == {}
    decreases |failures|
  {
    if phase.CommitPhase? && failures != [] {
      var n := |failures| - 1;
      assert forall f :: f in failures[..n] ==> f in failures;
      NothingLost(j, phase, failures[..n]);
      assert failures[n] in failures;
    }
  }

  /** Any other error code, and a rollback without a lost swap, end the sync, in every order. */
  lemma OtherErrorsFail(j: Judge, phase: Phase, saved: seq<Record>, failures: seq<SaveFailure>, order: seq<Record>,
      f: SaveFailure)
    requires Lawful(j) && IterationOrder(order, phase) && Complete(phase, saved, failures)
    requires f in failures && Decides(saved, f)
    requires f.code.OtherCode? || (f.code == BatchRequestFailed && NoLostSwap(j, phase, failures))
    ensures ClassOf(Resolve(j, phase, saved, failures, order)) == Failed
  {
    MalformedReport(j, phase, saved, failures, order);
    if HeadConflicts(j, phase, failures).Ok? && f.code.BatchRequestFailed? {
      NothingLost(j, phase, failures);
    }
    ScreenedFailure(j, phase, saved, failures, order, f);
  }

  lemma ScreenedFailure(j: Judge, phase: Phase, saved: seq<Record>, failures: seq<SaveFailure>, order: seq<Record>,
      f: SaveFailure)
    requires Lawful(j) && IterationOrder(order, phase) && Screen(phase, saved, failures).None?
      && CarriesSent(phase, failures)
    requires f in failures && Decides(saved, f)
    requires f.code.BatchRequestFailed? || f.code.OtherCode?
    requires f.code.BatchRequestFailed? && HeadConflicts(j, phase, failures).Ok? ==>
      HeadConflicts(j, phase, failures).value == {}
    ensures ClassOf(Resolve(j, phase, saved, failures, order)) == Failed
  {
    ResolveReads(j, phase, saved, failures, order);
    if HeadConflicts(j, phase, failures).Ok? {
      var known := HeadConflicts(j, phase, failures).value;
      var savedById, failedById := SavedById(saved), FailedById(failures);
      var verdict := (c: Record) => VerdictOf(j, phase, savedById, failedById, known != {}, c);
      DecidingFailure(saved, failures, f);
      FailingVerdict(j, phase, savedById, failedById, known != {}, f);
      BadVerdictFails(phase, verdict, known, f.record);
    }
  }

  lemma FailingVerdict(j: Judge, phase: Phase, saved: map<RecordId, Record>, failed: map<RecordId, SaveFailure>,
      inConflict: bool, f: SaveFailure)
    requires f.record.id !in saved && f.record.id in failed && failed[f.record.id] == f
    requires f.code.OtherCode? || (f.code.BatchRequestFailed? && !inConflict)
    ensures VerdictOf(j, phase, saved, failed, inConflict, f.record).Bad?
  {
  }

  // ----- lifecycle batches -----

  /** The server's copy in the report, saved or collided with, is the sent lifecycle record. */
  ghost predicate Matches(j: Judge, phase: Phase, saved: seq<Record>, failures: seq<SaveFailure>, c: Record) {
    || (exists q :: q in saved && q.id == c.id && SavedWell(j, phase, c, q))
    || (exists f :: f in failures && f.record.id == c.id && Decides(saved, f) && f.code == ServerRecordChanged
          && f.server.Some? && j.bootstrapMatches(c, f.server.value) == Ok(true))
  }

  lemma SavedMatches(j: Judge, phase: Phase, saved: seq<Record>, failures: seq<SaveFailure>, c: Record)
    requires DistinctIds(saved) && c.id in SavedById(saved)
    ensures Matches(j, phase, saved, failures, c) <==> SavedWell(j, phase, c, SavedById(saved)[c.id])
  {
    var q := SavedById(saved)[c.id];
    forall p | p in saved && p.id == c.id ensures p == q {
      SameIdSameRecord(saved, p, q);
    }
  }

  ghost predicate CollidesWithSame(j: Judge, f: SaveFailure, c: Record) {
    f.code == ServerRecordChanged && f.server.Some? && j.bootstrapMatches(c, f.server.value) == Ok(true)
  }

  lemma FailedMatches(j: Judge, phase: Phase, saved: seq<Record>, failures: seq<SaveFailure>, c: Record)
    requires DistinctFailures(failures) && c.id !in SavedById(saved) && c.id in FailedById(failures)
    ensures Matches(j, phase, saved, failures, c) <==> CollidesWithSame(j, FailedById(failures)[c.id], c)
  {
    var f := FailedById(failures)[c.id];
    forall g | g in failures && g.record.id == c.id ensures g == f {
      FailureOf(failures, g);
    }
    forall q | q in saved ensures q.id != f.record.id {
      assert q.id in Ids(saved);
    }
    assert Decides(saved, f);
  }

  lemma MatchVerdict(j: Judge, phase: Phase, saved: seq<Record>, failures: seq<SaveFailure>, c: Record)
    requires phase.BootstrapPhase? && Screen(phase, saved, failures).None? && c in phase.records
    ensures var v := VerdictOf(j, phase, SavedById(saved), FailedById(failures), false, c);
      && (v.Fine? && !v.retry <==> Matches(j, phase, saved, failures, c))
      && (v.Fine? ==> v.conflict.None? && !v.collision)
  {
    assert c.id in Ids(phase.records);
    if c.id in SavedById(saved) {
      SavedMatches(j, phase, saved, failures, c);
    } else {
      FailedMatches(j, phase, saved, failures, c);
    }
    MappedVerdict(j, phase, SavedById(saved), FailedById(failures), c);
  }

  lemma MappedVerdict(j: Judge, phase: Phase, saved: map<RecordId, Record>, failed: map<RecordId, SaveFailure>,
      c: Record)
    requires phase.BootstrapPhase? && (c.id in saved || c.id in failed)
    ensures var v := VerdictOf(j, phase, saved, failed, false, c);
      && (v.Fine? && !v.retry <==>
            if c.id in saved then SavedWell(j, phase, c, saved[c.id]) else CollidesWithSame(j, failed[c.id], c))
      && (v.Fine? ==> v.conflict.None? && !v.collision)
  {
  }

  lemma MatchReading(phase: Phase, verdict: Record -> Verdict)
    requires phase.BootstrapPhase?
    requires forall c :: c in phase.records && verdict(c).Fine? ==> verdict(c).conflict.None? && !verdict(c).collision
    ensures ReadingOutcome(phase, verdict, {}) == BootstrapDone <==>
      forall c :: c in phase.records ==> verdict(c).Fine? && !verdict(c).retry
  {
    var reading := ReadAll(verdict, Elements(phase.records), {});
    assert forall c :: c in phase.records <==> c in Elements(phase.records);
    if !exists c :: c in Elements(phase.records) && verdict(c).Bad? {
      assert reading.conflicts == {} && reading.collisions == {};
    }
  }

  lemma BootstrapClass(r: Resolution)
    ensures ClassOf(r) == BootstrapDone <==> r == BootstrapAccepted
  {
  }

  /** A complete report of a lifecycle batch is accepted if and only if every record matches, in every order. */
  lemma LifecycleAcceptedIff(j: Judge, phase: Phase, saved: seq<Record>, failures: seq<SaveFailure>, order: seq<Record>)
    requires Lawful(j) && IterationOrder(order, phase) && phase.BootstrapPhase? && Complete(phase, saved, failures)
    ensures Resolve(j, phase, saved, failures, order) == BootstrapAccepted <==>
      forall c :: c in phase.records ==> Matches(j, phase, saved, failures, c)
  {
    MalformedReport(j, phase, saved, failures, order);
    ResolveReads(j, phase, saved, failures, order);
    NoHeadConflictsElsewhere(j, phase, failures);
    var known: set<string> := HeadConflicts(j, phase, failures).value;
    var savedById, failedById := SavedById(saved), FailedById(failures);
    var verdict := (c: Record) => VerdictOf(j, phase, savedById, failedById, known != {}, c);
    forall c | c in phase.records
      ensures verdict(c).Fine? && !verdict(c).retry <==> Matches(j, phase, saved, failures, c)
      ensures verdict(c).Fine? ==> verdict(c).conflict.None? && !verdict(c).collision {
      MatchVerdict(j, phase, saved, failures, c);
    }
    MatchReading(phase, verdict);
    BootstrapClass(Resolve(j, phase, saved, failures, order));
  }
}
