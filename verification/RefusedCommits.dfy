/**
 What becomes of a commit batch the server refuses (CloudSentBatchResolver.swift:13-157): when it falls back to
 the conflict branch, when it counts as already published, and when it ends the sync in an error.
 */
module RefusedCommits {
  import opened Prelude
  import opened Records
  import opened RecordCodec
  import opened Planner
  import opened Resolver
  import opened CloudServer
  import opened SyncTheorems
  import opened Resending

  lemma RefusalReport(phase: Phase, s: Server, resp: Response)
    requires DistinctIds(phase.records) && ReportsRefusal(s, phase.records, resp)
    ensures Screen(phase, resp.saved, resp.failures).None? && CarriesSent(phase, resp.failures)
    ensures DistinctFailures(resp.failures)
  {
    OneFailureEach(phase, resp);
  }

  /**
   A commit with some but not all heads stale takes no conflict branch: the batch is refused for the
   stale head, the fresh one is only rolled back, and the sync ends in an error.
   */
  lemma PartlyStaleCommitFails(zone: string, bootstrapMatches: (Record, Record) -> Result<bool, CodecError>, s: Server,
      phase: Phase, resp: Response, order: seq<Record>, stale: Record, other: Record)
    requires phase.CommitPhase? && DistinctIds(phase.records) && IterationOrder(order, phase)
    requires stale in phase.records && !Accepts(s, stale)
    requires other in phase.records && other.kind == HeadType && Accepts(s, other)
    requires ReportsRefusal(s, phase.records, resp)
    ensures ClassOf(Resolve(CodecJudge(zone, bootstrapMatches), phase, resp.saved, resp.failures, order)) == Failed
    ensures forall s' :: Writes(s, s', phase.records, phase.AtomicByZone()) ==> s'.records == s.records
  {
    RefusalReport(phase, s, resp);
    var f := RolledBack(s, phase.records, resp, other);
    CodecJudgeIsLawful(zone, bootstrapMatches);
    RolledBackHeadFails(CodecJudge(zone, bootstrapMatches), phase, resp.saved, resp.failures, order, f);
    forall s' | Writes(s, s', phase.records, phase.AtomicByZone()) ensures s'.records == s.records {
      RefusedWhole(s, s', phase.records, stale);
    }
  }

  lemma RolledBack(s: Server, records: seq<Record>, resp: Response, r: Record) returns (f: SaveFailure)
    requires ReportsRefusal(s, records, resp) && r in records && Accepts(s, r)
    ensures f in resp.failures && f.record == r && f.code.BatchRequestFailed?
  {
    var i :| 0 <= i < |records| && records[i] == r;
    f := resp.failures[i];
  }

  // ----- exactly when a refused commit takes the conflict branch -----

  /** The refusal report, with the server's own record for every offender. */
  ghost predicate ReportsRefusalFully(s: Server, records: seq<Record>, resp: Response) {
    && ReportsRefusal(s, records, resp)
    && forall i :: 0 <= i < |records| && !Accepts(s, records[i]) ==>
         records[i].id in s.records && resp.failures[i].server == Some(s.records[records[i].id])
  }

  /** A refused record whose collision is harmless or an ordinary conflict; an accepted one that is no head. */
  predicate Settleable(zone: string, s: Server, r: Record) {
    if Accepts(s, r) then r.kind != HeadType
    else
      && r.id in s.records && Classify(zone, r, s.records[r.id]).Ok?
      && !Classify(zone, r, s.records[r.id]).value.DamagedRecord?
  }

  /** A head for which the server holds another revision than the version the record names. */
  predicate LosesSwap(zone: string, s: Server, r: Record) {
    && !Accepts(s, r) && r.id in s.records
    && Classify(zone, r, s.records[r.id]).Ok? && Classify(zone, r, s.records[r.id]).value.HeadConflict?
  }

  function LostEntities(zone: string, s: Server, records: seq<Record>): set<string> {
    set r | r in records && LosesSwap(zone, s, r) :: Classify(zone, r, s.records[r.id]).value.entityID
  }

  /** All records are settleable and some head lost its swap. */
  predicate TakesConflictBranch(zone: string, s: Server, records: seq<Record>) {
    (forall r :: r in records ==> Settleable(zone, s, r)) && (exists r :: r in records && LosesSwap(zone, s, r))
  }

  ghost predicate ReportedAs(s: Server, f: SaveFailure, r: Record) {
    && f.record == r
    && if Accepts(s, r) then f.code == BatchRequestFailed
       else f.code == ServerRecordChanged && r.id in s.records && f.server == Some(s.records[r.id])
  }

  lemma ReportOf(s: Server, phase: Phase, resp: Response, r: Record)
    requires DistinctIds(phase.records) && ReportsRefusalFully(s, phase.records, resp) && r in phase.records
    ensures r.id in FailedById(resp.failures) && ReportedAs(s, FailedById(resp.failures)[r.id], r)
  {
    var i :| 0 <= i < |phase.records| && phase.records[i] == r;
    RefusalReport(phase, s, resp);
    FailureOf(resp.failures, resp.failures[i]);
  }

  ghost predicate ReadsRecord(zone: string, s: Server, r: Record, v: Verdict, inConflict: bool) {
    && (v.Bad? <==> !Settleable(zone, s, r) || (Accepts(s, r) && !inConflict))
    && (v.Fine? ==> !v.retry && !v.collision)
    && (v.Fine? ==> v.conflict == if LosesSwap(zone, s, r)
                                  then Some(Classify(zone, r, s.records[r.id]).value.entityID) else None)
  }

  /** What the report of one record means by itself. */
  lemma RefusedVerdict(zone: string, bootstrapMatches: (Record, Record) -> Result<bool, CodecError>, s: Server,
      phase: Phase, failed: map<RecordId, SaveFailure>, inConflict: bool, r: Record)
    requires phase.CommitPhase? && r.kind != ObjectType && r.id in failed && ReportedAs(s, failed[r.id], r)
    ensures ReadsRecord(zone, s, r, VerdictOf(CodecJudge(zone, bootstrapMatches), phase, map[], failed, inConflict, r),
      inConflict)
  {
    if !Accepts(s, r) && Classify(zone, r, s.records[r.id]) == Ok(AlreadySaved) {
      HeldCollision(zone, r, s.records[r.id]);
    }
  }

  /** The collision of a head is read by the pre-pass. */
  predicate HeadCollision(f: SaveFailure) {
    f.code.ServerRecordChanged? && f.record.kind == HeadType && f.server.Some?
  }

  function LostIn(j: Judge, failures: seq<SaveFailure>): set<string> {
    set f | f in failures && HeadCollision(f) && j.classify(f.record, f.server.value).Ok?
      && j.classify(f.record, f.server.value).value.HeadConflict? :: j.classify(f.record, f.server.value).value.entityID
  }

  /** What the pre-pass finds. */
  lemma {:induction false} PrepassFinds(j: Judge, phase: Phase, failures: seq<SaveFailure>)
    requires phase.CommitPhase?
    ensures HeadConflicts(j, phase, failures).Ok? <==>
      forall f :: f in failures && HeadCollision(f) ==> j.classify(f.record, f.server.value).Ok?
    ensures HeadConflicts(j, phase, failures).Ok? ==> HeadConflicts(j, phase, failures).value == LostIn(j, failures)
    decreases |failures|
  {
    if failures != [] {
      var n := |failures| - 1;
      PrepassFinds(j, phase, failures[..n]);
      assert forall f :: f in failures <==> f in failures[..n] || f == failures[n];
    }
  }

  lemma LostAreReported(zone: string, bootstrapMatches: (Record, Record) -> Result<bool, CodecError>, s: Server,
      phase: Phase, resp: Response)
    requires DistinctIds(phase.records) && ReportsRefusalFully(s, phase.records, resp)
    ensures LostIn(CodecJudge(zone, bootstrapMatches), resp.failures) == LostEntities(zone, s, phase.records)
  {
    var j := CodecJudge(zone, bootstrapMatches);
    forall r | r in phase.records && LosesSwap(zone, s, r)
      ensures Classify(zone, r, s.records[r.id]).value.entityID in LostIn(j, resp.failures) {
      ConflictingCollision(zone, r, s.records[r.id]);
      ReportOf(s, phase, resp, r);
      assert HeadCollision(FailedById(resp.failures)[r.id]);
    }
    forall f | f in resp.failures && HeadCollision(f) ensures f.record in phase.records && ReportedAs(s, f, f.record) {
      var i :| 0 <= i < |resp.failures| && resp.failures[i] == f;
    }
  }

  /** When the pre-pass stumbles, a refused head cannot be classified. */
  lemma StumblingHead(zone: string, bootstrapMatches: (Record, Record) -> Result<bool, CodecError>, s: Server,
      phase: Phase, resp: Response) returns (r: Record)
    requires phase.CommitPhase? && DistinctIds(phase.records) && ReportsRefusalFully(s, phase.records, resp)
    requires HeadConflicts(CodecJudge(zone, bootstrapMatches), phase, resp.failures).Err?
    ensures r in phase.records && !Settleable(zone, s, r)
  {
    var j := CodecJudge(zone, bootstrapMatches);
    PrepassFinds(j, phase, resp.failures);
    var f :| f in resp.failures && HeadCollision(f) && !j.classify(f.record, f.server.value).Ok?;
    var i :| 0 <= i < |resp.failures| && resp.failures[i] == f;
    r := phase.records[i];
  }

  /** The verdicts of a refused batch, record by record. */
  ghost predicate ReadsRefusal(zone: string, s: Server, records: seq<Record>, verdict: Record -> Verdict,
      inConflict: bool) {
    forall r :: r in records ==> ReadsRecord(zone, s, r, verdict(r), inConflict)
  }

  lemma RefusalVerdicts(zone: string, bootstrapMatches: (Record, Record) -> Result<bool, CodecError>, s: Server,
      phase: Phase, resp: Response, inConflict: bool)
    requires phase.CommitPhase? && DistinctIds(phase.records) && ReportsRefusalFully(s, phase.records, resp)
    requires forall r :: r in phase.records ==> r.kind != ObjectType
    ensures ReadsRefusal(zone, s, phase.records,
      c => VerdictOf(CodecJudge(zone, bootstrapMatches), phase, map[], FailedById(resp.failures), inConflict, c),
      inConflict)
  {
    var failed := FailedById(resp.failures);
    var verdict := (c: Record) => VerdictOf(CodecJudge(zone, bootstrapMatches), phase, map[], failed, inConflict, c);
    forall r | r in phase.records ensures ReadsRecord(zone, s, r, verdict(r), inConflict) {
      ReportOf(s, phase, resp, r);
      RefusedVerdict(zone, bootstrapMatches, s, phase, failed, inConflict, r);
    }
  }

  /** What such verdicts add up to. */
  lemma RefusalOutcome(zone: string, s: Server, phase: Phase, verdict: Record -> Verdict)
    requires phase.CommitPhase?
    requires var known := LostEntities(zone, s, phase.records);
      ReadsRefusal(zone, s, phase.records, verdict, known != {})
    ensures var known := LostEntities(zone, s, phase.records);
      var outcome := ReadingOutcome(phase, verdict, known);
      && (TakesConflictBranch(zone, s, phase.records) ==> outcome == CommitInConflict(phase.commitID, known))
      && (!TakesConflictBranch(zone, s, phase.records) && AlreadyHolds(zone, s, phase.records) ==> outcome.CommitDone?)
      && (!TakesConflictBranch(zone, s, phase.records) && !AlreadyHolds(zone, s, phase.records) ==> outcome == Failed)
  {
    var records, known := phase.records, LostEntities(zone, s, phase.records);
    SomeLost(zone, s, records);
    var reading := ReadAll(verdict, Elements(records), known);
    assert forall r :: r in records ==> ReadsRecord(zone, s, r, verdict(r), known != {});
    if r :| r in records && verdict(r).Bad? {
      BadVerdictFails(phase, verdict, known, r);
    } else {
      assert reading.conflicts == known && reading.collisions == {} && !reading.retry;
      if known == {} {
        AllHeld(zone, s, records);
      }
    }
  }

  lemma SomeLost(zone: string, s: Server, records: seq<Record>)
    ensures LostEntities(zone, s, records) != {} <==> exists r :: r in records && LosesSwap(zone, s, r)
  {
    if r :| r in records && LosesSwap(zone, s, r) {
      assert Classify(zone, r, s.records[r.id]).value.entityID in LostEntities(zone, s, records);
    }
  }

  lemma AllHeld(zone: string, s: Server, records: seq<Record>)
    requires forall r :: r in records ==> !Accepts(s, r) && Settleable(zone, s, r) && !LosesSwap(zone, s, r)
    ensures AlreadyHolds(zone, s, records)
  {
  }

  /**
   What a refused commit comes to, in every dictionary order. It takes the conflict branch, for exactly the
   entities that lost their swap, if and only if some head did, no head would have been accepted, and every other
   refused record is exactly the server's. It counts as published when the server holds exactly all of it.
   Otherwise the sync ends in an error.
   */
  lemma ConflictBranchIff(zone: string, bootstrapMatches: (Record, Record) -> Result<bool, CodecError>, s: Server,
      phase: Phase, resp: Response, order: seq<Record>)
    requires phase.CommitPhase? && DistinctIds(phase.records) && IterationOrder(order, phase)
    requires forall r :: r in phase.records ==> r.kind != ObjectType
    requires ReportsRefusalFully(s, phase.records, resp)
    ensures var j := CodecJudge(zone, bootstrapMatches);
      var outcome := ClassOf(Resolve(j, phase, resp.saved, resp.failures, order));
      && (outcome.CommitInConflict? <==> TakesConflictBranch(zone, s, phase.records))
      && (outcome.CommitInConflict? ==>
            outcome == CommitInConflict(phase.commitID, LostEntities(zone, s, phase.records)))
      && (outcome.CommitDone? <==> AlreadyHolds(zone, s, phase.records))
      && (outcome.CommitInConflict? || outcome.CommitDone? || outcome == Failed)
  {
    var j := CodecJudge(zone, bootstrapMatches);
    CodecJudgeIsLawful(zone, bootstrapMatches);
    RefusalReport(phase, s, resp);
    ResolveReads(j, phase, resp.saved, resp.failures, order);
    SomeLost(zone, s, phase.records);
    if HeadConflicts(j, phase, resp.failures).Err? {
      var r := StumblingHead(zone, bootstrapMatches, s, phase, resp);
    } else {
      PrepassFinds(j, phase, resp.failures);
      LostAreReported(zone, bootstrapMatches, s, phase, resp);
      var known := LostEntities(zone, s, phase.records);
      RefusalVerdicts(zone, bootstrapMatches, s, phase, resp, known != {});
      RefusalOutcome(zone, s, phase, c => VerdictOf(j, phase, map[], FailedById(resp.failures), known != {}, c));
    }
  }
}
