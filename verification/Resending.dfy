/**
 Handling the report of a batch that the server stored or already holds (CloudSentBatchResolver.swift:64-92,
 CloudRecordSyncSession.swift:274-359): it succeeds, with object collisions reported with or without their assets.
 In particular sending a batch again is harmless.
 */
module Resending {
  import opened Prelude
  import opened Records
  import opened RecordCodec
  import opened Planner
  import opened Resolver
  import opened CloudServer
  import opened SyncProtocol
  import opened SyncTheorems
  import opened OutboundLoop

  /** The server already holds every record of the batch, under versions the batch does not name. */
  ghost predicate AlreadyHolds(zone: string, s: Server, records: seq<Record>) {
    forall r :: r in records ==>
      !Accepts(s, r) && r.id in s.records && Classify(zone, r, s.records[r.id]) == Ok(AlreadySaved)
  }

  /** A report with one failure for each record, in order. */
  ghost predicate FailsEach(records: seq<Record>, resp: Response) {
    && resp.saved == [] && |resp.failures| == |records|
    && forall i :: 0 <= i < |records| ==> resp.failures[i].record == records[i]
  }

  lemma OneFailureEach(phase: Phase, resp: Response)
    requires DistinctIds(phase.records) && FailsEach(phase.records, resp)
    ensures Screen(phase, resp.saved, resp.failures).None? && CarriesSent(phase, resp.failures)
    ensures DistinctFailures(resp.failures) && FailureIds(resp.failures) == Ids(phase.records)
  {
    forall i | 0 <= i < |phase.records|
      ensures phase.records[i].id in FailureIds(resp.failures) && resp.failures[i].record.id in Ids(phase.records)
    {
      assert resp.failures[i] in resp.failures && phase.records[i] in phase.records;
    }
  }

  lemma HeldCollision(zone: string, client: Record, server: Record)
    requires Classify(zone, client, server) == Ok(AlreadySaved)
    ensures !NeedsAssetFetch(client, server) && DecodedHeadEntity(zone, server).Ok?
  {
    AcceptedCollision(zone, client, server);
  }

  // ----- stored or held -----

  /** The record collides with the server's; the copy of an object may lack its asset. */
  ghost predicate CollidesWithCopy(s: Server, f: SaveFailure, r: Record) {
    && r.id in s.records && f.record == r && f.code == ServerRecordChanged
    && f.server.Some? && IsCopy(f.server.value, s.records[r.id])
  }

  /** A complete report in which every record was saved, or collides with exactly itself. */
  ghost predicate StoredOrHeld(zone: string, s: Server, phase: Phase, resp: Response) {
    && DistinctIds(phase.records) && Screen(phase, resp.saved, resp.failures).None? && CarriesSent(phase, resp.failures)
    && Ids(resp.saved) !! FailureIds(resp.failures)
    && (forall q :: q in resp.saved && q.kind == HeadType ==> Decode(zone, q).Ok?)
    && (forall f :: f in resp.failures ==>
          && CollidesWithCopy(s, f, f.record)
          && Classify(zone, f.record, s.records[f.record.id]) == Ok(AlreadySaved))
  }

  /** A copy of a record that is held is the record itself, or lacks the asset. */
  lemma CopyOrStripped(zone: string, r: Record, original: Record, copy: Record)
    requires Classify(zone, r, original) == Ok(AlreadySaved) && IsCopy(copy, original) && !NeedsAssetFetch(r, copy)
    ensures copy == original
  {
    AcceptedCollision(zone, r, original);
  }

  ghost predicate Stripped(failed: map<RecordId, SaveFailure>, c: Record) {
    c.id in failed && failed[c.id].server.Some? && NeedsAssetFetch(c, failed[c.id].server.value)
  }

  /** The record's report asks for its asset, or raises nothing. */
  ghost predicate AsksForAsset(v: Verdict, stripped: bool) {
    v.Fine? && !v.retry && v.conflict.None? && v.collision == stripped
  }

  lemma CopyVerdict(zone: string, bootstrapMatches: (Record, Record) -> Result<bool, CodecError>, s: Server,
      phase: Phase, saved: map<RecordId, Record>, failed: map<RecordId, SaveFailure>, c: Record)
    requires !phase.BootstrapPhase? && c.id !in saved && c.id in failed && CollidesWithCopy(s, failed[c.id], c)
    requires Classify(zone, c, s.records[c.id]) == Ok(AlreadySaved)
    ensures AsksForAsset(VerdictOf(CodecJudge(zone, bootstrapMatches), phase, saved, failed, false, c),
      Stripped(failed, c))
  {
    if !Stripped(failed, c) {
      CopyOrStripped(zone, c, s.records[c.id], failed[c.id].server.value);
      HeldCollision(zone, c, s.records[c.id]);
    }
  }

  lemma StoredVerdict(zone: string, bootstrapMatches: (Record, Record) -> Result<bool, CodecError>, phase: Phase,
      saved: map<RecordId, Record>, failed: map<RecordId, SaveFailure>, c: Record)
    requires !phase.BootstrapPhase? && c.id in saved && c.id !in failed
    requires saved[c.id].kind == HeadType ==> Decode(zone, saved[c.id]).Ok?
    ensures AsksForAsset(VerdictOf(CodecJudge(zone, bootstrapMatches), phase, saved, failed, false, c),
      Stripped(failed, c))
  {
  }

  lemma SettledVerdict(zone: string, bootstrapMatches: (Record, Record) -> Result<bool, CodecError>, s: Server,
      phase: Phase, resp: Response, c: Record)
    requires !phase.BootstrapPhase? && StoredOrHeld(zone, s, phase, resp) && c in phase.records
    ensures var saved, failed := SavedById(resp.saved), FailedById(resp.failures);
      AsksForAsset(VerdictOf(CodecJudge(zone, bootstrapMatches), phase, saved, failed, false, c), Stripped(failed, c))
  {
    var saved, failed := SavedById(resp.saved), FailedById(resp.failures);
    assert c.id in Ids(phase.records);
    if c.id in saved {
      StoredVerdict(zone, bootstrapMatches, phase, saved, failed, c);
    } else {
      SameIdSameRecord(phase.records, failed[c.id].record, c);
      CopyVerdict(zone, bootstrapMatches, s, phase, saved, failed, c);
    }
  }

  lemma {:induction false} NoHeadLost(j: Judge, phase: Phase, failures: seq<SaveFailure>)
    requires forall f :: f in failures && f.record.kind == HeadType ==>
      f.server.Some? && j.classify(f.record, f.server.value) == Ok(AlreadySaved)
    ensures HeadConflicts(j, phase, failures) == Ok({})
    decreases |failures|
  {
    if failures != [] {
      NoHeadLost(j, phase, failures[..|failures| - 1]);
    }
  }

  lemma HeldHeads(zone: string, bootstrapMatches: (Record, Record) -> Result<bool, CodecError>, s: Server,
      phase: Phase, resp: Response)
    requires StoredOrHeld(zone, s, phase, resp)
    ensures HeadConflicts(CodecJudge(zone, bootstrapMatches), phase, resp.failures) == Ok({})
  {
    var j := CodecJudge(zone, bootstrapMatches);
    forall f | f in resp.failures && f.record.kind == HeadType
      ensures f.server.Some? && j.classify(f.record, f.server.value) == Ok(AlreadySaved) {
      CopyOrStripped(zone, f.record, s.records[f.record.id], f.server.value);
    }
    NoHeadLost(j, phase, resp.failures);
  }

  ghost function StrippedIds(phase: Phase, failed: map<RecordId, SaveFailure>): set<RecordId> {
    set c | c in Elements(phase.records) && Stripped(failed, c) :: c.id
  }

  predicate IsDone(o: Outcome) {
    o.ObjectsDone? || o.CommitDone? || o.ConflictBranchDone?
  }

  lemma AskingOutcome(phase: Phase, verdict: Record -> Verdict, failed: map<RecordId, SaveFailure>)
    requires !phase.BootstrapPhase?
    requires forall c :: c in phase.records ==> AsksForAsset(verdict(c), Stripped(failed, c))
    ensures var outcome := ReadingOutcome(phase, verdict, {});
      if StrippedIds(phase, failed) == {} then IsDone(outcome)
      else outcome == CollisionsToFetch(StrippedIds(phase, failed))
    ensures var outcome := ReadingOutcome(phase, verdict, {});
      outcome.CommitDone? ==> outcome.heads == ReadAll(verdict, Elements(phase.records), {}).heads
  {
    var reading := ReadAll(verdict, Elements(phase.records), {});
    assert forall c :: c in Elements(phase.records) ==> AsksForAsset(verdict(c), Stripped(failed, c));
    assert reading.conflicts == {} && !reading.retry;
    assert reading.collisions == StrippedIds(phase, failed);
  }

  lemma ClassedAs(r: Resolution)
    ensures IsDone(ClassOf(r)) ==> IsAccepted(r)
    ensures ClassOf(r).CollisionsToFetch? ==> r == FetchObjectCollisions(ClassOf(r).recordIDs)
  {
  }

  /** One reading of such a report: accepted, or exactly the missing assets are asked for. */
  lemma OneReading(zone: string, bootstrapMatches: (Record, Record) -> Result<bool, CodecError>, s: Server,
      phase: Phase, resp: Response, order: seq<Record>)
    requires !phase.BootstrapPhase? && StoredOrHeld(zone, s, phase, resp) && IterationOrder(order, phase)
    ensures var first := Resolve(CodecJudge(zone, bootstrapMatches), phase, resp.saved, resp.failures, order);
      var missing := StrippedIds(phase, FailedById(resp.failures));
      if missing == {} then IsAccepted(first) else first == FetchObjectCollisions(missing)
  {
    var j, saved, failed := CodecJudge(zone, bootstrapMatches), SavedById(resp.saved), FailedById(resp.failures);
    CodecJudgeIsLawful(zone, bootstrapMatches);
    HeldHeads(zone, bootstrapMatches, s, phase, resp);
    ResolveReads(j, phase, resp.saved, resp.failures, order);
    var known: set<string> := HeadConflicts(j, phase, resp.failures).value;
    var verdict := (c: Record) => VerdictOf(j, phase, saved, failed, known != {}, c);
    forall c | c in phase.records ensures AsksForAsset(verdict(c), Stripped(failed, c)) {
      SettledVerdict(zone, bootstrapMatches, s, phase, resp, c);
    }
    AskingOutcome(phase, verdict, failed);
    ClassedAs(Resolve(j, phase, resp.saved, resp.failures, order));
  }

  // ----- the missing assets -----

  lemma CompletedFailure(zone: string, s: Server, s': Server, phase: Phase, resp: Response, f: SaveFailure)
    requires StoredOrHeld(zone, s, phase, resp) && f in resp.failures
    requires f.record.id in s'.records && s'.records[f.record.id] == s.records[f.record.id]
    ensures Complete(s', StrippedIds(phase, FailedById(resp.failures)), f)
      == f.(server := Some(s.records[f.record.id]))
  {
    FailureOf(resp.failures, f);
    var failed := FailedById(resp.failures);
    assert f.record in Elements(phase.records);
    if f.record.id !in StrippedIds(phase, failed) {
      assert !Stripped(failed, f.record);
      CopyOrStripped(zone, f.record, s.records[f.record.id], f.server.value);
    }
  }

  /** The server still has what the failures collide with. */
  ghost predicate StillThere(s: Server, s': Server, failures: seq<SaveFailure>) {
    forall f :: f in failures && f.record.id in s.records ==>
      f.record.id in s'.records && s'.records[f.record.id] == s.records[f.record.id]
  }

  /** Completed from the server, the report asks for nothing more. */
  lemma CompletedReport(zone: string, s: Server, s': Server, phase: Phase, resp: Response)
    requires StoredOrHeld(zone, s, phase, resp) && StillThere(s, s', resp.failures)
    ensures var ids := StrippedIds(phase, FailedById(resp.failures));
      var again := Response(resp.saved, CompleteAll(s', ids, resp.failures));
      && ids <= s'.records.Keys && StoredOrHeld(zone, s, phase, again)
      && StrippedIds(phase, FailedById(again.failures)) == {}
  {
    var failed := FailedById(resp.failures);
    var ids := StrippedIds(phase, failed);
    var failures := CompleteAll(s', ids, resp.failures);
    forall i | 0 <= i < |failures|
      ensures failures[i].record == resp.failures[i].record && resp.failures[i] in resp.failures
      ensures failures[i].record.id in s.records
      ensures failures[i] == resp.failures[i].(server := Some(s.records[failures[i].record.id])) {
      assert resp.failures[i] in resp.failures;
      CompletedFailure(zone, s, s', phase, resp, resp.failures[i]);
    }
    SameScreen(phase, resp.saved, resp.failures, failures);
    forall f | f in failures
      ensures CollidesWithCopy(s, f, f.record) && f.server == Some(s.records[f.record.id])
      ensures Classify(zone, f.record, s.records[f.record.id]) == Ok(AlreadySaved) {
      var i :| 0 <= i < |failures| && failures[i] == f;
      assert CollidesWithCopy(s, resp.failures[i], resp.failures[i].record);
    }
    NothingStripped(zone, s, phase, failures);
  }

  lemma SameScreen(phase: Phase, saved: seq<Record>, failures: seq<SaveFailure>, others: seq<SaveFailure>)
    requires |others| == |failures| && forall i :: 0 <= i < |failures| ==> others[i].record == failures[i].record
    ensures Screen(phase, saved, others) == Screen(phase, saved, failures) && FailureIds(others) == FailureIds(failures)
    ensures CarriesSent(phase, failures) ==> CarriesSent(phase, others)
  {
    forall f | f in failures ensures f.record.id in FailureIds(others) {
      var i :| 0 <= i < |failures| && failures[i] == f;
      assert others[i] in others;
    }
    forall f | f in others ensures f.record.id in FailureIds(failures)
      && (CarriesSent(phase, failures) ==> f.record in phase.records) {
      var i :| 0 <= i < |others| && others[i] == f;
      assert failures[i] in failures;
    }
    assert DistinctFailures(others) == DistinctFailures(failures);
  }

  lemma NothingStripped(zone: string, s: Server, phase: Phase, failures: seq<SaveFailure>)
    requires DistinctIds(phase.records) && CarriesSent(phase, failures)
    requires forall f :: f in failures ==>
      && f.record.id in s.records && f.server == Some(s.records[f.record.id])
      && Classify(zone, f.record, s.records[f.record.id]) == Ok(AlreadySaved)
    ensures StrippedIds(phase, FailedById(failures)) == {}
  {
    var failed := FailedById(failures);
    forall c | c in Elements(phase.records) ensures !Stripped(failed, c) {
      if c.id in failed {
        SameIdSameRecord(phase.records, failed[c.id].record, c);
        HeldCollision(zone, c, s.records[c.id]);
      }
    }
  }

  // ----- what the device does -----

  /** What an accepted batch does to the device. */
  ghost predicate Lands(tr: Transport, st: Outbound, phase: Phase, st': Outbound) {
    match phase
    case ObjectsPhase(records) => st' == st.(verified := st.verified + VerifiedDigests(tr, records))
    case CommitPhase(commitID, _) => st' == st.(outbox := Settle(st.outbox, commitID), heads := st'.heads)
    case ConflictBranchPhase(commitID, _) => st' == st.(outbox := Settle(st.outbox, commitID))
    case BootstrapPhase(_) => false
  }

  lemma AcceptedLands(tr: Transport, st: Outbound, phase: Phase, saved: seq<Record>, failures: seq<SaveFailure>,
      order: seq<Record>)
    requires IsAccepted(Resolve(tr.judge, phase, saved, failures, order))
    requires forall r :: r in phase.records ==> tr.decode(r).Ok?
    ensures var after := AfterResolution(tr, st, failures, Resolve(tr.judge, phase, saved, failures, order), true);
      after.Ok? && Lands(tr, st, phase, after.value)
  {
    AcceptedKind(tr.judge, phase, saved, failures, order);
  }

  /**
   Handling the report of a batch that was stored or is held succeeds in every dictionary order, whichever of its
   object collisions come without their assets: at once, or after the missing assets were fetched and the
   report resolved again.
   */
  lemma HandlingSucceeds(zone: string, bootstrapMatches: (Record, Record) -> Result<bool, CodecError>, s: Server,
      st: Outbound, phase: Phase, resp: Response, order: seq<Record>)
    requires !phase.BootstrapPhase? && StoredOrHeld(zone, s, phase, resp) && IterationOrder(order, phase)
    requires StillThere(s, st.server, resp.failures) && forall r :: r in phase.records ==> Decode(zone, r).Ok?
    ensures var tr := FloriaTransport(zone, bootstrapMatches);
      var after := AfterReport(tr, st, phase, resp, order, true);
      after.Ok? && Lands(tr, st, phase, after.value)
  {
    var missing := StrippedIds(phase, FailedById(resp.failures));
    OneReading(zone, bootstrapMatches, s, phase, resp, order);
    if missing != {} {
      CompletedReport(zone, s, st.server, phase, resp);
      OneReading(zone, bootstrapMatches, s, phase,
        Response(resp.saved, CompleteAll(st.server, missing, resp.failures)), order);
    }
    ReadAtMostTwice(FloriaTransport(zone, bootstrapMatches), st, phase, resp, order, missing);
  }

  lemma ReadAtMostTwice(tr: Transport, st: Outbound, phase: Phase, resp: Response, order: seq<Record>,
      missing: set<RecordId>)
    requires var first := Resolve(tr.judge, phase, resp.saved, resp.failures, order);
      if missing == {} then IsAccepted(first) else first == FetchObjectCollisions(missing)
    requires missing != {} ==>
      && missing <= st.server.records.Keys
      && IsAccepted(Resolve(tr.judge, phase, resp.saved, CompleteAll(st.server, missing, resp.failures), order))
    requires forall r :: r in phase.records ==> tr.decode(r).Ok?
    ensures var after := AfterReport(tr, st, phase, resp, order, true);
      after.Ok? && Lands(tr, st, phase, after.value)
  {
    if missing == {} {
      AcceptedLands(tr, st, phase, resp.saved, resp.failures, order);
    } else {
      AcceptedLands(tr, st, phase, resp.saved, CompleteAll(st.server, missing, resp.failures), order);
    }
  }

  // ----- sending again -----

  /** The report of a batch that collides as a whole. */
  ghost predicate ReportsCopies(s: Server, records: seq<Record>, resp: Response) {
    FailsEach(records, resp) && forall i :: 0 <= i < |records| ==> CollidesWithCopy(s, resp.failures[i], records[i])
  }

  lemma HeldReport(zone: string, s: Server, phase: Phase, resp: Response)
    requires DistinctIds(phase.records) && AlreadyHolds(zone, s, phase.records)
      && ReportsCopies(s, phase.records, resp)
    ensures StoredOrHeld(zone, s, phase, resp)
  {
    OneFailureEach(phase, resp);
    forall f | f in resp.failures
      ensures CollidesWithCopy(s, f, f.record) && Classify(zone, f.record, s.records[f.record.id]) == Ok(AlreadySaved) {
      var i :| 0 <= i < |resp.failures| && resp.failures[i] == f;
      assert phase.records[i] in phase.records;
    }
  }

  lemma ResendWritesNothing(s: Server, s': Server, records: seq<Record>, atomic: bool)
    requires Writes(s, s', records, atomic) && forall r :: r in records ==> !Accepts(s, r)
    ensures s'.records == s.records
  {
    forall id | id in s'.records ensures id in s.records && s'.records[id] == s.records[id] {
      if Changed(s, s', id) {
        var r := SentFor(s, s', records, atomic, id);
      }
    }
  }

  lemma HeldDecodes(zone: string, s: Server, records: seq<Record>)
    requires AlreadyHolds(zone, s, records)
    ensures forall r :: r in records ==> Decode(zone, r).Ok?
  {
    forall r | r in records ensures Decode(zone, r).Ok? {
      AcceptedCollision(zone, r, s.records[r.id]);
    }
  }

  /** Resending is harmless: a batch the server already holds changes no record, and handling its report succeeds. */
  lemma ResendIsHarmless(zone: string, bootstrapMatches: (Record, Record) -> Result<bool, CodecError>, st: Outbound,
      s': Server, phase: Phase, resp: Response, order: seq<Record>)
    requires !phase.BootstrapPhase? && DistinctIds(phase.records) && AlreadyHolds(zone, st.server, phase.records)
    requires Writes(st.server, s', phase.records, phase.AtomicByZone())
    requires ReportsCopies(st.server, phase.records, resp) && IterationOrder(order, phase)
    ensures s'.records == st.server.records
    ensures var tr := FloriaTransport(zone, bootstrapMatches);
      var after := AfterReport(tr, st.(server := s'), phase, resp, order, true);
      after.Ok? && Lands(tr, st.(server := s'), phase, after.value)
  {
    ResendWritesNothing(st.server, s', phase.records, phase.AtomicByZone());
    HeldReport(zone, st.server, phase, resp);
    HeldDecodes(zone, st.server, phase.records);
    HandlingSucceeds(zone, bootstrapMatches, st.server, st.(server := s'), phase, resp, order);
  }
}
