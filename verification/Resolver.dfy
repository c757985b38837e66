/**
 What a finished send batch means (CloudSentBatchResolver.swift). The source walks a dictionary,
 whose order is arbitrary; the module gives the walk for every order, an order-free reading of the
 same reports, and the theorem that they agree.
 */
module Resolver {
  import opened Prelude
  import opened Records
  import opened RecordCodec
  import opened Planner

  datatype ErrorCode =
    | ServerRecordChanged | BatchRequestFailed
    | NetworkFailure | NetworkUnavailable | ServiceUnavailable | RequestRateLimited
    | ZoneBusy | OperationCancelled | NotAuthenticated | ZoneNotFound
    | OtherCode(rawValue: int)

  predicate Transient(code: ErrorCode) {
    !code.ServerRecordChanged? && !code.BatchRequestFailed? && !code.OtherCode?
  }

  datatype SaveFailure = SaveFailure(record: Record, code: ErrorCode, server: Option<Record>)

  datatype Phase =
    | BootstrapPhase(records: seq<Record>)
    | ObjectsPhase(records: seq<Record>)
    | CommitPhase(commitID: string, records: seq<Record>)
    | ConflictBranchPhase(commitID: string, records: seq<Record>)
  {
    predicate AtomicByZone() {
      BootstrapPhase? || CommitPhase?
    }
  }

  datatype Resolution =
    | BootstrapAccepted
    | ObjectsVerified(records: seq<Record>)
    | CommitAccepted(commitID: string, heads: map<string, Record>)
    | ConflictBranchAccepted(commitID: string)
    | CommitConflict(commitID: string, entityIDs: set<string>)
    | FetchObjectCollisions(recordIDs: set<RecordId>)
    | Retry
    | Damaged
    | Throws

  /**
   The record judgements the resolver delegates: collision class, lifecycle byte equality and the
   entity of a head. `CodecJudge` is the one the source uses.
   */
  datatype Judge = Judge(
    classify: (Record, Record) -> Result<Collision, CodecError>,
    bootstrapMatches: (Record, Record) -> Result<bool, CodecError>,
    headEntity: Record -> Result<Option<string>, CodecError>)

  function DecodedHeadEntity(zone: string, r: Record): Result<Option<string>, CodecError> {
    var d :- Decode(zone, r);
    Ok(if d.DecodedHead? then Some(d.headEntityID) else None)
  }

  function CodecJudge(zone: string, bootstrapMatches: (Record, Record) -> Result<bool, CodecError>): Judge {
    Judge((c, s) => Classify(zone, c, s), bootstrapMatches, r => DecodedHeadEntity(zone, r))
  }

  /** The laws of a judge that order-independence needs. */
  ghost predicate Lawful(j: Judge) {
    && (forall c, s :: j.classify(c, s).Ok? && j.classify(c, s).value.HeadConflict? ==> c.kind == HeadType)
    && (forall c, s :: j.classify(c, s) == Ok(AlreadySaved) ==> c.id == s.id)
    && (forall r, s :: j.headEntity(r).Ok? && j.headEntity(r).value.Some? && j.headEntity(s) == j.headEntity(r) ==>
      r.id == s.id)
  }

  lemma CodecJudgeIsLawful(zone: string, bootstrapMatches: (Record, Record) -> Result<bool, CodecError>)
    ensures Lawful(CodecJudge(zone, bootstrapMatches))
  {
    forall c, s | Classify(zone, c, s).Ok? && Classify(zone, c, s).value.HeadConflict? ensures c.kind == HeadType {
      ConflictingCollision(zone, c, s);
    }
    forall c, s | Classify(zone, c, s) == Ok(AlreadySaved) ensures c.id == s.id {
      AcceptedCollision(zone, c, s);
    }
    forall r, s | DecodedHeadEntity(zone, r).Ok? && DecodedHeadEntity(zone, r).value.Some?
      && DecodedHeadEntity(zone, s) == DecodedHeadEntity(zone, r)
      ensures r.id == s.id
    {
      DecodeChecksIdentity(zone, r);
      DecodeChecksIdentity(zone, s);
    }
  }

  // ----- the batch and its report -----

  predicate DistinctIds(records: seq<Record>) {
    forall i, j :: 0 <= i < j < |records| ==> records[i].id != records[j].id
  }

  predicate DistinctFailures(failures: seq<SaveFailure>) {
    forall i, j :: 0 <= i < j < |failures| ==> failures[i].record.id != failures[j].record.id
  }

  function Ids(records: seq<Record>): set<RecordId> {
    set r | r in records :: r.id
  }

  function FailureIds(failures: seq<SaveFailure>): set<RecordId> {
    set f | f in failures :: f.record.id
  }

  function SavedById(records: seq<Record>): (m: map<RecordId, Record>)
    ensures m.Keys == Ids(records)
    ensures forall id :: id in m ==> m[id] in records && m[id].id == id
  {
    if records == [] then map[]
    else
      var n := |records| - 1;
      assert records == records[..n] + [records[n]];
      SavedById(records[..n])[records[n].id := records[n]]
  }

  function FailedById(failures: seq<SaveFailure>): (m: map<RecordId, SaveFailure>)
    ensures m.Keys == FailureIds(failures)
    ensures forall id :: id in m ==> m[id] in failures && m[id].record.id == id
  {
    if failures == [] then map[]
    else
      var n := |failures| - 1;
      assert failures == failures[..n] + [failures[n]];
      FailedById(failures[..n])[failures[n].record.id := failures[n]]
  }

  function NeedsAssetFetch(client: Record, server: Record): bool {
    && client.id == server.id && client.kind == ObjectType && server.kind == ObjectType
    && !(Ciphertext in server.fields && server.fields[Ciphertext].Asset? && server.fields[Ciphertext].file.Some?)
  }

  /** Heads of an atomic commit that lost their compare-and-swap, found before the walk. */
  function HeadConflicts(j: Judge, phase: Phase, failures: seq<SaveFailure>): Result<set<string>, CodecError> {
    if !phase.CommitPhase? || failures == [] then Ok({})
    else
      var n := |failures| - 1;
      var rest :- HeadConflicts(j, phase, failures[..n]);
      var f := failures[n];
      if f.code.ServerRecordChanged? && f.record.kind == HeadType && f.server.Some? then
        var c :- j.classify(f.record, f.server.value);
        Ok(if c.HeadConflict? then rest + {c.entityID} else rest)
      else Ok(rest)
  }

  // ----- the walk -----

  datatype Tally = Tally(heads: map<string, Record>, retry: bool, collisions: set<RecordId>, conflicts: set<string>)
  datatype Progress = Going(tally: Tally) | Stop(outcome: Resolution)

  function AcceptHead(t: Tally, entity: Option<string>, server: Record): Tally {
    if entity.Some? then t.(heads := t.heads[entity.value := server]) else t
  }

  function SavedStep(j: Judge, phase: Phase, client: Record, server: Record, t: Tally): Progress {
    if phase.BootstrapPhase? && j.bootstrapMatches(client, server).Err? then Stop(Throws)
    else if phase.BootstrapPhase? && !j.bootstrapMatches(client, server).value then Stop(Damaged)
    else if server.kind != HeadType then Going(t)
    else if j.headEntity(server).Err? then Stop(Throws)
    else Going(AcceptHead(t, j.headEntity(server).value, server))
  }

  function CollisionStep(j: Judge, phase: Phase, client: Record, server: Record, t: Tally): Progress {
    if phase.BootstrapPhase? then
      if j.bootstrapMatches(client, server).Err? then Stop(Throws)
      else if !j.bootstrapMatches(client, server).value then Stop(Damaged)
      else Going(t)
    else if NeedsAssetFetch(client, server) then Going(t.(collisions := t.collisions + {client.id}))
    else
      match j.classify(client, server)
      case Err(_) => Stop(Throws)
      case Ok(DamagedRecord) => Stop(Damaged)
      case Ok(HeadConflict(entityID)) => Going(t.(conflicts := t.conflicts + {entityID}))
      case Ok(AlreadySaved) =>
        if j.headEntity(server).Err? then Stop(Throws)
        else Going(AcceptHead(t, j.headEntity(server).value, server))
  }

  function Step(j: Judge, phase: Phase, saved: map<RecordId, Record>, failed: map<RecordId, SaveFailure>,
                client: Record, t: Tally): Progress
  {
    if client.id in saved then SavedStep(j, phase, client, saved[client.id], t)
    else if client.id !in failed then Going(t.(retry := true))
    else
      var f := failed[client.id];
      if f.code.ServerRecordChanged? then
        if f.server.None? then Stop(Damaged) else CollisionStep(j, phase, client, f.server.value, t)
      else if Transient(f.code) then Going(t.(retry := true))
      else if f.code.BatchRequestFailed? && t.conflicts != {} && client.kind != HeadType then Going(t)
      else Stop(Damaged)
  }

  function Walk(step: (Record, Tally) -> Progress, order: seq<Record>, t: Tally): Progress {
    if order == [] then Going(t)
    else
      match step(order[0], t)
      case Stop(r) => Stop(r)
      case Going(t') => Walk(step, order[1..], t')
  }

  function Conclude(phase: Phase, t: Tally): Resolution {
    if t.conflicts != {} then
      if phase.CommitPhase? then CommitConflict(phase.commitID, t.conflicts) else Damaged
    else if t.collisions != {} then FetchObjectCollisions(t.collisions)
    else if t.retry then Retry
    else
      match phase
      case BootstrapPhase(_) => BootstrapAccepted
      case ObjectsPhase(records) => ObjectsVerified(records)
      case CommitPhase(commitID, _) => CommitAccepted(commitID, t.heads)
      case ConflictBranchPhase(commitID, _) => ConflictBranchAccepted(commitID)
  }

  /** The part of `resolve` that precedes the walk: the walk is needed only when this is `None`. */
  function Screen(phase: Phase, savedRecords: seq<Record>, failures: seq<SaveFailure>): Option<Resolution> {
    if !DistinctIds(phase.records) || !DistinctIds(savedRecords) || !DistinctFailures(failures) then Some(Damaged)
    else
      var reported := Ids(savedRecords) + FailureIds(failures);
      if !(reported <= Ids(phase.records)) then Some(Damaged)
      else if reported != Ids(phase.records) then Some(Retry)
      else None
  }

  function Resolve(j: Judge, phase: Phase, savedRecords: seq<Record>, failures: seq<SaveFailure>, order: seq<Record>)
    : Resolution
  {
    match Screen(phase, savedRecords, failures)
    case Some(r) => r
    case None =>
      match HeadConflicts(j, phase, failures)
      case Err(_) => Throws
      case Ok(conflicts) =>
        var saved, failed := SavedById(savedRecords), FailedById(failures);
        Conclusion(phase, Walk((c, t) => Step(j, phase, saved, failed, c, t), order,
          Tally(map[], false, {}, conflicts)))
  }

  /** The dictionary walk as the source runs it: a loop that updates the tally and may return early. */
  method WalkInOrder(step: (Record, Tally) -> Progress, order: seq<Record>, start: Tally) returns (p: Progress)
    ensures p == Walk(step, order, start)
  {
    var t := start;
    for i := 0 to |order|
      invariant Walk(step, order, start) == Walk(step, order[i..], t)
    {
      var next := step(order[i], t);
      assert order[i..][0] == order[i] && order[i..][1..] == order[i + 1..];
      if next.Stop? {
        return next;
      }
      t := next.tally;
    }
    return Going(t);
  }

  // ----- the order-free reading -----

  /** What one record's report means by itself, given the heads known to be in conflict. */
  datatype Verdict = Bad | Fine(head: Option<(string, Record)>, retry: bool, collision: bool, conflict: Option<string>)

  const Nothing := Fine(None, false, false, None)

  function HeadVerdict(entity: Result<Option<string>, CodecError>, server: Record): Verdict {
    match entity
    case Err(_) => Bad
    case Ok(None) => Nothing
    case Ok(Some(e)) => Fine(Some((e, server)), false, false, None)
  }

  function SavedVerdict(j: Judge, phase: Phase, client: Record, server: Record): Verdict {
    if phase.BootstrapPhase? && j.bootstrapMatches(client, server) != Ok(true) then Bad
    else if server.kind != HeadType then Nothing
    else HeadVerdict(j.headEntity(server), server)
  }

  function CollisionVerdict(j: Judge, phase: Phase, client: Record, server: Record): Verdict {
    if phase.BootstrapPhase? then
      if j.bootstrapMatches(client, server) == Ok(true) then Nothing else Bad
    else if NeedsAssetFetch(client, server) then Fine(None, false, true, None)
    else
      match j.classify(client, server)
      case Ok(AlreadySaved) => HeadVerdict(j.headEntity(server), server)
      case Ok(HeadConflict(entityID)) => Fine(None, false, false, Some(entityID))
      case _ => Bad
  }

  function VerdictOf(j: Judge, phase: Phase, saved: map<RecordId, Record>, failed: map<RecordId, SaveFailure>,
                     inConflict: bool, client: Record): Verdict
  {
    if client.id in saved then SavedVerdict(j, phase, client, saved[client.id])
    else if client.id !in failed then Fine(None, true, false, None)
    else
      var f := failed[client.id];
      if f.code.ServerRecordChanged? then
        if f.server.None? then Bad else CollisionVerdict(j, phase, client, f.server.value)
      else if Transient(f.code) then Fine(None, true, false, None)
      else if f.code.BatchRequestFailed? && inConflict && client.kind != HeadType then Nothing
      else Bad
  }

  /** Outcome classes. A damaged batch and a thrown codec error both end the sync: one class. */
  datatype Outcome =
    | Failed | TryAgain | BootstrapDone | ObjectsDone(records: seq<Record>)
    | CommitDone(commitID: string, heads: set<(string, Record)>)
    | ConflictBranchDone(commitID: string)
    | CommitInConflict(commitID: string, entityIDs: set<string>)
    | CollisionsToFetch(recordIDs: set<RecordId>)

  /** The entries of a head map. */
  function Pairs(m: map<string, Record>): set<(string, Record)> {
    set e | e in m :: (e, m[e])
  }

  function ClassOf(r: Resolution): Outcome {
    match r
    case BootstrapAccepted => BootstrapDone
    case ObjectsVerified(records) => ObjectsDone(records)
    case CommitAccepted(commitID, heads) => CommitDone(commitID, Pairs(heads))
    case ConflictBranchAccepted(commitID) => ConflictBranchDone(commitID)
    case CommitConflict(commitID, entityIDs) => CommitInConflict(commitID, entityIDs)
    case FetchObjectCollisions(recordIDs) => CollisionsToFetch(recordIDs)
    case Retry => TryAgain
    case Damaged => Failed
    case Throws => Failed
  }

  /** The contributions of a set of records, each read by itself. */
  datatype Reading = Reading(heads: set<(string, Record)>, retry: bool, collisions: set<RecordId>,
    conflicts: set<string>)

  ghost function ReadAll(verdict: Record -> Verdict, records: set<Record>, prior: set<string>): Reading {
    Reading(
      set c | c in records && verdict(c).Fine? && verdict(c).head.Some? :: verdict(c).head.value,
      exists c :: c in records && verdict(c).Fine? && verdict(c).retry,
      set c | c in records && verdict(c).Fine? && verdict(c).collision :: c.id,
      prior + set c | c in records && verdict(c).Fine? && verdict(c).conflict.Some? :: verdict(c).conflict.value)
  }

  function ConcludeReading(phase: Phase, r: Reading): Outcome {
    if r.conflicts != {} then
      if phase.CommitPhase? then CommitInConflict(phase.commitID, r.conflicts) else Failed
    else if r.collisions != {} then CollisionsToFetch(r.collisions)
    else if r.retry then TryAgain
    else
      match phase
      case BootstrapPhase(_) => BootstrapDone
      case ObjectsPhase(records) => ObjectsDone(records)
      case CommitPhase(commitID, _) => CommitDone(commitID, r.heads)
      case ConflictBranchPhase(commitID, _) => ConflictBranchDone(commitID)
  }

  /**
   The meaning of a reported batch as one statement about the set of its records: any bad record
   fails it; otherwise conflicts, then collisions to fetch, then retries decide.
   */
  ghost function Meaning(j: Judge, phase: Phase, savedRecords: seq<Record>, failures: seq<SaveFailure>): Outcome {
    match Screen(phase, savedRecords, failures)
    case Some(r) => ClassOf(r)
    case None =>
      match HeadConflicts(j, phase, failures)
      case Err(_) => Failed
      case Ok(conflicts) =>
        var saved, failed := SavedById(savedRecords), FailedById(failures);
        var verdict := c => VerdictOf(j, phase, saved, failed, conflicts != {}, c);
        ReadingOutcome(phase, verdict, conflicts)
  }

  // ----- the walk agrees with the reading -----

  function Apply(t: Tally, c: Record, v: Verdict): Tally
    requires v.Fine?
  {
    Tally(if v.head.Some? then t.heads[v.head.value.0 := v.head.value.1] else t.heads,
          t.retry || v.retry,
          if v.collision then t.collisions + {c.id} else t.collisions,
          if v.conflict.Some? then t.conflicts + {v.conflict.value} else t.conflicts)
  }

  predicate Follows(p: Progress, c: Record, t: Tally, v: Verdict) {
    if v.Bad? then p.Stop? && ClassOf(p.outcome) == Failed else p == Going(Apply(t, c, v))
  }

  /** A step of the walk is its verdict, as long as the tally knows of a conflict exactly when the verdict does. */
  lemma StepFollowsVerdict(j: Judge, phase: Phase, saved: map<RecordId, Record>, failed: map<RecordId, SaveFailure>,
                           c: Record, t: Tally)
    ensures Follows(Step(j, phase, saved, failed, c, t), c, t, VerdictOf(j, phase, saved, failed, t.conflicts != {}, c))
  {
  }

  ghost predicate StepsFollow(step: (Record, Tally) -> Progress, verdict: Record -> Verdict, inConflict: bool) {
    forall c: Record, t: Tally :: (t.conflicts != {}) == inConflict ==> Follows(step(c, t), c, t, verdict(c))
  }

  /** Every step keeps the conflicts already found, and stops only in failure. */
  ghost predicate StepsGrow(step: (Record, Tally) -> Progress) {
    forall c: Record, t: Tally ::
      match step(c, t)
      case Going(t') => t.conflicts <= t'.conflicts
      case Stop(r) => ClassOf(r) == Failed
  }

  /** `t` is `t0` plus the readings of `done`. */
  ghost predicate Accounts(verdict: Record -> Verdict, done: set<Record>, prior: set<string>, t: Tally) {
    Reading(Pairs(t.heads), t.retry, t.collisions, t.conflicts) == ReadAll(verdict, done, prior)
  }

  /** Two records never accept a head for the same entity. */
  ghost predicate OneHeadEach(verdict: Record -> Verdict, records: set<Record>) {
    forall c, d ::
      (&& c in records && d in records && verdict(c).Fine? && verdict(d).Fine?
       && verdict(c).head.Some? && verdict(d).head.Some? && verdict(c).head.value.0 == verdict(d).head.value.0)
      ==> c == d
  }

  lemma InsertPair(m: map<string, Record>, k: string, v: Record)
    requires k !in m
    ensures Pairs(m[k := v]) == Pairs(m) + {(k, v)}
  {
    forall i | i in Pairs(m) + {(k, v)} ensures i in Pairs(m[k := v]) {
      assert i.0 in m[k := v] && m[k := v][i.0] == i.1;
    }
  }

  lemma PairsHas(m: map<string, Record>, k: string)
    ensures k in m ==> (k, m[k]) in Pairs(m)
  {
  }

  lemma FreshHead(verdict: Record -> Verdict, records: set<Record>, done: set<Record>, prior: set<string>, t: Tally,
      c: Record)
    requires OneHeadEach(verdict, records) && done <= records && c in records && c !in done
    requires verdict(c).Fine? && verdict(c).head.Some? && Accounts(verdict, done, prior, t)
    ensures verdict(c).head.value.0 !in t.heads
  {
    PairsHas(t.heads, verdict(c).head.value.0);
  }

  lemma ApplyAccounts(verdict: Record -> Verdict, records: set<Record>, done: set<Record>, prior: set<string>, t: Tally,
      c: Record)
    requires OneHeadEach(verdict, records) && done <= records && c in records && c !in done
    requires verdict(c).Fine? && Accounts(verdict, done, prior, t)
    ensures Accounts(verdict, done + {c}, prior, Apply(t, c, verdict(c)))
  {
    var t', v := Apply(t, c, verdict(c)), verdict(c);
    var now := ReadAll(verdict, done + {c}, prior);
    if v.head.Some? {
      FreshHead(verdict, records, done, prior, t, c);
      InsertPair(t.heads, v.head.value.0, v.head.value.1);
    }
    assert Pairs(t'.heads) == now.heads;
    assert t'.retry == now.retry;
    assert t'.collisions == now.collisions;
    assert t'.conflicts == now.conflicts;
  }

  /** The whole walk, while the conflicts it finds were already known. */
  lemma {:induction false} WalkReads(step: (Record, Tally) -> Progress, verdict: Record -> Verdict,
      records: set<Record>, order: seq<Record>, done: set<Record>, prior: set<string>, t: Tally)
    requires StepsFollow(step, verdict, t.conflicts != {})
    requires OneHeadEach(verdict, records)
    requires done <= records && Elements(order) <= records && Elements(order) !! done && Distinct(order)
    requires Accounts(verdict, done, prior, t)
    requires forall c :: c in order && verdict(c).Fine? && verdict(c).conflict.Some? ==>
      verdict(c).conflict.value in t.conflicts
    ensures var p := Walk(step, order, t);
      if exists c :: c in order && verdict(c).Bad? then p.Stop? && ClassOf(p.outcome) == Failed
      else p.Going? && Accounts(verdict, done + Elements(order), prior, p.tally)
    decreases |order|
  {
    if order == [] {
      assert done + Elements(order) == done;
    } else {
      var c := order[0];
      assert c in order;
      assert Follows(step(c, t), c, t, verdict(c));
      if verdict(c).Fine? {
        ApplyAccounts(verdict, records, done, prior, t, c);
        var t' := Apply(t, c, verdict(c));
        assert t'.conflicts == t.conflicts;
        assert forall d :: d in order[1..] ==> d in order;
        assert forall d :: d in order ==> d == c || d in order[1..];
        WalkReads(step, verdict, records, order[1..], done + {c}, prior, t');
        assert done + {c} + Elements(order[1..]) == done + Elements(order);
      }
    }
  }

  /** Once a conflict is on the tally it stays there. */
  lemma {:induction false} WalkKeepsConflicts(step: (Record, Tally) -> Progress, order: seq<Record>, t: Tally)
    requires StepsGrow(step)
    ensures match Walk(step, order, t)
      case Going(t') => t.conflicts <= t'.conflicts
      case Stop(r) => ClassOf(r) == Failed
    decreases |order|
  {
    if order != [] && step(order[0], t).Going? {
      WalkKeepsConflicts(step, order[1..], step(order[0], t).tally);
    }
  }

  /** A walk that starts without conflicts and meets one ends in failure or with a conflict. */
  lemma {:induction false} WalkMeetsConflict(step: (Record, Tally) -> Progress, verdict: Record -> Verdict,
      order: seq<Record>, t: Tally)
    requires StepsFollow(step, verdict, false) && StepsGrow(step)
    requires t.conflicts == {}
    requires exists c :: c in order && verdict(c).Fine? && verdict(c).conflict.Some?
    ensures match Walk(step, order, t)
      case Going(t') => t'.conflicts != {}
      case Stop(r) => ClassOf(r) == Failed
    decreases |order|
  {
    var c := order[0];
    assert Follows(step(c, t), c, t, verdict(c));
    if verdict(c).Fine? {
      var t' := Apply(t, c, verdict(c));
      if verdict(c).conflict.Some? {
        assert verdict(c).conflict.value in t'.conflicts;
        WalkKeepsConflicts(step, order[1..], t');
      } else {
        WalkMeetsConflict(step, verdict, order[1..], t');
      }
    }
  }

  /** `order` lists every record of the batch once: some iteration order of the dictionary. */
  ghost predicate IterationOrder(order: seq<Record>, phase: Phase) {
    Distinct(order) && Elements(order) == Elements(phase.records)
  }

  /** Each reported failure carries the record that was sent. */
  ghost predicate CarriesSent(phase: Phase, failures: seq<SaveFailure>) {
    forall f :: f in failures ==> f.record in phase.records
  }

  /** The pre-pass knows every head conflict the walk can meet. */
  lemma {:induction false} PrepassCovers(j: Judge, phase: Phase, failures: seq<SaveFailure>, f: SaveFailure)
    requires phase.CommitPhase? && f in failures
    requires f.code.ServerRecordChanged? && f.record.kind == HeadType && f.server.Some?
    requires HeadConflicts(j, phase, failures).Ok?
    ensures j.classify(f.record, f.server.value).Ok?
    ensures var c := j.classify(f.record, f.server.value).value;
      c.HeadConflict? ==> c.entityID in HeadConflicts(j, phase, failures).value
    decreases |failures|
  {
    var n := |failures| - 1;
    assert failures == failures[..n] + [failures[n]];
    if f != failures[n] {
      PrepassCovers(j, phase, failures[..n], f);
    }
  }

  lemma SameIdSameRecord(records: seq<Record>, a: Record, b: Record)
    requires DistinctIds(records) && a in records && b in records && a.id == b.id
    ensures a == b
  {
  }

  lemma VerdictConflict(j: Judge, phase: Phase, saved: map<RecordId, Record>, failed: map<RecordId, SaveFailure>,
      k: bool, c: Record)
    requires VerdictOf(j, phase, saved, failed, k, c).Fine? && VerdictOf(j, phase, saved, failed, k, c).conflict.Some?
    ensures c.id in failed && failed[c.id].code.ServerRecordChanged? && failed[c.id].server.Some?
    ensures j.classify(c, failed[c.id].server.value)
         == Ok(HeadConflict(VerdictOf(j, phase, saved, failed, k, c).conflict.value))
  {
  }

  lemma ConflictsKnown(j: Judge, phase: Phase, failures: seq<SaveFailure>, saved: map<RecordId, Record>, c: Record)
    requires Lawful(j) && phase.CommitPhase? && CarriesSent(phase, failures) && DistinctIds(phase.records)
    requires HeadConflicts(j, phase, failures).Ok? && c in phase.records
    ensures var known := HeadConflicts(j, phase, failures).value;
      var v := VerdictOf(j, phase, saved, FailedById(failures), known != {}, c);
      v.Fine? && v.conflict.Some? ==> v.conflict.value in known
  {
    var known, failed := HeadConflicts(j, phase, failures).value, FailedById(failures);
    var v := VerdictOf(j, phase, saved, failed, known != {}, c);
    if v.Fine? && v.conflict.Some? {
      VerdictConflict(j, phase, saved, failed, known != {}, c);
      var f := failed[c.id];
      SameIdSameRecord(phase.records, f.record, c);
      PrepassCovers(j, phase, failures, f);
    }
  }

  lemma VerdictHeadId(j: Judge, phase: Phase, saved: map<RecordId, Record>, failed: map<RecordId, SaveFailure>, k: bool,
      c: Record)
    requires Lawful(j) && forall id :: id in saved ==> saved[id].id == id
    requires VerdictOf(j, phase, saved, failed, k, c).Fine? && VerdictOf(j, phase, saved, failed, k, c).head.Some?
    ensures var (e, s) := VerdictOf(j, phase, saved, failed, k, c).head.value;
      j.headEntity(s) == Ok(Some(e)) && s.id == c.id
  {
  }

  lemma HeadsAreDistinct(j: Judge, phase: Phase, saved: map<RecordId, Record>, failed: map<RecordId, SaveFailure>,
      k: bool)
    requires Lawful(j) && DistinctIds(phase.records) && forall id :: id in saved ==> saved[id].id == id
    ensures OneHeadEach(c => VerdictOf(j, phase, saved, failed, k, c), Elements(phase.records))
  {
    var verdict := (c: Record) => VerdictOf(j, phase, saved, failed, k, c);
    forall c, d |
      && c in phase.records && d in phase.records && verdict(c).Fine? && verdict(d).Fine?
      && verdict(c).head.Some? && verdict(d).head.Some? && verdict(c).head.value.0 == verdict(d).head.value.0
      ensures c == d
    {
      VerdictHeadId(j, phase, saved, failed, k, c);
      VerdictHeadId(j, phase, saved, failed, k, d);
      SameIdSameRecord(phase.records, c, d);
    }
  }

  function Conclusion(phase: Phase, p: Progress): Resolution {
    match p
    case Stop(r) => r
    case Going(t) => Conclude(phase, t)
  }

  ghost function ReadingOutcome(phase: Phase, verdict: Record -> Verdict, known: set<string>): Outcome {
    var records := Elements(phase.records);
    if exists c :: c in records && verdict(c).Bad? then Failed
    else ConcludeReading(phase, ReadAll(verdict, records, known))
  }

  lemma WalkAgreesWhenKnown(step: (Record, Tally) -> Progress, verdict: Record -> Verdict, phase: Phase,
      order: seq<Record>, known: set<string>)
    requires StepsFollow(step, verdict, known != {})
    requires OneHeadEach(verdict, Elements(phase.records)) && IterationOrder(order, phase)
    requires forall c :: c in order && verdict(c).Fine? && verdict(c).conflict.Some? ==>
      verdict(c).conflict.value in known
    ensures ClassOf(Conclusion(phase, Walk(step, order, Tally(map[], false, {}, known))))
      == ReadingOutcome(phase, verdict, known)
  {
    var records, start := Elements(phase.records), Tally(map[], false, {}, known);
    assert Accounts(verdict, {}, known, start);
    WalkReads(step, verdict, records, order, {}, known, start);
    assert {} + Elements(order) == records;
    var p := Walk(step, order, start);
    assert (exists c :: c in order && verdict(c).Bad?) <==> (exists c :: c in records && verdict(c).Bad?) by {
      assert forall c :: c in order <==> c in records;
    }
    if p.Going? {
      ConcludeAgrees(phase, p.tally, ReadAll(verdict, records, known));
    }
  }

  lemma WalkAgrees(step: (Record, Tally) -> Progress, verdict: Record -> Verdict, phase: Phase, order: seq<Record>,
      known: set<string>)
    requires StepsFollow(step, verdict, known != {}) && StepsGrow(step)
    requires OneHeadEach(verdict, Elements(phase.records)) && IterationOrder(order, phase)
    requires phase.CommitPhase? ==>
      forall c :: c in phase.records && verdict(c).Fine? && verdict(c).conflict.Some?
        ==> verdict(c).conflict.value in known
    requires !phase.CommitPhase? ==> known == {}
    ensures ClassOf(Conclusion(phase, Walk(step, order, Tally(map[], false, {}, known))))
      == ReadingOutcome(phase, verdict, known)
  {
    SameMembers(order, phase);
    if phase.CommitPhase? || forall c :: c in order && verdict(c).Fine? ==> verdict(c).conflict.None? {
      WalkAgreesWhenKnown(step, verdict, phase, order, known);
    } else {
      var c :| c in order && verdict(c).Fine? && verdict(c).conflict.Some?;
      WalkMeetsConflict(step, verdict, order, Tally(map[], false, {}, known));
      UnknownConflictFails(phase, verdict, known, c);
    }
  }

  lemma SameMembers(order: seq<Record>, phase: Phase)
    requires IterationOrder(order, phase)
    ensures forall c :: c in order <==> c in phase.records
  {
    assert forall c :: c in order <==> c in Elements(order);
    assert forall c :: c in phase.records <==> c in Elements(phase.records);
  }

  /** Outside a commit phase any head conflict fails the batch. */
  lemma UnknownConflictFails(phase: Phase, verdict: Record -> Verdict, known: set<string>, c: Record)
    requires !phase.CommitPhase? && c in phase.records && verdict(c).Fine? && verdict(c).conflict.Some?
    ensures ReadingOutcome(phase, verdict, known) == Failed
  {
    assert c in Elements(phase.records);
    assert verdict(c).conflict.value in ReadAll(verdict, Elements(phase.records), known).conflicts;
  }

  lemma ConcludeAgrees(phase: Phase, t: Tally, r: Reading)
    requires Reading(Pairs(t.heads), t.retry, t.collisions, t.conflicts) == r
    ensures ClassOf(Conclude(phase, t)) == ConcludeReading(phase, r)
  {
  }

  lemma StepGrows(j: Judge, phase: Phase, saved: map<RecordId, Record>, failed: map<RecordId, SaveFailure>, c: Record,
      t: Tally)
    ensures match Step(j, phase, saved, failed, c, t)
      case Going(t') => t.conflicts <= t'.conflicts
      case Stop(r) => ClassOf(r) == Failed
  {
  }

  /**
   The walk reads the batch: whatever the dictionary order, the resolution has the class, the
   accepted heads, the conflicting entities and the collisions of the order-free meaning.
   */
  lemma ResolveReads(j: Judge, phase: Phase, savedRecords: seq<Record>, failures: seq<SaveFailure>, order: seq<Record>)
    requires Lawful(j) && CarriesSent(phase, failures) && IterationOrder(order, phase)
    ensures ClassOf(Resolve(j, phase, savedRecords, failures, order)) == Meaning(j, phase, savedRecords, failures)
  {
    if Screen(phase, savedRecords, failures).None? && HeadConflicts(j, phase, failures).Ok? {
      var known := HeadConflicts(j, phase, failures).value;
      var saved, failed := SavedById(savedRecords), FailedById(failures);
      var step := (c: Record, t: Tally) => Step(j, phase, saved, failed, c, t);
      var verdict := (c: Record) => VerdictOf(j, phase, saved, failed, known != {}, c);
      assert StepsFollow(step, verdict, known != {}) by {
        forall c: Record, t: Tally | (t.conflicts != {}) == (known != {})
          ensures Follows(step(c, t), c, t, verdict(c)) {
          StepFollowsVerdict(j, phase, saved, failed, c, t);
        }
      }
      assert StepsGrow(step) by {
        forall c: Record, t: Tally { StepGrows(j, phase, saved, failed, c, t); }
      }
      HeadsAreDistinct(j, phase, saved, failed, known != {});
      if phase.CommitPhase? {
        forall c | c in phase.records && verdict(c).Fine? && verdict(c).conflict.Some?
          ensures verdict(c).conflict.value in known {
          ConflictsKnown(j, phase, failures, saved, c);
        }
      }
      WalkAgrees(step, verdict, phase, order, known);
    }
  }

  /** Hence any two dictionary orders give one outcome. */
  lemma ResolveIsOrderFree(zone: string, bootstrapMatches: (Record, Record) -> Result<bool, CodecError>, phase: Phase,
                           savedRecords: seq<Record>, failures: seq<SaveFailure>, order: seq<Record>,
                           other: seq<Record>)
    requires CarriesSent(phase, failures) && IterationOrder(order, phase) && IterationOrder(other, phase)
    ensures var j := CodecJudge(zone, bootstrapMatches);
      ClassOf(Resolve(j, phase, savedRecords, failures, order))
        == ClassOf(Resolve(j, phase, savedRecords, failures, other))
  {
    var j := CodecJudge(zone, bootstrapMatches);
    CodecJudgeIsLawful(zone, bootstrapMatches);
    ResolveReads(j, phase, savedRecords, failures, order);
    ResolveReads(j, phase, savedRecords, failures, other);
  }

  // ----- what acceptance establishes -----

  predicate IsAccepted(r: Resolution) {
    r.ObjectsVerified? || r.CommitAccepted? || r.ConflictBranchAccepted?
  }

  /** The record was reported saved, or the server was found to hold exactly it. */
  ghost predicate RecordAccepted(j: Judge, savedRecords: seq<Record>, failures: seq<SaveFailure>, c: Record) {
    || c.id in Ids(savedRecords)
    || exists f ::
         && f in failures && f.record.id == c.id
         && f.server.Some? && j.classify(c, f.server.value) == Ok(AlreadySaved)
  }

  ghost predicate ReportedCopy(savedRecords: seq<Record>, failures: seq<SaveFailure>, q: Record) {
    q in savedRecords || exists f :: f in failures && f.server == Some(q)
  }

  lemma QuietVerdict(j: Judge, phase: Phase, savedRecords: seq<Record>, failures: seq<SaveFailure>, c: Record)
    requires !phase.BootstrapPhase?
    requires var v := VerdictOf(j, phase, SavedById(savedRecords), FailedById(failures), false, c);
      v.Fine? && !v.retry && !v.collision && v.conflict.None?
    ensures RecordAccepted(j, savedRecords, failures, c)
  {
    var failed := FailedById(failures);
    if c.id !in Ids(savedRecords) {
      assert c.id in failed;
      assert failed[c.id] in failures;
    }
  }

  lemma WalkStops(step: (Record, Tally) -> Progress, order: seq<Record>, t: Tally)
    requires StepsGrow(step)
    ensures Walk(step, order, t).Stop? ==> ClassOf(Walk(step, order, t).outcome) == Failed
  {
    WalkKeepsConflicts(step, order, t);
  }

  /** Only the conclusion of a completed walk accepts or settles anything. */
  lemma ResolveStops(j: Judge, phase: Phase, savedRecords: seq<Record>, failures: seq<SaveFailure>, order: seq<Record>)
    ensures var r := Resolve(j, phase, savedRecords, failures, order);
      ClassOf(r) == Failed || r == Retry || exists t :: r == Conclude(phase, t)
  {
    if Screen(phase, savedRecords, failures).None? && HeadConflicts(j, phase, failures).Ok? {
      var saved, failed := SavedById(savedRecords), FailedById(failures);
      var step := (c: Record, t: Tally) => Step(j, phase, saved, failed, c, t);
      var start := Tally(map[], false, {}, HeadConflicts(j, phase, failures).value);
      assert StepsGrow(step) by {
        forall c: Record, t: Tally { StepGrows(j, phase, saved, failed, c, t); }
      }
      WalkStops(step, order, start);
      assert Resolve(j, phase, savedRecords, failures, order) == Conclusion(phase, Walk(step, order, start));
    }
  }

  /** A batch is accepted only when every record of it is. */
  lemma AcceptedBatch(j: Judge, phase: Phase, savedRecords: seq<Record>, failures: seq<SaveFailure>, order: seq<Record>,
      c: Record)
    requires Lawful(j) && CarriesSent(phase, failures) && IterationOrder(order, phase)
    requires IsAccepted(Resolve(j, phase, savedRecords, failures, order)) && c in phase.records
    ensures RecordAccepted(j, savedRecords, failures, c)
  {
    ResolveReads(j, phase, savedRecords, failures, order);
    var known := HeadConflicts(j, phase, failures).value;
    var saved, failed := SavedById(savedRecords), FailedById(failures);
    var verdict := (c: Record) => VerdictOf(j, phase, saved, failed, known != {}, c);
    var records := Elements(phase.records);
    assert ReadingOutcome(phase, verdict, known) == Meaning(j, phase, savedRecords, failures);
    QuietReading(phase, verdict, known, c);
    QuietVerdict(j, phase, savedRecords, failures, c);
  }

  lemma QuietReading(phase: Phase, verdict: Record -> Verdict, known: set<string>, c: Record)
    requires var o := ReadingOutcome(phase, verdict, known); o.ObjectsDone? || o.CommitDone? || o.ConflictBranchDone?
    requires c in phase.records
    ensures known == {} && !phase.BootstrapPhase?
    ensures verdict(c).Fine? && !verdict(c).retry && !verdict(c).collision && verdict(c).conflict.None?
  {
    var records := Elements(phase.records);
    assert c in records;
    var reading := ReadAll(verdict, records, known);
    assert reading.conflicts == {} && reading.collisions == {} && !reading.retry;
    ReadHas(verdict, records, known, c);
  }

  lemma ReadHas(verdict: Record -> Verdict, records: set<Record>, known: set<string>, c: Record)
    requires c in records && verdict(c).Fine?
    ensures var r := ReadAll(verdict, records, known);
      && (verdict(c).retry ==> r.retry)
      && (verdict(c).collision ==> c.id in r.collisions)
      && (verdict(c).conflict.Some? ==> verdict(c).conflict.value in r.conflicts)
  {
  }

  /** The heads of an accepted commit are records the report itself contains, under their own entities. */
  lemma AcceptedHeads(j: Judge, phase: Phase, savedRecords: seq<Record>, failures: seq<SaveFailure>, order: seq<Record>,
      e: string)
    requires Lawful(j) && CarriesSent(phase, failures) && IterationOrder(order, phase)
    requires var r := Resolve(j, phase, savedRecords, failures, order); r.CommitAccepted? && e in r.heads
    ensures var q := Resolve(j, phase, savedRecords, failures, order).heads[e];
      ReportedCopy(savedRecords, failures, q) && j.headEntity(q) == Ok(Some(e))
  {
    var r := Resolve(j, phase, savedRecords, failures, order);
    ResolveReads(j, phase, savedRecords, failures, order);
    PairsHas(r.heads, e);
    var known := HeadConflicts(j, phase, failures).value;
    var saved, failed := SavedById(savedRecords), FailedById(failures);
    var verdict := (c: Record) => VerdictOf(j, phase, saved, failed, known != {}, c);
    var c := HeadContributor(phase, verdict, known, (e, r.heads[e]));
    VerdictHeadSource(j, phase, savedRecords, failures, known != {}, c);
  }

  lemma HeadContributor(phase: Phase, verdict: Record -> Verdict, known: set<string>, p: (string, Record))
      returns (c: Record)
    requires var o := ReadingOutcome(phase, verdict, known); o.CommitDone? && p in o.heads
    ensures c in phase.records && verdict(c).Fine? && verdict(c).head == Some(p)
  {
    c :| c in Elements(phase.records) && verdict(c).Fine? && verdict(c).head == Some(p);
  }

  lemma VerdictHeadSource(j: Judge, phase: Phase, savedRecords: seq<Record>, failures: seq<SaveFailure>, k: bool,
      c: Record)
    requires var v := VerdictOf(j, phase, SavedById(savedRecords), FailedById(failures), k, c); v.Fine? && v.head.Some?
    ensures var (e, q) := VerdictOf(j, phase, SavedById(savedRecords), FailedById(failures), k, c).head.value;
      ReportedCopy(savedRecords, failures, q) && j.headEntity(q) == Ok(Some(e))
  {
    var saved, failed := SavedById(savedRecords), FailedById(failures);
    if c.id in saved {
      assert saved[c.id] in savedRecords;
    } else {
      assert failed[c.id] in failures;
    }
  }

  lemma BadVerdictFails(phase: Phase, verdict: Record -> Verdict, known: set<string>, c: Record)
    requires c in phase.records && verdict(c).Bad?
    ensures ReadingOutcome(phase, verdict, known) == Failed
  {
    assert c in Elements(phase.records);
  }

  lemma FailedWithBatch(j: Judge, phase: Phase, savedRecords: seq<Record>, failures: seq<SaveFailure>, f: SaveFailure,
      inConflict: bool)
    requires Screen(phase, savedRecords, failures).None? && DisjointReports(savedRecords, failures)
    requires f in failures && f.code.BatchRequestFailed? && f.record.kind == HeadType
    ensures VerdictOf(j, phase, SavedById(savedRecords), FailedById(failures), inConflict, f.record).Bad?
  {
    FailureOf(failures, f);
    RolledBackVerdict(j, phase, SavedById(savedRecords), FailedById(failures), f, inConflict);
  }

  lemma RolledBackVerdict(j: Judge, phase: Phase, saved: map<RecordId, Record>, failed: map<RecordId, SaveFailure>,
      f: SaveFailure, inConflict: bool)
    requires f.record.id !in saved && f.record.id in failed && failed[f.record.id] == f && f.code.BatchRequestFailed?
      && f.record.kind == HeadType
    ensures VerdictOf(j, phase, saved, failed, inConflict, f.record).Bad?
  {
  }

  lemma FailureOf(failures: seq<SaveFailure>, f: SaveFailure)
    requires DistinctFailures(failures) && f in failures
    ensures f.record.id in FailedById(failures) && FailedById(failures)[f.record.id] == f
  {
    assert f.record.id in FailureIds(failures);
    var g := FailedById(failures)[f.record.id];
    var i :| 0 <= i < |failures| && failures[i] == f;
    var j :| 0 <= j < |failures| && failures[j] == g;
  }

  /** No record is reported both saved and failed. */
  ghost predicate DisjointReports(savedRecords: seq<Record>, failures: seq<SaveFailure>) {
    forall f :: f in failures ==> f.record.id !in Ids(savedRecords)
  }

  /** A head that was only rolled back with its batch ends the sync in an error: the commit takes no
    conflict branch. */
  lemma RolledBackHeadFails(j: Judge, phase: Phase, savedRecords: seq<Record>, failures: seq<SaveFailure>,
      order: seq<Record>, f: SaveFailure)
    requires Lawful(j) && CarriesSent(phase, failures) && IterationOrder(order, phase)
    requires Screen(phase, savedRecords, failures).None? && DisjointReports(savedRecords, failures)
    requires f in failures && f.code.BatchRequestFailed? && f.record.kind == HeadType
    ensures ClassOf(Resolve(j, phase, savedRecords, failures, order)) == Failed
  {
    ResolveReads(j, phase, savedRecords, failures, order);
    if HeadConflicts(j, phase, failures).Ok? {
      var known := HeadConflicts(j, phase, failures).value;
      var saved, failed := SavedById(savedRecords), FailedById(failures);
      var verdict := (c: Record) => VerdictOf(j, phase, saved, failed, known != {}, c);
      FailedWithBatch(j, phase, savedRecords, failures, f, known != {});
      BadVerdictFails(phase, verdict, known, f.record);
    }
  }

  /** The report shows the server's record for `c`, and it matches `c` byte for byte. */
  ghost predicate LifecycleAccepted(j: Judge, savedRecords: seq<Record>, failures: seq<SaveFailure>, c: Record) {
    exists q :: ReportedCopy(savedRecords, failures, q) && j.bootstrapMatches(c, q) == Ok(true)
  }

  lemma BootstrapReading(phase: Phase, verdict: Record -> Verdict, known: set<string>, c: Record)
    requires ReadingOutcome(phase, verdict, known).BootstrapDone? && c in phase.records
    ensures phase.BootstrapPhase? && verdict(c).Fine? && !verdict(c).retry
  {
    var records := Elements(phase.records);
    assert c in records;
    assert !ReadAll(verdict, records, known).retry;
    ReadHas(verdict, records, known, c);
  }

  lemma BootstrapVerdict(j: Judge, phase: Phase, savedRecords: seq<Record>, failures: seq<SaveFailure>, c: Record)
    requires phase.BootstrapPhase?
    requires var v := VerdictOf(j, phase, SavedById(savedRecords), FailedById(failures), false, c); v.Fine? && !v.retry
    ensures LifecycleAccepted(j, savedRecords, failures, c)
  {
    var saved, failed := SavedById(savedRecords), FailedById(failures);
    if c.id in saved {
      assert ReportedCopy(savedRecords, failures, saved[c.id]);
    } else {
      assert failed[c.id] in failures;
      assert ReportedCopy(savedRecords, failures, failed[c.id].server.value);
    }
  }

  lemma NoHeadConflictsElsewhere(j: Judge, phase: Phase, failures: seq<SaveFailure>)
    requires !phase.CommitPhase?
    ensures HeadConflicts(j, phase, failures) == Ok({})
  {
  }

  /** A lifecycle batch is accepted only when the server holds every record of it byte for byte. */
  lemma AcceptedLifecycle(j: Judge, phase: Phase, savedRecords: seq<Record>, failures: seq<SaveFailure>,
      order: seq<Record>, c: Record)
    requires Lawful(j) && CarriesSent(phase, failures) && IterationOrder(order, phase)
    requires phase.BootstrapPhase? && Resolve(j, phase, savedRecords, failures, order) == BootstrapAccepted
      && c in phase.records
    ensures LifecycleAccepted(j, savedRecords, failures, c)
  {
    ResolveReads(j, phase, savedRecords, failures, order);
    NoHeadConflictsElsewhere(j, phase, failures);
    var known := HeadConflicts(j, phase, failures).value;
    var saved, failed := SavedById(savedRecords), FailedById(failures);
    var verdict := (c: Record) => VerdictOf(j, phase, saved, failed, known != {}, c);
    assert ReadingOutcome(phase, verdict, known) == Meaning(j, phase, savedRecords, failures);
    BootstrapReading(phase, verdict, known, c);
    BootstrapVerdict(j, phase, savedRecords, failures, c);
  }

  // ----- the imperative form -----

  lemma {:induction false} PrepassFails(j: Judge, phase: Phase, failures: seq<SaveFailure>, k: nat)
    requires k <= |failures| && HeadConflicts(j, phase, failures[..k]).Err?
    ensures HeadConflicts(j, phase, failures) == Err(HeadConflicts(j, phase, failures[..k]).error)
    decreases |failures| - k
  {
    if k < |failures| {
      assert failures[..k + 1][..k] == failures[..k];
      PrepassFails(j, phase, failures, k + 1);
    } else {
      assert failures[..k] == failures;
    }
  }

  /** `atomicCommitHeadConflicts`: the pre-pass as a loop over the failures. */
  method AtomicCommitHeadConflicts(j: Judge, phase: Phase, failures: seq<SaveFailure>)
    returns (r: Result<set<string>, CodecError>)
    ensures r == HeadConflicts(j, phase, failures)
  {
    if !phase.CommitPhase? {
      return Ok({});
    }
    var entityIDs: set<string> := {};
    for i := 0 to |failures|
      invariant HeadConflicts(j, phase, failures[..i]) == Ok(entityIDs)
    {
      var f := failures[i];
      assert failures[..i + 1][..i] == failures[..i];
      if f.code.ServerRecordChanged? && f.record.kind == HeadType && f.server.Some? {
        var c := j.classify(f.record, f.server.value);
        if c.Err? {
          PrepassFails(j, phase, failures, i + 1);
          return Err(c.error);
        }
        if c.value.HeadConflict? {
          entityIDs := entityIDs + {c.value.entityID};
        }
      }
    }
    assert failures[..|failures|] == failures;
    return Ok(entityIDs);
  }

  /** `resolve`, run over one iteration order of the dictionary of sent records. */
  method ResolveBatch(j: Judge, phase: Phase, savedRecords: seq<Record>, failures: seq<SaveFailure>, order: seq<Record>)
    returns (r: Resolution)
    requires Lawful(j) && CarriesSent(phase, failures) && IterationOrder(order, phase)
    ensures r == Resolve(j, phase, savedRecords, failures, order)
    ensures ClassOf(r) == Meaning(j, phase, savedRecords, failures)
  {
    ResolveReads(j, phase, savedRecords, failures, order);
    var screened := Screen(phase, savedRecords, failures);
    if screened.Some? {
      return screened.value;
    }
    var conflicts := AtomicCommitHeadConflicts(j, phase, failures);
    if conflicts.Err? {
      return Throws;
    }
    var saved, failed := SavedById(savedRecords), FailedById(failures);
    var p := WalkInOrder((c, t) => Step(j, phase, saved, failed, c, t), order,
      Tally(map[], false, {}, conflicts.value));
    return Conclusion(phase, p);
  }
}
