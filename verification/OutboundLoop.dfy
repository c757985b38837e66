/**
 The outbound loop of one manual sync (CloudRecordSyncSession.swift:87-108) with the state it updates
 (CloudRecordSyncCoordinator.swift:17-101). While no other device writes and no commit is added,
 every pass throws or lowers a measure, so the loop ends; it ends normally only with an empty outbox.
 */
module OutboundLoop {
  import opened Prelude
  import opened Records
  import opened RecordCodec
  import opened Planner
  import opened Resolver
  import opened CloudServer
  import opened SyncProtocol
  import opened Text

  datatype SyncError = PlanFailure(cause: PlanningError) | DamagedState | RetryLater | RecordMissing | Unsettled

  /** What one pass reads and updates: the daemon's outbox, the coordinator's caches and the server. */
  datatype Outbound = Outbound(outbox: seq<Commit>, verified: set<string>, heads: map<string, Record>, server: Server)

  /** The other side, as an arbitrary honest party at each turn, and whether the daemon settles then. */
  datatype Outside = Outside(cloud: nat -> Cloud, settles: nat -> bool)

  ghost predicate Honest(outside: Outside) {
    forall turn :: HonestCloud(outside.cloud(turn))
  }

  // ----- handling a finished batch -----

  /** A collision reported without asset bytes is completed with the server's record. */
  function Complete(s: Server, ids: set<RecordId>, f: SaveFailure): SaveFailure {
    if f.record.id in ids && f.record.id in s.records then f.(server := Some(s.records[f.record.id])) else f
  }

  function CompleteAll(s: Server, ids: set<RecordId>, failures: seq<SaveFailure>): seq<SaveFailure> {
    Map(f => Complete(s, ids, f), failures)
  }

  /** The heads the failures carry, as `handleSentRecords` gathers them. */
  function ReportedHeads(decode: Record -> Result<Decoded, CodecError>,
      failures: seq<SaveFailure>): Result<map<string, Record>, CodecError> {
    if failures == [] then Ok(map[])
    else
      var n := |failures| - 1;
      var rest :- ReportedHeads(decode, failures[..n]);
      var f := failures[n];
      if f.server.Some? && f.server.value.kind == HeadType then
        var d :- decode(f.server.value);
        Ok(if d.DecodedHead? then rest[d.headEntityID := f.server.value] else rest)
      else Ok(rest)
  }

  function AfterResolution(tr: Transport, st: Outbound, failures: seq<SaveFailure>, r: Resolution,
      settles: bool): Result<Outbound, SyncError> {
    match r
    case ObjectsVerified(records) =>
      if forall r :: r in records ==> tr.decode(r).Ok?
        then Ok(st.(verified := st.verified + VerifiedDigests(tr, records))) else Err(DamagedState)
    case CommitAccepted(commitID, heads) =>
      if settles then Ok(st.(heads := st.heads + heads, outbox := Settle(st.outbox, commitID))) else Err(Unsettled)
    case ConflictBranchAccepted(commitID) =>
      if settles then Ok(st.(outbox := Settle(st.outbox, commitID))) else Err(Unsettled)
    case CommitConflict(_, _) =>
      (match ReportedHeads(tr.decode, failures)
       case Ok(m) => Ok(st.(heads := st.heads + m))
       case Err(_) => Err(DamagedState))
    case Retry => Err(RetryLater)
    case _ => Err(DamagedState)
  }

  /** `handleSentRecords`: resolve, complete object collisions once, resolve again, act. */
  function AfterReport(tr: Transport, st: Outbound, phase: Phase, resp: Response, order: seq<Record>,
      settles: bool): Result<Outbound, SyncError> {
    var first := Resolve(tr.judge, phase, resp.saved, resp.failures, order);
    if first.FetchObjectCollisions? then
      if !(first.recordIDs <= st.server.records.Keys) then Err(RecordMissing)
      else
        var failures := CompleteAll(st.server, first.recordIDs, resp.failures);
        AfterResolution(tr, st, failures, Resolve(tr.judge, phase, resp.saved, failures, order), settles)
    else AfterResolution(tr, st, resp.failures, first, settles)
  }

  function AfterSend(tr: Transport, outside: Outside, turn: nat, st: Outbound, phase: Phase):
    Result<Outbound, SyncError> {
    var (s', resp) := outside.cloud(turn).serve(st.server, phase);
    AfterReport(tr, st.(server := s'), phase, resp, outside.cloud(turn).order(phase), outside.settles(turn))
  }

  // ----- fetching heads -----

  ghost predicate AllDecodable(tr: Transport, s: Server, ids: set<RecordId>) {
    forall id :: id in ids ==> id in s.records && tr.decode(s.records[id]).Ok?
  }

  /** The heads among the fetched records, by entity; two never share one. */
  ghost predicate HeadsOf(tr: Transport, s: Server, ids: set<RecordId>, m: map<string, Record>) {
    && (forall e :: e in m ==>
          && m[e].id in ids && m[e].id in s.records && s.records[m[e].id] == m[e]
          && tr.decode(m[e]).Ok? && tr.decode(m[e]).value.DecodedHead? && tr.decode(m[e]).value.headEntityID == e)
    && (forall id ::
          && id in ids && id in s.records
          && tr.decode(s.records[id]).Ok? && tr.decode(s.records[id]).value.DecodedHead? ==>
          tr.decode(s.records[id]).value.headEntityID in m)
  }

  // ----- the laws of the plan the loop needs -----

  function Entities(outbox: seq<Commit>): set<string> {
    if outbox == [] then {} else set rv | rv in outbox[0].revisions :: Lower(rv.entityID)
  }

  /** The names of the protocol's records the loop speaks about. */
  datatype Names = Names(headId: string -> RecordId, digests: seq<Commit> -> set<string>)

  /** A planned head names its cached version, or is new because none is cached. */
  ghost predicate PlannedFrom(tr: Transport, names: Names, outbox: seq<Commit>, heads: map<string, Record>, r: Record) {
    exists e :: e in Entities(outbox) && names.headId(e) == r.id
      && (if e in heads then heads[e].tag == r.tag else r.tag.None?)
  }

  ghost predicate HelpsObjects(tr: Transport, missing: set<string>, records: seq<Record>) {
    VerifiedDigests(tr, records) * missing != {}
  }

  ghost predicate Uncached(names: Names, outbox: seq<Commit>, heads: map<string, Record>, id: RecordId) {
    exists e :: e in Entities(outbox) && e !in heads && names.headId(e) == id
  }

  ghost predicate LoopPlan(tr: Transport, names: Names, outbox: seq<Commit>, verified: set<string>,
      heads: map<string, Record>) {
    match tr.plan(outbox, verified, heads)
    case Ok(Idle) => outbox == []
    case Ok(SaveObjects(records)) => outbox != [] && HelpsObjects(tr, names.digests(outbox) - verified, records)
    case Ok(FetchHeads(_, ids)) => outbox != [] && ids != {}
      && forall id :: id in ids ==> Uncached(names, outbox, heads, id)
    case Ok(SaveCommit(commitID, records)) =>
      && outbox != [] && commitID == outbox[0].commitID
      && forall r :: r in records && r.kind == HeadType ==> PlannedFrom(tr, names, outbox, heads, r)
    case Ok(SaveConflictBranch(commitID, _, _)) => outbox != [] && commitID == outbox[0].commitID
    case Err(_) => true
  }

  ghost predicate HeadLaw(tr: Transport, names: Names) {
    && (forall r :: tr.decode(r).Ok? && tr.decode(r).value.DecodedHead? ==>
      r.id == names.headId(tr.decode(r).value.headEntityID))
    && (forall r, e :: tr.decode(r).Ok? && r.id == names.headId(e) ==>
      tr.decode(r).value.DecodedHead? && tr.decode(r).value.headEntityID == e)
    && (forall c, s :: tr.judge.classify(c, s).Ok? && tr.judge.classify(c, s).value.HeadConflict? ==>
          && c.id == s.id && c.kind == s.kind == HeadType
          && tr.decode(s).Ok? && tr.decode(s).value.DecodedHead?
            && tr.decode(s).value.headEntityID == tr.judge.classify(c, s).value.entityID)
  }

  ghost predicate LoopSound(tr: Transport, names: Names) {
    && Lawful(tr.judge) && HeadLaw(tr, names)
    && forall outbox, verified, heads :: LoopPlan(tr, names, outbox, verified, heads)
  }

  // ----- the measure -----

  ghost function Unverified(names: Names, st: Outbound): set<string> {
    names.digests(st.outbox) - st.verified
  }

  /** The cache and the server agree about the head of `e`. */
  ghost predicate Agrees(names: Names, st: Outbound, e: string) {
    if names.headId(e) in st.server.records then e in st.heads && st.heads[e] == st.server.records[names.headId(e)]
      else e !in st.heads
  }

  ghost function Stale(names: Names, st: Outbound): set<string> {
    set e | e in Entities(st.outbox) && !Agrees(names, st, e)
  }

  ghost predicate Lower3(names: Names, st': Outbound, st: Outbound) {
    || |st'.outbox| < |st.outbox|
    || (&& st'.outbox == st.outbox
        && (|| |Unverified(names, st')| < |Unverified(names, st)|
            || (st'.verified == st.verified && |Stale(names, st')| < |Stale(names, st)|)))
  }

  /** Everything the server stores carries a change tag. */
  ghost predicate Tagged(s: Server) {
    forall id :: id in s.records ==> s.records[id].id == id && s.records[id].tag.Some?
  }

  lemma SmallerSet<T>(a: set<T>, b: set<T>)
    requires a < b
    ensures |a| < |b|
  {
    var x :| x in b && x !in a;
    assert a <= b - {x};
    SubsetCard(a, b - {x});
  }

  lemma {:induction false} SubsetCard<T>(a: set<T>, b: set<T>)
    requires a <= b
    ensures |a| <= |b|
    decreases |a|
  {
    if a != {} {
      var x :| x in a;
      SubsetCard(a - {x}, b - {x});
    }
  }

  lemma WritesTagged(s: Server, s': Server, records: seq<Record>, atomic: bool)
    requires Tagged(s) && Writes(s, s', records, atomic)
    ensures Tagged(s')
  {
    forall id | id in s'.records ensures s'.records[id].id == id && s'.records[id].tag.Some? {
      if Changed(s, s', id) {
        var r := SentFor(s, s', records, atomic, id);
      }
    }
  }

  // ----- settling -----

  lemma {:induction false} SettleShrinks(outbox: seq<Commit>, commitID: string)
    ensures |Settle(outbox, commitID)| <= |outbox|
    ensures outbox != [] && outbox[0].commitID == commitID ==> |Settle(outbox, commitID)| < |outbox|
    decreases |outbox|
  {
    if outbox != [] {
      SettleShrinks(outbox[1..], commitID);
    }
  }

  // ----- verified objects -----

  lemma ObjectsLower(tr: Transport, names: Names, st: Outbound, st': Outbound, records: seq<Record>)
    requires HelpsObjects(tr, Unverified(names, st), records)
    requires st'.outbox == st.outbox && st'.verified == st.verified + VerifiedDigests(tr, records)
    ensures Lower3(names, st', st)
  {
    var x :| x in VerifiedDigests(tr, records) * Unverified(names, st);
    assert x in Unverified(names, st) && x !in Unverified(names, st');
    assert Unverified(names, st') < Unverified(names, st);
    SmallerSet(Unverified(names, st'), Unverified(names, st));
  }

  // ----- heads -----

  /** Learning server heads, at least one of which was stale, lowers the third component. */
  lemma HeadsLower(names: Names, st: Outbound, st': Outbound, m: map<string, Record>, e: string)
    requires st' == st.(heads := st.heads + m, server := st'.server) && st'.server.records == st.server.records
    requires forall x :: x in m ==> names.headId(x) in st.server.records && m[x] == st.server.records[names.headId(x)]
    requires e in m && e in Stale(names, st)
    ensures Lower3(names, st', st)
  {
    forall x | x in Stale(names, st') ensures x in Stale(names, st) {
      assert x !in m;
    }
    assert e !in Stale(names, st');
    SmallerSet(Stale(names, st'), Stale(names, st));
  }

  lemma FetchLowers(tr: Transport, names: Names, st: Outbound, ids: set<RecordId>, m: map<string, Record>)
    requires HeadLaw(tr, names) && Tagged(st.server)
    requires ids != {} && (forall id :: id in ids ==> Uncached(names, st.outbox, st.heads, id))
    requires AllDecodable(tr, st.server, ids) && HeadsOf(tr, st.server, ids, m)
    ensures Lower3(names, st.(heads := st.heads + m), st)
  {
    var id :| id in ids;
    assert Uncached(names, st.outbox, st.heads, id);
    var e :| e in Entities(st.outbox) && e !in st.heads && names.headId(e) == id;
    assert e in m;
    HeadsLower(names, st, st.(heads := st.heads + m), m, e);
  }

  // ----- a conflict -----

  /** A failure that reports another revision of a head than the batch carried. */
  ghost predicate LostSwap(tr: Transport, f: SaveFailure) {
    && f.code.ServerRecordChanged? && f.server.Some? && f.record.kind == HeadType
    && tr.judge.classify(f.record, f.server.value).Ok?
      && tr.judge.classify(f.record, f.server.value).value.HeadConflict?
  }

  lemma {:induction false} ConflictCause(tr: Transport, phase: Phase, failures: seq<SaveFailure>)
      returns (f: SaveFailure)
    requires HeadConflicts(tr.judge, phase, failures).Ok? && HeadConflicts(tr.judge, phase, failures).value != {}
    ensures f in failures && LostSwap(tr, f)
    decreases |failures|
  {
    var n := |failures| - 1;
    if LostSwap(tr, failures[n]) {
      f := failures[n];
    } else {
      f := ConflictCause(tr, phase, failures[..n]);
    }
  }

  lemma MeaningInConflict(j: Judge, phase: Phase, saved: seq<Record>, failures: seq<SaveFailure>)
    requires Meaning(j, phase, saved, failures).CommitInConflict?
    ensures phase.CommitPhase? && Screen(phase, saved, failures).None? && HeadConflicts(j, phase, failures).Ok?
  {
    if Screen(phase, saved, failures).Some? {
      ScreenedClass(phase, saved, failures);
    } else if HeadConflicts(j, phase, failures).Ok? {
      var known := HeadConflicts(j, phase, failures).value;
      var savedById, failedById := SavedById(saved), FailedById(failures);
      ReadingInConflict(phase, c => VerdictOf(j, phase, savedById, failedById, known != {}, c), known);
    }
  }

  lemma ReadingInConflict(phase: Phase, verdict: Record -> Verdict, known: set<string>)
    ensures ReadingOutcome(phase, verdict, known).CommitInConflict? ==> phase.CommitPhase?
  {
  }

  lemma ScreenedClass(phase: Phase, saved: seq<Record>, failures: seq<SaveFailure>)
    requires Screen(phase, saved, failures).Some?
    ensures !ClassOf(Screen(phase, saved, failures).value).CommitInConflict?
  {
  }

  /** A commit ends in conflict only when the pre-pass found a lost swap. */
  lemma ConflictIsKnown(j: Judge, phase: Phase, saved: seq<Record>, failures: seq<SaveFailure>, order: seq<Record>)
    requires Lawful(j) && CarriesSent(phase, failures) && IterationOrder(order, phase)
    requires Resolve(j, phase, saved, failures, order).CommitConflict?
    ensures phase.CommitPhase? && Screen(phase, saved, failures).None?
    ensures HeadConflicts(j, phase, failures).Ok? && HeadConflicts(j, phase, failures).value != {}
  {
    ResolveReads(j, phase, saved, failures, order);
    ConflictClass(Resolve(j, phase, saved, failures, order));
    MeaningInConflict(j, phase, saved, failures);
    if HeadConflicts(j, phase, failures).value == {} {
      NoConflictWithoutCause(j, phase, saved, failures);
    }
  }

  lemma ConflictClass(r: Resolution)
    requires r.CommitConflict?
    ensures ClassOf(r).CommitInConflict?
  {
  }

  lemma NoConflictWithoutCause(j: Judge, phase: Phase, saved: seq<Record>, failures: seq<SaveFailure>)
    requires Lawful(j) && CarriesSent(phase, failures) && Screen(phase, saved, failures).None?
    requires HeadConflicts(j, phase, failures) == Ok({})
    ensures !Meaning(j, phase, saved, failures).CommitInConflict?
  {
    if phase.CommitPhase? {
      var known := HeadConflicts(j, phase, failures).value;
      forall c | c in phase.records ensures Unopposed(j, phase, SavedById(saved), FailedById(failures), known, c) {
        UnopposedRecord(j, phase, saved, failures, known, c);
      }
      UnopposedBatch(j, phase, SavedById(saved), FailedById(failures), known);
    }
  }

  ghost predicate Unopposed(j: Judge, phase: Phase, saved: map<RecordId, Record>, failed: map<RecordId, SaveFailure>,
      known: set<string>, c: Record) {
    var v := VerdictOf(j, phase, saved, failed, known != {}, c);
    !(v.Fine? && v.conflict.Some?)
  }

  lemma UnopposedRecord(j: Judge, phase: Phase, saved: seq<Record>, failures: seq<SaveFailure>, known: set<string>,
      c: Record)
    requires Lawful(j) && CarriesSent(phase, failures) && Screen(phase, saved, failures).None? && phase.CommitPhase?
    requires HeadConflicts(j, phase, failures) == Ok(known) && known == {} && c in phase.records
    ensures Unopposed(j, phase, SavedById(saved), FailedById(failures), known, c)
  {
    ConflictsKnown(j, phase, failures, SavedById(saved), c);
  }

  lemma UnopposedBatch(j: Judge, phase: Phase, saved: map<RecordId, Record>, failed: map<RecordId, SaveFailure>,
      known: set<string>)
    requires known == {} && forall c :: c in phase.records ==> Unopposed(j, phase, saved, failed, known, c)
    ensures !ReadingOutcome(phase, c => VerdictOf(j, phase, saved, failed, known != {}, c), known).CommitInConflict?
  {
    var verdict := (c: Record) => VerdictOf(j, phase, saved, failed, known != {}, c);
    forall c | c in phase.records ensures !(verdict(c).Fine? && verdict(c).conflict.Some?) {
      assert Unopposed(j, phase, saved, failed, known, c);
    }
    NoConflictReading(phase, verdict, known);
  }

  lemma NoConflictReading(phase: Phase, verdict: Record -> Verdict, known: set<string>)
    requires known == {} && forall c :: c in phase.records ==> !(verdict(c).Fine? && verdict(c).conflict.Some?)
    ensures !ReadingOutcome(phase, verdict, known).CommitInConflict?
  {
    assert ReadAll(verdict, Elements(phase.records), known).conflicts == {};
  }

  /** Every gathered head is a server copy some failure carried, and every lost swap is gathered. */
  lemma {:induction false} GatheredHeads(tr: Transport, failures: seq<SaveFailure>)
    requires ReportedHeads(tr.decode, failures).Ok?
    ensures ServerHeads(tr, failures, ReportedHeads(tr.decode, failures).value)
    ensures forall f :: f in failures && f.server.Some? && f.server.value.kind == HeadType ==>
      tr.decode(f.server.value).Ok?
    ensures forall f ::
      && f in failures && f.server.Some? && f.server.value.kind == HeadType
      && tr.decode(f.server.value).value.DecodedHead? ==>
      tr.decode(f.server.value).value.headEntityID in ReportedHeads(tr.decode, failures).value
    decreases |failures|
  {
    if failures != [] {
      var n := |failures| - 1;
      GatheredHeads(tr, failures[..n]);
      assert forall f :: f in failures <==> f in failures[..n] || f == failures[n];
    }
  }

  /** A refused atomic batch leaves the server as it was. */
  lemma RefusedBatch(s: Server, s': Server, records: seq<Record>, resp: Response, f: SaveFailure)
    requires Writes(s, s', records, true) && Reports(s, s', records, resp) && f in resp.failures
      && f.code.ServerRecordChanged?
    ensures s'.records == s.records
  {
    forall id | id in s'.records ensures id in s.records && s'.records[id] == s.records[id] {
      assert !Changed(s, s', id);
    }
  }

  /** Gathered heads are the server's own current heads. */
  lemma GatheredAreCurrent(tr: Transport, names: Names, s: Server, s': Server, records: seq<Record>, resp: Response,
      m: map<string, Record>)
    requires HeadLaw(tr, names) && Reports(s, s', records, resp) && ServerHeads(tr, resp.failures, m) && Tagged(s)
    ensures forall x :: x in m ==> names.headId(x) in s.records && m[x] == s.records[names.headId(x)]
  {
    forall x | x in m ensures names.headId(x) in s.records && m[x] == s.records[names.headId(x)] {
      var f :| f in resp.failures && f.server == Some(m[x]);
      assert IsCopy(m[x], s.records[f.record.id]);
      assert m[x] == s.records[f.record.id];
    }
  }

  /** A head that lost its swap was cached in another version than the server's. */
  lemma LostSwapIsStale(tr: Transport, names: Names, st: Outbound, s': Server, records: seq<Record>, resp: Response,
      f: SaveFailure) returns (e: string)
    requires HeadLaw(tr, names) && Tagged(st.server) && Reports(st.server, s', records, resp) && f in resp.failures
      && LostSwap(tr, f)
    requires forall r :: r in records && r.kind == HeadType ==> PlannedFrom(tr, names, st.outbox, st.heads, r)
    ensures e in Stale(names, st) && f.server.value.kind == HeadType
    ensures tr.decode(f.server.value).Ok? && tr.decode(f.server.value).value.DecodedHead?
      && tr.decode(f.server.value).value.headEntityID == e
  {
    assert PlannedFrom(tr, names, st.outbox, st.heads, f.record);
    e :| e in Entities(st.outbox) && names.headId(e) == f.record.id
      && (if e in st.heads then st.heads[e].tag == f.record.tag else f.record.tag.None?);
    assert f.record.id in st.server.records && !Accepts(st.server, f.record);
    assert !Agrees(names, st, e);
  }

  lemma ConflictLowers(tr: Transport, names: Names, st: Outbound, s': Server, phase: Phase, resp: Response,
      order: seq<Record>, m: map<string, Record>)
    requires Lawful(tr.judge) && HeadLaw(tr, names) && Tagged(st.server) && IterationOrder(order, phase)
    requires Writes(st.server, s', phase.records, phase.AtomicByZone()) && Reports(st.server, s', phase.records, resp)
    requires forall r :: r in phase.records && r.kind == HeadType ==> PlannedFrom(tr, names, st.outbox, st.heads, r)
    requires Resolve(tr.judge, phase, resp.saved, resp.failures, order).CommitConflict?
      && ReportedHeads(tr.decode, resp.failures) == Ok(m)
    ensures Lower3(names, st.(server := s', heads := st.heads + m), st)
  {
    assert CarriesSent(phase, resp.failures);
    ConflictIsKnown(tr.judge, phase, resp.saved, resp.failures, order);
    var f := ConflictCause(tr, phase, resp.failures);
    RefusedBatch(st.server, s', phase.records, resp, f);
    var e := LostSwapIsStale(tr, names, st, s', phase.records, resp, f);
    GatheredHeads(tr, resp.failures);
    GatheredAreCurrent(tr, names, st.server, s', phase.records, resp, m);
    HeadsLower(names, st, st.(server := s', heads := st.heads + m), m, e);
  }

  // ----- one pass -----

  /** The batch is what the plan asked for in this state. */
  ghost predicate Planned(tr: Transport, names: Names, st: Outbound, phase: Phase) {
    match phase
    case ObjectsPhase(records) => HelpsObjects(tr, Unverified(names, st), records)
    case CommitPhase(commitID, records) =>
      && st.outbox != [] && commitID == st.outbox[0].commitID
      && forall r :: r in records && r.kind == HeadType ==> PlannedFrom(tr, names, st.outbox, st.heads, r)
    case ConflictBranchPhase(commitID, _) => st.outbox != [] && commitID == st.outbox[0].commitID
    case BootstrapPhase(_) => false
  }

  lemma ResolvedLowers(tr: Transport, names: Names, st: Outbound, s': Server, phase: Phase, resp: Response,
      order: seq<Record>, settles: bool)
    requires Lawful(tr.judge) && HeadLaw(tr, names) && Tagged(st.server) && IterationOrder(order, phase)
      && Planned(tr, names, st, phase)
    requires Writes(st.server, s', phase.records, phase.AtomicByZone()) && Reports(st.server, s', phase.records, resp)
    ensures var r := AfterResolution(tr, st.(server := s'), resp.failures,
      Resolve(tr.judge, phase, resp.saved, resp.failures, order), settles);
      r.Ok? ==> Lower3(names, r.value, st) && r.value.server == s'
  {
    var resolution := Resolve(tr.judge, phase, resp.saved, resp.failures, order);
    AcceptedKind(tr.judge, phase, resp.saved, resp.failures, order);
    ResolutionLowers(tr, names, st, s', phase, resp, order, settles, resolution);
  }

  lemma ResolutionLowers(tr: Transport, names: Names, st: Outbound, s': Server, phase: Phase, resp: Response,
      order: seq<Record>, settles: bool, resolution: Resolution)
    requires Lawful(tr.judge) && HeadLaw(tr, names) && Tagged(st.server) && IterationOrder(order, phase)
      && Planned(tr, names, st, phase)
    requires Writes(st.server, s', phase.records, phase.AtomicByZone()) && Reports(st.server, s', phase.records, resp)
    requires resolution.CommitConflict? ==> resolution == Resolve(tr.judge, phase, resp.saved, resp.failures, order)
    requires resolution.ObjectsVerified? ==> phase.ObjectsPhase? && resolution.records == phase.records
    requires resolution.CommitAccepted? ==> phase.CommitPhase? && resolution.commitID == phase.commitID
    requires resolution.ConflictBranchAccepted? ==> phase.ConflictBranchPhase? && resolution.commitID == phase.commitID
    ensures var r := AfterResolution(tr, st.(server := s'), resp.failures, resolution, settles); r.Ok? ==>
      Lower3(names, r.value, st) && r.value.server == s'
  {
    var r := AfterResolution(tr, st.(server := s'), resp.failures, resolution, settles);
    if r.Ok? {
      if resolution.ObjectsVerified? {
        ObjectsLower(tr, names, st, r.value, phase.records);
      } else if resolution.CommitConflict? {
        ConflictIsKnown(tr.judge, phase, resp.saved, resp.failures, order) by {
          assert CarriesSent(phase, resp.failures);
        }
        ConflictLowers(tr, names, st, s', phase, resp, order, ReportedHeads(tr.decode, resp.failures).value);
      } else {
        SettleShrinks(st.outbox, phase.commitID);
      }
    }
  }

  lemma CompletedReports(s: Server, s': Server, records: seq<Record>, resp: Response, ids: set<RecordId>)
    requires Reports(s, s', records, resp)
    ensures Reports(s, s', records, Response(resp.saved, CompleteAll(s', ids, resp.failures)))
  {
    var failures := CompleteAll(s', ids, resp.failures);
    forall f | f in failures
      ensures f.record in records && !Changed(s, s', f.record.id)
      ensures f.code.ServerRecordChanged? ==> !Accepts(s, f.record) && f.server.Some?
      ensures f.server.Some? ==> f.record.id in s.records && IsCopy(f.server.value, s.records[f.record.id])
    {
      var i :| 0 <= i < |failures| && failures[i] == f;
      var g := resp.failures[i];
      assert g in resp.failures && f == Complete(s', ids, g);
    }
  }

  lemma ReportLowers(tr: Transport, names: Names, st: Outbound, s': Server, phase: Phase, resp: Response,
      order: seq<Record>, settles: bool)
    requires Lawful(tr.judge) && HeadLaw(tr, names) && Tagged(st.server) && IterationOrder(order, phase)
      && Planned(tr, names, st, phase)
    requires Writes(st.server, s', phase.records, phase.AtomicByZone()) && Reports(st.server, s', phase.records, resp)
    ensures var r := AfterReport(tr, st.(server := s'), phase, resp, order, settles); r.Ok? ==>
      Lower3(names, r.value, st) && r.value.server == s'
  {
    var first := Resolve(tr.judge, phase, resp.saved, resp.failures, order);
    if first.FetchObjectCollisions? {
      var again := Response(resp.saved, CompleteAll(s', first.recordIDs, resp.failures));
      CompletedReports(st.server, s', phase.records, resp, first.recordIDs);
      ResolvedLowers(tr, names, st, s', phase, again, order, settles);
    } else {
      ResolvedLowers(tr, names, st, s', phase, resp, order, settles);
    }
  }

  /** Sending a planned batch throws or lowers the measure. */
  lemma SendLowers(tr: Transport, names: Names, outside: Outside, turn: nat, st: Outbound, phase: Phase)
    requires Lawful(tr.judge) && HeadLaw(tr, names) && Honest(outside) && Tagged(st.server)
      && Planned(tr, names, st, phase)
    ensures var r := AfterSend(tr, outside, turn, st, phase); r.Ok? ==>
      Lower3(names, r.value, st) && Tagged(r.value.server)
  {
    var (s', resp) := outside.cloud(turn).serve(st.server, phase);
    assert Writes(st.server, s', phase.records, phase.AtomicByZone()) && Reports(st.server, s', phase.records, resp);
    ReportLowers(tr, names, st, s', phase, resp, outside.cloud(turn).order(phase), outside.settles(turn));
    WritesTagged(st.server, s', phase.records, phase.AtomicByZone());
  }

  lemma VerifiedAppend(tr: Transport, records: seq<Record>, i: nat)
    requires i < |records| && tr.decode(records[i]).Ok?
    ensures VerifiedDigests(tr, records[..i + 1])
         == VerifiedDigests(tr, records[..i]) + if tr.decode(records[i]).value.DecodedObject?
           then {tr.decode(records[i]).value.digest} else {}
  {
    assert forall r :: r in records[..i + 1] <==> r in records[..i] || r == records[i];
  }

  lemma {:induction false} ReportedHeadsFail(decode: Record -> Result<Decoded, CodecError>, failures: seq<SaveFailure>,
      k: nat)
    requires k <= |failures| && ReportedHeads(decode, failures[..k]).Err?
    ensures ReportedHeads(decode, failures).Err?
    decreases |failures| - k
  {
    if k == |failures| {
      assert failures[..k] == failures;
    } else {
      assert failures[..k + 1][..k] == failures[..k];
      ReportedHeadsFail(decode, failures, k + 1);
    }
  }

  /** The loop that gathers the heads of a refused commit. */
  method GatherHeads(decode: Record -> Result<Decoded, CodecError>, failures: seq<SaveFailure>)
      returns (r: Result<map<string, Record>, SyncError>)
    ensures r.Ok? <==> ReportedHeads(decode, failures).Ok?
    ensures r.Ok? ==> r.value == ReportedHeads(decode, failures).value
    ensures r.Err? ==> r.error == DamagedState
  {
    var heads: map<string, Record> := map[];
    for i := 0 to |failures|
      invariant ReportedHeads(decode, failures[..i]) == Ok(heads)
    {
      assert failures[..i + 1][..i] == failures[..i];
      var server := failures[i].server;
      if server.Some? && server.value.kind == HeadType {
        var d := decode(server.value);
        if d.Err? {
          ReportedHeadsFail(decode, failures, i + 1);
          return Err(DamagedState);
        }
        if d.value.DecodedHead? {
          heads := heads[d.value.headEntityID := server.value];
        }
      }
    }
    assert failures[..|failures|] == failures;
    return Ok(heads);
  }

  /** The session's view of the outbound side: the coordinator's caches beside the outbox and the server. */
  class OutboundSession {
    const tr: Transport
    ghost const names: Names
    var outbox: seq<Commit>
    var verified: set<string>
    var heads: map<string, Record>
    var server: Server

    constructor (tr: Transport, ghost names: Names, outbox: seq<Commit>, restoredHeads: map<string, Record>,
        server: Server)
      ensures this.tr == tr && this.names == names && View() == Outbound(outbox, {}, restoredHeads, server)
    {
      this.tr, this.names := tr, names;
      this.outbox, verified, heads, this.server := outbox, {}, restoredHeads, server;
    }

    ghost function View(): Outbound
      reads this
    {
      Outbound(outbox, verified, heads, server)
    }

    method MergeHeads(fetched: map<string, Record>)
      modifies this`heads
      ensures heads == old(heads) + fetched
    {
      heads := heads + fetched;
    }

    method MarkObjectsVerified(records: seq<Record>) returns (ok: bool)
      modifies this`verified
      ensures ok <==> forall r :: r in records ==> tr.decode(r).Ok?
      ensures ok ==> verified == old(verified) + VerifiedDigests(tr, records)
      ensures old(verified) <= verified <= old(verified) + VerifiedDigests(tr, records)
    {
      for i := 0 to |records|
        invariant forall k :: 0 <= k < i ==> tr.decode(records[k]).Ok?
        invariant verified == old(verified) + VerifiedDigests(tr, records[..i])
      {
        var decoded := tr.decode(records[i]);
        if decoded.Err? {
          return false;
        }
        VerifiedAppend(tr, records, i);
        if decoded.value.DecodedObject? {
          verified := verified + {decoded.value.digest};
        }
      }
      assert records[..|records|] == records;
      return true;
    }

    method ResetTransportCache()
      modifies this`heads, this`verified
      ensures heads == map[] && verified == {}
    {
      heads, verified := map[], {};
    }

    /** The heads to fetch, one direct read each; a missing or undecodable record ends the sync. */
    method FetchHeads(ids: set<RecordId>) returns (r: Result<(), SyncError>, ghost m: map<string, Record>)
      requires Tagged(server)
      modifies this`heads
      ensures r.Ok? ==> AllDecodable(tr, server, ids) && HeadsOf(tr, server, ids, m) && heads == old(heads) + m
      ensures r.Err? ==> heads == old(heads) && !AllDecodable(tr, server, ids)
    {
      m := map[];
      var fetched: map<string, Record> := map[];
      var pending := ids;
      while pending != {}
        invariant pending <= ids
        invariant heads == old(heads)
        invariant AllDecodable(tr, server, ids - pending) && HeadsOf(tr, server, ids - pending, fetched)
        decreases pending
      {
        var id :| id in pending;
        if id !in server.records {
          return Err(RecordMissing), map[];
        }
        var d := tr.decode(server.records[id]);
        if d.Err? {
          return Err(DamagedState), map[];
        }
        FetchOne(tr, server, ids - pending, fetched, id);
        if d.value.DecodedHead? {
          fetched := fetched[d.value.headEntityID := server.records[id]];
        }
        pending := pending - {id};
      }
      MergeHeads(fetched);
      return Ok(()), fetched;
    }
  
    /** `handleSentRecords` after the resolution: acts on it in place. */
    method Act(failures: seq<SaveFailure>, resolution: Resolution, settles: bool) returns (r: Result<(), SyncError>)
      modifies this`heads, this`verified, this`outbox
      ensures var after := AfterResolution(tr, old(View()), failures, resolution, settles);
        if r.Ok? then after == Ok(View()) else after == Err(r.error)
      ensures r.Err? ==>
        && outbox == old(outbox)
        && heads == (if resolution.CommitAccepted? then old(heads) + resolution.heads else old(heads))
        && (if resolution.ObjectsVerified?
            then old(verified) <= verified <= old(verified) + VerifiedDigests(tr, resolution.records)
            else verified == old(verified))
    {
      match resolution {
        case ObjectsVerified(records) =>
          var ok := MarkObjectsVerified(records);
          return if ok then Ok(()) else Err(DamagedState);
        case CommitAccepted(commitID, accepted) =>
          MergeHeads(accepted);
          if !settles {
            return Err(Unsettled);
          }
          outbox := Settle(outbox, commitID);
          return Ok(());
        case ConflictBranchAccepted(commitID) =>
          if !settles {
            return Err(Unsettled);
          }
          outbox := Settle(outbox, commitID);
          return Ok(());
        case CommitConflict(_, _) =>
          var gathered := GatherHeads(tr.decode, failures);
          if gathered.Err? {
            return Err(gathered.error);
          }
          MergeHeads(gathered.value);
          return Ok(());
        case Retry => return Err(RetryLater);
        case _ => return Err(DamagedState);
      }
    }

    /** `send`: the batch is served, its report resolved, object collisions completed once. */
    method Send(outside: Outside, turn: nat, phase: Phase) returns (r: Result<(), SyncError>)
      requires Lawful(tr.judge) && Honest(outside)
      modifies this
      ensures var after := AfterSend(tr, outside, turn, old(View()), phase);
        if r.Ok? then after == Ok(View()) else after == Err(r.error)
      ensures r.Err? ==> outbox == old(outbox) && server == outside.cloud(turn).serve(old(server), phase).0
    {
      var (s', resp) := outside.cloud(turn).serve(server, phase);
      CompletedCarries(outside, turn, server, phase);
      server := s';
      var order, settles := outside.cloud(turn).order(phase), outside.settles(turn);
      var resolution := ResolveBatch(tr.judge, phase, resp.saved, resp.failures, order);
      var failures := resp.failures;
      if resolution.FetchObjectCollisions? {
        if !(resolution.recordIDs <= server.records.Keys) {
          return Err(RecordMissing);
        }
        failures := CompleteAll(server, resolution.recordIDs, resp.failures);
        resolution := ResolveBatch(tr.judge, phase, resp.saved, failures, order);
      }
      r := Act(failures, resolution, settles);
    }

    /** One pass of the loop: idle, an error, or a lower measure. */
    method Pass(outside: Outside, turn: nat) returns (r: Result<bool, SyncError>)
      requires LoopSound(tr, names) && Honest(outside) && Tagged(server)
      modifies this
      ensures r == Ok(false) ==> View() == old(View()) && outbox == []
      ensures r == Ok(true) ==> Lower3(names, View(), old(View())) && Tagged(server)
      ensures Passes(tr, outside, turn, old(View()), r, View())
      ensures r.Err? ==> outbox == old(outbox)
    {
      var action := tr.plan(outbox, verified, heads);
      if action.Err? {
        return Err(PlanFailure(action.error));
      }
      PlanIsGood(tr, names, View());
      match action.value {
        case Idle =>
          return Ok(false);
        case FetchHeads(_, ids) =>
          r := FetchPass(ids);
        case _ =>
          r := SendPass(outside, turn, PhaseFor(action.value).value);
      }
    }

    method FetchPass(ids: set<RecordId>) returns (r: Result<bool, SyncError>)
      requires HeadLaw(tr, names) && Tagged(server)
      requires ids != {} && forall id :: id in ids ==> Uncached(names, outbox, heads, id)
      modifies this`heads
      ensures r.Ok? ==> r.value && Lower3(names, View(), old(View())) && Fetches(tr, ids, old(View()), View())
      ensures r.Ok? <==> AllDecodable(tr, server, ids)
    {
      var fetched, m := FetchHeads(ids);
      if fetched.Err? {
        return Err(fetched.error);
      }
      FetchLowers(tr, names, old(View()), ids, m);
      return Ok(true);
    }

    method SendPass(outside: Outside, turn: nat, phase: Phase) returns (r: Result<bool, SyncError>)
      requires Lawful(tr.judge) && HeadLaw(tr, names) && Honest(outside) && Tagged(server)
        && Planned(tr, names, View(), phase)
      modifies this
      ensures r.Ok? ==> r.value && Lower3(names, View(), old(View())) && Tagged(server)
      ensures var after := AfterSend(tr, outside, turn, old(View()), phase);
        if r.Ok? then after == Ok(View()) else after == Err(r.error)
      ensures r.Err? ==> outbox == old(outbox)
    {
      SendLowers(tr, names, outside, turn, View(), phase);
      var sent := Send(outside, turn, phase);
      return if sent.Err? then Err(sent.error) else Ok(true);
    }

    /**
     The loop of `syncNow`. It ends, whatever the other side answers, and ends without an error
     only when the outbox is empty. It does end without an error from any state of a set in which every
     pass succeeds and stays.
     */
    method Drain(outside: Outside, ghost good: Outbound -> bool) returns (r: Result<(), SyncError>)
      requires LoopSound(tr, names) && Honest(outside) && Tagged(server)
      modifies this
      ensures r.Ok? ==> outbox == []
      ensures Smooth(tr, outside, good) && old(good(View())) ==> r.Ok?
    {
      var turn := 0;
      ghost var smooth := Smooth(tr, outside, good) && good(View());
      while true
        invariant Tagged(server) && (smooth ==> Smooth(tr, outside, good) && good(View()))
        decreases |outbox|, |Unverified(names, View())|, |Stale(names, View())|
      {
        ghost var before := View();
        var more := Pass(outside, turn);
        if smooth {
          SmoothPass(tr, outside, turn, before, more, View(), good);
        }
        if more.Err? {
          return Err(more.error);
        }
        if !more.value {
          return Ok(());
        }
        turn := turn + 1;
      }
    }
  }

  /** The fetched heads are merged. */
  ghost predicate Fetches(tr: Transport, ids: set<RecordId>, st: Outbound, st': Outbound) {
    exists m :: HeadsOf(tr, st.server, ids, m) && st' == st.(heads := st.heads + m)
  }

  /** What one pass does, and when it fails. */
  ghost predicate Passes(tr: Transport, outside: Outside, turn: nat, st: Outbound, r: Result<bool, SyncError>,
      st': Outbound) {
    match tr.plan(st.outbox, st.verified, st.heads)
    case Err(_) => r.Err?
    case Ok(Idle) => r == Ok(false)
    case Ok(FetchHeads(_, ids)) =>
      (r.Ok? <==> AllDecodable(tr, st.server, ids)) && (r.Ok? ==> r.value && Fetches(tr, ids, st, st'))
    case Ok(action) =>
      && PhaseFor(action).Some?
      && var after := AfterSend(tr, outside, turn, st, PhaseFor(action).value);
      if r.Ok? then r.value && after == Ok(st') else after == Err(r.error)
  }

  /** A pass from this state succeeds and leads to a good state. */
  ghost predicate Progresses(tr: Transport, outside: Outside, turn: nat, st: Outbound, good: Outbound -> bool) {
    match tr.plan(st.outbox, st.verified, st.heads)
    case Err(_) => false
    case Ok(Idle) => true
    case Ok(FetchHeads(_, ids)) =>
      AllDecodable(tr, st.server, ids) && forall st' :: Fetches(tr, ids, st, st') ==> good(st')
    case Ok(action) =>
      && PhaseFor(action).Some?
      && var after := AfterSend(tr, outside, turn, st, PhaseFor(action).value);
      after.Ok? && good(after.value)
  }

  ghost predicate Smooth(tr: Transport, outside: Outside, good: Outbound -> bool) {
    forall turn: nat, st :: good(st) && Tagged(st.server) ==> Progresses(tr, outside, turn, st, good)
  }

  lemma SmoothPass(tr: Transport, outside: Outside, turn: nat, st: Outbound, r: Result<bool, SyncError>, st': Outbound,
      good: Outbound -> bool)
    requires Smooth(tr, outside, good) && good(st) && Tagged(st.server) && Passes(tr, outside, turn, st, r, st')
    ensures r.Ok? && (r.value ==> good(st'))
  {
    assert Progresses(tr, outside, turn, st, good);
  }

  lemma PlanIsGood(tr: Transport, names: Names, st: Outbound)
    requires LoopSound(tr, names) && tr.plan(st.outbox, st.verified, st.heads).Ok?
    ensures var action := tr.plan(st.outbox, st.verified, st.heads).value;
      && (action.Idle? ==> st.outbox == [])
      && (action.FetchHeads? ==>
        action.recordIDs != {} && forall id :: id in action.recordIDs ==> Uncached(names, st.outbox, st.heads, id))
      && (!action.Idle? && !action.FetchHeads? ==>
        PhaseFor(action).Some? && Planned(tr, names, st, PhaseFor(action).value))
  {
    assert LoopPlan(tr, names, st.outbox, st.verified, st.heads);
  }

  lemma CompletedCarries(outside: Outside, turn: nat, s: Server, phase: Phase)
    requires Honest(outside)
    ensures IterationOrder(outside.cloud(turn).order(phase), phase)
    ensures CarriesSent(phase, outside.cloud(turn).serve(s, phase).1.failures)
    ensures forall s', ids :: CarriesSent(phase, CompleteAll(s', ids, outside.cloud(turn).serve(s, phase).1.failures))
  {
    var failures := outside.cloud(turn).serve(s, phase).1.failures;
    assert Reports(s, outside.cloud(turn).serve(s, phase).0, phase.records, outside.cloud(turn).serve(s, phase).1);
    forall s', ids ensures CarriesSent(phase, CompleteAll(s', ids, failures)) {
      forall f | f in CompleteAll(s', ids, failures) ensures f.record in phase.records {
        var i :| 0 <= i < |failures| && CompleteAll(s', ids, failures)[i] == f;
        assert failures[i] in failures && f == Complete(s', ids, failures[i]);
      }
    }
  }

  lemma FetchOne(tr: Transport, s: Server, ids: set<RecordId>, m: map<string, Record>, id: RecordId)
    requires Tagged(s) && AllDecodable(tr, s, ids) && HeadsOf(tr, s, ids, m) && id in s.records
      && tr.decode(s.records[id]).Ok?
    ensures AllDecodable(tr, s, ids + {id})
    ensures var d := tr.decode(s.records[id]).value;
      HeadsOf(tr, s, ids + {id}, if d.DecodedHead? then m[d.headEntityID := s.records[id]] else m)
  {
  }
}
