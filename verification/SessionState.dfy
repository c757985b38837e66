/**
 The session actor's own fields (CloudRecordSyncSession.swift:451-590): the staged page records, the
 latest engine token, the recorded failure and the batch being sent. `Session` is the value of those
 fields; the class updates them in place and is specified by functions on that value.
 */
module SessionState {
  import opened Prelude
  import opened Records
  import opened Resolver
  import opened BootstrapCodec

  datatype SessionError =
    | ActivationRequired | AccountChanged | CloudKitFailure | DamagedBatch | TransportFailure
    | RetryPending | SendAlreadyInProgress

  /** One fetched change of the entity zone. Heads are cached by the transport; the rest goes to the daemon. */
  datatype Change = EntityChange(record: Record) | HeadChange(record: Record) | Removal(id: RecordId)

  /** An engine token, represented by the fetched changes and lifecycle documents it stands behind. */
  datatype Token = Token(domain: set<Change>, lifecycle: set<Doc>)

  datatype Session = Session(
    phase: Option<Phase>,
    failure: Option<SessionError>,
    fetching: bool,
    records: map<RecordId, Record>,
    deleted: set<RecordId>,
    latest: Option<Token>,
    appliedRemoteChanges: bool)

  function NewSession(restored: Option<Token>): Session {
    Session(None, None, false, map[], {}, restored, false)
  }

  function ChangeOf(r: Record): Change {
    if r.kind == HeadType then HeadChange(r) else EntityChange(r)
  }

  /** The changes staged since the fetch began. */
  function Staged(records: map<RecordId, Record>, deleted: set<RecordId>): set<Change> {
    (set id | id in records :: ChangeOf(records[id])) + (set id | id in deleted :: Removal(id))
  }

  /** The first failure wins. */
  function Recorded(s: Session, e: SessionError): Session {
    if s.failure.None? then s.(failure := Some(e)) else s
  }

  function Reset(s: Session): Session {
    s.(phase := None, fetching := false, records := map[], deleted := {}, latest := None, appliedRemoteChanges := false)
  }

  function Finished(s: Session, completed: Phase): Session {
    if s.phase.Some? && Map(IdOf, s.phase.value.records) == Map(IdOf, completed.records) then s.(phase := None) else s
  }

  /** Page staging up to the first duplicate: what is staged then, and whether there was none. */
  function StageRecords(m: map<RecordId, Record>, deleted: set<RecordId>, records: seq<Record>):
    (map<RecordId, Record>, bool)
    decreases |records|
  {
    if records == [] then (m, true)
    else if records[0].id in m || records[0].id in deleted then (m, false)
    else StageRecords(m[records[0].id := records[0]], deleted, records[1..])
  }

  function StageDeleted(m: map<RecordId, Record>, deleted: set<RecordId>, ids: seq<RecordId>): (set<RecordId>, bool)
    decreases |ids|
  {
    if ids == [] then (deleted, true)
    else if ids[0] in m || ids[0] in deleted then (deleted, false)
    else StageDeleted(m, deleted + {ids[0]}, ids[1..])
  }

  function StagePage(s: Session, records: seq<Record>, deleted: seq<RecordId>): (Session, bool) {
    if !s.fetching then (s, false)
    else
      var (m, ok) := StageRecords(s.records, s.deleted, records);
      if !ok then (s.(records := m), false)
      else
        var (d, fine) := StageDeleted(m, s.deleted, deleted);
        (s.(records := m, deleted := d), fine)
  }

  /** What a page of these records and deletions amounts to. */
  function PageChanges(records: seq<Record>, deleted: seq<RecordId>): set<Change> {
    (set r | r in records :: ChangeOf(r)) + (set id | id in deleted :: Removal(id))
  }

  lemma {:induction false} StagedRecords(m: map<RecordId, Record>, deleted: set<RecordId>, records: seq<Record>)
    ensures var (m', ok) := StageRecords(m, deleted, records);
      && (forall id :: id in m ==> id in m' && m'[id] == m[id])
      && (ok ==> forall r :: r in records ==> r.id in m' && m'[r.id] == r)
      && (ok <==> DistinctIds(records) && forall r :: r in records ==> r.id !in m && r.id !in deleted)
      && (forall id :: id in m' && id !in m ==> m'[id] in records && m'[id].id == id)
    decreases |records|
  {
    if records != [] && records[0].id !in m && records[0].id !in deleted {
      StagedRecords(m[records[0].id := records[0]], deleted, records[1..]);
      assert forall r :: r in records <==> r == records[0] || r in records[1..];
      DistinctCons(records);
    } else if records != [] {
      assert records[0] in records;
    }
  }

  lemma DistinctCons(records: seq<Record>)
    requires records != []
    ensures DistinctIds(records) <==> DistinctIds(records[1..]) && forall r :: r in records[1..] ==>
      r.id != records[0].id
  {
    if DistinctIds(records[1..]) && forall r :: r in records[1..] ==> r.id != records[0].id {
      forall i, j | 0 <= i < j < |records| ensures records[i].id != records[j].id {
        assert records[j] == records[1..][j - 1] && records[j] in records[1..];
        if i > 0 {
          assert records[i] == records[1..][i - 1];
        }
      }
    }
  }

  lemma {:induction false} StagedDeleted(m: map<RecordId, Record>, deleted: set<RecordId>, ids: seq<RecordId>)
    ensures var (d, ok) := StageDeleted(m, deleted, ids);
      && deleted <= d && (ok ==> d == deleted + Elements(ids))
      && (ok <==> Distinct(ids) && forall id :: id in ids ==> id !in m && id !in deleted)
    decreases |ids|
  {
    if ids != [] && ids[0] !in m && ids[0] !in deleted {
      StagedDeleted(m, deleted + {ids[0]}, ids[1..]);
      assert forall id :: id in ids <==> id == ids[0] || id in ids[1..];
      DistinctTail(ids);
    } else if ids != [] {
      assert ids[0] in ids;
    }
  }

  lemma DistinctTail<T>(s: seq<T>)
    requires s != []
    ensures Distinct(s) <==> Distinct(s[1..]) && s[0] !in s[1..]
  {
    if Distinct(s[1..]) && s[0] !in s[1..] {
      forall i, j | 0 <= i < j < |s| ensures s[i] != s[j] {
        assert s[j] == s[1..][j - 1] && s[j] in s[1..];
        if i > 0 {
          assert s[i] == s[1..][i - 1];
        }
      }
    }
  }

  /** The change is that of a record of the page, a head exactly for a head record, or one of its deletions. */
  ghost predicate OfPage(c: Change, records: seq<Record>, deleted: seq<RecordId>) {
    match c
    case EntityChange(r) => r in records && r.kind != HeadType
    case HeadChange(r) => r in records && r.kind == HeadType
    case Removal(id) => id in deleted
  }

  /** The page is staged exactly when a fetch is open and it names no id twice, nor one staged before. */
  ghost predicate Stages(s: Session, records: seq<Record>, deleted: seq<RecordId>) {
    && s.fetching && DistinctIds(records) && Distinct(deleted)
    && (forall r :: r in records ==> r.id !in s.records && r.id !in s.deleted)
    && forall id :: id in deleted ==> id !in s.records && id !in s.deleted && forall r :: r in records ==> r.id != id
  }

  lemma PageStagesIff(s: Session, records: seq<Record>, deleted: seq<RecordId>)
    ensures StagePage(s, records, deleted).1 <==> Stages(s, records, deleted)
  {
    StagedRecords(s.records, s.deleted, records);
    var (m, ok) := StageRecords(s.records, s.deleted, records);
    StagedDeleted(m, s.deleted, deleted);
    if ok {
      assert forall id :: id in m <==> id in s.records || exists r :: r in records && r.id == id;
    }
  }

  lemma PageChangesMean(records: seq<Record>, deleted: seq<RecordId>)
    ensures forall c :: c in PageChanges(records, deleted) <==> OfPage(c, records, deleted)
  {
    forall c | OfPage(c, records, deleted) ensures c in PageChanges(records, deleted) {
      if !c.Removal? {
        assert c == ChangeOf(c.record);
      }
    }
  }

  /** Staging never drops a staged change, and a page staged without complaint is staged whole. */
  lemma PageIsStaged(s: Session, records: seq<Record>, deleted: seq<RecordId>)
    ensures var (s', ok) := StagePage(s, records, deleted);
      && Staged(s.records, s.deleted) <= Staged(s'.records, s'.deleted)
      && (ok ==> PageChanges(records, deleted) <= Staged(s'.records, s'.deleted))
      && s' == s.(records := s'.records, deleted := s'.deleted)
      && (ok <==> Stages(s, records, deleted))
      && forall c :: c in PageChanges(records, deleted) <==> OfPage(c, records, deleted)
  {
    PageStagesIff(s, records, deleted);
    PageChangesMean(records, deleted);
    if s.fetching {
      var (m, ok) := StageRecords(s.records, s.deleted, records);
      StagedRecords(s.records, s.deleted, records);
      StagedDeleted(m, s.deleted, deleted);
      var (s', fine) := StagePage(s, records, deleted);
      forall id | id in s.records ensures ChangeOf(s.records[id]) in Staged(s'.records, s'.deleted) {
        assert id in m && m[id] == s.records[id];
      }
      if fine {
        forall r | r in records ensures ChangeOf(r) in Staged(s'.records, s'.deleted) {
          assert r.id in m && m[r.id] == r;
        }
      }
    }
  }

  /** Staged records are filed under their own ids. */
  ghost predicate FiledById(records: map<RecordId, Record>) {
    forall id :: id in records ==> records[id].id == id
  }

  lemma PageStaysFiled(s: Session, records: seq<Record>, deleted: seq<RecordId>)
    requires FiledById(s.records)
    ensures FiledById(StagePage(s, records, deleted).0.records)
  {
    StagedRecords(s.records, s.deleted, records);
  }

  datatype SendFailureDisposition = DelegateAccepted | RecordedFailure(failure: SessionError) | Unhandled

  class SessionActor {
    var phase: Option<Phase>
    var failure: Option<SessionError>
    var fetching: bool
    var records: map<RecordId, Record>
    var deleted: set<RecordId>
    var latest: Option<Token>
    var appliedRemoteChanges: bool

    ghost function View(): Session
      reads this
    {
      Session(phase, failure, fetching, records, deleted, latest, appliedRemoteChanges)
    }

    constructor (restored: Option<Token>)
      ensures View() == NewSession(restored)
    {
      phase, failure, fetching, records, deleted := None, None, false, map[], {};
      latest, appliedRemoteChanges := restored, false;
    }

    method Begin(newPhase: Phase) returns (r: Result<(), SessionError>)
      modifies this`phase
      ensures r == if old(phase).Some? then Err(SendAlreadyInProgress) else Ok(())
      ensures phase == if old(phase).Some? then old(phase) else Some(newPhase)
    {
      if phase.Some? {
        return Err(SendAlreadyInProgress);
      }
      phase := Some(newPhase);
      return Ok(());
    }

    method Finish(completed: Phase)
      modifies this`phase
      ensures View() == Finished(old(View()), completed)
    {
      if phase.Some? && Map(IdOf, phase.value.records) == Map(IdOf, completed.records) {
        phase := None;
      }
    }

    method RecordFailure(e: SessionError)
      modifies this`failure
      ensures View() == Recorded(old(View()), e)
    {
      if failure.None? {
        failure := Some(e);
      }
    }

    method Disposition(isPartialFailure: bool) returns (d: SendFailureDisposition)
      ensures d.DelegateAccepted? <==> failure.None? && isPartialFailure && phase.None?
      ensures d.RecordedFailure? <==> failure.Some?
      ensures d.RecordedFailure? ==> failure == Some(d.failure)
    {
      if failure.Some? {
        return RecordedFailure(failure.value);
      }
      return if isPartialFailure && phase.None? then DelegateAccepted else Unhandled;
    }

    method BeginZoneFetch() returns (r: Result<(), SessionError>)
      modifies this
      ensures r == if old(fetching) then Err(DamagedBatch) else Ok(())
      ensures View() == if old(fetching) then old(View())
        else old(View()).(fetching := true, records := map[], deleted := {})
    {
      if fetching {
        return Err(DamagedBatch);
      }
      fetching, records, deleted := true, map[], {};
      return Ok(());
    }

    /** Stages one page record by record; a duplicate stops it with the earlier records staged. */
    method StageFetchedDomain(pageRecords: seq<Record>, pageDeleted: seq<RecordId>)
        returns (r: Result<(), SessionError>)
      modifies this`records, this`deleted
      ensures (View(), r.Ok?) == StagePage(old(View()), pageRecords, pageDeleted)
    {
      if !fetching {
        return Err(DamagedBatch);
      }
      for i := 0 to |pageRecords|
        invariant deleted == old(deleted)
        invariant StageRecords(old(records), old(deleted), pageRecords)
          == StageRecords(records, deleted, pageRecords[i..])
      {
        var record := pageRecords[i];
        assert pageRecords[i..][0] == record && pageRecords[i..][1..] == pageRecords[i + 1..];
        if record.id in records || record.id in deleted {
          return Err(DamagedBatch);
        }
        records := records[record.id := record];
      }
      ghost var staged := records;
      assert StageRecords(old(records), old(deleted), pageRecords) == (staged, true);
      for i := 0 to |pageDeleted|
        invariant records == staged
        invariant StageDeleted(records, old(deleted), pageDeleted) == StageDeleted(records, deleted, pageDeleted[i..])
      {
        var id := pageDeleted[i];
        assert pageDeleted[i..][0] == id && pageDeleted[i..][1..] == pageDeleted[i + 1..];
        if id in records || id in deleted {
          return Err(DamagedBatch);
        }
        deleted := deleted + {id};
      }
      return Ok(());
    }

    method StagedFetchedDomain() returns (r: Result<(map<RecordId, Record>, set<RecordId>), SessionError>)
      ensures r == if fetching then Ok((records, deleted)) else Err(DamagedBatch)
    {
      return if fetching then Ok((records, deleted)) else Err(DamagedBatch);
    }

    method CommitZoneFetch() returns (r: Result<Option<Token>, SessionError>)
      modifies this
      ensures r == if old(fetching) then Ok(old(latest)) else Err(DamagedBatch)
      ensures View() == if old(fetching) then old(View()).(fetching := false, records := map[], deleted := {})
        else old(View())
    {
      if !fetching {
        return Err(DamagedBatch);
      }
      fetching, records, deleted := false, map[], {};
      return Ok(latest);
    }

    /** Keeps every token in memory; hands it on for saving only outside a fetch. */
    method ObserveEngineState(token: Token) returns (toSave: Option<Token>)
      modifies this`latest
      ensures View() == old(View()).(latest := Some(token))
      ensures toSave == if fetching then None else Some(token)
    {
      latest := Some(token);
      return if fetching then None else Some(token);
    }

    method ResetTransportCache()
      modifies this
      ensures View() == Reset(old(View()))
    {
      phase, fetching, records, deleted, latest, appliedRemoteChanges := None, false, map[], {}, None, false;
    }

    /** Only a pending retry may be forgotten; any other failure needs a new session. */
    method PrepareForManualSync() returns (r: Result<(), SessionError>)
      modifies this
      ensures r.Ok? <==> old(failure).None? || old(failure) == Some(RetryPending)
      ensures r.Ok? ==> View() == old(View()).(failure := None, appliedRemoteChanges := false)
      ensures r.Err? ==> View() == old(View()) && Some(r.error) == failure
    {
      if failure.Some? && failure.value != RetryPending {
        return Err(failure.value);
      }
      failure, appliedRemoteChanges := None, false;
      return Ok(());
    }
  }
}
