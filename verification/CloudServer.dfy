/**
 The record server as the sync engine relies on it: create-only and tag-checked saves, fresh
 change tags, atomic or per-record batches, no deletion, and an honest but possibly partial report.
 */
module CloudServer {
  import opened Prelude
  import opened Records
  import opened Resolver

  datatype Server = Server(records: map<RecordId, Record>, nextTag: nat)

  datatype Response = Response(saved: seq<Record>, failures: seq<SaveFailure>)

  /** A record without a tag may only be created; a tagged one may only replace the version it names. */
  predicate Accepts(s: Server, r: Record) {
    if r.tag.None? then r.id !in s.records else r.id in s.records && s.records[r.id].tag == r.tag
  }

  /** A collision report carries the server's record; for an object it may lack the downloaded asset. */
  predicate IsCopy(copy: Record, original: Record) {
    || copy == original
    || (original.kind == ObjectType && copy == original.(fields := original.fields[Ciphertext := Asset(None)]))
  }

  ghost predicate Changed(s: Server, s': Server, id: RecordId) {
    id in s'.records && (id !in s.records || s'.records[id] != s.records[id])
  }

  /** `q` is the stored form of a sent record the server accepts, under a tag of this step. */
  ghost predicate StoredFrom(s: Server, s': Server, records: seq<Record>, q: Record) {
    && q.tag.Some? && s.nextTag <= q.tag.value < s'.nextTag
    && exists r :: r in records && r.id == q.id && Accepts(s, r) && q == r.(tag := q.tag)
  }

  /** The effect of one batch on the records. A batch that names a record twice is refused whole. */
  ghost predicate Writes(s: Server, s': Server, records: seq<Record>, atomic: bool) {
    && s.nextTag <= s'.nextTag
    && s.records.Keys <= s'.records.Keys
    && (forall id :: Changed(s, s', id) ==>
          s'.records[id].id == id && DistinctIds(records) && StoredFrom(s, s', records, s'.records[id]))
    && (forall id, jd :: Changed(s, s', id) && Changed(s, s', jd) && s'.records[id].tag == s'.records[jd].tag ==>
      id == jd)
    && (atomic && (exists id :: Changed(s, s', id))
      ==> forall r :: r in records ==> Accepts(s, r) && Changed(s, s', r.id))
  }

  /** What the report may say about the batch: any honest part of it. */
  ghost predicate Reports(s: Server, s': Server, records: seq<Record>, resp: Response) {
    && (forall q :: q in resp.saved ==> Changed(s, s', q.id) && s'.records[q.id] == q)
    && (forall f :: f in resp.failures ==> f.record in records && !Changed(s, s', f.record.id))
    && (forall f :: f in resp.failures && f.code.ServerRecordChanged? ==> !Accepts(s, f.record) && f.server.Some?)
    && (forall f :: f in resp.failures && f.server.Some? ==>
          f.record.id in s.records && IsCopy(f.server.value, s.records[f.record.id]))
  }

  /** How a refused atomic batch is reported: offenders collide with the server's record,
    the others were rolled back. */
  ghost predicate ReportsRefusal(s: Server, records: seq<Record>, resp: Response) {
    && resp.saved == [] && |resp.failures| == |records|
    && forall i :: 0 <= i < |records| ==>
         && resp.failures[i].record == records[i]
         && (if Accepts(s, records[i]) then resp.failures[i] == SaveFailure(records[i], BatchRequestFailed, None)
             else resp.failures[i].code.ServerRecordChanged?)
  }

  /** The sent record a changed record comes from. */
  lemma SentFor(s: Server, s': Server, records: seq<Record>, atomic: bool, id: RecordId) returns (r: Record)
    requires Writes(s, s', records, atomic) && Changed(s, s', id)
    ensures var q := s'.records[id];
      && q.id == id && r in records && r.id == q.id && Accepts(s, r) && q == r.(tag := q.tag)
      && q.tag.Some? && s.nextTag <= q.tag.value < s'.nextTag
  {
    var q := s'.records[id];
    assert StoredFrom(s, s', records, q);
    r :| r in records && r.id == q.id && Accepts(s, r) && q == r.(tag := q.tag);
  }

  /** One record the server does not accept refuses an atomic batch whole. */
  lemma RefusedWhole(s: Server, s': Server, records: seq<Record>, r: Record)
    requires Writes(s, s', records, true) && r in records && !Accepts(s, r)
    ensures s'.records == s.records
  {
    forall id | id in s'.records ensures id in s.records && s'.records[id] == s.records[id] {
      assert !Changed(s, s', id);
    }
  }

  /** A lifecycle batch or a commit is saved whole or not at all. */
  lemma WholeOrNothing(s: Server, s': Server, phase: Phase, id: RecordId, r: Record)
    requires phase.BootstrapPhase? || phase.CommitPhase?
    requires Writes(s, s', phase.records, phase.AtomicByZone()) && Changed(s, s', id) && r in phase.records
    ensures Accepts(s, r) && Changed(s, s', r.id)
  {
  }

  /** Objects and conflict branches are saved record by record: one that is refused does not stop the others. */
  lemma RecordByRecord(s: Server, phase: Phase, r: Record) returns (s': Server)
    requires phase.ObjectsPhase? || phase.ConflictBranchPhase?
    requires DistinctIds(phase.records) && r in phase.records && Accepts(s, r)
    requires forall id :: id in s.records && s.records[id].tag.Some? ==> s.records[id].tag.value < s.nextTag
    ensures Writes(s, s', phase.records, phase.AtomicByZone())
    ensures forall id :: Changed(s, s', id) <==> id == r.id
  {
    var q := r.(tag := Some(s.nextTag));
    s' := Server(s.records[r.id := q], s.nextTag + 1);
    assert StoredFrom(s, s', phase.records, q);
    assert Changed(s, s', r.id) by {
      if r.id in s.records {
        assert s.records[r.id].tag == r.tag;
      }
    }
  }

  /** The other side of one send: how it serves a batch, and how a dictionary iterates. */
  datatype Cloud = Cloud(serve: (Server, Phase) -> (Server, Response), order: Phase -> seq<Record>)

  ghost predicate HonestCloud(cloud: Cloud) {
    forall s, phase ::
      && Writes(s, cloud.serve(s, phase).0, phase.records, phase.AtomicByZone())
      && Reports(s, cloud.serve(s, phase).0, phase.records, cloud.serve(s, phase).1)
      && IterationOrder(cloud.order(phase), phase)
  }
}
