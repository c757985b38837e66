/**
 What the daemon is handed for a fetch (CloudInboundProcessor.swift:11-53), stated over the records themselves: each
 list holds exactly the decoded values of the records of its kind, in order of their ids, with staged assets.
 */
module InboundContents {
  import opened Prelude
  import opened Selection
  import opened Order
  import opened Text
  import opened Records
  import opened Inbound
  import RecordCodec
  import Base64

  type Stage = (string, nat, File) -> Option<File>

  /** The record is of this kind and value, as the codec reads it. */
  ghost predicate Holds(zone: string, records: seq<Record>, d: RecordCodec.Decoded) {
    exists r :: r in records && RecordCodec.Decode(zone, r) == Ok(d)
  }

  /** An object record of this digest and size, whose asset was staged as this file. */
  ghost predicate HoldsObject(zone: string, stage: Stage, records: seq<Record>, digest: string, size: nat,
      staged: File) {
    exists file :: Holds(zone, records, RecordCodec.DecodedObject(digest, size, file))
      && stage(digest, size, file) == Some(staged)
  }

  /** A record the preparation accepts: it decodes, and an asset can be staged. */
  ghost predicate Acceptable(zone: string, stage: Stage, r: Record) {
    && RecordCodec.Decode(zone, r).Ok?
    && match RecordCodec.Decode(zone, r).value
       case DecodedObject(digest, size, file) => stage(digest, size, file).Some?
       case _ => true
  }

  /** What a record contributes. */
  ghost predicate ReadsAs(zone: string, stage: Stage, r: Record, e: Entry) {
    && RecordCodec.Decode(zone, r).Ok?
    && match e
       case ManifestEntry(commitID, manifest64) =>
         RecordCodec.Decode(zone, r).value == RecordCodec.DecodedManifest(commitID, manifest64)
       case RevisionEntry(entityID, revisionID, envelope64) =>
         RecordCodec.Decode(zone, r).value == RecordCodec.DecodedRevision(entityID, revisionID, envelope64)
       case ObjectEntry(digest, size, staged) =>
         exists file :: RecordCodec.Decode(zone, r).value == RecordCodec.DecodedObject(digest, size, file)
           && stage(digest, size, file) == Some(staged)
       case HeadEntry(entityID, head) =>
         head == r && RecordCodec.Decode(zone, r).value.DecodedHead?
           && RecordCodec.Decode(zone, r).value.headEntityID == entityID
  }

  lemma ReadMeans(zone: string, stage: Stage, r: Record)
    ensures ReadRecord(zone, stage, r).Ok? <==> Acceptable(zone, stage, r)
    ensures forall e :: ReadRecord(zone, stage, r) == Ok(e) <==> ReadsAs(zone, stage, r, e)
  {
  }

  /** The entries are those of the records. */
  lemma EntriesOf(zone: string, stage: Stage, records: seq<Record>, entries: seq<Entry>, e: Entry)
    requires ReadAll(r => ReadRecord(zone, stage, r), records) == Ok(entries)
    ensures e in entries <==> exists r :: r in records && ReadsAs(zone, stage, r, e)
  {
    var read := r => ReadRecord(zone, stage, r);
    if e in entries {
      var i :| 0 <= i < |entries| && entries[i] == e;
      ReadMeans(zone, stage, records[i]);
      assert read(records[i]) == Ok(e) && records[i] in records;
    }
    if r :| r in records && ReadsAs(zone, stage, r, e) {
      var i :| 0 <= i < |records| && records[i] == r;
      ReadMeans(zone, stage, r);
      assert read(records[i]) == Ok(entries[i]);
    }
  }

  lemma Picked<T(!new)>(less: (T, T) -> bool, f: Entry -> Option<T>, entries: seq<Entry>, x: T)
    ensures x in Sort(less, Select(f, entries)) <==> exists e :: e in entries && f(e) == Some(x)
  {
    MembersByMultiset(Select(f, entries), Sort(less, Select(f, entries)));
    if x in Select(f, entries) {
      SelectedFrom(f, entries, x);
    }
    if e :| e in entries && f(e) == Some(x) {
      SelectHas(f, entries, e);
    }
  }

  lemma ManifestsAre(zone: string, stage: Stage, records: seq<Record>, entries: seq<Entry>, x: (string, string))
    requires ReadAll(r => ReadRecord(zone, stage, r), records) == Ok(entries)
    ensures x in Assemble(entries).manifests <==> Holds(zone, records, RecordCodec.DecodedManifest(x.0, x.1))
  {
    Picked(ManifestLess, AsManifest, entries, x);
    var e := ManifestEntry(x.0, x.1);
    EntriesOf(zone, stage, records, entries, e);
    assert forall y :: AsManifest(y) == Some(x) <==> y == e;
    assert forall r :: ReadsAs(zone, stage, r, e) <==>
      RecordCodec.Decode(zone, r) == Ok(RecordCodec.DecodedManifest(x.0, x.1));
  }

  lemma RevisionsAre(zone: string, stage: Stage, records: seq<Record>, entries: seq<Entry>, x: (string, string, string))
    requires ReadAll(r => ReadRecord(zone, stage, r), records) == Ok(entries)
    ensures x in Assemble(entries).revisions <==> Holds(zone, records, RecordCodec.DecodedRevision(x.0, x.1, x.2))
  {
    Picked(RevisionLess, AsRevision, entries, x);
    var e := RevisionEntry(x.0, x.1, x.2);
    EntriesOf(zone, stage, records, entries, e);
    assert forall y :: AsRevision(y) == Some(x) <==> y == e;
    assert forall r :: ReadsAs(zone, stage, r, e) <==>
      RecordCodec.Decode(zone, r) == Ok(RecordCodec.DecodedRevision(x.0, x.1, x.2));
  }

  lemma ObjectsAre(zone: string, stage: Stage, records: seq<Record>, entries: seq<Entry>, x: (string, nat, File))
    requires ReadAll(r => ReadRecord(zone, stage, r), records) == Ok(entries)
    ensures x in Assemble(entries).objects <==> HoldsObject(zone, stage, records, x.0, x.1, x.2)
  {
    Picked(ObjectLess, AsObject, entries, x);
    var e := ObjectEntry(x.0, x.1, x.2);
    EntriesOf(zone, stage, records, entries, e);
    assert forall y :: AsObject(y) == Some(x) <==> y == e;
    if HoldsObject(zone, stage, records, x.0, x.1, x.2) {
      var file :| Holds(zone, records, RecordCodec.DecodedObject(x.0, x.1, file)) && stage(x.0, x.1, file) == Some(x.2);
      var r :| r in records && RecordCodec.Decode(zone, r) == Ok(RecordCodec.DecodedObject(x.0, x.1, file));
      assert ReadsAs(zone, stage, r, e);
    }
    if r :| r in records && ReadsAs(zone, stage, r, e) {
      var file :| RecordCodec.Decode(zone, r).value == RecordCodec.DecodedObject(x.0, x.1, file)
        && stage(x.0, x.1, file) == Some(x.2);
      assert Holds(zone, records, RecordCodec.DecodedObject(x.0, x.1, file));
    }
  }

  lemma HeadsAre(zone: string, stage: Stage, records: seq<Record>, e: string, r: Record)
    requires Prepare(r => ReadRecord(zone, stage, r), records, []).Ok?
    ensures HeadAt(Prepare(r => ReadRecord(zone, stage, r), records, []).value, e, r) <==>
      r in records && IsHeadOf(zone, r, e)
  {
    var read := r => ReadRecord(zone, stage, r);
    ReadRecordLaw(zone, stage);
    ReadRecordHeads(zone, stage);
    HeadPair(read, records, e, r);
    ReadMeans(zone, stage, r);
    assert ReadsAs(zone, stage, r, HeadEntry(e, r)) <==> read(r) == Ok(HeadEntry(e, r));
  }

  /** Each list is in strict order of its ids. */
  ghost predicate InOrder(p: Preparation) {
    && (forall i, j :: 0 <= i < j < |p.manifests| ==> LexLess(p.manifests[i].0, p.manifests[j].0))
    && (forall i, j :: 0 <= i < j < |p.revisions| ==> LexLess(p.revisions[i].1, p.revisions[j].1))
    && (forall i, j :: 0 <= i < j < |p.objects| ==> LexLess(p.objects[i].0, p.objects[j].0))
  }

  ghost predicate HasManifests(zone: string, records: seq<Record>, p: Preparation) {
    forall c, m :: (c, m) in p.manifests <==> Holds(zone, records, RecordCodec.DecodedManifest(c, m))
  }

  ghost predicate HasRevisions(zone: string, records: seq<Record>, p: Preparation) {
    forall e, v, b :: (e, v, b) in p.revisions <==> Holds(zone, records, RecordCodec.DecodedRevision(e, v, b))
  }

  ghost predicate HasObjects(zone: string, stage: Stage, records: seq<Record>, p: Preparation) {
    forall d, n: nat, f :: (d, n, f) in p.objects <==> HoldsObject(zone, stage, records, d, n, f)
  }

  ghost predicate HasHeads(zone: string, records: seq<Record>, p: Preparation) {
    forall e, r :: HeadAt(p, e, r) <==> r in records && IsHeadOf(zone, r, e)
  }

  ghost predicate HeadAt(p: Preparation, e: string, r: Record) {
    e in p.heads && p.heads[e] == r
  }

  ghost predicate IsHeadOf(zone: string, r: Record, e: string) {
    RecordCodec.Decode(zone, r).Ok? && RecordCodec.Decode(zone, r).value.DecodedHead?
      && RecordCodec.Decode(zone, r).value.headEntityID == e
  }

  /** What the daemon gets: exactly the decoded values of the records, each once, and nothing else. */
  ghost predicate Contents(zone: string, stage: Stage, records: seq<Record>, p: Preparation) {
    && HasManifests(zone, records, p) && HasRevisions(zone, records, p) && HasObjects(zone, stage, records, p)
    && HasHeads(zone, records, p)
    && |p.manifests| + |p.revisions| + |p.objects| + |p.heads| == |records|
  }

  // ----- order -----

  lemma {:induction false} SelectDistinct<T(!new)>(f: Entry -> Option<T>, entries: seq<Entry>)
    requires DistinctBy(KeyOf, entries)
    requires forall a, b :: f(a).Some? && f(a) == f(b) ==> KeyOf(a) == KeyOf(b)
    ensures Distinct(Select(f, entries))
    decreases |entries|
  {
    if entries != [] {
      var n := |entries| - 1;
      KeysPrefix(entries);
      SelectDistinct(f, entries[..n]);
      if f(entries[n]).Some? && f(entries[n]).value in Select(f, entries[..n]) {
        SelectedFrom(f, entries[..n], f(entries[n]).value);
        assert false;
      }
    }
  }

  lemma StrictOrder<T(!new)>(less: (T, T) -> bool, s: seq<T>)
    requires StrictWeak(less) && Comparable(less, s) && Distinct(s)
    ensures forall i, j :: 0 <= i < j < |s| ==> less(Sort(less, s)[i], Sort(less, s)[j])
  {
    var t := Sort(less, s);
    SortSorts(less, s);
    MembersByMultiset(s, t);
    DistinctPermutation(s, t);
    forall i, j | 0 <= i < j < |t| ensures less(t[i], t[j]) {
      assert t[i] in t && t[j] in t && t[i] != t[j];
    }
  }

  lemma ListsInOrder(entries: seq<Entry>)
    requires DistinctBy(KeyOf, entries)
    ensures InOrder(Assemble(entries))
  {
    KeyedOrders();
    ManifestsCompare(entries);
    RevisionsCompare(entries);
    ObjectsCompare(entries);
    SelectDistinct(AsManifest, entries);
    SelectDistinct(AsRevision, entries);
    SelectDistinct(AsObject, entries);
    StrictOrder(ManifestLess, Select(AsManifest, entries));
    StrictOrder(RevisionLess, Select(AsRevision, entries));
    StrictOrder(ObjectLess, Select(AsObject, entries));
  }

  // ----- the whole preparation -----

  lemma ListsAreContents(zone: string, stage: Stage, records: seq<Record>, entries: seq<Entry>)
    requires ReadAll(r => ReadRecord(zone, stage, r), records) == Ok(entries)
    ensures HasManifests(zone, records, Assemble(entries)) && HasRevisions(zone, records, Assemble(entries))
    ensures HasObjects(zone, stage, records, Assemble(entries))
  {
    var p := Assemble(entries);
    forall c, m ensures (c, m) in p.manifests <==> Holds(zone, records, RecordCodec.DecodedManifest(c, m)) {
      ManifestsAre(zone, stage, records, entries, (c, m));
    }
    forall e, v, b ensures (e, v, b) in p.revisions <==> Holds(zone, records, RecordCodec.DecodedRevision(e, v, b)) {
      RevisionsAre(zone, stage, records, entries, (e, v, b));
    }
    forall d, n: nat, f ensures (d, n, f) in p.objects <==> HoldsObject(zone, stage, records, d, n, f) {
      ObjectsAre(zone, stage, records, entries, (d, n, f));
    }
  }

  lemma HeadsAreContents(zone: string, stage: Stage, records: seq<Record>)
    requires Prepare(r => ReadRecord(zone, stage, r), records, []).Ok?
    ensures HasHeads(zone, records, Prepare(r => ReadRecord(zone, stage, r), records, []).value)
  {
    var p := Prepare(r => ReadRecord(zone, stage, r), records, []).value;
    forall e, r ensures HeadAt(p, e, r) <==> r in records && IsHeadOf(zone, r, e) {
      HeadsAre(zone, stage, records, e, r);
    }
  }

  /** The daemon is handed exactly the decoded values of the records, in order of their ids. */
  lemma PreparedContents(zone: string, stage: Stage, records: seq<Record>)
    requires Prepare(r => ReadRecord(zone, stage, r), records, []).Ok?
    ensures var p := Prepare(r => ReadRecord(zone, stage, r), records, []).value;
      Contents(zone, stage, records, p) && InOrder(p)
  {
    var read := r => ReadRecord(zone, stage, r);
    var entries := ReadAll(read, records).value;
    ReadRecordLaw(zone, stage);
    ReadKeys(read, records);
    ListsInOrder(entries);
    PreparedExactlyOnce(read, records);
    ListsAreContents(zone, stage, records, entries);
    HeadsAreContents(zone, stage, records);
  }

  lemma {:induction false} ReadAllIff(zone: string, stage: Stage, records: seq<Record>)
    ensures ReadAll(r => ReadRecord(zone, stage, r), records).Ok? <==>
      Distinct(Map(IdOf, records)) && forall r :: r in records ==> Acceptable(zone, stage, r)
  {
    var read := r => ReadRecord(zone, stage, r);
    forall r | r in records ensures read(r).Ok? <==> Acceptable(zone, stage, r) {
      ReadMeans(zone, stage, r);
    }
    if ReadAll(read, records).Ok? {
      forall r | r in records ensures read(r).Ok? {
        var i :| 0 <= i < |records| && records[i] == r;
        assert read(records[i]).Ok?;
      }
    } else if Distinct(Map(IdOf, records)) && forall r :: r in records ==> Acceptable(zone, stage, r) {
      ReadAllSucceeds(read, records);
    }
  }

  /** `prepare` with the real codec and asset store. */
  method PrepareRecords(zone: string, stage: Stage, records: seq<Record>, deleted: seq<RecordId>)
    returns (r: Result<Preparation, InboundError>)
    ensures r.Ok? <==>
      && deleted == [] && Distinct(Map(IdOf, records))
      && forall x :: x in records ==> Acceptable(zone, stage, x)
    ensures r.Ok? ==> Contents(zone, stage, records, r.value) && InOrder(r.value)
    ensures deleted != [] ==> r == Err(RecordsDeleted)
  {
    var read := x => ReadRecord(zone, stage, x);
    r := PrepareInbound(read, records, deleted);
    ReadAllIff(zone, stage, records);
    if r.Ok? {
      PreparedContents(zone, stage, records);
    }
  }

  /** A revision record that a device built arrives under its own entity and revision id, with its own bytes. */
  lemma BuiltRevisionArrives(zone: string, stage: Stage, records: seq<Record>, p: Preparation,
      revision: RecordCodec.Revision, r: Record)
    requires Contents(zone, stage, records, p) && r in records
    requires RecordCodec.RevisionRecord(zone, revision) == Ok(r.(tag := None))
    ensures (Lower(revision.entityID), Lower(revision.revisionID),
             Base64.Encode(Base64.Decode(revision.envelope64).value)) in p.revisions
  {
    RecordCodec.RevisionRoundTrip(zone, revision);
    RecordCodec.DecodeIgnoresTag(zone, r, None);
    assert Holds(zone, records, RecordCodec.Decode(zone, r).value);
  }
}
