/**
 Inbound preparation (CloudInboundProcessor.swift:11-53): the staged records of a fetch become one
 sorted batch for the daemon and a map of heads, whatever the pages and the dictionary order were.
 */
module Inbound {
  import opened Prelude
  import opened Selection
  import opened Order
  import opened Text
  import opened Records
  import RecordCodec
  import Resolver
  import SessionState

  /** A decoded record with its asset, if any, staged; a head keeps its record. */
  datatype Entry =
    | ManifestEntry(commitID: string, manifest64: string)
    | RevisionEntry(entityID: string, revisionID: string, envelope64: string)
    | ObjectEntry(digest: string, ciphertextSize: nat, file: File)
    | HeadEntry(headEntityID: string, head: Record)

  datatype InboundError =
    | RecordsDeleted
    | DuplicateRecord
    | CodecFailure(cause: RecordCodec.CodecError)
    | StagingFailure

  datatype Preparation = Preparation(
    manifests: seq<(string, string)>,
    revisions: seq<(string, string, string)>,
    objects: seq<(string, nat, File)>,
    heads: map<string, Record>)

  /** Reads one record; `stage` copies an asset into content-addressed storage. */
  function ReadRecord(zone: string, stage: (string, nat, File) -> Option<File>,
      r: Record): Result<Entry, InboundError> {
    match RecordCodec.Decode(zone, r)
    case Err(e) => Err(CodecFailure(e))
    case Ok(DecodedManifest(commitID, manifest64)) => Ok(ManifestEntry(commitID, manifest64))
    case Ok(DecodedRevision(entityID, revisionID, envelope64)) => Ok(RevisionEntry(entityID, revisionID, envelope64))
    case Ok(DecodedHead(entityID, _)) => Ok(HeadEntry(entityID, r))
    case Ok(DecodedObject(digest, size, file)) =>
      match stage(digest, size, file)
      case Some(staged) => Ok(ObjectEntry(digest, size, staged))
      case None => Err(StagingFailure)
  }

  datatype EntryKey = ManifestKey(id: string) | RevisionKey(id: string) | ObjectKey(id: string) | HeadKey(id: string)

  function KeyOf(e: Entry): EntryKey {
    match e
    case ManifestEntry(commitID, _) => ManifestKey(commitID)
    case RevisionEntry(_, revisionID, _) => RevisionKey(revisionID)
    case ObjectEntry(digest, _, _) => ObjectKey(digest)
    case HeadEntry(entityID, _) => HeadKey(entityID)
  }

  /** Record names are checked against their fields, so an entry's key names its record. */
  ghost predicate ReadLaw(read: Record -> Result<Entry, InboundError>) {
    forall r, q :: read(r).Ok? && read(q).Ok? && KeyOf(read(r).value) == KeyOf(read(q).value) ==> r.id == q.id
  }

  lemma ReadRecordLaw(zone: string, stage: (string, nat, File) -> Option<File>)
    ensures ReadLaw(r => ReadRecord(zone, stage, r))
  {
    var read := r => ReadRecord(zone, stage, r);
    forall r, q | read(r).Ok? && read(q).Ok? && KeyOf(read(r).value) == KeyOf(read(q).value) ensures r.id == q.id {
      RecordCodec.DecodeChecksIdentity(zone, r);
      RecordCodec.DecodeChecksIdentity(zone, q);
    }
  }

  /** Reads the records one after the other and refuses an id met before. */
  function ReadAll(read: Record -> Result<Entry, InboundError>,
      records: seq<Record>): (r: Result<seq<Entry>, InboundError>)
    ensures r.Ok? ==> |r.value| == |records| && Distinct(Map(IdOf, records))
    ensures r.Ok? ==> forall i :: 0 <= i < |records| ==> read(records[i]) == Ok(r.value[i])
  {
    if records == [] then Ok([])
    else
      var n := |records| - 1;
      var rest :- ReadAll(read, records[..n]);
      if records[n].id in Map(IdOf, records[..n]) then Err(DuplicateRecord)
      else
        var last :- read(records[n]);
        assert records == records[..n] + [records[n]];
        MapAppend(IdOf, records[..n], records[n]);
        Ok(rest + [last])
  }

  function AsManifest(e: Entry): Option<(string, string)>
      { if e.ManifestEntry? then Some((e.commitID, e.manifest64)) else None }
  function AsRevision(e: Entry): Option<(string, string, string)>
      { if e.RevisionEntry? then Some((e.entityID, e.revisionID, e.envelope64)) else None }
  function AsObject(e: Entry): Option<(string, nat, File)>
      { if e.ObjectEntry? then Some((e.digest, e.ciphertextSize, e.file)) else None }
  function AsHead(e: Entry): Option<(string, Record)> { if e.HeadEntry? then Some((e.headEntityID, e.head)) else None }

  predicate ManifestLess(a: (string, string), b: (string, string)) { LexLess(a.0, b.0) }
  predicate RevisionLess(a: (string, string, string), b: (string, string, string)) { LexLess(a.1, b.1) }
  predicate ObjectLess(a: (string, nat, File), b: (string, nat, File)) { LexLess(a.0, b.0) }

  /** A dictionary filled pair by pair; a later pair replaces an earlier one. */
  function HeadMap(pairs: seq<(string, Record)>): map<string, Record> {
    if pairs == [] then map[] else HeadMap(pairs[..|pairs| - 1])[pairs[|pairs| - 1].0 := pairs[|pairs| - 1].1]
  }

  function Assemble(entries: seq<Entry>): Preparation {
    Preparation(
      Sort(ManifestLess, Select(AsManifest, entries)),
      Sort(RevisionLess, Select(AsRevision, entries)),
      Sort(ObjectLess, Select(AsObject, entries)),
      HeadMap(Select(AsHead, entries)))
  }

  function Prepare(read: Record -> Result<Entry, InboundError>, records: seq<Record>,
      deleted: seq<RecordId>): Result<Preparation, InboundError> {
    if deleted != [] then Err(RecordsDeleted)
    else
      var entries :- ReadAll(read, records);
      Ok(Assemble(entries))
  }

  // ----- keys make the sorts unique -----

  lemma KeyedOrders()
    ensures StrictWeak(ManifestLess) && StrictWeak(RevisionLess) && StrictWeak(ObjectLess)
  {
    LexIsStrictWeak();
  }

  lemma ManifestsCompare(entries: seq<Entry>)
    requires DistinctBy(KeyOf, entries)
    ensures Comparable(ManifestLess, Select(AsManifest, entries))
  {
    forall x, y | x in Select(AsManifest, entries) && y in Select(AsManifest, entries) && x != y
      ensures ManifestLess(x, y) || ManifestLess(y, x) {
      SelectedFrom(AsManifest, entries, x);
      SelectedFrom(AsManifest, entries, y);
      LexTotal(x.0, y.0);
      if x.0 == y.0 {
        SameKey(KeyOf, entries, ManifestEntry(x.0, x.1), ManifestEntry(y.0, y.1));
      }
    }
  }

  lemma RevisionsCompare(entries: seq<Entry>)
    requires DistinctBy(KeyOf, entries)
    ensures Comparable(RevisionLess, Select(AsRevision, entries))
  {
    forall x, y | x in Select(AsRevision, entries) && y in Select(AsRevision, entries) && x != y
      ensures RevisionLess(x, y) || RevisionLess(y, x) {
      SelectedFrom(AsRevision, entries, x);
      SelectedFrom(AsRevision, entries, y);
      LexTotal(x.1, y.1);
      if x.1 == y.1 {
        SameKey(KeyOf, entries, RevisionEntry(x.0, x.1, x.2), RevisionEntry(y.0, y.1, y.2));
      }
    }
  }

  lemma ObjectsCompare(entries: seq<Entry>)
    requires DistinctBy(KeyOf, entries)
    ensures Comparable(ObjectLess, Select(AsObject, entries))
  {
    forall x, y | x in Select(AsObject, entries) && y in Select(AsObject, entries) && x != y
      ensures ObjectLess(x, y) || ObjectLess(y, x) {
      SelectedFrom(AsObject, entries, x);
      SelectedFrom(AsObject, entries, y);
      LexTotal(x.0, y.0);
      if x.0 == y.0 {
        SameKey(KeyOf, entries, ObjectEntry(x.0, x.1, x.2), ObjectEntry(y.0, y.1, y.2));
      }
    }
  }

  ghost predicate OnePerEntity(pairs: seq<(string, Record)>) {
    forall p, q :: p in pairs && q in pairs && p.0 == q.0 ==> p == q
  }

  lemma HeadsAreKeyed(entries: seq<Entry>)
    requires DistinctBy(KeyOf, entries)
    ensures OnePerEntity(Select(AsHead, entries))
  {
    forall p, q | p in Select(AsHead, entries) && q in Select(AsHead, entries) && p.0 == q.0 ensures p == q {
      SelectedFrom(AsHead, entries, p);
      SelectedFrom(AsHead, entries, q);
      SameKey(KeyOf, entries, HeadEntry(p.0, p.1), HeadEntry(q.0, q.1));
    }
  }

  /** With one pair per entity the dictionary is just the set of its pairs. */
  lemma {:induction false} HeadMapMeans(pairs: seq<(string, Record)>)
    requires OnePerEntity(pairs)
    ensures forall e, r :: (e in HeadMap(pairs) && HeadMap(pairs)[e] == r) <==> (e, r) in pairs
    decreases |pairs|
  {
    if pairs != [] {
      var n := |pairs| - 1;
      assert forall p :: p in pairs <==> p in pairs[..n] || p == pairs[n];
      HeadMapMeans(pairs[..n]);
    }
  }

  lemma HeadMapsAgree(pairs: seq<(string, Record)>, other: seq<(string, Record)>)
    requires OnePerEntity(pairs) && multiset(pairs) == multiset(other)
    ensures HeadMap(pairs) == HeadMap(other)
  {
    MembersByMultiset(pairs, other);
    HeadMapMeans(pairs);
    HeadMapMeans(other);
    var m, k := HeadMap(pairs), HeadMap(other);
    forall e ensures e in m <==> e in k {
      if e in m {
        assert (e, m[e]) in other;
      }
      if e in k {
        assert (e, k[e]) in pairs;
      }
    }
    forall e | e in m ensures m[e] == k[e] {
      assert (e, m[e]) in other;
    }
  }

  lemma AssembleForgetsOrder(entries: seq<Entry>, other: seq<Entry>)
    requires DistinctBy(KeyOf, entries) && multiset(entries) == multiset(other)
    ensures Assemble(entries) == Assemble(other)
  {
    KeyedOrders();
    ManifestsCompare(entries);
    SortsAgree(ManifestLess, AsManifest, entries, other);
    RevisionsCompare(entries);
    SortsAgree(RevisionLess, AsRevision, entries, other);
    ObjectsCompare(entries);
    SortsAgree(ObjectLess, AsObject, entries, other);
    HeadsAreKeyed(entries);
    SelectPermutation(AsHead, entries, other);
    HeadMapsAgree(Select(AsHead, entries), Select(AsHead, other));
  }

  // ----- reading in any order -----

  function EntryOr(read: Record -> Result<Entry, InboundError>, r: Record): Entry {
    match read(r)
    case Ok(e) => e
    case Err(_) => HeadEntry("", r)
  }

  lemma {:induction false} ReadAllSucceeds(read: Record -> Result<Entry, InboundError>, records: seq<Record>)
    requires Distinct(Map(IdOf, records)) && forall r :: r in records ==> read(r).Ok?
    ensures ReadAll(read, records) == Ok(Map(r => EntryOr(read, r), records))
    decreases |records|
  {
    if records != [] {
      var n := |records| - 1;
      var init, last := records[..n], records[n];
      assert records == init + [last] && last in records;
      MapAppend(IdOf, init, last);
      MapAppend(r => EntryOr(read, r), init, last);
      assert last.id !in Map(IdOf, init) by {
        assert Map(IdOf, records)[n] == last.id;
      }
      ReadAllSucceeds(read, init);
    }
  }

  lemma ReadKeys(read: Record -> Result<Entry, InboundError>, records: seq<Record>)
    requires ReadLaw(read) && ReadAll(read, records).Ok?
    ensures DistinctBy(KeyOf, ReadAll(read, records).value)
  {
    var entries := ReadAll(read, records).value;
    forall i, j | 0 <= i < j < |entries| ensures Map(KeyOf, entries)[i] != Map(KeyOf, entries)[j] {
      assert Map(IdOf, records)[i] != Map(IdOf, records)[j];
      assert read(records[i]) == Ok(entries[i]) && read(records[j]) == Ok(entries[j]);
    }
  }

  /** The same records in another order are prepared alike. */
  lemma PrepareForgetsOrder(read: Record -> Result<Entry, InboundError>, records: seq<Record>, order: seq<Record>)
    requires ReadLaw(read) && multiset(records) == multiset(order) && Prepare(read, records, []).Ok?
    ensures Prepare(read, order, []) == Prepare(read, records, [])
  {
    var f := r => EntryOr(read, r);
    MapPermutation(IdOf, records, order);
    DistinctPermutation(Map(IdOf, records), Map(IdOf, order));
    MembersByMultiset(records, order);
    forall r | r in records ensures read(r).Ok? {
      var i :| 0 <= i < |records| && records[i] == r;
      assert read(records[i]).Ok?;
    }
    ReadAllSucceeds(read, records);
    ReadAllSucceeds(read, order);
    ReadKeys(read, records);
    MapPermutation(f, records, order);
    AssembleForgetsOrder(Map(f, records), Map(f, order));
  }

  // ----- every record exactly once -----

  /** The entry has its place in the preparation. */
  ghost predicate Listed(p: Preparation, e: Entry) {
    match e
    case ManifestEntry(commitID, manifest64) => (commitID, manifest64) in p.manifests
    case RevisionEntry(entityID, revisionID, envelope64) => (entityID, revisionID, envelope64) in p.revisions
    case ObjectEntry(digest, size, file) => (digest, size, file) in p.objects
    case HeadEntry(entityID, head) => entityID in p.heads && p.heads[entityID] == head
  }

  lemma {:induction false} SelectedLengths(entries: seq<Entry>)
    ensures |Select(AsManifest, entries)| + |Select(AsRevision, entries)| + |Select(AsObject, entries)|
      + |Select(AsHead, entries)| == |entries|
    decreases |entries|
  {
    if entries != [] {
      SelectedLengths(entries[..|entries| - 1]);
    }
  }

  lemma KeysPrefix(entries: seq<Entry>)
    requires entries != [] && DistinctBy(KeyOf, entries)
    ensures DistinctBy(KeyOf, entries[..|entries| - 1])
      && forall e :: e in entries[..|entries| - 1] ==> KeyOf(e) != KeyOf(entries[|entries| - 1])
  {
    var n := |entries| - 1;
    var keys := Map(KeyOf, entries);
    assert forall i :: 0 <= i < n ==> Map(KeyOf, entries[..n])[i] == keys[i];
    forall e | e in entries[..n] ensures KeyOf(e) != KeyOf(entries[n]) {
      var i :| 0 <= i < n && entries[i] == e;
      assert keys[i] != keys[n];
    }
  }

  lemma HeadMapAppend(pairs: seq<(string, Record)>, p: (string, Record))
    ensures HeadMap(pairs + [p]) == HeadMap(pairs)[p.0 := p.1]
  {
    assert (pairs + [p])[..|pairs|] == pairs;
  }

  lemma {:induction false} NotAHead(pairs: seq<(string, Record)>, e: string)
    requires forall q :: q in pairs ==> q.0 != e
    ensures e !in HeadMap(pairs)
    decreases |pairs|
  {
    if pairs != [] {
      assert pairs[|pairs| - 1] in pairs;
      NotAHead(pairs[..|pairs| - 1], e);
    }
  }

  lemma NewHeadCounts(pairs: seq<(string, Record)>, p: (string, Record))
    requires OnePerEntity(pairs) && (forall q :: q in pairs ==> q.0 != p.0) && |HeadMap(pairs)| == |pairs|
    ensures |HeadMap(pairs + [p])| == |pairs + [p]|
  {
    HeadMapAppend(pairs, p);
    NotAHead(pairs, p.0);
  }

  lemma NewEntity(entries: seq<Entry>, last: Entry)
    requires last.HeadEntry? && forall e :: e in entries ==> KeyOf(e) != KeyOf(last)
    ensures forall q :: q in Select(AsHead, entries) ==> q.0 != last.headEntityID
  {
    forall q | q in Select(AsHead, entries) ensures q.0 != last.headEntityID {
      SelectedFrom(AsHead, entries, q);
    }
  }

  lemma {:induction false} HeadCount(entries: seq<Entry>)
    requires DistinctBy(KeyOf, entries)
    ensures |HeadMap(Select(AsHead, entries))| == |Select(AsHead, entries)|
    decreases |entries|
  {
    if entries != [] {
      var n := |entries| - 1;
      var init, last := entries[..n], entries[n];
      KeysPrefix(entries);
      HeadCount(init);
      var pairs := Select(AsHead, init);
      assert Select(AsHead, entries) == pairs + Chosen(AsHead, last);
      if last.HeadEntry? {
        HeadsAreKeyed(init);
        NewEntity(init, last);
        NewHeadCounts(pairs, (last.headEntityID, last.head));
      } else {
        assert pairs + [] == pairs;
      }
    }
  }

  lemma EntryListed(entries: seq<Entry>, e: Entry)
    requires DistinctBy(KeyOf, entries) && e in entries
    ensures Listed(Assemble(entries), e)
  {
    MembersByMultiset(Select(AsManifest, entries), Sort(ManifestLess, Select(AsManifest, entries)));
    MembersByMultiset(Select(AsRevision, entries), Sort(RevisionLess, Select(AsRevision, entries)));
    MembersByMultiset(Select(AsObject, entries), Sort(ObjectLess, Select(AsObject, entries)));
    match e
    case ManifestEntry(_, _) => SelectHas(AsManifest, entries, e);
    case RevisionEntry(_, _, _) => SelectHas(AsRevision, entries, e);
    case ObjectEntry(_, _, _) => SelectHas(AsObject, entries, e);
    case HeadEntry(_, _) =>
      SelectHas(AsHead, entries, e);
      HeadsAreKeyed(entries);
      HeadMapMeans(Select(AsHead, entries));
  }

  /** Every record has its place, and there are no more places than records. */
  lemma PreparedExactlyOnce(read: Record -> Result<Entry, InboundError>, records: seq<Record>)
    requires ReadLaw(read) && Prepare(read, records, []).Ok?
    ensures var p := Prepare(read, records, []).value;
      && |p.manifests| + |p.revisions| + |p.objects| + |p.heads| == |records|
      && forall r :: r in records ==> read(r).Ok? && Listed(p, read(r).value)
  {
    var entries := ReadAll(read, records).value;
    ReadKeys(read, records);
    SelectedLengths(entries);
    HeadCount(entries);
    forall r | r in records ensures read(r).Ok? && Listed(Assemble(entries), read(r).value) {
      var i :| 0 <= i < |records| && records[i] == r;
      assert entries[i] in entries;
      EntryListed(entries, entries[i]);
    }
  }

  // ----- what goes where -----

  /** Exactly the records of head type are read as heads, and a head entry keeps its record. */
  ghost predicate HeadLaw(read: Record -> Result<Entry, InboundError>) {
    forall r :: read(r).Ok? ==>
      (read(r).value.HeadEntry? <==> r.kind == HeadType) && (read(r).value.HeadEntry? ==> read(r).value.head == r)
  }

  lemma ReadRecordHeads(zone: string, stage: (string, nat, File) -> Option<File>)
    ensures HeadLaw(r => ReadRecord(zone, stage, r))
  {
  }

  /** A batch is prepared exactly when nothing was deleted and every record can be read. */
  lemma PreparesIff(read: Record -> Result<Entry, InboundError>, records: seq<Record>, deleted: seq<RecordId>)
    requires Resolver.DistinctIds(records)
    ensures Prepare(read, records, deleted).Ok? <==> deleted == [] && forall r :: r in records ==> read(r).Ok?
  {
    IdsDistinct(records);
    if forall r :: r in records ==> read(r).Ok? {
      ReadAllSucceeds(read, records);
    }
  }

  predicate HasDomainRecords(p: Preparation) {
    p.manifests != [] || p.revisions != [] || p.objects != []
  }

  lemma HeadPair(read: Record -> Result<Entry, InboundError>, records: seq<Record>, e: string, r: Record)
    requires ReadLaw(read) && HeadLaw(read) && Prepare(read, records, []).Ok?
    ensures var heads := Prepare(read, records, []).value.heads;
      e in heads && heads[e] == r <==> r in records && read(r) == Ok(HeadEntry(e, r))
  {
    var entries := ReadAll(read, records).value;
    ReadKeys(read, records);
    HeadsAreKeyed(entries);
    HeadMapMeans(Select(AsHead, entries));
    if (e, r) in Select(AsHead, entries) {
      SelectedFrom(AsHead, entries, (e, r));
      var i :| 0 <= i < |entries| && entries[i] == HeadEntry(e, r);
      assert read(records[i]) == Ok(entries[i]) && records[i] in records;
    }
    if r in records && read(r) == Ok(HeadEntry(e, r)) {
      var i :| 0 <= i < |records| && records[i] == r;
      assert read(records[i]) == Ok(entries[i]) && entries[i] in entries;
      SelectHas(AsHead, entries, HeadEntry(e, r));
    }
  }

  /** The head map holds exactly the records of head type, each once. */
  lemma PreparedHeads(read: Record -> Result<Entry, InboundError>, records: seq<Record>)
    requires ReadLaw(read) && HeadLaw(read) && Prepare(read, records, []).Ok?
    ensures var heads := Prepare(read, records, []).value.heads;
      && (forall e :: e in heads ==> heads[e] in records && heads[e].kind == HeadType)
      && (forall r :: r in records && r.kind == HeadType ==> r in heads.Values)
      && (forall e, e' :: e in heads && e' in heads && heads[e] == heads[e'] ==> e == e')
  {
    var heads := Prepare(read, records, []).value.heads;
    forall e | e in heads ensures heads[e] in records && read(heads[e]) == Ok(HeadEntry(e, heads[e])) {
      HeadPair(read, records, e, heads[e]);
    }
    PreparedExactlyOnce(read, records);
    forall r | r in records && r.kind == HeadType ensures r in heads.Values {
      HeadPair(read, records, read(r).value.headEntityID, r);
    }
  }

  lemma SomeSelected<T>(entries: seq<Entry>, f: Entry -> Option<T>) returns (e: Entry)
    requires Select(f, entries) != []
    ensures e in entries && f(e).Some?
  {
    SelectedFrom(f, entries, Select(f, entries)[0]);
    e :| e in entries && f(e) == Some(Select(f, entries)[0]);
  }

  lemma NonHeadIsDomain(p: Preparation, e: Entry)
    requires Listed(p, e) && !e.HeadEntry?
    ensures HasDomainRecords(p)
  {
  }

  /** The daemon has something to apply exactly when some record is no head. */
  lemma DomainIff(read: Record -> Result<Entry, InboundError>, records: seq<Record>)
    requires ReadLaw(read) && HeadLaw(read) && Prepare(read, records, []).Ok?
    ensures HasDomainRecords(Prepare(read, records, []).value) <==> exists r :: r in records && r.kind != HeadType
  {
    if r :| r in records && r.kind != HeadType {
      PreparedExactlyOnce(read, records);
      NonHeadIsDomain(Prepare(read, records, []).value, read(r).value);
    }
    if HasDomainRecords(Prepare(read, records, []).value) {
      DomainHasRecord(read, records);
    }
  }

  lemma AssembledEmpty(entries: seq<Entry>)
    ensures HasDomainRecords(Assemble(entries)) <==>
      Select(AsManifest, entries) != [] || Select(AsRevision, entries) != [] || Select(AsObject, entries) != []
  {
  }

  lemma DomainHasEntry(entries: seq<Entry>) returns (e: Entry)
    requires Select(AsManifest, entries) != [] || Select(AsRevision, entries) != [] || Select(AsObject, entries) != []
    ensures e in entries && !e.HeadEntry?
  {
    if Select(AsManifest, entries) != [] {
      e := SomeSelected(entries, AsManifest);
    } else if Select(AsRevision, entries) != [] {
      e := SomeSelected(entries, AsRevision);
    } else {
      e := SomeSelected(entries, AsObject);
    }
  }

  lemma DomainHasRecord(read: Record -> Result<Entry, InboundError>, records: seq<Record>)
    requires HeadLaw(read) && ReadAll(read, records).Ok? && HasDomainRecords(Assemble(ReadAll(read, records).value))
    ensures exists r :: r in records && r.kind != HeadType
  {
    var entries := ReadAll(read, records).value;
    AssembledEmpty(entries);
    var e := DomainHasEntry(entries);
    var i :| 0 <= i < |entries| && entries[i] == e;
    assert read(records[i]) == Ok(entries[i]) && records[i] in records;
  }

  // ----- paging -----

  function Flatten(pages: seq<seq<Record>>): seq<Record> {
    if pages == [] then [] else pages[0] + Flatten(pages[1..])
  }

  /** The session stages the pages of a fetch one after the other. */
  function StagePages(m: map<RecordId, Record>, pages: seq<seq<Record>>): (map<RecordId, Record>, bool)
    decreases |pages|
  {
    if pages == [] then (m, true)
    else
      var (m', ok) := SessionState.StageRecords(m, {}, pages[0]);
      if ok then StagePages(m', pages[1..]) else (m', false)
  }

  lemma {:induction false} StageConcat(m: map<RecordId, Record>, a: seq<Record>, b: seq<Record>)
    ensures SessionState.StageRecords(m, {}, a + b)
         == var (m', ok) := SessionState.StageRecords(m, {}, a); if ok then SessionState.StageRecords(m', {}, b)
           else (m', false)
    decreases |a|
  {
    if a == [] {
      assert a + b == b;
    } else {
      assert (a + b)[0] == a[0] && (a + b)[1..] == a[1..] + b;
      if a[0].id !in m {
        StageConcat(m[a[0].id := a[0]], a[1..], b);
      }
    }
  }

  lemma {:induction false} PagesAreOne(m: map<RecordId, Record>, pages: seq<seq<Record>>)
    ensures StagePages(m, pages) == SessionState.StageRecords(m, {}, Flatten(pages))
    decreases |pages|
  {
    if pages != [] {
      StageConcat(m, pages[0], Flatten(pages[1..]));
      var (m', ok) := SessionState.StageRecords(m, {}, pages[0]);
      PagesAreOne(m', pages[1..]);
    }
  }

  /** Some listing of the values of a dictionary. */
  ghost predicate Lists(values: seq<Record>, m: map<RecordId, Record>) {
    && Resolver.DistinctIds(values)
    && (forall r :: r in values ==> r.id in m && m[r.id] == r)
    && (forall id :: id in m ==> m[id] in values)
  }

  lemma ListingPermutes(records: seq<Record>, values: seq<Record>, m: map<RecordId, Record>)
    requires SessionState.StageRecords(map[], {}, records) == (m, true) && Lists(values, m)
    ensures multiset(values) == multiset(records)
  {
    SessionState.StagedRecords(map[], {}, records);
    forall r ensures r in values <==> r in records {
      if r in records {
        assert r.id in m && m[r.id] == r;
      }
      if r in values {
        assert m[r.id] in records;
      }
    }
    assert Distinct(values) && Distinct(records);
    SameElementsDistinct(values, records);
  }

  /**
   Inbound batches do not depend on paging: for any two splits of the same records into pages, and
   any dictionary orders, the batch for the daemon and the head map are identical.
   */
  lemma PagingDoesNotMatter(zone: string, stage: (string, nat, File) -> Option<File>,
                            pages: seq<seq<Record>>, other: seq<seq<Record>>, values: seq<Record>, values': seq<Record>)
    requires multiset(Flatten(pages)) == multiset(Flatten(other)) && StagePages(map[], pages).1
    requires Lists(values, StagePages(map[], pages).0) && Lists(values', StagePages(map[], other).0)
    ensures StagePages(map[], other).1
    ensures var read := r => ReadRecord(zone, stage, r);
      && Prepare(read, values, []).Ok? == Prepare(read, values', []).Ok?
      && (Prepare(read, values, []).Ok? ==> Prepare(read, values, []) == Prepare(read, values', []))
  {
    var read := r => ReadRecord(zone, stage, r);
    PagesAreOne(map[], pages);
    PagesAreOne(map[], other);
    StagesAlike(Flatten(pages), Flatten(other));
    ListingPermutes(Flatten(pages), values, StagePages(map[], pages).0);
    ListingPermutes(Flatten(other), values', StagePages(map[], other).0);
    ReadRecordLaw(zone, stage);
    if Prepare(read, values, []).Ok? {
      PrepareForgetsOrder(read, values, values');
    } else if Prepare(read, values', []).Ok? {
      PrepareForgetsOrder(read, values', values);
    }
  }

  /** Whether records can be staged does not depend on their order. */
  lemma StagesAlike(records: seq<Record>, other: seq<Record>)
    requires multiset(records) == multiset(other) && SessionState.StageRecords(map[], {}, records).1
    ensures SessionState.StageRecords(map[], {}, other).1
  {
    SessionState.StagedRecords(map[], {}, records);
    SessionState.StagedRecords(map[], {}, other);
    IdsDistinct(records);
    IdsDistinct(other);
    MapPermutation(IdOf, records, other);
    DistinctPermutation(Map(IdOf, records), Map(IdOf, other));
  }

  lemma IdsDistinct(records: seq<Record>)
    ensures Resolver.DistinctIds(records) <==> Distinct(Map(IdOf, records))
  {
    if Distinct(Map(IdOf, records)) {
      forall i, j | 0 <= i < j < |records| ensures records[i].id != records[j].id {
        assert Map(IdOf, records)[i] != Map(IdOf, records)[j];
      }
    }
  }

  // ----- the loop -----

  datatype Filled = Filled(manifests: seq<(string, string)>, revisions: seq<(string, string, string)>,
    objects: seq<(string, nat, File)>, heads: map<string, Record>)

  ghost predicate Fills(g: Filled, entries: seq<Entry>) {
    && g.manifests == Select(AsManifest, entries) && g.revisions == Select(AsRevision, entries)
    && g.objects == Select(AsObject, entries) && g.heads == HeadMap(Select(AsHead, entries))
  }

  function Fill(g: Filled, e: Entry): Filled {
    match e
    case ManifestEntry(commitID, manifest64) => g.(manifests := g.manifests + [(commitID, manifest64)])
    case RevisionEntry(entityID, revisionID,
      envelope64) => g.(revisions := g.revisions + [(entityID, revisionID, envelope64)])
    case ObjectEntry(digest, size, file) => g.(objects := g.objects + [(digest, size, file)])
    case HeadEntry(entityID, head) => g.(heads := g.heads[entityID := head])
  }

  lemma FillNext(g: Filled, entries: seq<Entry>, e: Entry)
    requires Fills(g, entries)
    ensures Fills(Fill(g, e), entries + [e])
  {
    SelectAppend(AsManifest, entries, e);
    SelectAppend(AsRevision, entries, e);
    SelectAppend(AsObject, entries, e);
    SelectAppend(AsHead, entries, e);
    if e.HeadEntry? {
      HeadMapAppend(Select(AsHead, entries), (e.headEntityID, e.head));
    } else {
      assert Select(AsHead, entries) + [] == Select(AsHead, entries);
    }
  }

  lemma {:induction false} ReadAllFails(read: Record -> Result<Entry, InboundError>, records: seq<Record>, k: nat)
    requires k <= |records| && ReadAll(read, records[..k]).Err?
    ensures ReadAll(read, records) == Err(ReadAll(read, records[..k]).error)
    decreases |records| - k
  {
    if k == |records| {
      assert records[..k] == records;
    } else {
      assert records[..k + 1][..k] == records[..k];
      ReadAllFails(read, records, k + 1);
    }
  }

  lemma SeenNext(records: seq<Record>, i: nat)
    requires i < |records|
    ensures Elements(Map(IdOf, records[..i + 1])) == Elements(Map(IdOf, records[..i])) + {records[i].id}
  {
    assert records[..i + 1] == records[..i] + [records[i]];
    MapAppend(IdOf, records[..i], records[i]);
  }

  lemma ReadStep(read: Record -> Result<Entry, InboundError>, init: seq<Record>, last: Record, entries: seq<Entry>)
    requires ReadAll(read, init) == Ok(entries)
    ensures ReadAll(read, init + [last])
         == if last.id in Map(IdOf, init) then Err(DuplicateRecord)
            else if read(last).Err? then Err(read(last).error) else Ok(entries + [read(last).value])
  {
    assert (init + [last])[..|init|] == init;
  }

  lemma ReadNext(read: Record -> Result<Entry, InboundError>, records: seq<Record>, i: nat, entries: seq<Entry>)
    requires i < |records| && ReadAll(read, records[..i]) == Ok(entries)
    ensures ReadAll(read, records[..i + 1])
         == if records[i].id in Map(IdOf, records[..i]) then Err(DuplicateRecord)
            else if read(records[i]).Err? then Err(read(records[i]).error) else Ok(entries + [read(records[i]).value])
  {
    assert records[..i + 1] == records[..i] + [records[i]];
    ReadStep(read, records[..i], records[i], entries);
  }

  /** `prepare`: one pass fills the seen ids, three arrays and the head dictionary; the arrays are then sorted. */
  method PrepareInbound(read: Record -> Result<Entry, InboundError>, records: seq<Record>, deleted: seq<RecordId>)
      returns (r: Result<Preparation, InboundError>)
    ensures r == Prepare(read, records, deleted)
  {
    if deleted != [] {
      return Err(RecordsDeleted);
    }
    var seen: set<RecordId> := {};
    var g := Filled([], [], [], map[]);
    ghost var entries: seq<Entry> := [];
    for i := 0 to |records|
      invariant ReadAll(read, records[..i]) == Ok(entries) && Fills(g, entries)
      invariant seen == Elements(Map(IdOf, records[..i]))
    {
      ReadNext(read, records, i, entries);
      SeenNext(records, i);
      if records[i].id in seen {
        ReadAllFails(read, records, i + 1);
        return Err(DuplicateRecord);
      }
      seen := seen + {records[i].id};
      var entry := read(records[i]);
      if entry.Err? {
        ReadAllFails(read, records, i + 1);
        return Err(entry.error);
      }
      FillNext(g, entries, entry.value);
      g := Fill(g, entry.value);
      entries := entries + [entry.value];
    }
    assert records[..|records|] == records;
    return Ok(Preparation(Sort(ManifestLess, g.manifests), Sort(RevisionLess, g.revisions), Sort(ObjectLess, g.objects),
      g.heads));
  }
}
