/**
 A lifecycle snapshot as a whole (CloudVaultBootstrapCodec.swift:53-167): flattening it into
 records, rebuilding it from records in any order, and the theorem that each undoes the other.
 */
module BootstrapSnapshot {
  import opened Prelude
  import opened Order
  import opened Text
  import opened Records
  import opened BootstrapCodec
  import opened Selection

  /** Building and decoding of single records, used only through `WireLaw`. */
  datatype Wire = Wire(build: Doc -> Result<Record, BootstrapError>, decode: Record -> Result<Doc, BootstrapError>)

  function CodecWire(vaultID: string): Wire {
    Wire(d => RecordFor(vaultID, d), r => Decode(vaultID, r))
  }

  ghost predicate WireLaw(w: Wire) {
    && (forall d :: w.build(d).Ok? ==> w.decode(w.build(d).value) == Ok(Canonical(d)) && w.build(d).value.tag.None?)
    && (forall r :: w.decode(r).Ok? ==> DocLaw(w, w.decode(r).value, r))
    && (forall r, q :: w.decode(r).Ok? && w.decode(q).Ok? ==>
          && r.id.zone == q.id.zone
          && (r.id.name == q.id.name <==> KeyOf(w.decode(r).value) == KeyOf(w.decode(q).value)))
  }

  ghost predicate DocLaw(w: Wire, d: Doc, r: Record) {
    && Canonical(d) == d && w.build(d).Ok? && w.build(d).value.id == r.id && w.build(d).value.kind == r.kind
    && (d.GenerationDoc? ==> CanonicalDecimal(d.generation.route).Some?) && Owns(r)
  }

  lemma CodecWireLaw(vaultID: string)
    requires ValidVault(vaultID)
    ensures WireLaw(CodecWire(vaultID))
  {
    var w := CodecWire(vaultID);
    forall d | w.build(d).Ok? ensures w.decode(w.build(d).value) == Ok(Canonical(d)) && w.build(d).value.tag.None? {
      RecordRoundTrip(vaultID, d);
    }
    forall r | w.decode(r).Ok? ensures DocLaw(w, w.decode(r).value, r) {
      RecordDecoded(vaultID, r);
    }
    forall r, q | w.decode(r).Ok? && w.decode(q).Ok?
      ensures r.id.zone == q.id.zone
      ensures r.id.name == q.id.name <==> KeyOf(w.decode(r).value) == KeyOf(w.decode(q).value)
    {
      RecordDecoded(vaultID, r);
      RecordDecoded(vaultID, q);
      if r.id.name == q.id.name {
        NameInjective(KeyOf(w.decode(r).value), KeyOf(w.decode(q).value));
      }
    }
  }

  /** Byte-for-byte sameness of two lifecycle records: same identity and same decoded document. */
  function Equivalent(w: Wire, left: Record, right: Record): Result<bool, BootstrapError> {
    if left.id != right.id || left.kind != right.kind then Ok(false)
    else
      var l :- w.decode(left);
      var r :- w.decode(right);
      Ok(l == r)
  }

  // ----- flattening -----

  function RecordName(r: Record): string {
    r.id.name
  }

  predicate NameLess(a: Record, b: Record) {
    LexLess(a.id.name, b.id.name)
  }

  function Device(x: Document): Doc { DeviceDoc(x) }
  function Enrollment(x: Document): Doc { EnrollmentDoc(x) }
  function Generation(x: Document): Doc { GenerationDoc(x) }
  function Sealed(x: KeyEnvelope): Doc { EnvelopeDoc(x) }

  /** The entries of a snapshot in the order the source walks them. */
  function Listing(s: Snapshot): seq<Doc> {
    [RootDoc(s.vault64)] + Map(Device, s.devices) + Map(Enrollment, s.enrollments) + Map(Generation, s.generations)
      + Map(Sealed, s.envelopes)
  }

  /** Builds the entries one after the other and refuses a record name met before. */
  function BuildAll(build: Doc -> Result<Record, BootstrapError>,
      docs: seq<Doc>): (r: Result<seq<Record>, BootstrapError>)
    ensures r.Ok? ==> |r.value| == |docs| && Distinct(Map(RecordName, r.value))
    ensures r.Ok? ==> forall i :: 0 <= i < |docs| ==> build(docs[i]) == Ok(r.value[i])
  {
    if docs == [] then Ok([])
    else
      var n := |docs| - 1;
      var rest :- BuildAll(build, docs[..n]);
      var last :- build(docs[n]);
      if last.id.name in Map(RecordName, rest) then Err(DuplicateRecord)
      else
        MapAppend(RecordName, rest, last);
        Ok(rest + [last])
  }

  function RecordsFor(w: Wire, vaultID: string, s: Snapshot): Result<seq<Record>, BootstrapError> {
    if Lower(s.vaultID) != vaultID then Err(VaultMismatch)
    else
      var records :- BuildAll(w.build, Listing(s));
      Ok(Sort(NameLess, records))
  }

  // ----- rebuilding -----

  function AsRoot(d: Doc): Option<string> { if d.RootDoc? then Some(d.root64) else None }
  function AsDevice(d: Doc): Option<Document> { if d.DeviceDoc? then Some(d.device) else None }
  function AsEnrollment(d: Doc): Option<Document> { if d.EnrollmentDoc? then Some(d.enrollment) else None }
  function AsGeneration(d: Doc): Option<Document> { if d.GenerationDoc? then Some(d.generation) else None }
  function AsSealed(d: Doc): Option<KeyEnvelope> { if d.EnvelopeDoc? then Some(d.envelope) else None }

  predicate RouteLess(a: Document, b: Document) {
    LexLess(a.route, b.route)
  }

  function RouteNumber(x: Document): nat {
    match CanonicalDecimal(x.route)
    case Some(g) => g
    case None => 0
  }

  predicate GenerationLess(a: Document, b: Document) {
    RouteNumber(a) < RouteNumber(b)
  }

  predicate EnvelopeLess(a: KeyEnvelope, b: KeyEnvelope) {
    if a.deviceID == b.deviceID then a.generation < b.generation else LexLess(a.deviceID, b.deviceID)
  }

  lemma NextDecoded(records: seq<Record>, rest: seq<Doc>, last: Doc)
    requires records != [] && Distinct(Map(RecordName, records[..|records| - 1]))
    requires records[|records| - 1].id.name !in Map(RecordName, records[..|records| - 1])
    requires |Select(AsRoot, rest)| <= 1 && (last.RootDoc? ==> Select(AsRoot, rest) == [])
    ensures Distinct(Map(RecordName, records)) && |Select(AsRoot, rest + [last])| <= 1
  {
    var n := |records| - 1;
    assert records == records[..n] + [records[n]];
    MapAppend(RecordName, records[..n], records[n]);
    SelectAppend(AsRoot, rest, last);
  }

  /** Decodes the records one after the other and refuses a name met before and a second root. */
  function DecodeAll(decode: Record -> Result<Doc, BootstrapError>, records: seq<Record>):
    Result<seq<Doc>, BootstrapError> {
    if records == [] then Ok([])
    else
      var n := |records| - 1;
      var rest :- DecodeAll(decode, records[..n]);
      ReadNext(decode, records[..n], records[n], rest)
  }

  /** The documents read so far with the one of the next record. */
  function ReadNext(decode: Record -> Result<Doc, BootstrapError>, init: seq<Record>, last: Record, docs: seq<Doc>):
    Result<seq<Doc>, BootstrapError> {
    if last.id.name in Map(RecordName, init) then Err(DuplicateRecord)
    else
      var doc :- decode(last);
      if doc.RootDoc? && Select(AsRoot, docs) != [] then Err(DuplicateVaultRoot) else Ok(docs + [doc])
  }

  /** A successful pass met every name once and at most one root. */
  lemma {:induction false} DecodedAll(decode: Record -> Result<Doc, BootstrapError>, records: seq<Record>)
    requires DecodeAll(decode, records).Ok?
    ensures var docs := DecodeAll(decode, records).value;
      && Distinct(Map(RecordName, records)) && |Select(AsRoot, docs)| <= 1 && |docs| == |records|
      && forall i :: 0 <= i < |records| ==> decode(records[i]) == Ok(docs[i])
  {
    if records != [] {
      var n := |records| - 1;
      DecodedAll(decode, records[..n]);
      var docs := DecodeAll(decode, records).value;
      NextDecoded(records, DecodeAll(decode, records[..n]).value, docs[n]);
    }
  }

  /** Every list in its order. */
  function SortLists(t: Snapshot): Snapshot {
    Snapshot(t.vaultID, t.vault64, Sort(RouteLess, t.devices), Sort(RouteLess, t.enrollments),
      Sort(GenerationLess, t.generations), Sort(EnvelopeLess, t.envelopes))
  }

  /** The documents of each kind, in the order they come. */
  function Selections(vaultID: string, docs: seq<Doc>): Snapshot
    requires Select(AsRoot, docs) != []
  {
    Snapshot(vaultID, Select(AsRoot, docs)[0], Select(AsDevice, docs), Select(AsEnrollment, docs),
      Select(AsGeneration, docs), Select(AsSealed, docs))
  }

  function Assemble(vaultID: string, docs: seq<Doc>): Result<Snapshot, BootstrapError> {
    if Select(AsRoot, docs) == [] then Err(MissingVaultRoot) else Ok(SortLists(Selections(vaultID, docs)))
  }

  function SnapshotFrom(w: Wire, vaultID: string, records: seq<Record>): Result<Snapshot, BootstrapError> {
    var docs :- DecodeAll(w.decode, records);
    Assemble(vaultID, docs)
  }

  /** Every entry canonical, still in the given order. */
  function CanonicalEntries(s: Snapshot): Snapshot {
    Snapshot(Lower(s.vaultID), CanonicalText(s.vault64), Map(CanonicalDocument, s.devices),
      Map(CanonicalDocument, s.enrollments), Map(CanonicalDocument, s.generations), Map(CanonicalEnvelope, s.envelopes))
  }

  /** Lower-cased routes, canonical base 64, every list in its order. */
  function CanonicalSnapshot(s: Snapshot): Snapshot {
    SortLists(CanonicalEntries(s))
  }

  ghost function Parts<T>(f: Doc -> Option<T>, s: Snapshot): seq<T> {
    Chosen(f, RootDoc(s.vault64)) + Select(f, Map(Device, s.devices)) + Select(f, Map(Enrollment, s.enrollments))
    + Select(f, Map(Generation, s.generations)) + Select(f, Map(Sealed, s.envelopes))
  }

  lemma SplitListing<T>(f: Doc -> Option<T>, s: Snapshot)
    ensures Select(f, Listing(s)) == Parts(f, s)
  {
    SelectOne(f, RootDoc(s.vault64));
    SelectFive(f, [RootDoc(s.vault64)], Map(Device, s.devices), Map(Enrollment, s.enrollments),
      Map(Generation, s.generations), Map(Sealed, s.envelopes));
  }

  lemma SelectOne<T>(f: Doc -> Option<T>, d: Doc)
    ensures Select(f, [d]) == Chosen(f, d)
  {
    assert [d][..0] == [];
  }

  lemma SelectFive<T>(f: Doc -> Option<T>, r: seq<Doc>, a: seq<Doc>, b: seq<Doc>, c: seq<Doc>, d: seq<Doc>)
    ensures Select(f, r + a + b + c + d) == Select(f, r) + Select(f, a) + Select(f, b) + Select(f, c) + Select(f, d)
  {
    SelectConcat(f, r, a);
    SelectConcat(f, r + a, b);
    SelectConcat(f, r + a + b, c);
    SelectConcat(f, r + a + b + c, d);
  }

  /** The selections of a listing are the lists themselves. */
  lemma SelectRoots(s: Snapshot)
    ensures Select(AsRoot, Listing(s)) == [s.vault64]
  {
    SplitListing(AsRoot, s);
    SelectMapped(AsRoot, Device, s.devices);
    SelectMapped(AsRoot, Enrollment, s.enrollments);
    SelectMapped(AsRoot, Generation, s.generations);
    SelectMapped(AsRoot, Sealed, s.envelopes);
    Alone([s.vault64], [], [], [], []);
  }

  lemma SelectDevices(s: Snapshot)
    ensures Select(AsDevice, Listing(s)) == s.devices
  {
    SplitListing(AsDevice, s);
    SelectInverse(AsDevice, Device, s.devices);
    SelectMapped(AsDevice, Enrollment, s.enrollments);
    SelectMapped(AsDevice, Generation, s.generations);
    SelectMapped(AsDevice, Sealed, s.envelopes);
    Alone([], s.devices, [], [], []);
  }

  /** A concatenation with one part that is not empty is that part. */
  lemma Alone<T>(r: seq<T>, a: seq<T>, b: seq<T>, c: seq<T>, d: seq<T>)
    ensures |a| + |b| + |c| + |d| == 0 ==> r + a + b + c + d == r
    ensures |r| + |b| + |c| + |d| == 0 ==> r + a + b + c + d == a
    ensures |r| + |a| + |c| + |d| == 0 ==> r + a + b + c + d == b
    ensures |r| + |a| + |b| + |d| == 0 ==> r + a + b + c + d == c
    ensures |r| + |a| + |b| + |c| == 0 ==> r + a + b + c + d == d
  {
  }

  lemma SelectEnrollments(s: Snapshot)
    ensures Select(AsEnrollment, Listing(s)) == s.enrollments
  {
    SplitListing(AsEnrollment, s);
    SelectInverse(AsEnrollment, Enrollment, s.enrollments);
    SelectMapped(AsEnrollment, Device, s.devices);
    SelectMapped(AsEnrollment, Generation, s.generations);
    SelectMapped(AsEnrollment, Sealed, s.envelopes);
    Alone([], [], s.enrollments, [], []);
  }

  lemma SelectGenerations(s: Snapshot)
    ensures Select(AsGeneration, Listing(s)) == s.generations
  {
    SplitListing(AsGeneration, s);
    SelectInverse(AsGeneration, Generation, s.generations);
    SelectMapped(AsGeneration, Device, s.devices);
    SelectMapped(AsGeneration, Enrollment, s.enrollments);
    SelectMapped(AsGeneration, Sealed, s.envelopes);
    Alone([], [], [], s.generations, []);
  }

  lemma SelectEnvelopes(s: Snapshot)
    ensures Select(AsSealed, Listing(s)) == s.envelopes
  {
    SplitListing(AsSealed, s);
    SelectInverse(AsSealed, Sealed, s.envelopes);
    SelectMapped(AsSealed, Device, s.devices);
    SelectMapped(AsSealed, Enrollment, s.enrollments);
    SelectMapped(AsSealed, Generation, s.generations);
    Alone([], [], [], [], s.envelopes);
  }

  ghost function Rebuilt<T>(f: Doc -> Option<T>, g: T -> Doc, docs: seq<Doc>): multiset<Doc> {
    multiset(Map(g, Select(f, docs)))
  }

  lemma RebuiltAppend<T>(f: Doc -> Option<T>, g: T -> Doc, docs: seq<Doc>, d: Doc)
    requires f(d).Some? ==> g(f(d).value) == d
    ensures Grows(f, g, docs, d)
  {
    SelectAppend(f, docs, d);
    if f(d).Some? {
      MapAppend(g, Select(f, docs), f(d).value);
    } else {
      assert Select(f, docs) + [] == Select(f, docs);
    }
  }

  function Root(x: string): Doc { RootDoc(x) }

  ghost function Five(a: multiset<Doc>, b: multiset<Doc>, c: multiset<Doc>, d: multiset<Doc>,
      e: multiset<Doc>): multiset<Doc> {
    a + b + c + d + e
  }

  ghost function AllRebuilt(docs: seq<Doc>): multiset<Doc> {
    Five(Rebuilt(AsRoot, Root, docs), Rebuilt(AsDevice, Device, docs), Rebuilt(AsEnrollment, Enrollment, docs),
         Rebuilt(AsGeneration, Generation, docs), Rebuilt(AsSealed, Sealed, docs))
  }

  lemma SumFive(a: multiset<Doc>, b: multiset<Doc>, c: multiset<Doc>, e: multiset<Doc>, g: multiset<Doc>,
                da: multiset<Doc>, db: multiset<Doc>, dc: multiset<Doc>, de: multiset<Doc>, dg: multiset<Doc>)
    ensures Five(a + da, b + db, c + dc, e + de, g + dg) == Five(a, b, c, e, g) + Five(da, db, dc, de, dg)
  {
    SumTwo(a, da, b, db);
    SumTwo(a + b, da + db, c, dc);
    SumTwo(a + b + c, da + db + dc, e, de);
    SumTwo(a + b + c + e, da + db + dc + de, g, dg);
  }

  lemma SumTwo(a: multiset<Doc>, da: multiset<Doc>, b: multiset<Doc>, db: multiset<Doc>)
    ensures a + da + (b + db) == a + b + (da + db)
  {
  }

  /** Sums grow by the sum of what each part grows by. */
  lemma SumGrown(a: multiset<Doc>, b: multiset<Doc>, c: multiset<Doc>, e: multiset<Doc>, g: multiset<Doc>,
      a': multiset<Doc>, b': multiset<Doc>, c': multiset<Doc>, e': multiset<Doc>, g': multiset<Doc>, d: Doc)
    requires a' == a + Share(AsRoot, d) && b' == b + Share(AsDevice, d) && c' == c + Share(AsEnrollment, d)
    requires e' == e + Share(AsGeneration, d) && g' == g + Share(AsSealed, d)
    ensures Five(a', b', c', e', g') == Five(a, b, c, e, g) + Shares(d)
  {
    SumFive(a, b, c, e, g,
      Share(AsRoot, d), Share(AsDevice, d), Share(AsEnrollment, d), Share(AsGeneration, d), Share(AsSealed, d));
  }

  ghost function Share<T>(f: Doc -> Option<T>, d: Doc): multiset<Doc> {
    if f(d).Some? then multiset{d} else multiset{}
  }

  ghost function Shares(d: Doc): multiset<Doc> {
    Five(Share(AsRoot, d), Share(AsDevice, d), Share(AsEnrollment, d), Share(AsGeneration, d), Share(AsSealed, d))
  }

  lemma OneShare(d: Doc)
    ensures Shares(d) == multiset{d}
  {
  }

  /** The documents of one kind grow by the document's share. */
  ghost predicate Grows<T>(f: Doc -> Option<T>, g: T -> Doc, docs: seq<Doc>, d: Doc) {
    Rebuilt(f, g, docs + [d]) == Rebuilt(f, g, docs) + Share(f, d)
  }

  lemma RootGrows(docs: seq<Doc>, d: Doc)
    ensures Grows(AsRoot, Root, docs, d)
  {
    RebuiltAppend(AsRoot, Root, docs, d);
  }

  lemma DeviceGrows(docs: seq<Doc>, d: Doc)
    ensures Grows(AsDevice, Device, docs, d)
  {
    RebuiltAppend(AsDevice, Device, docs, d);
  }

  lemma EnrollmentGrows(docs: seq<Doc>, d: Doc)
    ensures Grows(AsEnrollment, Enrollment, docs, d)
  {
    RebuiltAppend(AsEnrollment, Enrollment, docs, d);
  }

  lemma GenerationGrows(docs: seq<Doc>, d: Doc)
    ensures Grows(AsGeneration, Generation, docs, d)
  {
    RebuiltAppend(AsGeneration, Generation, docs, d);
  }

  lemma SealedGrows(docs: seq<Doc>, d: Doc)
    ensures Grows(AsSealed, Sealed, docs, d)
  {
    RebuiltAppend(AsSealed, Sealed, docs, d);
  }

  lemma RebuiltSum(docs: seq<Doc>, d: Doc)
    ensures AllRebuilt(docs + [d]) == AllRebuilt(docs) + Shares(d)
  {
    RootGrows(docs, d);
    DeviceGrows(docs, d);
    EnrollmentGrows(docs, d);
    GenerationGrows(docs, d);
    SealedGrows(docs, d);
    var more := docs + [d];
    SumGrown(Rebuilt(AsRoot, Root, docs), Rebuilt(AsDevice, Device, docs), Rebuilt(AsEnrollment, Enrollment, docs),
      Rebuilt(AsGeneration, Generation, docs), Rebuilt(AsSealed, Sealed, docs),
      Rebuilt(AsRoot, Root, more), Rebuilt(AsDevice, Device, more), Rebuilt(AsEnrollment, Enrollment, more),
      Rebuilt(AsGeneration, Generation, more), Rebuilt(AsSealed, Sealed, more), d);
  }

  lemma PartitionStep(docs: seq<Doc>, d: Doc)
    ensures AllRebuilt(docs + [d]) == AllRebuilt(docs) + multiset{d}
  {
    RebuiltSum(docs, d);
    OneShare(d);
  }

  /** The selections partition the documents. */
  lemma {:induction false} Partition(docs: seq<Doc>)
    ensures multiset(docs) == AllRebuilt(docs)
    decreases |docs|
  {
    if docs != [] {
      var n := |docs| - 1;
      var d := docs[n];
      Partition(docs[..n]);
      assert docs == docs[..n] + [d];
      PartitionStep(docs[..n], d);
    }
  }

  // ----- orders -----

  lemma OrdersAreStrictWeak()
    ensures StrictWeak(RouteLess) && StrictWeak(GenerationLess) && StrictWeak(NameLess)
  {
    LexIsStrictWeak();
  }

  lemma EnvelopeOrder()
    ensures StrictWeak(EnvelopeLess)
  {
    LexIsStrictWeak();
    forall x, y, z | EnvelopeLess(x, y) && EnvelopeLess(y, z) ensures EnvelopeLess(x, z) {
      LexTotal(x.deviceID, y.deviceID);
    }
    forall x, y, z | EnvelopeLess(x, z) ensures EnvelopeLess(x, y) || EnvelopeLess(y, z) {
      LexTotal(x.deviceID, y.deviceID);
      LexTotal(y.deviceID, z.deviceID);
    }
  }

  ghost predicate NumberedRoutes(docs: seq<Doc>) {
    forall d :: d in docs && d.GenerationDoc? ==> CanonicalDecimal(d.generation.route).Some?
  }

  lemma DevicesCompare(docs: seq<Doc>)
    requires DistinctBy(KeyOf, docs)
    ensures Comparable(RouteLess, Select(AsDevice, docs))
  {
    forall x, y | x in Select(AsDevice, docs) && y in Select(AsDevice, docs) && x != y
      ensures RouteLess(x, y) || RouteLess(y, x) {
      SelectedFrom(AsDevice, docs, x);
      SelectedFrom(AsDevice, docs, y);
      LexTotal(x.route, y.route);
      if x.route == y.route {
        SameKey(KeyOf, docs, DeviceDoc(x), DeviceDoc(y));
      }
    }
  }

  lemma EnrollmentsCompare(docs: seq<Doc>)
    requires DistinctBy(KeyOf, docs)
    ensures Comparable(RouteLess, Select(AsEnrollment, docs))
  {
    forall x, y | x in Select(AsEnrollment, docs) && y in Select(AsEnrollment, docs) && x != y
      ensures RouteLess(x, y) || RouteLess(y, x) {
      SelectedFrom(AsEnrollment, docs, x);
      SelectedFrom(AsEnrollment, docs, y);
      LexTotal(x.route, y.route);
      if x.route == y.route {
        SameKey(KeyOf, docs, EnrollmentDoc(x), EnrollmentDoc(y));
      }
    }
  }

  lemma SameNumberSameRoute(x: Document, y: Document)
    requires CanonicalDecimal(x.route).Some? && CanonicalDecimal(y.route).Some? && RouteNumber(x) == RouteNumber(y)
    ensures x.route == y.route
  {
    assert x.route == Decimal(RouteNumber(x)) == y.route;
  }

  lemma GenerationPair(docs: seq<Doc>, x: Document, y: Document)
    requires DistinctBy(KeyOf, docs) && NumberedRoutes(docs) && x != y
    requires GenerationDoc(x) in docs && GenerationDoc(y) in docs
    ensures GenerationLess(x, y) || GenerationLess(y, x)
  {
    if RouteNumber(x) == RouteNumber(y) {
      SameNumberSameRoute(x, y);
      SameKey(KeyOf, docs, GenerationDoc(x), GenerationDoc(y));
    }
  }

  lemma GenerationsCompare(docs: seq<Doc>)
    requires DistinctBy(KeyOf, docs) && NumberedRoutes(docs)
    ensures Comparable(GenerationLess, Select(AsGeneration, docs))
  {
    forall x, y | x in Select(AsGeneration, docs) && y in Select(AsGeneration, docs) && x != y
      ensures GenerationLess(x, y) || GenerationLess(y, x) {
      SelectedFrom(AsGeneration, docs, x);
      SelectedFrom(AsGeneration, docs, y);
      GenerationPair(docs, x, y);
    }
  }

  lemma EnvelopesCompare(docs: seq<Doc>)
    requires DistinctBy(KeyOf, docs)
    ensures Comparable(EnvelopeLess, Select(AsSealed, docs))
  {
    forall x, y | x in Select(AsSealed, docs) && y in Select(AsSealed, docs) && x != y
      ensures EnvelopeLess(x, y) || EnvelopeLess(y, x) {
      SelectedFrom(AsSealed, docs, x);
      SelectedFrom(AsSealed, docs, y);
      LexTotal(x.deviceID, y.deviceID);
      if x.deviceID == y.deviceID && x.generation == y.generation {
        SameKey(KeyOf, docs, EnvelopeDoc(x), EnvelopeDoc(y));
      }
    }
  }

  lemma SingletonPermutation<T>(s: seq<T>, t: seq<T>)
    requires multiset(s) == multiset(t) && |s| <= 1
    ensures s == t
  {
    MembersByMultiset(s, t);
    if s != [] {
      assert s[0] in t;
    }
  }

  /** Assembling forgets the order of the documents. */
  lemma AssembleForgetsOrder(vaultID: string, docs: seq<Doc>, other: seq<Doc>)
    requires DistinctBy(KeyOf, docs) && NumberedRoutes(docs) && |Select(AsRoot, docs)| <= 1
      && multiset(docs) == multiset(other)
    ensures Assemble(vaultID, docs) == Assemble(vaultID, other)
  {
    OrdersAreStrictWeak();
    EnvelopeOrder();
    SelectPermutation(AsRoot, docs, other);
    SingletonPermutation(Select(AsRoot, docs), Select(AsRoot, other));
    DevicesCompare(docs);
    SortsAgree(RouteLess, AsDevice, docs, other);
    EnrollmentsCompare(docs);
    SortsAgree(RouteLess, AsEnrollment, docs, other);
    GenerationsCompare(docs);
    SortsAgree(GenerationLess, AsGeneration, docs, other);
    EnvelopesCompare(docs);
    SortsAgree(EnvelopeLess, AsSealed, docs, other);
  }

  // ----- decoding a whole set -----

  function DocOr(w: Wire, r: Record): Doc {
    match w.decode(r)
    case Ok(d) => d
    case Err(_) => RootDoc("")
  }

  ghost predicate AllDecode(w: Wire, records: seq<Record>) {
    forall r :: r in records ==> w.decode(r).Ok?
  }

  lemma DecodeStep(decode: Record -> Result<Doc, BootstrapError>, init: seq<Record>, last: Record, docs: seq<Doc>)
    requires DecodeAll(decode, init) == Ok(docs)
    ensures DecodeAll(decode, init + [last]) == ReadNext(decode, init, last, docs)
  {
    assert (init + [last])[..|init|] == init;
  }

  lemma LastIsNew(init: seq<Record>, last: Record)
    requires Distinct(Map(RecordName, init + [last]))
    ensures Distinct(Map(RecordName, init)) && last.id.name !in Map(RecordName, init)
  {
    MapAppend(RecordName, init, last);
    var names := Map(RecordName, init + [last]);
    assert forall i :: 0 <= i < |init| ==> Map(RecordName, init)[i] == names[i] && names[i] != names[|init|];
  }

  lemma {:induction false} DecodeAllSucceeds(w: Wire, records: seq<Record>)
    requires WireLaw(w) && AllDecode(w, records) && Distinct(Map(RecordName, records))
    ensures DecodeAll(w.decode, records) == Ok(Map(r => DocOr(w, r), records))
    decreases |records|
  {
    var f := r => DocOr(w, r);
    if records == [] {
      assert Map(f, records) == [];
    } else {
      var n := |records| - 1;
      var init, last := records[..n], records[n];
      assert records == init + [last];
      LastIsNew(init, last);
      DecodeAllSucceeds(w, init);
      DecodeLast(w, init, last, Map(f, init));
      MapAppend(f, init, last);
    }
  }

  lemma DecodeLast(w: Wire, init: seq<Record>, last: Record, docs: seq<Doc>)
    requires WireLaw(w) && AllDecode(w, init + [last]) && last.id.name !in Map(RecordName, init)
    requires DecodeAll(w.decode, init) == Ok(docs) && docs == Map(r => DocOr(w, r), init)
    ensures DecodeAll(w.decode, init + [last]) == Ok(docs + [DocOr(w, last)])
  {
    DecodeStep(w.decode, init, last, docs);
    assert last in init + [last];
    if DocOr(w, last).RootDoc? && Select(AsRoot, docs) != [] {
      SecondRoot(w, init, last);
    }
  }

  lemma SecondRoot(w: Wire, init: seq<Record>, last: Record)
    requires WireLaw(w) && AllDecode(w, init + [last])
    requires DocOr(w, last).RootDoc? && Select(AsRoot, Map(r => DocOr(w, r), init)) != []
    ensures last.id.name in Map(RecordName, init)
  {
    var docs := Map(r => DocOr(w, r), init);
    SelectedFrom(AsRoot, docs, Select(AsRoot, docs)[0]);
    var d :| d in docs && AsRoot(d).Some?;
    var i :| 0 <= i < |docs| && docs[i] == d;
    assert init[i] in init + [last] && last in init + [last];
    assert Map(RecordName, init)[i] == last.id.name;
  }

  /** Decodable records with different names carry documents with different keys. */
  lemma NamesToKeys(w: Wire, records: seq<Record>)
    requires WireLaw(w) && AllDecode(w, records) && Distinct(Map(RecordName, records))
    ensures DistinctBy(KeyOf, Map(r => DocOr(w, r), records)) && NumberedRoutes(Map(r => DocOr(w, r), records))
  {
    var docs := Map(r => DocOr(w, r), records);
    forall i, j | 0 <= i < j < |docs| ensures Map(KeyOf, docs)[i] != Map(KeyOf, docs)[j] {
      assert records[i] in records && records[j] in records;
      assert Map(RecordName, records)[i] != Map(RecordName, records)[j];
    }
    forall d | d in docs && d.GenerationDoc? ensures CanonicalDecimal(d.generation.route).Some? {
      var i :| 0 <= i < |docs| && docs[i] == d;
      assert records[i] in records;
      assert DocLaw(w, d, records[i]);
    }
  }

  lemma AllDecodePermutation(w: Wire, records: seq<Record>, other: seq<Record>)
    requires AllDecode(w, records) && multiset(records) == multiset(other)
    ensures AllDecode(w, other)
  {
    MembersByMultiset(records, other);
  }

  /** Rebuilding forgets the order of the records. */
  lemma SnapshotForgetsOrder(w: Wire, vaultID: string, records: seq<Record>, order: seq<Record>)
    requires WireLaw(w) && AllDecode(w, records) && Distinct(Map(RecordName, records))
      && multiset(order) == multiset(records)
    ensures SnapshotFrom(w, vaultID, order) == Assemble(vaultID, Map(r => DocOr(w, r), records))
  {
    var f := r => DocOr(w, r);
    AllDecodePermutation(w, records, order);
    MapPermutation(RecordName, records, order);
    DistinctPermutation(Map(RecordName, records), Map(RecordName, order));
    DecodeAllSucceeds(w, order);
    DecodeAllSucceeds(w, records);
    DecodedAll(w.decode, records);
    NamesToKeys(w, records);
    MapPermutation(f, records, order);
    AssembleForgetsOrder(vaultID, Map(f, records), Map(f, order));
  }

  // ----- snapshot, records, snapshot -----

  lemma MapConcat<A, B>(f: A -> B, s: seq<A>, t: seq<A>)
    ensures Map(f, s + t) == Map(f, s) + Map(f, t)
  {
  }

  lemma MapFive<A, B>(f: A -> B, r: seq<A>, a: seq<A>, b: seq<A>, c: seq<A>, d: seq<A>)
    ensures Map(f, r + a + b + c + d) == Map(f, r) + Map(f, a) + Map(f, b) + Map(f, c) + Map(f, d)
  {
    MapConcat(f, r + a + b + c, d);
    MapConcat(f, r + a + b, c);
    MapConcat(f, r + a, b);
    MapConcat(f, r, a);
  }

  lemma CanonicalListing(s: Snapshot)
    ensures Map(Canonical, Listing(s)) == Listing(CanonicalEntries(s))
  {
    MapFive(Canonical, [RootDoc(s.vault64)], Map(Device, s.devices), Map(Enrollment, s.enrollments),
      Map(Generation, s.generations), Map(Sealed, s.envelopes));
    var t := CanonicalEntries(s);
    assert Map(Canonical, [RootDoc(s.vault64)]) == [RootDoc(t.vault64)];
    assert Map(Canonical, Map(Device, s.devices)) == Map(Device, t.devices);
    assert Map(Canonical, Map(Enrollment, s.enrollments)) == Map(Enrollment, t.enrollments);
    assert Map(Canonical, Map(Generation, s.generations)) == Map(Generation, t.generations);
    assert Map(Canonical, Map(Sealed, s.envelopes)) == Map(Sealed, t.envelopes);
  }

  lemma AssembleListing(vaultID: string, t: Snapshot)
    ensures Assemble(vaultID, Listing(t)) == Ok(SortLists(t.(vaultID := vaultID)))
  {
    SelectRoots(t);
    SelectDevices(t);
    SelectEnrollments(t);
    SelectGenerations(t);
    SelectEnvelopes(t);
  }

  lemma BuiltDecode(w: Wire, docs: seq<Doc>)
    requires WireLaw(w) && BuildAll(w.build, docs).Ok?
    ensures AllDecode(w, BuildAll(w.build, docs).value)
    ensures Map(r => DocOr(w, r), BuildAll(w.build, docs).value) == Map(Canonical, docs)
  {
    var records := BuildAll(w.build, docs).value;
    forall i | 0 <= i < |docs| ensures w.decode(records[i]) == Ok(Canonical(docs[i])) {
      assert w.build(docs[i]) == Ok(records[i]);
    }
  }

  lemma WireRoundTrip(w: Wire, vaultID: string, s: Snapshot, order: seq<Record>)
    requires WireLaw(w) && RecordsFor(w, vaultID, s).Ok? && multiset(order) == multiset(RecordsFor(w, vaultID, s).value)
    ensures SnapshotFrom(w, vaultID, order) == Ok(CanonicalSnapshot(s))
  {
    var records := BuildAll(w.build, Listing(s)).value;
    BuiltDecode(w, Listing(s));
    SnapshotForgetsOrder(w, vaultID, records, order);
    CanonicalListing(s);
    AssembleListing(vaultID, CanonicalEntries(s));
  }

  /** Decoding the records of a snapshot, in any order, gives its canonical form. */
  lemma SnapshotRoundTrip(vaultID: string, s: Snapshot, order: seq<Record>)
    requires ValidVault(vaultID) && RecordsFor(CodecWire(vaultID), vaultID, s).Ok?
    requires multiset(order) == multiset(RecordsFor(CodecWire(vaultID), vaultID, s).value)
    ensures SnapshotFrom(CodecWire(vaultID), vaultID, order) == Ok(CanonicalSnapshot(s))
  {
    CodecWireLaw(vaultID);
    WireRoundTrip(CodecWire(vaultID), vaultID, s, order);
  }

  // ----- records, snapshot, records -----

  function BuiltOr(w: Wire, d: Doc, r: Record): Record {
    match w.build(d)
    case Ok(built) => built
    case Err(_) => r
  }

  /** The record a decodable record is written back as. */
  function Rewritten(w: Wire, r: Record): Record {
    BuiltOr(w, DocOr(w, r), r)
  }

  lemma {:induction false} BuildAllSucceeds(w: Wire, docs: seq<Doc>, other: Record)
    requires forall d :: d in docs ==> w.build(d).Ok?
    requires Distinct(Map(RecordName, Map(d => BuiltOr(w, d, other), docs)))
    ensures BuildAll(w.build, docs) == Ok(Map(d => BuiltOr(w, d, other), docs))
    decreases |docs|
  {
    if docs != [] {
      var n := |docs| - 1;
      var f := d => BuiltOr(w, d, other);
      assert docs == docs[..n] + [docs[n]] && docs[n] in docs;
      MapAppend(f, docs[..n], docs[n]);
      MapAppend(RecordName, Map(f, docs[..n]), f(docs[n]));
      BuildAllSucceeds(w, docs[..n], other);
      assert RecordName(f(docs[n])) !in Map(RecordName, Map(f, docs[..n])) by {
        assert Map(RecordName, Map(f, docs))[n] == RecordName(f(docs[n]));
      }
    }
  }

  lemma ListingPermutation(s: Snapshot, t: Snapshot)
    requires s.vault64 == t.vault64 && multiset(s.devices) == multiset(t.devices)
      && multiset(s.enrollments) == multiset(t.enrollments)
    requires multiset(s.generations) == multiset(t.generations) && multiset(s.envelopes) == multiset(t.envelopes)
    ensures multiset(Listing(s)) == multiset(Listing(t))
  {
    MapPermutation(Device, s.devices, t.devices);
    MapPermutation(Enrollment, s.enrollments, t.enrollments);
    MapPermutation(Generation, s.generations, t.generations);
    MapPermutation(Sealed, s.envelopes, t.envelopes);
  }

  /** The entries of an assembled snapshot are the documents it was assembled from. */
  lemma AssembledListing(vaultID: string, docs: seq<Doc>)
    requires |Select(AsRoot, docs)| == 1
    ensures Assemble(vaultID, docs).Ok? && multiset(Listing(Assemble(vaultID, docs).value)) == multiset(docs)
  {
    SelectionsListing(vaultID, docs);
  }

  lemma SelectionsListing(vaultID: string, docs: seq<Doc>)
    requires |Select(AsRoot, docs)| == 1
    ensures multiset(Listing(SortLists(Selections(vaultID, docs)))) == multiset(docs)
  {
    var t := Selections(vaultID, docs);
    assert multiset(Listing(t)) == multiset(docs) by {
      ListingOfSelections(t, docs);
      Partition(docs);
    }
    SortingPermutes(t);
  }

  lemma SortingPermutes(t: Snapshot)
    ensures multiset(Listing(SortLists(t))) == multiset(Listing(t))
  {
    ListingPermutation(SortLists(t), t);
  }

  lemma ListingOfSelections(t: Snapshot, docs: seq<Doc>)
    requires Select(AsRoot, docs) == [t.vault64] && t.devices == Select(AsDevice, docs)
      && t.enrollments == Select(AsEnrollment, docs)
    requires t.generations == Select(AsGeneration, docs) && t.envelopes == Select(AsSealed, docs)
    ensures multiset(Listing(t)) == AllRebuilt(docs)
  {
    assert Map(Root, [t.vault64]) == [RootDoc(t.vault64)];
  }

  lemma RewrittenNames(w: Wire, records: seq<Record>, other: Record)
    requires WireLaw(w) && AllDecode(w, records)
    ensures var docs := Map(r => DocOr(w, r), records);
      && (forall d :: d in docs ==> w.build(d).Ok?)
      && Map(d => BuiltOr(w, d, other), docs) == Map(r => Rewritten(w, r), records)
      && Map(RecordName, Map(r => Rewritten(w, r), records)) == Map(RecordName, records)
  {
    var docs := Map(r => DocOr(w, r), records);
    forall i | 0 <= i < |records| ensures w.build(docs[i]).Ok? && w.build(docs[i]).value.id == records[i].id {
      assert records[i] in records;
      assert DocLaw(w, docs[i], records[i]);
    }
  }

  lemma SortKeepsMultiset(vaultID: string, w: Wire, s: Snapshot, docs: seq<Doc>, other: Record)
    requires Lower(s.vaultID) == vaultID
      && BuildAll(w.build, Listing(s)) == Ok(Map(d => BuiltOr(w, d, other), Listing(s)))
    requires multiset(Listing(s)) == multiset(docs)
    ensures RecordsFor(w, vaultID, s).Ok?
      && multiset(RecordsFor(w, vaultID, s).value) == multiset(Map(d => BuiltOr(w, d, other), docs))
  {
    MapPermutation(d => BuiltOr(w, d, other), Listing(s), docs);
  }

  lemma ReadDocs(w: Wire, vaultID: string, records: seq<Record>)
    requires SnapshotFrom(w, vaultID, records).Ok?
    ensures AllDecode(w, records) && Distinct(Map(RecordName, records))
    ensures var docs := Map(r => DocOr(w, r), records);
      DecodeAll(w.decode, records) == Ok(docs) && |Select(AsRoot, docs)| == 1
  {
    DecodedAll(w.decode, records);
    var docs := DecodeAll(w.decode, records).value;
    assert docs == Map(r => DocOr(w, r), records);
  }

  lemma WireRewrites(w: Wire, vaultID: string, records: seq<Record>)
    requires WireLaw(w) && Lower(vaultID) == vaultID && SnapshotFrom(w, vaultID, records).Ok?
    ensures var s := SnapshotFrom(w, vaultID, records).value;
      RecordsFor(w, vaultID, s).Ok?
        && multiset(RecordsFor(w, vaultID, s).value) == multiset(Map(r => Rewritten(w, r), records))
  {
    ReadDocs(w, vaultID, records);
    var docs := Map(r => DocOr(w, r), records);
    assert docs != [];
    var other := records[0];
    AssembledListing(vaultID, docs);
    var s := SnapshotFrom(w, vaultID, records).value;
    RewrittenNames(w, records, other);
    var f := d => BuiltOr(w, d, other);
    MapPermutation(f, docs, Listing(s));
    MapPermutation(RecordName, Map(f, docs), Map(f, Listing(s)));
    DistinctPermutation(Map(RecordName, Map(f, docs)), Map(RecordName, Map(f, Listing(s))));
    MembersByMultiset(Listing(s), docs);
    BuildAllSucceeds(w, Listing(s), other);
    SortKeepsMultiset(vaultID, w, s, docs, other);
  }

  /**
   Re-encoding a decoded record set gives back the same set: record for record under the same name
   and equivalent, and literally the same records when each was spelled canonically.
   */
  lemma RecordsRoundTrip(vaultID: string, records: seq<Record>)
    requires ValidVault(vaultID) && SnapshotFrom(CodecWire(vaultID), vaultID, records).Ok?
    ensures var w := CodecWire(vaultID);
      var again := RecordsFor(w, vaultID, SnapshotFrom(w, vaultID, records).value);
      && again.Ok? && Sorted(NameLess, again.value)
      && multiset(again.value) == multiset(Map(r => Rewritten(w, r), records))
      && (forall r :: r in records ==> Equivalent(w, r, Rewritten(w, r)) == Ok(true))
      && ((forall r :: r in records ==> WellSpelled(r)) <==> Map(r => Rewritten(w, r), records) == records)
  {
    var w := CodecWire(vaultID);
    CodecWireLaw(vaultID);
    WireRewrites(w, vaultID, records);
    RecordsSorted(w, vaultID, SnapshotFrom(w, vaultID, records).value);
    ReadDocs(w, vaultID, records);
    SpelledSame(vaultID, records);
  }

  lemma RecordsSorted(w: Wire, vaultID: string, s: Snapshot)
    requires RecordsFor(w, vaultID, s).Ok?
    ensures Sorted(NameLess, RecordsFor(w, vaultID, s).value)
  {
    OrdersAreStrictWeak();
    SortSorts(NameLess, BuildAll(w.build, Listing(s)).value);
  }

  lemma SpelledSame(vaultID: string, records: seq<Record>)
    requires ValidVault(vaultID) && AllDecode(CodecWire(vaultID), records)
    ensures forall r :: r in records ==> Equivalent(CodecWire(vaultID), r, Rewritten(CodecWire(vaultID), r)) == Ok(true)
    ensures (forall r :: r in records ==> WellSpelled(r))
      <==> Map(r => Rewritten(CodecWire(vaultID), r), records) == records
  {
    var w := CodecWire(vaultID);
    forall r | r in records
      ensures Equivalent(w, r, Rewritten(w, r)) == Ok(true)
      ensures Rewritten(w, r) == r <==> WellSpelled(r)
    {
      assert w.decode(r).Ok?;
      RewrittenRecord(vaultID, r);
    }
    MapFixed(r => Rewritten(w, r), records);
  }

  lemma MapFixed<T>(f: T -> T, s: seq<T>)
    ensures (forall x :: x in s ==> f(x) == x) <==> Map(f, s) == s
  {
    if Map(f, s) == s {
      forall x | x in s ensures f(x) == x {
        var i :| 0 <= i < |s| && s[i] == x;
        assert Map(f, s)[i] == s[i];
      }
    }
  }

  lemma RewrittenRecord(vaultID: string, r: Record)
    requires ValidVault(vaultID) && Decode(vaultID, r).Ok?
    ensures Equivalent(CodecWire(vaultID), r, Rewritten(CodecWire(vaultID), r)) == Ok(true)
    ensures Rewritten(CodecWire(vaultID), r) == r <==> WellSpelled(r)
  {
    RecordDecoded(vaultID, r);
    RecordRoundTrip(vaultID, Decode(vaultID, r).value);
  }

  // ----- the history a snapshot stands for -----

  /** The documents of a set of records. */
  ghost function Docs(w: Wire, records: seq<Record>): set<Doc> {
    set r | r in records :: DocOr(w, r)
  }

  /** The documents of a snapshot: its history, whatever its spelling and order. */
  ghost function History(w: Wire, vaultID: string, s: Snapshot): set<Doc> {
    match RecordsFor(w, vaultID, s)
    case Ok(records) => Docs(w, records)
    case Err(_) => {}
  }

  lemma DocsByMultiset(w: Wire, records: seq<Record>, other: seq<Record>)
    requires multiset(records) == multiset(other)
    ensures Docs(w, records) == Docs(w, other)
  {
    MembersByMultiset(records, other);
  }

  lemma DocsRewritten(w: Wire, records: seq<Record>)
    requires WireLaw(w) && AllDecode(w, records)
    ensures Docs(w, Map(r => Rewritten(w, r), records)) == Docs(w, records)
  {
    var again := Map(r => Rewritten(w, r), records);
    forall i | 0 <= i < |records| ensures DocOr(w, again[i]) == DocOr(w, records[i]) {
      assert records[i] in records;
      assert DocLaw(w, DocOr(w, records[i]), records[i]);
      assert w.decode(again[i]) == Ok(Canonical(DocOr(w, records[i])));
    }
    forall d | d in Docs(w, records) ensures d in Docs(w, again) {
      var r :| r in records && DocOr(w, r) == d;
      var i :| 0 <= i < |records| && records[i] == r;
      assert again[i] in again;
    }
    forall d | d in Docs(w, again) ensures d in Docs(w, records) {
      var q :| q in again && DocOr(w, q) == d;
      var i :| 0 <= i < |again| && again[i] == q;
      assert records[i] in records;
    }
  }

  /** A rebuilt snapshot has exactly the history of the records it was rebuilt from, and can be flattened again. */
  lemma RebuiltHistory(w: Wire, vaultID: string, records: seq<Record>)
    requires WireLaw(w) && Lower(vaultID) == vaultID && SnapshotFrom(w, vaultID, records).Ok?
    ensures RecordsFor(w, vaultID, SnapshotFrom(w, vaultID, records).value).Ok?
    ensures History(w, vaultID, SnapshotFrom(w, vaultID, records).value) == Docs(w, records)
  {
    var s := SnapshotFrom(w, vaultID, records).value;
    WireRewrites(w, vaultID, records);
    DocsByMultiset(w, RecordsFor(w, vaultID, s).value, Map(r => Rewritten(w, r), records));
    ReadDocs(w, vaultID, records);
    DocsRewritten(w, records);
  }

  // ----- the loops of the source -----

  lemma {:induction false} BuildAllFails(build: Doc -> Result<Record, BootstrapError>, docs: seq<Doc>, k: nat)
    requires k <= |docs| && BuildAll(build, docs[..k]).Err?
    ensures BuildAll(build, docs) == Err(BuildAll(build, docs[..k]).error)
    decreases |docs| - k
  {
    if k == |docs| {
      assert docs[..k] == docs;
    } else {
      assert docs[..k + 1][..k] == docs[..k];
      BuildAllFails(build, docs, k + 1);
    }
  }

  lemma BuildStep(build: Doc -> Result<Record, BootstrapError>, docs: seq<Doc>, i: nat, records: seq<Record>)
    requires i < |docs| && BuildAll(build, docs[..i]) == Ok(records)
    ensures build(docs[i]).Err? ==> BuildAll(build, docs) == Err(build(docs[i]).error)
    ensures build(docs[i]).Ok? && build(docs[i]).value.id.name in Map(RecordName, records)
      ==> BuildAll(build, docs) == Err(DuplicateRecord)
    ensures build(docs[i]).Ok? && build(docs[i]).value.id.name !in Map(RecordName, records) ==>
      BuildAll(build, docs[..i + 1]) == Ok(records + [build(docs[i]).value])
  {
    assert docs[..i + 1][..i] == docs[..i];
    if BuildAll(build, docs[..i + 1]).Err? {
      BuildAllFails(build, docs, i + 1);
    }
  }

  /** The loops of `records(for:)`: append record after record and keep the set of names. */
  method AppendRecords(build: Doc -> Result<Record, BootstrapError>, docs: seq<Doc>)
      returns (r: Result<seq<Record>, BootstrapError>)
    ensures r == BuildAll(build, docs)
  {
    var records: seq<Record> := [];
    var names: set<string> := {};
    for i := 0 to |docs|
      invariant BuildAll(build, docs[..i]) == Ok(records)
      invariant names == Elements(Map(RecordName, records))
    {
      BuildStep(build, docs, i, records);
      var built := build(docs[i]);
      if built.Err? {
        return Err(built.error);
      }
      if built.value.id.name in names {
        return Err(DuplicateRecord);
      }
      MapAppend(RecordName, records, built.value);
      records, names := records + [built.value], names + {built.value.id.name};
    }
    assert docs[..|docs|] == docs;
    return Ok(records);
  }

  method BuildRecords(w: Wire, vaultID: string, s: Snapshot) returns (r: Result<seq<Record>, BootstrapError>)
    ensures r == RecordsFor(w, vaultID, s)
  {
    if Lower(s.vaultID) != vaultID {
      return Err(VaultMismatch);
    }
    var records :- AppendRecords(w.build, Listing(s));
    return Ok(Sort(NameLess, records));
  }

  lemma {:induction false} DecodeAllFails(decode: Record -> Result<Doc, BootstrapError>, records: seq<Record>, k: nat)
    requires k <= |records| && DecodeAll(decode, records[..k]).Err?
    ensures DecodeAll(decode, records) == Err(DecodeAll(decode, records[..k]).error)
    decreases |records| - k
  {
    if k == |records| {
      assert records[..k] == records;
    } else {
      assert records[..k + 1][..k] == records[..k];
      DecodeAllFails(decode, records, k + 1);
    }
  }

  datatype Gathered = Gathered(root: Option<string>, devices: seq<Document>, enrollments: seq<Document>,
    generations: seq<Document>, envelopes: seq<KeyEnvelope>)

  /** The five collections the source's loop fills, as selections of the documents read so far. */
  ghost predicate Gathers(g: Gathered, docs: seq<Doc>) {
    && (match g.root case None => Select(AsRoot, docs) == [] case Some(x) => Select(AsRoot, docs) == [x])
    && g.devices == Select(AsDevice, docs) && g.enrollments == Select(AsEnrollment, docs)
    && g.generations == Select(AsGeneration, docs) && g.envelopes == Select(AsSealed, docs)
  }

  function Gather(g: Gathered, d: Doc): Gathered {
    match d
    case RootDoc(x) => g.(root := Some(x))
    case DeviceDoc(x) => g.(devices := g.devices + [x])
    case EnrollmentDoc(x) => g.(enrollments := g.enrollments + [x])
    case GenerationDoc(x) => g.(generations := g.generations + [x])
    case EnvelopeDoc(x) => g.(envelopes := g.envelopes + [x])
  }

  lemma GatherStep(g: Gathered, docs: seq<Doc>, d: Doc)
    requires Gathers(g, docs) && (d.RootDoc? ==> g.root.None?)
    ensures Gathers(Gather(g, d), docs + [d])
  {
    SelectAppend(AsRoot, docs, d);
    SelectAppend(AsDevice, docs, d);
    SelectAppend(AsEnrollment, docs, d);
    SelectAppend(AsGeneration, docs, d);
    SelectAppend(AsSealed, docs, d);
  }

  lemma ReadStep(decode: Record -> Result<Doc, BootstrapError>, records: seq<Record>, i: nat, docs: seq<Doc>)
    requires i < |records| && DecodeAll(decode, records[..i]) == Ok(docs)
    ensures DecodeAll(decode, records[..i + 1]) == ReadNext(decode, records[..i], records[i], docs)
  {
    assert records[..i + 1] == records[..i] + [records[i]];
    DecodeStep(decode, records[..i], records[i], docs);
  }

  lemma NamesGrow(records: seq<Record>, i: nat, names: set<string>)
    requires i < |records| && names == Elements(Map(RecordName, records[..i]))
    ensures names + {records[i].id.name} == Elements(Map(RecordName, records[..i + 1]))
  {
    assert records[..i + 1] == records[..i] + [records[i]];
    MapAppend(RecordName, records[..i], records[i]);
  }

  /** The loop of `bootstrap(from:)`: one pass over the records fills five collections. */
  method GatherRecords(decode: Record -> Result<Doc, BootstrapError>, records: seq<Record>)
      returns (r: Result<Gathered, BootstrapError>)
    ensures r.Err? ==> DecodeAll(decode, records) == Err(r.error)
    ensures r.Ok? ==> DecodeAll(decode, records).Ok? && Gathers(r.value, DecodeAll(decode, records).value)
  {
    var g := Gathered(None, [], [], [], []);
    var names: set<string> := {};
    ghost var docs: seq<Doc> := [];
    for i := 0 to |records|
      invariant DecodeAll(decode, records[..i]) == Ok(docs)
      invariant names == Elements(Map(RecordName, records[..i]))
      invariant Gathers(g, docs)
    {
      ReadStep(decode, records, i, docs);
      if records[i].id.name in names {
        DecodeAllFails(decode, records, i + 1);
        return Err(DuplicateRecord);
      }
      var decoded := decode(records[i]);
      if decoded.Err? {
        DecodeAllFails(decode, records, i + 1);
        return Err(decoded.error);
      }
      if decoded.value.RootDoc? && g.root.Some? {
        DecodeAllFails(decode, records, i + 1);
        return Err(DuplicateVaultRoot);
      }
      GatherStep(g, docs, decoded.value);
      NamesGrow(records, i, names);
      g, names := Gather(g, decoded.value), names + {records[i].id.name};
      docs := docs + [decoded.value];
    }
    assert records[..|records|] == records;
    return Ok(g);
  }

  /** `bootstrap(from:)`: the gathered collections are sorted; without a root there is no snapshot. */
  method ReadSnapshot(w: Wire, vaultID: string, records: seq<Record>) returns (r: Result<Snapshot, BootstrapError>)
    ensures r == SnapshotFrom(w, vaultID, records)
  {
    var g :- GatherRecords(w.decode, records);
    if g.root.None? {
      return Err(MissingVaultRoot);
    }
    return Ok(SortLists(Snapshot(vaultID, g.root.value, g.devices, g.enrollments, g.generations, g.envelopes)));
  }
}
