/**
 What flattening and rebuilding a lifecycle snapshot come to, over its documents alone: when each
 succeeds, what the result contains and in which order it stands.
 */
module SnapshotReading {
  import opened Prelude
  import opened Order
  import opened Text
  import opened Records
  import opened BootstrapCodec
  import opened BootstrapSnapshot
  import opened Selection
  import L = LifecycleReading
  import R = RecordReading

  // ----- the order of names -----

  /** `a` ends where `b` goes on, or has the smaller character at the first difference. */
  ghost predicate Precedes(a: string, b: string, k: nat) {
    k <= |a| && k < |b| && a[..k] == b[..k] && (k == |a| || a[k] < b[k])
  }

  ghost predicate Before(a: string, b: string) {
    exists k: nat :: Precedes(a, b, k)
  }

  lemma {:induction false} LessPrecedes(a: string, b: string) returns (k: nat)
    requires LexLess(a, b)
    ensures Precedes(a, b, k)
  {
    if a == [] || a[0] != b[0] {
      k := 0;
    } else {
      var n := LessPrecedes(a[1..], b[1..]);
      k := n + 1;
      assert a[..k] == [a[0]] + a[1..][..n] && b[..k] == [b[0]] + b[1..][..n];
    }
  }

  lemma {:induction false} PrecedesLess(a: string, b: string, k: nat)
    requires Precedes(a, b, k)
    ensures LexLess(a, b)
  {
    if k > 0 {
      assert a[0] == a[..k][0] == b[..k][0] == b[0];
      assert a[1..][..k - 1] == a[..k][1..] && b[1..][..k - 1] == b[..k][1..];
      PrecedesLess(a[1..], b[1..], k - 1);
    }
  }

  lemma BeforeIff(a: string, b: string)
    ensures LexLess(a, b) <==> Before(a, b)
  {
    if LexLess(a, b) {
      var k := LessPrecedes(a, b);
    }
    if k: nat :| Precedes(a, b, k) {
      PrecedesLess(a, b, k);
    }
  }

  // ----- sorting without repetition -----

  lemma {:induction false} SelectDistinct<A(!new), T(!new)>(f: A -> Option<T>, s: seq<A>)
    requires Distinct(s) && forall a, b :: f(a).Some? && f(a) == f(b) ==> a == b
    ensures Distinct(Select(f, s))
    decreases |s|
  {
    if s != [] {
      var n := |s| - 1;
      SelectDistinct(f, s[..n]);
      if f(s[n]).Some? && f(s[n]).value in Select(f, s[..n]) {
        SelectedFrom(f, s[..n], f(s[n]).value);
      }
    }
  }

  /** Sorting different, comparable elements puts each strictly before the next. */
  lemma StrictlyAscending<T(!new)>(less: (T, T) -> bool, s: seq<T>)
    requires StrictWeak(less) && Comparable(less, s) && Distinct(s)
    ensures forall i, j :: 0 <= i < j < |Sort(less, s)| ==> less(Sort(less, s)[i], Sort(less, s)[j])
    ensures forall x :: x in Sort(less, s) <==> x in s
  {
    SortSorts(less, s);
    var t := Sort(less, s);
    MembersByMultiset(s, t);
    DistinctPermutation(s, t);
    forall i, j | 0 <= i < j < |t| ensures less(t[i], t[j]) {
      assert t[i] in s && t[j] in s && t[i] != t[j];
    }
  }

  lemma DistinctDocs(docs: seq<Doc>)
    requires DistinctBy(KeyOf, docs)
    ensures Distinct(docs)
  {
    forall i, j | 0 <= i < j < |docs| ensures docs[i] != docs[j] {
      assert Map(KeyOf, docs)[i] != Map(KeyOf, docs)[j];
    }
  }

  // ----- rebuilding -----

  /** The list holds exactly the documents of its kind that some record decodes to. */
  ghost predicate Holds<T(!new)>(w: Wire, records: seq<Record>, doc: T -> Doc, list: seq<T>) {
    forall x :: x in list <==> exists r :: r in records && w.decode(r) == Ok(doc(x))
  }

  ghost predicate Contents(w: Wire, records: seq<Record>, s: Snapshot) {
    && (exists r :: r in records && w.decode(r) == Ok(RootDoc(s.vault64)))
    && Holds(w, records, x => DeviceDoc(x), s.devices) && Holds(w, records, x => EnrollmentDoc(x), s.enrollments)
    && Holds(w, records, x => GenerationDoc(x), s.generations) && Holds(w, records, x => EnvelopeDoc(x), s.envelopes)
  }

  ghost predicate RoutesAscend(list: seq<Document>) {
    forall i, j :: 0 <= i < j < |list| ==> Before(list[i].route, list[j].route)
  }

  /** The decimal texts of two numbers, the first the smaller. */
  ghost predicate Smaller(a: string, b: string) {
    exists m: nat, n: nat :: a == Decimal(m) && b == Decimal(n) && m < n
  }

  ghost predicate NumbersAscend(list: seq<Document>) {
    forall i, j :: 0 <= i < j < |list| ==> Smaller(list[i].route, list[j].route)
  }

  ghost predicate EnvelopesAscend(list: seq<KeyEnvelope>) {
    forall i, j :: 0 <= i < j < |list| ==>
      || Before(list[i].deviceID, list[j].deviceID)
      || (list[i].deviceID == list[j].deviceID && list[i].generation < list[j].generation)
  }

  /** Devices and enrollments by route, generations by number, envelopes by device and then by generation. */
  ghost predicate Ordered(s: Snapshot) {
    && RoutesAscend(s.devices) && RoutesAscend(s.enrollments) && NumbersAscend(s.generations)
    && EnvelopesAscend(s.envelopes)
  }

  ghost predicate Rebuildable(w: Wire, records: seq<Record>) {
    && AllDecode(w, records) && (exists r :: r in records && w.decode(r).value.RootDoc?)
    && forall i, j :: 0 <= i < j < |records| ==> records[i].id.name != records[j].id.name
  }

  lemma NamesDiffer(records: seq<Record>)
    ensures Distinct(Map(RecordName, records)) <==>
      forall i, j :: 0 <= i < j < |records| ==> records[i].id.name != records[j].id.name
  {
    var names := Map(RecordName, records);
    assert forall i :: 0 <= i < |records| ==> names[i] == records[i].id.name;
    if Distinct(names) {
      forall i, j | 0 <= i < j < |records| ensures records[i].id.name != records[j].id.name {
        assert names[i] != names[j];
      }
    }
  }

  lemma DecodedFrom(w: Wire, records: seq<Record>, d: Doc)
    requires AllDecode(w, records)
    ensures d in Map(r => DocOr(w, r), records) <==> exists r :: r in records && w.decode(r) == Ok(d)
  {
    var docs := Map(r => DocOr(w, r), records);
    if d in docs {
      var i :| 0 <= i < |docs| && docs[i] == d;
      assert records[i] in records && w.decode(records[i]) == Ok(d);
    }
    if r :| r in records && w.decode(r) == Ok(d) {
      var i :| 0 <= i < |records| && records[i] == r;
      assert docs[i] == d;
    }
  }

  lemma SelectedIff<T(!new)>(f: Doc -> Option<T>, doc: T -> Doc, docs: seq<Doc>, x: T)
    requires forall d :: f(d) == Some(x) <==> d == doc(x)
    ensures x in Select(f, docs) <==> doc(x) in docs
  {
    if x in Select(f, docs) {
      SelectedFrom(f, docs, x);
    }
    if doc(x) in docs {
      SelectHas(f, docs, doc(x));
    }
  }

  lemma HeldList<T(!new)>(w: Wire, records: seq<Record>, f: Doc -> Option<T>, doc: T -> Doc, list: seq<T>)
    requires AllDecode(w, records) && (forall d, x :: f(d) == Some(x) <==> d == doc(x))
    requires forall x :: x in list <==> x in Select(f, Map(r => DocOr(w, r), records))
    ensures Holds(w, records, doc, list)
  {
    forall x ensures x in list <==> exists r :: r in records && w.decode(r) == Ok(doc(x)) {
      SelectedIff(f, doc, Map(r => DocOr(w, r), records), x);
      DecodedFrom(w, records, doc(x));
    }
  }

  /** What makes the lists of the documents sortable without ties. */
  ghost predicate Listable(docs: seq<Doc>) {
    DistinctBy(KeyOf, docs) && NumberedRoutes(docs)
  }

  lemma DevicesSorted(docs: seq<Doc>)
    requires Listable(docs)
    ensures RoutesAscend(Sort(RouteLess, Select(AsDevice, docs)))
    ensures forall x :: x in Sort(RouteLess, Select(AsDevice, docs)) <==> x in Select(AsDevice, docs)
  {
    DistinctDocs(docs);
    SelectDistinct(AsDevice, docs);
    DevicesCompare(docs);
    OrdersAreStrictWeak();
    StrictlyAscending(RouteLess, Select(AsDevice, docs));
    RoutesBefore(Sort(RouteLess, Select(AsDevice, docs)));
  }

  lemma RoutesBefore(list: seq<Document>)
    requires forall i, j :: 0 <= i < j < |list| ==> RouteLess(list[i], list[j])
    ensures RoutesAscend(list)
  {
    forall i, j | 0 <= i < j < |list| ensures Before(list[i].route, list[j].route) {
      assert RouteLess(list[i], list[j]);
      BeforeIff(list[i].route, list[j].route);
    }
  }

  lemma EnrollmentsSorted(docs: seq<Doc>)
    requires Listable(docs)
    ensures RoutesAscend(Sort(RouteLess, Select(AsEnrollment, docs)))
    ensures forall x :: x in Sort(RouteLess, Select(AsEnrollment, docs)) <==> x in Select(AsEnrollment, docs)
  {
    DistinctDocs(docs);
    SelectDistinct(AsEnrollment, docs);
    EnrollmentsCompare(docs);
    OrdersAreStrictWeak();
    StrictlyAscending(RouteLess, Select(AsEnrollment, docs));
    RoutesBefore(Sort(RouteLess, Select(AsEnrollment, docs)));
  }

  lemma GenerationsSorted(docs: seq<Doc>)
    requires Listable(docs)
    ensures NumbersAscend(Sort(GenerationLess, Select(AsGeneration, docs)))
    ensures forall x :: x in Sort(GenerationLess, Select(AsGeneration, docs)) <==> x in Select(AsGeneration, docs)
  {
    DistinctDocs(docs);
    SelectDistinct(AsGeneration, docs);
    GenerationsCompare(docs);
    OrdersAreStrictWeak();
    StrictlyAscending(GenerationLess, Select(AsGeneration, docs));
    NumbersBefore(docs, Sort(GenerationLess, Select(AsGeneration, docs)));
  }

  lemma NumbersBefore(docs: seq<Doc>, list: seq<Document>)
    requires NumberedRoutes(docs) && forall x :: x in list ==> x in Select(AsGeneration, docs)
    requires forall i, j :: 0 <= i < j < |list| ==> GenerationLess(list[i], list[j])
    ensures NumbersAscend(list)
  {
    forall i, j | 0 <= i < j < |list| ensures Smaller(list[i].route, list[j].route) {
      NumberOf(docs, list[i]);
      NumberOf(docs, list[j]);
      SmallerBy(list[i], list[j]);
    }
  }

  lemma SmallerBy(x: Document, y: Document)
    requires GenerationLess(x, y) && x.route == Decimal(RouteNumber(x)) && y.route == Decimal(RouteNumber(y))
    ensures Smaller(x.route, y.route)
  {
  }

  lemma NumberOf(docs: seq<Doc>, x: Document)
    requires NumberedRoutes(docs) && x in Select(AsGeneration, docs)
    ensures x.route == Decimal(RouteNumber(x))
  {
    SelectedFrom(AsGeneration, docs, x);
    assert GenerationDoc(x) in docs;
  }

  lemma EnvelopesSorted(docs: seq<Doc>)
    requires Listable(docs)
    ensures EnvelopesAscend(Sort(EnvelopeLess, Select(AsSealed, docs)))
    ensures forall x :: x in Sort(EnvelopeLess, Select(AsSealed, docs)) <==> x in Select(AsSealed, docs)
  {
    DistinctDocs(docs);
    SelectDistinct(AsSealed, docs);
    EnvelopesCompare(docs);
    EnvelopeOrder();
    StrictlyAscending(EnvelopeLess, Select(AsSealed, docs));
    var list := Sort(EnvelopeLess, Select(AsSealed, docs));
    forall i, j | 0 <= i < j < |list|
      ensures Before(list[i].deviceID, list[j].deviceID)
           || (list[i].deviceID == list[j].deviceID && list[i].generation < list[j].generation)
    {
      assert EnvelopeLess(list[i], list[j]);
      BeforeIff(list[i].deviceID, list[j].deviceID);
    }
  }

  lemma RootIff(w: Wire, records: seq<Record>)
    requires AllDecode(w, records)
    ensures Select(AsRoot, Map(r => DocOr(w, r), records)) != [] <==>
      exists r :: r in records && w.decode(r).value.RootDoc?
  {
    var docs := Map(r => DocOr(w, r), records);
    if Select(AsRoot, docs) != [] {
      var x := Select(AsRoot, docs)[0];
      SelectedFrom(AsRoot, docs, x);
      DecodedFrom(w, records, RootDoc(x));
    }
    if r :| r in records && w.decode(r).value.RootDoc? {
      DecodedFrom(w, records, w.decode(r).value);
      SelectHas(AsRoot, docs, w.decode(r).value);
    }
  }

  /** A snapshot can be rebuilt exactly from decodable records with different names and a root among them. */
  lemma RebuildIff(w: Wire, vaultID: string, records: seq<Record>)
    requires WireLaw(w)
    ensures SnapshotFrom(w, vaultID, records).Ok? <==> Rebuildable(w, records)
  {
    NamesDiffer(records);
    if SnapshotFrom(w, vaultID, records).Ok? {
      ReadDocs(w, vaultID, records);
      RootIff(w, records);
    }
    if Rebuildable(w, records) {
      DecodeAllSucceeds(w, records);
      RootIff(w, records);
    }
  }

  lemma DocumentsHeld(w: Wire, records: seq<Record>, s: Snapshot)
    requires AllDecode(w, records)
    requires var docs := Map(r => DocOr(w, r), records);
      && (forall x :: x in s.devices <==> x in Select(AsDevice, docs))
      && (forall x :: x in s.enrollments <==> x in Select(AsEnrollment, docs))
      && (forall x :: x in s.generations <==> x in Select(AsGeneration, docs))
    ensures Holds(w, records, x => DeviceDoc(x), s.devices) && Holds(w, records, x => EnrollmentDoc(x), s.enrollments)
    ensures Holds(w, records, x => GenerationDoc(x), s.generations)
  {
    HeldList(w, records, AsDevice, x => DeviceDoc(x), s.devices);
    HeldList(w, records, AsEnrollment, x => EnrollmentDoc(x), s.enrollments);
    HeldList(w, records, AsGeneration, x => GenerationDoc(x), s.generations);
  }

  lemma RootHeld(w: Wire, records: seq<Record>, root64: string)
    requires AllDecode(w, records) && root64 in Select(AsRoot, Map(r => DocOr(w, r), records))
    ensures exists r :: r in records && w.decode(r) == Ok(RootDoc(root64))
  {
    SelectedFrom(AsRoot, Map(r => DocOr(w, r), records), root64);
    DecodedFrom(w, records, RootDoc(root64));
  }

  lemma SortedLists(vaultID: string, docs: seq<Doc>)
    requires Listable(docs) && Select(AsRoot, docs) != []
    ensures var s := SortLists(Selections(vaultID, docs));
      && s.vaultID == vaultID && s.vault64 in Select(AsRoot, docs) && Ordered(s)
      && (forall x :: x in s.devices <==> x in Select(AsDevice, docs))
      && (forall x :: x in s.enrollments <==> x in Select(AsEnrollment, docs))
      && (forall x :: x in s.generations <==> x in Select(AsGeneration, docs))
      && (forall x :: x in s.envelopes <==> x in Select(AsSealed, docs))
  {
    DevicesSorted(docs);
    EnrollmentsSorted(docs);
    GenerationsSorted(docs);
    EnvelopesSorted(docs);
  }

  /** It holds the documents of the records and nothing else, each list in its order. */
  lemma RebuiltMeans(w: Wire, vaultID: string, records: seq<Record>)
    requires WireLaw(w) && SnapshotFrom(w, vaultID, records).Ok?
    ensures var s := SnapshotFrom(w, vaultID, records).value;
      s.vaultID == vaultID && Contents(w, records, s) && Ordered(s)
  {
    ReadDocs(w, vaultID, records);
    NamesToKeys(w, records);
    var docs := Map(r => DocOr(w, r), records);
    SortedLists(vaultID, docs);
    var s := SnapshotFrom(w, vaultID, records).value;
    assert s == SortLists(Selections(vaultID, docs));
    DocumentsHeld(w, records, s);
    HeldList(w, records, AsSealed, x => EnvelopeDoc(x), s.envelopes);
    RootHeld(w, records, s.vault64);
  }

  // ----- flattening -----

  /** The document is an entry of the snapshot. */
  ghost predicate Listed(s: Snapshot, d: Doc) {
    match d
    case RootDoc(text) => text == s.vault64
    case DeviceDoc(x) => x in s.devices
    case EnrollmentDoc(x) => x in s.enrollments
    case GenerationDoc(x) => x in s.generations
    case EnvelopeDoc(x) => x in s.envelopes
  }

  lemma MappedIff<T(!new)>(doc: T -> Doc, list: seq<T>, d: Doc)
    ensures d in Map(doc, list) <==> exists x :: x in list && doc(x) == d
  {
    if d in Map(doc, list) {
      var i :| 0 <= i < |list| && Map(doc, list)[i] == d;
      assert list[i] in list;
    }
    if x :| x in list && doc(x) == d {
      var i :| 0 <= i < |list| && list[i] == x;
      assert Map(doc, list)[i] == d;
    }
  }

  lemma ListedIff(s: Snapshot, d: Doc)
    ensures d in Listing(s) <==> Listed(s, d)
  {
    MappedIff(Device, s.devices, d);
    MappedIff(Enrollment, s.enrollments, d);
    MappedIff(BootstrapSnapshot.Generation, s.generations, d);
    MappedIff(Sealed, s.envelopes, d);
  }

  /** Two entries would share a record: the same kind with the same route in any case. */
  ghost predicate Clash(c: Doc, d: Doc) {
    match c
    case RootDoc(_) => d.RootDoc?
    case DeviceDoc(x) => d.DeviceDoc? && Lower(x.route) == Lower(d.device.route)
    case EnrollmentDoc(x) => d.EnrollmentDoc? && Lower(x.route) == Lower(d.enrollment.route)
    case GenerationDoc(x) => d.GenerationDoc? && Lower(x.route) == Lower(d.generation.route)
    case EnvelopeDoc(x) =>
      d.EnvelopeDoc? && Lower(x.deviceID) == Lower(d.envelope.deviceID) && x.generation == d.envelope.generation
  }

  lemma KeysClash(c: Doc, d: Doc)
    ensures KeyOf(Canonical(c)) == KeyOf(Canonical(d)) <==> Clash(c, d)
  {
  }

  lemma NamesByKey(w: Wire, c: Doc, d: Doc)
    requires WireLaw(w) && w.build(c).Ok? && w.build(d).Ok?
    ensures w.build(c).value.id.name == w.build(d).value.id.name <==> KeyOf(Canonical(c)) == KeyOf(Canonical(d))
  {
    var r, q := w.build(c).value, w.build(d).value;
    assert w.decode(r) == Ok(Canonical(c)) && w.decode(q) == Ok(Canonical(d));
  }

  lemma ClashIff(vaultID: string, c: Doc, d: Doc)
    requires ValidVault(vaultID) && RecordFor(vaultID, c).Ok? && RecordFor(vaultID, d).Ok?
    ensures RecordFor(vaultID, c).value.id.name == RecordFor(vaultID, d).value.id.name <==> Clash(c, d)
  {
    CodecWireLaw(vaultID);
    NamesByKey(CodecWire(vaultID), c, d);
    KeysClash(c, d);
  }

  ghost predicate Flattenable(vaultID: string, s: Snapshot) {
    && R.Folds(s.vaultID, vaultID)
    && (forall d :: Listed(s, d) ==> L.Sendable(d))
    && forall i, j :: 0 <= i < j < |Listing(s)| ==> !Clash(Listing(s)[i], Listing(s)[j])
  }

  lemma BuiltNames(vaultID: string, docs: seq<Doc>, records: seq<Record>)
    requires ValidVault(vaultID) && |records| == |docs|
    requires forall i :: 0 <= i < |docs| ==> RecordFor(vaultID, docs[i]) == Ok(records[i])
    ensures Distinct(Map(RecordName, records)) <==> forall i, j :: 0 <= i < j < |docs| ==> !Clash(docs[i], docs[j])
  {
    NamesDiffer(records);
    forall i, j | 0 <= i < j < |docs|
      ensures records[i].id.name == records[j].id.name <==> Clash(docs[i], docs[j])
    {
      ClashIff(vaultID, docs[i], docs[j]);
    }
  }

  lemma BuildAllIff(vaultID: string, docs: seq<Doc>)
    requires ValidVault(vaultID) && docs != []
    ensures BuildAll(CodecWire(vaultID).build, docs).Ok? <==>
      && (forall d :: d in docs ==> RecordFor(vaultID, d).Ok?)
      && forall i, j :: 0 <= i < j < |docs| ==> !Clash(docs[i], docs[j])
  {
    var w := CodecWire(vaultID);
    if BuildAll(w.build, docs).Ok? {
      BuiltNames(vaultID, docs, BuildAll(w.build, docs).value);
      forall d | d in docs ensures RecordFor(vaultID, d).Ok? {
        var i :| 0 <= i < |docs| && docs[i] == d;
        assert w.build(docs[i]).Ok?;
      }
    } else if forall d :: d in docs ==> RecordFor(vaultID, d).Ok? {
      var other := RecordFor(vaultID, docs[0]).value;
      var records := Map(d => BuiltOr(w, d, other), docs);
      BuiltNames(vaultID, docs, records);
      if Distinct(Map(RecordName, records)) {
        BuildAllSucceeds(w, docs, other);
      }
    }
  }

  /** A snapshot can be flattened exactly when it is of this vault, its entries are sendable and none clash. */
  lemma FlattenIff(vaultID: string, s: Snapshot)
    requires ValidVault(vaultID)
    ensures RecordsFor(CodecWire(vaultID), vaultID, s).Ok? <==> Flattenable(vaultID, s)
  {
    R.FoldIff(s.vaultID, vaultID);
    BuildAllIff(vaultID, Listing(s));
    forall d ensures d in Listing(s) <==> Listed(s, d) {
      ListedIff(s, d);
    }
    forall d ensures RecordFor(vaultID, d).Ok? <==> L.Sendable(d) {
      L.BuiltIff(vaultID, d);
    }
  }

  /** The records are those of the entries and nothing else, in the order of their names. */
  lemma FlattenedMeans(vaultID: string, s: Snapshot)
    requires ValidVault(vaultID) && RecordsFor(CodecWire(vaultID), vaultID, s).Ok?
    ensures var records := RecordsFor(CodecWire(vaultID), vaultID, s).value;
      && (forall r :: r in records <==> exists d :: Listed(s, d) && RecordFor(vaultID, d) == Ok(r))
      && (forall i, j :: 0 <= i < j < |records| ==> Before(records[i].id.name, records[j].id.name))
  {
    var w := CodecWire(vaultID);
    var built := BuildAll(w.build, Listing(s)).value;
    BuiltAscend(built);
    forall r ensures r in built <==> exists d :: Listed(s, d) && RecordFor(vaultID, d) == Ok(r) {
      BuiltFrom(vaultID, s, built, r);
    }
  }

  lemma BuiltFrom(vaultID: string, s: Snapshot, built: seq<Record>, r: Record)
    requires |built| == |Listing(s)|
    requires forall i :: 0 <= i < |built| ==> RecordFor(vaultID, Listing(s)[i]) == Ok(built[i])
    ensures r in built <==> exists d :: Listed(s, d) && RecordFor(vaultID, d) == Ok(r)
  {
    if r in built {
      var i :| 0 <= i < |built| && built[i] == r;
      assert Listing(s)[i] in Listing(s);
      ListedIff(s, Listing(s)[i]);
    }
    if d :| Listed(s, d) && RecordFor(vaultID, d) == Ok(r) {
      ListedIff(s, d);
      var i :| 0 <= i < |built| && Listing(s)[i] == d;
      assert built[i] == r;
    }
  }

  lemma BuiltAscend(built: seq<Record>)
    requires Distinct(Map(RecordName, built))
    ensures var records := Sort(NameLess, built);
      && (forall r :: r in records <==> r in built)
      && forall i, j :: 0 <= i < j < |records| ==> Before(records[i].id.name, records[j].id.name)
  {
    NamesDiffer(built);
    OrdersAreStrictWeak();
    forall r, q | r in built && q in built && r != q ensures NameLess(r, q) || NameLess(q, r) {
      var i :| 0 <= i < |built| && built[i] == r;
      var j :| 0 <= j < |built| && built[j] == q;
      assert i < j || j < i;
      LexTotal(r.id.name, q.id.name);
    }
    StrictlyAscending(NameLess, built);
    var records := Sort(NameLess, built);
    forall i, j | 0 <= i < j < |records| ensures Before(records[i].id.name, records[j].id.name) {
      assert NameLess(records[i], records[j]);
      BeforeIff(records[i].id.name, records[j].id.name);
    }
  }

  /** Two lifecycle records are the same exactly when they have one name and type and spell one document. */
  lemma EquivalentIff(vaultID: string, left: Record, right: Record)
    requires ValidVault(vaultID)
    ensures Equivalent(CodecWire(vaultID), left, right) == Ok(true) <==>
      && left.id == right.id && left.kind == right.kind
      && exists d :: L.Spells(vaultID, left, d) && L.Spells(vaultID, right, d)
    ensures Equivalent(CodecWire(vaultID), left, right).Err? <==>
      && left.id == right.id && left.kind == right.kind
      && (Decode(vaultID, left).Err? || Decode(vaultID, right).Err?)
  {
    if d :| L.Spells(vaultID, left, d) && L.Spells(vaultID, right, d) {
      L.DecodeIff(vaultID, left, d);
      L.DecodeIff(vaultID, right, d);
    }
    if Decode(vaultID, left).Ok? && Decode(vaultID, left) == Decode(vaultID, right) {
      L.DecodeIff(vaultID, left, Decode(vaultID, left).value);
      L.DecodeIff(vaultID, right, Decode(vaultID, left).value);
    }
  }
}
