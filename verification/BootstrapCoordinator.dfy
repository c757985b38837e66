/**
 The coordinator of the vault lifecycle history (CloudVaultBootstrapCoordinator.swift:61-235): it
 stages fetched lifecycle records, merges them with the accepted snapshot, and publishes the local
 additions. Its abstract state is two sets of documents, accepted and fetched.
 */
module BootstrapCoordinator {
  import opened Prelude
  import opened Records
  import opened Text
  import opened BootstrapCodec
  import opened BootstrapSnapshot
  import opened Selection
  import Order
  import Resolver
  import Planner
  import opened CloudServer
  import opened LifecycleServer

  datatype CoordinatorError =
    | LifecycleRecordDeleted | LifecycleRecordChanged | ActivationDidNotApply
    | CodecFailure(cause: BootstrapError) | ControlFailure | ExceedsRecordLimit | NotDelivered

  datatype FetchPartition = FetchPartition(records: seq<Record>, deleted: seq<RecordId>)

  // ----- sets of documents -----

  /** A history: no key carries two contents. */
  ghost predicate OneDocPerKey(docs: set<Doc>) {
    forall d, e :: d in docs && e in docs && KeyOf(d) == KeyOf(e) ==> d == e
  }

  /** Records filed under their own ids, all decodable. */
  ghost predicate Filed(w: Wire, m: map<RecordId, Record>) {
    forall id :: id in m ==> m[id].id == id && w.decode(m[id]).Ok?
  }

  ghost function DocsIn(w: Wire, m: map<RecordId, Record>): set<Doc> {
    set id | id in m :: DocOr(w, m[id])
  }

  /** The records of `m` and `n` under one id carry one document. */
  ghost predicate Agree(w: Wire, m: map<RecordId, Record>, n: map<RecordId, Record>) {
    forall id :: id in m && id in n ==> DocOr(w, m[id]) == DocOr(w, n[id])
  }

  lemma EquivalentMeans(w: Wire, a: Record, b: Record)
    requires WireLaw(w) && w.decode(a).Ok? && w.decode(b).Ok? && a.id == b.id
    ensures Equivalent(w, a, b) == Ok(DocOr(w, a) == DocOr(w, b))
  {
    assert DocLaw(w, DocOr(w, a), a) && DocLaw(w, DocOr(w, b), b);
  }

  lemma SameIdSameKey(w: Wire, a: Record, b: Record)
    requires WireLaw(w) && w.decode(a).Ok? && w.decode(b).Ok?
    ensures a.id == b.id <==> KeyOf(DocOr(w, a)) == KeyOf(DocOr(w, b))
  {
  }

  lemma FiledIsHistory(w: Wire, m: map<RecordId, Record>)
    requires WireLaw(w) && Filed(w, m)
    ensures OneDocPerKey(DocsIn(w, m))
  {
    forall d, e | d in DocsIn(w, m) && e in DocsIn(w, m) && KeyOf(d) == KeyOf(e) ensures d == e {
      var i :| i in m && DocOr(w, m[i]) == d;
      var j :| j in m && DocOr(w, m[j]) == e;
      SameIdSameKey(w, m[i], m[j]);
    }
  }

  /** Two filings agree exactly when their documents together form one history. */
  lemma AgreeMeans(w: Wire, m: map<RecordId, Record>, n: map<RecordId, Record>)
    requires WireLaw(w) && Filed(w, m) && Filed(w, n)
    ensures Agree(w, m, n) <==> OneDocPerKey(DocsIn(w, m) + DocsIn(w, n))
  {
    if Agree(w, m, n) {
      FiledIsHistory(w, m + n);
      DocsMerged(w, m, n);
    } else {
      var id :| id in m && id in n && DocOr(w, m[id]) != DocOr(w, n[id]);
      SameIdSameKey(w, m[id], n[id]);
      assert DocOr(w, m[id]) in DocsIn(w, m) && DocOr(w, n[id]) in DocsIn(w, n);
    }
  }

  lemma DocsMerged(w: Wire, m: map<RecordId, Record>, n: map<RecordId, Record>)
    requires Agree(w, m, n)
    ensures DocsIn(w, m + n) == DocsIn(w, m) + DocsIn(w, n)
  {
    forall d | d in DocsIn(w, m) ensures d in DocsIn(w, m + n) {
      var id :| id in m && DocOr(w, m[id]) == d;
      assert id in m + n;
    }
    forall d | d in DocsIn(w, n) ensures d in DocsIn(w, m + n) {
      var id :| id in n && DocOr(w, n[id]) == d;
      assert id in m + n;
    }
  }

  // ----- sequences and filings -----

  /** `m` files exactly the records of `records`. */
  ghost predicate Files(m: map<RecordId, Record>, records: seq<Record>) {
    && m.Keys == Resolver.Ids(records)
    && forall id :: id in m ==> m[id] in records && m[id].id == id
  }

  lemma FilesEach(m: map<RecordId, Record>, records: seq<Record>, r: Record)
    requires Files(m, records) && Distinct(Map(RecordName, records)) && r in records
    ensures r.id in m && m[r.id] == r
  {
    assert r.id in Resolver.Ids(records);
    var q := m[r.id];
    var i :| 0 <= i < |records| && records[i] == r;
    var j :| 0 <= j < |records| && records[j] == q;
    assert Map(RecordName, records)[i] == r.id.name && Map(RecordName, records)[j] == q.id.name;
  }

  lemma FiledDocs(w: Wire, m: map<RecordId, Record>, records: seq<Record>)
    requires Files(m, records) && AllDecode(w, records) && Distinct(Map(RecordName, records))
    ensures Filed(w, m) && DocsIn(w, m) == Docs(w, records)
  {
    forall d | d in Docs(w, records) ensures d in DocsIn(w, m) {
      var r :| r in records && DocOr(w, r) == d;
      FilesEach(m, records, r);
    }
  }

  lemma SnapshotRecords(w: Wire, vaultID: string, s: Snapshot)
    requires WireLaw(w) && RecordsFor(w, vaultID, s).Ok?
    ensures var records := RecordsFor(w, vaultID, s).value;
      && AllDecode(w, records) && Distinct(Map(RecordName, records)) && Docs(w, records) == History(w, vaultID, s)
        && records != []
      && forall q :: q in records ==> q.tag.None?
  {
    var built := BuildAll(w.build, Listing(s)).value;
    var records := RecordsFor(w, vaultID, s).value;
    BuiltDecode(w, Listing(s));
    AllDecodePermutation(w, built, records);
    MapPermutation(RecordName, built, records);
    DistinctPermutation(Map(RecordName, built), Map(RecordName, records));
    BuiltAreNew(w, Listing(s));
    Order.MembersByMultiset(built, records);
  }

  lemma BuiltAreNew(w: Wire, docs: seq<Doc>)
    requires WireLaw(w) && BuildAll(w.build, docs).Ok?
    ensures forall q :: q in BuildAll(w.build, docs).value ==> q.tag.None?
  {
    var built := BuildAll(w.build, docs).value;
    forall q | q in built ensures q.tag.None? {
      var i :| 0 <= i < |built| && built[i] == q;
      assert w.build(docs[i]) == Ok(q);
    }
  }

  // ----- the split of a fetched page -----

  function Domain(records: seq<Record>): seq<Record> {
    if records == [] then []
    else
      var n := |records| - 1;
      Domain(records[..n]) + if Owns(records[n]) then [] else [records[n]]
  }

  function Lifecycle(records: seq<Record>): seq<Record> {
    if records == [] then []
    else
      var n := |records| - 1;
      Lifecycle(records[..n]) + if Owns(records[n]) then [records[n]] else []
  }

  lemma SplitAppend(records: seq<Record>, r: Record)
    ensures Domain(records + [r]) == Domain(records) + if Owns(r) then [] else [r]
    ensures Lifecycle(records + [r]) == Lifecycle(records) + if Owns(r) then [r] else []
  {
    assert (records + [r])[..|records|] == records;
  }

  lemma AddRight<T>(a: seq<T>, b: seq<T>, x: T)
    ensures multiset(a + [x]) == multiset(a) + multiset{x}
    ensures multiset(a) + multiset(b + [x]) == multiset(a) + multiset(b) + multiset{x}
    ensures multiset(a + [x]) + multiset(b) == multiset(a) + multiset(b) + multiset{x}
  {
  }

  /** The split loses nothing and duplicates nothing. */
  lemma {:induction false} SplitConserves(records: seq<Record>)
    ensures multiset(records) == multiset(Domain(records)) + multiset(Lifecycle(records))
    decreases |records|
  {
    if records != [] {
      var n := |records| - 1;
      var init, last := records[..n], records[n];
      SplitConserves(init);
      assert records == init + [last];
      SplitLast(init, last);
    }
  }

  lemma SplitLast(init: seq<Record>, last: Record)
    ensures multiset(init + [last]) == multiset(init) + multiset{last}
    ensures multiset(Domain(init + [last])) + multiset(Lifecycle(init + [last]))
      == multiset(Domain(init)) + multiset(Lifecycle(init)) + multiset{last}
  {
    SplitAppend(init, last);
    AddRight(init, [], last);
    AddRight(Domain(init), Lifecycle(init), last);
    assert Domain(init) + [] == Domain(init) && Lifecycle(init) + [] == Lifecycle(init);
  }

  lemma {:induction false} LifecyclePrefix(records: seq<Record>, i: nat)
    requires i <= |records|
    ensures forall r :: r in Lifecycle(records[..i]) ==> r in Lifecycle(records)
    decreases |records| - i
  {
    if i < |records| {
      assert records[..i + 1] == records[..i] + [records[i]];
      SplitAppend(records[..i], records[i]);
      LifecyclePrefix(records, i + 1);
    } else {
      assert records[..i] == records;
    }
  }

  lemma DocsAppend(w: Wire, records: seq<Record>, r: Record)
    ensures Docs(w, records + [r]) == Docs(w, records) + {DocOr(w, r)}
  {
    assert forall q :: q in records + [r] <==> q in records || q == r;
  }

  lemma FileOne(w: Wire, m: map<RecordId, Record>, r: Record)
    requires Filed(w, m) && w.decode(r).Ok? && (r.id in m ==> DocOr(w, m[r.id]) == DocOr(w, r))
    ensures Filed(w, m[r.id := r]) && DocsIn(w, m[r.id := r]) == DocsIn(w, m) + {DocOr(w, r)}
  {
    var m' := m[r.id := r];
    assert r.id in m' && m'[r.id] == r;
    forall d | d in DocsIn(w, m) ensures d in DocsIn(w, m') {
      var id :| id in m && DocOr(w, m[id]) == d;
      assert id in m';
    }
  }

  predicate NoneOwned(vaultID: string, ids: seq<RecordId>) {
    forall i :: 0 <= i < |ids| ==> !OwnsId(vaultID, ids[i])
  }

  /** Staging one lifecycle record: refused when undecodable or when it changes a staged record. */
  ghost predicate Stageable(w: Wire, fetched: set<Doc>, records: seq<Record>) {
    AllDecode(w, Lifecycle(records)) && OneDocPerKey(fetched + Docs(w, Lifecycle(records)))
  }

  lemma ChangedRecordRefused(w: Wire, m: map<RecordId, Record>, fetched: set<Doc>, records: seq<Record>, i: nat)
    requires WireLaw(w) && Filed(w, m) && i < |records| && Owns(records[i]) && w.decode(records[i]).Ok?
    requires DocsIn(w, m) == fetched + Docs(w, Lifecycle(records[..i]))
    requires records[i].id in m && DocOr(w, m[records[i].id]) != DocOr(w, records[i])
    ensures !Stageable(w, fetched, records)
  {
    var r, q := records[i], m[records[i].id];
    SameIdSameKey(w, q, r);
    assert DocOr(w, q) in DocsIn(w, m);
    PageDocs(w, records, i);
    assert DocOr(w, r) in fetched + Docs(w, Lifecycle(records)) && DocOr(w, q) in fetched + Docs(w, Lifecycle(records));
  }

  /** The documents up to and including a lifecycle record are documents of its page. */
  lemma PageDocs(w: Wire, records: seq<Record>, i: nat)
    requires i < |records| && Owns(records[i])
    ensures records[i] in Lifecycle(records) && DocOr(w, records[i]) in Docs(w, Lifecycle(records))
    ensures Docs(w, Lifecycle(records[..i])) <= Docs(w, Lifecycle(records))
  {
    LifecyclePrefix(records, i);
    assert records[..i + 1] == records[..i] + [records[i]];
    SplitAppend(records[..i], records[i]);
    LifecyclePrefix(records, i + 1);
    assert records[i] in Lifecycle(records[..i + 1]);
  }

  lemma UndecodableRefused(w: Wire, fetched: set<Doc>, records: seq<Record>, i: nat)
    requires i < |records| && Owns(records[i]) && w.decode(records[i]).Err?
    ensures !Stageable(w, fetched, records)
  {
    PageDocs(w, records, i);
  }

  // ----- the coordinator -----

  /** The daemon authenticates a snapshot and hands back one with the same records, or fails. */
  ghost predicate Honest(w: Wire, vaultID: string, validate: Snapshot -> Result<Snapshot, CoordinatorError>) {
    forall s :: validate(s).Ok? ==> RecordsFor(w, vaultID, validate(s).value) == RecordsFor(w, vaultID, s)
  }

  lemma IdsAppend(s: seq<Record>, r: Record)
    ensures Resolver.Ids(s + [r]) == Resolver.Ids(s) + {r.id}
  {
    assert forall q :: q in s + [r] <==> q in s || q == r;
  }

  /** Lists the values of a dictionary in whatever order it iterates. */
  method ListValues(m: map<RecordId, Record>) returns (s: seq<Record>)
    requires forall id :: id in m ==> m[id].id == id
    ensures Files(m, s) && Resolver.DistinctIds(s)
  {
    s := [];
    var pending := m.Keys;
    while pending != {}
      invariant pending <= m.Keys && Resolver.DistinctIds(s)
      invariant Resolver.Ids(s) == m.Keys - pending
      invariant forall r :: r in s ==> r.id in m && m[r.id] == r
      decreases pending
    {
      var id :| id in pending;
      IdsAppend(s, m[id]);
      assert forall i :: 0 <= i < |s| ==> s[i].id in Resolver.Ids(s);
      s := s + [m[id]];
      pending := pending - {id};
    }
    forall id | id in m ensures m[id] in s {
      assert id in Resolver.Ids(s);
    }
  }

  function Restrict(m: map<RecordId, Record>, ids: set<RecordId>): map<RecordId, Record>
    requires ids <= m.Keys
  {
    map id | id in ids :: m[id]
  }

  /** Files every fetched record over the merged ones, in dictionary order, unless one changes a merged record. */
  method MergeFetched(same: (Record, Record) -> bool, accepted: map<RecordId, Record>, fetched: map<RecordId, Record>)
    returns (r: Result<map<RecordId, Record>, CoordinatorError>)
    ensures r.Ok? <==> forall id :: id in accepted && id in fetched ==> same(accepted[id], fetched[id])
    ensures r.Ok? ==> r.value == accepted + fetched
  {
    var merged := accepted;
    var pending := fetched.Keys;
    while pending != {}
      invariant pending <= fetched.Keys
      invariant merged == accepted + Restrict(fetched, fetched.Keys - pending)
      invariant forall id :: id in accepted && id in fetched && id !in pending ==> same(accepted[id], fetched[id])
      decreases pending
    {
      var id :| id in pending;
      if id in merged && !same(merged[id], fetched[id]) {
        assert merged[id] == accepted[id];
        return Err(LifecycleRecordChanged);
      }
      merged := merged[id := fetched[id]];
      pending := pending - {id};
    }
    return Ok(merged);
  }

  ghost predicate HasRoot(docs: set<Doc>) {
    exists d :: d in docs && d.RootDoc?
  }

  lemma {:induction false} RootSelected(docs: seq<Doc>)
    ensures Select(AsRoot, docs) != [] <==> HasRoot(Elements(docs))
    decreases |docs|
  {
    if docs != [] {
      var n := |docs| - 1;
      RootSelected(docs[..n]);
      assert docs == docs[..n] + [docs[n]];
      assert Elements(docs) == Elements(docs[..n]) + {docs[n]};
    }
  }

  lemma DocsAsMap(w: Wire, records: seq<Record>)
    ensures Elements(Map(r => DocOr(w, r), records)) == Docs(w, records)
  {
    var docs := Map(r => DocOr(w, r), records);
    forall d | d in Docs(w, records) ensures d in docs {
      var r :| r in records && DocOr(w, r) == d;
      var i :| 0 <= i < |records| && records[i] == r;
      assert docs[i] == d;
    }
    forall d | d in docs ensures d in Docs(w, records) {
      var i :| 0 <= i < |docs| && docs[i] == d;
      assert records[i] in records;
    }
  }

  lemma NamesDistinct(w: Wire, records: seq<Record>)
    requires WireLaw(w) && AllDecode(w, records) && Resolver.DistinctIds(records)
    ensures Distinct(Map(RecordName, records))
  {
    forall i, j | 0 <= i < j < |records| ensures Map(RecordName, records)[i] != Map(RecordName, records)[j] {
      assert records[i] in records && records[j] in records;
      assert records[i].id.zone == records[j].id.zone;
    }
  }

  /** Rebuilding a filing succeeds exactly when it has a root, and then has exactly its documents. */
  lemma CandidateOutcome(w: Wire, vaultID: string, m: map<RecordId, Record>, values: seq<Record>)
    requires WireLaw(w) && Lower(vaultID) == vaultID && Filed(w, m) && Files(m, values) && Resolver.DistinctIds(values)
    ensures SnapshotFrom(w, vaultID, values).Ok? <==> HasRoot(DocsIn(w, m))
    ensures SnapshotFrom(w, vaultID, values).Ok? ==>
      var s := SnapshotFrom(w, vaultID, values).value;
        RecordsFor(w, vaultID, s).Ok? && History(w, vaultID, s) == DocsIn(w, m)
  {
    assert AllDecode(w, values) by {
      forall r | r in values ensures w.decode(r).Ok? {
        assert r.id in Resolver.Ids(values);
        var i :| 0 <= i < |values| && values[i] == r;
        var j :| 0 <= j < |values| && values[j] == m[r.id];
      }
    }
    NamesDistinct(w, values);
    FiledDocs(w, m, values);
    DecodeAllSucceeds(w, values);
    RootSelected(Map(r => DocOr(w, r), values));
    DocsAsMap(w, values);
    if SnapshotFrom(w, vaultID, values).Ok? {
      RebuiltHistory(w, vaultID, values);
    }
  }

  // ----- what a call may do to the history -----

  /** Where the coordinator stands: the accepted and the staged documents. */
  datatype Standing = Standing(accepted: set<Doc>, fetched: set<Doc>)

  /** Staging a page adds at most its decodable lifecycle documents, and accepts nothing. */
  ghost predicate StageStep(h: Standing, h': Standing, docs: set<Doc>) {
    h'.accepted == h.accepted && h.fetched <= h'.fetched <= h.fetched + docs
  }

  /** Finishing a fetch accepts exactly what was staged, or changes nothing. */
  ghost predicate FinishStep(h: Standing, h': Standing) {
    h' == h || h' == Standing(h.accepted + h.fetched, {})
  }

  /**
   Publishing writes at most one batch of new lifecycle records. It accepts staged and local documents, all of
   them then on the server or accepted before; or accepts nothing and stages only what is on the server.
   */
  ghost predicate PublishStep(w: Wire, s: Server, s': Server, h: Standing, h': Standing, local: set<Doc>) {
    && (s' == s || exists records :: AllSendable(w, records) && Writes(s, s', records, true))
    && (|| (h' == Standing(h.accepted + h.fetched + local, {}) && local <= h.accepted + ServerDocs(w, s'))
        || StageStep(h, h', ServerDocs(w, s')))
  }

  lemma Published(w: Wire, s: Server, s': Server, h: Standing, h': Standing, local: set<Doc>, records: seq<Record>,
      ok: bool)
    requires s' == s || (AllSendable(w, records) && Writes(s, s', records, true))
    requires Docs(w, records) == local - h.accepted
    requires ok ==>
      h' == Standing(h.accepted + (h.fetched + Docs(w, records)), {}) && Docs(w, records) <= ServerDocs(w, s')
    requires !ok ==>
      && h'.accepted == h.accepted && h.fetched <= h'.fetched <= h.fetched + Docs(w, records)
      && (h'.fetched == h.fetched || Docs(w, records) <= ServerDocs(w, s'))
    ensures PublishStep(w, s, s', h, h', local)
  {
    AddAll(h.accepted, h.fetched, local, Docs(w, records));
  }

  ghost function DecodedDocs(w: Wire, records: seq<Record>): set<Doc> {
    set r | r in records && w.decode(r).Ok? :: DocOr(w, r)
  }

  /** The snapshot agrees with the local one where they overlap, and a newer generation was activated at once. */
  ghost predicate ReadableSnapshot(w: Wire, vaultID: string, local: Result<Snapshot, CoordinatorError>,
      remote: Snapshot, activate: Snapshot -> Result<Activation, CoordinatorError>) {
    && local.Ok? && RecordsFor(w, vaultID, local.value).Ok? && RecordsFor(w, vaultID, remote).Ok?
    && OneDocPerKey(History(w, vaultID, local.value) + History(w, vaultID, remote))
    && (Latest(remote.generations) > Latest(local.value.generations) ==>
          && activate(remote).Ok? && activate(remote).value.Ready?
          && activate(remote).value.vaultID == remote.vaultID
          && activate(remote).value.keyGeneration >= Latest(remote.generations)
          && !activate(remote).value.restartRequired)
  }

  /** The snapshot that stands for the accepted history: the accepted one, or what the daemon made of it. */
  ghost predicate Judged(accepted: Option<Snapshot>, validate: Snapshot -> Result<Snapshot, CoordinatorError>,
      v: Option<Snapshot>) {
    && (v.None? <==> accepted.None?)
    && (v.Some? ==> v == accepted || validate(accepted.value) == Ok(v.value))
  }

  /** The daemon answered a snapshot of exactly these documents with `s`. */
  ghost predicate Authenticated(w: Wire, vaultID: string, validate: Snapshot -> Result<Snapshot, CoordinatorError>,
      docs: set<Doc>, s: Snapshot) {
    exists candidate :: RecordsFor(w, vaultID, candidate).Ok? && History(w, vaultID, candidate) == docs
      && validate(candidate) == Ok(s)
  }

  /** There is no accepted history, or it is readable. */
  ghost predicate ReadableHistory(w: Wire, vaultID: string, accepted: Option<Snapshot>,
      local: Result<Snapshot, CoordinatorError>, validate: Snapshot -> Result<Snapshot, CoordinatorError>,
      activate: Snapshot -> Result<Activation, CoordinatorError>) {
    || accepted.None?
    || exists s :: Judged(accepted, validate, Some(s)) && ReadableSnapshot(w, vaultID, local, s, activate)
  }

  lemma HistoryReads(w: Wire, vaultID: string, accepted: Option<Snapshot>, local: Result<Snapshot, CoordinatorError>,
      validate: Snapshot -> Result<Snapshot, CoordinatorError>,
      activate: Snapshot -> Result<Activation, CoordinatorError>, v: Option<Snapshot>)
    requires Judged(accepted, validate, v) && (v.Some? ==> ReadableSnapshot(w, vaultID, local, v.value, activate))
    ensures ReadableHistory(w, vaultID, accepted, local, validate, activate)
  {
    assert v.Some? ==> v == Some(v.value);
  }

  class Coordinator {
    const vaultID: string
    const wire: Wire
    var accepted: Option<Snapshot>
    var fetched: map<RecordId, Record>

    ghost predicate Valid()
      reads this
    {
      Lower(vaultID) == vaultID && WireLaw(wire) && Filed(wire, fetched)
    }

    /** The accepted history. */
    ghost function Accepted(): set<Doc>
      reads this
    {
      match accepted
      case Some(s) => History(wire, vaultID, s)
      case None => {}
    }

    /** The documents staged since the last completed fetch. */
    ghost function Fetched(): set<Doc>
      reads this
    {
      DocsIn(wire, fetched)
    }

    ghost function Stands(): Standing
      reads this
    {
      Standing(Accepted(), Fetched())
    }

    /** The accepted snapshot, when there is one, can be flattened. */
    ghost predicate Flattens()
      reads this
    {
      accepted.Some? ==> RecordsFor(wire, vaultID, accepted.value).Ok?
    }

    constructor (vaultID: string, restored: Option<Snapshot>)
      requires ValidVault(vaultID)
      ensures Valid() && accepted == restored && fetched == map[] && this.vaultID == vaultID
        && wire == CodecWire(vaultID)
    {
      this.vaultID, wire := vaultID, CodecWire(vaultID);
      accepted, fetched := restored, map[];
      CodecWireLaw(vaultID);
    }

    /** Keeps lifecycle records out of the entity records of a page, and stages them. */
    method StageFetched(records: seq<Record>, deleted: seq<RecordId>)
        returns (r: Result<FetchPartition, CoordinatorError>)
      requires Valid()
      modifies this`fetched
      ensures Valid()
      ensures r.Ok? <==> NoneOwned(vaultID, deleted) && Stageable(wire, old(Fetched()), records)
      ensures r.Ok? ==>
        && r.value == FetchPartition(Domain(records), deleted)
        && Fetched() == old(Fetched()) + Docs(wire, Lifecycle(records))
      ensures !NoneOwned(vaultID, deleted) ==> r == Err(LifecycleRecordDeleted) && fetched == old(fetched)
      ensures r.Err? && NoneOwned(vaultID, deleted) ==> StoppedAt(wire, old(Fetched()), Fetched(), records)
      ensures StageStep(old(Stands()), Stands(), DecodedDocs(wire, Lifecycle(records)))
    {
      for i := 0 to |deleted|
        invariant forall k :: 0 <= k < i ==> !OwnsId(vaultID, deleted[k])
      {
        if OwnsId(vaultID, deleted[i]) {
          return Err(LifecycleRecordDeleted);
        }
      }
      var domain :- StageRecords(records);
      return Ok(FetchPartition(domain, deleted));
    }

    /** The loop over a page: lifecycle records are staged one by one, the rest is handed back. */
    method StageRecords(records: seq<Record>) returns (r: Result<seq<Record>, CoordinatorError>)
      requires Valid()
      modifies this`fetched
      ensures Valid()
      ensures r.Ok? <==> Stageable(wire, old(Fetched()), records)
      ensures r.Ok? ==> r.value == Domain(records) && Fetched() == old(Fetched()) + Docs(wire, Lifecycle(records))
      ensures r.Err? ==> StoppedAt(wire, old(Fetched()), Fetched(), records)
      ensures old(Fetched()) <= Fetched() <= old(Fetched()) + DecodedDocs(wire, Lifecycle(records))
    {
      var domain: seq<Record> := [];
      ghost var before := Fetched();
      StagedNothing(wire, before, fetched, records);
      for i := 0 to |records|
        invariant domain == Domain(records[..i]) && Staged(wire, before, fetched, records, i)
      {
        SplitNext(records, i);
        if Owns(records[i]) {
          ghost var m := fetched;
          var staged := StageOne(records[i]);
          if staged.Err? {
            RefusedMeans(wire, m, before, records, i);
            StagedBounds(wire, before, fetched, records, i);
            RefusedHere(wire, m, before, records, i);
            return Err(staged.error);
          }
        } else {
          domain := domain + [records[i]];
        }
        StagedNext(wire, before, fetched, records, i);
      }
      StagedAll(wire, before, fetched, records);
      assert records[..|records|] == records;
      return Ok(domain);
    }

    /** The accepted records by id; empty when nothing is accepted yet. */
    method AcceptedRecords() returns (r: Result<map<RecordId, Record>, CoordinatorError>)
      requires Valid()
      ensures r.Ok? <==> Flattens()
      ensures r.Ok? ==> Filed(wire, r.value) && DocsIn(wire, r.value) == Accepted()
    {
      if accepted.None? {
        return Ok(map[]);
      }
      r := FlatRecords(accepted.value);
    }

    /** The records of a snapshot by id. */
    method FlatRecords(s: Snapshot) returns (r: Result<map<RecordId, Record>, CoordinatorError>)
      requires Valid()
      ensures r.Ok? <==> RecordsFor(wire, vaultID, s).Ok?
      ensures r.Ok? ==>
        && Filed(wire, r.value)
        && DocsIn(wire, r.value) == History(wire, vaultID, s)
        && Files(r.value, RecordsFor(wire, vaultID, s).value)
    {
      var records := BuildRecords(wire, vaultID, s);
      if records.Err? {
        return Err(CodecFailure(records.error));
      }
      SnapshotRecords(wire, vaultID, s);
      var m := Resolver.SavedById(records.value);
      FiledDocs(wire, m, records.value);
      return Ok(m);
    }

    /**
     Completes a fetch: the accepted history grows by exactly the staged documents, or nothing
     changes. It fails only when the histories contradict each other, lack a root, or the daemon refuses.
     */
    method FinishFetch(validate: Snapshot -> Result<Snapshot, CoordinatorError>)
        returns (r: Result<Option<Snapshot>, CoordinatorError>)
      requires Valid() && Honest(wire, vaultID, validate)
      modifies this
      ensures Valid()
      ensures FinishStep(old(Stands()), Stands())
      ensures r.Err? ==> accepted == old(accepted) && fetched == old(fetched)
      ensures r.Ok? ==> fetched == map[] && Accepted() == old(Accepted()) + old(Fetched())
      ensures r.Ok? && old(fetched) == map[] ==> accepted == old(accepted) && (r.value.Some? <==> accepted.Some?)
      ensures r.Ok? ==> Judged(accepted, validate, r.value)
      ensures r.Ok? && old(fetched) == map[] && accepted.Some? ==> validate(accepted.value) == Ok(r.value.value)
      ensures r.Ok? && old(fetched) != map[] ==>
        && r.value == accepted && accepted.Some? && Flattens() && OneDocPerKey(Accepted()) && HasRoot(Accepted())
        && Authenticated(wire, vaultID, validate, old(Accepted()) + old(Fetched()), accepted.value)
      ensures r.Err? && old(fetched) == map[] ==> accepted.Some? && validate(accepted.value).Err?
      ensures r.Err? && old(fetched) != map[] ==> old(CannotFinish(validate))
    {
      if fetched != map[] {
        r := FinishMerged(validate);
      } else if accepted.None? {
        r := Ok(None);
      } else {
        var again := validate(accepted.value);
        r := if again.Err? then Err(again.error) else Ok(Some(again.value));
      }
    }

    /** Why a fetch with staged documents cannot finish. */
    ghost predicate CannotFinish(validate: Snapshot -> Result<Snapshot, CoordinatorError>)
      reads this
    {
      || !Flattens() || !OneDocPerKey(Accepted() + Fetched()) || !HasRoot(Accepted() + Fetched())
      || exists s :: History(wire, vaultID, s) == Accepted() + Fetched() && validate(s).Err?
    }

    method FinishMerged(validate: Snapshot -> Result<Snapshot, CoordinatorError>)
        returns (r: Result<Option<Snapshot>, CoordinatorError>)
      requires Valid() && Honest(wire, vaultID, validate)
      modifies this
      ensures Valid()
      ensures r.Err? ==> accepted == old(accepted) && fetched == old(fetched) && old(CannotFinish(validate))
      ensures r.Ok? ==>
        && fetched == map[] && Accepted() == old(Accepted()) + old(Fetched())
        && r.value == accepted && accepted.Some? && Flattens() && OneDocPerKey(Accepted()) && HasRoot(Accepted())
        && Authenticated(wire, vaultID, validate, old(Accepted()) + old(Fetched()), accepted.value)
    {
      var candidate :- MergedCandidate();
      var validated := validate(candidate);
      if validated.Err? {
        return Err(validated.error);
      }
      accepted, fetched := Some(validated.value), map[];
      return Ok(accepted);
    }

    /** The snapshot of the accepted and the staged records together. */
    method MergedCandidate() returns (r: Result<Snapshot, CoordinatorError>)
      requires Valid()
      ensures r.Ok? <==> Flattens() && OneDocPerKey(Accepted() + Fetched()) && HasRoot(Accepted() + Fetched())
      ensures r.Ok? ==>
        && RecordsFor(wire, vaultID, r.value).Ok?
        && History(wire, vaultID, r.value) == Accepted() + Fetched()
    {
      var known :- AcceptedRecords();
      var w := wire;
      var merged :- MergeSame(w, known, fetched);
      var values := ListValues(merged);
      var candidate := ReadSnapshot(w, vaultID, values);
      CandidateOutcome(w, vaultID, merged, values);
      if candidate.Err? {
        return Err(CodecFailure(candidate.error));
      }
      return Ok(candidate.value);
    }

    /** The local snapshot can be flattened and contradicts nothing accepted. */
    ghost predicate Offers(local: Result<Snapshot, CoordinatorError>)
      reads this
    {
      && local.Ok? && RecordsFor(wire, vaultID, local.value).Ok? && Flattens()
      && OneDocPerKey(Accepted() + History(wire, vaultID, local.value))
    }

    /** The records of the local snapshot whose documents are not accepted yet, each once. */
    ghost predicate AdditionsOf(local: Result<Snapshot, CoordinatorError>, records: seq<Record>)
      reads this
    {
      && Offers(local) && AllDecode(wire, records) && Resolver.DistinctIds(records)
      && Docs(wire, records) == History(wire, vaultID, local.value) - Accepted()
      && forall q :: q in records ==> q in RecordsFor(wire, vaultID, local.value).value
    }

    /** The local records that are not part of the accepted history yet; a changed one is refused. */
    method OutboundRecords(local: Result<Snapshot, CoordinatorError>) returns (r: Result<seq<Record>, CoordinatorError>)
      requires Valid()
      ensures r.Ok? <==> Offers(local)
      ensures r.Ok? ==> AdditionsOf(local, r.value) && forall q :: q in r.value ==> Owns(q) && q.tag.None?
    {
      if local.Err? {
        return Err(local.error);
      }
      var flat := BuildRecords(wire, vaultID, local.value);
      if flat.Err? {
        return Err(CodecFailure(flat.error));
      }
      SnapshotRecords(wire, vaultID, local.value);
      var known :- AcceptedRecords();
      r := Additions(wire, known, flat.value);
    }

    /** The documents of the local snapshot, as far as the daemon delivers one. */
    ghost function LocalDocs(local: Result<Snapshot, CoordinatorError>): set<Doc> {
      match local
      case Ok(s) => History(wire, vaultID, s)
      case Err(_) => {}
    }

    /** Why the additions are not sent, not accepted, or not taken into the history after that. */
    ghost predicate AdditionsFail(records: seq<Record>, cloud: Cloud, server: Server,
        validate: Snapshot -> Result<Snapshot, CoordinatorError>)
      reads this
    {
      || |records| > 250
      || (records != [] && !AcceptedBy(wire, vaultID, cloud, server, records))
      || NotTaken(records, validate)
    }

    ghost predicate NotTaken(records: seq<Record>, validate: Snapshot -> Result<Snapshot, CoordinatorError>)
      reads this
    {
      var docs := Accepted() + (Fetched() + Docs(wire, records));
      || !OneDocPerKey(docs) || !HasRoot(docs)
      || (fetched == map[] && records == [] && accepted.Some? && validate(accepted.value).Err?)
      || exists s :: History(wire, vaultID, s) == docs && validate(s).Err?
    }

    /** Why nothing is published. */
    ghost predicate CannotPublish(local: Result<Snapshot, CoordinatorError>, cloud: Cloud, server: Server,
        validate: Snapshot -> Result<Snapshot, CoordinatorError>)
      reads this
    {
      !Offers(local) || exists records :: AdditionsOf(local, records) && AdditionsFail(records, cloud, server, validate)
    }

    /**
     The lifecycle half of a manual sync: send the local additions as one batch, stage them as fetched once the
     batch is accepted, finish. On success the accepted history is exactly the old one plus the staged and
     the local documents, and each local document was accepted before or is on the server. It fails only for a
     reason that can be named.
     */
    method Publish(local: Result<Snapshot, CoordinatorError>, cloud: Cloud, server: Server,
                   validate: Snapshot -> Result<Snapshot, CoordinatorError>)
      returns (r: Result<Option<Snapshot>, CoordinatorError>, server': Server)
      requires Valid() && Honest(wire, vaultID, validate) && HonestCloud(cloud) && WellFiled(server)
      modifies this
      ensures Valid()
      ensures PublishStep(wire, server, server', old(Stands()), Stands(), LocalDocs(local))
      ensures r.Ok? ==>
        && local.Ok? && fetched == map[]
          && Accepted() == old(Accepted()) + old(Fetched()) + History(wire, vaultID, local.value)
        && History(wire, vaultID, local.value) <= old(Accepted()) + ServerDocs(wire, server')
        && Judged(accepted, validate, r.value)
      ensures r.Err? ==>
        accepted == old(accepted) && old(Fetched()) <= Fetched() <= old(Fetched()) + LocalDocs(local)
      ensures r.Err? ==> old(CannotPublish(local, cloud, server, validate))
    {
      server' := server;
      var records := OutboundRecords(local);
      if records.Err? {
        return Err(records.error), server;
      }
      ghost var additions := Docs(wire, records.value);
      r, server' := PublishAdditions(records.value, cloud, server, validate);
      AddAll(old(Accepted()), old(Fetched()), History(wire, vaultID, local.value), additions);
      Published(wire, server, server', old(Stands()), Stands(), LocalDocs(local), records.value, r.Ok?);
    }

    /** Sends the additions, stages them once they are accepted, and finishes. */
    method PublishAdditions(records: seq<Record>, cloud: Cloud, server: Server,
                            validate: Snapshot -> Result<Snapshot, CoordinatorError>)
      returns (r: Result<Option<Snapshot>, CoordinatorError>, server': Server)
      requires Valid() && Honest(wire, vaultID, validate) && HonestCloud(cloud) && WellFiled(server) && Flattens()
      requires AllDecode(wire, records) && forall q :: q in records ==> Owns(q) && q.tag.None?
      modifies this
      ensures Valid()
      ensures server' == server || (AllSendable(wire, records) && Writes(server, server', records, true))
      ensures r.Ok? ==> Docs(wire, records) <= ServerDocs(wire, server')
      ensures r.Ok? ==> Taken(old(Stands()), Docs(wire, records)) && Judged(accepted, validate, r.value)
      ensures r.Err? ==> accepted == old(accepted) && old(AdditionsFail(records, cloud, server, validate))
      ensures r.Err? ==>
        && old(Fetched()) <= Fetched() <= old(Fetched()) + Docs(wire, records)
        && (Fetched() == old(Fetched()) || Docs(wire, records) <= ServerDocs(wire, server'))
    {
      if |records| > Planner.RECORD_LIMIT {
        return Err(ExceedsRecordLimit), server;
      }
      var sent;
      sent, server' := SendAdditions(cloud, server, records);
      if !sent {
        return Err(NotDelivered), server';
      }
      r := TakeAdditions(records, validate);
    }

    /** The documents joined the accepted history, with everything staged. */
    ghost predicate Taken(h: Standing, docs: set<Doc>)
      reads this
    {
      fetched == map[] && Accepted() == h.accepted + (h.fetched + docs)
    }

    method TakeAdditions(records: seq<Record>, validate: Snapshot -> Result<Snapshot, CoordinatorError>)
      returns (r: Result<Option<Snapshot>, CoordinatorError>)
      requires Valid() && Honest(wire, vaultID, validate) && Flattens()
      requires AllDecode(wire, records) && forall q :: q in records ==> Owns(q)
      modifies this
      ensures Valid()
      ensures r.Ok? ==> Taken(old(Stands()), Docs(wire, records)) && Judged(accepted, validate, r.value)
      ensures r.Err? ==> accepted == old(accepted) && old(NotTaken(records, validate))
      ensures r.Err? ==> old(Fetched()) <= Fetched() <= old(Fetched()) + Docs(wire, records)
    {
      var staged := StageOwn(records);
      Overlap(Accepted(), old(Fetched()), Docs(wire, records));
      if staged.Err? {
        return Err(staged.error);
      }
      assert records != [] ==> DocOr(wire, records[0]) in Fetched();
      r := FinishFetch(validate);
    }

    /** One atomic batch, if there is anything to send. */
    method SendAdditions(cloud: Cloud, server: Server, records: seq<Record>) returns (sent: bool, server': Server)
      requires HonestCloud(cloud) && WellFiled(server) && forall q :: q in records ==> Owns(q) && q.tag.None?
      ensures server' == server || (AllSendable(wire, records) && Writes(server, server', records, true))
      ensures sent ==> Docs(wire, records) <= ServerDocs(wire, server')
      ensures sent <==> records == [] || AcceptedBy(wire, vaultID, cloud, server, records)
      ensures server' == if records == [] then server else cloud.serve(server, Resolver.BootstrapPhase(records)).0
    {
      if records == [] {
        return true, server;
      }
      sent, server' := Deliver(wire, vaultID, cloud, server, records);
    }

    method StageOwn(records: seq<Record>) returns (r: Result<(), CoordinatorError>)
      requires Valid() && forall q :: q in records ==> Owns(q)
      modifies this`fetched
      ensures Valid() && StageStep(old(Stands()), Stands(), Docs(wire, records))
      ensures r.Ok? <==> AllDecode(wire, records) && OneDocPerKey(old(Fetched()) + Docs(wire, records))
      ensures r.Ok? ==> Fetched() == old(Fetched()) + Docs(wire, records)
    {
      OwnedLifecycle(records);
      var staged := StageFetched(records, []);
      return if staged.Ok? then Ok(()) else Err(staged.error);
    }

    /**
     A remote snapshot is readable when it agrees with the local records it shares, and any newer
     generation was activated at once.
     */
    method EnsureReadable(local: Result<Snapshot, CoordinatorError>, remote: Snapshot,
        activate: Snapshot -> Result<Activation, CoordinatorError>)
      returns (r: Result<(), CoordinatorError>)
      requires Valid()
      ensures r.Ok? <==> ReadableSnapshot(wire, vaultID, local, remote, activate)
      ensures local.Ok? && RecordsFor(wire, vaultID, local.value).Ok? && RecordsFor(wire, vaultID, remote).Ok? ==>
        if !OneDocPerKey(History(wire, vaultID, local.value) + History(wire, vaultID, remote))
        then r == Err(LifecycleRecordChanged)
        else r.Err? ==> r.error == (if activate(remote).Ok? then ActivationDidNotApply else activate(remote).error)
    {
      if local.Err? {
        return Err(local.error);
      }
      var localRecords :- FlatRecords(local.value);
      var remoteRecords :- FlatRecords(remote);
      var w := wire;
      MergeMeaning(w, localRecords, remoteRecords);
      var agree := AgreeOnShared((a, b) => Equivalent(w, a, b) == Ok(true), localRecords, remoteRecords);
      if !agree {
        return Err(LifecycleRecordChanged);
      }
      if Latest(remote.generations) <= Latest(local.value.generations) {
        return Ok(());
      }
      var answer := activate(remote);
      if answer.Err? {
        return Err(answer.error);
      }
      match answer.value {
        case Ready(activeVault, keyGeneration, restartRequired) =>
          if activeVault == remote.vaultID && keyGeneration >= Latest(remote.generations) && !restartRequired {
            return Ok(());
          }
        case MergeRequired =>
      }
      return Err(ActivationDidNotApply);
    }

    method ResetTransportCache()
      requires Valid()
      modifies this
      ensures Valid() && accepted == None && fetched == map[]
    {
      accepted, fetched := None, map[];
    }

    /** One lifecycle record of a page: validated, compared with the staged one, staged. */
    method StageOne(record: Record) returns (r: Result<(), CoordinatorError>)
      requires Valid()
      modifies this`fetched
      ensures Valid()
      ensures r.Ok? <==> !Refused(wire, old(fetched), record)
      ensures r.Ok? ==> Fetched() == old(Fetched()) + {DocOr(wire, record)}
      ensures r.Err? ==> fetched == old(fetched)
    {
      var decoded := wire.decode(record);
      if decoded.Err? {
        return Err(CodecFailure(decoded.error));
      }
      if record.id in fetched {
        EquivalentMeans(wire, fetched[record.id], record);
        if Equivalent(wire, fetched[record.id], record) != Ok(true) {
          return Err(LifecycleRecordChanged);
        }
      }
      FileOne(wire, fetched, record);
      fetched := fetched[record.id := record];
      return Ok(());
    }
  }

  datatype Activation = Ready(vaultID: string, keyGeneration: nat, restartRequired: bool) | MergeRequired

  /** The newest generation a list of generation documents names; 0 when there is none. */
  function Latest(generations: seq<Document>): (g: nat)
    ensures forall x :: x in generations ==> RouteNumber(x) <= g
    ensures g == 0 || exists x :: x in generations && RouteNumber(x) == g
  {
    if generations == [] then 0
    else
      var rest := Latest(generations[1..]);
      assert forall x :: x in generations <==> x == generations[0] || x in generations[1..];
      if RouteNumber(generations[0]) > rest then RouteNumber(generations[0]) else rest
  }

  lemma AddAll(accepted: set<Doc>, fetched: set<Doc>, local: set<Doc>, additions: set<Doc>)
    requires additions == local - accepted
    ensures accepted + (fetched + additions) == accepted + fetched + local
    ensures additions == {} ==> local <= accepted
  {
  }

  /** A contradiction among some documents is one among more. */
  lemma Overlap(accepted: set<Doc>, fetched: set<Doc>, additions: set<Doc>)
    ensures OneDocPerKey(accepted + (fetched + additions)) ==> OneDocPerKey(fetched + additions)
  {
  }

  lemma {:induction false} OwnedLifecycle(records: seq<Record>)
    requires forall r :: r in records ==> Owns(r)
    ensures Lifecycle(records) == records
    decreases |records|
  {
    if records != [] {
      var n := |records| - 1;
      assert records[n] in records;
      OwnedLifecycle(records[..n]);
    }
  }

  method AgreeOnShared(same: (Record, Record) -> bool, left: map<RecordId, Record>, right: map<RecordId, Record>)
      returns (ok: bool)
    ensures ok <==> forall id :: id in left && id in right ==> same(left[id], right[id])
  {
    var pending := left.Keys * right.Keys;
    while pending != {}
      invariant pending <= left.Keys * right.Keys
      invariant forall id :: id in left && id in right && id !in pending ==> same(left[id], right[id])
      decreases pending
    {
      var id :| id in pending;
      if !same(left[id], right[id]) {
        return false;
      }
      pending := pending - {id};
    }
    return true;
  }

  function NotIn(known: map<RecordId, Record>, records: seq<Record>): seq<Record> {
    if records == [] then []
    else
      var n := |records| - 1;
      NotIn(known, records[..n]) + if records[n].id in known then [] else [records[n]]
  }

  lemma {:induction false} NotInMembers(known: map<RecordId, Record>, records: seq<Record>)
    ensures forall r :: r in NotIn(known, records) <==> r in records && r.id !in known
    decreases |records|
  {
    if records != [] {
      var n := |records| - 1;
      NotInMembers(known, records[..n]);
      assert records == records[..n] + [records[n]];
    }
  }

  lemma {:induction false} NotInDistinct(known: map<RecordId, Record>, records: seq<Record>)
    requires Distinct(Map(RecordName, records))
    ensures Resolver.DistinctIds(NotIn(known, records))
    decreases |records|
  {
    if records != [] {
      var n := |records| - 1;
      var init, last := records[..n], records[n];
      assert records == init + [last];
      LastIsNew(init, last);
      NotInDistinct(known, init);
      NotInMembers(known, init);
      forall r | r in NotIn(known, init) ensures r.id != last.id {
        var i :| 0 <= i < |init| && init[i] == r;
        assert Map(RecordName, init)[i] == r.id.name;
      }
    }
  }

  /** Every record already known carries the known document. */
  ghost predicate Known(w: Wire, known: map<RecordId, Record>, records: seq<Record>) {
    forall r :: r in records && r.id in known ==> DocOr(w, known[r.id]) == DocOr(w, r)
  }

  lemma KnownMeans(w: Wire, known: map<RecordId, Record>, records: seq<Record>)
    requires WireLaw(w) && Filed(w, known) && AllDecode(w, records) && Distinct(Map(RecordName, records))
    ensures Known(w, known, records) <==> OneDocPerKey(DocsIn(w, known) + Docs(w, records))
  {
    var m := Resolver.SavedById(records);
    FiledDocs(w, m, records);
    AgreeMeans(w, known, m);
    forall r | r in records ensures r.id in m && m[r.id] == r {
      FilesEach(m, records, r);
    }
  }

  lemma NewDocs(w: Wire, known: map<RecordId, Record>, records: seq<Record>)
    requires WireLaw(w) && Filed(w, known) && AllDecode(w, records) && Known(w, known, records)
    ensures AllDecode(w, NotIn(known, records)) && Docs(w, NotIn(known, records)) == Docs(w, records) - DocsIn(w, known)
  {
    var added := NotIn(known, records);
    NotInMembers(known, records);
    forall d | d in Docs(w, added) ensures d in Docs(w, records) && d !in DocsIn(w, known) {
      var r :| r in added && DocOr(w, r) == d;
      forall id | id in known ensures DocOr(w, known[id]) != d {
        SameIdSameKey(w, r, known[id]);
      }
    }
    forall d | d in Docs(w, records) && d !in DocsIn(w, known) ensures d in Docs(w, added) {
      var r :| r in records && DocOr(w, r) == d;
      assert r in added;
    }
  }

  /** Keeps the records not known yet, unless a known one changed. */
  method AppendNew(same: (Record, Record) -> bool, known: map<RecordId, Record>, records: seq<Record>)
      returns (r: Result<seq<Record>, CoordinatorError>)
    ensures r.Ok? <==> forall q :: q in records && q.id in known ==> same(q, known[q.id])
    ensures r.Ok? ==> r.value == NotIn(known, records)
  {
    var additions: seq<Record> := [];
    for i := 0 to |records|
      invariant additions == NotIn(known, records[..i])
      invariant forall k :: 0 <= k < i && records[k].id in known ==> same(records[k], known[records[k].id])
    {
      var record := records[i];
      assert record in records && records[..i + 1][..i] == records[..i];
      if record.id !in known {
        additions := additions + [record];
      } else if !same(record, known[record.id]) {
        return Err(LifecycleRecordChanged);
      }
    }
    assert records[..|records|] == records;
    return Ok(additions);
  }

  lemma KnownBySame(w: Wire, known: map<RecordId, Record>, records: seq<Record>)
    requires WireLaw(w) && Filed(w, known) && AllDecode(w, records)
    ensures Known(w, known, records)
      <==> forall q :: q in records && q.id in known ==> Equivalent(w, q, known[q.id]) == Ok(true)
  {
    forall q | q in records && q.id in known
      ensures (Equivalent(w, q, known[q.id]) == Ok(true)) == (DocOr(w, known[q.id]) == DocOr(w, q))
    {
      EquivalentMeans(w, q, known[q.id]);
    }
  }

  method Additions(w: Wire, known: map<RecordId, Record>, records: seq<Record>)
      returns (r: Result<seq<Record>, CoordinatorError>)
    requires WireLaw(w) && Filed(w, known) && AllDecode(w, records) && Distinct(Map(RecordName, records))
    ensures r.Ok? <==> OneDocPerKey(DocsIn(w, known) + Docs(w, records))
    ensures r.Ok? ==> AllDecode(w, r.value) && Docs(w, r.value) == Docs(w, records) - DocsIn(w, known)
    ensures r.Ok? ==> Resolver.DistinctIds(r.value) && forall q :: q in r.value ==> q in records
  {
    r := AppendNew((a, b) => Equivalent(w, a, b) == Ok(true), known, records);
    KnownBySame(w, known, records);
    KnownMeans(w, known, records);
    if r.Ok? {
      NewDocs(w, known, records);
      NotInMembers(known, records);
      NotInDistinct(known, records);
    }
  }

  lemma AgreeBySame(w: Wire, m: map<RecordId, Record>, n: map<RecordId, Record>)
    requires WireLaw(w) && Filed(w, m) && Filed(w, n)
    ensures Agree(w, m, n) <==> forall id :: id in m && id in n ==> Equivalent(w, m[id], n[id]) == Ok(true)
  {
    forall id | id in m && id in n
      ensures (Equivalent(w, m[id], n[id]) == Ok(true)) == (DocOr(w, m[id]) == DocOr(w, n[id])) {
      EquivalentMeans(w, m[id], n[id]);
    }
  }

  method MergeSame(w: Wire, known: map<RecordId, Record>, fetched: map<RecordId, Record>)
      returns (r: Result<map<RecordId, Record>, CoordinatorError>)
    requires WireLaw(w) && Filed(w, known) && Filed(w, fetched)
    ensures r.Ok? <==> OneDocPerKey(DocsIn(w, known) + DocsIn(w, fetched))
    ensures r.Ok? ==> Filed(w, r.value) && DocsIn(w, r.value) == DocsIn(w, known) + DocsIn(w, fetched)
  {
    MergeMeaning(w, known, fetched);
    r := MergeFetched((a, b) => Equivalent(w, a, b) == Ok(true), known, fetched);
  }

  lemma MergeMeaning(w: Wire, known: map<RecordId, Record>, fetched: map<RecordId, Record>)
    requires WireLaw(w) && Filed(w, known) && Filed(w, fetched)
    ensures (forall id :: id in known && id in fetched ==> Equivalent(w, known[id], fetched[id]) == Ok(true))
       <==> OneDocPerKey(DocsIn(w, known) + DocsIn(w, fetched))
    ensures OneDocPerKey(DocsIn(w, known) + DocsIn(w, fetched)) ==>
      Filed(w, known + fetched) && DocsIn(w, known + fetched) == DocsIn(w, known) + DocsIn(w, fetched)
  {
    AgreeBySame(w, known, fetched);
    AgreeMeans(w, known, fetched);
    if Agree(w, known, fetched) {
      MergedFiled(w, known, fetched);
    }
  }

  lemma MergedFiled(w: Wire, known: map<RecordId, Record>, fetched: map<RecordId, Record>)
    requires Filed(w, known) && Filed(w, fetched) && Agree(w, known, fetched)
    ensures Filed(w, known + fetched) && DocsIn(w, known + fetched) == DocsIn(w, known) + DocsIn(w, fetched)
  {
    DocsMerged(w, known, fetched);
  }

  ghost predicate Refused(w: Wire, m: map<RecordId, Record>, r: Record) {
    w.decode(r).Err? || (r.id in m && DocOr(w, m[r.id]) != DocOr(w, r))
  }

  lemma RefusedMeans(w: Wire, m: map<RecordId, Record>, before: set<Doc>, records: seq<Record>, i: nat)
    requires WireLaw(w) && i < |records| && Owns(records[i]) && Staged(w, before, m, records, i)
      && Refused(w, m, records[i])
    ensures !Stageable(w, before, records)
  {
    if w.decode(records[i]).Err? {
      UndecodableRefused(w, before, records, i);
    } else {
      ChangedRecordRefused(w, m, before, records, i);
    }
  }

  /** Staging ended at the first record that cannot be staged, with everything before it staged. */
  ghost predicate StoppedAt(w: Wire, before: set<Doc>, after: set<Doc>, records: seq<Record>) {
    exists i :: 0 <= i < |records| && Stageable(w, before, records[..i]) && !Stageable(w, before, records[..i + 1])
      && after == before + Docs(w, Lifecycle(records[..i]))
  }

  lemma RefusedHere(w: Wire, m: map<RecordId, Record>, before: set<Doc>, records: seq<Record>, i: nat)
    requires WireLaw(w) && i < |records| && Owns(records[i]) && Staged(w, before, m, records, i)
      && Refused(w, m, records[i])
    ensures StoppedAt(w, before, DocsIn(w, m), records)
  {
    var upto := records[..i + 1];
    assert upto[i] == records[i] && upto[..i] == records[..i];
    RefusedMeans(w, m, before, upto, i);
    FiledIsHistory(w, m);
    assert Stageable(w, before, records[..i]);
  }

  /** The first `i` records of a page are staged. */
  ghost predicate Staged(w: Wire, before: set<Doc>, m: map<RecordId, Record>, records: seq<Record>, i: nat)
    requires i <= |records|
  {
    && Filed(w, m) && AllDecode(w, Lifecycle(records[..i]))
    && DocsIn(w, m) == before + Docs(w, Lifecycle(records[..i]))
  }

  lemma StagedNothing(w: Wire, before: set<Doc>, m: map<RecordId, Record>, records: seq<Record>)
    requires Filed(w, m) && DocsIn(w, m) == before
    ensures Staged(w, before, m, records, 0)
  {
  }

  lemma SplitNext(records: seq<Record>, i: nat)
    requires i < |records|
    ensures Domain(records[..i + 1]) == Domain(records[..i]) + if Owns(records[i]) then [] else [records[i]]
    ensures Lifecycle(records[..i + 1]) == Lifecycle(records[..i]) + if Owns(records[i]) then [records[i]] else []
  {
    assert records[..i + 1] == records[..i] + [records[i]];
    SplitAppend(records[..i], records[i]);
  }

  lemma StagedNext(w: Wire, before: set<Doc>, m: map<RecordId, Record>, records: seq<Record>, i: nat)
    requires i < |records| && Filed(w, m) && AllDecode(w, Lifecycle(records[..i]))
      && (Owns(records[i]) ==> w.decode(records[i]).Ok?)
    requires DocsIn(w, m) == before + Docs(w, Lifecycle(records[..i])) + if Owns(records[i]) then {DocOr(w, records[i])}
      else {}
    ensures Staged(w, before, m, records, i + 1)
  {
    SplitNext(records, i);
    DocsAppend(w, Lifecycle(records[..i]), records[i]);
    assert Lifecycle(records[..i]) + [] == Lifecycle(records[..i]);
  }

  lemma StagedBounds(w: Wire, before: set<Doc>, m: map<RecordId, Record>, records: seq<Record>, i: nat)
    requires i <= |records| && Staged(w, before, m, records, i)
    ensures before <= DocsIn(w, m) <= before + DecodedDocs(w, Lifecycle(records))
  {
    LifecyclePrefix(records, i);
  }

  lemma StagedAll(w: Wire, before: set<Doc>, m: map<RecordId, Record>, records: seq<Record>)
    requires WireLaw(w) && Staged(w, before, m, records, |records|)
    ensures Stageable(w, before, records) && DocsIn(w, m) == before + Docs(w, Lifecycle(records))
    ensures before <= DocsIn(w, m) <= before + DecodedDocs(w, Lifecycle(records))
  {
    assert records[..|records|] == records;
    StagedBounds(w, before, m, records, |records|);
    FiledIsHistory(w, m);
  }
}
