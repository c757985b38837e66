/**
 When the outbound loop of a manual sync succeeds (CloudRecordSyncSession.swift:87-108): right after a fetch, with a
 server that answers in full, commits that can be encoded are all delivered, as commits or as conflict branches.
 */
module OutboundSuccess {
  import opened Prelude
  import opened Records
  import opened RecordCodec
  import opened Planner
  import opened Resolver
  import opened CloudServer
  import opened SyncProtocol
  import opened SyncTheorems
  import opened OutboundLoop
  import opened OutboundTheorems
  import opened Resending
  import opened Text

  // ----- names -----

  predicate IsPrefix(p: string) {
    p == "object" || p == "commit" || p == "revision" || p == "head"
  }

  lemma NamesDiffer(zone: string, p: string, x: string, q: string, y: string)
    requires IsPrefix(p) && IsPrefix(q) && (p != q || x != y)
    ensures IdFor(zone, p, x) != IdFor(zone, q, y)
  {
    var n, m := IdFor(zone, p, x).name, IdFor(zone, q, y).name;
    assert n[0] == p[0] && m[0] == q[0];
    if p == q {
      assert n[|p| + 1..] == x && m[|p| + 1..] == y;
    }
  }

  // ----- what is asked of the commits, the server and the cache -----

  ghost function HeadId(zone: string, rv: Revision): RecordId {
    IdFor(zone, "head", Lower(rv.entityID))
  }

  /** The commit can be encoded, fits one batch, and names each entity and revision once. */
  ghost predicate Encodable(zone: string, size: string -> nat, c: Commit) {
    && ImmutableRecords(zone, c).Ok? && 1 + 2 * |c.revisions| <= RECORD_LIMIT
    && (forall rv :: rv in c.revisions ==> AllUuids(rv.expectedHeads))
    && (forall i, j :: 0 <= i < j < |c.revisions| ==>
          && Lower(c.revisions[i].entityID) != Lower(c.revisions[j].entityID)
          && Lower(c.revisions[i].revisionID) != Lower(c.revisions[j].revisionID))
    && ContentAddressed(size, c) && forall a :: a in c.objects ==> ObjectRecord(zone, a).Ok?
  }

  ghost function ImmutableIds(zone: string, c: Commit): set<RecordId> {
    if ImmutableRecords(zone, c).Ok? then Ids(ImmutableRecords(zone, c).value) else {}
  }

  /** No two waiting commits name the same manifest or revision. */
  ghost predicate Separate(zone: string, outbox: seq<Commit>) {
    forall i, j :: 0 <= i < j < |outbox| ==> ImmutableIds(zone, outbox[i]) !! ImmutableIds(zone, outbox[j])
  }

  /** The cache knows the server's head of the entity, if any, and can read it. */
  ghost predicate HeadKnown(zone: string, st: Outbound, e: string) {
    && Agrees(FloriaNames(zone), st, e)
    && (e in st.heads ==> HeadRevision(zone, st.heads[e], e).Ok?)
  }

  /** The head to be replaced is there, or an earlier commit of its own brings it. */
  ghost predicate Available(zone: string, st: Outbound, i: nat, e: string)
    requires i < |st.outbox|
  {
    || IdFor(zone, "head", e) in st.server.records
    || exists j :: 0 <= j < i && Brings(st.outbox[j], e)
  }

  ghost predicate Brings(c: Commit, e: string) {
    |c.revisions| == 1 && Lower(c.revisions[0].entityID) == e
  }

  /** An object the server already has is exactly this one. */
  ghost predicate ObjectFine(zone: string, s: Server, a: ObjectAsset) {
    ObjectRecord(zone, a).Ok? &&
    var r := ObjectRecord(zone, a).value;
    r.id in s.records ==> Classify(zone, r, s.records[r.id]) == Ok(AlreadySaved)
  }

  /** Nothing stands in the way of delivering the outbox. */
  ghost predicate Clear(zone: string, size: string -> nat, st: Outbound) {
    && (forall c :: c in st.outbox ==> Encodable(zone, size, c) && ImmutableIds(zone, c) !! st.server.records.Keys)
    && Separate(zone, st.outbox)
    && (forall c, rv :: c in st.outbox && rv in c.revisions ==> HeadKnown(zone, st, Lower(rv.entityID)))
    && (forall i, rv :: 0 <= i < |st.outbox| && rv in st.outbox[i].revisions && rv.expectedHeads != [] ==>
          Available(zone, st, i, Lower(rv.entityID)))
    && (forall c, a :: c in st.outbox && a in c.objects ==> ObjectFine(zone, st.server, a))
  }

  // ----- the plan -----

  /** A planned head carries the revision and is one the server accepts. */
  ghost predicate GoodHead(zone: string, s: Server, rv: Revision, h: Record) {
    && h.id == HeadId(zone, rv) && Accepts(s, h)
    && Decode(zone, h) == Ok(DecodedHead(Lower(rv.entityID), Lower(rv.revisionID)))
  }

  ghost predicate GoodPlan(zone: string, s: Server, rv: Revision, p: Result<HeadPlan, CodecError>) {
    && p.Ok? && !p.value.FetchHead? && (p.value.SaveHead? ==> GoodHead(zone, s, rv, p.value.head))
    && (p.value.HeadInConflict? ==> HeadId(zone, rv) in s.records)
  }

  lemma HeadPlanned(zone: string, st: Outbound, rv: Revision)
    requires Tagged(st.server) && HeadKnown(zone, st, Lower(rv.entityID))
    requires IsUuid(rv.entityID) && IsUuid(rv.revisionID) && AllUuids(rv.expectedHeads)
    requires rv.expectedHeads != [] ==> HeadId(zone, rv) in st.server.records
    ensures GoodPlan(zone, st.server, rv, PlanHead(zone, rv, st.heads))
  {
    var e := Lower(rv.entityID);
    LowerUuid(rv.entityID);
    LowerUuid(rv.revisionID);
    assert FloriaNames(zone).headId(e) == HeadId(zone, rv);
    if rv.expectedHeads == [] {
      HeadRoundTrip(zone, e, Lower(rv.revisionID));
    } else if HeadRevision(zone, st.heads[e], e).value in ExpectedRevisions(rv) {
      UpdatedHeadDecodes(zone, st.heads[e], e, Lower(rv.revisionID));
    }
  }

  lemma RevisionUuids(zone: string, c: Commit, rv: Revision)
    requires ImmutableRecords(zone, c).Ok? && rv in c.revisions
    ensures IsUuid(rv.entityID) && IsUuid(rv.revisionID)
  {
    var i :| 0 <= i < |c.revisions| && c.revisions[i] == rv;
    assert RevisionRecord(zone, c.revisions[i]).Ok?;
  }

  /** The records of the commit, create-only ones first, with heads the server accepts. */
  ghost predicate GoodBatch(zone: string, s: Server, c: Commit, records: seq<Record>) {
    ImmutableRecords(zone, c).Ok? && Composed(zone, s, c, ImmutableRecords(zone, c).value, records)
  }

  ghost predicate Composed(zone: string, s: Server, c: Commit, immutable: seq<Record>, records: seq<Record>) {
    var n := |c.revisions|;
    && |immutable| == 1 + n && |records| == 1 + 2 * n && records[..1 + n] == immutable
    && forall i :: 0 <= i < n ==> HeadInPlace(zone, s, c, records, i)
  }

  ghost predicate HeadInPlace(zone: string, s: Server, c: Commit, records: seq<Record>, i: nat)
    requires i < |c.revisions| && |records| == 1 + 2 * |c.revisions|
  {
    GoodHead(zone, s, c.revisions[i], records[1 + |c.revisions| + i])
  }

  lemma RevisionsPlanned(zone: string, size: string -> nat, st: Outbound, c: Commit)
    requires Clear(zone, size, st) && Tagged(st.server) && st.outbox != [] && c == st.outbox[0]
    ensures forall rv :: rv in c.revisions ==> GoodPlan(zone, st.server, rv, PlanHead(zone, rv, st.heads))
  {
    assert c in st.outbox && Encodable(zone, size, c);
    forall rv | rv in c.revisions ensures GoodPlan(zone, st.server, rv, PlanHead(zone, rv, st.heads)) {
      RevisionUuids(zone, c, rv);
      assert HeadKnown(zone, st, Lower(rv.entityID));
      if rv.expectedHeads != [] {
        assert rv in st.outbox[0].revisions;
        assert Available(zone, st, 0, Lower(rv.entityID));
      }
      HeadPlanned(zone, st, rv);
    }
  }

  ghost predicate GoodPlans(zone: string, s: Server, c: Commit, plans: seq<HeadPlan>) {
    |plans| == |c.revisions| && forall i :: 0 <= i < |plans| ==> GoodPlan(zone, s, c.revisions[i], Ok(plans[i]))
  }

  lemma CommitPlanned(zone: string, s: Server, c: Commit, cached: map<string, Record>)
    requires ImmutableRecords(zone, c).Ok?
    requires forall rv :: rv in c.revisions ==> GoodPlan(zone, s, rv, PlanHead(zone, rv, cached))
    ensures var plan := CommitPlanFor(zone, c, cached);
      && plan.Ok? && !plan.value.NeedsHeadFetch?
      && (plan.value.Ready? ==> GoodBatch(zone, s, c, plan.value.records))
      && (plan.value.Conflict? ==> SomeHeadExists(zone, s, c))
  {
    var planHead := (revision: Revision) => PlanHead(zone, revision, cached);
    var n := |c.revisions|;
    var results := seq(n, i requires 0 <= i < n => planHead(c.revisions[i]));
    assert forall i :: 0 <= i < n ==> c.revisions[i] in c.revisions;
    var plans := Map((p: Result<HeadPlan, CodecError>) => if p.Ok? then p.value else FetchHead(""), results);
    forall i | 0 <= i < n
      ensures planHead(c.revisions[i]) == Ok(plans[i]) && GoodPlan(zone, s, c.revisions[i], Ok(plans[i])) {
      assert GoodPlan(zone, s, c.revisions[i], PlanHead(zone, c.revisions[i], cached));
    }
    PlansAre(planHead, c.revisions, plans);
    NothingToFetch(zone, s, c, plans);
    if HeadsInConflict(plans) == {} {
      ReadyBatch(zone, s, c, plans);
    } else {
      ConflictingHead(zone, s, c, plans);
    }
  }

  lemma NothingToFetch(zone: string, s: Server, c: Commit, plans: seq<HeadPlan>)
    requires GoodPlans(zone, s, c, plans)
    ensures HeadsToFetch(plans) == {}
  {
    forall p | p in plans ensures !p.FetchHead? {
      var i :| 0 <= i < |plans| && plans[i] == p;
      assert GoodPlan(zone, s, c.revisions[i], Ok(plans[i]));
    }
  }

  lemma ConflictingHead(zone: string, s: Server, c: Commit, plans: seq<HeadPlan>)
    requires GoodPlans(zone, s, c, plans) && HeadsInConflict(plans) != {}
    ensures SomeHeadExists(zone, s, c)
  {
    var p :| p in plans && p.HeadInConflict?;
    var i :| 0 <= i < |plans| && plans[i] == p;
    assert GoodPlan(zone, s, c.revisions[i], Ok(plans[i])) && c.revisions[i] in c.revisions;
  }

  /** The entity of some revision of the commit has a head already. */
  ghost predicate SomeHeadExists(zone: string, s: Server, c: Commit) {
    exists rv :: rv in c.revisions && HeadId(zone, rv) in s.records
  }

  lemma ReadyBatch(zone: string, s: Server, c: Commit, plans: seq<HeadPlan>)
    requires ImmutableRecords(zone, c).Ok? && GoodPlans(zone, s, c, plans)
    requires HeadsInConflict(plans) == {} && HeadsToFetch(plans) == {}
    ensures GoodBatch(zone, s, c, ImmutableRecords(zone, c).value + HeadsToSave(plans))
  {
    QuietPlans(plans);
    AllSaved(plans);
    forall i | 0 <= i < |plans| ensures GoodHead(zone, s, c.revisions[i], HeadsToSave(plans)[i]) {
      assert plans[i] in plans && GoodPlan(zone, s, c.revisions[i], Ok(plans[i]));
    }
    BatchOfParts(zone, s, c, ImmutableRecords(zone, c).value, HeadsToSave(plans));
  }

  lemma BatchOfParts(zone: string, s: Server, c: Commit, immutable: seq<Record>, heads: seq<Record>)
    requires ImmutableRecords(zone, c) == Ok(immutable) && |heads| == |c.revisions|
    requires forall i :: 0 <= i < |heads| ==> GoodHead(zone, s, c.revisions[i], heads[i])
    ensures GoodBatch(zone, s, c, immutable + heads)
  {
    ImmutableParts(zone, c, immutable);
    ComposedOfParts(zone, s, c, immutable, heads);
  }

  lemma ComposedOfParts(zone: string, s: Server, c: Commit, immutable: seq<Record>, heads: seq<Record>)
    requires |immutable| == 1 + |c.revisions| && |heads| == |c.revisions|
    requires forall i :: 0 <= i < |heads| ==> GoodHead(zone, s, c.revisions[i], heads[i])
    ensures Composed(zone, s, c, immutable, immutable + heads)
  {
    var records, n := immutable + heads, |c.revisions|;
    assert records[..1 + n] == immutable;
    forall i | 0 <= i < n ensures HeadInPlace(zone, s, c, records, i) {
      HeadPlaced(zone, s, c, records, i, heads[i]);
    }
  }

  lemma HeadPlaced(zone: string, s: Server, c: Commit, records: seq<Record>, i: nat, h: Record)
    requires i < |c.revisions| && |records| == 1 + 2 * |c.revisions| && records[1 + |c.revisions| + i] == h
    requires GoodHead(zone, s, c.revisions[i], h)
    ensures HeadInPlace(zone, s, c, records, i)
  {
  }

  // ----- what the plan sends -----

  ghost predicate NewRecords(zone: string, s: Server, records: seq<Record>) {
    DistinctIds(records) && forall r :: r in records ==> Accepts(s, r) && Decode(zone, r).Ok?
  }

  lemma ImmutableShape(zone: string, bootstrapMatches: (Record, Record) -> Result<bool, CodecError>, c: Commit)
    requires ImmutableRecords(zone, c).Ok?
    ensures var immutable := ImmutableRecords(zone, c).value;
      && |immutable| == 1 + |c.revisions| && immutable[0].id == IdFor(zone, "commit", Lower(c.commitID))
      && (forall i :: 0 <= i < |c.revisions| ==>
            immutable[1 + i].id == IdFor(zone, "revision", Lower(c.revisions[i].revisionID)))
      && forall r :: r in immutable ==>
           r.tag.None? && Decode(zone, r).Ok? && r.kind != HeadType && r.kind != ObjectType
  {
    var immutable := ImmutableRecords(zone, c).value;
    FloriaImmutableLaw(zone, bootstrapMatches, c);
    ImmutableParts(zone, c, immutable);
    CommitName(zone, c, immutable[0]);
    forall i | 0 <= i < |c.revisions|
      ensures immutable[1 + i].id == IdFor(zone, "revision", Lower(c.revisions[i].revisionID)) {
      RevisionName(zone, c.revisions[i], immutable[1 + i]);
    }
  }

  lemma CommitName(zone: string, c: Commit, r: Record)
    requires CommitRecord(zone, c) == Ok(r)
    ensures r.id == IdFor(zone, "commit", Lower(c.commitID))
  {
  }

  lemma RevisionName(zone: string, rv: Revision, r: Record)
    requires RevisionRecord(zone, rv) == Ok(r)
    ensures r.id == IdFor(zone, "revision", Lower(rv.revisionID))
  {
  }

  /** What an id in a batch of the commit is made of. */
  ghost function Prefix(c: Commit, i: nat): string {
    if i == 0 then "commit" else if i <= |c.revisions| then "revision" else "head"
  }

  ghost function Stable(c: Commit, i: nat): string
    requires i <= 2 * |c.revisions|
  {
    if i == 0 then Lower(c.commitID)
    else if i <= |c.revisions| then Lower(c.revisions[i - 1].revisionID)
    else Lower(c.revisions[i - 1 - |c.revisions|].entityID)
  }

  lemma NamedDistinct(zone: string, size: string -> nat, c: Commit, records: seq<Record>)
    requires Encodable(zone, size, c) && |records| <= 1 + 2 * |c.revisions|
    requires forall i :: 0 <= i < |records| ==> records[i].id == IdFor(zone, Prefix(c, i), Stable(c, i))
    ensures DistinctIds(records)
  {
    forall i, j | 0 <= i < j < |records| ensures records[i].id != records[j].id {
      NamesDiffer(zone, Prefix(c, i), Stable(c, i), Prefix(c, j), Stable(c, j));
    }
  }

  /** The record has its place in a batch of the commit, and the server accepts it. */
  ghost predicate InPlace(zone: string, s: Server, c: Commit, i: nat, r: Record) {
    && i <= 2 * |c.revisions| && r.id == IdFor(zone, Prefix(c, i), Stable(c, i))
    && Accepts(s, r) && Decode(zone, r).Ok?
  }

  lemma ImmutableInPlace(zone: string, bootstrapMatches: (Record, Record) -> Result<bool, CodecError>, s: Server,
      c: Commit, i: nat)
    requires ImmutableRecords(zone, c).Ok? && i <= |c.revisions| && ImmutableIds(zone, c) !! s.records.Keys
    ensures |ImmutableRecords(zone, c).value| == 1 + |c.revisions|
    ensures InPlace(zone, s, c, i, ImmutableRecords(zone, c).value[i])
  {
    var immutable := ImmutableRecords(zone, c).value;
    ImmutableShape(zone, bootstrapMatches, c);
    assert i > 0 ==> immutable[1 + (i - 1)].id == IdFor(zone, "revision", Lower(c.revisions[i - 1].revisionID));
    assert immutable[i] in immutable && immutable[i].id in ImmutableIds(zone, c);
  }

  lemma AllInPlace(zone: string, size: string -> nat, s: Server, c: Commit, records: seq<Record>)
    requires Encodable(zone, size, c) && |records| <= 1 + 2 * |c.revisions|
    requires forall i :: 0 <= i < |records| ==> InPlace(zone, s, c, i, records[i])
    ensures NewRecords(zone, s, records)
  {
    NamedDistinct(zone, size, c, records);
    forall r | r in records ensures Accepts(s, r) && Decode(zone, r).Ok? {
      var i :| 0 <= i < |records| && records[i] == r;
      assert InPlace(zone, s, c, i, records[i]);
    }
  }

  lemma ImmutableIsNew(zone: string, bootstrapMatches: (Record, Record) -> Result<bool, CodecError>,
      size: string -> nat, s: Server, c: Commit)
    requires Encodable(zone, size, c) && ImmutableIds(zone, c) !! s.records.Keys
    ensures NewRecords(zone, s, ImmutableRecords(zone, c).value)
  {
    var immutable := ImmutableRecords(zone, c).value;
    ImmutableShape(zone, bootstrapMatches, c);
    forall i | 0 <= i < |immutable| ensures InPlace(zone, s, c, i, immutable[i]) {
      ImmutableInPlace(zone, bootstrapMatches, s, c, i);
    }
    AllInPlace(zone, size, s, c, immutable);
  }

  lemma ComposedInPlace(zone: string, s: Server, c: Commit, immutable: seq<Record>, records: seq<Record>, i: nat)
    requires Composed(zone, s, c, immutable, records) && i < |records|
    requires i < |immutable| ==> InPlace(zone, s, c, i, immutable[i])
    ensures InPlace(zone, s, c, i, records[i])
  {
    var n := |c.revisions|;
    if i <= n {
      assert records[i] == records[..1 + n][i];
    } else {
      ComposedHead(zone, s, c, immutable, records, i);
    }
  }

  lemma BatchIsNew(zone: string, bootstrapMatches: (Record, Record) -> Result<bool, CodecError>, size: string -> nat,
      s: Server, c: Commit, records: seq<Record>)
    requires Encodable(zone, size, c) && ImmutableIds(zone, c) !! s.records.Keys && GoodBatch(zone, s, c, records)
    ensures NewRecords(zone, s, records)
  {
    var immutable := ImmutableRecords(zone, c).value;
    forall i | 0 <= i < |records| ensures InPlace(zone, s, c, i, records[i]) {
      if i < |immutable| {
        ImmutableInPlace(zone, bootstrapMatches, s, c, i);
      }
      ComposedInPlace(zone, s, c, immutable, records, i);
    }
    AllInPlace(zone, size, s, c, records);
  }

  // ----- objects -----

  ghost predicate DistinctDigests(objects: seq<ObjectAsset>) {
    forall i, j :: 0 <= i < j < |objects| ==> objects[i].digest != objects[j].digest
  }

  lemma {:induction false} AddedDistinct(objects: seq<ObjectAsset>, more: seq<ObjectAsset>)
    requires DistinctDigests(objects)
    ensures DistinctDigests(AddObjects(objects, more))
    decreases |more|
  {
    if more != [] {
      AddedDistinct(
        if exists a :: a in objects && a.digest == more[0].digest then objects else objects + [more[0]], more[1..]);
    }
  }

  lemma {:induction false} ObjectsDistinct(commits: seq<Commit>)
    ensures DistinctDigests(ObjectsOf(commits))
    decreases |commits|
  {
    if commits != [] {
      var n := |commits| - 1;
      ObjectsDistinct(commits[..n]);
      AddedDistinct(ObjectsOf(commits[..n]), commits[n].objects);
    }
  }

  lemma {:induction false} MissingDistinct(objects: seq<ObjectAsset>, verified: set<string>)
    requires DistinctDigests(objects)
    ensures DistinctDigests(MissingObjects(objects, verified))
    decreases |objects|
  {
    if objects != [] {
      MissingDistinct(objects[1..], verified);
      var rest := MissingObjects(objects[1..], verified);
      forall j | 0 <= j < |rest| ensures rest[j].digest != objects[0].digest {
        assert rest[j] in rest;
        var i :| 0 <= i < |objects[1..]| && objects[1..][i] == rest[j];
        assert objects[1 + i] == rest[j];
      }
    }
  }

  lemma {:induction false} ObjectRecordsOk(zone: string, assets: seq<ObjectAsset>)
    requires forall a :: a in assets ==> ObjectRecord(zone, a).Ok?
    ensures ObjectRecords(zone, assets).Ok?
    decreases |assets|
  {
    if assets != [] {
      assert assets[0] in assets && forall a :: a in assets[1..] ==> a in assets;
      ObjectRecordsOk(zone, assets[1..]);
    }
  }

  lemma ObjectRecordsDistinct(zone: string, assets: seq<ObjectAsset>, records: seq<Record>)
    requires DistinctDigests(assets) && ObjectRecords(zone, assets) == Ok(records)
    ensures DistinctIds(records)
  {
    forall i, j | 0 <= i < j < |records| ensures records[i].id != records[j].id {
      assert records[i].id == IdFor(zone, "object", assets[i].digest)
        && records[j].id == IdFor(zone, "object", assets[j].digest);
      NamesDiffer(zone, "object", assets[i].digest, "object", assets[j].digest);
    }
  }

  /** The record of an object that some waiting commit needs. */
  ghost predicate WaitingObject(zone: string, outbox: seq<Commit>, r: Record) {
    exists c, a :: c in outbox && a in c.objects && ObjectRecord(zone, a) == Ok(r)
  }

  ghost predicate ObjectBatch(zone: string, outbox: seq<Commit>, records: seq<Record>) {
    DistinctIds(records) && forall r :: r in records ==> WaitingObject(zone, outbox, r)
  }

  lemma ObjectsPlanned(zone: string, size: string -> nat, outbox: seq<Commit>, verified: set<string>)
    requires forall c :: c in outbox ==> Encodable(zone, size, c)
    ensures var records := ObjectRecords(zone, FirstN(MissingObjects(BatchOf(outbox).objects, verified), RECORD_LIMIT));
      records.Ok? && ObjectBatch(zone, outbox, records.value)
  {
    var commits := FirstN(outbox, OUTBOUND_LIMIT);
    var missing := MissingObjects(ObjectsOf(commits), verified);
    var assets := FirstN(missing, RECORD_LIMIT);
    ObjectsOfLists(commits);
    ObjectsDistinct(commits);
    MissingDistinct(ObjectsOf(commits), verified);
    forall a | a in assets ensures exists c :: c in outbox && a in c.objects {
      assert a in missing && a in ObjectsOf(commits);
      var c :| c in commits && a in c.objects;
      assert c in outbox;
    }
    ObjectRecordsOk(zone, assets);
    ObjectRecordsDistinct(zone, assets, ObjectRecords(zone, assets).value);
    forall r | r in ObjectRecords(zone, assets).value ensures WaitingObject(zone, outbox, r) {
      var i :| 0 <= i < |assets| && ObjectRecords(zone, assets).value[i] == r;
      assert assets[i] in assets;
    }
  }

  // ----- the whole plan -----

  /** What the plan may say of an outbox that is not empty. */
  ghost predicate SendsWell(zone: string, st: Outbound, action: Action) {
    && st.outbox != []
    && match action
       case SaveObjects(records) => ObjectBatch(zone, st.outbox, records)
       case SaveCommit(commitID, records) =>
         && commitID == st.outbox[0].commitID
         && GoodBatch(zone, st.server, st.outbox[0], records) && NewRecords(zone, st.server, records)
       case SaveConflictBranch(commitID, _, records) =>
         && commitID == st.outbox[0].commitID
         && ImmutableRecords(zone, st.outbox[0]) == Ok(records) && NewRecords(zone, st.server, records)
         && SomeHeadExists(zone, st.server, st.outbox[0])
       case _ => false
  }

  lemma PlanSends(zone: string, bootstrapMatches: (Record, Record) -> Result<bool, CodecError>, size: string -> nat,
      st: Outbound)
    requires Clear(zone, size, st) && Tagged(st.server) && st.outbox != []
    ensures var plan := FloriaTransport(zone, bootstrapMatches).plan(st.outbox, st.verified, st.heads);
      plan.Ok? && SendsWell(zone, st, plan.value)
  {
    var batch, c := BatchOf(st.outbox), st.outbox[0];
    assert batch.commits[0] == c && c in st.outbox && Encodable(zone, size, c);
    if MissingObjects(batch.objects, st.verified) != [] {
      ObjectsPlanned(zone, size, st.outbox, st.verified);
    } else {
      RevisionsPlanned(zone, size, st, c);
      CommitPlanned(zone, st.server, c, st.heads);
      var plan := CommitPlanFor(zone, c, st.heads).value;
      if plan.Ready? {
        BatchIsNew(zone, bootstrapMatches, size, st.server, c, plan.records);
      } else {
        ImmutableIsNew(zone, bootstrapMatches, size, st.server, c);
      }
    }
  }

  // ----- a server that answers in full -----

  /** Every record is reported once; what the server accepts it stores, and what it refuses collides. */
  ghost predicate AnswersInFull(s: Server, phase: Phase, resp: Response) {
    && DistinctIds(resp.saved) && DistinctFailures(resp.failures)
    && Ids(resp.saved) !! FailureIds(resp.failures)
    && Ids(resp.saved) + FailureIds(resp.failures) == Ids(phase.records)
    && if phase.AtomicByZone() then (forall r :: r in phase.records ==> Accepts(s, r)) ==> resp.failures == []
       else forall f :: f in resp.failures ==> !Accepts(s, f.record) && f.code == ServerRecordChanged && f.server.Some?
  }

  /** Batches of distinct records that only replace what is there are answered in full, and the daemon settles. */
  ghost predicate Prompt(outside: Outside) {
    forall turn ::
      && outside.settles(turn)
      && forall s: Server, phase: Phase ::
           && DistinctIds(phase.records)
           && (forall r :: r in phase.records && !Accepts(s, r) ==> r.id in s.records) ==>
             AnswersInFull(s, phase, outside.cloud(turn).serve(s, phase).1)
  }

  lemma FullReport(s: Server, s': Server, phase: Phase, resp: Response)
    requires DistinctIds(phase.records) && AnswersInFull(s, phase, resp) && Reports(s, s', phase.records, resp)
    ensures Screen(phase, resp.saved, resp.failures).None? && CarriesSent(phase, resp.failures)
  {
  }

  /** Nothing was lost, and what is new is a sent record. */
  ghost predicate GrowsBy(s: Server, s': Server, records: seq<Record>) {
    && s.records.Keys <= s'.records.Keys
    && forall id :: id in s'.records ==>
         || (id in s.records && s'.records[id] == s.records[id])
         || exists r :: r in records && r.id == id && s'.records[id] == r.(tag := s'.records[id].tag)
  }

  lemma WritesGrow(s: Server, s': Server, records: seq<Record>, atomic: bool)
    requires Writes(s, s', records, atomic)
    ensures GrowsBy(s, s', records)
  {
    forall id | id in s'.records && Changed(s, s', id)
      ensures exists r :: r in records && r.id == id && s'.records[id] == r.(tag := s'.records[id].tag) {
      var r := SentFor(s, s', records, atomic, id);
    }
  }

  // ----- objects are handled -----

  lemma WaitingDecodes(zone: string, outbox: seq<Commit>, r: Record)
    requires WaitingObject(zone, outbox, r)
    ensures r.kind == ObjectType && r.tag.None? && Decode(zone, r).Ok?
  {
    var c, a :| c in outbox && a in c.objects && ObjectRecord(zone, a) == Ok(r);
    ObjectRoundTrip(zone, a);
  }

  lemma WaitingFine(zone: string, size: string -> nat, st: Outbound, r: Record)
    requires Clear(zone, size, st) && WaitingObject(zone, st.outbox, r) && r.id in st.server.records
    ensures Classify(zone, r, st.server.records[r.id]) == Ok(AlreadySaved)
  {
    var c, a :| c in st.outbox && a in c.objects && ObjectRecord(zone, a) == Ok(r);
    assert ObjectFine(zone, st.server, a);
  }

  lemma ObjectsReported(zone: string, size: string -> nat, st: Outbound, s': Server, records: seq<Record>,
      resp: Response)
    requires Clear(zone, size, st) && ObjectBatch(zone, st.outbox, records)
    requires Writes(st.server, s', records, false) && Reports(st.server, s', records, resp)
    requires AnswersInFull(st.server, ObjectsPhase(records), resp)
    ensures StoredOrHeld(zone, st.server, ObjectsPhase(records), resp) && StillThere(st.server, s', resp.failures)
    ensures forall r :: r in records ==> Decode(zone, r).Ok?
  {
    var s, phase := st.server, ObjectsPhase(records);
    FullReport(s, s', phase, resp);
    forall r | r in records ensures r.kind == ObjectType && r.tag.None? && Decode(zone, r).Ok? {
      WaitingDecodes(zone, st.outbox, r);
    }
    forall q | q in resp.saved ensures q.kind != HeadType {
      var r := SentFor(s, s', records, false, q.id);
    }
    forall f | f in resp.failures
      ensures CollidesWithCopy(s, f, f.record) && Classify(zone, f.record, s.records[f.record.id]) == Ok(AlreadySaved)
      ensures f.record.id in s'.records && s'.records[f.record.id] == s.records[f.record.id] {
      assert f.record in records && f.record.id in s.records && !Changed(s, s', f.record.id);
      WaitingFine(zone, size, st, f.record);
    }
  }

  // ----- new records are handled -----

  lemma FirstIsIn<T>(s: seq<T>)
    ensures s == [] || s[0] in s
  {
  }

  lemma NewStored(zone: string, s: Server, s': Server, phase: Phase, resp: Response)
    requires !phase.BootstrapPhase? && NewRecords(zone, s, phase.records) && AnswersInFull(s, phase, resp)
    requires Writes(s, s', phase.records, phase.AtomicByZone()) && Reports(s, s', phase.records, resp)
    ensures AllStored(zone, s, s', phase, resp)
  {
    FullReport(s, s', phase, resp);
    FirstIsIn(resp.failures);
    forall r | r in phase.records ensures r.id in s'.records && s'.records[r.id] in resp.saved
      && s'.records[r.id] == r.(tag := s'.records[r.id].tag) {
      assert r.id in Ids(resp.saved);
      var q :| q in resp.saved && q.id == r.id;
      var x := SentFor(s, s', phase.records, phase.AtomicByZone(), r.id);
      SameIdSameRecord(phase.records, x, r);
    }
    forall q | q in resp.saved ensures Decode(zone, q).Ok? {
      var x := SentFor(s, s', phase.records, phase.AtomicByZone(), q.id);
      DecodeIgnoresTag(zone, x, q.tag);
    }
  }

  // ----- the heads of an accepted commit -----

  /** The accepted heads are exactly the server's new heads of the batch. */
  ghost predicate NewHeads(zone: string, s': Server, records: seq<Record>, m: map<string, Record>) {
    && (forall e :: e in m <==> IdFor(zone, "head", e) in Ids(records))
    && (forall e :: e in m ==>
          && IdFor(zone, "head", e) in s'.records && m[e] == s'.records[IdFor(zone, "head", e)]
          && m[e].id == IdFor(zone, "head", e) && Decode(zone, m[e]).Ok?)
  }

  lemma SavedHeadVerdict(zone: string, bootstrapMatches: (Record, Record) -> Result<bool, CodecError>, phase: Phase,
      saved: map<RecordId, Record>, failed: map<RecordId, SaveFailure>, k: bool, r: Record, e: string)
    requires phase.CommitPhase? && r.id in saved && saved[r.id].kind == HeadType
    requires Decode(zone, saved[r.id]).Ok? && Decode(zone, saved[r.id]).value.DecodedHead?
      && Decode(zone, saved[r.id]).value.headEntityID == e
    ensures VerdictOf(CodecJudge(zone, bootstrapMatches), phase, saved, failed, k, r)
      == Fine(Some((e, saved[r.id])), false, false, None)
  {
  }

  lemma AcceptedHas(zone: string, bootstrapMatches: (Record, Record) -> Result<bool, CodecError>, s: Server,
      phase: Phase, resp: Response, order: seq<Record>, r: Record, e: string)
    requires phase.CommitPhase? && StoredOrHeld(zone, s, phase, resp) && IterationOrder(order, phase)
    requires r in phase.records && r.id in SavedById(resp.saved) && resp.failures == []
    requires var q := SavedById(resp.saved)[r.id];
      && q.kind == HeadType && Decode(zone, q).Ok? && Decode(zone, q).value.DecodedHead?
      && Decode(zone, q).value.headEntityID == e
    ensures var resolution := Resolve(CodecJudge(zone, bootstrapMatches), phase, resp.saved, resp.failures, order);
      resolution.CommitAccepted? && e in resolution.heads
  {
    var j, saved, failed := CodecJudge(zone, bootstrapMatches), SavedById(resp.saved), FailedById(resp.failures);
    CodecJudgeIsLawful(zone, bootstrapMatches);
    HeldHeads(zone, bootstrapMatches, s, phase, resp);
    ResolveReads(j, phase, resp.saved, resp.failures, order);
    var known: set<string> := HeadConflicts(j, phase, resp.failures).value;
    var verdict := (c: Record) => VerdictOf(j, phase, saved, failed, known != {}, c);
    forall c | c in phase.records ensures AsksForAsset(verdict(c), Stripped(failed, c)) {
      SettledVerdict(zone, bootstrapMatches, s, phase, resp, c);
    }
    AskingOutcome(phase, verdict, failed);
    OneReading(zone, bootstrapMatches, s, phase, resp, order);
    AcceptedKind(j, phase, resp.saved, resp.failures, order);
    SavedHeadVerdict(zone, bootstrapMatches, phase, saved, failed, known != {}, r, e);
    assert r in Elements(phase.records) && verdict(r).head == Some((e, saved[r.id]));
    assert (e, saved[r.id]) in ReadAll(verdict, Elements(phase.records), {}).heads;
  }

  /** The report of a batch that was stored as a whole. */
  ghost predicate AllStored(zone: string, s: Server, s': Server, phase: Phase, resp: Response) {
    && resp.failures == [] && StoredOrHeld(zone, s, phase, resp)
    && (forall q :: q in resp.saved ==> q.id in s'.records && s'.records[q.id] == q)
    && forall r :: r in phase.records ==>
         r.id in s'.records && s'.records[r.id] in resp.saved && s'.records[r.id] == r.(tag := s'.records[r.id].tag)
  }

  lemma HeadsAreNew(zone: string, bootstrapMatches: (Record, Record) -> Result<bool, CodecError>, s: Server, s': Server,
      phase: Phase, resp: Response, order: seq<Record>)
    requires phase.CommitPhase? && AllStored(zone, s, s', phase, resp) && IterationOrder(order, phase)
    requires forall r :: r in phase.records ==> Decode(zone, r).Ok?
    ensures var resolution := Resolve(CodecJudge(zone, bootstrapMatches), phase, resp.saved, resp.failures, order);
      resolution.CommitAccepted? && NewHeads(zone, s', phase.records, resolution.heads)
  {
    var j := CodecJudge(zone, bootstrapMatches);
    OneReading(zone, bootstrapMatches, s, phase, resp, order);
    AcceptedKind(j, phase, resp.saved, resp.failures, order);
    var m := Resolve(j, phase, resp.saved, resp.failures, order).heads;
    forall e | e in m
      ensures IdFor(zone, "head", e) in Ids(phase.records) && IdFor(zone, "head", e) in s'.records
        && m[e] == s'.records[IdFor(zone, "head", e)] && m[e].id == IdFor(zone, "head", e)
        && Decode(zone, m[e]).Ok? {
      LearnedIsNew(zone, bootstrapMatches, s, s', phase, resp, order, e);
    }
    forall e | IdFor(zone, "head", e) in Ids(phase.records) ensures e in m {
      var r :| r in phase.records && r.id == IdFor(zone, "head", e);
      HeadIdentity(zone, r, e);
      HeadLearned(zone, bootstrapMatches, s, s', phase, resp, order, r);
    }
  }

  lemma LearnedIsNew(zone: string, bootstrapMatches: (Record, Record) -> Result<bool, CodecError>, s: Server,
      s': Server, phase: Phase, resp: Response, order: seq<Record>, e: string)
    requires phase.CommitPhase? && AllStored(zone, s, s', phase, resp) && IterationOrder(order, phase)
    requires var r := Resolve(CodecJudge(zone, bootstrapMatches), phase, resp.saved, resp.failures, order);
      r.CommitAccepted? && e in r.heads
    ensures var q := Resolve(CodecJudge(zone, bootstrapMatches), phase, resp.saved, resp.failures, order).heads[e];
      && Decode(zone, q).Ok? && q.id == IdFor(zone, "head", e) && q.id in Ids(phase.records)
      && q.id in s'.records && s'.records[q.id] == q
  {
    var j := CodecJudge(zone, bootstrapMatches);
    CodecJudgeIsLawful(zone, bootstrapMatches);
    AcceptedHeads(j, phase, resp.saved, resp.failures, order, e);
    var q := Resolve(j, phase, resp.saved, resp.failures, order).heads[e];
    HeadName(zone, q);
    assert q.id in Ids(resp.saved);
  }

  lemma HeadLearned(zone: string, bootstrapMatches: (Record, Record) -> Result<bool, CodecError>, s: Server, s': Server,
      phase: Phase, resp: Response, order: seq<Record>, r: Record)
    requires phase.CommitPhase? && AllStored(zone, s, s', phase, resp) && IterationOrder(order, phase)
    requires r in phase.records && Decode(zone, r).Ok? && Decode(zone, r).value.DecodedHead?
    ensures var resolution := Resolve(CodecJudge(zone, bootstrapMatches), phase, resp.saved, resp.failures, order);
      resolution.CommitAccepted? && Decode(zone, r).value.headEntityID in resolution.heads
  {
    var saved := SavedById(resp.saved);
    assert r.id in Ids(resp.saved);
    assert saved[r.id] == s'.records[r.id];
    DecodeIgnoresTag(zone, r, saved[r.id].tag);
    DecodeChecksIdentity(zone, r);
    AcceptedHas(zone, bootstrapMatches, s, phase, resp, order, r, Decode(zone, r).value.headEntityID);
  }

  // ----- what stays clear -----

  lemma ImmutableApart(zone: string, bootstrapMatches: (Record, Record) -> Result<bool, CodecError>, c: Commit,
      p: string, x: string)
    requires p == "object" || p == "head"
    ensures IdFor(zone, p, x) !in ImmutableIds(zone, c)
  {
    if ImmutableRecords(zone, c).Ok? {
      var immutable := ImmutableRecords(zone, c).value;
      ImmutableShape(zone, bootstrapMatches, c);
      forall r | r in immutable ensures r.id != IdFor(zone, p, x) {
        var i :| 0 <= i < |immutable| && immutable[i] == r;
        if i == 0 {
          NamesDiffer(zone, "commit", Lower(c.commitID), p, x);
        } else {
          assert immutable[1 + (i - 1)].id == IdFor(zone, "revision", Lower(c.revisions[i - 1].revisionID));
          NamesDiffer(zone, "revision", Lower(c.revisions[i - 1].revisionID), p, x);
        }
      }
    }
  }

  /** The asset's size is the one its digest stands for, and the file has it. */
  ghost predicate Sized(size: string -> nat, a: ObjectAsset) {
    a.ciphertextSize == size(a.digest) && a.file.size == a.ciphertextSize && a.file.sha256 == a.digest
  }

  /** The record is that of a proper object, or no object at all. */
  ghost predicate ProperIfObject(zone: string, size: string -> nat, r: Record) {
    || (exists b :: Sized(size, b) && ObjectRecord(zone, b) == Ok(r))
    || (forall x :: r.id != IdFor(zone, "object", x))
  }

  /** Two proper assets of one digest are the same object. */
  lemma SameObject(zone: string, size: string -> nat, a: ObjectAsset, b: ObjectAsset, tag: Option<nat>)
    requires ObjectRecord(zone, a).Ok? && ObjectRecord(zone, b).Ok? && Sized(size, a) && Sized(size, b)
    requires ObjectRecord(zone, a).value.id == ObjectRecord(zone, b).value.id
    ensures Classify(zone, ObjectRecord(zone, a).value, ObjectRecord(zone, b).value.(tag := tag)) == Ok(AlreadySaved)
  {
    if a.digest != b.digest {
      NamesDiffer(zone, "object", a.digest, "object", b.digest);
    }
    ObjectRoundTrip(zone, a);
    ObjectRoundTrip(zone, b);
    DecodeIgnoresTag(zone, ObjectRecord(zone, b).value, tag);
  }

  lemma ObjectStaysFine(zone: string, size: string -> nat, s: Server, s': Server, records: seq<Record>, a: ObjectAsset)
    requires ObjectFine(zone, s, a) && Sized(size, a) && GrowsBy(s, s', records)
    requires forall r :: r in records ==> ProperIfObject(zone, size, r)
    ensures ObjectFine(zone, s', a)
  {
    var q := ObjectRecord(zone, a).value;
    assert q.id == IdFor(zone, "object", a.digest);
    if q.id in s'.records && !(q.id in s.records && s'.records[q.id] == s.records[q.id]) {
      var r :| r in records && r.id == q.id && s'.records[q.id] == r.(tag := s'.records[q.id].tag);
      assert ProperIfObject(zone, size, r);
      var b :| Sized(size, b) && ObjectRecord(zone, b) == Ok(r);
      SameObject(zone, size, a, b, s'.records[q.id].tag);
    }
  }

  /** Heads outside the batch stay as they are. */
  lemma HeadStays(zone: string, s: Server, s': Server, records: seq<Record>, e: string)
    requires GrowsBy(s, s', records) && IdFor(zone, "head", e) !in Ids(records)
    ensures var id := IdFor(zone, "head", e);
      (id in s'.records <==> id in s.records) && (id in s.records ==> s'.records[id] == s.records[id])
  {
  }

  lemma KnownStays(zone: string, st: Outbound, st': Outbound, records: seq<Record>, e: string)
    requires HeadKnown(zone, st, e) && GrowsBy(st.server, st'.server, records)
      && IdFor(zone, "head", e) !in Ids(records)
    requires (e in st'.heads <==> e in st.heads) && (e in st.heads ==> st'.heads[e] == st.heads[e])
    ensures HeadKnown(zone, st', e)
  {
    HeadStays(zone, st.server, st'.server, records, e);
    assert FloriaNames(zone).headId(e) == IdFor(zone, "head", e);
  }

  lemma WaitingIsProper(zone: string, size: string -> nat, outbox: seq<Commit>, r: Record)
    requires WaitingObject(zone, outbox, r) && forall c :: c in outbox ==> Encodable(zone, size, c)
    ensures ProperIfObject(zone, size, r) && exists x :: r.id == IdFor(zone, "object", x)
  {
    var c, a :| c in outbox && a in c.objects && ObjectRecord(zone, a) == Ok(r);
    assert Sized(size, a) && r.id == IdFor(zone, "object", a.digest);
  }

  lemma ObjectIds(zone: string, bootstrapMatches: (Record, Record) -> Result<bool, CodecError>, size: string -> nat,
      outbox: seq<Commit>, records: seq<Record>)
    requires ObjectBatch(zone, outbox, records) && forall c :: c in outbox ==> Encodable(zone, size, c)
    ensures forall r :: r in records ==> ProperIfObject(zone, size, r)
    ensures forall e :: IdFor(zone, "head", e) !in Ids(records)
    ensures forall c :: ImmutableIds(zone, c) !! Ids(records)
  {
    forall r | r in records ensures ProperIfObject(zone, size, r)
      ensures forall e :: r.id != IdFor(zone, "head", e)
      ensures forall c :: r.id !in ImmutableIds(zone, c) {
      WaitingIsProper(zone, size, outbox, r);
      var x :| r.id == IdFor(zone, "object", x);
      forall e ensures r.id != IdFor(zone, "head", e) {
        NamesDiffer(zone, "object", x, "head", e);
      }
      forall c ensures r.id !in ImmutableIds(zone, c) {
        ImmutableApart(zone, bootstrapMatches, c, "object", x);
      }
    }
  }

  /** Storing objects leaves everything clear. */
  lemma ObjectsKeepClear(zone: string, bootstrapMatches: (Record, Record) -> Result<bool, CodecError>,
      size: string -> nat, st: Outbound, st': Outbound, records: seq<Record>)
    requires Clear(zone, size, st) && ObjectBatch(zone, st.outbox, records) && GrowsBy(st.server, st'.server, records)
    requires st'.outbox == st.outbox && st'.heads == st.heads
    ensures Clear(zone, size, st')
  {
    ObjectIds(zone, bootstrapMatches, size, st.outbox, records);
    forall c | c in st'.outbox ensures ImmutableIds(zone, c) !! st'.server.records.Keys {
      KeysStayApart(zone, st.server, st'.server, records, c);
    }
    forall c, rv | c in st'.outbox && rv in c.revisions ensures HeadKnown(zone, st', Lower(rv.entityID)) {
      KnownStays(zone, st, st', records, Lower(rv.entityID));
    }
    forall i, rv | 0 <= i < |st'.outbox| && rv in st'.outbox[i].revisions && rv.expectedHeads != []
      ensures Available(zone, st', i, Lower(rv.entityID)) {
      assert Available(zone, st, i, Lower(rv.entityID));
    }
    forall c, a | c in st'.outbox && a in c.objects ensures ObjectFine(zone, st'.server, a) {
      assert Encodable(zone, size, c) && Sized(size, a);
      ObjectStaysFine(zone, size, st.server, st'.server, records, a);
    }
  }

  lemma KeysStayApart(zone: string, s: Server, s': Server, records: seq<Record>, c: Commit)
    requires GrowsBy(s, s', records) && ImmutableIds(zone, c) !! s.records.Keys && ImmutableIds(zone, c) !! Ids(records)
    ensures ImmutableIds(zone, c) !! s'.records.Keys
  {
  }

  // ----- settling the first commit -----

  lemma {:induction false} SettleOthers(outbox: seq<Commit>, commitID: string)
    requires forall i :: 0 <= i < |outbox| ==> outbox[i].commitID != commitID
    ensures Settle(outbox, commitID) == outbox
    decreases |outbox|
  {
    if outbox != [] {
      SettleOthers(outbox[1..], commitID);
    }
  }

  lemma CommitIdIsIn(zone: string, bootstrapMatches: (Record, Record) -> Result<bool, CodecError>, c: Commit)
    requires ImmutableRecords(zone, c).Ok?
    ensures IdFor(zone, "commit", Lower(c.commitID)) in ImmutableIds(zone, c)
  {
    ImmutableShape(zone, bootstrapMatches, c);
    assert ImmutableRecords(zone, c).value[0] in ImmutableRecords(zone, c).value;
  }

  lemma SettleFirst(zone: string, bootstrapMatches: (Record, Record) -> Result<bool, CodecError>, size: string -> nat,
      outbox: seq<Commit>)
    requires outbox != [] && Separate(zone, outbox) && forall c :: c in outbox ==> Encodable(zone, size, c)
    ensures Settle(outbox, outbox[0].commitID) == outbox[1..]
  {
    assert outbox[0] in outbox;
    CommitIdIsIn(zone, bootstrapMatches, outbox[0]);
    forall i | 0 <= i < |outbox[1..]| ensures outbox[1..][i].commitID != outbox[0].commitID {
      assert outbox[1 + i] in outbox;
      CommitIdIsIn(zone, bootstrapMatches, outbox[1 + i]);
    }
    SettleOthers(outbox[1..], outbox[0].commitID);
  }

  ghost predicate EntityOf(c: Commit, e: string) {
    exists rv :: rv in c.revisions && Lower(rv.entityID) == e
  }

  /** Every record of the batch is create-only or a head of the commit. */
  ghost predicate BatchOfCommit(zone: string, c: Commit, records: seq<Record>) {
    forall r :: r in records ==> NamedIn(zone, c, r)
  }

  ghost predicate NamedIn(zone: string, c: Commit, r: Record) {
    r.id in ImmutableIds(zone, c) || r.id in HeadIds(zone, c)
  }

  ghost function HeadIds(zone: string, c: Commit): set<RecordId> {
    set rv | rv in c.revisions :: HeadId(zone, rv)
  }

  lemma ImmutableBatch(zone: string, c: Commit)
    requires ImmutableRecords(zone, c).Ok?
    ensures BatchOfCommit(zone, c, ImmutableRecords(zone, c).value)
  {
  }

  lemma FullBatch(zone: string, s: Server, c: Commit, records: seq<Record>)
    requires GoodBatch(zone, s, c, records)
    ensures BatchOfCommit(zone, c, records)
  {
    forall i | 0 <= i < |records| ensures NamedIn(zone, c, records[i]) {
      PartNamed(zone, s, c, ImmutableRecords(zone, c).value, records, i);
    }
  }

  lemma PartNamed(zone: string, s: Server, c: Commit, immutable: seq<Record>, records: seq<Record>, i: nat)
    requires ImmutableRecords(zone, c) == Ok(immutable) && Composed(zone, s, c, immutable, records) && i < |records|
    ensures NamedIn(zone, c, records[i])
  {
    if i <= |c.revisions| {
      ImmutableNamed(zone, s, c, immutable, records, i);
    } else {
      HeadPartNamed(zone, s, c, immutable, records, i);
    }
  }

  lemma HeadPartNamed(zone: string, s: Server, c: Commit, immutable: seq<Record>, records: seq<Record>, i: nat)
    requires Composed(zone, s, c, immutable, records) && |c.revisions| < i < |records|
    ensures NamedIn(zone, c, records[i])
  {
    ComposedHead(zone, s, c, immutable, records, i);
    assert c.revisions[i - 1 - |c.revisions|] in c.revisions;
  }

  lemma ImmutableNamed(zone: string, s: Server, c: Commit, immutable: seq<Record>, records: seq<Record>, i: nat)
    requires ImmutableRecords(zone, c) == Ok(immutable) && Composed(zone, s, c, immutable, records)
      && i <= |c.revisions|
    ensures NamedIn(zone, c, records[i])
  {
    assert records[..1 + |c.revisions|][i] == records[i];
    assert immutable[i] in immutable;
  }

  lemma ComposedHead(zone: string, s: Server, c: Commit, immutable: seq<Record>, records: seq<Record>, i: nat)
    requires Composed(zone, s, c, immutable, records) && |c.revisions| < i < |records|
    ensures GoodHead(zone, s, c.revisions[i - 1 - |c.revisions|], records[i])
  {
    assert HeadInPlace(zone, s, c, records, i - 1 - |c.revisions|);
  }

  lemma BatchProper(zone: string, bootstrapMatches: (Record, Record) -> Result<bool, CodecError>, size: string -> nat,
      c: Commit, records: seq<Record>)
    requires BatchOfCommit(zone, c, records)
    ensures forall r :: r in records ==> ProperIfObject(zone, size, r)
    ensures forall d :: ImmutableIds(zone, d) !! ImmutableIds(zone, c) ==> ImmutableIds(zone, d) !! Ids(records)
    ensures forall e :: IdFor(zone, "head", e) in Ids(records) ==> EntityOf(c, e)
  {
    forall r | r in records ensures ProperIfObject(zone, size, r)
      ensures forall d :: ImmutableIds(zone, d) !! ImmutableIds(zone, c) ==> r.id !in ImmutableIds(zone, d)
      ensures forall e :: r.id == IdFor(zone, "head", e) ==> EntityOf(c, e) {
      CommitRecordProper(zone, bootstrapMatches, size, c, r);
    }
  }

  lemma CommitRecordProper(zone: string, bootstrapMatches: (Record, Record) -> Result<bool, CodecError>,
      size: string -> nat, c: Commit, r: Record)
    requires NamedIn(zone, c, r)
    ensures ProperIfObject(zone, size, r)
    ensures forall d :: ImmutableIds(zone, d) !! ImmutableIds(zone, c) ==> r.id !in ImmutableIds(zone, d)
    ensures forall e :: r.id == IdFor(zone, "head", e) ==> EntityOf(c, e)
  {
    if r.id in ImmutableIds(zone, c) {
      forall x ensures r.id != IdFor(zone, "object", x) && r.id != IdFor(zone, "head", x) {
        ImmutableApart(zone, bootstrapMatches, c, "object", x);
        ImmutableApart(zone, bootstrapMatches, c, "head", x);
      }
    } else {
      var rv :| rv in c.revisions && r.id == HeadId(zone, rv);
      var e := Lower(rv.entityID);
      assert EntityOf(c, e);
      forall x ensures r.id != IdFor(zone, "object", x) && (r.id == IdFor(zone, "head", x) ==> x == e) {
        NamesDiffer(zone, "head", e, "object", x);
        if x != e {
          NamesDiffer(zone, "head", e, "head", x);
        }
      }
      forall d ensures r.id !in ImmutableIds(zone, d) {
        ImmutableApart(zone, bootstrapMatches, d, "head", e);
      }
    }
  }

  /** What the first commit does to the server and the cache. */
  ghost predicate SettlesFirst(zone: string, st: Outbound, st': Outbound, records: seq<Record>) {
    && st.outbox != [] && st'.outbox == st.outbox[1..]
    && BatchOfCommit(zone, st.outbox[0], records) && GrowsBy(st.server, st'.server, records)
    && forall e :: Brings(st.outbox[0], e) ==> IdFor(zone, "head", e) in st'.server.records
  }

  /** Once the first commit is settled, the rest is still clear. */
  lemma SettledKeepsClear(zone: string, bootstrapMatches: (Record, Record) -> Result<bool, CodecError>,
      size: string -> nat, st: Outbound, st': Outbound, records: seq<Record>)
    requires Clear(zone, size, st) && SettlesFirst(zone, st, st', records)
    requires forall c, rv :: c in st'.outbox && rv in c.revisions ==> HeadKnown(zone, st', Lower(rv.entityID))
    ensures Clear(zone, size, st')
  {
    forall c | c in st'.outbox ensures Encodable(zone, size, c) && ImmutableIds(zone, c) !! st'.server.records.Keys {
      var i :| 0 <= i < |st'.outbox| && st'.outbox[i] == c;
      RestIsNew(zone, bootstrapMatches, size, st, st', records, i);
    }
    forall i, j | 0 <= i < j < |st'.outbox|
      ensures ImmutableIds(zone, st'.outbox[i]) !! ImmutableIds(zone, st'.outbox[j]) {
      assert st'.outbox[i] == st.outbox[1 + i] && st'.outbox[j] == st.outbox[1 + j];
    }
    forall i, rv | 0 <= i < |st'.outbox| && rv in st'.outbox[i].revisions && rv.expectedHeads != []
      ensures Available(zone, st', i, Lower(rv.entityID)) {
      assert rv in st.outbox[1 + i].revisions && Available(zone, st, 1 + i, Lower(rv.entityID));
      StaysAvailable(zone, st, st', i, Lower(rv.entityID));
    }
    forall c, a | c in st'.outbox && a in c.objects ensures ObjectFine(zone, st'.server, a) {
      RestIsFine(zone, bootstrapMatches, size, st, st', records, c, a);
    }
  }

  lemma RestIsNew(zone: string, bootstrapMatches: (Record, Record) -> Result<bool, CodecError>, size: string -> nat,
      st: Outbound, st': Outbound, records: seq<Record>, i: nat)
    requires Clear(zone, size, st) && SettlesFirst(zone, st, st', records) && i < |st'.outbox|
    ensures Encodable(zone, size, st'.outbox[i]) && ImmutableIds(zone, st'.outbox[i]) !! st'.server.records.Keys
  {
    var c := st'.outbox[i];
    assert c == st.outbox[1 + i] && c in st.outbox;
    assert ImmutableIds(zone, st.outbox[0]) !! ImmutableIds(zone, st.outbox[1 + i]);
    BatchProper(zone, bootstrapMatches, size, st.outbox[0], records);
    KeysStayApart(zone, st.server, st'.server, records, c);
  }

  lemma RestIsFine(zone: string, bootstrapMatches: (Record, Record) -> Result<bool, CodecError>, size: string -> nat,
      st: Outbound, st': Outbound, records: seq<Record>, c: Commit, a: ObjectAsset)
    requires Clear(zone, size, st) && SettlesFirst(zone, st, st', records) && c in st'.outbox && a in c.objects
    ensures ObjectFine(zone, st'.server, a)
  {
    assert c in st.outbox && Encodable(zone, size, c) && Sized(size, a);
    BatchProper(zone, bootstrapMatches, size, st.outbox[0], records);
    ObjectStaysFine(zone, size, st.server, st'.server, records, a);
  }

  lemma StaysAvailable(zone: string, st: Outbound, st': Outbound, i: nat, e: string)
    requires st.outbox != [] && st'.outbox == st.outbox[1..] && i < |st'.outbox|
    requires st.server.records.Keys <= st'.server.records.Keys && Available(zone, st, i + 1, e)
    requires Brings(st.outbox[0], e) ==> IdFor(zone, "head", e) in st'.server.records
    ensures Available(zone, st', i, e)
  {
    if IdFor(zone, "head", e) !in st'.server.records {
      var j :| 0 <= j < i + 1 && Brings(st.outbox[j], e);
      assert st.outbox[j] == st'.outbox[j - 1];
    }
  }

  // ----- one pass -----

  /** How one send is served. */
  ghost predicate Served(outside: Outside, turn: nat, st: Outbound, phase: Phase, s': Server, resp: Response) {
    && (s', resp) == outside.cloud(turn).serve(st.server, phase)
    && Writes(st.server, s', phase.records, phase.AtomicByZone()) && Reports(st.server, s', phase.records, resp)
    && AnswersInFull(st.server, phase, resp) && IterationOrder(outside.cloud(turn).order(phase), phase)
    && outside.settles(turn)
  }

  lemma IsServed(outside: Outside, turn: nat, st: Outbound, phase: Phase) returns (s': Server, resp: Response)
    requires Honest(outside) && Prompt(outside) && DistinctIds(phase.records)
    requires forall r :: r in phase.records && !Accepts(st.server, r) ==> r.id in st.server.records
    ensures Served(outside, turn, st, phase, s', resp)
  {
    assert HonestCloud(outside.cloud(turn));
    s', resp := outside.cloud(turn).serve(st.server, phase).0, outside.cloud(turn).serve(st.server, phase).1;
  }

  lemma ObjectsPass(zone: string, bootstrapMatches: (Record, Record) -> Result<bool, CodecError>, size: string -> nat,
      outside: Outside, turn: nat, st: Outbound, records: seq<Record>)
    requires Clear(zone, size, st) && Honest(outside) && Prompt(outside) && ObjectBatch(zone, st.outbox, records)
    ensures var after := AfterSend(FloriaTransport(zone, bootstrapMatches), outside, turn, st, ObjectsPhase(records));
      after.Ok? && Clear(zone, size, after.value)
  {
    var phase := ObjectsPhase(records);
    forall r | r in records && !Accepts(st.server, r) ensures r.id in st.server.records {
      WaitingDecodes(zone, st.outbox, r);
    }
    var s', resp := IsServed(outside, turn, st, phase);
    ObjectsReported(zone, size, st, s', records, resp);
    HandlingSucceeds(zone, bootstrapMatches, st.server, st.(server := s'), phase, resp,
      outside.cloud(turn).order(phase));
    WritesGrow(st.server, s', records, false);
    var after := AfterSend(FloriaTransport(zone, bootstrapMatches), outside, turn, st, phase).value;
    ObjectsKeepClear(zone, bootstrapMatches, size, st, after, records);
  }

  /** A conflict branch goes through: only new records, no head. */
  lemma BranchPass(zone: string, bootstrapMatches: (Record, Record) -> Result<bool, CodecError>, size: string -> nat,
      outside: Outside, turn: nat, st: Outbound, records: seq<Record>)
    requires Clear(zone, size, st) && Honest(outside) && Prompt(outside) && st.outbox != []
    requires ImmutableRecords(zone, st.outbox[0]) == Ok(records) && NewRecords(zone, st.server, records)
    requires SomeHeadExists(zone, st.server, st.outbox[0])
    ensures var after := AfterSend(FloriaTransport(zone, bootstrapMatches), outside, turn, st,
      ConflictBranchPhase(st.outbox[0].commitID, records));
      after.Ok? && Clear(zone, size, after.value)
  {
    var c := st.outbox[0];
    var phase := ConflictBranchPhase(c.commitID, records);
    var s', resp := IsServed(outside, turn, st, phase);
    NewStored(zone, st.server, s', phase, resp);
    HandlingSucceeds(zone, bootstrapMatches, st.server, st.(server := s'), phase, resp,
      outside.cloud(turn).order(phase));
    SettleFirst(zone, bootstrapMatches, size, st.outbox);
    WritesGrow(st.server, s', records, false);
    var after := AfterSend(FloriaTransport(zone, bootstrapMatches), outside, turn, st, phase).value;
    assert after == st.(server := s', outbox := st.outbox[1..]);
    BranchClear(zone, bootstrapMatches, size, st, after, records);
  }

  lemma BranchClear(zone: string, bootstrapMatches: (Record, Record) -> Result<bool, CodecError>, size: string -> nat,
      st: Outbound, st': Outbound, records: seq<Record>)
    requires Clear(zone, size, st) && st.outbox != [] && ImmutableRecords(zone, st.outbox[0]) == Ok(records)
    requires st'.outbox == st.outbox[1..] && st'.heads == st.heads && GrowsBy(st.server, st'.server, records)
    requires SomeHeadExists(zone, st.server, st.outbox[0])
    ensures Clear(zone, size, st')
  {
    var c := st.outbox[0];
    ImmutableBatch(zone, c);
    forall x, rv | x in st'.outbox && rv in x.revisions ensures HeadKnown(zone, st', Lower(rv.entityID)) {
      assert x in st.outbox;
      ImmutableApart(zone, bootstrapMatches, c, "head", Lower(rv.entityID));
      KnownStays(zone, st, st', records, Lower(rv.entityID));
    }
    forall e | Brings(c, e) ensures IdFor(zone, "head", e) in st'.server.records {
      var rv :| rv in c.revisions && HeadId(zone, rv) in st.server.records;
    }
    SettledKeepsClear(zone, bootstrapMatches, size, st, st', records);
  }

  /** A commit goes through: its heads become the server's and the cache's. */
  lemma CommitPass(zone: string, bootstrapMatches: (Record, Record) -> Result<bool, CodecError>, size: string -> nat,
      outside: Outside, turn: nat, st: Outbound, records: seq<Record>)
    requires Clear(zone, size, st) && Honest(outside) && Prompt(outside) && st.outbox != []
    requires GoodBatch(zone, st.server, st.outbox[0], records) && NewRecords(zone, st.server, records)
    ensures var after := AfterSend(FloriaTransport(zone, bootstrapMatches), outside, turn, st,
      CommitPhase(st.outbox[0].commitID, records));
      after.Ok? && Clear(zone, size, after.value)
  {
    var c := st.outbox[0];
    var phase := CommitPhase(c.commitID, records);
    var s', resp := IsServed(outside, turn, st, phase);
    NewStored(zone, st.server, s', phase, resp);
    var order := outside.cloud(turn).order(phase);
    HeadsAreNew(zone, bootstrapMatches, st.server, s', phase, resp, order);
    var m := Resolve(CodecJudge(zone, bootstrapMatches), phase, resp.saved, resp.failures, order).heads;
    SettleFirst(zone, bootstrapMatches, size, st.outbox);
    WritesGrow(st.server, s', records, true);
    AcceptedSend(FloriaTransport(zone, bootstrapMatches), outside, turn, st, phase, s', resp);
    CommitClear(zone, bootstrapMatches, size, st,
      st.(server := s', outbox := st.outbox[1..], heads := st.heads + m), records, m);
  }

  lemma AcceptedSend(tr: Transport, outside: Outside, turn: nat, st: Outbound, phase: Phase, s': Server, resp: Response)
    requires phase.CommitPhase? && Served(outside, turn, st, phase, s', resp)
    requires Resolve(tr.judge, phase, resp.saved, resp.failures, outside.cloud(turn).order(phase)).CommitAccepted?
    ensures AfterSend(tr, outside, turn, st, phase)
      == Ok(st.(server := s', outbox := Settle(st.outbox, phase.commitID), heads := st.heads
           + Resolve(tr.judge, phase, resp.saved, resp.failures, outside.cloud(turn).order(phase)).heads))
  {
    AcceptedKind(tr.judge, phase, resp.saved, resp.failures, outside.cloud(turn).order(phase));
  }

  lemma HeadReadable(zone: string, r: Record, e: string)
    requires Decode(zone, r).Ok? && r.id == IdFor(zone, "head", e)
    ensures HeadRevision(zone, r, e).Ok?
  {
    HeadIdentity(zone, r, e);
  }

  /** The cache knows the heads of the accepted commit, and the others as before. */
  lemma KnownAfter(zone: string, st: Outbound, st': Outbound, records: seq<Record>, m: map<string, Record>, e: string)
    requires HeadKnown(zone, st, e) && GrowsBy(st.server, st'.server, records) && st'.heads == st.heads + m
    requires NewHeads(zone, st'.server, records, m)
    ensures HeadKnown(zone, st', e)
  {
    assert FloriaNames(zone).headId(e) == IdFor(zone, "head", e);
    if e in m {
      HeadReadable(zone, m[e], e);
    } else {
      KnownStays(zone, st, st', records, e);
    }
  }

  lemma EntityLearned(zone: string, s: Server, s': Server, c: Commit, records: seq<Record>, m: map<string, Record>,
      e: string)
    requires GoodBatch(zone, s, c, records) && NewHeads(zone, s', records, m) && EntityOf(c, e)
    ensures e in m
  {
    var rv :| rv in c.revisions && Lower(rv.entityID) == e;
    var i :| 0 <= i < |c.revisions| && c.revisions[i] == rv;
    HeadInBatch(zone, s, c, ImmutableRecords(zone, c).value, records, i);
  }

  lemma HeadInBatch(zone: string, s: Server, c: Commit, immutable: seq<Record>, records: seq<Record>, i: nat)
    requires Composed(zone, s, c, immutable, records) && i < |c.revisions|
    ensures HeadId(zone, c.revisions[i]) in Ids(records)
  {
    var place := 1 + |c.revisions| + i;
    ComposedHead(zone, s, c, immutable, records, place);
    assert records[place] in records;
  }

  lemma CommitClear(zone: string, bootstrapMatches: (Record, Record) -> Result<bool, CodecError>, size: string -> nat,
      st: Outbound, st': Outbound, records: seq<Record>, m: map<string, Record>)
    requires Clear(zone, size, st) && st.outbox != [] && GoodBatch(zone, st.server, st.outbox[0], records)
    requires st'.outbox == st.outbox[1..] && st'.heads == st.heads + m && GrowsBy(st.server, st'.server, records)
    requires NewHeads(zone, st'.server, records, m)
    ensures Clear(zone, size, st')
  {
    var c := st.outbox[0];
    FullBatch(zone, st.server, c, records);
    BatchProper(zone, bootstrapMatches, size, c, records);
    forall e | EntityOf(c, e) ensures e in m && IdFor(zone, "head", e) in st'.server.records {
      EntityLearned(zone, st.server, st'.server, c, records, m, e);
    }
    forall x, rv | x in st'.outbox && rv in x.revisions ensures HeadKnown(zone, st', Lower(rv.entityID)) {
      assert x in st.outbox;
      KnownAfter(zone, st, st', records, m, Lower(rv.entityID));
    }
    forall e | Brings(c, e) ensures IdFor(zone, "head", e) in st'.server.records {
      assert c.revisions[0] in c.revisions && EntityOf(c, e);
    }
    SettledKeepsClear(zone, bootstrapMatches, size, st, st', records);
  }

  // ----- the whole loop -----

  lemma ClearPass(zone: string, bootstrapMatches: (Record, Record) -> Result<bool, CodecError>, size: string -> nat,
      outside: Outside, turn: nat, st: Outbound)
    requires Clear(zone, size, st) && Tagged(st.server) && Honest(outside) && Prompt(outside)
    ensures Progresses(FloriaTransport(zone, bootstrapMatches), outside, turn, st, x => Clear(zone, size, x))
  {
    if st.outbox != [] {
      PlanSends(zone, bootstrapMatches, size, st);
      match FloriaTransport(zone, bootstrapMatches).plan(st.outbox, st.verified, st.heads).value {
        case SaveObjects(records) => ObjectsPass(zone, bootstrapMatches, size, outside, turn, st, records);
        case SaveCommit(_, records) => CommitPass(zone, bootstrapMatches, size, outside, turn, st, records);
        case SaveConflictBranch(_, _, records) =>
          BranchPass(zone, bootstrapMatches, size, outside, turn, st, records);
        case _ =>
      }
    } else {
      EmptyPlan(zone, bootstrapMatches, st);
    }
  }

  lemma EmptyPlan(zone: string, bootstrapMatches: (Record, Record) -> Result<bool, CodecError>, st: Outbound)
    requires st.outbox == []
    ensures FloriaTransport(zone, bootstrapMatches).plan(st.outbox, st.verified, st.heads) == Ok(Idle)
  {
  }

  /**
   The outbound half of a manual sync with the real components. It always ends, and without an error only with the
   outbox empty. Right after a fetch and against a server that answers in full it does succeed: when the heads the
   device caches are the server's, no record of a waiting commit is on the server yet, and each head to be replaced
   exists or is brought by an earlier commit of its own.
   */
  method SyncOutbox(zone: string, bootstrapMatches: (Record, Record) -> Result<bool, CodecError>,
      ghost size: string -> nat, outside: Outside, outbox: seq<Commit>, heads: map<string, Record>, server: Server)
    returns (session: OutboundSession, drained: Result<(), SyncError>)
    requires Honest(outside) && Tagged(server)
    ensures fresh(session) && (drained.Ok? ==> session.outbox == [])
    ensures Prompt(outside) && Clear(zone, size, Outbound(outbox, {}, heads, server)) ==> drained.Ok?
  {
    FloriaLoopSound(zone, bootstrapMatches);
    var tr := FloriaTransport(zone, bootstrapMatches);
    session := new OutboundSession(tr, FloriaNames(zone), outbox, heads, server);
    ghost var good := (st: Outbound) => Clear(zone, size, st);
    if Prompt(outside) {
      forall turn: nat, st | good(st) && Tagged(st.server) ensures Progresses(tr, outside, turn, st, good) {
        ClearPass(zone, bootstrapMatches, size, outside, turn, st);
      }
    }
    drained := session.Drain(outside, good);
  }
}
