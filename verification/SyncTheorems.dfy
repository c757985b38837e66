/**
 The protocol theorems for the real components: codec, planner and resolver satisfy the laws of
 `SyncProtocol.Sound`, so every run of any number of devices has the promised properties.
 */
module SyncTheorems {
  import opened Prelude
  import opened Records
  import opened RecordCodec
  import opened Planner
  import opened Resolver
  import opened CloudServer
  import opened SyncProtocol
  import opened Text

  const OUTBOUND_LIMIT := 8

  // ----- the daemon's outbound batch -----

  function AddObjects(objects: seq<ObjectAsset>, more: seq<ObjectAsset>): seq<ObjectAsset>
    decreases |more|
  {
    if more == [] then objects
    else AddObjects(
      if exists a :: a in objects && a.digest == more[0].digest then objects else objects + [more[0]], more[1..])
  }

  function ObjectsOf(commits: seq<Commit>): seq<ObjectAsset> {
    if commits == [] then []
    else AddObjects(ObjectsOf(commits[..|commits| - 1]), commits[|commits| - 1].objects)
  }

  /** The oldest commits of the outbox and the objects they need, one asset per digest. */
  function BatchOf(outbox: seq<Commit>): Batch {
    var commits := FirstN(outbox, OUTBOUND_LIMIT);
    Batch(commits, ObjectsOf(commits))
  }

  function FloriaTransport(zone: string, bootstrapMatches: (Record, Record) -> Result<bool, CodecError>): Transport {
    Transport(
      r => Decode(zone, r),
      CodecJudge(zone, bootstrapMatches),
      (outbox, verified, heads) => NextAction(zone, BatchOf(outbox), verified, heads),
      c => ImmutableRecords(zone, c))
  }

  ghost predicate Mentions(objects: seq<ObjectAsset>, digest: string) {
    exists b :: b in objects && b.digest == digest
  }

  lemma {:induction false} AddObjectsMembers(objects: seq<ObjectAsset>, more: seq<ObjectAsset>)
    ensures forall a :: a in AddObjects(objects, more) ==> a in objects || a in more
    ensures forall digest :: Mentions(objects, digest) ==> Mentions(AddObjects(objects, more), digest)
    ensures forall a :: a in more ==> Mentions(AddObjects(objects, more), a.digest)
    decreases |more|
  {
    if more != [] {
      var next := if exists a :: a in objects && a.digest == more[0].digest then objects else objects + [more[0]];
      assert Mentions(next, more[0].digest) by {
        if next != objects {
          assert more[0] in next;
        }
      }
      forall digest | Mentions(objects, digest) ensures Mentions(next, digest) {
        var b :| b in objects && b.digest == digest;
        assert b in next;
      }
      AddObjectsMembers(next, more[1..]);
      assert forall a :: a in more <==> a == more[0] || a in more[1..];
    }
  }

  ghost predicate Lists(objects: seq<ObjectAsset>, commits: seq<Commit>) {
    && (forall a :: a in objects ==> exists c :: c in commits && a in c.objects)
    && (forall c, a :: c in commits && a in c.objects ==> Mentions(objects, a.digest))
  }

  lemma {:induction false} ObjectsOfLists(commits: seq<Commit>)
    ensures Lists(ObjectsOf(commits), commits)
    decreases |commits|
  {
    if commits != [] {
      var n := |commits| - 1;
      var before, last := ObjectsOf(commits[..n]), commits[n];
      ObjectsOfLists(commits[..n]);
      AddObjectsMembers(before, last.objects);
      assert forall c :: c in commits <==> c == last || c in commits[..n];
    }
  }

  ghost predicate OnePerDigest(objects: seq<ObjectAsset>) {
    forall i, j :: 0 <= i < j < |objects| ==> objects[i].digest != objects[j].digest
  }

  lemma {:induction false} AddsOnce(objects: seq<ObjectAsset>, more: seq<ObjectAsset>)
    requires OnePerDigest(objects)
    ensures OnePerDigest(AddObjects(objects, more))
    decreases |more|
  {
    if more != [] {
      var next := if exists a :: a in objects && a.digest == more[0].digest then objects else objects + [more[0]];
      AddsOnce(next, more[1..]);
    }
  }

  lemma {:induction false} ObjectsOnce(commits: seq<Commit>)
    ensures OnePerDigest(ObjectsOf(commits))
    decreases |commits|
  {
    if commits != [] {
      ObjectsOnce(commits[..|commits| - 1]);
      AddsOnce(ObjectsOf(commits[..|commits| - 1]), commits[|commits| - 1].objects);
    }
  }

  /** The batch is the eight oldest commits, or all of fewer, with every object they need, one for each digest. */
  lemma BatchMeans(outbox: seq<Commit>)
    ensures BatchOf(outbox).commits == if |outbox| <= 8 then outbox else outbox[..8]
    ensures Lists(BatchOf(outbox).objects, BatchOf(outbox).commits) && OnePerDigest(BatchOf(outbox).objects)
  {
    ObjectsOfLists(BatchOf(outbox).commits);
    ObjectsOnce(BatchOf(outbox).commits);
  }

  // ----- codec laws -----

  lemma SameIdentity(zone: string, r: Record, q: Record)
    requires Decode(zone, r).Ok? && Decode(zone, q).Ok? && r.id == q.id
    ensures r.kind == q.kind == KindOf(Decode(zone, r).value) == KindOf(Decode(zone, q).value)
    ensures StableId(Decode(zone, r).value) == StableId(Decode(zone, q).value)
  {
    DecodeChecksIdentity(zone, r);
    DecodeChecksIdentity(zone, q);
    IdentityInjective(zone, Decode(zone, r).value, Decode(zone, q).value);
  }

  lemma FloriaDecodeLaw(zone: string, bootstrapMatches: (Record, Record) -> Result<bool, CodecError>)
    ensures DecodeLaw(FloriaTransport(zone, bootstrapMatches))
  {
    var decode := FloriaTransport(zone, bootstrapMatches).decode;
    assert forall r :: decode(r) == Decode(zone, r);
    DecodeLawFrom(FloriaTransport(zone, bootstrapMatches)) by {
      forall r, q | decode(r).Ok? && decode(q).Ok? && r.id == q.id
        ensures r.kind == q.kind == KindOf(decode(r).value) && KindOf(decode(q).value) == q.kind
        ensures StableId(decode(r).value) == StableId(decode(q).value)
      {
        SameIdentity(zone, r, q);
      }
      forall r: Record, q: Record | r.id == q.id && r.kind == q.kind && r.fields == q.fields
        ensures decode(r) == decode(q) {
        assert q == r.(tag := q.tag);
        DecodeIgnoresTag(zone, r, q.tag);
      }
    }
  }

  lemma DecodeLawFrom(tr: Transport)
    requires forall r, q :: tr.decode(r).Ok? && tr.decode(q).Ok? && r.id == q.id ==>
      && r.kind == q.kind == KindOf(tr.decode(r).value) && KindOf(tr.decode(q).value) == q.kind
      && StableId(tr.decode(r).value) == StableId(tr.decode(q).value)
    requires forall r: Record, q: Record ::
      r.id == q.id && r.kind == q.kind && r.fields == q.fields ==> tr.decode(r) == tr.decode(q)
    ensures DecodeLaw(tr)
  {
    forall r | tr.decode(r).Ok? ensures r.kind == KindOf(tr.decode(r).value) {
      assert r.id == r.id;
    }
  }

  lemma StrippedDoesNotDecode(zone: string, q: Record)
    requires q.kind == ObjectType
    ensures Decode(zone, q.(fields := q.fields[Ciphertext := Asset(None)])).Err?
  {
  }

  lemma FloriaCopyLaw(zone: string, bootstrapMatches: (Record, Record) -> Result<bool, CodecError>)
    ensures CopyLaw(FloriaTransport(zone, bootstrapMatches))
  {
    var tr := FloriaTransport(zone, bootstrapMatches);
    forall s, q | IsCopy(s, q) && tr.decode(s).Ok? && tr.decode(q).Ok?
      ensures SamePayload(tr.decode(s).value, tr.decode(q).value) {
      if s != q {
        StrippedDoesNotDecode(zone, q);
      }
    }
  }

  lemma FloriaJudgeLaw(zone: string, bootstrapMatches: (Record, Record) -> Result<bool, CodecError>)
    ensures JudgeLaw(FloriaTransport(zone, bootstrapMatches))
  {
    var tr := FloriaTransport(zone, bootstrapMatches);
    CodecJudgeIsLawful(zone, bootstrapMatches);
    forall c, s | tr.judge.classify(c, s) == Ok(AlreadySaved)
      ensures c.id == s.id && tr.decode(c).Ok? && tr.decode(s).Ok?
        && SamePayload(tr.decode(c).value, tr.decode(s).value)
    {
      AcceptedCollision(zone, c, s);
    }
  }

  lemma CommitRecordShape(zone: string, c: Commit)
    requires CommitRecord(zone, c).Ok?
    ensures var r := CommitRecord(zone, c).value; r.tag.None? && r.kind == CommitType && Decode(zone, r).Ok?
  {
    CommitRoundTrip(zone, c);
  }

  lemma RevisionRecordShape(zone: string, rv: Revision)
    requires RevisionRecord(zone, rv).Ok?
    ensures var r := RevisionRecord(zone, rv).value; r.tag.None? && r.kind == RevisionType && Decode(zone, r).Ok?
  {
    RevisionRoundTrip(zone, rv);
  }

  lemma ImmutableParts(zone: string, c: Commit, records: seq<Record>)
    requires ImmutableRecords(zone, c) == Ok(records)
    ensures |records| == 1 + |c.revisions| && CommitRecord(zone, c) == Ok(records[0])
    ensures forall i :: 0 < i < |records| ==> RevisionRecord(zone, c.revisions[i - 1]) == Ok(records[i])
  {
  }

  lemma FloriaImmutableLaw(zone: string, bootstrapMatches: (Record, Record) -> Result<bool, CodecError>, c: Commit)
    ensures ImmutableLaw(FloriaTransport(zone, bootstrapMatches), c)
  {
    if ImmutableRecords(zone, c).Ok? {
      var records := ImmutableRecords(zone, c).value;
      ImmutableParts(zone, c, records);
      CommitRecordShape(zone, c);
      forall i | 0 < i < |records|
        ensures records[i].tag.None? && records[i].kind == RevisionType && Decode(zone, records[i]).Ok? {
        RevisionRecordShape(zone, c.revisions[i - 1]);
      }
      ImmutableLawFrom(FloriaTransport(zone, bootstrapMatches), c, records);
    }
  }

  lemma ImmutableLawFrom(tr: Transport, c: Commit, records: seq<Record>)
    requires tr.immutable(c) == Ok(records) && |records| == 1 + |c.revisions|
    requires records[0].tag.None? && records[0].kind == CommitType && tr.decode(records[0]).Ok?
    requires forall i :: 0 < i < |records| ==>
      records[i].tag.None? && records[i].kind == RevisionType && tr.decode(records[i]).Ok?
    ensures ImmutableLaw(tr, c)
  {
    forall r | r in records ensures r.tag.None? && tr.decode(r).Ok? && r.kind != HeadType && r.kind != ObjectType {
      var i :| 0 <= i < |records| && records[i] == r;
    }
  }

  // ----- plan laws -----

  lemma UpdatedHeadDecodes(zone: string, cached: Record, e: string, revisionID: string)
    requires HeadRevision(zone, cached, e).Ok?
    requires IsUuid(revisionID) && Lower(revisionID) == revisionID
    ensures Decode(zone, cached) == Ok(DecodedHead(e, HeadRevision(zone, cached, e).value))
    ensures Decode(zone, cached.(fields := cached.fields[RevisionID := Text(revisionID)]))
      == Ok(DecodedHead(e, revisionID))
  {
  }

  lemma PlannedHead(zone: string, bootstrapMatches: (Record, Record) -> Result<bool, CodecError>, rv: Revision,
      heads: map<string, Record>)
    requires PlanHead(zone, rv, heads).Ok? && PlanHead(zone, rv, heads).value.SaveHead?
    ensures HeadFor(FloriaTransport(zone, bootstrapMatches), rv, heads, PlanHead(zone, rv, heads).value.head)
  {
    LowerUuid(rv.entityID);
    LowerUuid(rv.revisionID);
    var e := Lower(rv.entityID);
    if rv.expectedHeads == [] {
      HeadRoundTrip(zone, e, Lower(rv.revisionID));
    } else {
      UpdatedHeadDecodes(zone, heads[e], e, Lower(rv.revisionID));
      assert HeadVersion(FloriaTransport(zone, bootstrapMatches), heads[e], e, HeadRevision(zone, heads[e], e).value);
    }
  }

  lemma ReadyPlan(zone: string, bootstrapMatches: (Record, Record) -> Result<bool, CodecError>, c: Commit,
      heads: map<string, Record>)
    requires CommitPlanFor(zone, c, heads).Ok? && CommitPlanFor(zone, c, heads).value.Ready?
    ensures CommitRecordsFor(FloriaTransport(zone, bootstrapMatches), c, heads,
      CommitPlanFor(zone, c, heads).value.records)
  {
    var tr := FloriaTransport(zone, bootstrapMatches);
    var plans := PlanHeads(revision => PlanHead(zone, revision, heads), c.revisions).value;
    QuietPlans(plans);
    AllSaved(plans);
    var immutable := ImmutableRecords(zone, c).value;
    forall i | 0 <= i < |c.revisions| ensures HeadFor(tr, c.revisions[i], heads, plans[i].head) {
      assert plans[i] in plans;
      PlannedHead(zone, bootstrapMatches, c.revisions[i], heads);
    }
    assert CommitPlanFor(zone, c, heads).value.records == immutable + HeadsToSave(plans);
    PlannedRecords(tr, c, heads, immutable, HeadsToSave(plans));
  }

  lemma PlannedRecords(tr: Transport, c: Commit, heads: map<string, Record>, immutable: seq<Record>, saved: seq<Record>)
    requires tr.immutable(c) == Ok(immutable) && |saved| == |c.revisions|
    requires forall i :: 0 <= i < |c.revisions| ==> HeadFor(tr, c.revisions[i], heads, saved[i])
    ensures CommitRecordsFor(tr, c, heads, immutable + saved)
  {
    var records := immutable + saved;
    assert records[..|immutable|] == immutable;
    forall i | 0 <= i < |c.revisions| ensures HeadFor(tr, c.revisions[i], heads, records[|immutable| + i]) {
      assert records[|immutable| + i] == saved[i];
    }
  }

  // ----- planning a commit that has landed -----

  lemma {:induction false} PlansAre(planHead: Revision -> Result<HeadPlan, CodecError>, revisions: seq<Revision>,
      plans: seq<HeadPlan>)
    requires |plans| == |revisions|
    requires forall i :: 0 <= i < |revisions| ==> planHead(revisions[i]) == Ok(plans[i])
    ensures PlanHeads(planHead, revisions) == Ok(plans)
    decreases |revisions|
  {
    if revisions != [] {
      var n := |revisions| - 1;
      PlansAre(planHead, revisions[..n], plans[..n]);
      assert plans == plans[..n] + [plans[n]];
    }
  }

  /** The cached head carries the revision itself, which is none that it replaces. */
  ghost predicate Refreshed(zone: string, rv: Revision, cached: map<string, Record>) {
    var e := Lower(rv.entityID);
    && IsUuid(rv.entityID) && IsUuid(rv.revisionID) && AllUuids(rv.expectedHeads) && e in cached
    && HeadRevision(zone, cached[e], e) == Ok(Lower(rv.revisionID)) && Lower(rv.revisionID) !in ExpectedRevisions(rv)
  }

  /** The cached head is still one that the revision replaces. */
  ghost predicate Outdated(zone: string, rv: Revision, cached: map<string, Record>) {
    PlanHead(zone, rv, cached).Ok? && PlanHead(zone, rv, cached).value.SaveHead?
  }

  lemma RefreshedPlan(zone: string, rv: Revision, cached: map<string, Record>)
    requires Refreshed(zone, rv, cached)
    ensures PlanHead(zone, rv, cached) == Ok(HeadInConflict(Lower(rv.entityID)))
  {
  }

  /**
   A commit whose own revisions may already be the heads: it is sent again whole as long as no cached head has been
   refreshed, and goes to the conflict branch exactly when one has, although nothing is in conflict with it.
   */
  lemma LandedCommitPlan(zone: string, c: Commit, cached: map<string, Record>)
    requires ImmutableRecords(zone, c).Ok?
    requires forall rv :: rv in c.revisions ==> Refreshed(zone, rv, cached) || Outdated(zone, rv, cached)
    ensures CommitPlanFor(zone, c, cached).Ok?
    ensures var plan := CommitPlanFor(zone, c, cached).value;
      && (plan.Conflict? <==> exists rv :: rv in c.revisions && Refreshed(zone, rv, cached))
      && (plan.Conflict? ==>
            plan.entityIDs == set rv | rv in c.revisions && Refreshed(zone, rv, cached) :: Lower(rv.entityID))
      && (!plan.Conflict? ==> plan.Ready?)
  {
    var planHead := (revision: Revision) => PlanHead(zone, revision, cached);
    forall rv | rv in c.revisions && Refreshed(zone, rv, cached)
      ensures planHead(rv) == Ok(HeadInConflict(Lower(rv.entityID))) {
      RefreshedPlan(zone, rv, cached);
    }
    var plans := seq(|c.revisions|, i requires 0 <= i < |c.revisions| => planHead(c.revisions[i]));
    assert forall i :: 0 <= i < |plans| ==> c.revisions[i] in c.revisions;
    var values := Map((p: Result<HeadPlan, CodecError>) => if p.Ok? then p.value else FetchHead(""), plans);
    PlansAre(planHead, c.revisions, values);
    LandedPlans(zone, c, cached, values);
  }

  lemma LandedPlans(zone: string, c: Commit, cached: map<string, Record>, plans: seq<HeadPlan>)
    requires |plans| == |c.revisions|
    requires forall i :: 0 <= i < |plans| ==> PlanHead(zone, c.revisions[i], cached) == Ok(plans[i])
    requires forall i :: 0 <= i < |plans| ==>
      if Refreshed(zone, c.revisions[i], cached) then plans[i] == HeadInConflict(Lower(c.revisions[i].entityID))
      else plans[i].SaveHead?
    ensures HeadsToFetch(plans) == {}
    ensures HeadsInConflict(plans) == set rv | rv in c.revisions && Refreshed(zone, rv, cached) :: Lower(rv.entityID)
    ensures HeadsInConflict(plans) != {} <==> exists rv :: rv in c.revisions && Refreshed(zone, rv, cached)
  {
    var lost := set rv | rv in c.revisions && Refreshed(zone, rv, cached) :: Lower(rv.entityID);
    forall rv | rv in c.revisions && Refreshed(zone, rv, cached) ensures Lower(rv.entityID) in HeadsInConflict(plans) {
      var i :| 0 <= i < |c.revisions| && c.revisions[i] == rv;
      assert plans[i] in plans;
    }
    forall e | e in HeadsInConflict(plans) ensures e in lost {
      var p :| p in plans && p.HeadInConflict? && p.entityID == e;
      var i :| 0 <= i < |plans| && plans[i] == p;
      assert c.revisions[i] in c.revisions;
    }
  }

  lemma PlannedObjects(zone: string, bootstrapMatches: (Record, Record) -> Result<bool, CodecError>,
      outbox: seq<Commit>, assets: seq<ObjectAsset>, records: seq<Record>)
    requires ObjectRecords(zone, assets) == Ok(records)
    requires forall a :: a in assets ==> a in BatchOf(outbox).objects
    ensures forall r :: r in records ==> r.tag.None? && ObjectOf(FloriaTransport(zone, bootstrapMatches), outbox, r)
  {
    var tr := FloriaTransport(zone, bootstrapMatches);
    var commits := FirstN(outbox, OUTBOUND_LIMIT);
    ObjectsOfLists(commits);
    forall r | r in records ensures r.tag.None? && ObjectOf(tr, outbox, r) {
      var i :| 0 <= i < |records| && records[i] == r;
      var a := assets[i];
      assert a in assets;
      ObjectRoundTrip(zone, a);
      var c :| c in commits && a in c.objects;
      assert c in outbox;
      assert tr.decode(r) == Ok(DecodedObject(a.digest, a.ciphertextSize, a.file));
    }
  }

  lemma NothingMissing(outbox: seq<Commit>, verified: set<string>)
    requires outbox != [] && MissingObjects(BatchOf(outbox).objects, verified) == []
    ensures forall a :: a in outbox[0].objects ==> a.digest in verified
  {
    var commits := FirstN(outbox, OUTBOUND_LIMIT);
    ObjectsOfLists(commits);
    forall a | a in outbox[0].objects ensures a.digest in verified {
      assert commits[0] in commits && commits[0] == outbox[0];
      assert Mentions(ObjectsOf(commits), a.digest);
      var b :| b in ObjectsOf(commits) && b.digest == a.digest;
      assert b !in MissingObjects(BatchOf(outbox).objects, verified);
    }
  }

  lemma FloriaPlanLaw(zone: string, bootstrapMatches: (Record, Record) -> Result<bool, CodecError>,
                      outbox: seq<Commit>, verified: set<string>, heads: map<string, Record>)
    ensures PlanLaw(FloriaTransport(zone, bootstrapMatches), outbox, verified, heads)
  {
    var action := NextAction(zone, BatchOf(outbox), verified, heads);
    if outbox != [] && action.Ok? {
      assert BatchOf(outbox).commits[0] == outbox[0];
      var missing := MissingObjects(BatchOf(outbox).objects, verified);
      if missing != [] {
        PlannedObjects(zone, bootstrapMatches, outbox, FirstN(missing, RECORD_LIMIT), action.value.objects);
      } else {
        NothingMissing(outbox, verified);
        if action.value.SaveCommit? {
          ReadyPlan(zone, bootstrapMatches, outbox[0], heads);
        }
      }
    }
  }

  lemma FloriaIsSound(zone: string, bootstrapMatches: (Record, Record) -> Result<bool, CodecError>)
    ensures Sound(FloriaTransport(zone, bootstrapMatches))
  {
    var tr := FloriaTransport(zone, bootstrapMatches);
    FloriaDecodeLaw(zone, bootstrapMatches);
    FloriaJudgeLaw(zone, bootstrapMatches);
    FloriaCopyLaw(zone, bootstrapMatches);
    forall c ensures ImmutableLaw(tr, c) {
      FloriaImmutableLaw(zone, bootstrapMatches, c);
    }
    forall outbox, verified, heads ensures PlanLaw(tr, outbox, verified, heads) {
      FloriaPlanLaw(zone, bootstrapMatches, outbox, verified, heads);
    }
  }

  // ----- the theorems -----

  /** Every state of every run with the real components satisfies the protocol invariant. */
  lemma StateInv(zone: string, bootstrapMatches: (Record, Record) -> Result<bool, CodecError>, size: string -> nat,
                 ws: seq<World>, i: nat)
    requires Run(FloriaTransport(zone, bootstrapMatches), size, ws) && i < |ws|
    ensures Inv(FloriaTransport(zone, bootstrapMatches), size, ws[i])
  {
    FloriaIsSound(zone, bootstrapMatches);
    RunInv(FloriaTransport(zone, bootstrapMatches), size, ws, i);
  }

  /**
   No lost update. In every run of any number of devices, each step that changes a record is the serving
   of a sent batch, which creates a create-only record, or moves a head to a revision of that batch's own
   commit from a revision that it expects; a head is created only by a revision that expects none.
   */
  lemma NoLostUpdate(zone: string, bootstrapMatches: (Record, Record) -> Result<bool, CodecError>, size: string -> nat,
                     ws: seq<World>, i: nat, id: RecordId)
    requires Run(FloriaTransport(zone, bootstrapMatches), size, ws) && i + 1 < |ws|
    requires Changed(ws[i].server, ws[i + 1].server, id)
    ensures MovedByRequest(FloriaTransport(zone, bootstrapMatches), ws[i], ws[i + 1], id)
  {
    var tr := FloriaTransport(zone, bootstrapMatches);
    FloriaIsSound(zone, bootstrapMatches);
    RunInv(tr, size, ws, i);
    assert SyncProtocol.Step(tr, size, ws[i], ws[i + 1]);
    StepMoves(tr, size, ws[i], ws[i + 1], id);
  }

  /** Every head a device caches or has checkpointed is a version the server itself held earlier. */
  lemma CachedHeadsAreHistory(zone: string, bootstrapMatches: (Record, Record) -> Result<bool, CodecError>,
      size: string -> nat, ws: seq<World>, i: nat, d: nat, e: string)
    requires Run(FloriaTransport(zone, bootstrapMatches), size, ws) && i < |ws| && d in ws[i].devices
    ensures e in ws[i].devices[d].heads ==> ServedBy(ws, i, ws[i].devices[d].heads[e])
    ensures e in ws[i].devices[d].checkpoint ==> ServedBy(ws, i, ws[i].devices[d].checkpoint[e])
  {
    var tr := FloriaTransport(zone, bootstrapMatches);
    FloriaIsSound(zone, bootstrapMatches);
    RunInv(tr, size, ws, i);
    var v := ws[i].devices[d];
    assert DeviceOk(tr, size, ws[i], v);
    if e in v.heads {
      HeldWasServed(tr, size, ws, i, v.heads[e]);
    }
    if e in v.checkpoint {
      HeldWasServed(tr, size, ws, i, v.checkpoint[e]);
    }
  }

  /** The object with this digest is on the server, with exactly this digest and size. */
  ghost predicate ObjectOnServer(zone: string, s: Server, digest: string, ciphertextSize: nat) {
    var id := IdFor(zone, "object", digest);
    && id in s.records && Decode(zone, s.records[id]).Ok?
    && var o := Decode(zone, s.records[id]).value;
    o.DecodedObject? && o.digest == digest && o.ciphertextSize == ciphertextSize
  }

  lemma HeldObjectOnServer(zone: string, bootstrapMatches: (Record, Record) -> Result<bool, CodecError>,
      size: string -> nat, w: World, digest: string)
    requires ServerInv(FloriaTransport(zone, bootstrapMatches), w)
    requires ObjectHeld(FloriaTransport(zone, bootstrapMatches), size, w.held, digest)
    ensures ObjectOnServer(zone, w.server, digest, size(digest))
  {
    var tr := FloriaTransport(zone, bootstrapMatches);
    var q :| q in w.held && tr.decode(q).Ok? && tr.decode(q).value.DecodedObject?
      && tr.decode(q).value.digest == digest && tr.decode(q).value.ciphertextSize == size(digest);
    DecodeChecksIdentity(zone, q);
  }

  /** Every object of the commit is on the server, with the digest and size of the commit's own asset. */
  ghost predicate ObjectsOnServer(zone: string, s: Server, c: Commit) {
    forall a :: a in c.objects ==> ObjectOnServer(zone, s, a.digest, a.ciphertextSize)
  }

  lemma HeldObjectsOnServer(zone: string, bootstrapMatches: (Record, Record) -> Result<bool, CodecError>,
      size: string -> nat, w: World, c: Commit)
    requires ServerInv(FloriaTransport(zone, bootstrapMatches), w)
    requires ObjectsHeld(FloriaTransport(zone, bootstrapMatches), size, w.held, c)
    ensures ObjectsOnServer(zone, w.server, c)
  {
    forall a | a in c.objects ensures ObjectOnServer(zone, w.server, a.digest, a.ciphertextSize) {
      HeldObjectOnServer(zone, bootstrapMatches, size, w, a.digest);
    }
  }

  /** The stored record is the record of this commit, which was sent and has all its objects on the server. */
  ghost predicate PublishedWithObjects(zone: string, w: World, r: Record, c: Commit) {
    CommitRecord(zone, c) == Ok(r.(tag := None)) && WasSent(w.requests, c) && ObjectsOnServer(zone, w.server, c)
  }

  lemma OriginPublishes(zone: string, bootstrapMatches: (Record, Record) -> Result<bool, CodecError>,
      size: string -> nat, w: World, id: RecordId)
    requires ServerInv(FloriaTransport(zone, bootstrapMatches), w)
    requires OriginOk(FloriaTransport(zone, bootstrapMatches), size, w, id)
    ensures PublishedWithObjects(zone, w, w.server.records[id], w.origin[id])
  {
    var c, r := w.origin[id], w.server.records[id];
    FloriaImmutableLaw(zone, bootstrapMatches, c);
    HeldObjectsOnServer(zone, bootstrapMatches, size, w, c);
    assert ImmutableRecords(zone, c).value[0] == r.(tag := None);
  }

  /**
   Objects before commits. In every state of every run, each commit record on the server is the
   record of the commit whose batch created it, and all objects of that commit are on the server
   with exact digest and size.
   */
  lemma ObjectsBeforeCommits(zone: string, bootstrapMatches: (Record, Record) -> Result<bool, CodecError>,
      size: string -> nat, ws: seq<World>, i: nat, id: RecordId)
    requires Run(FloriaTransport(zone, bootstrapMatches), size, ws) && i < |ws|
    requires id in ws[i].server.records && ws[i].server.records[id].kind == CommitType
    ensures id in ws[i].origin && PublishedWithObjects(zone, ws[i], ws[i].server.records[id], ws[i].origin[id])
  {
    StateInv(zone, bootstrapMatches, size, ws, i);
    OriginPublishes(zone, bootstrapMatches, size, ws[i], id);
  }

  /** Already when a commit or its conflict branch is sent, all its objects are on the server, and they stay. */
  lemma ObjectsBeforeSending(zone: string, bootstrapMatches: (Record, Record) -> Result<bool, CodecError>,
      size: string -> nat, ws: seq<World>, i: nat, request: Request)
    requires Run(FloriaTransport(zone, bootstrapMatches), size, ws) && i < |ws|
    requires request in ws[i].requests && PublishesCommit(request)
    ensures ObjectsOnServer(zone, ws[i].server, request.commit)
  {
    var tr := FloriaTransport(zone, bootstrapMatches);
    StateInv(zone, bootstrapMatches, size, ws, i);
    assert RequestOk(tr, size, ws[i].held, request);
    HeldObjectsOnServer(zone, bootstrapMatches, size, ws[i], request.commit);
  }

  // ----- settlement -----

  /** The manifest and all revisions of the commit are on the server, unchanged. */
  ghost predicate ImmutableOnServer(zone: string, s: Server, c: Commit) {
    && ImmutableRecords(zone, c).Ok?
    && forall r :: r in ImmutableRecords(zone, c).value ==>
         r.id in s.records && Decode(zone, r).Ok? && Decode(zone, s.records[r.id]) == Decode(zone, r)
  }

  lemma HeldIsOnServer(zone: string, bootstrapMatches: (Record, Record) -> Result<bool, CodecError>, w: World,
      c: Commit)
    requires ServerInv(FloriaTransport(zone, bootstrapMatches), w)
    requires ImmutableHeld(FloriaTransport(zone, bootstrapMatches), w.held, c)
    ensures ImmutableOnServer(zone, w.server, c)
  {
    var tr := FloriaTransport(zone, bootstrapMatches);
    FloriaImmutableLaw(zone, bootstrapMatches, c);
    FloriaDecodeLaw(zone, bootstrapMatches);
    forall r | r in ImmutableRecords(zone, c).value
      ensures r.id in w.server.records && Decode(zone, r).Ok? && Decode(zone, w.server.records[r.id]) == Decode(zone, r)
    {
      assert PayloadHeld(tr, w.held, r);
      var q :| q in w.held && q.id == r.id && tr.decode(r).Ok? && tr.decode(q).Ok?
        && SamePayload(tr.decode(r).value, tr.decode(q).value);
      SameIdSameKind(tr, q, r);
    }
  }

  /** The head of the revision's entity carried the revision at some point of the run so far. */
  ghost predicate HeadWasServed(zone: string, ws: seq<World>, i: nat, rv: Revision) {
    exists q :: ServedBy(ws, i, q) && Decode(zone, q) == Ok(DecodedHead(Lower(rv.entityID), Lower(rv.revisionID)))
  }

  /**
   Settlement is sound. A settled commit has its manifest and every revision on the server
   unchanged, now and ever after; one settled as accepted also saw each of its heads carry its
   revision.
   */
  lemma SettlementIsSound(zone: string, bootstrapMatches: (Record, Record) -> Result<bool, CodecError>,
      size: string -> nat, ws: seq<World>, i: nat, k: nat)
    requires Run(FloriaTransport(zone, bootstrapMatches), size, ws) && i < |ws| && k < |ws[i].settled|
    ensures ImmutableOnServer(zone, ws[i].server, ws[i].settled[k].commit)
    ensures ws[i].settled[k].disposition.Accepted? ==>
      forall rv :: rv in ws[i].settled[k].commit.revisions ==> HeadWasServed(zone, ws, i, rv)
  {
    var tr := FloriaTransport(zone, bootstrapMatches);
    StateInv(zone, bootstrapMatches, size, ws, i);
    var s := ws[i].settled[k];
    assert SettlementOk(tr, ws[i].held, s);
    HeldIsOnServer(zone, bootstrapMatches, ws[i], s.commit);
    if s.disposition.Accepted? {
      forall rv | rv in s.commit.revisions ensures HeadWasServed(zone, ws, i, rv) {
        HeadHeldWasServed(zone, bootstrapMatches, size, ws, i, rv);
      }
    }
  }

  /** And a commit leaves a device's outbox only by such a settlement, of its id. */
  lemma OutboxShrinksBySettlement(zone: string, bootstrapMatches: (Record, Record) -> Result<bool, CodecError>,
      size: string -> nat, ws: seq<World>, i: nat, d: nat, c: Commit)
    requires Run(FloriaTransport(zone, bootstrapMatches), size, ws) && i + 1 < |ws|
    requires d in ws[i].devices && c in ws[i].devices[d].outbox && d in ws[i + 1].devices
      && c !in ws[i + 1].devices[d].outbox
    ensures SettledNow(ws[i], ws[i + 1], c.commitID)
  {
    StateInv(zone, bootstrapMatches, size, ws, i);
    assert SyncProtocol.Step(FloriaTransport(zone, bootstrapMatches), size, ws[i], ws[i + 1]);
    LeavesBySettlement(FloriaTransport(zone, bootstrapMatches), size, ws[i], ws[i + 1], d, c);
  }

  /** This very commit was settled by the step. */
  ghost predicate SettledItself(w: World, w': World, c: Commit) {
    exists k :: |w.settled| <= k < |w'.settled| && w'.settled[k].commit == c
  }

  /** With commit ids that are never used twice, it is that very commit. */
  lemma LeavesBySettlementOfItself(zone: string, bootstrapMatches: (Record, Record) -> Result<bool, CodecError>,
      size: string -> nat, ws: seq<World>, i: nat, d: nat, c: Commit)
    requires Run(FloriaTransport(zone, bootstrapMatches), size, ws) && i + 1 < |ws|
    requires forall k :: 0 <= k < |ws| - 1 ==> FreshIds(size, ws[k], ws[k + 1])
    requires d in ws[i].devices && c in ws[i].devices[d].outbox && d in ws[i + 1].devices
      && c !in ws[i + 1].devices[d].outbox
    ensures SettledItself(ws[i], ws[i + 1], c)
  {
    OutboxShrinksBySettlement(zone, bootstrapMatches, size, ws, i, d, c);
    RunIdentifies(FloriaTransport(zone, bootstrapMatches), size, ws, i);
    assert Issued(ws[i], c);
  }

  lemma HeadHeldWasServed(zone: string, bootstrapMatches: (Record, Record) -> Result<bool, CodecError>,
      size: string -> nat, ws: seq<World>, i: nat, rv: Revision)
    requires Run(FloriaTransport(zone, bootstrapMatches), size, ws) && i < |ws|
    requires HeadHeld(FloriaTransport(zone, bootstrapMatches), ws[i].held, rv)
    ensures HeadWasServed(zone, ws, i, rv)
  {
    var tr := FloriaTransport(zone, bootstrapMatches);
    FloriaIsSound(zone, bootstrapMatches);
    var q :| q in ws[i].held && HeadVersion(tr, q, Lower(rv.entityID), Lower(rv.revisionID));
    HeldWasServed(tr, size, ws, i, q);
  }

  /** Serving a conflict branch touches no head. */
  lemma ConflictBranchTouchesNoHead(zone: string, bootstrapMatches: (Record, Record) -> Result<bool, CodecError>,
      size: string -> nat, ws: seq<World>, i: nat, request: Request, s': Server, id: RecordId)
    requires Run(FloriaTransport(zone, bootstrapMatches), size, ws) && i < |ws| && request in ws[i].requests
    requires request.phase.ConflictBranchPhase?
    requires Writes(ws[i].server, s', request.phase.records, false) && Changed(ws[i].server, s', id)
    ensures s'.records[id].kind != HeadType && id !in ws[i].server.records
  {
    var tr := FloriaTransport(zone, bootstrapMatches);
    FloriaIsSound(zone, bootstrapMatches);
    RunInv(tr, size, ws, i);
    assert RequestOk(tr, size, ws[i].held, request) && ImmutableLaw(tr, request.commit);
    var r := SentFor(ws[i].server, s', request.phase.records, false, id);
    SentRecord(tr, size, ws[i].held, request, r);
  }
}
