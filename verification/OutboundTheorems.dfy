/** The real codec, planner and resolver satisfy the laws of the outbound loop. */
module OutboundTheorems {
  import opened Prelude
  import opened Records
  import opened RecordCodec
  import opened Planner
  import opened Resolver
  import opened CloudServer
  import opened SyncProtocol
  import opened SyncTheorems
  import opened OutboundLoop
  import opened Text

  function Digests(objects: seq<ObjectAsset>): set<string> {
    set a | a in objects :: a.digest
  }

  function FloriaNames(zone: string): OutboundLoop.Names {
    OutboundLoop.Names(e => IdFor(zone, "head", e), outbox => Digests(BatchOf(outbox).objects))
  }

  lemma HeadIdentity(zone: string, r: Record, e: string)
    requires Decode(zone, r).Ok? && r.id == IdFor(zone, "head", e)
    ensures Decode(zone, r).value.DecodedHead? && Decode(zone, r).value.headEntityID == e
  {
    DecodeChecksIdentity(zone, r);
    IdentityInjective(zone, Decode(zone, r).value, DecodedHead(e, ""));
  }

  lemma HeadName(zone: string, r: Record)
    requires Decode(zone, r).Ok? && Decode(zone, r).value.DecodedHead?
    ensures r.id == IdFor(zone, "head", Decode(zone, r).value.headEntityID)
  {
    DecodeChecksIdentity(zone, r);
  }

  lemma FloriaHeadLaw(zone: string, bootstrapMatches: (Record, Record) -> Result<bool, CodecError>)
    ensures HeadLaw(FloriaTransport(zone, bootstrapMatches), FloriaNames(zone))
  {
    var tr, names := FloriaTransport(zone, bootstrapMatches), FloriaNames(zone);
    forall r | tr.decode(r).Ok? && tr.decode(r).value.DecodedHead?
      ensures r.id == names.headId(tr.decode(r).value.headEntityID) {
      HeadName(zone, r);
    }
    forall r, e | tr.decode(r).Ok? && r.id == names.headId(e) ensures tr.decode(r).value.DecodedHead?
      && tr.decode(r).value.headEntityID == e {
      HeadIdentity(zone, r, e);
    }
    forall c, s | tr.judge.classify(c, s).Ok? && tr.judge.classify(c, s).value.HeadConflict?
      ensures c.id == s.id && c.kind == s.kind == HeadType
      ensures tr.decode(s).Ok? && tr.decode(s).value.DecodedHead?
        && tr.decode(s).value.headEntityID == tr.judge.classify(c, s).value.entityID
    {
      ConflictingCollision(zone, c, s);
    }
  }

  // ----- the plan -----

  lemma ObjectsHelp(zone: string, bootstrapMatches: (Record, Record) -> Result<bool, CodecError>,
      missing: seq<ObjectAsset>, gap: set<string>, records: seq<Record>)
    requires missing != [] && missing[0].digest in gap
      && ObjectRecords(zone, FirstN(missing, RECORD_LIMIT)) == Ok(records)
    ensures HelpsObjects(FloriaTransport(zone, bootstrapMatches), gap, records)
  {
    var tr := FloriaTransport(zone, bootstrapMatches);
    var first := FirstN(missing, RECORD_LIMIT)[0];
    assert first == missing[0];
    ObjectRoundTrip(zone, first);
    assert records[0] in records
      && tr.decode(records[0]) == Ok(DecodedObject(first.digest, first.ciphertextSize, first.file));
    assert first.digest in VerifiedDigests(tr, records) * gap;
  }

  lemma FetchedIsUncached(zone: string, c: Commit, heads: map<string, Record>, e: string)
    requires CommitPlanFor(zone, c, heads).Ok? && CommitPlanFor(zone, c, heads).value.NeedsHeadFetch?
      && e in CommitPlanFor(zone, c, heads).value.entityIDs
    ensures e in Entities([c]) && e !in heads
  {
    var plans := PlanHeads(revision => PlanHead(zone, revision, heads), c.revisions).value;
    var p :| p in plans && p.FetchHead? && p.entityID == e;
    var i :| 0 <= i < |plans| && plans[i] == p;
    FetchedPlan(zone, c.revisions[i], heads);
    assert c.revisions[i] in c.revisions;
  }

  lemma FetchedPlan(zone: string, rv: Revision, heads: map<string, Record>)
    requires PlanHead(zone, rv, heads).Ok? && PlanHead(zone, rv, heads).value.FetchHead?
    ensures PlanHead(zone, rv, heads).value.entityID == Lower(rv.entityID) && Lower(rv.entityID) !in heads
  {
  }

  lemma FetchNonempty(zone: string, c: Commit, heads: map<string, Record>)
    requires CommitPlanFor(zone, c, heads).Ok? && CommitPlanFor(zone, c, heads).value.NeedsHeadFetch?
    ensures CommitPlanFor(zone, c, heads).value.entityIDs != {}
  {
  }

  lemma SavedPlan(zone: string, bootstrapMatches: (Record, Record) -> Result<bool, CodecError>, rv: Revision,
      heads: map<string, Record>)
    requires PlanHead(zone, rv, heads).Ok? && PlanHead(zone, rv, heads).value.SaveHead?
    ensures var h, e := PlanHead(zone, rv, heads).value.head, Lower(rv.entityID);
      h.id == IdFor(zone, "head", e) && if e in heads then heads[e].tag == h.tag else h.tag.None?
  {
    var h := PlanHead(zone, rv, heads).value.head;
    PlannedHead(zone, bootstrapMatches, rv, heads);
    assert Decode(zone, h) == Ok(DecodedHead(Lower(rv.entityID), Lower(rv.revisionID)));
    HeadName(zone, h);
  }

  lemma CommitHeads(zone: string, bootstrapMatches: (Record, Record) -> Result<bool, CodecError>, outbox: seq<Commit>,
      heads: map<string, Record>, r: Record)
    requires outbox != [] && CommitPlanFor(zone, outbox[0], heads).Ok?
      && CommitPlanFor(zone, outbox[0], heads).value.Ready?
    requires r in CommitPlanFor(zone, outbox[0], heads).value.records && r.kind == HeadType
    ensures PlannedFrom(FloriaTransport(zone, bootstrapMatches), FloriaNames(zone), outbox, heads, r)
  {
    var c := outbox[0];
    var plans := PlanHeads(revision => PlanHead(zone, revision, heads), c.revisions).value;
    var immutable := ImmutableRecords(zone, c).value;
    FloriaImmutableLaw(zone, bootstrapMatches, c);
    assert r in HeadsToSave(plans) by {
      assert CommitPlanFor(zone, c, heads).value.records == immutable + HeadsToSave(plans);
      assert r !in immutable;
    }
    QuietPlans(plans);
    AllSaved(plans);
    var i :| 0 <= i < |plans| && HeadsToSave(plans)[i] == r;
    assert plans[i] in plans;
    SavedPlan(zone, bootstrapMatches, c.revisions[i], heads);
    assert c.revisions[i] in c.revisions;
    assert Lower(c.revisions[i].entityID) in Entities(outbox);
  }

  lemma FloriaLoopPlan(zone: string, bootstrapMatches: (Record, Record) -> Result<bool, CodecError>,
      outbox: seq<Commit>, verified: set<string>, heads: map<string, Record>)
    ensures LoopPlan(FloriaTransport(zone, bootstrapMatches), FloriaNames(zone), outbox, verified, heads)
  {
    var tr, names := FloriaTransport(zone, bootstrapMatches), FloriaNames(zone);
    var batch := BatchOf(outbox);
    var action := NextAction(zone, batch, verified, heads);
    if outbox != [] && action.Ok? {
      assert batch.commits[0] == outbox[0];
      var missing := MissingObjects(batch.objects, verified);
      if missing != [] {
        assert missing[0] in missing;
        ObjectsHelp(zone, bootstrapMatches, missing, names.digests(outbox) - verified, action.value.objects);
      } else if action.value.FetchHeads? {
        FetchNonempty(zone, outbox[0], heads);
        FetchPlan(zone, outbox, heads, CommitPlanFor(zone, outbox[0], heads).value.entityIDs, action.value.recordIDs);
      } else if action.value.SaveCommit? {
        forall r | r in action.value.records && r.kind == HeadType ensures PlannedFrom(tr, names, outbox, heads, r) {
          CommitHeads(zone, bootstrapMatches, outbox, heads, r);
        }
      }
    }
  }

  lemma FetchPlan(zone: string, outbox: seq<Commit>, heads: map<string, Record>, entityIDs: set<string>,
      ids: set<RecordId>)
    requires outbox != [] && CommitPlanFor(zone, outbox[0], heads) == Ok(NeedsHeadFetch(entityIDs)) && entityIDs != {}
    requires ids == set e | e in entityIDs :: IdFor(zone, "head", e)
    ensures ids != {} && forall id :: id in ids ==> Uncached(FloriaNames(zone), outbox, heads, id)
  {
    var x :| x in entityIDs;
    assert IdFor(zone, "head", x) in ids;
    forall id | id in ids ensures Uncached(FloriaNames(zone), outbox, heads, id) {
      var e :| e in entityIDs && IdFor(zone, "head", e) == id;
      FetchedIsUncached(zone, outbox[0], heads, e);
      assert FloriaNames(zone).headId(e) == id;
    }
  }

  lemma FloriaLoopSound(zone: string, bootstrapMatches: (Record, Record) -> Result<bool, CodecError>)
    ensures LoopSound(FloriaTransport(zone, bootstrapMatches), FloriaNames(zone))
  {
    CodecJudgeIsLawful(zone, bootstrapMatches);
    FloriaHeadLaw(zone, bootstrapMatches);
    forall outbox, verified, heads
      ensures LoopPlan(FloriaTransport(zone, bootstrapMatches), FloriaNames(zone), outbox, verified, heads) {
      FloriaLoopPlan(zone, bootstrapMatches, outbox, verified, heads);
    }
  }
}
