/**
 What the schema, the planner and the collision reading come to, over the fields of records and the
 entries of a batch alone: every name, version and limit is written out here.
 */
module RecordReading {
  import opened Prelude
  import opened Text
  import opened Records
  import opened RecordCodec
  import opened Planner
  import Base64

  // ----- identifiers -----

  lemma HexDigits(c: char)
    ensures HexDigit(c) <==> c in "0123456789abcdefABCDEF"
  {
    var i := if c <= '9' then c as int - 48 else if c <= 'F' then c as int - 49 else c as int - 87;
    assert HexDigit(c) ==> c == "0123456789abcdefABCDEF"[i];
  }

  lemma LowerHexDigits(c: char)
    ensures LowerHexDigit(c) <==> c in "0123456789abcdef"
  {
    var i := if c <= '9' then c as int - 48 else c as int - 87;
    assert LowerHexDigit(c) ==> c == "0123456789abcdef"[i];
  }

  /** The text of section 4 of RFC 9562, in either case. */
  ghost predicate UuidText(s: string) {
    && |s| == 36 && s[8] == s[13] == s[18] == s[23] == '-'
    && forall i :: 0 <= i < 36 && i !in {8, 13, 18, 23} ==> s[i] in "0123456789abcdefABCDEF"
  }

  lemma UuidIff(s: string)
    ensures IsUuid(s) <==> UuidText(s)
  {
    if |s| == 36 {
      forall i | 0 <= i < 36 ensures HexDigit(s[i]) <==> s[i] in "0123456789abcdefABCDEF" {
        HexDigits(s[i]);
      }
    }
  }

  ghost predicate DigestText(s: string) {
    |s| == 64 && forall i :: 0 <= i < 64 ==> s[i] in "0123456789abcdef"
  }

  lemma DigestIff(s: string)
    ensures IsDigest(s) <==> DigestText(s)
  {
    forall i | 0 <= i < |s| ensures LowerHexDigit(s[i]) <==> s[i] in "0123456789abcdef" {
      LowerHexDigits(s[i]);
    }
  }

  /** `t` is `s` with capitals in their small form. */
  ghost predicate Folds(s: string, t: string) {
    && |t| == |s|
    && forall i :: 0 <= i < |s| ==>
      if 'A' <= s[i] <= 'Z' then t[i] as int == s[i] as int - 'A' as int + 'a' as int else t[i] == s[i]
  }

  lemma FoldIff(s: string, t: string)
    ensures Lower(s) == t <==> Folds(s, t)
  {
    if Folds(s, t) {
      forall i | 0 <= i < |s| ensures Lower(s)[i] == t[i] {
      }
    }
  }

  // ----- decoding -----

  ghost predicate Has(r: Record, f: FieldName, v: Field) {
    f in r.fields && r.fields[f] == v
  }

  /** The field spells the UUID `id` in some case. */
  ghost predicate HasUuid(r: Record, f: FieldName, id: string) {
    f in r.fields && r.fields[f].Text? && UuidText(r.fields[f].text) && Folds(r.fields[f].text, id)
  }

  /** The field is a payload, not empty, with this text. */
  ghost predicate HasPayload(r: Record, f: FieldName, text: string) {
    f in r.fields && r.fields[f].Blob? && r.fields[f].bytes != [] && text == Base64.Encode(r.fields[f].bytes)
  }

  /** The record spells out `d`: version 1, in this zone, under the name and the type of its kind. */
  ghost predicate Spells(zone: string, r: Record, d: Decoded) {
    && r.id.zone == zone && Has(r, SchemaVersion, Number(1))
    && match d
       case DecodedObject(digest, size, file) =>
         && r.kind == ObjectType && r.id.name == "object-" + digest && DigestText(digest)
         && Has(r, Digest, Text(digest)) && Has(r, CiphertextSize, Number(size))
         && Has(r, Ciphertext, Asset(Some(file)))
       case DecodedRevision(e, v, envelope64) =>
         && r.kind == RevisionType && r.id.name == "revision-" + v
         && HasUuid(r, EntityID, e) && HasUuid(r, RevisionID, v) && HasPayload(r, Envelope, envelope64)
       case DecodedManifest(c, manifest64) =>
         && r.kind == CommitType && r.id.name == "commit-" + c && HasUuid(r, CommitID, c)
         && HasPayload(r, Manifest, manifest64)
       case DecodedHead(e, v) =>
         && r.kind == HeadType && r.id.name == "head-" + e && HasUuid(r, EntityID, e) && HasUuid(r, RevisionID, v)
  }

  lemma UuidField(r: Record, f: FieldName, id: string)
    ensures HasUuid(r, f, id) <==>
      StringField(r, f).Ok? && ValidatedUuid(StringField(r, f).value) == Ok(id)
  {
    if f in r.fields && r.fields[f].Text? {
      UuidIff(r.fields[f].text);
      FoldIff(r.fields[f].text, id);
    }
  }

  lemma PayloadField(r: Record, f: FieldName, text: string)
    ensures HasPayload(r, f, text) <==> DataField(r, f).Ok? && Base64.Encode(DataField(r, f).value) == text
  {
  }

  /** Common facts of both directions. */
  ghost predicate Common(zone: string, r: Record) {
    r.id.zone == zone && Has(r, SchemaVersion, Number(1))
  }

  lemma CommonIff(zone: string, r: Record)
    ensures ValidateCommon(zone, r).Ok? <==> Common(zone, r)
  {
  }

  lemma NameIff(zone: string, r: Record, stableID: string)
    requires r.id.zone == zone
    ensures r.id == IdFor(zone, "object", stableID) <==> r.id.name == "object-" + stableID
    ensures r.id == IdFor(zone, "revision", stableID) <==> r.id.name == "revision-" + stableID
    ensures r.id == IdFor(zone, "commit", stableID) <==> r.id.name == "commit-" + stableID
    ensures r.id == IdFor(zone, "head", stableID) <==> r.id.name == "head-" + stableID
  {
    assert "object" + "-" == "object-" && "revision" + "-" == "revision-";
    assert "commit" + "-" == "commit-" && "head" + "-" == "head-";
  }

  lemma ObjectIff(zone: string, r: Record, digest: string, size: nat, file: File)
    requires Common(zone, r) && r.kind == ObjectType
    ensures DecodeObject(zone, r) == Ok(DecodedObject(digest, size, file)) <==>
      Spells(zone, r, DecodedObject(digest, size, file))
  {
    DigestIff(digest);
    NameIff(zone, r, digest);
  }

  lemma RevisionIff(zone: string, r: Record, e: string, v: string, envelope64: string)
    requires Common(zone, r) && r.kind == RevisionType
    ensures DecodeRevision(zone, r) == Ok(DecodedRevision(e, v, envelope64)) <==>
      Spells(zone, r, DecodedRevision(e, v, envelope64))
  {
    UuidField(r, EntityID, e);
    UuidField(r, RevisionID, v);
    PayloadField(r, Envelope, envelope64);
    NameIff(zone, r, v);
  }

  lemma ManifestIff(zone: string, r: Record, c: string, manifest64: string)
    requires Common(zone, r) && r.kind == CommitType
    ensures DecodeManifest(zone, r) == Ok(DecodedManifest(c, manifest64)) <==>
      Spells(zone, r, DecodedManifest(c, manifest64))
  {
    UuidField(r, CommitID, c);
    PayloadField(r, Manifest, manifest64);
    NameIff(zone, r, c);
  }

  lemma HeadIff(zone: string, r: Record, e: string, v: string)
    requires Common(zone, r) && r.kind == HeadType
    ensures DecodeHead(zone, r) == Ok(DecodedHead(e, v)) <==> Spells(zone, r, DecodedHead(e, v))
  {
    CommonIff(zone, r);
    UuidField(r, EntityID, e);
    UuidField(r, RevisionID, v);
    NameIff(zone, r, e);
  }

  /** The decoder accepts exactly the records that spell a value out, and reads that value. */
  lemma DecodeIff(zone: string, r: Record, d: Decoded)
    ensures Decode(zone, r) == Ok(d) <==> Spells(zone, r, d)
  {
    CommonIff(zone, r);
    if Common(zone, r) {
      match (r.kind, d)
      case (ObjectType, DecodedObject(digest, size, file)) => ObjectIff(zone, r, digest, size, file);
      case (RevisionType, DecodedRevision(e, v, envelope64)) => RevisionIff(zone, r, e, v, envelope64);
      case (CommitType, DecodedManifest(c, manifest64)) => ManifestIff(zone, r, c, manifest64);
      case (HeadType, DecodedHead(e, v)) => HeadIff(zone, r, e, v);
      case _ =>
    }
  }

  // ----- building -----

  /** A record that was never saved, with these fields and no others. */
  ghost predicate Fresh(r: Record, fields: set<FieldName>) {
    r.tag.None? && r.fields.Keys == fields
  }

  lemma ObjectBuilt(zone: string, asset: ObjectAsset)
    ensures ObjectRecord(zone, asset).Ok? <==>
      DigestText(asset.digest) && asset.ciphertextSize <= 9223372036854775807
      && asset.file.path != "" && asset.file.path[0] == '/'
    ensures ObjectRecord(zone, asset).Ok? ==>
      var r := ObjectRecord(zone, asset).value;
      && Spells(zone, r, DecodedObject(asset.digest, asset.ciphertextSize, asset.file))
      && Fresh(r, {SchemaVersion, Digest, CiphertextSize, Ciphertext})
  {
    DigestIff(asset.digest);
    if ObjectRecord(zone, asset).Ok? {
      ObjectRoundTrip(zone, asset);
      DecodeIff(zone, ObjectRecord(zone, asset).value,
                DecodedObject(asset.digest, asset.ciphertextSize, asset.file));
    }
  }

  /** The text denotes a payload that is not empty. */
  ghost predicate PayloadText(s: string) {
    Base64.Decode(s).Some? && Base64.Decode(s).value != []
  }

  lemma CommitBuilt(zone: string, commit: Commit)
    ensures CommitRecord(zone, commit).Ok? <==> UuidText(commit.commitID) && PayloadText(commit.manifest64)
    ensures CommitRecord(zone, commit).Ok? ==>
      var r := CommitRecord(zone, commit).value;
      && Spells(zone, r, DecodedManifest(Lower(commit.commitID),
                                         Base64.Encode(Base64.Decode(commit.manifest64).value)))
      && Fresh(r, {SchemaVersion, CommitID, Manifest}) && r.fields[CommitID] == Text(Lower(commit.commitID))
  {
    UuidIff(commit.commitID);
    if CommitRecord(zone, commit).Ok? {
      CommitRoundTrip(zone, commit);
      DecodeIff(zone, CommitRecord(zone, commit).value,
                DecodedManifest(Lower(commit.commitID), Base64.Encode(Base64.Decode(commit.manifest64).value)));
    }
  }

  ghost predicate Encodable(rv: Revision) {
    UuidText(rv.entityID) && UuidText(rv.revisionID) && PayloadText(rv.envelope64)
  }

  ghost predicate BuiltRevision(zone: string, rv: Revision, r: Record) {
    && PayloadText(rv.envelope64)
    && Spells(zone, r, DecodedRevision(Lower(rv.entityID), Lower(rv.revisionID),
                                       Base64.Encode(Base64.Decode(rv.envelope64).value)))
    && Fresh(r, {SchemaVersion, EntityID, RevisionID, Envelope})
    && r.fields[EntityID] == Text(Lower(rv.entityID)) && r.fields[RevisionID] == Text(Lower(rv.revisionID))
  }

  lemma RevisionBuilt(zone: string, rv: Revision)
    ensures RevisionRecord(zone, rv).Ok? <==> Encodable(rv)
    ensures RevisionRecord(zone, rv).Ok? ==> BuiltRevision(zone, rv, RevisionRecord(zone, rv).value)
  {
    UuidIff(rv.entityID);
    UuidIff(rv.revisionID);
    if RevisionRecord(zone, rv).Ok? {
      RevisionRoundTrip(zone, rv);
      DecodeIff(zone, RevisionRecord(zone, rv).value,
                DecodedRevision(Lower(rv.entityID), Lower(rv.revisionID),
                                Base64.Encode(Base64.Decode(rv.envelope64).value)));
    }
  }

  lemma {:induction false} RevisionsBuilt(zone: string, revisions: seq<Revision>)
    ensures RevisionRecords(zone, revisions).Ok? <==> forall rv :: rv in revisions ==> Encodable(rv)
  {
    if revisions != [] {
      RevisionBuilt(zone, revisions[0]);
      RevisionsBuilt(zone, revisions[1..]);
      assert forall rv :: rv in revisions <==> rv == revisions[0] || rv in revisions[1..];
    }
  }

  /** The create-only records of a commit: the manifest first, then every revision in its order. */
  ghost predicate BuiltCommit(zone: string, c: Commit, records: seq<Record>) {
    && |records| == 1 + |c.revisions| && CommitRecord(zone, c) == Ok(records[0])
    && forall i :: 0 <= i < |c.revisions| ==> BuiltRevision(zone, c.revisions[i], records[1 + i])
  }

  lemma ImmutableBuilt(zone: string, c: Commit)
    ensures ImmutableRecords(zone, c).Ok? <==>
      UuidText(c.commitID) && PayloadText(c.manifest64) && forall rv :: rv in c.revisions ==> Encodable(rv)
    ensures ImmutableRecords(zone, c).Ok? ==> BuiltCommit(zone, c, ImmutableRecords(zone, c).value)
  {
    CommitBuilt(zone, c);
    RevisionsBuilt(zone, c.revisions);
    if ImmutableRecords(zone, c).Ok? {
      var records := ImmutableRecords(zone, c).value;
      forall i | 0 <= i < |c.revisions| ensures BuiltRevision(zone, c.revisions[i], records[1 + i]) {
        RevisionBuilt(zone, c.revisions[i]);
        assert records[1 + i] == RevisionRecords(zone, c.revisions).value[i];
      }
    }
  }

  // ----- the next action -----

  /** The missing objects of the batch, in their order. */
  ghost predicate MissingInOrder(objects: seq<ObjectAsset>, verified: set<string>, missing: seq<ObjectAsset>) {
    if objects == [] then missing == []
    else if objects[0].digest in verified then MissingInOrder(objects[1..], verified, missing)
    else missing != [] && missing[0] == objects[0] && MissingInOrder(objects[1..], verified, missing[1..])
  }

  lemma {:induction false} MissingMeans(objects: seq<ObjectAsset>, verified: set<string>)
    ensures MissingInOrder(objects, verified, MissingObjects(objects, verified))
  {
    if objects != [] {
      MissingMeans(objects[1..], verified);
      var rest := MissingObjects(objects[1..], verified);
      assert [] + rest == rest && ([objects[0]] + rest)[1..] == rest;
    }
  }

  /** The first 250 of the missing objects, or all if they are fewer, each as its record. */
  ghost predicate Uploads(zone: string, missing: seq<ObjectAsset>, action: Result<Action, PlanningError>) {
    var n := if |missing| > 250 then 250 else |missing|;
    if exists i :: 0 <= i < n && ObjectRecord(zone, missing[i]).Err? then action.Err?
    else
      && action.Ok? && action.value.SaveObjects? && |action.value.objects| == n
      && forall i :: 0 <= i < n ==> ObjectRecord(zone, missing[i]) == Ok(action.value.objects[i])
  }

  lemma {:induction false} ObjectRecordsIff(zone: string, assets: seq<ObjectAsset>)
    ensures ObjectRecords(zone, assets).Ok? <==>
      forall i :: 0 <= i < |assets| ==> ObjectRecord(zone, assets[i]).Ok?
  {
    if assets != [] {
      ObjectRecordsIff(zone, assets[1..]);
      assert forall i :: 0 < i < |assets| ==> assets[i] == assets[1..][i - 1];
    }
  }

  lemma UploadsFirst(zone: string, missing: seq<ObjectAsset>, action: Result<Action, PlanningError>)
    requires match ObjectRecords(zone, FirstN(missing, 250))
      case Ok(records) => action == Ok(SaveObjects(records))
      case Err(error) => action == Err(CodecFailure(error))
    ensures Uploads(zone, missing, action)
  {
    ObjectRecordsIff(zone, FirstN(missing, 250));
  }

  /**
   The step of a send cycle. Nothing is left to do exactly without commits. An object not yet
   verified goes before the first commit; that commit then goes by its plan, and one of more than 250
   records is refused.
   */
  ghost predicate ActionMeans(zone: string, batch: Batch, verified: set<string>, cached: map<string, Record>,
                              action: Result<Action, PlanningError>)
  {
    if batch.commits == [] then action == Ok(Idle)
    else if exists a :: a in batch.objects && a.digest !in verified then
      exists missing :: MissingInOrder(batch.objects, verified, missing) && Uploads(zone, missing, action)
    else
      exists plan :: PlanMeans(zone, batch.commits[0], cached, plan)
        && Follows(zone, batch.commits[0], plan, action)
  }

  /** What is done about the plan of a commit. */
  ghost predicate Follows(zone: string, c: Commit, plan: Result<CommitPlan, CodecError>,
                          action: Result<Action, PlanningError>)
  {
    match plan
    case Err(_) => action.Err?
    case Ok(Ready(records)) =>
      if |records| <= 250 then action == Ok(SaveCommit(c.commitID, records))
      else action == Err(CommitExceedsRecordLimit(|records|))
    case Ok(NeedsHeadFetch(entities)) =>
      && action.Ok? && action.value.FetchHeads? && action.value.commitID == c.commitID
      && action.value.recordIDs == set e | e in entities :: RecordId(zone, "head-" + e)
    case Ok(Conflict(entities)) =>
      if ImmutableRecords(zone, c).Err? then action.Err?
      else action == Ok(SaveConflictBranch(c.commitID, entities, ImmutableRecords(zone, c).value))
  }

  lemma HeadNames(zone: string, entities: set<string>)
    ensures (set e | e in entities :: IdFor(zone, "head", e)) == set e | e in entities :: RecordId(zone, "head-" + e)
  {
    assert "head" + "-" == "head-";
  }

  lemma NextActionMeans(zone: string, batch: Batch, verified: set<string>, cached: map<string, Record>)
    ensures ActionMeans(zone, batch, verified, cached, NextAction(zone, batch, verified, cached))
  {
    if batch.commits != [] {
      var missing := MissingObjects(batch.objects, verified);
      var action := NextAction(zone, batch, verified, cached);
      if missing != [] {
        assert missing[0] in missing;
        MissingMeans(batch.objects, verified);
        UploadsFirst(zone, missing, action);
      } else {
        var c := batch.commits[0];
        var plan := CommitPlanFor(zone, c, cached);
        CommitPlanMeans(zone, c, cached);
        if plan.Ok? && plan.value.NeedsHeadFetch? {
          HeadNames(zone, plan.value.entityIDs);
        }
        assert Follows(zone, c, plan, action);
      }
    }
  }

  // ----- collisions -----

  /** The two records carry one payload; an object's bytes are checked against its own digest and size. */
  ghost predicate SamePayload(c: Decoded, s: Decoded) {
    match c
    case DecodedObject(digest, size, _) =>
      && s.DecodedObject? && s.digest == digest && s.ciphertextSize == size
      && s.file.sha256 == digest && s.file.size == size
    case DecodedRevision(_, _, _) => s == c
    case DecodedManifest(_, _) => s == c
    case DecodedHead(_, _) => false
  }

  /**
   Every collision: records of another name or type are damage, records that do not decode an error,
   heads agree or conflict by the text of their revision, anything else agrees by its payload or is damage.
   */
  lemma ClassifyIff(zone: string, client: Record, server: Record)
    ensures var found := Classify(zone, client, server);
      if client.id != server.id || client.kind != server.kind then found == Ok(DamagedRecord)
      else if Decode(zone, client).Err? then found == Err(Decode(zone, client).error)
      else if Decode(zone, server).Err? then found == Err(Decode(zone, server).error)
      else if client.kind == HeadType then
        && RevisionID in client.fields && RevisionID in server.fields
        && found == Ok(if client.fields[RevisionID] == server.fields[RevisionID] then AlreadySaved
                       else HeadConflict(Decode(zone, server).value.headEntityID))
      else found == Ok(if SamePayload(Decode(zone, client).value, Decode(zone, server).value) then AlreadySaved
                       else DamagedRecord)
  {
    if client.id == server.id && client.kind == server.kind && Decode(zone, client).Ok? && Decode(zone, server).Ok? {
      var c, s := Decode(zone, client).value, Decode(zone, server).value;
      DecodeChecksIdentity(zone, client);
      DecodeChecksIdentity(zone, server);
      IdentityInjective(zone, c, s);
    }
  }
}
