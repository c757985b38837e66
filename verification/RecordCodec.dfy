/**
 The CloudKit schema of the coordinated-record transport (CloudRecordCodec.swift): record
 builders, the strict decoder and the compare-and-swap plan for one commit.
 */
module RecordCodec {
  import opened Prelude
  import opened Records
  import opened Text
  import Base64

  const SCHEMA_VERSION := 1
  const INT64_MAX: nat := 0x7FFF_FFFF_FFFF_FFFF

  datatype CodecError =
    | InvalidDigest | InvalidUuid | InvalidBase64 | InvalidCiphertextSize | AssetPathMustBeAbsolute
    | WrongZone | UnsupportedSchemaVersion | UnknownRecordType | UnexpectedRecordType | MissingField
    | InvalidInteger | HeadIdentityMismatch | RecordIdentityMismatch

  datatype ObjectAsset = ObjectAsset(digest: string, ciphertextSize: nat, file: File)
  datatype Revision = Revision(entityID: string, revisionID: string, expectedHeads: seq<string>, envelope64: string)

  /**
   One commit of the durable outbox. `objects` are the encrypted objects its revisions make
   reachable: the daemon lists them beside the commits of a batch.
   */
  datatype Commit = Commit(commitID: string, manifest64: string, revisions: seq<Revision>, objects: seq<ObjectAsset>)

  datatype Decoded =
    | DecodedObject(digest: string, ciphertextSize: nat, file: File)
    | DecodedRevision(entityID: string, revisionID: string, envelope64: string)
    | DecodedManifest(commitID: string, manifest64: string)
    | DecodedHead(headEntityID: string, headRevisionID: string)

  // ----- validation -----

  function ValidatedUuid(value: string): Result<string, CodecError> {
    if IsUuid(value) then Ok(Lower(value)) else Err(InvalidUuid)
  }

  function ValidatedDigest(value: string): Result<string, CodecError> {
    if IsDigest(value) then Ok(value) else Err(InvalidDigest)
  }

  function DecodedEnvelope(value: string): Result<seq<Byte>, CodecError> {
    match Base64.Decode(value)
    case Some(data) => if data != [] then Ok(data) else Err(InvalidBase64)
    case None => Err(InvalidBase64)
  }

  function IdFor(zone: string, prefix: string, stableID: string): RecordId {
    RecordId(zone, prefix + "-" + stableID)
  }

  function StringField(r: Record, f: FieldName): Result<string, CodecError> {
    if f in r.fields && r.fields[f].Text? && r.fields[f].text != [] then Ok(r.fields[f].text) else Err(MissingField)
  }

  function DataField(r: Record, f: FieldName): Result<seq<Byte>, CodecError> {
    if f in r.fields && r.fields[f].Blob? && r.fields[f].bytes != [] then Ok(r.fields[f].bytes) else Err(MissingField)
  }

  function IntegerField(r: Record, f: FieldName): Result<nat, CodecError> {
    if f in r.fields && r.fields[f].Number? then
      if r.fields[f].value >= 0 then Ok(r.fields[f].value) else Err(InvalidInteger)
    else Err(MissingField)
  }

  function ValidateCommon(zone: string, r: Record): Result<(), CodecError> {
    if r.id.zone != zone then Err(WrongZone)
    else
      var version :- IntegerField(r, SchemaVersion);
      if version != SCHEMA_VERSION then Err(UnsupportedSchemaVersion) else Ok(())
  }

  function ValidateIdentity(zone: string, r: Record, prefix: string, stableID: string): Result<(), CodecError> {
    if r.id == IdFor(zone, prefix, stableID) then Ok(()) else Err(RecordIdentityMismatch)
  }

  // ----- builders -----

  function ObjectRecord(zone: string, asset: ObjectAsset): Result<Record, CodecError> {
    var digest :- ValidatedDigest(asset.digest);
    if asset.ciphertextSize > INT64_MAX then Err(InvalidCiphertextSize)
    else if asset.file.path == [] || asset.file.path[0] != '/' then Err(AssetPathMustBeAbsolute)
    else Ok(Record(IdFor(zone, "object", digest), ObjectType,
                   map[SchemaVersion := Number(SCHEMA_VERSION), Digest := Text(digest),
                       CiphertextSize := Number(asset.ciphertextSize), Ciphertext := Asset(Some(asset.file))],
                   None))
  }

  function CommitRecord(zone: string, commit: Commit): Result<Record, CodecError> {
    var commitID :- ValidatedUuid(commit.commitID);
    var manifest :- DecodedEnvelope(commit.manifest64);
    Ok(Record(IdFor(zone, "commit", commitID), CommitType,
              map[SchemaVersion := Number(SCHEMA_VERSION), CommitID := Text(commitID), Manifest := Blob(manifest)],
              None))
  }

  function RevisionRecord(zone: string, revision: Revision): Result<Record, CodecError> {
    var entityID :- ValidatedUuid(revision.entityID);
    var revisionID :- ValidatedUuid(revision.revisionID);
    var envelope :- DecodedEnvelope(revision.envelope64);
    Ok(Record(IdFor(zone, "revision", revisionID), RevisionType,
              map[SchemaVersion := Number(SCHEMA_VERSION), EntityID := Text(entityID),
                  RevisionID := Text(revisionID), Envelope := Blob(envelope)],
              None))
  }

  function RevisionRecords(zone: string, revisions: seq<Revision>): (r: Result<seq<Record>, CodecError>)
    ensures r.Ok? ==> |r.value| == |revisions|
    ensures r.Ok? ==> forall i :: 0 <= i < |revisions| ==> RevisionRecord(zone, revisions[i]) == Ok(r.value[i])
  {
    if revisions == [] then Ok([])
    else
      var first :- RevisionRecord(zone, revisions[0]);
      var rest :- RevisionRecords(zone, revisions[1..]);
      Ok([first] + rest)
  }

  /** The create-only records of a commit: its manifest followed by its revisions. */
  function ImmutableRecords(zone: string, commit: Commit): Result<seq<Record>, CodecError> {
    var manifest :- CommitRecord(zone, commit);
    var revisions :- RevisionRecords(zone, commit.revisions);
    Ok([manifest] + revisions)
  }

  function NewHead(zone: string, entityID: string, revisionID: string): Record {
    Record(IdFor(zone, "head", entityID), HeadType,
           map[SchemaVersion := Number(SCHEMA_VERSION), EntityID := Text(entityID), RevisionID := Text(revisionID)],
           None)
  }

  // ----- decoding -----

  function HeadRevision(zone: string, r: Record, entityID: string): Result<string, CodecError> {
    var _ :- ValidateCommon(zone, r);
    if r.kind != HeadType then Err(UnexpectedRecordType)
    else
      var text :- StringField(r, EntityID);
      var own :- ValidatedUuid(text);
      if own != entityID || r.id != IdFor(zone, "head", own) then Err(HeadIdentityMismatch)
      else
        var revision :- StringField(r, RevisionID);
        ValidatedUuid(revision)
  }

  function DecodeObject(zone: string, r: Record): Result<Decoded, CodecError> {
    var text :- StringField(r, Digest);
    var digest :- ValidatedDigest(text);
    var _ :- ValidateIdentity(zone, r, "object", digest);
    var size :- IntegerField(r, CiphertextSize);
    if Ciphertext in r.fields && r.fields[Ciphertext].Asset? && r.fields[Ciphertext].file.Some?
    then Ok(DecodedObject(digest, size, r.fields[Ciphertext].file.value))
    else Err(MissingField)
  }

  function DecodeRevision(zone: string, r: Record): Result<Decoded, CodecError> {
    var entityText :- StringField(r, EntityID);
    var entityID :- ValidatedUuid(entityText);
    var revisionText :- StringField(r, RevisionID);
    var revisionID :- ValidatedUuid(revisionText);
    var _ :- ValidateIdentity(zone, r, "revision", revisionID);
    var envelope :- DataField(r, Envelope);
    Ok(DecodedRevision(entityID, revisionID, Base64.Encode(envelope)))
  }

  function DecodeManifest(zone: string, r: Record): Result<Decoded, CodecError> {
    var commitText :- StringField(r, CommitID);
    var commitID :- ValidatedUuid(commitText);
    var _ :- ValidateIdentity(zone, r, "commit", commitID);
    var manifest :- DataField(r, Manifest);
    Ok(DecodedManifest(commitID, Base64.Encode(manifest)))
  }

  function DecodeHead(zone: string, r: Record): Result<Decoded, CodecError> {
    var entityText :- StringField(r, EntityID);
    var entityID :- ValidatedUuid(entityText);
    var revisionID :- HeadRevision(zone, r, entityID);
    Ok(DecodedHead(entityID, revisionID))
  }

  function Decode(zone: string, r: Record): Result<Decoded, CodecError> {
    var _ :- ValidateCommon(zone, r);
    match r.kind
    case ObjectType => DecodeObject(zone, r)
    case RevisionType => DecodeRevision(zone, r)
    case CommitType => DecodeManifest(zone, r)
    case HeadType => DecodeHead(zone, r)
    case _ => Err(UnknownRecordType)
  }

  // ----- what decoding guarantees -----

  /** The record identity a decoded value determines. */
  function IdentityOf(zone: string, d: Decoded): RecordId {
    match d
    case DecodedObject(digest, _, _) => IdFor(zone, "object", digest)
    case DecodedRevision(_, revisionID, _) => IdFor(zone, "revision", revisionID)
    case DecodedManifest(commitID, _) => IdFor(zone, "commit", commitID)
    case DecodedHead(entityID, _) => IdFor(zone, "head", entityID)
  }

  function KindOf(d: Decoded): RecordType {
    match d
    case DecodedObject(_, _, _) => ObjectType
    case DecodedRevision(_, _, _) => RevisionType
    case DecodedManifest(_, _) => CommitType
    case DecodedHead(_, _) => HeadType
  }

  /** The key a decoded record is listed under inside its kind. */
  function StableId(d: Decoded): string {
    match d
    case DecodedObject(digest, _, _) => digest
    case DecodedRevision(_, revisionID, _) => revisionID
    case DecodedManifest(commitID, _) => commitID
    case DecodedHead(entityID, _) => entityID
  }

  function Prefix(k: RecordType): string {
    match k
    case ObjectType => "object-"
    case RevisionType => "revision-"
    case CommitType => "commit-"
    case HeadType => "head-"
    case _ => "-"
  }

  /** A record decodes only under the identity its own fields determine. */
  lemma DecodeChecksIdentity(zone: string, r: Record)
    requires Decode(zone, r).Ok?
    ensures r.id == IdentityOf(zone, Decode(zone, r).value)
    ensures r.kind == KindOf(Decode(zone, r).value)
  {
  }

  lemma NameShape(zone: string, d: Decoded)
    ensures IdentityOf(zone, d).name == Prefix(KindOf(d)) + StableId(d)
  {
  }

  /** Record names determine kind and stable id: no two decodable identities share a name. */
  lemma IdentityInjective(zone: string, c: Decoded, d: Decoded)
    requires IdentityOf(zone, c) == IdentityOf(zone, d)
    ensures KindOf(c) == KindOf(d) && StableId(c) == StableId(d)
  {
    NameShape(zone, c);
    NameShape(zone, d);
    var n := IdentityOf(zone, c).name;
    assert n[0] == Prefix(KindOf(c))[0] == Prefix(KindOf(d))[0];
    assert KindOf(c) == KindOf(d);
    var k := |Prefix(KindOf(c))|;
    assert n[k..] == StableId(c);
    assert n[k..] == StableId(d);
  }

  /** The change tag plays no part in decoding. */
  lemma DecodeIgnoresTag(zone: string, r: Record, tag: Option<nat>)
    ensures Decode(zone, r.(tag := tag)) == Decode(zone, r)
  {
    var q := r.(tag := tag);
    assert ValidateCommon(zone, q) == ValidateCommon(zone, r);
    assert DecodeObject(zone, q) == DecodeObject(zone, r);
    assert DecodeRevision(zone, q) == DecodeRevision(zone, r);
    assert DecodeManifest(zone, q) == DecodeManifest(zone, r);
    assert HeadRevision(zone, q, "") == HeadRevision(zone, r, "");
    assert DecodeHead(zone, q) == DecodeHead(zone, r);
  }

  // ----- building then decoding -----

  lemma ObjectRoundTrip(zone: string, asset: ObjectAsset)
    requires ObjectRecord(zone, asset).Ok?
    ensures Decode(zone, ObjectRecord(zone, asset).value)
         == Ok(DecodedObject(asset.digest, asset.ciphertextSize, asset.file))
  {
  }

  lemma ReadCommit(zone: string, r: Record, commitID: string)
    requires IsUuid(commitID) && Lower(commitID) == commitID && ValidateCommon(zone, r).Ok? && r.kind == CommitType
    requires r.id == IdFor(zone, "commit", commitID) && StringField(r, CommitID) == Ok(commitID)
      && DataField(r, Manifest).Ok?
    ensures Decode(zone, r) == Ok(DecodedManifest(commitID, Base64.Encode(DataField(r, Manifest).value)))
  {
  }

  lemma CommitRoundTrip(zone: string, commit: Commit)
    requires CommitRecord(zone, commit).Ok?
    ensures Decode(zone, CommitRecord(zone, commit).value)
         == Ok(DecodedManifest(Lower(commit.commitID), Base64.Encode(Base64.Decode(commit.manifest64).value)))
  {
    LowerUuid(commit.commitID);
    ReadCommit(zone, CommitRecord(zone, commit).value, Lower(commit.commitID));
  }

  lemma ReadRevision(zone: string, r: Record, entityID: string, revisionID: string)
    requires IsUuid(entityID) && Lower(entityID) == entityID && IsUuid(revisionID) && Lower(revisionID) == revisionID
    requires ValidateCommon(zone, r).Ok? && r.kind == RevisionType && r.id == IdFor(zone, "revision", revisionID)
    requires StringField(r, EntityID) == Ok(entityID) && StringField(r, RevisionID) == Ok(revisionID)
      && DataField(r, Envelope).Ok?
    ensures Decode(zone, r) == Ok(DecodedRevision(entityID, revisionID, Base64.Encode(DataField(r, Envelope).value)))
  {
  }

  lemma RevisionRoundTrip(zone: string, revision: Revision)
    requires RevisionRecord(zone, revision).Ok?
    ensures Decode(zone, RevisionRecord(zone, revision).value)
         == Ok(DecodedRevision(Lower(revision.entityID), Lower(revision.revisionID),
                               Base64.Encode(Base64.Decode(revision.envelope64).value)))
  {
    LowerUuid(revision.entityID);
    LowerUuid(revision.revisionID);
    ReadRevision(zone, RevisionRecord(zone, revision).value, Lower(revision.entityID), Lower(revision.revisionID));
  }

  lemma HeadRoundTrip(zone: string, entityID: string, revisionID: string)
    requires IsUuid(entityID) && IsUuid(revisionID) && Lower(entityID) == entityID && Lower(revisionID) == revisionID
    ensures Decode(zone, NewHead(zone, entityID, revisionID)) == Ok(DecodedHead(entityID, revisionID))
  {
  }

  // ----- the compare-and-swap plan -----

  datatype CommitPlan =
    | Ready(records: seq<Record>)
    | NeedsHeadFetch(entityIDs: set<string>)
    | Conflict(entityIDs: set<string>)

  /** What one revision of a commit asks of the cached head of its entity. */
  datatype HeadPlan = SaveHead(head: Record) | FetchHead(entityID: string) | HeadInConflict(entityID: string)

  predicate AllUuids(ids: seq<string>) {
    forall i :: 0 <= i < |ids| ==> IsUuid(ids[i])
  }

  function ExpectedRevisions(r: Revision): set<string> {
    set i | 0 <= i < |r.expectedHeads| :: Lower(r.expectedHeads[i])
  }

  function PlanHead(zone: string, revision: Revision, cachedHeads: map<string, Record>): Result<HeadPlan, CodecError> {
    var entityID :- ValidatedUuid(revision.entityID);
    var revisionID :- ValidatedUuid(revision.revisionID);
    if revision.expectedHeads != [] then
      if !AllUuids(revision.expectedHeads) then Err(InvalidUuid)
      else if entityID !in cachedHeads then Ok(FetchHead(entityID))
      else
        var current :- HeadRevision(zone, cachedHeads[entityID], entityID);
        if current !in ExpectedRevisions(revision) then Ok(HeadInConflict(entityID))
        else
          var cached := cachedHeads[entityID];
          Ok(SaveHead(cached.(fields := cached.fields[RevisionID := Text(revisionID)])))
    else if entityID in cachedHeads then Ok(HeadInConflict(entityID))
    else Ok(SaveHead(NewHead(zone, entityID, revisionID)))
  }

  function PlanHeads(planHead: Revision -> Result<HeadPlan, CodecError>, revisions: seq<Revision>)
    : (r: Result<seq<HeadPlan>, CodecError>)
    ensures r.Ok? ==> |r.value| == |revisions|
    ensures r.Ok? ==> forall i :: 0 <= i < |revisions| ==> planHead(revisions[i]) == Ok(r.value[i])
  {
    if revisions == [] then Ok([])
    else
      var n := |revisions| - 1;
      var init :- PlanHeads(planHead, revisions[..n]);
      var last :- planHead(revisions[n]);
      Ok(init + [last])
  }

  function HeadsToSave(plans: seq<HeadPlan>): seq<Record> {
    if plans == [] then []
    else
      var n := |plans| - 1;
      HeadsToSave(plans[..n]) + if plans[n].SaveHead? then [plans[n].head] else []
  }

  function HeadsToFetch(plans: seq<HeadPlan>): set<string> {
    set p | p in plans && p.FetchHead? :: p.entityID
  }

  function HeadsInConflict(plans: seq<HeadPlan>): set<string> {
    set p | p in plans && p.HeadInConflict? :: p.entityID
  }

  /** Conflicts win over missing heads, and only a clean plan is sent. */
  function FinishPlan(zone: string, commit: Commit, heads: seq<Record>, needsFetch: set<string>, conflicts: set<string>)
    : Result<CommitPlan, CodecError>
  {
    if conflicts != {} then Ok(Conflict(conflicts))
    else if needsFetch != {} then Ok(NeedsHeadFetch(needsFetch))
    else
      var immutable :- ImmutableRecords(zone, commit);
      Ok(Ready(immutable + heads))
  }

  /** The plan for a commit, from the independent plans of its revisions. */
  function CommitPlanFor(zone: string, commit: Commit,
      cachedHeads: map<string, Record>): Result<CommitPlan, CodecError> {
    var plans :- PlanHeads(revision => PlanHead(zone, revision, cachedHeads), commit.revisions);
    FinishPlan(zone, commit, HeadsToSave(plans), HeadsToFetch(plans), HeadsInConflict(plans))
  }

  lemma AppendPlan(plans: seq<HeadPlan>, p: HeadPlan)
    ensures HeadsToSave(plans + [p]) == HeadsToSave(plans) + if p.SaveHead? then [p.head] else []
    ensures HeadsToFetch(plans + [p]) == HeadsToFetch(plans) + if p.FetchHead? then {p.entityID} else {}
    ensures HeadsInConflict(plans + [p]) == HeadsInConflict(plans) + if p.HeadInConflict? then {p.entityID} else {}
  {
    assert (plans + [p])[..|plans|] == plans;
    assert forall q :: q in plans + [p] <==> q in plans || q == p;
  }

  lemma AppendRevision(planHead: Revision -> Result<HeadPlan, CodecError>, revisions: seq<Revision>, i: nat)
    requires i < |revisions|
    requires PlanHeads(planHead, revisions[..i]).Ok?
    ensures planHead(revisions[i]).Ok? ==>
      PlanHeads(planHead, revisions[..i + 1])
        == Ok(PlanHeads(planHead, revisions[..i]).value + [planHead(revisions[i]).value])
    ensures planHead(revisions[i]).Err? ==> PlanHeads(planHead, revisions) == Err(planHead(revisions[i]).error)
  {
    assert revisions[..i + 1][..i] == revisions[..i];
    if planHead(revisions[i]).Err? {
      PlanHeadsFails(planHead, revisions, i + 1);
    }
  }

  lemma {:induction false} PlanHeadsFails(planHead: Revision -> Result<HeadPlan, CodecError>, revisions: seq<Revision>,
      k: nat)
    requires k <= |revisions|
    requires PlanHeads(planHead, revisions[..k]).Err?
    ensures PlanHeads(planHead, revisions) == Err(PlanHeads(planHead, revisions[..k]).error)
    decreases |revisions| - k
  {
    if k < |revisions| {
      assert revisions[..k + 1][..k] == revisions[..k];
      PlanHeadsFails(planHead, revisions, k + 1);
    } else {
      assert revisions[..k] == revisions;
    }
  }

  /** The loop of `planCommit`: one pass fills the heads, the missing entities and the conflicts. */
  method PlanRevisions(planHead: Revision -> Result<HeadPlan, CodecError>, revisions: seq<Revision>)
    returns (failure: Option<CodecError>, heads: seq<Record>, needsFetch: set<string>, conflicts: set<string>)
    ensures failure.Some? ==> PlanHeads(planHead, revisions) == Err(failure.value)
    ensures failure.None? ==>
      && PlanHeads(planHead, revisions).Ok?
      && heads == HeadsToSave(PlanHeads(planHead, revisions).value)
      && needsFetch == HeadsToFetch(PlanHeads(planHead, revisions).value)
      && conflicts == HeadsInConflict(PlanHeads(planHead, revisions).value)
  {
    heads, needsFetch, conflicts, failure := [], {}, {}, None;
    ghost var plans: seq<HeadPlan> := [];
    for i := 0 to |revisions|
      invariant PlanHeads(planHead, revisions[..i]) == Ok(plans)
      invariant heads == HeadsToSave(plans)
      invariant needsFetch == HeadsToFetch(plans)
      invariant conflicts == HeadsInConflict(plans)
    {
      var step := planHead(revisions[i]);
      AppendRevision(planHead, revisions, i);
      if step.Err? {
        failure := Some(step.error);
        return;
      }
      AppendPlan(plans, step.value);
      match step.value {
        case SaveHead(head) => heads := heads + [head];
        case FetchHead(entityID) => needsFetch := needsFetch + {entityID};
        case HeadInConflict(entityID) => conflicts := conflicts + {entityID};
      }
      plans := plans + [step.value];
    }
    assert revisions[..|revisions|] == revisions;
  }

  // ----- what a plan means, over the commit and the cache alone -----

  ghost predicate MayReplace(rv: Revision, revisionID: string) {
    exists i :: 0 <= i < |rv.expectedHeads| && Lower(rv.expectedHeads[i]) == revisionID
  }

  /** The ids are UUIDs, and the cached head to be replaced, if any, decodes as the head of its entity. */
  ghost predicate Plannable(zone: string, rv: Revision, cached: map<string, Record>) {
    var e := Lower(rv.entityID);
    && IsUuid(rv.entityID) && IsUuid(rv.revisionID)
    && (forall i :: 0 <= i < |rv.expectedHeads| ==> IsUuid(rv.expectedHeads[i]))
    && (rv.expectedHeads != [] && e in cached ==>
          && Decode(zone, cached[e]).Ok? && Decode(zone, cached[e]).value.DecodedHead?
          && Decode(zone, cached[e]).value.headEntityID == e)
  }

  /** A head is cached, and it is none that the revision replaces. */
  ghost predicate ConflictsWith(zone: string, rv: Revision, cached: map<string, Record>) {
    var e := Lower(rv.entityID);
    && e in cached
    && (rv.expectedHeads != [] ==>
          && Decode(zone, cached[e]).Ok? && Decode(zone, cached[e]).value.DecodedHead?
          && !MayReplace(rv, Decode(zone, cached[e]).value.headRevisionID))
  }

  /** A head is to be replaced and none is cached. */
  ghost predicate LacksHead(rv: Revision, cached: map<string, Record>) {
    rv.expectedHeads != [] && Lower(rv.entityID) !in cached
  }

  /** The head carries the revision: the cached record with nothing else changed, or a new record. */
  ghost predicate HeadToSave(zone: string, rv: Revision, cached: map<string, Record>, h: Record) {
    var e, v := Lower(rv.entityID), Lower(rv.revisionID);
    && Decode(zone, h) == Ok(DecodedHead(e, v))
    && (if e in cached then
          && h.id == cached[e].id && h.kind == cached[e].kind && h.tag == cached[e].tag
          && h.fields.Keys == cached[e].fields.Keys && RevisionID in h.fields && h.fields[RevisionID] == Text(v)
          && forall f :: f in h.fields && f != RevisionID ==> h.fields[f] == cached[e].fields[f]
        else
          && h.tag.None? && h.fields.Keys == {SchemaVersion, EntityID, RevisionID}
          && h.fields[EntityID] == Text(e) && h.fields[RevisionID] == Text(v))
  }

  lemma HeadReads(zone: string, r: Record, e: string)
    ensures HeadRevision(zone, r, e).Ok? <==>
      Decode(zone, r).Ok? && Decode(zone, r).value.DecodedHead? && Decode(zone, r).value.headEntityID == e
    ensures HeadRevision(zone, r, e).Ok? ==> Decode(zone, r) == Ok(DecodedHead(e, HeadRevision(zone, r, e).value))
  {
  }

  lemma SwappedReads(zone: string, r: Record, e: string, v: string)
    requires HeadRevision(zone, r, e).Ok? && IsUuid(v) && Lower(v) == v
    ensures Decode(zone, r.(fields := r.fields[RevisionID := Text(v)])) == Ok(DecodedHead(e, v))
    ensures RevisionID in r.fields
  {
  }

  ghost predicate PlanFits(zone: string, rv: Revision, cached: map<string, Record>, plan: HeadPlan) {
    && (plan.HeadInConflict? <==> ConflictsWith(zone, rv, cached)) && (plan.FetchHead? <==> LacksHead(rv, cached))
    && (if plan.SaveHead? then HeadToSave(zone, rv, cached, plan.head) else plan.entityID == Lower(rv.entityID))
  }

  /** What one revision asks of the cache. */
  lemma PlanHeadMeans(zone: string, rv: Revision, cached: map<string, Record>)
    ensures PlanHead(zone, rv, cached).Ok? <==> Plannable(zone, rv, cached)
    ensures Plannable(zone, rv, cached) ==> PlanFits(zone, rv, cached, PlanHead(zone, rv, cached).value)
  {
    var e := Lower(rv.entityID);
    if IsUuid(rv.entityID) && IsUuid(rv.revisionID) {
      LowerUuid(rv.entityID);
      LowerUuid(rv.revisionID);
      if e in cached {
        HeadReads(zone, cached[e], e);
        if HeadRevision(zone, cached[e], e).Ok? {
          SwappedReads(zone, cached[e], e, Lower(rv.revisionID));
        }
      } else {
        HeadRoundTrip(zone, e, Lower(rv.revisionID));
      }
    }
  }

  ghost function Conflicting(zone: string, c: Commit, cached: map<string, Record>): set<string> {
    set rv | rv in c.revisions && ConflictsWith(zone, rv, cached) :: Lower(rv.entityID)
  }

  ghost function Lacking(c: Commit, cached: map<string, Record>): set<string> {
    set rv | rv in c.revisions && LacksHead(rv, cached) :: Lower(rv.entityID)
  }

  /** The create-only records of the commit, then one head for each revision. */
  ghost predicate ReadyRecords(zone: string, c: Commit, cached: map<string, Record>, records: seq<Record>) {
    && ImmutableRecords(zone, c).Ok?
    && var n := |ImmutableRecords(zone, c).value|;
    && |records| == n + |c.revisions| && records[..n] == ImmutableRecords(zone, c).value
    && forall i :: 0 <= i < |c.revisions| ==> HeadToSave(zone, c.revisions[i], cached, records[n + i])
  }

  /**
   What the plan of a commit is. A malformed id or a cached head that does not decode is an error. Otherwise the
   conflicting entities decide, whatever else is missing; then the missing heads; and only then is the
   commit sent, or its encoding error reported.
   */
  ghost predicate PlanMeans(zone: string, c: Commit, cached: map<string, Record>,
      plan: Result<CommitPlan, CodecError>) {
    if exists rv :: rv in c.revisions && !Plannable(zone, rv, cached) then plan.Err?
    else if Conflicting(zone, c, cached) != {} then plan == Ok(Conflict(Conflicting(zone, c, cached)))
    else if Lacking(c, cached) != {} then plan == Ok(NeedsHeadFetch(Lacking(c, cached)))
    else if ImmutableRecords(zone, c).Err? then plan == Err(ImmutableRecords(zone, c).error)
    else plan.Ok? && plan.value.Ready? && ReadyRecords(zone, c, cached, plan.value.records)
  }

  lemma {:induction false} PlanHeadsIff(planHead: Revision -> Result<HeadPlan, CodecError>, revisions: seq<Revision>)
    ensures PlanHeads(planHead, revisions).Ok? <==> forall rv :: rv in revisions ==> planHead(rv).Ok?
    decreases |revisions|
  {
    if revisions != [] {
      var n := |revisions| - 1;
      PlanHeadsIff(planHead, revisions[..n]);
      assert forall rv :: rv in revisions <==> rv in revisions[..n] || rv == revisions[n];
    }
  }

  lemma {:induction false} AllSaved(plans: seq<HeadPlan>)
    requires forall p :: p in plans ==> p.SaveHead?
    ensures |HeadsToSave(plans)| == |plans| && forall i :: 0 <= i < |plans| ==> HeadsToSave(plans)[i] == plans[i].head
    decreases |plans|
  {
    if plans != [] {
      AllSaved(plans[..|plans| - 1]);
    }
  }

  lemma PlanListed(plans: seq<HeadPlan>, p: HeadPlan)
    requires p in plans
    ensures p.FetchHead? ==> p.entityID in HeadsToFetch(plans)
    ensures p.HeadInConflict? ==> p.entityID in HeadsInConflict(plans)
  {
  }

  lemma QuietPlans(plans: seq<HeadPlan>)
    requires HeadsInConflict(plans) == {} && HeadsToFetch(plans) == {}
    ensures forall p :: p in plans ==> p.SaveHead?
  {
    forall p | p in plans ensures p.SaveHead? {
      PlanListed(plans, p);
    }
  }

  ghost predicate AllFit(zone: string, c: Commit, cached: map<string, Record>, plans: seq<HeadPlan>) {
    |plans| == |c.revisions| && forall i :: 0 <= i < |plans| ==> PlanFits(zone, c.revisions[i], cached, plans[i])
  }

  lemma PlannedConflicts(zone: string, c: Commit, cached: map<string, Record>, plans: seq<HeadPlan>)
    requires AllFit(zone, c, cached, plans)
    ensures HeadsInConflict(plans) == Conflicting(zone, c, cached)
  {
    forall e | e in HeadsInConflict(plans) ensures e in Conflicting(zone, c, cached) {
      var p :| p in plans && p.HeadInConflict? && p.entityID == e;
      var i :| 0 <= i < |plans| && plans[i] == p;
      assert PlanFits(zone, c.revisions[i], cached, plans[i]) && c.revisions[i] in c.revisions;
    }
    forall e | e in Conflicting(zone, c, cached) ensures e in HeadsInConflict(plans) {
      var rv :| rv in c.revisions && ConflictsWith(zone, rv, cached) && Lower(rv.entityID) == e;
      var i :| 0 <= i < |c.revisions| && c.revisions[i] == rv;
      assert PlanFits(zone, c.revisions[i], cached, plans[i]) && plans[i] in plans;
    }
  }

  lemma PlannedFetches(zone: string, c: Commit, cached: map<string, Record>, plans: seq<HeadPlan>)
    requires AllFit(zone, c, cached, plans)
    ensures HeadsToFetch(plans) == Lacking(c, cached)
  {
    forall e | e in HeadsToFetch(plans) ensures e in Lacking(c, cached) {
      var p :| p in plans && p.FetchHead? && p.entityID == e;
      var i :| 0 <= i < |plans| && plans[i] == p;
      assert PlanFits(zone, c.revisions[i], cached, plans[i]) && c.revisions[i] in c.revisions;
    }
    forall e | e in Lacking(c, cached) ensures e in HeadsToFetch(plans) {
      var rv :| rv in c.revisions && LacksHead(rv, cached) && Lower(rv.entityID) == e;
      var i :| 0 <= i < |c.revisions| && c.revisions[i] == rv;
      assert PlanFits(zone, c.revisions[i], cached, plans[i]) && plans[i] in plans;
    }
  }

  lemma PlannedHeads(zone: string, c: Commit, cached: map<string, Record>, plans: seq<HeadPlan>)
    requires AllFit(zone, c, cached, plans) && HeadsInConflict(plans) == {} && HeadsToFetch(plans) == {}
    ensures |HeadsToSave(plans)| == |c.revisions|
    ensures forall i :: 0 <= i < |c.revisions| ==> HeadToSave(zone, c.revisions[i], cached, HeadsToSave(plans)[i])
  {
    QuietPlans(plans);
    AllSaved(plans);
    forall i | 0 <= i < |plans| ensures HeadToSave(zone, c.revisions[i], cached, HeadsToSave(plans)[i]) {
      assert plans[i] in plans && PlanFits(zone, c.revisions[i], cached, plans[i]);
    }
  }

  lemma ReadyFrom(zone: string, c: Commit, cached: map<string, Record>, immutable: seq<Record>, heads: seq<Record>)
    requires ImmutableRecords(zone, c) == Ok(immutable) && |heads| == |c.revisions|
    requires forall i :: 0 <= i < |c.revisions| ==> HeadToSave(zone, c.revisions[i], cached, heads[i])
    ensures ReadyRecords(zone, c, cached, immutable + heads)
  {
    var records := immutable + heads;
    assert records[..|immutable|] == immutable;
    forall i | 0 <= i < |c.revisions| ensures HeadToSave(zone, c.revisions[i], cached, records[|immutable| + i]) {
      assert records[|immutable| + i] == heads[i];
    }
  }

  /** The plan is what the commit and the cache call for. */
  lemma CommitPlanMeans(zone: string, c: Commit, cached: map<string, Record>)
    ensures PlanMeans(zone, c, cached, CommitPlanFor(zone, c, cached))
  {
    var planHead := (revision: Revision) => PlanHead(zone, revision, cached);
    PlanHeadsIff(planHead, c.revisions);
    forall rv | rv in c.revisions ensures planHead(rv).Ok? <==> Plannable(zone, rv, cached) {
      PlanHeadMeans(zone, rv, cached);
    }
    if PlanHeads(planHead, c.revisions).Ok? {
      var plans := PlanHeads(planHead, c.revisions).value;
      forall i | 0 <= i < |plans| ensures PlanFits(zone, c.revisions[i], cached, plans[i]) {
        assert c.revisions[i] in c.revisions && planHead(c.revisions[i]) == Ok(plans[i]);
        PlanHeadMeans(zone, c.revisions[i], cached);
      }
      PlannedConflicts(zone, c, cached, plans);
      PlannedFetches(zone, c, cached, plans);
      if HeadsInConflict(plans) == {} && HeadsToFetch(plans) == {} && ImmutableRecords(zone, c).Ok? {
        PlannedHeads(zone, c, cached, plans);
        ReadyFrom(zone, c, cached, ImmutableRecords(zone, c).value, HeadsToSave(plans));
      }
    }
  }

  method PlanCommit(zone: string, commit: Commit, cachedHeads: map<string, Record>)
    returns (plan: Result<CommitPlan, CodecError>)
    ensures plan == CommitPlanFor(zone, commit, cachedHeads)
    ensures PlanMeans(zone, commit, cachedHeads, plan)
  {
    CommitPlanMeans(zone, commit, cachedHeads);
    var planHead := (revision: Revision) => PlanHead(zone, revision, cachedHeads);
    var failure, heads, needsFetch, conflicts := PlanRevisions(planHead, commit.revisions);
    if failure.Some? {
      return Err(failure.value);
    }
    plan := FinishPlan(zone, commit, heads, needsFetch, conflicts);
  }
}
