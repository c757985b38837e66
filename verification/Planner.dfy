/**
 Pure planning of one send cycle (CloudOutboundPlanner.swift): which records go next, and how a
 `serverRecordChanged` collision is read.
 */
module Planner {
  import opened Prelude
  import opened Records
  import opened RecordCodec

  const RECORD_LIMIT := 250

  datatype Batch = Batch(commits: seq<Commit>, objects: seq<ObjectAsset>)

  datatype Action =
    | Idle
    | SaveObjects(objects: seq<Record>)
    | FetchHeads(commitID: string, recordIDs: set<RecordId>)
    | SaveConflictBranch(commitID: string, entityIDs: set<string>, immutable: seq<Record>)
    | SaveCommit(commitID: string, records: seq<Record>)

  datatype PlanningError = CodecFailure(cause: CodecError) | CommitExceedsRecordLimit(records: nat)

  function MissingObjects(objects: seq<ObjectAsset>, verified: set<string>): (r: seq<ObjectAsset>)
    ensures forall a :: a in r <==> a in objects && a.digest !in verified
  {
    if objects == [] then []
    else
      assert forall a :: a in objects <==> a == objects[0] || a in objects[1..];
      (if objects[0].digest in verified then [] else [objects[0]]) + MissingObjects(objects[1..], verified)
  }

  function ObjectRecords(zone: string, assets: seq<ObjectAsset>): (r: Result<seq<Record>, CodecError>)
    ensures r.Ok? ==> |r.value| == |assets|
    ensures r.Ok? ==> forall i :: 0 <= i < |assets| ==> ObjectRecord(zone, assets[i]) == Ok(r.value[i])
  {
    if assets == [] then Ok([])
    else
      var first :- ObjectRecord(zone, assets[0]);
      var rest :- ObjectRecords(zone, assets[1..]);
      Ok([first] + rest)
  }

  function FirstN<T>(s: seq<T>, n: nat): seq<T> {
    if |s| <= n then s else s[..n]
  }

  function NextAction(zone: string, batch: Batch, verified: set<string>, cachedHeads: map<string, Record>)
    : Result<Action, PlanningError>
  {
    if batch.commits == [] then Ok(Idle)
    else
      var commit := batch.commits[0];
      var missing := MissingObjects(batch.objects, verified);
      if missing != [] then
        match ObjectRecords(zone, FirstN(missing, RECORD_LIMIT))
        case Ok(records) => Ok(SaveObjects(records))
        case Err(error) => Err(CodecFailure(error))
      else
        match CommitPlanFor(zone, commit, cachedHeads)
        case Err(error) => Err(CodecFailure(error))
        case Ok(Ready(records)) =>
          if |records| > RECORD_LIMIT then Err(CommitExceedsRecordLimit(|records|))
          else Ok(SaveCommit(commit.commitID, records))
        case Ok(NeedsHeadFetch(entityIDs)) =>
          Ok(FetchHeads(commit.commitID, set e | e in entityIDs :: IdFor(zone, "head", e)))
        case Ok(Conflict(entityIDs)) =>
          match ImmutableRecords(zone, commit)
          case Ok(records) => Ok(SaveConflictBranch(commit.commitID, entityIDs, records))
          case Err(error) => Err(CodecFailure(error))
  }

  datatype Collision = AlreadySaved | HeadConflict(entityID: string) | DamagedRecord

  /** Immutable records collide harmlessly only when payload, and asset bytes, are exactly equal. */
  function Classify(zone: string, client: Record, server: Record): Result<Collision, CodecError> {
    if client.id != server.id || client.kind != server.kind then Ok(DamagedRecord)
    else
      var c :- Decode(zone, client);
      var s :- Decode(zone, server);
      match (c, s)
      case (DecodedManifest(_, _), DecodedManifest(_, _)) => Ok(if c == s then AlreadySaved else DamagedRecord)
      case (DecodedRevision(_, _, _), DecodedRevision(_, _, _)) => Ok(if c == s then AlreadySaved else DamagedRecord)
      case (DecodedObject(digest, size, _), DecodedObject(serverDigest, serverSize, file)) =>
        if digest == serverDigest && size == serverSize && file.size == serverSize && file.sha256 == serverDigest
        then Ok(AlreadySaved) else Ok(DamagedRecord)
      case (DecodedHead(clientEntity, _), DecodedHead(serverEntity, _)) =>
        if clientEntity != serverEntity then Ok(DamagedRecord)
        else if client.fields[RevisionID] == server.fields[RevisionID] then Ok(AlreadySaved)
        else Ok(HeadConflict(serverEntity))
      case _ => Ok(DamagedRecord)
  }

  /** A collision is accepted only between records of one identity that decode to one payload. */
  lemma AcceptedCollision(zone: string, client: Record, server: Record)
    requires Classify(zone, client, server) == Ok(AlreadySaved)
    ensures client.id == server.id && client.kind == server.kind
    ensures Decode(zone, client).Ok? && Decode(zone, server).Ok?
    ensures var c, s := Decode(zone, client).value, Decode(zone, server).value;
      if c.DecodedObject? then s == DecodedObject(c.digest, c.ciphertextSize, s.file) && s.file.sha256 == c.digest
        && s.file.size == c.ciphertextSize
      else c == s
  {
  }

  /** Only a head with another revision is an ordinary conflict. */
  lemma ConflictingCollision(zone: string, client: Record, server: Record)
    requires Classify(zone, client, server).Ok? && Classify(zone, client, server).value.HeadConflict?
    ensures client.id == server.id && client.kind == server.kind == HeadType
    ensures Decode(zone, server).Ok? && Decode(zone, server).value.DecodedHead?
    ensures Classify(zone, client, server).value.entityID == Decode(zone, server).value.headEntityID
    ensures client.fields[RevisionID] != server.fields[RevisionID]
  {
  }
}
