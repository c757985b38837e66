/**
 Concrete runs of the outbound protocol with the real components, for the two places where it does less than one
 might hope: a commit with only some heads stale, and a commit that landed while its report was lost.
 */
module SyncExamples {
  import opened Prelude
  import opened Records
  import opened RecordCodec
  import opened Planner
  import opened Resolver
  import opened CloudServer
  import opened SyncProtocol
  import opened SyncTheorems
  import opened Resending
  import opened RefusedCommits
  import opened Text
  import Base64

  // ----- small ids and commits -----

  /** The UUID with this digit everywhere. */
  function Uuid(c: char): string {
    seq(36, i => if DashPosition(i) then '-' else c)
  }

  lemma UuidOk(c: char)
    requires LowerHexDigit(c)
    ensures IsUuid(Uuid(c)) && Lower(Uuid(c)) == Uuid(c)
  {
  }

  const BYTES: seq<Byte> := [0]

  function Payload(): string {
    Base64.Encode(BYTES)
  }

  lemma PayloadOk()
    ensures DecodedEnvelope(Payload()) == Ok(BYTES)
  {
    Base64.RoundTrip(BYTES);
  }

  /** A new revision of an entity, with the revisions it may replace. */
  datatype Edit = Edit(entity: char, revision: char, expected: seq<char>)

  function RevisionFor(x: Edit): Revision {
    Revision(Uuid(x.entity), Uuid(x.revision), Map(Uuid, x.expected), Payload())
  }

  function CommitOf(c: char, edits: seq<Edit>): Commit {
    Commit(Uuid(c), Payload(), Map(RevisionFor, edits), [])
  }

  predicate Hex(x: Edit) {
    && LowerHexDigit(x.entity) && LowerHexDigit(x.revision)
    && forall i :: 0 <= i < |x.expected| ==> LowerHexDigit(x.expected[i])
  }

  function Id(zone: string, prefix: string, c: char): RecordId {
    IdFor(zone, prefix, Uuid(c))
  }

  function ManifestOf(zone: string, c: char): Record {
    Record(Id(zone, "commit", c), CommitType,
      map[SchemaVersion := Number(SCHEMA_VERSION), CommitID := Text(Uuid(c)), Manifest := Blob(BYTES)], None)
  }

  function RevisionOf(zone: string, x: Edit): Record {
    Record(Id(zone, "revision", x.revision), RevisionType,
      map[SchemaVersion := Number(SCHEMA_VERSION), EntityID := Text(Uuid(x.entity)),
          RevisionID := Text(Uuid(x.revision)), Envelope := Blob(BYTES)], None)
  }

  /** The create-only records of a commit. */
  function Immutable(zone: string, c: char, edits: seq<Edit>): seq<Record> {
    [ManifestOf(zone, c)] + Map(x => RevisionOf(zone, x), edits)
  }

  function HeadOf(zone: string, e: char, r: char): Record {
    NewHead(zone, Uuid(e), Uuid(r))
  }

  /** What an id of the examples is made of. */
  datatype Label = Label(prefix: string, digit: char)

  predicate IsPrefix(p: string) {
    p == "commit" || p == "revision" || p == "head"
  }

  lemma IdsDiffer(zone: string, a: Label, b: Label)
    requires IsPrefix(a.prefix) && IsPrefix(b.prefix) && a != b
    ensures Id(zone, a.prefix, a.digit) != Id(zone, b.prefix, b.digit)
  {
    var n, m := Id(zone, a.prefix, a.digit).name, Id(zone, b.prefix, b.digit).name;
    assert n[0] == a.prefix[0] && m[0] == b.prefix[0];
    assert n[|a.prefix| + 1] == a.digit && m[|b.prefix| + 1] == b.digit;
  }

  // ----- how a commit is encoded and planned -----

  lemma {:induction false} RevisionRecordsAre(zone: string, revisions: seq<Revision>, records: seq<Record>)
    requires |records| == |revisions|
    requires forall i :: 0 <= i < |revisions| ==> RevisionRecord(zone, revisions[i]) == Ok(records[i])
    ensures RevisionRecords(zone, revisions) == Ok(records)
    decreases |revisions|
  {
    if revisions != [] {
      RevisionRecordsAre(zone, revisions[1..], records[1..]);
      assert records == [records[0]] + records[1..];
    }
  }

  lemma RevisionIs(zone: string, x: Edit)
    requires Hex(x)
    ensures RevisionRecord(zone, RevisionFor(x)) == Ok(RevisionOf(zone, x))
  {
    UuidOk(x.entity);
    UuidOk(x.revision);
    PayloadOk();
  }

  lemma ManifestIs(zone: string, c: char, edits: seq<Edit>)
    requires LowerHexDigit(c)
    ensures CommitRecord(zone, CommitOf(c, edits)) == Ok(ManifestOf(zone, c))
  {
    UuidOk(c);
    PayloadOk();
  }

  lemma ImmutableIs(zone: string, c: char, edits: seq<Edit>)
    requires LowerHexDigit(c) && forall i :: 0 <= i < |edits| ==> Hex(edits[i])
    ensures ImmutableRecords(zone, CommitOf(c, edits)) == Ok(Immutable(zone, c, edits))
  {
    ManifestIs(zone, c, edits);
    var revisions, records := Map(RevisionFor, edits), Map(x => RevisionOf(zone, x), edits);
    forall i | 0 <= i < |edits| ensures RevisionRecord(zone, revisions[i]) == Ok(records[i]) {
      RevisionIs(zone, edits[i]);
    }
    RevisionRecordsAre(zone, revisions, records);
  }

  lemma ReadyIs(zone: string, c: Commit, cached: map<string, Record>, immutable: seq<Record>, heads: seq<Record>)
    requires |heads| == |c.revisions| && ImmutableRecords(zone, c) == Ok(immutable)
    requires forall i :: 0 <= i < |heads| ==> PlanHead(zone, c.revisions[i], cached) == Ok(SaveHead(heads[i]))
    ensures CommitPlanFor(zone, c, cached) == Ok(Ready(immutable + heads))
  {
    var planHead := (revision: Revision) => PlanHead(zone, revision, cached);
    var plans := Map(h => SaveHead(h), heads);
    PlansAre(planHead, c.revisions, plans);
    AllSaved(plans);
    assert HeadsToSave(plans) == heads;
    assert HeadsToFetch(plans) == {} && HeadsInConflict(plans) == {};
  }

  lemma NoObjects(c: Commit)
    requires c.objects == []
    ensures BatchOf([c]) == Batch([c], [])
  {
    assert [c][..|[c]| - 1] == [];
    assert ObjectsOf([]) == [];
    assert ObjectsOf([c]) == AddObjects([], c.objects);
  }

  /** A commit whose revisions all plan a save is sent whole. */
  lemma PlanIs(zone: string, bootstrapMatches: (Record, Record) -> Result<bool, CodecError>, c: Commit,
      cached: map<string, Record>, immutable: seq<Record>, heads: seq<Record>)
    requires c.objects == [] && |heads| == |c.revisions| && ImmutableRecords(zone, c) == Ok(immutable)
    requires forall i :: 0 <= i < |heads| ==> PlanHead(zone, c.revisions[i], cached) == Ok(SaveHead(heads[i]))
    requires |immutable| + |heads| <= RECORD_LIMIT
    ensures FloriaTransport(zone, bootstrapMatches).plan([c], {}, cached)
      == Ok(SaveCommit(c.commitID, immutable + heads))
  {
    NoObjects(c);
    ReadyIs(zone, c, cached, immutable, heads);
  }

  // ----- the server's answers -----

  /** Every record stored, under the next tags in order. */
  function StoreAll(s: Server, records: seq<Record>): Server {
    if records == [] then s
    else
      var n := |records| - 1;
      Store(StoreAll(s, records[..n]), records[n])
  }

  function Store(s: Server, r: Record): Server {
    Server(s.records[r.id := r.(tag := Some(s.nextTag))], s.nextTag + 1)
  }

  ghost predicate Stores(s: Server, s': Server, records: seq<Record>) {
    && s'.nextTag == s.nextTag + |records| && s'.records.Keys == s.records.Keys + Ids(records)
    && (forall i :: 0 <= i < |records| ==> s'.records[records[i].id] == records[i].(tag := Some(s.nextTag + i)))
    && (forall id :: id in s.records && id !in Ids(records) ==> s'.records[id] == s.records[id])
  }

  lemma StoresOne(s: Server, t: Server, init: seq<Record>, r: Record)
    requires Stores(s, t, init) && r.id !in Ids(init)
    ensures Stores(s, Store(t, r), init + [r])
  {
    assert forall q :: q in init + [r] <==> q in init || q == r;
    assert Ids(init + [r]) == Ids(init) + {r.id};
    var more := init + [r];
    forall i | 0 <= i < |more| ensures more[i].id in Store(t, r).records
      && Store(t, r).records[more[i].id] == more[i].(tag := Some(s.nextTag + i)) {
      if i < |init| {
        assert init[i] in init;
      }
    }
  }

  lemma {:induction false} StoredAll(s: Server, records: seq<Record>)
    requires DistinctIds(records)
    ensures Stores(s, StoreAll(s, records), records)
    decreases |records|
  {
    if records != [] {
      var n := |records| - 1;
      StoredAll(s, records[..n]);
      assert records == records[..n] + [records[n]];
      StoresOne(s, StoreAll(s, records[..n]), records[..n], records[n]);
    }
  }

  /** Tags of the server are older than the next one. */
  ghost predicate TagsUsed(s: Server) {
    forall id :: id in s.records ==>
      s.records[id].id == id && s.records[id].tag.Some? && s.records[id].tag.value < s.nextTag
  }

  lemma StoredWasSent(s: Server, s': Server, records: seq<Record>, id: RecordId) returns (i: nat)
    requires Stores(s, s', records) && Changed(s, s', id)
    ensures i < |records| && records[i].id == id && s'.records[id] == records[i].(tag := Some(s.nextTag + i))
  {
    assert id in Ids(records);
    i :| 0 <= i < |records| && records[i].id == id;
  }

  lemma SentIsStored(s: Server, s': Server, records: seq<Record>, r: Record)
    requires Stores(s, s', records) && TagsUsed(s) && r in records
    ensures Changed(s, s', r.id)
  {
    var i :| 0 <= i < |records| && records[i] == r;
  }

  /** A batch of acceptable records can be stored whole. */
  lemma StoringWrites(s: Server, s': Server, records: seq<Record>)
    requires DistinctIds(records) && (forall r :: r in records ==> Accepts(s, r)) && TagsUsed(s)
    requires Stores(s, s', records)
    ensures Writes(s, s', records, true) && Reports(s, s', records, Response([], [])) && TagsUsed(s')
  {
    forall r | r in records ensures Changed(s, s', r.id) {
      SentIsStored(s, s', records, r);
    }
    forall id | Changed(s, s', id)
      ensures s'.records[id].id == id && StoredFrom(s, s', records, s'.records[id]) {
      var i := StoredWasSent(s, s', records, id);
      assert records[i] in records;
    }
    forall id, jd | Changed(s, s', id) && Changed(s, s', jd) && s'.records[id].tag == s'.records[jd].tag
      ensures id == jd {
      var i := StoredWasSent(s, s', records, id);
      var j := StoredWasSent(s, s', records, jd);
    }
  }

  /** The report of a refused atomic batch. */
  function Refusal(s: Server, r: Record): SaveFailure {
    if Accepts(s, r) then SaveFailure(r, BatchRequestFailed, None)
    else SaveFailure(r, ServerRecordChanged, if r.id in s.records then Some(s.records[r.id]) else None)
  }

  lemma RefusalIsHonest(s: Server, records: seq<Record>)
    requires forall r :: r in records && !Accepts(s, r) ==> r.id in s.records
    ensures var resp := Response([], Map(r => Refusal(s, r), records));
      ReportsRefusalFully(s, records, resp) && Reports(s, s, records, resp)
    ensures forall atomic :: Writes(s, s, records, atomic)
  {
    var resp := Response([], Map(r => Refusal(s, r), records));
    forall f | f in resp.failures ensures f.record in records && f == Refusal(s, f.record) {
      var i :| 0 <= i < |resp.failures| && resp.failures[i] == f;
    }
  }

  // ----- extending a run -----

  ghost function Last(ws: seq<World>): World
    requires ws != []
  {
    ws[|ws| - 1]
  }

  lemma Extend(tr: Transport, size: string -> nat, ws: seq<World>, w: World)
    requires Run(tr, size, ws) && SyncProtocol.Step(tr, size, Last(ws), w)
    ensures Run(tr, size, ws + [w]) && Last(ws + [w]) == w
  {
    var more := ws + [w];
    forall i | 0 <= i < |more| - 1 ensures SyncProtocol.Step(tr, size, more[i], more[i + 1]) {
      if i == |ws| - 1 {
        assert more[i] == Last(ws) && more[i + 1] == w;
      } else {
        assert more[i] == ws[i] && more[i + 1] == ws[i + 1];
      }
    }
  }

  lemma AddDevice(tr: Transport, size: string -> nat, ws: seq<World>, d: nat) returns (more: seq<World>)
    requires Run(tr, size, ws) && d !in Last(ws).devices
    ensures Run(tr, size, more)
    ensures Last(more) == Last(ws).(devices := Last(ws).devices[d := FreshDevice])
  {
    var w' := Last(ws).(devices := Last(ws).devices[d := FreshDevice]);
    assert Housekeeping(Last(ws), w', d);
    Extend(tr, size, ws, w');
    more := ws + [w'];
  }

  lemma LearnHeads(tr: Transport, size: string -> nat, ws: seq<World>, d: nat, heads: map<string, Record>)
      returns (more: seq<World>)
    requires Run(tr, size, ws) && d in Last(ws).devices
    requires forall e :: e in heads ==>
      && heads[e] in Last(ws).held && tr.decode(heads[e]).Ok? && tr.decode(heads[e]).value.DecodedHead?
      && tr.decode(heads[e]).value.headEntityID == e
    ensures Run(tr, size, more)
    ensures var w, v := Last(ws), Last(ws).devices[d];
      Last(more) == w.(devices := w.devices[d := v.(heads := v.heads + heads)])
  {
    var w, v := Last(ws), Last(ws).devices[d];
    var w' := w.(devices := w.devices[d := v.(heads := v.heads + heads)]);
    assert FetchedHeads(tr, w, w', d, heads);
    Extend(tr, size, ws, w');
    more := ws + [w'];
  }

  /** A device takes a local commit and sends what the plan says. */
  lemma CommitAndSend(tr: Transport, size: string -> nat, ws: seq<World>, d: nat, c: Commit, records: seq<Record>)
      returns (more: seq<World>)
    requires Run(tr, size, ws) && d in Last(ws).devices && c.objects == []
    requires var v := Last(ws).devices[d];
      v.outbox == [] && v.flight.None? && tr.plan([c], v.verified, v.heads) == Ok(SaveCommit(c.commitID, records))
    ensures Run(tr, size, more)
    ensures var w, v, request := Last(ws), Last(ws).devices[d], Request(CommitPhase(c.commitID, records), c);
      Last(more) == w.(devices := w.devices[d := v.(outbox := [c], flight := Some(Flight(request, None)))],
                       requests := w.requests + {request})
  {
    var w, v := Last(ws), Last(ws).devices[d];
    var w' := w.(devices := w.devices[d := v.(outbox := v.outbox + [c])]);
    assert LocalCommit(size, w, w', d, c);
    Extend(tr, size, ws, w');
    assert w'.devices[d] == v.(outbox := [c]);
    more := SendPlanned(tr, size, ws + [w'], d, SaveCommit(c.commitID, records));
  }

  /** A device sends what the plan says. */
  lemma SendPlanned(tr: Transport, size: string -> nat, ws: seq<World>, d: nat, action: Action)
      returns (more: seq<World>)
    requires Run(tr, size, ws) && d in Last(ws).devices && PhaseFor(action).Some?
    requires var v := Last(ws).devices[d];
      v.outbox != [] && v.flight.None? && tr.plan(v.outbox, v.verified, v.heads) == Ok(action)
    ensures Run(tr, size, more)
    ensures var w, v := Last(ws), Last(ws).devices[d];
      var request := Request(PhaseFor(action).value, v.outbox[0]);
      Last(more) == w.(devices := w.devices[d := v.(flight := Some(Flight(request, None)))],
                       requests := w.requests + {request})
  {
    var w, v := Last(ws), Last(ws).devices[d];
    var request := Request(PhaseFor(action).value, v.outbox[0]);
    var w' := w.(devices := w.devices[d := v.(flight := Some(Flight(request, None)))],
                 requests := w.requests + {request});
    assert SyncProtocol.Send(tr, w, w', d);
    Extend(tr, size, ws, w');
    more := ws + [w'];
  }

  /** The server runs a request; its report reaches the device that waits for it, or nobody. */
  lemma Answer(tr: Transport, size: string -> nat, ws: seq<World>, request: Request, s': Server, resp: Response,
      to: Option<nat>) returns (more: seq<World>)
    requires Run(tr, size, ws) && request in Last(ws).requests
    requires Writes(Last(ws).server, s', request.phase.records, request.phase.AtomicByZone())
    requires Reports(Last(ws).server, s', request.phase.records, resp)
    requires to.Some? ==>
      to.value in Last(ws).devices && Last(ws).devices[to.value].flight == Some(Flight(request, None))
    ensures Run(tr, size, more) && Serve(Last(ws), Last(more), request, s', resp, to)
  {
    var w := Last(ws);
    var w' := w.(
      server := s',
      held := w.held + s'.records.Values,
      origin := OriginAfter(w, s', request),
      devices := if to.None? then w.devices
                 else w.devices[to.value := w.devices[to.value].(flight := Some(Flight(request, Some(resp))))]);
    assert Serve(w, w', request, s', resp, to);
    Extend(tr, size, ws, w');
    more := ws + [w'];
  }

  /** A device takes a local commit, sends it, and the server stores all of it; the report is lost. */
  lemma Publish(tr: Transport, size: string -> nat, ws: seq<World>, d: nat, c: Commit, records: seq<Record>)
      returns (more: seq<World>)
    requires Run(tr, size, ws) && d in Last(ws).devices && c.objects == [] && TagsUsed(Last(ws).server)
    requires var v := Last(ws).devices[d];
      v.outbox == [] && v.flight.None? && tr.plan([c], v.verified, v.heads) == Ok(SaveCommit(c.commitID, records))
    requires DistinctIds(records) && forall r :: r in records ==> Accepts(Last(ws).server, r)
    ensures Run(tr, size, more) && TagsUsed(Last(more).server)
    ensures var w, w' := Last(ws), Last(more);
      && Stores(w.server, w'.server, records) && w'.server.records.Values <= w'.held
      && d in w'.devices && w'.devices == w.devices[d := w'.devices[d]]
      && w'.devices[d] == w.devices[d].(outbox := [c], flight := w'.devices[d].flight) && w'.settled == w.settled
  {
    var sent := CommitAndSend(tr, size, ws, d, c, records);
    var s, s' := Last(ws).server, StoreAll(Last(ws).server, records);
    StoredAll(s, records);
    StoringWrites(s, s', records);
    more := Answer(tr, size, sent, Request(CommitPhase(c.commitID, records), c), s', Response([], []), None);
  }

  // ----- the commits of the examples -----

  lemma PlanNew(zone: string, x: Edit, cached: map<string, Record>)
    requires Hex(x) && x.expected == [] && Uuid(x.entity) !in cached
    ensures PlanHead(zone, RevisionFor(x), cached) == Ok(SaveHead(HeadOf(zone, x.entity, x.revision)))
  {
    UuidOk(x.entity);
    UuidOk(x.revision);
  }

  lemma HeadReads(zone: string, e: char, r: char, tag: Option<nat>)
    requires LowerHexDigit(e) && LowerHexDigit(r)
    ensures var h := HeadOf(zone, e, r).(tag := tag);
      HeadRevision(zone, h, Uuid(e)) == Ok(Uuid(r)) && Decode(zone, h) == Ok(DecodedHead(Uuid(e), Uuid(r)))
  {
    UuidOk(e);
    UuidOk(r);
  }

  lemma Expects(x: Edit)
    requires Hex(x) && |x.expected| == 1
    ensures var rv := RevisionFor(x);
      rv.expectedHeads != [] && AllUuids(rv.expectedHeads) && Uuid(x.expected[0]) in ExpectedRevisions(rv)
  {
    UuidOk(x.expected[0]);
    var rv := RevisionFor(x);
    assert rv.expectedHeads[0] == Uuid(x.expected[0]);
  }

  lemma PlanFrom(zone: string, rv: Revision, e: string, r: string, cached: map<string, Record>)
    requires ValidatedUuid(rv.entityID) == Ok(e) && ValidatedUuid(rv.revisionID) == Ok(r)
    requires rv.expectedHeads != [] && AllUuids(rv.expectedHeads) && e in cached
    requires HeadRevision(zone, cached[e], e).Ok? && HeadRevision(zone, cached[e], e).value in ExpectedRevisions(rv)
    ensures PlanHead(zone, rv, cached)
      == Ok(SaveHead(cached[e].(fields := cached[e].fields[RevisionID := Text(r)])))
  {
  }

  lemma PlanSwap(zone: string, x: Edit, cached: map<string, Record>, tag: Option<nat>)
    requires Hex(x) && |x.expected| == 1 && Uuid(x.entity) in cached
    requires cached[Uuid(x.entity)] == HeadOf(zone, x.entity, x.expected[0]).(tag := tag)
    ensures PlanHead(zone, RevisionFor(x), cached) == Ok(SaveHead(HeadOf(zone, x.entity, x.revision).(tag := tag)))
  {
    UuidOk(x.entity);
    UuidOk(x.revision);
    HeadReads(zone, x.entity, x.expected[0], tag);
    Expects(x);
    PlanFrom(zone, RevisionFor(x), Uuid(x.entity), Uuid(x.revision), cached);
    assert cached[Uuid(x.entity)].fields[RevisionID := Text(Uuid(x.revision))]
      == HeadOf(zone, x.entity, x.revision).fields;
  }

  /** The records of a commit batch with these heads. */
  function BatchFor(zone: string, c: char, edits: seq<Edit>, heads: seq<Record>): seq<Record> {
    Immutable(zone, c, edits) + heads
  }

  ghost predicate HeadsFor(zone: string, edits: seq<Edit>, heads: seq<Record>) {
    |heads| == |edits| && forall i :: 0 <= i < |edits| ==> heads[i].id == Id(zone, "head", edits[i].entity)
  }

  function LabelAt(c: char, edits: seq<Edit>, i: nat): Label
    requires i <= 2 * |edits|
  {
    if i == 0 then Label("commit", c)
    else if i <= |edits| then Label("revision", edits[i - 1].revision)
    else Label("head", edits[i - 1 - |edits|].entity)
  }

  ghost predicate Labelled(zone: string, c: char, edits: seq<Edit>, batch: seq<Record>) {
    && |batch| == 1 + 2 * |edits|
    && forall i :: 0 <= i < |batch| ==>
         batch[i].id == Id(zone, LabelAt(c, edits, i).prefix, LabelAt(c, edits, i).digit)
  }

  lemma BatchIds(zone: string, c: char, edits: seq<Edit>, heads: seq<Record>)
    requires HeadsFor(zone, edits, heads)
    ensures Labelled(zone, c, edits, BatchFor(zone, c, edits, heads))
  {
  }

  lemma BatchDistinct(zone: string, c: char, edits: seq<Edit>, heads: seq<Record>)
    requires HeadsFor(zone, edits, heads)
    requires forall i, j :: 0 <= i < j < |edits| ==>
      edits[i].entity != edits[j].entity && edits[i].revision != edits[j].revision
    ensures DistinctIds(BatchFor(zone, c, edits, heads))
  {
    BatchIds(zone, c, edits, heads);
    LabelsDistinct(zone, c, edits, BatchFor(zone, c, edits, heads));
  }

  lemma LabelsDistinct(zone: string, c: char, edits: seq<Edit>, batch: seq<Record>)
    requires Labelled(zone, c, edits, batch)
    requires forall i, j :: 0 <= i < j < |edits| ==>
      edits[i].entity != edits[j].entity && edits[i].revision != edits[j].revision
    ensures DistinctIds(batch)
  {
    forall i, j | 0 <= i < j < |batch| ensures batch[i].id != batch[j].id {
      IdsDiffer(zone, LabelAt(c, edits, i), LabelAt(c, edits, j));
    }
  }

  predicate Unrelated(edits: seq<Edit>, others: seq<Edit>) {
    forall i, j :: 0 <= i < |edits| && 0 <= j < |others| ==> edits[i].revision != others[j].revision
  }

  /** The create-only records of one commit are none of the records of another. */
  lemma BatchesApart(zone: string, c: char, edits: seq<Edit>, batch: seq<Record>, c': char, edits': seq<Edit>,
      batch': seq<Record>, j: nat)
    requires Labelled(zone, c, edits, batch) && Labelled(zone, c', edits', batch') && c != c' && j <= |edits'|
    requires Unrelated(edits, edits')
    ensures batch'[j].id !in Ids(batch)
  {
    forall i | 0 <= i < |batch| ensures batch[i].id != batch'[j].id {
      IdsDiffer(zone, LabelAt(c, edits, i), LabelAt(c', edits', j));
    }
  }

  function Heads(zone: string, edits: seq<Edit>, tags: seq<Option<nat>>): (r: seq<Record>)
    requires |tags| == |edits|
    ensures |r| == |edits| && HeadsFor(zone, edits, r)
    ensures forall i :: 0 <= i < |edits| ==>
      r[i] == HeadOf(zone, edits[i].entity, edits[i].revision).(tag := tags[i])
  {
    seq(|edits|, i requires 0 <= i < |edits| => HeadOf(zone, edits[i].entity, edits[i].revision).(tag := tags[i]))
  }

  /** The cached head of the entity is this version, which the edit expects; or none is cached and expected. */
  ghost predicate Replaces(zone: string, cached: map<string, Record>, x: Edit, tag: Option<nat>) {
    if x.expected == [] then Uuid(x.entity) !in cached && tag.None?
    else
      && |x.expected| == 1 && Uuid(x.entity) in cached
      && cached[Uuid(x.entity)] == HeadOf(zone, x.entity, x.expected[0]).(tag := tag)
  }

  lemma EditPlan(zone: string, x: Edit, cached: map<string, Record>, tag: Option<nat>)
    requires Hex(x) && Replaces(zone, cached, x, tag)
    ensures PlanHead(zone, RevisionFor(x), cached) == Ok(SaveHead(HeadOf(zone, x.entity, x.revision).(tag := tag)))
  {
    if x.expected == [] {
      PlanNew(zone, x, cached);
    } else {
      PlanSwap(zone, x, cached, tag);
    }
  }

  ghost predicate WellFormed(c: char, edits: seq<Edit>) {
    && LowerHexDigit(c) && |edits| <= 2 && (forall i :: 0 <= i < |edits| ==> Hex(edits[i]))
    && forall i, j :: 0 <= i < j < |edits| ==>
         edits[i].entity != edits[j].entity && edits[i].revision != edits[j].revision
  }

  /** The plan sends the commit as this batch of distinct records. */
  ghost predicate PlansTo(tr: Transport, zone: string, c: char, edits: seq<Edit>, cached: map<string, Record>,
      batch: seq<Record>) {
    && DistinctIds(batch) && Labelled(zone, c, edits, batch)
    && tr.plan([CommitOf(c, edits)], {}, cached) == Ok(SaveCommit(Uuid(c), batch))
  }

  lemma EditsPlan(zone: string, bootstrapMatches: (Record, Record) -> Result<bool, CodecError>, c: char,
      edits: seq<Edit>, tags: seq<Option<nat>>, cached: map<string, Record>)
    requires WellFormed(c, edits) && |tags| == |edits|
    requires forall i :: 0 <= i < |edits| ==> Replaces(zone, cached, edits[i], tags[i])
    ensures PlansTo(FloriaTransport(zone, bootstrapMatches), zone, c, edits, cached,
      BatchFor(zone, c, edits, Heads(zone, edits, tags)))
    ensures IsBatch(zone, c, edits, tags, BatchFor(zone, c, edits, Heads(zone, edits, tags)))
  {
    var heads := Heads(zone, edits, tags);
    forall i | 0 <= i < |edits| ensures PlanHead(zone, RevisionFor(edits[i]), cached) == Ok(SaveHead(heads[i])) {
      EditPlan(zone, edits[i], cached, tags[i]);
    }
    ImmutableIs(zone, c, edits);
    PlanIs(zone, bootstrapMatches, CommitOf(c, edits), cached, Immutable(zone, c, edits), heads);
    BatchIds(zone, c, edits, heads);
    BatchDistinct(zone, c, edits, heads);
    BatchShape(zone, c, edits, tags);
  }

  /** The batch of a commit: its create-only records, then its heads with these tags. */
  ghost predicate IsBatch(zone: string, c: char, edits: seq<Edit>, tags: seq<Option<nat>>, batch: seq<Record>) {
    && Labelled(zone, c, edits, batch) && DistinctIds(batch) && |tags| == |edits|
    && (forall i :: 0 <= i <= |edits| ==> batch[i].tag.None?)
    && forall i :: 0 <= i < |edits| ==>
         batch[1 + |edits| + i] == HeadOf(zone, edits[i].entity, edits[i].revision).(tag := tags[i])
  }

  lemma BatchShape(zone: string, c: char, edits: seq<Edit>, tags: seq<Option<nat>>)
    requires |tags| == |edits| && Labelled(zone, c, edits, BatchFor(zone, c, edits, Heads(zone, edits, tags)))
    requires DistinctIds(BatchFor(zone, c, edits, Heads(zone, edits, tags)))
    ensures IsBatch(zone, c, edits, tags, BatchFor(zone, c, edits, Heads(zone, edits, tags)))
  {
  }

  // ----- a commit with one stale and one fresh head -----

  /**
   One device creates two heads; a second one moves the first of them; a third one, which has not heard of that,
   sends a commit that replaces both.
   */
  datatype Story = Story(created: seq<Edit>, moved: seq<Edit>, both: seq<Edit>)

  ghost predicate Proper(t: Story) {
    && |t.created| == 2 && |t.moved| == 1 && |t.both| == 2
    && var a, b := t.created[0], t.created[1];
    && a.entity != b.entity && a.expected == [] && b.expected == []
    && t.moved[0].entity == a.entity && t.moved[0].expected == [a.revision]
    && t.both[0].entity == a.entity && t.both[0].expected == [a.revision]
    && t.both[1].entity == b.entity && t.both[1].expected == [b.revision]
    && (forall x :: x in t.created + t.moved + t.both ==> Hex(x))
    && a.revision != b.revision && t.both[0].revision != t.both[1].revision
    && Unrelated(t.created, t.moved) && Unrelated(t.created, t.both) && Unrelated(t.moved, t.both)
  }

  const EXAMPLE := Story([Edit('a', '3', []), Edit('b', '4', [])], [Edit('a', '6', ['3'])],
    [Edit('a', '8', ['3']), Edit('b', '9', ['4'])])

  lemma ExampleIsProper()
    ensures Proper(EXAMPLE)
  {
  }

  ghost function Cache(zone: string, t: Story): map<string, Record>
    requires Proper(t)
  {
    var a, b := t.created[0], t.created[1];
    map[Uuid(a.entity) := HeadOf(zone, a.entity, a.revision).(tag := Some(3)),
        Uuid(b.entity) := HeadOf(zone, b.entity, b.revision).(tag := Some(4))]
  }

  ghost function Batch1(zone: string, t: Story): seq<Record>
    requires Proper(t)
  {
    BatchFor(zone, '1', t.created, Heads(zone, t.created, [None, None]))
  }

  ghost function Batch2(zone: string, t: Story): seq<Record>
    requires Proper(t)
  {
    BatchFor(zone, '2', t.moved, Heads(zone, t.moved, [Some(3)]))
  }

  ghost function Batch3(zone: string, t: Story): seq<Record>
    requires Proper(t)
  {
    BatchFor(zone, '3', t.both, Heads(zone, t.both, [Some(3), Some(4)]))
  }

  lemma UuidsDiffer(c: char, d: char)
    requires c != d
    ensures Uuid(c) != Uuid(d)
  {
    assert Uuid(c)[0] == c && Uuid(d)[0] == d;
  }

  lemma StoryEdits(t: Story)
    requires Proper(t)
    ensures WellFormed('1', t.created) && WellFormed('2', t.moved) && WellFormed('3', t.both)
  {
    assert forall x :: x in t.created || x in t.moved || x in t.both ==> x in t.created + t.moved + t.both;
  }

  lemma StoryCache(zone: string, t: Story)
    requires Proper(t)
    ensures Replaces(zone, Cache(zone, t), t.moved[0], Some(3))
    ensures Replaces(zone, Cache(zone, t), t.both[0], Some(3)) && Replaces(zone, Cache(zone, t), t.both[1], Some(4))
  {
    UuidsDiffer(t.created[0].entity, t.created[1].entity);
  }

  lemma Plan1(zone: string, bootstrapMatches: (Record, Record) -> Result<bool, CodecError>, t: Story)
    requires Proper(t)
    ensures PlansTo(FloriaTransport(zone, bootstrapMatches), zone, '1', t.created, map[], Batch1(zone, t))
    ensures IsBatch(zone, '1', t.created, [None, None], Batch1(zone, t))
  {
    StoryEdits(t);
    EditsPlan(zone, bootstrapMatches, '1', t.created, [None, None], map[]);
  }

  lemma Plan2(zone: string, bootstrapMatches: (Record, Record) -> Result<bool, CodecError>, t: Story)
    requires Proper(t)
    ensures PlansTo(FloriaTransport(zone, bootstrapMatches), zone, '2', t.moved, Cache(zone, t), Batch2(zone, t))
    ensures IsBatch(zone, '2', t.moved, [Some(3)], Batch2(zone, t))
  {
    StoryEdits(t);
    StoryCache(zone, t);
    EditsPlan(zone, bootstrapMatches, '2', t.moved, [Some(3)], Cache(zone, t));
  }

  lemma Plan3(zone: string, bootstrapMatches: (Record, Record) -> Result<bool, CodecError>, t: Story)
    requires Proper(t)
    ensures PlansTo(FloriaTransport(zone, bootstrapMatches), zone, '3', t.both, Cache(zone, t), Batch3(zone, t))
    ensures IsBatch(zone, '3', t.both, [Some(3), Some(4)], Batch3(zone, t))
  {
    StoryEdits(t);
    StoryCache(zone, t);
    EditsPlan(zone, bootstrapMatches, '3', t.both, [Some(3), Some(4)], Cache(zone, t));
  }

  // ----- the story as a run -----

  lemma ThreeDevices(tr: Transport, size: string -> nat) returns (ws: seq<World>)
    ensures Run(tr, size, ws)
    ensures Last(ws) == SyncProtocol.Start.(devices := map[0 := FreshDevice, 1 := FreshDevice, 2 := FreshDevice])
  {
    ws := [SyncProtocol.Start];
    ws := AddDevice(tr, size, ws, 0);
    ws := AddDevice(tr, size, ws, 1);
    ws := AddDevice(tr, size, ws, 2);
    assert Last(ws).devices == map[0 := FreshDevice, 1 := FreshDevice, 2 := FreshDevice];
  }

  ghost function HeadA(zone: string, t: Story): RecordId
    requires Proper(t)
  {
    Id(zone, "head", t.created[0].entity)
  }

  ghost function HeadB(zone: string, t: Story): RecordId
    requires Proper(t)
  {
    Id(zone, "head", t.created[1].entity)
  }

  /** The three batches. */
  datatype Batches = Batches(first: seq<Record>, second: seq<Record>, third: seq<Record>)

  ghost predicate Batched(zone: string, t: Story, b: Batches) {
    && IsBatch(zone, '1', t.created, [None, None], b.first)
    && IsBatch(zone, '2', t.moved, [Some(3)], b.second)
    && IsBatch(zone, '3', t.both, [Some(3), Some(4)], b.third)
  }

  /** The server after the first commit. */
  ghost predicate HoldsBoth(zone: string, t: Story, b: Batches, s: Server)
    requires Proper(t)
  {
    && s.nextTag == 5 && s.records.Keys == Ids(b.first)
    && HeadA(zone, t) in s.records
    && s.records[HeadA(zone, t)] == HeadOf(zone, t.created[0].entity, t.created[0].revision).(tag := Some(3))
    && HeadB(zone, t) in s.records
    && s.records[HeadB(zone, t)] == HeadOf(zone, t.created[1].entity, t.created[1].revision).(tag := Some(4))
  }

  lemma BothStored(zone: string, t: Story, b: Batches, s: Server)
    requires Proper(t) && Batched(zone, t, b)
    requires Stores(Server(map[], 0), s, b.first)
    ensures HoldsBoth(zone, t, b, s)
  {
    var batch := b.first;
    assert batch[3].id == HeadA(zone, t) && batch[4].id == HeadB(zone, t);
    assert batch[3] in batch && batch[4] in batch;
  }

  ghost predicate ReadsCache(tr: Transport, cached: map<string, Record>) {
    forall e :: e in cached ==>
      && tr.decode(cached[e]).Ok? && tr.decode(cached[e]).value.DecodedHead?
      && tr.decode(cached[e]).value.headEntityID == e
  }

  lemma CacheReads(zone: string, bootstrapMatches: (Record, Record) -> Result<bool, CodecError>, t: Story)
    requires Proper(t)
    ensures ReadsCache(FloriaTransport(zone, bootstrapMatches), Cache(zone, t))
  {
    var a, b := t.created[0], t.created[1];
    assert a in t.created + t.moved + t.both && b in t.created + t.moved + t.both;
    HeadReads(zone, a.entity, a.revision, Some(3));
    HeadReads(zone, b.entity, b.revision, Some(4));
    UuidsDiffer(a.entity, b.entity);
  }

  lemma CacheIsStored(zone: string, t: Story, b: Batches, s: Server)
    requires Proper(t) && HoldsBoth(zone, t, b, s)
    ensures forall e :: e in Cache(zone, t) ==> Cache(zone, t)[e] in s.records.Values
  {
    UuidsDiffer(t.created[0].entity, t.created[1].entity);
  }

  lemma LearnCache(tr: Transport, size: string -> nat, ws: seq<World>, d: nat, cached: map<string, Record>)
      returns (more: seq<World>)
    requires Run(tr, size, ws) && ReadsCache(tr, cached) && forall e :: e in cached ==> cached[e] in Last(ws).held
    requires d in Last(ws).devices && Last(ws).devices[d] == FreshDevice
    ensures Run(tr, size, more)
    ensures Last(more) == Last(ws).(devices := Last(ws).devices[d := FreshDevice.(heads := cached)])
  {
    more := LearnHeads(tr, size, ws, d, cached);
    assert map[] + cached == cached;
  }

  /** The components plan the three commits as the story says. */
  ghost predicate Follows(tr: Transport, zone: string, t: Story, b: Batches) {
    && Proper(t) && ReadsCache(tr, Cache(zone, t))
    && PlansTo(tr, zone, '1', t.created, map[], b.first)
    && PlansTo(tr, zone, '2', t.moved, Cache(zone, t), b.second)
    && PlansTo(tr, zone, '3', t.both, Cache(zone, t), b.third)
    && Batched(zone, t, b)
  }

  /** One device creates two heads, and two others learn them. */
  lemma TwoHeads(tr: Transport, size: string -> nat, zone: string, t: Story, b: Batches) returns (ws: seq<World>)
    requires Follows(tr, zone, t, b)
    ensures Run(tr, size, ws) && HoldsBoth(zone, t, b, Last(ws).server) && TagsUsed(Last(ws).server)
    ensures 1 in Last(ws).devices && Last(ws).devices[1] == FreshDevice.(heads := Cache(zone, t))
    ensures 2 in Last(ws).devices && Last(ws).devices[2] == FreshDevice.(heads := Cache(zone, t))
  {
    ws := ThreeDevices(tr, size);
    ws := Publish(tr, size, ws, 0, CommitOf('1', t.created), b.first);
    BothStored(zone, t, b, Last(ws).server);
    CacheIsStored(zone, t, b, Last(ws).server);
    ws := LearnCache(tr, size, ws, 1, Cache(zone, t));
    ws := LearnCache(tr, size, ws, 2, Cache(zone, t));
  }

  /** The server after another device moved the first head. */
  ghost predicate HoldsMoved(zone: string, t: Story, b: Batches, s: Server)
    requires Proper(t)
  {
    && s.records.Keys == Ids(b.first) + Ids(b.second)
    && HeadA(zone, t) in s.records
    && s.records[HeadA(zone, t)] == HeadOf(zone, t.created[0].entity, t.moved[0].revision).(tag := Some(7))
    && HeadB(zone, t) in s.records
    && s.records[HeadB(zone, t)] == HeadOf(zone, t.created[1].entity, t.created[1].revision).(tag := Some(4))
  }

  lemma SecondAccepted(zone: string, t: Story, b: Batches, s: Server)
    requires Proper(t) && Batched(zone, t, b) && HoldsBoth(zone, t, b, s)
    ensures forall r :: r in b.second ==> Accepts(s, r)
  {
    var batch := b.second;
    forall j | 0 <= j < |batch| ensures Accepts(s, batch[j]) {
      if j <= 1 {
        BatchesApart(zone, '1', t.created, b.first, '2', t.moved, batch, j);
      } else {
        assert batch[j] == batch[1 + |t.moved| + 0];
      }
    }
  }

  lemma SecondLeavesB(zone: string, t: Story, b: Batches)
    requires Proper(t) && Batched(zone, t, b)
    ensures HeadB(zone, t) !in Ids(b.second)
  {
    forall i | 0 <= i < |b.second| ensures b.second[i].id != HeadB(zone, t) {
      IdsDiffer(zone, LabelAt('2', t.moved, i), Label("head", t.created[1].entity));
    }
  }

  lemma MovedStored(zone: string, t: Story, b: Batches, s: Server, s': Server)
    requires Proper(t) && Batched(zone, t, b) && HoldsBoth(zone, t, b, s) && Stores(s, s', b.second)
    ensures HoldsMoved(zone, t, b, s')
  {
    assert b.second[2] == b.second[1 + |t.moved| + 0] && b.second[2] in b.second;
    SecondLeavesB(zone, t, b);
  }

  /** A third device moves the first head. */
  lemma MoveFirst(tr: Transport, size: string -> nat, zone: string, t: Story, b: Batches,
      ws: seq<World>) returns (more: seq<World>)
    requires Follows(tr, zone, t, b)
    requires Run(tr, size, ws) && HoldsBoth(zone, t, b, Last(ws).server) && TagsUsed(Last(ws).server)
    requires 1 in Last(ws).devices && Last(ws).devices[1] == FreshDevice.(heads := Cache(zone, t))
    requires 2 in Last(ws).devices && Last(ws).devices[2] == FreshDevice.(heads := Cache(zone, t))
    ensures Run(tr, size, more) && HoldsMoved(zone, t, b, Last(more).server)
    ensures 1 in Last(more).devices && Last(more).devices[1] == FreshDevice.(heads := Cache(zone, t))
  {
    SecondAccepted(zone, t, b, Last(ws).server);
    more := Publish(tr, size, ws, 2, CommitOf('2', t.moved), b.second);
    MovedStored(zone, t, b, Last(ws).server, Last(more).server);
  }

  lemma ThirdIsNew(zone: string, t: Story, b: Batches, s: Server, j: nat)
    requires Proper(t) && Batched(zone, t, b) && HoldsMoved(zone, t, b, s) && j <= 2
    ensures Accepts(s, b.third[j])
  {
    BatchesApart(zone, '1', t.created, b.first, '3', t.both, b.third, j);
    BatchesApart(zone, '2', t.moved, b.second, '3', t.both, b.third, j);
  }

  /** The stale head is refused, the fresh one would have been accepted. */
  lemma ThirdHeads(zone: string, t: Story, b: Batches, s: Server)
    requires Proper(t) && Batched(zone, t, b) && HoldsMoved(zone, t, b, s)
    ensures !Accepts(s, b.third[3]) && b.third[3].kind == HeadType && b.third[3].id in s.records
    ensures Accepts(s, b.third[4]) && b.third[4].kind == HeadType
  {
    assert b.third[3] == b.third[1 + |t.both| + 0] && b.third[4] == b.third[1 + |t.both| + 1];
  }

  lemma ThirdIsKnown(zone: string, t: Story, b: Batches, s: Server, j: nat)
    requires Proper(t) && Batched(zone, t, b) && HoldsMoved(zone, t, b, s) && j < |b.third| && !Accepts(s, b.third[j])
    ensures b.third[j].id in s.records
  {
    if j <= 2 {
      ThirdIsNew(zone, t, b, s, j);
    } else {
      assert j == 3 || j == 4;
      ThirdHeads(zone, t, b, s);
    }
  }

  lemma ThirdRefused(zone: string, t: Story, b: Batches, s: Server)
    requires Proper(t) && Batched(zone, t, b) && HoldsMoved(zone, t, b, s)
    ensures forall r :: r in b.third && !Accepts(s, r) ==> r.id in s.records
    ensures OnlySomeStale(s, b.third)
  {
    ThirdHeads(zone, t, b, s);
    assert b.third[3] in b.third && b.third[4] in b.third;
    forall r | r in b.third && !Accepts(s, r) ensures r.id in s.records {
      var j :| 0 <= j < |b.third| && b.third[j] == r;
      ThirdIsKnown(zone, t, b, s, j);
    }
  }

  /** One head of the batch would be accepted and another one is refused. */
  ghost predicate OnlySomeStale(s: Server, records: seq<Record>) {
    exists good, stale :: good in records && good.kind == HeadType && Accepts(s, good)
      && stale in records && stale.kind == HeadType && !Accepts(s, stale)
  }

  /** The third device sends its commit, which is refused. */
  lemma RefuseThird(tr: Transport, size: string -> nat, zone: string, t: Story, b: Batches, ws: seq<World>)
      returns (more: seq<World>, request: Request, resp: Response)
    requires Follows(tr, zone, t, b) && Run(tr, size, ws) && HoldsMoved(zone, t, b, Last(ws).server)
    requires 1 in Last(ws).devices && Last(ws).devices[1] == FreshDevice.(heads := Cache(zone, t))
    ensures Run(tr, size, more) && 1 in Last(more).devices
    ensures Last(more).devices[1].flight == Some(Flight(request, Some(resp)))
    ensures request.phase == CommitPhase(request.commit.commitID, b.third) && DistinctIds(b.third)
    ensures OnlySomeStale(Last(more).server, b.third) && ReportsRefusalFully(Last(more).server, b.third, resp)
  {
    var s := Last(ws).server;
    ThirdRefused(zone, t, b, s);
    RefusalIsHonest(s, b.third);
    resp := Response([], Map(r => Refusal(s, r), b.third));
    request := Request(CommitPhase(Uuid('3'), b.third), CommitOf('3', t.both));
    more := CommitAndSend(tr, size, ws, 1, CommitOf('3', t.both), b.third);
    more := Answer(tr, size, more, request, s, resp, Some(1));
  }

  lemma FloriaFollows(zone: string, bootstrapMatches: (Record, Record) -> Result<bool, CodecError>, t: Story)
    requires Proper(t)
    ensures Follows(FloriaTransport(zone, bootstrapMatches), zone, t,
      Batches(Batch1(zone, t), Batch2(zone, t), Batch3(zone, t)))
  {
    CacheReads(zone, bootstrapMatches, t);
    Plan1(zone, bootstrapMatches, t);
    Plan2(zone, bootstrapMatches, t);
    Plan3(zone, bootstrapMatches, t);
  }

  /**
   A commit with only some heads stale is reachable. Three devices suffice: in the last state the report of the
   refused commit waits to be handled, and in every dictionary order it ends the sync in an error.
   */
  lemma PartlyStaleIsReachable(zone: string, bootstrapMatches: (Record, Record) -> Result<bool, CodecError>,
      size: string -> nat) returns (ws: seq<World>, request: Request, resp: Response)
    ensures Run(FloriaTransport(zone, bootstrapMatches), size, ws) && 1 in Last(ws).devices
    ensures Last(ws).devices[1].flight == Some(Flight(request, Some(resp)))
    ensures request.phase.CommitPhase? && OnlySomeStale(Last(ws).server, request.phase.records)
    ensures ReportsRefusalFully(Last(ws).server, request.phase.records, resp)
    ensures forall order :: IterationOrder(order, request.phase) ==>
      ClassOf(Resolve(CodecJudge(zone, bootstrapMatches), request.phase, resp.saved, resp.failures, order)) == Failed
  {
    var tr, t := FloriaTransport(zone, bootstrapMatches), EXAMPLE;
    ExampleIsProper();
    var b := Batches(Batch1(zone, t), Batch2(zone, t), Batch3(zone, t));
    FloriaFollows(zone, bootstrapMatches, t);
    ws := TwoHeads(tr, size, zone, t, b);
    ws := MoveFirst(tr, size, zone, t, b, ws);
    ws, request, resp := RefuseThird(tr, size, zone, t, b, ws);
    FailsInEveryOrder(zone, bootstrapMatches, Last(ws).server, request.phase, resp);
  }

  lemma FailsInEveryOrder(zone: string, bootstrapMatches: (Record, Record) -> Result<bool, CodecError>, s: Server,
      phase: Phase, resp: Response)
    requires phase.CommitPhase? && DistinctIds(phase.records) && OnlySomeStale(s, phase.records)
    requires ReportsRefusal(s, phase.records, resp)
    ensures forall order :: IterationOrder(order, phase) ==>
      ClassOf(Resolve(CodecJudge(zone, bootstrapMatches), phase, resp.saved, resp.failures, order)) == Failed
  {
    var good, stale :| good in phase.records && good.kind == HeadType && Accepts(s, good)
      && stale in phase.records && stale.kind == HeadType && !Accepts(s, stale);
    forall order | IterationOrder(order, phase)
      ensures ClassOf(Resolve(CodecJudge(zone, bootstrapMatches), phase, resp.saved, resp.failures, order)) == Failed {
      PartlyStaleCommitFails(zone, bootstrapMatches, s, phase, resp, order, stale, good);
    }
  }

  // ----- a commit that landed while its report was lost -----

  /** The head the commit created, as the device learns it again. */
  ghost function Landed(zone: string, x: Edit): map<string, Record> {
    map[Uuid(x.entity) := HeadOf(zone, x.entity, x.revision).(tag := Some(2))]
  }

  lemma LandedPlan(zone: string, bootstrapMatches: (Record, Record) -> Result<bool, CodecError>, x: Edit)
    requires Hex(x) && x.expected == []
    ensures var plan := FloriaTransport(zone, bootstrapMatches).plan([CommitOf('1', [x])], {}, Landed(zone, x));
      && plan.Ok? && plan.value.SaveConflictBranch? && plan.value.commitID == Uuid('1')
      && plan.value.immutable == Immutable(zone, '1', [x])
  {
    var c, rv := CommitOf('1', [x]), RevisionFor(x);
    UuidOk(x.entity);
    UuidOk(x.revision);
    HeadReads(zone, x.entity, x.revision, Some(2));
    assert c.revisions == [rv] && rv.expectedHeads == [];
    ImmutableIs(zone, '1', [x]);
    assert Refreshed(zone, rv, Landed(zone, x)) && rv in c.revisions;
    LandedCommitPlan(zone, c, Landed(zone, x));
    NoObjects(c);
  }

  /** A stored copy of a create-only record counts as already saved. */
  lemma StoredIsSaved(zone: string, r: Record, tag: Option<nat>)
    requires Decode(zone, r).Ok? && r.kind != HeadType && r.kind != ObjectType
    ensures Classify(zone, r, r.(tag := tag)) == Ok(AlreadySaved)
  {
    DecodeIgnoresTag(zone, r, tag);
    DecodeChecksIdentity(zone, r);
  }

  /** The server after the commit landed. */
  ghost predicate HoldsCommit(zone: string, c: char, edits: seq<Edit>, s: Server) {
    && forall i :: 0 <= i < |Immutable(zone, c, edits)| ==>
         var r := Immutable(zone, c, edits)[i];
         r.id in s.records && s.records[r.id] == r.(tag := Some(i))
  }

  lemma CommitHeld(zone: string, bootstrapMatches: (Record, Record) -> Result<bool, CodecError>, c: char,
      edits: seq<Edit>, s: Server)
    requires LowerHexDigit(c) && (forall i :: 0 <= i < |edits| ==> Hex(edits[i])) && HoldsCommit(zone, c, edits, s)
    ensures AlreadyHolds(zone, s, Immutable(zone, c, edits))
  {
    var records := Immutable(zone, c, edits);
    ImmutableIs(zone, c, edits);
    FloriaImmutableLaw(zone, bootstrapMatches, CommitOf(c, edits));
    forall r | r in records
      ensures !Accepts(s, r) && r.id in s.records && Classify(zone, r, s.records[r.id]) == Ok(AlreadySaved) {
      var i :| 0 <= i < |records| && records[i] == r;
      StoredIsSaved(zone, r, Some(i));
    }
  }

  /** The conflict branch of a commit that is on the server resolves as accepted. */
  lemma BranchAccepted(zone: string, bootstrapMatches: (Record, Record) -> Result<bool, CodecError>, s: Server,
      commitID: string, records: seq<Record>)
    requires DistinctIds(records) && AlreadyHolds(zone, s, records)
    ensures var resp, phase := Response([], Map(r => Refusal(s, r), records)), ConflictBranchPhase(commitID, records);
      && Reports(s, s, records, resp) && Writes(s, s, records, false) && IterationOrder(records, phase)
      && Resolve(CodecJudge(zone, bootstrapMatches), phase, resp.saved, resp.failures, records)
         == ConflictBranchAccepted(commitID)
  {
    var resp, phase := Response([], Map(r => Refusal(s, r), records)), ConflictBranchPhase(commitID, records);
    RefusalIsHonest(s, records);
    assert ReportsCopies(s, records, resp);
    assert Distinct(records);
    HeldReport(zone, s, phase, resp);
    NothingStripped(zone, s, phase, resp.failures) by {
      OneFailureEach(phase, resp);
      assert forall f :: f in resp.failures ==> f == Refusal(s, f.record) && f.record in records;
    }
    OneReading(zone, bootstrapMatches, s, phase, resp, records);
    AcceptedKind(CodecJudge(zone, bootstrapMatches), phase, resp.saved, resp.failures, records);
  }

  lemma LoseReport(tr: Transport, size: string -> nat, ws: seq<World>, d: nat) returns (more: seq<World>)
    requires Run(tr, size, ws) && d in Last(ws).devices
    ensures Run(tr, size, more)
    ensures Last(more) == Last(ws).(devices := Last(ws).devices[d := Last(ws).devices[d].(flight := None)])
  {
    var w' := Last(ws).(devices := Last(ws).devices[d := Last(ws).devices[d].(flight := None)]);
    assert Housekeeping(Last(ws), w', d);
    Extend(tr, size, ws, w');
    more := ws + [w'];
  }

  /** The report of an accepted conflict branch settles the commit. */
  lemma SettleBranch(tr: Transport, size: string -> nat, ws: seq<World>, d: nat, order: seq<Record>)
      returns (more: seq<World>)
    requires Run(tr, size, ws) && d in Last(ws).devices && Last(ws).devices[d].flight.Some?
      && Last(ws).devices[d].flight.value.response.Some?
    requires var flight := Last(ws).devices[d].flight.value;
      var phase, resp := flight.request.phase, flight.response.value;
      && phase.ConflictBranchPhase? && IterationOrder(order, phase)
      && Resolve(tr.judge, phase, resp.saved, resp.failures, order) == ConflictBranchAccepted(phase.commitID)
    ensures Run(tr, size, more) && Last(more).server == Last(ws).server
    ensures Last(more).settled
      == Last(ws).settled + [Settlement(Last(ws).devices[d].flight.value.request.commit, InConflict)]
  {
    var w, v := Last(ws), Last(ws).devices[d];
    var request := v.flight.value.request;
    var settled := v.(flight := None, outbox := Settle(v.outbox, request.phase.commitID));
    var w' := w.(devices := w.devices[d := settled], settled := w.settled + [Settlement(request.commit, InConflict)]);
    assert Receive(tr, w, w', d, order, map[], true);
    Extend(tr, size, ws, w');
    more := ws + [w'];
  }

  lemma CreatedPlan(zone: string, bootstrapMatches: (Record, Record) -> Result<bool, CodecError>, x: Edit)
      returns (batch: seq<Record>)
    requires Hex(x) && x.expected == []
    ensures PlansTo(FloriaTransport(zone, bootstrapMatches), zone, '1', [x], map[], batch)
    ensures IsBatch(zone, '1', [x], [None], batch) && batch[..2] == Immutable(zone, '1', [x])
  {
    assert WellFormed('1', [x]);
    EditsPlan(zone, bootstrapMatches, '1', [x], [None], map[]);
    batch := BatchFor(zone, '1', [x], Heads(zone, [x], [None]));
  }

  /** The commit is on the server, and the head carries its revision. */
  ghost predicate HasLanded(zone: string, x: Edit, s: Server) {
    && HoldsCommit(zone, '1', [x], s)
    && Id(zone, "head", x.entity) in s.records
    && s.records[Id(zone, "head", x.entity)] == HeadOf(zone, x.entity, x.revision).(tag := Some(2))
  }

  lemma CommitLands(zone: string, x: Edit, batch: seq<Record>, s: Server)
    requires IsBatch(zone, '1', [x], [None], batch) && batch[..2] == Immutable(zone, '1', [x])
    requires Stores(Server(map[], 0), s, batch)
    ensures HasLanded(zone, x, s)
  {
    assert |batch| == 3;
    assert batch[2] == batch[1 + |[x]| + 0] && batch[2] in batch;
    forall i | 0 <= i < 2 ensures batch[i].id in s.records && s.records[batch[i].id] == batch[i].(tag := Some(i)) {
      assert batch[i] in batch;
    }
  }

  /** The commit is sent and lands, and its report is lost. */
  lemma Land(tr: Transport, size: string -> nat, zone: string, x: Edit, batch: seq<Record>) returns (ws: seq<World>)
    requires PlansTo(tr, zone, '1', [x], map[], batch)
    requires IsBatch(zone, '1', [x], [None], batch) && batch[..2] == Immutable(zone, '1', [x])
    ensures Run(tr, size, ws) && HasLanded(zone, x, Last(ws).server) && 0 in Last(ws).devices && Last(ws).settled == []
    ensures Last(ws).devices[0] == FreshDevice.(outbox := [CommitOf('1', [x])])
    ensures Last(ws).server.records.Values <= Last(ws).held
  {
    ws := AddDevice(tr, size, [SyncProtocol.Start], 0);
    forall r | r in batch ensures Accepts(Server(map[], 0), r) {
      var i :| 0 <= i < |batch| && batch[i] == r;
      assert i == 2 ==> batch[i] == batch[1 + |[x]| + 0];
    }
    ws := Publish(tr, size, ws, 0, CommitOf('1', [x]), batch);
    CommitLands(zone, x, batch, Last(ws).server);
    ws := LoseReport(tr, size, ws, 0);
  }

  /** The device learns the head its own commit made. */
  lemma LearnLanded(tr: Transport, size: string -> nat, zone: string, x: Edit, ws: seq<World>)
      returns (more: seq<World>)
    requires Run(tr, size, ws) && ReadsCache(tr, Landed(zone, x)) && HasLanded(zone, x, Last(ws).server)
    requires Last(ws).server.records.Values <= Last(ws).held
    requires 0 in Last(ws).devices && Last(ws).devices[0] == FreshDevice.(outbox := [CommitOf('1', [x])])
    ensures Run(tr, size, more) && Last(more) == Last(ws).(devices := Last(more).devices) && 0 in Last(more).devices
    ensures Last(more).devices[0] == FreshDevice.(outbox := [CommitOf('1', [x])], heads := Landed(zone, x))
  {
    more := LearnHeads(tr, size, ws, 0, Landed(zone, x));
    assert map[] + Landed(zone, x) == Landed(zone, x);
  }

  /** The device sends a conflict branch, which is answered by this report, and settles the commit. */
  lemma BranchOff(tr: Transport, size: string -> nat, ws: seq<World>, d: nat, action: Action, resp: Response)
      returns (more: seq<World>)
    requires Run(tr, size, ws) && d in Last(ws).devices && action.SaveConflictBranch?
    requires var v := Last(ws).devices[d];
      v.outbox != [] && v.flight.None? && tr.plan(v.outbox, v.verified, v.heads) == Ok(action)
    requires var s, phase := Last(ws).server, ConflictBranchPhase(action.commitID, action.immutable);
      && Reports(s, s, action.immutable, resp) && Writes(s, s, action.immutable, false)
      && IterationOrder(action.immutable, phase)
      && Resolve(tr.judge, phase, resp.saved, resp.failures, action.immutable)
         == ConflictBranchAccepted(action.commitID)
    ensures Run(tr, size, more) && Last(more).server == Last(ws).server
    ensures Last(more).settled == Last(ws).settled + [Settlement(Last(ws).devices[d].outbox[0], InConflict)]
  {
    var request := Request(PhaseFor(action).value, Last(ws).devices[d].outbox[0]);
    more := SendPlanned(tr, size, ws, d, action);
    more := Answer(tr, size, more, request, Last(ws).server, resp, Some(d));
    more := SettleBranch(tr, size, more, d, action.immutable);
  }

  lemma ImmutableDistinct(zone: string, x: Edit, batch: seq<Record>)
    requires IsBatch(zone, '1', [x], [None], batch) && batch[..2] == Immutable(zone, '1', [x])
    ensures DistinctIds(Immutable(zone, '1', [x]))
  {
  }

  /** Planning again, the device branches off the commit that has landed. */
  lemma SettleLanded(zone: string, bootstrapMatches: (Record, Record) -> Result<bool, CodecError>, size: string -> nat,
      x: Edit, ws: seq<World>) returns (more: seq<World>)
    requires Hex(x) && x.expected == [] && Run(FloriaTransport(zone, bootstrapMatches), size, ws)
    requires HasLanded(zone, x, Last(ws).server) && DistinctIds(Immutable(zone, '1', [x]))
    requires 0 in Last(ws).devices
      && Last(ws).devices[0] == FreshDevice.(outbox := [CommitOf('1', [x])], heads := Landed(zone, x))
    ensures Run(FloriaTransport(zone, bootstrapMatches), size, more) && Last(more).server == Last(ws).server
    ensures Last(more).settled == Last(ws).settled + [Settlement(CommitOf('1', [x]), InConflict)]
  {
    var tr, s, records := FloriaTransport(zone, bootstrapMatches), Last(ws).server, Immutable(zone, '1', [x]);
    LandedPlan(zone, bootstrapMatches, x);
    CommitHeld(zone, bootstrapMatches, '1', [x], s);
    BranchAccepted(zone, bootstrapMatches, s, Uuid('1'), records);
    var action := tr.plan([CommitOf('1', [x])], {}, Landed(zone, x)).value;
    more := BranchOff(tr, size, ws, 0, action, Response([], Map(r => Refusal(s, r), records)));
  }

  lemma HeadIsNow(zone: string, x: Edit, s: Server)
    requires Hex(x) && HasLanded(zone, x, s)
    ensures forall rv :: rv in CommitOf('1', [x]).revisions ==> HeadNow(zone, s, rv)
  {
    HeadReads(zone, x.entity, x.revision, Some(2));
    UuidOk(x.entity);
    UuidOk(x.revision);
    assert CommitOf('1', [x]).revisions == [RevisionFor(x)];
  }

  lemma LandedReads(zone: string, bootstrapMatches: (Record, Record) -> Result<bool, CodecError>, x: Edit)
    requires Hex(x)
    ensures ReadsCache(FloriaTransport(zone, bootstrapMatches), Landed(zone, x))
  {
    HeadReads(zone, x.entity, x.revision, Some(2));
  }

  /**
   A commit that landed can be settled as a conflict. One device suffices: its report is lost, the device learns
   the head its own commit made, and from then on plans the conflict branch (`LandedCommitPlan`). In the last
   state the head carries the commit's own revision.
   */
  lemma LandedCommitInConflict(zone: string, bootstrapMatches: (Record, Record) -> Result<bool, CodecError>,
      size: string -> nat) returns (ws: seq<World>, c: Commit)
    ensures Run(FloriaTransport(zone, bootstrapMatches), size, ws) && c.revisions != []
    ensures Last(ws).settled == [Settlement(c, InConflict)]
    ensures forall rv :: rv in c.revisions ==> HeadNow(zone, Last(ws).server, rv)
  {
    var x, tr := Edit('a', '3', []), FloriaTransport(zone, bootstrapMatches);
    c := CommitOf('1', [x]);
    var batch := CreatedPlan(zone, bootstrapMatches, x);
    ImmutableDistinct(zone, x, batch);
    LandedReads(zone, bootstrapMatches, x);
    ws := Land(tr, size, zone, x, batch);
    ws := LearnLanded(tr, size, zone, x, ws);
    ws := SettleLanded(zone, bootstrapMatches, size, x, ws);
    HeadIsNow(zone, x, Last(ws).server);
  }

  /** The server's head of the revision's entity carries the revision. */
  ghost predicate HeadNow(zone: string, s: Server, rv: Revision) {
    var id := IdFor(zone, "head", Lower(rv.entityID));
    id in s.records && Decode(zone, s.records[id]) == Ok(DecodedHead(Lower(rv.entityID), Lower(rv.revisionID)))
  }
}
