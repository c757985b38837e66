/**
 The outbound protocol of any number of devices against one server: plan, send, server
 processing, report, settlement, head fetches, checkpoints, restarts and account resets, in any
 interleaving, with requests that may be served late, repeatedly or without their report arriving.
 */
module SyncProtocol {
  import opened Prelude
  import opened Records
  import opened RecordCodec
  import opened Planner
  import opened Resolver
  import opened CloudServer
  import opened Text

  /**
   The device-side components the protocol runs on. `FloriaTransport` assembles the real ones; the
   proofs below use them only through the laws of `Sound`.
   */
  datatype Transport = Transport(
    decode: Record -> Result<Decoded, CodecError>,
    judge: Judge,
    plan: (seq<Commit>, set<string>, map<string, Record>) -> Result<Action, PlanningError>,
    immutable: Commit -> Result<seq<Record>, CodecError>)

  datatype Request = Request(phase: Phase, commit: Commit)
  datatype Flight = Flight(request: Request, response: Option<Response>)

  datatype Device = Device(
    outbox: seq<Commit>,
    verified: set<string>,
    heads: map<string, Record>,
    checkpoint: map<string, Record>,
    flight: Option<Flight>)

  datatype Disposition = Accepted | InConflict
  datatype Settlement = Settlement(commit: Commit, disposition: Disposition)

  /**
   `held` is every version the server ever stored, `requests` every batch ever sent, `origin` the
   commit whose batch created a commit record, and `settled` every settlement so far.
   */
  datatype World = World(
    server: Server,
    devices: map<nat, Device>,
    held: set<Record>,
    requests: set<Request>,
    origin: map<RecordId, Commit>,
    settled: seq<Settlement>)

  const FreshDevice := Device([], {}, map[], map[], None)
  const Start := World(Server(map[], 0), map[], {}, {}, map[], [])

  // ----- steps -----

  /** The daemon's object store is content-addressed: a digest fixes the size, and files match it. */
  ghost predicate ContentAddressed(size: string -> nat, c: Commit) {
    forall a :: a in c.objects ==>
      a.ciphertextSize == size(a.digest) && a.file.size == a.ciphertextSize && a.file.sha256 == a.digest
  }

  ghost predicate LocalCommit(size: string -> nat, w: World, w': World, d: nat, c: Commit) {
    && d in w.devices && ContentAddressed(size, c)
    && w' == w.(devices := w.devices[d := w.devices[d].(outbox := w.devices[d].outbox + [c])])
  }

  function PhaseFor(a: Action): Option<Phase> {
    match a
    case SaveObjects(records) => Some(ObjectsPhase(records))
    case SaveCommit(commitID, records) => Some(CommitPhase(commitID, records))
    case SaveConflictBranch(commitID, _, records) => Some(ConflictBranchPhase(commitID, records))
    case _ => None
  }

  ghost predicate Send(tr: Transport, w: World, w': World, d: nat) {
    && d in w.devices && w.devices[d].flight.None? && w.devices[d].outbox != []
    && var v := w.devices[d];
    && tr.plan(v.outbox, v.verified, v.heads).Ok?
    && var phase := PhaseFor(tr.plan(v.outbox, v.verified, v.heads).value);
    && phase.Some?
    && var request := Request(phase.value, v.outbox[0]);
    && w' == w.(devices := w.devices[d := v.(flight := Some(Flight(request, None)))],
      requests := w.requests + {request})
  }

  ghost function OriginAfter(w: World, s': Server, request: Request): map<RecordId, Commit> {
    map id | id in s'.records && s'.records[id].kind == CommitType && (id in w.origin || Changed(w.server, s', id)) ::
      if Changed(w.server, s', id) then request.commit else w.origin[id]
  }

  /** The server runs a request, perhaps late or again; its report may or may not reach a waiting device. */
  ghost predicate Serve(w: World, w': World, request: Request, s': Server, resp: Response, to: Option<nat>) {
    && request in w.requests
    && Writes(w.server, s', request.phase.records, request.phase.AtomicByZone())
    && Reports(w.server, s', request.phase.records, resp)
    && (to.Some? ==> to.value in w.devices && w.devices[to.value].flight == Some(Flight(request, None)))
    && w' == w.(
         server := s',
         held := w.held + s'.records.Values,
         origin := OriginAfter(w, s', request),
         devices := if to.None? then w.devices
                    else w.devices[to.value := w.devices[to.value].(flight := Some(Flight(request, Some(resp))))])
  }

  /** A collision report without asset bytes is completed from the server's current records. */
  ghost predicate CompleteCollisions(w: World, w': World, d: nat, resp': Response) {
    && d in w.devices && w.devices[d].flight.Some? && w.devices[d].flight.value.response.Some?
    && var flight := w.devices[d].flight.value;
    && var resp := flight.response.value;
    && resp'.saved == resp.saved && |resp'.failures| == |resp.failures|
    && (forall i :: 0 <= i < |resp.failures| ==>
          var f, f' := resp.failures[i], resp'.failures[i];
          f' == f || (f.record.id in w.server.records && f' == f.(server := Some(w.server.records[f.record.id]))))
    && w' == w.(devices := w.devices[d := w.devices[d].(flight := Some(flight.(response := Some(resp'))))])
  }

  function VerifiedDigests(tr: Transport, records: seq<Record>): set<string> {
    set r | r in records && tr.decode(r).Ok? && tr.decode(r).value.DecodedObject? :: tr.decode(r).value.digest
  }

  /** The heads a refused commit reports, as the session merges them. */
  ghost predicate ServerHeads(tr: Transport, failures: seq<SaveFailure>, m: map<string, Record>) {
    forall e :: e in m ==>
      && (exists f :: f in failures && f.server == Some(m[e]))
      && m[e].kind == HeadType && tr.decode(m[e]).Ok? && tr.decode(m[e]).value.DecodedHead?
      && tr.decode(m[e]).value.headEntityID == e
  }

  function Settle(outbox: seq<Commit>, commitID: string): seq<Commit> {
    if outbox == [] then []
    else (if outbox[0].commitID == commitID then [] else [outbox[0]]) + Settle(outbox[1..], commitID)
  }

  /** Settling removes the commits of this id and no other. */
  lemma {:induction false} SettledOut(outbox: seq<Commit>, commitID: string, c: Commit)
    ensures c in Settle(outbox, commitID) <==> c in outbox && c.commitID != commitID
    decreases |outbox|
  {
    if outbox != [] {
      SettledOut(outbox[1..], commitID, c);
      assert c in outbox <==> c == outbox[0] || c in outbox[1..];
    }
  }

  /**
   `handleSentRecords`. `durable` says whether the daemon confirmed the settlement; when it did
   not, the commit stays in the outbox.
   */
  ghost predicate Receive(tr: Transport, w: World, w': World, d: nat, order: seq<Record>,
      serverHeads: map<string, Record>, durable: bool) {
    && d in w.devices && w.devices[d].flight.Some? && w.devices[d].flight.value.response.Some?
    && var v := w.devices[d];
    && var request, resp := v.flight.value.request, v.flight.value.response.value;
    && IterationOrder(order, request.phase)
    && var idle := v.(flight := None);
    && match Resolve(tr.judge, request.phase, resp.saved, resp.failures, order)
       case ObjectsVerified(records) =>
         w' == w.(devices := w.devices[d := idle.(verified := v.verified + VerifiedDigests(tr, records))])
       case CommitAccepted(commitID, heads) =>
         var merged := idle.(heads := v.heads + heads);
         w' == if durable then
                 w.(devices := w.devices[d := merged.(outbox := Settle(v.outbox, commitID))],
                    settled := w.settled + [Settlement(request.commit, Accepted)])
               else w.(devices := w.devices[d := merged])
       case ConflictBranchAccepted(commitID) =>
         w' == if durable then
                 w.(devices := w.devices[d := idle.(outbox := Settle(v.outbox, commitID))],
                    settled := w.settled + [Settlement(request.commit, InConflict)])
               else w.(devices := w.devices[d := idle])
       case CommitConflict(_, _) =>
         && ServerHeads(tr, resp.failures, serverHeads)
         && w' == w.(devices := w.devices[d := idle.(heads := v.heads + serverHeads)])
       case _ => w' == w.(devices := w.devices[d := idle])
  }

  /** Fetched heads, of the current state or of an earlier page. */
  ghost predicate FetchedHeads(tr: Transport, w: World, w': World, d: nat, fetched: map<string, Record>) {
    && d in w.devices
    && (forall e :: e in fetched ==>
          && fetched[e] in w.held && tr.decode(fetched[e]).Ok? && tr.decode(fetched[e]).value.DecodedHead?
          && tr.decode(fetched[e]).value.headEntityID == e)
    && w' == w.(devices := w.devices[d := w.devices[d].(heads := w.devices[d].heads + fetched)])
  }

  ghost predicate Housekeeping(w: World, w': World, d: nat) {
    || (d !in w.devices && w' == w.(devices := w.devices[d := FreshDevice]))
    || (&& d in w.devices
        && var v := w.devices[d];
        && (// a lost report
            || w' == w.(devices := w.devices[d := v.(flight := None)])
            // a checkpoint
            || w' == w.(devices := w.devices[d := v.(checkpoint := v.heads)])
            // a restart
            || w' == w.(devices := w.devices[d := v.(heads := v.checkpoint, verified := {}, flight := None)])
            // an account reset
            || w' == w.(devices := w.devices[d :=
                 v.(heads := map[], verified := {}, checkpoint := map[], flight := None)])))
  }

  ghost predicate Step(tr: Transport, size: string -> nat, w: World, w': World) {
    || (exists d, c :: LocalCommit(size, w, w', d, c))
    || (exists d :: Send(tr, w, w', d))
    || (exists request, s', resp, to :: Serve(w, w', request, s', resp, to))
    || (exists d, resp' :: CompleteCollisions(w, w', d, resp'))
    || (exists d, order, serverHeads, durable :: Receive(tr, w, w', d, order, serverHeads, durable))
    || (exists d, fetched :: FetchedHeads(tr, w, w', d, fetched))
    || (exists d :: Housekeeping(w, w', d))
  }

  ghost predicate Run(tr: Transport, size: string -> nat, ws: seq<World>) {
    && ws != [] && ws[0] == Start
    && forall i :: 0 <= i < |ws| - 1 ==> Step(tr, size, ws[i], ws[i + 1])
  }

  // ----- the laws of the components -----

  ghost predicate HeadVersion(tr: Transport, r: Record, entityID: string, revisionID: string) {
    tr.decode(r) == Ok(DecodedHead(entityID, revisionID))
  }

  /** `h` swaps the head that revision `rv` expects, as cached, for `rv`; or creates it. */
  ghost predicate HeadFor(tr: Transport, rv: Revision, heads: map<string, Record>, h: Record) {
    var e := Lower(rv.entityID);
    && HeadVersion(tr, h, e, Lower(rv.revisionID))
    && if rv.expectedHeads == [] then h.tag.None?
       else && e in heads && h.tag == heads[e].tag && h.id == heads[e].id
            && exists current :: HeadVersion(tr, heads[e], e, current) && current in ExpectedRevisions(rv)
  }

  ghost predicate CommitRecordsFor(tr: Transport, c: Commit, heads: map<string, Record>, records: seq<Record>) {
    && tr.immutable(c).Ok?
    && var n := |tr.immutable(c).value|;
    && |records| == n + |c.revisions| && records[..n] == tr.immutable(c).value
    && forall i :: 0 <= i < |c.revisions| ==> HeadFor(tr, c.revisions[i], heads, records[n + i])
  }

  ghost predicate ObjectOf(tr: Transport, outbox: seq<Commit>, r: Record) {
    exists c, a ::
      c in outbox && a in c.objects && tr.decode(r) == Ok(DecodedObject(a.digest, a.ciphertextSize, a.file))
  }

  ghost predicate PlanLaw(tr: Transport, outbox: seq<Commit>, verified: set<string>, heads: map<string, Record>) {
    match tr.plan(outbox, verified, heads)
    case Ok(SaveObjects(records)) =>
      forall r :: r in records ==> r.tag.None? && ObjectOf(tr, outbox, r)
    case Ok(SaveCommit(commitID, records)) =>
      && outbox != [] && commitID == outbox[0].commitID
      && (forall a :: a in outbox[0].objects ==> a.digest in verified)
      && CommitRecordsFor(tr, outbox[0], heads, records)
    case Ok(SaveConflictBranch(commitID, _, records)) =>
      && outbox != [] && commitID == outbox[0].commitID
      && (forall a :: a in outbox[0].objects ==> a.digest in verified)
      && tr.immutable(outbox[0]) == Ok(records)
    case _ => true
  }

  ghost predicate ImmutableLaw(tr: Transport, c: Commit) {
    tr.immutable(c).Ok? ==>
      var records := tr.immutable(c).value;
      && |records| == 1 + |c.revisions| && records[0].kind == CommitType
      && (forall r :: r in records ==> r.tag.None? && tr.decode(r).Ok? && r.kind != HeadType && r.kind != ObjectType)
      && (forall i :: 0 < i < |records| ==> records[i].kind == RevisionType)
  }

  ghost predicate DecodeLaw(tr: Transport) {
    && (forall r :: tr.decode(r).Ok? ==> r.kind == KindOf(tr.decode(r).value))
    && (forall r, q :: tr.decode(r).Ok? && tr.decode(q).Ok? && r.id == q.id ==> r.kind == q.kind)
    && (forall r, q :: tr.decode(r).Ok? && tr.decode(q).Ok? && r.id == q.id && r.kind == HeadType ==>
          tr.decode(r).value.headEntityID == tr.decode(q).value.headEntityID)
    && (forall r, q :: tr.decode(r).Ok? && tr.decode(q).Ok? && r.id == q.id && r.kind == ObjectType ==>
          tr.decode(r).value.digest == tr.decode(q).value.digest)
    && (forall r: Record, q: Record ::
      r.id == q.id && r.kind == q.kind && r.fields == q.fields ==> tr.decode(r) == tr.decode(q))
  }

  /** Same payload: equal values, for objects up to where the file happens to lie. */
  ghost predicate SamePayload(c: Decoded, s: Decoded) {
    if c.DecodedObject? then s.DecodedObject? && s.digest == c.digest && s.ciphertextSize == c.ciphertextSize
      else c == s
  }

  ghost predicate JudgeLaw(tr: Transport) {
    && Lawful(tr.judge)
    && (forall c, s :: tr.judge.classify(c, s) == Ok(AlreadySaved) ==>
          c.id == s.id && tr.decode(c).Ok? && tr.decode(s).Ok? && SamePayload(tr.decode(c).value, tr.decode(s).value))
    && (forall r :: tr.judge.headEntity(r).Ok? ==>
          && tr.decode(r).Ok?
          && tr.judge.headEntity(r).value
             == if tr.decode(r).value.DecodedHead? then Some(tr.decode(r).value.headEntityID) else None)
  }

  /** A collision report that decodes has the payload of the record it copies. */
  ghost predicate CopyLaw(tr: Transport) {
    forall s, q :: IsCopy(s, q) && tr.decode(s).Ok? && tr.decode(q).Ok?
      ==> SamePayload(tr.decode(s).value, tr.decode(q).value)
  }

  ghost predicate Sound(tr: Transport) {
    && DecodeLaw(tr) && JudgeLaw(tr) && CopyLaw(tr)
    && (forall c :: ImmutableLaw(tr, c))
    && (forall outbox, verified, heads :: PlanLaw(tr, outbox, verified, heads))
  }

  // ----- what every reachable state satisfies -----

  /** The object `digest` was stored with its exact size. */
  ghost predicate ObjectHeld(tr: Transport, size: string -> nat, held: set<Record>, digest: string) {
    exists q :: q in held && tr.decode(q).Ok? && tr.decode(q).value.DecodedObject?
      && tr.decode(q).value.digest == digest && tr.decode(q).value.ciphertextSize == size(digest)
  }

  /** Every object of the commit was stored, with the size the commit's own asset has. */
  ghost predicate ObjectsHeld(tr: Transport, size: string -> nat, held: set<Record>, c: Commit) {
    forall a :: a in c.objects ==> a.ciphertextSize == size(a.digest) && ObjectHeld(tr, size, held, a.digest)
  }

  /** The commit was sent: as a commit batch or as a conflict branch. */
  ghost predicate WasSent(requests: set<Request>, c: Commit) {
    exists request :: request in requests && PublishesCommit(request) && request.commit == c
  }

  predicate PublishesCommit(request: Request) {
    request.phase.CommitPhase? || request.phase.ConflictBranchPhase?
  }

  ghost predicate PayloadHeld(tr: Transport, held: set<Record>, r: Record) {
    exists q :: q in held && q.id == r.id && tr.decode(r).Ok? && tr.decode(q).Ok?
      && SamePayload(tr.decode(r).value, tr.decode(q).value)
  }

  /** The manifest and every revision of the commit were stored unchanged. */
  ghost predicate ImmutableHeld(tr: Transport, held: set<Record>, c: Commit) {
    tr.immutable(c).Ok? && forall r :: r in tr.immutable(c).value ==> PayloadHeld(tr, held, r)
  }

  /** Every head of the commit carried the commit's revision at some time. */
  ghost predicate HeadsHeld(tr: Transport, held: set<Record>, c: Commit) {
    forall rv :: rv in c.revisions ==> HeadHeld(tr, held, rv)
  }

  ghost predicate HeadHeld(tr: Transport, held: set<Record>, rv: Revision) {
    exists q :: q in held && HeadVersion(tr, q, Lower(rv.entityID), Lower(rv.revisionID))
  }

  ghost predicate ServerInv(tr: Transport, w: World) {
    && (forall id :: id in w.server.records ==> w.server.records[id].id == id && w.server.records[id] in w.held)
    && (forall r :: r in w.held ==>
          r.tag.Some? && r.tag.value < w.server.nextTag && tr.decode(r).Ok? && r.id in w.server.records)
    && (forall r, q :: r in w.held && q in w.held && r.tag == q.tag ==> r == q)
    && (forall r :: r in w.held && r.kind != HeadType ==> w.server.records[r.id] == r)
  }

  /** A planned head save names either nothing or a version the server held and the revision expects. */
  ghost predicate HeadJustified(tr: Transport, held: set<Record>, rv: Revision, h: Record) {
    && HeadVersion(tr, h, Lower(rv.entityID), Lower(rv.revisionID))
    && (rv.expectedHeads == [] ==> h.tag.None?)
    && (rv.expectedHeads != [] ==> h.tag.Some? && SwapsHeld(tr, held, rv, h))
  }

  ghost predicate SwapsHeld(tr: Transport, held: set<Record>, rv: Revision, h: Record) {
    exists q, current :: q in held && q.id == h.id && q.tag == h.tag
      && HeadVersion(tr, q, Lower(rv.entityID), current) && current in ExpectedRevisions(rv)
  }

  ghost predicate RequestOk(tr: Transport, size: string -> nat, held: set<Record>, request: Request) {
    match request.phase
    case BootstrapPhase(_) => false
    case ObjectsPhase(records) =>
      forall r :: r in records ==>
        && r.tag.None? && tr.decode(r).Ok? && tr.decode(r).value.DecodedObject?
        && tr.decode(r).value.ciphertextSize == size(tr.decode(r).value.digest)
    case CommitPhase(commitID, records) =>
      && commitID == request.commit.commitID && ObjectsHeld(tr, size, held, request.commit)
      && tr.immutable(request.commit).Ok?
      && var n := |tr.immutable(request.commit).value|;
      && |records| == n + |request.commit.revisions| && records[..n] == tr.immutable(request.commit).value
      && forall i :: 0 <= i < |request.commit.revisions| ==>
        HeadJustified(tr, held, request.commit.revisions[i], records[n + i])
    case ConflictBranchPhase(commitID, records) =>
      && commitID == request.commit.commitID && ObjectsHeld(tr, size, held, request.commit)
      && tr.immutable(request.commit) == Ok(records)
  }

  ghost predicate HeadCache(tr: Transport, held: set<Record>, m: map<string, Record>) {
    forall e :: e in m ==>
      && m[e] in held && tr.decode(m[e]).Ok? && tr.decode(m[e]).value.DecodedHead?
      && tr.decode(m[e]).value.headEntityID == e
  }

  ghost predicate SavedOk(held: set<Record>, records: seq<Record>, q: Record) {
    q in held && exists r :: r in records && r.id == q.id && q == r.(tag := q.tag)
  }

  ghost predicate FailureOk(held: set<Record>, records: seq<Record>, f: SaveFailure) {
    && f.record in records
    && (f.server.Some? ==> exists q :: q in held && q.id == f.record.id && IsCopy(f.server.value, q))
  }

  ghost predicate ResponseOk(held: set<Record>, records: seq<Record>, resp: Response) {
    && (forall q :: q in resp.saved ==> SavedOk(held, records, q))
    && (forall f :: f in resp.failures ==> FailureOk(held, records, f))
  }

  ghost predicate DeviceOk(tr: Transport, size: string -> nat, w: World, v: Device) {
    && HeadCache(tr, w.held, v.heads) && HeadCache(tr, w.held, v.checkpoint)
    && (forall x :: x in v.verified ==> ObjectHeld(tr, size, w.held, x))
    && (forall c :: c in v.outbox ==> ContentAddressed(size, c))
    && (v.flight.Some? ==>
          && v.flight.value.request in w.requests
          && (v.flight.value.response.Some? ==>
                ResponseOk(w.held, v.flight.value.request.phase.records, v.flight.value.response.value)))
  }

  ghost predicate OriginOk(tr: Transport, size: string -> nat, w: World, id: RecordId) {
    && id in w.server.records && id in w.origin && ObjectsHeld(tr, size, w.held, w.origin[id])
    && WasSent(w.requests, w.origin[id])
    && tr.immutable(w.origin[id]).Ok? && tr.immutable(w.origin[id]).value != []
    && w.server.records[id] == tr.immutable(w.origin[id]).value[0].(tag := w.server.records[id].tag)
  }

  ghost predicate SettlementOk(tr: Transport, held: set<Record>, s: Settlement) {
    ImmutableHeld(tr, held, s.commit) && (s.disposition.Accepted? ==> HeadsHeld(tr, held, s.commit))
  }

  ghost predicate Inv(tr: Transport, size: string -> nat, w: World) {
    && ServerInv(tr, w)
    && (forall request :: request in w.requests ==> RequestOk(tr, size, w.held, request))
    && (forall d :: d in w.devices ==> DeviceOk(tr, size, w, w.devices[d]))
    && (forall id :: id in w.server.records && w.server.records[id].kind == CommitType ==> OriginOk(tr, size, w, id))
    && (forall i :: 0 <= i < |w.settled| ==> SettlementOk(tr, w.held, w.settled[i]))
  }

  // ----- facts only grow with the server's history -----

  lemma RequestGrows(tr: Transport, size: string -> nat, held: set<Record>, held': set<Record>, request: Request)
    requires held <= held' && RequestOk(tr, size, held, request)
    ensures RequestOk(tr, size, held', request)
  {
    if request.phase.CommitPhase? {
      var n := |tr.immutable(request.commit).value|;
      forall i | 0 <= i < |request.commit.revisions|
        ensures HeadJustified(tr, held', request.commit.revisions[i], request.phase.records[n + i])
      {
        assert HeadJustified(tr, held, request.commit.revisions[i], request.phase.records[n + i]);
      }
    }
  }

  lemma ResponseGrows(held: set<Record>, held': set<Record>, records: seq<Record>, resp: Response)
    requires held <= held' && ResponseOk(held, records, resp)
    ensures ResponseOk(held', records, resp)
  {
  }

  lemma DeviceGrows(tr: Transport, size: string -> nat, w: World, w': World, v: Device)
    requires w.held <= w'.held && w.requests <= w'.requests && DeviceOk(tr, size, w, v)
    ensures DeviceOk(tr, size, w', v)
  {
    if v.flight.Some? && v.flight.value.response.Some? {
      ResponseGrows(w.held, w'.held, v.flight.value.request.phase.records, v.flight.value.response.value);
    }
  }

  lemma SettlementGrows(tr: Transport, held: set<Record>, held': set<Record>, s: Settlement)
    requires held <= held' && SettlementOk(tr, held, s)
    ensures SettlementOk(tr, held', s)
  {
    forall r | r in tr.immutable(s.commit).value ensures PayloadHeld(tr, held', r) {
      assert PayloadHeld(tr, held, r);
    }
  }

  // ----- each step keeps the invariant -----

  lemma DeviceStepKeeps(tr: Transport, size: string -> nat, w: World, w': World, d: nat)
    requires Inv(tr, size, w) && d in w'.devices
    requires w'.server == w.server && w'.held == w.held && w'.origin == w.origin
    requires w'.devices == w.devices[d := w'.devices[d]]
    requires w.requests <= w'.requests
    requires forall request :: request in w'.requests - w.requests ==> RequestOk(tr, size, w.held, request)
    requires DeviceOk(tr, size, w', w'.devices[d])
    requires w.settled <= w'.settled
    requires forall i :: |w.settled| <= i < |w'.settled| ==> SettlementOk(tr, w.held, w'.settled[i])
    ensures Inv(tr, size, w')
  {
    forall k | k in w'.devices ensures DeviceOk(tr, size, w', w'.devices[k]) {
      if k != d {
        DeviceGrows(tr, size, w, w', w.devices[k]);
      }
    }
    forall id | id in w'.server.records && w'.server.records[id].kind == CommitType ensures OriginOk(tr, size, w', id) {
      assert OriginOk(tr, size, w, id);
    }
    forall i | 0 <= i < |w'.settled| ensures SettlementOk(tr, w'.held, w'.settled[i]) {
      if i < |w.settled| {
        assert w'.settled[i] == w.settled[i];
      }
    }
  }

  lemma LocalCommitKeeps(tr: Transport, size: string -> nat, w: World, w': World, d: nat, c: Commit)
    requires Inv(tr, size, w) && LocalCommit(size, w, w', d, c)
    ensures Inv(tr, size, w')
  {
    assert DeviceOk(tr, size, w, w.devices[d]);
    DeviceStepKeeps(tr, size, w, w', d);
  }

  lemma HousekeepingKeeps(tr: Transport, size: string -> nat, w: World, w': World, d: nat)
    requires Inv(tr, size, w) && Housekeeping(w, w', d)
    ensures Inv(tr, size, w')
  {
    if d in w.devices {
      assert DeviceOk(tr, size, w, w.devices[d]);
    }
    DeviceStepKeeps(tr, size, w, w', d);
  }

  lemma FetchedHeadsKeeps(tr: Transport, size: string -> nat, w: World, w': World, d: nat, fetched: map<string, Record>)
    requires Inv(tr, size, w) && FetchedHeads(tr, w, w', d, fetched)
    ensures Inv(tr, size, w')
  {
    assert DeviceOk(tr, size, w, w.devices[d]);
    DeviceStepKeeps(tr, size, w, w', d);
  }

  lemma PlannedHeadIsJustified(tr: Transport, held: set<Record>, rv: Revision, heads: map<string, Record>, h: Record)
    requires HeadCache(tr, held, heads) && HeadFor(tr, rv, heads, h)
    requires forall r :: r in held ==> r.tag.Some?
    ensures HeadJustified(tr, held, rv, h)
  {
    if rv.expectedHeads != [] {
      var q := heads[Lower(rv.entityID)];
      var current :| HeadVersion(tr, q, Lower(rv.entityID), current) && current in ExpectedRevisions(rv);
      assert q in held && q.tag == h.tag;
    }
  }

  lemma SentRequestOk(tr: Transport, size: string -> nat, w: World, d: nat, phase: Phase)
    requires Inv(tr, size, w) && d in w.devices && w.devices[d].outbox != []
    requires var v := w.devices[d];
      && PlanLaw(tr, v.outbox, v.verified, v.heads)
      && tr.plan(v.outbox, v.verified, v.heads).Ok?
      && PhaseFor(tr.plan(v.outbox, v.verified, v.heads).value) == Some(phase)
    ensures RequestOk(tr, size, w.held, Request(phase, w.devices[d].outbox[0]))
  {
    var v := w.devices[d];
    assert DeviceOk(tr, size, w, v);
    match tr.plan(v.outbox, v.verified, v.heads).value {
      case SaveObjects(records) =>
        forall r | r in records
          ensures tr.decode(r).Ok? && tr.decode(r).value.DecodedObject?
          ensures tr.decode(r).value.ciphertextSize == size(tr.decode(r).value.digest)
        {
          assert ObjectOf(tr, v.outbox, r);
        }
      case SaveCommit(_, records) =>
        VerifiedObjectsHeld(tr, size, w, v);
        PlannedCommitOk(tr, w.held, v.outbox[0], v.heads, records);
      case SaveConflictBranch(_, _, records) =>
        VerifiedObjectsHeld(tr, size, w, v);
    }
  }

  /** Once all objects of the first commit are verified, they are stored with its own sizes. */
  lemma VerifiedObjectsHeld(tr: Transport, size: string -> nat, w: World, v: Device)
    requires DeviceOk(tr, size, w, v) && v.outbox != []
      && forall a :: a in v.outbox[0].objects ==> a.digest in v.verified
    ensures ObjectsHeld(tr, size, w.held, v.outbox[0])
  {
    assert v.outbox[0] in v.outbox;
    assert ContentAddressed(size, v.outbox[0]);
  }

  lemma PlannedCommitOk(tr: Transport, held: set<Record>, c: Commit, heads: map<string, Record>, records: seq<Record>)
    requires HeadCache(tr, held, heads) && CommitRecordsFor(tr, c, heads, records)
      && forall r :: r in held ==> r.tag.Some?
    ensures var n := |tr.immutable(c).value|;
      forall i :: 0 <= i < |c.revisions| ==> HeadJustified(tr, held, c.revisions[i], records[n + i])
  {
    var n := |tr.immutable(c).value|;
    forall i | 0 <= i < |c.revisions| ensures HeadJustified(tr, held, c.revisions[i], records[n + i]) {
      assert HeadFor(tr, c.revisions[i], heads, records[n + i]);
      PlannedHeadIsJustified(tr, held, c.revisions[i], heads, records[n + i]);
    }
  }

  lemma SendKeeps(tr: Transport, size: string -> nat, w: World, w': World, d: nat)
    requires Sound(tr) && Inv(tr, size, w) && Send(tr, w, w', d)
    ensures Inv(tr, size, w')
  {
    var v := w.devices[d];
    assert PlanLaw(tr, v.outbox, v.verified, v.heads);
    var phase := PhaseFor(tr.plan(v.outbox, v.verified, v.heads).value).value;
    SentRequestOk(tr, size, w, d, phase);
    assert DeviceOk(tr, size, w, v);
    DeviceStepKeeps(tr, size, w, w', d);
  }

  lemma CompleteCollisionsKeeps(tr: Transport, size: string -> nat, w: World, w': World, d: nat, resp': Response)
    requires Inv(tr, size, w) && CompleteCollisions(w, w', d, resp')
    ensures Inv(tr, size, w')
  {
    assert DeviceOk(tr, size, w, w.devices[d]);
    var flight := w.devices[d].flight.value;
    var records, resp := flight.request.phase.records, flight.response.value;
    forall f | f in resp'.failures ensures FailureOk(w.held, records, f) {
      var i :| 0 <= i < |resp'.failures| && resp'.failures[i] == f;
      assert FailureOk(w.held, records, resp.failures[i]);
      if f != resp.failures[i] {
        assert w.server.records[f.record.id] in w.held && IsCopy(f.server.value, w.server.records[f.record.id]);
      }
    }
    DeviceStepKeeps(tr, size, w, w', d);
  }

  /** A sent record decodes; only heads carry a tag, and each head of a request is justified. */
  lemma SentRecord(tr: Transport, size: string -> nat, held: set<Record>, request: Request, r: Record)
    requires DecodeLaw(tr) && ImmutableLaw(tr, request.commit) && RequestOk(tr, size, held, request)
    requires r in request.phase.records
    ensures tr.decode(r).Ok?
    ensures r.kind != HeadType ==> r.tag.None?
    ensures r.kind == HeadType ==>
      request.phase.CommitPhase? && exists rv :: rv in request.commit.revisions && HeadJustified(tr, held, rv, r)
    ensures r.kind == CommitType ==>
      && PublishesCommit(request) && ObjectsHeld(tr, size, held, request.commit)
      && tr.immutable(request.commit).Ok? && tr.immutable(request.commit).value != []
      && r == tr.immutable(request.commit).value[0]
  {
    if request.phase.CommitPhase? {
      SentCommitRecord(tr, size, held, request, r);
    }
  }

  /** A record of a commit batch is one of the immutable records or a justified head. */
  lemma SentCommitRecord(tr: Transport, size: string -> nat, held: set<Record>, request: Request, r: Record)
    requires RequestOk(tr, size, held, request) && request.phase.CommitPhase? && r in request.phase.records
    ensures r in tr.immutable(request.commit).value
      || exists rv :: rv in request.commit.revisions && HeadJustified(tr, held, rv, r)
  {
    var records := request.phase.records;
    var n := |tr.immutable(request.commit).value|;
    var k :| 0 <= k < |records| && records[k] == r;
    if k < n {
      assert records[..n][k] == r;
    } else {
      assert HeadJustified(tr, held, request.commit.revisions[k - n], records[n + (k - n)]);
      assert request.commit.revisions[k - n] in request.commit.revisions;
    }
  }

  lemma DecodeForgetsTag(tr: Transport, q: Record, r: Record)
    requires DecodeLaw(tr) && q == r.(tag := q.tag)
    ensures tr.decode(q) == tr.decode(r)
  {
  }

  lemma SameIdSameKind(tr: Transport, q: Record, r: Record)
    requires DecodeLaw(tr) && q.id == r.id && tr.decode(q).Ok? && tr.decode(r).Ok?
    ensures q.kind == r.kind
  {
  }

  /** Create-only records are never replaced. */
  lemma ImmutableStays(tr: Transport, size: string -> nat, w: World, request: Request, s': Server, r: Record)
    requires DecodeLaw(tr) && ImmutableLaw(tr, request.commit) && ServerInv(tr, w)
      && RequestOk(tr, size, w.held, request)
    requires Writes(w.server, s', request.phase.records, request.phase.AtomicByZone())
    requires r in w.held && r.kind != HeadType
    ensures !Changed(w.server, s', r.id) && s'.records[r.id] == r
  {
    if Changed(w.server, s', r.id) {
      var x := SentFor(w.server, s', request.phase.records, request.phase.AtomicByZone(), r.id);
      SentRecord(tr, size, w.held, request, x);
      SameIdSameKind(tr, x, r);
    }
  }

  lemma ServedServerInv(tr: Transport, size: string -> nat, w: World, w': World, request: Request, s': Server)
    requires DecodeLaw(tr) && ImmutableLaw(tr, request.commit) && ServerInv(tr, w)
      && RequestOk(tr, size, w.held, request)
    requires Writes(w.server, s', request.phase.records, request.phase.AtomicByZone())
    requires w'.server == s' && w'.held == w.held + s'.records.Values
    ensures ServerInv(tr, w')
  {
    forall r | r in w'.held
      ensures r.tag.Some? && r.tag.value < s'.nextTag && tr.decode(r).Ok? && r.id in s'.records
      ensures r !in w.held ==> Changed(w.server, s', r.id) && s'.records[r.id] == r && w.server.nextTag <= r.tag.value
      ensures r.kind != HeadType ==> s'.records[r.id] == r
    {
      if r !in w.held {
        var id :| id in s'.records && s'.records[id] == r;
        assert Changed(w.server, s', id);
        var x := SentFor(w.server, s', request.phase.records, request.phase.AtomicByZone(), id);
        SentRecord(tr, size, w.held, request, x);
        DecodeForgetsTag(tr, r, x);
      } else if r.kind != HeadType {
        ImmutableStays(tr, size, w, request, s', r);
      }
    }
    forall r, q | r in w'.held && q in w'.held && r.tag == q.tag ensures r == q {
      if r !in w.held && q !in w.held {
        assert r.id == q.id;
      }
    }
  }

  lemma ServedResponseOk(w: World, s': Server, request: Request, resp: Response, held': set<Record>)
    requires Writes(w.server, s', request.phase.records, request.phase.AtomicByZone())
    requires Reports(w.server, s', request.phase.records, resp)
    requires held' == w.held + s'.records.Values
    requires forall id :: id in w.server.records ==> w.server.records[id].id == id && w.server.records[id] in w.held
    ensures ResponseOk(held', request.phase.records, resp)
  {
    var records := request.phase.records;
    forall q | q in resp.saved ensures SavedOk(held', records, q) {
      var r := SentFor(w.server, s', records, request.phase.AtomicByZone(), q.id);
      assert s'.records[q.id] in s'.records.Values;
    }
  }

  lemma ServedOrigins(tr: Transport, size: string -> nat, w: World, w': World, request: Request, id: RecordId)
    requires DecodeLaw(tr) && ImmutableLaw(tr, request.commit) && Inv(tr, size, w)
      && RequestOk(tr, size, w.held, request)
    requires Writes(w.server, w'.server, request.phase.records, request.phase.AtomicByZone())
    requires w'.held == w.held + w'.server.records.Values && w'.origin == OriginAfter(w, w'.server, request)
    requires request in w.requests && w'.requests == w.requests
    requires id in w'.server.records && w'.server.records[id].kind == CommitType
    ensures OriginOk(tr, size, w', id)
  {
    if Changed(w.server, w'.server, id) {
      var x := SentFor(w.server, w'.server, request.phase.records, request.phase.AtomicByZone(), id);
      SentRecord(tr, size, w.held, request, x);
      assert w'.origin[id] == request.commit;
    } else {
      assert OriginOk(tr, size, w, id);
    }
  }

  lemma ServedDevices(tr: Transport, size: string -> nat, w: World, w': World, request: Request, s': Server,
      resp: Response, to: Option<nat>)
    requires Inv(tr, size, w) && Serve(w, w', request, s', resp, to)
    ensures forall d :: d in w'.devices ==> DeviceOk(tr, size, w', w'.devices[d])
  {
    ServedResponseOk(w, s', request, resp, w'.held);
    forall d | d in w'.devices ensures DeviceOk(tr, size, w', w'.devices[d]) {
      DeviceGrows(tr, size, w, w', w.devices[d]);
    }
  }

  lemma ServeKeeps(tr: Transport, size: string -> nat, w: World, w': World, request: Request, s': Server,
      resp: Response, to: Option<nat>)
    requires Sound(tr) && Inv(tr, size, w) && Serve(w, w', request, s', resp, to)
    ensures Inv(tr, size, w')
  {
    assert ImmutableLaw(tr, request.commit);
    assert RequestOk(tr, size, w.held, request);
    ServedServerInv(tr, size, w, w', request, s');
    forall x | x in w'.requests ensures RequestOk(tr, size, w'.held, x) {
      RequestGrows(tr, size, w.held, w'.held, x);
    }
    ServedDevices(tr, size, w, w', request, s', resp, to);
    forall id | id in w'.server.records && w'.server.records[id].kind == CommitType ensures OriginOk(tr, size, w', id) {
      ServedOrigins(tr, size, w, w', request, id);
    }
    forall i | 0 <= i < |w'.settled| ensures SettlementOk(tr, w'.held, w'.settled[i]) {
      SettlementGrows(tr, w.held, w'.held, w.settled[i]);
    }
  }

  // ----- receiving a report -----

  /** A sent record counted as accepted was stored with the same payload. */
  lemma AcceptedIsHeld(tr: Transport, w: World, records: seq<Record>, resp: Response, c: Record)
    requires DecodeLaw(tr) && JudgeLaw(tr) && CopyLaw(tr) && ServerInv(tr, w)
    requires ResponseOk(w.held, records, resp) && DistinctIds(records) && c in records && tr.decode(c).Ok?
    requires RecordAccepted(tr.judge, resp.saved, resp.failures, c)
    ensures PayloadHeld(tr, w.held, c)
  {
    if c.id in Ids(resp.saved) {
      var q :| q in resp.saved && q.id == c.id;
      assert SavedOk(w.held, records, q);
      var r :| r in records && r.id == q.id && q == r.(tag := q.tag);
      SameIdSameRecord(records, r, c);
      DecodeForgetsTag(tr, q, c);
    } else {
      var f :| f in resp.failures && f.record.id == c.id && f.server.Some?
        && tr.judge.classify(c, f.server.value) == Ok(AlreadySaved);
      assert FailureOk(w.held, records, f);
      var q :| q in w.held && q.id == f.record.id && IsCopy(f.server.value, q);
      assert SamePayload(tr.decode(c).value, tr.decode(f.server.value).value);
      assert SamePayload(tr.decode(f.server.value).value, tr.decode(q).value);
    }
  }

  lemma ResponseCarriesSent(held: set<Record>, phase: Phase, resp: Response)
    requires ResponseOk(held, phase.records, resp)
    ensures CarriesSent(phase, resp.failures)
  {
    forall f | f in resp.failures ensures f.record in phase.records {
      assert FailureOk(held, phase.records, f);
    }
  }

  /** Every record of an accepted request was stored with the same payload. */
  lemma AcceptedRequestHeld(tr: Transport, size: string -> nat, w: World, request: Request, resp: Response,
      order: seq<Record>, c: Record)
    requires Sound(tr) && ServerInv(tr, w) && RequestOk(tr, size, w.held, request)
    requires ResponseOk(w.held, request.phase.records, resp) && IterationOrder(order, request.phase)
    requires IsAccepted(Resolve(tr.judge, request.phase, resp.saved, resp.failures, order))
    requires c in request.phase.records
    ensures PayloadHeld(tr, w.held, c)
  {
    ResponseCarriesSent(w.held, request.phase, resp);
    AcceptedBatch(tr.judge, request.phase, resp.saved, resp.failures, order, c);
    assert ImmutableLaw(tr, request.commit);
    SentRecord(tr, size, w.held, request, c);
    AcceptedIsHeld(tr, w, request.phase.records, resp, c);
  }

  lemma SettledAccepted(tr: Transport, size: string -> nat, w: World, request: Request)
    requires RequestOk(tr, size, w.held, request) && (request.phase.CommitPhase? || request.phase.ConflictBranchPhase?)
    requires forall c :: c in request.phase.records ==> PayloadHeld(tr, w.held, c)
    ensures ImmutableHeld(tr, w.held, request.commit)
    ensures request.phase.CommitPhase? ==> HeadsHeld(tr, w.held, request.commit)
  {
    var records := request.phase.records;
    var n := |tr.immutable(request.commit).value|;
    forall r | r in tr.immutable(request.commit).value ensures PayloadHeld(tr, w.held, r) {
      assert request.phase.CommitPhase? ==> r in records[..n];
      assert r in records;
    }
    if request.phase.CommitPhase? {
      forall rv | rv in request.commit.revisions ensures HeadHeld(tr, w.held, rv) {
        var i :| 0 <= i < |request.commit.revisions| && request.commit.revisions[i] == rv;
        assert HeadJustified(tr, w.held, rv, records[n + i]);
        assert PayloadHeld(tr, w.held, records[n + i]);
      }
    }
  }

  lemma ReportedHeadHeld(tr: Transport, w: World, records: seq<Record>, resp: Response, q: Record)
    requires ServerInv(tr, w) && ResponseOk(w.held, records, resp) && ReportedCopy(resp.saved, resp.failures, q)
      && q.kind == HeadType
    ensures q in w.held
  {
    if q in resp.saved {
      assert SavedOk(w.held, records, q);
    } else {
      var f :| f in resp.failures && f.server == Some(q);
      assert FailureOk(w.held, records, f);
    }
  }

  lemma HeadEntityDecodes(tr: Transport, q: Record, e: string)
    requires DecodeLaw(tr) && JudgeLaw(tr) && tr.judge.headEntity(q) == Ok(Some(e))
    ensures q.kind == HeadType && tr.decode(q).Ok? && tr.decode(q).value.DecodedHead?
      && tr.decode(q).value.headEntityID == e
  {
  }

  lemma AcceptedHeadCache(tr: Transport, w: World, phase: Phase, resp: Response, order: seq<Record>,
      heads: map<string, Record>)
    requires DecodeLaw(tr) && JudgeLaw(tr) && ServerInv(tr, w)
    requires ResponseOk(w.held, phase.records, resp)
    requires forall e :: e in heads ==>
      ReportedCopy(resp.saved, resp.failures, heads[e]) && tr.judge.headEntity(heads[e]) == Ok(Some(e))
    ensures HeadCache(tr, w.held, heads)
  {
    forall e | e in heads
      ensures heads[e] in w.held && tr.decode(heads[e]).Ok? && tr.decode(heads[e]).value.DecodedHead?
      ensures tr.decode(heads[e]).value.headEntityID == e
    {
      HeadEntityDecodes(tr, heads[e], e);
      ReportedHeadHeld(tr, w, phase.records, resp, heads[e]);
    }
  }

  lemma VerifiedAreHeld(tr: Transport, size: string -> nat, w: World, request: Request, x: string)
    requires RequestOk(tr, size, w.held, request) && request.phase.ObjectsPhase?
    requires forall c :: c in request.phase.records ==> PayloadHeld(tr, w.held, c)
    requires x in VerifiedDigests(tr, request.phase.records)
    ensures ObjectHeld(tr, size, w.held, x)
  {
    var r :| r in request.phase.records && tr.decode(r).Ok? && tr.decode(r).value.DecodedObject?
      && tr.decode(r).value.digest == x;
    assert PayloadHeld(tr, w.held, r);
  }

  lemma MergedHeadCache(tr: Transport, held: set<Record>, a: map<string, Record>, b: map<string, Record>)
    requires HeadCache(tr, held, a) && HeadCache(tr, held, b)
    ensures HeadCache(tr, held, a + b)
  {
  }

  lemma SettleKeepsMembers(outbox: seq<Commit>, commitID: string, c: Commit)
    requires c in Settle(outbox, commitID)
    ensures c in outbox
  {
  }

  /** A phase is accepted as its own kind of outcome. */
  lemma AcceptedKind(j: Judge, phase: Phase, saved: seq<Record>, failures: seq<SaveFailure>, order: seq<Record>)
    ensures var r := Resolve(j, phase, saved, failures, order);
      && (r.ObjectsVerified? ==> phase.ObjectsPhase? && r.records == phase.records)
      && (r.CommitAccepted? ==> phase.CommitPhase? && r.commitID == phase.commitID)
      && (r.ConflictBranchAccepted? ==> phase.ConflictBranchPhase? && r.commitID == phase.commitID)
  {
    ResolveStops(j, phase, saved, failures, order);
  }

  /** What an accepted report lets the device conclude. */
  lemma AcceptedReport(tr: Transport, size: string -> nat, w: World, request: Request, resp: Response,
      order: seq<Record>, r: Resolution)
    requires Sound(tr) && ServerInv(tr, w) && RequestOk(tr, size, w.held, request)
    requires ResponseOk(w.held, request.phase.records, resp) && IterationOrder(order, request.phase)
    requires r == Resolve(tr.judge, request.phase, resp.saved, resp.failures, order) && IsAccepted(r)
    ensures r.ObjectsVerified? ==> forall x :: x in VerifiedDigests(tr, r.records) ==> ObjectHeld(tr, size, w.held, x)
    ensures r.CommitAccepted? ==>
      HeadCache(tr, w.held, r.heads) && SettlementOk(tr, w.held, Settlement(request.commit, Accepted))
    ensures r.ConflictBranchAccepted? ==> SettlementOk(tr, w.held, Settlement(request.commit, InConflict))
  {
    AcceptedKind(tr.judge, request.phase, resp.saved, resp.failures, order);
    ResponseCarriesSent(w.held, request.phase, resp);
    forall c | c in request.phase.records ensures PayloadHeld(tr, w.held, c) {
      AcceptedRequestHeld(tr, size, w, request, resp, order, c);
    }
    if r.ObjectsVerified? {
      forall x | x in VerifiedDigests(tr, r.records) ensures ObjectHeld(tr, size, w.held, x) {
        VerifiedAreHeld(tr, size, w, request, x);
      }
    } else {
      SettledAccepted(tr, size, w, request);
      if r.CommitAccepted? {
        forall e | e in r.heads ensures ReportedCopy(resp.saved, resp.failures, r.heads[e])
          && tr.judge.headEntity(r.heads[e]) == Ok(Some(e)) {
          AcceptedHeads(tr.judge, request.phase, resp.saved, resp.failures, order, e);
        }
        AcceptedHeadCache(tr, w, request.phase, resp, order, r.heads);
      }
    }
  }

  lemma SettledOutbox(size: string -> nat, outbox: seq<Commit>, commitID: string)
    requires forall c :: c in outbox ==> ContentAddressed(size, c)
    ensures forall c :: c in Settle(outbox, commitID) ==> ContentAddressed(size, c)
  {
    forall c | c in Settle(outbox, commitID) ensures ContentAddressed(size, c) {
      SettleKeepsMembers(outbox, commitID, c);
    }
  }

  lemma ConflictHeadCache(tr: Transport, w: World, records: seq<Record>, resp: Response,
      serverHeads: map<string, Record>)
    requires ServerInv(tr, w) && ResponseOk(w.held, records, resp) && ServerHeads(tr, resp.failures, serverHeads)
    ensures HeadCache(tr, w.held, serverHeads)
  {
    forall e | e in serverHeads ensures serverHeads[e] in w.held {
      assert ReportedCopy(resp.saved, resp.failures, serverHeads[e]);
      ReportedHeadHeld(tr, w, records, resp, serverHeads[e]);
    }
  }

  lemma ReceiveKeeps(tr: Transport, size: string -> nat, w: World, w': World, d: nat, order: seq<Record>,
      serverHeads: map<string, Record>, durable: bool)
    requires Sound(tr) && Inv(tr, size, w) && Receive(tr, w, w', d, order, serverHeads, durable)
    ensures Inv(tr, size, w')
  {
    var v := w.devices[d];
    assert DeviceOk(tr, size, w, v);
    var request, resp := v.flight.value.request, v.flight.value.response.value;
    var r := Resolve(tr.judge, request.phase, resp.saved, resp.failures, order);
    if IsAccepted(r) {
      AcceptedReport(tr, size, w, request, resp, order, r);
      if r.CommitAccepted? || r.ConflictBranchAccepted? {
        SettledOutbox(size, v.outbox, r.commitID);
      }
      if r.CommitAccepted? {
        MergedHeadCache(tr, w.held, v.heads, r.heads);
      }
    } else if r.CommitConflict? {
      ConflictHeadCache(tr, w, request.phase.records, resp, serverHeads);
      MergedHeadCache(tr, w.held, v.heads, serverHeads);
    }
    DeviceStepKeeps(tr, size, w, w', d);
  }

  // ----- every run -----

  lemma StepKeeps(tr: Transport, size: string -> nat, w: World, w': World)
    requires Sound(tr) && Inv(tr, size, w) && Step(tr, size, w, w')
    ensures Inv(tr, size, w')
  {
    if d, c :| LocalCommit(size, w, w', d, c) {
      LocalCommitKeeps(tr, size, w, w', d, c);
    } else if d :| Send(tr, w, w', d) {
      SendKeeps(tr, size, w, w', d);
    } else if request, s', resp, to :| Serve(w, w', request, s', resp, to) {
      ServeKeeps(tr, size, w, w', request, s', resp, to);
    } else if d, resp' :| CompleteCollisions(w, w', d, resp') {
      CompleteCollisionsKeeps(tr, size, w, w', d, resp');
    } else if d, order, serverHeads, durable :| Receive(tr, w, w', d, order, serverHeads, durable) {
      ReceiveKeeps(tr, size, w, w', d, order, serverHeads, durable);
    } else if d, fetched :| FetchedHeads(tr, w, w', d, fetched) {
      FetchedHeadsKeeps(tr, size, w, w', d, fetched);
    } else if d :| Housekeeping(w, w', d) {
      HousekeepingKeeps(tr, size, w, w', d);
    }
  }

  lemma {:induction false} RunInv(tr: Transport, size: string -> nat, ws: seq<World>, i: nat)
    requires Sound(tr) && Run(tr, size, ws) && i < |ws|
    ensures Inv(tr, size, ws[i])
  {
    if i > 0 {
      RunInv(tr, size, ws, i - 1);
      assert Step(tr, size, ws[i - 1], ws[i - 1 + 1]);
      StepKeeps(tr, size, ws[i - 1], ws[i]);
    }
  }

  /** The record `id` moved to revision `rv` from a revision `rv` expects,
    or was created by a revision that expects none. */
  ghost predicate Swaps(tr: Transport, s: Server, s': Server, id: RecordId, rv: Revision) {
    && id in s'.records && HeadVersion(tr, s'.records[id], Lower(rv.entityID), Lower(rv.revisionID))
    && if id in s.records then SwapsHeld(tr, {s.records[id]}, rv, s.records[id]) else rv.expectedHeads == []
  }

  /** The step is the serving of this request. */
  ghost predicate ServedNow(w: World, w': World, request: Request) {
    exists s', resp, to :: Serve(w, w', request, s', resp, to)
  }

  /** The request is a commit batch, and one of its commit's own revisions asked for this move of the head. */
  ghost predicate JustifiedMove(tr: Transport, w: World, w': World, request: Request, id: RecordId) {
    request.phase.CommitPhase? && exists rv :: rv in request.commit.revisions && Swaps(tr, w.server, w'.server, id, rv)
  }

  /** Serving the request created this record, or moved it as a head by a swap its commit asked for. */
  ghost predicate Moves(tr: Transport, w: World, w': World, request: Request, id: RecordId) {
    && id in w'.server.records
    && if w'.server.records[id].kind == HeadType then JustifiedMove(tr, w, w', request, id)
       else id !in w.server.records
  }

  /** The step is the serving of a request, and it moves the record as that request asks. */
  ghost predicate MovedByRequest(tr: Transport, w: World, w': World, id: RecordId) {
    && IsServed(w, w')
    && forall request :: ServedNow(w, w', request) ==> Moves(tr, w, w', request, id)
  }

  ghost predicate ServerUntouched(w: World, w': World) {
    w'.server == w.server && w'.held == w.held
  }

  ghost predicate IsServed(w: World, w': World) {
    exists request :: ServedNow(w, w', request)
  }

  lemma ReceiveUntouched(tr: Transport, w: World, w': World, d: nat, order: seq<Record>,
      serverHeads: map<string, Record>, durable: bool)
    requires Receive(tr, w, w', d, order, serverHeads, durable)
    ensures ServerUntouched(w, w')
  {
  }

  /** Only the server's own step moves the server. */
  lemma ServedOrUntouched(tr: Transport, size: string -> nat, w: World, w': World)
    requires Step(tr, size, w, w')
    ensures IsServed(w, w') || ServerUntouched(w, w')
  {
    if d, order, serverHeads, durable :| Receive(tr, w, w', d, order, serverHeads, durable) {
      ReceiveUntouched(tr, w, w', d, order, serverHeads, durable);
    } else if request, s', resp, to :| Serve(w, w', request, s', resp, to) {
      assert ServedNow(w, w', request);
    }
  }

  /**
   A step that changes a record is the serving of a request, and whichever request it is the serving of,
   create-only records are created and heads move by a swap that this request's commit expects.
   */
  lemma StepMoves(tr: Transport, size: string -> nat, w: World, w': World, id: RecordId)
    requires Sound(tr) && Inv(tr, size, w) && Step(tr, size, w, w') && Changed(w.server, w'.server, id)
    ensures MovedByRequest(tr, w, w', id)
  {
    ServedOrUntouched(tr, size, w, w');
    forall request | ServedNow(w, w', request) ensures Moves(tr, w, w', request, id) {
      assert ImmutableLaw(tr, request.commit) && RequestOk(tr, size, w.held, request);
      ServedMove(tr, size, w, w', request, id);
    }
  }

  lemma ServedMove(tr: Transport, size: string -> nat, w: World, w': World, request: Request, id: RecordId)
    requires DecodeLaw(tr) && ImmutableLaw(tr, request.commit) && ServerInv(tr, w)
    requires request in w.requests && RequestOk(tr, size, w.held, request)
    requires Writes(w.server, w'.server, request.phase.records, request.phase.AtomicByZone())
      && Changed(w.server, w'.server, id)
    ensures Moves(tr, w, w', request, id)
  {
    var q := w'.server.records[id];
    var r := SentFor(w.server, w'.server, request.phase.records, request.phase.AtomicByZone(), id);
    SentRecord(tr, size, w.held, request, r);
    DecodeForgetsTag(tr, q, r);
    if q.kind == HeadType {
      var rv :| rv in request.commit.revisions && HeadJustified(tr, w.held, rv, r);
      if id in w.server.records {
        var x, current :| x in w.held && x.id == r.id && x.tag == r.tag
          && HeadVersion(tr, x, Lower(rv.entityID), current) && current in ExpectedRevisions(rv);
        assert x == w.server.records[id];
      }
      assert Swaps(tr, w.server, w'.server, id, rv);
    }
  }

  // ----- leaving the outbox -----

  /** A settlement of a sent commit with this commit id was logged by the step. */
  ghost predicate SettledNow(w: World, w': World, commitID: string) {
    exists k :: |w.settled| <= k < |w'.settled| && w'.settled[k].commit.commitID == commitID
      && Issued(w, w'.settled[k].commit)
  }

  lemma {:induction false} SettleRemoves(outbox: seq<Commit>, commitID: string, c: Commit)
    requires c in outbox && c !in Settle(outbox, commitID)
    ensures c.commitID == commitID
    decreases |outbox|
  {
    if c in outbox[1..] {
      SettleRemoves(outbox[1..], commitID, c);
    }
  }

  /** The step takes nothing out of the outbox of `d`. */
  ghost predicate OutboxKept(w: World, w': World, d: nat) {
    d in w.devices && d in w'.devices && forall c :: c in w.devices[d].outbox ==> c in w'.devices[d].outbox
  }

  lemma ReceiveOthers(tr: Transport, w: World, w': World, k: nat, order: seq<Record>, serverHeads: map<string, Record>,
                      durable: bool, d: nat)
    requires Receive(tr, w, w', k, order, serverHeads, durable) && d in w.devices && d != k
    ensures OutboxKept(w, w', d)
  {
  }

  lemma ServeOthers(w: World, w': World, request: Request, s': Server, resp: Response, to: Option<nat>, d: nat)
    requires Serve(w, w', request, s', resp, to) && d in w.devices
    ensures OutboxKept(w, w', d)
  {
  }

  /** What a durable settlement does to the outbox and the log. */
  lemma ReceiveOwn(tr: Transport, w: World, w': World, d: nat, order: seq<Record>, serverHeads: map<string, Record>,
      durable: bool)
    requires Receive(tr, w, w', d, order, serverHeads, durable)
    ensures d in w'.devices
    ensures var v := w.devices[d];
      var request, resp := v.flight.value.request, v.flight.value.response.value;
      var r := Resolve(tr.judge, request.phase, resp.saved, resp.failures, order);
      || w'.devices[d].outbox == v.outbox
      || (&& (r.CommitAccepted? || r.ConflictBranchAccepted?) && w'.devices[d].outbox == Settle(v.outbox, r.commitID)
          && |w'.settled| == |w.settled| + 1 && w'.settled[|w.settled|].commit == request.commit)
  {
  }

  lemma ReceiveSettles(tr: Transport, size: string -> nat, w: World, w': World, d: nat, order: seq<Record>,
                       serverHeads: map<string, Record>, durable: bool, c: Commit)
    requires Inv(tr, size, w) && Receive(tr, w, w', d, order, serverHeads, durable)
    requires d in w.devices && d in w'.devices && c in w.devices[d].outbox && c !in w'.devices[d].outbox
    ensures SettledNow(w, w', c.commitID)
  {
    ReceiveOwn(tr, w, w', d, order, serverHeads, durable);
    var v := w.devices[d];
    assert DeviceOk(tr, size, w, v);
    var request, resp := v.flight.value.request, v.flight.value.response.value;
    assert RequestOk(tr, size, w.held, request);
    AcceptedKind(tr.judge, request.phase, resp.saved, resp.failures, order);
    SettleRemoves(v.outbox, Resolve(tr.judge, request.phase, resp.saved, resp.failures, order).commitID, c);
    assert w'.settled[|w.settled|].commit == request.commit;
  }

  /** A commit leaves an outbox only by a settlement of its id that the log records. */
  lemma LeavesBySettlement(tr: Transport, size: string -> nat, w: World, w': World, d: nat, c: Commit)
    requires Inv(tr, size, w) && Step(tr, size, w, w')
    requires d in w.devices && c in w.devices[d].outbox && d in w'.devices && c !in w'.devices[d].outbox
    ensures SettledNow(w, w', c.commitID)
  {
    if k, order, serverHeads, durable :| Receive(tr, w, w', k, order, serverHeads, durable) {
      if k == d {
        ReceiveSettles(tr, size, w, w', d, order, serverHeads, durable, c);
      } else {
        ReceiveOthers(tr, w, w', k, order, serverHeads, durable, d);
      }
    } else {
      OthersKeepOutbox(tr, size, w, w', d);
    }
  }

  ghost predicate IsReceived(tr: Transport, w: World, w': World) {
    exists d, order, serverHeads, durable :: Receive(tr, w, w', d, order, serverHeads, durable)
  }

  lemma OthersKeepOutbox(tr: Transport, size: string -> nat, w: World, w': World, d: nat)
    requires Step(tr, size, w, w') && !IsReceived(tr, w, w') && d in w.devices
    ensures OutboxKept(w, w', d)
  {
    if k, c :| LocalCommit(size, w, w', k, c) {
      CommitOthers(size, w, w', k, c, d);
    } else if k :| Send(tr, w, w', k) {
      SendOthers(tr, w, w', k, d);
    } else if request, s', resp, to :| Serve(w, w', request, s', resp, to) {
      ServeOthers(w, w', request, s', resp, to, d);
    } else if k, resp' :| CompleteCollisions(w, w', k, resp') {
      CompleteOthers(w, w', k, resp', d);
    } else if k, fetched :| FetchedHeads(tr, w, w', k, fetched) {
      FetchOthers(tr, w, w', k, fetched, d);
    } else {
      var k :| Housekeeping(w, w', k);
    }
  }

  lemma CommitOthers(size: string -> nat, w: World, w': World, k: nat, c: Commit, d: nat)
    requires LocalCommit(size, w, w', k, c) && d in w.devices
    ensures OutboxKept(w, w', d)
  {
  }

  lemma SendOthers(tr: Transport, w: World, w': World, k: nat, d: nat)
    requires Send(tr, w, w', k) && d in w.devices
    ensures OutboxKept(w, w', d)
  {
  }

  lemma CompleteOthers(w: World, w': World, k: nat, resp': Response, d: nat)
    requires CompleteCollisions(w, w', k, resp') && d in w.devices
    ensures OutboxKept(w, w', d)
  {
  }

  lemma FetchOthers(tr: Transport, w: World, w': World, k: nat, fetched: map<string, Record>, d: nat)
    requires FetchedHeads(tr, w, w', k, fetched) && d in w.devices
    ensures OutboxKept(w, w', d)
  {
  }

  ghost predicate ServedAt(w: World, q: Record) {
    q.id in w.server.records && w.server.records[q.id] == q
  }

  ghost predicate ServedBy(ws: seq<World>, i: nat, q: Record) {
    exists k :: 0 <= k <= i && k < |ws| && ServedAt(ws[k], q)
  }

  ghost predicate AppearsAt(ws: seq<World>, i: int, q: Record) {
    0 <= i < |ws| && q in ws[i].held && (i > 0 ==> q !in ws[i - 1].held)
  }

  ghost predicate NewVersionsServed(ws: seq<World>) {
    forall i, q :: AppearsAt(ws, i, q) ==> ServedAt(ws[i], q)
  }

  lemma {:induction false} HeldChain(ws: seq<World>, i: nat, q: Record)
    requires NewVersionsServed(ws) && i < |ws| && q in ws[i].held
    ensures ServedBy(ws, i, q)
  {
    if i > 0 && q in ws[i - 1].held {
      HeldChain(ws, i - 1, q);
    } else {
      assert AppearsAt(ws, i, q);
    }
  }

  /** Every version on record was the server's version at some earlier point of the run. */
  lemma HeldWasServed(tr: Transport, size: string -> nat, ws: seq<World>, i: nat, q: Record)
    requires Sound(tr) && Run(tr, size, ws) && i < |ws| && q in ws[i].held
    ensures ServedBy(ws, i, q)
  {
    assert NewVersionsServed(ws) by {
      forall k, x | AppearsAt(ws, k, x) ensures ServedAt(ws[k], x) {
        NewVersionServed(tr, size, ws, k, x);
      }
    }
    HeldChain(ws, i, q);
  }

  lemma NewVersionServed(tr: Transport, size: string -> nat, ws: seq<World>, i: nat, q: Record)
    requires Sound(tr) && Run(tr, size, ws) && i < |ws| && q in ws[i].held && (i > 0 ==> q !in ws[i - 1].held)
    ensures ServedAt(ws[i], q)
  {
    RunInv(tr, size, ws, i);
    if i > 0 {
      assert Step(tr, size, ws[i - 1], ws[i - 1 + 1]);
      NewVersionIsCurrent(tr, size, ws[i - 1], ws[i], q);
    }
  }

  lemma NewVersionIsCurrent(tr: Transport, size: string -> nat, w: World, w': World, q: Record)
    requires Step(tr, size, w, w') && q in w'.held && q !in w.held && ServerInv(tr, w')
    ensures q.id in w'.server.records && w'.server.records[q.id] == q
  {
    ServedOrUntouched(tr, size, w, w');
    var request, s', resp, to :| Serve(w, w', request, s', resp, to);
    var id :| id in s'.records && s'.records[id] == q;
  }

  // ----- commit ids -----

  /** The commit waits in some outbox or was sent. */
  ghost predicate Issued(w: World, c: Commit) {
    || (exists d :: d in w.devices && c in w.devices[d].outbox)
    || (exists request :: request in w.requests && request.commit == c)
  }

  /** An id names one commit. */
  ghost predicate IdsIdentify(w: World) {
    forall a, b :: Issued(w, a) && Issued(w, b) && a.commitID == b.commitID ==> a == b
  }

  ghost predicate IsLocal(size: string -> nat, w: World, w': World, c: Commit) {
    exists d :: LocalCommit(size, w, w', d, c)
  }

  /** Local commits get ids that were not used before. */
  ghost predicate FreshIds(size: string -> nat, w: World, w': World) {
    forall a, c :: IsLocal(size, w, w', c) && Issued(w, a) ==> a.commitID != c.commitID
  }

  /** The step sends and keeps only commits that were issued. */
  ghost predicate NothingIssued(w: World, w': World) {
    && (forall d, c :: d in w'.devices && c in w'.devices[d].outbox ==> d in w.devices && c in w.devices[d].outbox)
    && (forall request :: request in w'.requests ==> Issued(w, request.commit))
  }

  lemma {:induction false} SettleKeeps(outbox: seq<Commit>, commitID: string)
    ensures forall c :: c in Settle(outbox, commitID) ==> c in outbox
    decreases |outbox|
  {
    if outbox != [] {
      SettleKeeps(outbox[1..], commitID);
    }
  }

  lemma ReceiveIssues(tr: Transport, w: World, w': World, d: nat, order: seq<Record>, serverHeads: map<string, Record>,
      durable: bool)
    requires Receive(tr, w, w', d, order, serverHeads, durable)
    ensures NothingIssued(w, w')
  {
    var v := w.devices[d];
    var request, resp := v.flight.value.request, v.flight.value.response.value;
    var r := Resolve(tr.judge, request.phase, resp.saved, resp.failures, order);
    if r.CommitAccepted? || r.ConflictBranchAccepted? {
      SettleKeeps(v.outbox, r.commitID);
    }
  }

  lemma ServeIssues(w: World, w': World, request: Request, s': Server, resp: Response, to: Option<nat>)
    requires Serve(w, w', request, s', resp, to)
    ensures NothingIssued(w, w')
  {
  }

  lemma SendIssues(tr: Transport, w: World, w': World, d: nat)
    requires Send(tr, w, w', d)
    ensures NothingIssued(w, w')
  {
  }

  lemma OthersIssue(tr: Transport, w: World, w': World, d: nat, resp': Response, fetched: map<string, Record>)
    requires CompleteCollisions(w, w', d, resp') || FetchedHeads(tr, w, w', d, fetched) || Housekeeping(w, w', d)
    ensures NothingIssued(w, w')
  {
  }

  /** Only a local commit issues one. */
  lemma StepIssues(tr: Transport, size: string -> nat, w: World, w': World)
    requires Step(tr, size, w, w')
    ensures NothingIssued(w, w') || exists c :: IsLocal(size, w, w', c)
  {
    if d, c :| LocalCommit(size, w, w', d, c) {
      assert IsLocal(size, w, w', c);
    } else if d, order, serverHeads, durable :| Receive(tr, w, w', d, order, serverHeads, durable) {
      ReceiveIssues(tr, w, w', d, order, serverHeads, durable);
    } else if request, s', resp, to :| Serve(w, w', request, s', resp, to) {
      ServeIssues(w, w', request, s', resp, to);
    } else if d :| Send(tr, w, w', d) {
      SendIssues(tr, w, w', d);
    } else if d, resp' :| CompleteCollisions(w, w', d, resp') {
      OthersIssue(tr, w, w', d, resp', map[]);
    } else if d, fetched :| FetchedHeads(tr, w, w', d, fetched) {
      OthersIssue(tr, w, w', d, Response([], []), fetched);
    } else {
      var d :| Housekeeping(w, w', d);
      OthersIssue(tr, w, w', d, Response([], []), map[]);
    }
  }

  lemma LocalIssues(size: string -> nat, w: World, w': World, c: Commit, x: Commit)
    requires IsLocal(size, w, w', c) && Issued(w', x)
    ensures x == c || Issued(w, x)
  {
  }

  lemma IssuedBefore(w: World, w': World, x: Commit)
    requires NothingIssued(w, w') && Issued(w', x)
    ensures Issued(w, x)
  {
  }

  lemma StepIdentifies(tr: Transport, size: string -> nat, w: World, w': World)
    requires Step(tr, size, w, w') && IdsIdentify(w) && FreshIds(size, w, w')
    ensures IdsIdentify(w')
  {
    StepIssues(tr, size, w, w');
    forall a, b | Issued(w', a) && Issued(w', b) && a.commitID == b.commitID ensures a == b {
      if c :| IsLocal(size, w, w', c) {
        LocalIssues(size, w, w', c, a);
        LocalIssues(size, w, w', c, b);
      } else {
        IssuedBefore(w, w', a);
        IssuedBefore(w, w', b);
      }
    }
  }

  lemma {:induction false} RunIdentifies(tr: Transport, size: string -> nat, ws: seq<World>, i: nat)
    requires Run(tr, size, ws) && i < |ws|
    requires forall k :: 0 <= k < |ws| - 1 ==> FreshIds(size, ws[k], ws[k + 1])
    ensures IdsIdentify(ws[i])
  {
    if i > 0 {
      RunIdentifies(tr, size, ws, i - 1);
      assert Step(tr, size, ws[i - 1], ws[i - 1 + 1]) && FreshIds(size, ws[i - 1], ws[i - 1 + 1]);
      StepIdentifies(tr, size, ws[i - 1], ws[i]);
    }
  }
}
