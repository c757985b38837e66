/**
 Lifecycle records on the shared server: the rule that recognises an already published record
 (CloudSentBatchResolver.swift:159-165), what an accepted lifecycle batch proves about the server, and why no
 batch of any device ever changes a lifecycle record.
 */
module LifecycleServer {
  import opened Prelude
  import opened Records
  import opened Text
  import opened Resolver
  import opened CloudServer
  import opened BootstrapCodec
  import opened BootstrapSnapshot
  import RecordCodec

  /** Both records are lifecycle records and carry the same document under the same identity. */
  function LifecycleMatches(w: Wire, client: Record, server: Record): Result<bool, RecordCodec.CodecError> {
    if !Owns(client) || !Owns(server) then Ok(false)
    else
      match Equivalent(w, client, server)
      case Ok(same) => Ok(same)
      case Err(_) => Err(RecordCodec.UnexpectedRecordType)
  }

  /** The resolver's judgements with the real lifecycle rule. */
  function LifecycleJudge(w: Wire, vaultID: string): Judge {
    CodecJudge(Zone(vaultID), (c, s) => LifecycleMatches(w, c, s))
  }

  /** The lifecycle documents the server holds. */
  ghost function ServerDocs(w: Wire, s: Server): set<Doc> {
    set id | id in s.records && w.decode(s.records[id]).Ok? :: DocOr(w, s.records[id])
  }

  ghost predicate WellFiled(s: Server) {
    forall id :: id in s.records ==> s.records[id].id == id
  }

  // ----- an accepted batch -----

  lemma MatchingIsOnServer(w: Wire, s: Server, s': Server, records: seq<Record>, resp: Response, c: Record, q: Record)
    requires WellFiled(s) && Writes(s, s', records, true) && Reports(s, s', records, resp)
    requires ReportedCopy(resp.saved, resp.failures, q) && LifecycleMatches(w, c, q) == Ok(true)
    ensures DocOr(w, c) in ServerDocs(w, s')
  {
    if q in resp.saved {
      assert s'.records[q.id] == q;
    } else {
      var f :| f in resp.failures && f.server == Some(q);
      assert IsCopy(q, s.records[f.record.id]);
      assert q == s.records[f.record.id] && !Changed(s, s', f.record.id);
      assert s'.records[f.record.id] == q;
    }
  }

  /** When a lifecycle batch resolves as accepted, the server holds every document of it. */
  lemma AcceptedIsOnServer(w: Wire, vaultID: string, s: Server, s': Server, records: seq<Record>, resp: Response,
                           order: seq<Record>, c: Record)
    requires WellFiled(s) && Writes(s, s', records, true) && Reports(s, s', records, resp)
    requires IterationOrder(order, BootstrapPhase(records)) && c in records
    requires Resolve(LifecycleJudge(w, vaultID), BootstrapPhase(records), resp.saved, resp.failures, order)
      == BootstrapAccepted
    ensures DocOr(w, c) in ServerDocs(w, s')
  {
    var j := LifecycleJudge(w, vaultID);
    CodecJudgeIsLawful(Zone(vaultID), (c, s) => LifecycleMatches(w, c, s));
    assert CarriesSent(BootstrapPhase(records), resp.failures);
    AcceptedLifecycle(j, BootstrapPhase(records), resp.saved, resp.failures, order, c);
    var q :| ReportedCopy(resp.saved, resp.failures, q) && j.bootstrapMatches(c, q) == Ok(true);
    MatchingIsOnServer(w, s, s', records, resp, c, q);
  }

  // ----- what devices send -----

  /** No lifecycle record has the id of this one. */
  ghost predicate Apart(w: Wire, r: Record) {
    forall q :: w.decode(q).Ok? ==> q.id != r.id
  }

  /** What any device sends: new lifecycle records, or records with other names. */
  ghost predicate Sendable(w: Wire, r: Record) {
    (Owns(r) && r.tag.None?) || Apart(w, r)
  }

  ghost predicate AllSendable(w: Wire, records: seq<Record>) {
    forall r :: r in records ==> Sendable(w, r)
  }

  lemma InitialsDiffer(d: RecordCodec.Decoded, k: Key, zone: string)
    ensures RecordCodec.IdentityOf(zone, d).name != Name(k)
  {
    RecordCodec.NameShape(zone, d);
    assert RecordCodec.IdentityOf(zone, d).name[0] == RecordCodec.Prefix(RecordCodec.KindOf(d))[0];
    assert Name(k)[0] == Prefix(k)[0];
  }

  /** Entity records, decodable by the record codec, are apart from all lifecycle records. */
  lemma EntityRecordsAreApart(vaultID: string, r: Record)
    requires RecordCodec.Decode(Zone(vaultID), r).Ok?
    ensures Sendable(CodecWire(vaultID), r)
  {
    RecordCodec.DecodeChecksIdentity(Zone(vaultID), r);
    forall q | Decode(vaultID, q).Ok? ensures q.id != r.id {
      RecordDecoded(vaultID, q);
      InitialsDiffer(RecordCodec.Decode(Zone(vaultID), r).value, KeyOf(Decode(vaultID, q).value), Zone(vaultID));
    }
  }

  /** The lifecycle records a device builds are new. */
  lemma LifecycleRecordsAreNew(vaultID: string, d: Doc)
    requires ValidVault(vaultID) && RecordFor(vaultID, d).Ok?
    ensures Sendable(CodecWire(vaultID), RecordFor(vaultID, d).value)
  {
    RecordRoundTrip(vaultID, d);
  }

  /** Whatever devices write, a lifecycle record on the server stays as it is. */
  lemma LifecycleStays(w: Wire, s: Server, s': Server, records: seq<Record>, atomic: bool, id: RecordId)
    requires WellFiled(s) && Writes(s, s', records, atomic) && AllSendable(w, records)
    requires id in s.records && w.decode(s.records[id]).Ok?
    ensures id in s'.records && s'.records[id] == s.records[id]
  {
    if Changed(s, s', id) {
      var r := SentFor(s, s', records, atomic, id);
    }
  }

  /** So the server's lifecycle documents only grow. */
  lemma ServerDocsGrow(w: Wire, s: Server, s': Server, records: seq<Record>, atomic: bool)
    requires WellFiled(s) && Writes(s, s', records, atomic) && AllSendable(w, records)
    ensures WellFiled(s') && ServerDocs(w, s) <= ServerDocs(w, s')
  {
    forall d | d in ServerDocs(w, s) ensures d in ServerDocs(w, s') {
      var id :| id in s.records && w.decode(s.records[id]).Ok? && DocOr(w, s.records[id]) == d;
      LifecycleStays(w, s, s', records, atomic, id);
    }
    forall id | id in s'.records ensures s'.records[id].id == id {
      assert Changed(s, s', id) || s'.records[id] == s.records[id];
    }
  }

  // ----- delivering a batch -----

  /** The report of the batch, as this cloud serves it, resolves as accepted. */
  ghost predicate AcceptedBy(w: Wire, vaultID: string, cloud: Cloud, s: Server, records: seq<Record>) {
    var (served, resp) := cloud.serve(s, BootstrapPhase(records));
    Resolve(LifecycleJudge(w, vaultID), BootstrapPhase(records), resp.saved, resp.failures,
      cloud.order(BootstrapPhase(records)))
      == BootstrapAccepted
  }

  /** Sends a lifecycle batch; it counts as delivered only when its report resolves as accepted. */
  method Deliver(w: Wire, vaultID: string, cloud: Cloud, s: Server, records: seq<Record>)
      returns (delivered: bool, s': Server)
    requires HonestCloud(cloud) && WellFiled(s)
    ensures Writes(s, s', records, true)
    ensures delivered ==> Docs(w, records) <= ServerDocs(w, s')
    ensures delivered <==> AcceptedBy(w, vaultID, cloud, s, records)
    ensures s' == cloud.serve(s, BootstrapPhase(records)).0
  {
    var phase := BootstrapPhase(records);
    var (served, resp) := cloud.serve(s, phase);
    s' := served;
    CodecJudgeIsLawful(Zone(vaultID), (c, s) => LifecycleMatches(w, c, s));
    assert Reports(s, s', phase.records, resp);
    var resolution := ResolveBatch(LifecycleJudge(w, vaultID), phase, resp.saved, resp.failures, cloud.order(phase));
    delivered := resolution == BootstrapAccepted;
    if delivered {
      forall d | d in Docs(w, records) ensures d in ServerDocs(w, s') {
        var c :| c in records && DocOr(w, c) == d;
        AcceptedIsOnServer(w, vaultID, s, s', records, resp, cloud.order(phase), c);
      }
    }
  }
}
