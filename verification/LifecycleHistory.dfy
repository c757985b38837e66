/**
 Lifecycle history is append-only: every run of one device's coordinator against a server that any device may
 write to (CloudVaultBootstrapCoordinator.swift:61-235). The device's steps are the ones its methods promise;
 the server is a `Server` value changed only by batches.
 */
module LifecycleHistory {
  import opened Prelude
  import opened Records
  import opened CloudServer
  import opened BootstrapCodec
  import opened BootstrapSnapshot
  import opened BootstrapCoordinator
  import opened LifecycleServer

  /** `saved` is the history of the durable checkpoint. */
  datatype Life = Life(server: Server, standing: Standing, saved: set<Doc>)

  /** Some device writes a batch of entity records or of new lifecycle records. */
  ghost predicate OthersWrite(w: Wire, v: Life, v': Life) {
    && v' == v.(server := v'.server)
    && exists records, atomic :: AllSendable(w, records) && Writes(v.server, v'.server, records, atomic)
  }

  /** A page brings records of the server; `StageFetched`. */
  ghost predicate PageStaged(w: Wire, v: Life, v': Life, page: seq<Record>) {
    && v' == v.(standing := v'.standing)
    && (forall r :: r in page ==> r.id in v.server.records && v.server.records[r.id] == r)
    && StageStep(v.standing, v'.standing, DecodedDocs(w, Lifecycle(page)))
  }

  /** `FinishFetch`. */
  ghost predicate Finished(v: Life, v': Life) {
    v' == v.(standing := v'.standing) && FinishStep(v.standing, v'.standing)
  }

  /** `Publish`. */
  ghost predicate Published(w: Wire, v: Life, v': Life, local: set<Doc>) {
    v'.saved == v.saved && PublishStep(w, v.server, v'.server, v.standing, v'.standing, local)
  }

  /** The accepted snapshot is written to the checkpoint. */
  ghost predicate Checkpointed(v: Life, v': Life) {
    v' == v.(saved := v.standing.accepted)
  }

  ghost predicate Continues(w: Wire, v: Life, v': Life) {
    || OthersWrite(w, v, v')
    || (exists page :: PageStaged(w, v, v', page))
    || Finished(v, v')
    || (exists local :: Published(w, v, v', local))
    || Checkpointed(v, v')
  }

  /** A restart restores the checkpoint; an account reset forgets everything and may meet another server. */
  ghost predicate Begins(v: Life, v': Life) {
    || v' == v.(standing := Standing(v.saved, {}))
    || (WellFiled(v'.server) && v' == Life(v'.server, Standing({}, {}), {}))
  }

  ghost predicate LifeRun(w: Wire, vs: seq<Life>) {
    && vs != [] && WellFiled(vs[0].server) && vs[0].standing == Standing({}, {}) && vs[0].saved == {}
    && forall i :: 0 <= i < |vs| - 1 ==> Continues(w, vs[i], vs[i + 1]) || Begins(vs[i], vs[i + 1])
  }

  // ----- everything accepted is on the server -----

  ghost predicate OnServer(w: Wire, v: Life) {
    && WellFiled(v.server)
    && v.standing.accepted <= ServerDocs(w, v.server) && v.standing.fetched <= ServerDocs(w, v.server)
    && v.saved <= ServerDocs(w, v.server)
  }

  /** The server keeps what it had, and nothing else changed for the worse. */
  lemma OthersKeep(w: Wire, v: Life, v': Life)
    requires OnServer(w, v) && OthersWrite(w, v, v')
    ensures OnServer(w, v')
  {
    var records, atomic :| AllSendable(w, records) && Writes(v.server, v'.server, records, atomic);
    ServerDocsGrow(w, v.server, v'.server, records, atomic);
  }

  lemma PageKeeps(w: Wire, v: Life, v': Life, page: seq<Record>)
    requires OnServer(w, v) && PageStaged(w, v, v', page)
    ensures OnServer(w, v')
  {
    forall d | d in DecodedDocs(w, Lifecycle(page)) ensures d in ServerDocs(w, v.server) {
      var r :| r in Lifecycle(page) && w.decode(r).Ok? && DocOr(w, r) == d;
      LifecycleMember(page, r);
    }
  }

  lemma {:induction false} LifecycleMember(page: seq<Record>, r: Record)
    requires r in Lifecycle(page)
    ensures r in page
    decreases |page|
  {
    var n := |page| - 1;
    if r != page[n] {
      LifecycleMember(page[..n], r);
    }
  }

  lemma PublishKeeps(w: Wire, v: Life, v': Life, local: set<Doc>)
    requires OnServer(w, v) && Published(w, v, v', local)
    ensures OnServer(w, v')
  {
    if v'.server != v.server {
      var records :| AllSendable(w, records) && Writes(v.server, v'.server, records, true);
      ServerDocsGrow(w, v.server, v'.server, records, true);
    }
  }

  lemma StepKeeps(w: Wire, v: Life, v': Life)
    requires OnServer(w, v) && (Continues(w, v, v') || Begins(v, v'))
    ensures OnServer(w, v')
  {
    if OthersWrite(w, v, v') {
      OthersKeep(w, v, v');
    } else if page :| PageStaged(w, v, v', page) {
      PageKeeps(w, v, v', page);
    } else if local :| Published(w, v, v', local) {
      PublishKeeps(w, v, v', local);
    }
  }

  lemma {:induction false} RunOnServer(w: Wire, vs: seq<Life>, i: nat)
    requires LifeRun(w, vs) && i < |vs|
    ensures OnServer(w, vs[i])
  {
    if i > 0 {
      RunOnServer(w, vs, i - 1);
      StepKeeps(w, vs[i - 1], vs[i - 1 + 1]);
    }
  }

  /** One id, one record, one document: the server's lifecycle documents are a history. */
  lemma ServerIsHistory(w: Wire, s: Server)
    requires WireLaw(w) && WellFiled(s)
    ensures OneDocPerKey(ServerDocs(w, s))
  {
    var m := map id | id in s.records && w.decode(s.records[id]).Ok? :: s.records[id];
    FiledIsHistory(w, m);
    forall d | d in ServerDocs(w, s) ensures d in DocsIn(w, m) {
      var id :| id in s.records && w.decode(s.records[id]).Ok? && DocOr(w, s.records[id]) == d;
      assert id in m;
    }
  }

  // ----- the accepted history grows -----

  /** Steps `i` to `j` of a run contain no restart and no account reset. */
  ghost predicate Uninterrupted(w: Wire, vs: seq<Life>, i: nat, j: nat) {
    forall k :: i <= k < j && k + 1 < |vs| ==> Continues(w, vs[k], vs[k + 1])
  }

  lemma StepGrows(w: Wire, v: Life, v': Life)
    requires Continues(w, v, v')
    ensures v.standing.accepted <= v'.standing.accepted
  {
  }

  lemma {:induction false} AcceptedGrows(w: Wire, vs: seq<Life>, i: nat, j: nat)
    requires i <= j < |vs| && Uninterrupted(w, vs, i, j)
    ensures vs[i].standing.accepted <= vs[j].standing.accepted
    decreases j - i
  {
    if i < j {
      AcceptedGrows(w, vs, i, j - 1);
      assert Continues(w, vs[j - 1], vs[j - 1 + 1]);
      StepGrows(w, vs[j - 1], vs[j]);
    }
  }

  /**
   Lifecycle history is append-only. In every run, between restarts and resets the accepted history only grows;
   all of it is on the server; and a document accepted at any time is the only one accepted, and the only one
   on the server, under its key from then on.
   */
  lemma HistoryIsAppendOnly(vaultID: string, vs: seq<Life>, i: nat, j: nat)
    requires ValidVault(vaultID) && LifeRun(CodecWire(vaultID), vs) && i <= j < |vs|
      && Uninterrupted(CodecWire(vaultID), vs, i, j)
    ensures vs[i].standing.accepted <= vs[j].standing.accepted <= ServerDocs(CodecWire(vaultID), vs[j].server)
    ensures forall d, e ::
      d in vs[i].standing.accepted && e in ServerDocs(CodecWire(vaultID), vs[j].server) && KeyOf(d) == KeyOf(e) ==>
        d == e
  {
    var w := CodecWire(vaultID);
    CodecWireLaw(vaultID);
    AcceptedGrows(w, vs, i, j);
    RunOnServer(w, vs, j);
    ServerIsHistory(w, vs[j].server);
  }
}
