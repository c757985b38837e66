/**
 Crash-safe checkpoints: the inbound event stream of one device over any number of sessions
 (CloudRecordSyncSession.swift:59-183). Engine events arrive one at a time, pages only while changes
 are being fetched; every operation may fail at each of its stages, and the process may restart
 between any two steps.
 */
module Checkpoint {
  import opened Prelude
  import opened Records
  import opened BootstrapCodec
  import opened SessionState

  /** Where `syncNow` stands. */
  datatype Driver = Idle | SendingZone | Fetching | Publishing | Completed | Draining

  /** The durable cell: a token, the head cache and the lifecycle history written together. */
  datatype Saved = Saved(token: Option<Token>, heads: map<RecordId, Record>, lifecycle: set<Doc>)

  /**
   `applied` is what the daemon applied, durably; `learned` is every head version merged into a cache, in
   order. `delivered` is what the engine has handed to this
   session or stands behind from the restored token: no token covers more.
   */
  datatype State = State(
    session: Session,
    driver: Driver,
    heads: map<RecordId, Record>,
    accepted: set<Doc>,
    fetched: set<Doc>,
    applied: set<Change>,
    learned: seq<Record>,
    delivered: Token,
    saved: Saved)

  const Start := State(NewSession(None), Idle, map[], {}, {}, {}, [], Token({}, {}), Saved(None, map[], {}))

  /** How far the handler of "did fetch" gets. */
  datatype FetchEnd =
    | NotFinished        // wrong zone, fetch error, lifecycle contradiction or refused snapshot
    | LifecycleOnly      // snapshot accepted, but not readable, or the entity records were refused
    | AppliedOnly        // the daemon applied the records, then cleaning up failed
    | NotSaved           // fetch committed, but writing the checkpoint failed
    | Checkpointed

  datatype Event =
    | StartSync
    | Proceed
    | Abandon
    | Publish(local: set<Doc>)
    | PublishFails(local: set<Doc>)
    | SaveLatest
    | Sent(failure: Option<SessionError>, newHeads: seq<Record>, newApplied: set<Change>)
    | TokenUpdate(token: Token, stored: bool)
    | AccountChange
    | WillFetch
    | Page(records: seq<Record>, deleted: seq<RecordId>, docs: set<Doc>, lifecycleStaged: bool)
    | DidFetch(end: FetchEnd, error: SessionError, stagedHeads: seq<Record>)
    | EventFails(error: SessionError)
    | Restart

  function HeadIds(changes: set<Change>): set<RecordId> {
    set c | c in changes && c.HeadChange? :: c.record.id
  }

  function EntityChanges(changes: set<Change>): set<Change> {
    set c | c in changes && !c.HeadChange?
  }

  function StagedIn(s: Session): set<Change> {
    Staged(s.records, s.deleted)
  }

  function Committed(s: Session): Session {
    s.(fetching := false, records := map[], deleted := {})
  }

  function AfterPage(session: Session, records: seq<Record>, deleted: seq<RecordId>): Session {
    var (s, ok) := StagePage(session, records, deleted);
    if ok then s else Recorded(s, DamagedBatch)
  }

  /** A cache with these versions merged in; a later one replaces an earlier one. */
  function Overlay(heads: map<RecordId, Record>, news: seq<Record>): map<RecordId, Record> {
    if news == [] then heads else Overlay(heads, news[..|news| - 1])[news[|news| - 1].id := news[|news| - 1]]
  }

  /** Some listing of the staged heads. */
  ghost predicate ListsHeads(news: seq<Record>, staged: set<Change>) {
    && (forall i, j :: 0 <= i < j < |news| ==> news[i].id != news[j].id)
    && (forall r :: r in news ==> HeadChange(r) in staged)
      && (forall c :: c in staged && c.HeadChange? ==> c.record in news)
  }

  function AfterDidFetch(w: State, end: FetchEnd, error: SessionError, stagedHeads: seq<Record>): State {
    var accepted := w.(accepted := w.accepted + w.fetched, fetched := {});
    var staged := StagedIn(w.session);
    var applied := accepted.(applied := w.applied + EntityChanges(staged));
    var merged := applied.(heads := Overlay(w.heads, stagedHeads), learned := w.learned + stagedHeads,
      session := Committed(w.session));
    match end
    case NotFinished => w.(session := Recorded(w.session, error))
    case LifecycleOnly => accepted.(session := Recorded(w.session, error))
    case AppliedOnly => if w.session.fetching then applied.(session := Recorded(w.session, error))
      else accepted.(session := Recorded(w.session, error))
    case NotSaved =>
      if w.session.fetching then merged.(session := Recorded(Committed(w.session), error))
        else accepted.(session := Recorded(w.session, error))
    case Checkpointed =>
      if w.session.fetching then merged.(saved := Saved(w.session.latest, merged.heads, merged.accepted))
      else accepted.(session := Recorded(w.session, error))
  }

  function AfterToken(w: State, t: Token, stored: bool): State {
    if w.session.failure.Some? then w
    else
      var kept := w.(session := w.session.(latest := Some(t)));
      if w.session.fetching then kept
      else if stored then kept.(saved := Saved(Some(t), w.heads, w.accepted))
      else kept.(session := Recorded(kept.session, TransportFailure))
  }

  function AfterReset(w: State): State {
    w.(session := Recorded(Reset(w.session), AccountChanged), heads := map[], accepted := {}, fetched := {},
      saved := Saved(None, map[], {}))
  }

  function Coverage(t: Option<Token>): Token {
    match t
    case Some(token) => token
    case None => Token({}, {})
  }

  function AfterRestart(w: State): State {
    State(NewSession(w.saved.token), Idle, w.saved.heads, w.saved.lifecycle, {}, w.applied, w.learned,
      Coverage(w.saved.token), w.saved)
  }

  /** One step of the device. */
  ghost predicate Next(w: State, e: Event, w': State) {
    match e
    case StartSync =>
      && w.driver == Idle && (w.session.failure.None? || w.session.failure == Some(RetryPending))
      && w' == w.(driver := SendingZone, session := w.session.(failure := None, appliedRemoteChanges := false))
    case Proceed =>   // `throwRecordedFailure`; changes are fetched only after "did fetch"
      && w.session.failure.None?
      && (w.driver == SendingZone || (w.driver == Fetching && !w.session.fetching))
      && w' == w.(driver := if w.driver == SendingZone then Fetching else Publishing)
    case Abandon => w' == w.(driver := Idle)
    case Publish(local) =>
      w.driver == Publishing && w' == w.(driver := Completed, accepted := w.accepted + w.fetched + local, fetched := {})
    case PublishFails(local) =>
      && w.driver == Publishing && w.fetched <= w'.fetched <= w.fetched + local
      && w' == w.(driver := Idle, fetched := w'.fetched)
    case SaveLatest =>
      w.driver == Completed && w' == w.(driver := Draining, saved := Saved(w.session.latest, w.heads, w.accepted))
    case Sent(failure, newHeads, newApplied) =>
      && (w.driver == Publishing || w.driver == Draining)
      && w' == w.(session := (if failure.Some? then Recorded(w.session, failure.value)
        else w.session).(phase := w'.session.phase),
                  heads := Overlay(w.heads, newHeads), learned := w.learned + newHeads,
                    applied := w.applied + newApplied)
    case TokenUpdate(t, stored) =>
      && t.domain <= w.delivered.domain && t.lifecycle <= w.delivered.lifecycle
      && w' == AfterToken(w, t, stored)
    case AccountChange => w' == AfterReset(w)
    case WillFetch =>
      && w.driver == Fetching
      && w' == w.(session := if w.session.fetching then Recorded(w.session, DamagedBatch)
                             else w.session.(fetching := true, records := map[], deleted := {}))
    case Page(records, deleted, docs, lifecycleStaged) =>
      && w.driver == Fetching && w.fetched <= w'.fetched <= w.fetched + docs
        && (lifecycleStaged ==> w'.fetched == w.fetched + docs)
      && w' == w.(fetched := w'.fetched,
                  delivered := Token(w.delivered.domain + PageChanges(records, deleted), w.delivered.lifecycle + docs),
                  session := if lifecycleStaged then AfterPage(w.session, records, deleted)
                    else Recorded(w.session, DamagedBatch))
    case DidFetch(end, error, stagedHeads) =>
      && w.driver == Fetching && error != RetryPending
      && (end.NotSaved? || end.Checkpointed? ==> ListsHeads(stagedHeads, StagedIn(w.session)))
      && w' == AfterDidFetch(w, end, error, stagedHeads)
    case EventFails(error) => error != RetryPending && w' == w.(session := Recorded(w.session, error))
    case Restart => w' == AfterRestart(w)
  }

  ghost predicate Path(ws: seq<State>, es: seq<Event>) {
    && |ws| == |es| + 1
    && forall i :: 0 <= i < |es| ==> Next(ws[i], es[i], ws[i + 1])
  }

  /** These events lead from one state to the other. */
  ghost predicate Reaches(w: State, es: seq<Event>, w': State) {
    exists ws :: Path(ws, es) && ws[0] == w && ws[|es|] == w'
  }

  lemma ReachesOne(w: State, e: Event, w': State)
    requires Next(w, e, w')
    ensures Reaches(w, [e], w')
  {
    assert Path([w, w'], [e]);
  }

  lemma ReachesItself(w: State)
    ensures Reaches(w, [], w)
  {
    assert Path([w], []);
  }

  lemma ReachesMore(w: State, es: seq<Event>, v: State, e: Event, w': State)
    requires Reaches(w, es, v) && Next(v, e, w')
    ensures Reaches(w, es + [e], w')
  {
    var ws :| Path(ws, es) && ws[0] == w && ws[|es|] == v;
    var more := ws + [w'];
    forall i | 0 <= i < |es + [e]| ensures Next(more[i], (es + [e])[i], more[i + 1]) {
      assert i < |es| ==> Next(ws[i], es[i], ws[i + 1]);
    }
    assert Path(more, es + [e]);
  }

  lemma ReachesOn(w: State, es: seq<Event>, v: State, fs: seq<Event>, w': State)
    requires Reaches(w, es, v) && Reaches(v, fs, w')
    ensures Reaches(w, es + fs, w')
  {
    var vs :| Path(vs, fs) && vs[0] == v && vs[|fs|] == w';
    ReachesAlong(w, es, vs, fs, |fs|);
    assert fs[..|fs|] == fs;
  }

  lemma {:induction false} ReachesAlong(w: State, es: seq<Event>, vs: seq<State>, fs: seq<Event>, n: nat)
    requires Path(vs, fs) && Reaches(w, es, vs[0]) && n <= |fs|
    ensures Reaches(w, es + fs[..n], vs[n])
  {
    if n == 0 {
      assert es + fs[..0] == es;
    } else {
      ReachesAlong(w, es, vs, fs, n - 1);
      assert Next(vs[n - 1], fs[n - 1], vs[n - 1 + 1]);
      ReachesMore(w, es + fs[..n - 1], vs[n - 1], fs[n - 1], vs[n]);
      assert es + fs[..n - 1] + [fs[n - 1]] == es + fs[..n];
    }
  }

  // ----- safety -----

  /** What makes a delivered change survive: the daemon's state, a head cache,
    and the order versions were learned in. */
  datatype Known = Known(applied: set<Change>, heads: map<RecordId, Record>, learned: seq<Record>)

  /** The cache holds this version of the head, or one learned after it. */
  ghost predicate HeldSince(k: Known, r: Record) {
    r.id in k.heads && exists m, n :: 0 <= m <= n < |k.learned| && k.learned[m] == r && k.learned[n] == k.heads[r.id]
  }

  ghost predicate Handled(c: Change, k: Known) {
    if c.HeadChange? then HeldSince(k, c.record) else c in k.applied
  }

  /** Everything the token stands behind was applied, cached or staged. */
  ghost predicate Covered(t: Token, k: Known, staged: set<Change>, lifecycle: set<Doc>) {
    t.lifecycle <= lifecycle && forall c :: c in t.domain ==> c in staged || Handled(c, k)
  }

  ghost function InMemory(w: State): Known {
    Known(w.applied, w.heads, w.learned)
  }

  ghost function OnDisk(w: State): Known {
    Known(w.applied, w.saved.heads, w.learned)
  }

  /**
   The durable token covers only changes the daemon applied, heads of which the saved cache holds the
   delivered version or a later one, and documents of the saved history.
   */
  ghost predicate Safe(w: State) {
    Covered(Coverage(w.saved.token), OnDisk(w), {}, w.saved.lifecycle)
  }

  /** What an account reset would throw away although the engine will not deliver it again. */
  ghost predicate NothingAtStake(w: State) {
    w.delivered.lifecycle == {} && HeadIds(w.delivered.domain) == {}
  }

  /** The reset stops the session for good, or has nothing to lose. */
  ghost predicate ResetIsSticky(w: State) {
    w.session.failure != Some(RetryPending) || NothingAtStake(w)
  }

  ghost predicate Careful(ws: seq<State>, es: seq<Event>) {
    |ws| == |es| + 1 && forall i :: 0 <= i < |es| && es[i].AccountChange? ==> ResetIsSticky(ws[i])
  }

  /** No sync is started on a session that recorded a failure. */
  ghost predicate Discards(ws: seq<State>, es: seq<Event>) {
    |ws| == |es| + 1 && forall i :: 0 <= i < |es| && es[i].StartSync? ==> ws[i].session.failure.None?
  }

  /** Another sync may start on this session: always after no failure,
    and after a pending retry unless failed sessions are discarded. */
  ghost predicate Resumable(s: Session, discards: bool) {
    s.failure.None? || (!discards && s.failure == Some(RetryPending))
  }

  /** Token `t` can be made durable: in memory it may lean on the fetch in progress, outside a fetch it may not. */
  ghost predicate Backed(w: State, t: Token) {
    && Covered(t, InMemory(w), StagedIn(w.session), w.accepted + w.fetched)
    && (!w.session.fetching ==> Covered(t, InMemory(w), {}, w.accepted))
  }

  ghost predicate Inv(w: State, discards: bool) {
    && Safe(w)
    && (!w.session.fetching ==> w.session.records == map[] && w.session.deleted == {})
    && Backed(w, Coverage(w.session.latest))
    && (Resumable(w.session, discards) ==> Backed(w, w.delivered))
    && (w.driver == SendingZone || w.driver == Fetching ==> w.session.failure != Some(RetryPending))
    && (w.driver in {Publishing, Completed, Draining} || w.session.failure == Some(RetryPending) ==>
          !w.session.fetching)
  }

  /** What a run must respect: sticky resets, or sessions discarded after a failure. */
  ghost predicate Allowed(w: State, e: Event, discards: bool) {
    if discards then e.StartSync? ==> w.session.failure.None? else e.AccountChange? ==> ResetIsSticky(w)
  }

  // ----- what is known only grows -----

  /** Cached versions are the same or learned since. */
  ghost predicate Grows(k: Known, k': Known) {
    && k.applied <= k'.applied && k.learned <= k'.learned
    && forall id :: id in k.heads ==> id in k'.heads && (k'.heads[id] == k.heads[id] || LearnedSince(k, k', id))
  }

  ghost predicate LearnedSince(k: Known, k': Known, id: RecordId) {
    id in k'.heads && exists n :: |k.learned| <= n < |k'.learned| && k'.learned[n] == k'.heads[id]
  }

  lemma HeldStays(k: Known, k': Known, r: Record)
    requires Grows(k, k') && HeldSince(k, r)
    ensures HeldSince(k', r)
  {
    var m, n :| 0 <= m <= n < |k.learned| && k.learned[m] == r && k.learned[n] == k.heads[r.id];
    assert k'.learned[m] == r && k'.learned[n] == k.heads[r.id];
    if k'.heads[r.id] != k.heads[r.id] {
      var p :| |k.learned| <= p < |k'.learned| && k'.learned[p] == k'.heads[r.id];
      assert m <= p;
    }
  }

  lemma CoveredStays(t: Token, k: Known, k': Known, staged: set<Change>, staged': set<Change>, lifecycle: set<Doc>,
      lifecycle': set<Doc>)
    requires Covered(t, k, staged, lifecycle) && Grows(k, k') && staged <= staged' && lifecycle <= lifecycle'
    ensures Covered(t, k', staged', lifecycle')
  {
    forall c | c in t.domain ensures c in staged' || Handled(c, k') {
      if c !in staged && c.HeadChange? {
        HeldStays(k, k', c.record);
      }
    }
  }

  lemma {:induction false} OverlayMeans(heads: map<RecordId, Record>, news: seq<Record>)
    ensures var after := Overlay(heads, news);
      && (forall id :: id in heads ==> id in after)
      && (forall id :: id in after ==> (id in heads && after[id] == heads[id]) || after[id] in news)
      && ((forall i, j :: 0 <= i < j < |news| ==> news[i].id != news[j].id)
        ==> forall r :: r in news ==> r.id in after && after[r.id] == r)
    decreases |news|
  {
    if news != [] {
      var n := |news| - 1;
      OverlayMeans(heads, news[..n]);
      assert forall r :: r in news <==> r in news[..n] || r == news[n];
    }
  }

  ghost predicate Unnamed(news: seq<Record>, id: RecordId) {
    forall k :: 0 <= k < |news| ==> news[k].id != id
  }

  /** An id that is not merged keeps its version. */
  lemma {:induction false} OverlayKeeps(heads: map<RecordId, Record>, news: seq<Record>, id: RecordId)
    requires Unnamed(news, id)
    ensures id in Overlay(heads, news) <==> id in heads
    ensures id in heads ==> Overlay(heads, news)[id] == heads[id]
    decreases |news|
  {
    if news != [] {
      assert news[|news| - 1].id != id;
      OverlayKeeps(heads, news[..|news| - 1], id);
    }
  }

  /** The last version merged under an id stands. */
  lemma {:induction false} OverlayLast(heads: map<RecordId, Record>, news: seq<Record>, i: nat)
    requires i < |news| && Unnamed(news[i + 1..], news[i].id)
    ensures news[i].id in Overlay(heads, news) && Overlay(heads, news)[news[i].id] == news[i]
    decreases |news|
  {
    var n := |news| - 1;
    if i < n {
      assert news[n] == news[i + 1..][n - i - 1];
      assert news[..n][i + 1..] == news[i + 1..][..n - i - 1];
      OverlayLast(heads, news[..n], i);
    }
  }

  /** Merging versions into a cache makes it grow. */
  lemma OverlayGrows(k: Known, applied: set<Change>, news: seq<Record>)
    requires k.applied <= applied
    ensures Grows(k, Known(applied, Overlay(k.heads, news), k.learned + news))
  {
    OverlayMeans(k.heads, news);
    var k' := Known(applied, Overlay(k.heads, news), k.learned + news);
    forall id | id in k.heads ensures id in k'.heads && (k'.heads[id] == k.heads[id] || LearnedSince(k, k', id)) {
      if k'.heads[id] != k.heads[id] {
        var i :| 0 <= i < |news| && news[i] == k'.heads[id];
        assert k'.learned[|k.learned| + i] == k'.heads[id];
      }
    }
  }

  // ----- preservation, event by event -----

  lemma SmallerIsCovered(t: Token, u: Token, k: Known, staged: set<Change>, lifecycle: set<Doc>)
    requires Covered(u, k, staged, lifecycle) && t.domain <= u.domain && t.lifecycle <= u.lifecycle
    ensures Covered(t, k, staged, lifecycle)
  {
  }

  lemma TokenKeeps(w: State, w': State, t: Token, stored: bool, discards: bool)
    requires Inv(w, discards) && Next(w, TokenUpdate(t, stored), w')
    ensures Inv(w', discards)
  {
    if w.session.failure.None? {
      SmallerIsCovered(t, w.delivered, InMemory(w), StagedIn(w.session), w.accepted + w.fetched);
      if !w.session.fetching {
        SmallerIsCovered(t, w.delivered, InMemory(w), {}, w.accepted);
      }
    }
  }

  lemma PageKeeps(w: State, w': State, e: Event, discards: bool)
    requires Inv(w, discards) && e.Page? && Next(w, e, w')
    ensures Inv(w', discards)
  {
    PageIsStaged(w.session, e.records, e.deleted);
    var staged := StagedIn(w'.session);
    assert StagedIn(w.session) <= staged;
    assert Backed(w', Coverage(w'.session.latest));
    if Resumable(w'.session, discards) {
      assert w.session.fetching;
      assert PageChanges(e.records, e.deleted) <= staged;
      assert Backed(w', w'.delivered);
    }
  }

  /** The known facts after a commit of the staged changes. */
  ghost function AfterCommit(w: State, stagedHeads: seq<Record>): Known {
    Known(w.applied + EntityChanges(StagedIn(w.session)), Overlay(w.heads, stagedHeads), w.learned + stagedHeads)
  }

  lemma StagedHeadHeld(w: State, stagedHeads: seq<Record>, r: Record)
    requires ListsHeads(stagedHeads, StagedIn(w.session)) && r in stagedHeads
    ensures HeldSince(AfterCommit(w, stagedHeads), r)
  {
    OverlayMeans(w.heads, stagedHeads);
    var i :| 0 <= i < |stagedHeads| && stagedHeads[i] == r;
    assert (w.learned + stagedHeads)[|w.learned| + i] == r;
  }

  /** A commit moves every staged change to the daemon and the head cache. */
  lemma CommitBacks(w: State, t: Token, stagedHeads: seq<Record>)
    requires Backed(w, t) && ListsHeads(stagedHeads, StagedIn(w.session))
    ensures Covered(t, AfterCommit(w, stagedHeads), {}, w.accepted + w.fetched)
  {
    var staged, k' := StagedIn(w.session), AfterCommit(w, stagedHeads);
    OverlayGrows(InMemory(w), k'.applied, stagedHeads);
    CoveredStays(t, InMemory(w), k', staged, staged, w.accepted + w.fetched, w.accepted + w.fetched);
    forall c | c in t.domain ensures Handled(c, k') {
      if c in staged {
        if c.HeadChange? {
          StagedHeadHeld(w, stagedHeads, c.record);
        } else {
          assert c in EntityChanges(staged);
        }
      }
    }
  }

  /** More is known on disk: what was safe stays safe. */
  lemma DiskGrows(w: State, applied: set<Change>, news: seq<Record>)
    requires Safe(w) && w.applied <= applied
    ensures Covered(Coverage(w.saved.token), Known(applied, w.saved.heads, w.learned + news), {}, w.saved.lifecycle)
  {
    CoveredStays(Coverage(w.saved.token), OnDisk(w), Known(applied, w.saved.heads, w.learned + news), {}, {},
                 w.saved.lifecycle, w.saved.lifecycle);
  }

  lemma FailedFetchKeeps(w: State, w': State, e: Event, discards: bool)
    requires Inv(w, discards) && e.DidFetch? && Next(w, e, w')
    requires e.end.NotFinished? || e.end.LifecycleOnly? || !w.session.fetching
    ensures Inv(w', discards)
  {
  }

  lemma AppliedOnlyKeeps(w: State, w': State, e: Event, discards: bool)
    requires Inv(w, discards) && e.DidFetch? && e.end.AppliedOnly? && Next(w, e, w') && w.session.fetching
    ensures Inv(w', discards)
  {
    DiskGrows(w, w'.applied, []);
    assert w.learned + [] == w.learned;
    var staged, lifecycle := StagedIn(w.session), w.accepted + w.fetched;
    CoveredStays(Coverage(w.session.latest), InMemory(w), InMemory(w'), staged, staged, lifecycle, lifecycle);
  }

  lemma CommittedKeeps(w: State, w': State, e: Event, discards: bool)
    requires Inv(w, discards) && e.DidFetch? && (e.end.NotSaved? || e.end.Checkpointed?) && Next(w, e, w')
      && w.session.fetching
    ensures Inv(w', discards)
  {
    DiskGrows(w, w'.applied, e.stagedHeads);
    assert InMemory(w') == AfterCommit(w, e.stagedHeads) && StagedIn(w'.session) == {};
    CommitBacks(w, Coverage(w.session.latest), e.stagedHeads);
    if Resumable(w.session, discards) {
      CommitBacks(w, w.delivered, e.stagedHeads);
    }
  }

  lemma DidFetchKeeps(w: State, w': State, e: Event, discards: bool)
    requires Inv(w, discards) && e.DidFetch? && Next(w, e, w')
    ensures Inv(w', discards)
  {
    if e.end.NotFinished? || e.end.LifecycleOnly? || !w.session.fetching {
      FailedFetchKeeps(w, w', e, discards);
    } else if e.end.AppliedOnly? {
      AppliedOnlyKeeps(w, w', e, discards);
    } else {
      CommittedKeeps(w, w', e, discards);
    }
  }

  lemma NoHeadAtStake(w: State)
    requires NothingAtStake(w)
    ensures forall c :: c in w.delivered.domain ==> !c.HeadChange?
  {
    forall c | c in w.delivered.domain && c.HeadChange? ensures c.record.id in HeadIds(w.delivered.domain) {
    }
  }

  lemma ResetKeeps(w: State, w': State, discards: bool)
    requires Inv(w, discards) && Allowed(w, AccountChange, discards) && w' == AfterReset(w)
    ensures Inv(w', discards)
  {
    if w.session.failure == Some(RetryPending) && !discards {
      NoHeadAtStake(w);
      forall c | c in w.delivered.domain ensures Handled(c, InMemory(w')) {
        assert Handled(c, InMemory(w));
      }
    }
  }

  lemma RestartKeeps(w: State, w': State, discards: bool)
    requires Safe(w) && w' == AfterRestart(w)
    ensures Inv(w', discards) && Backed(w', w'.delivered)
  {
  }

  lemma SentKeeps(w: State, w': State, e: Event, discards: bool)
    requires Inv(w, discards) && e.Sent? && Next(w, e, w')
    ensures Inv(w', discards)
  {
    DiskGrows(w, w'.applied, e.newHeads);
    OverlayGrows(InMemory(w), w'.applied, e.newHeads);
    BackedStays(w, w', Coverage(w.session.latest));
    if Resumable(w.session, discards) {
      BackedStays(w, w', w.delivered);
    }
  }

  lemma BackedStays(w: State, w': State, t: Token)
    requires Backed(w, t) && Grows(InMemory(w), InMemory(w')) && w.accepted <= w'.accepted && w.fetched <= w'.fetched
    requires w'.session.fetching == w.session.fetching && w'.session.records == w.session.records
      && w'.session.deleted == w.session.deleted
    ensures Backed(w', t)
  {
    var staged := StagedIn(w.session);
    CoveredStays(t, InMemory(w), InMemory(w'), staged, staged, w.accepted + w.fetched, w'.accepted + w'.fetched);
    if !w.session.fetching {
      CoveredStays(t, InMemory(w), InMemory(w'), {}, {}, w.accepted, w'.accepted);
    }
  }

  lemma DriverKeeps(w: State, w': State, e: Event, discards: bool)
    requires Inv(w, discards) && Next(w, e, w') && Allowed(w, e, discards)
    requires e.StartSync? || e.Proceed? || e.Abandon? || e.Publish? || e.PublishFails? || e.SaveLatest?
    ensures Inv(w', discards)
  {
  }

  lemma WillFetchKeeps(w: State, w': State, discards: bool)
    requires Inv(w, discards) && Next(w, WillFetch, w')
    ensures Inv(w', discards)
  {
  }

  lemma EventFailsKeeps(w: State, w': State, error: SessionError, discards: bool)
    requires Inv(w, discards) && Next(w, EventFails(error), w')
    ensures Inv(w', discards)
  {
  }

  lemma NextKeeps(w: State, e: Event, w': State, discards: bool)
    requires Inv(w, discards) && Next(w, e, w') && Allowed(w, e, discards)
    ensures Inv(w', discards)
  {
    match e
    case TokenUpdate(t, stored) => TokenKeeps(w, w', t, stored, discards);
    case Page(_, _, _, _) => PageKeeps(w, w', e, discards);
    case DidFetch(_, _, _) => DidFetchKeeps(w, w', e, discards);
    case AccountChange => ResetKeeps(w, w', discards);
    case Restart => RestartKeeps(w, w', discards);
    case Sent(_, _, _) => SentKeeps(w, w', e, discards);
    case WillFetch => WillFetchKeeps(w, w', discards);
    case EventFails(error) => EventFailsKeeps(w, w', error, discards);
    case _ => DriverKeeps(w, w', e, discards);
  }

  lemma {:induction false} PathInv(ws: seq<State>, es: seq<Event>, i: nat, discards: bool)
    requires Path(ws, es) && ws[0] == Start && i < |ws| && forall k :: 0 <= k < |es| ==> Allowed(ws[k], es[k], discards)
    ensures Inv(ws[i], discards)
  {
    if i > 0 {
      PathInv(ws, es, i - 1, discards);
      assert Next(ws[i - 1], es[i - 1], ws[i - 1 + 1]);
      NextKeeps(ws[i - 1], es[i - 1], ws[i], discards);
    }
  }

  /** Crash-safe checkpoints: in every state of every run the durable token covers nothing that could be lost. */
  lemma CheckpointsAreSafe(ws: seq<State>, es: seq<Event>, i: nat)
    requires Path(ws, es) && Careful(ws, es) && ws[0] == Start && i < |ws|
    ensures Safe(ws[i])
  {
    PathInv(ws, es, i, false);
  }

  /** The application discards a session after any error; then no condition on resets is needed. */
  lemma DiscardingMakesSafe(ws: seq<State>, es: seq<Event>, i: nat)
    requires Path(ws, es) && Discards(ws, es) && ws[0] == Start && i < |ws|
    ensures Safe(ws[i])
  {
    PathInv(ws, es, i, true);
  }

  /** A restarted session has, or the daemon has applied, everything its engine will not deliver again. */
  lemma RestartSkipsNothing(ws: seq<State>, es: seq<Event>, i: nat)
    requires Path(ws, es) && (Careful(ws, es) || Discards(ws, es)) && ws[0] == Start && i < |es| && es[i].Restart?
    ensures var w := ws[i + 1]; Covered(w.delivered, InMemory(w), {}, w.accepted)
  {
    PathInv(ws, es, i, Discards(ws, es));
    RestartKeeps(ws[i], ws[i + 1], true);
  }

  // ----- the exact limit -----

  /**
   The condition on account resets is exact. When a reset arrives while only a pending retry is
   recorded and something is at stake, the failure that should stop the session is not recorded, and
   the next sync makes a token durable that covers what the reset threw away.
   */
  lemma MaskedResetLosesRecords(w: State) returns (ws: seq<State>, es: seq<Event>)
    requires Inv(w, false) && !ResetIsSticky(w)
    ensures Path(ws, es) && |es| == 4 && ws[0] == w && es[0].AccountChange?
    ensures !Safe(ws[4])
  {
    var w1 := AfterReset(w);
    var w2 := w1.(driver := Idle);
    var w3 := w2.(driver := SendingZone, session := w2.session.(failure := None, appliedRemoteChanges := false));
    var w4 := AfterToken(w3, w.delivered, true);
    ws := [w, w1, w2, w3, w4];
    es := [AccountChange, Abandon, StartSync, TokenUpdate(w.delivered, true)];
    if w.delivered.lifecycle == {} {
      var id :| id in HeadIds(w.delivered.domain);
      var c :| c in w.delivered.domain && c.HeadChange? && c.record.id == id;
      assert !Handled(c, OnDisk(w4));
    }
  }

  lemma Extend(ws: seq<State>, es: seq<Event>, e: Event, w': State)
    requires Path(ws, es) && Next(ws[|ws| - 1], e, w')
    ensures Path(ws + [w'], es + [e])
  {
  }

  /** A session that fetched one lifecycle document and made its checkpoint. */
  ghost function Fetched(doc: Doc, driver: Driver): State {
    Start.(driver := driver, accepted := {doc}, delivered := Token({}, {doc}), saved := Saved(None, map[], {doc}))
  }

  ghost function InFetch(docs: set<Doc>): State {
    Start.(driver := Fetching, session := NewSession(None).(fetching := true), fetched := docs,
      delivered := Token({}, docs))
  }

  lemma FetchPage(doc: Doc)
    ensures Next(InFetch({}), Page([], [], {doc}, true), InFetch({doc}))
  {
    assert AfterPage(InFetch({}).session, [], []) == InFetch({doc}).session;
  }

  lemma FetchEnds(doc: Doc)
    ensures Next(InFetch({doc}), DidFetch(Checkpointed, DamagedBatch, []), Fetched(doc, Fetching))
  {
    assert StagedIn(InFetch({doc}).session) == {};
    assert EntityChanges({}) == {};
  }

  /** Such a state is reachable: fetch one lifecycle document, then meet a transient send failure. */
  lemma MaskedResetIsReachable(doc: Doc) returns (ws: seq<State>, es: seq<Event>)
    ensures Path(ws, es) && ws[0] == Start && Careful(ws, es) && !ResetIsSticky(ws[|ws| - 1])
  {
    var sending, fetching := Start.(driver := SendingZone), Start.(driver := Fetching);
    var publishing := Fetched(doc, Publishing);
    var retrying := publishing.(session := publishing.session.(failure := Some(RetryPending)));
    FetchPage(doc);
    FetchEnds(doc);
    ws, es := [Start, sending, fetching, InFetch({})], [StartSync, Proceed, WillFetch];
    assert Path(ws, es);
    Extend(ws, es, Page([], [], {doc}, true), InFetch({doc}));
    ws, es := ws + [InFetch({doc})], es + [Page([], [], {doc}, true)];
    Extend(ws, es, DidFetch(Checkpointed, DamagedBatch, []), Fetched(doc, Fetching));
    ws, es := ws + [Fetched(doc, Fetching)], es + [DidFetch(Checkpointed, DamagedBatch, [])];
    Extend(ws, es, Proceed, publishing);
    ws, es := ws + [publishing], es + [Proceed];
    Extend(ws, es, Sent(Some(RetryPending), [], {}), retrying);
    ws, es := ws + [retrying], es + [Sent(Some(RetryPending), [], {})];
  }
}
