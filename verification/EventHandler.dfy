/**
 `handleEvent` of the session (CloudRecordSyncSession.swift:111-220), written over the actor's fields and the
 lifecycle coordinator it drives. Each handler is one step of the checkpoint machine.
 */
module EventHandler {
  import opened Prelude
  import opened Records
  import opened BootstrapCodec
  import opened BootstrapSnapshot
  import opened BootstrapCoordinator
  import opened SessionState
  import opened CloudServer
  import opened LifecycleServer
  import Checkpoint
  import Inbound
  import Resolver

  /** How far the daemon gets with a batch: refused, applied with a failed clean-up, or applied. */
  datatype Application = Refused | AppliedThenFailed | Applied

  function Coded(e: CoordinatorError): SessionError {
    match e
    case ActivationDidNotApply => ActivationRequired
    case ControlFailure => TransportFailure
    case NotDelivered => TransportFailure
    case _ => DamagedBatch
  }

  /** The account types that invalidate what was cached for another account. */
  datatype AccountChangeType = SignIn | SignOut | SwitchAccounts

  function RequiresRestart(change: AccountChangeType, startedWithCheckpoint: bool): bool {
    if change == SignIn then startedWithCheckpoint else true
  }

  /** The checkpoint file: one atomic cell. */
  datatype Cell = Cell(token: Option<Token>, heads: map<RecordId, Record>, bootstrap: Option<Snapshot>)

  class Session {
    const actor: SessionActor
    const lifecycle: Coordinator
    const zone: string
    const stage: (string, nat, File) -> Option<File>
    const startedWithCheckpoint: bool
    var driver: Checkpoint.Driver
    var heads: map<RecordId, Record>
    var cell: Cell
    ghost var applied: set<Change>
    ghost var learned: seq<Record>
    ghost var delivered: Token

    ghost predicate Valid()
      reads this, lifecycle, actor
    {
      lifecycle.Valid() && FiledById(actor.records)
    }

    ghost function HistoryOf(s: Option<Snapshot>): set<Doc> {
      match s
      case Some(snapshot) => History(lifecycle.wire, lifecycle.vaultID, snapshot)
      case None => {}
    }

    ghost function View(): Checkpoint.State
      reads this, actor, lifecycle
    {
      Checkpoint.State(actor.View(), driver, heads, lifecycle.Accepted(), lifecycle.Fetched(), applied, learned,
        delivered,
                       Checkpoint.Saved(cell.token, cell.heads, HistoryOf(cell.bootstrap)))
    }

    /** A session restored from the checkpoint cell; `stage` is the content-addressed asset store. */
    constructor (vaultID: string, cell: Cell, stage: (string, nat, File) -> Option<File>, ghost applied: set<Change>,
        ghost learned: seq<Record>)
      requires ValidVault(vaultID)
      ensures Valid() && fresh(actor) && fresh(lifecycle) && this.cell == cell && this.applied == applied
        && this.learned == learned
      ensures forall w: Checkpoint.State :: w.saved == View().saved && w.applied == applied && w.learned == learned ==>
        View() == Checkpoint.AfterRestart(w)
    {
      actor := new SessionActor(cell.token);
      lifecycle := new Coordinator(vaultID, cell.bootstrap);
      zone, this.stage := Zone(vaultID), stage;
      startedWithCheckpoint := cell.token.Some?;
      driver, heads, this.cell := Checkpoint.Idle, cell.heads, cell;
      this.applied, this.learned, delivered := applied, learned, Checkpoint.Coverage(cell.token);
    }

    /** A state token: kept in memory, made durable only outside a fetch, ignored after a failure. */
    method StateUpdate(token: Token, stored: bool)
      requires Valid() && token.domain <= delivered.domain && token.lifecycle <= delivered.lifecycle
      modifies this, actor
      ensures Valid() && Checkpoint.Next(old(View()), Checkpoint.TokenUpdate(token, stored), View())
    {
      if actor.failure.Some? {
        return;
      }
      var checkpoint := actor.ObserveEngineState(token);
      if checkpoint.None? {
        return;
      }
      if stored {
        cell := Cell(checkpoint, heads, lifecycle.accepted);
      } else {
        actor.RecordFailure(TransportFailure);
      }
    }

    /** An account change that matters clears the cell and every cache, then stops the session. */
    method AccountChanged(change: AccountChangeType)
      requires Valid()
      modifies this, actor, lifecycle
      ensures Valid()
      ensures change == SignOut || change == SwitchAccounts || startedWithCheckpoint ==>
        && Checkpoint.Next(old(View()), Checkpoint.AccountChange, View())
        && cell == Cell(None, map[], None) && heads == map[] && lifecycle.accepted == None && actor.failure.Some?
      ensures change == SignIn && !startedWithCheckpoint ==> View() == old(View()) && cell == old(cell)
    {
      if !RequiresRestart(change, startedWithCheckpoint) {
        return;
      }
      cell := Cell(None, map[], None);
      heads := map[];
      lifecycle.ResetTransportCache();
      actor.ResetTransportCache();
      actor.RecordFailure(SessionError.AccountChanged);
    }

    method WillFetch()
      requires Valid() && driver == Checkpoint.Fetching
      modifies actor
      ensures Valid() && Checkpoint.Next(old(View()), Checkpoint.WillFetch, View())
    {
      var begun := actor.BeginZoneFetch();
      if begun.Err? {
        actor.RecordFailure(begun.error);
      }
    }

    /** No lifecycle record was deleted, and those of the page decode and contradict nothing staged. */
    ghost predicate PageFits(records: seq<Record>, deleted: seq<RecordId>)
      reads lifecycle
    {
      NoneOwned(lifecycle.vaultID, deleted) && Stageable(lifecycle.wire, lifecycle.Fetched(), records)
    }

    /** One page: its lifecycle records go to the coordinator, the rest to the actor's staging. */
    method FetchedPage(records: seq<Record>, deleted: seq<RecordId>) returns (ghost staged: bool)
      requires Valid() && driver == Checkpoint.Fetching
      modifies this, actor, lifecycle
      ensures Valid()
      ensures Checkpoint.Next(old(View()),
        Checkpoint.Page(Domain(records), deleted, Docs(lifecycle.wire, Lifecycle(records)), staged), View())
      ensures staged <==> old(PageFits(records, deleted))
    {
      ghost var docs := Docs(lifecycle.wire, Lifecycle(records));
      var partition := lifecycle.StageFetched(records, deleted);
      delivered := Token(delivered.domain + PageChanges(Domain(records), deleted), delivered.lifecycle + docs);
      staged := partition.Ok?;
      if partition.Err? {
        actor.RecordFailure(DamagedBatch);
        return;
      }
      StageDomain(partition.value.records, partition.value.deleted);
    }

    /** The entity records of a page go to the actor's staging; a duplicate is damage. */
    method StageDomain(records: seq<Record>, deleted: seq<RecordId>)
      requires FiledById(actor.records)
      modifies actor
      ensures actor.View() == Checkpoint.AfterPage(old(actor.View()), records, deleted) && FiledById(actor.records)
    {
      PageStaysFiled(actor.View(), records, deleted);
      var domain := actor.StageFetchedDomain(records, deleted);
      if domain.Err? {
        actor.RecordFailure(DamagedBatch);
      }
    }

    /** How a fetch ends: the checkpoint is written only when every stage went well, and fails only for a cause. */
    twostate predicate Ends(e: EngineEvent, end: Checkpoint.FetchEnd, error: SessionError)
      requires e.FetchEnds?
      reads this, actor, lifecycle
    {
      && (end.Checkpointed? ==>
            && e.zoneMatches && !e.fetchError && old(actor.fetching)
            && Preparable(old(actor.records), old(actor.deleted)) && e.saved
            && (e.application.Applied? || OnlyHeads(old(actor.records)))
            && Reads(e.local, e.validate, e.activate))
      && (!end.Checkpointed? ==>
            || !e.zoneMatches || e.fetchError || old(Unfinishable(e.validate))
            || Unreadable(e.local, e.validate, e.activate)
            || !old(actor.fetching) || !Preparable(old(actor.records), old(actor.deleted)) || !e.saved
            || (lifecycle.accepted.None? && (old(actor.records) != map[] || old(actor.deleted) != {}))
            || !(e.application.Applied? || OnlyHeads(old(actor.records))))
      && (!e.zoneMatches || e.fetchError ==>
            end.NotFinished? && error == if e.zoneMatches then CloudKitFailure else DamagedBatch)
    }

    /** Lifecycle first, then the entity records, then the checkpoint; each stage may fail and ends the session. */
    method DidFetch(zoneMatches: bool, fetchError: bool, local: Result<Snapshot, CoordinatorError>,
                    validate: Snapshot -> Result<Snapshot, CoordinatorError>,
                    activate: Snapshot -> Result<Activation, CoordinatorError>, application: Application, stored: bool)
      returns (ghost end: Checkpoint.FetchEnd, ghost error: SessionError, ghost stagedHeads: seq<Record>)
      requires Valid() && driver == Checkpoint.Fetching && Honest(lifecycle.wire, lifecycle.vaultID, validate)
      modifies this, actor, lifecycle
      ensures Valid() && Checkpoint.Next(old(View()), Checkpoint.DidFetch(end, error, stagedHeads), View())
      ensures Ends(FetchEnds(zoneMatches, fetchError, local, validate, activate, application, stored), end, error)
    {
      if !zoneMatches || fetchError {
        var cause := if zoneMatches then CloudKitFailure else DamagedBatch;
        actor.RecordFailure(cause);
        return Checkpoint.NotFinished, cause, [];
      }
      end, error, stagedHeads := CompleteFetch(local, validate, activate, application, stored);
    }

    /** The stages after a fetch that went well. */
    method CompleteFetch(local: Result<Snapshot, CoordinatorError>,
        validate: Snapshot -> Result<Snapshot, CoordinatorError>,
        activate: Snapshot -> Result<Activation, CoordinatorError>, application: Application, stored: bool)
      returns (ghost end: Checkpoint.FetchEnd, ghost error: SessionError, ghost stagedHeads: seq<Record>)
      requires Valid() && Honest(lifecycle.wire, lifecycle.vaultID, validate)
      modifies this, actor, lifecycle
      ensures Valid() && error != RetryPending
      ensures View() == Checkpoint.AfterDidFetch(old(View()), end, error, stagedHeads)
      ensures end.NotSaved? || end.Checkpointed?
        ==> Checkpoint.ListsHeads(stagedHeads, Checkpoint.StagedIn(old(actor.View())))
      ensures Ends(FetchEnds(true, false, local, validate, activate, application, stored), end, error)
    {
      ghost var before := View();
      var authenticated;
      ghost var finished;
      authenticated, finished := AcceptReadable(local, validate, activate);
      if authenticated.Err? {
        StopsAt(before, finished, authenticated.error);
        return if finished then Checkpoint.LifecycleOnly else Checkpoint.NotFinished, authenticated.error, [];
      }
      end, error, stagedHeads := ApplyAndCheckpoint(authenticated.value, application, stored);
      GoesOn(before, end, error, stagedHeads);
    }

    /** The lifecycle stages of "did fetch": the staged documents are accepted, and must be readable. */
    method AcceptReadable(local: Result<Snapshot, CoordinatorError>,
        validate: Snapshot -> Result<Snapshot, CoordinatorError>,
        activate: Snapshot -> Result<Activation, CoordinatorError>)
      returns (r: Result<bool, SessionError>, ghost finished: bool)
      requires Valid() && Honest(lifecycle.wire, lifecycle.vaultID, validate)
      modifies actor, lifecycle
      ensures Valid() && (r.Err? ==> r.error != RetryPending)
      ensures r.Ok? ==> View() == LifecycleFinished(old(View())) && Reads(local, validate, activate)
      ensures r.Ok? ==> (r.value <==> lifecycle.accepted.Some?)
      ensures r.Err? ==> if finished then Unreadable(local, validate, activate) else old(Unfinishable(validate))
      ensures r.Err? ==>
        var reached := if finished then LifecycleFinished(old(View())) else old(View());
        View() == reached.(session := Recorded(reached.session, r.error))
    {
      var accepted := FinishLifecycle(validate);
      if accepted.Err? {
        return Err(accepted.error), false;
      }
      var readable := CheckReadable(accepted.value, local, activate);
      if readable.Err? {
        return Err(readable.error), true;
      }
      HistoryReads(lifecycle.wire, lifecycle.vaultID, lifecycle.accepted, local, validate, activate, accepted.value);
      return Ok(accepted.value.Some?), true;
    }

    /** The accepted history, if any, is readable by the local store. */
    ghost predicate Reads(local: Result<Snapshot, CoordinatorError>,
        validate: Snapshot -> Result<Snapshot, CoordinatorError>,
        activate: Snapshot -> Result<Activation, CoordinatorError>)
      reads lifecycle
    {
      ReadableHistory(lifecycle.wire, lifecycle.vaultID, lifecycle.accepted, local, validate, activate)
    }

    /** The accepted history is not readable by the local store. */
    ghost predicate Unreadable(local: Result<Snapshot, CoordinatorError>,
        validate: Snapshot -> Result<Snapshot, CoordinatorError>,
        activate: Snapshot -> Result<Activation, CoordinatorError>)
      reads lifecycle
    {
      exists s :: Judged(lifecycle.accepted, validate, Some(s))
        && !ReadableSnapshot(lifecycle.wire, lifecycle.vaultID, local, s, activate)
    }

    /** The lifecycle documents staged so far cannot be accepted, or the accepted ones not confirmed. */
    ghost predicate Unfinishable(validate: Snapshot -> Result<Snapshot, CoordinatorError>)
      reads lifecycle
    {
      if lifecycle.fetched == map[] then lifecycle.accepted.Some? && validate(lifecycle.accepted.value).Err?
      else lifecycle.CannotFinish(validate)
    }

    /** Nothing was deleted and every staged record can be read and its asset staged. */
    ghost predicate Preparable(records: map<RecordId, Record>, deleted: set<RecordId>) {
      deleted == {} && forall id :: id in records ==> Readable(records[id])
    }

    ghost predicate Readable(r: Record) {
      Inbound.ReadRecord(zone, stage, r).Ok?
    }

    /** The staged lifecycle documents join the accepted history, or the failure is recorded. */
    method FinishLifecycle(validate: Snapshot -> Result<Snapshot, CoordinatorError>)
        returns (r: Result<Option<Snapshot>, SessionError>)
      requires Valid() && Honest(lifecycle.wire, lifecycle.vaultID, validate)
      modifies actor, lifecycle
      ensures Valid() && (r.Err? ==> r.error != RetryPending)
      ensures View() == if r.Ok? then LifecycleFinished(old(View()))
        else old(View()).(session := Recorded(old(View()).session, r.error))
      ensures r.Ok? ==> Judged(lifecycle.accepted, validate, r.value)
      ensures r.Err? ==> old(Unfinishable(validate))
    {
      var accepted := lifecycle.FinishFetch(validate);
      if accepted.Err? {
        actor.RecordFailure(Coded(accepted.error));
        return Err(Coded(accepted.error));
      }
      assert lifecycle.Fetched() == {};
      return Ok(accepted.value);
    }

    /** Both snapshots can be flattened, and so compared. */
    ghost predicate Comparable(local: Result<Snapshot, CoordinatorError>, accepted: Option<Snapshot>) {
      && local.Ok? && accepted.Some? && RecordsFor(lifecycle.wire, lifecycle.vaultID, local.value).Ok?
      && RecordsFor(lifecycle.wire, lifecycle.vaultID, accepted.value).Ok?
    }

    ghost predicate Contradict(local: Result<Snapshot, CoordinatorError>, accepted: Option<Snapshot>) {
      && local.Ok? && accepted.Some?
      && !OneDocPerKey(History(lifecycle.wire, lifecycle.vaultID, local.value)
                       + History(lifecycle.wire, lifecycle.vaultID, accepted.value))
    }

    method CheckReadable(accepted: Option<Snapshot>, local: Result<Snapshot, CoordinatorError>,
                         activate: Snapshot -> Result<Activation, CoordinatorError>)
      returns (r: Result<(), SessionError>)
      requires Valid()
      modifies actor
      ensures Valid() && (r.Err? ==> r.error != RetryPending)
      ensures View() == if r.Ok? then old(View()) else old(View()).(session := Recorded(old(View()).session, r.error))
      ensures r.Ok? <==>
        accepted.None? || ReadableSnapshot(lifecycle.wire, lifecycle.vaultID, local, accepted.value, activate)
      ensures r.Err? && Comparable(local, accepted) ==>
        if !Contradict(local, accepted) && activate(accepted.value).Ok? then r.error == ActivationRequired
        else Contradict(local, accepted) ==> r.error == DamagedBatch
    {
      if accepted.None? {
        return Ok(());
      }
      var readable := lifecycle.EnsureReadable(local, accepted.value, activate);
      if readable.Err? {
        actor.RecordFailure(Coded(readable.error));
        return Err(Coded(readable.error));
      }
      return Ok(());
    }

    /**
     The second half of "did fetch": the staged entity records are prepared and handed to the daemon, the
     heads merged, the fetch committed and the checkpoint saved.
     */
    method ApplyAndCheckpoint(authenticated: bool, application: Application, stored: bool)
      returns (ghost end: Checkpoint.FetchEnd, ghost error: SessionError, ghost stagedHeads: seq<Record>)
      requires Valid() && View().fetched == {}
      modifies this, actor
      ensures Valid() && !end.NotFinished? && error != RetryPending
      ensures end.NotSaved? || end.Checkpointed?
        ==> Checkpoint.ListsHeads(stagedHeads, Checkpoint.StagedIn(old(actor.View())))
      ensures View() == Checkpoint.AfterDidFetch(old(View()), end, error, stagedHeads)
      ensures end.Checkpointed? <==>
        && old(actor.fetching) && (authenticated || (old(actor.records) == map[] && old(actor.deleted) == {}))
        && Preparable(old(actor.records), old(actor.deleted)) && stored
        && (application.Applied? || OnlyHeads(old(actor.records)))
    {
      Composes(View());
      var staged := actor.StagedFetchedDomain();
      if staged.Err? || (!authenticated && (staged.value.0 != map[] || staged.value.1 != {})) {
        actor.RecordFailure(DamagedBatch);
        return Checkpoint.LifecycleOnly, DamagedBatch, [];
      }
      end, error, stagedHeads := ApplyStaged(application, stored);
    }

    /** Prepares the staged records, lets the daemon apply them, and commits. */
    method ApplyStaged(application: Application, stored: bool)
      returns (ghost end: Checkpoint.FetchEnd, ghost error: SessionError, ghost stagedHeads: seq<Record>)
      requires Valid() && View().fetched == {} && actor.fetching
      modifies this, actor
      ensures Valid() && !end.NotFinished? && error == TransportFailure
      ensures end.NotSaved? || end.Checkpointed?
        ==> Checkpoint.ListsHeads(stagedHeads, Checkpoint.StagedIn(old(actor.View())))
      ensures View() == Checkpoint.AfterDidFetch(old(View()), end, error, stagedHeads)
      ensures end.Checkpointed? <==>
        && Preparable(old(actor.records), old(actor.deleted)) && stored
          && (application.Applied? || OnlyHeads(old(actor.records)))
    {
      Composes(View());
      var prepared := PrepareStaged(actor.records, actor.deleted);
      if prepared.None? || (prepared.value.1 && application.Refused?) {
        actor.RecordFailure(TransportFailure);
        return Checkpoint.LifecycleOnly, TransportFailure, [];
      }
      if prepared.value.1 && application.AppliedThenFailed? {
        FailAfterApplying();
        return Checkpoint.AppliedOnly, TransportFailure, [];
      }
      CommitFetch(prepared.value.0, stored);
      return (if stored then Checkpoint.Checkpointed else Checkpoint.NotSaved), TransportFailure, prepared.value.0;
    }

    /** The daemon applied the records, but cleaning up after it failed. */
    method FailAfterApplying()
      requires Valid() && View().fetched == {} && actor.fetching
      modifies this`applied, actor
      ensures Valid() && View() == Checkpoint.AfterDidFetch(old(View()), Checkpoint.AppliedOnly, TransportFailure, [])
    {
      Composes(View());
      applied := applied + Checkpoint.EntityChanges(SessionState.Staged(actor.records, actor.deleted));
      actor.RecordFailure(TransportFailure);
    }

    /** Runs the preparation on the staged records: the heads among them,
      and whether the daemon has anything to apply. */
    method PrepareStaged(records: map<RecordId, Record>, deleted: set<RecordId>)
        returns (r: Option<(seq<Record>, bool)>)
      requires Valid() && FiledById(records)
      ensures r.Some? <==> Preparable(records, deleted)
      ensures r.Some? ==>
        Checkpoint.ListsHeads(r.value.0, SessionState.Staged(records, deleted)) && (r.value.1 <==> !OnlyHeads(records))
    {
      var values := ListValues(records);
      var ids := ListIds(deleted);
      FiledValues(records, values);
      var z, st := zone, stage;
      var read := (r: Record) => Inbound.ReadRecord(z, st, r);
      assert forall r :: r in values ==> (read(r).Ok? <==> Readable(r));
      r := PrepareListed(read, records, values, ids) by {
        Inbound.ReadRecordLaw(z, st);
        Inbound.ReadRecordHeads(z, st);
      }
    }

    method CommitFetch(news: seq<Record>, stored: bool)
      requires Valid() && actor.fetching && View().fetched == {}
      modifies this, actor
      ensures Valid()
      ensures View() == Checkpoint.AfterDidFetch(old(View()), if stored then Checkpoint.Checkpointed
        else Checkpoint.NotSaved, TransportFailure, news)
    {
      Composes(View());
      applied := applied + Checkpoint.EntityChanges(SessionState.Staged(actor.records, actor.deleted));
      heads := Checkpoint.Overlay(heads, news);
      learned := learned + news;
      var token := actor.CommitZoneFetch();
      if stored {
        cell := Cell(token.value, heads, lifecycle.accepted);
      } else {
        actor.RecordFailure(TransportFailure);
      }
    }

    // ----- the events of one engine call -----

    /** One engine event, handled. */
    method HandleEvent(e: EngineEvent) returns (ghost events: seq<Checkpoint.Event>)
      requires Valid() && Expected(lifecycle.wire, lifecycle.vaultID, driver, delivered, e)
      modifies this, actor, lifecycle
      ensures Valid() && driver == old(driver) && Checkpoint.Reaches(old(View()), events, View())
      ensures delivered == DeliveredBy(lifecycle.wire, old(delivered), e)
      ensures if Silent(startedWithCheckpoint, e) then events == []
              else |events| == 1 && Tells(lifecycle.wire, e, events[0])
      ensures e.FetchEnds? ==> Ends(e, events[0].end, events[0].error)
      ensures e.PageArrives? ==> (events[0].lifecycleStaged <==> old(PageFits(e.records, e.deleted)))
    {
      ghost var before := View();
      Checkpoint.ReachesItself(before);
      events := [];
      match e {
        case StateUpdated(token, stored) =>
          StateUpdate(token, stored);
          events := [Checkpoint.TokenUpdate(token, stored)];
        case AccountUpdated(change) =>
          AccountChanged(change);
          events := if change == SignIn && !startedWithCheckpoint then [] else [Checkpoint.AccountChange];
        case _ =>
          ghost var event := HandleFetchEvent(e);
          events := [event];
      }
      if events != [] {
        Checkpoint.ReachesOne(before, events[0], View());
      }
    }

    /** One event of a zone fetch: its beginning, a page or its end. */
    method HandleFetchEvent(e: EngineEvent) returns (ghost event: Checkpoint.Event)
      requires Valid() && Expected(lifecycle.wire, lifecycle.vaultID, driver, delivered, e)
      requires !e.StateUpdated? && !e.AccountUpdated?
      modifies this, actor, lifecycle
      ensures Valid() && driver == old(driver) && Checkpoint.Next(old(View()), event, View())
      ensures delivered == DeliveredBy(lifecycle.wire, old(delivered), e) && Tells(lifecycle.wire, e, event)
      ensures e.FetchEnds? ==> Ends(e, event.end, event.error)
      ensures e.PageArrives? ==> (event.lifecycleStaged <==> old(PageFits(e.records, e.deleted)))
    {
      match e {
        case FetchBegins =>
          WillFetch();
          event := Checkpoint.WillFetch;
        case PageArrives(records, deleted) =>
          ghost var staged := FetchedPage(records, deleted);
          event := Checkpoint.Page(Domain(records), deleted, Docs(lifecycle.wire, Lifecycle(records)), staged);
        case FetchEnds(zoneMatches, fetchError, local, validate, activate, application, stored) =>
          ghost var end, error, news :=
            DidFetch(zoneMatches, fetchError, local, validate, activate, application, stored);
          event := Checkpoint.DidFetch(end, error, news);
      }
    }

    /** All events of one engine call, in order. */
    method RunEngine(es: seq<EngineEvent>) returns (ghost events: seq<Checkpoint.Event>)
      requires Valid() && AllExpected(lifecycle.wire, lifecycle.vaultID, driver, delivered, es)
      modifies this, actor, lifecycle
      ensures Valid() && driver == old(driver) && Checkpoint.Reaches(old(View()), events, View())
      ensures delivered == DeliveredAfter(lifecycle.wire, old(delivered), es)
      ensures TellsAll(lifecycle.wire, startedWithCheckpoint, es, events)
    {
      ghost var before := View();
      Checkpoint.ReachesItself(before);
      events := [];
      for i := 0 to |es|
        invariant Valid() && driver == old(driver) && Checkpoint.Reaches(before, events, View())
        invariant TellsAll(lifecycle.wire, startedWithCheckpoint, es[..i], events)
        invariant delivered == DeliveredAfter(lifecycle.wire, old(delivered), es[..i])
      {
        events := HandleNext(before, events, old(delivered), es, i);
      }
      assert es[..|es|] == es;
    }

    /** The next event of the call, after `so` for the ones before. */
    method HandleNext(ghost before: Checkpoint.State, ghost so: seq<Checkpoint.Event>, ghost start: Token,
        es: seq<EngineEvent>, i: nat) returns (ghost events: seq<Checkpoint.Event>)
      requires Valid() && i < |es| && Checkpoint.Reaches(before, so, View())
      requires delivered == DeliveredAfter(lifecycle.wire, start, es[..i])
      requires Expected(lifecycle.wire, lifecycle.vaultID, driver, delivered, es[i])
      requires TellsAll(lifecycle.wire, startedWithCheckpoint, es[..i], so)
      modifies this, actor, lifecycle
      ensures Valid() && driver == old(driver) && Checkpoint.Reaches(before, events, View())
      ensures delivered == DeliveredAfter(lifecycle.wire, start, es[..i + 1])
      ensures TellsAll(lifecycle.wire, startedWithCheckpoint, es[..i + 1], events)
    {
      ghost var mid := View();
      ghost var more := HandleEvent(es[i]);
      Checkpoint.ReachesOn(before, so, mid, more, View());
      TellsMore(lifecycle.wire, startedWithCheckpoint, es, i, so, more);
      events := so + more;
      assert es[..i + 1][..i] == es[..i];
    }

    // ----- `syncNow` -----

    /** A manual sync starts unless a failure other than a pending retry is recorded. */
    method StartSync() returns (r: Result<(), SessionError>)
      requires Valid() && driver == Checkpoint.Idle
      modifies this, actor
      ensures Valid()
      ensures r.Ok? ==> Checkpoint.Next(old(View()), Checkpoint.StartSync, View())
      ensures r.Err? <==> old(actor.failure).Some? && old(actor.failure) != Some(RetryPending)
      ensures r.Err? ==> View() == old(View()) && actor.failure == Some(r.error) && r.error != RetryPending
    {
      var prepared := actor.PrepareForManualSync();
      if prepared.Err? {
        return Err(prepared.error);
      }
      driver := Checkpoint.SendingZone;
      return Ok(());
    }

    /** `throwRecordedFailure` after the zone was sent, and again after the changes were fetched. */
    method Proceed() returns (r: Result<(), SessionError>)
      requires Valid() && (driver == Checkpoint.SendingZone || (driver == Checkpoint.Fetching && !actor.fetching))
      modifies this
      ensures Valid() && (r.Ok? <==> actor.failure.None?) && (r.Err? ==> actor.failure == Some(r.error))
      ensures Checkpoint.Next(old(View()), if r.Ok? then Checkpoint.Proceed else Checkpoint.Abandon, View())
    {
      if actor.failure.Some? {
        driver := Checkpoint.Idle;
        return Err(actor.failure.value);
      }
      driver := if driver == Checkpoint.SendingZone then Checkpoint.Fetching else Checkpoint.Publishing;
      return Ok(());
    }

    /**
     The lifecycle half: local additions are sent and accepted, and a newer remote state must be readable. A batch
     that is not delivered leaves the failure its report recorded.
     */
    method PublishLifecycle(local: Result<Snapshot, CoordinatorError>, cloud: Cloud, server: Server,
        cause: SessionError, validate: Snapshot -> Result<Snapshot, CoordinatorError>,
        activate: Snapshot -> Result<Activation, CoordinatorError>)
      returns (r: Result<(), SessionError>, server': Server, ghost events: seq<Checkpoint.Event>)
      requires Valid() && driver == Checkpoint.Publishing && Honest(lifecycle.wire, lifecycle.vaultID, validate)
      requires HonestCloud(cloud) && WellFiled(server)
      modifies this, actor, lifecycle
      ensures Valid() && Checkpoint.Reaches(old(View()), events, View())
      ensures r.Ok? ==>
        && events == [Checkpoint.Publish(lifecycle.LocalDocs(local))]
        && lifecycle.LocalDocs(local) <= old(lifecycle.Accepted()) + ServerDocs(lifecycle.wire, server')
        && Reads(local, validate, activate)
      ensures r.Err? ==> driver == Checkpoint.Idle && cell == old(cell)
      ensures r.Err? ==>
        || (old(lifecycle.CannotPublish(local, cloud, server, validate))
            && Checkpoint.PublishFails(lifecycle.LocalDocs(local)) in events)
        || Unreadable(local, validate, activate)
    {
      ghost var before, docs := View(), lifecycle.LocalDocs(local);
      var published, s' := lifecycle.Publish(local, cloud, server, validate);
      server' := s';
      if published.Err? {
        r, events := AbandonPublish(published.error, cause, docs, before);
        return;
      }
      driver := Checkpoint.Completed;
      Checkpoint.ReachesOne(before, Checkpoint.Publish(docs), View());
      r, events := ConfirmReadable(before, Checkpoint.Publish(docs), published.value, local, validate, activate);
    }

    /** The published history must be readable, or the sync ends here. */
    method ConfirmReadable(ghost before: Checkpoint.State, ghost publish: Checkpoint.Event, accepted: Option<Snapshot>,
        local: Result<Snapshot, CoordinatorError>, ghost validate: Snapshot -> Result<Snapshot, CoordinatorError>,
        activate: Snapshot -> Result<Activation, CoordinatorError>)
      returns (r: Result<(), SessionError>, ghost events: seq<Checkpoint.Event>)
      requires Valid() && driver == Checkpoint.Completed && Judged(lifecycle.accepted, validate, accepted)
      requires Checkpoint.Reaches(before, [publish], View())
      modifies this`driver
      ensures Valid() && Checkpoint.Reaches(before, events, View())
      ensures r.Ok? ==> events == [publish] && driver == Checkpoint.Completed && Reads(local, validate, activate)
      ensures r.Err? ==> driver == Checkpoint.Idle && Unreadable(local, validate, activate)
    {
      var readable := CheckPublished(accepted, local, activate);
      if readable.Err? {
        ghost var completed := View();
        driver := Checkpoint.Idle;
        Checkpoint.ReachesMore(before, [publish], completed, Checkpoint.Abandon, View());
        return Err(readable.error), [publish] + [Checkpoint.Abandon];
      }
      HistoryReads(lifecycle.wire, lifecycle.vaultID, lifecycle.accepted, local, validate, activate, accepted);
      r, events := Ok(()), [publish];
    }

    /** The lifecycle half failed: what was staged stays staged, nothing was accepted. */
    method AbandonPublish(error: CoordinatorError, cause: SessionError, ghost docs: set<Doc>,
        ghost before: Checkpoint.State)
      returns (r: Result<(), SessionError>, ghost events: seq<Checkpoint.Event>)
      requires Valid() && driver == Checkpoint.Publishing && before.driver == Checkpoint.Publishing
      requires View() == before.(fetched := View().fetched) && before.fetched <= View().fetched <= before.fetched + docs
      modifies this, actor
      ensures Valid() && r.Err? && driver == Checkpoint.Idle && cell == old(cell)
      ensures Checkpoint.Reaches(before, events, View()) && Checkpoint.PublishFails(docs) in events
      ensures r.error == (if error == NotDelivered then cause else Coded(error))
    {
      ghost var mid := before;
      events := [];
      if error == NotDelivered {
        actor.RecordFailure(cause);
        mid := before.(session := Recorded(before.session, cause));
        events := [Checkpoint.Sent(Some(cause), [], {})];
        SentNothing(before, cause, mid);
      } else {
        Checkpoint.ReachesItself(before);
      }
      driver := Checkpoint.Idle;
      Checkpoint.ReachesMore(before, events, mid, Checkpoint.PublishFails(docs), View());
      events := events + [Checkpoint.PublishFails(docs)];
      return Err(if error == NotDelivered then cause else Coded(error)), events;
    }

    method CheckPublished(accepted: Option<Snapshot>, local: Result<Snapshot, CoordinatorError>,
        activate: Snapshot -> Result<Activation, CoordinatorError>) returns (r: Result<(), SessionError>)
      requires Valid()
      ensures r.Ok? <==>
        accepted.None? || ReadableSnapshot(lifecycle.wire, lifecycle.vaultID, local, accepted.value, activate)
      ensures r.Err? && Comparable(local, accepted) ==>
        if !Contradict(local, accepted) && activate(accepted.value).Ok? then r.error == ActivationRequired
        else Contradict(local, accepted) ==> r.error == DamagedBatch
    {
      if accepted.None? {
        return Ok(());
      }
      var readable := lifecycle.EnsureReadable(local, accepted.value, activate);
      return if readable.Ok? then Ok(()) else Err(Coded(readable.error));
    }

    /** `saveLatestCheckpoint`. */
    method SaveLatest(stored: bool) returns (r: Result<(), SessionError>)
      requires Valid() && driver == Checkpoint.Completed
      modifies this
      ensures Valid() && (r.Ok? <==> stored)
      ensures Checkpoint.Next(old(View()), if r.Ok? then Checkpoint.SaveLatest else Checkpoint.Abandon, View())
    {
      if !stored {
        driver := Checkpoint.Idle;
        return Err(TransportFailure);
      }
      cell := Cell(actor.latest, heads, lifecycle.accepted);
      driver := Checkpoint.Draining;
      return Ok(());
    }

    /**
     `syncNow` up to the outbound loop: the zone is sent, changes are fetched, the lifecycle half is published and the
     checkpoint saved. Whatever the engine reports and wherever it stops, the whole call is a run of the checkpoint
     machine.
     */
    method SyncNow(sending: seq<EngineEvent>, fetching: seq<EngineEvent>, local: Result<Snapshot, CoordinatorError>,
        cloud: Cloud, server: Server, cause: SessionError, validate: Snapshot -> Result<Snapshot, CoordinatorError>,
        activate: Snapshot -> Result<Activation, CoordinatorError>, stored: bool)
      returns (r: Result<(), SessionError>, ghost events: seq<Checkpoint.Event>)
      requires Valid() && driver == Checkpoint.Idle && Honest(lifecycle.wire, lifecycle.vaultID, validate)
      requires HonestCloud(cloud) && WellFiled(server)
      requires AllExpected(lifecycle.wire, lifecycle.vaultID, Checkpoint.SendingZone, delivered, sending)
      requires AllExpected(lifecycle.wire, lifecycle.vaultID, Checkpoint.Fetching,
        DeliveredAfter(lifecycle.wire, delivered, sending), fetching)
      modifies this, actor, lifecycle
      ensures Valid() && Checkpoint.Reaches(old(View()), events, View())
      ensures driver == if r.Ok? then Checkpoint.Draining else Checkpoint.Idle
      ensures r.Ok? ==> stored && View().saved == Checkpoint.Saved(actor.latest, heads, lifecycle.Accepted())
      ensures r.Ok? ==> Reads(local, validate, activate)
      ensures r.Ok? ==> exists so ::
        && Fetches(sending, fetching, so)
        && events == so + [Checkpoint.Publish(lifecycle.LocalDocs(local))] + [Checkpoint.SaveLatest]
      ensures r.Err? ==>
        || actor.failure.Some? || actor.fetching || Unreadable(local, validate, activate) || !stored
        || exists docs :: Checkpoint.PublishFails(docs) in events
    {
      ghost var before := View();
      var fetched;
      fetched, events := FetchChanges(sending, fetching);
      if fetched.Err? {
        return Err(fetched.error), events;
      }
      r, events := PublishAndSave(before, events, local, cloud, server, cause, validate, activate, stored);
    }

    /** The second half of `syncNow`: the lifecycle half and the checkpoint. */
    method PublishAndSave(ghost before: Checkpoint.State, ghost so: seq<Checkpoint.Event>,
        local: Result<Snapshot, CoordinatorError>, cloud: Cloud, server: Server, cause: SessionError,
        validate: Snapshot -> Result<Snapshot, CoordinatorError>,
        activate: Snapshot -> Result<Activation, CoordinatorError>, stored: bool)
      returns (r: Result<(), SessionError>, ghost events: seq<Checkpoint.Event>)
      requires Valid() && driver == Checkpoint.Publishing && Honest(lifecycle.wire, lifecycle.vaultID, validate)
      requires HonestCloud(cloud) && WellFiled(server) && Checkpoint.Reaches(before, so, View())
      modifies this, actor, lifecycle
      ensures Valid() && Checkpoint.Reaches(before, events, View())
      ensures driver == if r.Ok? then Checkpoint.Draining else Checkpoint.Idle
      ensures r.Ok? ==> stored && View().saved == Checkpoint.Saved(actor.latest, heads, lifecycle.Accepted())
      ensures r.Ok? ==> Reads(local, validate, activate)
      ensures r.Ok? ==>
        events == so + [Checkpoint.Publish(lifecycle.LocalDocs(local))] + [Checkpoint.SaveLatest]
      ensures r.Err? ==>
        || (old(lifecycle.CannotPublish(local, cloud, server, validate))
            && exists docs :: Checkpoint.PublishFails(docs) in events)
        || Unreadable(local, validate, activate) || !stored
    {
      ghost var mid := View();
      var published, server', more := PublishLifecycle(local, cloud, server, cause, validate, activate);
      Checkpoint.ReachesOn(before, so, mid, more, View());
      events := so + more;
      if published.Err? {
        return Err(published.error), events;
      }
      mid := View();
      r := SaveLatest(stored);
      ghost var last := if r.Ok? then Checkpoint.SaveLatest else Checkpoint.Abandon;
      Checkpoint.ReachesMore(before, events, mid, last, View());
      events := events + [last];
    }

    /** Both engine calls went through, and everything the engine reported in them was handled. */
    ghost predicate Fetches(sending: seq<EngineEvent>, fetching: seq<EngineEvent>, events: seq<Checkpoint.Event>) {
      exists sent, fetched ::
        && TellsAll(lifecycle.wire, startedWithCheckpoint, sending, sent)
        && TellsAll(lifecycle.wire, startedWithCheckpoint, fetching, fetched)
        && events == [Checkpoint.StartSync] + sent + [Checkpoint.Proceed] + fetched + [Checkpoint.Proceed]
    }

    /** The first half of `syncNow`: both engine calls with the checks after them. */
    method FetchChanges(sending: seq<EngineEvent>, fetching: seq<EngineEvent>)
      returns (r: Result<(), SessionError>, ghost events: seq<Checkpoint.Event>)
      requires Valid() && driver == Checkpoint.Idle
      requires AllExpected(lifecycle.wire, lifecycle.vaultID, Checkpoint.SendingZone, delivered, sending)
      requires AllExpected(lifecycle.wire, lifecycle.vaultID, Checkpoint.Fetching,
        DeliveredAfter(lifecycle.wire, delivered, sending), fetching)
      modifies this, actor, lifecycle
      ensures Valid() && Checkpoint.Reaches(old(View()), events, View())
      ensures driver == if r.Ok? then Checkpoint.Publishing else Checkpoint.Idle
      ensures r.Ok? ==> actor.failure.None? && !actor.fetching
      ensures r.Err? ==> actor.failure.Some? || actor.fetching
      ensures r.Ok? ==> Fetches(sending, fetching, events)
    {
      ghost var before := View();
      Checkpoint.ReachesItself(before);
      var started := StartSync();
      if started.Err? {
        return Err(started.error), [];
      }
      Checkpoint.ReachesOne(before, Checkpoint.StartSync, View());
      r, events := EngineCall(before, [Checkpoint.StartSync], sending);
      if r.Ok? {
        r, events := EngineCall(before, events, fetching);
      }
    }

    /** One engine call and `throwRecordedFailure`. A fetch that did not end is an engine error. */
    method EngineCall(ghost before: Checkpoint.State, ghost so: seq<Checkpoint.Event>, es: seq<EngineEvent>)
      returns (r: Result<(), SessionError>, ghost events: seq<Checkpoint.Event>)
      requires Valid() && (driver == Checkpoint.SendingZone || driver == Checkpoint.Fetching)
      requires AllExpected(lifecycle.wire, lifecycle.vaultID, driver, delivered, es)
      requires Checkpoint.Reaches(before, so, View())
      modifies this, actor, lifecycle
      ensures Valid() && Checkpoint.Reaches(before, events, View())
      ensures delivered == DeliveredAfter(lifecycle.wire, old(delivered), es)
      ensures r.Err? ==> driver == Checkpoint.Idle
      ensures r.Ok? <==> actor.failure.None? && (old(driver) == Checkpoint.Fetching ==> !actor.fetching)
      ensures exists told ::
        && TellsAll(lifecycle.wire, startedWithCheckpoint, es, told)
        && events == so + told + [if r.Ok? then Checkpoint.Proceed else Checkpoint.Abandon]
      ensures r.Ok? ==>
        driver == if old(driver) == Checkpoint.SendingZone then Checkpoint.Fetching else Checkpoint.Publishing
    {
      ghost var mid := View();
      ghost var more := RunEngine(es);
      Checkpoint.ReachesOn(before, so, mid, more, View());
      events := so + more;
      mid := View();
      ghost var last := Checkpoint.Abandon;
      if driver == Checkpoint.Fetching && actor.fetching {
        driver := Checkpoint.Idle;
        r := Err(CloudKitFailure);
      } else {
        r := Proceed();
        last := if r.Ok? then Checkpoint.Proceed else Checkpoint.Abandon;
      }
      Checkpoint.ReachesMore(before, events, mid, last, View());
      events := events + [last];
    }

    /**
     `send` with the handling of its report. The engine may throw after its delegate was done; that is swallowed
     only when the batch was handled, nothing is recorded and the failure is partial.
     */
    method SendBatch(phase: Resolver.Phase, report: BatchReport, engineThrows: Option<bool>)
      returns (r: Result<(), SessionError>, ghost events: seq<Checkpoint.Event>)
      requires Valid() && driver == Checkpoint.Draining
      modifies this, actor
      ensures Valid() && (r.Ok? ==> driver == Checkpoint.Draining) && (r.Err? ==> driver == Checkpoint.Idle)
      ensures r.Ok? <==>
        && old(actor.phase).None? && old(actor.failure).None? && report.Handled?
        && (engineThrows.None? || engineThrows.value)
      ensures Checkpoint.Reaches(old(View()), events, View())
      ensures r.Ok? ==> actor.phase.None? && events == [Checkpoint.Sent(None, report.news, {})]
    {
      ghost var before := View();
      var begun := actor.Begin(phase);
      if begun.Err? {
        driver := Checkpoint.Idle;
        Checkpoint.ReachesOne(before, Checkpoint.Abandon, View());
        return Err(begun.error), [Checkpoint.Abandon];
      }
      HandleReport(phase, report);
      r := CloseSend(phase, engineThrows);
      ghost var sent := View().(driver := Checkpoint.Draining);
      ReportIsSent(before, phase, report, sent);
      events := [ReportEvent(report)];
      if r.Err? {
        Checkpoint.ReachesMore(before, events, sent, Checkpoint.Abandon, View());
        events := events + [Checkpoint.Abandon];
      }
    }

    /** How `send` ends once the report was handled. */
    method CloseSend(phase: Resolver.Phase, engineThrows: Option<bool>) returns (r: Result<(), SessionError>)
      requires Valid() && driver == Checkpoint.Draining
      modifies this`driver, actor`phase
      ensures r.Ok? <==> actor.failure.None? && old(actor.phase).None? && (engineThrows.None? || engineThrows.value)
      ensures driver == (if r.Ok? then Checkpoint.Draining else Checkpoint.Idle) && (r.Ok? ==> actor.phase.None?)
    {
      if engineThrows.Some? {
        var disposition := actor.Disposition(engineThrows.value);
        if disposition.DelegateAccepted? {
          return Ok(());
        }
        actor.Finish(phase);
        driver := Checkpoint.Idle;
        return Err(if disposition.RecordedFailure? then disposition.failure else CloudKitFailure);
      }
      if actor.failure.Some? {
        driver := Checkpoint.Idle;
        return Err(actor.failure.value);
      }
      if actor.phase.Some? {
        driver := Checkpoint.Idle;
        return Err(RetryPending);
      }
      return Ok(());
    }

    /** `handleSentRecords` as far as the checkpoint is concerned: heads are merged, the phase ends, failures kept. */
    method HandleReport(phase: Resolver.Phase, report: BatchReport)
      requires Valid() && actor.phase == Some(phase)
      modifies this`heads, this`learned, actor
      ensures Valid()
      ensures View() == AfterReport(old(View()), report)
    {
      match report {
        case Handled(news) =>
          heads := Checkpoint.Overlay(heads, news);
          learned := learned + news;
          actor.Finish(phase);
        case HandledRetry =>
          actor.Finish(phase);
          actor.RecordFailure(RetryPending);
        case Mishandled(news, error) =>
          heads := Checkpoint.Overlay(heads, news);
          learned := learned + news;
          actor.RecordFailure(error);
        case NotReported =>
      }
    }
  }

  /** The effect of a report on a session that waits for it. */
  ghost function AfterReport(w: Checkpoint.State, report: BatchReport): Checkpoint.State {
    match report
    case Handled(news) =>
      w.(session := w.session.(phase := None), heads := Checkpoint.Overlay(w.heads, news), learned := w.learned + news)
    case HandledRetry => w.(session := Recorded(w.session, RetryPending).(phase := None))
    case Mishandled(news, error) =>
      w.(session := Recorded(w.session, error), heads := Checkpoint.Overlay(w.heads, news), learned := w.learned + news)
    case NotReported => w
  }

  ghost function ReportEvent(report: BatchReport): Checkpoint.Event {
    match report
    case Handled(news) => Checkpoint.Sent(None, news, {})
    case HandledRetry => Checkpoint.Sent(Some(RetryPending), [], {})
    case Mishandled(news, error) => Checkpoint.Sent(Some(error), news, {})
    case NotReported => Checkpoint.Sent(None, [], {})
  }

  /** Up to the batch in progress, handling a report is one step of the checkpoint machine. */
  lemma ReportIsSent(w: Checkpoint.State, phase: Resolver.Phase, report: BatchReport, w': Checkpoint.State)
    requires w.driver == Checkpoint.Draining
    requires var begun := w.(session := w.session.(phase := Some(phase)));
      w' == AfterReport(begun, report).(session := AfterReport(begun, report).session.(phase := w'.session.phase))
    ensures Checkpoint.Reaches(w, [ReportEvent(report)], w')
  {
    assert w.learned + [] == w.learned && w.applied + {} == w.applied;
    Checkpoint.ReachesOne(w, ReportEvent(report), w');
  }

  lemma SentNothing(w: Checkpoint.State, cause: SessionError, w': Checkpoint.State)
    requires w.driver == Checkpoint.Publishing && w' == w.(session := Recorded(w.session, cause))
    ensures Checkpoint.Reaches(w, [Checkpoint.Sent(Some(cause), [], {})], w')
  {
    assert w.learned + [] == w.learned && w.applied + {} == w.applied;
    Checkpoint.ReachesOne(w, Checkpoint.Sent(Some(cause), [], {}), w');
  }

  /** What the engine may tell its delegate during a call. */
  datatype EngineEvent =
    | StateUpdated(token: Token, stored: bool)
    | AccountUpdated(change: AccountChangeType)
    | FetchBegins
    | PageArrives(records: seq<Record>, deleted: seq<RecordId>)
    | FetchEnds(zoneMatches: bool, fetchError: bool, local: Result<Snapshot, CoordinatorError>,
        validate: Snapshot -> Result<Snapshot, CoordinatorError>,
        activate: Snapshot -> Result<Activation, CoordinatorError>, application: Application, saved: bool)

  /** An event that changes nothing: the sign-in a fresh engine reports. */
  predicate Silent(startedWithCheckpoint: bool, e: EngineEvent) {
    e == AccountUpdated(SignIn) && !startedWithCheckpoint
  }

  /** The step of the checkpoint machine stands for this engine event. */
  ghost predicate Tells(w: Wire, e: EngineEvent, event: Checkpoint.Event) {
    match e
    case StateUpdated(token, stored) => event == Checkpoint.TokenUpdate(token, stored)
    case AccountUpdated(_) => event == Checkpoint.AccountChange
    case FetchBegins => event == Checkpoint.WillFetch
    case PageArrives(records, deleted) =>
      && event.Page? && event.records == Domain(records) && event.deleted == deleted
      && event.docs == Docs(w, Lifecycle(records))
    case FetchEnds(_, _, _, _, _, _, _) => event.DidFetch?
  }

  /** The steps stand for the engine events, one for each that is not silent, in their order. */
  ghost predicate TellsAll(w: Wire, started: bool, es: seq<EngineEvent>, events: seq<Checkpoint.Event>) {
    if es == [] then events == []
    else
      var n, m := |es| - 1, |events| - 1;
      if Silent(started, es[n]) then TellsAll(w, started, es[..n], events)
      else m >= 0 && Tells(w, es[n], events[m]) && TellsAll(w, started, es[..n], events[..m])
  }

  lemma TellsMore(w: Wire, started: bool, es: seq<EngineEvent>, i: nat, events: seq<Checkpoint.Event>,
      more: seq<Checkpoint.Event>)
    requires i < |es| && TellsAll(w, started, es[..i], events)
    requires if Silent(started, es[i]) then more == [] else |more| == 1 && Tells(w, es[i], more[0])
    ensures TellsAll(w, started, es[..i + 1], events + more)
  {
    assert es[..i + 1][..i] == es[..i];
    if Silent(started, es[i]) {
      assert events + more == events;
    } else {
      assert (events + more)[..|events|] == events;
    }
  }

  /** What the engine has delivered after an event. */
  ghost function DeliveredBy(w: Wire, delivered: Token, e: EngineEvent): Token {
    match e
    case PageArrives(records, deleted) =>
      Token(delivered.domain + PageChanges(Domain(records), deleted),
        delivered.lifecycle + Docs(w, Lifecycle(records)))
    case _ => delivered
  }

  ghost function DeliveredAfter(w: Wire, delivered: Token, es: seq<EngineEvent>): Token {
    if es == [] then delivered
    else DeliveredBy(w, DeliveredAfter(w, delivered, es[..|es| - 1]), es[|es| - 1])
  }

  /** Pages and the end of a fetch come only while changes are fetched; a token covers only what was delivered. */
  ghost predicate Expected(w: Wire, vaultID: string, driver: Checkpoint.Driver, delivered: Token, e: EngineEvent) {
    match e
    case StateUpdated(token, _) => token.domain <= delivered.domain && token.lifecycle <= delivered.lifecycle
    case AccountUpdated(_) => true
    case FetchEnds(_, _, _, validate, _, _, _) => driver == Checkpoint.Fetching && Honest(w, vaultID, validate)
    case _ => driver == Checkpoint.Fetching
  }

  ghost predicate AllExpected(w: Wire, vaultID: string, driver: Checkpoint.Driver, delivered: Token,
      es: seq<EngineEvent>) {
    forall i :: 0 <= i < |es| ==> Expected(w, vaultID, driver, DeliveredAfter(w, delivered, es[..i]), es[i])
  }

  /** What became of a sent batch: handled, to be retried, failed part way, or never reported. */
  datatype BatchReport =
    | Handled(news: seq<Record>)
    | HandledRetry
    | Mishandled(news: seq<Record>, error: SessionError)
    | NotReported

  /** Prepares a listing of filed records; the heads are listed again for the merge. */
  method PrepareListed(read: Record -> Result<Inbound.Entry, Inbound.InboundError>,
      ghost records: map<RecordId, Record>,
      values: seq<Record>, ids: seq<RecordId>) returns (r: Option<(seq<Record>, bool)>)
    requires Inbound.ReadLaw(read) && Inbound.HeadLaw(read) && FiledById(records) && Resolver.DistinctIds(values)
    requires forall r :: r in values <==> r.id in records && records[r.id] == r
    ensures r.Some? <==> ids == [] && forall v :: v in values ==> read(v).Ok?
    ensures r.Some? ==>
      Checkpoint.ListsHeads(r.value.0, SessionState.Staged(records, {})) && (r.value.1 <==> !OnlyHeads(records))
  {
    var prepared := Inbound.PrepareInbound(read, values, ids);
    Inbound.PreparesIff(read, values, ids);
    if prepared.Err? {
      return None;
    }
    Inbound.PreparedHeads(read, values);
    var news := ListHeads(prepared.value.heads);
    NewsListsHeads(records, values, prepared.value.heads, news);
    EntitiesPrepared(read, values, records);
    return Some((news, Inbound.HasDomainRecords(prepared.value)));
  }

  /** The staged lifecycle documents are accepted; nothing else happened yet. */
  function LifecycleFinished(w: Checkpoint.State): Checkpoint.State {
    w.(accepted := w.accepted + w.fetched, fetched := {})
  }

  /** The lifecycle stages of "did fetch" failed, before or after the staged documents were accepted. */
  lemma StopsAt(w: Checkpoint.State, finished: bool, error: SessionError)
    ensures var reached := if finished then LifecycleFinished(w) else w;
      Checkpoint.AfterDidFetch(w, if finished then Checkpoint.LifecycleOnly else Checkpoint.NotFinished, error, [])
        == reached.(session := Recorded(reached.session, error))
  {
  }

  lemma GoesOn(w: Checkpoint.State, end: Checkpoint.FetchEnd, error: SessionError, news: seq<Record>)
    ensures !end.NotFinished? ==>
      Checkpoint.AfterDidFetch(LifecycleFinished(w), end, error, news) == Checkpoint.AfterDidFetch(w, end, error, news)
  {
    Composes(w);
  }

  /** The later stages of "did fetch" start from the finished lifecycle. */
  lemma Composes(w: Checkpoint.State)
    ensures forall end: Checkpoint.FetchEnd, error: SessionError, news: seq<Record> :: !end.NotFinished? ==>
      Checkpoint.AfterDidFetch(LifecycleFinished(w), end, error, news) == Checkpoint.AfterDidFetch(w, end, error, news)
    ensures w.fetched == {} ==> LifecycleFinished(w) == w
  {
    assert w.accepted + w.fetched + {} == w.accepted + w.fetched;
    assert w.fetched == {} ==> w.accepted + w.fetched == w.accepted;
  }

  // ----- listing dictionaries -----

  ghost predicate OnlyHeads(records: map<RecordId, Record>) {
    forall id :: id in records ==> records[id].kind == HeadType
  }

  method ListIds(ids: set<RecordId>) returns (s: seq<RecordId>)
    ensures forall id :: id in s <==> id in ids
    ensures s == [] <==> ids == {}
  {
    s := [];
    var pending := ids;
    while pending != {}
      invariant pending <= ids && (s == [] <==> pending == ids)
      invariant forall id :: id in s <==> id in ids && id !in pending
      decreases pending
    {
      var id :| id in pending;
      s, pending := s + [id], pending - {id};
    }
  }

  method ListHeads(m: map<string, Record>) returns (s: seq<Record>)
    requires forall e, e' :: e in m && e' in m && m[e] == m[e'] ==> e == e'
    ensures Distinct(s) && forall r :: r in s <==> r in m.Values
  {
    s := [];
    var pending := m.Keys;
    while pending != {}
      invariant pending <= m.Keys && Distinct(s)
      invariant forall r :: r in s <==> exists e :: e in m && e !in pending && m[e] == r
      decreases pending
    {
      var e :| e in pending;
      assert m[e] !in s;
      s, pending := s + [m[e]], pending - {e};
    }
  }

  lemma FiledValues(records: map<RecordId, Record>, values: seq<Record>)
    requires FiledById(records) && Files(records, values) && Resolver.DistinctIds(values)
    ensures forall r :: r in values <==> r.id in records && records[r.id] == r
  {
    forall r | r in values ensures r.id in records && records[r.id] == r {
      assert r.id in Resolver.Ids(values);
      Resolver.SameIdSameRecord(values, records[r.id], r);
    }
  }

  lemma NewsListsHeads(records: map<RecordId, Record>, values: seq<Record>, heads: map<string, Record>,
      news: seq<Record>)
    requires forall r :: r in values <==> r.id in records && records[r.id] == r
    requires FiledById(records) && Distinct(news) && forall r :: r in news <==> r in heads.Values
    requires forall e :: e in heads ==> heads[e] in values && heads[e].kind == HeadType
    requires forall r :: r in values && r.kind == HeadType ==> r in heads.Values
    ensures Checkpoint.ListsHeads(news, SessionState.Staged(records, {}))
  {
    var staged := SessionState.Staged(records, {});
    forall i, j | 0 <= i < j < |news| ensures news[i].id != news[j].id {
      assert news[i] in news && news[j] in news;
    }
    forall r | r in news ensures HeadChange(r) in staged {
      assert r.id in records && ChangeOf(records[r.id]) == HeadChange(r);
    }
    forall c | c in staged && c.HeadChange? ensures c.record in news {
      var id :| id in records && ChangeOf(records[id]) == c;
      assert records[id] in values;
    }
  }

  lemma EntitiesPrepared(read: Record -> Result<Inbound.Entry, Inbound.InboundError>, values: seq<Record>,
      records: map<RecordId, Record>)
    requires FiledById(records) && forall r :: r in values <==> r.id in records && records[r.id] == r
    requires Inbound.ReadLaw(read) && Inbound.HeadLaw(read) && Inbound.Prepare(read, values, []).Ok?
    ensures Inbound.HasDomainRecords(Inbound.Prepare(read, values, []).value) <==> !OnlyHeads(records)
  {
    Inbound.DomainIff(read, values);
    forall id | id in records ensures records[id] in values {
      assert records[id].id == id;
    }
  }
}
