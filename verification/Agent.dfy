/**
 The authorization agent as an interleaving of threads (crates/floria-agent/src/agent.rs:145-476):
 every access runs `authorize` on its own thread; policy changes and revocations run beside it.
 Each step below is one atomic action of the source: a load, one locked section, one cache call.
 The `atomic` parameter joins the generation check with the insert that follows it; the source
 runs them as two steps.
 */
module Agent {
  import opened Prelude
  import opened Policy

  datatype GrantKey = GrantKey(subject: string, object: string, operation: Operation, enforcement: Enforcement)

  datatype Scope = Once | Today | UntilLock | Ttl | AppFile | AppProject | Unspecified

  datatype PromptResult = UserDecision(allow: bool, scope: Scope, ttlSecs: Option<nat>) | NoApp | Timeout

  datatype Lifetime = Timed(ttl: nat) | UntilScreenLock

  const DEFAULT_TTL := 600
  const PERSISTENT_TTL := 24 * 3600
  const MAXIMUM_TTL := 26 * 3600

  /** How long a user's choice is remembered; `todayTtl` is the time left until local midnight. */
  function GrantLifetime(scope: Scope, ttlSecs: Option<nat>, todayTtl: nat): Option<Lifetime> {
    match scope
    case Today => Some(Timed(todayTtl))
    case UntilLock => Some(UntilScreenLock)
    case Ttl => Some(Timed(if ttlSecs.Some? then ttlSecs.value else DEFAULT_TTL))
    case AppFile => Some(Timed(PERSISTENT_TTL))
    case AppProject => Some(Timed(PERSISTENT_TTL))
    case Once => None
    case Unspecified => None
  }

  datatype Rule = ByRule | ByAuditOnly | ByGrant | ByPrompt | FailClosed
  datatype Decision = Decision(allow: bool, rule: Rule)

  /** The decision a prompt ends in: only an explicit allow allows. */
  function PromptDecision(r: PromptResult): Decision {
    match r
    case UserDecision(allow, _, _) => Decision(allow, ByPrompt)
    case NoApp => Decision(false, FailClosed)
    case Timeout => Decision(false, FailClosed)
  }

  /** Where a cached grant comes from; positions refer to the log. */
  datatype Origin = Restored | Remembered(flight: nat, checked: nat, inserted: nat)

  /** `expires` is a point on the monotonic clock; `None` lasts until the screen locks. */
  datatype Grant = Grant(allowed: bool, expires: Option<nat>, origin: Origin)

  datatype Flight = Flight(key: GrantKey, loaded: nat, leader: nat, answer: Option<PromptResult>,
    result: Option<Decision>)

  datatype Event = Bumped(generation: nat) | Cleared | CheckPassed(flight: nat) | Inserted(flight: nat)

  /** Why an access returned. */
  datatype Reason =
    | Ruled(configured: Enforcement)
    | Audited(configured: Enforcement)
    | InFlight(key: GrantKey, flight: nat)
    | Cached(key: GrantKey, grant: Grant, at: nat)

  datatype Thread =
    | Asking(key: GrantKey)
    | Loaded(key: GrantKey, generation: nat)
    | Missed(key: GrantKey, generation: nat)
    | Holding(key: GrantKey, generation: nat)
    | HoldingMissed(key: GrantKey, generation: nat)
    | Prompting(flight: nat)
    | Answered(flight: nat)
    | Inserting(flight: nat, checked: nat)
    | Completing(flight: nat)
    | Removing(flight: nat)
    | Waiting(key: GrantKey, flight: nat)
    | Returned(decision: Decision, reason: Reason)
    | MustClear(bumped: nat)                     // a policy change, mode change or clear-all after its bump
    | Changed(bumped: nat, cleared: nat)         // ... and after its clear

  type FlightKey = (GrantKey, nat)

  datatype State = State(
    generation: nat,
    clock: nat,
    grants: map<GrantKey, Grant>,
    flights: seq<Flight>,
    open: map<FlightKey, nat>,
    lock: Option<nat>,
    threads: map<nat, Thread>,
    log: seq<Event>)

  datatype Step =
    | Authorize(configured: Enforcement, mode: Mode, askKey: GrantKey)
    | Load | Look | Acquire | LookAgain | Join
    | Answer(result: PromptResult)
    | Check(todayTtl: nat)
    | Insert(todayTtl: nat)
    | Complete | Remove | Wake
    | Bump | Clear
    | BumpOnly
    | Shrink(keep: set<GrantKey>)
    | Tick

  // ----- the steps -----

  predicate Live(w: State, key: GrantKey) {
    key in w.grants && (w.grants[key].expires.None? || w.clock < w.grants[key].expires.value)
  }

  function SetThread(w: State, t: nat, pc: Thread): State {
    w.(threads := w.threads[t := pc])
  }

  function FromCache(w: State, key: GrantKey): Thread
    requires key in w.grants
  {
    Returned(Decision(w.grants[key].allowed, ByGrant), Cached(key, w.grants[key], w.clock))
  }

  function Without(grants: map<GrantKey, Grant>, key: GrantKey): map<GrantKey, Grant> {
    map k | k in grants && k != key :: grants[k]
  }

  function RuleThread(configured: Enforcement, effective: Enforcement, key: GrantKey): Thread {
    match effective
    case Allow =>
      if configured != Allow then Returned(Decision(true, ByAuditOnly), Audited(configured))
      else Returned(Decision(true, ByRule), Ruled(configured))
    case Deny => Returned(Decision(false, ByRule), Ruled(configured))
    case _ => Asking(key)
  }

  function Chosen(a: PromptResult, todayTtl: nat): Option<Lifetime> {
    match a
    case UserDecision(_, scope, ttlSecs) => GrantLifetime(scope, ttlSecs, todayTtl)
    case _ => None
  }

  /** The insert of a passed check: a lifetime beyond the daemon's limit is refused. */
  function AfterInsert(w: State, t: nat, f: nat, checked: nat, todayTtl: nat): State
    requires f < |w.flights| && w.flights[f].answer.Some?
  {
    var flight := w.flights[f];
    match Chosen(flight.answer.value, todayTtl)
    case None => SetThread(w, t, Completing(f))
    case Some(life) =>
      if life.Timed? && life.ttl > MAXIMUM_TTL then SetThread(w, t, Completing(f))
      else
        var expires := if life.Timed? then Some(w.clock + life.ttl) else None;
        var grant := Grant(flight.answer.value.allow, expires, Remembered(f, checked, |w.log|));
        SetThread(w.(grants := w.grants[flight.key := grant], log := w.log + [Inserted(f)]), t, Completing(f))
  }

  function AfterCheck(atomic: bool, w: State, t: nat, f: nat, todayTtl: nat): State
    requires f < |w.flights| && w.flights[f].answer.Some?
  {
    if w.generation == w.flights[f].loaded && Chosen(w.flights[f].answer.value, todayTtl).Some? then
      var passed := w.(log := w.log + [CheckPassed(f)]);
      if atomic then AfterInsert(passed, t, f, |w.log|, todayTtl) else SetThread(passed, t, Inserting(f, |w.log|))
    else SetThread(w, t, Completing(f))
  }

  function AfterJoin(w: State, t: nat, key: GrantKey, generation: nat): State {
    var free := w.(lock := None);
    if (key, generation) in w.open then SetThread(free, t, Waiting(key, w.open[(key, generation)]))
    else
      var f := |w.flights|;
      SetThread(free.(flights := w.flights + [Flight(key, generation, t, None, None)],
        open := w.open[(key, generation) := f]), t, Prompting(f))
  }

  function AfterRemove(w: State, t: nat, f: nat): State
    requires f < |w.flights| && w.flights[f].result.Some?
  {
    var flight := w.flights[f];
    var k := (flight.key, flight.loaded);
    var open := if k in w.open && w.open[k] == f then map j | j in w.open && j != k :: w.open[j] else w.open;
    SetThread(w.(open := open), t, Returned(flight.result.value, InFlight(flight.key, f)))
  }

  ghost predicate Next(atomic: bool, w: State, t: nat, s: Step, w': State) {
    match s
    case Authorize(configured, mode, key) =>
      && t !in w.threads
      && var effective := Effective(mode, configured);
      && (effective == Prompt || effective == TouchId ==> key.enforcement == effective)
      && w' == SetThread(w, t, RuleThread(configured, effective, key))
    case Load =>
      t in w.threads && w.threads[t].Asking? && w' == SetThread(w, t, Loaded(w.threads[t].key, w.generation))
    case Look =>
      && t in w.threads && w.threads[t].Loaded?
      && var key := w.threads[t].key;
      w' == if Live(w, key) then SetThread(w, t, FromCache(w, key))
            else SetThread(w.(grants := Without(w.grants, key)), t, Missed(key, w.threads[t].generation))
    case Acquire =>
      && t in w.threads && w.threads[t].Missed? && w.lock.None?
      && w' == SetThread(w.(lock := Some(t)), t, Holding(w.threads[t].key, w.threads[t].generation))
    case LookAgain =>
      && t in w.threads && w.threads[t].Holding?
      && var key := w.threads[t].key;
      w' == if Live(w, key) then SetThread(w.(lock := None), t, FromCache(w, key))
            else SetThread(w.(grants := Without(w.grants, key)), t, HoldingMissed(key, w.threads[t].generation))
    case Join =>
      t in w.threads && w.threads[t].HoldingMissed? && w' == AfterJoin(w, t, w.threads[t].key, w.threads[t].generation)
    case Answer(result) =>
      && t in w.threads && w.threads[t].Prompting? && w.threads[t].flight < |w.flights|
      && var f := w.threads[t].flight;
      w' == SetThread(w.(flights := w.flights[f := w.flights[f].(answer := Some(result))]), t, Answered(f))
    case Check(todayTtl) =>
      && t in w.threads && w.threads[t].Answered? && w.threads[t].flight < |w.flights|
        && w.flights[w.threads[t].flight].answer.Some?
      && w' == AfterCheck(atomic, w, t, w.threads[t].flight, todayTtl)
    case Insert(todayTtl) =>
      && t in w.threads && w.threads[t].Inserting? && w.threads[t].flight < |w.flights|
        && w.flights[w.threads[t].flight].answer.Some?
      && w' == AfterInsert(w, t, w.threads[t].flight, w.threads[t].checked, todayTtl)
    case Complete =>
      && t in w.threads && w.threads[t].Completing? && w.threads[t].flight < |w.flights|
        && w.flights[w.threads[t].flight].answer.Some?
      && var f := w.threads[t].flight;
      w' == SetThread(
        w.(flights := w.flights[f := w.flights[f].(result := Some(PromptDecision(w.flights[f].answer.value)))]),
        t, Removing(f))
    case Remove =>
      && t in w.threads && w.threads[t].Removing? && w.lock.None?
      && w.threads[t].flight < |w.flights| && w.flights[w.threads[t].flight].result.Some?
      && w' == AfterRemove(w, t, w.threads[t].flight)
    case Wake =>
      && t in w.threads && w.threads[t].Waiting? && w.threads[t].flight < |w.flights|
        && w.flights[w.threads[t].flight].result.Some?
      && w' == SetThread(w, t, Returned(w.flights[w.threads[t].flight].result.value,
        InFlight(w.threads[t].key, w.threads[t].flight)))
    case Bump =>
      && t !in w.threads
      && w' == SetThread(w.(generation := w.generation + 1, log := w.log + [Bumped(w.generation + 1)]), t,
        MustClear(|w.log|))
    case Clear =>
      && t in w.threads && w.threads[t].MustClear?
      && w' == SetThread(w.(grants := map[], log := w.log + [Cleared]), t, Changed(w.threads[t].bumped, |w.log|))
    case BumpOnly => w' == w.(generation := w.generation + 1, log := w.log + [Bumped(w.generation + 1)])
    case Shrink(keep) => w' == w.(grants := map k | k in w.grants && k in keep :: w.grants[k])
    case Tick => w'.clock >= w.clock && w' == w.(clock := w'.clock)
  }

  /** A daemon start: grants may be restored from disk, nothing else is going on. */
  ghost predicate Initial(w: State) {
    && w.generation == 0 && w.flights == [] && w.open == map[] && w.lock.None? && w.threads == map[] && w.log == []
    && forall k :: k in w.grants ==> w.grants[k].origin.Restored?
  }

  datatype Action = Action(thread: nat, step: Step)

  ghost predicate Run(atomic: bool, ws: seq<State>, acts: seq<Action>) {
    && |ws| == |acts| + 1 && Initial(ws[0])
    && forall i :: 0 <= i < |acts| ==> Next(atomic, ws[i], acts[i].thread, acts[i].step, ws[i + 1])
  }

  // ----- invariants -----

  /** The checks that passed before a bump are exactly those of older generations. */
  ghost predicate LogOk(w: State) {
    && (forall i :: 0 <= i < |w.log| && w.log[i].Bumped? ==> w.log[i].generation <= w.generation)
    && (forall i :: 0 <= i < |w.log| && w.log[i].CheckPassed? ==> w.log[i].flight < |w.flights|)
    && (forall i, j :: 0 <= i < |w.log| && 0 <= j < |w.log| && w.log[i].CheckPassed? && w.log[j].Bumped? ==>
          (i < j <==> w.flights[w.log[i].flight].loaded < w.log[j].generation))
  }

  /** The user chose, for this very key, to have this answer remembered. */
  ghost predicate DurableChoice(w: State, f: nat, allowed: bool) {
    && f < |w.flights| && w.flights[f].answer.Some? && w.flights[f].answer.value.UserDecision?
    && w.flights[f].answer.value.allow == allowed
    && w.flights[f].answer.value.scope != Once && w.flights[f].answer.value.scope != Unspecified
  }

  ghost predicate GrantOk(w: State, key: GrantKey, g: Grant) {
    match g.origin
    case Restored => true
    case Remembered(f, c, n) =>
      && DurableChoice(w, f, g.allowed) && w.flights[f].key == key
      && c < n < |w.log| && w.log[c] == CheckPassed(f) && w.log[n] == Inserted(f)
  }

  /** Nothing in the cache is older than the last clear. */
  ghost predicate AfterClears(w: State, g: Grant) {
    forall i :: 0 <= i < |w.log| && w.log[i].Cleared? ==> g.origin.Remembered? && i < g.origin.inserted
  }

  ghost predicate GrantsOk(w: State) {
    forall k :: k in w.grants ==> GrantOk(w, k, w.grants[k]) && AfterClears(w, w.grants[k])
  }

  predicate Leads(pc: Thread, f: nat) {
    (pc.Prompting? || pc.Answered? || pc.Inserting? || pc.Completing?) && pc.flight == f
  }

  ghost predicate FlightOk(w: State, f: nat)
    requires f < |w.flights|
  {
    var flight := w.flights[f];
    && flight.loaded <= w.generation
    && (flight.result.Some? ==> flight.answer.Some? && flight.result.value == PromptDecision(flight.answer.value))
    && (flight.result.None? ==>
          && flight.leader in w.threads && Leads(w.threads[flight.leader], f)
          && (flight.key, flight.loaded) in w.open && w.open[(flight.key, flight.loaded)] == f)
  }

  ghost predicate FlightsOk(w: State) {
    && (forall f :: 0 <= f < |w.flights| ==> FlightOk(w, f))
    && (forall k :: k in w.open ==>
      w.open[k] < |w.flights| && (w.flights[w.open[k]].key, w.flights[w.open[k]].loaded) == k)
  }

  ghost predicate ThreadOk(w: State, t: nat, pc: Thread) {
    match pc
    case Asking(_) => true
    case Loaded(_, g) => g <= w.generation
    case Missed(_, g) => g <= w.generation
    case Holding(_, g) => g <= w.generation && w.lock == Some(t)
    case HoldingMissed(_, g) => g <= w.generation && w.lock == Some(t)
    case Prompting(f) => f < |w.flights| && w.flights[f].leader == t && w.flights[f].result.None?
      && w.flights[f].answer.None?
    case Answered(f) => f < |w.flights| && w.flights[f].leader == t && w.flights[f].result.None?
      && w.flights[f].answer.Some?
    case Inserting(f, c) =>
      && f < |w.flights| && w.flights[f].leader == t && w.flights[f].result.None? && w.flights[f].answer.Some?
      && DurableChoice(w, f, w.flights[f].answer.value.UserDecision? && w.flights[f].answer.value.allow)
      && c < |w.log| && w.log[c] == CheckPassed(f)
    case Completing(f) => f < |w.flights| && w.flights[f].leader == t && w.flights[f].result.None?
      && w.flights[f].answer.Some?
    case Removing(f) => f < |w.flights| && w.flights[f].leader == t && w.flights[f].result.Some?
    case Waiting(key, f) => f < |w.flights| && w.flights[f].key == key
    case Returned(d, reason) => ReturnOk(w, d, reason)
    case MustClear(b) => b < |w.log| && w.log[b].Bumped?
    case Changed(b, c) => b < c < |w.log| && w.log[b].Bumped? && w.log[c].Cleared?
  }

  ghost predicate ReturnOk(w: State, d: Decision, reason: Reason) {
    match reason
    case Ruled(configured) => d.allow ==> configured == Allow
    case Audited(configured) => configured == Prompt || configured == TouchId
    case InFlight(key, f) => f < |w.flights| && w.flights[f].key == key && w.flights[f].result == Some(d)
    case Cached(key, g, at) => d.allow == g.allowed && GrantOk(w, key, g) && (g.expires.Some? ==> at < g.expires.value)
  }

  ghost predicate ThreadsOk(w: State) {
    && (forall t :: t in w.threads ==> ThreadOk(w, t, w.threads[t]))
    && (w.lock.Some? ==>
      && w.lock.value in w.threads
      && (w.threads[w.lock.value].Holding? || w.threads[w.lock.value].HoldingMissed?))
  }

  ghost predicate Inv(w: State) {
    LogOk(w) && GrantsOk(w) && FlightsOk(w) && ThreadsOk(w)
  }

  // ----- what later states keep -----

  ghost predicate FlightGrows(f: Flight, f': Flight) {
    && f'.key == f.key && f'.loaded == f.loaded && f'.leader == f.leader
    && (f.answer.Some? ==> f'.answer == f.answer) && (f.result.Some? ==> f'.result == f.result)
  }

  /** History only grows, and only flights led by `t` are touched. */
  ghost predicate Extends(w: State, w': State, t: nat) {
    && w.generation <= w'.generation
    && |w.log| <= |w'.log| && (forall i :: 0 <= i < |w.log| ==> w'.log[i] == w.log[i])
    && |w.flights| <= |w'.flights|
    && (forall f :: 0 <= f < |w.flights| ==> FlightGrows(w.flights[f], w'.flights[f]))
    && (forall f :: 0 <= f < |w.flights| && w.flights[f].leader != t ==> w'.flights[f] == w.flights[f])
  }

  lemma GrantStays(w: State, w': State, t: nat, key: GrantKey, g: Grant)
    requires Extends(w, w', t) && GrantOk(w, key, g)
    ensures GrantOk(w', key, g)
  {
    if g.origin.Remembered? {
      assert FlightGrows(w.flights[g.origin.flight], w'.flights[g.origin.flight]);
    }
  }

  lemma ReturnStays(w: State, w': State, t: nat, d: Decision, reason: Reason)
    requires Extends(w, w', t) && ReturnOk(w, d, reason)
    ensures ReturnOk(w', d, reason)
  {
    match reason
    case Cached(key, g, _) => GrantStays(w, w', t, key, g);
    case InFlight(_, f) => assert FlightGrows(w.flights[f], w'.flights[f]);
    case _ =>
  }

  lemma ThreadStays(w: State, w': State, t: nat, u: nat, pc: Thread)
    requires Extends(w, w', t) && ThreadOk(w, u, pc) && u != t && (w.lock == Some(u) ==> w'.lock == w.lock)
    ensures ThreadOk(w', u, pc)
  {
    match pc
    case Returned(d, reason) => ReturnStays(w, w', t, d, reason);
    case Waiting(_, f) => assert FlightGrows(w.flights[f], w'.flights[f]);
    case _ =>
  }

  /** The part of the cache a step leaves alone stays justified. */
  lemma GrantsStay(w: State, w': State, t: nat)
    requires GrantsOk(w) && Extends(w, w', t) && (forall i :: |w.log| <= i < |w'.log| ==> !w'.log[i].Cleared?)
    requires forall k :: k in w'.grants ==> k in w.grants && w'.grants[k] == w.grants[k]
    ensures GrantsOk(w')
  {
    forall k | k in w'.grants ensures GrantOk(w', k, w'.grants[k]) && AfterClears(w', w'.grants[k]) {
      GrantStays(w, w', t, k, w.grants[k]);
    }
  }

  lemma LogStays(w: State, w': State, t: nat)
    requires LogOk(w) && Extends(w, w', t) && w'.log == w.log
    ensures LogOk(w')
  {
    forall i | 0 <= i < |w.log| && w.log[i].CheckPassed?
      ensures w'.flights[w.log[i].flight].loaded == w.flights[w.log[i].flight].loaded {
      assert FlightGrows(w.flights[w.log[i].flight], w'.flights[w.log[i].flight]);
    }
  }

  // ----- steps that only move one thread -----

  /** A step that changes nothing but the place of `t`, the lock and perhaps drops grants. */
  ghost predicate Moves(w: State, w': State, t: nat, pc: Thread) {
    && w' == SetThread(w, t, pc).(lock := w'.lock, grants := w'.grants)
    && (forall k :: k in w'.grants ==> k in w.grants && w'.grants[k] == w.grants[k])
    && (forall u :: u != t && w.lock == Some(u) ==> w'.lock == w.lock)
    && (w'.lock == w.lock || w'.lock == None || w'.lock == Some(t))
  }

  predicate Leader(pc: Thread) {
    pc.Prompting? || pc.Answered? || pc.Inserting? || pc.Completing?
  }

  lemma MoveKeeps(w: State, w': State, t: nat, pc: Thread)
    requires Inv(w) && Moves(w, w', t, pc) && ThreadOk(w', t, pc)
    requires t in w.threads && Leader(w.threads[t]) ==> Leads(pc, w.threads[t].flight)
    requires w'.lock == Some(t) <==> pc.Holding? || pc.HoldingMissed?
    ensures Inv(w')
  {
    LogStays(w, w', t);
    GrantsStay(w, w', t);
    forall u | u in w'.threads && u != t ensures ThreadOk(w', u, w'.threads[u]) {
      ThreadStays(w, w', t, u, w.threads[u]);
    }
    forall f | 0 <= f < |w'.flights| ensures FlightOk(w', f) {
      assert FlightOk(w, f);
    }
  }

  lemma AuthorizeKeeps(atomic: bool, w: State, t: nat, s: Step, w': State)
    requires Inv(w) && s.Authorize? && Next(atomic, w, t, s, w')
    ensures Inv(w')
  {
    MoveKeeps(w, w', t, RuleThread(s.configured, Effective(s.mode, s.configured), s.askKey));
  }

  lemma LoadKeeps(atomic: bool, w: State, t: nat, w': State)
    requires Inv(w) && Next(atomic, w, t, Load, w')
    ensures Inv(w')
  {
    MoveKeeps(w, w', t, w'.threads[t]);
  }

  lemma LookKeeps(atomic: bool, w: State, t: nat, w': State)
    requires Inv(w) && Next(atomic, w, t, Look, w')
    ensures Inv(w')
  {
    var key := w.threads[t].key;
    if Live(w, key) {
      GrantStays(w, w', t, key, w.grants[key]);
    }
    MoveKeeps(w, w', t, w'.threads[t]);
  }

  lemma AcquireKeeps(atomic: bool, w: State, t: nat, w': State)
    requires Inv(w) && Next(atomic, w, t, Acquire, w')
    ensures Inv(w')
  {
    MoveKeeps(w, w', t, w'.threads[t]);
  }

  lemma LookAgainKeeps(atomic: bool, w: State, t: nat, w': State)
    requires Inv(w) && Next(atomic, w, t, LookAgain, w')
    ensures Inv(w')
  {
    var key := w.threads[t].key;
    if Live(w, key) {
      GrantStays(w, w', t, key, w.grants[key]);
    }
    MoveKeeps(w, w', t, w'.threads[t]);
  }

  lemma WakeKeeps(atomic: bool, w: State, t: nat, w': State)
    requires Inv(w) && Next(atomic, w, t, Wake, w')
    ensures Inv(w')
  {
    MoveKeeps(w, w', t, w'.threads[t]);
  }

  // ----- steps that touch flights, grants or the log -----

  lemma OthersStay(w: State, w': State, t: nat)
    requires ThreadsOk(w) && Extends(w, w', t) && w'.threads.Keys == w.threads.Keys + {t}
    requires forall u :: u in w.threads && u != t ==> w'.threads[u] == w.threads[u]
    requires forall u :: u != t && w.lock == Some(u) ==> w'.lock == w.lock
    ensures forall u :: u in w'.threads && u != t ==> ThreadOk(w', u, w'.threads[u])
  {
    forall u | u in w'.threads && u != t ensures ThreadOk(w', u, w'.threads[u]) {
      ThreadStays(w, w', t, u, w.threads[u]);
    }
  }

  /** A thread that leads nothing may open a flight: no other flight with its key is unresolved. */
  lemma NewFlightKeeps(w: State, t: nat, key: GrantKey, generation: nat)
    requires Inv(w) && t in w.threads && w.threads[t] == HoldingMissed(key, generation) && (key, generation) !in w.open
    ensures Inv(AfterJoin(w, t, key, generation))
  {
    var w' := AfterJoin(w, t, key, generation);
    LogStays(w, w', t);
    GrantsStay(w, w', t);
    OthersStay(w, w', t);
    forall f | 0 <= f < |w'.flights| ensures FlightOk(w', f) {
      if f < |w.flights| {
        assert FlightOk(w, f);
      }
    }
  }

  lemma JoinKeeps(atomic: bool, w: State, t: nat, w': State)
    requires Inv(w) && Next(atomic, w, t, Join, w')
    ensures Inv(w')
  {
    var key, generation := w.threads[t].key, w.threads[t].generation;
    if (key, generation) in w.open {
      MoveKeeps(w, w', t, w'.threads[t]);
    } else {
      NewFlightKeeps(w, t, key, generation);
    }
  }

  /** A leader writes into its own flight and stays or ceases to be a leader as the flight demands. */
  lemma FlightUpdateKeeps(w: State, w': State, t: nat, f: nat)
    requires Inv(w) && t in w.threads && Leader(w.threads[t]) && w.threads[t].flight == f
    requires f < |w.flights| && |w'.flights| == |w.flights| && FlightGrows(w.flights[f], w'.flights[f])
    requires t in w'.threads && w' == SetThread(w, t, w'.threads[t]).(flights := w.flights[f := w'.flights[f]])
    requires ThreadOk(w', t, w'.threads[t]) && !w'.threads[t].Holding? && !w'.threads[t].HoldingMissed?
      && FlightOk(w', f)
    ensures Inv(w')
  {
    assert w.flights[f].leader == t;
    assert forall x :: 0 <= x < |w.flights| ==> w'.flights[x] == if x == f then w'.flights[f] else w.flights[x];
    LogStays(w, w', t);
    GrantsStay(w, w', t);
    OthersStay(w, w', t);
    forall x | 0 <= x < |w'.flights| ensures FlightOk(w', x) {
      assert FlightOk(w, x);
      if x != f && w.flights[x].result.None? {
        assert w.flights[x].leader != t;
      }
    }
  }

  lemma AnswerKeeps(atomic: bool, w: State, t: nat, result: PromptResult, w': State)
    requires Inv(w) && Next(atomic, w, t, Answer(result), w')
    ensures Inv(w')
  {
    assert FlightOk(w, w.threads[t].flight);
    FlightUpdateKeeps(w, w', t, w.threads[t].flight);
  }

  lemma CompleteKeeps(atomic: bool, w: State, t: nat, w': State)
    requires Inv(w) && Next(atomic, w, t, Complete, w')
    ensures Inv(w')
  {
    assert FlightOk(w, w.threads[t].flight);
    FlightUpdateKeeps(w, w', t, w.threads[t].flight);
  }

  lemma RemoveKeeps(atomic: bool, w: State, t: nat, w': State)
    requires Inv(w) && Next(atomic, w, t, Remove, w')
    ensures Inv(w')
  {
    LogStays(w, w', t);
    GrantsStay(w, w', t);
    OthersStay(w, w', t);
    forall f | 0 <= f < |w'.flights| ensures FlightOk(w', f) {
      assert FlightOk(w, f);
    }
  }

  // ----- the log -----

  lemma LogPlusCheck(w: State, w': State, f: nat)
    requires Inv(w) && f < |w.flights| && w.flights[f].loaded == w.generation
    requires w'.log == w.log + [CheckPassed(f)] && w'.flights == w.flights && w'.generation == w.generation
    ensures LogOk(w')
  {
  }

  lemma LogPlusBump(w: State, w': State)
    requires Inv(w) && w'.flights == w.flights && w'.generation == w.generation + 1
      && w'.log == w.log + [Bumped(w'.generation)]
    ensures LogOk(w')
  {
    forall i | 0 <= i < |w.log| && w.log[i].CheckPassed? ensures w.flights[w.log[i].flight].loaded < w'.generation {
      assert FlightOk(w, w.log[i].flight);
    }
  }

  lemma LogPlusOther(w: State, w': State, e: Event)
    requires LogOk(w) && (e.Cleared? || e.Inserted?) && w'.log == w.log + [e] && w'.flights == w.flights
      && w'.generation == w.generation
    ensures LogOk(w')
  {
  }

  lemma FlightsUntouched(w: State, w': State)
    requires FlightsOk(w) && w'.flights == w.flights && w'.open == w.open && w.generation <= w'.generation
    requires forall u :: u in w.threads ==> u in w'.threads
    requires forall u :: u in w.threads && Leader(w.threads[u]) ==> Leads(w'.threads[u], w.threads[u].flight)
    ensures FlightsOk(w')
  {
    forall f | 0 <= f < |w'.flights| ensures FlightOk(w', f) {
      assert FlightOk(w, f);
    }
  }

  lemma PassKeeps(w: State, w': State, t: nat, f: nat)
    requires Inv(w) && t in w.threads && w.threads[t] == Answered(f) && w.flights[f].loaded == w.generation
    requires DurableChoice(w, f, w.flights[f].answer.value.UserDecision? && w.flights[f].answer.value.allow)
    requires w' == SetThread(w.(log := w.log + [CheckPassed(f)]), t, Inserting(f, |w.log|))
    ensures Inv(w')
  {
    LogPlusCheck(w, w', f);
    GrantsStay(w, w', t);
    OthersStay(w, w', t);
    FlightsUntouched(w, w');
  }

  lemma InsertedKeeps(w: State, w': State, t: nat, f: nat, checked: nat, todayTtl: nat)
    requires Inv(w) && t in w.threads && w.threads[t] == Inserting(f, checked)
      && w' == AfterInsert(w, t, f, checked, todayTtl)
    ensures Inv(w')
  {
    assert ThreadOk(w, t, w.threads[t]) && FlightOk(w, f);
    if w'.log == w.log {
      MoveKeeps(w, w', t, Completing(f));
    } else {
      GrantedKeeps(w, w', t, f, checked);
    }
  }

  lemma GrantedKeeps(w: State, w': State, t: nat, f: nat, checked: nat)
    requires Inv(w) && t in w.threads && w.threads[t] == Inserting(f, checked) && f < |w.flights|
    requires w' == SetThread(w.(grants := w'.grants, log := w.log + [Inserted(f)]), t, Completing(f))
    requires w'.grants.Keys == w.grants.Keys + {w.flights[f].key}
    requires var g := w'.grants[w.flights[f].key];
      g.origin == Remembered(f, checked, |w.log|) && DurableChoice(w, f, g.allowed)
    requires forall k :: k in w'.grants && k != w.flights[f].key ==> w'.grants[k] == w.grants[k]
    ensures Inv(w')
  {
    GrantedRest(w, w', t, f, checked);
    assert ThreadOk(w, t, w.threads[t]);
    NewGrantKeeps(w, w', t, f, checked);
  }

  /** Remembering an answer leaves log, flights and threads in order. */
  lemma GrantedRest(w: State, w': State, t: nat, f: nat, checked: nat)
    requires Inv(w) && t in w.threads && w.threads[t] == Inserting(f, checked) && f < |w.flights|
    requires w' == SetThread(w.(grants := w'.grants, log := w.log + [Inserted(f)]), t, Completing(f))
    ensures Extends(w, w', t) && LogOk(w') && FlightsOk(w') && ThreadsOk(w')
  {
    LogPlusOther(w, w', Inserted(f));
    OthersStay(w, w', t);
    FlightsUntouched(w, w');
  }

  lemma NewGrantKeeps(w: State, w': State, t: nat, f: nat, checked: nat)
    requires GrantsOk(w) && Extends(w, w', t) && f < |w.flights| && w'.flights == w.flights
      && w'.log == w.log + [Inserted(f)]
    requires checked < |w.log| && w.log[checked] == CheckPassed(f)
    requires w'.grants.Keys == w.grants.Keys + {w.flights[f].key}
    requires var g := w'.grants[w.flights[f].key];
      g.origin == Remembered(f, checked, |w.log|) && DurableChoice(w, f, g.allowed)
    requires forall k :: k in w'.grants && k != w.flights[f].key ==> w'.grants[k] == w.grants[k]
    ensures GrantsOk(w')
  {
    forall k | k in w'.grants ensures GrantOk(w', k, w'.grants[k]) && AfterClears(w', w'.grants[k]) {
      if k != w.flights[f].key {
        GrantStays(w, w', t, k, w.grants[k]);
      }
    }
  }

  lemma ChosenIsDurable(w: State, f: nat, todayTtl: nat)
    requires f < |w.flights| && w.flights[f].answer.Some? && Chosen(w.flights[f].answer.value, todayTtl).Some?
    ensures DurableChoice(w, f, w.flights[f].answer.value.UserDecision? && w.flights[f].answer.value.allow)
  {
  }

  lemma CheckKeeps(atomic: bool, w: State, t: nat, todayTtl: nat, w': State)
    requires Inv(w) && Next(atomic, w, t, Check(todayTtl), w')
    ensures Inv(w')
  {
    var f := w.threads[t].flight;
    assert ThreadOk(w, t, w.threads[t]);
    if w.generation == w.flights[f].loaded && Chosen(w.flights[f].answer.value, todayTtl).Some? {
      PassedKeeps(atomic, w, t, f, todayTtl, w');
    } else {
      MoveKeeps(w, w', t, Completing(f));
    }
  }

  lemma PassedKeeps(atomic: bool, w: State, t: nat, f: nat, todayTtl: nat, w': State)
    requires Inv(w) && t in w.threads && w.threads[t] == Answered(f) && f < |w.flights| && w.flights[f].answer.Some?
    requires w.generation == w.flights[f].loaded && Chosen(w.flights[f].answer.value, todayTtl).Some?
    requires w' == AfterCheck(atomic, w, t, f, todayTtl)
    ensures Inv(w')
  {
    var passed := SetThread(w.(log := w.log + [CheckPassed(f)]), t, Inserting(f, |w.log|));
    ChosenIsDurable(w, f, todayTtl);
    PassKeeps(w, passed, t, f);
    if atomic {
      InsertIgnoresPlace(w.(log := w.log + [CheckPassed(f)]), t, Inserting(f, |w.log|), f, |w.log|, todayTtl);
      InsertedKeeps(passed, w', t, f, |w.log|, todayTtl);
    }
  }

  lemma InsertIgnoresPlace(w: State, t: nat, pc: Thread, f: nat, checked: nat, todayTtl: nat)
    requires f < |w.flights| && w.flights[f].answer.Some?
    ensures AfterInsert(SetThread(w, t, pc), t, f, checked, todayTtl) == AfterInsert(w, t, f, checked, todayTtl)
  {
    assert w.threads[t := pc][t := Completing(f)] == w.threads[t := Completing(f)];
  }

  lemma InsertKeeps(atomic: bool, w: State, t: nat, todayTtl: nat, w': State)
    requires Inv(w) && Next(atomic, w, t, Insert(todayTtl), w')
    ensures Inv(w')
  {
    InsertedKeeps(w, w', t, w.threads[t].flight, w.threads[t].checked, todayTtl);
  }

  lemma BumpKeeps(atomic: bool, w: State, t: nat, w': State)
    requires Inv(w) && Next(atomic, w, t, Bump, w')
    ensures Inv(w')
  {
    LogPlusBump(w, w');
    GrantsStay(w, w', t);
    OthersStay(w, w', t);
    FlightsUntouched(w, w');
  }

  lemma ClearKeeps(atomic: bool, w: State, t: nat, w': State)
    requires Inv(w) && Next(atomic, w, t, Clear, w')
    ensures Inv(w')
  {
    LogPlusOther(w, w', Cleared);
    OthersStay(w, w', t);
    FlightsUntouched(w, w');
  }

  lemma AllStay(w: State, w': State, t: nat)
    requires ThreadsOk(w) && Extends(w, w', t) && w'.threads == w.threads && w'.lock == w.lock
      && w'.flights == w.flights
    ensures ThreadsOk(w')
  {
    forall u | u in w'.threads ensures ThreadOk(w', u, w'.threads[u]) {
      if w.threads[u].Returned? {
        ReturnStays(w, w', t, w.threads[u].decision, w.threads[u].reason);
      }
    }
  }

  lemma BumpOnlyKeeps(atomic: bool, w: State, t: nat, w': State)
    requires Inv(w) && Next(atomic, w, t, BumpOnly, w')
    ensures Inv(w')
  {
    LogPlusBump(w, w');
    GrantsStay(w, w', t);
    AllStay(w, w', t);
    FlightsUntouched(w, w');
  }

  lemma QuietKeeps(w: State, w': State, t: nat)
    requires Inv(w) && w' == w.(grants := w'.grants, clock := w'.clock)
    requires forall k :: k in w'.grants ==> k in w.grants && w'.grants[k] == w.grants[k]
    ensures Inv(w')
  {
    LogStays(w, w', t);
    GrantsStay(w, w', t);
    AllStay(w, w', t);
    FlightsUntouched(w, w');
  }

  lemma NextKeeps(atomic: bool, w: State, t: nat, s: Step, w': State)
    requires Inv(w) && Next(atomic, w, t, s, w')
    ensures Inv(w')
  {
    match s
    case Authorize(_, _, _) => AuthorizeKeeps(atomic, w, t, s, w');
    case Load => LoadKeeps(atomic, w, t, w');
    case Look => LookKeeps(atomic, w, t, w');
    case Acquire => AcquireKeeps(atomic, w, t, w');
    case LookAgain => LookAgainKeeps(atomic, w, t, w');
    case Join => JoinKeeps(atomic, w, t, w');
    case Answer(result) => AnswerKeeps(atomic, w, t, result, w');
    case Check(todayTtl) => CheckKeeps(atomic, w, t, todayTtl, w');
    case Insert(todayTtl) => InsertKeeps(atomic, w, t, todayTtl, w');
    case Complete => CompleteKeeps(atomic, w, t, w');
    case Remove => RemoveKeeps(atomic, w, t, w');
    case Wake => WakeKeeps(atomic, w, t, w');
    case Bump => BumpKeeps(atomic, w, t, w');
    case Clear => ClearKeeps(atomic, w, t, w');
    case BumpOnly => BumpOnlyKeeps(atomic, w, t, w');
    case Shrink(_) => QuietKeeps(w, w', t);
    case Tick => QuietKeeps(w, w', t);
  }

  lemma {:induction false} RunInv(atomic: bool, ws: seq<State>, acts: seq<Action>, i: nat)
    requires Run(atomic, ws, acts) && i < |ws|
    ensures Inv(ws[i])
  {
    if i > 0 {
      RunInv(atomic, ws, acts, i - 1);
      assert Next(atomic, ws[i - 1], acts[i - 1].thread, acts[i - 1].step, ws[i - 1 + 1]);
      NextKeeps(atomic, ws[i - 1], acts[i - 1].thread, acts[i - 1].step, ws[i]);
    }
  }

  // ----- clears beat stale approvals -----

  /**
   After a mode change, clear-all or managed-policy change has completed, every cached grant was
   inserted after the clear, restored grants are gone, and a grant is of a request that loaded an
   older generation exactly when its generation check had passed before the bump: it then slipped
   through between check and insert.
   */
  lemma StaleGrantsSlippedThrough(atomic: bool, ws: seq<State>, acts: seq<Action>, i: nat, t: nat, key: GrantKey)
    requires Run(atomic, ws, acts) && i < |ws|
    requires t in ws[i].threads && ws[i].threads[t].Changed? && key in ws[i].grants
    ensures var w, g := ws[i], ws[i].grants[key];
      var b, c := w.threads[t].bumped, w.threads[t].cleared;
      && g.origin.Remembered? && g.origin.flight < |w.flights| && w.flights[g.origin.flight].key == key
      && b < c < g.origin.inserted < |w.log| && g.origin.checked < g.origin.inserted
      && w.log[b].Bumped? && w.log[c].Cleared?
      && w.log[g.origin.checked] == CheckPassed(g.origin.flight)
        && w.log[g.origin.inserted] == Inserted(g.origin.flight)
      && (w.flights[g.origin.flight].loaded < w.log[b].generation <==> g.origin.checked < b)
  {
    RunInv(atomic, ws, acts, i);
    var w := ws[i];
    assert ThreadOk(w, t, w.threads[t]);
    assert GrantOk(w, key, w.grants[key]) && AfterClears(w, w.grants[key]);
  }

  /** In the joined variant an insert directly follows its check, and no thread stands between the two. */
  ghost predicate Joined(w: State) {
    && (forall k :: k in w.grants && w.grants[k].origin.Remembered? ==>
      w.grants[k].origin.inserted == w.grants[k].origin.checked + 1)
    && (forall t :: t in w.threads ==> !w.threads[t].Inserting?)
  }

  lemma JoinedMove(w: State, t: nat, w': State)
    requires Joined(w) && (forall k :: k in w'.grants ==> k in w.grants && w'.grants[k] == w.grants[k])
    requires forall u :: u in w'.threads && u != t ==> u in w.threads && w'.threads[u] == w.threads[u]
    requires t in w'.threads ==> !w'.threads[t].Inserting?
    ensures Joined(w')
  {
  }

  lemma JoinedCheck(w: State, t: nat, f: nat, todayTtl: nat)
    requires Joined(w) && f < |w.flights| && w.flights[f].answer.Some?
    ensures Joined(AfterCheck(true, w, t, f, todayTtl))
  {
  }

  lemma JoinedNext(w: State, t: nat, s: Step, w': State)
    requires Joined(w) && Next(true, w, t, s, w')
    ensures Joined(w')
  {
    match s
    case Check(todayTtl) => JoinedCheck(w, t, w.threads[t].flight, todayTtl);
    case Insert(_) =>
    case Join => JoinedMove(w, t, w');
    case Remove => JoinedMove(w, t, w');
    case Authorize(_, _, _) => JoinedMove(w, t, w');
    case _ => JoinedMove(w, t, w');
  }

  lemma {:induction false} JoinedRun(ws: seq<State>, acts: seq<Action>, i: nat)
    requires Run(true, ws, acts) && i < |ws|
    ensures Joined(ws[i])
  {
    if i > 0 {
      JoinedRun(ws, acts, i - 1);
      assert Next(true, ws[i - 1], acts[i - 1].thread, acts[i - 1].step, ws[i - 1 + 1]);
      JoinedNext(ws[i - 1], acts[i - 1].thread, acts[i - 1].step, ws[i]);
    }
  }

  /** With check and insert as one step no stale approval survives a completed change. */
  lemma JoinedLeavesNoStaleGrant(ws: seq<State>, acts: seq<Action>, i: nat, t: nat, key: GrantKey)
    requires Run(true, ws, acts) && i < |ws|
    requires t in ws[i].threads && ws[i].threads[t].Changed? && key in ws[i].grants
    ensures var w, g := ws[i], ws[i].grants[key];
      && g.origin.Remembered? && g.origin.flight < |w.flights|
      && w.threads[t].bumped < |w.log| && w.log[w.threads[t].bumped].Bumped?
      && w.flights[g.origin.flight].loaded >= w.log[w.threads[t].bumped].generation
  {
    StaleGrantsSlippedThrough(true, ws, acts, i, t, key);
    JoinedRun(ws, acts, i);
  }

  lemma Extend(atomic: bool, ws: seq<State>, acts: seq<Action>, t: nat, s: Step, w': State)
    requires Run(atomic, ws, acts) && Next(atomic, ws[|ws| - 1], t, s, w')
    ensures Run(atomic, ws + [w'], acts + [Action(t, s)])
  {
    var ws', acts' := ws + [w'], acts + [Action(t, s)];
    forall i | 0 <= i < |acts'| ensures Next(atomic, ws'[i], acts'[i].thread, acts'[i].step, ws'[i + 1]) {
      if i < |acts| {
        assert Next(atomic, ws[i], acts[i].thread, acts[i].step, ws[i + 1]);
      }
    }
  }

  const Idle := State(0, 0, map[], [], map[], None, map[], [])
  const Yes := UserDecision(true, Ttl, None)

  /** One access that has looked twice and missed, holding the lock. */
  ghost function Missing(key: GrantKey): State {
    Idle.(lock := Some(0), threads := map[0 := HoldingMissed(key, 0)])
  }

  lemma ReachMissing(key: GrantKey) returns (ws: seq<State>, acts: seq<Action>)
    requires key.enforcement == Prompt
    ensures Run(false, ws, acts) && ws[|ws| - 1] == Missing(key)
  {
    ws, acts := [Idle], [];
    var s1 := SetThread(Idle, 0, Asking(key));
    Extend(false, ws, acts, 0, Authorize(Prompt, Enforced, key), s1);
    ws, acts := ws + [s1], acts + [Action(0, Authorize(Prompt, Enforced, key))];
    var s2 := SetThread(s1, 0, Loaded(key, 0));
    Extend(false, ws, acts, 0, Load, s2);
    ws, acts := ws + [s2], acts + [Action(0, Load)];
    var s3 := SetThread(s2.(grants := Without(s2.grants, key)), 0, Missed(key, 0));
    Extend(false, ws, acts, 0, Look, s3);
    ws, acts := ws + [s3], acts + [Action(0, Look)];
    var s4 := SetThread(s3.(lock := Some(0)), 0, Holding(key, 0));
    Extend(false, ws, acts, 0, Acquire, s4);
    ws, acts := ws + [s4], acts + [Action(0, Acquire)];
    var s5 := SetThread(s4.(grants := Without(s4.grants, key)), 0, HoldingMissed(key, 0));
    Extend(false, ws, acts, 0, LookAgain, s5);
    ws, acts := ws + [s5], acts + [Action(0, LookAgain)];
    assert s5 == Missing(key);
  }

  /** ... and then was allowed by the user and passed its check, but has not inserted yet. */
  ghost function Between(key: GrantKey): State {
    Idle.(flights := [Flight(key, 0, 0, Some(Yes), None)], open := map[(key, 0) := 0],
      threads := map[0 := Inserting(0, 0)], log := [CheckPassed(0)])
  }

  lemma ReachBetween(key: GrantKey) returns (ws: seq<State>, acts: seq<Action>)
    requires key.enforcement == Prompt
    ensures Run(false, ws, acts) && ws[|ws| - 1] == Between(key)
  {
    ws, acts := ReachMissing(key);
    var s6 := AfterJoin(Missing(key), 0, key, 0);
    Extend(false, ws, acts, 0, Join, s6);
    ws, acts := ws + [s6], acts + [Action(0, Join)];
    var s7 := SetThread(s6.(flights := s6.flights[0 := s6.flights[0].(answer := Some(Yes))]), 0, Answered(0));
    Extend(false, ws, acts, 0, Answer(Yes), s7);
    ws, acts := ws + [s7], acts + [Action(0, Answer(Yes))];
    var s8 := AfterCheck(false, s7, 0, 0, 0);
    Extend(false, ws, acts, 0, Check(0), s8);
    ws, acts := ws + [s8], acts + [Action(0, Check(0))];
    assert s8 == Between(key);
  }

  /** The window is real: in the source's two steps a clear-all can fall between check and insert and be outlived. */
  lemma StaleGrantIsReachable(key: GrantKey) returns (ws: seq<State>, acts: seq<Action>, w: State)
    requires key.enforcement == Prompt
    ensures Run(false, ws, acts) && w == ws[|ws| - 1]
    ensures 1 in w.threads && w.threads[1] == Changed(1, 2) && |w.log| > 1 && w.log[1] == Bumped(1)
    ensures key in w.grants && w.grants[key].allowed && w.grants[key].origin == Remembered(0, 0, 3) && |w.flights| > 0
      && w.flights[0].loaded == 0
  {
    ws, acts := ReachBetween(key);
    var s8 := Between(key);
    var s9 := SetThread(s8.(generation := 1, log := s8.log + [Bumped(1)]), 1, MustClear(1));
    Extend(false, ws, acts, 1, Bump, s9);
    ws, acts := ws + [s9], acts + [Action(1, Bump)];
    var s10 := SetThread(s9.(grants := map[], log := s9.log + [Cleared]), 1, Changed(1, 2));
    Extend(false, ws, acts, 1, Clear, s10);
    ws, acts := ws + [s10], acts + [Action(1, Clear)];
    w := AfterInsert(s10, 0, 0, 0, 0);
    Extend(false, ws, acts, 0, Insert(0), w);
    ws, acts := ws + [w], acts + [Action(0, Insert(0))];
  }

  // ----- single flight -----

  /** At most one unresolved prompt exists per grant key and generation. */
  lemma SingleFlight(atomic: bool, ws: seq<State>, acts: seq<Action>, i: nat, f: nat, g: nat)
    requires Run(atomic, ws, acts) && i < |ws| && f < |ws[i].flights| && g < |ws[i].flights|
    requires ws[i].flights[f].result.None? && ws[i].flights[g].result.None?
    requires ws[i].flights[f].key == ws[i].flights[g].key && ws[i].flights[f].loaded == ws[i].flights[g].loaded
    ensures f == g
  {
    RunInv(atomic, ws, acts, i);
    assert FlightOk(ws[i], f) && FlightOk(ws[i], g);
  }

  /** Everyone who returns from one flight returns one decision: the one its prompt ended in. */
  lemma JoinersAgree(atomic: bool, ws: seq<State>, acts: seq<Action>, i: nat, t: nat, u: nat)
    requires Run(atomic, ws, acts) && i < |ws| && t in ws[i].threads && u in ws[i].threads
    requires ws[i].threads[t].Returned? && ws[i].threads[u].Returned?
    requires ws[i].threads[t].reason.InFlight? && ws[i].threads[u].reason.InFlight?
    requires ws[i].threads[t].reason.flight == ws[i].threads[u].reason.flight
    ensures ws[i].threads[t].decision == ws[i].threads[u].decision
      && ws[i].threads[t].reason.key == ws[i].threads[u].reason.key
    ensures var f := ws[i].threads[t].reason.flight;
      f < |ws[i].flights| && ws[i].flights[f].answer.Some?
        && ws[i].threads[t].decision == PromptDecision(ws[i].flights[f].answer.value)
  {
    RunInv(atomic, ws, acts, i);
    assert ThreadOk(ws[i], t, ws[i].threads[t]) && ThreadOk(ws[i], u, ws[i].threads[u]);
    assert FlightOk(ws[i], ws[i].threads[t].reason.flight);
  }

  /** The next step of a leader; none of them waits for a lock or for another flight. */
  ghost function LeaderStep(pc: Thread): Step
    requires Leader(pc)
  {
    match pc
    case Prompting(_) => Answer(Timeout)
    case Answered(_) => Check(0)
    case Inserting(_, _) => Insert(0)
    case Completing(_) => Complete
  }

  ghost predicate Enabled(atomic: bool, w: State, t: nat, s: Step) {
    exists w' :: Next(atomic, w, t, s, w')
  }

  /** No stuck waiters: whoever waits on an incomplete flight has a live leader that can always step. */
  lemma NoStuckWaiter(atomic: bool, ws: seq<State>, acts: seq<Action>, i: nat, t: nat)
    requires Run(atomic, ws, acts) && i < |ws| && t in ws[i].threads && ws[i].threads[t].Waiting?
    ensures var f := ws[i].threads[t].flight;
      && f < |ws[i].flights|
      && (ws[i].flights[f].result.Some? ==> Enabled(atomic, ws[i], t, Wake))
      && (ws[i].flights[f].result.None? ==>
            var leader := ws[i].flights[f].leader;
            leader in ws[i].threads && Leads(ws[i].threads[leader], f)
              && Enabled(atomic, ws[i], leader, LeaderStep(ws[i].threads[leader])))
  {
    RunInv(atomic, ws, acts, i);
    var w := ws[i];
    assert ThreadOk(w, t, w.threads[t]);
    var f := w.threads[t].flight;
    if w.flights[f].result.Some? {
      assert Next(atomic, w, t, Wake,
        SetThread(w, t, Returned(w.flights[f].result.value, InFlight(w.threads[t].key, f))));
    } else {
      assert FlightOk(w, f);
      LeaderCanStep(atomic, w, w.flights[f].leader);
    }
  }

  lemma LeaderCanStep(atomic: bool, w: State, t: nat)
    requires Inv(w) && t in w.threads && Leader(w.threads[t])
    ensures Enabled(atomic, w, t, LeaderStep(w.threads[t]))
  {
    var pc := w.threads[t];
    assert ThreadOk(w, t, pc);
    var f := pc.flight;
    match pc
    case Prompting(_) =>
      assert Next(atomic, w, t, Answer(Timeout),
        SetThread(w.(flights := w.flights[f := w.flights[f].(answer := Some(Timeout))]), t, Answered(f)));
    case Answered(_) => assert Next(atomic, w, t, Check(0), AfterCheck(atomic, w, t, f, 0));
    case Inserting(_, c) => assert Next(atomic, w, t, Insert(0), AfterInsert(w, t, f, c, 0));
    case Completing(_) =>
      assert Next(atomic, w, t, Complete,
        SetThread(
          w.(flights := w.flights[f := w.flights[f].(result := Some(PromptDecision(w.flights[f].answer.value)))]),
          t, Removing(f)));
  }

  // ----- every remembered entry was chosen -----

  /** Every entry remembered in the run is a user's explicit,
    durable choice for exactly that key; failures are never remembered. */
  lemma EveryGrantWasChosen(atomic: bool, ws: seq<State>, acts: seq<Action>, i: nat, key: GrantKey)
    requires Run(atomic, ws, acts) && i < |ws| && key in ws[i].grants && ws[i].grants[key].origin.Remembered?
    ensures var f := ws[i].grants[key].origin.flight;
      DurableChoice(ws[i], f, ws[i].grants[key].allowed) && ws[i].flights[f].key == key
  {
    RunInv(atomic, ws, acts, i);
    assert GrantOk(ws[i], key, ws[i].grants[key]);
  }
}
