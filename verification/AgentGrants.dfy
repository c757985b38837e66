/**
 Remembered answers (crates/floria-agent/src/agent.rs:262-306 and 458-476): what a prompt leaves in the cache and
 for how long, with the scopes and limits written out, and that a live answer is used before anybody is prompted.
 */
module AgentGrants {
  import opened Prelude
  import opened Policy
  import opened Agent
  import opened AgentHistory

  const HOUR := 3600

  /** The user's choice and the time it is good for: `expires` is on the daemon's clock, `None` until the lock. */
  ghost predicate ChosenUntil(a: PromptResult, todayTtl: nat, clock: nat, expires: Option<nat>) {
    && a.UserDecision?
    && match a.scope
       case Once => false
       case Unspecified => false
       case UntilLock => expires == None
       case Today => expires == Some(clock + todayTtl) && todayTtl <= 26 * HOUR
       case Ttl =>
         var ttl := if a.ttlSecs.Some? then a.ttlSecs.value else 600;
         expires == Some(clock + ttl) && ttl <= 26 * HOUR
       case AppFile => expires == Some(clock + 24 * HOUR)
       case AppProject => expires == Some(clock + 24 * HOUR)
  }

  /** The answer is remembered at all. */
  ghost predicate Rememberable(a: PromptResult, todayTtl: nat) {
    exists expires :: ChosenUntil(a, todayTtl, 0, expires)
  }

  /** The scope asks for a lifetime, whatever its length. */
  ghost predicate Durable(a: PromptResult) {
    a.UserDecision? && a.scope != Once && a.scope != Unspecified
  }

  // ----- what one step leaves in the cache -----

  /** The cache gains this answer under the flight's key, and nothing else changes in it. */
  ghost predicate Remembers(w: State, w': State, f: nat, todayTtl: nat) {
    && f < |w.flights| && w.flights[f].answer.Some?
    && var a, key := w.flights[f].answer.value, w.flights[f].key;
    && w'.grants.Keys == w.grants.Keys + {key}
    && (forall k :: k in w.grants && k != key ==> w'.grants[k] == w.grants[k])
    && a.UserDecision? && w'.grants[key].allowed == a.allow
    && ChosenUntil(a, todayTtl, w.clock, w'.grants[key].expires)
  }

  lemma InsertRemembers(w: State, t: nat, f: nat, checked: nat, todayTtl: nat)
    requires f < |w.flights| && w.flights[f].answer.Some?
    ensures var w' := AfterInsert(w, t, f, checked, todayTtl);
      && (Rememberable(w.flights[f].answer.value, todayTtl) ==> Remembers(w, w', f, todayTtl))
      && (!Rememberable(w.flights[f].answer.value, todayTtl) ==> w'.grants == w.grants)
      && w'.threads == w.threads[t := Completing(f)]
  {
    var a := w.flights[f].answer.value;
    if a.UserDecision? {
      var life := GrantLifetime(a.scope, a.ttlSecs, todayTtl);
      if life.Some? && !(life.value.Timed? && life.value.ttl > MAXIMUM_TTL) {
        var zero := if life.value.Timed? then Some(life.value.ttl) else None;
        assert ChosenUntil(a, todayTtl, 0, zero);
      }
    }
  }

  /**
   The check of an answered prompt. When the generation is still the one the request loaded and the answer is
   durable, it goes on to the insert; otherwise nothing is remembered.
   */
  lemma CheckDecides(w: State, t: nat, todayTtl: nat, w': State)
    requires Next(false, w, t, Check(todayTtl), w')
    ensures var f := w.threads[t].flight;
      && w'.grants == w.grants
      && (w.generation == w.flights[f].loaded && Durable(w.flights[f].answer.value) ==>
            w'.threads[t] == Inserting(f, |w.log|))
      && (w.generation != w.flights[f].loaded || !Durable(w.flights[f].answer.value) ==>
            w'.threads[t] == Completing(f))
  {
  }

  /** What the flight tells everybody: the user's word, and a denial when there is none. */
  lemma CompleteDecides(atomic: bool, w: State, t: nat, w': State)
    requires Next(atomic, w, t, Complete, w')
    ensures var f := w.threads[t].flight;
      && w'.flights[f].result.Some?
      && var a, d := w.flights[f].answer.value, w'.flights[f].result.value;
      && (a.UserDecision? ==> d.allow == a.allow && d.rule == ByPrompt)
      && (!a.UserDecision? ==> !d.allow && d.rule == FailClosed)
  {
  }

  // ----- over whole runs -----

  /** The step at which this grant was remembered. */
  ghost predicate RememberedAt(ws: seq<State>, acts: seq<Action>, i: nat, key: GrantKey, g: Grant, k: nat) {
    && k < i && k < |acts| && k < |ws| && (acts[k].step.Insert? || acts[k].step.Check?)
    && g.origin.Remembered? && g.origin.flight < |ws[k].flights| && ws[k].flights[g.origin.flight].key == key
    && ws[k].flights[g.origin.flight].answer.Some?
    && var a := ws[k].flights[g.origin.flight].answer.value;
    a.UserDecision? && g.allowed == a.allow && ChosenUntil(a, acts[k].step.todayTtl, ws[k].clock, g.expires)
  }

  ghost predicate WasRemembered(ws: seq<State>, acts: seq<Action>, i: nat, key: GrantKey, g: Grant) {
    exists k :: RememberedAt(ws, acts, i, key, g, k)
  }

  /** A grant after a step was there before, or is the one that the step's own flight left. */
  lemma GrantComesFrom(atomic: bool, w: State, t: nat, s: Step, w': State, key: GrantKey)
    requires Next(atomic, w, t, s, w') && key in w'.grants
    ensures (key in w.grants && w'.grants[key] == w.grants[key])
      || ((s.Insert? || s.Check?) && t in w.threads && (w.threads[t].Inserting? || w.threads[t].Answered?)
          && w.threads[t].flight < |w.flights| && w.flights[w.threads[t].flight].answer.Some?
          && w.flights[w.threads[t].flight].key == key
          && w'.grants[key].origin.Remembered? && w'.grants[key].origin.flight == w.threads[t].flight
          && Remembers(w, w', w.threads[t].flight, s.todayTtl))
  {
    if s.Insert? {
      InsertRemembers(w, t, w.threads[t].flight, w.threads[t].checked, s.todayTtl);
    } else if s.Check? {
      var f := w.threads[t].flight;
      InsertRemembers(w.(log := w.log + [CheckPassed(f)]), t, f, |w.log|, s.todayTtl);
    }
  }

  /**
   Every answer remembered in the run lives exactly as long as the user chose when it was stored: today, until the
   lock, the given time or ten minutes, a day for an app; never more than 26 hours.
   */
  lemma {:induction false} RememberedAsChosen(atomic: bool, ws: seq<State>, acts: seq<Action>, i: nat, key: GrantKey)
    requires Run(atomic, ws, acts) && i < |ws| && key in ws[i].grants
    ensures ws[i].grants[key].origin.Restored? || WasRemembered(ws, acts, i, key, ws[i].grants[key])
  {
    if i > 0 {
      var n := i - 1;
      var g := ws[i].grants[key];
      assert Next(atomic, ws[n], acts[n].thread, acts[n].step, ws[n + 1]);
      GrantComesFrom(atomic, ws[n], acts[n].thread, acts[n].step, ws[n + 1], key);
      if key in ws[n].grants && ws[n].grants[key] == g {
        RememberedAsChosen(atomic, ws, acts, n, key);
        if k :| RememberedAt(ws, acts, n, key, g, k) {
          assert RememberedAt(ws, acts, i, key, g, k);
        }
      } else {
        assert RememberedAt(ws, acts, i, key, g, n);
      }
    }
  }

  // ----- nobody is prompted while an answer is remembered -----

  /** Under the coordinator lock thread `t` found no live grant for the key. */
  ghost predicate FoundNothingAt(ws: seq<State>, acts: seq<Action>, i: nat, t: nat, key: GrantKey, k: nat) {
    k < i && k < |acts| && k < |ws| && acts[k] == Action(t, LookAgain) && ws[k].lock == Some(t) && !Live(ws[k], key)
  }

  ghost predicate FoundNothing(ws: seq<State>, acts: seq<Action>, i: nat, t: nat, key: GrantKey) {
    exists k :: FoundNothingAt(ws, acts, i, t, key, k)
  }

  lemma MissComesFrom(atomic: bool, w: State, u: nat, s: Step, w': State, t: nat)
    requires Next(atomic, w, u, s, w') && t in w'.threads && w'.threads[t].HoldingMissed?
    ensures (t in w.threads && w'.threads[t] == w.threads[t])
      || (u == t && s == LookAgain && t in w.threads && w.threads[t].Holding? && w.threads[t].key == w'.threads[t].key
          && !Live(w, w'.threads[t].key))
  {
  }

  lemma {:induction false} MissWasLooked(atomic: bool, ws: seq<State>, acts: seq<Action>, i: nat, t: nat)
    requires Run(atomic, ws, acts) && i < |ws| && t in ws[i].threads && ws[i].threads[t].HoldingMissed?
    ensures FoundNothing(ws, acts, i, t, ws[i].threads[t].key)
  {
    if i > 0 {
      var n := i - 1;
      assert Next(atomic, ws[n], acts[n].thread, acts[n].step, ws[n + 1]);
      MissComesFrom(atomic, ws[n], acts[n].thread, acts[n].step, ws[n + 1], t);
      var key := ws[i].threads[t].key;
      if t in ws[n].threads && ws[i].threads[t] == ws[n].threads[t] {
        MissWasLooked(atomic, ws, acts, n, t);
        var k :| FoundNothingAt(ws, acts, n, t, key, k);
        assert FoundNothingAt(ws, acts, i, t, key, k);
      } else {
        RunInv(atomic, ws, acts, n);
        assert ThreadOk(ws[n], t, ws[n].threads[t]);
        assert FoundNothingAt(ws, acts, i, t, key, n);
      }
    }
  }

  /** A thread enters a flight only after it looked under the lock and found nothing live for its own key. */
  lemma PromptedOnlyWithoutGrant(atomic: bool, ws: seq<State>, acts: seq<Action>, i: nat, t: nat)
    requires Run(atomic, ws, acts) && i < |acts| && acts[i] == Action(t, Join)
    ensures t in ws[i].threads && ws[i].threads[t].HoldingMissed?
    ensures FoundNothing(ws, acts, i, t, ws[i].threads[t].key)
  {
    assert Next(atomic, ws[i], acts[i].thread, acts[i].step, ws[i + 1]);
    MissWasLooked(atomic, ws, acts, i, t);
  }

  /** And a live answer ends the access at once, with that answer. */
  lemma LiveGrantDecides(atomic: bool, w: State, t: nat, s: Step, w': State)
    requires Next(atomic, w, t, s, w') && (s == Look || s == LookAgain)
    requires var key := w.threads[t].key;
      key in w.grants && (w.grants[key].expires.None? || w.clock < w.grants[key].expires.value)
    ensures w'.threads[t].Returned? && w'.threads[t].decision.allow == w.grants[w.threads[t].key].allowed
    ensures w'.threads[t].decision.rule == ByGrant && w'.grants == w.grants
  {
  }

  // ----- how long a remembered answer stays -----

  /** The thread is about to store the answer of a flight of this key. */
  ghost predicate StoresUnder(w: State, t: nat, key: GrantKey) {
    && t in w.threads && (w.threads[t].Inserting? || w.threads[t].Answered?) && w.threads[t].flight < |w.flights|
    && w.flights[w.threads[t].flight].key == key
  }

  /** The step is no clear, drops no grant of this key and stores no new answer under it. */
  ghost predicate Spares(w: State, a: Action, key: GrantKey) {
    && !a.step.Clear? && (a.step.Shrink? ==> key in a.step.keep)
    && (a.step.Insert? || a.step.Check? ==> !StoresUnder(w, a.thread, key))
  }

  lemma StepSpares(atomic: bool, w: State, a: Action, w': State, key: GrantKey)
    requires Next(atomic, w, a.thread, a.step, w') && Live(w, key) && Spares(w, a, key)
    ensures w.clock <= w'.clock && key in w'.grants && w'.grants[key] == w.grants[key]
  {
  }

  lemma ClockStep(atomic: bool, ws: seq<State>, acts: seq<Action>, k: nat)
    requires Run(atomic, ws, acts) && k < |acts|
    ensures ws[k].clock <= ws[k + 1].clock
  {
    assert Next(atomic, ws[k], acts[k].thread, acts[k].step, ws[k + 1]);
  }

  lemma RunSpares(atomic: bool, ws: seq<State>, acts: seq<Action>, k: nat, key: GrantKey)
    requires Run(atomic, ws, acts) && k < |acts| && Live(ws[k], key) && Spares(ws[k], acts[k], key)
    ensures key in ws[k + 1].grants && ws[k + 1].grants[key] == ws[k].grants[key]
  {
    StepSpares(atomic, ws[k], acts[k], ws[k + 1], key);
  }

  ghost predicate Outlives(g: Grant, w: State) {
    g.expires.Some? ==> w.clock < g.expires.value
  }

  /** A remembered answer stays until it expires, is dropped or replaced; looking others up never costs it. */
  lemma {:induction false} GrantLasts(atomic: bool, ws: seq<State>, acts: seq<Action>, i: nat, j: nat, key: GrantKey)
    requires Run(atomic, ws, acts) && i <= j < |ws| && key in ws[i].grants
    requires Outlives(ws[i].grants[key], ws[j])
    requires forall k :: i <= k < j ==> Spares(ws[k], acts[k], key)
    ensures key in ws[j].grants && ws[j].grants[key] == ws[i].grants[key]
    decreases j
  {
    if i < j {
      ClockStep(atomic, ws, acts, j - 1);
      GrantLasts(atomic, ws, acts, i, j - 1, key);
      RunSpares(atomic, ws, acts, j - 1, key);
    }
  }

  // ----- an answer that nothing overtook is remembered -----

  /** The request of this thread read the generation at step `k`. */
  ghost predicate LoadedAt(ws: seq<State>, acts: seq<Action>, i: nat, t: nat, generation: nat, k: nat) {
    && k < i && k < |acts| && k < |ws| && acts[k] == Action(t, Load) && ws[k].generation == generation
  }

  ghost predicate WasLoaded(ws: seq<State>, acts: seq<Action>, i: nat, t: nat, generation: nat) {
    exists k :: LoadedAt(ws, acts, i, t, generation, k)
  }

  ghost predicate Carries(pc: Thread) {
    pc.Loaded? || pc.Missed? || pc.Holding? || pc.HoldingMissed?
  }

  ghost predicate ThreadsLoaded(ws: seq<State>, acts: seq<Action>, i: nat)
    requires i < |ws|
  {
    forall t :: t in ws[i].threads && Carries(ws[i].threads[t]) ==>
      WasLoaded(ws, acts, i, t, ws[i].threads[t].generation)
  }

  ghost predicate FlightLoaded(ws: seq<State>, acts: seq<Action>, i: nat, f: nat)
    requires i < |ws| && f < |ws[i].flights|
  {
    WasLoaded(ws, acts, i, ws[i].flights[f].leader, ws[i].flights[f].loaded)
  }

  ghost predicate FlightsLoaded(ws: seq<State>, acts: seq<Action>, i: nat)
    requires i < |ws|
  {
    forall f :: 0 <= f < |ws[i].flights| ==> FlightLoaded(ws, acts, i, f)
  }

  lemma LaterLoaded(ws: seq<State>, acts: seq<Action>, i: nat, t: nat, generation: nat)
    requires WasLoaded(ws, acts, i, t, generation)
    ensures WasLoaded(ws, acts, i + 1, t, generation)
  {
    var k :| LoadedAt(ws, acts, i, t, generation, k);
    assert LoadedAt(ws, acts, i + 1, t, generation, k);
  }

  /** The generation a thread carries after a step: the one in force for a load, otherwise the one it carried. */
  lemma CarriedFrom(atomic: bool, w: State, a: Action, w': State, t: nat)
    requires Next(atomic, w, a.thread, a.step, w') && t in w'.threads && Carries(w'.threads[t])
    ensures (t == a.thread && a.step.Load? && w'.threads[t].generation == w.generation)
      || (t in w.threads && Carries(w.threads[t]) && w'.threads[t].generation == w.threads[t].generation)
  {
    if t != a.thread {
      OthersKeep(atomic, w, a, w', t);
    } else {
      CarriedOwn(atomic, w, a, w');
    }
  }

  /** The steps of a request before it joins a flight or returns. */
  ghost predicate Early(s: Step) {
    s.Authorize? || s.Load? || s.Look? || s.Acquire? || s.LookAgain?
  }

  lemma OthersKeep(atomic: bool, w: State, a: Action, w': State, t: nat)
    requires Next(atomic, w, a.thread, a.step, w') && t != a.thread && t in w'.threads
    ensures t in w.threads && w'.threads[t] == w.threads[t]
  {
    if Early(a.step) {
      OthersKeepEarly(atomic, w, a, w', t);
    } else {
      OthersKeepLate(atomic, w, a, w', t);
    }
  }

  lemma OthersKeepEarly(atomic: bool, w: State, a: Action, w': State, t: nat)
    requires Early(a.step) && Next(atomic, w, a.thread, a.step, w') && t != a.thread && t in w'.threads
    ensures t in w.threads && w'.threads[t] == w.threads[t]
  {
  }

  lemma OthersKeepLate(atomic: bool, w: State, a: Action, w': State, t: nat)
    requires !Early(a.step) && Next(atomic, w, a.thread, a.step, w') && t != a.thread && t in w'.threads
    ensures t in w.threads && w'.threads[t] == w.threads[t]
  {
  }

  lemma CarriedOwn(atomic: bool, w: State, a: Action, w': State)
    requires Next(atomic, w, a.thread, a.step, w') && a.thread in w'.threads && Carries(w'.threads[a.thread])
    ensures (a.step.Load? && w'.threads[a.thread].generation == w.generation)
      || (a.thread in w.threads && Carries(w.threads[a.thread])
          && w'.threads[a.thread].generation == w.threads[a.thread].generation)
  {
    if Early(a.step) {
      CarriedEarly(atomic, w, a, w');
    } else if InFlightStep(a.step) {
      PromptsCarryNothing(atomic, w, a, w');
    } else {
      CarriedLate(atomic, w, a, w');
    }
  }

  lemma CarriedEarly(atomic: bool, w: State, a: Action, w': State)
    requires Early(a.step) && Next(atomic, w, a.thread, a.step, w')
    requires a.thread in w'.threads && Carries(w'.threads[a.thread])
    ensures (a.step.Load? && w'.threads[a.thread].generation == w.generation)
      || (a.thread in w.threads && Carries(w.threads[a.thread])
          && w'.threads[a.thread].generation == w.threads[a.thread].generation)
  {
  }

  /** The steps of a request in a flight. */
  ghost predicate InFlightStep(s: Step) {
    s.Join? || s.Answer? || s.Check? || s.Insert? || s.Complete? || s.Remove? || s.Wake?
  }

  lemma PromptsCarryNothing(atomic: bool, w: State, a: Action, w': State)
    requires InFlightStep(a.step) && Next(atomic, w, a.thread, a.step, w')
    ensures a.thread in w'.threads && !Carries(w'.threads[a.thread])
  {
  }

  lemma CarriedLate(atomic: bool, w: State, a: Action, w': State)
    requires !Early(a.step) && !InFlightStep(a.step) && Next(atomic, w, a.thread, a.step, w')
    requires a.thread in w'.threads && Carries(w'.threads[a.thread])
    ensures a.thread in w.threads && Carries(w.threads[a.thread]) && w'.threads[a.thread] == w.threads[a.thread]
  {
  }

  /** A flight after a step is one from before, or was opened by the step for the generation its leader carried. */
  lemma FlightFrom(atomic: bool, w: State, a: Action, w': State, f: nat)
    requires Next(atomic, w, a.thread, a.step, w') && f < |w'.flights|
    ensures (f < |w.flights| && w'.flights[f].leader == w.flights[f].leader
             && w'.flights[f].loaded == w.flights[f].loaded)
      || (w'.flights[f].leader in w.threads && Carries(w.threads[w'.flights[f].leader])
          && w'.flights[f].loaded == w.threads[w'.flights[f].leader].generation)
  {
  }

  lemma ThreadsLoadedStep(atomic: bool, ws: seq<State>, acts: seq<Action>, i: nat)
    requires Run(atomic, ws, acts) && i < |acts| && ThreadsLoaded(ws, acts, i)
    ensures ThreadsLoaded(ws, acts, i + 1)
  {
    var w, w' := ws[i], ws[i + 1];
    forall t | t in w'.threads && Carries(w'.threads[t])
      ensures WasLoaded(ws, acts, i + 1, t, w'.threads[t].generation)
    {
      CarriedFrom(atomic, w, acts[i], w', t);
      if t == acts[i].thread && acts[i].step.Load? && w'.threads[t].generation == w.generation {
        assert LoadedAt(ws, acts, i + 1, t, w.generation, i);
      } else {
        LaterLoaded(ws, acts, i, t, w'.threads[t].generation);
      }
    }
  }

  lemma FlightsLoadedStep(atomic: bool, ws: seq<State>, acts: seq<Action>, i: nat)
    requires Run(atomic, ws, acts) && i < |acts| && ThreadsLoaded(ws, acts, i) && FlightsLoaded(ws, acts, i)
    ensures FlightsLoaded(ws, acts, i + 1)
  {
    var n := i + 1;
    forall f | 0 <= f < |ws[n].flights| ensures FlightLoaded(ws, acts, n, f) {
      assert f < |ws[i].flights| ==> FlightLoaded(ws, acts, i, f);
      FlightFrom(atomic, ws[i], acts[i], ws[i + 1], f);
      LaterLoaded(ws, acts, i, ws[i + 1].flights[f].leader, ws[i + 1].flights[f].loaded);
    }
  }

  lemma {:induction false} LoadsTraced(atomic: bool, ws: seq<State>, acts: seq<Action>, i: nat)
    requires Run(atomic, ws, acts) && i < |ws|
    ensures ThreadsLoaded(ws, acts, i) && FlightsLoaded(ws, acts, i)
  {
    if i > 0 {
      LoadsTraced(atomic, ws, acts, i - 1);
      ThreadsLoadedStep(atomic, ws, acts, i - 1);
      FlightsLoadedStep(atomic, ws, acts, i - 1);
    }
  }

  /**
   An answer is held against the generation its own request read. So when no bump came between that load and the
   check, a durable answer passes; and when one did, it is dropped.
   */
  lemma CheckedAgainstItsLoad(ws: seq<State>, acts: seq<Action>, i: nat, t: nat, f: nat, todayTtl: nat)
    requires Run(false, ws, acts) && i < |acts| && acts[i] == Action(t, Check(todayTtl))
    requires t in ws[i].threads && ws[i].threads[t] == Answered(f) && f < |ws[i].flights|
      && ws[i].flights[f].answer.Some?
    ensures t in ws[i + 1].threads
    ensures exists k: nat ::
      && LoadedAt(ws, acts, i, ws[i].flights[f].leader, ws[i].flights[f].loaded, k)
      && (ws[i + 1].threads[t].Inserting? <==>
            ws[i].generation == ws[k].generation && Durable(ws[i].flights[f].answer.value))
  {
    LoadsTraced(false, ws, acts, i);
    assert FlightLoaded(ws, acts, i, f);
    var k: nat :| LoadedAt(ws, acts, i, ws[i].flights[f].leader, ws[i].flights[f].loaded, k);
    CheckDecides(ws[i], t, todayTtl, ws[i + 1]);
  }
}
