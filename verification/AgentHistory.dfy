/**
 What the whole history of a run says about one access and about one clear: why an access was
 allowed, and exactly when a clear can be outlived.
 */
module AgentHistory {
  import opened Prelude
  import opened Policy
  import opened Agent

  // ----- every allow is justified by the history -----

  /** The access of thread `t` began at step `j`. */
  ghost predicate AskedAt(acts: seq<Action>, i: nat, t: nat, j: nat) {
    j < i && j < |acts| && acts[j].thread == t && acts[j].step.Authorize?
  }

  /** At step `k` thread `t` entered flight `f`, as its leader or to wait for it. */
  ghost predicate EnteredAt(ws: seq<State>, acts: seq<Action>, i: nat, t: nat, f: nat, k: nat) {
    && k < i && k < |acts| && k + 1 < |ws| && acts[k] == Action(t, Join) && t in ws[k + 1].threads
    && (ws[k + 1].threads[t] == Prompting(f) || (ws[k + 1].threads[t].Waiting? && ws[k + 1].threads[t].flight == f))
  }

  ghost predicate Entered(ws: seq<State>, acts: seq<Action>, i: nat, t: nat, f: nat) {
    exists k :: EnteredAt(ws, acts, i, t, f, k)
  }

  /** At step `k` thread `t` looked into the cache and found this grant, live, under this key. */
  ghost predicate FoundAt(ws: seq<State>, acts: seq<Action>, i: nat, t: nat, key: GrantKey, g: Grant, k: nat) {
    && k < i && k < |acts| && k < |ws| && (acts[k] == Action(t, Look) || acts[k] == Action(t, LookAgain))
    && Live(ws[k], key) && ws[k].grants[key] == g
  }

  ghost predicate Found(ws: seq<State>, acts: seq<Action>, i: nat, t: nat, key: GrantKey, g: Grant) {
    exists k :: FoundAt(ws, acts, i, t, key, g, k)
  }

  ghost predicate KeyOfFlight(w: State, f: nat, key: GrantKey) {
    f < |w.flights| && w.flights[f].key == key
  }

  /** The policy asks the user: a prompt level, and the mode does not waive it. */
  ghost predicate AsksUser(ask: Step)
    requires ask.Authorize?
  {
    ask.mode == Enforced && (ask.configured == Prompt || ask.configured == TouchId)
  }

  ghost predicate StandsBefore(ask: Step, key: GrantKey)
    requires ask.Authorize?
  {
    AsksUser(ask) && key == ask.askKey
  }

  ghost predicate StandsIn(ws: seq<State>, acts: seq<Action>, i: nat, t: nat, ask: Step, f: nat)
    requires ask.Authorize? && i < |ws|
  {
    AsksUser(ask) && KeyOfFlight(ws[i], f, ask.askKey) && Entered(ws, acts, i, t, f)
  }

  /** Where an access can stand, given what it asked and what happened since. */
  ghost predicate Traced(ws: seq<State>, acts: seq<Action>, i: nat, t: nat, ask: Step, pc: Thread)
    requires ask.Authorize? && i < |ws|
  {
    match pc
    case Asking(key) => StandsBefore(ask, key)
    case Loaded(key, _) => StandsBefore(ask, key)
    case Missed(key, _) => StandsBefore(ask, key)
    case Holding(key, _) => StandsBefore(ask, key)
    case HoldingMissed(key, _) => StandsBefore(ask, key)
    case Prompting(f) => StandsIn(ws, acts, i, t, ask, f)
    case Answered(f) => StandsIn(ws, acts, i, t, ask, f)
    case Inserting(f, _) => StandsIn(ws, acts, i, t, ask, f)
    case Completing(f) => StandsIn(ws, acts, i, t, ask, f)
    case Removing(f) => StandsIn(ws, acts, i, t, ask, f)
    case Waiting(key, f) => key == ask.askKey && StandsIn(ws, acts, i, t, ask, f)
    case Returned(d, reason) => TracedReturn(ws, acts, i, t, ask, d, reason)
    case _ => false
  }

  ghost predicate TracedReturn(ws: seq<State>, acts: seq<Action>, i: nat, t: nat, ask: Step, d: Decision,
      reason: Reason)
    requires ask.Authorize? && i < |ws|
  {
    match reason
    case Ruled(_) => (ask.configured == Allow && d.allow) || (ask.configured == Deny && !d.allow)
    case Audited(_) => (ask.configured == Prompt || ask.configured == TouchId) && ask.mode == AuditOnly && d.allow
    case InFlight(key, f) => key == ask.askKey && StandsIn(ws, acts, i, t, ask, f)
    case Cached(key, g, _) =>
      AsksUser(ask) && key == ask.askKey && d.allow == g.allowed && Found(ws, acts, i, t, ask.askKey, g)
  }

  predicate Administers(pc: Thread) {
    pc.MustClear? || pc.Changed?
  }

  ghost predicate HasTrace(ws: seq<State>, acts: seq<Action>, i: nat, t: nat) {
    && i < |ws| && t in ws[i].threads
    && (Administers(ws[i].threads[t])
      || exists j: nat :: AskedAt(acts, i, t, j) && Traced(ws, acts, i, t, acts[j].step, ws[i].threads[t]))
  }

  // ----- one step of the trace -----

  lemma FlightKeyStays(atomic: bool, w: State, u: nat, s: Step, w': State, f: nat, key: GrantKey)
    requires Next(atomic, w, u, s, w') && KeyOfFlight(w, f, key)
    ensures KeyOfFlight(w', f, key)
  {
  }

  lemma HistoryStays(ws: seq<State>, acts: seq<Action>, i: nat, t: nat, f: nat, key: GrantKey, g: Grant)
    ensures Entered(ws, acts, i, t, f) ==> Entered(ws, acts, i + 1, t, f)
    ensures Found(ws, acts, i, t, key, g) ==> Found(ws, acts, i + 1, t, key, g)
  {
    if Entered(ws, acts, i, t, f) {
      var k :| EnteredAt(ws, acts, i, t, f, k);
      assert EnteredAt(ws, acts, i + 1, t, f, k);
    }
    if Found(ws, acts, i, t, key, g) {
      var k :| FoundAt(ws, acts, i, t, key, g, k);
      assert FoundAt(ws, acts, i + 1, t, key, g, k);
    }
  }

  predicate InAFlight(pc: Thread) {
    pc.Prompting? || pc.Answered? || pc.Inserting? || pc.Completing? || pc.Removing? || pc.Waiting?
  }

  /** A trace is kept while its thread stands still. */
  lemma TraceRests(atomic: bool, ws: seq<State>, acts: seq<Action>, i: nat, t: nat, ask: Step, pc: Thread)
    requires Run(atomic, ws, acts) && i + 1 < |ws| && ask.Authorize? && Traced(ws, acts, i, t, ask, pc)
    ensures Traced(ws, acts, i + 1, t, ask, pc)
  {
    assert Next(atomic, ws[i], acts[i].thread, acts[i].step, ws[i + 1]);
    if InAFlight(pc) {
      FlightKeyStays(atomic, ws[i], acts[i].thread, acts[i].step, ws[i + 1], pc.flight, ask.askKey);
      HistoryStays(ws, acts, i, t, pc.flight, ask.askKey, Grant(false, None, Restored));
    } else if pc.Returned? && pc.reason.InFlight? {
      FlightKeyStays(atomic, ws[i], acts[i].thread, acts[i].step, ws[i + 1], pc.reason.flight, ask.askKey);
      HistoryStays(ws, acts, i, t, pc.reason.flight, ask.askKey, Grant(false, None, Restored));
    } else if pc.Returned? && pc.reason.Cached? {
      HistoryStays(ws, acts, i, t, 0, ask.askKey, pc.reason.grant);
    }
  }

  lemma OthersRest(atomic: bool, w: State, u: nat, s: Step, w': State, t: nat)
    requires Next(atomic, w, u, s, w') && t != u
    ensures t in w'.threads <==> t in w.threads
    ensures t in w.threads ==> w'.threads[t] == w.threads[t]
  {
  }

  lemma AuthorizeTraced(atomic: bool, ws: seq<State>, acts: seq<Action>, i: nat)
    requires Run(atomic, ws, acts) && i + 1 < |ws| && acts[i].step.Authorize?
    ensures HasTrace(ws, acts, i + 1, acts[i].thread)
  {
    var t, s := acts[i].thread, acts[i].step;
    assert Next(atomic, ws[i], t, s, ws[i + 1]);
    assert AskedAt(acts, i + 1, t, i);
    assert Traced(ws, acts, i + 1, t, s, RuleThread(s.configured, Effective(s.mode, s.configured), s.askKey));
  }

  /** Looking into the cache leaves the trace or records the find. */
  lemma LookTraced(atomic: bool, ws: seq<State>, acts: seq<Action>, i: nat, ask: Step)
    requires Run(atomic, ws, acts) && i + 1 < |ws| && (acts[i].step.Look? || acts[i].step.LookAgain?) && ask.Authorize?
    requires acts[i].thread in ws[i].threads && Traced(ws, acts, i, acts[i].thread, ask, ws[i].threads[acts[i].thread])
    ensures acts[i].thread in ws[i + 1].threads
    ensures Traced(ws, acts, i + 1, acts[i].thread, ask, ws[i + 1].threads[acts[i].thread])
  {
    var t, w := acts[i].thread, ws[i];
    assert Next(atomic, w, t, acts[i].step, ws[i + 1]);
    if Live(w, ask.askKey) {
      assert FoundAt(ws, acts, i + 1, t, ask.askKey, w.grants[ask.askKey], i);
    }
  }

  lemma JoinTraced(atomic: bool, ws: seq<State>, acts: seq<Action>, i: nat, ask: Step)
    requires Run(atomic, ws, acts) && i + 1 < |ws| && acts[i].step.Join? && ask.Authorize? && FlightsOk(ws[i])
    requires acts[i].thread in ws[i].threads && Traced(ws, acts, i, acts[i].thread, ask, ws[i].threads[acts[i].thread])
    ensures acts[i].thread in ws[i + 1].threads
    ensures Traced(ws, acts, i + 1, acts[i].thread, ask, ws[i + 1].threads[acts[i].thread])
  {
    var t, w := acts[i].thread, ws[i];
    assert Next(atomic, w, t, Join, ws[i + 1]);
    var pc := ws[i + 1].threads[t];
    assert EnteredAt(ws, acts, i + 1, t, pc.flight, i);
  }

  predicate FlightStep(s: Step) {
    s.Answer? || s.Check? || s.Insert? || s.Complete? || s.Remove? || s.Wake?
  }

  lemma FlightStepStays(atomic: bool, w: State, t: nat, s: Step, w': State)
    requires Next(atomic, w, t, s, w') && FlightStep(s)
    ensures t in w.threads && InAFlight(w.threads[t]) && t in w'.threads
    ensures var f := w.threads[t].flight;
      || (InAFlight(w'.threads[t]) && !w'.threads[t].Waiting? && w'.threads[t].flight == f)
      || (w'.threads[t].Returned? && w'.threads[t].reason.InFlight? && w'.threads[t].reason.flight == f
          && (w'.threads[t].reason.key == w.flights[f].key
            || (w.threads[t].Waiting? && w'.threads[t].reason.key == w.threads[t].key)))
  {
  }

  lemma FlightTraced(atomic: bool, ws: seq<State>, acts: seq<Action>, i: nat, ask: Step)
    requires Run(atomic, ws, acts) && i + 1 < |ws| && FlightStep(acts[i].step) && ask.Authorize?
    requires acts[i].thread in ws[i].threads && Traced(ws, acts, i, acts[i].thread, ask, ws[i].threads[acts[i].thread])
    ensures acts[i].thread in ws[i + 1].threads
    ensures Traced(ws, acts, i + 1, acts[i].thread, ask, ws[i + 1].threads[acts[i].thread])
  {
    var t, w := acts[i].thread, ws[i];
    assert Next(atomic, w, t, acts[i].step, ws[i + 1]);
    FlightStepStays(atomic, w, t, acts[i].step, ws[i + 1]);
    var f := w.threads[t].flight;
    FlightKeyStays(atomic, w, t, acts[i].step, ws[i + 1], f, ask.askKey);
    HistoryStays(ws, acts, i, t, f, ask.askKey, Grant(false, None, Restored));
  }

  lemma EarlyTraced(atomic: bool, ws: seq<State>, acts: seq<Action>, i: nat, ask: Step)
    requires Run(atomic, ws, acts) && i + 1 < |ws| && (acts[i].step.Load? || acts[i].step.Acquire?) && ask.Authorize?
    requires acts[i].thread in ws[i].threads && Traced(ws, acts, i, acts[i].thread, ask, ws[i].threads[acts[i].thread])
    ensures acts[i].thread in ws[i + 1].threads
    ensures Traced(ws, acts, i + 1, acts[i].thread, ask, ws[i + 1].threads[acts[i].thread])
  {
    assert Next(atomic, ws[i], acts[i].thread, acts[i].step, ws[i + 1]);
  }

  lemma OwnStepTraced(atomic: bool, ws: seq<State>, acts: seq<Action>, i: nat, ask: Step)
    requires Run(atomic, ws, acts) && i + 1 < |ws| && ask.Authorize? && FlightsOk(ws[i])
    requires acts[i].thread in ws[i].threads && Traced(ws, acts, i, acts[i].thread, ask, ws[i].threads[acts[i].thread])
    ensures acts[i].thread in ws[i + 1].threads
    ensures Traced(ws, acts, i + 1, acts[i].thread, ask, ws[i + 1].threads[acts[i].thread])
  {
    var t, s := acts[i].thread, acts[i].step;
    assert Next(atomic, ws[i], t, s, ws[i + 1]);
    match s
    case Load => EarlyTraced(atomic, ws, acts, i, ask);
    case Acquire => EarlyTraced(atomic, ws, acts, i, ask);
    case Look => LookTraced(atomic, ws, acts, i, ask);
    case LookAgain => LookTraced(atomic, ws, acts, i, ask);
    case Join => JoinTraced(atomic, ws, acts, i, ask);
    case BumpOnly => TraceRests(atomic, ws, acts, i, t, ask, ws[i].threads[t]);
    case Shrink(_) => TraceRests(atomic, ws, acts, i, t, ask, ws[i].threads[t]);
    case Tick => TraceRests(atomic, ws, acts, i, t, ask, ws[i].threads[t]);
    case Authorize(_, _, _) =>
    case Bump =>
    case Clear =>
    case _ => FlightTraced(atomic, ws, acts, i, ask);
  }

  lemma AdminRests(atomic: bool, w: State, t: nat, s: Step, w': State)
    requires Next(atomic, w, t, s, w') && t in w.threads && Administers(w.threads[t])
    ensures t in w'.threads && Administers(w'.threads[t])
  {
  }

  lemma BumpBegins(atomic: bool, w: State, t: nat, s: Step, w': State)
    requires Next(atomic, w, t, s, w') && t !in w.threads && t in w'.threads
    ensures s.Authorize? || Administers(w'.threads[t])
  {
  }

  lemma TraceNext(atomic: bool, ws: seq<State>, acts: seq<Action>, i: nat, t: nat)
    requires Run(atomic, ws, acts) && i + 1 < |ws| && FlightsOk(ws[i]) && t in ws[i + 1].threads
    requires t in ws[i].threads ==> HasTrace(ws, acts, i, t)
    ensures HasTrace(ws, acts, i + 1, t)
  {
    var u, s := acts[i].thread, acts[i].step;
    assert Next(atomic, ws[i], u, s, ws[i + 1]);
    if t != u {
      OthersRest(atomic, ws[i], u, s, ws[i + 1], t);
      if !Administers(ws[i].threads[t]) {
        var j: nat :| AskedAt(acts, i, t, j) && Traced(ws, acts, i, t, acts[j].step, ws[i].threads[t]);
        TraceRests(atomic, ws, acts, i, t, acts[j].step, ws[i].threads[t]);
        assert AskedAt(acts, i + 1, t, j);
      }
    } else if t !in ws[i].threads {
      BumpBegins(atomic, ws[i], t, s, ws[i + 1]);
      if s.Authorize? {
        AuthorizeTraced(atomic, ws, acts, i);
      }
    } else if Administers(ws[i].threads[t]) {
      AdminRests(atomic, ws[i], t, s, ws[i + 1]);
    } else {
      var j: nat :| AskedAt(acts, i, t, j) && Traced(ws, acts, i, t, acts[j].step, ws[i].threads[t]);
      OwnStepTraced(atomic, ws, acts, i, acts[j].step);
      assert AskedAt(acts, i + 1, t, j);
    }
  }

  lemma {:induction false} EveryThreadIsTraced(atomic: bool, ws: seq<State>, acts: seq<Action>, i: nat, t: nat)
    requires Run(atomic, ws, acts) && i < |ws| && t in ws[i].threads
    ensures HasTrace(ws, acts, i, t)
  {
    if i > 0 {
      RunInv(atomic, ws, acts, i - 1);
      if t in ws[i - 1].threads {
        EveryThreadIsTraced(atomic, ws, acts, i - 1, t);
      }
      TraceNext(atomic, ws, acts, i - 1, t);
    }
  }

  /** The user allowed the prompt of this flight. */
  ghost predicate UserAllowed(w: State, f: nat) {
    f < |w.flights| && w.flights[f].answer.Some? && w.flights[f].answer.value.UserDecision?
      && w.flights[f].answer.value.allow
  }

  /**
   What an allow of thread `t` rests on, in the history up to step `i`: what the access itself asked,
   and then an allow rule, the audit-only waiver of a prompt level, or, where the policy asks the user, the
   user's allow in a flight of the asked key that `t` led or joined, or an allow that `t` found live in
   the cache under that key.
   */
  ghost predicate Justified(ws: seq<State>, acts: seq<Action>, i: nat, t: nat, ask: Step)
    requires ask.Authorize? && i < |ws|
  {
    || ask.configured == Allow
    || ((ask.configured == Prompt || ask.configured == TouchId) && ask.mode == AuditOnly)
    || (AsksUser(ask) && AnsweredInFlight(ws, acts, i, t, ask, true))
    || (AsksUser(ask) && AnsweredByGrant(ws, acts, i, t, ask, true))
  }

  /** The prompt of a flight of the asked key, which `t` led or joined, was answered; with an allow or not. */
  ghost predicate AnsweredInFlight(ws: seq<State>, acts: seq<Action>, i: nat, t: nat, ask: Step, allow: bool)
    requires ask.Authorize? && i < |ws|
  {
    exists f: nat :: Entered(ws, acts, i, t, f) && KeyOfFlight(ws[i], f, ask.askKey) && ws[i].flights[f].answer.Some?
      && (UserAllowed(ws[i], f) <==> allow)
  }

  /** `t` found a live remembered answer under the asked key. */
  ghost predicate AnsweredByGrant(ws: seq<State>, acts: seq<Action>, i: nat, t: nat, ask: Step, allow: bool)
    requires ask.Authorize?
  {
    exists k, g :: FoundAt(ws, acts, i, t, ask.askKey, g, k) && g.allowed == allow
  }

  /** What a denial rests on: a deny rule, or the user's denial, a prompt that failed, or a remembered denial. */
  ghost predicate Refused(ws: seq<State>, acts: seq<Action>, i: nat, t: nat, ask: Step)
    requires ask.Authorize? && i < |ws|
  {
    || ask.configured == Deny
    || (AsksUser(ask) && AnsweredInFlight(ws, acts, i, t, ask, false))
    || (AsksUser(ask) && AnsweredByGrant(ws, acts, i, t, ask, false))
  }

  lemma ReturnIsExplained(atomic: bool, ws: seq<State>, acts: seq<Action>, i: nat, t: nat, ask: Step)
    requires Run(atomic, ws, acts) && i < |ws| && t in ws[i].threads && ws[i].threads[t].Returned?
    requires ask.Authorize? && Traced(ws, acts, i, t, ask, ws[i].threads[t])
    ensures if ws[i].threads[t].decision.allow then Justified(ws, acts, i, t, ask) else Refused(ws, acts, i, t, ask)
  {
    RunInv(atomic, ws, acts, i);
    var pc := ws[i].threads[t];
    assert ThreadOk(ws[i], t, pc);
    if pc.reason.InFlight? {
      assert FlightOk(ws[i], pc.reason.flight);
      assert Entered(ws, acts, i, t, pc.reason.flight);
      assert UserAllowed(ws[i], pc.reason.flight) <==> pc.decision.allow;
    } else if pc.reason.Cached? {
      var k :| FoundAt(ws, acts, i, t, ask.askKey, pc.reason.grant, k);
    }
  }

  /** Every allow is justified by the history of its own access. */
  lemma EveryAllowIsJustified(atomic: bool, ws: seq<State>, acts: seq<Action>, i: nat, t: nat) returns (j: nat)
    requires Run(atomic, ws, acts) && i < |ws| && t in ws[i].threads && ws[i].threads[t].Returned?
      && ws[i].threads[t].decision.allow
    ensures AskedAt(acts, i, t, j) && Justified(ws, acts, i, t, acts[j].step)
  {
    EveryThreadIsTraced(atomic, ws, acts, i, t);
    j :| AskedAt(acts, i, t, j) && Traced(ws, acts, i, t, acts[j].step, ws[i].threads[t]);
    ReturnIsExplained(atomic, ws, acts, i, t, acts[j].step);
  }

  /** Every denial too: nobody is denied what the rules allow, the mode waives or the user allowed. */
  lemma EveryDenialIsJustified(atomic: bool, ws: seq<State>, acts: seq<Action>, i: nat, t: nat) returns (j: nat)
    requires Run(atomic, ws, acts) && i < |ws| && t in ws[i].threads && ws[i].threads[t].Returned?
      && !ws[i].threads[t].decision.allow
    ensures AskedAt(acts, i, t, j) && Refused(ws, acts, i, t, acts[j].step)
  {
    EveryThreadIsTraced(atomic, ws, acts, i, t);
    j :| AskedAt(acts, i, t, j) && Traced(ws, acts, i, t, acts[j].step, ws[i].threads[t]);
    ReturnIsExplained(atomic, ws, acts, i, t, acts[j].step);
  }

  // ----- what the rules decide is decided at once and for good -----

  lemma StaysListed(atomic: bool, w: State, u: nat, s: Step, w': State, t: nat)
    requires Next(atomic, w, u, s, w') && t in w.threads
    ensures t in w'.threads && (!Administers(w.threads[t]) ==> !Administers(w'.threads[t]))
  {
  }

  lemma {:induction false} ThreadStaysListed(atomic: bool, ws: seq<State>, acts: seq<Action>, k: nat, i: nat, t: nat)
    requires Run(atomic, ws, acts) && k <= i < |ws| && t in ws[k].threads && !Administers(ws[k].threads[t])
    ensures t in ws[i].threads && !Administers(ws[i].threads[t])
    decreases i - k
  {
    if k < i {
      var n := i - 1;
      ThreadStaysListed(atomic, ws, acts, k, n, t);
      assert Next(atomic, ws[n], acts[n].thread, acts[n].step, ws[n + 1]);
      StaysListed(atomic, ws[n], acts[n].thread, acts[n].step, ws[n + 1], t);
    }
  }

  /** A thread asks once. */
  lemma AsksOnce(atomic: bool, ws: seq<State>, acts: seq<Action>, i: nat, t: nat, j: nat, k: nat)
    requires Run(atomic, ws, acts) && AskedAt(acts, i, t, j) && AskedAt(acts, i, t, k) && j <= k
    ensures j == k
  {
    if j < k {
      assert Next(atomic, ws[j], acts[j].thread, acts[j].step, ws[j + 1]);
      assert Next(atomic, ws[k], acts[k].thread, acts[k].step, ws[k + 1]);
      ThreadStaysListed(atomic, ws, acts, j + 1, k, t);
    }
  }

  /** The trace of an access is the trace of what it asked. */
  lemma TracedFrom(atomic: bool, ws: seq<State>, acts: seq<Action>, i: nat, t: nat, j: nat)
    requires Run(atomic, ws, acts) && i < |ws| && AskedAt(acts, i, t, j)
    ensures t in ws[i].threads && Traced(ws, acts, i, t, acts[j].step, ws[i].threads[t])
  {
    assert Next(atomic, ws[j], acts[j].thread, acts[j].step, ws[j + 1]);
    ThreadStaysListed(atomic, ws, acts, j + 1, i, t);
    EveryThreadIsTraced(atomic, ws, acts, i, t);
    var k: nat :| AskedAt(acts, i, t, k) && Traced(ws, acts, i, t, acts[k].step, ws[i].threads[t]);
    if j <= k {
      AsksOnce(atomic, ws, acts, i, t, j, k);
    } else {
      AsksOnce(atomic, ws, acts, i, t, k, j);
    }
  }

  /**
   Where the policy does not ask the user, the access returns at once and keeps its decision: a deny rule denies
   in either mode, an allow rule allows, and audit-only allows a prompt level.
   */
  lemma RulesDecideAtOnce(atomic: bool, ws: seq<State>, acts: seq<Action>, i: nat, t: nat, j: nat)
    requires Run(atomic, ws, acts) && i < |ws| && AskedAt(acts, i, t, j) && !AsksUser(acts[j].step)
    ensures t in ws[i].threads && ws[i].threads[t].Returned?
    ensures ws[i].threads[t].decision.allow <==> acts[j].step.configured != Deny
  {
    TracedFrom(atomic, ws, acts, i, t, j);
  }

  /** Such an access never enters a flight and never looks into the cache. */
  lemma RuledOutOfPrompts(atomic: bool, ws: seq<State>, acts: seq<Action>, i: nat, t: nat, j: nat)
    requires Run(atomic, ws, acts) && i < |ws| && AskedAt(acts, i, t, j) && !AsksUser(acts[j].step)
    ensures forall f :: !Entered(ws, acts, i, t, f)
    ensures forall key, g, k :: !FoundAt(ws, acts, i, t, key, g, k)
  {
    forall k | 0 <= k < i && k < |acts| && acts[k].thread == t
      ensures !acts[k].step.Join? && !acts[k].step.Look? && !acts[k].step.LookAgain? {
      assert Next(atomic, ws[k], acts[k].thread, acts[k].step, ws[k + 1]);
      if j < k {
        RulesDecideAtOnce(atomic, ws, acts, k, t, j);
      } else if k < j {
        NotYetThere(atomic, ws, acts, k, j, t);
      }
    }
  }

  /** Before it asks, a thread does nothing. */
  lemma NotYetThere(atomic: bool, ws: seq<State>, acts: seq<Action>, k: nat, j: nat, t: nat)
    requires Run(atomic, ws, acts) && k < j < |acts| && acts[j].thread == t && acts[j].step.Authorize?
    ensures t !in ws[k].threads
  {
    assert Next(atomic, ws[j], acts[j].thread, acts[j].step, ws[j + 1]);
    if t in ws[k].threads {
      ListedStays(atomic, ws, acts, k, j, t);
    }
  }

  lemma {:induction false} ListedStays(atomic: bool, ws: seq<State>, acts: seq<Action>, k: nat, i: nat, t: nat)
    requires Run(atomic, ws, acts) && k <= i < |ws| && t in ws[k].threads
    ensures t in ws[i].threads
    decreases i - k
  {
    if k < i {
      var n := i - 1;
      ListedStays(atomic, ws, acts, k, n, t);
      assert Next(atomic, ws[n], acts[n].thread, acts[n].step, ws[n + 1]);
      StaysListed(atomic, ws[n], acts[n].thread, acts[n].step, ws[n + 1], t);
    }
  }

  // ----- exactly when a clear can be outlived -----

  /** The daemon would store a grant for this answer, were its check passed. */
  predicate Storable(a: PromptResult) {
    match a
    case UserDecision(_, scope, ttlSecs) =>
      (match scope
       case Once => false
       case Unspecified => false
       case Ttl => ttlSecs.None? || ttlSecs.value <= MAXIMUM_TTL
       case _ => true)
    case _ => false
  }

  /** A grant of a request that loaded a generation before `g` is cached. */
  ghost predicate Stale(w: State, g: nat) {
    exists key :: key in w.grants && StaleGrant(w, w.grants[key], g)
  }

  ghost predicate StaleGrant(w: State, grant: Grant, g: nat) {
    grant.origin.Remembered? && grant.origin.flight < |w.flights| && w.flights[grant.origin.flight].loaded < g
  }

  /** A thread stands between check and insert with such a request. */
  ghost predicate InWindow(w: State, g: nat) {
    exists u :: u in w.threads && StandsInWindow(w, w.threads[u], g)
  }

  ghost predicate StandsInWindow(w: State, pc: Thread, g: nat) {
    && pc.Inserting? && pc.flight < |w.flights| && w.flights[pc.flight].loaded < g
    && w.flights[pc.flight].answer.Some? && Storable(w.flights[pc.flight].answer.value)
  }

  ghost predicate Clean(w: State, g: nat) {
    w.generation >= g && !Stale(w, g) && !InWindow(w, g)
  }

  /** Flights keep their key and generation, and an answer once given. */
  ghost predicate FlightsPersist(w: State, w': State) {
    |w.flights| <= |w'.flights| && forall f :: 0 <= f < |w.flights| ==> FlightPersists(w.flights[f], w'.flights[f])
  }

  predicate FlightPersists(f: Flight, f': Flight) {
    f'.key == f.key && f'.loaded == f.loaded && (f.answer.Some? ==> f'.answer == f.answer)
  }

  lemma FlightsDo(atomic: bool, w: State, t: nat, s: Step, w': State)
    requires ThreadsOk(w) && Next(atomic, w, t, s, w')
    ensures FlightsPersist(w, w') && w.generation <= w'.generation
  {
    if t in w.threads {
      assert ThreadOk(w, t, w.threads[t]);
    }
  }

  /** An insert stores only under the flight's key, and only for a storable answer. */
  lemma InsertStores(w: State, t: nat, f: nat, checked: nat, todayTtl: nat)
    requires f < |w.flights| && w.flights[f].answer.Some?
    ensures var w' := AfterInsert(w, t, f, checked, todayTtl);
      && (forall key :: key in w'.grants && key != w.flights[f].key ==>
        key in w.grants && w'.grants[key] == w.grants[key])
      && (w'.grants != w.grants ==>
            && Storable(w.flights[f].answer.value) && w.flights[f].key in w'.grants
            && w'.grants[w.flights[f].key].origin.Remembered? && w'.grants[w.flights[f].key].origin.flight == f)
  {
  }

  /** Every grant a step leaves was there before, or was stored by the insert of a passed check. */
  lemma GrantsAfter(atomic: bool, w: State, t: nat, s: Step, w': State, key: GrantKey)
    requires Next(atomic, w, t, s, w') && key in w'.grants
    ensures (key in w.grants && w'.grants[key] == w.grants[key]) || StoredBy(atomic, w, t, s, w'.grants[key])
  {
    if s.Insert? {
      InsertStores(w, t, w.threads[t].flight, w.threads[t].checked, s.todayTtl);
    } else if s.Check? && atomic {
      var f := w.threads[t].flight;
      InsertStores(w.(log := w.log + [CheckPassed(f)]), t, f, |w.log|, s.todayTtl);
    }
  }

  ghost predicate StoredBy(atomic: bool, w: State, t: nat, s: Step, grant: Grant) {
    && grant.origin.Remembered? && grant.origin.flight < |w.flights| && t in w.threads
    && (|| (s.Insert? && w.threads[t].Inserting? && w.threads[t].flight == grant.origin.flight
            && w.flights[grant.origin.flight].answer.Some? && Storable(w.flights[grant.origin.flight].answer.value))
        || (s.Check? && atomic && w.flights[grant.origin.flight].loaded == w.generation))
  }

  lemma StaysFresh(atomic: bool, w: State, t: nat, s: Step, w': State, g: nat)
    requires Inv(w) && Clean(w, g) && Next(atomic, w, t, s, w')
    ensures !Stale(w', g)
  {
    FlightsDo(atomic, w, t, s, w');
    forall key | key in w'.grants ensures !StaleGrant(w', w'.grants[key], g) {
      GrantsAfter(atomic, w, t, s, w', key);
      if key in w.grants && w'.grants[key] == w.grants[key] {
        assert GrantOk(w, key, w.grants[key]) && !StaleGrant(w, w.grants[key], g);
        OldGrantStays(w, w', key, g);
      } else {
        var grant := w'.grants[key];
        assert FlightPersists(w.flights[grant.origin.flight], w'.flights[grant.origin.flight]);
        assert s.Insert? ==> !StandsInWindow(w, w.threads[t], g);
      }
    }
  }

  lemma OldGrantStays(w: State, w': State, key: GrantKey, g: nat)
    requires FlightsPersist(w, w') && key in w.grants && GrantOk(w, key, w.grants[key])
      && !StaleGrant(w, w.grants[key], g)
    ensures !StaleGrant(w', w.grants[key], g)
  {
    if w.grants[key].origin.Remembered? {
      var f := w.grants[key].origin.flight;
      assert FlightPersists(w.flights[f], w'.flights[f]);
    }
  }

  /** Only a passed check puts a thread between check and insert. */
  lemma InsertingAfter(atomic: bool, w: State, t: nat, s: Step, w': State, u: nat)
    requires Next(atomic, w, t, s, w') && u in w'.threads && w'.threads[u].Inserting?
    ensures (u in w.threads && w'.threads[u] == w.threads[u])
         || (w'.threads[u].flight < |w.flights| && w.flights[w'.threads[u].flight].loaded == w.generation)
  {
  }

  lemma StaysOutside(atomic: bool, w: State, t: nat, s: Step, w': State, g: nat)
    requires Inv(w) && Clean(w, g) && Next(atomic, w, t, s, w')
    ensures !InWindow(w', g)
  {
    FlightsDo(atomic, w, t, s, w');
    forall u | u in w'.threads ensures !StandsInWindow(w', w'.threads[u], g) {
      if w'.threads[u].Inserting? {
        InsertingAfter(atomic, w, t, s, w', u);
        if u in w.threads && w'.threads[u] == w.threads[u] {
          assert ThreadOk(w, u, w.threads[u]) && !StandsInWindow(w, w.threads[u], g);
        }
        var f := w'.threads[u].flight;
        assert FlightPersists(w.flights[f], w'.flights[f]);
      }
    }
  }

  lemma CleanNext(atomic: bool, w: State, t: nat, s: Step, w': State, g: nat)
    requires Inv(w) && Clean(w, g) && Next(atomic, w, t, s, w')
    ensures Clean(w', g)
  {
    FlightsDo(atomic, w, t, s, w');
    StaysFresh(atomic, w, t, s, w', g);
    StaysOutside(atomic, w, t, s, w', g);
  }

  lemma RunCleanNext(atomic: bool, ws: seq<State>, acts: seq<Action>, i: nat, g: nat)
    requires Run(atomic, ws, acts) && i + 1 < |ws| && Clean(ws[i], g)
    ensures Clean(ws[i + 1], g)
  {
    RunInv(atomic, ws, acts, i);
    CleanNext(atomic, ws[i], acts[i].thread, acts[i].step, ws[i + 1], g);
  }

  lemma {:induction false} StaysClean(atomic: bool, ws: seq<State>, acts: seq<Action>, k: nat, i: nat, g: nat)
    requires Run(atomic, ws, acts) && k <= i < |ws| && Clean(ws[k], g)
    ensures Clean(ws[i], g)
    decreases i - k
  {
    if k < i {
      var j := i - 1;
      StaysClean(atomic, ws, acts, k, j, g);
      RunCleanNext(atomic, ws, acts, j, g);
      assert ws[j + 1] == ws[i];
    }
  }

  lemma ClearCleans(atomic: bool, w: State, t: nat, w': State, g: nat)
    requires Inv(w) && Next(atomic, w, t, Clear, w') && g <= w.generation && !InWindow(w, g)
    ensures Clean(w', g)
  {
    forall u | u in w'.threads ensures !StandsInWindow(w', w'.threads[u], g) {
      if u != t {
        assert !StandsInWindow(w, w.threads[u], g);
      }
    }
  }

  /** Some continuation of the run has a stale grant in its last state. */
  ghost predicate CanBecomeStale(atomic: bool, ws: seq<State>, acts: seq<Action>, g: nat) {
    exists ws', acts' :: Continues(atomic, ws, acts, ws', acts') && Stale(ws'[|ws'| - 1], g)
  }

  ghost predicate Continues(atomic: bool, ws: seq<State>, acts: seq<Action>, ws': seq<State>, acts': seq<Action>) {
    Run(atomic, ws', acts') && ws <= ws' && acts <= acts'
  }

  /** The generation a change bumped to, read when it clears. */
  ghost function BumpedTo(w: State, t: nat): nat
    requires t in w.threads && w.threads[t].MustClear? && w.threads[t].bumped < |w.log|
      && w.log[w.threads[t].bumped].Bumped?
  {
    w.log[w.threads[t].bumped].generation
  }

  /**
   Exactly when a clear can be outlived. A grant of an older generation can be cached at some point
   after a change has cleared if and only if, when it cleared, some thread stood between the check
   and the insert of a storable answer for a request of an older generation.
   */
  lemma ClearIsOutlivedIff(atomic: bool, ws: seq<State>, acts: seq<Action>, t: nat)
    requires Run(atomic, ws, acts) && acts != [] && acts[|acts| - 1] == Action(t, Clear)
    ensures var w := ws[|acts| - 1];
      && t in w.threads && w.threads[t].MustClear? && w.threads[t].bumped < |w.log|
        && w.log[w.threads[t].bumped].Bumped?
      && (CanBecomeStale(atomic, ws, acts, BumpedTo(w, t)) <==> InWindow(w, BumpedTo(w, t)))
  {
    var k := |acts| - 1;
    var w, w' := ws[k], ws[k + 1];
    RunInv(atomic, ws, acts, k);
    assert Next(atomic, w, acts[k].thread, acts[k].step, w');
    assert ThreadOk(w, t, w.threads[t]);
    var g := BumpedTo(w, t);
    if InWindow(w, g) {
      var u :| u in w.threads && StandsInWindow(w, w.threads[u], g);
      assert w'.threads[u] == w.threads[u] && w'.flights == w.flights;
      OutliveClear(atomic, ws, acts, u, g);
    } else {
      ClearCleans(atomic, w, t, w', g);
      forall ws', acts' | Continues(atomic, ws, acts, ws', acts') ensures !Stale(ws'[|ws'| - 1], g) {
        StaysClean(atomic, ws', acts', k + 1, |ws'| - 1, g);
      }
    }
  }

  lemma OutliveClear(atomic: bool, ws: seq<State>, acts: seq<Action>, u: nat, g: nat)
    requires Run(atomic, ws, acts) && u in ws[|ws| - 1].threads
      && StandsInWindow(ws[|ws| - 1], ws[|ws| - 1].threads[u], g)
    ensures CanBecomeStale(atomic, ws, acts, g)
  {
    var w := ws[|ws| - 1];
    var f, checked := w.threads[u].flight, w.threads[u].checked;
    var w' := AfterInsert(w, u, f, checked, 0);
    Extend(atomic, ws, acts, u, Insert(0), w');
    assert StaleGrant(w', w'.grants[w.flights[f].key], g);
    assert Continues(atomic, ws, acts, ws + [w'], acts + [Action(u, Insert(0))]);
  }
}
