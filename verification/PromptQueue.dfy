/**
 The prompt queue of the menu bar app (PromptPresenter.swift:12-303): one request on screen, later
 ones queued, each with the same bounded lifetime. Every event of the main actor is one method.
 */
module PromptQueue {
  import opened Prelude
  import opened Selection

  const UINT64_MAX: nat := 0xFFFF_FFFF_FFFF_FFFF

  datatype GrantScope = Scope(wire: string, ttlSeconds: Option<nat>)

  datatype Prompt = Prompt(reqID: nat, touchID: bool)
  datatype Pending = Pending(prompt: Prompt, deadline: nat)
  datatype Active = Active(pending: Pending, settling: bool)
  datatype Answer = Answer(prompt: Prompt, allow: bool, scope: Option<GrantScope>)

  datatype Choice = DenyChoice(denyScope: Option<GrantScope>) | AllowChoice(allowScope: GrantScope)

  function PromptOf(p: Pending): Prompt { p.prompt }
  function AnsweredPrompt(a: Answer): Prompt { a.prompt }
  function Denied(p: Pending): Answer { Answer(p.prompt, false, None) }

  /** How many requests at the head of the queue have expired by the times the loop reads. */
  function ExpiredPrefix(queue: seq<Pending>, clock: nat -> nat, k: nat): nat
    decreases |queue|
  {
    if queue != [] && queue[0].deadline <= clock(k) then 1 + ExpiredPrefix(queue[1..], clock, k + 1) else 0
  }

  lemma {:induction false} ExpiredBounds(queue: seq<Pending>, clock: nat -> nat, k: nat)
    ensures var n := ExpiredPrefix(queue, clock, k);
      && n <= |queue|
      && (forall i :: 0 <= i < n ==> queue[i].deadline <= clock(k + i))
      && (n < |queue| ==> queue[n].deadline > clock(k + n))
    decreases |queue|
  {
    if queue != [] && queue[0].deadline <= clock(k) {
      ExpiredBounds(queue[1..], clock, k + 1);
      var n := ExpiredPrefix(queue, clock, k);
      forall i | 0 <= i < n ensures queue[i].deadline <= clock(k + i) {
        if i > 0 {
          assert queue[i] == queue[1..][i - 1];
        }
      }
    }
  }

  class Presenter {
    const lifetime: nat
    var queue: seq<Pending>
    var active: Option<Active>
    var answers: seq<Answer>              // decisions sent back, in order
    var started: map<nat, GrantScope>     // Touch ID evaluations begun, with the scope their callback carries
    ghost var arrivals: seq<Prompt>       // requests shown, in order

    ghost function OnScreen(): seq<Prompt>
      reads this
    {
      if active.Some? then [active.value.pending.prompt] else []
    }

    predicate OnScreenIs(requestID: nat)
      reads this
    {
      active.Some? && active.value.pending.prompt.reqID == requestID
    }

    /** Conservation: answered, then on screen, then queued are the arrivals in order. */
    ghost predicate Conserved()
      reads this
    {
      Map(AnsweredPrompt, answers) + OnScreen() + Map(PromptOf, queue) == arrivals
    }

    /** Nothing waits behind a free screen. */
    ghost predicate Valid()
      reads this
    {
      Conserved() && (active.None? ==> queue == [])
    }

    constructor (lifetime: nat)
      ensures Valid() && queue == [] && active == None && answers == [] && started == map[] && arrivals == []
      ensures this.lifetime == lifetime
    {
      this.lifetime := lifetime;
      queue, active, answers, started, arrivals := [], None, [], map[], [];
    }

    /** The answers given since: `first`, if any, and then only denials of expired requests. */
    twostate predicate Answers(first: seq<Answer>)
      reads this
    {
      && |old(answers)| + |first| <= |answers| && answers[..|old(answers)| + |first|] == old(answers) + first
      && forall i :: |old(answers)| + |first| <= i < |answers| ==> !answers[i].allow && answers[i].scope.None?
    }

    /**
     The screen became free after the answers `first`: exactly the requests at the head of the queue that
     expired by the times read are denied, and the first live one is shown.
     */
    twostate predicate Advances(first: seq<Answer>, clock: nat -> nat)
      reads this
    {
      var n := ExpiredPrefix(old(queue), clock, 0);
      && n <= |old(queue)| && answers == old(answers) + first + Map(Denied, old(queue)[..n])
      && (if n < |old(queue)| then active == Some(Active(old(queue)[n], false)) && queue == old(queue)[n + 1..]
          else active.None? && queue == [])
    }

    /** `presentNextIfNeeded`: denies expired requests at the head of the queue and shows the first live one. */
    method PresentNext(clock: nat -> nat)
      requires Conserved()
      modifies this`queue, this`active, this`answers
      ensures Valid() && Answers([])
      ensures old(active).Some? ==> queue == old(queue) && active == old(active) && answers == old(answers)
      ensures old(active).None? ==> Advances([], clock)
    {
      if active.Some? {
        return;
      }
      ghost var start, before := queue, answers;
      ExpiredBounds(start, clock, 0);
      DenyExpired(clock);
      ghost var n := ExpiredPrefix(start, clock, 0);
      PresentedConserved(before, start, n, arrivals);
      assert before + [] == before;
      if queue != [] {
        assert queue[0] == start[n] && queue[1..] == start[n + 1..];
        active := Some(Active(queue[0], false));
        queue := queue[1..];
      }
    }

    /** The loop: expired requests at the head of the queue are denied unseen. */
    method DenyExpired(clock: nat -> nat)
      modifies this`queue, this`answers
      ensures var n := ExpiredPrefix(old(queue), clock, 0);
        n <= |old(queue)| && answers == old(answers) + Map(Denied, old(queue)[..n]) && queue == old(queue)[n..]
    {
      ghost var start := queue;
      ExpiredBounds(start, clock, 0);
      ghost var n := ExpiredPrefix(start, clock, 0);
      var k := 0;
      while queue != [] && queue[0].deadline <= clock(k)
        invariant k <= n && queue == start[k..]
        invariant answers == old(answers) + Map(Denied, start[..k])
        decreases |queue|
      {
        assert start[..k + 1] == start[..k] + [queue[0]];
        MapAppend(Denied, start[..k], queue[0]);
        answers := answers + [Denied(queue[0])];
        queue := queue[1..];
        k := k + 1;
      }
    }

    /** When a request that arrives now expires: the sum saturates at the largest 64-bit number. */
    ghost function Deadline(now: nat): nat {
      if now + lifetime <= 18446744073709551615 then now + lifetime else 18446744073709551615
    }

    method Show(prompt: Prompt, now: nat, clock: nat -> nat)
      requires Valid()
      modifies this
      ensures Valid() && arrivals == old(arrivals) + [prompt] && started == old(started) && Answers([])
      ensures old(active).Some? ==>
        && active == old(active) && answers == old(answers)
        && queue == old(queue) + [Pending(prompt, Deadline(now))]
      ensures old(active).None? ==>
        && queue == []
        && (if Deadline(now) <= clock(0) then active.None? && answers == old(answers) + [Answer(prompt, false, None)]
            else answers == old(answers) && active == Some(Active(Pending(prompt, Deadline(now)), false)))
    {
      var deadline := if now + lifetime > UINT64_MAX then UINT64_MAX else now + lifetime;
      var pending := Pending(prompt, deadline);
      MapAppend(PromptOf, queue, pending);
      queue := queue + [pending];
      arrivals := arrivals + [prompt];
      PresentNext(clock);
    }

    /** `complete`: the request on screen is answered and the next one presented. */
    method CompleteActive(allow: bool, scope: Option<GrantScope>, clock: nat -> nat)
      requires Valid() && active.Some?
      modifies this`queue, this`active, this`answers
      ensures Valid() && Answers([Answer(old(active).value.pending.prompt, allow, scope)])
      ensures Advances([Answer(old(active).value.pending.prompt, allow, scope)], clock)
    {
      var answer := Answer(active.value.pending.prompt, allow, scope);
      MapAppend(AnsweredPrompt, answers, answer);
      answers := answers + [answer];
      active := None;
      PresentNext(clock);
    }

    /** A button or the window's close box. It counts only for the request on screen, and once. */
    method Settle(choice: Choice, requestID: nat, clock: nat -> nat)
      requires Valid()
      modifies this
      ensures Valid() && arrivals == old(arrivals)
      ensures !(old(OnScreenIs(requestID)) && !old(active).value.settling) ==>
        queue == old(queue) && active == old(active) && answers == old(answers) && started == old(started)
      ensures old(OnScreenIs(requestID)) && !old(active).value.settling ==>
        var prompt := old(active).value.pending.prompt;
        match choice
        case DenyChoice(scope) =>
          && started == old(started) && Answers([Answer(prompt, false, scope)])
          && Advances([Answer(prompt, false, scope)], clock)
        case AllowChoice(scope) =>
          if prompt.touchID then
            && answers == old(answers) && queue == old(queue) && active == Some(old(active).value.(settling := true))
            && started == old(started)[requestID := scope]
          else
            && started == old(started) && Answers([Answer(prompt, true, Some(scope))])
            && Advances([Answer(prompt, true, Some(scope))], clock)
    {
      if active.None? || active.value.pending.prompt.reqID != requestID || active.value.settling {
        return;
      }
      active := Some(active.value.(settling := true));
      match choice {
        case DenyChoice(scope) =>
          CompleteActive(false, scope, clock);
        case AllowChoice(scope) =>
          if active.value.pending.prompt.touchID {
            started := started[requestID := scope];
          } else {
            CompleteActive(true, Some(scope), clock);
          }
      }
    }

    /** The lifetime of the request on screen is over. */
    method Expire(requestID: nat, clock: nat -> nat)
      requires Valid()
      modifies this
      ensures Valid() && arrivals == old(arrivals) && started == old(started)
      ensures if old(OnScreenIs(requestID)) then
                && Answers([Denied(old(active).value.pending)])
                && Advances([Answer(old(active).value.pending.prompt, false, None)], clock)
              else answers == old(answers) && active == old(active) && queue == old(queue)
    {
      if active.None? || active.value.pending.prompt.reqID != requestID {
        return;
      }
      active := Some(active.value.(settling := true));
      CompleteActive(false, None, clock);
    }

    /** A Touch ID evaluation that was started for this request reports; its callback carries the pressed scope. */
    method CompleteBiometric(allowed: bool, requestID: nat, clock: nat -> nat)
      requires Valid() && requestID in started
      modifies this
      ensures Valid() && arrivals == old(arrivals) && started == old(started)
      ensures if old(OnScreenIs(requestID)) then
                var answer := Answer(old(active).value.pending.prompt, allowed,
                                     if allowed then Some(started[requestID]) else None);
                Answers([answer]) && Advances([answer], clock)
              else answers == old(answers) && active == old(active) && queue == old(queue)
    {
      if active.None? || active.value.pending.prompt.reqID != requestID {
        return;
      }
      CompleteActive(allowed, if allowed then Some(started[requestID]) else None, clock);
    }

    /** Distinct requests are answered at most once. */
    lemma AnsweredOnce(i: nat, j: nat)
      requires Valid() && Distinct(arrivals) && i < j < |answers|
      ensures answers[i].prompt != answers[j].prompt
    {
      assert arrivals[i] == Map(AnsweredPrompt, answers)[i] && arrivals[j] == Map(AnsweredPrompt, answers)[j];
    }
  }

  lemma PresentedConserved(answers: seq<Answer>, start: seq<Pending>, n: nat, arrivals: seq<Prompt>)
    requires n <= |start| && Map(AnsweredPrompt, answers) + [] + Map(PromptOf, start) == arrivals
    ensures n < |start| ==>
      Map(AnsweredPrompt, answers + Map(Denied, start[..n])) + [start[n].prompt] + Map(PromptOf, start[n + 1..])
        == arrivals
    ensures n == |start| ==> Map(AnsweredPrompt, answers + Map(Denied, start[..n])) + [] + Map(PromptOf, []) == arrivals
  {
    assert arrivals == Map(AnsweredPrompt, answers) + Map(PromptOf, start);
  }

  // ----- every interleaving -----

  datatype Event =
    | Shown(prompt: Prompt, now: nat)
    | Pressed(choice: Choice, pressedID: nat)
    | WindowClosed(closedID: nat)
    | TimedOut(timedOutID: nat)
    | TouchReported(allowed: bool, touchedID: nat)

  function AsShown(e: Event): Option<Prompt> {
    if e.Shown? then Some(e.prompt) else None
  }

  /** The request with this id was shown and later its allow button pressed with this scope, both before step `k`. */
  ghost predicate PressedBefore(events: seq<Event>, k: nat, id: nat, scope: GrantScope) {
    exists s, p :: 0 <= s < p < k && p < |events|
      && events[s].Shown? && events[s].prompt.reqID == id && events[p] == Pressed(AllowChoice(scope), id)
  }

  ghost predicate ShownBy(events: seq<Event>, k: nat, prompt: Prompt) {
    exists s :: 0 <= s <= k && s < |events| && events[s].Shown? && events[s].prompt == prompt
  }

  /**
   Step `k` produced the answer. An allow is the allow press itself or the successful Touch ID report
   itself, after the allow press whose scope it carries; a Touch ID request is allowed only by the
   report. A denial carries a scope only if it is the deny press with that scope.
   */
  ghost predicate Produces(events: seq<Event>, k: nat, a: Answer) {
    && k < |events| && ShownBy(events, k, a.prompt)
    && var id := a.prompt.reqID;
    if a.allow then
      && a.scope.Some?
      && (|| (events[k] == TouchReported(true, id) && PressedBefore(events, k, id, a.scope.value))
          || (!a.prompt.touchID && events[k] == Pressed(AllowChoice(a.scope.value), id)))
    else a.scope.Some? ==> events[k] == Pressed(DenyChoice(a.scope), id)
  }

  /** What one event can answer, given the Touch ID evaluations begun before it. */
  ghost predicate AnswersTo(e: Event, started: map<nat, GrantScope>, a: Answer) {
    var id := a.prompt.reqID;
    if a.allow then
      && a.scope.Some?
      && (|| (e == TouchReported(true, id) && id in started && started[id] == a.scope.value)
          || (!a.prompt.touchID && e == Pressed(AllowChoice(a.scope.value), id)))
    else a.scope.Some? ==> e == Pressed(DenyChoice(a.scope), id)
  }

  /** One evaluation begun: by this event, for a request that was shown, with the pressed scope. */
  ghost predicate StartsBy(e: Event, arrivals: seq<Prompt>, id: nat, scope: GrantScope) {
    e == Pressed(AllowChoice(scope), id) && exists prompt :: prompt in arrivals && prompt.reqID == id
  }

  method HandlePress(p: Presenter, choice: Choice, id: nat, clock: nat -> nat)
    requires p.Valid()
    modifies p
    ensures p.Valid() && p.arrivals == old(p.arrivals)
    ensures |old(p.answers)| <= |p.answers| && p.answers[..|old(p.answers)|] == old(p.answers)
    ensures forall i :: |old(p.answers)| <= i < |p.answers| ==>
      AnswersTo(Pressed(choice, id), old(p.started), p.answers[i])
    ensures forall k :: k in p.started ==>
      || (k in old(p.started) && p.started[k] == old(p.started)[k])
      || StartsBy(Pressed(choice, id), old(p.arrivals), k, p.started[k])
  {
    OnScreenArrived(p);
    p.Settle(choice, id, clock);
  }

  /** One event of the main actor; a Touch ID report exists only for an evaluation that was started. */
  method Handle(p: Presenter, e: Event, clock: nat -> nat)
    requires p.Valid()
    modifies p
    ensures p.Valid() && p.arrivals == old(p.arrivals) + Chosen(AsShown, e)
    ensures |old(p.answers)| <= |p.answers| && p.answers[..|old(p.answers)|] == old(p.answers)
    ensures forall i :: |old(p.answers)| <= i < |p.answers| ==> AnswersTo(e, old(p.started), p.answers[i])
    ensures forall id :: id in p.started ==>
      (id in old(p.started) && p.started[id] == old(p.started)[id]) || StartsBy(e, old(p.arrivals), id, p.started[id])
  {
    match e {
      case Shown(prompt, now) => p.Show(prompt, now, clock);
      case Pressed(choice, id) => HandlePress(p, choice, id, clock);
      case WindowClosed(id) => p.Settle(DenyChoice(None), id, clock);
      case TimedOut(id) => p.Expire(id, clock);
      case TouchReported(allowed, id) =>
        if id in p.started {
          p.CompleteBiometric(allowed, id, clock);
        }
    }
  }

  lemma OnScreenArrived(p: Presenter)
    requires p.Valid()
    ensures p.active.Some? ==> p.active.value.pending.prompt in p.arrivals
  {
    if p.active.Some? {
      var n := |p.answers|;
      assert p.arrivals[n] == p.active.value.pending.prompt;
    }
  }

  /** Each answer has the step that produced it; each evaluation begun has its press behind it. */
  ghost predicate Explained(events: seq<Event>, k: nat, answers: seq<Answer>, causes: seq<nat>,
      started: map<nat, GrantScope>) {
    && |causes| == |answers| && (forall i ::
      0 <= i < |causes| ==> causes[i] < k && Produces(events, causes[i], answers[i]))
    && (forall i, j :: 0 <= i < j < |causes| ==> causes[i] <= causes[j])
    && (forall id :: id in started ==> PressedBefore(events, k, id, started[id]))
  }

  lemma ShownEarlier(events: seq<Event>, k: nat, prompt: Prompt)
    requires k < |events| && prompt in Select(AsShown, events[..k + 1])
    ensures ShownBy(events, k, prompt)
  {
    SelectedFrom(AsShown, events[..k + 1], prompt);
    var e :| e in events[..k + 1] && AsShown(e) == Some(prompt);
    var s :| 0 <= s <= k && events[s] == e;
  }

  lemma AnswerExplained(events: seq<Event>, k: nat, started: map<nat, GrantScope>, a: Answer)
    requires k < |events| && AnswersTo(events[k], started, a) && a.prompt in Select(AsShown, events[..k + 1])
    requires forall id :: id in started ==> PressedBefore(events, k, id, started[id])
    ensures Produces(events, k, a)
  {
    ShownEarlier(events, k, a.prompt);
  }

  lemma StartExplained(events: seq<Event>, k: nat, arrivals: seq<Prompt>, id: nat, scope: GrantScope)
    requires k < |events| && arrivals == Select(AsShown, events[..k]) && StartsBy(events[k], arrivals, id, scope)
    ensures PressedBefore(events, k + 1, id, scope)
  {
    var prompt :| prompt in arrivals && prompt.reqID == id;
    SelectedFrom(AsShown, events[..k], prompt);
    var e :| e in events[..k] && AsShown(e) == Some(prompt);
    var s :| 0 <= s < k && events[s] == e;
    assert events[s].Shown? && events[k] == Pressed(AllowChoice(scope), id);
  }

  lemma StartsExplained(events: seq<Event>, k: nat, arrivals: seq<Prompt>, before: map<nat, GrantScope>,
      after: map<nat, GrantScope>)
    requires k < |events| && arrivals == Select(AsShown, events[..k])
    requires forall id :: id in before ==> PressedBefore(events, k, id, before[id])
    requires forall id :: id in after ==>
      (id in before && after[id] == before[id]) || StartsBy(events[k], arrivals, id, after[id])
    ensures forall id :: id in after ==> PressedBefore(events, k + 1, id, after[id])
  {
    forall id | id in after ensures PressedBefore(events, k + 1, id, after[id]) {
      if id in before && after[id] == before[id] {
        var s, p :| 0 <= s < p < k && p < |events|
          && events[s].Shown? && events[s].prompt.reqID == id && events[p] == Pressed(AllowChoice(before[id]), id);
      } else {
        StartExplained(events, k, arrivals, id, after[id]);
      }
    }
  }

  /** The answers of one more step are explained by that step. */
  lemma NextExplained(events: seq<Event>, k: nat, answers: seq<Answer>, causes: seq<nat>, started: map<nat, GrantScope>,
                      answers': seq<Answer>, started': map<nat, GrantScope>, arrivals: seq<Prompt>)
                        returns (causes': seq<nat>)
    requires k < |events| && Explained(events, k, answers, causes, started) && arrivals == Select(AsShown, events[..k])
    requires |answers| <= |answers'| && answers'[..|answers|] == answers
    requires forall i :: |answers| <= i < |answers'| ==> AnswersTo(events[k], started, answers'[i])
    requires forall i :: 0 <= i < |answers'| ==> answers'[i].prompt in Select(AsShown, events[..k + 1])
    requires forall id :: id in started' ==>
      (id in started && started'[id] == started[id]) || StartsBy(events[k], arrivals, id, started'[id])
    ensures Explained(events, k + 1, answers', causes', started')
  {
    causes' := causes + seq(|answers'| - |answers|, _ => k);
    StartsExplained(events, k, arrivals, started, started');
    forall i | 0 <= i < |causes'| ensures causes'[i] < k + 1 && Produces(events, causes'[i], answers'[i]) {
      if i < |answers| {
        assert answers'[i] == answers'[..|answers|][i] == answers[i];
      } else {
        AnswerExplained(events, k, started, answers'[i]);
      }
    }
  }

  lemma AnswersArrived(p: Presenter)
    requires p.Valid()
    ensures forall i :: 0 <= i < |p.answers| ==> p.answers[i].prompt in p.arrivals
  {
    forall i | 0 <= i < |p.answers| ensures p.answers[i].prompt in p.arrivals {
      assert p.arrivals[i] == p.answers[i].prompt;
    }
  }

  /**
   Any interleaving of requests, buttons, window closes, Touch ID reports and timeouts: requests are
   answered in arrival order and none is lost, and each answer is produced by an event of the run:
   an allow by its own click, under Touch ID by its own successful report after its own click.
   */
  method Replay(lifetime: nat, events: seq<Event>, clocks: nat -> nat -> nat)
      returns (p: Presenter, ghost causes: seq<nat>)
    ensures fresh(p) && Map(AnsweredPrompt, p.answers) + p.OnScreen() + Map(PromptOf, p.queue)
      == Select(AsShown, events)
    ensures p.active.None? ==> p.queue == []
    ensures |causes| == |p.answers| && forall i :: 0 <= i < |causes| ==> Produces(events, causes[i], p.answers[i])
    ensures forall i, j :: 0 <= i < j < |causes| ==> causes[i] <= causes[j]
  {
    p := new Presenter(lifetime);
    causes := [];
    for k := 0 to |events|
      invariant p.Valid() && fresh(p) && p.arrivals == Select(AsShown, events[..k])
      invariant Explained(events, k, p.answers, causes, p.started)
    {
      causes := ReplayStep(p, events, k, clocks(k), causes);
    }
    assert events[..|events|] == events;
  }

  method ReplayStep(p: Presenter, events: seq<Event>, k: nat, clock: nat -> nat, ghost causes: seq<nat>)
      returns (ghost causes': seq<nat>)
    requires p.Valid() && k < |events| && p.arrivals == Select(AsShown, events[..k])
    requires Explained(events, k, p.answers, causes, p.started)
    modifies p
    ensures p.Valid() && p.arrivals == Select(AsShown, events[..k + 1])
    ensures Explained(events, k + 1, p.answers, causes', p.started)
  {
    ghost var answers, started, arrivals := p.answers, p.started, p.arrivals;
    Handle(p, events[k], clock);
    SelectNext(events, k);
    AnswersArrived(p);
    causes' := NextExplained(events, k, answers, causes, started, p.answers, p.started, arrivals);
  }

  lemma SelectNext(events: seq<Event>, k: nat)
    requires k < |events|
    ensures Select(AsShown, events[..k + 1]) == Select(AsShown, events[..k]) + Chosen(AsShown, events[k])
  {
    assert events[..k + 1] == events[..k] + [events[k]];
    SelectAppend(AsShown, events[..k], events[k]);
  }
}
