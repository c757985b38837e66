/**
 The persisted daemon-wide policy mode (crates/floria-agent/src/policy_mode.rs:15-138). The class keeps
 a status in memory and one in storage; whatever fails or restarts, it behaves like one function of
 the last successful change and the time.
 */
module PolicyMode {
  import opened Prelude
  import opened Policy

  const I64_MAX: nat := 0x7FFF_FFFF_FFFF_FFFF

  /** `expiresAt` is in Unix seconds; an audit-only mode without it lasts until changed. */
  datatype Status = Status(mode: Mode, expiresAt: Option<nat>)

  const Normal := Status(Enforced, None)

  predicate IsExpired(s: Status, now: nat) {
    s.expiresAt.Some? && s.expiresAt.value <= now
  }

  /** What a status means at a point in time. */
  function Current(s: Status, now: nat): Status {
    if IsExpired(s, now) then Normal else s
  }

  datatype InputError = NormalWithDuration | ZeroDuration | DurationTooLarge | ExpiryOverflows | NotPersisted

  /** The status a change asks for, or why it is refused. */
  function Requested(mode: Mode, duration: Option<nat>, now: nat): Result<Status, InputError> {
    match (mode, duration)
    case (Enforced, None) => Ok(Normal)
    case (Enforced, Some(_)) => Err(NormalWithDuration)
    case (AuditOnly, None) => Ok(Status(AuditOnly, None))
    case (AuditOnly, Some(seconds)) =>
      if seconds == 0 then Err(ZeroDuration)
      else if seconds > I64_MAX then Err(DurationTooLarge)
      else if now + seconds > I64_MAX then Err(ExpiryOverflows)
      else Ok(Status(AuditOnly, Some(now + seconds)))
  }

  datatype Evaluation = Evaluation(configured: Enforcement, effective: Enforcement, mode: Mode)

  class PolicyModeState {
    var status: Status
    var storage: Status

    ghost predicate Valid(clock: nat)
      reads this
    {
      Agree(status, storage, clock)
    }

    ghost function View(): Daemon
      reads this
    {
      Daemon(status, storage)
    }

    /**
     Opens on what storage holds, whatever the daemon before had in memory; a record that fails
     verification counts as normal mode.
     */
    constructor (ghost live: Status, storage: Status, verified: bool, now: nat, persists: bool)
      ensures Valid(now)
      ensures View() == After(Daemon(live, if verified then storage else Normal), Call(ReopenOp, now, persists))
    {
      var loaded := if verified then storage else Normal;
      status := Current(loaded, now);
      this.storage := if IsExpired(loaded, now) && persists then Normal else loaded;
    }

    /** The mode in force. An expired override is dropped at once; writing that down is best effort. */
    method CurrentStatus(now: nat, persists: bool) returns (s: Status)
      modifies this
      ensures View() == After(old(View()), Call(StatusOp, now, persists))
      ensures s == Current(old(status), now) && status == s
      ensures old(Valid(now)) ==> Valid(now)
    {
      if IsExpired(status, now) {
        status := Normal;
        if persists {
          storage := status;
        }
      }
      return status;
    }

    /** A change is written down before it takes effect. */
    method Set(mode: Mode, duration: Option<nat>, now: nat, persists: bool) returns (r: Result<Status, InputError>)
      modifies this
      ensures View() == After(old(View()), Call(SetOp(mode, duration), now, persists))
      ensures r.Ok? <==> persists && (if mode == Enforced then duration == None
        else duration == None || 0 < duration.value <= 9223372036854775807 - now)
      ensures r.Ok? ==>
        && r.value == status == storage && status.mode == mode
        && status.expiresAt == (if duration == None then None else Some(now + duration.value))
      ensures r.Err? ==> status == old(status) && storage == old(storage)
      ensures old(Valid(now)) ==> Valid(now)
    {
      var next :- Requested(mode, duration, now);
      if !persists {
        return Err(NotPersisted);
      }
      storage := next;
      status := next;
      return Ok(next);
    }

    method Evaluate(configured: Enforcement, now: nat, persists: bool) returns (e: Evaluation)
      modifies this
      ensures View() == After(old(View()), Call(EvaluateOp(configured), now, persists))
      ensures e.configured == configured && e.mode == status.mode == Current(old(status), now).mode
      ensures e.effective != configured <==> e.mode == AuditOnly && (configured == Prompt || configured == TouchId)
      ensures e.effective != configured ==> e.effective == Allow
      ensures old(Valid(now)) ==> Valid(now)
    {
      var s := CurrentStatus(now, persists);
      return Evaluation(configured, Effective(s.mode, configured), s.mode);
    }
  }

  /** Memory and storage mean the same from `clock` on. */
  ghost predicate Agree(status: Status, storage: Status, clock: nat) {
    forall now :: now >= clock ==> Current(storage, now) == Current(status, now)
  }

  // ----- every sequence of operations -----

  datatype Op =
    | SetOp(mode: Mode, duration: Option<nat>)
    | StatusOp
    | EvaluateOp(configured: Enforcement)
    | ReopenOp

  /** One operation at a time of the clock; `persists` says whether its write, if any, reaches storage. */
  datatype Call = Call(op: Op, now: nat, persists: bool)

  datatype Daemon = Daemon(status: Status, storage: Status)

  /** The effect of one call; every method and the constructor is one. */
  function After(d: Daemon, c: Call): Daemon {
    match c.op
    case SetOp(mode, duration) =>
      (match Requested(mode, duration, c.now)
       case Ok(next) => if c.persists then Daemon(next, next) else d
       case Err(_) => d)
    case ReopenOp => Daemon(Current(d.storage, c.now), if IsExpired(d.storage, c.now) && c.persists then Normal
      else d.storage)
    case _ => Daemon(Current(d.status, c.now), if IsExpired(d.status, c.now) && c.persists then Normal else d.storage)
  }

  function Run(d: Daemon, calls: seq<Call>): Daemon {
    if calls == [] then d else After(Run(d, calls[..|calls| - 1]), calls[|calls| - 1])
  }

  ghost predicate NonDecreasing(start: nat, calls: seq<Call>) {
    && (forall i :: 0 <= i < |calls| ==> start <= calls[i].now)
    && (forall i, j :: 0 <= i <= j < |calls| ==> calls[i].now <= calls[j].now)
  }

  /** The call is a valid change whose write reached storage. */
  predicate Succeeds(c: Call) {
    c.op.SetOp? && c.persists && Requested(c.op.mode, c.op.duration, c.now).Ok?
  }

  /** The last change that succeeded, ignoring everything else that happened. */
  function LastSet(initial: Status, calls: seq<Call>): Status {
    if calls == [] then initial
    else
      var c := calls[|calls| - 1];
      if Succeeds(c) then Requested(c.op.mode, c.op.duration, c.now).value else LastSet(initial, calls[..|calls| - 1])
  }

  lemma PrefixNonDecreasing(start: nat, calls: seq<Call>)
    requires NonDecreasing(start, calls) && calls != []
    ensures NonDecreasing(start, calls[..|calls| - 1])
  {
  }

  /**
   Policy mode survives crashes. After any sequence of sets, queries and reopens under a
   non-decreasing clock, with writes that may fail, both the live daemon and a daemon reopened from
   storage report, at every later time, exactly the last successful change as of that time.
   */
  lemma {:induction false} SurvivesCrashes(start: nat, initial: Status, calls: seq<Call>, now: nat)
    requires NonDecreasing(start, calls) && start <= now && (forall i :: 0 <= i < |calls| ==> calls[i].now <= now)
    ensures var d := Run(Daemon(initial, initial), calls);
      && Current(d.status, now) == Current(LastSet(initial, calls), now)
      && Current(d.storage, now) == Current(LastSet(initial, calls), now)
    decreases |calls|
  {
    if calls != [] {
      var n := |calls| - 1;
      PrefixNonDecreasing(start, calls);
      SurvivesCrashes(start, initial, calls[..n], now);
      SurvivesCrashes(start, initial, calls[..n], calls[n].now);
      CallMeans(Run(Daemon(initial, initial), calls[..n]), LastSet(initial, calls[..n]), calls[n], now);
    }
  }

  /** Memory and storage both mean `s` at this time. */
  ghost predicate Means(d: Daemon, s: Status, now: nat) {
    Current(d.status, now) == Current(s, now) && Current(d.storage, now) == Current(s, now)
  }

  lemma CallMeans(d: Daemon, s: Status, c: Call, now: nat)
    requires c.now <= now && Means(d, s, c.now) && Means(d, s, now)
    ensures Means(After(d, c), if Succeeds(c) then Requested(c.op.mode, c.op.duration, c.now).value else s, now)
  {
  }

  /** Hence a daemon reopened at any point reports what the live one would have. */
  lemma ReopenReportsTheSame(start: nat, initial: Status, calls: seq<Call>, now: nat, persists: bool)
    requires NonDecreasing(start, calls) && start <= now && (forall i :: 0 <= i < |calls| ==> calls[i].now <= now)
    ensures var d := Run(Daemon(initial, initial), calls);
      After(d, Call(ReopenOp, now, persists)).status == After(d, Call(StatusOp, now, persists)).status
  {
    SurvivesCrashes(start, initial, calls, now);
  }

  lemma {:induction false} LastSetStands(initial: Status, calls: seq<Call>, later: seq<Call>)
    requires forall i :: 0 <= i < |later| ==> !Succeeds(later[i])
    ensures LastSet(initial, calls + later) == LastSet(initial, calls)
    decreases |later|
  {
    if later == [] {
      assert calls + later == calls;
    } else {
      var n := |later| - 1;
      assert (calls + later)[..|calls + later| - 1] == calls + later[..n];
      LastSetStands(initial, calls, later[..n]);
    }
  }

  /**
   After an audit window has expired nothing is relaxed until a new change succeeds, whatever is
   called, fails or restarts in between.
   */
  lemma NothingRelaxedAfterExpiry(start: nat, initial: Status, calls: seq<Call>, later: seq<Call>, now: nat,
      configured: Enforcement)
    requires NonDecreasing(start, calls + later) && start <= now
      && (forall i :: 0 <= i < |calls + later| ==> (calls + later)[i].now <= now)
    requires IsExpired(LastSet(initial, calls), now)
    requires forall i :: 0 <= i < |later| ==> !Succeeds(later[i])
    ensures var d := Run(Daemon(initial, initial), calls + later);
      Effective(Current(d.status, now).mode, configured) == configured
        && Effective(Current(d.storage, now).mode, configured) == configured
  {
    LastSetStands(initial, calls, later);
    SurvivesCrashes(start, initial, calls + later, now);
  }

  /** The configured level asks someone. */
  predicate Interactive(e: Enforcement) {
    e == Prompt || e == TouchId
  }

  lemma LastSetIsLast(initial: Status, calls: seq<Call>, c: Call, later: seq<Call>)
    requires Succeeds(c) && forall i :: 0 <= i < |later| ==> !Succeeds(later[i])
    ensures LastSet(initial, calls + [c] + later) == Requested(c.op.mode, c.op.duration, c.now).value
  {
    LastSetStands(initial, calls + [c], later);
    assert (calls + [c])[..|calls|] == calls;
  }

  /**
   What a change does to every later access, whatever is queried, refused, lost or restarted after
   it: an audit-only window of n seconds waives exactly the prompts of the n seconds from its start,
   one without a duration those of all later times, and a return to normal mode none. A level that
   asks nobody is never changed.
   */
  lemma ChangeGoverns(start: nat, initial: Status, calls: seq<Call>, c: Call, later: seq<Call>, now: nat,
      configured: Enforcement)
    requires NonDecreasing(start, calls + [c] + later) && start <= now
      && (forall i :: 0 <= i < |calls + [c] + later| ==> (calls + [c] + later)[i].now <= now)
    requires c.op.SetOp? && c.persists && forall i :: 0 <= i < |later| ==> !Succeeds(later[i])
    requires c.op.mode == Enforced ==> c.op.duration == None
    requires c.op.duration.Some? ==> 0 < c.op.duration.value <= 9223372036854775807 - c.now
    ensures var d := Run(Daemon(initial, initial), calls + [c] + later);
      var waived := c.op.mode == AuditOnly && Interactive(configured)
        && (c.op.duration.None? || now < c.now + c.op.duration.value);
      Effective(Current(d.status, now).mode, configured) == Effective(Current(d.storage, now).mode, configured)
        == if waived then Allow else configured
  {
    LastSetIsLast(initial, calls, c, later);
    SurvivesCrashes(start, initial, calls + [c] + later, now);
  }
}
