// Over any run of the retention controller, with a clock that does not go back,
// the active deadline is enforced once, on time, and never forgotten.
module BriefRetentionRuns {
  import opened Texts
  import opened KeyCodec
  import opened BriefRecord
  import opened BriefPersistence
  import opened BriefPersistenceRuns
  import opened BriefRetention

  datatype Call =
    | Activate(identity: BriefIdentity, deadline: Text, clock: Clock, effective: bool)
    | ChangeIdentity(identity: BriefIdentity, clock: Clock, effective: bool)
    | Dispose(clock: Clock, effective: bool)
    | Fire(timer: nat, clock: Clock)

  // effective tells whether a cancelled timer really does not fire.
  function Next(env: BriefEnvironment, s: State, call: Call): State {
    match call
    case Activate(identity, deadline, clock, effective) => ActivatingDeadline(env, s, identity, deadline, clock, effective).0
    case ChangeIdentity(identity, _, effective) => ChangingIdentity(s, identity, effective).0
    case Dispose(_, effective) => Disposing(s, effective)
    case Fire(i, clock) => Firing(env, s, i, clock)
  }

  function After(env: BriefEnvironment, s: State, calls: seq<Call>): State
    decreases |calls|
  {
    if calls == [] then s else After(env, Next(env, s, calls[0]), calls[1..])
  }

  predicate Ordered(clock: Clock) { clock.first <= clock.second <= clock.third }

  // A clock that never goes back, within a call and from call to call.
  predicate Timely(calls: seq<Call>, since: int)
    decreases |calls|
  {
    calls == [] || (since <= calls[0].clock.first && Ordered(calls[0].clock) && Timely(calls[1..], calls[0].clock.third))
  }

  // ---------------------------------------------------------------- invariant

  // The live activation has a pending timer that is due by its deadline.
  ghost predicate Armed(s: State) {
    s.active.Some? ==>
      exists i :: i in s.pending && i < |s.timers| && s.timers[i].active == s.active.value
                  && s.timers[i].due <= s.active.value.deadline
  }

  ghost predicate Current(s: State) {
    && (s.active.Some? ==> s.active.value.activation == s.activation)
    && (forall i :: 0 <= i < |s.timers| ==> s.timers[i].active.activation <= s.activation)
    && (forall i :: i in s.pending ==> i < |s.timers|)
  }

  // One activation expires at most once, not while it is still active, and not
  // before its deadline.
  ghost predicate ExpiredOnce(s: State) {
    && (forall i, j :: 0 <= i < j < |s.expiries| ==> s.expiries[i].activation != s.expiries[j].activation)
    && (forall i :: 0 <= i < |s.expiries| ==>
          && s.expiries[i].activation <= s.activation
          && (s.active.Some? ==> s.expiries[i].activation != s.active.value.activation)
          && (s.expiries[i].deadline.Some? ==> s.expiries[i].deadline.value <= s.expiries[i].at))
  }

  // A timer carries the deadline of its activation.
  ghost predicate TimersAgree(s: State) {
    forall i :: 0 <= i < |s.timers| && s.active.Some? && s.timers[i].active.activation == s.active.value.activation ==>
      s.timers[i].active == s.active.value
  }

  ghost predicate Enforced(s: State) {
    Armed(s) && Current(s) && ExpiredOnce(s) && TimersAgree(s)
  }

  lemma SchedulingKeeps(env: BriefEnvironment, s: State, now: int, later: int)
    requires Current(s) && ExpiredOnce(s) && TimersAgree(s) && now <= later
    ensures Enforced(Scheduling(env, s, now, later).0)
  {
    hide ClearingRecord, Sweeping;
    var t := Scheduling(env, s, now, later).0;
    if t.active.Some? { assert |s.timers| in t.pending && t.timers[|s.timers|].active == t.active.value; }
  }

  lemma ChangingKeeps(s: State, identity: BriefIdentity, effective: bool)
    requires Enforced(s)
    ensures Enforced(ChangingIdentity(s, identity, effective).0)
  {
    hide ClearingRecord;
  }

  lemma StoppedKeeps(env: BriefEnvironment, s: State, identity: BriefIdentity, now: int, effective: bool)
    requires Enforced(s)
    ensures var next := Restarting(env, s, identity, now, effective);
      && next.activation > s.activation && next.expiries == s.expiries
      && Current(next.(active := None)) && ExpiredOnce(next.(active := None))
  {
    hide ClearingRecord, Sweeping;
  }

  lemma RestartIsNew(env: BriefEnvironment, s: State, identity: BriefIdentity, now: int, effective: bool)
    requires Enforced(s)
    ensures var next := Restarting(env, s, identity, now, effective);
      && (forall i :: 0 <= i < |next.timers| ==> next.timers[i].active.activation < next.activation)
      && (forall i :: 0 <= i < |next.expiries| ==> next.expiries[i].activation < next.activation)
  {
    hide ClearingRecord, Sweeping;
  }

  lemma ActivatingKeeps(env: BriefEnvironment, s: State, identity: BriefIdentity, deadline: Text, clock: Clock, effective: bool)
    requires Enforced(s) && Ordered(clock)
    ensures Enforced(ActivatingDeadline(env, s, identity, deadline, clock, effective).0)
  {
    if Bounded(identity) {
      StoppedKeeps(env, s, identity, clock.first, effective);
      var next := Restarting(env, s, identity, clock.first, effective);
      RestartIsNew(env, s, identity, clock.first, effective);
      hide ClearingRecord, Sweeping, Restarting;
      if IsActiveDeadline(env, deadline, clock.second) {
        var armed := next.(active := Some(Active(identity, env.parseDate(deadline).value, next.activation)));
        assert Current(armed) && ExpiredOnce(armed) && TimersAgree(armed);
        SchedulingKeeps(env, armed, clock.third, clock.third);
      }
    }
  }

  lemma FiringKeeps(env: BriefEnvironment, s: State, i: nat, clock: Clock)
    requires Enforced(s) && Ordered(clock)
    ensures Enforced(Firing(env, s, i, clock))
  {
    if i in s.pending && i < |s.timers| {
      var captured := s.timers[i].active;
      var fired := s.(timer := None, pending := s.pending - {i});
      hide ClearingRecord, Sweeping;
      assert Current(fired) && ExpiredOnce(fired) && TimersAgree(fired);
      if s.active.None? || s.active.value.activation != captured.activation || s.active.value.identity != captured.identity {
        StaleFireKeepsArmed(s, i);
      } else if clock.first < captured.deadline {
        SchedulingKeeps(env, fired, clock.second, clock.third);
      }
    }
  }

  lemma StaleFireKeepsArmed(s: State, i: nat)
    requires Enforced(s) && i in s.pending && i < |s.timers|
    requires s.active.None? || s.timers[i].active != s.active.value
    ensures Armed(s.(timer := None, pending := s.pending - {i}))
  {
    if s.active.Some? {
      var j :| j in s.pending && j < |s.timers| && s.timers[j].active == s.active.value
               && s.timers[j].due <= s.active.value.deadline;
      assert j in s.pending - {i};
    }
  }

  lemma NextKeeps(env: BriefEnvironment, s: State, call: Call)
    requires Enforced(s) && Ordered(call.clock)
    ensures Enforced(Next(env, s, call))
  {
    hide Enforced;
    match call {
      case Activate(identity, deadline, clock, effective) => ActivatingKeeps(env, s, identity, deadline, clock, effective);
      case ChangeIdentity(identity, _, effective) => ChangingKeeps(s, identity, effective);
      case Dispose(_, effective) => DisposingKeeps(s, effective);
      case Fire(i, clock) => FiringKeeps(env, s, i, clock);
    }
  }

  lemma DisposingKeeps(s: State, effective: bool)
    requires Enforced(s)
    ensures Enforced(Disposing(s, effective))
  {
  }

  lemma {:induction false} RunKeeps(env: BriefEnvironment, s: State, calls: seq<Call>, since: int)
    requires Enforced(s) && Timely(calls, since)
    ensures Enforced(After(env, s, calls))
    decreases |calls|
  {
    hide Enforced, Next;
    if calls != [] {
      NextKeeps(env, s, calls[0]);
      RunKeeps(env, Next(env, s, calls[0]), calls[1..], calls[0].clock.third);
    }
  }

  function Start(items: Items): State { State(None, None, 0, None, [], {}, [], items) }

  // ------------------------------------------------------------ main results

  // In every run, whatever fires and whether or not cancelling works: no
  // activation expires twice, none expires before its deadline, and an active
  // deadline always has a pending timer due no later than it.
  lemma DeadlinesEnforced(env: BriefEnvironment, items: Items, calls: seq<Call>, since: int)
    requires Timely(calls, since)
    ensures Enforced(After(env, Start(items), calls))
  {
    RunKeeps(env, Start(items), calls, since);
  }

  // onExpired with a deadline is only ever called for the live activation, and
  // that activation's record is gone by then.
  lemma ExpiresOnlyLive(env: BriefEnvironment, s: State, i: nat, clock: Clock)
    requires Enforced(s) && Ordered(clock)
    requires var t := Firing(env, s, i, clock); t.expiries != s.expiries
    ensures var t := Firing(env, s, i, clock);
      && s.active.Some?
      && t.active.None?
      && (exists at :: t.expiries == s.expiries + [Expiry(s.active.value.identity, Some(s.active.value.deadline), s.activation, at)]
                       && s.active.value.deadline <= at)
      && (KeyOf(s.active.value.identity).Some? ==> KeyOf(s.active.value.identity).value !in t.items)
  {
    hide KeyOf, InNamespace, Survives;
    var at := if clock.first < s.timers[i].active.deadline then clock.third else clock.second;
    assert s.active == Some(s.timers[i].active);
    assert Firing(env, s, i, clock).expiries
        == s.expiries + [Expiry(s.active.value.identity, Some(s.active.value.deadline), s.activation, at)];
  }

  // Once superseded - by an activation, a change of identity or a disposal - an
  // activation never expires again, even if its cancelled timer fires.
  ghost predicate Superseded(s: State, activation: nat) {
    activation < s.activation || (activation == s.activation && s.active.None?)
  }

  lemma NextKeepsSuperseded(env: BriefEnvironment, s: State, call: Call, activation: nat)
    requires Enforced(s) && Superseded(s, activation)
    ensures var t := Next(env, s, call);
      && Superseded(t, activation)
      && |s.expiries| <= |t.expiries| && t.expiries[..|s.expiries|] == s.expiries
      && forall j :: |s.expiries| <= j < |t.expiries| ==> t.expiries[j].activation != activation
  {
    hide ClearingRecord, Sweeping, Bounded, IsActiveDeadline, Armed, ExpiredOnce;
  }

  lemma {:induction false} SupersededNeverExpires(env: BriefEnvironment, s: State, calls: seq<Call>, since: int, activation: nat)
    requires Enforced(s) && Superseded(s, activation) && Timely(calls, since)
    ensures var t := After(env, s, calls);
      && |s.expiries| <= |t.expiries|
      && forall j :: |s.expiries| <= j < |t.expiries| ==> t.expiries[j].activation != activation
    decreases |calls|
  {
    hide Enforced, Next, Superseded;
    if calls != [] {
      NextKeepsSuperseded(env, s, calls[0], activation);
      NextKeeps(env, s, calls[0]);
      SupersededNeverExpires(env, Next(env, s, calls[0]), calls[1..], calls[0].clock.third, activation);
      var t, u := Next(env, s, calls[0]), After(env, s, calls);
      ExpiriesGrow(env, t, calls[1..]);
      forall j | |s.expiries| <= j < |u.expiries| ensures u.expiries[j].activation != activation {
        if j < |t.expiries| { assert u.expiries[..|t.expiries|][j] == t.expiries[j]; }
      }
    }
  }

  lemma NextGrows(env: BriefEnvironment, s: State, call: Call)
    ensures var t := Next(env, s, call); |s.expiries| <= |t.expiries| && t.expiries[..|s.expiries|] == s.expiries
  {
    hide ClearingRecord, Sweeping, Bounded, IsActiveDeadline;
  }

  lemma {:induction false} ExpiriesGrow(env: BriefEnvironment, s: State, calls: seq<Call>)
    ensures var t := After(env, s, calls); |s.expiries| <= |t.expiries| && t.expiries[..|s.expiries|] == s.expiries
    decreases |calls|
  {
    hide Next;
    if calls != [] {
      NextGrows(env, s, calls[0]);
      ExpiriesGrow(env, Next(env, s, calls[0]), calls[1..]);
      var t, u := Next(env, s, calls[0]), After(env, s, calls);
      assert u.expiries[..|s.expiries|] == u.expiries[..|t.expiries|][..|s.expiries|];
    }
  }

  // ----------------------------------------------------------------- re-arming

  function Rearms(remaining: int): nat {
    if remaining <= 0 then 0
    else (remaining + MAXIMUM_RETENTION_TIMER_DELAY_MS - 1) / MAXIMUM_RETENTION_TIMER_DELAY_MS
  }

  // The latest timer belongs to the live activation and was armed at a time.
  ghost predicate ArmedAt(s: State, now: int) {
    && s.active.Some? && s.timers != [] && (|s.timers| - 1) in s.pending
    && var timer := s.timers[|s.timers| - 1];
       timer.active == s.active.value && now < timer.active.deadline
       && timer.due == now + if timer.active.deadline - now < MAXIMUM_RETENTION_TIMER_DELAY_MS
                             then timer.active.deadline - now else MAXIMUM_RETENTION_TIMER_DELAY_MS
  }

  // The latest timer fires, each time at or after its due time.
  function FiringLatest(env: BriefEnvironment, s: State, clocks: seq<Clock>): State
    decreases |clocks|
  {
    if clocks == [] || s.active.None? || s.timers == [] then s
    else FiringLatest(env, Firing(env, s, |s.timers| - 1, clocks[0]), clocks[1..])
  }

  predicate OnTime(env: BriefEnvironment, s: State, clocks: seq<Clock>)
    decreases |clocks|
  {
    clocks == [] || s.active.None? || s.timers == []
    || (Ordered(clocks[0]) && s.timers[|s.timers| - 1].due <= clocks[0].first
        && OnTime(env, Firing(env, s, |s.timers| - 1, clocks[0]), clocks[1..]))
  }

  lemma RearmStep(env: BriefEnvironment, s: State, now: int, clock: Clock)
    requires ArmedAt(s, now) && Ordered(clock) && s.timers[|s.timers| - 1].due <= clock.first
    ensures var t := Firing(env, s, |s.timers| - 1, clock);
      || t.active.None?
      || (ArmedAt(t, clock.second) && t.active == s.active && now + MAXIMUM_RETENTION_TIMER_DELAY_MS <= clock.second)
  {
    hide ClearingRecord, Sweeping;
  }

  lemma RearmsShrink(remaining: int, after: int)
    requires 0 < remaining && after <= remaining - MAXIMUM_RETENTION_TIMER_DELAY_MS
    ensures Rearms(after) < Rearms(remaining)
  {
  }

  // However far away the deadline is, after ceil(remaining / 2147483647)
  // on-time firings the activation has expired.
  lemma {:induction false} RearmingEnds(env: BriefEnvironment, s: State, now: int, clocks: seq<Clock>)
    requires ArmedAt(s, now) && OnTime(env, s, clocks)
    requires |clocks| >= Rearms(s.active.value.deadline - now)
    ensures FiringLatest(env, s, clocks).active.None?
    decreases |clocks|
  {
    hide Firing;
    var remaining := s.active.value.deadline - now;
    assert Rearms(remaining) >= 1;
    RearmStep(env, s, now, clocks[0]);
    var t := Firing(env, s, |s.timers| - 1, clocks[0]);
    if t.active.Some? {
      RearmsShrink(remaining, t.active.value.deadline - clocks[0].second);
      RearmingEnds(env, t, clocks[0].second, clocks[1..]);
    }
  }

  // Activating a deadline in force arms such a timer.
  lemma ActivationArms(env: BriefEnvironment, s: State, identity: BriefIdentity, deadline: Text, clock: Clock, effective: bool)
    requires ActivatingDeadline(env, s, identity, deadline, clock, effective).1
    ensures ArmedAt(ActivatingDeadline(env, s, identity, deadline, clock, effective).0, clock.third)
  {
    hide ClearingRecord, Sweeping, Bounded, Restarting;
  }
}
