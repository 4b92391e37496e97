// ProductBriefRetentionController of
// apps/web/lib/product-brief-persistence.ts: one active deadline, enforced by
// timers too short to reach it in one go.
module BriefRetention {
  import opened Texts
  import opened KeyCodec
  import opened BriefRecord
  import opened BriefPersistence

  const MAXIMUM_RETENTION_TIMER_DELAY_MS := 2_147_483_647

  datatype Active = Active(identity: BriefIdentity, deadline: int, activation: nat)

  // A scheduled callback, with the activation it captured.
  datatype Timer = Timer(active: Active, due: int)

  // A call of onExpired; no deadline when the activation was refused outright.
  datatype Expiry = Expiry(identity: BriefIdentity, deadline: Option<int>, activation: nat, at: int)

  datatype State = State(
    active: Option<Active>,
    timer: Option<nat>,
    activation: nat,
    identity: Option<BriefIdentity>,
    timers: seq<Timer>,    // every timer ever scheduled
    pending: set<nat>,     // those that have neither fired nor been cancelled
    expiries: seq<Expiry>,
    items: Items)

  // The readings of the clock within one call, in order.
  datatype Clock = Clock(first: int, second: int, third: int)

  // ----------------------------------------------------------- specification

  function Cancelling(s: State, effective: bool): State {
    if s.timer.None? then s
    else s.(timer := None, pending := if effective then s.pending - {s.timer.value} else s.pending)
  }

  function ChangingIdentity(s: State, identity: BriefIdentity, effective: bool): (State, bool) {
    if s.identity == Some(identity) then (s, false)
    else
      var stopped := Cancelling(s, effective).(active := None, activation := s.activation + 1);
      var items := if s.identity.Some? then ClearingRecord(s.items, s.identity.value) else s.items;
      (stopped.(items := items, identity := Some(identity)), true)
  }

  function Disposing(s: State, effective: bool): State {
    Cancelling(s, effective).(active := None, activation := s.activation + 1)
  }

  function Expiring(env: BriefEnvironment, s: State, active: Active, at: int): State {
    s.(items := Sweeping(env, ClearingRecord(s.items, active.identity), at), active := None,
       expiries := s.expiries + [Expiry(active.identity, Some(active.deadline), active.activation, at)])
  }

  function Scheduling(env: BriefEnvironment, s: State, now: int, later: int): (State, bool) {
    match s.active
    case None => (s, false)
    case Some(active) =>
      var remaining := active.deadline - now;
      if remaining <= 0 then (Expiring(env, s, active, later), false)
      else
        var delay := if remaining < MAXIMUM_RETENTION_TIMER_DELAY_MS then remaining else MAXIMUM_RETENTION_TIMER_DELAY_MS;
        (s.(timer := Some(|s.timers|), timers := s.timers + [Timer(active, now + delay)], pending := s.pending + {|s.timers|}),
         true)
  }

  // A new activation, with everything before it stopped.
  function Restarting(env: BriefEnvironment, s: State, identity: BriefIdentity, now: int, effective: bool): State {
    var swept := s.(items := Sweeping(env, s.items, now));
    var stopped := Cancelling(ChangingIdentity(swept, identity, effective).0, effective);
    stopped.(activation := stopped.activation + 1)
  }

  function ActivatingDeadline(
    env: BriefEnvironment, s: State, identity: BriefIdentity, deadline: Text, clock: Clock, effective: bool): (State, bool)
  {
    if !Bounded(identity) then (s, false)
    else
      var next := Restarting(env, s, identity, clock.first, effective);
      if !IsActiveDeadline(env, deadline, clock.second) then
        (next.(items := ClearingRecord(next.items, identity), active := None,
               expiries := next.expiries + [Expiry(identity, None, next.activation, clock.second)]), false)
      else
        Scheduling(env, next.(active := Some(Active(identity, env.parseDate(deadline).value, next.activation))),
                   clock.third, clock.third)
  }

  function Firing(env: BriefEnvironment, s: State, i: nat, clock: Clock): State {
    if i !in s.pending || i >= |s.timers| then s
    else
      var captured := s.timers[i].active;
      var fired := s.(timer := None, pending := s.pending - {i});
      if s.active.None? || s.active.value.activation != captured.activation || s.active.value.identity != captured.identity
      then fired
      else if clock.first < captured.deadline then Scheduling(env, fired, clock.second, clock.third).0
      else Expiring(env, fired, captured, clock.second)
  }

  lemma ActiveHasDate(env: BriefEnvironment, deadline: Text, now: int)
    requires IsActiveDeadline(env, deadline, now)
    ensures env.parseDate(deadline).Some? && env.parseDate(deadline).value > now
  {
  }

  // ----------------------------------------------------------- the controller

  class RetentionController {
    const store: BriefStore
    var active: Option<Active>
    var timer: Option<nat>
    var activation: nat
    var identity: Option<BriefIdentity>
    var timers: seq<Timer>
    var pending: set<nat>
    var expiries: seq<Expiry>

    function Now(): State
      reads this, store.storage
    {
      State(active, timer, activation, identity, timers, pending, expiries, store.storage.items)
    }

    constructor (store: BriefStore)
      ensures this.store == store
      ensures Now() == State(None, None, 0, None, [], {}, [], store.storage.items)
    {
      this.store := store;
      active, timer, activation, identity, timers, pending, expiries := None, None, 0, None, [], {}, [];
    }

    method CancelTimer(effective: bool)
      modifies this`timer, this`pending
      ensures Now() == Cancelling(old(Now()), effective)
    {
      if timer.Some? {
        if effective { pending := pending - {timer.value}; }
        timer := None;
      }
    }

    method ChangeIdentity(next: BriefIdentity, effective: bool) returns (changed: bool)
      requires store.storage.Valid()
      modifies this, store.storage
      ensures store.storage.Valid() && (Now(), changed) == ChangingIdentity(old(Now()), next, effective)
    {
      hide ClearingRecord;
      if identity == Some(next) { return false; }
      CancelTimer(effective);
      active := None;
      activation := activation + 1;
      if identity.Some? { store.ClearRecord(identity.value); }
      identity := Some(next);
      return true;
    }

    method Dispose(effective: bool)
      modifies this
      ensures Now() == Disposing(old(Now()), effective)
    {
      CancelTimer(effective);
      active := None;
      activation := activation + 1;
    }

    method Expire(expired: Active, at: int)
      requires store.storage.Valid()
      modifies this, store.storage
      ensures store.storage.Valid() && Now() == Expiring(store.env, old(Now()), expired, at)
    {
      hide ClearingRecord, Sweeping;
      store.ClearRecord(expired.identity);
      var _ := store.Sweep(at);
      active := None;
      expiries := expiries + [Expiry(expired.identity, Some(expired.deadline), expired.activation, at)];
    }

    method ScheduleDeadline(now: int, later: int) returns (scheduled: bool)
      requires store.storage.Valid()
      modifies this, store.storage
      ensures store.storage.Valid() && (Now(), scheduled) == Scheduling(store.env, old(Now()), now, later)
    {
      if active.None? { return false; }
      var remaining := active.value.deadline - now;
      if remaining <= 0 {
        Expire(active.value, later);
        return false;
      }
      var delay := if remaining < MAXIMUM_RETENTION_TIMER_DELAY_MS then remaining else MAXIMUM_RETENTION_TIMER_DELAY_MS;
      timer, pending := Some(|timers|), pending + {|timers|};
      timers := timers + [Timer(active.value, now + delay)];
      return true;
    }

    method Restart(next: BriefIdentity, now: int, effective: bool)
      requires store.storage.Valid()
      modifies this, store.storage
      ensures store.storage.Valid() && Now() == Restarting(store.env, old(Now()), next, now, effective)
    {
      hide ClearingRecord, Sweeping;
      var _ := store.Sweep(now);
      var _ := ChangeIdentity(next, effective);
      CancelTimer(effective);
      activation := activation + 1;
    }

    method Activate(next: BriefIdentity, retentionDeadline: Text, clock: Clock, effective: bool) returns (scheduled: bool)
      requires store.storage.Valid()
      modifies this, store.storage
      ensures store.storage.Valid()
      ensures (Now(), scheduled) == ActivatingDeadline(store.env, old(Now()), next, retentionDeadline, clock, effective)
    {
      hide ClearingRecord, Restarting, Bounded, IsActiveDeadline, Scheduling;
      if !Bounded(next) { return false; }
      Restart(next, clock.first, effective);
      if !IsActiveDeadline(store.env, retentionDeadline, clock.second) {
        store.ClearRecord(next);
        active := None;
        expiries := expiries + [Expiry(next, None, activation, clock.second)];
        return false;
      }
      ActiveHasDate(store.env, retentionDeadline, clock.second);
      active := Some(Active(next, store.env.parseDate(retentionDeadline).value, activation));
      scheduled := ScheduleDeadline(clock.third, clock.third);
    }

    // The callback of timer i.
    method Fire(i: nat, clock: Clock)
      requires store.storage.Valid()
      modifies this, store.storage
      ensures store.storage.Valid() && Now() == Firing(store.env, old(Now()), i, clock)
    {
      hide Scheduling, Expiring;
      if i !in pending || i >= |timers| { return; }
      var captured := timers[i].active;
      pending := pending - {i};
      timer := None;
      if active.None? || active.value.activation != captured.activation || active.value.identity != captured.identity {
        return;
      }
      if clock.first < captured.deadline {
        var _ := ScheduleDeadline(clock.second, clock.third);
        return;
      }
      Expire(captured, clock.second);
    }
  }
}
