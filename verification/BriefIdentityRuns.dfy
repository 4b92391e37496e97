// One identity at a time: when the page opens for another identity nothing of
// the former one is left, and nothing is sent for it.
module BriefIdentityRuns {
  import opened Texts
  import opened Json
  import opened PendingCommand
  import opened KeyCodec
  import opened BriefRecord
  import opened BriefPersistence
  import opened BriefPersistenceRuns
  import opened BriefController
  import opened BriefWorkbench
  import opened BriefProtocol
  import opened BriefProtocolRuns

  // The marker names the identity, and every stored record is its own.
  ghost predicate OwnsStorage(env: BriefEnvironment, b: Bench) {
    MarkerOwns(env, Session(b.items, Some(Own(b))))
  }

  lemma LocalKeepsOwner(env: BriefEnvironment, b: Bench, t: Bench)
    requires OwnsStorage(env, b) && Local(b, t) && Own(t) == Own(b)
    ensures OwnsStorage(env, t)
  {
    hide InNamespace, KeyOf, MarkedIdentity;
  }

  lemma SendingLocal(env: BriefEnvironment, b: Bench, command: BriefCommand, now: int)
    ensures Local(b, Sending(env, b, command, now).0) && Own(Sending(env, b, command, now).0) == Own(b)
  {
    ReadingQuiet(env, b, now);
    hide ReadingOwn, ExactlyDurable, InNamespace, KeyOf;
  }

  lemma SubmittingLocal(
    env: BriefEnvironment, b: Bench, current: Brief, command: BriefCommand, deadlines: seq<Option<Text>>, now: int)
    ensures Local(b, Submitting(env, b, current, command, deadlines, now).0)
  {
    ReadingQuiet(env, b, now);
    var (b1, persisted) := ReadingOwn(env, b, now);
    hide ReadingOwn, EarliestActive, InNamespace, KeyOf;
    var deadline := EarliestActive(env, deadlines + StoredDeadline(persisted, current.id, current.workflowId), now);
    if deadline.Some? {
      var value := CommandRecord(b, persisted, current, command, deadline.value);
      WritingQuiet(env, b1, value, now);
      var (b2, written) := WritingOwn(env, b1, value, now);
      hide WritingOwn, CommandRecord;
      QuietThen(b, b1, b2);
      if written {
        RecoveringLeavesIdentity(env, b2.controller, command, Awaited);
        var b3 := b2.(controller := RecoveringCommand(env, b2.controller, command, Awaited).0);
        SendingLocal(env, b3, command, now);
        hide Sending, RecoveringCommand;
      }
    }
  }

  lemma RecoveringLeavesIdentity(env: BriefEnvironment, s: State, command: BriefCommand, status: Status)
    ensures RecoveringCommand(env, s, command, status).0.snapshot.identity == s.snapshot.identity
  {
    hide Canonical;
  }

  lemma RebuildingLocal(env: BriefEnvironment, b: Bench, now: int)
    ensures Local(b, Rebuilding(env, b, now)) && Own(Rebuilding(env, b, now)) == Own(b)
  {
    ReadingQuiet(env, b, now);
    var (b1, persisted) := ReadingOwn(env, b, now);
    hide ReadingOwn, InNamespace, KeyOf, Sending;
    if persisted.Some? && persisted.value.content.Commanding? {
      var c := persisted.value.content;
      RecoveringLeavesIdentity(env, b1.controller, c.command, c.status);
      hide RecoveringCommand;
      SendingLocal(env, b1.(controller := RecoveringCommand(env, b1.controller, c.command, c.status).0), c.command, now);
    }
  }

  lemma MountingOwns(env: BriefEnvironment, b: Bench, active: Option<BriefIdentity>, identity: BriefIdentity, now: int)
    requires ParsesJson(env.parse) && KeyOf(identity).Some? && MarkerOwns(env, Session(b.items, active))
    ensures OwnsStorage(env, Mounting(env, b, identity, now)) && Own(Mounting(env, b, identity, now)) == identity
  {
    var s := Session(b.items, active);
    ActivateKeepsOwner(env, s, identity);
    var s1 := BriefPersistenceRuns.Step(env, s, Activate(identity));
    assert Bounded(identity) by { hide Encode; }
    hide KeyOf, MarkerOwns, Rebuilding, Local;
    assert s1.active == Some(identity) by { hide ClearingNamespace, MarkedIdentity, IdentityJson, Stringify, Bounded; }
    RemovalsKeepOwner(env, s1, Sweep(now));
    var mounted := b.(items := Sweeping(env, s1.items, now), controller := Restarting(b.controller, identity));
    hide Activating, Sweeping, Bounded;
    RebuildingLocal(env, mounted, now);
    LocalKeepsOwner(env, mounted, Rebuilding(env, mounted, now));
  }

  lemma StepOwns(env: BriefEnvironment, b: Bench, step: BriefProtocolRuns.Step, now: int)
    requires ParsesJson(env.parse) && OwnsStorage(env, b) && Keyed(step)
    ensures OwnsStorage(env, Next(env, b, step, now))
  {
    var t := Next(env, b, step, now);
    if Silent(step) {
      SilentIsQuiet(env, b, step, now);
      hide Next, OwnsStorage;
      LocalKeepsOwner(env, b, t);
    } else {
      hide Next, OwnsStorage;
      LoudOwns(env, b, step, now);
    }
  }

  lemma LoudOwns(env: BriefEnvironment, b: Bench, step: BriefProtocolRuns.Step, now: int)
    requires ParsesJson(env.parse) && OwnsStorage(env, b) && Keyed(step) && !Silent(step)
    ensures OwnsStorage(env, Next(env, b, step, now))
  {
    hide Submitting, Mounting, Sending, OwnsStorage, Canonical;
    match step {
      case Revise(payload, key) =>
        var n := b.controller.snapshot;
        if n.brief.Some? {
          SubmissionOwns(env, b, n.brief.value, BriefCommand(n.identity.productId, n.brief.value.id, key, payload),
                         [Some(n.brief.value.retentionDeadline)], now);
        }
      case Confirm(current, payload, deadline, key) =>
        SubmissionOwns(env, b, current, BriefCommand(Own(b).productId, current.id, key, payload),
                       [deadline, Some(current.retentionDeadline)], now);
      case Lost(_) => LocalKeepsOwner(env, b, Next(env, b, step, now));
      case Mount(identity) => MountKeeps(env, b, identity, now);
      case Retry =>
        if Pending(b).Some? {
          SendingLocal(env, b, Pending(b).value, now);
          LocalKeepsOwner(env, b, Sending(env, b, Pending(b).value, now).0);
        }
    }
  }

  lemma MountKeeps(env: BriefEnvironment, b: Bench, identity: BriefIdentity, now: int)
    requires ParsesJson(env.parse) && OwnsStorage(env, b) && KeyOf(identity).Some?
    ensures OwnsStorage(env, Mounting(env, b, identity, now))
  {
    hide Mounting, MarkerOwns, KeyOf;
    MountingOwns(env, b, Some(Own(b)), identity, now);
  }

  lemma SubmissionOwns(
    env: BriefEnvironment, b: Bench, current: Brief, command: BriefCommand, deadlines: seq<Option<Text>>, now: int)
    requires OwnsStorage(env, b)
    ensures OwnsStorage(env, Submitting(env, b, current, command, deadlines, now).0)
  {
    SubmittingLocal(env, b, current, command, deadlines, now);
    SubmittingKeepsIdentity(env, b, current, command, deadlines, now);
    hide Submitting, OwnsStorage;
    LocalKeepsOwner(env, b, Submitting(env, b, current, command, deadlines, now).0);
  }

  lemma SubmittingKeepsIdentity(
    env: BriefEnvironment, b: Bench, current: Brief, command: BriefCommand, deadlines: seq<Option<Text>>, now: int)
    ensures Own(Submitting(env, b, current, command, deadlines, now).0) == Own(b)
  {
    hide Reading, Writing, Sweeping, ClearingRecord, EarliestActive, IsActiveDeadline, ExactlyDurable, Canonical, CommandRecord;
  }

  // Opening again for the same identity finds its record exactly when the
  // marker names it.
  predicate MarkerNames(env: BriefEnvironment, b: Bench, identity: BriefIdentity) {
    MARKER_KEY in b.items && MarkedIdentity(env, b.items[MARKER_KEY]) == Some(identity)
  }

  lemma ActivatedReads(env: BriefEnvironment, b: Bench, now: int)
    requires KeyOf(Own(b)).Some?
    ensures var (items, active) := Activating(env, b.items, Own(b));
      active && ReadOwn(env, b.(items := items), now) == if MarkerNames(env, b, Own(b)) then ReadOwn(env, b, now) else None
  {
    var key := KeyOf(Own(b)).value;
    KeyNotLegacy(Own(b));
    assert InNamespace(key);
    MarkersOutside();
    PrefixesDiffer();
    MarkerApart(Own(b));
    assert Bounded(Own(b)) by { hide Encode; }
    var (items, active) := Activating(env, b.items, Own(b));
    hide KeyOf, LegacyKey, Parsed, InNamespace, MarkedIdentity, IdentityJson, Stringify, Bounded, Ascii;
    assert key in items <==> MarkerNames(env, b, Own(b)) && key in b.items;
    assert key in items ==> items[key] == b.items[key];
  }

  lemma MountedReads(env: BriefEnvironment, b: Bench, now: int)
    requires KeyOf(Own(b)).Some?
    ensures var (items, active) := Activating(env, b.items, Own(b));
      var mounted := b.(items := Sweeping(env, items, now), controller := Restarting(b.controller, Own(b)));
      active && ReadOwn(env, mounted, now) == if MarkerNames(env, b, Own(b)) then ReadOwn(env, b, now) else None
  {
    ActivatedReads(env, b, now);
    var items := Activating(env, b.items, Own(b)).0;
    hide KeyOf, Activating, Sweeping, ReadOwn, MarkerNames;
    ReadAfterSweep(env, b.(items := items),
                   b.(items := Sweeping(env, items, now), controller := Restarting(b.controller, Own(b))), now);
  }

  // ------------------------------------------------------------ main results

  // The page, opened for the first time.
  function Opened(env: BriefEnvironment, identity: BriefIdentity, now: int): Bench {
    Mounting(env, Bench(map[], State(InitialSnapshot(identity, 1), 0, 0, 0), []), identity, now)
  }

  lemma OpenedIsFit(env: BriefEnvironment, identity: BriefIdentity, now: int)
    requires Canonicalizes(env) && ParsesJson(env.parse) && KeyOf(identity).Some?
    ensures var b := Opened(env, identity, now); Fit(env, b) && MemoryCanonical(env, b) && OwnsStorage(env, b) && Own(b) == identity
  {
    var b := Bench(map[], State(InitialSnapshot(identity, 1), 0, 0, 0), []);
    hide KeyOf, Mounting;
    assert MarkerOwns(env, Session(map[], None));
    MountingOutcome(env, b, identity, now);
    MountingOwns(env, b, None, identity, now);
  }

  lemma {:induction false} RunOwns(env: BriefEnvironment, b: Bench, run: seq<Timed>)
    requires ParsesJson(env.parse) && OwnsStorage(env, b) && forall i :: 0 <= i < |run| ==> Keyed(run[i].step)
    ensures OwnsStorage(env, After(env, b, run))
    decreases |run|
  {
    if run != [] {
      StepOwns(env, b, run[0].step, run[0].now);
      hide Next, OwnsStorage, Keyed;
      RunOwns(env, Next(env, b, run[0].step, run[0].now), run[1..]);
    }
  }

  // From the first opening on, after any run: storage holds no record of any
  // other identity.
  lemma {:induction false} NoForeignRecords(env: BriefEnvironment, first: BriefIdentity, start: int, run: seq<Timed>, other: BriefIdentity)
    requires Canonicalizes(env) && ParsesJson(env.parse) && KeyOf(first).Some?
    requires forall i :: 0 <= i < |run| ==> Keyed(run[i].step)
    ensures var c := After(env, Opened(env, first, start), run);
      && (forall key :: key in c.items && InNamespace(key) ==> KeyOf(Own(c)) == Some(key))
      && (other != Own(c) && KeyOf(other).Some? ==> KeyOf(other).value !in c.items)
  {
    hide After, Opened, Keyed, KeyOf, InNamespace;
    OpenedIsFit(env, first, start);
    RunOwns(env, Opened(env, first, start), run);
    var c := After(env, Opened(env, first, start), run);
    if KeyOf(other).Some? && KeyOf(other).value in c.items {
      KeyInNamespace(other);
      KeysDistinguish(Own(c), other);
    }
  }

  lemma KeyInNamespace(identity: BriefIdentity)
    requires KeyOf(identity).Some?
    ensures InNamespace(KeyOf(identity).value)
  {
    KeyNotLegacy(identity);
    hide KeyOf;
  }

  // From the first opening on, after any run, opening for another identity
  // leaves no record and nothing in memory, and sends nothing.
  lemma {:induction false} ChangedIdentityLeavesNothing(
    env: BriefEnvironment, first: BriefIdentity, start: int, run: seq<Timed>, identity: BriefIdentity, now: int)
    requires Canonicalizes(env) && ParsesJson(env.parse) && KeyOf(first).Some? && KeyOf(identity).Some?
    requires forall i :: 0 <= i < |run| ==> Keyed(run[i].step)
    requires identity != Own(After(env, Opened(env, first, start), run))
    ensures var c := After(env, Opened(env, first, start), run);
      var t := Next(env, c, Mount(identity), now);
      && Own(t) == identity && t.sent == c.sent
      && t.controller.snapshot == InitialSnapshot(identity, c.controller.snapshot.identityGeneration + 1)
      && forall key :: key in t.items ==> !InNamespace(key)
  {
    hide After, Opened, Keyed, OwnsStorage, KeyOf;
    OpenedIsFit(env, first, start);
    RunOwns(env, Opened(env, first, start), run);
    var c := After(env, Opened(env, first, start), run);
    ForeignMount(env, c, identity, now);
  }

  lemma ForeignMount(env: BriefEnvironment, b: Bench, identity: BriefIdentity, now: int)
    requires OwnsStorage(env, b) && KeyOf(identity).Some? && identity != Own(b)
    ensures var t := Mounting(env, b, identity, now);
      && Own(t) == identity && t.sent == b.sent
      && t.controller.snapshot == InitialSnapshot(identity, b.controller.snapshot.identityGeneration + 1)
      && forall key :: key in t.items ==> !InNamespace(key)
  {
    KeyInNamespace(identity);
    MarkersOutside();
    assert Bounded(identity) by { hide Encode; }
    hide KeyOf, InNamespace, MarkedIdentity, IdentityJson, Stringify, Bounded, Survives, LegacyKey, Parsed;
  }
}
