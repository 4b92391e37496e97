// The browser-storage ledger of pending Brand Profile commands:
// save, read and clear of apps/web/lib/brand-profile-pending-command.ts.
module PendingLedger {
  import opened Texts
  import opened Json
  import opened CanonicalJson
  import opened PendingCommand

  datatype Reason =
    | AmbiguousIdentity
    | CommandFingerprintMismatch
    | MalformedStorage
    | PayloadFingerprintMismatch
    | UnsupportedOrInvalidCommand

  datatype StorageRead = Absent | Valid(commands: seq<Json>) | Unverifiable(reason: Reason)

  datatype ReadResult = NoCommand | Found(command: Json) | Blocked(reason: Reason)

  datatype SaveOutcome =
    | Saved
    | InvalidCommand
    | InvalidPayloadFingerprint
    | InvalidCommandFingerprint
    | SaveBlocked(reason: Reason)
    | AlreadyOwned

  datatype ClearOutcome = Cleared | NotFound | ClearBlocked(reason: Reason)

  // ------------------------------------------------------------ specification

  function FirstMismatch(k: Checks, commands: seq<Json>): Option<Reason> {
    if commands == [] then None
    else if !k.payloadFingerprintHolds(commands[0]) then Some(PayloadFingerprintMismatch)
    else if !k.commandFingerprintHolds(commands[0]) then Some(CommandFingerprintMismatch)
    else FirstMismatch(k, commands[1..])
  }

  // What the stored item is worth.
  function Stored(k: Checks, item: Option<Text>): StorageRead {
    match item
    case None => Absent
    case Some(raw) =>
      match k.parse(raw)
      case None => Unverifiable(MalformedStorage)
      case Some(value) =>
        if !value.Arr? then Unverifiable(MalformedStorage)
        else if exists c <- value.items :: !k.isPendingCommand(c) then Unverifiable(UnsupportedOrInvalidCommand)
        else
          match FirstMismatch(k, value.items)
          case Some(reason) => Unverifiable(reason)
          case None => Valid(value.items)
  }

  function Written(commands: seq<Json>): Option<Text> {
    if commands == [] then None else Some(Stringify(Arr(commands)))
  }

  function Owned(commands: seq<Json>, identity: Identity): seq<Json> {
    if commands == [] then []
    else (if OwnedBy(commands[0], identity) then [commands[0]] else []) + Owned(commands[1..], identity)
  }

  function Retained(k: Checks, commands: seq<Json>, command: Json): seq<Json> {
    if commands == [] then []
    else (if k.sameCommand(commands[0], command) then [] else [commands[0]]) + Retained(k, commands[1..], command)
  }

  function Saving(k: Checks, item: Option<Text>, command: Json): (Option<Text>, SaveOutcome) {
    if !k.isPendingCommand(command) then (item, InvalidCommand)
    else if !k.payloadFingerprintHolds(command) then (item, InvalidPayloadFingerprint)
    else if !k.commandFingerprintHolds(command) then (item, InvalidCommandFingerprint)
    else
      match Stored(k, item)
      case Unverifiable(reason) => (item, SaveBlocked(reason))
      case Absent => (Written([command]), Saved)
      case Valid(commands) =>
        if Owned(commands, IdentityOf(command)) != [] then (item, AlreadyOwned)
        else (Written(commands + [command]), Saved)
  }

  function Reading(k: Checks, item: Option<Text>, identity: Identity): ReadResult {
    match Stored(k, item)
    case Absent => NoCommand
    case Unverifiable(reason) => Blocked(reason)
    case Valid(commands) => Answer(Owned(commands, identity))
  }

  function Answer(owned: seq<Json>): ReadResult {
    if |owned| == 0 then NoCommand
    else if |owned| > 1 then Blocked(AmbiguousIdentity)
    else Found(owned[0])
  }

  function Clearing(k: Checks, item: Option<Text>, command: Json): (Option<Text>, ClearOutcome) {
    match Stored(k, item)
    case Unverifiable(reason) => (item, ClearBlocked(reason))
    case Absent => (item, NotFound)
    case Valid(commands) =>
      var retained := Retained(k, commands, command);
      if |retained| == |commands| then (item, NotFound) else (Written(retained), Cleared)
  }

  // ----------------------------------------------------------- the ledger

  class Ledger {
    const checks: Checks
    var item: Option<Text>  // the storage item under the ledger's key

    constructor (checks: Checks, item: Option<Text>)
      ensures this.checks == checks && this.item == item
    {
      this.checks := checks;
      this.item := item;
    }

    method ReadCommands() returns (result: StorageRead)
      ensures result == Stored(checks, item)
    {
      if item.None? { return Absent; }
      var parsed := checks.parse(item.value);
      if parsed.None? || !parsed.value.Arr? { return Unverifiable(MalformedStorage); }
      var commands := parsed.value.items;
      if exists c <- commands :: !checks.isPendingCommand(c) {
        return Unverifiable(UnsupportedOrInvalidCommand);
      }
      var i := 0;
      while i < |commands|
        invariant 0 <= i <= |commands|
        invariant FirstMismatch(checks, commands) == FirstMismatch(checks, commands[i..])
      {
        if !checks.payloadFingerprintHolds(commands[i]) {
          return Unverifiable(PayloadFingerprintMismatch);
        }
        if !checks.commandFingerprintHolds(commands[i]) {
          return Unverifiable(CommandFingerprintMismatch);
        }
        i := i + 1;
      }
      return Valid(commands);
    }

    method WriteCommands(commands: seq<Json>)
      modifies this
      ensures item == Written(commands)
    {
      if |commands| == 0 {
        item := None;
        return;
      }
      item := Some(Stringify(Arr(commands)));
    }

    method Save(command: Json) returns (outcome: SaveOutcome)
      modifies this
      ensures (item, outcome) == Saving(checks, old(item), command)
      ensures outcome != Saved ==> item == old(item)
    {
      if !checks.isPendingCommand(command) { return InvalidCommand; }
      if !checks.payloadFingerprintHolds(command) { return InvalidPayloadFingerprint; }
      if !checks.commandFingerprintHolds(command) { return InvalidCommandFingerprint; }
      var stored := ReadCommands();
      if stored.Unverifiable? { return SaveBlocked(stored.reason); }
      var commands := if stored.Valid? then stored.commands else [];
      if Owned(commands, IdentityOf(command)) != [] { return AlreadyOwned; }
      WriteCommands(commands + [command]);
      assert [] + [command] == [command];
      return Saved;
    }

    method Read(identity: Identity) returns (result: ReadResult)
      ensures result == Reading(checks, item, identity)
    {
      var stored := ReadCommands();
      match stored {
        case Absent => return NoCommand;
        case Unverifiable(reason) => return Blocked(reason);
        case Valid(commands) =>
          var owned := Owned(commands, identity);
          if |owned| == 0 { return NoCommand; }
          if |owned| > 1 { return Blocked(AmbiguousIdentity); }
          return Found(owned[0]);
      }
    }

    method Clear(command: Json) returns (outcome: ClearOutcome)
      modifies this
      ensures (item, outcome) == Clearing(checks, old(item), command)
      ensures outcome != Cleared ==> item == old(item)
    {
      var stored := ReadCommands();
      match stored {
        case Unverifiable(reason) => return ClearBlocked(reason);
        case Absent => return NotFound;
        case Valid(commands) =>
          var retained := Retained(checks, commands, command);
          if |retained| == |commands| { return NotFound; }
          WriteCommands(retained);
          return Cleared;
      }
    }
  }

  // -------------------------------------------------------------- invariants

  ghost predicate AllVerified(k: Checks, commands: seq<Json>) {
    forall i :: 0 <= i < |commands| ==> WellFormed(commands[i]) && Verified(k, commands[i])
  }

  ghost predicate OwnersDistinct(commands: seq<Json>) {
    forall i, j :: 0 <= i < j < |commands| ==> !SameOwner(commands[i], commands[j])
  }

  // A ledger whose records all verify and where each workspace and brand owns
  // at most one of them.
  ghost predicate Sound(k: Checks, item: Option<Text>) {
    exists commands :: item == Written(commands) && AllVerified(k, commands) && OwnersDistinct(commands)
  }

  lemma {:induction false} VerifiedHasNoMismatch(k: Checks, commands: seq<Json>)
    requires AllVerified(k, commands)
    ensures FirstMismatch(k, commands) == None
  {
    if commands != [] {
      assert Verified(k, commands[0]);
      VerifiedHasNoMismatch(k, commands[1..]);
    }
  }

  lemma StoredWritten(k: Checks, commands: seq<Json>)
    requires Supported(k) && AllVerified(k, commands)
    ensures Stored(k, Written(commands)) == if commands == [] then Absent else Valid(commands)
  {
    if commands != [] {
      assert WellFormed(Arr(commands)) && RoundTrips(k.parse, Arr(commands));
      VerifiedHasNoMismatch(k, commands);
      forall c | c in commands ensures k.isPendingCommand(c) {
        var i :| 0 <= i < |commands| && commands[i] == c;
        assert Verified(k, commands[i]);
      }
    }
  }

  lemma ReadingWritten(k: Checks, commands: seq<Json>, identity: Identity)
    requires Supported(k) && AllVerified(k, commands)
    ensures Reading(k, Written(commands), identity) == Answer(Owned(commands, identity))
  {
    StoredWritten(k, commands);
  }

  lemma {:induction false} OwnedMembers(commands: seq<Json>, identity: Identity)
    ensures forall c :: c in Owned(commands, identity) <==> c in commands && OwnedBy(c, identity)
  {
    if commands != [] {
      OwnedMembers(commands[1..], identity);
      assert commands == [commands[0]] + commands[1..];
    }
  }

  lemma {:induction false} OwnedConcat(xs: seq<Json>, ys: seq<Json>, identity: Identity)
    ensures Owned(xs + ys, identity) == Owned(xs, identity) + Owned(ys, identity)
  {
    if xs == [] {
      assert xs + ys == ys;
    } else {
      OwnedConcat(xs[1..], ys, identity);
      assert (xs + ys)[1..] == xs[1..] + ys;
    }
  }

  lemma {:induction false} OwnedAtMostOne(commands: seq<Json>, identity: Identity)
    requires OwnersDistinct(commands)
    ensures |Owned(commands, identity)| <= 1
  {
    if commands != [] {
      OwnedAtMostOne(commands[1..], identity);
      if OwnedBy(commands[0], identity) {
        forall i | 0 <= i < |commands[1..]| ensures !OwnedBy(commands[1..][i], identity) {
          assert !SameOwner(commands[0], commands[i + 1]);
        }
        OwnedNone(commands[1..], identity);
      }
    }
  }

  lemma {:induction false} OwnedNone(commands: seq<Json>, identity: Identity)
    requires forall i :: 0 <= i < |commands| ==> !OwnedBy(commands[i], identity)
    ensures Owned(commands, identity) == []
  {
    if commands != [] { OwnedNone(commands[1..], identity); }
  }

  lemma OwnedSingle(c: Json, identity: Identity)
    ensures Owned([c], identity) == if OwnedBy(c, identity) then [c] else []
  {
    assert [c][1..] == [];
  }

  lemma {:induction false} RetainedAll(k: Checks, commands: seq<Json>, command: Json)
    requires forall i :: 0 <= i < |commands| ==> !k.sameCommand(commands[i], command)
    ensures Retained(k, commands, command) == commands
  {
    if commands != [] { RetainedAll(k, commands[1..], command); }
  }

  lemma {:induction false} RetainedButOne(k: Checks, commands: seq<Json>, command: Json, i: nat)
    requires Supported(k) && OwnersDistinct(commands)
    requires i < |commands| && k.sameCommand(commands[i], command)
    ensures Retained(k, commands, command) == commands[..i] + commands[i + 1..]
  {
    var tail := commands[1..];
    if i == 0 {
      forall j | 0 <= j < |tail| ensures !k.sameCommand(tail[j], command) {
        assert !SameOwner(commands[0], commands[j + 1]);
      }
      RetainedAll(k, tail, command);
    } else {
      assert !SameOwner(commands[0], commands[i]);
      RetainedButOne(k, tail, command, i - 1);
      assert commands[..i] + commands[i + 1..] == [commands[0]] + (tail[..i - 1] + tail[i..]);
    }
  }

  // ------------------------------------------------------------ main results

  // A save succeeds on a sound ledger exactly when the record verifies and its
  // workspace and brand own none; the ledger stays sound, the saved record is
  // what its owner reads back, and no other owner sees a difference.
  lemma SavePreservesAndReadsBack(k: Checks, item: Option<Text>, command: Json)
    requires Supported(k) && Sound(k, item) && WellFormed(command)
    ensures var (item', outcome) := Saving(k, item, command);
      && Sound(k, item')
      && (outcome == Saved <==> Verified(k, command) && Reading(k, item, IdentityOf(command)) == NoCommand)
      && (outcome == Saved ==> Reading(k, item', IdentityOf(command)) == Found(command))
      && (forall other :: other != IdentityOf(command) ==> Reading(k, item', other) == Reading(k, item, other))
  {
    var commands :| item == Written(commands) && AllVerified(k, commands) && OwnersDistinct(commands);
    StoredWritten(k, commands);
    var identity := IdentityOf(command);
    OwnedAtMostOne(commands, identity);
    if Verified(k, command) && Owned(commands, identity) == [] {
      SaveAppends(k, commands, command);
    }
  }

  lemma AppendKeepsOwnersDistinct(commands: seq<Json>, command: Json)
    requires OwnersDistinct(commands) && Owned(commands, IdentityOf(command)) == []
    requires IsText(Get(command, WORKSPACE_ID)) && IsText(Get(command, BRAND))
    ensures OwnersDistinct(commands + [command])
  {
    OwnedMembers(commands, IdentityOf(command));
    forall i | 0 <= i < |commands| ensures !SameOwner(commands[i], command) {
      assert commands[i] in commands;
    }
  }

  lemma SaveAppends(k: Checks, commands: seq<Json>, command: Json)
    requires Supported(k) && AllVerified(k, commands) && OwnersDistinct(commands)
    requires WellFormed(command) && Verified(k, command) && Owned(commands, IdentityOf(command)) == []
    ensures Saving(k, Written(commands), command) == (Written(commands + [command]), Saved)
    ensures Sound(k, Written(commands + [command]))
    ensures Reading(k, Written(commands + [command]), IdentityOf(command)) == Found(command)
    ensures forall other :: other != IdentityOf(command) ==>
      Reading(k, Written(commands + [command]), other) == Reading(k, Written(commands), other)
  {
    var commands' := commands + [command];
    AppendKeepsOwnersDistinct(commands, command);
    assert AllVerified(k, commands');
    StoredWritten(k, commands);
    assert commands == [] ==> commands' == [command];
    forall other
      ensures Reading(k, Written(commands'), other)
           == if other == IdentityOf(command) then Found(command) else Reading(k, Written(commands), other)
    {
      ReadingWritten(k, commands, other);
      ReadingWritten(k, commands', other);
      OwnedConcat(commands, [command], other);
      OwnedSingle(command, other);
    }
  }

  // A clear on a sound ledger removes exactly the one matching record and
  // keeps the rest in order, or changes nothing when none matches.
  lemma ClearRemovesExactly(k: Checks, commands: seq<Json>, command: Json, i: nat)
    requires Supported(k) && AllVerified(k, commands) && OwnersDistinct(commands)
    requires i < |commands| && k.sameCommand(commands[i], command)
    ensures Clearing(k, Written(commands), command) == (Written(commands[..i] + commands[i + 1..]), Cleared)
    ensures AllVerified(k, commands[..i] + commands[i + 1..]) && OwnersDistinct(commands[..i] + commands[i + 1..])
  {
    ClearingWritten(k, commands, command);
    RetainedButOne(k, commands, command, i);
    RemovalKeepsOwnersDistinct(commands, i);
    RemovalKeepsVerified(k, commands, i);
    var retained := commands[..i] + commands[i + 1..];
    assert |retained| == |commands| - 1;
  }

  lemma RemovalKeepsVerified(k: Checks, commands: seq<Json>, i: nat)
    requires i < |commands| && AllVerified(k, commands)
    ensures AllVerified(k, commands[..i] + commands[i + 1..])
  {
  }

  lemma RemovalKeepsOwnersDistinct(commands: seq<Json>, i: nat)
    requires i < |commands| && OwnersDistinct(commands)
    ensures OwnersDistinct(commands[..i] + commands[i + 1..])
  {
  }

  lemma ClearingWritten(k: Checks, commands: seq<Json>, command: Json)
    requires Supported(k) && AllVerified(k, commands)
    ensures var retained := Retained(k, commands, command);
      Clearing(k, Written(commands), command)
        == if |retained| == |commands| then (Written(commands), NotFound) else (Written(retained), Cleared)
  {
    StoredWritten(k, commands);
  }

  lemma ClearMissesExactly(k: Checks, commands: seq<Json>, command: Json)
    requires Supported(k) && AllVerified(k, commands) && OwnersDistinct(commands)
    ensures Clearing(k, Written(commands), command).1 == NotFound
       <==> forall i :: 0 <= i < |commands| ==> !k.sameCommand(commands[i], command)
    ensures Clearing(k, Written(commands), command).1 == NotFound ==>
      Clearing(k, Written(commands), command).0 == Written(commands)
  {
    ClearingWritten(k, commands, command);
    if exists i :: 0 <= i < |commands| && k.sameCommand(commands[i], command) {
      var i :| 0 <= i < |commands| && k.sameCommand(commands[i], command);
      RetainedButOne(k, commands, command, i);
    } else {
      RetainedAll(k, commands, command);
    }
  }

  // Clearing what a read returned succeeds and leaves its owner without a
  // record, and every other owner with the record it had.
  lemma ClearWhatWasRead(k: Checks, item: Option<Text>, identity: Identity, command: Json)
    requires Supported(k) && Sound(k, item) && Reading(k, item, identity) == Found(command)
    ensures var (item', outcome) := Clearing(k, item, command);
      && outcome == Cleared && Sound(k, item')
      && Reading(k, item', identity) == NoCommand
      && (forall other :: other != identity ==> Reading(k, item', other) == Reading(k, item, other))
  {
    var commands :| item == Written(commands) && AllVerified(k, commands) && OwnersDistinct(commands);
    ReadingWritten(k, commands, identity);
    OwnedMembers(commands, identity);
    assert command in Owned(commands, identity);
    var i :| 0 <= i < |commands| && commands[i] == command;
    ClearAt(k, commands, i, identity);
  }

  lemma ClearAt(k: Checks, commands: seq<Json>, i: nat, identity: Identity)
    requires Supported(k) && AllVerified(k, commands) && OwnersDistinct(commands)
    requires i < |commands| && OwnedBy(commands[i], identity)
    ensures var (item', outcome) := Clearing(k, Written(commands), commands[i]);
      && outcome == Cleared && Sound(k, item')
      && Reading(k, item', identity) == NoCommand
      && (forall other :: other != identity ==> Reading(k, item', other) == Reading(k, Written(commands), other))
  {
    ClearRemovesExactly(k, commands, commands[i], i);
    SoundBy(k, commands[..i] + commands[i + 1..]);
    RemovalReadsAs(k, commands, i, identity);
  }

  lemma SoundBy(k: Checks, commands: seq<Json>)
    requires AllVerified(k, commands) && OwnersDistinct(commands)
    ensures Sound(k, Written(commands))
  {
  }

  lemma RemovalReadsAs(k: Checks, commands: seq<Json>, i: nat, identity: Identity)
    requires Supported(k) && AllVerified(k, commands) && OwnersDistinct(commands)
    requires i < |commands| && OwnedBy(commands[i], identity)
    ensures var item' := Written(commands[..i] + commands[i + 1..]);
      && Reading(k, item', identity) == NoCommand
      && (forall other :: other != identity ==> Reading(k, item', other) == Reading(k, Written(commands), other))
  {
    var rest := commands[..i] + commands[i + 1..];
    assert AllVerified(k, rest);
    OwnedAtMostOne(commands, identity);
    forall other
      ensures Reading(k, Written(rest), other)
           == if other == identity then NoCommand else Reading(k, Written(commands), other)
    {
      ReadingWritten(k, commands, other);
      ReadingWritten(k, rest, other);
      OwnedWithout(commands, i, other);
      OwnedSingle(commands[i], other);
    }
  }

  lemma OwnedWithout(commands: seq<Json>, i: nat, other: Identity)
    requires i < |commands|
    ensures Owned(commands, other) == Owned(commands[..i], other) + Owned([commands[i]], other) + Owned(commands[i + 1..], other)
    ensures Owned(commands[..i] + commands[i + 1..], other) == Owned(commands[..i], other) + Owned(commands[i + 1..], other)
  {
    assert commands == commands[..i] + [commands[i]] + commands[i + 1..];
    OwnedConcat(commands[..i] + [commands[i]], commands[i + 1..], other);
    OwnedConcat(commands[..i], [commands[i]], other);
    OwnedConcat(commands[..i], commands[i + 1..], other);
  }

  datatype Operation = SaveOp(command: Json) | ClearOp(command: Json)

  function Apply(k: Checks, item: Option<Text>, op: Operation): Option<Text> {
    match op
    case SaveOp(command) => Saving(k, item, command).0
    case ClearOp(command) => Clearing(k, item, command).0
  }

  function Run(k: Checks, item: Option<Text>, ops: seq<Operation>): Option<Text>
    decreases |ops|
  {
    if ops == [] then item else Run(k, Apply(k, item, ops[0]), ops[1..])
  }

  lemma ClearPreserves(k: Checks, item: Option<Text>, command: Json)
    requires Supported(k) && Sound(k, item)
    ensures Sound(k, Clearing(k, item, command).0)
  {
    var commands :| item == Written(commands) && AllVerified(k, commands) && OwnersDistinct(commands);
    if i: nat :| i < |commands| && k.sameCommand(commands[i], command) {
      ClearRemovesExactly(k, commands, command, i);
    } else {
      ClearMissesExactly(k, commands, command);
    }
  }

  lemma {:induction false} RunKeepsSound(k: Checks, item: Option<Text>, ops: seq<Operation>)
    requires Supported(k) && Sound(k, item)
    requires forall i :: 0 <= i < |ops| ==> WellFormed(ops[i].command)
    ensures Sound(k, Run(k, item, ops))
    decreases |ops|
  {
    if ops != [] {
      var item' := Apply(k, item, ops[0]);
      match ops[0] {
        case SaveOp(command) => SavePreservesAndReadsBack(k, item, command);
        case ClearOp(command) => ClearPreserves(k, item, command);
      }
      RunKeepsSound(k, item', ops[1..]);
    }
  }

  // From empty storage, after any saves and clears: nothing stored is ever
  // unverifiable or ambiguous, and whatever an owner reads verifies.
  lemma {:induction false} EveryRunIsSound(k: Checks, ops: seq<Operation>, identity: Identity)
    requires Supported(k)
    requires forall i :: 0 <= i < |ops| ==> WellFormed(ops[i].command)
    ensures Sound(k, Run(k, None, ops))
    ensures !Stored(k, Run(k, None, ops)).Unverifiable?
    ensures var result := Reading(k, Run(k, None, ops), identity);
      !result.Blocked? && (result.Found? ==> Verified(k, result.command) && OwnedBy(result.command, identity))
  {
    assert Written([]) == None && AllVerified(k, []) && OwnersDistinct([]);
    RunKeepsSound(k, None, ops);
    var item := Run(k, None, ops);
    var commands :| item == Written(commands) && AllVerified(k, commands) && OwnersDistinct(commands);
    StoredWritten(k, commands);
    ReadingWritten(k, commands, identity);
    OwnedAtMostOne(commands, identity);
    OwnedMembers(commands, identity);
    var owned := Owned(commands, identity);
    if |owned| == 1 { assert owned[0] in owned && owned[0] in commands; }
  }

  // Storage that does not verify is left byte for byte as it is.
  lemma {:induction false} UnverifiableIsNeverChanged(k: Checks, item: Option<Text>, ops: seq<Operation>)
    requires Stored(k, item).Unverifiable?
    ensures Run(k, item, ops) == item
    decreases |ops|
  {
    if ops != [] { UnverifiableIsNeverChanged(k, item, ops[1..]); }
  }
}
