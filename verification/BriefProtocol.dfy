// What the Product Brief protocol keeps: nothing is sent before it is durable,
// what is durable stays until it is settled, and deadlines only come nearer.
module BriefProtocol {
  import opened Texts
  import opened Json
  import opened JsonEncoding
  import opened PendingCommand
  import opened KeyCodec
  import opened BriefRecord
  import opened BriefRoundTrip
  import opened BriefPersistence
  import opened BriefPersistenceRuns
  import opened BriefController
  import opened BriefWorkbench

  // ------------------------------------------------------ commands that match

  // Two canonical commands with one JSON text are one command.
  lemma SameTextSameCommand(env: BriefEnvironment, productId: Text, briefId: Text, a: BriefCommand, b: BriefCommand)
    requires ParseCommand(env, productId, briefId, CommandJson(a)) == Some(a)
    requires ParseCommand(env, productId, briefId, CommandJson(b)) == Some(b)
    requires Canonicalizes(env) && Stringify(CommandJson(a)) == Stringify(CommandJson(b))
    ensures a == b
  {
    CommandWellFormed(env, productId, briefId, CommandJson(a), a);
    CommandWellFormed(env, productId, briefId, CommandJson(b), b);
    hide ParseCommand, CommandJson;
    WellFormedIsUnambiguous(CommandJson(a));
    WellFormedIsUnambiguous(CommandJson(b));
    StringifyInjective(CommandJson(a), CommandJson(b));
  }

  // What memory holds: the canonical form of a command of this product.
  ghost predicate CanonicalCommand(env: BriefEnvironment, c: BriefCommand) {
    ParseCommand(env, c.productId, c.briefId, CommandJson(c)) == Some(c)
  }

  lemma CanonicalIsCanonical(env: BriefEnvironment, productId: Text, briefId: Text, v: BriefCommand, c: BriefCommand)
    requires Canonicalizes(env)
    requires ParseCommand(env, productId, briefId, CommandJson(v)) == Some(c)
    ensures CanonicalCommand(env, c) && c.productId == productId && c.briefId == briefId
  {
    CommandBack(env, productId, briefId, CommandJson(v), c);
  }

  // A canonical command matches another exactly when it is its canonical form.
  lemma MatchIffCanonical(env: BriefEnvironment, command: BriefCommand, canonical: BriefCommand)
    requires Canonicalizes(env) && CanonicalCommand(env, canonical)
    ensures CommandsMatch(env, command, canonical)
       <==> ParseCommand(env, command.productId, command.briefId, CommandJson(command)) == Some(canonical)
    ensures CommandsMatch(env, canonical, command)
       <==> ParseCommand(env, canonical.productId, canonical.briefId, CommandJson(command)) == Some(canonical)
  {
    var of := ParseCommand(env, command.productId, command.briefId, CommandJson(command));
    if of.Some? { CanonicalIsCanonical(env, command.productId, command.briefId, command, of.value); }
    var inFrame := ParseCommand(env, command.productId, command.briefId, CommandJson(canonical));
    if inFrame.Some? {
      FrameIsOwn(env, command.productId, command.briefId, canonical);
      if of.Some? && Stringify(CommandJson(canonical)) == Stringify(CommandJson(of.value)) {
        SameTextSameCommand(env, command.productId, command.briefId, canonical, of.value);
      }
    }
    var back := ParseCommand(env, canonical.productId, canonical.briefId, CommandJson(command));
    if back.Some? {
      CanonicalIsCanonical(env, canonical.productId, canonical.briefId, command, back.value);
      if Stringify(CommandJson(back.value)) == Stringify(CommandJson(canonical)) {
        SameTextSameCommand(env, canonical.productId, canonical.briefId, back.value, canonical);
      }
    }
    hide ParseCommand, CommandJson, Stringify;
  }

  // A command is only accepted in the frame of its own product and brief.
  lemma FrameIsOwn(env: BriefEnvironment, productId: Text, briefId: Text, c: BriefCommand)
    requires ParseCommand(env, productId, briefId, CommandJson(c)).Some?
    ensures productId == c.productId && briefId == c.briefId
  {
    hide NameText, Ascii, ParseRevision, ParseConfirmation, PayloadJson;
    var values := [Num(1), Str(KindText(c.payload)), Str(c.productId), Str(c.briefId), PayloadJson(c.payload), Str(c.idempotencyKey)];
    ObjectReads(COMMAND_NAMES, values);
    hide Field, Object;
    assert Field(CommandJson(c), COMMAND_NAMES[2]) == Some(values[2]) && Field(CommandJson(c), COMMAND_NAMES[3]) == Some(values[3]);
  }

  // Matching is the same in both directions.
  lemma MatchBothWays(env: BriefEnvironment, command: BriefCommand, canonical: BriefCommand)
    requires Canonicalizes(env) && CanonicalCommand(env, canonical)
    ensures CommandsMatch(env, command, canonical) <==> CommandsMatch(env, canonical, command)
    ensures CommandsMatch(env, command, canonical) <==> Canonical(env, command.productId, command) == Some(canonical)
  {
    MatchIffCanonical(env, command, canonical);
    if ParseCommand(env, canonical.productId, canonical.briefId, CommandJson(command)) == Some(canonical) {
      FrameIsOwn(env, canonical.productId, canonical.briefId, command);
    }
    if ParseCommand(env, command.productId, command.briefId, CommandJson(command)) == Some(canonical) {
      CanonicalIsCanonical(env, command.productId, command.briefId, command, canonical);
    }
    hide ParseCommand, CommandJson, CommandsMatch;
  }

  // ------------------------------------------------------- own reads and writes

  // What the browser promises, and an identity that has a storage key.
  ghost predicate Fit(env: BriefEnvironment, b: Bench) {
    Canonicalizes(env) && ParsesJson(env.parse) && KeyOf(Own(b)).Some?
  }

  function ReadOwn(env: BriefEnvironment, b: Bench, now: int): Option<Record> { ReadingOwn(env, b, now).1 }

  lemma ReadOwnIs(env: BriefEnvironment, b: Bench, now: int)
    ensures ReadOwn(env, b, now) == ReadingOwn(env, b, now).1
  {
  }

  lemma ReadTwice(env: BriefEnvironment, b: Bench, now: int)
    requires KeyOf(Own(b)).Some?
    ensures var b1 := ReadingOwn(env, b, now).0;
      b1 == b.(items := b1.items) && ReadOwn(env, b1, now) == ReadOwn(env, b, now)
  {
    KeyNotLegacy(Own(b));
    hide KeyOf, Parsed, LegacyKey;
  }

  // What is read is canonical, in force, and about the identity.
  lemma ReadIsCanonical(env: BriefEnvironment, b: Bench, now: int)
    requires Fit(env, b) && ReadOwn(env, b, now).Some?
    ensures var r := ReadOwn(env, b, now).value;
      && BriefIdentity(r.workspaceId, r.productId) == Own(b)
      && ParseRecord(env, Own(b), RecordJson(r), now) == Some(r)
      && IsActiveDeadline(env, r.retentionDeadline, now)
      && (r.content.Commanding? ==>
            && CanonicalCommand(env, r.content.command) && r.content.command.productId == Own(b).productId
            && r.content.command.briefId == r.content.briefId
            && (r.content.status == VersionConflict ==> r.content.command.payload.Revise?))
  {
    var r := ReadOwn(env, b, now).value;
    var v := RawOfRead(env, b, now);
    CanonicalReadsBack(env, Own(b), v, now, r, now);
    ParsedParts(env, Own(b), v, now, r);
    if r.content.Commanding? {
      CommandBack(env, Own(b).productId, r.content.briefId, Field(v, PendingCommandName).value, r.content.command);
    }
    hide ParseRecord, RecordJson, ParseCommand, CommandJson;
  }

  lemma RawOfRead(env: BriefEnvironment, b: Bench, now: int) returns (v: Json)
    requires Fit(env, b) && ReadOwn(env, b, now).Some?
    ensures ParseRecord(env, Own(b), v, now) == ReadOwn(env, b, now)
  {
    hide KeyOf, LegacyKey, ParseRecord;
    var key := KeyOf(Own(b)).value;
    v := env.parse((b.items - {LegacyKey(Own(b).productId)})[key]).value;
  }

  lemma ParsedParts(env: BriefEnvironment, identity: BriefIdentity, v: Json, now: int, r: Record)
    requires ParseRecord(env, identity, v, now) == Some(r)
    ensures IsActiveDeadline(env, r.retentionDeadline, now)
    ensures r.content.Commanding? ==>
      && Field(v, PendingCommandName).Some?
      && ParseCommand(env, identity.productId, r.content.briefId, Field(v, PendingCommandName).value) == Some(r.content.command)
      && (r.content.status == VersionConflict ==> r.content.command.payload.Revise?)
  {
    KindsDiffer();
    hide NameText, Ascii, Field, ExactFields, AssetIds, ParseAnalysis, ParseCommand, StatusText, EndsWithZone;
  }

  // The canonical form of a value differs from it at most in its command.
  lemma CanonicalParts(env: BriefEnvironment, identity: BriefIdentity, value: Record, now: int, r: Record)
    requires ParseRecord(env, identity, RecordJson(value), now) == Some(r)
    ensures r == value.(content := r.content)
    ensures value.content.Published? ==> r.content == value.content
    ensures value.content.Analysing? ==> r.content.Analysing? && BriefOf(r) == BriefOf(value)
    ensures value.content.Commanding? ==>
      && r.content == value.content.(command := r.content.command)
      && ParseCommand(env, identity.productId, value.content.briefId, CommandJson(value.content.command)) == Some(r.content.command)
  {
    RecordFields(value);
    KindsDiffer();
    TextsBack(value.assetVersionIds);
    CanonicalContent(env, identity, value, r);
    hide NameText, Ascii, Field, ExactFields, RecordJson, ParseContent, ContentValues, ContentNames, IsActiveDeadline, TextsJson;
  }

  lemma TextsBack(ids: seq<Text>)
    ensures forall minimum: nat :: AssetIds(Some(TextsJson(ids)), minimum).Some? ==> AssetIds(Some(TextsJson(ids)), minimum) == Some(ids)
  {
    forall minimum: nat | AssetIds(Some(TextsJson(ids)), minimum).Some?
      ensures AssetIds(Some(TextsJson(ids)), minimum) == Some(ids)
    {
      assert TextValues(TextsJson(ids).items) == ids;
    }
  }

  lemma CanonicalContent(env: BriefEnvironment, identity: BriefIdentity, value: Record, r: Record)
    requires ParseContent(env, identity, r.workflowId, r.assetVersionIds, RecordJson(value)) == Some(r.content)
    ensures value.content.Published? ==> r.content == value.content
    ensures value.content.Analysing? ==> r.content.Analysing? && BriefOf(r) == BriefOf(value)
    ensures value.content.Commanding? ==>
      && r.content.Commanding? && r.content == value.content.(command := r.content.command)
      && ParseCommand(env, identity.productId, value.content.briefId, CommandJson(value.content.command)) == Some(r.content.command)
  {
    match value.content {
      case Published(_, _) => PublishedContent(env, identity, value, r);
      case Analysing(_) => AnalysingContent(env, identity, value, r);
      case Commanding(_, _, _, _) => CommandingContent(env, identity, value, r);
    }
    hide ParseContent, ParseCommand, RecordJson, CommandJson;
  }

  lemma PublishedContent(env: BriefEnvironment, identity: BriefIdentity, value: Record, r: Record)
    requires value.content.Published?
    requires ParseContent(env, identity, r.workflowId, r.assetVersionIds, RecordJson(value)) == Some(r.content)
    ensures r.content == value.content
  {
    hide NameText, Ascii, Field, ExactFields, RecordJson, ParseAnalysis, ParseCommand, StatusText;
    RecordFields(value);
    var names, values := ContentNames(value.content), ContentValues(value.content);
    assert Field(RecordJson(value), names[0]) == Some(values[0]) && Field(RecordJson(value), names[1]) == Some(values[1]);
  }

  lemma AnalysingContent(env: BriefEnvironment, identity: BriefIdentity, value: Record, r: Record)
    requires value.content.Analysing?
    requires ParseContent(env, identity, r.workflowId, r.assetVersionIds, RecordJson(value)) == Some(r.content)
    ensures r.content.Analysing? && BriefOf(r) == BriefOf(value)
  {
    hide NameText, Ascii, Field, ExactFields, RecordJson, AnalysisJson, ParseCommand, StatusText, AssetIds, Stringify, PriorJson;
    RecordFields(value);
    var names, values := ContentNames(value.content), ContentValues(value.content);
    assert Field(RecordJson(value), names[0]) == Some(values[0]);
    var a := value.content.analysis;
    AnalysisPrior(a);
    PriorParsed(a.prior);
    hide ParsePrior;
  }

  lemma PriorParsed(prior: Option<Prior>)
    requires ParsePrior(PriorJson(prior)).Some?
    ensures ParsePrior(PriorJson(prior)) == Some(prior)
  {
    hide NameText, Ascii;
    if prior.Some? {
      var values := [Str(prior.value.briefId), Str(prior.value.operationId)];
      ObjectReads(PRIOR_NAMES, values);
      hide Field, Object, ExactFields;
      assert Field(PriorJson(prior), PRIOR_NAMES[0]) == Some(values[0]) && Field(PriorJson(prior), PRIOR_NAMES[1]) == Some(values[1]);
    }
  }

  lemma CommandingContent(env: BriefEnvironment, identity: BriefIdentity, value: Record, r: Record)
    requires value.content.Commanding?
    requires ParseContent(env, identity, r.workflowId, r.assetVersionIds, RecordJson(value)) == Some(r.content)
    ensures r.content.Commanding? && r.content == value.content.(command := r.content.command)
    ensures ParseCommand(env, identity.productId, value.content.briefId, CommandJson(value.content.command)) == Some(r.content.command)
  {
    hide NameText, Ascii, Field, ExactFields, RecordJson, ParseAnalysis, ParseCommand, CommandJson;
    KindsDiffer();
    RecordFields(value);
    var names, values := ContentNames(value.content), ContentValues(value.content);
    assert Field(RecordJson(value), names[0]) == Some(values[0]) && Field(RecordJson(value), names[1]) == Some(values[1]);
    assert Field(RecordJson(value), names[2]) == Some(values[2]) && Field(RecordJson(value), names[3]) == Some(values[3]);
    assert names[3] == CommandStatus && values[3] == Str(StatusText(value.content.status));
    assert names[2] == PendingCommandName && values[2] == CommandJson(value.content.command);
  }

  lemma AnalysisPrior(a: Analysis)
    ensures Field(AnalysisJson(a), PriorProductBrief) == Some(PriorJson(a.prior))
    ensures a.prior.Some? ==>
      && Field(PriorJson(a.prior), ProductBriefId) == Some(Str(a.prior.value.briefId))
      && Field(PriorJson(a.prior), OperationId) == Some(Str(a.prior.value.operationId))
  {
    hide NameText, Ascii;
    var values := [RequestJson(a), Str(a.idempotencyKey), PriorJson(a.prior)];
    ObjectReads(ANALYSIS_NAMES, values);
    assert Field(Object(ANALYSIS_NAMES, values), ANALYSIS_NAMES[2]) == Some(values[2]);
    if a.prior.Some? {
      var more := [Str(a.prior.value.briefId), Str(a.prior.value.operationId)];
      ObjectReads(PRIOR_NAMES, more);
      assert Field(Object(PRIOR_NAMES, more), PRIOR_NAMES[0]) == Some(more[0]);
      assert Field(Object(PRIOR_NAMES, more), PRIOR_NAMES[1]) == Some(more[1]);
    }
  }

  // A write either leaves the canonical value to be read and nothing else
  // changed, or closes the workbench with nothing left to read.
  lemma OwnWrite(env: BriefEnvironment, b: Bench, value: Record, now: int)
    requires Fit(env, b) && BriefIdentity(value.workspaceId, value.productId) == Own(b)
    ensures var (b', written) := WritingOwn(env, b, value, now);
      && b'.sent == b.sent && Own(b') == Own(b)
      && (written <==> ParseRecord(env, Own(b), RecordJson(value), now).Some?)
      && (written ==> b'.controller == b.controller
                      && ReadOwn(env, b', now) == ParseRecord(env, Own(b), RecordJson(value), now))
      && (!written ==> b'.controller == ExpiringRetention(b.controller) && ReadOwn(env, b', now) == None)
  {
    hide KeyOf, ParseRecord, RecordJson, Sweeping, IsActiveDeadline, LegacyKey;
    var items := Sweeping(env, ReadingOwn(env, b, now).0.items, now);
    WrittenReadsBack(env, items, value, now, now);
    var parsed := ParseRecord(env, Own(b), RecordJson(value), now);
    if parsed.Some? {
      CanonicalParts(env, Own(b), value, now, parsed.value);
      ParsedParts(env, Own(b), RecordJson(value), now, parsed.value);
    }
    WriteGone(env, b, now);
  }

  lemma WriteGone(env: BriefEnvironment, b: Bench, now: int)
    requires KeyOf(Own(b)).Some?
    ensures forall items: Items, c: State :: c.snapshot.identity == Own(b) && KeyOf(Own(b)).value !in items ==>
      ReadOwn(env, Bench(items, c, b.sent), now) == None
    ensures KeyOf(Own(b)).value !in ClearingRecord(ReadingOwn(env, b, now).0.items, Own(b))
  {
    hide KeyOf, LegacyKey, Parsed;
  }
}
