// A stored Product Brief record reads back as its canonical form.
module BriefRoundTrip {
  import opened Texts
  import opened Json
  import opened PendingCommand
  import opened KeyCodec
  import opened BriefRecord

  lemma ObjectReads(names: seq<Name>, values: seq<Json>)
    requires |names| == |values| && Distinct(names)
    ensures ExactFields(Object(names, values), names)
    ensures forall i :: 0 <= i < |names| ==> Field(Object(names, values), names[i]) == Some(values[i])
  {
    forall i | 0 <= i < |names| ensures Field(Object(names, values), names[i]) == Some(values[i]) {
      ObjectField(names, values, i);
    }
    forall n <- names ensures Field(Object(names, values), n).Some? {
      var i :| 0 <= i < |names| && names[i] == n;
    }
  }

  lemma AssetIdsBack(v: Option<Json>, minimum: nat, ids: seq<Text>)
    requires AssetIds(v, minimum) == Some(ids)
    ensures AssetIds(Some(TextsJson(ids)), minimum) == Some(ids)
    ensures minimum <= |ids| <= 8
  {
    var items, back := v.value.items, TextsJson(ids).items;
    assert forall i :: 0 <= i < |items| ==> items[i] in items && back[i] == items[i];
    assert back == items;
  }

  lemma {:induction false} RevisionFieldsBack(env: BriefEnvironment, items: seq<Json>)
    requires Canonicalizes(env) && RevisionFields(env, items).Some?
    ensures var fields := RevisionFields(env, items).value;
      |fields| == |items| && RevisionFields(env, fields) == Some(fields)
  {
    hide FieldOf, WellFormed;
    if items != [] {
      FieldOfIsCanonical(items[0]);
      RevisionFieldsBack(env, items[1..]);
      var fields := RevisionFields(env, items).value;
      assert fields[1..] == RevisionFields(env, items[1..]).value;
    }
  }

  lemma RevisionBack(env: BriefEnvironment, v: Json, p: BriefPayload)
    requires Canonicalizes(env) && ParseRevision(env, v) == Some(p)
    ensures p.Revise? && ParseRevision(env, PayloadJson(p)) == Some(p)
  {
    hide NameText, Ascii, FieldOf;
    RevisionFieldsBack(env, Field(v, Fields).value.items);
    var names := [ExpectedBriefVersion, BaseVersionId, Reason, Fields];
    var values := [Num(p.expectedVersion), Str(p.baseVersionId), Str(p.reason), Arr(p.fields)];
    ObjectReads(names, values);
    assert Field(Object(names, values), names[0]) == Some(values[0]) && Field(Object(names, values), names[1]) == Some(values[1]);
    assert Field(Object(names, values), names[2]) == Some(values[2]) && Field(Object(names, values), names[3]) == Some(values[3]);
    hide Field, Object, ExactFields;
  }

  // The members of a confirmation are read back whether or not the optional
  // ones are present.
  lemma ConfirmationFields(p: BriefPayload)
    requires p.Confirm?
    ensures var v := PayloadJson(p);
      && Field(v, ExpectedBriefVersion) == Some(Num(p.expectedVersion))
      && Field(v, BriefVersionId) == Some(Str(p.versionId))
      && Field(v, ExpectedWorkflowVersion) == Some(Num(p.expectedWorkflowVersion))
      && Field(v, ReasonCode) == (if p.reasonCode.Missing? then None else Some(OptionalJson(p.reasonCode)))
      && Field(v, CommentRef) == (if p.commentRef.Missing? then None else Some(OptionalJson(p.commentRef)))
  {
    hide NameText, Ascii, Field;
    var names := ConfirmNames(p);
    var values := [Num(p.expectedVersion), Str(p.versionId), Num(p.expectedWorkflowVersion)] + OptionalValues(p);
    ObjectReads(names, values);
    assert names[0] == ExpectedBriefVersion && names[1] == BriefVersionId && names[2] == ExpectedWorkflowVersion;
    if p.reasonCode.Missing? { ObjectLacks(names, values, ReasonCode); } else { assert names[3] == ReasonCode; }
    if p.commentRef.Missing? { ObjectLacks(names, values, CommentRef); } else { assert names[|names| - 1] == CommentRef; }
  }

  lemma ConfirmationKeys(p: BriefPayload)
    requires p.Confirm?
    ensures forall f <- PayloadJson(p).fields :: ConfirmationKey(f.key)
  {
    hide NameText, Ascii;
    var fields, names := PayloadJson(p).fields, ConfirmNames(p);
    forall f <- fields ensures ConfirmationKey(f.key) {
      var i :| 0 <= i < |fields| && fields[i] == f;
      assert f.key == NameText(names[i]);
    }
  }

  lemma OptionalBack(v: Option<Json>, maximum: nat, t: OptionalText)
    requires OptionalMember(v, maximum) == Some(t)
    ensures OptionalMember(if t.Missing? then None else Some(OptionalJson(t)), maximum) == Some(t)
  {
  }

  lemma ConfirmationBack(v: Json, p: BriefPayload)
    requires ParseConfirmation(v) == Some(p)
    ensures p.Confirm? && ParseConfirmation(PayloadJson(p)) == Some(p)
  {
    hide NameText, Ascii, Field;
    ConfirmationFields(p);
    ConfirmationKeys(p);
    OptionalBack(Field(v, ReasonCode), 128, p.reasonCode);
    OptionalBack(Field(v, CommentRef), 512, p.commentRef);
    hide OptionalMember, OptionalJson;
  }

  lemma KindsDiffer()
    ensures Ascii("revise") != Ascii("confirm")
    ensures StatusText(Awaited) != StatusText(VersionConflict)
  {
    assert |Ascii("revise")| != |Ascii("confirm")| && |Ascii("pending")| != |Ascii("version-conflict")|;
  }

  lemma CommandBack(env: BriefEnvironment, productId: Text, briefId: Text, v: Json, c: BriefCommand)
    requires Canonicalizes(env) && ParseCommand(env, productId, briefId, v) == Some(c)
    ensures c.productId == productId && c.briefId == briefId
    ensures ParseCommand(env, productId, briefId, CommandJson(c)) == Some(c)
  {
    hide NameText, Ascii, FieldOf;
    KindsDiffer();
    var values := [Num(1), Str(KindText(c.payload)), Str(c.productId), Str(c.briefId), PayloadJson(c.payload), Str(c.idempotencyKey)];
    if Field(v, Kind) == Some(Str(Ascii("revise"))) {
      RevisionBack(env, Field(v, Payload).value, c.payload);
    } else {
      ConfirmationBack(Field(v, Payload).value, c.payload);
    }
    ObjectReads(COMMAND_NAMES, values);
    var o := Object(COMMAND_NAMES, values);
    hide Field, Object, ParseRevision, ParseConfirmation, PayloadJson;
    assert Field(o, COMMAND_NAMES[0]) == Some(values[0]) && Field(o, COMMAND_NAMES[1]) == Some(values[1]);
    assert Field(o, COMMAND_NAMES[2]) == Some(values[2]) && Field(o, COMMAND_NAMES[3]) == Some(values[3]);
    assert Field(o, COMMAND_NAMES[4]) == Some(values[4]) && Field(o, COMMAND_NAMES[5]) == Some(values[5]);
  }

  lemma PriorBack(v: Json, prior: Option<Prior>)
    requires ParsePrior(v) == Some(prior)
    ensures ParsePrior(PriorJson(prior)) == Some(prior)
  {
    hide NameText, Ascii;
    if prior.Some? {
      var values := [Str(prior.value.briefId), Str(prior.value.operationId)];
      ObjectReads(PRIOR_NAMES, values);
      assert Field(Object(PRIOR_NAMES, values), PRIOR_NAMES[0]) == Some(values[0]);
      assert Field(Object(PRIOR_NAMES, values), PRIOR_NAMES[1]) == Some(values[1]);
    }
  }

  lemma RequestBack(a: Analysis)
    ensures var v := RequestJson(a);
      && ExactFields(v, REQUEST_NAMES)
      && Field(v, PayloadWorkflowId) == Some(Str(a.workflowId)) && Field(v, PayloadProductId) == Some(Str(a.productId))
      && Field(v, PayloadAssetVersionIds) == Some(TextsJson(a.assetVersionIds))
      && Field(v, ExpectedWorkflowVersion) == Some(Num(a.expectedWorkflowVersion))
  {
    hide NameText, Ascii;
    var values := [Str(a.workflowId), Str(a.productId), TextsJson(a.assetVersionIds), Num(a.expectedWorkflowVersion)];
    ObjectReads(REQUEST_NAMES, values);
    var o := Object(REQUEST_NAMES, values);
    hide Field, Object;
    assert Field(o, REQUEST_NAMES[0]) == Some(values[0]) && Field(o, REQUEST_NAMES[1]) == Some(values[1]);
    assert Field(o, REQUEST_NAMES[2]) == Some(values[2]) && Field(o, REQUEST_NAMES[3]) == Some(values[3]);
  }

  lemma AnalysisBack(productId: Text, workflowId: Text, ids: seq<Text>, v: Json, a: Analysis)
    requires ParseAnalysis(productId, workflowId, ids, v) == Some(a)
    ensures ParseAnalysis(productId, workflowId, ids, AnalysisJson(a)) == Some(a)
  {
    hide NameText, Ascii, Stringify;
    RequestBack(a);
    PriorBack(Field(v, PriorProductBrief).value, a.prior);
    AssetIdsBack(Field(Field(v, Payload).value, PayloadAssetVersionIds), 1, a.assetVersionIds);
    var values := [RequestJson(a), Str(a.idempotencyKey), PriorJson(a.prior)];
    ObjectReads(ANALYSIS_NAMES, values);
    var o := Object(ANALYSIS_NAMES, values);
    assert Field(o, ANALYSIS_NAMES[0]) == Some(values[0]) && Field(o, ANALYSIS_NAMES[1]) == Some(values[1]);
    assert Field(o, ANALYSIS_NAMES[2]) == Some(values[2]);
    hide Field, Object, AssetIds, ParsePrior, PriorJson, RequestJson, TextsJson, VersionNumber;
  }

  // ---------------------------------------------------------------- a record

  function RecordNames(r: Record): seq<Name> { BASE_NAMES + ContentNames(r.content) }

  lemma RecordFields(r: Record)
    ensures var v := RecordJson(r);
      && ExactFields(v, RecordNames(r))
      && Field(v, SchemaVersion) == Some(Num(SchemaOf(r.content)))
      && Field(v, WorkspaceId) == Some(Str(r.workspaceId)) && Field(v, ProductId) == Some(Str(r.productId))
      && Field(v, WorkflowId) == Some(Str(r.workflowId)) && Field(v, AssetVersionIds) == Some(TextsJson(r.assetVersionIds))
      && Field(v, RetentionDeadline) == Some(Str(r.retentionDeadline))
      && forall i :: 0 <= i < |ContentNames(r.content)| ==>
           Field(v, ContentNames(r.content)[i]) == Some(ContentValues(r.content)[i])
  {
    hide NameText, Ascii;
    var names := RecordNames(r);
    var values := [Num(SchemaOf(r.content)), Str(r.workspaceId), Str(r.productId), Str(r.workflowId),
                   TextsJson(r.assetVersionIds), Str(r.retentionDeadline)] + ContentValues(r.content);
    ObjectReads(names, values);
    hide Field, Object, ExactFields, TextsJson, ContentValues;
    var o := Object(names, values);
    assert o == RecordJson(r);
    assert Field(o, names[0]) == Some(values[0]) && Field(o, names[1]) == Some(values[1]) && Field(o, names[2]) == Some(values[2]);
    assert Field(o, names[3]) == Some(values[3]) && Field(o, names[4]) == Some(values[4]) && Field(o, names[5]) == Some(values[5]);
    forall i | 0 <= i < |ContentNames(r.content)|
      ensures Field(o, ContentNames(r.content)[i]) == Some(ContentValues(r.content)[i])
    {
      assert Field(o, names[6 + i]) == Some(values[6 + i]);
    }
  }

  lemma ContentBack(
    env: BriefEnvironment, identity: BriefIdentity, ids: seq<Text>, v: Json, r: Record)
    requires Canonicalizes(env) && ParseContent(env, identity, r.workflowId, ids, v) == Some(r.content)
    ensures ParseContent(env, identity, r.workflowId, ids, RecordJson(r)) == Some(r.content)
  {
    KindsDiffer();
    hide NameText, Ascii, Field, ExactFields, AnalysisJson, CommandJson;
    match r.content {
      case Published(briefId, operationId) =>
        PublishedBack(env, identity, ids, r);
      case Analysing(analysis) =>
        AnalysisBack(identity.productId, r.workflowId, ids, Field(v, PendingAnalysis).value, analysis);
        AnalysingBack(env, identity, ids, r);
      case Commanding(briefId, operationId, command, status) =>
        CommandBack(env, identity.productId, briefId, Field(v, PendingCommandName).value, command);
        CommandingBack(env, identity, ids, r);
    }
  }

  lemma PublishedBack(env: BriefEnvironment, identity: BriefIdentity, ids: seq<Text>, r: Record)
    requires r.content.Published? && 1 <= |r.content.briefId| <= 36 && 1 <= |r.content.operationId| <= 36
    ensures ParseContent(env, identity, r.workflowId, ids, RecordJson(r)) == Some(r.content)
  {
    RecordFields(r);
    hide NameText, Ascii, Field, RecordJson, ExactFields;
    assert Field(RecordJson(r), ContentNames(r.content)[0]) == Some(ContentValues(r.content)[0]);
    assert Field(RecordJson(r), ContentNames(r.content)[1]) == Some(ContentValues(r.content)[1]);
  }

  lemma AnalysingBack(env: BriefEnvironment, identity: BriefIdentity, ids: seq<Text>, r: Record)
    requires r.content.Analysing?
    requires ParseAnalysis(identity.productId, r.workflowId, ids, AnalysisJson(r.content.analysis)) == Some(r.content.analysis)
    ensures ParseContent(env, identity, r.workflowId, ids, RecordJson(r)) == Some(r.content)
  {
    RecordFields(r);
    hide NameText, Ascii, Field, RecordJson, ExactFields, ParseAnalysis, AnalysisJson;
    assert Field(RecordJson(r), ContentNames(r.content)[0]) == Some(ContentValues(r.content)[0]);
  }

  lemma CommandingBack(env: BriefEnvironment, identity: BriefIdentity, ids: seq<Text>, r: Record)
    requires r.content.Commanding? && 1 <= |r.content.briefId| <= 36 && 1 <= |r.content.operationId| <= 36
    requires r.content.status == VersionConflict ==> r.content.command.payload.Revise?
    requires ParseCommand(env, identity.productId, r.content.briefId, CommandJson(r.content.command)) == Some(r.content.command)
    ensures ParseContent(env, identity, r.workflowId, ids, RecordJson(r)) == Some(r.content)
  {
    RecordFields(r);
    KindsDiffer();
    hide NameText, Ascii, Field, RecordJson, ExactFields, ParseCommand, CommandJson, StatusText;
    assert Field(RecordJson(r), ContentNames(r.content)[0]) == Some(ContentValues(r.content)[0]);
    assert Field(RecordJson(r), ContentNames(r.content)[1]) == Some(ContentValues(r.content)[1]);
    assert Field(RecordJson(r), ContentNames(r.content)[2]) == Some(ContentValues(r.content)[2]);
    assert Field(RecordJson(r), ContentNames(r.content)[3]) == Some(ContentValues(r.content)[3]);
  }

  // Whatever is accepted, its canonical form is accepted as itself until the
  // deadline, and refused from then on.
  lemma CanonicalReadsBack(env: BriefEnvironment, identity: BriefIdentity, v: Json, now: int, r: Record, later: int)
    requires Canonicalizes(env) && ParseRecord(env, identity, v, now) == Some(r)
    ensures env.parseDate(r.retentionDeadline).Some? && now < env.parseDate(r.retentionDeadline).value
    ensures ParseRecord(env, identity, RecordJson(r), later)
         == if later < env.parseDate(r.retentionDeadline).value then Some(r) else None
    ensures BriefIdentity(r.workspaceId, r.productId) == identity
  {
    var minimum := if Field(v, SchemaVersion) == Some(Num(2)) then 1 else 0;
    AssetIdsBack(Field(v, AssetVersionIds), minimum, r.assetVersionIds);
    ContentBack(env, identity, r.assetVersionIds, v, r);
    SchemaKept(env, identity, v, r);
    RecordFields(r);
    hide NameText, Ascii, Field, RecordJson, ParseContent, AssetIds, TextsJson, EndsWithZone, ExactFields;
  }

  lemma SchemaKept(env: BriefEnvironment, identity: BriefIdentity, v: Json, r: Record)
    requires ParseContent(env, identity, r.workflowId, r.assetVersionIds, v) == Some(r.content)
    ensures Field(v, SchemaVersion) == Some(Num(SchemaOf(r.content)))
  {
    hide NameText, Ascii, Field, ExactFields, ParseAnalysis, ParseCommand, StatusText, BoundedText;
  }

  // -------------------------------------------------------------- well-formed

  // Whatever is accepted has a canonical form that JSON.parse yields again.
  lemma ParsedWellFormed(env: BriefEnvironment, identity: BriefIdentity, v: Json, now: int, r: Record)
    requires Canonicalizes(env) && ParseRecord(env, identity, v, now) == Some(r)
    ensures WellFormed(RecordJson(r))
  {
    ParsedContent(env, identity, v, now, r);
    hide ParseRecord, ParseCommand, ParseAnalysis, CommandJson, AnalysisJson, RecordJson, Field, WellFormed;
    match r.content {
      case Published(_, _) =>
      case Analysing(analysis) =>
        AnalysisWellFormed(r.productId, r.workflowId, r.assetVersionIds, Field(v, PendingAnalysis).value, analysis);
      case Commanding(briefId, _, command, _) =>
        CommandWellFormed(env, r.productId, briefId, Field(v, PendingCommandName).value, command);
    }
    RecordWellFormed(r);
  }

  lemma RecordWellFormed(r: Record)
    requires r.content.Analysing? ==> WellFormed(AnalysisJson(r.content.analysis))
    requires r.content.Commanding? ==> WellFormed(CommandJson(r.content.command))
    ensures WellFormed(RecordJson(r))
  {
    hide NameText, Ascii, Object, CommandJson, AnalysisJson;
    ObjectWellFormed(RecordNames(r),
      [Num(SchemaOf(r.content)), Str(r.workspaceId), Str(r.productId), Str(r.workflowId), TextsJson(r.assetVersionIds),
       Str(r.retentionDeadline)] + ContentValues(r.content));
  }

  lemma ParsedContent(env: BriefEnvironment, identity: BriefIdentity, v: Json, now: int, r: Record)
    requires ParseRecord(env, identity, v, now) == Some(r)
    ensures r.productId == identity.productId
    ensures r.content.Analysing? ==>
      Field(v, PendingAnalysis).Some?
      && ParseAnalysis(r.productId, r.workflowId, r.assetVersionIds, Field(v, PendingAnalysis).value) == Some(r.content.analysis)
    ensures r.content.Commanding? ==>
      Field(v, PendingCommandName).Some?
      && ParseCommand(env, r.productId, r.content.briefId, Field(v, PendingCommandName).value) == Some(r.content.command)
  {
    hide NameText, Ascii, Field, ExactFields, AssetIds, ParseAnalysis, ParseCommand, StatusText, EndsWithZone;
  }

  lemma CommandWellFormed(env: BriefEnvironment, productId: Text, briefId: Text, v: Json, c: BriefCommand)
    requires Canonicalizes(env) && ParseCommand(env, productId, briefId, v) == Some(c)
    ensures WellFormed(CommandJson(c))
  {
    hide NameText, Ascii, WellFormed, PayloadJson, ParseRevision, ParseConfirmation;
    PayloadWellFormed(env, Field(v, Payload).value, c.payload);
    hide Field, ExactFields, ParseCommand;
    CommandPartsWellFormed(c);
  }

  lemma CommandPartsWellFormed(c: BriefCommand)
    requires WellFormed(PayloadJson(c.payload))
    ensures WellFormed(CommandJson(c))
  {
    hide NameText, Ascii, Object, PayloadJson;
    ObjectWellFormed(COMMAND_NAMES,
      [Num(1), Str(KindText(c.payload)), Str(c.productId), Str(c.briefId), PayloadJson(c.payload), Str(c.idempotencyKey)]);
  }

  lemma PayloadWellFormed(env: BriefEnvironment, v: Json, p: BriefPayload)
    requires Canonicalizes(env) && (ParseRevision(env, v) == Some(p) || ParseConfirmation(v) == Some(p))
    ensures WellFormed(PayloadJson(p))
  {
    hide NameText, Ascii, Object, Field, ExactFields, ParseRevision, ParseConfirmation, FieldOf;
    if ParseRevision(env, v) == Some(p) {
      RevisionPlain(env, v, p);
      ObjectWellFormed([ExpectedBriefVersion, BaseVersionId, Reason, Fields],
                       [Num(p.expectedVersion), Str(p.baseVersionId), Str(p.reason), Arr(p.fields)]);
    } else {
      ConfirmationPlain(v, p);
      ObjectWellFormed(ConfirmNames(p), [Num(p.expectedVersion), Str(p.versionId), Num(p.expectedWorkflowVersion)] + OptionalValues(p));
    }
  }

  lemma RevisionPlain(env: BriefEnvironment, v: Json, p: BriefPayload)
    requires Canonicalizes(env) && ParseRevision(env, v) == Some(p)
    ensures p.Revise? && WellFormed(Num(p.expectedVersion)) && WellFormed(Arr(p.fields))
  {
    hide NameText, Ascii, Field, ExactFields, BoundedText, FieldOf;
    RevisionFieldsPlain(env, Field(v, Fields).value.items);
  }

  lemma ConfirmationPlain(v: Json, p: BriefPayload)
    requires ParseConfirmation(v) == Some(p)
    ensures p.Confirm? && WellFormed(Num(p.expectedVersion)) && WellFormed(Num(p.expectedWorkflowVersion))
  {
    hide NameText, Ascii, Field, BoundedText, OptionalMember, ConfirmationKey;
  }

  lemma {:induction false} RevisionFieldsPlain(env: BriefEnvironment, items: seq<Json>)
    requires Canonicalizes(env) && RevisionFields(env, items).Some?
    ensures forall i :: 0 <= i < |RevisionFields(env, items).value| ==> WellFormed(RevisionFields(env, items).value[i])
  {
    hide FieldOf, WellFormed;
    if items != [] {
      FieldOfIsCanonical(items[0]);
      RevisionFieldsPlain(env, items[1..]);
    }
  }

  lemma AnalysisWellFormed(productId: Text, workflowId: Text, ids: seq<Text>, v: Json, a: Analysis)
    requires ParseAnalysis(productId, workflowId, ids, v) == Some(a)
    ensures WellFormed(AnalysisJson(a))
  {
    hide NameText, Ascii, Object, Field, ExactFields, Stringify, ParsePrior, AssetIds;
    ObjectWellFormed(REQUEST_NAMES,
      [Str(a.workflowId), Str(a.productId), TextsJson(a.assetVersionIds), Num(a.expectedWorkflowVersion)]);
    if a.prior.Some? { ObjectWellFormed(PRIOR_NAMES, [Str(a.prior.value.briefId), Str(a.prior.value.operationId)]); }
    ObjectWellFormed(ANALYSIS_NAMES, [RequestJson(a), Str(a.idempotencyKey), PriorJson(a.prior)]);
  }
}
