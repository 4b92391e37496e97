// The stored Product Brief record of
// apps/web/lib/product-brief-persistence.ts and the pending commands of
// apps/web/lib/product-brief-workbench-state.ts: what is accepted from storage
// and in which canonical form.
module BriefRecord {
  import opened Texts
  import opened Json
  import opened PendingCommand
  import opened KeyCodec
  import BriefFields

  // ------------------------------------------------------------- field names

  datatype Name =
    | SchemaVersion | WorkspaceId | ProductId | ProductBriefId | OperationId | WorkflowId | AssetVersionIds
    | RetentionDeadline | PendingAnalysis | PendingCommandName | CommandStatus | Payload | IdempotencyKey
    | PriorProductBrief | PayloadWorkflowId | PayloadProductId | PayloadAssetVersionIds | ExpectedWorkflowVersion | Kind
    | ExpectedBriefVersion | BaseVersionId | Reason | Fields | BriefVersionId | ReasonCode | CommentRef

  function NameText(n: Name): Text {
    match n
    case SchemaVersion => Ascii("schemaVersion")
    case WorkspaceId => Ascii("workspaceId")
    case ProductId => Ascii("productId")
    case ProductBriefId => Ascii("productBriefId")
    case OperationId => Ascii("operationId")
    case WorkflowId => Ascii("workflowId")
    case AssetVersionIds => Ascii("assetVersionIds")
    case RetentionDeadline => Ascii("retentionDeadline")
    case PendingAnalysis => Ascii("pendingAnalysis")
    case PendingCommandName => Ascii("pendingCommand")
    case CommandStatus => Ascii("commandStatus")
    case Payload => Ascii("payload")
    case IdempotencyKey => Ascii("idempotencyKey")
    case PriorProductBrief => Ascii("priorProductBrief")
    case PayloadWorkflowId => Ascii("workflow_id")
    case PayloadProductId => Ascii("product_id")
    case PayloadAssetVersionIds => Ascii("asset_version_ids")
    case ExpectedWorkflowVersion => Ascii("expected_workflow_version")
    case Kind => Ascii("kind")
    case ExpectedBriefVersion => Ascii("expected_product_brief_version")
    case BaseVersionId => Ascii("base_version_id")
    case Reason => Ascii("reason")
    case Fields => Ascii("fields")
    case BriefVersionId => Ascii("product_brief_version_id")
    case ReasonCode => Ascii("reason_code")
    case CommentRef => Ascii("comment_ref")
  }

  // Distinct names differ in length, in their first or in their fifth letter.
  function Print(t: Text): (nat, int, int)
    requires |t| >= 5
  {
    (|t|, t[0], t[4])
  }

  function NamePrint(n: Name): (nat, int, int) {
    match n
    case SchemaVersion => (13, 115, 109)
    case WorkspaceId => (11, 119, 115)
    case ProductId => (9, 112, 117)
    case ProductBriefId => (14, 112, 117)
    case OperationId => (11, 111, 97)
    case WorkflowId => (10, 119, 102)
    case AssetVersionIds => (15, 97, 116)
    case RetentionDeadline => (17, 114, 110)
    case PendingAnalysis => (15, 112, 105)
    case PendingCommandName => (14, 112, 105)
    case CommandStatus => (13, 99, 97)
    case Payload => (7, 112, 111)
    case IdempotencyKey => (14, 105, 112)
    case PriorProductBrief => (17, 112, 114)
    case PayloadWorkflowId => (11, 119, 102)
    case PayloadProductId => (10, 112, 117)
    case PayloadAssetVersionIds => (17, 97, 116)
    case ExpectedWorkflowVersion => (25, 101, 99)
    case Kind => (4, 107, 0)
    case ExpectedBriefVersion => (30, 101, 99)
    case BaseVersionId => (15, 98, 95)
    case Reason => (6, 114, 111)
    case Fields => (6, 102, 100)
    case BriefVersionId => (24, 112, 117)
    case ReasonCode => (11, 114, 111)
    case CommentRef => (11, 99, 101)
  }

  lemma NamePrinted(n: Name)
    ensures if n.Kind? then |NameText(n)| == 4 else |NameText(n)| >= 5 && Print(NameText(n)) == NamePrint(n)
  {
    if NamePrint(n).0 <= 11 {
      ShortNamePrinted(n);
    } else if NamePrint(n).0 <= 14 {
      MiddleNamePrinted(n);
    } else if NamePrint(n).0 <= 15 {
      LongNamePrinted(n);
    } else {
      LongestNamePrinted(n);
    }
  }

  lemma ShortNamePrinted(n: Name)
    requires NamePrint(n).0 <= 11
    ensures if n.Kind? then |NameText(n)| == 4 else |NameText(n)| >= 5 && Print(NameText(n)) == NamePrint(n)
  {
  }

  lemma MiddleNamePrinted(n: Name)
    requires 11 < NamePrint(n).0 <= 14
    ensures !n.Kind? && |NameText(n)| >= 5 && Print(NameText(n)) == NamePrint(n)
  {
  }

  lemma LongNamePrinted(n: Name)
    requires 14 < NamePrint(n).0 <= 15
    ensures !n.Kind? && |NameText(n)| >= 5 && Print(NameText(n)) == NamePrint(n)
  {
  }

  lemma LongestNamePrinted(n: Name)
    requires NamePrint(n).0 > 15
    ensures !n.Kind? && |NameText(n)| >= 5 && Print(NameText(n)) == NamePrint(n)
  {
  }

  lemma PrintsDiffer(m: Name, n: Name)
    requires m != n
    ensures NamePrint(m) != NamePrint(n)
  {
  }

  lemma NamesDiffer(m: Name, n: Name)
    requires m != n
    ensures NameText(m) != NameText(n)
  {
    NamePrinted(m);
    NamePrinted(n);
    PrintsDiffer(m, n);
    hide NameText, NamePrint;
  }

  // ------------------------------------------------------------ field access

  function Field(v: Json, n: Name): Option<Json> { Get(v, NameText(n)) }

  // An object with the given fields, in order.
  function Object(names: seq<Name>, values: seq<Json>): Json
    requires |names| == |values|
  {
    Obj(seq(|names|, i requires 0 <= i < |names| => Entry(NameText(names[i]), values[i])))
  }

  ghost predicate Distinct<T(!new)>(items: seq<T>) {
    forall i, j :: 0 <= i < j < |items| ==> items[i] != items[j]
  }

  lemma ObjectDistinct(names: seq<Name>, values: seq<Json>)
    requires |names| == |values| && Distinct(names)
    ensures DistinctKeys(Object(names, values).fields)
  {
    forall i, j | 0 <= i < j < |names| ensures NameText(names[i]) != NameText(names[j]) {
      NamesDiffer(names[i], names[j]);
    }
  }

  lemma ObjectWellFormed(names: seq<Name>, values: seq<Json>)
    requires |names| == |values| && Distinct(names)
    requires forall i :: 0 <= i < |values| ==> WellFormed(values[i])
    ensures WellFormed(Object(names, values))
  {
    ObjectDistinct(names, values);
    forall i | 0 <= i < |names| ensures !IndexKey(NameText(names[i])) { NameNoIndex(names[i]); }
    hide NameText, IndexKey, WellFormed;
    var fields := Object(names, values).fields;
    assert forall i :: 0 <= i < |fields| ==> fields[i].key == NameText(names[i]) && fields[i].value == values[i];
    NamesWellFormed(fields);
  }

  // A name starts with a letter.
  lemma NameNoIndex(n: Name)
    ensures !IndexKey(NameText(n))
  {
    NamePrinted(n);
    var t := NameText(n);
    if !n.Kind? { assert t[0] == NamePrint(n).1; }
    assert t[0] >= 97 && t[0] in t by { hide NameText; if n.Kind? { KindStarts(); } }
    hide NameText, NamePrint;
  }

  lemma KindStarts()
    ensures NameText(Kind) == [107, 105, 110, 100]
  {
  }

  // Reading back a field of such an object.
  lemma ObjectField(names: seq<Name>, values: seq<Json>, i: nat)
    requires |names| == |values| && Distinct(names) && i < |names|
    ensures Field(Object(names, values), names[i]) == Some(values[i])
  {
    ObjectDistinct(names, values);
    FindAt(Object(names, values).fields, i);
  }

  lemma ObjectLacks(names: seq<Name>, values: seq<Json>, n: Name)
    requires |names| == |values| && n !in names
    ensures Field(Object(names, values), n) == None
  {
    forall i | 0 <= i < |names| ensures NameText(names[i]) != NameText(n) { NamesDiffer(names[i], n); }
    FindNone(Object(names, values).fields, NameText(n));
  }

  predicate ExactFields(v: Json, names: seq<Name>) {
    v.Obj? && |v.fields| == |names| && forall n <- names :: Field(v, n).Some?
  }

  function BoundedText(v: Option<Json>, minimum: nat, maximum: nat): Option<Text> {
    if IsText(v) && minimum <= |v.value.s| <= maximum then Some(v.value.s) else None
  }

  function VersionNumber(v: Option<Json>): Option<int> {
    if v.Some? && v.value.Num? && 1 <= v.value.n <= MAXIMUM_SAFE_INTEGER then Some(v.value.n) else None
  }

  // ------------------------------------------------------------- the records

  // What the browser supplies: JSON.parse and Date.parse where it yields a
  // number; and the canonical form of one revised field.
  datatype BriefEnvironment = BriefEnvironment(
    parse: Text -> Option<Json>,
    parseDate: Text -> Option<int>,
    revisionField: Json -> Option<Json>)

  // A revised field has the canonical form revisionFieldFor gives it, where it
  // is a value JavaScript can hold.
  ghost predicate Canonicalizes(env: BriefEnvironment) {
    forall v :: env.revisionField(v) == FieldOf(v)
  }

  ghost function FieldOf(v: Json): Option<Json> {
    if WellFormed(v) then BriefFields.RevisionFieldFor(v) else None
  }

  lemma FieldOfIsCanonical(v: Json)
    ensures FieldOf(v).Some? ==> WellFormed(FieldOf(v).value) && FieldOf(FieldOf(v).value) == FieldOf(v)
  {
    if FieldOf(v).Some? { BriefFields.CanonicalFieldIsCanonical(v, FieldOf(v).value); }
  }

  // A member that may be absent or null.
  datatype OptionalText = Missing | NullText | Given(text: Text)

  datatype Prior = Prior(briefId: Text, operationId: Text)

  datatype Analysis = Analysis(
    workflowId: Text,
    productId: Text,
    assetVersionIds: seq<Text>,
    expectedWorkflowVersion: int,
    idempotencyKey: Text,
    prior: Option<Prior>)

  datatype BriefPayload =
    | Revise(expectedVersion: int, baseVersionId: Text, reason: Text, fields: seq<Json>)
    | Confirm(
        expectedVersion: int, versionId: Text, expectedWorkflowVersion: int, reasonCode: OptionalText, commentRef: OptionalText)

  datatype BriefCommand = BriefCommand(productId: Text, briefId: Text, idempotencyKey: Text, payload: BriefPayload)

  datatype Status = Awaited | VersionConflict

  datatype Content =
    | Published(briefId: Text, operationId: Text)                                        // schema version 1
    | Analysing(analysis: Analysis)                                                      // schema version 2
    | Commanding(briefId: Text, operationId: Text, command: BriefCommand, status: Status)  // schema version 3

  datatype Record = Record(
    workspaceId: Text,
    productId: Text,
    workflowId: Text,
    assetVersionIds: seq<Text>,
    retentionDeadline: Text,
    content: Content)

  // ------------------------------------------------------------- writing JSON

  function TextsJson(texts: seq<Text>): Json {
    Arr(seq(|texts|, i requires 0 <= i < |texts| => Str(texts[i])))
  }

  function PayloadJson(payload: BriefPayload): Json {
    match payload
    case Revise(version, base, reason, fields) =>
      Object([ExpectedBriefVersion, BaseVersionId, Reason, Fields], [Num(version), Str(base), Str(reason), Arr(fields)])
    case Confirm(version, versionId, workflowVersion, _, _) =>
      Object(ConfirmNames(payload), [Num(version), Str(versionId), Num(workflowVersion)] + OptionalValues(payload))
  }

  function ConfirmNames(payload: BriefPayload): seq<Name>
    requires payload.Confirm?
  {
    [ExpectedBriefVersion, BriefVersionId, ExpectedWorkflowVersion]
    + (if payload.reasonCode.Missing? then [] else [ReasonCode])
    + (if payload.commentRef.Missing? then [] else [CommentRef])
  }

  function OptionalJson(t: OptionalText): Json { if t.Given? then Str(t.text) else Null }

  function OptionalValues(payload: BriefPayload): (values: seq<Json>)
    requires payload.Confirm?
    ensures |values| + 3 == |ConfirmNames(payload)|
  {
    (if payload.reasonCode.Missing? then [] else [OptionalJson(payload.reasonCode)])
    + (if payload.commentRef.Missing? then [] else [OptionalJson(payload.commentRef)])
  }

  const COMMAND_NAMES: seq<Name> := [SchemaVersion, Kind, ProductId, ProductBriefId, Payload, IdempotencyKey]

  function KindText(payload: BriefPayload): Text {
    if payload.Revise? then Ascii("revise") else Ascii("confirm")
  }

  function CommandJson(c: BriefCommand): Json {
    Object(COMMAND_NAMES,
           [Num(1), Str(KindText(c.payload)), Str(c.productId), Str(c.briefId), PayloadJson(c.payload), Str(c.idempotencyKey)])
  }

  const ANALYSIS_NAMES: seq<Name> := [Payload, IdempotencyKey, PriorProductBrief]
  const REQUEST_NAMES: seq<Name> := [PayloadWorkflowId, PayloadProductId, PayloadAssetVersionIds, ExpectedWorkflowVersion]
  const PRIOR_NAMES: seq<Name> := [ProductBriefId, OperationId]

  function RequestJson(a: Analysis): Json {
    Object(REQUEST_NAMES, [Str(a.workflowId), Str(a.productId), TextsJson(a.assetVersionIds), Num(a.expectedWorkflowVersion)])
  }

  function PriorJson(prior: Option<Prior>): Json {
    if prior.None? then Null else Object(PRIOR_NAMES, [Str(prior.value.briefId), Str(prior.value.operationId)])
  }

  function AnalysisJson(a: Analysis): Json {
    Object(ANALYSIS_NAMES, [RequestJson(a), Str(a.idempotencyKey), PriorJson(a.prior)])
  }

  const BASE_NAMES: seq<Name> := [SchemaVersion, WorkspaceId, ProductId, WorkflowId, AssetVersionIds, RetentionDeadline]

  function ContentNames(c: Content): seq<Name> {
    match c
    case Published(_, _) => [ProductBriefId, OperationId]
    case Analysing(_) => [PendingAnalysis]
    case Commanding(_, _, _, _) => [ProductBriefId, OperationId, PendingCommandName, CommandStatus]
  }

  function SchemaOf(c: Content): int {
    match c
    case Published(_, _) => 1
    case Analysing(_) => 2
    case Commanding(_, _, _, _) => 3
  }

  function StatusText(status: Status): Text {
    if status == Awaited then Ascii("pending") else Ascii("version-conflict")
  }

  function ContentValues(c: Content): (values: seq<Json>)
    ensures |values| == |ContentNames(c)|
  {
    match c
    case Published(briefId, operationId) => [Str(briefId), Str(operationId)]
    case Analysing(analysis) => [AnalysisJson(analysis)]
    case Commanding(briefId, operationId, command, status) =>
      [Str(briefId), Str(operationId), CommandJson(command), Str(StatusText(status))]
  }

  // The canonical JSON form: what is written to storage.
  function RecordJson(r: Record): Json {
    Object(BASE_NAMES + ContentNames(r.content),
           [Num(SchemaOf(r.content)), Str(r.workspaceId), Str(r.productId), Str(r.workflowId), TextsJson(r.assetVersionIds),
            Str(r.retentionDeadline)] + ContentValues(r.content))
  }

  // ------------------------------------------------------------- reading JSON

  predicate EndsWithZone(t: Text) {
    || (t != [] && t[|t| - 1] == 90)
    || (|t| >= 6
        && var z := t[|t| - 6..];
           z[0] in {43, 45} && z[3] == 58 && forall i <- {1, 2, 4, 5} :: BriefFields.Digit(z[i]))
  }

  // isActiveProductBriefRetentionDeadline.
  predicate IsActiveDeadline(env: BriefEnvironment, t: Text, now: int) {
    |t| <= 64 && EndsWithZone(t) && env.parseDate(t).Some? && env.parseDate(t).value > now
  }

  function TextValues(items: seq<Json>): seq<Text>
    requires forall item <- items :: item.Str?
  {
    seq(|items|, i requires 0 <= i < |items| => items[i].s)
  }

  // assetVersionIdsFor.
  function AssetIds(v: Option<Json>, minimum: nat): Option<seq<Text>> {
    if v.Some? && v.value.Arr? && minimum <= |v.value.items| <= 8
       && (forall item <- v.value.items :: item.Str? && 1 <= |item.s| <= 36)
       && (forall i, j :: 0 <= i < j < |v.value.items| ==> v.value.items[i] != v.value.items[j])
    then Some(TextValues(v.value.items))
    else None
  }

  function OptionalMember(v: Option<Json>, maximum: nat): Option<OptionalText> {
    if v.None? then Some(Missing)
    else if v.value.Null? then Some(NullText)
    else if BoundedText(v, 1, maximum).Some? then Some(Given(v.value.s))
    else None
  }

  function RevisionFields(env: BriefEnvironment, fields: seq<Json>): Option<seq<Json>> {
    if fields == [] then Some([])
    else
      match (env.revisionField(fields[0]), RevisionFields(env, fields[1..]))
      case (Some(first), Some(rest)) => Some([first] + rest)
      case _ => None
  }

  function PathOf(field: Json): Option<Json> { Get(field, BriefFields.PATH) }

  // Between 1 and 64 fields, each canonical, no path twice.
  function CanonicalFields(env: BriefEnvironment, v: Option<Json>): Option<seq<Json>> {
    if v.None? || !v.value.Arr? || !(1 <= |v.value.items| <= 64) then None
    else
      match RevisionFields(env, v.value.items)
      case None => None
      case Some(fields) =>
        if exists i, j :: 0 <= i < j < |fields| && PathOf(fields[i]) == PathOf(fields[j]) then None else Some(fields)
  }

  // revisionPayloadFor.
  function ParseRevision(env: BriefEnvironment, v: Json): Option<BriefPayload> {
    if !ExactFields(v, [ExpectedBriefVersion, BaseVersionId, Reason, Fields]) then None
    else
      match (VersionNumber(Field(v, ExpectedBriefVersion)), BoundedText(Field(v, BaseVersionId), 1, 36),
             BoundedText(Field(v, Reason), 3, 512), CanonicalFields(env, Field(v, Fields)))
      case (Some(version), Some(base), Some(reason), Some(fields)) => Some(Revise(version, base, reason, fields))
      case _ => None
  }

  predicate ConfirmationKey(key: Text) {
    key in {NameText(ExpectedBriefVersion), NameText(BriefVersionId), NameText(ExpectedWorkflowVersion),
            NameText(ReasonCode), NameText(CommentRef)}
  }

  // confirmationPayloadFor.
  function ParseConfirmation(v: Json): Option<BriefPayload> {
    if !v.Obj? || exists f <- v.fields :: !ConfirmationKey(f.key) then None
    else
      match (VersionNumber(Field(v, ExpectedBriefVersion)), BoundedText(Field(v, BriefVersionId), 1, 36),
             VersionNumber(Field(v, ExpectedWorkflowVersion)), OptionalMember(Field(v, ReasonCode), 128),
             OptionalMember(Field(v, CommentRef), 512))
      case (Some(version), Some(versionId), Some(workflowVersion), Some(reasonCode), Some(commentRef)) =>
        Some(Confirm(version, versionId, workflowVersion, reasonCode, commentRef))
      case _ => None
  }

  // pendingProductBriefCommandFor.
  function ParseCommand(env: BriefEnvironment, productId: Text, briefId: Text, v: Json): Option<BriefCommand> {
    if !ExactFields(v, COMMAND_NAMES)
       || Field(v, SchemaVersion) != Some(Num(1))
       || Field(v, Kind) !in {Some(Str(Ascii("revise"))), Some(Str(Ascii("confirm")))}
       || Field(v, ProductId) != Some(Str(productId)) || Field(v, ProductBriefId) != Some(Str(briefId))
       || !(1 <= |productId| <= 36) || !(1 <= |briefId| <= 36)
       || BoundedText(Field(v, IdempotencyKey), 8, 256).None?
    then None
    else
      var payload :=
        if Field(v, Kind) == Some(Str(Ascii("revise"))) then ParseRevision(env, Field(v, Payload).value)
        else ParseConfirmation(Field(v, Payload).value);
      if payload.None? then None
      else Some(BriefCommand(productId, briefId, Field(v, IdempotencyKey).value.s, payload.value))
  }

  function ParsePrior(v: Json): Option<Option<Prior>> {
    if v.Null? then Some(None)
    else if !ExactFields(v, PRIOR_NAMES) then None
    else
      match (BoundedText(Field(v, ProductBriefId), 1, 36), BoundedText(Field(v, OperationId), 1, 36))
      case (Some(briefId), Some(operationId)) => Some(Some(Prior(briefId, operationId)))
      case _ => None
  }

  // pendingAnalysisFor.
  function ParseAnalysis(productId: Text, workflowId: Text, assetVersionIds: seq<Text>, v: Json): Option<Analysis> {
    if !ExactFields(v, ANALYSIS_NAMES) || !ExactFields(Field(v, Payload).value, REQUEST_NAMES) then None
    else
      var request := Field(v, Payload).value;
      if BoundedText(Field(v, IdempotencyKey), 8, 256).None?
         || Field(request, PayloadProductId) != Some(Str(productId))
         || Field(request, PayloadWorkflowId) != Some(Str(workflowId))
         || !(1 <= |productId| <= 36) || !(1 <= |workflowId| <= 36)
         || VersionNumber(Field(request, ExpectedWorkflowVersion)).None?
      then None
      else
        var ids := AssetIds(Field(request, PayloadAssetVersionIds), 1);
        if ids.None? || Stringify(TextsJson(ids.value)) != Stringify(TextsJson(assetVersionIds)) then None
        else
          match ParsePrior(Field(v, PriorProductBrief).value)
          case None => None
          case Some(prior) =>
            Some(Analysis(workflowId, productId, ids.value, Field(request, ExpectedWorkflowVersion).value.n,
                          Field(v, IdempotencyKey).value.s, prior))
  }

  function ParseContent(
    env: BriefEnvironment, identity: BriefIdentity, workflowId: Text, assetVersionIds: seq<Text>, v: Json): Option<Content>
  {
    var briefId, operationId := BoundedText(Field(v, ProductBriefId), 1, 36), BoundedText(Field(v, OperationId), 1, 36);
    if Field(v, SchemaVersion) == Some(Num(1)) then
      if ExactFields(v, BASE_NAMES + [ProductBriefId, OperationId]) && briefId.Some? && operationId.Some? then
        Some(Published(briefId.value, operationId.value))
      else None
    else if Field(v, SchemaVersion) == Some(Num(2)) then
      if !ExactFields(v, BASE_NAMES + [PendingAnalysis]) || Field(v, PendingAnalysis).None? then None
      else
        match ParseAnalysis(identity.productId, workflowId, assetVersionIds, Field(v, PendingAnalysis).value)
        case None => None
        case Some(analysis) => Some(Analysing(analysis))
    else if Field(v, SchemaVersion) == Some(Num(3)) then
      var status := Field(v, CommandStatus);
      if !ExactFields(v, BASE_NAMES + [ProductBriefId, OperationId, PendingCommandName, CommandStatus])
         || briefId.None? || operationId.None?
         || Field(v, PendingCommandName).None?
         || (status != Some(Str(StatusText(Awaited))) && status != Some(Str(StatusText(VersionConflict))))
      then None
      else
        match ParseCommand(env, identity.productId, briefId.value, Field(v, PendingCommandName).value)
        case None => None
        case Some(command) =>
          if status == Some(Str(StatusText(Awaited))) then Some(Commanding(briefId.value, operationId.value, command, Awaited))
          else if command.payload.Revise? then Some(Commanding(briefId.value, operationId.value, command, VersionConflict))
          else None
    else None
  }

  // parsePersistedProductBrief.
  function ParseRecord(env: BriefEnvironment, identity: BriefIdentity, v: Json, now: int): Option<Record> {
    if Field(v, WorkspaceId) != Some(Str(identity.workspaceId)) || Field(v, ProductId) != Some(Str(identity.productId))
       || !Bounded(identity)
    then None
    else
      match (BoundedText(Field(v, WorkflowId), 1, 36), BoundedText(Field(v, RetentionDeadline), 0, 64),
             AssetIds(Field(v, AssetVersionIds), if Field(v, SchemaVersion) == Some(Num(2)) then 1 else 0))
      case (Some(workflowId), Some(deadline), Some(assetVersionIds)) =>
        if !IsActiveDeadline(env, deadline, now) then None
        else (
          match ParseContent(env, identity, workflowId, assetVersionIds, v)
          case None => None
          case Some(content) =>
            Some(Record(identity.workspaceId, identity.productId, workflowId, assetVersionIds, deadline, content)))
      case _ => None
  }
}
