/**
 Queue messages on the shared dispatch stream: how a family builds and writes one, and how
 a consumer parses and validates what it has claimed.
 */
module QueueMessages {
  import opened Wrappers
  import opened CommandModel
  import opened Json

  function Contract(f: Family): string {
    if f == OnDemandRead then "on_demand_read_queued_execution" else "profile_capture_queued_execution"
  }

  function WorkerPath(f: Family): string {
    if f == OnDemandRead then "commands.on_demand_read.queue_worker" else "commands.profile_capture.queue_worker"
  }

  function RoutingKey(f: Family): string {
    if f == OnDemandRead then "commands.on_demand_read.queued_execution"
    else "commands.profile_capture.queued_execution"
  }

  function CategoryName(f: Family): string {
    if f == OnDemandRead then "on_demand_read" else "profile_capture"
  }

  const CONTRACT_VERSION := "v1"
  const READ_BILLING_SNAPSHOT := "read_billing_snapshot"
  const BILLING := "billing"
  const CAPTURE_LOAD_PROFILE := "capture_load_profile"

  datatype Source = Source(
    commandId: string, meterId: string, endpointAssignmentId: string, profileId: string, correlationId: Option<string>)

  /** What the two families add to the common message. */
  datatype Linkage =
    | Snapshot(operation: string, snapshotType: string)
    | Capture(operation: string, intervalStart: string, intervalEnd: string, channelIds: seq<string>, channelCount: int)

  datatype Message = Message(
    contractFamily: string, contractVersion: string, enqueueId: string, category: string,
    linkage: Linkage, workerPath: string, source: Source)

  /** The part of a command a message is built from: its links and its validated payload. */
  datatype Payload =
    | SnapshotPayload(operation: string, snapshotType: string)
    | CapturePayload(operation: string, intervalStart: string, intervalEnd: string, channelIds: seq<string>)

  /** The payload checks that precede building a message. */
  predicate PayloadValid(f: Family, p: Payload) {
    match f
    case OnDemandRead => p.SnapshotPayload? && p.operation == READ_BILLING_SNAPSHOT && p.snapshotType == BILLING
    case ProfileCapture => p.CapturePayload? && p.operation == CAPTURE_LOAD_PROFILE && p.channelIds != []
  }

  function Build(f: Family, source: Source, p: Payload, enqueueId: string): Message {
    Message(Contract(f), CONTRACT_VERSION, enqueueId, CategoryName(f),
            match p
            case SnapshotPayload(operation, snapshotType) => Snapshot(operation, snapshotType)
            case CapturePayload(operation, start, end, ids) => Capture(operation, start, end, ids, |ids|),
            WorkerPath(f), source)
  }

  // ---- the JSON body ----

  function DumpOption(s: Option<string>): Value { if s.Some? then Text(s.value) else Null }

  function DumpSource(s: Source): Value {
    Object(map["command_id" := Text(s.commandId), "meter_id" := Text(s.meterId),
               "endpoint_assignment_id" := Text(s.endpointAssignmentId),
               "protocol_association_profile_id" := Text(s.profileId),
               "correlation_id" := DumpOption(s.correlationId)])
  }

  function Dump(m: Message): Value {
    var common := map["contract_family" := Text(m.contractFamily), "contract_version" := Text(m.contractVersion),
                      "enqueue_identifier" := Text(m.enqueueId), "command_category" := Text(m.category),
                      "intended_worker_path" := Text(m.workerPath), "source" := DumpSource(m.source)];
    match m.linkage
    case Snapshot(operation, snapshotType) =>
      Object(common["on_demand_read_operation" := Text(operation)]["snapshot_type" := Text(snapshotType)])
    case Capture(operation, start, end, ids, count) =>
      Object(common["profile_read_operation" := Text(operation)]
             ["interval_start" := Text(start)]["interval_end" := Text(end)]
                   ["channel_ids" := List(OfTexts(ids))]["channel_count" := Number(count)])
  }

  function LoadSource(v: Value): Option<Source> {
    var c, m, e, p := TextAt(v, "command_id"), TextAt(v, "meter_id"), TextAt(v, "endpoint_assignment_id"),
        TextAt(v, "protocol_association_profile_id");
    if c.Some? && m.Some? && e.Some? && p.Some? then
      Some(Source(c.value, m.value, e.value, p.value, TextAt(v, "correlation_id")))
    else None
  }

  function LoadLinkage(f: Family, v: Value): Option<Linkage> {
    match f
    case OnDemandRead =>
      var o, s := TextAt(v, "on_demand_read_operation"), TextAt(v, "snapshot_type");
      if o.Some? && s.Some? then Some(Snapshot(o.value, s.value)) else None
    case ProfileCapture =>
      var o, s, e := TextAt(v, "profile_read_operation"), TextAt(v, "interval_start"), TextAt(v, "interval_end");
      var ids, n := Member(v, "channel_ids"), NumberAt(v, "channel_count");
      if o.Some? && s.Some? && e.Some? && n.Some? && ids.Some? && ids.value.List? && Texts(ids.value.items).Some? then
        Some(Capture(o.value, s.value, e.value, Texts(ids.value.items).value, n.value))
      else None
  }

  /** The message a body validates to, if all its fields are there. */
  function Load(f: Family, v: Value): Option<Message> {
    var cf, cv, e := TextAt(v, "contract_family"), TextAt(v, "contract_version"), TextAt(v, "enqueue_identifier");
    var c, w, s := TextAt(v, "command_category"), TextAt(v, "intended_worker_path"), Member(v, "source");
    var l := LoadLinkage(f, v);
    if cf.Some? && cv.Some? && e.Some? && c.Some? && w.Some? && l.Some? && s.Some? && LoadSource(s.value).Some? then
      Some(Message(cf.value, cv.value, e.value, c.value, l.value, w.value, LoadSource(s.value).value))
    else None
  }

  // ---- stream fields ----

  /** The field names of a stream entry; the last four are added by a release. */
  datatype Field =
    | BackendName | MessageType | PayloadVersion | DispatchCategory | DispatchRequestIdentity | Routing
    | SourceIdentifiers | CorrelationLineage | DispatchMetadata | IntendedWorkerPath | Body
    | ReleasedFromMessageId | ReleasedByConsumer | ReleasedAt | ReleaseReason

  function DispatchIdentity(f: Family, m: Message): string {
    (if f == OnDemandRead then "on-demand-read-queue:" else "profile-capture-queue:")
    + m.source.commandId + ":" + m.enqueueId
  }

  function Fields(f: Family, codec: Codec, m: Message): map<Field, string> {
    map[BackendName := "redis",
        MessageType := Contract(f),
        PayloadVersion := CONTRACT_VERSION,
        DispatchCategory := Contract(f),
        DispatchRequestIdentity := DispatchIdentity(f, m),
        Routing := RoutingKey(f),
        SourceIdentifiers := codec.encode(Object(Identifiers(m))),
        CorrelationLineage := codec.encode(Object(Lineage(m))),
        DispatchMetadata := codec.encode(Object(Details(f, m))),
        IntendedWorkerPath := WorkerPath(f),
        Body := codec.encode(Dump(m))]
  }

  function Identifiers(m: Message): map<string, Value> {
    map["command_id" := Text(m.source.commandId), "meter_id" := Text(m.source.meterId),
        "endpoint_assignment_id" := Text(m.source.endpointAssignmentId),
        "protocol_association_profile_id" := Text(m.source.profileId)]
  }

  function Lineage(m: Message): map<string, Value> {
    map["command_correlation_id" := DumpOption(m.source.correlationId), "enqueue_identifier" := Text(m.enqueueId)]
  }

  function Details(f: Family, m: Message): map<string, Value> {
    var common := map["contract_family" := Text(Contract(f)), "contract_version" := Text(CONTRACT_VERSION),
                      "command_category" := Text(CategoryName(f))];
    match m.linkage
    case Snapshot(operation, snapshotType) =>
      common["on_demand_read_operation" := Text(operation)]["snapshot_type" := Text(snapshotType)]
    case Capture(operation, _, _, _, count) =>
      common["profile_read_operation" := Text(operation)]["channel_count" := Number(count)]
  }

  /** The four fields a release adds to the copy it requeues. */
  const RELEASE_FIELDS: set<Field> := {ReleasedFromMessageId, ReleasedByConsumer, ReleasedAt, ReleaseReason}

  datatype ClaimedMessage = ClaimedMessage(
    dispatchIdentity: string, dispatchCategory: string, payloadVersion: string, workerPath: string,
    sourceIdentifiers: map<string, Value>, correlationLineage: map<string, Value>,
    dispatchMetadata: map<string, Value>, body: map<string, Value>)

  function FieldOr(fields: map<Field, string>, key: Field): string {
    if key in fields then fields[key] else ""
  }

  datatype Parsed<T> = ParseFailure | Parsed(value: T)

  /** An absent or empty field reads as an empty dictionary, and so does a JSON value that
      is no dictionary; text that is no JSON fails. */
  function ParseDict(codec: Codec, raw: string): Parsed<map<string, Value>> {
    if raw == "" then Parsed(map[])
    else
      match codec.decode(raw)
      case None => ParseFailure
      case Some(v) => Parsed(if v.Object? then v.fields else map[])
  }

  function Parse(codec: Codec, fields: map<Field, string>): Parsed<ClaimedMessage> {
    var s, c := ParseDict(codec, FieldOr(fields, SourceIdentifiers)),
        ParseDict(codec, FieldOr(fields, CorrelationLineage));
    var d, b := ParseDict(codec, FieldOr(fields, DispatchMetadata)), ParseDict(codec, FieldOr(fields, Body));
    if s.ParseFailure? || c.ParseFailure? || d.ParseFailure? || b.ParseFailure? then ParseFailure
    else Parsed(ClaimedMessage(
      FieldOr(fields, DispatchRequestIdentity), FieldOr(fields, DispatchCategory), FieldOr(fields, PayloadVersion),
      FieldOr(fields, IntendedWorkerPath), s.value, c.value, d.value, b.value))
  }

  /** A consumer's validation of what it has claimed. */
  function Validate(f: Family, claimed: ClaimedMessage): Option<Message> {
    if claimed.dispatchCategory != Contract(f) then None
    else if claimed.workerPath != WorkerPath(f) then None
    else
      match Load(f, Object(claimed.body))
      case None => None
      case Some(m) =>
        if m.contractFamily != Contract(f) || m.contractVersion != CONTRACT_VERSION
            || m.category != CategoryName(f) then None
        else match m.linkage
          case Snapshot(operation, snapshotType) =>
            if operation != READ_BILLING_SNAPSHOT || snapshotType != BILLING then None else Some(m)
          case Capture(operation, _, _, ids, count) =>
            if operation != CAPTURE_LOAD_PROFILE || count <= 0 || ids == [] then None else Some(m)
  }

  // ---- round trip and separation ----

  lemma LoadDumpSource(s: Source)
    ensures LoadSource(DumpSource(s)) == Some(s)
  {
  }

  lemma LoadDumpLinkage(f: Family, m: Message)
    requires m.linkage.Snapshot? <==> f == OnDemandRead
    ensures LoadLinkage(f, Dump(m)) == Some(m.linkage)
  {
    if f == ProfileCapture { TextsOfTexts(m.linkage.channelIds); }
  }

  lemma LoadDump(f: Family, m: Message)
    requires m.linkage.Snapshot? <==> f == OnDemandRead
    ensures Load(f, Dump(m)) == Some(m)
  {
    hide LoadSource, LoadLinkage, DumpSource, OfTexts;
    LoadDumpSource(m.source);
    LoadDumpLinkage(f, m);
  }

  lemma DictRoundTrip(codec: Codec, fields: map<string, Value>)
    requires Lossless(codec)
    ensures ParseDict(codec, codec.encode(Object(fields))) == Parsed(fields)
  {
  }

  lemma DumpIsObject(m: Message)
    ensures Dump(m).Object? && Object(Dump(m).fields) == Dump(m)
  {
  }

  /** A release adds fields but changes none. */
  lemma ReleaseKeepsField(fields: map<Field, string>, extra: map<Field, string>, k: Field)
    requires extra.Keys <= RELEASE_FIELDS && k !in RELEASE_FIELDS
    ensures FieldOr(fields + extra, k) == FieldOr(fields, k)
  {
  }

  lemma FieldValues(f: Family, codec: Codec, m: Message)
    ensures var fields := Fields(f, codec, m);
            && FieldOr(fields, SourceIdentifiers) == codec.encode(Object(Identifiers(m)))
            && FieldOr(fields, CorrelationLineage) == codec.encode(Object(Lineage(m)))
            && FieldOr(fields, DispatchMetadata) == codec.encode(Object(Details(f, m)))
            && FieldOr(fields, Body) == codec.encode(Dump(m))
            && FieldOr(fields, DispatchCategory) == Contract(f) && FieldOr(fields, IntendedWorkerPath) == WorkerPath(f)
            && FieldOr(fields, DispatchRequestIdentity) == DispatchIdentity(f, m)
  {
    hide Identifiers, Lineage, Details, Dump, DispatchIdentity;
  }

  /** What a release adds is not parsed. */
  lemma ParseIgnoresRelease(codec: Codec, fields: map<Field, string>, extra: map<Field, string>)
    requires extra.Keys <= RELEASE_FIELDS
    ensures Parse(codec, fields + extra) == Parse(codec, fields)
  {
    hide ParseDict, FieldOr;
    forall k | k !in RELEASE_FIELDS ensures FieldOr(fields + extra, k) == FieldOr(fields, k) {
      ReleaseKeepsField(fields, extra, k);
    }
  }

  /** Everything a consumer finds in a message's fields, whatever a release added. */
  lemma ParsedExactly(f: Family, codec: Codec, m: Message, extra: map<Field, string>)
    requires Lossless(codec) && extra.Keys <= RELEASE_FIELDS
    ensures var parsed, fields := Parse(codec, Fields(f, codec, m) + extra), Fields(f, codec, m);
            && parsed.Parsed?
            && parsed.value.dispatchIdentity == FieldOr(fields, DispatchRequestIdentity)
            && parsed.value.dispatchCategory == FieldOr(fields, DispatchCategory)
            && parsed.value.payloadVersion == FieldOr(fields, PayloadVersion)
            && parsed.value.workerPath == FieldOr(fields, IntendedWorkerPath)
            && parsed.value.sourceIdentifiers == Identifiers(m) && parsed.value.correlationLineage == Lineage(m)
            && parsed.value.dispatchMetadata == Details(f, m) && Object(parsed.value.body) == Dump(m)
  {
    hide Lossless, ParseDict, Dump, Details, Fields, FieldOr, Identifiers, Lineage;
    ParseIgnoresRelease(codec, Fields(f, codec, m), extra);
    DumpIsObject(m);
    DictRoundTrip(codec, Dump(m).fields);
    DictRoundTrip(codec, Details(f, m));
    DictRoundTrip(codec, Identifiers(m));
    DictRoundTrip(codec, Lineage(m));
    FieldValues(f, codec, m);
  }

  lemma BodyRoundTrip(f: Family, codec: Codec, m: Message, extra: map<Field, string>)
    requires Lossless(codec) && extra.Keys <= RELEASE_FIELDS
    ensures var p := Parse(codec, Fields(f, codec, m) + extra);
            p.Parsed? && Object(p.value.body) == Dump(m)
            && p.value.dispatchCategory == Contract(f) && p.value.workerPath == WorkerPath(f)
            && p.value.dispatchIdentity == DispatchIdentity(f, m)
  {
    hide Lossless, Parse, Dump, Fields, FieldOr, DispatchIdentity;
    ParsedExactly(f, codec, m, extra);
    FieldValues(f, codec, m);
  }

  /** A message built from a valid command, written as stream fields, possibly copied by
      releases, parsed and validated by its own family's consumer comes back unchanged. */
  lemma RoundTrip(f: Family, codec: Codec, source: Source, p: Payload, enqueueId: string, extra: map<Field, string>)
    requires Lossless(codec) && PayloadValid(f, p) && extra.Keys <= RELEASE_FIELDS
    ensures var m := Build(f, source, p, enqueueId);
            var parsed := Parse(codec, Fields(f, codec, m) + extra);
            parsed.Parsed? && Validate(f, parsed.value) == Some(m)
  {
    var m := Build(f, source, p, enqueueId);
    BodyRoundTrip(f, codec, m, extra);
    LoadDump(f, m);
  }

  /** No claimed message passes both consumers, so each rejects what the other family wrote. */
  lemma FamiliesSeparate(f: Family, g: Family, claimed: ClaimedMessage)
    requires f != g && Validate(f, claimed).Some?
    ensures Validate(g, claimed).None?
  {
    var q, e := Contract(OnDemandRead), Contract(ProfileCapture);
    assert q[0] != e[0];
  }

  /** A validated message is the claimed body read as a message of the consumer's own contract,
      category and bounded operation. */
  lemma AcceptedIsOwn(f: Family, claimed: ClaimedMessage)
    requires Validate(f, claimed).Some?
    ensures var m := Validate(f, claimed).value;
            && Load(f, Object(claimed.body)) == Some(m)
            && m.contractFamily == Contract(f) && m.contractVersion == CONTRACT_VERSION && m.category == CategoryName(f)
            && (f == OnDemandRead ==> m.linkage == Snapshot(READ_BILLING_SNAPSHOT, BILLING))
            && (f == ProfileCapture ==> m.linkage.Capture? && m.linkage.operation == CAPTURE_LOAD_PROFILE
                                        && m.linkage.channelIds != [] && m.linkage.channelCount > 0)
  {
  }

  /** The channel count of an accepted capture message is only compared with zero: put any
      other number into the body and the same message with that count is accepted, if and only
      if the number is positive. */
  lemma CountIsOnlySignChecked(claimed: ClaimedMessage, n: int)
    requires Validate(ProfileCapture, claimed).Some?
    ensures var m := Validate(ProfileCapture, claimed).value;
            m.linkage.Capture?
            && Validate(ProfileCapture, claimed.(body := claimed.body["channel_count" := Number(n)]))
               == if n > 0 then Some(m.(linkage := m.linkage.(channelCount := n))) else None
  {
    hide Texts, LoadSource;
  }

  /** An accepted message's count agrees with its channel list exactly when its producer wrote
      the length of the list. */
  lemma CountAgreesExactly(claimed: ClaimedMessage)
    requires Validate(ProfileCapture, claimed).Some?
    ensures var m := Validate(ProfileCapture, claimed).value;
            && m.linkage.Capture?
            && Member(Object(claimed.body), "channel_ids").Some?
            && Member(Object(claimed.body), "channel_ids").value.List?
            && (m.linkage.channelCount == |m.linkage.channelIds| <==>
                  NumberAt(Object(claimed.body), "channel_count")
                  == Some(|Member(Object(claimed.body), "channel_ids").value.items|))
  {
    TextsLength(Member(Object(claimed.body), "channel_ids").value.items);
  }

  /** Every message built here agrees, and so does what its consumer reads back. */
  lemma BuiltCountAgrees(codec: Codec, source: Source, p: Payload, enqueueId: string, extra: map<Field, string>)
    requires Lossless(codec) && PayloadValid(ProfileCapture, p) && extra.Keys <= RELEASE_FIELDS
    ensures var parsed :=
            Parse(codec, Fields(ProfileCapture, codec, Build(ProfileCapture, source, p, enqueueId)) + extra);
            && parsed.Parsed? && Validate(ProfileCapture, parsed.value).Some?
            && var m := Validate(ProfileCapture, parsed.value).value;
            && m.linkage.Capture? && m.linkage.channelIds == p.channelIds
            && m.linkage.channelCount == |m.linkage.channelIds|
  {
    hide Fields, Parse, Validate, Lossless;
    RoundTrip(ProfileCapture, codec, source, p, enqueueId, extra);
  }

  /** So a foreign producer's message may disagree: from any accepted one. */
  lemma CountMayDisagree(claimed: ClaimedMessage) returns (other: ClaimedMessage)
    requires Validate(ProfileCapture, claimed).Some?
    ensures Validate(ProfileCapture, other).Some?
    ensures var m := Validate(ProfileCapture, other).value;
            m.linkage.Capture? && m.linkage.channelCount != |m.linkage.channelIds|
  {
    var n := |Validate(ProfileCapture, claimed).value.linkage.channelIds| + 1;
    CountIsOnlySignChecked(claimed, n);
    other := claimed.(body := claimed.body["channel_count" := Number(n)]);
  }

  // ---- what is on the wire ----

  lemma DumpExactly(m: Message)
    ensures var body := Dump(m);
            && Member(body, "contract_family") == Some(Text(m.contractFamily))
            && Member(body, "contract_version") == Some(Text(m.contractVersion))
            && Member(body, "enqueue_identifier") == Some(Text(m.enqueueId))
            && Member(body, "command_category") == Some(Text(m.category))
            && Member(body, "intended_worker_path") == Some(Text(m.workerPath))
            && Member(body, "source") == Some(DumpSource(m.source))
  {
    hide OfTexts, DumpSource;
  }

  /** The common part of a message's body, key by key. */
  lemma BodyExactly(f: Family, source: Source, p: Payload, enqueueId: string)
    ensures var body := Dump(Build(f, source, p, enqueueId));
            && Member(body, "contract_family") == Some(Text(
                 if f == OnDemandRead then "on_demand_read_queued_execution" else "profile_capture_queued_execution"))
            && Member(body, "contract_version") == Some(Text("v1"))
            && Member(body, "enqueue_identifier") == Some(Text(enqueueId))
            && Member(body, "command_category") == Some(Text(
                 if f == OnDemandRead then "on_demand_read" else "profile_capture"))
            && Member(body, "intended_worker_path") == Some(Text(
                 if f == OnDemandRead then "commands.on_demand_read.queue_worker"
                 else "commands.profile_capture.queue_worker"))
            && Member(body, "source") == Some(DumpSource(source))
  {
    hide Dump, DumpSource;
    DumpExactly(Build(f, source, p, enqueueId));
  }

  lemma SourceExactly(s: Source)
    ensures DumpSource(s) == Object(map[
              "command_id" := Text(s.commandId), "meter_id" := Text(s.meterId),
              "endpoint_assignment_id" := Text(s.endpointAssignmentId),
              "protocol_association_profile_id" := Text(s.profileId),
              "correlation_id" := if s.correlationId.Some? then Text(s.correlationId.value) else Null])
  {
  }

  lemma LinkageExactly(f: Family, source: Source, p: Payload, enqueueId: string)
    ensures var body := Dump(Build(f, source, p, enqueueId));
            match p
            case SnapshotPayload(operation, snapshotType) =>
              && Member(body, "on_demand_read_operation") == Some(Text(operation))
              && Member(body, "snapshot_type") == Some(Text(snapshotType))
            case CapturePayload(operation, start, end, ids) =>
              && Member(body, "profile_read_operation") == Some(Text(operation))
              && Member(body, "interval_start") == Some(Text(start)) && Member(body, "interval_end") == Some(Text(end))
              && Member(body, "channel_ids") == Some(List(OfTexts(ids)))
              && Member(body, "channel_count") == Some(Number(|ids|))
  {
    hide OfTexts, DumpSource;
  }

  /** The stream fields of a message. */
  lemma FieldsExactly(f: Family, codec: Codec, m: Message)
    ensures var fields := Fields(f, codec, m);
            var contract :=
              if f == OnDemandRead then "on_demand_read_queued_execution" else "profile_capture_queued_execution";
            && FieldOr(fields, BackendName) == "redis"
            && FieldOr(fields, MessageType) == contract && FieldOr(fields, DispatchCategory) == contract
            && FieldOr(fields, PayloadVersion) == "v1"
            && FieldOr(fields, Routing) == (if f == OnDemandRead then "commands.on_demand_read.queued_execution"
                                            else "commands.profile_capture.queued_execution")
            && FieldOr(fields, DispatchRequestIdentity)
               == (if f == OnDemandRead then "on-demand-read-queue:" else "profile-capture-queue:")
                  + m.source.commandId + ":" + m.enqueueId
  {
    hide Identifiers, Lineage, Details, Dump, DispatchIdentity;
    IdentityExactly(f, m);
  }

  lemma IdentityExactly(f: Family, m: Message)
    ensures DispatchIdentity(f, m) == (if f == OnDemandRead then "on-demand-read-queue:" else "profile-capture-queue:")
                                      + m.source.commandId + ":" + m.enqueueId
  {
  }

  lemma DictionariesExactly(f: Family, m: Message)
    ensures Identifiers(m) == map[
              "command_id" := Text(m.source.commandId), "meter_id" := Text(m.source.meterId),
              "endpoint_assignment_id" := Text(m.source.endpointAssignmentId),
              "protocol_association_profile_id" := Text(m.source.profileId)]
    ensures Lineage(m) == map[
              "command_correlation_id" :=
                if m.source.correlationId.Some? then Text(m.source.correlationId.value) else Null,
              "enqueue_identifier" := Text(m.enqueueId)]
    ensures var details := Object(Details(f, m));
            && Member(details, "contract_family") == Some(Text(
                 if f == OnDemandRead then "on_demand_read_queued_execution" else "profile_capture_queued_execution"))
            && Member(details, "contract_version") == Some(Text("v1"))
            && Member(details, "command_category") == Some(Text(
                 if f == OnDemandRead then "on_demand_read" else "profile_capture"))
            && match m.linkage
               case Snapshot(operation, snapshotType) =>
                 && Member(details, "on_demand_read_operation") == Some(Text(operation))
                 && Member(details, "snapshot_type") == Some(Text(snapshotType))
               case Capture(operation, _, _, _, count) =>
                 && Member(details, "profile_read_operation") == Some(Text(operation))
                 && Member(details, "channel_count") == Some(Number(count))
  {
  }

  /** Parsing fails exactly when one of the four dictionaries is text that is no JSON. */
  lemma ParseFailsExactly(codec: Codec, fields: map<Field, string>)
    ensures Parse(codec, fields).ParseFailure?
            <==> exists k :: k in {SourceIdentifiers, CorrelationLineage, DispatchMetadata, Body}
                             && k in fields && fields[k] != "" && codec.decode(fields[k]).None?
  {
    forall k: Field
      ensures ParseDict(codec, FieldOr(fields, k)).ParseFailure?
              <==> k in fields && fields[k] != "" && codec.decode(fields[k]).None? {
    }
    hide FieldOr, ParseDict;
    var four := {SourceIdentifiers, CorrelationLineage, DispatchMetadata, Body};
    assert SourceIdentifiers in four && CorrelationLineage in four && DispatchMetadata in four && Body in four;
  }

  // ---- what is accepted ----

  ghost predicate SaysText(claimed: ClaimedMessage, key: string, text: string) {
    key in claimed.body && claimed.body[key] == Text(text)
  }

  ghost predicate HasText(v: map<string, Value>, key: string) {
    key in v && v[key].Text?
  }

  ghost predicate HasSource(claimed: ClaimedMessage) {
    && "source" in claimed.body && claimed.body["source"].Object?
    && var source := claimed.body["source"].fields;
    && HasText(source, "command_id") && HasText(source, "meter_id")
    && HasText(source, "endpoint_assignment_id") && HasText(source, "protocol_association_profile_id")
  }

  lemma {:induction false} TextsAreTexts(items: seq<Value>)
    ensures Texts(items).Some? <==> forall i :: 0 <= i < |items| ==> items[i].Text?
  {
    if items != [] {
      TextsAreTexts(items[1..]);
      assert forall i :: 0 < i < |items| ==> items[i] == items[1..][i - 1];
    }
  }

  /** What a consumer of on-demand reads accepts, and nothing else. */
  lemma ReadAcceptedExactly(claimed: ClaimedMessage)
    ensures Validate(OnDemandRead, claimed).Some? <==>
              && claimed.dispatchCategory == "on_demand_read_queued_execution"
              && claimed.workerPath == "commands.on_demand_read.queue_worker"
              && SaysText(claimed, "contract_family", "on_demand_read_queued_execution")
              && SaysText(claimed, "contract_version", "v1")
              && SaysText(claimed, "command_category", "on_demand_read")
              && SaysText(claimed, "on_demand_read_operation", "read_billing_snapshot")
              && SaysText(claimed, "snapshot_type", "billing")
              && HasText(claimed.body, "enqueue_identifier") && HasText(claimed.body, "intended_worker_path")
              && HasSource(claimed)
  {
    hide Texts;
  }

  /** What a consumer of profile captures accepts, and nothing else. */
  lemma CaptureAcceptedExactly(claimed: ClaimedMessage)
    ensures Validate(ProfileCapture, claimed).Some? <==>
              && claimed.dispatchCategory == "profile_capture_queued_execution"
              && claimed.workerPath == "commands.profile_capture.queue_worker"
              && SaysText(claimed, "contract_family", "profile_capture_queued_execution")
              && SaysText(claimed, "contract_version", "v1")
              && SaysText(claimed, "command_category", "profile_capture")
              && SaysText(claimed, "profile_read_operation", "capture_load_profile")
              && HasText(claimed.body, "interval_start") && HasText(claimed.body, "interval_end")
              && "channel_ids" in claimed.body && claimed.body["channel_ids"].List?
              && claimed.body["channel_ids"].items != []
              && (forall i ::
                    0 <= i < |claimed.body["channel_ids"].items| ==> claimed.body["channel_ids"].items[i].Text?)
              && "channel_count" in claimed.body && claimed.body["channel_count"].Number?
              && claimed.body["channel_count"].number > 0
              && HasText(claimed.body, "enqueue_identifier") && HasText(claimed.body, "intended_worker_path")
              && HasSource(claimed)
  {
    if "channel_ids" in claimed.body && claimed.body["channel_ids"].List? {
      TextsAreTexts(claimed.body["channel_ids"].items);
      TextsLength(claimed.body["channel_ids"].items);
    }
    hide Texts;
  }

  /** A producer's payload check accepts exactly what the consumer of its family will accept, and
      the consumer then reads what the producer was given. */
  lemma AcceptedIffValid(f: Family, codec: Codec, source: Source, p: Payload, enqueueId: string,
      extra: map<Field, string>)
    requires Lossless(codec) && extra.Keys <= RELEASE_FIELDS
    ensures var parsed := Parse(codec, Fields(f, codec, Build(f, source, p, enqueueId)) + extra);
            && parsed.Parsed?
            && (Validate(f, parsed.value).Some? <==> PayloadValid(f, p))
            && (PayloadValid(f, p) ==>
                  var m := Validate(f, parsed.value).value;
                  && m.source == source && m.enqueueId == enqueueId
                  && (f == OnDemandRead ==>
                        m.linkage == Snapshot(operation := p.operation, snapshotType := p.snapshotType))
                  && (f == ProfileCapture ==>
                        m.linkage == Capture(operation := p.operation, intervalStart := p.intervalStart,
                                             intervalEnd := p.intervalEnd, channelIds := p.channelIds,
                                             channelCount := |p.channelIds|)))
  {
    hide Fields, Parse, Lossless;
    var m := Build(f, source, p, enqueueId);
    BodyRoundTrip(f, codec, m, extra);
    if PayloadValid(f, p) {
      RoundTrip(f, codec, source, p, enqueueId, extra);
    } else {
      InvalidIsRefused(f, source, p, enqueueId);
    }
  }

  lemma InvalidIsRefused(f: Family, source: Source, p: Payload, enqueueId: string)
    requires !PayloadValid(f, p)
    ensures forall claimed: ClaimedMessage :: Object(claimed.body) == Dump(Build(f, source, p, enqueueId)) ==>
              Validate(f, claimed).None?
  {
    var m := Build(f, source, p, enqueueId);
    if m.linkage.Snapshot? <==> f == OnDemandRead { LoadDump(f, m); } else { OtherLinkageIsRefused(f, m); }
    hide Dump, Load;
  }

  lemma OtherLinkageIsRefused(f: Family, m: Message)
    requires !(m.linkage.Snapshot? <==> f == OnDemandRead)
    ensures Load(f, Dump(m)).None?
  {
    hide LoadSource, OfTexts, Texts, DumpSource;
  }
}
