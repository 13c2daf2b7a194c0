/**
 What survives the encoding, member by member and with the spellings of the kinds written out; what
 decoding makes of members that are absent; and that it invents nothing.
 */
module WireValues {
  import opened Wrappers
  import opened Protocol
  import opened RoundTrip

  // ---------------------------------------------------------------------------------------
  // What comes back is what was sent

  function ItemsOf<T>(l: Option<seq<T>>): seq<T> { if l.Some? then l.value else [] }

  function MembersOf(m: Metadata): Fields { if m.Some? then m.value else map[] }

  predicate SameMetadata(a: Metadata, b: Metadata) { MembersOf(a) == MembersOf(b) }

  predicate SameList<T(==)>(a: Option<seq<T>>, b: Option<seq<T>>) { ItemsOf(a) == ItemsOf(b) }

  predicate SamePart(p: Part, q: Part) {
    && p.kind == q.kind && SameMetadata(p.metadata, q.metadata)
    && match p
       case TextPart(_, text, _) => q.TextPart? && q.text == text
       case FilePart(_, file, _) => q.FilePart? && q.file == file
       case DataPart(_, data, _) => q.DataPart? && q.data == data
  }

  predicate SameParts(ps: seq<Part>, qs: seq<Part>) {
    |ps| == |qs| && forall i :: 0 <= i < |ps| ==> SamePart(ps[i], qs[i])
  }

  predicate SameMessage(m: Message, n: Message) {
    && m.contextID == n.contextID && m.kind == n.kind && m.messageID == n.messageID && m.role == n.role
    && m.taskID == n.taskID && SameList(m.extensions, n.extensions) && SameMetadata(m.metadata, n.metadata)
    && SameList(m.referenceTaskIDs, n.referenceTaskIDs) && SameParts(ItemsOf(m.parts), ItemsOf(n.parts))
  }

  predicate SameArtifact(a: Artifact, b: Artifact) {
    && a.artifactID == b.artifactID && a.name == b.name && a.description == b.description
    && SameParts(ItemsOf(a.parts), ItemsOf(b.parts)) && SameMetadata(a.metadata, b.metadata)
    && SameList(a.extensions, b.extensions)
  }

  predicate SameStatus(s: TaskStatus, t: TaskStatus) {
    && s.state == t.state && s.timestamp == t.timestamp && s.message.Some? == t.message.Some?
    && (s.message.Some? ==> SameMessage(s.message.value, t.message.value))
  }

  predicate SameMessages(ms: seq<Message>, ns: seq<Message>) {
    |ms| == |ns| && forall i :: 0 <= i < |ms| ==> SameMessage(ms[i], ns[i])
  }

  predicate SameArtifacts(xs: seq<Artifact>, ys: seq<Artifact>) {
    |xs| == |ys| && forall i :: 0 <= i < |xs| ==> SameArtifact(xs[i], ys[i])
  }

  /** The same, up to the difference between an empty collection and an absent one. */
  predicate SameEvent(e: Event, f: Event) {
    match e
    case MessageEvent(m) => f.MessageEvent? && SameMessage(m, f.message)
    case TaskEvent(t) =>
      && f.TaskEvent? && t.contextID == f.task.contextID && t.id == f.task.id && t.kind == f.task.kind
      && SameMetadata(t.metadata, f.task.metadata) && SameStatus(t.status, f.task.status)
      && SameMessages(ItemsOf(t.history), ItemsOf(f.task.history))
      && SameArtifacts(ItemsOf(t.artifacts), ItemsOf(f.task.artifacts))
    case StatusEvent(s) =>
      && f.StatusEvent? && s.contextID == f.status.contextID && s.final == f.status.final && s.kind == f.status.kind
      && s.taskID == f.status.taskID && SameMetadata(s.metadata, f.status.metadata)
      && SameStatus(s.status, f.status.status)
    case ArtifactEvent(a) =>
      && f.ArtifactEvent? && a.append == f.artifact.append && a.lastChunk == f.artifact.lastChunk
      && a.contextID == f.artifact.contextID && a.kind == f.artifact.kind && a.taskID == f.artifact.taskID
      && SameMetadata(a.metadata, f.artifact.metadata) && SameArtifact(a.artifact, f.artifact.artifact)
  }

  lemma PartsKeep(ps: Option<seq<Part>>)
    ensures SameParts(ItemsOf(ps), NormParts(PartsOf(ps)))
  {
    forall i | 0 <= i < |ItemsOf(ps)| ensures SamePart(ItemsOf(ps)[i], NormParts(PartsOf(ps))[i]) {
      assert NormParts(PartsOf(ps))[i] == NormPart(ItemsOf(ps)[i]);
    }
  }

  lemma MessageKeeps(m: Message)
    ensures SameMessage(m, NormMessage(m))
  {
    PartsKeep(m.parts);
  }

  lemma ArtifactKeeps(a: Artifact)
    ensures SameArtifact(a, NormArtifact(a))
  {
    PartsKeep(a.parts);
  }

  lemma StatusKeeps(s: TaskStatus)
    ensures SameStatus(s, NormStatus(s))
  {
    if s.message.Some? {
      MessageKeeps(s.message.value);
    }
  }

  lemma MessagesKeep(ms: seq<Message>)
    ensures SameMessages(ms, NormMessages(ms))
  {
    forall i | 0 <= i < |ms| ensures SameMessage(ms[i], NormMessages(ms)[i]) {
      MessageKeeps(ms[i]);
    }
  }

  lemma ArtifactsKeep(xs: seq<Artifact>)
    ensures SameArtifacts(xs, NormArtifacts(xs))
  {
    forall i | 0 <= i < |xs| ensures SameArtifact(xs[i], NormArtifacts(xs)[i]) {
      ArtifactKeeps(xs[i]);
    }
  }

  lemma NormalFormsKeep(e: Event)
    ensures SameEvent(e, NormEvent(e))
  {
    match e
    case MessageEvent(m) => MessageKeeps(m);
    case TaskEvent(t) =>
      StatusKeeps(t.status);
      MessagesKeep(ItemsOf(t.history));
      ArtifactsKeep(ItemsOf(t.artifacts));
    case StatusEvent(s) => StatusKeeps(s.status);
    case ArtifactEvent(a) => ArtifactKeeps(a.artifact);
  }

  /** What kinds a sender has to give, for whatever it sends to survive. */
  lemma KindsOnTheWire(e: Event)
    ensures GoodEvent(e) <==> match e
      case MessageEvent(m) => m.kind == "message" && KindsOfParts(ItemsOf(m.parts))
      case TaskEvent(t) => t.kind == "task" && GoodTask(t)
      case StatusEvent(s) =>
        s.kind == "status-update" && (s.status.message.Some? ==> KindsOfParts(ItemsOf(s.status.message.value.parts)))
      case ArtifactEvent(a) => a.kind == "artifact-update" && KindsOfParts(ItemsOf(a.artifact.parts))
  {
    match e
    case MessageEvent(m) => PartKinds(m.parts);
    case TaskEvent(t) =>
    case StatusEvent(s) =>
      if s.status.message.Some? {
        PartKinds(s.status.message.value.parts);
      }
    case ArtifactEvent(a) => PartKinds(a.artifact.parts);
  }

  predicate KindsOfParts(ps: seq<Part>) { forall i :: 0 <= i < |ps| ==> KindOfPart(ps[i]) }

  predicate KindOfPart(p: Part) {
    match p
    case TextPart(kind, _, _) => kind == "text"
    case FilePart(kind, file, _) => kind == "file" && file.Some?
    case DataPart(kind, _, _) => kind == "data"
  }

  lemma PartKinds(ps: Option<seq<Part>>)
    ensures GoodParts(PartsOf(ps)) <==> KindsOfParts(ItemsOf(ps))
  {
    assert forall i :: 0 <= i < |ItemsOf(ps)| ==> (GoodPart(PartsOf(ps)[i]) <==> KindOfPart(ItemsOf(ps)[i]));
  }

  /** Whatever has its kinds comes back as it was sent, bare or wrapped, its members in any order. */
  lemma SentIsReceived(e: Event, order: seq<Name>)
    requires GoodEvent(e)
    ensures var bare, wrapped := DecodeEvent(EncodeEvent(e), order),
                                 DecodeEvent(Object(map[ResultName := EncodeEvent(e)]), order);
      bare.Success? && wrapped == bare && SameEvent(e, bare.value)
  {
    EventRoundTrip(e, order);
    NormalFormsKeep(e);
  }

  // ---------------------------------------------------------------------------------------
  // What is not there

  function OnlyKind(kind: string): JSON { Object(map[KindName := String(kind)]) }

  /** Absent members are the zero values of their types; in particular an update without a final
      member is not final. */
  lemma AbsentIsZero(order: seq<Name>)
    ensures DecodeEvent(OnlyKind("status-update"), order)
         == Success(StatusEvent(TaskStatusUpdateEvent("", false, "status-update", None, TaskStatus("", None, ""), "")))
    ensures DecodeEvent(OnlyKind("artifact-update"), order)
         == Success(ArtifactEvent(TaskArtifactUpdateEvent(
              None, Artifact("", None, None, None, None, None), "", "artifact-update", None, None, "")))
  {
    KindsDiffer();
  }

  lemma AbsentIsEmpty(order: seq<Name>)
    ensures DecodeEvent(OnlyKind("task"), order)
         == Success(TaskEvent(Task(None, "", None, "", "task", None, TaskStatus("", None, ""))))
    ensures DecodeEvent(OnlyKind("message"), order)
         == Success(MessageEvent(Message(None, None, "message", "", None, Some([]), None, "", None)))
  {
    KindsDiffer();
  }

  lemma AbsentInParts()
    ensures DecodePart(OnlyKind("text")) == Success(TextPart("text", "", None))
    ensures DecodePart(OnlyKind("data")) == Success(DataPart("data", Null, None))
    ensures DecodePart(OnlyKind("file")).Failure?
  {
    KindsDiffer();
  }

  /** Without a kind, or with an unknown one, nothing decodes. */
  lemma UnknownKindsFail(kind: string, order: seq<Name>)
    requires kind !in {"message", "task", "status-update", "artifact-update"}
    ensures DecodeEvent(OnlyKind(kind), order) == Failure(UnsupportedKind(kind))
    ensures DecodeEvent(Object(map[]), order) == Failure(UnsupportedKind(""))
    ensures kind !in {"text", "file", "data"} ==> DecodePart(OnlyKind(kind)) == Failure(UnsupportedKind(kind))
  {
    assert "" != "message" && "" != "task" && "" != "status-update" && "" != "artifact-update";
  }

  // ---------------------------------------------------------------------------------------
  // Nothing is invented

  predicate IsString(j: JSON, s: string) { j == String(s) || (j == Null && s == "") }

  predicate IsOptString(j: JSON, s: Option<string>) { j == if s.Some? then String(s.value) else Null }

  predicate IsOptBool(j: JSON, b: Option<bool>) { j == if b.Some? then Bool(b.value) else Null }

  predicate IsMetadata(j: JSON, m: Metadata) { j == if m.Some? then Object(m.value) else Null }

  predicate IsStrings(j: JSON, l: Option<seq<string>>) {
    if l.None? then j == Null
    else j.Array? && |j.items| == |l.value| && forall i :: 0 <= i < |l.value| ==> IsString(j.items[i], l.value[i])
  }

  /** What is decoded is what the members say, for each member of each type; a member of another
      type makes the decoding fail. */
  lemma MessagesSay(j: JSON)
    ensures DecodeMessage(j).Success? ==>
      j.Object? && var o, m := j.fields, DecodeMessage(j).value;
      && IsString(Get(o, KindName), m.kind) && IsString(Get(o, MessageIdName), m.messageID)
      && IsString(Get(o, RoleName), m.role) && IsOptString(Get(o, ContextIdName), m.contextID)
      && IsOptString(Get(o, TaskIdName), m.taskID) && IsMetadata(Get(o, MetadataName), m.metadata)
      && IsStrings(Get(o, ExtensionsName), m.extensions) && IsStrings(Get(o, ReferenceTaskIdsName), m.referenceTaskIDs)
  {
  }

  /** The parts are those of the array, one for one. */
  lemma {:induction false} PartsAre(items: seq<JSON>, index: nat)
    ensures DecodeParts(items, index).Success? ==>
      var ps := DecodeParts(items, index).value;
      |ps| == |items| && forall i :: 0 <= i < |ps| ==> DecodePart(items[i]) == Success(ps[i])
    decreases |items|
  {
    if items != [] {
      PartsAre(items[1..], index + 1);
    }
  }

  lemma {:induction false} MessagesAre(items: seq<JSON>, index: nat)
    ensures DecodeMessages(items, index).Success? ==>
      var ms := DecodeMessages(items, index).value;
      |ms| == |items| && forall i :: 0 <= i < |ms| ==> DecodeMessage(items[i]) == Success(ms[i])
    decreases |items|
  {
    if items != [] {
      MessagesAre(items[1..], index + 1);
    }
  }

  lemma {:induction false} ArtifactsAre(items: seq<JSON>, index: nat)
    ensures DecodeArtifacts(items, index).Success? ==>
      var xs := DecodeArtifacts(items, index).value;
      |xs| == |items| && forall i :: 0 <= i < |xs| ==> DecodeArtifact(items[i]) == Success(xs[i])
    decreases |items|
  {
    if items != [] {
      ArtifactsAre(items[1..], index + 1);
    }
  }

  /** The elements of an array; an absent or null member has none. */
  function Elements(j: JSON): seq<JSON> { if j.Array? then j.items else [] }

  /** The parts of a message and of an artifact are those its member holds. */
  lemma PartsSay(j: JSON)
    ensures DecodeMessage(j).Success? ==>
      j.Object? && DecodeMessage(j).value.parts.Some?
      && DecodeParts(Elements(Get(j.fields, PartsName)), 0) == Success(DecodeMessage(j).value.parts.value)
    ensures DecodeArtifact(j).Success? ==>
      j.Object? && DecodeArtifact(j).value.parts.Some?
      && DecodeParts(Elements(Get(j.fields, PartsName)), 0) == Success(DecodeArtifact(j).value.parts.value)
  {
  }

  lemma PartSays(j: JSON)
    ensures DecodePart(j).Success? ==>
      j.Object? && var o, p := j.fields, DecodePart(j).value;
      && Get(o, KindName) == String(p.kind) && IsMetadata(Get(o, MetadataName), p.metadata)
      && match p
         case TextPart(kind, text, _) => kind == "text" && IsString(Get(o, TextName), text)
         case FilePart(kind, file, _) => kind == "file" && file.Some? && FileSays(Get(o, FileName), file.value)
         case DataPart(kind, data, _) => kind == "data" && data == Get(o, DataName)
  {
  }

  /** A file is given by its bytes, or else by its address. */
  predicate FileSays(j: JSON, f: FileUnion) {
    && j.Object? && IsOptString(Get(j.fields, NameName), f.name) && IsOptString(Get(j.fields, MimeTypeName), f.mimeType)
    && (f.FileWithBytes? <==> BytesName in j.fields)
    && match f
       case FileWithBytes(_, _, bytes) => IsString(Get(j.fields, BytesName), bytes)
       case FileWithURI(_, _, uri) => UriName in j.fields && IsString(Get(j.fields, UriName), uri)
  }

  lemma ArtifactsSay(j: JSON)
    ensures DecodeArtifact(j).Success? ==>
      j.Object? && var o, a := j.fields, DecodeArtifact(j).value;
      && IsString(Get(o, ArtifactIdName), a.artifactID) && IsOptString(Get(o, NameName), a.name)
      && IsOptString(Get(o, DescriptionName), a.description) && IsMetadata(Get(o, MetadataName), a.metadata)
      && IsStrings(Get(o, ExtensionsName), a.extensions)
  {
  }

  predicate StatusSays(j: JSON, s: TaskStatus) {
    if j.Null? then s == TaskStatus("", None, "")
    else
      && j.Object? && IsString(Get(j.fields, StateName), s.state) && IsString(Get(j.fields, TimestampName), s.timestamp)
      && (if s.message.None? then Get(j.fields, MessageName).Null?
          else DecodeMessage(Get(j.fields, MessageName)) == Success(s.message.value))
  }

  lemma StatusEventsSay(o: Fields)
    ensures DecodeStatusEvent(o).Success? ==>
      var e := DecodeStatusEvent(o).value;
      && IsString(Get(o, ContextIdName), e.contextID) && IsString(Get(o, KindName), e.kind)
      && IsString(Get(o, TaskIdName), e.taskID) && IsMetadata(Get(o, MetadataName), e.metadata)
      && (Get(o, FinalName) == Bool(e.final) || (Get(o, FinalName) == Null && !e.final))
      && StatusSays(Get(o, StatusName), e.status)
  {
  }

  lemma ArtifactEventsSay(o: Fields)
    ensures DecodeArtifactEvent(o).Success? ==>
      var e := DecodeArtifactEvent(o).value;
      && IsString(Get(o, ContextIdName), e.contextID) && IsString(Get(o, KindName), e.kind)
      && IsString(Get(o, TaskIdName), e.taskID) && IsMetadata(Get(o, MetadataName), e.metadata)
      && IsOptBool(Get(o, AppendName), e.append) && IsOptBool(Get(o, LastChunkName), e.lastChunk)
      && (ArtifactName in o ==> DecodeArtifact(o[ArtifactName]) == Success(e.artifact))
  {
  }

  lemma TasksSay(o: Fields, order: seq<Name>)
    ensures DecodeTask(o, order).Success? ==>
      var t := DecodeTask(o, order).value;
      && IsString(Get(o, ContextIdName), t.contextID) && IsString(Get(o, KindName), t.kind)
      && IsString(Get(o, IdName), t.id) && IsMetadata(Get(o, MetadataName), t.metadata)
      && (t.history.Some? <==> Get(o, HistoryName).Array?) && (t.artifacts.Some? <==> Get(o, ArtifactsName).Array?)
      && (t.history.Some? ==> DecodeMessages(Get(o, HistoryName).items, 0) == Success(t.history.value))
      && (t.artifacts.Some? ==> DecodeArtifacts(Get(o, ArtifactsName).items, 0) == Success(t.artifacts.value))
      && StatusSays(Get(o, StatusName), t.status)
  {
  }

  // ---------------------------------------------------------------------------------------
  // Exactly what decodes

  predicate StringOrNull(j: JSON) { j.String? || j.Null? }

  predicate StringsOrNull(j: JSON) {
    j.Null? || (j.Array? && forall i :: 0 <= i < |j.items| ==> StringOrNull(j.items[i]))
  }

  predicate ObjectOrNull(j: JSON) { j.Object? || j.Null? }

  predicate BoolOrNull(j: JSON) { j.Bool? || j.Null? }

  predicate PartsDecode(j: JSON) {
    j.Null? || (j.Array? && forall i :: 0 <= i < |j.items| ==> DecodePart(j.items[i]).Success?)
  }

  lemma {:induction false} AllPartsDecode(items: seq<JSON>, index: nat)
    ensures DecodeParts(items, index).Success? <==> forall i :: 0 <= i < |items| ==> DecodePart(items[i]).Success?
    decreases |items|
  {
    if items != [] {
      AllPartsDecode(items[1..], index + 1);
      assert forall i :: 0 < i < |items| ==> items[i] == items[1..][i - 1];
    }
  }

  lemma PartsMember(o: Fields)
    ensures GetParts(o).Success? <==> PartsDecode(Get(o, PartsName))
  {
    if Get(o, PartsName).Array? {
      AllPartsDecode(Get(o, PartsName).items, 0);
    }
  }

  predicate StringMembers(o: Fields, names: set<Name>) { forall n :: n in names ==> StringOrNull(Get(o, n)) }

  /** A message decodes if and only if it is an object whose members have the types of its fields,
      or are absent or null, and whose parts decode; the same for an artifact. */
  lemma MessagesDecode(j: JSON)
    ensures DecodeMessage(j).Success? <==>
      && j.Object?
      && StringMembers(j.fields, {KindName, MessageIdName, RoleName, ContextIdName, TaskIdName})
      && StringsOrNull(Get(j.fields, ExtensionsName)) && StringsOrNull(Get(j.fields, ReferenceTaskIdsName))
      && ObjectOrNull(Get(j.fields, MetadataName)) && PartsDecode(Get(j.fields, PartsName))
  {
    if j.Object? {
      PartsMember(j.fields);
      MessageBaseDecodes(j.fields);
    }
  }

  lemma MessageBaseDecodes(o: Fields)
    ensures DecodeMessageBase(o).Success? <==>
      && StringMembers(o, {KindName, MessageIdName, RoleName, ContextIdName, TaskIdName})
      && StringsOrNull(Get(o, ExtensionsName)) && StringsOrNull(Get(o, ReferenceTaskIdsName))
      && ObjectOrNull(Get(o, MetadataName))
  {
    StringsDecode(o, ExtensionsName);
    StringsDecode(o, ReferenceTaskIdsName);
  }

  lemma StringsDecode(o: Fields, n: Name)
    ensures GetStrings(o, n).Success? <==> StringsOrNull(Get(o, n))
  {
  }

  lemma ArtifactsDecode(j: JSON)
    ensures DecodeArtifact(j).Success? <==>
      && j.Object? && StringMembers(j.fields, {ArtifactIdName, NameName, DescriptionName})
      && StringsOrNull(Get(j.fields, ExtensionsName)) && ObjectOrNull(Get(j.fields, MetadataName))
      && PartsDecode(Get(j.fields, PartsName))
  {
    if j.Object? {
      PartsMember(j.fields);
      StringsDecode(j.fields, ExtensionsName);
    }
  }

  predicate FileDecodes(j: JSON) {
    && j.Object? && StringMembers(j.fields, {NameName, MimeTypeName})
    && (if BytesName in j.fields then StringOrNull(Get(j.fields, BytesName))
        else UriName in j.fields && StringOrNull(Get(j.fields, UriName)))
  }

  lemma PartDecodes(j: JSON)
    ensures DecodePart(j).Success? <==>
      j.Object? && ObjectOrNull(Get(j.fields, MetadataName))
      && (|| (Get(j.fields, KindName) == String("text") && StringOrNull(Get(j.fields, TextName)))
          || (Get(j.fields, KindName) == String("file") && FileDecodes(Get(j.fields, FileName)))
          || Get(j.fields, KindName) == String("data"))
  {
    KindsDiffer();
  }

  predicate StatusDecodes(j: JSON) {
    j.Null? ||
    (&& j.Object? && StringMembers(j.fields, {StateName, TimestampName})
     && (Get(j.fields, MessageName).Null? || DecodeMessage(Get(j.fields, MessageName)).Success?))
  }

  lemma StatusEventsDecode(o: Fields)
    ensures DecodeStatusEvent(o).Success? <==>
      && StringMembers(o, {ContextIdName, KindName, TaskIdName}) && BoolOrNull(Get(o, FinalName))
      && ObjectOrNull(Get(o, MetadataName)) && StatusDecodes(Get(o, StatusName))
  {
  }

  lemma ArtifactEventsDecode(o: Fields)
    ensures DecodeArtifactEvent(o).Success? <==>
      && StringMembers(o, {ContextIdName, KindName, TaskIdName})
      && BoolOrNull(Get(o, AppendName)) && BoolOrNull(Get(o, LastChunkName)) && ObjectOrNull(Get(o, MetadataName))
      && (ArtifactName in o ==> DecodeArtifact(o[ArtifactName]).Success?)
  {
  }

  predicate MessagesMember(j: JSON) {
    j.Null? || (j.Array? && forall i :: 0 <= i < |j.items| ==> DecodeMessage(j.items[i]).Success?)
  }

  predicate ArtifactsMember(j: JSON) {
    j.Null? || (j.Array? && forall i :: 0 <= i < |j.items| ==> DecodeArtifact(j.items[i]).Success?)
  }

  lemma {:induction false} AllMessagesDecode(items: seq<JSON>, index: nat)
    ensures DecodeMessages(items, index).Success? <==> forall i :: 0 <= i < |items| ==> DecodeMessage(items[i]).Success?
    decreases |items|
  {
    if items != [] {
      AllMessagesDecode(items[1..], index + 1);
      assert forall i :: 0 < i < |items| ==> items[i] == items[1..][i - 1];
    }
  }

  lemma {:induction false} AllArtifactsDecode(items: seq<JSON>, index: nat)
    ensures DecodeArtifacts(items, index).Success? <==> forall i :: 0 <= i < |items| ==> DecodeArtifact(items[i]).Success?
    decreases |items|
  {
    if items != [] {
      AllArtifactsDecode(items[1..], index + 1);
      assert forall i :: 0 < i < |items| ==> items[i] == items[1..][i - 1];
    }
  }

  lemma TasksDecode(o: Fields, order: seq<Name>)
    ensures DecodeTask(o, order).Success? <==>
      && StringMembers(o, {ContextIdName, IdName, KindName}) && ObjectOrNull(Get(o, MetadataName))
      && MessagesMember(Get(o, HistoryName)) && ArtifactsMember(Get(o, ArtifactsName))
      && StatusDecodes(Get(o, StatusName))
  {
    if Get(o, HistoryName).Array? {
      AllMessagesDecode(Get(o, HistoryName).items, 0);
    }
    if Get(o, ArtifactsName).Array? {
      AllArtifactsDecode(Get(o, ArtifactsName).items, 0);
    }
  }

  // ---------------------------------------------------------------------------------------
  // Which error is reported

  /** The index is that of the first part that does not decode, and the cause its error. */
  lemma {:induction false} FirstPartThatFails(items: seq<JSON>, index: nat)
    ensures var r := DecodeParts(items, index);
      r.Failure? ==>
        && r.error.InElement? && index <= r.error.index < index + |items|
        && DecodePart(items[r.error.index - index]) == Failure(r.error.cause)
        && forall i :: 0 <= i < r.error.index - index ==> DecodePart(items[i]).Success?
    decreases |items|
  {
    if items != [] {
      FirstPartThatFails(items[1..], index + 1);
      assert forall i :: 0 < i < |items| ==> items[i] == items[1..][i - 1];
    }
  }

  /** The members of a message other than its parts have the types of its fields. */
  predicate MessageTyped(o: Fields) {
    && StringMembers(o, {KindName, MessageIdName, RoleName, ContextIdName, TaskIdName})
    && StringsOrNull(Get(o, ExtensionsName)) && StringsOrNull(Get(o, ReferenceTaskIdsName))
    && ObjectOrNull(Get(o, MetadataName))
  }

  /** A wrong-typed member is reported before any part; only then the first part that fails. */
  lemma MessageErrors(o: Fields)
    ensures var r := DecodeMessage(Object(o));
      && (!MessageTyped(o) ==> r.Failure? && r.error.WrongType? && r.error.name != PartsName)
      && (MessageTyped(o) && r.Failure? ==>
            if Get(o, PartsName).Array? then r == Failure(GetParts(o).error) && r.error.InElement?
            else r == Failure(WrongType(PartsName)))
  {
    MessageBaseDecodes(o);
    if Get(o, PartsName).Array? {
      FirstPartThatFails(Get(o, PartsName).items, 0);
    }
  }

  lemma ArtifactErrors(o: Fields)
    ensures var r := DecodeArtifact(Object(o));
      && (r.Failure? && DecodeArtifactBase(o).Failure? ==> r.error.WrongType? && r.error.name != PartsName)
      && (r.Failure? && DecodeArtifactBase(o).Success? ==>
            if Get(o, PartsName).Array? then r == Failure(GetParts(o).error) && r.error.InElement?
            else r == Failure(WrongType(PartsName)))
  {
    if Get(o, PartsName).Array? {
      FirstPartThatFails(Get(o, PartsName).items, 0);
    }
  }
}
