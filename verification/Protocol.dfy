/**
 The wire types of the protocol and their JSON encoding.  JSON is a tree; a member name is one
 constructor of `Name` for each name the structs declare and `Other` for every other spelling.
 A Go pointer, slice, map or interface that may be nil is an Option.
 */
module Protocol {
  import opened Wrappers

  datatype Name =
    | AppendName | ArtifactName | ArtifactIdName | ArtifactsName | BytesName | ContextIdName | DataName
    | DescriptionName | ExtensionsName | FileName | FinalName | HistoryName | IdName | KindName | LastChunkName
    | MessageName | MessageIdName | MetadataName | MimeTypeName | NameName | PartsName | ReferenceTaskIdsName
    | ResultName | RoleName | StateName | StatusName | TaskIdName | TextName | TimestampName | UriName
    | Other(spelling: string)

  datatype JSON =
    | Null
    | Bool(b: bool)
    | Number(digits: string)
    | String(s: string)
    | Array(items: seq<JSON>)
    | Object(fields: Fields)

  type Fields = map<Name, JSON>

  const KIND_MESSAGE := "message"
  const KIND_TASK := "task"
  const KIND_STATUS_UPDATE := "status-update"
  const KIND_ARTIFACT_UPDATE := "artifact-update"
  const KIND_TEXT := "text"
  const KIND_FILE := "file"
  const KIND_DATA := "data"

  type Metadata = Option<Fields>

  datatype FileUnion =
    | FileWithBytes(name: Option<string>, mimeType: Option<string>, bytes: string)
    | FileWithURI(name: Option<string>, mimeType: Option<string>, uri: string)

  datatype Part =
    | TextPart(kind: string, text: string, metadata: Metadata)
    | FilePart(kind: string, file: Option<FileUnion>, metadata: Metadata)
    | DataPart(kind: string, data: JSON, metadata: Metadata)

  datatype Message = Message(
    contextID: Option<string>,
    extensions: Option<seq<string>>,
    kind: string,
    messageID: string,
    metadata: Metadata,
    parts: Option<seq<Part>>,
    referenceTaskIDs: Option<seq<string>>,
    role: string,
    taskID: Option<string>)

  datatype Artifact = Artifact(
    artifactID: string,
    name: Option<string>,
    description: Option<string>,
    parts: Option<seq<Part>>,
    metadata: Metadata,
    extensions: Option<seq<string>>)

  datatype TaskStatus = TaskStatus(state: string, message: Option<Message>, timestamp: string)

  datatype Task = Task(
    artifacts: Option<seq<Artifact>>,
    contextID: string,
    history: Option<seq<Message>>,
    id: string,
    kind: string,
    metadata: Metadata,
    status: TaskStatus)

  datatype TaskStatusUpdateEvent = TaskStatusUpdateEvent(
    contextID: string, final: bool, kind: string, metadata: Metadata, status: TaskStatus, taskID: string)

  datatype TaskArtifactUpdateEvent = TaskArtifactUpdateEvent(
    append: Option<bool>, artifact: Artifact, contextID: string, kind: string,
    lastChunk: Option<bool>, metadata: Metadata, taskID: string)

  /** What a streaming event carries. */
  datatype Event =
    | MessageEvent(message: Message)
    | TaskEvent(task: Task)
    | StatusEvent(status: TaskStatusUpdateEvent)
    | ArtifactEvent(artifact: TaskArtifactUpdateEvent)

  datatype DecodeError =
    | NotAnObject
    | WrongType(name: Name)
    | UnsupportedKind(kind: string)
    | UnknownFile
    | NilDereference                                   // not an error value: the decoder panics
    | InElement(index: nat, cause: DecodeError)
    | InMember(name: Name, cause: DecodeError)         // of a nested message or artifact

  type Decoded<+T> = Result<T, DecodeError>

  // ---------------------------------------------------------------------------------------
  // Encoding, field by field as the struct tags say

  /** Adds a member, or leaves it out when its value is empty. */
  function With(o: Fields, n: Name, v: Option<JSON>): Fields {
    if v.None? then o else o[n := v.value]
  }

  function EncodeOptString(v: Option<string>): Option<JSON> {
    if v.None? then None else Some(String(v.value))
  }

  function EncodeOptBool(v: Option<bool>): Option<JSON> {
    if v.None? then None else Some(Bool(v.value))
  }

  function EncodeMetadata(v: Metadata): Option<JSON> {
    if v.None? || v.value == map[] then None else Some(Object(v.value))
  }

  function EncodeStrings(v: seq<string>): seq<JSON> {
    seq(|v|, i requires 0 <= i < |v| => String(v[i]))
  }

  function EncodeOptStrings(v: Option<seq<string>>): Option<JSON> {
    if v.None? || v.value == [] then None else Some(Array(EncodeStrings(v.value)))
  }

  function EncodeFile(f: Option<FileUnion>): JSON {
    match f
    case None => Null
    case Some(FileWithBytes(name, mimeType, bytes)) =>
      var o := map[BytesName := String(bytes)];
      Object(With(With(o, NameName, EncodeOptString(name)), MimeTypeName, EncodeOptString(mimeType)))
    case Some(FileWithURI(name, mimeType, uri)) =>
      var o := map[UriName := String(uri)];
      Object(With(With(o, NameName, EncodeOptString(name)), MimeTypeName, EncodeOptString(mimeType)))
  }

  function EncodePart(p: Part): JSON {
    var o := match p
      case TextPart(kind, text, _) => map[KindName := String(kind), TextName := String(text)]
      case FilePart(kind, file, _) => map[KindName := String(kind), FileName := EncodeFile(file)]
      case DataPart(kind, data, _) => map[KindName := String(kind), DataName := data];
    Object(With(o, MetadataName, EncodeMetadata(p.metadata)))
  }

  function EncodeParts(ps: Option<seq<Part>>): JSON {
    if ps.None? then Null
    else Array(seq(|ps.value|, i requires 0 <= i < |ps.value| => EncodePart(ps.value[i])))
  }

  function EncodeMessage(m: Message): JSON {
    var o := With(map[], ContextIdName, EncodeOptString(m.contextID));
    var o := With(o, ExtensionsName, EncodeOptStrings(m.extensions));
    var o := o[KindName := String(m.kind)][MessageIdName := String(m.messageID)];
    var o := With(o, MetadataName, EncodeMetadata(m.metadata))[PartsName := EncodeParts(m.parts)];
    var o := With(o, ReferenceTaskIdsName, EncodeOptStrings(m.referenceTaskIDs))[RoleName := String(m.role)];
    Object(With(o, TaskIdName, EncodeOptString(m.taskID)))
  }

  function EncodeArtifact(a: Artifact): JSON {
    var o := With(map[ArtifactIdName := String(a.artifactID)], NameName, EncodeOptString(a.name));
    var o := With(o, DescriptionName, EncodeOptString(a.description))[PartsName := EncodeParts(a.parts)];
    var o := With(o, MetadataName, EncodeMetadata(a.metadata));
    Object(With(o, ExtensionsName, EncodeOptStrings(a.extensions)))
  }

  function EncodeStatus(s: TaskStatus): JSON {
    var o := map[StateName := String(s.state)];
    var o := With(o, MessageName, if s.message.None? then None else Some(EncodeMessage(s.message.value)));
    Object(With(o, TimestampName, if s.timestamp == "" then None else Some(String(s.timestamp))))
  }

  function EncodeMessages(ms: Option<seq<Message>>): Option<JSON> {
    if ms.None? || ms.value == [] then None
    else Some(Array(seq(|ms.value|, i requires 0 <= i < |ms.value| => EncodeMessage(ms.value[i]))))
  }

  function EncodeArtifacts(xs: Option<seq<Artifact>>): Option<JSON> {
    if xs.None? || xs.value == [] then None
    else Some(Array(seq(|xs.value|, i requires 0 <= i < |xs.value| => EncodeArtifact(xs.value[i]))))
  }

  function EncodeTask(t: Task): JSON {
    var o := With(map[], ArtifactsName, EncodeArtifacts(t.artifacts))[ContextIdName := String(t.contextID)];
    var o := With(o, HistoryName, EncodeMessages(t.history))[IdName := String(t.id)][KindName := String(t.kind)];
    Object(With(o, MetadataName, EncodeMetadata(t.metadata))[StatusName := EncodeStatus(t.status)])
  }

  function EncodeStatusEvent(e: TaskStatusUpdateEvent): JSON {
    var o: Fields := map[][ContextIdName := String(e.contextID)][FinalName := Bool(e.final)][KindName := String(e.kind)];
    var o := With(o, MetadataName, EncodeMetadata(e.metadata));
    Object(o[StatusName := EncodeStatus(e.status)][TaskIdName := String(e.taskID)])
  }

  function EncodeArtifactEvent(e: TaskArtifactUpdateEvent): JSON {
    var o := With(map[], AppendName, EncodeOptBool(e.append))[ArtifactName := EncodeArtifact(e.artifact)];
    var o := With(o[ContextIdName := String(e.contextID)][KindName := String(e.kind)],
                  LastChunkName, EncodeOptBool(e.lastChunk));
    Object(With(o, MetadataName, EncodeMetadata(e.metadata))[TaskIdName := String(e.taskID)])
  }

  function EncodeEvent(e: Event): JSON {
    match e
    case MessageEvent(m) => EncodeMessage(m)
    case TaskEvent(t) => EncodeTask(t)
    case StatusEvent(s) => EncodeStatusEvent(s)
    case ArtifactEvent(a) => EncodeArtifactEvent(a)
  }

  // ---------------------------------------------------------------------------------------
  // Decoding: an absent member, or null where the type allows it, leaves the zero value

  function Get(o: Fields, n: Name): JSON { if n in o then o[n] else Null }

  function GetString(o: Fields, n: Name): Decoded<string> {
    match Get(o, n)
    case Null => Success("")
    case String(s) => Success(s)
    case _ => Failure(WrongType(n))
  }

  function GetOptString(o: Fields, n: Name): Decoded<Option<string>> {
    match Get(o, n)
    case Null => Success(None)
    case String(s) => Success(Some(s))
    case _ => Failure(WrongType(n))
  }

  function GetBool(o: Fields, n: Name): Decoded<bool> {
    match Get(o, n)
    case Null => Success(false)
    case Bool(b) => Success(b)
    case _ => Failure(WrongType(n))
  }

  function GetOptBool(o: Fields, n: Name): Decoded<Option<bool>> {
    match Get(o, n)
    case Null => Success(None)
    case Bool(b) => Success(Some(b))
    case _ => Failure(WrongType(n))
  }

  function GetMetadata(o: Fields): Decoded<Metadata> {
    match Get(o, MetadataName)
    case Null => Success(None)
    case Object(m) => Success(Some(m))
    case _ => Failure(WrongType(MetadataName))
  }

  function GetStrings(o: Fields, n: Name): Decoded<Option<seq<string>>> {
    match Get(o, n)
    case Null => Success(None)
    case Array(items) =>
      if forall i :: 0 <= i < |items| ==> items[i].String? || items[i].Null? then
        Success(Some(seq(|items|, i requires 0 <= i < |items| => if items[i].String? then items[i].s else "")))
      else Failure(WrongType(n))
    case _ => Failure(WrongType(n))
  }

  /** The first error, when the second is not looked at after the first. */
  function Both<A, B>(a: Decoded<A>, b: Decoded<B>): Decoded<(A, B)> {
    if a.Failure? then Failure(a.error) else if b.Failure? then Failure(b.error) else Success((a.value, b.value))
  }

  /** What a nested message or artifact reports ends the decoding of the whole at once; the type
      error of another member is kept until the end. */
  predicate Aborting(e: DecodeError) { e.InElement? || e.InMember? }

  /** Two members of one object: what aborts comes before what is kept. */
  function Beside<A, B>(a: Decoded<A>, b: Decoded<B>): Decoded<(A, B)> {
    if a.Failure? && b.Failure? && !Aborting(a.error) && Aborting(b.error) then Failure(b.error) else Both(a, b)
  }

  function DecodeFile(j: JSON): Decoded<FileUnion> {
    match j
    case Object(o) =>
      var named := Both(GetOptString(o, NameName), GetOptString(o, MimeTypeName));
      if named.Failure? then Failure(named.error)
      else if BytesName in o then
        var bytes := GetString(o, BytesName);
        if bytes.Failure? then Failure(bytes.error)
        else Success(FileWithBytes(named.value.0, named.value.1, bytes.value))
      else if UriName in o then
        var uri := GetString(o, UriName);
        if uri.Failure? then Failure(uri.error)
        else Success(FileWithURI(named.value.0, named.value.1, uri.value))
      else Failure(UnknownFile)
    case Null => Failure(UnknownFile)
    case _ => Failure(WrongType(FileName))
  }

  function DecodePart(j: JSON): Decoded<Part> {
    match j
    case Object(o) =>
      var kind := GetString(o, KindName);
      var metadata := GetMetadata(o);
      if kind.Failure? then Failure(kind.error)
      else if kind.value == KIND_TEXT then
        var text := Both(GetString(o, TextName), metadata);
        if text.Failure? then Failure(text.error) else Success(TextPart(kind.value, text.value.0, text.value.1))
      else if kind.value == KIND_FILE then
        var file := Both(metadata, if FileName in o then DecodeFile(o[FileName]) else Failure(WrongType(FileName)));
        if file.Failure? then Failure(file.error)
        else Success(FilePart(kind.value, Some(file.value.1), file.value.0))
      else if kind.value == KIND_DATA then
        if metadata.Failure? then Failure(metadata.error)
        else Success(DataPart(kind.value, Get(o, DataName), metadata.value))
      else Failure(UnsupportedKind(kind.value))
    case Null => Failure(UnsupportedKind(""))
    case _ => Failure(NotAnObject)
  }

  /** The parts one after the other, stopping at the first that does not decode. */
  function DecodeParts(items: seq<JSON>, index: nat): Decoded<seq<Part>>
    decreases |items|
  {
    if items == [] then Success([])
    else
      var first := DecodePart(items[0]);
      if first.Failure? then Failure(InElement(index, first.error))
      else
        var others := DecodeParts(items[1..], index + 1);
        if others.Failure? then Failure(others.error) else Success([first.value] + others.value)
  }

  /** The raw parts of a message or an artifact: none when the member is absent or null. */
  function RawParts(o: Fields): Decoded<seq<JSON>> {
    match Get(o, PartsName)
    case Null => Success([])
    case Array(items) => Success(items)
    case _ => Failure(WrongType(PartsName))
  }

  function GetParts(o: Fields): Decoded<seq<Part>> {
    var raw := RawParts(o);
    if raw.Failure? then Failure(raw.error) else DecodeParts(raw.value, 0)
  }

  /** The members of a message other than its parts. */
  function DecodeMessageBase(o: Fields): Decoded<Message> {
    var kinds := Both(GetString(o, KindName), Both(GetString(o, MessageIdName), GetString(o, RoleName)));
    var ids := Both(GetOptString(o, ContextIdName), GetOptString(o, TaskIdName));
    var lists := Both(GetStrings(o, ExtensionsName), Both(GetMetadata(o), GetStrings(o, ReferenceTaskIdsName)));
    var all := Both(kinds, Both(ids, lists));
    if all.Failure? then Failure(all.error)
    else
      var ((kind, (messageID, role)), ((contextID, taskID), (extensions, (metadata, references)))) := all.value;
      Success(Message(contextID, extensions, kind, messageID, metadata, None, references, role, taskID))
  }

  /** A null makes the decoder's own pointer nil, and it panics. */
  function DecodeMessage(j: JSON): Decoded<Message> {
    if j.Null? then Failure(NilDereference)
    else if !j.Object? then Failure(NotAnObject)
    else
      var both := Both(DecodeMessageBase(j.fields), GetParts(j.fields));
      if both.Failure? then Failure(both.error) else Success(both.value.0.(parts := Some(both.value.1)))
  }

  function Prepend<T>(xs: seq<T>, others: Decoded<seq<T>>): Decoded<seq<T>> {
    if others.Failure? then others else Success(xs + others.value)
  }

  /** The loop that appends the parts one by one. */
  method UnmarshalParts(raw: seq<JSON>) returns (r: Decoded<seq<Part>>)
    ensures r == DecodeParts(raw, 0)
  {
    var parts: seq<Part> := [];
    assert raw[0..] == raw && (DecodeParts(raw, 0).Success? ==> [] + DecodeParts(raw, 0).value == DecodeParts(raw, 0).value);
    for i := 0 to |raw|
      invariant DecodeParts(raw, 0) == Prepend(parts, DecodeParts(raw[i..], i))
    {
      var part := DecodePart(raw[i]);
      if part.Failure? {
        return Failure(InElement(i, part.error));
      }
      assert raw[i..][1..] == raw[i + 1..];
      assert forall others: seq<Part> :: parts + ([part.value] + others) == (parts + [part.value]) + others;
      parts := parts + [part.value];
    }
    assert raw[|raw|..] == [] && parts + [] == parts;
    return Success(parts);
  }

  method UnmarshalMessage(data: JSON) returns (r: Decoded<Message>)
    ensures r == DecodeMessage(data)
  {
    if data.Null? {
      return Failure(NilDereference);
    }
    if !data.Object? {
      return Failure(NotAnObject);
    }
    var base, raw := DecodeMessageBase(data.fields), RawParts(data.fields);
    if base.Failure? {
      return Failure(base.error);
    }
    if raw.Failure? {
      return Failure(raw.error);
    }
    var parts := UnmarshalParts(raw.value);
    r := if parts.Failure? then Failure(parts.error) else Success(base.value.(parts := Some(parts.value)));
  }

  function DecodeArtifactBase(o: Fields): Decoded<Artifact> {
    var names := Both(GetString(o, ArtifactIdName), Both(GetOptString(o, NameName), GetOptString(o, DescriptionName)));
    var all := Both(names, Both(GetMetadata(o), GetStrings(o, ExtensionsName)));
    if all.Failure? then Failure(all.error)
    else
      var ((artifactID, (name, description)), (metadata, extensions)) := all.value;
      Success(Artifact(artifactID, name, description, None, metadata, extensions))
  }

  function DecodeArtifact(j: JSON): Decoded<Artifact> {
    if j.Null? then Failure(NilDereference)
    else if !j.Object? then Failure(NotAnObject)
    else
      var both := Both(DecodeArtifactBase(j.fields), GetParts(j.fields));
      if both.Failure? then Failure(both.error) else Success(both.value.0.(parts := Some(both.value.1)))
  }

  method UnmarshalArtifact(data: JSON) returns (r: Decoded<Artifact>)
    ensures r == DecodeArtifact(data)
  {
    if data.Null? {
      return Failure(NilDereference);
    }
    if !data.Object? {
      return Failure(NotAnObject);
    }
    var base, raw := DecodeArtifactBase(data.fields), RawParts(data.fields);
    if base.Failure? {
      return Failure(base.error);
    }
    if raw.Failure? {
      return Failure(raw.error);
    }
    var parts := UnmarshalParts(raw.value);
    r := if parts.Failure? then Failure(parts.error) else Success(base.value.(parts := Some(parts.value)));
  }

  function DecodeMessages(items: seq<JSON>, index: nat): Decoded<seq<Message>>
    decreases |items|
  {
    if items == [] then Success([])
    else
      var first := DecodeMessage(items[0]);
      var others := DecodeMessages(items[1..], index + 1);
      if first.Failure? then Failure(InElement(index, first.error))
      else if others.Failure? then Failure(others.error)
      else Success([first.value] + others.value)
  }

  function DecodeArtifacts(items: seq<JSON>, index: nat): Decoded<seq<Artifact>>
    decreases |items|
  {
    if items == [] then Success([])
    else
      var first := DecodeArtifact(items[0]);
      var others := DecodeArtifacts(items[1..], index + 1);
      if first.Failure? then Failure(InElement(index, first.error))
      else if others.Failure? then Failure(others.error)
      else Success([first.value] + others.value)
  }

  function GetMessages(o: Fields): Decoded<Option<seq<Message>>> {
    match Get(o, HistoryName)
    case Null => Success(None)
    case Array(items) =>
      var r := DecodeMessages(items, 0);
      if r.Failure? then Failure(r.error) else Success(Some(r.value))
    case _ => Failure(WrongType(HistoryName))
  }

  function GetArtifacts(o: Fields): Decoded<Option<seq<Artifact>>> {
    match Get(o, ArtifactsName)
    case Null => Success(None)
    case Array(items) =>
      var r := DecodeArtifacts(items, 0);
      if r.Failure? then Failure(r.error) else Success(Some(r.value))
    case _ => Failure(WrongType(ArtifactsName))
  }

  /** A pointer: a null leaves it nil. */
  function GetStatusMessage(s: Fields): Decoded<Option<Message>> {
    if Get(s, MessageName).Null? then Success(None)
    else
      var m := DecodeMessage(Get(s, MessageName));
      if m.Failure? then Failure(InMember(MessageName, m.error)) else Success(Some(m.value))
  }

  function GetStatus(o: Fields): Decoded<TaskStatus> {
    match Get(o, StatusName)
    case Null => Success(TaskStatus("", None, ""))
    case Object(s) =>
      var all := Beside(Both(GetString(s, StateName), GetString(s, TimestampName)), GetStatusMessage(s));
      if all.Failure? then Failure(all.error)
      else Success(TaskStatus(all.value.0.0, all.value.1, all.value.0.1))
    case _ => Failure(WrongType(StatusName))
  }

  /** What makes a member of a task end the decoding, if it does. */
  function Abort(o: Fields, n: Name): Option<DecodeError> {
    var e := match n
      case ArtifactsName => ErrorOf(GetArtifacts(o))
      case HistoryName => ErrorOf(GetMessages(o))
      case StatusName => ErrorOf(GetStatus(o))
      case _ => None;
    if e.Some? && Aborting(e.value) then e else None
  }

  function ErrorOf<T>(r: Decoded<T>): Option<DecodeError> { if r.Failure? then Some(r.error) else None }

  /** The first of them in the order of the text. */
  function FirstAbort(o: Fields, order: seq<Name>): Option<DecodeError> {
    if order == [] then None
    else if Abort(o, order[0]).Some? then Abort(o, order[0])
    else FirstAbort(o, order[1..])
  }

  /** The members that `order` does not name come after those it names. */
  function InOrder(order: seq<Name>): seq<Name> { order + [ArtifactsName, HistoryName, StatusName] }

  /** `order` is that of the members in the text, which the tree has not: with more than one member
      that ends the decoding it decides which one does. */
  function DecodeTask(o: Fields, order: seq<Name>): Decoded<Task> {
    var ids := Both(GetString(o, ContextIdName), Both(GetString(o, IdName), GetString(o, KindName)));
    var lists := Both(GetArtifacts(o), GetMessages(o));
    var all := Both(ids, Both(lists, Both(GetMetadata(o), GetStatus(o))));
    var abort := FirstAbort(o, InOrder(order));
    if all.Failure? then Failure(if abort.Some? then abort.value else all.error)
    else
      var ((contextID, (id, kind)), ((artifacts, history), (metadata, status))) := all.value;
      Success(Task(artifacts, contextID, history, id, kind, metadata, status))
  }

  function DecodeStatusEvent(o: Fields): Decoded<TaskStatusUpdateEvent> {
    var ids := Both(GetString(o, ContextIdName), Both(GetString(o, KindName), GetString(o, TaskIdName)));
    var all := Beside(ids, Beside(GetBool(o, FinalName), Beside(GetMetadata(o), GetStatus(o))));
    if all.Failure? then Failure(all.error)
    else
      var ((contextID, (kind, taskID)), (final, (metadata, status))) := all.value;
      Success(TaskStatusUpdateEvent(contextID, final, kind, metadata, status, taskID))
  }

  function GetArtifact(o: Fields): Decoded<Artifact> {
    if ArtifactName !in o then Success(Artifact("", None, None, None, None, None))
    else
      var a := DecodeArtifact(o[ArtifactName]);
      if a.Failure? then Failure(InMember(ArtifactName, a.error)) else Success(a.value)
  }

  function DecodeArtifactEvent(o: Fields): Decoded<TaskArtifactUpdateEvent> {
    var ids := Both(GetString(o, ContextIdName), Both(GetString(o, KindName), GetString(o, TaskIdName)));
    var flags := Both(GetOptBool(o, AppendName), GetOptBool(o, LastChunkName));
    var all := Beside(ids, Beside(flags, Beside(GetMetadata(o), GetArtifact(o))));
    if all.Failure? then Failure(all.error)
    else
      var ((contextID, (kind, taskID)), ((append, lastChunk), (metadata, artifact))) := all.value;
      Success(TaskArtifactUpdateEvent(append, artifact, contextID, kind, lastChunk, metadata, taskID))
  }

  /** The object a streaming event is read from: the member Result when there is one. */
  function Unwrap(j: JSON): JSON {
    if j.Object? && ResultName in j.fields then j.fields[ResultName] else j
  }

  function DecodeEvent(j: JSON, order: seq<Name>): Decoded<Event> {
    var actual := Unwrap(j);
    if actual.Null? then Failure(UnsupportedKind(""))
    else if !actual.Object? then Failure(NotAnObject)
    else
      var o := actual.fields;
      var kind := GetString(o, KindName);
      if kind.Failure? then Failure(kind.error)
      else if kind.value == KIND_MESSAGE then
        var r := DecodeMessage(actual);
        if r.Failure? then Failure(r.error) else Success(MessageEvent(r.value))
      else if kind.value == KIND_TASK then
        var r := DecodeTask(o, order);
        if r.Failure? then Failure(r.error) else Success(TaskEvent(r.value))
      else if kind.value == KIND_STATUS_UPDATE then
        var r := DecodeStatusEvent(o);
        if r.Failure? then Failure(r.error) else Success(StatusEvent(r.value))
      else if kind.value == KIND_ARTIFACT_UPDATE then
        var r := DecodeArtifactEvent(o);
        if r.Failure? then Failure(r.error) else Success(ArtifactEvent(r.value))
      else Failure(UnsupportedKind(kind.value))
  }

  /** The union of a unary reply: a message or a task, never wrapped. */
  function DecodeResult(j: JSON, order: seq<Name>): Decoded<Event> {
    if j.Null? then Failure(UnsupportedKind(""))
    else if !j.Object? then Failure(NotAnObject)
    else
      var kind := GetString(j.fields, KindName);
      if kind.Failure? then Failure(kind.error)
      else if kind.value == KIND_MESSAGE then
        var r := DecodeMessage(j);
        if r.Failure? then Failure(r.error) else Success(MessageEvent(r.value))
      else if kind.value == KIND_TASK then
        var r := DecodeTask(j.fields, order);
        if r.Failure? then Failure(r.error) else Success(TaskEvent(r.value))
      else Failure(UnsupportedKind(kind.value))
  }
}
