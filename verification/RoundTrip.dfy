/**
 Decoding undoes encoding for the union types, up to a normalisation, exactly when the kind
 discriminators name the constructors they sit on and every file part has a file.
 */
module RoundTrip {
  import opened Wrappers
  import opened Protocol

  // ---------------------------------------------------------------------------------------
  // Normal forms: an empty optional collection is absent, missing parts are empty

  function NormMetadata(m: Metadata): Metadata { if m == Some(map[]) then None else m }

  function NormList<T(==)>(l: Option<seq<T>>): Option<seq<T>> { if l == Some([]) then None else l }

  function NormPart(p: Part): Part { p.(metadata := NormMetadata(p.metadata)) }

  function NormParts(ps: seq<Part>): (r: seq<Part>)
    ensures |r| == |ps|
  {
    seq(|ps|, i requires 0 <= i < |ps| => NormPart(ps[i]))
  }

  function PartsOf(ps: Option<seq<Part>>): seq<Part> { if ps.None? then [] else ps.value }

  function NormMessage(m: Message): Message {
    m.(extensions := NormList(m.extensions), metadata := NormMetadata(m.metadata),
       parts := Some(NormParts(PartsOf(m.parts))), referenceTaskIDs := NormList(m.referenceTaskIDs))
  }

  function NormArtifact(a: Artifact): Artifact {
    a.(parts := Some(NormParts(PartsOf(a.parts))), metadata := NormMetadata(a.metadata),
       extensions := NormList(a.extensions))
  }

  function NormStatus(s: TaskStatus): TaskStatus {
    if s.message.None? then s else s.(message := Some(NormMessage(s.message.value)))
  }

  function NormMessages(ms: seq<Message>): (r: seq<Message>)
    ensures |r| == |ms|
  {
    seq(|ms|, i requires 0 <= i < |ms| => NormMessage(ms[i]))
  }

  function NormArtifacts(xs: seq<Artifact>): (r: seq<Artifact>)
    ensures |r| == |xs|
  {
    seq(|xs|, i requires 0 <= i < |xs| => NormArtifact(xs[i]))
  }

  function NormTask(t: Task): Task {
    t.(artifacts := if t.artifacts.None? || t.artifacts.value == [] then None
                    else Some(NormArtifacts(t.artifacts.value)),
       history := if t.history.None? || t.history.value == [] then None else Some(NormMessages(t.history.value)),
       metadata := NormMetadata(t.metadata), status := NormStatus(t.status))
  }

  function NormEvent(e: Event): Event {
    match e
    case MessageEvent(m) => MessageEvent(NormMessage(m))
    case TaskEvent(t) => TaskEvent(NormTask(t))
    case StatusEvent(s) =>
      StatusEvent(s.(metadata := NormMetadata(s.metadata), status := NormStatus(s.status)))
    case ArtifactEvent(a) =>
      ArtifactEvent(a.(metadata := NormMetadata(a.metadata), artifact := NormArtifact(a.artifact)))
  }

  // ---------------------------------------------------------------------------------------
  // Which values survive

  predicate GoodPart(p: Part) {
    match p
    case TextPart(kind, _, _) => kind == KIND_TEXT
    case FilePart(kind, file, _) => kind == KIND_FILE && file.Some?
    case DataPart(kind, _, _) => kind == KIND_DATA
  }

  predicate GoodParts(ps: seq<Part>) { forall i :: 0 <= i < |ps| ==> GoodPart(ps[i]) }

  predicate GoodMessage(m: Message) { GoodParts(PartsOf(m.parts)) }

  predicate GoodArtifact(a: Artifact) { GoodParts(PartsOf(a.parts)) }

  predicate GoodStatus(s: TaskStatus) { s.message.Some? ==> GoodMessage(s.message.value) }

  predicate GoodMessages(ms: seq<Message>) { forall i :: 0 <= i < |ms| ==> GoodMessage(ms[i]) }

  predicate GoodArtifacts(xs: seq<Artifact>) { forall i :: 0 <= i < |xs| ==> GoodArtifact(xs[i]) }

  predicate GoodTask(t: Task) {
    && GoodStatus(t.status)
    && (t.history.Some? ==> GoodMessages(t.history.value))
    && (t.artifacts.Some? ==> GoodArtifacts(t.artifacts.value))
  }

  /** The discriminator of an event matches its constructor, and so do those of its parts. */
  predicate GoodEvent(e: Event) {
    match e
    case MessageEvent(m) => m.kind == KIND_MESSAGE && GoodMessage(m)
    case TaskEvent(t) => t.kind == KIND_TASK && GoodTask(t)
    case StatusEvent(s) => s.kind == KIND_STATUS_UPDATE && GoodStatus(s.status)
    case ArtifactEvent(a) => a.kind == KIND_ARTIFACT_UPDATE && GoodArtifact(a.artifact)
  }

  lemma KindsDiffer()
    ensures KIND_TEXT != KIND_FILE && KIND_FILE != KIND_DATA && KIND_TEXT != KIND_DATA
    ensures KIND_MESSAGE != KIND_TASK && KIND_STATUS_UPDATE != KIND_ARTIFACT_UPDATE
    ensures KIND_MESSAGE != KIND_STATUS_UPDATE && KIND_MESSAGE != KIND_ARTIFACT_UPDATE
    ensures KIND_TASK != KIND_STATUS_UPDATE && KIND_TASK != KIND_ARTIFACT_UPDATE
  {
    assert KIND_TEXT[0] != KIND_FILE[0] && KIND_FILE[0] != KIND_DATA[0] && KIND_TEXT[0] != KIND_DATA[0];
  }

  // ---------------------------------------------------------------------------------------
  // Parts

  lemma StringsRoundTrip(o: Fields, n: Name, v: Option<seq<string>>)
    requires Get(o, n) == (if v.None? || v.value == [] then Null else Array(EncodeStrings(v.value)))
    ensures GetStrings(o, n) == Success(NormList(v))
  {
    if v.Some? && v.value != [] {
      assert GetStrings(o, n).value.value == v.value;
    }
  }

  lemma FileRoundTrip(f: FileUnion)
    ensures DecodeFile(EncodeFile(Some(f))) == Success(f)
  {
  }

  lemma PartRoundTrip(p: Part)
    ensures DecodePart(EncodePart(p)) == Success(NormPart(p)) <==> GoodPart(p)
  {
    KindsDiffer();
    if p.FilePart? && p.file.Some? {
      FileRoundTrip(p.file.value);
    }
  }

  /** A list decodes to head and tail exactly when they do. */
  lemma ConsEqual<T>(whole: Decoded<seq<T>>, first: Decoded<T>, others: Decoded<seq<T>>, x: T, xs: seq<T>)
    requires whole.Success? ==> first.Success? && others.Success? && whole.value == [first.value] + others.value
    requires first.Success? && others.Success? ==> whole.Success?
    ensures whole == Success([x] + xs) <==> first == Success(x) && others == Success(xs)
  {
    if whole.Success? {
      assert whole.value[0] == first.value && whole.value[1..] == others.value;
      assert ([x] + xs)[0] == x && ([x] + xs)[1..] == xs;
    }
  }

  lemma {:induction false} PartsRoundTrip(ps: seq<Part>, items: seq<JSON>, index: nat)
    requires |items| == |ps| && forall i :: 0 <= i < |ps| ==> items[i] == EncodePart(ps[i])
    ensures DecodeParts(items, index) == Success(NormParts(ps)) <==> GoodParts(ps)
    decreases |ps|
  {
    if ps != [] {
      PartRoundTrip(ps[0]);
      PartsRoundTrip(ps[1..], items[1..], index + 1);
      SplitParts(ps);
      ConsEqual(DecodeParts(items, index), DecodePart(items[0]), DecodeParts(items[1..], index + 1),
                NormPart(ps[0]), NormParts(ps[1..]));
    }
  }

  lemma SplitParts(ps: seq<Part>)
    requires ps != []
    ensures NormParts(ps) == [NormPart(ps[0])] + NormParts(ps[1..])
    ensures GoodParts(ps) <==> GoodPart(ps[0]) && GoodParts(ps[1..])
  {
    assert forall i :: 0 < i < |ps| ==> ps[i] == ps[1..][i - 1];
  }

  lemma RawPartsRoundTrip(o: Fields, ps: Option<seq<Part>>)
    requires Get(o, PartsName) == EncodeParts(ps)
    ensures GetParts(o) == Success(NormParts(PartsOf(ps))) <==> GoodParts(PartsOf(ps))
  {
    PartsRoundTrip(PartsOf(ps), RawParts(o).value, 0);
  }

  // ---------------------------------------------------------------------------------------
  // What the encoded objects hold

  ghost predicate MessageTexts(o: Fields, m: Message) {
    && Get(o, KindName) == String(m.kind) && Get(o, MessageIdName) == String(m.messageID)
    && Get(o, RoleName) == String(m.role) && Get(o, PartsName) == EncodeParts(m.parts)
    && ResultName !in o
  }

  ghost predicate MessageOptionals(o: Fields, m: Message) {
    && GetOptString(o, ContextIdName) == Success(m.contextID) && GetOptString(o, TaskIdName) == Success(m.taskID)
    && GetMetadata(o) == Success(NormMetadata(m.metadata))
  }

  ghost predicate MessageLists(o: Fields, m: Message) {
    && GetStrings(o, ExtensionsName) == Success(NormList(m.extensions))
    && GetStrings(o, ReferenceTaskIdsName) == Success(NormList(m.referenceTaskIDs))
  }

  ghost predicate MessageFields(o: Fields, m: Message) {
    MessageTexts(o, m) && MessageOptionals(o, m) && MessageLists(o, m)
  }

  lemma EncodedMessageTexts(m: Message)
    ensures EncodeMessage(m).Object? && MessageTexts(EncodeMessage(m).fields, m)
  {
  }

  lemma EncodedMessageOptionals(m: Message)
    ensures EncodeMessage(m).Object? && MessageOptionals(EncodeMessage(m).fields, m)
  {
  }

  lemma EncodedMessageLists(m: Message)
    ensures EncodeMessage(m).Object? && MessageLists(EncodeMessage(m).fields, m)
  {
    var o := EncodeMessage(m).fields;
    StringsRoundTrip(o, ExtensionsName, m.extensions);
    StringsRoundTrip(o, ReferenceTaskIdsName, m.referenceTaskIDs);
  }

  lemma EncodedMessage(m: Message)
    ensures EncodeMessage(m).Object? && MessageFields(EncodeMessage(m).fields, m)
  {
    EncodedMessageTexts(m);
    EncodedMessageOptionals(m);
    EncodedMessageLists(m);
  }

  ghost predicate ArtifactFields(o: Fields, a: Artifact) {
    && Get(o, ArtifactIdName) == String(a.artifactID) && Get(o, PartsName) == EncodeParts(a.parts)
    && GetOptString(o, NameName) == Success(a.name) && GetOptString(o, DescriptionName) == Success(a.description)
    && GetMetadata(o) == Success(NormMetadata(a.metadata))
    && GetStrings(o, ExtensionsName) == Success(NormList(a.extensions))
  }

  lemma EncodedArtifact(a: Artifact)
    ensures EncodeArtifact(a).Object? && ArtifactFields(EncodeArtifact(a).fields, a)
  {
    StringsRoundTrip(EncodeArtifact(a).fields, ExtensionsName, a.extensions);
  }

  ghost predicate TaskFields(o: Fields, t: Task) {
    && Get(o, ContextIdName) == String(t.contextID) && Get(o, IdName) == String(t.id)
    && Get(o, KindName) == String(t.kind) && Get(o, StatusName) == EncodeStatus(t.status)
    && Get(o, ArtifactsName) == OrNull(EncodeArtifacts(t.artifacts))
    && Get(o, HistoryName) == OrNull(EncodeMessages(t.history))
    && GetMetadata(o) == Success(NormMetadata(t.metadata))
    && ResultName !in o
  }

  function OrNull(j: Option<JSON>): JSON { if j.None? then Null else j.value }

  lemma EncodedTask(t: Task)
    ensures EncodeTask(t).Object? && TaskFields(EncodeTask(t).fields, t)
  {
  }

  ghost predicate StatusEventFields(o: Fields, e: TaskStatusUpdateEvent) {
    && Get(o, ContextIdName) == String(e.contextID) && Get(o, FinalName) == Bool(e.final)
    && Get(o, KindName) == String(e.kind) && Get(o, StatusName) == EncodeStatus(e.status)
    && Get(o, TaskIdName) == String(e.taskID)
    && GetMetadata(o) == Success(NormMetadata(e.metadata))
    && ResultName !in o
  }

  lemma EncodedStatusEvent(e: TaskStatusUpdateEvent)
    ensures EncodeStatusEvent(e).Object? && StatusEventFields(EncodeStatusEvent(e).fields, e)
  {
  }

  ghost predicate ArtifactEventFields(o: Fields, e: TaskArtifactUpdateEvent) {
    && ArtifactName in o && Get(o, ArtifactName) == EncodeArtifact(e.artifact)
    && Get(o, ContextIdName) == String(e.contextID)
    && Get(o, KindName) == String(e.kind) && Get(o, TaskIdName) == String(e.taskID)
    && GetOptBool(o, AppendName) == Success(e.append) && GetOptBool(o, LastChunkName) == Success(e.lastChunk)
    && GetMetadata(o) == Success(NormMetadata(e.metadata))
    && ResultName !in o
  }

  lemma EncodedArtifactEventOptionals(e: TaskArtifactUpdateEvent)
    ensures EncodeArtifactEvent(e).Object?
    ensures var o := EncodeArtifactEvent(e).fields;
      && GetOptBool(o, AppendName) == Success(e.append) && GetOptBool(o, LastChunkName) == Success(e.lastChunk)
      && GetMetadata(o) == Success(NormMetadata(e.metadata)) && ResultName !in o
  {
  }

  lemma EncodedArtifactEvent(e: TaskArtifactUpdateEvent)
    ensures EncodeArtifactEvent(e).Object? && ArtifactEventFields(EncodeArtifactEvent(e).fields, e)
  {
    EncodedArtifactEventOptionals(e);
  }

  // ---------------------------------------------------------------------------------------
  // Decoding such objects

  lemma DecodesMessage(o: Fields, m: Message)
    requires MessageFields(o, m)
    ensures DecodeMessage(Object(o)) == Success(NormMessage(m)) <==> GoodMessage(m)
  {
    RawPartsRoundTrip(o, m.parts);
    assert DecodeMessageBase(o) == Success(NormMessage(m).(parts := None));
  }

  lemma MessageRoundTrip(m: Message)
    ensures DecodeMessage(EncodeMessage(m)) == Success(NormMessage(m)) <==> GoodMessage(m)
  {
    EncodedMessage(m);
    DecodesMessage(EncodeMessage(m).fields, m);
  }

  lemma DecodesArtifact(o: Fields, a: Artifact)
    requires ArtifactFields(o, a)
    ensures DecodeArtifact(Object(o)) == Success(NormArtifact(a)) <==> GoodArtifact(a)
  {
    RawPartsRoundTrip(o, a.parts);
    assert DecodeArtifactBase(o) == Success(NormArtifact(a).(parts := None));
  }

  lemma ArtifactRoundTrip(a: Artifact)
    ensures DecodeArtifact(EncodeArtifact(a)) == Success(NormArtifact(a)) <==> GoodArtifact(a)
  {
    EncodedArtifact(a);
    DecodesArtifact(EncodeArtifact(a).fields, a);
  }

  lemma StatusRoundTrip(o: Fields, s: TaskStatus)
    requires Get(o, StatusName) == EncodeStatus(s)
    ensures GetStatus(o) == Success(NormStatus(s)) <==> GoodStatus(s)
  {
    if s.message.Some? {
      MessageRoundTrip(s.message.value);
    }
  }

  lemma {:induction false} MessagesRoundTrip(ms: seq<Message>, items: seq<JSON>, index: nat)
    requires |items| == |ms| && forall i :: 0 <= i < |ms| ==> items[i] == EncodeMessage(ms[i])
    ensures DecodeMessages(items, index) == Success(NormMessages(ms)) <==> GoodMessages(ms)
    decreases |ms|
  {
    if ms != [] {
      MessageRoundTrip(ms[0]);
      MessagesRoundTrip(ms[1..], items[1..], index + 1);
      SplitMessages(ms);
      ConsEqual(DecodeMessages(items, index), DecodeMessage(items[0]), DecodeMessages(items[1..], index + 1),
                NormMessage(ms[0]), NormMessages(ms[1..]));
    }
  }

  lemma SplitMessages(ms: seq<Message>)
    requires ms != []
    ensures NormMessages(ms) == [NormMessage(ms[0])] + NormMessages(ms[1..])
    ensures GoodMessages(ms) <==> GoodMessage(ms[0]) && GoodMessages(ms[1..])
  {
    assert forall i :: 0 < i < |ms| ==> ms[i] == ms[1..][i - 1];
  }

  lemma {:induction false} ArtifactsRoundTrip(xs: seq<Artifact>, items: seq<JSON>, index: nat)
    requires |items| == |xs| && forall i :: 0 <= i < |xs| ==> items[i] == EncodeArtifact(xs[i])
    ensures DecodeArtifacts(items, index) == Success(NormArtifacts(xs)) <==> GoodArtifacts(xs)
    decreases |xs|
  {
    if xs != [] {
      ArtifactRoundTrip(xs[0]);
      ArtifactsRoundTrip(xs[1..], items[1..], index + 1);
      SplitArtifacts(xs);
      ConsEqual(DecodeArtifacts(items, index), DecodeArtifact(items[0]), DecodeArtifacts(items[1..], index + 1),
                NormArtifact(xs[0]), NormArtifacts(xs[1..]));
    }
  }

  lemma SplitArtifacts(xs: seq<Artifact>)
    requires xs != []
    ensures NormArtifacts(xs) == [NormArtifact(xs[0])] + NormArtifacts(xs[1..])
    ensures GoodArtifacts(xs) <==> GoodArtifact(xs[0]) && GoodArtifacts(xs[1..])
  {
    assert forall i :: 0 < i < |xs| ==> xs[i] == xs[1..][i - 1];
  }

  lemma HistoryRoundTrip(o: Fields, h: Option<seq<Message>>)
    requires Get(o, HistoryName) == OrNull(EncodeMessages(h))
    ensures GetMessages(o) == Success(if h.None? || h.value == [] then None else Some(NormMessages(h.value)))
      <==> (h.Some? ==> GoodMessages(h.value))
  {
    if h.Some? && h.value != [] {
      MessagesRoundTrip(h.value, Get(o, HistoryName).items, 0);
    }
  }

  lemma ArtifactListRoundTrip(o: Fields, xs: Option<seq<Artifact>>)
    requires Get(o, ArtifactsName) == OrNull(EncodeArtifacts(xs))
    ensures GetArtifacts(o) == Success(if xs.None? || xs.value == [] then None else Some(NormArtifacts(xs.value)))
      <==> (xs.Some? ==> GoodArtifacts(xs.value))
  {
    if xs.Some? && xs.value != [] {
      ArtifactsRoundTrip(xs.value, Get(o, ArtifactsName).items, 0);
    }
  }

  lemma DecodesTask(o: Fields, t: Task, order: seq<Name>)
    requires TaskFields(o, t)
    ensures DecodeTask(o, order) == Success(NormTask(t)) <==> GoodTask(t)
  {
    StatusRoundTrip(o, t.status);
    HistoryRoundTrip(o, t.history);
    ArtifactListRoundTrip(o, t.artifacts);
    TaskFromMembers(o, t.contextID, t.id, t.kind, NormTask(t).artifacts, NormTask(t).history,
                    NormTask(t).metadata, NormTask(t).status, order);
  }

  lemma TaskFromMembers(o: Fields, contextID: string, id: string, kind: string,
      artifacts: Option<seq<Artifact>>, history: Option<seq<Message>>, metadata: Metadata, status: TaskStatus,
      order: seq<Name>)
    requires Get(o, ContextIdName) == String(contextID) && Get(o, IdName) == String(id)
    requires Get(o, KindName) == String(kind) && GetMetadata(o) == Success(metadata)
    ensures DecodeTask(o, order) == Success(Task(artifacts, contextID, history, id, kind, metadata, status))
      <==> GetArtifacts(o) == Success(artifacts) && GetMessages(o) == Success(history) && GetStatus(o) == Success(status)
  {
  }

  lemma DecodesStatusEvent(o: Fields, e: TaskStatusUpdateEvent)
    requires StatusEventFields(o, e)
    ensures DecodeStatusEvent(o) == Success(NormEvent(StatusEvent(e)).status) <==> GoodStatus(e.status)
  {
    StatusRoundTrip(o, e.status);
  }

  lemma DecodesArtifactEvent(o: Fields, e: TaskArtifactUpdateEvent)
    requires ArtifactEventFields(o, e)
    ensures DecodeArtifactEvent(o) == Success(NormEvent(ArtifactEvent(e)).artifact) <==> GoodArtifact(e.artifact)
  {
    ArtifactRoundTrip(e.artifact);
  }

  // ---------------------------------------------------------------------------------------
  // Events

  function KindOf(e: Event): string {
    match e
    case MessageEvent(m) => m.kind
    case TaskEvent(t) => t.kind
    case StatusEvent(s) => s.kind
    case ArtifactEvent(a) => a.kind
  }

  ghost predicate EventFields(o: Fields, e: Event) {
    && Get(o, KindName) == String(KindOf(e))
    && ResultName !in o
    && match e
       case MessageEvent(m) => MessageFields(o, m)
       case TaskEvent(t) => TaskFields(o, t)
       case StatusEvent(s) => StatusEventFields(o, s)
       case ArtifactEvent(a) => ArtifactEventFields(o, a)
  }

  lemma EncodedEvent(e: Event)
    ensures EncodeEvent(e).Object? && EventFields(EncodeEvent(e).fields, e)
  {
    match e
    case MessageEvent(m) => EncodedMessage(m);
    case TaskEvent(t) => EncodedTask(t);
    case StatusEvent(s) => EncodedStatusEvent(s);
    case ArtifactEvent(a) => EncodedArtifactEvent(a);
  }

  ghost predicate Decodes(o: Fields, e: Event, order: seq<Name>) {
    && (DecodeEvent(Object(o), order) == Success(NormEvent(e)) <==> GoodEvent(e))
    && (DecodeResult(Object(o), order) == Success(NormEvent(e)) <==> GoodEvent(e) && (e.MessageEvent? || e.TaskEvent?))
  }

  /** What decodes at all is an object, bare or wrapped, and has the constructor that its kind
      member names. */
  lemma ConstructorFollowsKind(j: JSON, order: seq<Name>)
    ensures var r, actual := DecodeEvent(j, order), Unwrap(j);
      r.Success? ==>
        && actual.Object? && Get(actual.fields, KindName).String?
        && var kind := Get(actual.fields, KindName).s;
           match r.value
           case MessageEvent(_) => kind == "message"
           case TaskEvent(_) => kind == "task"
           case StatusEvent(_) => kind == "status-update"
           case ArtifactEvent(_) => kind == "artifact-update"
    ensures var r := DecodeResult(j, order);
      r.Success? ==>
        && j.Object? && Get(j.fields, KindName).String?
        && var kind := Get(j.fields, KindName).s;
           (kind == "message" && r.value.MessageEvent?) || (kind == "task" && r.value.TaskEvent?)
  {
    KindsDiffer();
  }

  lemma DecodesAsMessage(o: Fields, m: Message, order: seq<Name>)
    requires EventFields(o, MessageEvent(m)) && m.kind == KIND_MESSAGE
    ensures Decodes(o, MessageEvent(m), order)
  {
    DecodesMessage(o, m);
  }

  lemma DecodesAsTask(o: Fields, t: Task, order: seq<Name>)
    requires EventFields(o, TaskEvent(t)) && t.kind == KIND_TASK
    ensures Decodes(o, TaskEvent(t), order)
  {
    KindsDiffer();
    DecodesTask(o, t, order);
  }

  lemma DecodesAsStatus(o: Fields, s: TaskStatusUpdateEvent, order: seq<Name>)
    requires EventFields(o, StatusEvent(s)) && s.kind == KIND_STATUS_UPDATE
    ensures Decodes(o, StatusEvent(s), order)
  {
    KindsDiffer();
    ConstructorFollowsKind(Object(o), order);
    DecodesStatusEvent(o, s);
  }

  lemma DecodesAsArtifact(o: Fields, a: TaskArtifactUpdateEvent, order: seq<Name>)
    requires EventFields(o, ArtifactEvent(a)) && a.kind == KIND_ARTIFACT_UPDATE
    ensures Decodes(o, ArtifactEvent(a), order)
  {
    KindsDiffer();
    ConstructorFollowsKind(Object(o), order);
    DecodesArtifactEvent(o, a);
  }

  lemma DecodesEvent(o: Fields, e: Event, order: seq<Name>)
    requires EventFields(o, e)
    ensures Decodes(o, e, order)
  {
    KindsDiffer();
    ConstructorFollowsKind(Object(o), order);
    match e
    case MessageEvent(m) => if m.kind == KIND_MESSAGE { DecodesAsMessage(o, m, order); }
    case TaskEvent(t) => if t.kind == KIND_TASK { DecodesAsTask(o, t, order); }
    case StatusEvent(s) => if s.kind == KIND_STATUS_UPDATE { DecodesAsStatus(o, s, order); }
    case ArtifactEvent(a) => if a.kind == KIND_ARTIFACT_UPDATE { DecodesAsArtifact(o, a, order); }
  }

  /** Decoding the encoding of a streaming event, bare or wrapped in a Result object, gives its
      normal form exactly when the discriminators fit. */
  lemma EventRoundTrip(e: Event, order: seq<Name>)
    ensures DecodeEvent(EncodeEvent(e), order) == Success(NormEvent(e)) <==> GoodEvent(e)
    ensures DecodeEvent(Object(map[ResultName := EncodeEvent(e)]), order) == Success(NormEvent(e)) <==> GoodEvent(e)
  {
    EncodedEvent(e);
    DecodesEvent(EncodeEvent(e).fields, e, order);
    assert Unwrap(Object(map[ResultName := EncodeEvent(e)])) == EncodeEvent(e) == Unwrap(EncodeEvent(e));
  }

  /** The same for the union of a unary reply, which admits only messages and tasks. */
  lemma ResultRoundTrip(e: Event, order: seq<Name>)
    ensures DecodeResult(EncodeEvent(e), order) == Success(NormEvent(e))
      <==> GoodEvent(e) && (e.MessageEvent? || e.TaskEvent?)
  {
    EncodedEvent(e);
    DecodesEvent(EncodeEvent(e).fields, e, order);
  }

  /** Normalising twice is normalising once, and keeps the discriminators. */
  lemma NormIsIdempotent(e: Event)
    ensures NormEvent(NormEvent(e)) == NormEvent(e)
    ensures GoodEvent(NormEvent(e)) <==> GoodEvent(e)
  {
    match e
    case MessageEvent(m) => MessageNorm(m);
    case TaskEvent(t) => TaskNorm(t);
    case StatusEvent(s) => StatusNorm(s.status);
    case ArtifactEvent(a) => PartsNorm(a.artifact.parts);
  }

  lemma PartsNorm(ps: Option<seq<Part>>)
    ensures NormParts(NormParts(PartsOf(ps))) == NormParts(PartsOf(ps))
    ensures GoodParts(NormParts(PartsOf(ps))) <==> GoodParts(PartsOf(ps))
  {
    assert forall i :: 0 <= i < |PartsOf(ps)| ==>
      (GoodPart(NormParts(PartsOf(ps))[i]) <==> GoodPart(PartsOf(ps)[i]));
  }

  lemma MessageNorm(m: Message)
    ensures NormMessage(NormMessage(m)) == NormMessage(m)
    ensures GoodMessage(NormMessage(m)) <==> GoodMessage(m)
  {
    PartsNorm(m.parts);
  }

  lemma StatusNorm(s: TaskStatus)
    ensures NormStatus(NormStatus(s)) == NormStatus(s)
    ensures GoodStatus(NormStatus(s)) <==> GoodStatus(s)
  {
    if s.message.Some? {
      MessageNorm(s.message.value);
    }
  }

  lemma MessagesNorm(ms: seq<Message>)
    ensures NormMessages(NormMessages(ms)) == NormMessages(ms)
    ensures GoodMessages(NormMessages(ms)) <==> GoodMessages(ms)
  {
    forall i | 0 <= i < |ms|
      ensures NormMessage(NormMessages(ms)[i]) == NormMessages(ms)[i]
      ensures GoodMessage(NormMessages(ms)[i]) <==> GoodMessage(ms[i])
    {
      MessageNorm(ms[i]);
    }
  }

  lemma ArtifactsNorm(xs: seq<Artifact>)
    ensures NormArtifacts(NormArtifacts(xs)) == NormArtifacts(xs)
    ensures GoodArtifacts(NormArtifacts(xs)) <==> GoodArtifacts(xs)
  {
    forall i | 0 <= i < |xs|
      ensures NormArtifact(NormArtifacts(xs)[i]) == NormArtifacts(xs)[i]
      ensures GoodArtifact(NormArtifacts(xs)[i]) <==> GoodArtifact(xs[i])
    {
      PartsNorm(xs[i].parts);
    }
  }

  lemma TaskNorm(t: Task)
    ensures NormTask(NormTask(t)) == NormTask(t)
    ensures GoodTask(NormTask(t)) <==> GoodTask(t)
  {
    StatusNorm(t.status);
    if t.history.Some? {
      MessagesNorm(t.history.value);
    }
    if t.artifacts.Some? {
      ArtifactsNorm(t.artifacts.value);
    }
  }
}
