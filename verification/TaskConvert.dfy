/**
 Native <-> protobuf conversion of Part, Message, Artifact and Task (ra2a/src/grpc/convert.rs).
 The proto side has plain strings where the native side has optional ones, so the trip to proto
 and back canonicalises; these lemmas say what it does and that it does nothing else.
 */
module TaskConvert {
  import opened Wrappers
  import opened JsonTree
  import opened Types

  datatype Timestamp = Timestamp(seconds: int, nanos: int)

  /** RFC 3339 text to timestamp and back; the codec itself belongs to chrono. */
  datatype TimeCodec = TimeCodec(parse: string -> Option<Timestamp>, format: Timestamp -> string)

  datatype ProtoContent =
    ProtoText(text: string) | ProtoRaw(bytes: seq<bv8>) | ProtoUrl(url: string) | ProtoData(value: ProstValue)

  datatype ProtoPart = ProtoPart(
    content: Option<ProtoContent>, metadata: Option<Struct>, filename: string, mediaType: string)

  datatype ProtoMessage = ProtoMessage(
    messageId: string, contextId: string, taskId: string, role: Role, parts: seq<ProtoPart>,
    metadata: Option<Struct>, extensions: seq<string>, referenceTaskIds: seq<string>)

  datatype ProtoArtifact = ProtoArtifact(
    artifactId: string, name: string, description: string, parts: seq<ProtoPart>,
    metadata: Option<Struct>, extensions: seq<string>)

  datatype ProtoStatus = ProtoStatus(
    state: TaskState, message: Option<ProtoMessage>, timestamp: Option<Timestamp>)

  datatype ProtoTask = ProtoTask(
    id: string, contextId: string, status: Option<ProtoStatus>, artifacts: seq<ProtoArtifact>,
    history: seq<ProtoMessage>, metadata: Option<Struct>)

  function NoneIfEmpty(s: string): Option<string> {
    if s == "" then None else Some(s)
  }

  function MapOption<A, B>(o: Option<A>, f: A -> B): Option<B> {
    match o case None => None case Some(a) => Some(f(a))
  }

  function MapSeq<A, B>(s: seq<A>, f: A -> B): (r: seq<B>)
    ensures |r| == |s|
    ensures forall i :: 0 <= i < |s| ==> r[i] == f(s[i])
  {
    seq(|s|, i requires 0 <= i < |s| => f(s[i]))
  }

  // ---- To proto ----------------------------------------------------------------------------

  function PartToProto(p: Part): ProtoPart {
    var content := match p.content
      case Text(t) => ProtoText(t)
      case Raw(b) => ProtoRaw(b)
      case Url(u) => ProtoUrl(u)
      case Data(v) => ProtoData(ToProst(v));
    ProtoPart(Some(content), MapOption(p.metadata, MetadataToStruct),
              p.filename.UnwrapOr(""), p.mediaType.UnwrapOr(""))
  }

  function MessageToProto(m: Message): ProtoMessage {
    ProtoMessage(m.id, m.contextId.UnwrapOr(""), m.taskId.UnwrapOr(""), m.role,
                 MapSeq(m.parts, PartToProto), MapOption(m.metadata, MetadataToStruct),
                 m.extensions, m.referenceTaskIds)
  }

  function ArtifactToProto(a: Artifact): ProtoArtifact {
    ProtoArtifact(a.artifactId, a.name.UnwrapOr(""), a.description.UnwrapOr(""),
                  MapSeq(a.parts, PartToProto), MapOption(a.metadata, MetadataToStruct), a.extensions)
  }

  function StatusToProto(s: TaskStatus, codec: TimeCodec): ProtoStatus {
    ProtoStatus(s.state, MapOption(s.message, MessageToProto),
                match s.timestamp case None => None case Some(ts) => codec.parse(ts))
  }

  function TaskToProto(t: Task, codec: TimeCodec): ProtoTask {
    ProtoTask(t.id, t.contextId, Some(StatusToProto(t.status, codec)),
              MapSeq(t.artifacts, ArtifactToProto), MapSeq(t.history, MessageToProto),
              MapOption(t.metadata, MetadataToStruct))
  }

  // ---- From proto --------------------------------------------------------------------------

  function PartFromProto(p: ProtoPart): Part {
    var content := match p.content
      case Some(ProtoText(t)) => Text(t)
      case Some(ProtoRaw(b)) => Raw(b)
      case Some(ProtoUrl(u)) => Url(u)
      case Some(ProtoData(w)) => Data(FromProst(w).UnwrapOr(Null))
      case None => Text("");
    Part(content, MapOption(p.metadata, StructToMetadata), NoneIfEmpty(p.filename), NoneIfEmpty(p.mediaType))
  }

  function MessageFromProto(m: ProtoMessage): Message {
    Message(m.messageId, NoneIfEmpty(m.contextId), NoneIfEmpty(m.taskId), m.role,
            MapSeq(m.parts, PartFromProto), MapOption(m.metadata, StructToMetadata),
            m.extensions, m.referenceTaskIds)
  }

  function ArtifactFromProto(a: ProtoArtifact): Artifact {
    Artifact(a.artifactId, NoneIfEmpty(a.name), NoneIfEmpty(a.description),
             MapSeq(a.parts, PartFromProto), MapOption(a.metadata, StructToMetadata), a.extensions)
  }

  function StatusFromProto(s: ProtoStatus, codec: TimeCodec): TaskStatus {
    TaskStatus(s.state, MapOption(s.message, MessageFromProto), MapOption(s.timestamp, codec.format))
  }

  /** A proto task without status becomes an unspecified one stamped with the current time. */
  function TaskFromProto(t: ProtoTask, codec: TimeCodec, now: string): Task {
    var status := match t.status
      case None => NewStatus(Unspecified, now)
      case Some(s) => StatusFromProto(s, codec);
    Task(t.id, t.contextId, status, MapSeq(t.artifacts, ArtifactFromProto),
         MapSeq(t.history, MessageFromProto), MapOption(t.metadata, StructToMetadata))
  }

  // ---- What the trip does ------------------------------------------------------------------

  function DropEmpty(o: Option<string>): Option<string> {
    if o == Some("") then None else o
  }

  function CanonPart(p: Part): Part {
    p.(content := if p.content.Data? then Data(Norm(p.content.value)) else p.content,
       metadata := MapOption(p.metadata, NormMetadata),
       filename := DropEmpty(p.filename), mediaType := DropEmpty(p.mediaType))
  }

  function CanonMessage(m: Message): Message {
    m.(contextId := DropEmpty(m.contextId), taskId := DropEmpty(m.taskId),
       parts := MapSeq(m.parts, CanonPart), metadata := MapOption(m.metadata, NormMetadata))
  }

  function CanonArtifact(a: Artifact): Artifact {
    a.(name := DropEmpty(a.name), description := DropEmpty(a.description),
       parts := MapSeq(a.parts, CanonPart), metadata := MapOption(a.metadata, NormMetadata))
  }

  /** A timestamp that parses is reprinted; one that does not is dropped. */
  function CanonTime(ts: Option<string>, codec: TimeCodec): Option<string> {
    match ts
    case None => None
    case Some(text) => MapOption(codec.parse(text), codec.format)
  }

  function CanonTask(t: Task, codec: TimeCodec): Task {
    t.(status := TaskStatus(t.status.state, MapOption(t.status.message, CanonMessage),
                            CanonTime(t.status.timestamp, codec)),
       artifacts := MapSeq(t.artifacts, CanonArtifact), history := MapSeq(t.history, CanonMessage),
       metadata := MapOption(t.metadata, NormMetadata))
  }

  lemma OptionalMetadataRoundTrip(m: Option<Metadata>)
    ensures MapOption(MapOption(m, MetadataToStruct), StructToMetadata) == MapOption(m, NormMetadata)
  {
    if m.Some? { MetadataRoundTrip(m.value); }
  }

  lemma PartRoundTrip(p: Part)
    ensures PartFromProto(PartToProto(p)) == CanonPart(p)
  {
    OptionalMetadataRoundTrip(p.metadata);
    if p.content.Data? { JsonRoundTrip(p.content.value); }
  }

  lemma PartsRoundTrip(parts: seq<Part>)
    ensures MapSeq(MapSeq(parts, PartToProto), PartFromProto) == MapSeq(parts, CanonPart)
  {
    forall i | 0 <= i < |parts| ensures PartFromProto(PartToProto(parts[i])) == CanonPart(parts[i]) {
      PartRoundTrip(parts[i]);
    }
  }

  lemma MessageRoundTrip(m: Message)
    ensures MessageFromProto(MessageToProto(m)) == CanonMessage(m)
  {
    OptionalMetadataRoundTrip(m.metadata);
    PartsRoundTrip(m.parts);
  }

  lemma ArtifactRoundTrip(a: Artifact)
    ensures ArtifactFromProto(ArtifactToProto(a)) == CanonArtifact(a)
  {
    OptionalMetadataRoundTrip(a.metadata);
    PartsRoundTrip(a.parts);
  }

  /** Holds for every codec: unparseable timestamps are part of the statement. */
  lemma TaskRoundTrip(t: Task, codec: TimeCodec, now: string)
    ensures TaskFromProto(TaskToProto(t, codec), codec, now) == CanonTask(t, codec)
  {
    OptionalMetadataRoundTrip(t.metadata);
    if t.status.message.Some? { MessageRoundTrip(t.status.message.value); }
    var back := TaskFromProto(TaskToProto(t, codec), codec, now);
    forall i | 0 <= i < |t.artifacts| ensures back.artifacts[i] == CanonArtifact(t.artifacts[i]) {
      ArtifactRoundTrip(t.artifacts[i]);
    }
    forall i | 0 <= i < |t.history| ensures back.history[i] == CanonMessage(t.history[i]) {
      MessageRoundTrip(t.history[i]);
    }
    assert back.artifacts == CanonTask(t, codec).artifacts;
    assert back.history == CanonTask(t, codec).history;
  }

  // ---- What the proto side holds -----------------------------------------------------------

  /** A proto string holds an optional one: its text, or nothing. */
  predicate Holds(text: string, o: Option<string>) {
    text == match o case None => "" case Some(t) => t
  }

  ghost predicate OptionalMirrors(m: Option<Metadata>, s: Option<Struct>) {
    (m.Some? <==> s.Some?) && (m.Some? ==> MetadataMirrors(m.value, s.value))
  }

  ghost predicate ContentMirrors(c: PartContent, w: ProtoContent) {
    match c
    case Text(t) => w == ProtoText(t)
    case Raw(b) => w == ProtoRaw(b)
    case Url(u) => w == ProtoUrl(u)
    case Data(v) => w.ProtoData? && Mirrors(v, w.value)
  }

  ghost predicate PartMirrors(p: Part, w: ProtoPart) {
    && w.content.Some? && ContentMirrors(p.content, w.content.value)
    && OptionalMirrors(p.metadata, w.metadata) && Holds(w.filename, p.filename) && Holds(w.mediaType, p.mediaType)
  }

  ghost predicate PartsMirror(parts: seq<Part>, ws: seq<ProtoPart>) {
    |ws| == |parts| && forall i :: 0 <= i < |parts| ==> PartMirrors(parts[i], ws[i])
  }

  /** Every field of the message in the proto field of the same name. */
  ghost predicate MessageMirrors(m: Message, w: ProtoMessage) {
    && w.messageId == m.id && Holds(w.contextId, m.contextId) && Holds(w.taskId, m.taskId)
    && w.role == m.role && PartsMirror(m.parts, w.parts) && OptionalMirrors(m.metadata, w.metadata)
    && w.extensions == m.extensions && w.referenceTaskIds == m.referenceTaskIds
  }

  ghost predicate ArtifactMirrors(a: Artifact, w: ProtoArtifact) {
    && w.artifactId == a.artifactId && Holds(w.name, a.name) && Holds(w.description, a.description)
    && PartsMirror(a.parts, w.parts) && OptionalMirrors(a.metadata, w.metadata) && w.extensions == a.extensions
  }

  ghost predicate StatusMirrors(s: TaskStatus, w: ProtoStatus, codec: TimeCodec) {
    && w.state == s.state
    && (w.message.Some? <==> s.message.Some?)
    && (s.message.Some? ==> MessageMirrors(s.message.value, w.message.value))
    && w.timestamp == if s.timestamp.Some? then codec.parse(s.timestamp.value) else None
  }

  ghost predicate TaskMirrors(t: Task, w: ProtoTask, codec: TimeCodec) {
    && w.id == t.id && w.contextId == t.contextId
    && w.status.Some? && StatusMirrors(t.status, w.status.value, codec)
    && |w.artifacts| == |t.artifacts| && |w.history| == |t.history|
    && (forall i :: 0 <= i < |t.artifacts| ==> ArtifactMirrors(t.artifacts[i], w.artifacts[i]))
    && (forall i :: 0 <= i < |t.history| ==> MessageMirrors(t.history[i], w.history[i]))
    && OptionalMirrors(t.metadata, w.metadata)
  }

  lemma PartToProtoMirrors(p: Part)
    ensures PartMirrors(p, PartToProto(p))
  {
    if p.metadata.Some? { MetadataToStructMirrors(p.metadata.value); }
    if p.content.Data? { ToProstMirrors(p.content.value); }
  }

  lemma MessageToProtoMirrors(m: Message)
    ensures MessageMirrors(m, MessageToProto(m))
  {
    if m.metadata.Some? { MetadataToStructMirrors(m.metadata.value); }
    forall i | 0 <= i < |m.parts| ensures PartMirrors(m.parts[i], PartToProto(m.parts[i])) {
      PartToProtoMirrors(m.parts[i]);
    }
  }

  lemma ArtifactToProtoMirrors(a: Artifact)
    ensures ArtifactMirrors(a, ArtifactToProto(a))
  {
    if a.metadata.Some? { MetadataToStructMirrors(a.metadata.value); }
    forall i | 0 <= i < |a.parts| ensures PartMirrors(a.parts[i], PartToProto(a.parts[i])) {
      PartToProtoMirrors(a.parts[i]);
    }
  }

  /** The proto task says the same as the native one, field by field and node by node. */
  lemma TaskToProtoMirrors(t: Task, codec: TimeCodec)
    ensures TaskMirrors(t, TaskToProto(t, codec), codec)
  {
    if t.metadata.Some? { MetadataToStructMirrors(t.metadata.value); }
    if t.status.message.Some? { MessageToProtoMirrors(t.status.message.value); }
    forall i | 0 <= i < |t.artifacts| ensures ArtifactMirrors(t.artifacts[i], ArtifactToProto(t.artifacts[i])) {
      ArtifactToProtoMirrors(t.artifacts[i]);
    }
    forall i | 0 <= i < |t.history| ensures MessageMirrors(t.history[i], MessageToProto(t.history[i])) {
      MessageToProtoMirrors(t.history[i]);
    }
  }

  // ---- From proto and back -----------------------------------------------------------------

  /** A part without content is an empty text; data that JSON does not have is null or left out. */
  function CleanPart(w: ProtoPart): ProtoPart {
    w.(content := match w.content
                  case None => Some(ProtoText(""))
                  case Some(ProtoData(v)) => Some(ProtoData(if Convertible(v) then Prune(v) else NullValue(0)))
                  case Some(c) => Some(c),
       metadata := MapOption(w.metadata, PruneStruct))
  }

  function CleanMessage(w: ProtoMessage): ProtoMessage {
    w.(parts := MapSeq(w.parts, CleanPart), metadata := MapOption(w.metadata, PruneStruct))
  }

  function CleanArtifact(w: ProtoArtifact): ProtoArtifact {
    w.(parts := MapSeq(w.parts, CleanPart), metadata := MapOption(w.metadata, PruneStruct))
  }

  /** A time that is printed in a way that does not parse is lost; a missing status becomes the current one. */
  function CleanTask(w: ProtoTask, codec: TimeCodec, now: string): ProtoTask {
    var status := match w.status
      case None => ProtoStatus(Unspecified, None, codec.parse(now))
      case Some(s) =>
        ProtoStatus(s.state, MapOption(s.message, CleanMessage),
                    if s.timestamp.Some? then codec.parse(codec.format(s.timestamp.value)) else None);
    w.(status := Some(status), artifacts := MapSeq(w.artifacts, CleanArtifact),
       history := MapSeq(w.history, CleanMessage), metadata := MapOption(w.metadata, PruneStruct))
  }

  lemma OptionalStructRoundTrip(s: Option<Struct>)
    ensures MapOption(MapOption(s, StructToMetadata), MetadataToStruct) == MapOption(s, PruneStruct)
  {
    if s.Some? { StructRoundTrip(s.value); }
  }

  lemma ProtoPartRoundTrip(w: ProtoPart)
    ensures PartToProto(PartFromProto(w)) == CleanPart(w)
    ensures PartMirrors(PartFromProto(w), CleanPart(w))
  {
    OptionalStructRoundTrip(w.metadata);
    if w.content.Some? && w.content.value.ProtoData? { ProstRoundTrip(w.content.value.value); }
    PartToProtoMirrors(PartFromProto(w));
  }

  lemma ProtoPartsRoundTrip(ws: seq<ProtoPart>)
    ensures MapSeq(MapSeq(ws, PartFromProto), PartToProto) == MapSeq(ws, CleanPart)
  {
    forall i | 0 <= i < |ws| ensures PartToProto(PartFromProto(ws[i])) == CleanPart(ws[i]) {
      ProtoPartRoundTrip(ws[i]);
    }
  }

  lemma ProtoMessageRoundTrip(w: ProtoMessage)
    ensures MessageToProto(MessageFromProto(w)) == CleanMessage(w)
    ensures MessageMirrors(MessageFromProto(w), CleanMessage(w))
  {
    OptionalStructRoundTrip(w.metadata);
    ProtoPartsRoundTrip(w.parts);
    MessageToProtoMirrors(MessageFromProto(w));
  }

  lemma ProtoArtifactRoundTrip(w: ProtoArtifact)
    ensures ArtifactToProto(ArtifactFromProto(w)) == CleanArtifact(w)
    ensures ArtifactMirrors(ArtifactFromProto(w), CleanArtifact(w))
  {
    OptionalStructRoundTrip(w.metadata);
    ProtoPartsRoundTrip(w.parts);
    ArtifactToProtoMirrors(ArtifactFromProto(w));
  }

  /** Any proto task whatsoever: the native one says the same as what of it can be converted. */
  lemma ProtoTaskRoundTrip(w: ProtoTask, codec: TimeCodec, now: string)
    ensures TaskToProto(TaskFromProto(w, codec, now), codec) == CleanTask(w, codec, now)
    ensures TaskMirrors(TaskFromProto(w, codec, now), CleanTask(w, codec, now), codec)
  {
    OptionalStructRoundTrip(w.metadata);
    if w.status.Some? && w.status.value.message.Some? { ProtoMessageRoundTrip(w.status.value.message.value); }
    var back := TaskToProto(TaskFromProto(w, codec, now), codec);
    forall i | 0 <= i < |w.artifacts| ensures back.artifacts[i] == CleanArtifact(w.artifacts[i]) {
      ProtoArtifactRoundTrip(w.artifacts[i]);
    }
    forall i | 0 <= i < |w.history| ensures back.history[i] == CleanMessage(w.history[i]) {
      ProtoMessageRoundTrip(w.history[i]);
    }
    assert back.artifacts == CleanTask(w, codec, now).artifacts;
    assert back.history == CleanTask(w, codec, now).history;
    TaskToProtoMirrors(TaskFromProto(w, codec, now), codec);
  }

  // ---- A second trip changes nothing -------------------------------------------------------

  lemma MetadataIdempotent(m: Option<Metadata>)
    ensures MapOption(MapOption(m, NormMetadata), NormMetadata) == MapOption(m, NormMetadata)
  {
    if m.Some? {
      forall k | k in m.value ensures Norm(Norm(m.value[k])) == Norm(m.value[k]) {
        NormIdempotent(m.value[k]);
      }
      assert NormMetadata(NormMetadata(m.value)) == NormMetadata(m.value);
    }
  }

  lemma PartsIdempotent(parts: seq<Part>)
    ensures MapSeq(MapSeq(parts, CanonPart), CanonPart) == MapSeq(parts, CanonPart)
  {
    forall i | 0 <= i < |parts| ensures CanonPart(CanonPart(parts[i])) == CanonPart(parts[i]) {
      MetadataIdempotent(parts[i].metadata);
      if parts[i].content.Data? { NormIdempotent(parts[i].content.value); }
    }
  }

  lemma MessageIdempotent(m: Message)
    ensures CanonMessage(CanonMessage(m)) == CanonMessage(m)
  {
    MetadataIdempotent(m.metadata);
    PartsIdempotent(m.parts);
  }

  lemma ArtifactIdempotent(a: Artifact)
    ensures CanonArtifact(CanonArtifact(a)) == CanonArtifact(a)
  {
    MetadataIdempotent(a.metadata);
    PartsIdempotent(a.parts);
  }

  /** A second trip of a task changes its timestamp or nothing; it is the identity if reprinting is. */
  lemma SecondTripChangesNothingIff(t: Task, codec: TimeCodec, now: string, later: string)
    ensures var once := TaskFromProto(TaskToProto(t, codec), codec, now);
            var twice := TaskFromProto(TaskToProto(once, codec), codec, later);
            var printed := CanonTime(t.status.timestamp, codec);
            && (twice == once <==> CanonTime(printed, codec) == printed)
            && twice == once.(status := once.status.(timestamp := CanonTime(printed, codec)))
  {
    TaskRoundTrip(t, codec, now);
    var once := CanonTask(t, codec);
    TaskRoundTrip(once, codec, later);
    var twice := CanonTask(once, codec);
    MetadataIdempotent(t.metadata);
    if t.status.message.Some? { MessageIdempotent(t.status.message.value); }
    forall i | 0 <= i < |t.artifacts| ensures twice.artifacts[i] == once.artifacts[i] {
      ArtifactIdempotent(t.artifacts[i]);
    }
    forall i | 0 <= i < |t.history| ensures twice.history[i] == once.history[i] {
      MessageIdempotent(t.history[i]);
    }
    assert twice.artifacts == once.artifacts;
    assert twice.history == once.history;
  }

  /**
   The last hour of the year 9999 in a zone west of Greenwich is in the year 10000 in UTC. It is
   printed with a five-digit year, which RFC 3339 does not have: the second trip loses the timestamp.
   */
  lemma YearTenThousandIsLost(t: Task, codec: TimeCodec, now: string, later: string)
    requires t.status.timestamp == Some("9999-12-31T23:59:59-01:00")
    requires codec.parse("9999-12-31T23:59:59-01:00") == Some(Timestamp(253402304399, 0))
    requires codec.format(Timestamp(253402304399, 0)) == "+10000-01-01T00:59:59+00:00"
    requires codec.parse("+10000-01-01T00:59:59+00:00") == None
    ensures var once := TaskFromProto(TaskToProto(t, codec), codec, now);
            var twice := TaskFromProto(TaskToProto(once, codec), codec, later);
            once.status.timestamp == Some("+10000-01-01T00:59:59+00:00") && twice.status.timestamp == None
  {
    SecondTripChangesNothingIff(t, codec, now, later);
    TaskRoundTrip(t, codec, now);
  }

  // ---- Which values survive unchanged ------------------------------------------------------

  predicate LosslessMetadata(m: Option<Metadata>) {
    m.Some? ==> forall k | k in m.value :: IntegerFree(m.value[k])
  }

  predicate LosslessPart(p: Part) {
    && p.filename != Some("") && p.mediaType != Some("")
    && LosslessMetadata(p.metadata)
    && (p.content.Data? ==> IntegerFree(p.content.value))
  }

  predicate LosslessMessage(m: Message) {
    && m.contextId != Some("") && m.taskId != Some("")
    && LosslessMetadata(m.metadata)
    && forall i | 0 <= i < |m.parts| :: LosslessPart(m.parts[i])
  }

  predicate LosslessArtifact(a: Artifact) {
    && a.name != Some("") && a.description != Some("")
    && LosslessMetadata(a.metadata)
    && forall i | 0 <= i < |a.parts| :: LosslessPart(a.parts[i])
  }

  predicate LosslessStatus(s: TaskStatus, codec: TimeCodec) {
    && (s.message.Some? ==> LosslessMessage(s.message.value))
    && (s.timestamp.Some? ==>
          codec.parse(s.timestamp.value).Some?
          && codec.format(codec.parse(s.timestamp.value).value) == s.timestamp.value)
  }

  predicate LosslessTask(t: Task, codec: TimeCodec) {
    && LosslessStatus(t.status, codec)
    && LosslessMetadata(t.metadata)
    && (forall i | 0 <= i < |t.artifacts| :: LosslessArtifact(t.artifacts[i]))
    && forall i | 0 <= i < |t.history| :: LosslessMessage(t.history[i])
  }

  lemma MetadataLosslessIff(m: Option<Metadata>)
    ensures MapOption(m, NormMetadata) == m <==> LosslessMetadata(m)
  {
    if m.Some? {
      var n := NormMetadata(m.value);
      forall k | k in m.value ensures n[k] == m.value[k] <==> IntegerFree(m.value[k]) {
        JsonRoundTrip(m.value[k]);
        RoundTripLosslessIff(m.value[k]);
      }
      assert n == m.value <==> forall k | k in m.value :: IntegerFree(m.value[k]);
    }
  }

  lemma PartLosslessIff(p: Part)
    ensures PartFromProto(PartToProto(p)) == p <==> LosslessPart(p)
  {
    PartRoundTrip(p);
    MetadataLosslessIff(p.metadata);
    if p.content.Data? {
      JsonRoundTrip(p.content.value);
      RoundTripLosslessIff(p.content.value);
    }
  }

  lemma PartsLosslessIff(parts: seq<Part>)
    ensures MapSeq(parts, CanonPart) == parts <==> forall i | 0 <= i < |parts| :: LosslessPart(parts[i])
  {
    var back := MapSeq(parts, CanonPart);
    forall i | 0 <= i < |parts| ensures back[i] == parts[i] <==> LosslessPart(parts[i]) {
      PartRoundTrip(parts[i]);
      PartLosslessIff(parts[i]);
    }
    assert back == parts <==> forall i | 0 <= i < |parts| :: LosslessPart(parts[i]);
  }

  /** A message comes back unchanged exactly when it has no empty optional string and no integer. */
  lemma MessageLosslessIff(m: Message)
    ensures MessageFromProto(MessageToProto(m)) == m <==> LosslessMessage(m)
  {
    MessageRoundTrip(m);
    MetadataLosslessIff(m.metadata);
    PartsLosslessIff(m.parts);
  }

  lemma ArtifactLosslessIff(a: Artifact)
    ensures ArtifactFromProto(ArtifactToProto(a)) == a <==> LosslessArtifact(a)
  {
    ArtifactRoundTrip(a);
    MetadataLosslessIff(a.metadata);
    PartsLosslessIff(a.parts);
  }

  lemma StatusLosslessIff(s: TaskStatus, codec: TimeCodec)
    ensures TaskStatus(s.state, MapOption(s.message, CanonMessage), CanonTime(s.timestamp, codec)) == s
       <==> LosslessStatus(s, codec)
  {
    if s.message.Some? {
      MessageRoundTrip(s.message.value);
      MessageLosslessIff(s.message.value);
    }
  }

  /** For tasks the timestamp must also be what the codec prints. */
  lemma TaskLosslessIff(t: Task, codec: TimeCodec, now: string)
    ensures TaskFromProto(TaskToProto(t, codec), codec, now) == t <==> LosslessTask(t, codec)
  {
    TaskRoundTrip(t, codec, now);
    MetadataLosslessIff(t.metadata);
    StatusLosslessIff(t.status, codec);
    var artifacts, history := MapSeq(t.artifacts, CanonArtifact), MapSeq(t.history, CanonMessage);
    forall i | 0 <= i < |t.artifacts| ensures artifacts[i] == t.artifacts[i] <==> LosslessArtifact(t.artifacts[i]) {
      ArtifactRoundTrip(t.artifacts[i]);
      ArtifactLosslessIff(t.artifacts[i]);
    }
    forall i | 0 <= i < |t.history| ensures history[i] == t.history[i] <==> LosslessMessage(t.history[i]) {
      MessageRoundTrip(t.history[i]);
      MessageLosslessIff(t.history[i]);
    }
    assert artifacts == t.artifacts <==> forall i | 0 <= i < |t.artifacts| :: LosslessArtifact(t.artifacts[i]);
    assert history == t.history <==> forall i | 0 <= i < |t.history| :: LosslessMessage(t.history[i]);
  }
}
