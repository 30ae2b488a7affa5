/** Commits, their payloads and their content-addressed ids (daemon/src/ledger/commit.rs, diff.rs). */
module Commits {
  import opened Graph
  import opened Json
  import Text
  import opened Wrappers

  const TWO_64: nat := 0x1_0000_0000_0000_0000

  /** Rust's u64. */
  type u64 = n: nat | n < TWO_64

  /** The encodings that replay tells apart; `Opaque` is every other one. */
  datatype Encoding = JsonText | PlainText | Opaque

  /** Stored bytes, by how they are read: their length, whether they are UTF-8, as (lossy) text, and parsed as JSON. */
  datatype Bytes = Bytes(length: nat, utf8: bool, text: string, json: Option<Json>)

  const NO_BYTES := Bytes(0, true, "", None)

  datatype Payload = Payload(
    encoding: Encoding, data: Bytes, structData: Option<map<string, Json>>, sizeBytes: nat, contentHash: string,
    compressed: bool, artifactRef: string)

  /** A tool call and its result; `rest` stands for what nothing here reads. */
  datatype ToolCall = ToolCall(id: string, name: string, rest: string)

  datatype ToolResult = ToolResult(callId: string, error: Option<string>, rest: string)

  datatype ArtifactRef = ArtifactRef(
    id: string, contentHash: string, sizeBytes: nat, mediaType: string, compressed: bool)

  datatype SideEffect = SideEffect(id: string, kind: string, reversible: bool, compensable: bool)

  /** One line of a redaction report: the printed path and the kind of finding. */
  datatype ReportLine = ReportLine(path: string, kind: string)

  /**
    Everything the id of a commit is computed from; `rest` stands for the encoded fields that nothing
    here reads: metadata, nanoseconds, SDK identity and schema version.
  */
  datatype Body = Body(
    deltaId: string, run: string, thread: string, agent: string, channel: string,
    parents: seq<Id>, clock: u64, seconds: Option<int>, objective: string, delta: Option<Payload>,
    toolCalls: seq<ToolCall>, toolResults: seq<ToolResult>, artifacts: seq<ArtifactRef>,
    sideEffects: seq<SideEffect>, report: seq<ReportLine>, summary: string, tags: seq<string>, rest: string)

  datatype Commit = Commit(id: Id, body: Body)

  /** The truncated BLAKE3 hash of an encoded body. */
  type Hash = Body -> string

  ghost predicate Injective(hash: Hash) {
    forall a: Body, b: Body :: hash(a) == hash(b) ==> a == b
  }

  /** It is printed in hexadecimal. */
  ghost predicate Hexadecimal(hash: Hash) {
    forall b: Body, i: nat | i < |hash(b)| :: '0' <= hash(b)[i] <= '9' || 'a' <= hash(b)[i] <= 'f'
  }

  /** The digest that stored bytes are addressed by. */
  type Digest = Bytes -> string

  ghost predicate NeverCollides(digest: Digest) {
    forall a: Bytes, b: Bytes :: digest(a) == digest(b) ==> a == b
  }

  /** `from_delta`: the id is a function of the content, parents included. */
  function FromBody(hash: Hash, body: Body): Commit {
    Commit("c_" + hash(body), body)
  }

  /** `c` carries the id of its own content. */
  predicate WellHashed(hash: Hash, c: Commit) {
    c == FromBody(hash, c.body)
  }

  /** Equal ids mean equal content and equal parents. */
  lemma SameIdSameCommit(hash: Hash, a: Commit, b: Commit)
    requires Injective(hash) && WellHashed(hash, a) && WellHashed(hash, b) && a.id == b.id
    ensures a == b
  {
    assert a.id[2..] == hash(a.body) && b.id[2..] == hash(b.body);
  }

  /** What a payload replays as when its bytes are not there to be read. */
  function Placeholder(p: Payload): Json {
    Object(map["content_hash" := String(p.contentHash), "size_bytes" := Number(PosInt(p.sizeBytes))])
  }

  /** `payload_to_json` */
  function PayloadToJson(payload: Option<Payload>): Json {
    match payload
    case None => Null
    case Some(p) =>
      match p.encoding
      case JsonText => if p.data.json.Some? then p.data.json.value else Placeholder(p)
      case PlainText => String(p.data.text)
      case Opaque =>
        Object(map["content_hash" := String(p.contentHash), "size_bytes" := Number(PosInt(p.sizeBytes)),
                   "artifact_ref" := String(p.artifactRef)])
  }

  /** What replay merges for a commit. */
  function DeltaOf(c: Commit): Json {
    PayloadToJson(c.body.delta)
  }

  /** What replay merges, by encoding; for bytes that are not there stands what is known of them. */
  lemma DeltaByEncoding(c: Commit, p: Payload)
    requires c.body.delta == Some(p)
    ensures p.encoding.JsonText? && p.data.json.Some? ==> DeltaOf(c) == p.data.json.value
    ensures p.encoding.PlainText? ==> DeltaOf(c) == String(p.data.text)
    ensures p.encoding.Opaque? || (p.encoding.JsonText? && p.data.json.None?) ==>
      && DeltaOf(c).Object?
      && DeltaOf(c).fields.Keys ==
           {"content_hash", "size_bytes"} + (if p.encoding.Opaque? then {"artifact_ref"} else {})
      && DeltaOf(c).fields["content_hash"] == String(p.contentHash)
      && DeltaOf(c).fields["size_bytes"] == Number(PosInt(p.sizeBytes))
      && (p.encoding.Opaque? ==> DeltaOf(c).fields["artifact_ref"] == String(p.artifactRef))
  {
  }

  // ---------------------------------------------------------------- slots

  /** `head_key`: the key of the head slot of a run, thread, agent and channel. */
  function HeadKey(run: string, thread: string, agent: string, channel: string): string {
    Text.Join([run, thread, agent, channel], '\U{1f}')
  }

  function SlotOf(b: Body): string {
    HeadKey(b.run, b.thread, b.agent, b.channel)
  }

  /** A slot key can be read back exactly when none of the four names holds the separator. */
  lemma HeadKeyReadsBack(run: string, thread: string, agent: string, channel: string)
    ensures Text.Split(HeadKey(run, thread, agent, channel), '\U{1f}') == [run, thread, agent, channel]
       <==> '\U{1f}' !in run && '\U{1f}' !in thread && '\U{1f}' !in agent && '\U{1f}' !in channel
  {
    var parts := [run, thread, agent, channel];
    Text.SplitJoin(parts, '\U{1f}');
    assert parts[0] == run && parts[1] == thread && parts[2] == agent && parts[3] == channel;
  }

  /** With the separator in a name, two different slots share a key. */
  lemma HeadKeyCollides()
    ensures HeadKey("r\U{1f}t", "a", "b", "c") == HeadKey("r", "t\U{1f}a", "b", "c")
  {
    var u := '\U{1f}';
    assert Text.Join(["b", "c"], u) == "b" + [u] + Text.Join(["c"], u);
    assert Text.Join(["a", "b", "c"], u) == "a" + [u] + Text.Join(["b", "c"], u);
    assert Text.Join(["t\U{1f}a", "b", "c"], u) == "t\U{1f}a" + [u] + Text.Join(["b", "c"], u);
  }
}
