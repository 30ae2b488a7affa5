/** Preparing, parenting and persisting one request's commit (daemon/src/grpc/service.rs). */
module Service {
  import opened Graph
  import opened Json
  import opened Commits
  import opened Dag
  import opened SqliteStore
  import opened Redaction
  import Encoding
  import opened Wrappers

  datatype Config = Config(
    redactionEnabled: bool, maxInlineBytes: nat, compressFrom: nat, patterns: seq<Pattern>)

  /** Code outside the model: the commit hash, the byte digest, and the JSON and text encoders. */
  datatype World = World(hash: Hash, digest: Digest, printJson: Json -> Bytes, encodeText: string -> Bytes)

  /** What the payload lemmas assume of that code: printed JSON parses back, and so does encoded text. */
  ghost predicate PrintsBack(w: World) {
    forall v :: w.printJson(v).json == Some(v)
  }

  ghost predicate ReadsBack(w: World) {
    forall text :: w.encodeText(text).text == text
  }

  /** Everything that is assumed of that code anywhere can hold at once. */
  lemma LawfulWorldExists()
    ensures exists w: World ::
      Injective(w.hash) && Hexadecimal(w.hash) && NeverCollides(w.digest) && PrintsBack(w) && ReadsBack(w)
  {
    Encoding.InjectiveHashExists();
    Encoding.InjectiveDigestExists();
    var hash: Hash :| Injective(hash) && Hexadecimal(hash);
    var digest: Digest :| NeverCollides(digest);
    var w := World(hash, digest, v => Bytes(0, true, "", Some(v)), text => Bytes(|text|, true, text, None));
    assert PrintsBack(w) && ReadsBack(w);
  }

  // ---------------------------------------------------------------- payloads

  function WithData(w: World, p: Payload, data: Bytes): Payload {
    p.(data := data, sizeBytes := data.length, contentHash := w.digest(data))
  }

  /** The bytes `redact_payload` can read: JSON that parses and text that is UTF-8. */
  predicate Readable(p: Payload) {
    (p.encoding.JsonText? && p.data.json.Some?) || (p.encoding.PlainText? && p.data.utf8)
  }

  /** The structured copy that `redact_payload` leaves; it is walked like a JSON object. */
  function RedactedStruct(patterns: seq<Pattern>, fields: Option<map<string, Json>>): Option<map<string, Json>> {
    if fields.Some? then Some(Redact(patterns, Object(fields.value)).fields) else None
  }

  /** The payload `redact_payload` leaves. */
  function RedactedPayload(w: World, patterns: seq<Pattern>, p: Payload): Payload {
    var q := p.(structData := RedactedStruct(patterns, p.structData));
    if !Readable(p) then q
    else if p.encoding.JsonText? then WithData(w, q, w.printJson(Redact(patterns, p.data.json.value)))
    else WithData(w, q, w.encodeText(TextAfter(patterns, |patterns|, p.data.text)))
  }

  /** And the findings it reports: those of the structured copy, then those of the bytes. */
  ghost function PayloadFindings(patterns: seq<Pattern>, p: Payload): seq<Finding> {
    (if p.structData.Some? then FindingsOf(patterns, Object(p.structData.value), []) else [])
    + if !Readable(p) then []
      else if p.encoding.JsonText? then FindingsOf(patterns, p.data.json.value, [])
      else TextFindings(patterns, |patterns|, p.data.text, [])
  }

  /** `redact_payload` */
  method RedactPayload(w: World, patterns: seq<Pattern>, p: Payload) returns (r: Payload, findings: seq<Finding>)
    ensures r == RedactedPayload(w, patterns, p)
    ensures findings == PayloadFindings(patterns, p)
  {
    r, findings := p, [];
    if p.structData.Some? {
      var value;
      value, findings := RedactJson(patterns, Object(p.structData.value), [], []);
      r := r.(structData := Some(value.fields));
    }
    match p.encoding
    case JsonText =>
      if p.data.json.Some? {
        var value;
        value, findings := RedactJson(patterns, p.data.json.value, [], findings);
        r := WithData(w, r, w.printJson(value));
      }
    case PlainText =>
      if p.data.utf8 {
        var text;
        text, findings := RedactText(patterns, p.data.text, [], findings);
        r := WithData(w, r, w.encodeText(text));
      }
    case Opaque =>
  }

  function EmptyPayload(w: World): Payload {
    var data := w.printJson(Object(map[]));
    Payload(JsonText, data, None, data.length, w.digest(data), false, "")
  }

  /** The payload as it is handed to the redactor. */
  function Received(w: World, payload: Option<Payload>): Payload {
    var p := if payload.Some? then payload.value else EmptyPayload(w);
    p.(contentHash := if p.contentHash == "" then w.digest(p.data) else p.contentHash, sizeBytes := p.data.length)
  }

  /** The payload before the size limit is looked at. */
  function Unlimited(w: World, cfg: Config, payload: Option<Payload>): Payload {
    if cfg.redactionEnabled then RedactedPayload(w, cfg.patterns, Received(w, payload)) else Received(w, payload)
  }

  predicate TooLarge(w: World, cfg: Config, payload: Option<Payload>) {
    Unlimited(w, cfg, payload).data.length > cfg.maxInlineBytes
  }

  function ArtifactId(w: World, data: Bytes): string {
    "artifact_" + w.digest(data)
  }

  /** The payload that is stored: over the limit the bytes go to an artifact. */
  function Prepared(w: World, cfg: Config, payload: Option<Payload>): Payload {
    var p := Unlimited(w, cfg, payload);
    if TooLarge(w, cfg, payload) then
      p.(artifactRef := ArtifactId(w, p.data), data := NO_BYTES, sizeBytes := p.data.length,
         compressed := p.data.length >= cfg.compressFrom)
    else p
  }

  /** The artifacts that preparing a payload refers to. */
  function ArtifactRefs(w: World, cfg: Config, payload: Option<Payload>): seq<ArtifactRef> {
    var data := Unlimited(w, cfg, payload).data;
    if TooLarge(w, cfg, payload) then
      [ArtifactRef(ArtifactId(w, data), w.digest(data), data.length, "application/octet-stream",
                   data.length >= cfg.compressFrom)]
    else []
  }

  /** The artifacts stored once it is prepared. */
  function ArtifactsAfter(artifacts: map<string, Bytes>, w: World, cfg: Config, payload: Option<Payload>)
    : map<string, Bytes>
  {
    var data := Unlimited(w, cfg, payload).data;
    if TooLarge(w, cfg, payload) then artifacts[ArtifactId(w, data) := data] else artifacts
  }

  ghost function ReportedFindings(w: World, cfg: Config, payload: Option<Payload>): seq<Finding> {
    if cfg.redactionEnabled then PayloadFindings(cfg.patterns, Received(w, payload)) else []
  }

  /** The findings as a report prints them. */
  function Report(findings: seq<Finding>): (lines: seq<ReportLine>)
    ensures |lines| == |findings|
  {
    seq(|findings|, i requires 0 <= i < |findings| =>
      ReportLine(RenderPath(findings[i].path), findings[i].kind))
  }

  /** `prepare_payload` */
  method PreparePayload(w: World, cfg: Config, store: SqliteStore, payload: Option<Payload>)
    returns (p: Payload, findings: seq<Finding>, refs: seq<ArtifactRef>)
    modifies store`artifacts
    ensures p == Prepared(w, cfg, payload)
    ensures findings == ReportedFindings(w, cfg, payload)
    ensures refs == ArtifactRefs(w, cfg, payload)
    ensures store.artifacts == ArtifactsAfter(old(store.artifacts), w, cfg, payload)
  {
    p := if payload.Some? then payload.value else EmptyPayload(w);
    if p.contentHash == "" {
      p := p.(contentHash := w.digest(p.data));
    }
    p := p.(sizeBytes := p.data.length);
    findings, refs := [], [];
    if cfg.redactionEnabled {
      p, findings := RedactPayload(w, cfg.patterns, p);
    }
    if p.data.length > cfg.maxInlineBytes {
      var bytes := p.data;
      var a := store.PutArtifact(w.digest(bytes), bytes, "application/octet-stream", cfg.compressFrom);
      p := p.(artifactRef := a.id, data := NO_BYTES, sizeBytes := a.sizeBytes, compressed := a.compressed);
      refs := [a];
    }
  }

  /** Every artifact is stored under the digest of its bytes. */
  predicate ArtifactsAddressed(w: World, artifacts: map<string, Bytes>) {
    forall id :: id in artifacts ==> id == ArtifactId(w, artifacts[id])
  }

  /** With digests that do not collide, storing an artifact never changes another one. */
  lemma ArtifactsOnlyGrow(w: World, artifacts: map<string, Bytes>, bytes: Bytes)
    requires NeverCollides(w.digest) && ArtifactsAddressed(w, artifacts)
    ensures var later := artifacts[ArtifactId(w, bytes) := bytes];
            ArtifactsAddressed(w, later) && forall id :: id in artifacts ==> later[id] == artifacts[id]
  {
    var id := ArtifactId(w, bytes);
    if id in artifacts {
      assert id[9..] == w.digest(bytes);
      assert ArtifactId(w, artifacts[id])[9..] == w.digest(artifacts[id]);
    }
  }

  /**
    A JSON payload replays as its value, redacted if redaction is on, when that fits inline, and as its
    hash and size when it does not.
  */
  lemma JsonPayloadReplays(w: World, cfg: Config, p: Payload)
    requires PrintsBack(w) && p.encoding.JsonText? && p.data.json.Some?
    ensures var value := p.data.json.value;
            var kept := if cfg.redactionEnabled then Redact(cfg.patterns, value) else value;
            var bytes := if cfg.redactionEnabled then w.printJson(kept) else p.data;
            var hash := if cfg.redactionEnabled || p.contentHash == "" then w.digest(bytes) else p.contentHash;
            PayloadToJson(Some(Prepared(w, cfg, Some(p)))) ==
              if bytes.length <= cfg.maxInlineBytes then kept
              else Object(map["content_hash" := String(hash), "size_bytes" := Number(PosInt(bytes.length))])
  {
  }

  /**
    A text payload replays as its text, redacted if redaction is on and the text can be read, when that
    fits inline, and as the empty text when it does not.
  */
  lemma TextPayloadReplays(w: World, cfg: Config, p: Payload)
    requires ReadsBack(w) && p.encoding.PlainText?
    ensures var redact := cfg.redactionEnabled && p.data.utf8;
            var kept := if redact then TextAfter(cfg.patterns, |cfg.patterns|, p.data.text) else p.data.text;
            var length := if redact then w.encodeText(kept).length else p.data.length;
            PayloadToJson(Some(Prepared(w, cfg, Some(p)))) == String(if length <= cfg.maxInlineBytes then kept else "")
  {
  }

  /** A request without a payload replays as an empty object, which changes no state, if that fits inline. */
  lemma NoPayloadReplays(w: World, cfg: Config)
    requires PrintsBack(w)
    ensures w.printJson(Object(map[])).length <= cfg.maxInlineBytes ==>
      PayloadToJson(Some(Prepared(w, cfg, None))) == Object(map[])
  {
    assert Redact(cfg.patterns, Object(map[])).fields == map[];
    JsonPayloadReplays(w, cfg, EmptyPayload(w));
  }

  // ---------------------------------------------------------------- what reaches the disk

  /** Bytes over the limit go to one artifact, under their digest, and the payload and the reference say which. */
  lemma LargePayloadIsStored(w: World, cfg: Config, payload: Option<Payload>, artifacts: map<string, Bytes>)
    ensures var bytes := Unlimited(w, cfg, payload).data;
            var p, refs := Prepared(w, cfg, payload), ArtifactRefs(w, cfg, payload);
            var later := ArtifactsAfter(artifacts, w, cfg, payload);
            if bytes.length <= cfg.maxInlineBytes then refs == [] && later == artifacts && p.data == bytes
            else
              && |refs| == 1 && refs[0].id == "artifact_" + w.digest(bytes) && refs[0].contentHash == w.digest(bytes)
              && refs[0].sizeBytes == bytes.length && refs[0].mediaType == "application/octet-stream"
              && (refs[0].compressed <==> bytes.length >= cfg.compressFrom)
              && later == artifacts[refs[0].id := bytes]
              && p.data.length == 0 && p.data.text == "" && p.sizeBytes == bytes.length && p.artifactRef == refs[0].id
              && p.compressed == refs[0].compressed
  {
  }

  /** A stored payload gives the size of its bytes, and their digest unless the client's was kept with its bytes. */
  lemma PreparedNamesItsBytes(w: World, cfg: Config, p: Payload)
    ensures var stored, bytes := Prepared(w, cfg, Some(p)), StoredBytes(w, cfg, Some(p));
            && stored.sizeBytes == bytes.length
            && stored.encoding == p.encoding
            && stored.contentHash ==
                 if (cfg.redactionEnabled && Readable(p)) || p.contentHash == "" then w.digest(bytes)
                 else p.contentHash
  {
  }

  /** Redaction overwrites the secret-named keys of the structured copy, keeps every key, and walks into the others. */
  lemma StructIsRedacted(w: World, cfg: Config, p: Payload, k: string)
    requires p.structData.Some?
    ensures var after := Prepared(w, cfg, Some(p)).structData;
            && after.Some? && after.value.Keys == p.structData.value.Keys
            && (k in p.structData.value ==>
                 after.value[k] ==
                   if !cfg.redactionEnabled then p.structData.value[k]
                   else if HoldsSecretName(k) then String("[REDACTED]")
                   else Redact(cfg.patterns, p.structData.value[k]))
  {
    if k in p.structData.value { MarkedIff(cfg.patterns, p.structData.value, k, []); }
  }

  /** The report lists the findings of the structured copy and then those of the bytes, each with its printed path. */
  lemma ReportLists(w: World, cfg: Config, p: Payload, i: nat)
    ensures !cfg.redactionEnabled ==> ReportedFindings(w, cfg, Some(p)) == []
    ensures cfg.redactionEnabled && p.structData.Some? ==>
      FindingsOf(cfg.patterns, Object(p.structData.value), []) <= ReportedFindings(w, cfg, Some(p))
    ensures cfg.redactionEnabled && p.encoding.JsonText? && p.data.json.Some? ==>
      var own := FindingsOf(cfg.patterns, p.data.json.value, []);
      var all := ReportedFindings(w, cfg, Some(p));
      |own| <= |all| && all[|all| - |own|..] == own && (p.structData.None? ==> all == own)
    ensures cfg.redactionEnabled && p.encoding.PlainText? && p.data.utf8 ==>
      var own := TextFindings(cfg.patterns, |cfg.patterns|, p.data.text, []);
      var all := ReportedFindings(w, cfg, Some(p));
      |own| <= |all| && all[|all| - |own|..] == own && (p.structData.None? ==> all == own)
    ensures !Readable(p) && p.structData.None? ==> ReportedFindings(w, cfg, Some(p)) == []
    ensures var fs := ReportedFindings(w, cfg, Some(p));
            |Report(fs)| == |fs| &&
            (i < |fs| ==> Report(fs)[i].path == RenderPath(fs[i].path) && Report(fs)[i].kind == fs[i].kind)
  {
  }

  /** The bytes a prepared payload leaves on disk, in the commit or as its artifact. */
  function StoredBytes(w: World, cfg: Config, payload: Option<Payload>): Bytes {
    if TooLarge(w, cfg, payload) then
      ArtifactsAfter(map[], w, cfg, payload)[Prepared(w, cfg, payload).artifactRef]
    else Prepared(w, cfg, payload).data
  }

  /**
    With redaction on, what is stored is the redacted content exactly when the bytes can be read as their
    encoding says; opaque bytes, JSON that does not parse and text that is not UTF-8 are stored as they came.
  */
  lemma StoredAsReadable(w: World, cfg: Config, p: Payload)
    requires PrintsBack(w) && ReadsBack(w) && cfg.redactionEnabled
    ensures !Readable(p) ==> StoredBytes(w, cfg, Some(p)) == p.data
    ensures Readable(p) && p.encoding.JsonText? ==>
      var stored := StoredBytes(w, cfg, Some(p)).json;
      stored == Some(Redact(cfg.patterns, p.data.json.value)) && Clean(stored.value)
    ensures Readable(p) && p.encoding.PlainText? ==>
      StoredBytes(w, cfg, Some(p)).text == TextAfter(cfg.patterns, |cfg.patterns|, p.data.text)
  {
    if Readable(p) && p.encoding.JsonText? {
      RedactedIsClean(cfg.patterns, p.data.json.value);
    }
  }

  /** Two payloads that differ only under secret-named keys, in their JSON bytes and their structured copy. */
  ghost predicate DifferInSecrets(a: Payload, b: Payload) {
    && a.encoding.JsonText? && b.encoding.JsonText? && a.data.json.Some? && b.data.json.Some?
    && SameButSecrets(a.data.json.value, b.data.json.value)
    && a.structData.Some? == b.structData.Some?
    && (a.structData.Some? ==> SameButSecrets(Object(a.structData.value), Object(b.structData.value)))
    && a.compressed == b.compressed && a.artifactRef == b.artifactRef
  }

  /**
    With redaction on, nothing that is stored tells such payloads apart: not the payload, not the
    artifacts, and not the commit with its id and its redaction report.
  */
  lemma SecretsAreNotStored(
      w: World, cfg: Config, draft: Body, a: Payload, b: Payload, artifacts: map<string, Bytes>)
    requires cfg.redactionEnabled && DifferInSecrets(a, b)
    ensures Prepared(w, cfg, Some(a)) == Prepared(w, cfg, Some(b))
    ensures ArtifactsAfter(artifacts, w, cfg, Some(a)) == ArtifactsAfter(artifacts, w, cfg, Some(b))
    ensures FromBody(w.hash, Filled(w, cfg, draft, Some(a))) == FromBody(w.hash, Filled(w, cfg, draft, Some(b)))
  {
    SecretsDoNotShow(cfg.patterns, a.data.json.value, b.data.json.value);
    FindingsDoNotShowSecrets(cfg.patterns, a.data.json.value, b.data.json.value, []);
    if a.structData.Some? {
      SecretsDoNotShow(cfg.patterns, Object(a.structData.value), Object(b.structData.value));
      FindingsDoNotShowSecrets(cfg.patterns, Object(a.structData.value), Object(b.structData.value), []);
    }
    assert Unlimited(w, cfg, Some(a)) == Unlimited(w, cfg, Some(b));
  }

  lemma {:induction false} NeedsLetter(s: string, needle: string, letter: char)
    requires letter in needle && letter !in s
    ensures !Contains(s, needle)
    decreases |s|
  {
    if s != [] { NeedsLetter(s[1..], needle, letter); }
  }

  lemma {:induction false} LowerKeepsLowercase(s: string)
    requires forall i :: 0 <= i < |s| ==> !('A' <= s[i] <= 'Z')
    ensures Lower(s) == s
    decreases |s|
  {
    if s != [] { LowerKeepsLowercase(s[1..]); }
  }

  /** Every secret name needs a w, a k, or all of c, r and s. */
  lemma SecretLetters(i: nat)
    requires i < |SECRET_NAMES|
    ensures var name := SECRET_NAMES[i]; 'w' in name || 'k' in name || ('c' in name && 'r' in name && 's' in name)
  {
    assert "password"[4] == 'w' && "token"[2] == 'k' && "api_key"[4] == 'k' && "apikey"[3] == 'k';
    assert "secret"[0] == 's' && "secret"[2] == 'c' && "secret"[3] == 'r';
    assert "private_key"[8] == 'k' && "access_token"[9] == 'k' && "refresh_token"[10] == 'k';
  }

  lemma NotSecret(key: string)
    requires forall i :: 0 <= i < |key| ==> !('A' <= key[i] <= 'Z')
    requires 'w' !in key && 'k' !in key && !('c' in key && 'r' in key && 's' in key)
    ensures !SecretKey(key)
  {
    LowerKeepsLowercase(key);
    forall i | 0 <= i < |SECRET_NAMES| ensures !Contains(key, SECRET_NAMES[i]) {
      SecretLetters(i);
      var name := SECRET_NAMES[i];
      var missing := if 'w' in name then 'w' else if 'k' in name then 'k' else if 'c' !in key then 'c'
                     else if 'r' !in key then 'r' else 's';
      NeedsLetter(key, name, missing);
    }
  }

  lemma ContentHashIsNotSecret()
    ensures !SecretKey("content_hash")
  {
    NotSecret("content_hash");
  }

  lemma SizeBytesIsNotSecret()
    ensures !SecretKey("size_bytes")
  {
    NotSecret("size_bytes");
  }

  lemma ArtifactRefIsNotSecret()
    ensures !SecretKey("artifact_ref")
  {
    NotSecret("artifact_ref");
  }

  predicate Flat(v: Json) {
    !v.Object? && !v.Array?
  }

  lemma FlatFieldsAreClean(a: string, va: Json, b: string, vb: Json, c: string, vc: Json)
    requires !SecretKey(a) && !SecretKey(b) && !SecretKey(c) && Flat(va) && Flat(vb) && Flat(vc)
    ensures Clean(Object(map[a := va, b := vb])) && Clean(Object(map[a := va, b := vb, c := vc]))
  {
  }

  /** What stands in for missing bytes has no secret-named key. */
  lemma PlaceholderIsClean(p: Payload)
    ensures Clean(Placeholder(p))
    ensures p.encoding.Opaque? ==> Clean(PayloadToJson(Some(p)))
  {
    var hash, size, artifact := String(p.contentHash), Number(PosInt(p.sizeBytes)), String(p.artifactRef);
    assert Flat(hash) && Flat(size) && Flat(artifact);
    ContentHashIsNotSecret();
    SizeBytesIsNotSecret();
    ArtifactRefIsNotSecret();
    FlatFieldsAreClean("content_hash", hash, "size_bytes", size, "artifact_ref", artifact);
  }

  lemma UnlimitedReplaysClean(w: World, cfg: Config, payload: Option<Payload>)
    requires PrintsBack(w) && cfg.redactionEnabled
    ensures Clean(PayloadToJson(Some(Unlimited(w, cfg, payload))))
  {
    var p := Received(w, payload);
    PlaceholderIsClean(Unlimited(w, cfg, payload));
    if p.encoding.JsonText? && p.data.json.Some? {
      RedactedIsClean(cfg.patterns, p.data.json.value);
    }
  }

  /** With redaction on, whatever is published replays with every secret-named key marked. */
  lemma PreparedReplaysClean(w: World, cfg: Config, payload: Option<Payload>)
    requires PrintsBack(w) && cfg.redactionEnabled
    ensures Clean(PayloadToJson(Some(Prepared(w, cfg, payload))))
  {
    UnlimitedReplaysClean(w, cfg, payload);
    PlaceholderIsClean(Prepared(w, cfg, payload));
  }

  // ---------------------------------------------------------------- one request

  /** The request's fields with the prepared payload, the artifacts it refers to and the redaction report. */
  ghost function Filled(w: World, cfg: Config, draft: Body, payload: Option<Payload>): Body {
    draft.(delta := Some(Prepared(w, cfg, payload)), artifacts := ArtifactRefs(w, cfg, payload) + draft.artifacts,
           report := Report(ReportedFindings(w, cfg, payload)))
  }

  /** `resolve_parents`: explicit parents as given, else the slot's head, else none. */
  function ParentsFor(heads: map<string, Id>, draft: Body): seq<Id> {
    if draft.parents != [] then draft.parents
    else if SlotOf(draft) in heads then [heads[SlotOf(draft)]]
    else []
  }

  class AppState {
    const store: SqliteStore
    const dag: DagIndex
    const world: World
    const config: Config

    constructor (store: SqliteStore, dag: DagIndex, world: World, config: Config)
      ensures this.store == store && this.dag == dag && this.world == world && this.config == config
    {
      this.store, this.dag, this.world, this.config := store, dag, world, config;
    }

    method ResolveParents(draft: Body) returns (parents: seq<Id>)
      ensures parents == ParentsFor(store.heads, draft)
      ensures draft.parents != [] ==> parents == draft.parents
      ensures draft.parents == [] ==>
        var key := HeadKey(draft.run, draft.thread, draft.agent, draft.channel);
        parents == if key in store.heads then [store.heads[key]] else []
    {
      if draft.parents != [] {
        return draft.parents;
      }
      var head := store.GetHead(draft.run, draft.thread, draft.agent, draft.channel);
      parents := if head.Some? then [head.value] else [];
    }

    /** `persist_commit`: the index first, then the commits table, then the head. */
    method PersistCommit(c: Commit) returns (r: Result<(), DagError>)
      requires dag.Valid()
      modifies store, dag
      ensures dag.Valid()
      ensures match AppendError(old(dag.parents), c.id, c.body.parents)
        case Some(e) => r == Err(e) && dag.parents == old(dag.parents) && store.Contents() == old(store.Contents())
        case None =>
          && r == Ok(())
          && dag.parents == old(dag.parents)[c.id := c.body.parents]
          && store.Contents() ==
               AppendCommit(old(store.Contents()), c).(
                 heads := old(store.heads)[HeadKey(c.body.run, c.body.thread, c.body.agent, c.body.channel) := c.id])
    {
      r := dag.Append(c);
      if r.Err? {
        return;
      }
      store.Append(c);
      store.SetHead(c.body.run, c.body.thread, c.body.agent, c.body.channel, c.id);
    }

    /**
      The durable part of `publish_delta_inner` and `checkpoint_inner`: `draft` carries the request's
      fields and its explicit parents, `payload` what it asked to store. A refused request has still
      stored its artifact.
    */
    method Publish(draft: Body, payload: Option<Payload>) returns (r: Result<Id, DagError>)
      requires dag.Valid()
      modifies store, dag
      ensures dag.Valid()
      ensures var filled := Filled(world, config, draft, payload);
        var c := FromBody(world.hash, filled.(parents := ParentsFor(old(store.heads), draft)));
        var t := old(store.Contents()).(artifacts := ArtifactsAfter(old(store.artifacts), world, config, payload));
        match AppendError(old(dag.parents), c.id, c.body.parents)
        case Some(e) => r == Err(e) && dag.parents == old(dag.parents) && store.Contents() == t
        case None =>
          && r == Ok(c.id)
          && dag.parents == old(dag.parents)[c.id := c.body.parents]
          && store.Contents() == AppendCommit(t, c).(
               heads := t.heads[HeadKey(draft.run, draft.thread, draft.agent, draft.channel) := c.id])
    {
      var prepared, findings, refs := PreparePayload(world, config, store, payload);
      var parents := ResolveParents(draft);
      var filled := draft.(delta := Some(prepared), artifacts := refs + draft.artifacts, report := Report(findings));
      var c := FromBody(world.hash, filled.(parents := parents));
      var done := PersistCommit(c);
      r := match done case Err(e) => Err(e) case Ok(_) => Ok(c.id);
    }
  }
}
