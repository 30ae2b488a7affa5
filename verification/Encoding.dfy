/** Commits can be encoded without collision, so a hash as assumed exists (daemon/src/ledger/commit.rs). */
module Encoding {
  import opened Json
  import opened Commits
  import opened Seqs
  import opened Wrappers

  // ---------------------------------------------------------------- lists of strings as one string

  /** `s` with every character announced and its end marked. */
  function Seal(s: string): string {
    if s == [] then ['0'] else ['1', s[0]] + Seal(s[1..])
  }

  function Pack(parts: seq<string>): string {
    if parts == [] then [] else Seal(parts[0]) + Pack(parts[1..])
  }

  lemma {:induction false} SealPrefix(p: string, a: string, q: string, b: string)
    requires Seal(p) + a == Seal(q) + b
    ensures p == q && a == b
    decreases |p|
  {
    var whole := Seal(p) + a;
    if p == [] || q == [] {
      assert whole[0] == (if p == [] then '0' else '1') && whole[0] == (if q == [] then '0' else '1');
      assert a == whole[1..] && b == whole[1..];
    } else {
      assert whole[1] == p[0] && whole[1] == q[0];
      assert whole[2..] == Seal(p[1..]) + a && whole[2..] == Seal(q[1..]) + b;
      SealPrefix(p[1..], a, q[1..], b);
    }
  }

  lemma {:induction false} PackInjective(a: seq<string>, b: seq<string>)
    requires Pack(a) == Pack(b)
    ensures a == b
    decreases |a|
  {
    if a != [] && b != [] {
      SealPrefix(a[0], Pack(a[1..]), b[0], Pack(b[1..]));
      PackInjective(a[1..], b[1..]);
    }
  }

  // ---------------------------------------------------------------- numbers

  function Ones(n: nat): (s: string)
    ensures |s| == n
  {
    seq(n, i => '1')
  }

  function OfInt(n: int): string {
    if n >= 0 then "+" + Ones(n) else "-" + Ones(-n)
  }

  lemma IntInjective(a: int, b: int)
    requires OfInt(a) == OfInt(b)
    ensures a == b
  {
    assert OfInt(a)[0] == OfInt(b)[0] && |OfInt(a)| == |OfInt(b)|;
  }

  function OfBool(b: bool): string {
    if b then "t" else "f"
  }

  // ---------------------------------------------------------------- JSON

  function NumParts(n: Num): seq<string> {
    match n
    case PosInt(p) => ["p", OfInt(p)]
    case NegInt(m) => ["n", OfInt(m)]
    case Float(m, e) => ["f", OfInt(m), OfInt(e)]
  }

  lemma NumInjective(a: Num, b: Num)
    requires Pack(NumParts(a)) == Pack(NumParts(b))
    ensures a == b
  {
    var pa, pb := NumParts(a), NumParts(b);
    PackInjective(pa, pb);
    assert pa[0] == pb[0] && pa[1] == pb[1];
    match a
    case PosInt(p) => IntInjective(p, b.pos);
    case NegInt(m) => IntInjective(m, b.neg);
    case Float(m, e) =>
      assert pa[2] == pb[2];
      IntInjective(m, b.mantissa);
      IntInjective(e, b.exponent);
  }

  /** The parts of a value: which kind it is, then its content. */
  ghost function Parts(v: Json): (ps: seq<string>)
    ensures ps != []
    decreases v
  {
    match v
    case Null => ["null"]
    case Bool(b) => ["bool", OfBool(b)]
    case Number(n) => ["number", Pack(NumParts(n))]
    case String(s) => ["string", s]
    case Array(items) =>
      ["array", Pack(seq(|items|, i requires 0 <= i < |items| => Pack(Parts(items[i]))))]
    case Object(fields) =>
      var ks := KeysInOrder(fields.Keys);
      assert forall i :: 0 <= i < |ks| ==> ks[i] in Elems(ks);
      ["object", Pack(ks), Pack(seq(|ks|, i requires 0 <= i < |ks| => Pack(Parts(fields[ks[i]]))))]
  }

  lemma {:induction false} JsonInjective(a: Json, b: Json)
    requires Pack(Parts(a)) == Pack(Parts(b))
    ensures a == b
    decreases a
  {
    PackInjective(Parts(a), Parts(b));
    assert Parts(a)[0] == Parts(b)[0];
    match a
    case Null =>
    case Bool(_) =>
    case Number(n) => NumInjective(n, b.num);
    case String(_) =>
    case Array(_) => ItemsInjective(a, b);
    case Object(_) => FieldsInjective(a, b);
  }

  lemma {:induction false} ItemsInjective(a: Json, b: Json)
    requires a.Array? && b.Array? && Parts(a) == Parts(b)
    ensures a.items == b.items
    decreases a, 0
  {
    var xs, ys := a.items, b.items;
    var px := seq(|xs|, i requires 0 <= i < |xs| => Pack(Parts(xs[i])));
    var py := seq(|ys|, i requires 0 <= i < |ys| => Pack(Parts(ys[i])));
    assert Parts(a)[1] == Pack(px) && Parts(b)[1] == Pack(py);
    PackInjective(px, py);
    forall i | 0 <= i < |xs| ensures xs[i] == ys[i] {
      assert px[i] == py[i];
      JsonInjective(xs[i], ys[i]);
    }
  }

  /** The encoded values of an object, in the order of its keys. */
  ghost function FieldParts(fields: map<string, Json>, ks: seq<string>): (ps: seq<string>)
    requires Elems(ks) == fields.Keys
    ensures |ps| == |ks|
    ensures forall i :: 0 <= i < |ks| ==> ks[i] in fields && ps[i] == Pack(Parts(fields[ks[i]]))
  {
    assert forall i :: 0 <= i < |ks| ==> ks[i] in Elems(ks);
    seq(|ks|, i requires 0 <= i < |ks| => Pack(Parts(fields[ks[i]])))
  }

  lemma {:induction false} FieldsInjective(a: Json, b: Json)
    requires a.Object? && b.Object? && Parts(a) == Parts(b)
    ensures a.fields == b.fields
    decreases a, 0
  {
    var ka, kb := KeysInOrder(a.fields.Keys), KeysInOrder(b.fields.Keys);
    var pa, pb := FieldParts(a.fields, ka), FieldParts(b.fields, kb);
    assert Parts(a)[1] == Pack(ka) && Parts(b)[1] == Pack(kb);
    assert Parts(a)[2] == Pack(pa) && Parts(b)[2] == Pack(pb);
    PackInjective(ka, kb);
    PackInjective(pa, pb);
    forall k | k in a.fields ensures a.fields[k] == b.fields[k] {
      assert k in Elems(ka);
      var i :| 0 <= i < |ka| && ka[i] == k;
      assert pa[i] == pb[i];
      JsonInjective(a.fields[k], b.fields[k]);
    }
  }

  // ---------------------------------------------------------------- payloads and bodies

  ghost function OfBytes(b: Bytes): seq<string> {
    [OfInt(b.length), OfBool(b.utf8), b.text, if b.json.Some? then "+" + Pack(Parts(b.json.value)) else "-"]
  }

  lemma BytesInjective(a: Bytes, b: Bytes)
    requires OfBytes(a) == OfBytes(b)
    ensures a == b
  {
    var pa, pb := OfBytes(a), OfBytes(b);
    assert pa[0] == pb[0] && pa[1] == pb[1] && pa[2] == pb[2] && pa[3] == pb[3];
    IntInjective(a.length, b.length);
    assert pa[3][0] == pb[3][0] && pa[3][1..] == pb[3][1..];
    if a.json.Some? {
      JsonInjective(a.json.value, b.json.value);
    }
  }

  ghost function OfPayload(p: Option<Payload>): seq<string> {
    match p
    case None => []
    case Some(p) =>
      [match p.encoding case JsonText => "json" case PlainText => "text" case Opaque => "opaque",
       Pack(OfBytes(p.data)), OfInt(p.sizeBytes), p.contentHash, OfBool(p.compressed), p.artifactRef,
       if p.structData.Some? then "+" + Pack(Parts(Object(p.structData.value))) else "-"]
  }

  lemma PayloadInjective(a: Option<Payload>, b: Option<Payload>)
    requires OfPayload(a) == OfPayload(b)
    ensures a == b
  {
    var pa, pb := OfPayload(a), OfPayload(b);
    if a.Some? {
      assert pa[0] == pb[0] && pa[1] == pb[1] && pa[2] == pb[2] && pa[3] == pb[3];
      assert pa[4] == pb[4] && pa[5] == pb[5] && pa[6] == pb[6];
      assert pa[6][0] == pb[6][0] && pa[6][1..] == pb[6][1..];
      PackInjective(OfBytes(a.value.data), OfBytes(b.value.data));
      BytesInjective(a.value.data, b.value.data);
      IntInjective(a.value.sizeBytes, b.value.sizeBytes);
      if a.value.structData.Some? {
        JsonInjective(Object(a.value.structData.value), Object(b.value.structData.value));
      }
    }
  }

  function OfOption(x: Option<string>): string {
    if x.Some? then "+" + x.value else "-"
  }

  function OfCall(c: ToolCall): seq<string> {
    [c.id, c.name, c.rest]
  }

  function OfResult(r: ToolResult): seq<string> {
    [r.callId, OfOption(r.error), r.rest]
  }

  function OfRef(a: ArtifactRef): seq<string> {
    [a.id, a.contentHash, OfInt(a.sizeBytes), a.mediaType, OfBool(a.compressed)]
  }

  function OfEffect(e: SideEffect): seq<string> {
    [e.id, e.kind, OfBool(e.reversible), OfBool(e.compensable)]
  }

  function OfLine(l: ReportLine): seq<string> {
    [l.path, l.kind]
  }

  /** Encodings that tell records apart. */
  ghost predicate Apart<T(!new)>(f: T -> seq<string>) {
    forall a, b :: f(a) == f(b) ==> a == b
  }

  lemma RecordsApart()
    ensures Apart(OfCall) && Apart(OfResult) && Apart(OfRef) && Apart(OfEffect) && Apart(OfLine)
  {
    forall a, b | OfCall(a) == OfCall(b) ensures a == b {
      var x, y := OfCall(a), OfCall(b);
      assert x[0] == y[0] && x[1] == y[1] && x[2] == y[2];
    }
    forall a, b | OfResult(a) == OfResult(b) ensures a == b {
      var x, y := OfResult(a), OfResult(b);
      assert x[0] == y[0] && x[1] == y[1] && x[2] == y[2];
      assert x[1][0] == y[1][0] && x[1][1..] == y[1][1..];
    }
    forall a, b | OfRef(a) == OfRef(b) ensures a == b {
      var x, y := OfRef(a), OfRef(b);
      assert x[0] == y[0] && x[1] == y[1] && x[2] == y[2] && x[3] == y[3] && x[4] == y[4];
      IntInjective(a.sizeBytes, b.sizeBytes);
    }
    forall a, b | OfEffect(a) == OfEffect(b) ensures a == b {
      var x, y := OfEffect(a), OfEffect(b);
      assert x[0] == y[0] && x[1] == y[1] && x[2] == y[2] && x[3] == y[3];
    }
    forall a, b | OfLine(a) == OfLine(b) ensures a == b {
      var x, y := OfLine(a), OfLine(b);
      assert x[0] == y[0] && x[1] == y[1];
    }
  }

  function OfEach<T>(f: T -> seq<string>, s: seq<T>): seq<string> {
    seq(|s|, i requires 0 <= i < |s| => Pack(f(s[i])))
  }

  lemma EachInjective<T(!new)>(f: T -> seq<string>, a: seq<T>, b: seq<T>)
    requires Apart(f) && OfEach(f, a) == OfEach(f, b)
    ensures a == b
  {
    forall i | 0 <= i < |a| ensures a[i] == b[i] {
      assert OfEach(f, a)[i] == OfEach(f, b)[i];
      PackInjective(f(a[i]), f(b[i]));
    }
  }

  /** The fields of a body that are plain strings or numbers. */
  function Scalars(b: Body): seq<string> {
    [b.deltaId, b.run, b.thread, b.agent, b.channel, OfInt(b.clock),
     if b.seconds.Some? then OfInt(b.seconds.value) else "", b.objective, b.summary, b.rest]
  }

  /** The fields of a body that are lists. */
  ghost function FieldLists(b: Body): seq<seq<string>> {
    [b.parents, OfEach(OfCall, b.toolCalls), OfEach(OfResult, b.toolResults), OfEach(OfRef, b.artifacts), b.tags,
     OfEach(OfEffect, b.sideEffects), OfEach(OfLine, b.report), OfPayload(b.delta)]
  }

  function PackAll(lists: seq<seq<string>>): seq<string> {
    seq(|lists|, i requires 0 <= i < |lists| => Pack(lists[i]))
  }

  lemma PackAllInjective(a: seq<seq<string>>, b: seq<seq<string>>)
    requires PackAll(a) == PackAll(b)
    ensures a == b
  {
    forall i | 0 <= i < |a| ensures a[i] == b[i] {
      assert PackAll(a)[i] == PackAll(b)[i];
      PackInjective(a[i], b[i]);
    }
  }

  ghost function OfBody(b: Body): string {
    Pack([Pack(Scalars(b)), Pack(PackAll(FieldLists(b)))])
  }

  lemma ScalarsInjective(a: Body, b: Body)
    requires Scalars(a) == Scalars(b)
    ensures a.deltaId == b.deltaId && a.run == b.run && a.thread == b.thread
    ensures a.agent == b.agent && a.channel == b.channel
    ensures a.clock == b.clock && a.seconds == b.seconds
    ensures a.objective == b.objective && a.summary == b.summary && a.rest == b.rest
  {
    var x, y := Scalars(a), Scalars(b);
    assert x[0] == y[0] && x[1] == y[1] && x[2] == y[2] && x[3] == y[3] && x[4] == y[4];
    assert x[5] == y[5] && x[6] == y[6] && x[7] == y[7] && x[8] == y[8] && x[9] == y[9];
    IntInjective(a.clock, b.clock);
    if a.seconds.Some? && b.seconds.Some? {
      IntInjective(a.seconds.value, b.seconds.value);
    }
  }

  lemma FieldListsInjective(a: Body, b: Body)
    requires FieldLists(a) == FieldLists(b)
    ensures a.parents == b.parents && a.toolCalls == b.toolCalls && a.toolResults == b.toolResults
    ensures a.artifacts == b.artifacts && a.tags == b.tags && a.sideEffects == b.sideEffects
    ensures a.report == b.report && a.delta == b.delta
  {
    var x, y := FieldLists(a), FieldLists(b);
    assert x[0] == y[0] && x[1] == y[1] && x[2] == y[2] && x[3] == y[3];
    assert x[4] == y[4] && x[5] == y[5] && x[6] == y[6] && x[7] == y[7];
    RecordsApart();
    EachInjective(OfCall, a.toolCalls, b.toolCalls);
    EachInjective(OfResult, a.toolResults, b.toolResults);
    EachInjective(OfRef, a.artifacts, b.artifacts);
    EachInjective(OfEffect, a.sideEffects, b.sideEffects);
    EachInjective(OfLine, a.report, b.report);
    PayloadInjective(a.delta, b.delta);
  }

  /** Different bodies have different encodings. */
  lemma BodyInjective(a: Body, b: Body)
    requires OfBody(a) == OfBody(b)
    ensures a == b
  {
    var x, y := [Pack(Scalars(a)), Pack(PackAll(FieldLists(a)))], [Pack(Scalars(b)), Pack(PackAll(FieldLists(b)))];
    PackInjective(x, y);
    assert x[0] == y[0] && x[1] == y[1];
    PackInjective(Scalars(a), Scalars(b));
    PackInjective(PackAll(FieldLists(a)), PackAll(FieldLists(b)));
    PackAllInjective(FieldLists(a), FieldLists(b));
    ScalarsInjective(a, b);
    FieldListsInjective(a, b);
  }

  // ---------------------------------------------------------------- what may be assumed

  /** `s` written in ones and zeros: the code of each character, and a zero after it. */
  function Bits(s: string): (r: string)
    ensures s != [] ==> r != []
  {
    if s == [] then [] else Ones(s[0] as int) + "0" + Bits(s[1..])
  }

  lemma OnesPrefix(m: nat, x: string, n: nat, y: string)
    requires Ones(m) + "0" + x == Ones(n) + "0" + y
    ensures m == n && x == y
  {
    var whole := Ones(m) + "0" + x;
    assert whole[m] == '0' && forall i :: 0 <= i < m ==> whole[i] == '1';
    assert whole == Ones(n) + "0" + y;
    assert whole[n] == '0' && forall i :: 0 <= i < n ==> whole[i] == '1';
    assert whole[m + 1..] == x && whole[n + 1..] == y;
  }

  lemma {:induction false} BitsInjective(a: string, b: string)
    requires Bits(a) == Bits(b)
    ensures a == b
    decreases |a|
  {
    if a != [] && b != [] {
      OnesPrefix(a[0] as int, Bits(a[1..]), b[0] as int, Bits(b[1..]));
      BitsInjective(a[1..], b[1..]);
      assert a == [a[0]] + a[1..] && b == [b[0]] + b[1..];
    }
  }

  lemma {:induction false} BitsAreDigits(s: string)
    ensures forall i :: 0 <= i < |Bits(s)| ==> Bits(s)[i] == '0' || Bits(s)[i] == '1'
    decreases |s|
  {
    if s != [] { BitsAreDigits(s[1..]); }
  }

  /** A hexadecimal hash that never collides exists, so the lemmas that assume one are about something. */
  lemma InjectiveHashExists()
    ensures exists hash: Hash :: Injective(hash) && Hexadecimal(hash)
  {
    ghost var hash: Hash := b => Bits(OfBody(b));
    forall a, b | hash(a) == hash(b) ensures a == b {
      BitsInjective(OfBody(a), OfBody(b));
      BodyInjective(a, b);
    }
    forall b: Body, i: nat | i < |hash(b)| ensures hash(b)[i] == '0' || hash(b)[i] == '1' {
      BitsAreDigits(OfBody(b));
    }
    assert Injective(hash) && Hexadecimal(hash);
  }

  /** And so does a digest of bytes that never collides. */
  lemma InjectiveDigestExists()
    ensures exists digest: Digest :: NeverCollides(digest)
  {
    ghost var digest: Digest := b => Pack(OfBytes(b));
    forall a, b | digest(a) == digest(b) ensures a == b {
      PackInjective(OfBytes(a), OfBytes(b));
      BytesInjective(a, b);
    }
    assert NeverCollides(digest);
  }
}
