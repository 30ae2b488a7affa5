/** Redaction of JSON payloads before they are stored (daemon/src/security/redaction.rs). */
module Redaction {
  import opened Json
  import opened DeepMerge
  import opened Seqs
  import Text

  const MARKER := "[REDACTED]"

  /** A named secret pattern; the regular expression is left abstract as its `replace_all`. */
  datatype Pattern = Pattern(name: string, replace: string -> string)

  datatype Step = Key(key: string) | Index(index: nat)

  datatype Finding = Finding(path: seq<Step>, kind: string)

  /** A path as it is printed. */
  function RenderPath(path: seq<Step>): string {
    if path == [] then "$"
    else
      RenderPath(path[..|path| - 1]) +
        match path[|path| - 1]
        case Key(k) => "." + k
        case Index(i) => "[" + Text.Decimal(i) + "]"
  }

  // ---------------------------------------------------------------- secret key names

  function LowerChar(c: char): char {
    if 'A' <= c <= 'Z' then ((c as int) + 32) as char else c
  }

  /** `to_ascii_lowercase` */
  function Lower(s: string): string {
    if s == [] then [] else [LowerChar(s[0])] + Lower(s[1..])
  }

  predicate Contains(s: string, needle: string) {
    needle <= s || (s != [] && Contains(s[1..], needle))
  }

  const SECRET_NAMES := [
    "password", "token", "api_key", "apikey", "secret", "private_key", "access_token", "refresh_token"]

  /** `secret_key_name` */
  predicate SecretKey(key: string) {
    exists i :: 0 <= i < |SECRET_NAMES| && Contains(Lower(key), SECRET_NAMES[i])
  }

  predicate FoundAt(s: string, needle: string, i: nat) {
    i + |needle| <= |s| && s[i..i + |needle|] == needle
  }

  lemma {:induction false} ContainsIff(s: string, needle: string)
    ensures Contains(s, needle) <==> exists i: nat :: FoundAt(s, needle, i)
    decreases |s|
  {
    if needle <= s {
      assert FoundAt(s, needle, 0);
    }
    if s != [] {
      ContainsIff(s[1..], needle);
      forall i: nat ensures FoundAt(s[1..], needle, i) <==> FoundAt(s, needle, i + 1) {
        if i + 1 + |needle| <= |s| { assert s[1..][i..i + |needle|] == s[i + 1..i + 1 + |needle|]; }
      }
      if i: nat :| FoundAt(s, needle, i) {
        if i > 0 { assert FoundAt(s[1..], needle, i - 1); }
      }
    }
  }

  /** `x` is the lower-case name `n`, with any of its letters in upper case. */
  predicate UpToCase(x: string, n: string) {
    |x| == |n| && forall i :: 0 <= i < |x| ==>
      if 'A' <= x[i] <= 'Z' then n[i] as int == x[i] as int + 32 else x[i] == n[i]
  }

  lemma {:induction false} LowerPointwise(s: string)
    ensures |Lower(s)| == |s| && forall i :: 0 <= i < |s| ==> Lower(s)[i] == LowerChar(s[i])
    decreases |s|
  {
    if s != [] { LowerPointwise(s[1..]); }
  }

  lemma UpToCaseIffLower(x: string, n: string)
    ensures UpToCase(x, n) <==> Lower(x) == n
  {
    LowerPointwise(x);
    if |x| == |n| && UpToCase(x, n) {
      forall i | 0 <= i < |x| ensures Lower(x)[i] == n[i] {
        assert LowerChar(x[i]) as int == n[i] as int;
      }
    }
  }

  lemma LowerOfSlice(s: string, i: nat, j: nat)
    requires i <= j <= |s|
    ensures |Lower(s)| == |s| && Lower(s)[i..j] == Lower(s[i..j])
  {
    LowerPointwise(s);
    LowerPointwise(s[i..j]);
    forall k | 0 <= k < j - i ensures Lower(s)[i..j][k] == Lower(s[i..j])[k] {
      assert s[i..j][k] == s[i + k];
    }
  }

  lemma FoundThenSplit(key: string, n: string, i: nat) returns (a: string, x: string, b: string)
    requires FoundAt(Lower(key), n, i)
    ensures key == a + x + b && UpToCase(x, n)
  {
    LowerOfSlice(key, 0, 0);
    LowerOfSlice(key, i, i + |n|);
    a, x, b := key[..i], key[i..i + |n|], key[i + |n|..];
    UpToCaseIffLower(x, n);
    SplitInThree(key, i, i + |n|);
  }

  lemma SplitInThree(s: string, i: nat, j: nat)
    requires i <= j <= |s|
    ensures s == s[..i] + s[i..j] + s[j..]
  {
  }

  lemma SplitThenFound(a: string, x: string, b: string, n: string)
    requires UpToCase(x, n)
    ensures FoundAt(Lower(a + x + b), n, |a|)
  {
    LowerOfSlice(a + x + b, |a|, |a| + |x|);
    assert (a + x + b)[|a|..|a| + |x|] == x;
    UpToCaseIffLower(x, n);
  }

  lemma LowerContainsIff(key: string, n: string)
    ensures Contains(Lower(key), n) <==> exists a, x, b :: key == a + x + b && UpToCase(x, n)
  {
    ContainsIff(Lower(key), n);
    if i: nat :| FoundAt(Lower(key), n, i) {
      var a, x, b := FoundThenSplit(key, n, i);
      assert key == a + x + b;
    }
    forall a, x, b | key == a + x + b && UpToCase(x, n) ensures FoundAt(Lower(key), n, |a|) {
      SplitThenFound(a, x, b, n);
    }
  }

  /** One of the eight names of secrets stands somewhere in the key, in any case. */
  ghost predicate HoldsSecretName(key: string) {
    exists a, x, b ::
      && key == a + x + b
      && (UpToCase(x, "password") || UpToCase(x, "token") || UpToCase(x, "api_key") || UpToCase(x, "apikey")
          || UpToCase(x, "secret") || UpToCase(x, "private_key") || UpToCase(x, "access_token")
          || UpToCase(x, "refresh_token"))
  }

  /** Exactly such keys count as secret. */
  lemma SecretKeyIff(key: string)
    ensures SecretKey(key) <==> HoldsSecretName(key)
  {
    forall i | 0 <= i < |SECRET_NAMES| {
      LowerContainsIff(key, SECRET_NAMES[i]);
    }
    LowerContainsIff(key, "password");
    LowerContainsIff(key, "token");
    LowerContainsIff(key, "api_key");
    LowerContainsIff(key, "apikey");
    LowerContainsIff(key, "secret");
    LowerContainsIff(key, "private_key");
    LowerContainsIff(key, "access_token");
    LowerContainsIff(key, "refresh_token");
    assert SECRET_NAMES[0] == "password" && SECRET_NAMES[1] == "token" && SECRET_NAMES[2] == "api_key";
    assert SECRET_NAMES[3] == "apikey" && SECRET_NAMES[4] == "secret" && SECRET_NAMES[5] == "private_key";
    assert SECRET_NAMES[6] == "access_token" && SECRET_NAMES[7] == "refresh_token";
  }

  // ---------------------------------------------------------------- what is left and what is reported

  function TextAfter(patterns: seq<Pattern>, n: nat, text: string): string
    requires n <= |patterns|
  {
    if n == 0 then text else patterns[n - 1].replace(TextAfter(patterns, n - 1, text))
  }

  /** The value a redaction pass leaves. */
  function Redact(patterns: seq<Pattern>, v: Json): Json
    decreases v
  {
    match v
    case Object(fields) =>
      Object(map k | k in fields :: if SecretKey(k) then String(MARKER) else Redact(patterns, fields[k]))
    case Array(items) => Array(seq(|items|, i requires 0 <= i < |items| => Redact(patterns, items[i])))
    case String(text) => String(TextAfter(patterns, |patterns|, text))
    case _ => v
  }

  /** Pattern `n` changes the text that the patterns before it left. */
  predicate Hits(patterns: seq<Pattern>, n: nat, text: string)
    requires n < |patterns|
  {
    TextAfter(patterns, n + 1, text) != TextAfter(patterns, n, text)
  }

  /** The findings of a pass, one position at a time. */
  ghost predicate IsFinding(patterns: seq<Pattern>, v: Json, f: Finding)
    decreases |f.path|
  {
    if f.path == [] then
      v.String? && exists n :: 0 <= n < |patterns| && Hits(patterns, n, v.text) && f.kind == patterns[n].name
    else
      var rest := f.(path := f.path[1..]);
      match f.path[0]
      case Key(k) =>
        && v.Object? && k in v.fields
        && if SecretKey(k) then rest == Finding([], "secret_key") else IsFinding(patterns, v.fields[k], rest)
      case Index(i) => v.Array? && i < |v.items| && IsFinding(patterns, v.items[i], rest)
  }

  /** The first `n` patterns that change the text, in order. */
  function TextFindings(patterns: seq<Pattern>, n: nat, text: string, path: seq<Step>): seq<Finding>
    requires n <= |patterns|
  {
    if n == 0 then []
    else
      TextFindings(patterns, n - 1, text, path)
      + if Hits(patterns, n - 1, text) then [Finding(path, patterns[n - 1].name)] else []
  }

  /** The findings of a pass in the order they are pushed: fields by key order, items by index. */
  ghost function FindingsOf(patterns: seq<Pattern>, v: Json, path: seq<Step>): seq<Finding>
    decreases v, 2
  {
    match v
    case Object(fields) =>
      assert forall k :: k in KeysInOrder(fields.Keys) ==> k in Elems(KeysInOrder(fields.Keys));
      KeyFindings(patterns, v, KeysInOrder(fields.Keys), path)
    case Array(items) => ItemFindings(patterns, v, |items|, path)
    case String(text) => TextFindings(patterns, |patterns|, text, path)
    case _ => []
  }

  ghost function KeyFindings(patterns: seq<Pattern>, v: Json, ks: seq<string>, path: seq<Step>): seq<Finding>
    requires v.Object? && forall k :: k in ks ==> k in v.fields
    decreases v, 1, |ks|
  {
    if ks == [] then [] else FieldFindings(patterns, v, ks[0], path) + KeyFindings(patterns, v, ks[1..], path)
  }

  ghost function FieldFindings(patterns: seq<Pattern>, v: Json, k: string, path: seq<Step>): seq<Finding>
    requires v.Object? && k in v.fields
    decreases v, 0
  {
    if SecretKey(k) then [Finding(path + [Key(k)], "secret_key")]
    else FindingsOf(patterns, v.fields[k], path + [Key(k)])
  }

  ghost function ItemFindings(patterns: seq<Pattern>, v: Json, n: nat, path: seq<Step>): seq<Finding>
    requires v.Array? && n <= |v.items|
    decreases v, 1, n
  {
    if n == 0 then []
    else ItemFindings(patterns, v, n - 1, path) + FindingsOf(patterns, v.items[n - 1], path + [Index(n - 1)])
  }

  /** `fs` holds exactly the findings of `v`, as seen from `path`. */
  ghost predicate Reports(fs: seq<Finding>, path: seq<Step>, patterns: seq<Pattern>, v: Json) {
    forall f :: f in fs <==> IsUnder(f, path) && IsFinding(patterns, v, Relative(f, path))
  }

  /** `f` is at or below `path`. */
  predicate IsUnder(f: Finding, path: seq<Step>) {
    |path| <= |f.path| && f.path[..|path|] == path
  }

  function Relative(f: Finding, path: seq<Step>): Finding
    requires IsUnder(f, path)
  {
    f.(path := f.path[|path|..])
  }

  /** Every secret-named key, at every depth and inside arrays, holds the marker. */
  ghost predicate Clean(v: Json)
    decreases v
  {
    match v
    case Object(fields) =>
      forall k :: k in fields ==> if SecretKey(k) then fields[k] == String(MARKER) else Clean(fields[k])
    case Array(items) => forall i :: 0 <= i < |items| ==> Clean(items[i])
    case _ => true
  }

  lemma {:induction false} RedactedIsClean(patterns: seq<Pattern>, v: Json)
    ensures Clean(Redact(patterns, v))
    decreases v
  {
    match v
    case Object(fields) =>
      forall k | k in fields && !SecretKey(k) ensures Clean(Redact(patterns, fields[k])) {
        RedactedIsClean(patterns, fields[k]);
      }
    case Array(items) =>
      forall i | 0 <= i < |items| ensures Clean(Redact(patterns, items[i])) {
        RedactedIsClean(patterns, items[i]);
      }
    case _ =>
  }

  lemma {:induction false} CleanMerge(target: Json, patch: Json)
    requires Clean(target) && Clean(patch)
    ensures Clean(Merge(target, patch))
    decreases patch
  {
    if target.Object? && patch.Object? {
      forall k | k in patch.fields && !SecretKey(k)
        ensures Clean(Merge(FieldOrNull(target.fields, k), patch.fields[k]))
      {
        CleanMerge(FieldOrNull(target.fields, k), patch.fields[k]);
      }
    }
  }

  /** Redaction survives any number of merges. */
  lemma {:induction false} CleanMergeAll(state: Json, deltas: seq<Json>)
    requires Clean(state) && forall i :: 0 <= i < |deltas| ==> Clean(deltas[i])
    ensures Clean(MergeAll(state, deltas))
    decreases |deltas|
  {
    if deltas != [] {
      CleanMergeAll(state, deltas[..|deltas| - 1]);
      CleanMerge(MergeAll(state, deltas[..|deltas| - 1]), deltas[|deltas| - 1]);
    }
  }

  /**
    Which keys are overwritten: exactly those that hold one of the eight names, in any case; their value is
    the marker and they are reported once. Any other field is walked into.
  */
  lemma MarkedIff(patterns: seq<Pattern>, fields: map<string, Json>, k: string, path: seq<Step>)
    requires k in fields
    ensures var after := Redact(patterns, Object(fields));
            var found := FieldFindings(patterns, Object(fields), k, path);
            && after.Object? && after.fields.Keys == fields.Keys
            && after.fields[k] == (if HoldsSecretName(k) then String("[REDACTED]") else Redact(patterns, fields[k]))
            && found == if HoldsSecretName(k) then [Finding(path + [Key(k)], "secret_key")]
                        else FindingsOf(patterns, fields[k], path + [Key(k)])
    ensures HoldsSecretName(k) <==> Redact(patterns, Object(map[k := Null])).fields[k] == String("[REDACTED]")
  {
    SecretKeyIff(k);
  }

  /** The first key on the path that names a secret, or the path's length. */
  function FirstSecret(p: Path): (n: nat)
    ensures n <= |p| && (forall i :: 0 <= i < n ==> !SecretKey(p[i])) && (n < |p| ==> SecretKey(p[n]))
  {
    if p == [] || SecretKey(p[0]) then 0 else 1 + FirstSecret(p[1..])
  }

  /**
    What a pass leaves at every path: below no secret-named key what was there, its texts and arrays
    redacted; at the first secret-named key the marker, if the key was there, and nothing below it.
  */
  lemma {:induction false} RedactedAt(patterns: seq<Pattern>, v: Json, p: Path)
    ensures var n := FirstSecret(p);
            At(Redact(patterns, v), p) ==
              if n == |p| then
                match At(v, p) case Leaf(x) => Leaf(Redact(patterns, x)) case spot => spot
              else if n == |p| - 1 && At(v, p) != Absent then Leaf(String("[REDACTED]"))
              else Absent
    decreases |p|
  {
    if p != [] && v.Object? && p[0] in v.fields && !SecretKey(p[0]) {
      RedactedAt(patterns, v.fields[p[0]], p[1..]);
    }
  }

  /** A redacted array holds its redacted items, a redacted text what its patterns leave, and other leaves stay. */
  lemma RedactedLeaf(patterns: seq<Pattern>, v: Json)
    requires !v.Object?
    ensures v.Array? ==> var r := Redact(patterns, v);
              r.Array? && |r.items| == |v.items|
              && forall i :: 0 <= i < |v.items| ==> r.items[i] == Redact(patterns, v.items[i])
    ensures v.String? ==> Redact(patterns, v) == String(TextAfter(patterns, |patterns|, v.text))
    ensures !v.Array? && !v.String? ==> Redact(patterns, v) == v
  {
  }

  /** Patterns work one after the other, each on what those before it left. */
  lemma {:induction false} PatternsInOrder(a: seq<Pattern>, b: seq<Pattern>, n: nat, text: string)
    requires n <= |b|
    ensures TextAfter(a + b, |a| + n, text) == TextAfter(b, n, TextAfter(a, |a|, text))
    ensures |a| == 1 ==> TextAfter(a, |a|, text) == a[0].replace(text)
    decreases n
  {
    if n == 0 {
      SamePrefix(a, b, |a|, text);
    } else {
      PatternsInOrder(a, b, n - 1, text);
      assert (a + b)[|a| + n - 1] == b[n - 1];
    }
    if |a| == 1 { assert TextAfter(a, 0, text) == text; }
  }

  lemma {:induction false} SamePrefix(a: seq<Pattern>, b: seq<Pattern>, n: nat, text: string)
    requires n <= |a|
    ensures TextAfter(a + b, n, text) == TextAfter(a, n, text)
    decreases n
  {
    if n > 0 { SamePrefix(a, b, n - 1, text); }
  }

  /** A pass with nothing to report leaves the value as it was. */
  lemma {:induction false} NoFindingsNoChange(patterns: seq<Pattern>, v: Json)
    requires forall f :: !IsFinding(patterns, v, f)
    ensures Redact(patterns, v) == v
    decreases v
  {
    match v
    case Object(fields) =>
      forall k | k in fields ensures !SecretKey(k) && Redact(patterns, fields[k]) == fields[k] {
        if SecretKey(k) { assert IsFinding(patterns, v, Finding([Key(k)], "secret_key")); }
        forall f ensures !IsFinding(patterns, fields[k], f) {
          var g := f.(path := [Key(k)] + f.path);
          assert g.(path := g.path[1..]) == f;
          assert !IsFinding(patterns, v, g);
        }
        NoFindingsNoChange(patterns, fields[k]);
      }
      assert Redact(patterns, v).fields == fields;
    case Array(items) =>
      forall i | 0 <= i < |items| ensures Redact(patterns, items[i]) == items[i] {
        forall f ensures !IsFinding(patterns, items[i], f) {
          var g := f.(path := [Index(i)] + f.path);
          assert g.(path := g.path[1..]) == f;
          assert !IsFinding(patterns, v, g);
        }
        NoFindingsNoChange(patterns, items[i]);
      }
      assert Redact(patterns, v).items == items;
    case String(text) =>
      QuietText(patterns, |patterns|, text);
    case _ =>
  }

  lemma {:induction false} QuietText(patterns: seq<Pattern>, n: nat, text: string)
    requires n <= |patterns| && forall f :: !IsFinding(patterns, String(text), f)
    ensures TextAfter(patterns, n, text) == text
    decreases n
  {
    if n > 0 {
      QuietText(patterns, n - 1, text);
      assert !IsFinding(patterns, String(text), Finding([], patterns[n - 1].name));
      assert !Hits(patterns, n - 1, text);
    }
  }

  // ---------------------------------------------------------------- nothing under a secret key leaks

  /** Equal except for what sits under secret-named keys. */
  ghost predicate SameButSecrets(a: Json, b: Json)
    decreases a
  {
    if a.Object? && b.Object? then
      && a.fields.Keys == b.fields.Keys
      && forall k :: k in a.fields && !SecretKey(k) ==> SameButSecrets(a.fields[k], b.fields[k])
    else if a.Array? && b.Array? then
      |a.items| == |b.items| && forall i :: 0 <= i < |a.items| ==> SameButSecrets(a.items[i], b.items[i])
    else a == b
  }

  /** Two values that differ only in their secrets redact to the same value. */
  lemma {:induction false} SecretsDoNotShow(patterns: seq<Pattern>, a: Json, b: Json)
    requires SameButSecrets(a, b)
    ensures Redact(patterns, a) == Redact(patterns, b)
    decreases a
  {
    if a.Object? && b.Object? {
      forall k | k in a.fields && !SecretKey(k) ensures Redact(patterns, a.fields[k]) == Redact(patterns, b.fields[k]) {
        SecretsDoNotShow(patterns, a.fields[k], b.fields[k]);
      }
      assert Redact(patterns, a).fields == Redact(patterns, b).fields;
    } else if a.Array? && b.Array? {
      forall i | 0 <= i < |a.items| ensures Redact(patterns, a.items[i]) == Redact(patterns, b.items[i]) {
        SecretsDoNotShow(patterns, a.items[i], b.items[i]);
      }
      assert Redact(patterns, a).items == Redact(patterns, b).items;
    }
  }

  /** Nor do the findings tell them apart. */
  lemma {:induction false} FindingsDoNotShowSecrets(patterns: seq<Pattern>, a: Json, b: Json, path: seq<Step>)
    requires SameButSecrets(a, b)
    ensures FindingsOf(patterns, a, path) == FindingsOf(patterns, b, path)
    decreases a, 1
  {
    if a.Object? && b.Object? {
      var ks := KeysInOrder(a.fields.Keys);
      assert forall k :: k in ks ==> k in Elems(ks);
      SameKeyFindings(patterns, a, b, ks, path);
    } else if a.Array? && b.Array? {
      SameItemFindings(patterns, a, b, |a.items|, path);
    }
  }

  lemma {:induction false} SameKeyFindings(patterns: seq<Pattern>, a: Json, b: Json, ks: seq<string>, path: seq<Step>)
    requires a.Object? && b.Object? && SameButSecrets(a, b) && forall k :: k in ks ==> k in a.fields
    ensures KeyFindings(patterns, a, ks, path) == KeyFindings(patterns, b, ks, path)
    decreases a, 0, |ks|
  {
    if ks != [] {
      if !SecretKey(ks[0]) {
        FindingsDoNotShowSecrets(patterns, a.fields[ks[0]], b.fields[ks[0]], path + [Key(ks[0])]);
      }
      SameKeyFindings(patterns, a, b, ks[1..], path);
    }
  }

  lemma {:induction false} SameItemFindings(patterns: seq<Pattern>, a: Json, b: Json, n: nat, path: seq<Step>)
    requires a.Array? && b.Array? && SameButSecrets(a, b) && n <= |a.items|
    ensures ItemFindings(patterns, a, n, path) == ItemFindings(patterns, b, n, path)
    decreases a, 0, n
  {
    if n > 0 {
      SameItemFindings(patterns, a, b, n - 1, path);
      FindingsDoNotShowSecrets(patterns, a.items[n - 1], b.items[n - 1], path + [Index(n - 1)]);
    }
  }

  // ---------------------------------------------------------------- which findings

  /** The child of `v` at `s`, when the pass goes into it. */
  predicate GoesInto(v: Json, s: Step, child: Json) {
    match s
    case Key(k) => v.Object? && k in v.fields && !SecretKey(k) && child == v.fields[k]
    case Index(i) => v.Array? && i < |v.items| && child == v.items[i]
  }

  /** `fs` holds exactly the findings of `v` whose first step is in `done`. */
  ghost predicate ReportsSteps(fs: seq<Finding>, path: seq<Step>, patterns: seq<Pattern>, v: Json, done: set<Step>) {
    forall f :: f in fs <==>
      IsUnder(f, path) && |path| < |f.path| && f.path[|path|] in done && IsFinding(patterns, v, Relative(f, path))
  }

  lemma ChildFinding(f: Finding, path: seq<Step>, patterns: seq<Pattern>, v: Json, s: Step, child: Json)
    requires GoesInto(v, s, child)
    ensures IsUnder(f, path + [s]) && IsFinding(patterns, child, Relative(f, path + [s])) <==>
            IsUnder(f, path) && |path| < |f.path| && f.path[|path|] == s && IsFinding(patterns, v, Relative(f, path))
  {
    if |path| < |f.path| {
      assert f.path[..|path| + 1] == f.path[..|path|] + [f.path[|path|]];
      assert f.path[|path|..][1..] == f.path[|path| + 1..];
    }
  }

  lemma ChildReports(sub: seq<Finding>, path: seq<Step>, patterns: seq<Pattern>, v: Json, s: Step, child: Json)
    requires GoesInto(v, s, child) && Reports(sub, path + [s], patterns, child)
    ensures ReportsSteps(sub, path, patterns, v, {s})
  {
    forall f ensures f in sub <==>
      IsUnder(f, path) && |path| < |f.path| && f.path[|path|] == s && IsFinding(patterns, v, Relative(f, path))
    {
      ChildFinding(f, path, patterns, v, s, child);
    }
  }

  lemma SecretReports(path: seq<Step>, patterns: seq<Pattern>, v: Json, k: string)
    requires v.Object? && k in v.fields && SecretKey(k)
    ensures ReportsSteps([Finding(path + [Key(k)], "secret_key")], path, patterns, v, {Key(k)})
  {
    var g := Finding(path + [Key(k)], "secret_key");
    forall f: Finding | |path| < |f.path|
      ensures f == g <==> IsUnder(f, path) && f.path[|path|] == Key(k) && IsFinding(patterns, v, Relative(f, path))
    {
      assert f.path == f.path[..|path|] + f.path[|path|..];
      if IsUnder(f, path) && f.path[|path|] == Key(k) {
        assert f.path[|path|..] == [Key(k)] + f.path[|path|..][1..];
      }
    }
  }

  lemma JoinReports(
      fs: seq<Finding>, more: seq<Finding>, path: seq<Step>, patterns: seq<Pattern>, v: Json,
      a: set<Step>, b: set<Step>)
    requires ReportsSteps(fs, path, patterns, v, a) && ReportsSteps(more, path, patterns, v, b)
    ensures ReportsSteps(fs + more, path, patterns, v, a + b)
  {
  }

  function KeySteps(ks: seq<string>): set<Step> {
    set k | k in ks :: Key(k)
  }

  function IndexSteps(n: nat): set<Step> {
    set j: nat | 0 <= j < n :: Index(j)
  }

  lemma {:induction false} TextReported(patterns: seq<Pattern>, n: nat, text: string, path: seq<Step>, f: Finding)
    requires n <= |patterns|
    ensures f in TextFindings(patterns, n, text, path) <==>
      f.path == path && exists m :: 0 <= m < n && Hits(patterns, m, text) && f.kind == patterns[m].name
    decreases n
  {
    if n > 0 { TextReported(patterns, n - 1, text, path, f); }
  }

  /** Exactly the findings of the value, one position at a time, are pushed. */
  lemma {:induction false} FindingsReported(patterns: seq<Pattern>, v: Json, path: seq<Step>)
    ensures Reports(FindingsOf(patterns, v, path), path, patterns, v)
    decreases v, 1
  {
    var fs := FindingsOf(patterns, v, path);
    match v
    case Object(fields) =>
      var ks := KeysInOrder(fields.Keys);
      assert forall k :: k in ks <==> k in Elems(ks);
      KeysReported(patterns, v, ks, path);
      forall f | IsUnder(f, path) && IsFinding(patterns, v, Relative(f, path))
        ensures |path| < |f.path| && f.path[|path|] in KeySteps(ks)
      {
      }
    case Array(items) =>
      ItemsReported(patterns, v, |items|, path);
      forall f | IsUnder(f, path) && IsFinding(patterns, v, Relative(f, path))
        ensures |path| < |f.path| && f.path[|path|] in IndexSteps(|items|)
      {
      }
    case String(text) =>
      forall f ensures f in fs <==> IsUnder(f, path) && IsFinding(patterns, v, Relative(f, path)) {
        TextReported(patterns, |patterns|, text, path, f);
        if IsUnder(f, path) { assert f.path == f.path[..|path|] + f.path[|path|..]; }
      }
    case _ =>
  }

  lemma {:induction false} KeysReported(patterns: seq<Pattern>, v: Json, ks: seq<string>, path: seq<Step>)
    requires v.Object? && forall k :: k in ks ==> k in v.fields
    ensures ReportsSteps(KeyFindings(patterns, v, ks, path), path, patterns, v, KeySteps(ks))
    decreases v, 0, |ks|
  {
    if ks != [] {
      var first := FieldFindings(patterns, v, ks[0], path);
      if SecretKey(ks[0]) {
        SecretReports(path, patterns, v, ks[0]);
      } else {
        FindingsReported(patterns, v.fields[ks[0]], path + [Key(ks[0])]);
        ChildReports(first, path, patterns, v, Key(ks[0]), v.fields[ks[0]]);
      }
      KeysReported(patterns, v, ks[1..], path);
      JoinReports(first, KeyFindings(patterns, v, ks[1..], path), path, patterns, v, {Key(ks[0])}, KeySteps(ks[1..]));
      assert KeySteps(ks) == {Key(ks[0])} + KeySteps(ks[1..]);
    }
  }

  lemma {:induction false} ItemsReported(patterns: seq<Pattern>, v: Json, n: nat, path: seq<Step>)
    requires v.Array? && n <= |v.items|
    ensures ReportsSteps(ItemFindings(patterns, v, n, path), path, patterns, v, IndexSteps(n))
    decreases v, 0, n
  {
    if n > 0 {
      var last := FindingsOf(patterns, v.items[n - 1], path + [Index(n - 1)]);
      ItemsReported(patterns, v, n - 1, path);
      FindingsReported(patterns, v.items[n - 1], path + [Index(n - 1)]);
      ChildReports(last, path, patterns, v, Index(n - 1), v.items[n - 1]);
      JoinReports(ItemFindings(patterns, v, n - 1, path), last, path, patterns, v, IndexSteps(n - 1), {Index(n - 1)});
      assert IndexSteps(n) == IndexSteps(n - 1) + {Index(n - 1)};
    }
  }

  // ---------------------------------------------------------------- in which order findings come

  /** The findings of an object go by key in ascending order, those of an array by index. */
  ghost predicate Ascends(fs: seq<Finding>, n: nat) {
    forall i, j :: 0 <= i < j < |fs| ==>
      && n < |fs[i].path| && n < |fs[j].path|
      && (fs[i].path[n] == fs[j].path[n] || Precedes(fs[i].path[n], fs[j].path[n]))
  }

  /** `f` is at or below the step `s` from `path`. */
  ghost predicate AllAtStep(fs: seq<Finding>, path: seq<Step>, s: Step) {
    forall f :: f in fs ==> |path| < |f.path| && f.path[..|path|] == path && f.path[|path|] == s
  }

  lemma FieldFindingsAtKey(patterns: seq<Pattern>, v: Json, k: string, path: seq<Step>)
    requires v.Object? && k in v.fields
    ensures AllAtStep(FieldFindings(patterns, v, k, path), path, Key(k))
  {
    if !SecretKey(k) {
      FindingsReported(patterns, v.fields[k], path + [Key(k)]);
      UnderStep(FindingsOf(patterns, v.fields[k], path + [Key(k)]), patterns, v.fields[k], path, Key(k));
    }
  }

  lemma UnderStep(fs: seq<Finding>, patterns: seq<Pattern>, child: Json, path: seq<Step>, s: Step)
    requires Reports(fs, path + [s], patterns, child)
    ensures AllAtStep(fs, path, s)
  {
    forall f | f in fs ensures |path| < |f.path| && f.path[..|path|] == path && f.path[|path|] == s {
      assert f.path[..|path| + 1] == path + [s];
      assert f.path[..|path|] == f.path[..|path| + 1][..|path|];
    }
  }

  predicate Precedes(s: Step, t: Step) {
    match (s, t)
    case (Key(x), Key(y)) => Text.Below(x, y)
    case (Index(x), Index(y)) => x < y
    case _ => false
  }

  lemma JoinAscending(a: seq<Finding>, b: seq<Finding>, path: seq<Step>, s: Step)
    requires AllAtStep(a, path, s) && Ascends(b, |path|)
    requires forall f :: f in b ==> |path| < |f.path| && Precedes(s, f.path[|path|])
    ensures Ascends(a + b, |path|)
  {
    assert forall i :: 0 <= i < |a| ==> a[i] in a;
    assert forall i :: 0 <= i < |b| ==> b[i] in b;
  }

  lemma {:induction false} KeyFindingsAscend(patterns: seq<Pattern>, v: Json, ks: seq<string>, path: seq<Step>)
    requires v.Object? && forall k :: k in ks ==> k in v.fields
    requires forall i, j :: 0 <= i < j < |ks| ==> Text.Below(ks[i], ks[j])
    ensures Ascends(KeyFindings(patterns, v, ks, path), |path|)
    ensures forall f :: f in KeyFindings(patterns, v, ks, path) ==>
              |path| < |f.path| && f.path[|path|].Key? && f.path[|path|].key in ks
    decreases |ks|
  {
    if ks != [] {
      var first := FieldFindings(patterns, v, ks[0], path);
      FieldFindingsAtKey(patterns, v, ks[0], path);
      KeyFindingsAscend(patterns, v, ks[1..], path);
      assert forall k :: k in ks[1..] ==> Text.Below(ks[0], k);
      JoinAscending(first, KeyFindings(patterns, v, ks[1..], path), path, Key(ks[0]));
    }
  }

  lemma {:induction false} ItemFindingsAscend(patterns: seq<Pattern>, v: Json, n: nat, path: seq<Step>)
    requires v.Array? && n <= |v.items|
    ensures Ascends(ItemFindings(patterns, v, n, path), |path|)
    ensures forall f :: f in ItemFindings(patterns, v, n, path) ==>
              |path| < |f.path| && f.path[|path|].Index? && f.path[|path|].index < n
    decreases n
  {
    if n > 0 {
      var front := ItemFindings(patterns, v, n - 1, path);
      var last := FindingsOf(patterns, v.items[n - 1], path + [Index(n - 1)]);
      ItemFindingsAscend(patterns, v, n - 1, path);
      FindingsReported(patterns, v.items[n - 1], path + [Index(n - 1)]);
      UnderStep(last, patterns, v.items[n - 1], path, Index(n - 1));
      assert forall i :: 0 <= i < |front| ==> front[i] in front;
      assert forall i :: 0 <= i < |last| ==> last[i] in last;
    }
  }

  /** Findings are reported by ascending key and index. */
  lemma FindingsAscend(patterns: seq<Pattern>, v: Json, path: seq<Step>)
    requires v.Object? || v.Array?
    ensures Ascends(FindingsOf(patterns, v, path), |path|)
  {
    if v.Object? {
      var ks := KeysInOrder(v.fields.Keys);
      KeysAscend(v.fields.Keys);
      assert forall k :: k in ks ==> k in Elems(ks);
      KeyFindingsAscend(patterns, v, ks, path);
    } else {
      ItemFindingsAscend(patterns, v, |v.items|, path);
    }
  }

  /** How a path is printed: a dot before each key, brackets around each index. */
  lemma PathsPrint(path: seq<Step>, k: string, i: nat)
    ensures RenderPath([]) == "$"
    ensures RenderPath(path + [Key(k)]) == RenderPath(path) + ("." + k)
    ensures RenderPath(path + [Index(i)]) == RenderPath(path) + ("[" + Text.Decimal(i) + "]")
  {
    assert (path + [Key(k)])[..|path|] == path && (path + [Index(i)])[..|path|] == path;
  }

  // ---------------------------------------------------------------- the code

  /** `redact_text`: every pattern in turn, with a finding for each that changes the text. */
  method RedactText(patterns: seq<Pattern>, text: string, path: seq<Step>, findings: seq<Finding>)
    returns (output: string, out: seq<Finding>)
    ensures output == TextAfter(patterns, |patterns|, text)
    ensures out == findings + TextFindings(patterns, |patterns|, text, path)
  {
    output, out := text, findings;
    for n := 0 to |patterns|
      invariant output == TextAfter(patterns, n, text)
      invariant out == findings + TextFindings(patterns, n, text, path)
    {
      var replaced := patterns[n].replace(output);
      if replaced != output {
        out := out + [Finding(path, patterns[n].name)];
        output := replaced;
      }
    }
  }

  /** `redact_json` */
  method RedactJson(patterns: seq<Pattern>, v: Json, path: seq<Step>, findings: seq<Finding>)
    returns (r: Json, out: seq<Finding>)
    ensures r == Redact(patterns, v)
    ensures out == findings + FindingsOf(patterns, v, path)
    decreases v, 2
  {
    match v
    case Object(fields) =>
      r, out := RedactJsonObject(patterns, v, path, findings);
    case Array(items) =>
      var done: seq<Json> := [];
      out := findings;
      for i := 0 to |items|
        invariant |done| == i && forall j :: 0 <= j < i ==> done[j] == Redact(patterns, items[j])
        invariant out == findings + ItemFindings(patterns, v, i, path)
      {
        var item;
        item, out := RedactJson(patterns, items[i], path + [Index(i)], out);
        done := done + [item];
      }
      r := Array(done);
      assert done == Redact(patterns, v).items;
    case String(text) =>
      var output;
      output, out := RedactText(patterns, text, path, findings);
      r := String(output);
    case _ =>
      r, out := v, findings;
  }

  /** The fields once all keys but those in `left` have been redacted. */
  ghost function RedactedBut(patterns: seq<Pattern>, fields: map<string, Json>, left: set<string>): map<string, Json> {
    map k | k in fields :: if k in left then fields[k] else RedactedField(patterns, k, fields[k])
  }

  /** What a pass leaves under one key. */
  ghost function RedactedField(patterns: seq<Pattern>, k: string, value: Json): Json {
    if SecretKey(k) then String(MARKER) else Redact(patterns, value)
  }

  lemma RedactOneKey(patterns: seq<Pattern>, fields: map<string, Json>, left: set<string>, k: string)
    requires k in fields && k in left
    ensures RedactedBut(patterns, fields, left - {k}) ==
      RedactedBut(patterns, fields, left)[k := RedactedField(patterns, k, fields[k])]
  {
  }

  /** One turn of the loop over an object: a secret-named key is overwritten whole; any other is gone into. */
  method RedactField(patterns: seq<Pattern>, v: Json, k: string, path: seq<Step>, findings: seq<Finding>)
    returns (value: Json, out: seq<Finding>)
    requires v.Object? && k in v.fields
    ensures value == RedactedField(patterns, k, v.fields[k])
    ensures out == findings + FieldFindings(patterns, v, k, path)
    decreases v, 0
  {
    if SecretKey(k) {
      value := String(MARKER);
      out := findings + [Finding(path + [Key(k)], "secret_key")];
    } else {
      value, out := RedactJson(patterns, v.fields[k], path + [Key(k)], findings);
    }
  }

  /** What the loop over an object still has to report once only the keys in `left` remain. */
  ghost function Remaining(patterns: seq<Pattern>, v: Json, left: set<string>, path: seq<Step>): seq<Finding>
    requires v.Object? && left <= v.fields.Keys
  {
    assert forall k :: k in KeysInOrder(left) ==> k in Elems(KeysInOrder(left));
    KeyFindings(patterns, v, KeysInOrder(left), path)
  }

  /** Where the loop over an object stands: `left` is still to do, and `all` will have been reported. */
  ghost predicate Progress(
      patterns: seq<Pattern>, v: Json, path: seq<Step>, left: set<string>, fields: map<string, Json>,
      out: seq<Finding>, all: seq<Finding>)
    requires v.Object?
  {
    && left <= v.fields.Keys && fields == RedactedBut(patterns, v.fields, left)
    && out + Remaining(patterns, v, left, path) == all
  }

  lemma ProgressStep(
      patterns: seq<Pattern>, v: Json, path: seq<Step>, left: set<string>, fields: map<string, Json>,
      out: seq<Finding>, all: seq<Finding>, k: string)
    requires v.Object? && Progress(patterns, v, path, left, fields, out, all) && IsFirst(k, left)
    ensures Progress(patterns, v, path, left - {k}, fields[k := RedactedField(patterns, k, v.fields[k])],
                     out + FieldFindings(patterns, v, k, path), all)
  {
    RedactOneKey(patterns, v.fields, left, k);
    TakeFirst(k, left);
    assert ([k] + KeysInOrder(left - {k}))[1..] == KeysInOrder(left - {k});
  }

  lemma ProgressEnds(
      patterns: seq<Pattern>, v: Json, path: seq<Step>, fields: map<string, Json>, out: seq<Finding>, all: seq<Finding>)
    requires v.Object?
    ensures Progress(patterns, v, path, v.fields.Keys, v.fields, out, out + FindingsOf(patterns, v, path))
    ensures Progress(patterns, v, path, {}, fields, out, all) ==> Object(fields) == Redact(patterns, v) && out == all
  {
    assert RedactedBut(patterns, v.fields, v.fields.Keys) == v.fields;
    assert RedactedBut(patterns, v.fields, {}) == Redact(patterns, v).fields;
    assert Remaining(patterns, v, {}, path) == [];
  }

  /** `redact_json_object`, in key order. */
  method RedactJsonObject(patterns: seq<Pattern>, v: Json, path: seq<Step>, findings: seq<Finding>)
    returns (r: Json, out: seq<Finding>)
    requires v.Object?
    ensures r == Redact(patterns, v)
    ensures out == findings + FindingsOf(patterns, v, path)
    decreases v, 1
  {
    var fields, left := v.fields, v.fields.Keys;
    out := findings;
    ghost var all := findings + FindingsOf(patterns, v, path);
    ProgressEnds(patterns, v, path, fields, out, all);
    while left != {}
      invariant Progress(patterns, v, path, left, fields, out, all)
      decreases left
    {
      FirstExists(left);
      var k :| k in left && IsFirst(k, left);
      ProgressStep(patterns, v, path, left, fields, out, all, k);
      var value, longer := RedactField(patterns, v, k, path, out);
      fields, left, out := fields[k := value], left - {k}, longer;
    }
    ProgressEnds(patterns, v, path, fields, out, all);
    r := Object(fields);
  }
}
