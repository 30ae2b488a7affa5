/** The sliding-window loop detector (daemon/src/loop_detection/detector.rs, fingerprints.rs, heuristics.rs). */
module LoopDetector {
  import opened Graph
  import opened Commits
  import Text
  import opened Wrappers

  datatype Entry = Entry(fingerprint: string, commitId: string)

  datatype Severity = Low | Medium | High

  datatype LoopWarning = LoopWarning(
    run: string, agent: string, channel: string, severity: Severity, fingerprint: string, repetitions: nat,
    suggested: string)

  /** One inspected commit: its window's key and its entry. */
  datatype Inspection = Inspection(key: string, entry: Entry)

  function WindowKey(b: Body): string {
    Text.Join([b.run, b.agent, b.channel], '|')
  }

  /** `severity_for_repetitions` */
  function SeverityFor(repetitions: nat): Severity {
    if repetitions <= 2 then Low else if repetitions <= 4 then Medium else High
  }

  // ---------------------------------------------------------------- fingerprints

  /** `join(",")` */
  function Commas(names: seq<string>): string {
    if names == [] then "" else Text.Join(names, ',')
  }

  function NamesOf(calls: seq<ToolCall>): (names: seq<string>)
    ensures |names| == |calls|
  {
    seq(|calls|, i requires 0 <= i < |calls| => calls[i].name)
  }

  function ErrorsOf(results: seq<ToolResult>): seq<string> {
    if results == [] then []
    else (if results[0].error.Some? then [results[0].error.value] else []) + ErrorsOf(results[1..])
  }

  /** The quoted ids of a printed list, each after the first behind a blank. */
  function Quoted(ids: seq<Id>): (parts: seq<string>)
    ensures |parts| == |ids|
  {
    seq(|ids|, i requires 0 <= i < |ids| => (if i == 0 then "" else " ") + "\"" + ids[i] + "\"")
  }

  /** `{:?}` of a list of ids, which hold nothing that is escaped. */
  function Printed(ids: seq<Id>): string {
    "[" + Commas(Quoted(ids)) + "]"
  }

  /** What the fingerprint is the digest of. */
  function FingerprintParts(b: Body): seq<string> {
    [b.objective, b.summary, if b.delta.Some? then b.delta.value.contentHash else "",
     Commas(NamesOf(b.toolCalls)), Commas(ErrorsOf(b.toolResults)), Printed(b.parents)]
  }

  /** `fingerprint` */
  function Fingerprint(digest: string -> string, c: Commit): string {
    digest(Text.Join(FingerprintParts(c.body), '|'))
  }

  ghost predicate TellsApart(digest: string -> string) {
    forall a, b :: digest(a) == digest(b) ==> a == b
  }

  /** With a digest that does not collide, fingerprints agree exactly when the joined parts split alike. */
  lemma FingerprintSameIff(digest: string -> string, a: Commit, b: Commit)
    requires TellsApart(digest)
    ensures Fingerprint(digest, a) == Fingerprint(digest, b) <==>
      Text.Pieces(FingerprintParts(a.body), '|') == Text.Pieces(FingerprintParts(b.body), '|')
  {
    Text.JoinSameIff(FingerprintParts(a.body), FingerprintParts(b.body), '|');
  }

  /** An id without separators, as hexadecimal ids are. */
  predicate Plain(id: Id) {
    '|' !in id && ',' !in id
  }

  lemma PrintedPlain(ids: seq<Id>)
    requires forall m :: m in ids ==> Plain(m)
    ensures Text.SepFree(Quoted(ids), ',') && '|' !in Printed(ids)
  {
    forall i | 0 <= i < |ids| ensures ',' !in Quoted(ids)[i] && '|' !in Quoted(ids)[i] {
      assert Plain(ids[i]);
    }
    if ids != [] { JoinHasNo(Quoted(ids), ',', '|'); }
  }

  lemma {:induction false} JoinHasNo(parts: seq<string>, sep: char, c: char)
    requires parts != [] && sep != c && forall i :: 0 <= i < |parts| ==> c !in parts[i]
    ensures c !in Text.Join(parts, sep)
    decreases |parts|
  {
    if |parts| > 1 { JoinHasNo(parts[1..], sep, c); }
  }

  /** A printed list of plain ids determines the ids. */
  lemma PrintedInjective(a: seq<Id>, b: seq<Id>)
    requires (forall m :: m in a ==> Plain(m)) && (forall m :: m in b ==> Plain(m))
    requires Printed(a) == Printed(b)
    ensures a == b
  {
    var x, y := Commas(Quoted(a)), Commas(Quoted(b));
    assert Printed(a)[1..|Printed(a)| - 1] == x && Printed(b)[1..|Printed(b)| - 1] == y;
    PrintedPlain(a);
    PrintedPlain(b);
    if a == [] || b == [] {
      if a != [] { JoinNotEmpty(Quoted(a), ','); }
      if b != [] { JoinNotEmpty(Quoted(b), ','); }
    } else {
      Text.JoinInjective(Quoted(a), Quoted(b), ',');
      forall i | 0 <= i < |a| ensures a[i] == b[i] {
        var q, r := Quoted(a)[i], Quoted(b)[i];
        var n := if i == 0 then 1 else 2;
        assert q[n..|q| - 1] == a[i] && r[n..|r| - 1] == b[i];
      }
    }
  }

  lemma JoinNotEmpty(parts: seq<string>, sep: char)
    requires parts != [] && parts[0] != ""
    ensures Text.Join(parts, sep) != ""
  {
  }

  lemma {:induction false} LastPiece(parts: seq<string>, sep: char)
    requires parts != [] && sep !in parts[|parts| - 1]
    ensures var ps := Text.Pieces(parts, sep); ps != [] && ps[|ps| - 1] == parts[|parts| - 1]
    decreases |parts|
  {
    if |parts| == 1 {
      Text.SplitFirst(parts[0], sep, []);
      assert Text.Pieces(parts, sep) == Text.Split(parts[0], sep) + [];
    } else {
      LastPiece(parts[1..], sep);
    }
  }

  /** So commits with plain parent ids and the same fingerprint have the same parents. */
  lemma SameFingerprintSameParents(digest: string -> string, a: Commit, b: Commit)
    requires TellsApart(digest) && Fingerprint(digest, a) == Fingerprint(digest, b)
    requires (forall m :: m in a.body.parents ==> Plain(m)) && (forall m :: m in b.body.parents ==> Plain(m))
    ensures a.body.parents == b.body.parents
  {
    FingerprintSameIff(digest, a, b);
    PrintedPlain(a.body.parents);
    PrintedPlain(b.body.parents);
    LastPiece(FingerprintParts(a.body), '|');
    LastPiece(FingerprintParts(b.body), '|');
    PrintedInjective(a.body.parents, b.body.parents);
  }

  // ---------------------------------------------------------------- windows as suffixes of the history

  /** The entries inspected under a key, oldest first. */
  function Entries(history: seq<Inspection>, key: string): seq<Entry> {
    if history == [] then []
    else
      var last := history[|history| - 1];
      Entries(history[..|history| - 1], key) + if last.key == key then [last.entry] else []
  }

  function LastOf<T>(s: seq<T>, n: nat): seq<T> {
    if |s| <= n then s else s[|s| - n..]
  }

  /** What the detector looks at: the last `size` entries, or all of them when `size` is 0. */
  function Window(history: seq<Inspection>, key: string, size: nat): seq<Entry> {
    if size == 0 then Entries(history, key) else LastOf(Entries(history, key), size)
  }

  function Count(window: seq<Entry>, fingerprint: string): (n: nat)
    ensures n <= |window|
  {
    if window == [] then 0
    else (if window[0].fingerprint == fingerprint then 1 else 0) + Count(window[1..], fingerprint)
  }

  /** The id of the latest entry that differs, or nothing. */
  function LatestOther(window: seq<Entry>, fingerprint: string): string {
    if window == [] then ""
    else
      var last := window[|window| - 1];
      if last.fingerprint != fingerprint then last.commitId else LatestOther(window[..|window| - 1], fingerprint)
  }

  /** The pop and push of `inspect` keep a window the suffix it should be, for every window size. */
  lemma SlideKeepsWindow(history: seq<Inspection>, i: Inspection, key: string, size: nat)
    ensures var window := Window(history, key, size);
            Window(history + [i], key, size) == if i.key == key then Popped(window, size) + [i.entry] else window
  {
    var es := Entries(history, key);
    assert (history + [i])[..|history|] == history;
    assert Entries(history + [i], key) == if i.key == key then es + [i.entry] else es;
    if i.key == key { LastOfSnoc(es, i.entry, size); }
  }

  lemma LastOfSnoc<T>(s: seq<T>, x: T, n: nat)
    ensures n > 0 ==> LastOf(s + [x], n) == (if |LastOf(s, n)| == n then LastOf(s, n)[1..] else LastOf(s, n)) + [x]
  {
  }

  lemma {:induction false} CountSnoc(window: seq<Entry>, e: Entry, fingerprint: string)
    ensures Count(window + [e], fingerprint) ==
      Count(window, fingerprint) + if e.fingerprint == fingerprint then 1 else 0
    decreases |window|
  {
    if window == [] {
      assert window + [e] == [e] && [e][1..] == [];
    } else {
      assert (window + [e])[1..] == window[1..] + [e];
      CountSnoc(window[1..], e, fingerprint);
    }
  }

  /** Window keys can be told apart exactly when no name holds the separator. */
  lemma WindowKeyReadsBack(b: Body)
    ensures Text.Split(WindowKey(b), '|') == [b.run, b.agent, b.channel]
       <==> '|' !in b.run && '|' !in b.agent && '|' !in b.channel
  {
    var parts := [b.run, b.agent, b.channel];
    Text.SplitJoin(parts, '|');
    assert parts[0] == b.run && parts[1] == b.agent && parts[2] == b.channel;
  }

  /** Every window is the suffix of the history that `Window` says. */
  ghost predicate Tracks(windows: map<string, seq<Entry>>, history: seq<Inspection>, size: nat) {
    forall key :: Window(history, key, size) == if key in windows then windows[key] else []
  }

  /** What `inspect` leaves of a window before it pushes. */
  function Popped(window: seq<Entry>, size: nat): seq<Entry> {
    if |window| == size && window != [] then window[1..] else window
  }

  lemma SlideKeepsTracking(windows: map<string, seq<Entry>>, history: seq<Inspection>, size: nat, i: Inspection)
    requires Tracks(windows, history, size)
    ensures Tracks(windows[i.key := Popped(Window(history, i.key, size), size) + [i.entry]], history + [i], size)
  {
    forall key ensures Window(history + [i], key, size) ==
      if key == i.key then Popped(Window(history, i.key, size), size) + [i.entry] else Window(history, key, size)
    {
      SlideKeepsWindow(history, i, key, size);
    }
  }

  // ---------------------------------------------------------------- the detector

  class LoopDetector {
    const windowSize: nat
    const digest: string -> string
    var windows: map<string, seq<Entry>>
    ghost var history: seq<Inspection>

    ghost predicate Valid()
      reads this
    {
      Tracks(windows, history, windowSize)
    }

    constructor (size: nat, digest: string -> string)
      ensures Valid() && windowSize == size && history == [] && this.digest == digest
    {
      windowSize, this.digest := size, digest;
      windows, history := map[], [];
    }

    /** `inspect` */
    method Inspect(c: Commit) returns (warning: Option<LoopWarning>)
      requires Valid()
      modifies this
      ensures Valid()
      ensures var key, fp := WindowKey(c.body), Fingerprint(digest, c);
        var window := Window(old(history), key, windowSize);
        var n := Count(window, fp) + 1;
        && history == old(history) + [Inspection(key, Entry(fp, c.id))]
        && warning == if n < 3 then None else Some(LoopWarning(
             c.body.run, c.body.agent, c.body.channel, if n < 5 then Medium else High, fp, n, LatestOther(window, fp)))
    {
      var key, fp := WindowKey(c.body), Fingerprint(digest, c);
      var window := if key in windows then windows[key] else [];
      assert window == Window(history, key, windowSize);
      var repetitions := CountIn(window, fp);
      repetitions := repetitions + 1;
      var suggested := FindOther(window, fp);
      SlideKeepsTracking(windows, history, windowSize, Inspection(key, Entry(fp, c.id)));
      if |window| == windowSize && window != [] {
        window := window[1..];
      }
      windows := windows[key := window + [Entry(fp, c.id)]];
      history := history + [Inspection(key, Entry(fp, c.id))];
      if repetitions < 3 {
        return None;
      }
      var severity := SeverityFor(repetitions);
      warning := Some(
        LoopWarning(c.body.run, c.body.agent, c.body.channel, severity, fp, repetitions, suggested));
    }
  }

  method CountIn(window: seq<Entry>, fingerprint: string) returns (n: nat)
    ensures n == Count(window, fingerprint)
  {
    n := 0;
    for i := 0 to |window|
      invariant n == Count(window[..i], fingerprint)
    {
      CountSnoc(window[..i], window[i], fingerprint);
      assert window[..i + 1] == window[..i] + [window[i]];
      if window[i].fingerprint == fingerprint {
        n := n + 1;
      }
    }
    assert window[..|window|] == window;
  }

  method FindOther(window: seq<Entry>, fingerprint: string) returns (id: string)
    ensures id == LatestOther(window, fingerprint)
  {
    var i := |window|;
    assert window[..i] == window;
    while i > 0
      invariant 0 <= i <= |window|
      invariant LatestOther(window, fingerprint) == LatestOther(window[..i], fingerprint)
    {
      assert window[..i][..i - 1] == window[..i - 1];
      if window[i - 1].fingerprint != fingerprint {
        return window[i - 1].commitId;
      }
      i := i - 1;
    }
    id := "";
  }

  // ---------------------------------------------------------------- what a warning means

  /** The suggested commit is the latest entry that differs, with only repetitions after it. */
  lemma {:induction false} SuggestionIsLatestOther(window: seq<Entry>, fingerprint: string)
    ensures Count(window, fingerprint) == |window| ==> LatestOther(window, fingerprint) == ""
    ensures Count(window, fingerprint) < |window| ==>
      exists k :: 0 <= k < |window| && window[k].fingerprint != fingerprint
                  && window[k].commitId == LatestOther(window, fingerprint)
        && forall j :: k < j < |window| ==> window[j].fingerprint == fingerprint
    decreases |window|
  {
    if window != [] {
      var front, last := window[..|window| - 1], window[|window| - 1];
      assert window == front + [last];
      CountSnoc(front, last, fingerprint);
      if last.fingerprint == fingerprint {
        SuggestionIsLatestOther(front, fingerprint);
      } else {
        assert window[|window| - 1].fingerprint != fingerprint;
      }
    }
  }

  /** A window of size 1 never warns, and no count exceeds the size plus one. */
  lemma CountIsBounded(history: seq<Inspection>, key: string, size: nat, fingerprint: string)
    requires size >= 1
    ensures Count(Window(history, key, size), fingerprint) + 1 <= size + 1
    ensures size == 1 ==> Count(Window(history, key, size), fingerprint) < 2
  {
  }

  lemma {:induction false} AllSameCount(window: seq<Entry>, fingerprint: string)
    requires forall i :: 0 <= i < |window| ==> window[i].fingerprint == fingerprint
    ensures Count(window, fingerprint) == |window|
    decreases |window|
  {
    if window != [] { AllSameCount(window[1..], fingerprint); }
  }

  lemma {:induction false} CountConcat(a: seq<Entry>, b: seq<Entry>, fingerprint: string)
    ensures Count(a + b, fingerprint) == Count(a, fingerprint) + Count(b, fingerprint)
    decreases |a|
  {
    if a == [] {
      assert a + b == b;
    } else {
      assert (a + b)[1..] == a[1..] + b;
      CountConcat(a[1..], b, fingerprint);
    }
  }

  /** A third occurrence in a row is always warned about, unless the window holds a single entry. */
  lemma ThirdInARowWarns(history: seq<Inspection>, key: string, size: nat, fingerprint: string)
    requires size != 1
    requires var es := Entries(history, key);
             |es| >= 2 && es[|es| - 1].fingerprint == fingerprint && es[|es| - 2].fingerprint == fingerprint
    ensures Count(Window(history, key, size), fingerprint) >= 2
  {
    var window := Window(history, key, size);
    var n := |window|;
    var tail := window[n - 2..];
    AllSameCount(tail, fingerprint);
    assert window == window[..n - 2] + tail;
    CountConcat(window[..n - 2], tail, fingerprint);
  }
}
