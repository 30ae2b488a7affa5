/** What the loop detector counts, on the fields of the commits it has seen. */
module LoopCounts {
  import opened Commits
  import opened LoopDetector
  import Text
  import opened Wrappers

  // ---------------------------------------------------------------- fingerprints on fields

  /** No separator in any part of a fingerprint, and no list that holds one empty name only. */
  ghost predicate Separable(b: Body) {
    && '|' !in b.objective && '|' !in b.summary && (b.delta.Some? ==> '|' !in b.delta.value.contentHash)
    && (forall call :: call in b.toolCalls ==> Plain(call.name))
    && (forall result :: result in b.toolResults && result.error.Some? ==> Plain(result.error.value))
    && (forall m :: m in b.parents ==> Plain(m))
    && (|b.toolCalls| == 1 ==> b.toolCalls[0].name != "") && ErrorsOf(b.toolResults) != [""]
  }

  /** The delta's content hash; a commit without a delta counts as one with the empty hash. */
  predicate SameHash(a: Option<Payload>, b: Option<Payload>) {
    match (a, b)
    case (Some(x), Some(y)) => x.contentHash == y.contentHash
    case (Some(x), None) => x.contentHash == ""
    case (None, Some(y)) => y.contentHash == ""
    case (None, None) => true
  }

  /** The tools called, in order. */
  predicate SameTools(a: seq<ToolCall>, b: seq<ToolCall>) {
    |a| == |b| && forall i :: 0 <= i < |a| ==> a[i].name == b[i].name
  }

  /** What a fingerprint is meant to compare. */
  predicate SameWork(a: Body, b: Body) {
    && a.objective == b.objective && a.summary == b.summary && SameHash(a.delta, b.delta)
    && SameTools(a.toolCalls, b.toolCalls) && ErrorsOf(a.toolResults) == ErrorsOf(b.toolResults)
    && a.parents == b.parents
  }

  /** The error codes are those of the results that have one, in order. */
  lemma {:induction false} ErrorsInOrder(before: seq<ToolResult>, r: ToolResult, after: seq<ToolResult>)
    ensures ErrorsOf([]) == []
    ensures ErrorsOf(before + [r] + after)
         == ErrorsOf(before) + (if r.error.Some? then [r.error.value] else []) + ErrorsOf(after)
    decreases |before|
  {
    var all := before + [r] + after;
    if before == [] {
      assert all == [r] + after;
      assert all[1..] == after;
    } else {
      ErrorsInOrder(before[1..], r, after);
      assert all[0] == before[0] && all[1..] == before[1..] + [r] + after;
    }
  }

  lemma {:induction false} ErrorsPlain(results: seq<ToolResult>)
    requires forall r :: r in results && r.error.Some? ==> Plain(r.error.value)
    ensures forall i :: 0 <= i < |ErrorsOf(results)| ==> Plain(ErrorsOf(results)[i])
    decreases |results|
  {
    if results != [] {
      ErrorsPlain(results[1..]);
      assert results[0] in results;
    }
  }

  lemma CommasPlain(names: seq<string>)
    requires forall i :: 0 <= i < |names| ==> Plain(names[i])
    ensures '|' !in Commas(names) && Text.SepFree(names, ',')
  {
    if names != [] { JoinHasNo(names, ',', '|'); }
  }

  lemma JoinEmptyIff(names: seq<string>, sep: char)
    requires names != []
    ensures Text.Join(names, sep) == "" <==> names == [""]
  {
    if |names| == 1 { assert names == [names[0]]; }
  }

  /** Lists of plain names print alike only when they are alike, the list of one empty name aside. */
  lemma CommasInjective(a: seq<string>, b: seq<string>)
    requires Text.SepFree(a, ',') && Text.SepFree(b, ',') && a != [""] && b != [""]
    requires Commas(a) == Commas(b)
    ensures a == b
  {
    if a != [] { JoinEmptyIff(a, ','); }
    if b != [] { JoinEmptyIff(b, ','); }
    if a != [] && b != [] { Text.JoinInjective(a, b, ','); }
  }

  lemma PartsSepFree(b: Body)
    requires Separable(b)
    ensures Text.SepFree(FingerprintParts(b), '|')
    ensures Text.SepFree(NamesOf(b.toolCalls), ',') && NamesOf(b.toolCalls) != [""]
    ensures Text.SepFree(ErrorsOf(b.toolResults), ',') && ErrorsOf(b.toolResults) != [""]
  {
    var names, codes := NamesOf(b.toolCalls), ErrorsOf(b.toolResults);
    forall i | 0 <= i < |names| ensures Plain(names[i]) {
      assert b.toolCalls[i] in b.toolCalls;
    }
    assert |names| == 1 ==> names[0] != "";
    ErrorsPlain(b.toolResults);
    CommasPlain(names);
    CommasPlain(codes);
    PrintedPlain(b.parents);
  }

  lemma SameToolsIff(a: seq<ToolCall>, b: seq<ToolCall>)
    ensures SameTools(a, b) <==> NamesOf(a) == NamesOf(b)
  {
    if NamesOf(a) == NamesOf(b) {
      assert |a| == |b|;
      assert forall i :: 0 <= i < |a| ==> NamesOf(a)[i] == a[i].name && NamesOf(b)[i] == b[i].name;
    }
  }

  lemma FingerprintSameWork(digest: string -> string, a: Commit, b: Commit)
    requires TellsApart(digest) && Separable(a.body) && Separable(b.body)
    ensures Fingerprint(digest, a) == Fingerprint(digest, b) <==> SameWork(a.body, b.body)
  {
    var p, q := FingerprintParts(a.body), FingerprintParts(b.body);
    SameToolsIff(a.body.toolCalls, b.body.toolCalls);
    if Fingerprint(digest, a) == Fingerprint(digest, b) {
      PartsSepFree(a.body);
      PartsSepFree(b.body);
      Text.JoinInjective(p, q, '|');
      assert p[0] == q[0] && p[1] == q[1] && p[2] == q[2] && p[3] == q[3] && p[4] == q[4] && p[5] == q[5];
      CommasInjective(NamesOf(a.body.toolCalls), NamesOf(b.body.toolCalls));
      CommasInjective(ErrorsOf(a.body.toolResults), ErrorsOf(b.body.toolResults));
      PrintedInjective(a.body.parents, b.body.parents);
    }
  }

  /**
    With a digest that does not collide and fields without separators, fingerprints are equal exactly when
    objective, summary, content hash, tools in order, error codes in order and parents all are.
  */
  lemma FingerprintIff(digest: string -> string, a: Commit, b: Commit)
    requires TellsApart(digest) && Separable(a.body) && Separable(b.body)
    ensures Fingerprint(digest, a) == Fingerprint(digest, b) <==>
      var x, y := a.body, b.body;
      && x.objective == y.objective && x.summary == y.summary
      && (if x.delta.Some? then x.delta.value.contentHash else "")
         == (if y.delta.Some? then y.delta.value.contentHash else "")
      && |x.toolCalls| == |y.toolCalls|
      && (forall i :: 0 <= i < |x.toolCalls| ==> x.toolCalls[i].name == y.toolCalls[i].name)
      && ErrorsOf(x.toolResults) == ErrorsOf(y.toolResults)
      && x.parents == y.parents
  {
    FingerprintSameWork(digest, a, b);
  }

  // ---------------------------------------------------------------- what is counted

  /** What a detector has inspected once it has seen these commits. */
  function Inspected(digest: string -> string, cs: seq<Commit>): (history: seq<Inspection>)
    ensures |history| == |cs|
  {
    seq(|cs|, i requires 0 <= i < |cs| =>
      Inspection(WindowKey(cs[i].body), Entry(Fingerprint(digest, cs[i]), cs[i].id)))
  }

  lemma InspectedSnoc(digest: string -> string, cs: seq<Commit>, c: Commit)
    ensures Inspected(digest, cs + [c])
         == Inspected(digest, cs) + [Inspection(WindowKey(c.body), Entry(Fingerprint(digest, c), c.id))]
  {
  }

  /** Both commits are of the same run, agent and channel. */
  predicate SameStream(a: Body, b: Body) {
    a.run == b.run && a.agent == b.agent && a.channel == b.channel
  }

  predicate Named(b: Body) {
    '|' !in b.run && '|' !in b.agent && '|' !in b.channel
  }

  /** The commits of `c`'s stream seen after the one at position `i`. */
  function NewerOf(cs: seq<Commit>, c: Commit, i: nat): set<nat> {
    set j: nat | i < j < |cs| && SameStream(cs[j].body, c.body)
  }

  /** The commit at `i` is of `c`'s stream, and fewer than `size` of that stream were seen after it. */
  predicate Remembered(cs: seq<Commit>, c: Commit, size: nat, i: nat)
    requires i < |cs|
  {
    SameStream(cs[i].body, c.body) && (size == 0 || |NewerOf(cs, c, i)| < size)
  }

  /** The remembered commits that say the same as `c`. */
  function Repeats(cs: seq<Commit>, c: Commit, size: nat): set<nat> {
    set i: nat | i < |cs| && Remembered(cs, c, size, i) && SameWork(cs[i].body, c.body)
  }

  lemma SameKeyIff(a: Body, b: Body)
    requires Named(a) && Named(b)
    ensures WindowKey(a) == WindowKey(b) <==> SameStream(a, b)
  {
    if WindowKey(a) == WindowKey(b) {
      WindowKeyReadsBack(a);
      WindowKeyReadsBack(b);
      var p, q := [a.run, a.agent, a.channel], [b.run, b.agent, b.channel];
      assert p == q;
      assert p[0] == q[0] && p[1] == q[1] && p[2] == q[2];
    }
  }

  lemma NewerSnoc(cs: seq<Commit>, d: Commit, c: Commit, i: nat)
    requires i < |cs|
    ensures |NewerOf(cs + [d], c, i)| == |NewerOf(cs, c, i)| + if SameStream(d.body, c.body) then 1 else 0
  {
    var newer := NewerOf(cs, c, i);
    assert |cs| !in newer;
    assert NewerOf(cs + [d], c, i) == if SameStream(d.body, c.body) then newer + {|cs|} else newer;
  }

  /** One more commit of another stream changes nothing for `c`. */
  lemma OtherStream(cs: seq<Commit>, d: Commit, c: Commit, size: nat)
    requires !SameStream(d.body, c.body)
    ensures Repeats(cs + [d], c, size) == Repeats(cs, c, size)
  {
    forall i: nat | i < |cs| ensures Remembered(cs + [d], c, size, i) <==> Remembered(cs, c, size, i) {
      NewerSnoc(cs, d, c, i);
    }
  }

  /** One more commit of its own stream takes the place of the oldest remembered one. */
  lemma OwnStream(cs: seq<Commit>, d: Commit, c: Commit, size: nat)
    requires SameStream(d.body, c.body) && size != 1
    ensures Repeats(cs + [d], c, size) ==
      Repeats(cs, c, Less(size)) + if SameWork(d.body, c.body) then {|cs|} else {}
  {
    forall i: nat | i < |cs| ensures Remembered(cs + [d], c, size, i) <==> Remembered(cs, c, Less(size), i) {
      NewerSnoc(cs, d, c, i);
    }
    assert NewerOf(cs + [d], c, |cs|) == {};
  }

  /** A window of one remembers the last commit of the stream only. */
  lemma LastOnly(cs: seq<Commit>, d: Commit, c: Commit)
    requires SameStream(d.body, c.body)
    ensures Repeats(cs + [d], c, 1) == if SameWork(d.body, c.body) then {|cs|} else {}
  {
    forall i: nat | i < |cs| ensures !Remembered(cs + [d], c, 1, i) {
      NewerSnoc(cs, d, c, i);
    }
    assert NewerOf(cs + [d], c, |cs|) == {};
  }

  /** The size of a window without its last entry; 0 is no bound. */
  function Less(size: nat): nat {
    if size == 0 then 0 else size - 1
  }

  /** What one more entry under the key does to a count. */
  lemma CountOneMore(history: seq<Inspection>, i: Inspection, size: nat, fingerprint: string)
    ensures Count(Window(history + [i], i.key, size), fingerprint) ==
      (if size == 1 then 0 else Count(Window(history, i.key, Less(size)), fingerprint))
      + if i.entry.fingerprint == fingerprint then 1 else 0
  {
    assert (history + [i])[..|history|] == history;
    var es := Entries(history, i.key);
    assert Entries(history + [i], i.key) == es + [i.entry];
    var kept := if size == 1 then [] else Window(history, i.key, Less(size));
    assert Window(history + [i], i.key, size) == kept + [i.entry];
    CountSnoc(kept, i.entry, fingerprint);
  }

  /**
    Whatever the window size, the detector counts exactly those earlier commits of the same run, agent and
    channel that are still remembered and agree in objective, summary, content hash, tools, errors and parents.
  */
  lemma {:induction false} CountsRepeats(digest: string -> string, cs: seq<Commit>, c: Commit, size: nat)
    requires TellsApart(digest) && Separable(c.body) && Named(c.body)
    requires forall d :: d in cs ==> Separable(d.body) && Named(d.body)
    ensures Count(Window(Inspected(digest, cs), WindowKey(c.body), size), Fingerprint(digest, c))
         == |Repeats(cs, c, size)|
    decreases |cs|
  {
    if cs != [] {
      var front, d := cs[..|cs| - 1], cs[|cs| - 1];
      assert cs == front + [d] && d in cs;
      var i := Inspection(WindowKey(d.body), Entry(Fingerprint(digest, d), d.id));
      var history := Inspected(digest, front);
      InspectedSnoc(digest, front, d);
      SameKeyIff(d.body, c.body);
      if !SameStream(d.body, c.body) {
        CountsRepeats(digest, front, c, size);
        OtherStream(front, d, c, size);
        SlideKeepsWindow(history, i, WindowKey(c.body), size);
      } else {
        FingerprintSameWork(digest, d, c);
        CountOneMore(history, i, size, Fingerprint(digest, c));
        if size == 1 {
          LastOnly(front, d, c);
        } else {
          CountsRepeats(digest, front, c, Less(size));
          OwnStream(front, d, c, size);
          assert |front| !in Repeats(front, c, Less(size));
        }
      }
    }
  }
}
