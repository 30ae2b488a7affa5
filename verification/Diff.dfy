/** The structural diff between two captured states (daemon/src/ledger/diff.rs). */
module Diff {
  import opened Json
  import opened DeepMerge
  import opened Seqs
  import opened Wrappers
  import Text

  datatype Change = Added | Removed | Changed

  /** One diff entry; `after` is Null for a removal and `before` is Null for an addition. */
  datatype Entry = Entry(path: Path, change: Change, before: Json, after: Json)

  /** The entry path as it is printed: `$`, then every key after a dot. */
  function Render(path: Path): string {
    Text.Join(["$"] + path, '.')
  }

  /** Splitting a printed path at its dots gives its keys exactly when no key on it contains one. */
  lemma RenderReadsBack(path: Path)
    ensures Text.Split(Render(path), '.') == ["$"] + path <==> Text.SepFree(path, '.')
  {
    Text.SplitJoin(["$"] + path, '.');
    if Text.SepFree(path, '.') {
      forall i | 0 <= i < |["$"] + path| ensures '.' !in (["$"] + path)[i] {}
    } else {
      var i :| 0 <= i < |path| && '.' in path[i];
      assert (["$"] + path)[i + 1] == path[i];
    }
  }

  lemma RenderCollides()
    ensures Render(["a.b"]) == Render(["a", "b"])
  {
    assert ["$"] + ["a.b"] == ["$", "a.b"];
    assert ["$"] + ["a", "b"] == ["$", "a", "b"];
    assert Text.Join(["b"], '.') == "b";
    assert Text.Join(["a", "b"], '.') == "a" + "." + "b";
    assert Text.Join(["$", "a", "b"], '.') == "$" + "." + "a.b";
    assert Text.Join(["a.b"], '.') == "a.b";
  }

  /** Two paths print alike exactly when their keys, split at dots, are the same pieces. */
  lemma RenderSameIff(p: Path, q: Path)
    ensures Render(p) == Render(q) <==> Text.Pieces(p, '.') == Text.Pieces(q, '.')
  {
    var root := Text.Split("$", '.');
    Text.JoinSameIff(["$"] + p, ["$"] + q, '.');
    assert (["$"] + p)[1..] == p && (["$"] + q)[1..] == q;
    assert Text.Pieces(["$"] + p, '.') == root + Text.Pieces(p, '.');
    assert Text.Pieces(["$"] + q, '.') == root + Text.Pieces(q, '.');
    if Render(p) == Render(q) {
      assert (root + Text.Pieces(p, '.'))[|root|..] == Text.Pieces(p, '.');
      assert (root + Text.Pieces(q, '.'))[|root|..] == Text.Pieces(q, '.');
    }
  }

  // ---------------------------------------------------------------- which entries

  /** `e`, seen from below the first `n` keys of its path. */
  function Strip(e: Entry, n: nat): Entry
    requires n <= |e.path|
  {
    e.(path := e.path[n..])
  }

  /** The entries of a diff, one path at a time. */
  predicate IsEntry(before: Json, after: Json, e: Entry)
    decreases |e.path|
  {
    if before.Object? && after.Object? then
      e.path != [] &&
      var k := e.path[0];
      if k in before.fields && k in after.fields then
        IsEntry(before.fields[k], after.fields[k], Strip(e, 1))
      else if k in before.fields then
        e == Entry([k], Removed, before.fields[k], Null)
      else
        k in after.fields && e == Entry([k], Added, Null, after.fields[k])
    else
      before != after && e == Entry([], Changed, before, after)
  }

  /** `es` lists every entry of the diff whose first key is in `keys`, once each, as seen from `path`. */
  ghost predicate ListsKeys(es: seq<Entry>, path: Path, before: Json, after: Json, keys: set<string>) {
    && Distinct(es)
    && forall e :: e in es <==>
         && |path| < |e.path| && path == e.path[..|path|] && e.path[|path|] in keys
         && IsEntry(before, after, Strip(e, |path|))
  }

  /** `es` lists every entry of the diff once, as seen from `path`. */
  ghost predicate Lists(es: seq<Entry>, path: Path, before: Json, after: Json) {
    && Distinct(es)
    && forall e :: e in es <==>
         && |path| <= |e.path| && path == e.path[..|path|]
         && IsEntry(before, after, Strip(e, |path|))
  }

  // ---------------------------------------------------------------- in which order

  /**
    The entries in the order they are pushed: for objects first the removals, then the new object's
    keys, both in key order.
  */
  ghost function EntriesOf(before: Json, after: Json, path: Path): seq<Entry>
    decreases before, 2
  {
    if before.Object? && after.Object? then
      var gone, keys := KeysInOrder(before.fields.Keys), KeysInOrder(after.fields.Keys);
      assert forall k :: k in gone ==> k in Elems(gone);
      assert forall k :: k in keys ==> k in Elems(keys);
      RemovedEntries(before, after, gone, path) + KeyEntries(before, after, keys, path)
    else if before == after then []
    else [Entry(path, Changed, before, after)]
  }

  ghost function RemovedEntries(before: Json, after: Json, ks: seq<string>, path: Path): seq<Entry>
    requires before.Object? && after.Object? && forall k :: k in ks ==> k in before.fields
  {
    if ks == [] then [] else RemovedField(before, after, ks[0], path) + RemovedEntries(before, after, ks[1..], path)
  }

  ghost function RemovedField(before: Json, after: Json, k: string, path: Path): seq<Entry>
    requires before.Object? && after.Object? && k in before.fields
  {
    if k in after.fields then [] else [Entry(path + [k], Removed, before.fields[k], Null)]
  }

  ghost function KeyEntries(before: Json, after: Json, ks: seq<string>, path: Path): seq<Entry>
    requires before.Object? && after.Object? && forall k :: k in ks ==> k in after.fields
    decreases before, 1, |ks|
  {
    if ks == [] then [] else FieldEntries(before, after, ks[0], path) + KeyEntries(before, after, ks[1..], path)
  }

  ghost function FieldEntries(before: Json, after: Json, k: string, path: Path): seq<Entry>
    requires before.Object? && after.Object? && k in after.fields
    decreases before, 0
  {
    if k in before.fields then EntriesOf(before.fields[k], after.fields[k], path + [k])
    else [Entry(path + [k], Added, Null, after.fields[k])]
  }

  lemma StripMore(e: Entry, n: nat)
    requires n < |e.path|
    ensures Strip(Strip(e, n), 1) == Strip(e, n + 1)
    ensures Strip(e, n).path[0] == e.path[n]
  {
  }

  lemma OneMoreKey(
      es: seq<Entry>, sub: seq<Entry>, path: Path, before: Json, after: Json, keys: set<string>, k: string)
    requires before.Object? && after.Object? && ListsKeys(es, path, before, after, keys) && k !in keys
    requires k in before.fields && k in after.fields && Lists(sub, path + [k], before.fields[k], after.fields[k])
    ensures ListsKeys(es + sub, path, before, after, keys + {k})
  {
    forall e: Entry | |path| < |e.path|
      ensures e in sub <==>
         && path == e.path[..|path|] && e.path[|path|] == k
         && IsEntry(before, after, Strip(e, |path|))
    {
      StripMore(e, |path|);
      assert e.path[..|path| + 1] == e.path[..|path|] + [e.path[|path|]];
    }
    assert forall i, j :: 0 <= i < |es| && 0 <= j < |sub| ==> es[i] in es && sub[j] in sub;
  }

  lemma OneMoreEntry(es: seq<Entry>, e: Entry, path: Path, before: Json, after: Json, keys: set<string>, k: string)
    requires before.Object? && after.Object? && ListsKeys(es, path, before, after, keys)
    requires k !in keys && !(k in before.fields && k in after.fields)
    requires e.path == path + [k] && IsEntry(before, after, Strip(e, |path|))
    ensures ListsKeys(es + [e], path, before, after, keys + {k})
  {
    assert Strip(e, |path|).path == [k];
    forall x: Entry | |path| < |x.path| && path == x.path[..|path|] && x.path[|path|] == k
         && IsEntry(before, after, Strip(x, |path|))
      ensures x == e
    {
      assert Strip(x, |path|).path == [k];
      assert Strip(x, |path|) == Strip(e, |path|);
      assert x.path == x.path[..|path|] + x.path[|path|..];
      assert x.path == e.path;
    }
    assert forall i :: 0 <= i < |es| ==> es[i] in es;
  }

  /** A shared key has nothing to remove, so it may be counted as done by the first loop. */
  lemma RemovedFieldListed(es: seq<Entry>, path: Path, before: Json, after: Json, done: set<string>, k: string)
    requires before.Object? && after.Object? && k in before.fields && k !in done
    requires ListsKeys(es, path, before, after, done - after.fields.Keys)
    ensures ListsKeys(es + RemovedField(before, after, k, path), path, before, after, done + {k} - after.fields.Keys)
  {
    if k in after.fields {
      assert es + [] == es && done + {k} - after.fields.Keys == done - after.fields.Keys;
    } else {
      var e := Entry(path + [k], Removed, before.fields[k], Null);
      assert Strip(e, |path|).path == [k];
      OneMoreEntry(es, e, path, before, after, done - after.fields.Keys, k);
      assert done + {k} - after.fields.Keys == done - after.fields.Keys + {k};
    }
  }

  /** `ks` lists keys of an object, none of them done, once each. */
  ghost predicate ToDo(ks: seq<string>, keys: set<string>, done: set<string>) {
    Distinct(ks) && forall k :: k in ks ==> k in keys && k !in done
  }

  lemma ToDoRest(ks: seq<string>, keys: set<string>, done: set<string>)
    requires ToDo(ks, keys, done) && ks != []
    ensures ks[0] in keys && ks[0] !in done
    ensures ToDo(ks[1..], keys, done + {ks[0]})
    ensures done + Elems(ks) == done + {ks[0]} + Elems(ks[1..])
  {
    assert ks == [ks[0]] + ks[1..];
  }

  lemma {:induction false} RemovalsListed(
      es: seq<Entry>, path: Path, before: Json, after: Json, done: set<string>, ks: seq<string>)
    requires before.Object? && after.Object? && ListsKeys(es, path, before, after, done - after.fields.Keys)
    requires ToDo(ks, before.fields.Keys, done)
    ensures ListsKeys(es + RemovedEntries(before, after, ks, path), path, before, after,
                      done + Elems(ks) - after.fields.Keys)
    decreases |ks|
  {
    if ks == [] {
      assert es + [] == es && done + Elems(ks) == done;
    } else {
      ToDoRest(ks, before.fields.Keys, done);
      var first := RemovedField(before, after, ks[0], path);
      RemovedFieldListed(es, path, before, after, done, ks[0]);
      RemovalsListed(es + first, path, before, after, done + {ks[0]}, ks[1..]);
      Associates(es, first, RemovedEntries(before, after, ks[1..], path));
    }
  }

  lemma Associates(a: seq<Entry>, b: seq<Entry>, c: seq<Entry>)
    ensures a + (b + c) == a + b + c
  {
  }

  lemma FieldListed(es: seq<Entry>, path: Path, before: Json, after: Json, done: set<string>, k: string)
    requires before.Object? && after.Object? && k in after.fields && k !in done
    requires ListsKeys(es, path, before, after, done)
    requires k in before.fields ==>
      Lists(FieldEntries(before, after, k, path), path + [k], before.fields[k], after.fields[k])
    ensures ListsKeys(es + FieldEntries(before, after, k, path), path, before, after, done + {k})
  {
    if k in before.fields {
      OneMoreKey(es, FieldEntries(before, after, k, path), path, before, after, done, k);
    } else {
      var e := Entry(path + [k], Added, Null, after.fields[k]);
      assert Strip(e, |path|).path == [k];
      OneMoreEntry(es, e, path, before, after, done, k);
    }
  }

  lemma {:induction false} KeysListed(
      es: seq<Entry>, path: Path, before: Json, after: Json, done: set<string>, ks: seq<string>)
    requires before.Object? && after.Object? && ListsKeys(es, path, before, after, done)
    requires ToDo(ks, after.fields.Keys, done)
    ensures ListsKeys(es + KeyEntries(before, after, ks, path), path, before, after, done + Elems(ks))
    decreases before, 0, |ks|
  {
    if ks == [] {
      assert es + [] == es && done + Elems(ks) == done;
    } else {
      ToDoRest(ks, after.fields.Keys, done);
      var first := FieldEntries(before, after, ks[0], path);
      if ks[0] in before.fields {
        EntriesListed(before.fields[ks[0]], after.fields[ks[0]], path + [ks[0]]);
      }
      FieldListed(es, path, before, after, done, ks[0]);
      KeysListed(es + first, path, before, after, done + {ks[0]}, ks[1..]);
      Associates(es, first, KeyEntries(before, after, ks[1..], path));
    }
  }

  lemma AllKeysListed(es: seq<Entry>, path: Path, before: Json, after: Json)
    requires before.Object? && after.Object?
    requires ListsKeys(es, path, before, after, before.fields.Keys + after.fields.Keys)
    ensures Lists(es, path, before, after)
  {
  }

  /** The pushed entries are exactly the entries of the two values, each once. */
  lemma {:induction false} EntriesListed(before: Json, after: Json, path: Path)
    ensures Lists(EntriesOf(before, after, path), path, before, after)
    decreases before, 1
  {
    if before.Object? && after.Object? {
      var gone, keys := KeysInOrder(before.fields.Keys), KeysInOrder(after.fields.Keys);
      KeysAscend(before.fields.Keys);
      KeysAscend(after.fields.Keys);
      assert forall k :: k in gone <==> k in Elems(gone);
      assert forall k :: k in keys <==> k in Elems(keys);
      var removed := RemovedEntries(before, after, gone, path);
      assert [] + removed == removed;
      RemovalsListed([], path, before, after, {}, gone);
      KeysListed(removed, path, before, after, before.fields.Keys - after.fields.Keys, keys);
      assert before.fields.Keys - after.fields.Keys + after.fields.Keys == before.fields.Keys + after.fields.Keys;
      AllKeysListed(EntriesOf(before, after, path), path, before, after);
    } else {
      forall e: Entry | |path| <= |e.path| && path == e.path[..|path|] && IsEntry(before, after, Strip(e, |path|))
        ensures e == Entry(path, Changed, before, after)
      {
        assert e.path == e.path[..|path|] + e.path[|path|..];
      }
    }
  }

  /** `e` removes a key of the object at a path of length `n`. */
  predicate GoneAt(e: Entry, n: nat) {
    e.change.Removed? && |e.path| == n + 1
  }

  /** Below a path of length `n`: removals before all others, and each of the two kinds by ascending key. */
  ghost predicate InOrder(es: seq<Entry>, n: nat) {
    && (forall i :: 0 <= i < |es| ==> n < |es[i].path|)
    && (forall i, j :: 0 <= i < j < |es| ==>
         && (GoneAt(es[j], n) ==> GoneAt(es[i], n))
         && (GoneAt(es[i], n) == GoneAt(es[j], n) ==>
              es[i].path[n] == es[j].path[n] || Text.Below(es[i].path[n], es[j].path[n])))
  }

  /** All entries have their key at `n` among `ks`, and are removals there or not. */
  ghost predicate AllAt(es: seq<Entry>, n: nat, ks: seq<string>, gone: bool) {
    forall i :: 0 <= i < |es| ==> n < |es[i].path| && es[i].path[n] in ks && GoneAt(es[i], n) == gone
  }

  predicate Ascending(ks: seq<string>) {
    forall i, j :: 0 <= i < j < |ks| ==> Text.Below(ks[i], ks[j])
  }

  lemma FirstIsLeast(ks: seq<string>)
    requires Ascending(ks) && ks != []
    ensures Ascending(ks[1..]) && forall k :: k in ks[1..] ==> Text.Below(ks[0], k)
  {
  }

  lemma JoinInOrder(a: seq<Entry>, b: seq<Entry>, n: nat, ks: seq<string>, gone: bool)
    requires Ascending(ks) && ks != []
    requires AllAt(a, n, [ks[0]], gone) && AllAt(b, n, ks[1..], gone) && InOrder(b, n)
    ensures InOrder(a + b, n) && AllAt(a + b, n, ks, gone)
  {
    FirstIsLeast(ks);
    assert forall k :: k in ks[1..] ==> k in ks;
    assert ks[0] in ks;
  }

  lemma {:induction false} RemovedInOrder(before: Json, after: Json, ks: seq<string>, path: Path)
    requires before.Object? && after.Object? && (forall k :: k in ks ==> k in before.fields) && Ascending(ks)
    ensures InOrder(RemovedEntries(before, after, ks, path), |path|)
    ensures AllAt(RemovedEntries(before, after, ks, path), |path|, ks, true)
    decreases |ks|
  {
    if ks != [] {
      FirstIsLeast(ks);
      RemovedInOrder(before, after, ks[1..], path);
      var first, rest := RemovedField(before, after, ks[0], path), RemovedEntries(before, after, ks[1..], path);
      JoinInOrder(first, rest, |path|, ks, true);
    }
  }

  lemma FieldAtKey(before: Json, after: Json, k: string, path: Path)
    requires before.Object? && after.Object? && k in after.fields
    ensures AllAt(FieldEntries(before, after, k, path), |path|, [k], false)
  {
    var es := FieldEntries(before, after, k, path);
    if k in before.fields {
      EntriesListed(before.fields[k], after.fields[k], path + [k]);
      forall i | 0 <= i < |es| ensures |path| < |es[i].path| && es[i].path[|path|] == k && !GoneAt(es[i], |path|) {
        assert es[i] in es;
        assert es[i].path[..|path| + 1] == path + [k];
        assert es[i].path[..|path| + 1][|path|] == k;
        assert |es[i].path| == |path| + 1 ==> Strip(es[i], |path| + 1).path == [];
      }
    }
  }

  lemma {:induction false} KeysInOrderPush(before: Json, after: Json, ks: seq<string>, path: Path)
    requires before.Object? && after.Object? && (forall k :: k in ks ==> k in after.fields) && Ascending(ks)
    ensures InOrder(KeyEntries(before, after, ks, path), |path|)
    ensures AllAt(KeyEntries(before, after, ks, path), |path|, ks, false)
    decreases |ks|
  {
    if ks != [] {
      FirstIsLeast(ks);
      KeysInOrderPush(before, after, ks[1..], path);
      FieldAtKey(before, after, ks[0], path);
      var first, rest := FieldEntries(before, after, ks[0], path), KeyEntries(before, after, ks[1..], path);
      JoinInOrder(first, rest, |path|, ks, false);
    }
  }

  /** The entries of two objects: vanished keys first, then the new object's, both by ascending key. */
  lemma EntriesInOrder(before: Json, after: Json, path: Path)
    requires before.Object? && after.Object?
    ensures InOrder(EntriesOf(before, after, path), |path|)
  {
    var gone, keys := KeysInOrder(before.fields.Keys), KeysInOrder(after.fields.Keys);
    KeysAscend(before.fields.Keys);
    KeysAscend(after.fields.Keys);
    assert forall k :: k in gone ==> k in Elems(gone);
    assert forall k :: k in keys ==> k in Elems(keys);
    RemovedInOrder(before, after, gone, path);
    KeysInOrderPush(before, after, keys, path);
  }

  // ---------------------------------------------------------------- the code

  /** `diff_value`: pushes the entries of one pair of values. */
  method DiffValue(path: Path, before: Json, after: Json, entries: seq<Entry>) returns (out: seq<Entry>)
    ensures out == entries + EntriesOf(before, after, path)
    decreases before, 2
  {
    if before.Object? && after.Object? {
      out := DiffObject(path, before, after, entries);
    } else if before == after {
      out := entries;
    } else {
      out := entries + [Entry(path, Changed, before, after)];
    }
  }

  /** What the first loop still has to push once only the keys in `left` remain. */
  ghost function RemovedFrom(before: Json, after: Json, left: set<string>, path: Path): seq<Entry>
    requires before.Object? && after.Object? && left <= before.fields.Keys
  {
    assert forall k :: k in KeysInOrder(left) ==> k in Elems(KeysInOrder(left));
    RemovedEntries(before, after, KeysInOrder(left), path)
  }

  /** The same for the second loop. */
  ghost function EntriesFrom(before: Json, after: Json, left: set<string>, path: Path): seq<Entry>
    requires before.Object? && after.Object? && left <= after.fields.Keys
  {
    assert forall k :: k in KeysInOrder(left) ==> k in Elems(KeysInOrder(left));
    KeyEntries(before, after, KeysInOrder(left), path)
  }

  /** Where the first loop stands: with `left` still to do, `all` will have been pushed. */
  ghost predicate Removing(before: Json, after: Json, path: Path, left: set<string>, out: seq<Entry>, all: seq<Entry>)
    requires before.Object? && after.Object?
  {
    left <= before.fields.Keys && out + RemovedFrom(before, after, left, path) == all
  }

  ghost predicate Pushing(before: Json, after: Json, path: Path, left: set<string>, out: seq<Entry>, all: seq<Entry>)
    requires before.Object? && after.Object?
  {
    left <= after.fields.Keys && out + EntriesFrom(before, after, left, path) == all
  }

  lemma RemovingStep(
      before: Json, after: Json, path: Path, left: set<string>, out: seq<Entry>, all: seq<Entry>, k: string)
    requires before.Object? && after.Object? && Removing(before, after, path, left, out, all) && IsFirst(k, left)
    ensures Removing(before, after, path, left - {k}, out + RemovedField(before, after, k, path), all)
  {
    TakeFirst(k, left);
    assert ([k] + KeysInOrder(left - {k}))[1..] == KeysInOrder(left - {k});
  }

  lemma PushingStep(
      before: Json, after: Json, path: Path, left: set<string>, out: seq<Entry>, all: seq<Entry>, k: string)
    requires before.Object? && after.Object? && Pushing(before, after, path, left, out, all) && IsFirst(k, left)
    ensures Pushing(before, after, path, left - {k}, out + FieldEntries(before, after, k, path), all)
  {
    TakeFirst(k, left);
    assert ([k] + KeysInOrder(left - {k}))[1..] == KeysInOrder(left - {k});
  }

  lemma PushingStarts(before: Json, after: Json, path: Path, entries: seq<Entry>)
    requires before.Object? && after.Object?
    ensures Pushing(before, after, path, after.fields.Keys,
                    entries + RemovedFrom(before, after, before.fields.Keys, path),
                    entries + EntriesOf(before, after, path))
  {
    var removed := RemovedFrom(before, after, before.fields.Keys, path);
    var pushed := EntriesFrom(before, after, after.fields.Keys, path);
    assert EntriesOf(before, after, path) == removed + pushed;
    Associates(entries, removed, pushed);
  }

  lemma LoopsEnd(before: Json, after: Json, path: Path, out: seq<Entry>, all: seq<Entry>)
    requires before.Object? && after.Object?
    ensures Removing(before, after, path, {}, out, all) ==> out == all
    ensures Pushing(before, after, path, {}, out, all) ==> out == all
  {
    assert out + [] == out;
  }

  /** `diff_object`: removals first, then the keys of the new object, both in key order. */
  method DiffObject(path: Path, before: Json, after: Json, entries: seq<Entry>) returns (out: seq<Entry>)
    requires before.Object? && after.Object?
    ensures out == entries + EntriesOf(before, after, path)
    decreases before, 1
  {
    out := DiffRemoved(path, before, after, entries);
    ghost var all := entries + EntriesOf(before, after, path);
    PushingStarts(before, after, path, entries);
    var left := after.fields.Keys;
    while left != {}
      invariant Pushing(before, after, path, left, out, all)
      decreases left
    {
      FirstExists(left);
      var k :| k in left && IsFirst(k, left);
      PushingStep(before, after, path, left, out, all, k);
      out := DiffKey(path, before, after, out, k);
      left := left - {k};
    }
    LoopsEnd(before, after, path, out, all);
  }

  /** The body of the loop over the new object's keys. */
  method DiffKey(path: Path, before: Json, after: Json, entries: seq<Entry>, k: string) returns (out: seq<Entry>)
    requires before.Object? && after.Object? && k in after.fields
    ensures out == entries + FieldEntries(before, after, k, path)
    decreases before, 0
  {
    if k in before.fields {
      out := DiffValue(path + [k], before.fields[k], after.fields[k], entries);
    } else {
      out := entries + [Entry(path + [k], Added, Null, after.fields[k])];
    }
  }

  /** The first loop of `diff_object`: the keys that are gone. */
  method DiffRemoved(path: Path, before: Json, after: Json, entries: seq<Entry>) returns (out: seq<Entry>)
    requires before.Object? && after.Object?
    ensures out == entries + RemovedFrom(before, after, before.fields.Keys, path)
  {
    out := entries;
    ghost var all := entries + RemovedFrom(before, after, before.fields.Keys, path);
    var left := before.fields.Keys;
    while left != {}
      invariant Removing(before, after, path, left, out, all)
      decreases left
    {
      FirstExists(left);
      var k :| k in left && IsFirst(k, left);
      RemovingStep(before, after, path, left, out, all, k);
      left := left - {k};
      if k !in after.fields {
        out := out + [Entry(path + [k], Removed, before.fields[k], Null)];
      }
    }
    LoopsEnd(before, after, path, out, all);
  }

  // ---------------------------------------------------------------- finding the entry over a path

  /** The one entry whose path is a prefix of `p`, if there is one. */
  function EntryOver(before: Json, after: Json, p: Path): Option<Entry>
    decreases |p|
  {
    if before.Object? && after.Object? then
      if p == [] then None
      else
        var k := p[0];
        if k in before.fields && k in after.fields then
          match EntryOver(before.fields[k], after.fields[k], p[1..])
          case None => None
          case Some(e) => Some(e.(path := [k] + e.path))
        else if k in before.fields then Some(Entry([k], Removed, before.fields[k], Null))
        else if k in after.fields then Some(Entry([k], Added, Null, after.fields[k]))
        else None
    else if before == after then None
    else Some(Entry([], Changed, before, after))
  }

  lemma {:induction false} EntryOverIsEntry(before: Json, after: Json, p: Path)
    ensures EntryOver(before, after, p).Some? ==>
              IsEntry(before, after, EntryOver(before, after, p).value) && EntryOver(before, after, p).value.path <= p
    decreases |p|
  {
    if before.Object? && after.Object? && p != [] && p[0] in before.fields && p[0] in after.fields {
      EntryOverIsEntry(before.fields[p[0]], after.fields[p[0]], p[1..]);
      var sub := EntryOver(before.fields[p[0]], after.fields[p[0]], p[1..]);
      if sub.Some? {
        assert Strip(EntryOver(before, after, p).value, 1) == sub.value;
        assert p == [p[0]] + p[1..];
      }
    }
  }

  lemma {:induction false} EntryOverComplete(before: Json, after: Json, e: Entry, p: Path)
    requires IsEntry(before, after, e) && e.path <= p
    ensures EntryOver(before, after, p) == Some(e)
    decreases |p|
  {
    if before.Object? && after.Object? {
      assert p[0] == e.path[0];
      if p[0] in before.fields && p[0] in after.fields {
        EntryOverComplete(before.fields[p[0]], after.fields[p[0]], Strip(e, 1), p[1..]);
        assert e == Strip(e, 1).(path := [p[0]] + Strip(e, 1).path);
      }
    }
  }

  /** No entry's path is a prefix of another's. */
  lemma {:induction false} EntriesPrefixFree(before: Json, after: Json, e: Entry, f: Entry)
    requires IsEntry(before, after, e) && IsEntry(before, after, f) && e.path <= f.path
    ensures e == f
  {
    EntryOverComplete(before, after, e, f.path);
    EntryOverComplete(before, after, f, f.path);
  }

  // ---------------------------------------------------------------- printed paths within one diff

  /** No key of an object in `v` contains a dot; arrays are compared whole, so their items do not matter. */
  ghost predicate NoDots(v: Json)
    decreases v
  {
    v.Object? ==> forall k :: k in v.fields ==> '.' !in k && NoDots(v.fields[k])
  }

  lemma {:induction false} EntryHasNoDots(before: Json, after: Json, e: Entry)
    requires NoDots(before) && NoDots(after) && IsEntry(before, after, e)
    ensures Text.SepFree(e.path, '.')
    decreases |e.path|
  {
    if before.Object? && after.Object? {
      var k := e.path[0];
      assert '.' !in k;
      if k in before.fields && k in after.fields {
        EntryHasNoDots(before.fields[k], after.fields[k], Strip(e, 1));
        assert e.path == [k] + Strip(e, 1).path;
      }
    }
  }

  /** No two entries of a diff print the same path when no key in either value contains a dot. */
  lemma EntriesPrintApart(before: Json, after: Json, e: Entry, f: Entry)
    requires NoDots(before) && NoDots(after) && IsEntry(before, after, e) && IsEntry(before, after, f)
    requires Render(e.path) == Render(f.path)
    ensures e == f
  {
    EntryHasNoDots(before, after, e);
    EntryHasNoDots(before, after, f);
    RenderReadsBack(e.path);
    RenderReadsBack(f.path);
    assert (["$"] + e.path)[1..] == e.path && (["$"] + f.path)[1..] == f.path;
    EntriesPrefixFree(before, after, e, f);
  }

  /** With dots, two entries of one diff can print the same path. */
  lemma EntriesCollide()
    ensures var before := Object(map["a" := Object(map[])]);
            var after := Object(map["a.b" := Null, "a" := Object(map["b" := Null])]);
            exists e, f :: e != f && IsEntry(before, after, e) && IsEntry(before, after, f)
              && Render(e.path) == Render(f.path)
  {
    var before := Object(map["a" := Object(map[])]);
    var after := Object(map["a.b" := Null, "a" := Object(map["b" := Null])]);
    var e, f := Entry(["a.b"], Added, Null, Null), Entry(["a", "b"], Added, Null, Null);
    assert e.path[0] == "a.b" && |"a.b"| == 3;
    assert IsEntry(before, after, e);
    assert Strip(f, 1) == Entry(["b"], Added, Null, Null);
    assert IsEntry(Object(map[]), Object(map["b" := Null]), Strip(f, 1));
    assert IsEntry(before, after, f);
    RenderCollides();
  }

  // ---------------------------------------------------------------- applying a diff

  function Put(v: Json, q: Path, x: Json): Json
    decreases |q|
  {
    if q == [] then x
    else if v.Object? then Object(v.fields[q[0] := Put(FieldOrNull(v.fields, q[0]), q[1..], x)])
    else v
  }

  function Drop(v: Json, q: Path): Json
    decreases |q|
  {
    if q == [] || !v.Object? || q[0] !in v.fields then v
    else if |q| == 1 then Object(v.fields - {q[0]})
    else Object(v.fields[q[0] := Drop(v.fields[q[0]], q[1..])])
  }

  function ApplyEntry(v: Json, e: Entry): Json {
    if e.change.Removed? then Drop(v, e.path) else Put(v, e.path, e.after)
  }

  function ApplyAll(v: Json, es: seq<Entry>): Json
    decreases |es|
  {
    if es == [] then v else ApplyAll(ApplyEntry(v, es[0]), es[1..])
  }

  /** What an entry leaves at a path below it. */
  function Effect(e: Entry, p: Path): Spot
    requires e.path <= p
  {
    if e.change.Removed? then Absent else At(e.after, p[|e.path|..])
  }

  /** The object that `e` edits is there. */
  predicate Applicable(v: Json, e: Entry) {
    if e.path == [] then !e.change.Removed? else At(v, e.path[..|e.path| - 1]) == Container
  }

  lemma {:induction false} ApplyEntryAt(v: Json, e: Entry, p: Path)
    requires Applicable(v, e)
    ensures At(ApplyEntry(v, e), p) == if e.path <= p then Effect(e, p) else At(v, p)
    decreases |e.path|
  {
    if e.path != [] {
      var k := e.path[0];
      assert v.Object? by { assert |e.path| > 1 ==> e.path[..|e.path| - 1][0] == k; }
      if |e.path| == 1 {
        assert e.path == [k] && e.path[1..] == [];
        assert e.path <= p <==> p != [] && p[0] == k;
        assert Put(FieldOrNull(v.fields, k), e.path[1..], e.after) == e.after;
      } else {
        var sub := Strip(e, 1);
        assert e.path[..|e.path| - 1][1..] == sub.path[..|sub.path| - 1];
        if p != [] && p[0] == k {
          ApplyEntryAt(v.fields[k], sub, p[1..]);
          assert e.path <= p <==> sub.path <= p[1..];
          if e.path <= p { assert p[1..][|sub.path|..] == p[|e.path|..]; }
        }
      }
    }
  }

  predicate PrefixFree(es: seq<Entry>) {
    forall i, j :: 0 <= i < |es| && 0 <= j < |es| && i != j ==> !(es[i].path <= es[j].path)
  }

  lemma {:induction false} ApplyAllAt(v: Json, es: seq<Entry>, p: Path)
    requires PrefixFree(es) && forall i :: 0 <= i < |es| ==> Applicable(v, es[i])
    ensures forall i :: 0 <= i < |es| && es[i].path <= p ==> At(ApplyAll(v, es), p) == Effect(es[i], p)
    ensures (forall i :: 0 <= i < |es| ==> !(es[i].path <= p)) ==> At(ApplyAll(v, es), p) == At(v, p)
    decreases |es|
  {
    if es != [] {
      var w, rest := ApplyEntry(v, es[0]), es[1..];
      forall i | 0 <= i < |rest| ensures Applicable(w, rest[i]) {
        assert rest[i] == es[i + 1];
        var q := rest[i].path;
        if q != [] {
          assert !(es[0].path <= q[..|q| - 1]) by { assert q[..|q| - 1] <= q; }
          ApplyEntryAt(v, es[0], q[..|q| - 1]);
        }
      }
      ApplyAllAt(w, rest, p);
      ApplyEntryAt(v, es[0], p);
      forall i | 0 <= i < |es| && es[i].path <= p ensures At(ApplyAll(v, es), p) == Effect(es[i], p) {
        if i == 0 {
          forall j | 0 <= j < |rest| ensures !(rest[j].path <= p) {
            if rest[j].path <= p { TwoPrefixes(es[0].path, es[j + 1].path, p); }
          }
        } else {
          assert rest[i - 1] == es[i];
        }
      }
      assert forall j :: 0 <= j < |rest| ==> rest[j] == es[j + 1];
    }
  }

  lemma TwoPrefixes(a: Path, b: Path, p: Path)
    requires a <= p && b <= p
    ensures a <= b || b <= a
  {
  }

  /** An entry tells what the new value holds below it, and edits an object of the old one. */
  lemma {:induction false} EntryMeaning(before: Json, after: Json, e: Entry, p: Path)
    requires IsEntry(before, after, e)
    ensures Applicable(before, e)
    ensures e.path <= p ==> At(after, p) == Effect(e, p)
    decreases |e.path|
  {
    if before.Object? && after.Object? {
      var k := e.path[0];
      if k in before.fields && k in after.fields {
        var sub := Strip(e, 1);
        var rest := if p == [] then [] else p[1..];
        EntryMeaning(before.fields[k], after.fields[k], sub, rest);
        if sub.path != [] {
          assert e.path[..|e.path| - 1][1..] == sub.path[..|sub.path| - 1];
        }
        if e.path <= p {
          assert p[0] == k && sub.path <= rest;
          assert rest[|sub.path|..] == p[|e.path|..];
        }
      } else if e.path <= p {
        assert p[0] == k;
      }
    }
  }

  /** Away from the entries nothing changed. */
  lemma {:induction false} NoEntryMeaning(before: Json, after: Json, p: Path)
    requires EntryOver(before, after, p).None?
    ensures At(after, p) == At(before, p)
    decreases |p|
  {
    if before.Object? && after.Object? && p != [] && p[0] in before.fields && p[0] in after.fields {
      NoEntryMeaning(before.fields[p[0]], after.fields[p[0]], p[1..]);
    }
  }

  /** Round trip: the entries, applied to the old value in any order, give the new value. */
  lemma DiffRoundTrip(before: Json, after: Json, es: seq<Entry>)
    requires Lists(es, [], before, after)
    ensures PrefixFree(es)
    ensures ApplyAll(before, es) == after
  {
    forall e ensures e in es <==> IsEntry(before, after, e) {
      assert Strip(e, 0) == e;
    }
    forall i, j | 0 <= i < |es| && 0 <= j < |es| && i != j ensures !(es[i].path <= es[j].path) {
      if es[i].path <= es[j].path { EntriesPrefixFree(before, after, es[i], es[j]); }
    }
    forall i | 0 <= i < |es| ensures Applicable(before, es[i]) {
      EntryMeaning(before, after, es[i], []);
    }
    forall p: Path ensures At(ApplyAll(before, es), p) == At(after, p) {
      RoundTripAt(before, after, es, p);
    }
    Extensional(ApplyAll(before, es), after);
  }

  lemma RoundTripAt(before: Json, after: Json, es: seq<Entry>, p: Path)
    requires forall e :: e in es <==> IsEntry(before, after, e)
    requires PrefixFree(es) && forall i :: 0 <= i < |es| ==> Applicable(before, es[i])
    ensures At(ApplyAll(before, es), p) == At(after, p)
  {
    ApplyAllAt(before, es, p);
    EntryOverIsEntry(before, after, p);
    match EntryOver(before, after, p)
    case Some(e) =>
      EntryMeaning(before, after, e, p);
      assert e in es;
    case None =>
      NoEntryMeaning(before, after, p);
      forall i | 0 <= i < |es| ensures !(es[i].path <= p) {
        assert es[i] in es;
        if es[i].path <= p { EntryOverComplete(before, after, es[i], p); }
      }
  }

  /** No entries exactly when nothing changed. */
  lemma EmptyDiffIffEqual(before: Json, after: Json, es: seq<Entry>)
    requires Lists(es, [], before, after)
    ensures es == [] <==> before == after
  {
    if es == [] {
      DiffRoundTrip(before, after, es);
    } else if before == after {
      assert es[0] in es && Strip(es[0], 0) == es[0];
      NoSelfEntry(before, es[0]);
    }
  }

  lemma {:induction false} NoSelfEntry(v: Json, e: Entry)
    ensures !IsEntry(v, v, e)
    decreases |e.path|
  {
    if v.Object? && e.path != [] && e.path[0] in v.fields {
      NoSelfEntry(v.fields[e.path[0]], Strip(e, 1));
    }
  }

  // ---------------------------------------------------------------- diff and merge agree

  predicate NoRemovals(es: seq<Entry>) {
    forall i :: 0 <= i < |es| ==> !es[i].change.Removed?
  }

  lemma {:induction false} KeptOrTouched(before: Json, after: Json, e: Entry, p: Path)
    requires IsEntry(before, after, e) && e.path <= p
    ensures !e.change.Removed? ==> Touches(after, p) || At(before, p) == Absent
    ensures e.change.Removed? ==> !Touches(after, e.path) && At(before, e.path) != Absent
    decreases |p|
  {
    if before.Object? && after.Object? {
      assert p[0] == e.path[0];
      if p[0] in before.fields && p[0] in after.fields {
        KeptOrTouched(before.fields[p[0]], after.fields[p[0]], Strip(e, 1), p[1..]);
      }
    }
  }

  /** Merging the new value into the old one gives the new value exactly when the diff removes nothing. */
  lemma MergeReachesIffNoRemovals(before: Json, after: Json, es: seq<Entry>)
    requires Lists(es, [], before, after)
    ensures Merge(before, after) == after <==> NoRemovals(es)
  {
    forall e ensures e in es <==> IsEntry(before, after, e) {
      assert Strip(e, 0) == e;
    }
    if NoRemovals(es) {
      forall p: Path ensures At(Merge(before, after), p) == At(after, p) {
        MergeAt(before, after, p);
        if !Touches(after, p) {
          UntouchedIsAbsent(after, p);
          EntryOverIsEntry(before, after, p);
          match EntryOver(before, after, p)
          case Some(e) =>
            assert e in es;
            KeptOrTouched(before, after, e, p);
          case None => NoEntryMeaning(before, after, p);
        }
      }
      Extensional(Merge(before, after), after);
    } else {
      var i :| 0 <= i < |es| && es[i].change.Removed?;
      var q := es[i].path;
      assert es[i] in es;
      KeptOrTouched(before, after, es[i], q);
      MergeAt(before, after, q);
      UntouchedIsAbsent(after, q);
    }
  }

  /** A merge never removes: the diff from a state to that state merged with any delta has no removal. */
  lemma MergeNeverRemoves(state: Json, delta: Json, es: seq<Entry>)
    requires Lists(es, [], state, Merge(state, delta))
    ensures NoRemovals(es)
  {
    forall i | 0 <= i < |es| ensures !es[i].change.Removed? {
      assert es[i] in es && Strip(es[i], 0) == es[i];
      MergedEntryKept(state, delta, es[i]);
    }
  }

  lemma {:induction false} MergedEntryKept(state: Json, delta: Json, e: Entry)
    requires IsEntry(state, Merge(state, delta), e)
    ensures !e.change.Removed?
    decreases |e.path|
  {
    if state.Object? && delta.Object? {
      var k := e.path[0];
      if k in state.fields {
        if k in delta.fields {
          MergedEntryKept(state.fields[k], delta.fields[k], Strip(e, 1));
        } else {
          NoSelfEntry(state.fields[k], Strip(e, 1));
        }
      }
    }
  }
}
