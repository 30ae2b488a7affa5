/** The deep merge that replay applies commit by commit (daemon/src/ledger/replay.rs). */
module DeepMerge {
  import opened Json

  /**
    The value `merge_value` leaves in its target. Unlike MergePatch in section 2 of
    RFC 7396, a null is stored, and an object replaces a non-object unchanged.
  */
  function Merge(target: Json, patch: Json): Json
    decreases patch
  {
    if target.Object? && patch.Object? then
      Object(map k | k in target.fields.Keys + patch.fields.Keys ::
        if k in patch.fields then Merge(FieldOrNull(target.fields, k), patch.fields[k])
        else target.fields[k])
    else
      patch
  }

  /** The target's fields once the keys in `done` have been merged. */
  ghost function MergeKeys(target: map<string, Json>, patch: map<string, Json>, done: set<string>): map<string, Json>
    requires done <= patch.Keys
  {
    map k | k in target.Keys + done ::
      if k in done then Merge(FieldOrNull(target, k), patch[k]) else target[k]
  }

  lemma MergeOneKey(target: map<string, Json>, patch: map<string, Json>, done: set<string>, k: string)
    requires done <= patch.Keys && k in patch && k !in done
    ensures FieldOrNull(MergeKeys(target, patch, done), k) == FieldOrNull(target, k)
    ensures MergeKeys(target, patch, done + {k})
         == MergeKeys(target, patch, done)[k := Merge(FieldOrNull(target, k), patch[k])]
  {
  }

  lemma MergeAllKeys(target: map<string, Json>, patch: map<string, Json>)
    ensures MergeKeys(target, patch, {}) == target
    ensures Object(MergeKeys(target, patch, patch.Keys)) == Merge(Object(target), Object(patch))
  {
    assert MergeKeys(target, patch, patch.Keys) == Merge(Object(target), Object(patch)).fields;
  }

  /** `merge_value`: the loop over the patch's keys, in whatever order they come. */
  method MergeValue(target: Json, patch: Json) returns (merged: Json)
    ensures merged == Merge(target, patch)
    decreases patch
  {
    if target.Object? && patch.Object? {
      MergeAllKeys(target.fields, patch.fields);
      assert patch.fields.Keys - patch.fields.Keys == {};
      var fields := target.fields;
      var left := patch.fields.Keys;
      while left != {}
        invariant left <= patch.fields.Keys
        invariant fields == MergeKeys(target.fields, patch.fields, patch.fields.Keys - left)
        decreases left
      {
        var k :| k in left;
        MergeOneKey(target.fields, patch.fields, patch.fields.Keys - left, k);
        var slot := MergeValue(FieldOrNull(fields, k), patch.fields[k]);
        fields := fields[k := slot];
        assert patch.fields.Keys - left + {k} == patch.fields.Keys - (left - {k});
        left := left - {k};
      }
      assert patch.fields.Keys - left == patch.fields.Keys;
      merged := Object(fields);
    } else {
      merged := patch;
    }
  }

  /** The state after replaying `deltas` in order on top of `state`. */
  function MergeAll(state: Json, deltas: seq<Json>): Json {
    if deltas == [] then state
    else Merge(MergeAll(state, deltas[..|deltas| - 1]), deltas[|deltas| - 1])
  }

  /** `patch` reaches `p`, or puts a non-object on a prefix of it. */
  predicate Touches(patch: Json, p: Path)
    decreases |p|
  {
    p == [] || !patch.Object? || (p[0] in patch.fields && Touches(patch.fields[p[0]], p[1..]))
  }

  lemma {:induction false} UntouchedIsAbsent(patch: Json, p: Path)
    requires !Touches(patch, p)
    ensures At(patch, p) == Absent
    decreases |p|
  {
    if p[0] in patch.fields {
      UntouchedIsAbsent(patch.fields[p[0]], p[1..]);
    }
  }

  /** Merge, path by path: the patch decides exactly the paths it touches. */
  lemma {:induction false} MergeAt(target: Json, patch: Json, p: Path)
    ensures At(Merge(target, patch), p) == if Touches(patch, p) then At(patch, p) else At(target, p)
    decreases |p|
  {
    if p == [] {
    } else if target.Object? && patch.Object? {
      if p[0] in patch.fields {
        MergeAt(FieldOrNull(target.fields, p[0]), patch.fields[p[0]], p[1..]);
      }
    } else if !Touches(patch, p) {
      UntouchedIsAbsent(patch, p);
    }
  }

  /** The last delta that touches `p`, or -1. */
  function LastWriter(deltas: seq<Json>, p: Path): (k: int)
    ensures -1 <= k < |deltas|
    ensures 0 <= k ==> Touches(deltas[k], p)
    ensures forall j :: k < j < |deltas| ==> !Touches(deltas[j], p)
  {
    if deltas == [] then -1
    else if Touches(deltas[|deltas| - 1], p) then |deltas| - 1
    else LastWriter(deltas[..|deltas| - 1], p)
  }

  /** Last writer wins, at every path and for every list of deltas. */
  lemma {:induction false} LastWriterWins(state: Json, deltas: seq<Json>, p: Path)
    ensures var k := LastWriter(deltas, p);
            At(MergeAll(state, deltas), p) == if k < 0 then At(state, p) else At(deltas[k], p)
    decreases |deltas|
  {
    if deltas != [] {
      var front := deltas[..|deltas| - 1];
      MergeAt(MergeAll(state, front), deltas[|deltas| - 1], p);
      LastWriterWins(state, front, p);
    }
  }

  /** A delta merged again straight after itself changes nothing. */
  lemma MergeAgain(target: Json, patch: Json)
    ensures Merge(Merge(target, patch), patch) == Merge(target, patch)
  {
    forall p: Path ensures At(Merge(Merge(target, patch), patch), p) == At(Merge(target, patch), p) {
      MergeAt(Merge(target, patch), patch, p);
      MergeAt(target, patch, p);
    }
    Extensional(Merge(Merge(target, patch), patch), Merge(target, patch));
  }
}
