/** JSON values as serde_json holds them: a path view of them, and the order of an object's keys. */
module Json {
  import opened Seqs
  import Text

  /**
    serde_json's three kinds of number; a float is `mantissa` times two to the power `exponent`, written
    with the smallest mantissa, and zero has one form.
  */
  datatype Num = PosInt(pos: nat) | NegInt(neg: int) | Float(mantissa: int, exponent: int)

  datatype Json =
    | Null
    | Bool(flag: bool)
    | Number(num: Num)
    | String(text: string)
    | Array(items: seq<Json>)
    | Object(fields: map<string, Json>)

  /** A position in a value: the keys followed from the root. */
  type Path = seq<string>

  /** What sits at a path: nothing, an object, or a non-object value. */
  datatype Spot = Absent | Container | Leaf(value: Json)

  function At(v: Json, p: Path): Spot
    decreases |p|
  {
    if p == [] then
      if v.Object? then Container else Leaf(v)
    else if v.Object? && p[0] in v.fields then
      At(v.fields[p[0]], p[1..])
    else
      Absent
  }

  /** The value at key `k`, with the `Null` that `or_insert(Value::Null)` supplies. */
  function FieldOrNull(m: map<string, Json>, k: string): Json {
    if k in m then m[k] else Null
  }

  lemma AtChild(v: Json, k: string, p: Path)
    ensures At(v, [k] + p) == if v.Object? && k in v.fields then At(v.fields[k], p) else Absent
  {
    assert ([k] + p)[1..] == p;
  }

  /** The path view determines the value: two values that agree at every path are equal. */
  lemma {:induction false} Extensional(a: Json, b: Json)
    requires forall p: Path :: At(a, p) == At(b, p)
    ensures a == b
    decreases a
  {
    assert At(a, []) == At(b, []);
    if a.Object? {
      forall k | k in a.fields || k in b.fields
        ensures k in a.fields && k in b.fields && a.fields[k] == b.fields[k]
      {
        AtChild(a, k, []);
        AtChild(b, k, []);
        assert At(a, [k] + []) == At(b, [k] + []);
        forall p: Path ensures At(a.fields[k], p) == At(b.fields[k], p) {
          AtChild(a, k, p);
          AtChild(b, k, p);
        }
        Extensional(a.fields[k], b.fields[k]);
      }
      assert a.fields == b.fields;
    }
  }

  // ---------------------------------------------------------------- the order of keys

  /** The key that comes first: an object is a B-tree map, which orders strings by code point. */
  predicate IsFirst(k: string, keys: set<string>) {
    k in keys && forall j :: j in keys ==> j == k || Text.Below(k, j)
  }

  lemma {:induction false} FirstExists(keys: set<string>)
    requires keys != {}
    ensures exists k :: IsFirst(k, keys)
    decreases |keys|
  {
    var x :| x in keys;
    if keys == {x} {
      assert IsFirst(x, keys);
    } else {
      FirstExists(keys - {x});
      var y :| IsFirst(y, keys - {x});
      Text.BelowTotal(x, y);
      if Text.Below(x, y) {
        forall j | j in keys ensures j == x || Text.Below(x, j) {
          if j != x && j != y { Text.BelowTransitive(x, y, j); }
        }
        assert IsFirst(x, keys);
      } else {
        assert IsFirst(y, keys);
      }
    }
  }

  /** Only one key can come first. */
  lemma FirstIsOne(a: string, b: string, keys: set<string>)
    requires IsFirst(a, keys) && IsFirst(b, keys)
    ensures a == b
  {
    Text.BelowTotal(a, b);
  }

  /** The keys as the map's iterator visits them. */
  ghost function KeysInOrder(keys: set<string>): (ks: seq<string>)
    ensures Elems(ks) == keys
  {
    if keys == {} then []
    else
      FirstExists(keys);
      var k :| IsFirst(k, keys);
      var rest := KeysInOrder(keys - {k});
      assert Elems([k] + rest) == {k} + Elems(rest);
      [k] + rest
  }

  lemma TakeFirst(k: string, keys: set<string>)
    requires IsFirst(k, keys)
    ensures KeysInOrder(keys) == [k] + KeysInOrder(keys - {k})
  {
    FirstIsOne(k, KeysInOrder(keys)[0], keys);
  }

  /** They are visited in ascending order, so each once. */
  lemma {:induction false} KeysAscend(keys: set<string>)
    ensures var ks := KeysInOrder(keys);
            Distinct(ks) && forall i, j :: 0 <= i < j < |ks| ==> Text.Below(ks[i], ks[j])
    decreases |keys|
  {
    if keys != {} {
      var ks := KeysInOrder(keys);
      assert IsFirst(ks[0], keys);
      TakeFirst(ks[0], keys);
      var rest := KeysInOrder(keys - {ks[0]});
      KeysAscend(keys - {ks[0]});
      forall j | 0 < j < |ks| ensures Text.Below(ks[0], ks[j]) && ks[j] != ks[0] {
        assert rest[j - 1] in Elems(rest);
      }
    }
  }
}
