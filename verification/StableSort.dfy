/** The stable sort by key that Rust's `sort_by_key` performs, as an insertion sort. */
module StableSort {
  import opened Seqs

  /** A sort key: logical clock, then wall-clock seconds. */
  datatype Key = Key(clock: int, seconds: int)

  predicate Le(a: Key, b: Key) {
    a.clock < b.clock || (a.clock == b.clock && a.seconds <= b.seconds)
  }

  function Insert<T>(key: T -> Key, c: T, s: seq<T>): seq<T> {
    if s == [] then [c]
    else if Le(key(c), key(s[0])) then [c] + s
    else [s[0]] + Insert(key, c, s[1..])
  }

  function Sort<T>(key: T -> Key, s: seq<T>): seq<T> {
    if s == [] then [] else Insert(key, s[0], Sort(key, s[1..]))
  }

  ghost predicate Sorted<T>(key: T -> Key, s: seq<T>) {
    forall i, j :: 0 <= i < j < |s| ==> Le(key(s[i]), key(s[j]))
  }

  /** `x` stands somewhere before `y`. */
  ghost predicate Before<T>(s: seq<T>, x: T, y: T) {
    exists i, j :: 0 <= i < j < |s| && s[i] == x && s[j] == y
  }

  lemma BeforeCons<T>(c: T, s: seq<T>, x: T, y: T)
    requires Before(s, x, y) || (x == c && y in s)
    ensures Before([c] + s, x, y)
  {
    if Before(s, x, y) {
      var i, j :| 0 <= i < j < |s| && s[i] == x && s[j] == y;
      assert ([c] + s)[i + 1] == x && ([c] + s)[j + 1] == y;
    } else {
      var j :| 0 <= j < |s| && s[j] == y;
      assert ([c] + s)[0] == x && ([c] + s)[j + 1] == y;
    }
  }

  lemma BeforeUncons<T>(s: seq<T>, x: T, y: T)
    requires Before(s, x, y)
    ensures s != [] && y in s[1..] && (s[0] == x || Before(s[1..], x, y))
  {
    var i, j :| 0 <= i < j < |s| && s[i] == x && s[j] == y;
    assert s[1..][j - 1] == y;
    if i > 0 { assert s[1..][i - 1] == x; }
  }

  lemma {:induction false} InsertPermutes<T>(key: T -> Key, c: T, s: seq<T>)
    ensures multiset(Insert(key, c, s)) == multiset([c] + s)
    decreases |s|
  {
    if s != [] && !Le(key(c), key(s[0])) {
      InsertPermutes(key, c, s[1..]);
      assert s == [s[0]] + s[1..];
    }
  }

  lemma InsertMembers<T>(key: T -> Key, c: T, s: seq<T>, x: T)
    ensures x in Insert(key, c, s) <==> x == c || x in s
  {
    InsertPermutes(key, c, s);
    assert x in Insert(key, c, s) <==> x in multiset(Insert(key, c, s));
    assert x in [c] + s <==> x in multiset([c] + s);
  }

  lemma {:induction false} InsertSorts<T>(key: T -> Key, c: T, s: seq<T>)
    requires Sorted(key, s)
    ensures Sorted(key, Insert(key, c, s))
    decreases |s|
  {
    if s != [] {
      if Le(key(c), key(s[0])) {
        forall j | 0 <= j < |s| ensures Le(key(c), key(s[j])) {
          assert j > 0 ==> Le(key(s[0]), key(s[j]));
        }
      } else {
        var r := Insert(key, c, s[1..]);
        InsertSorts(key, c, s[1..]);
        forall j | 0 <= j < |r| ensures Le(key(s[0]), key(r[j])) {
          InsertMembers(key, c, s[1..], r[j]);
        }
      }
    }
  }

  lemma {:induction false} SortPermutes<T>(key: T -> Key, s: seq<T>)
    ensures multiset(Sort(key, s)) == multiset(s)
    decreases |s|
  {
    if s != [] {
      SortPermutes(key, s[1..]);
      InsertPermutes(key, s[0], Sort(key, s[1..]));
      assert s == [s[0]] + s[1..];
    }
  }

  lemma SortMembers<T>(key: T -> Key, s: seq<T>, x: T)
    ensures x in Sort(key, s) <==> x in s
  {
    SortPermutes(key, s);
    assert x in Sort(key, s) <==> x in multiset(Sort(key, s));
    assert x in s <==> x in multiset(s);
  }

  lemma {:induction false} SortSorts<T>(key: T -> Key, s: seq<T>)
    ensures Sorted(key, Sort(key, s))
    decreases |s|
  {
    if s != [] {
      SortSorts(key, s[1..]);
      InsertSorts(key, s[0], Sort(key, s[1..]));
    }
  }

  lemma {:induction false} InsertKeepsOrder<T>(key: T -> Key, c: T, s: seq<T>, x: T, y: T)
    requires Before(s, x, y)
    ensures Before(Insert(key, c, s), x, y)
    decreases |s|
  {
    BeforeUncons(s, x, y);
    if Le(key(c), key(s[0])) {
      BeforeCons(c, s, x, y);
    } else {
      InsertMembers(key, c, s[1..], y);
      if s[0] != x { InsertKeepsOrder(key, c, s[1..], x, y); }
      BeforeCons(s[0], Insert(key, c, s[1..]), x, y);
    }
  }

  lemma {:induction false} InsertGoesBefore<T>(key: T -> Key, c: T, s: seq<T>, y: T)
    requires y in s && Le(key(c), key(y))
    ensures Before(Insert(key, c, s), c, y)
    decreases |s|
  {
    if Le(key(c), key(s[0])) {
      BeforeCons(c, s, c, y);
    } else {
      assert y in s[1..];
      InsertGoesBefore(key, c, s[1..], y);
      BeforeCons(s[0], Insert(key, c, s[1..]), c, y);
    }
  }

  /** Stability: what came first and sorts no later still comes first. */
  lemma {:induction false} SortIsStable<T>(key: T -> Key, s: seq<T>, x: T, y: T)
    requires Before(s, x, y) && Le(key(x), key(y))
    ensures Before(Sort(key, s), x, y)
    decreases |s|
  {
    BeforeUncons(s, x, y);
    if s[0] == x {
      SortMembers(key, s[1..], y);
      InsertGoesBefore(key, x, Sort(key, s[1..]), y);
    } else {
      SortIsStable(key, s[1..], x, y);
      InsertKeepsOrder(key, s[0], Sort(key, s[1..]), x, y);
    }
  }

  lemma {:induction false} InsertBelowLast<T>(key: T -> Key, x: T, s: seq<T>, c: T)
    requires Le(key(x), key(c))
    ensures Insert(key, x, s + [c]) == Insert(key, x, s) + [c]
    decreases |s|
  {
    if s == [] {
      assert s + [c] == [c];
    } else if Le(key(x), key(s[0])) {
      assert [x] + (s + [c]) == [x] + s + [c];
    } else {
      InsertBelowLast(key, x, s[1..], c);
      assert (s + [c])[1..] == s[1..] + [c];
    }
  }

  /** An element whose key is not below any other's stays last. */
  lemma {:induction false} SortKeepsLast<T>(key: T -> Key, s: seq<T>, c: T)
    requires forall x :: x in s ==> Le(key(x), key(c))
    ensures Sort(key, s + [c]) == Sort(key, s) + [c]
    decreases |s|
  {
    if s == [] {
      assert s + [c] == [c] && [c][1..] == [];
    } else {
      SortKeepsLast(key, s[1..], c);
      assert (s + [c])[1..] == s[1..] + [c];
      InsertBelowLast(key, s[0], Sort(key, s[1..]), c);
    }
  }

  lemma SamePermutationDistinct<T>(s: seq<T>, r: seq<T>)
    requires Distinct(s) && multiset(r) == multiset(s)
    ensures Distinct(r)
  {
    forall i, j | 0 <= i < j < |r| ensures r[i] != r[j] {
      OnceIn(s, r[i]);
      if r[i] == r[j] { TwiceIn(r, i, j); }
    }
  }

  /** Sorting keeps distinct elements distinct. */
  lemma SortKeepsDistinct<T>(key: T -> Key, s: seq<T>)
    requires Distinct(s)
    ensures Distinct(Sort(key, s))
  {
    SortPermutes(key, s);
    SamePermutationDistinct(s, Sort(key, s));
  }

  // ---------------------------------------------------------------- the only stable sort

  lemma BeforeIsOneWay<T>(s: seq<T>, x: T, y: T)
    requires Distinct(s) && Before(s, x, y)
    ensures !Before(s, y, x)
  {
  }

  lemma PlacedSomehow<T>(s: seq<T>, x: T, y: T)
    requires x in s && y in s && x != y
    ensures Before(s, x, y) || Before(s, y, x)
  {
    var i :| 0 <= i < |s| && s[i] == x;
    var j :| 0 <= j < |s| && s[j] == y;
  }

  /** `t` places the elements of `r` as `r` does. */
  ghost predicate Follows<T>(r: seq<T>, t: seq<T>) {
    forall i, j :: 0 <= i < j < |r| ==> Before(t, r[i], r[j])
  }

  lemma FollowsHead<T>(r: seq<T>, t: seq<T>)
    requires Distinct(t) && Follows(r, t) && r != [] && t != [] && t[0] in r
    ensures r[0] == t[0]
  {
    var j :| 0 <= j < |r| && r[j] == t[0];
    assert j == 0 || Before(t, r[0], r[j]);
  }

  lemma FollowsTail<T>(r: seq<T>, t: seq<T>)
    requires Distinct(r) && Follows(r, t) && r != [] && t != [] && r[0] == t[0]
    ensures Follows(r[1..], t[1..])
  {
    forall i, j | 0 <= i < j < |r[1..]| ensures Before(t[1..], r[1..][i], r[1..][j]) {
      assert Before(t, r[i + 1], r[j + 1]);
      BeforeUncons(t, r[i + 1], r[j + 1]);
    }
  }

  lemma TailsPermute<T>(r: seq<T>, t: seq<T>)
    requires multiset(r) == multiset(t) && r != [] && t != [] && r[0] == t[0]
    ensures multiset(r[1..]) == multiset(t[1..])
  {
    assert r == [r[0]] + r[1..] && t == [t[0]] + t[1..];
    assert multiset(r) == multiset{r[0]} + multiset(r[1..]);
    assert multiset(t) == multiset{t[0]} + multiset(t[1..]);
    assert multiset(r[1..]) == multiset(r) - multiset{r[0]};
  }

  /** Lists of the same elements in the same order are the same list. */
  lemma {:induction false} SameOrder<T>(r: seq<T>, t: seq<T>)
    requires Distinct(r) && Distinct(t) && multiset(r) == multiset(t) && Follows(r, t)
    ensures r == t
    decreases |r|
  {
    assert |multiset(r)| == |r| && |multiset(t)| == |t|;
    if r != [] {
      assert t[0] in multiset(r);
      FollowsHead(r, t);
      FollowsTail(r, t);
      TailsPermute(r, t);
      SameOrder(r[1..], t[1..]);
      assert r == [r[0]] + r[1..] && t == [t[0]] + t[1..];
    }
  }

  /** Elements with equal keys stand in `r` as they stand in `s`. */
  ghost predicate Stable<T>(key: T -> Key, s: seq<T>, r: seq<T>) {
    forall i, j :: 0 <= i < j < |s| && key(s[i]) == key(s[j]) ==> Before(r, s[i], s[j])
  }

  lemma PlacedAsSorted<T>(key: T -> Key, s: seq<T>, r: seq<T>, x: T, y: T)
    requires Distinct(s) && multiset(r) == multiset(s) && Sorted(key, r) && Stable(key, s, r)
    requires Before(r, x, y)
    ensures Before(Sort(key, s), x, y)
  {
    var t := Sort(key, s);
    SortSorts(key, s);
    SamePermutationDistinct(s, r);
    BeforeIsOneWay(r, x, y);
    assert x in multiset(r) && y in multiset(r);
    SortMembers(key, s, x);
    SortMembers(key, s, y);
    assert x != y;
    PlacedSomehow(s, x, y);
    PlacedSomehow(t, x, y);
    if key(x) == key(y) {
      assert Before(s, x, y);
      SortIsStable(key, s, x, y);
    }
  }

  /** Of distinct elements there is one sorted and stable list: any stable sort by this key gives `Sort`. */
  lemma SortIsTheStableSort<T>(key: T -> Key, s: seq<T>, r: seq<T>)
    requires Distinct(s) && multiset(r) == multiset(s) && Sorted(key, r) && Stable(key, s, r)
    ensures r == Sort(key, s)
  {
    SamePermutationDistinct(s, r);
    SortPermutes(key, s);
    SortKeepsDistinct(key, s);
    forall i, j | 0 <= i < j < |r| ensures Before(Sort(key, s), r[i], r[j]) {
      PlacedAsSorted(key, s, r, r[i], r[j]);
    }
    SameOrder(r, Sort(key, s));
  }
}
