/** Commit graphs: a map from a commit id to its parent ids, and what can be reached by parent links. */
module Graph {
  import opened Seqs

  type Id = string
  type Graph = map<Id, seq<Id>>

  function ParentsOf(g: Graph, n: Id): seq<Id> {
    if n in g then g[n] else []
  }

  // ---------------------------------------------------------------- reachability

  /** Each id after the first is a parent of the one before it. */
  predicate IsPath(g: Graph, p: seq<Id>) {
    p != [] && forall i :: 0 <= i < |p| - 1 ==> p[i + 1] in ParentsOf(g, p[i])
  }

  predicate Joins(g: Graph, p: seq<Id>, a: Id, b: Id) {
    IsPath(g, p) && p[0] == a && p[|p| - 1] == b
  }

  /** `b` is `a` or can be reached from `a` by following parent links. */
  ghost predicate Reach(g: Graph, a: Id, b: Id) {
    exists p :: Joins(g, p, a, b)
  }

  function Nodes(g: Graph): set<Id> {
    g.Keys + set n, i | n in g && 0 <= i < |g[n]| :: g[n][i]
  }

  /** A commit's ancestry, itself included. */
  ghost function Anc(g: Graph, n: Id): set<Id> {
    set m | m in Nodes(g) + {n} && Reach(g, n, m)
  }

  /** No commit can be reached from one of its own parents. */
  ghost predicate Acyclic(g: Graph) {
    forall n, m :: m in ParentsOf(g, n) ==> !Reach(g, m, n)
  }

  /** Every parent is known. */
  predicate Closed(g: Graph) {
    forall n, m :: n in g && m in g[n] ==> m in g
  }

  lemma ReachSelf(g: Graph, a: Id)
    ensures Reach(g, a, a)
  {
    assert Joins(g, [a], a, a);
  }

  lemma ReachVia(g: Graph, a: Id, b: Id, c: Id)
    requires b in ParentsOf(g, a) && Reach(g, b, c)
    ensures Reach(g, a, c)
  {
    var p :| Joins(g, p, b, c);
    assert Joins(g, [a] + p, a, c);
  }

  lemma ReachFirst(g: Graph, a: Id, c: Id) returns (b: Id)
    requires Reach(g, a, c) && a != c
    ensures b in ParentsOf(g, a) && Reach(g, b, c)
  {
    var p :| Joins(g, p, a, c);
    b := p[1];
    assert Joins(g, p[1..], b, c);
  }

  lemma ReachLast(g: Graph, a: Id, c: Id) returns (b: Id)
    requires Reach(g, a, c) && a != c
    ensures c in ParentsOf(g, b) && Reach(g, a, b)
  {
    var p :| Joins(g, p, a, c);
    var n := |p| - 1;
    b := p[n - 1];
    assert p[n] in ParentsOf(g, p[n - 1]);
    assert Joins(g, p[..n], a, b);
  }

  lemma ReachTrans(g: Graph, a: Id, b: Id, c: Id)
    requires Reach(g, a, b) && Reach(g, b, c)
    ensures Reach(g, a, c)
  {
    var p :| Joins(g, p, a, b);
    var q :| Joins(g, q, b, c);
    var r := p + q[1..];
    forall i | 0 <= i < |r| - 1 ensures r[i + 1] in ParentsOf(g, r[i]) {
      if i >= |p| - 1 { assert r[i] == q[i - (|p| - 1)]; }
    }
    assert Joins(g, r, a, c);
  }

  /** A set closed under parents holds everything reachable from its members. */
  lemma {:induction false} ClosedSetHolds(g: Graph, s: set<Id>, p: seq<Id>)
    requires forall x, y :: x in s && y in ParentsOf(g, x) ==> y in s
    requires IsPath(g, p) && p[0] in s
    ensures p[|p| - 1] in s
    decreases |p|
  {
    if |p| > 1 {
      assert IsPath(g, p[1..]);
      ClosedSetHolds(g, s, p[1..]);
    }
  }

  lemma ReachStays(g: Graph, s: set<Id>, a: Id, b: Id)
    requires forall x, y :: x in s && y in ParentsOf(g, x) ==> y in s
    requires a in s && Reach(g, a, b)
    ensures b in s
  {
    var p :| Joins(g, p, a, b);
    ClosedSetHolds(g, s, p);
  }

  lemma AncIsReach(g: Graph, n: Id, m: Id)
    ensures m in Anc(g, n) <==> Reach(g, n, m)
  {
    if Reach(g, n, m) {
      ReachStays(g, Nodes(g) + {n}, n, m);
    }
  }

  lemma AncOfParent(g: Graph, n: Id, m: Id)
    requires m in ParentsOf(g, n)
    ensures Anc(g, m) <= Anc(g, n)
    ensures Acyclic(g) ==> n in Anc(g, n) - Anc(g, m) && |Anc(g, m)| < |Anc(g, n)|
  {
    forall x | x in Anc(g, m) ensures x in Anc(g, n) {
      AncIsReach(g, m, x);
      ReachVia(g, n, m, x);
      AncIsReach(g, n, x);
    }
    ReachSelf(g, n);
    AncIsReach(g, n, n);
    if Acyclic(g) {
      AncIsReach(g, m, n);
      Smaller(Anc(g, m), Anc(g, n));
    }
  }

  lemma Smaller<T>(a: set<T>, b: set<T>)
    requires a < b
    ensures |a| < |b|
  {
    assert b == a + (b - a);
  }

  lemma AncOfAnc(g: Graph, n: Id, m: Id)
    requires m in Anc(g, n)
    ensures Anc(g, m) <= Anc(g, n)
  {
    forall x | x in Anc(g, m) ensures x in Anc(g, n) {
      ReachTrans(g, n, m, x);
      AncIsReach(g, n, x);
    }
  }

  /** An ancestry is its commit and its parents' ancestries. */
  lemma AncUnfold(g: Graph, n: Id, x: Id)
    ensures x in Anc(g, n) <==> x == n || exists m :: m in ParentsOf(g, n) && x in Anc(g, m)
  {
    AncIsReach(g, n, x);
    ReachSelf(g, n);
    if Reach(g, n, x) && x != n {
      var m := ReachFirst(g, n, x);
      AncIsReach(g, m, x);
    }
    forall m | m in ParentsOf(g, n) && x in Anc(g, m) ensures Reach(g, n, x) {
      ReachVia(g, n, m, x);
    }
  }

  /** Two distinct commits of an acyclic graph are not ancestors of each other. */
  lemma AncAntisymmetric(g: Graph, a: Id, b: Id)
    requires Acyclic(g) && a in Anc(g, b) && b in Anc(g, a)
    ensures a == b
  {
    if a != b {
      var m := ReachFirst(g, a, b);
      ReachTrans(g, m, b, a);
    }
  }

  // ---------------------------------------------------------------- comparing graphs

  /** `g` has no edge that `h` lacks. */
  ghost predicate SubGraph(g: Graph, h: Graph) {
    forall n, m :: m in ParentsOf(g, n) ==> m in ParentsOf(h, n)
  }

  lemma ReachInLarger(g: Graph, h: Graph, a: Id, b: Id)
    requires SubGraph(g, h) && Reach(g, a, b)
    ensures Reach(h, a, b)
  {
    var p :| Joins(g, p, a, b);
    assert Joins(h, p, a, b);
  }

  lemma AcyclicSub(g: Graph, h: Graph)
    requires SubGraph(g, h) && Acyclic(h)
    ensures Acyclic(g)
  {
    forall n, m | m in ParentsOf(g, n) ensures !Reach(g, m, n) {
      if Reach(g, m, n) { ReachInLarger(g, h, m, n); }
    }
  }

  /** Graphs that agree on an ancestry have the same ancestry there. */
  lemma AncAgree(g: Graph, h: Graph, n: Id)
    requires forall x :: x in Anc(g, n) ==> ParentsOf(g, x) == ParentsOf(h, x)
    ensures Anc(g, n) == Anc(h, n)
  {
    forall x ensures x in Anc(g, n) <==> x in Anc(h, n) {
      AncIsReach(g, n, x);
      AncIsReach(h, n, x);
      if Reach(h, n, x) {
        forall a, b | a in Anc(g, n) && b in ParentsOf(h, a) ensures b in Anc(g, n) {
          AncOfAnc(g, n, a);
          AncUnfold(g, a, b);
          ReachSelf(g, b);
          AncIsReach(g, b, b);
        }
        ReachSelf(g, n);
        AncIsReach(g, n, n);
        ReachStays(h, Anc(g, n), n, x);
      }
      if x in Anc(g, n) {
        var p :| Joins(g, p, n, x);
        PathAgrees(g, h, n, p);
        assert Joins(h, p, n, x);
      }
    }
  }

  lemma PathAgrees(g: Graph, h: Graph, n: Id, p: seq<Id>)
    requires forall x :: x in Anc(g, n) ==> ParentsOf(g, x) == ParentsOf(h, x)
    requires IsPath(g, p) && p[0] == n
    ensures IsPath(h, p)
  {
    forall i | 0 <= i < |p| - 1 ensures p[i + 1] in ParentsOf(h, p[i]) {
      assert Joins(g, p[..i + 1], n, p[i]);
      AncIsReach(g, n, p[i]);
    }
  }

  // ---------------------------------------------------------------- adding a commit

  lemma {:induction false} PathToEditedNode(g: Graph, h: Graph, id: Id, p: seq<Id>)
    requires forall n :: n != id ==> ParentsOf(g, n) == ParentsOf(h, n)
    requires IsPath(h, p) && p[|p| - 1] == id
    ensures Reach(g, p[0], id)
    decreases |p|
  {
    if p[0] == id {
      ReachSelf(g, id);
    } else {
      assert IsPath(h, p[1..]);
      PathToEditedNode(g, h, id, p[1..]);
      ReachVia(g, p[0], p[1], id);
    }
  }

  lemma {:induction false} PathAroundEditedNode(g: Graph, h: Graph, id: Id, p: seq<Id>)
    requires forall n :: n != id ==> ParentsOf(g, n) == ParentsOf(h, n)
    requires IsPath(h, p)
    ensures Reach(g, p[0], p[|p| - 1]) || (Reach(h, p[0], id) && Reach(h, id, p[|p| - 1]))
    decreases |p|
  {
    if p[0] == id {
      ReachSelf(h, id);
      assert Joins(h, p, id, p[|p| - 1]);
    } else if |p| == 1 {
      ReachSelf(g, p[0]);
    } else {
      assert IsPath(h, p[1..]);
      PathAroundEditedNode(g, h, id, p[1..]);
      if Reach(g, p[1], p[|p| - 1]) {
        ReachVia(g, p[0], p[1], p[|p| - 1]);
      } else {
        ReachVia(h, p[0], p[1], id);
      }
    }
  }

  /** Giving `id` the parents `ps`, none of which reaches it, makes no cycle, new id or old. */
  lemma InsertKeepsAcyclic(g: Graph, id: Id, ps: seq<Id>)
    requires Acyclic(g) && forall p :: p in ps ==> !Reach(g, p, id)
    ensures Acyclic(g[id := ps])
  {
    var h := g[id := ps];
    forall p | p in ps ensures !Reach(h, p, id) {
      if Reach(h, p, id) {
        var path :| Joins(h, path, p, id);
        PathToEditedNode(g, h, id, path);
      }
    }
    forall n, m | m in ParentsOf(h, n) ensures !Reach(h, m, n) {
      if Reach(h, m, n) && n != id {
        var path :| Joins(h, path, m, n);
        PathAroundEditedNode(g, h, id, path);
        assert !Reach(g, m, n);
        var p := ReachFirst(h, id, n);
        ReachVia(h, n, m, id);
        ReachTrans(h, p, n, id);
      }
    }
  }

  // ---------------------------------------------------------------- post-order without a seen set

  /** Every parent comes before its child, and every parent is listed. */
  predicate ParentsFirst(g: Graph, s: seq<Id>) {
    forall i, m :: 0 <= i < |s| && m in ParentsOf(g, s[i]) ==> m in s[..i]
  }

  /** Post-order over the ancestry of `n`, skipping what `out` already holds; parents are gone into again and again. */
  function Collect(g: Graph, n: Id, out: seq<Id>): seq<Id>
    requires Acyclic(g)
    decreases |Anc(g, n)|, |ParentsOf(g, n)| + 1
  {
    var all := CollectParents(g, n, |ParentsOf(g, n)|, out);
    if n in all then all else all + [n]
  }

  /** The same for the first `k` parents of `n`, one after the other. */
  function CollectParents(g: Graph, n: Id, k: nat, out: seq<Id>): seq<Id>
    requires Acyclic(g) && k <= |ParentsOf(g, n)|
    decreases |Anc(g, n)|, k
  {
    if k == 0 then out
    else
      AncOfParent(g, n, ParentsOf(g, n)[k - 1]);
      Collect(g, ParentsOf(g, n)[k - 1], CollectParents(g, n, k - 1, out))
  }

  lemma SnocFacts(g: Graph, s: seq<Id>, n: Id)
    requires ParentsFirst(g, s) && Distinct(s) && n !in s
    requires forall m :: m in ParentsOf(g, n) ==> m in s
    ensures ParentsFirst(g, s + [n]) && Distinct(s + [n])
    ensures Elems(s + [n]) == Elems(s) + {n}
  {
    forall i | 0 <= i < |s| ensures (s + [n])[..i] == s[..i] {}
  }

  /** The ancestries of the first `k` parents of `n`. */
  ghost function AncOfFirst(g: Graph, n: Id, k: nat): set<Id>
    requires k <= |ParentsOf(g, n)|
  {
    if k == 0 then {} else AncOfFirst(g, n, k - 1) + Anc(g, ParentsOf(g, n)[k - 1])
  }

  lemma {:induction false} AncOfFirstHolds(g: Graph, n: Id, k: nat, x: Id)
    requires k <= |ParentsOf(g, n)|
    ensures x in AncOfFirst(g, n, k) <==> exists i :: 0 <= i < k && x in Anc(g, ParentsOf(g, n)[i])
    decreases k
  {
    if k > 0 { AncOfFirstHolds(g, n, k - 1, x); }
  }

  lemma AncSplit(g: Graph, n: Id)
    ensures Anc(g, n) == {n} + AncOfFirst(g, n, |ParentsOf(g, n)|)
  {
    forall x ensures x in Anc(g, n) <==> x in {n} + AncOfFirst(g, n, |ParentsOf(g, n)|) {
      AncUnfold(g, n, x);
      AncOfFirstHolds(g, n, |ParentsOf(g, n)|, x);
    }
  }

  lemma {:induction false} NotItsOwnElder(g: Graph, n: Id, k: nat)
    requires Acyclic(g) && k <= |ParentsOf(g, n)|
    ensures n !in AncOfFirst(g, n, k)
    decreases k
  {
    if k > 0 {
      NotItsOwnElder(g, n, k - 1);
      AncOfParent(g, n, ParentsOf(g, n)[k - 1]);
    }
  }

  lemma ParentIsElder(g: Graph, n: Id, m: Id)
    requires m in ParentsOf(g, n)
    ensures m in AncOfFirst(g, n, |ParentsOf(g, n)|)
  {
    AncUnfold(g, m, m);
    AncOfFirstHolds(g, n, |ParentsOf(g, n)|, m);
  }

  lemma {:induction false} CollectSpec(g: Graph, n: Id, out: seq<Id>)
    requires Acyclic(g) && ParentsFirst(g, out) && Distinct(out)
    ensures var r := Collect(g, n, out);
            && out <= r && ParentsFirst(g, r) && Distinct(r)
            && Elems(r) == Elems(out) + Anc(g, n)
            && (n !in out ==> r[|r| - 1] == n)
    decreases |Anc(g, n)|, |ParentsOf(g, n)| + 1
  {
    var all := CollectParents(g, n, |ParentsOf(g, n)|, out);
    CollectParentsSpec(g, n, |ParentsOf(g, n)|, out);
    AncSplit(g, n);
    NotItsOwnElder(g, n, |ParentsOf(g, n)|);
    forall m | m in ParentsOf(g, n) ensures m in all {
      ParentIsElder(g, n, m);
      assert m in Elems(all);
    }
    assert n in all <==> n in Elems(all);
    if n !in all {
      SnocFacts(g, all, n);
    } else {
      assert n in Elems(out);
    }
  }

  lemma {:induction false} CollectParentsSpec(g: Graph, n: Id, k: nat, out: seq<Id>)
    requires Acyclic(g) && ParentsFirst(g, out) && Distinct(out) && k <= |ParentsOf(g, n)|
    ensures var r := CollectParents(g, n, k, out);
            && out <= r && ParentsFirst(g, r) && Distinct(r)
            && Elems(r) == Elems(out) + AncOfFirst(g, n, k)
    decreases |Anc(g, n)|, k
  {
    if k > 0 {
      AncOfParent(g, n, ParentsOf(g, n)[k - 1]);
      CollectParentsSpec(g, n, k - 1, out);
      CollectSpec(g, ParentsOf(g, n)[k - 1], CollectParents(g, n, k - 1, out));
    }
  }

  lemma {:induction false} ListedAncestry(g: Graph, s: seq<Id>, i: nat, x: Id)
    requires ParentsFirst(g, s) && i < |s| && x in Anc(g, s[i])
    ensures x in s[..i + 1]
    decreases i
  {
    AncUnfold(g, s[i], x);
    if x != s[i] {
      var m :| m in ParentsOf(g, s[i]) && x in Anc(g, m);
      assert m in s[..i];
      var j :| 0 <= j < i && s[j] == m;
      ListedAncestry(g, s, j, x);
      assert s[..j + 1] <= s[..i + 1];
    }
  }

  /** What is already listed is not collected again. */
  lemma CollectAgain(g: Graph, n: Id, out: seq<Id>)
    requires Acyclic(g) && ParentsFirst(g, out) && Distinct(out) && n in out
    ensures Collect(g, n, out) == out
  {
    CollectSpec(g, n, out);
    var i :| 0 <= i < |out| && out[i] == n;
    forall x | x in Anc(g, n) ensures x in Elems(out) {
      ListedAncestry(g, out, i, x);
    }
    assert Elems(out) + Anc(g, n) == Elems(out);
    NothingAdded(out, Collect(g, n, out));
  }

  /** The ancestry of `n`, oldest first. */
  function Ancestry(g: Graph, n: Id): seq<Id>
    requires Acyclic(g)
  {
    Collect(g, n, [])
  }

  /** Exactly the reachable commits, once each, parents before children, the commit itself last. */
  lemma AncestrySpec(g: Graph, n: Id)
    requires Acyclic(g)
    ensures var r := Ancestry(g, n);
            Elems(r) == Anc(g, n) && Distinct(r) && ParentsFirst(g, r) && r != [] && r[|r| - 1] == n
  {
    CollectSpec(g, n, []);
    AncUnfold(g, n, n);
    assert Elems<Id>([]) == {};
    assert n in Elems(Ancestry(g, n));
  }

  /** Only the commit's own ancestry matters to the order. */
  lemma {:induction false} CollectAgree(g: Graph, h: Graph, n: Id, out: seq<Id>)
    requires Acyclic(g) && Acyclic(h)
    requires forall x :: x in Anc(g, n) ==> ParentsOf(g, x) == ParentsOf(h, x)
    ensures Collect(g, n, out) == Collect(h, n, out)
    decreases |Anc(g, n)|, |ParentsOf(g, n)| + 1
  {
    AncUnfold(g, n, n);
    CollectParentsAgree(g, h, n, |ParentsOf(g, n)|, out);
  }

  lemma {:induction false} CollectParentsAgree(g: Graph, h: Graph, n: Id, k: nat, out: seq<Id>)
    requires Acyclic(g) && Acyclic(h) && k <= |ParentsOf(g, n)|
    requires forall x :: x in Anc(g, n) ==> ParentsOf(g, x) == ParentsOf(h, x)
    requires ParentsOf(g, n) == ParentsOf(h, n)
    ensures CollectParents(g, n, k, out) == CollectParents(h, n, k, out)
    decreases |Anc(g, n)|, k
  {
    if k > 0 {
      var m := ParentsOf(g, n)[k - 1];
      AncOfParent(g, n, m);
      CollectParentsAgree(g, h, n, k - 1, out);
      CollectAgree(g, h, m, CollectParents(g, n, k - 1, out));
    }
  }
}
