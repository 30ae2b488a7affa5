/** The in-memory index of parent links (daemon/src/ledger/dag.rs). */
module Dag {
  import opened Graph
  import opened Seqs
  import opened Commits
  import opened SeenSearch
  import opened Wrappers

  datatype DagError = IdRequired | SelfParent | UnknownParent(parent: Id) | WouldCycle

  /** The first parent that is unknown or leads back to `id`, as `append` looks for it. */
  ghost function CheckParents(g: Graph, id: Id, ps: seq<Id>): Option<DagError> {
    if ps == [] then None
    else if ps[0] !in g then Some(UnknownParent(ps[0]))
    else if Reach(g, ps[0], id) then Some(WouldCycle)
    else CheckParents(g, id, ps[1..])
  }

  /** Why `append` refuses, if it does. */
  ghost function AppendError(g: Graph, id: Id, ps: seq<Id>): Option<DagError> {
    if id == "" then Some(IdRequired)
    else if id in ps then Some(SelfParent)
    else CheckParents(g, id, ps)
  }

  lemma {:induction false} ParentsAccepted(g: Graph, id: Id, ps: seq<Id>)
    ensures CheckParents(g, id, ps).None? <==> forall p :: p in ps ==> p in g && !Reach(g, p, id)
    decreases |ps|
  {
    if ps != [] {
      ParentsAccepted(g, id, ps[1..]);
      assert forall p :: p in ps <==> p == ps[0] || p in ps[1..];
    }
  }

  /** The parent is known and does not lead back to `id`. */
  ghost predicate Passes(g: Graph, id: Id, p: Id) {
    p in g && !Reach(g, p, id)
  }

  /** The parent loop stops at the first parent that does not pass, and says what is wrong with it. */
  lemma {:induction false} LoopStopsAt(g: Graph, id: Id, ps: seq<Id>, k: nat)
    requires k < |ps| && (forall i :: 0 <= i < k ==> Passes(g, id, ps[i])) && !Passes(g, id, ps[k])
    ensures CheckParents(g, id, ps) == Some(if ps[k] !in g then UnknownParent(ps[k]) else WouldCycle)
    decreases k
  {
    if k > 0 {
      assert Passes(g, id, ps[0]);
      assert forall i :: 0 <= i < k - 1 ==> ps[1..][i] == ps[i + 1];
      LoopStopsAt(g, id, ps[1..], k - 1);
    }
  }

  /** An append is refused for a missing id, else for a commit among its own parents, else by the parent loop. */
  lemma RefusedFor(g: Graph, id: Id, ps: seq<Id>)
    ensures AppendError(g, id, ps) == Some(IdRequired) <==> id == ""
    ensures AppendError(g, id, ps) == Some(SelfParent) <==> id != "" && id in ps
    ensures id != "" && id !in ps ==> (AppendError(g, id, ps).Some? <==> exists p :: p in ps && !Passes(g, id, p))
  {
    ParentsAccepted(g, id, ps);
    CheckKinds(g, id, ps);
  }

  lemma {:induction false} CheckKinds(g: Graph, id: Id, ps: seq<Id>)
    ensures var e := CheckParents(g, id, ps); e.Some? ==> e.value.UnknownParent? || e.value.WouldCycle?
    decreases |ps|
  {
    if ps != [] { CheckKinds(g, id, ps[1..]); }
  }

  /** `append` keeps an acyclic, parent-closed index so, whether or not the id was there before. */
  lemma AppendKeepsIndex(g: Graph, id: Id, ps: seq<Id>)
    requires Acyclic(g) && Closed(g) && AppendError(g, id, ps).None?
    ensures Acyclic(g[id := ps]) && Closed(g[id := ps])
  {
    ParentsAccepted(g, id, ps);
    InsertKeepsAcyclic(g, id, ps);
  }

  /** In a closed index a known commit never leads to an unknown one. */
  lemma UnknownIsUnreachable(g: Graph, known: Id, id: Id)
    requires Closed(g) && known in g && id !in g
    ensures !Reach(g, known, id)
  {
    if Reach(g, known, id) {
      ReachStays(g, g.Keys, known, id);
    }
  }

  /** So for a new id the cycle check never fires: only an unknown parent stops it. */
  lemma NewIdAccepted(g: Graph, id: Id, ps: seq<Id>)
    requires Closed(g) && id !in g && id != ""
    ensures AppendError(g, id, ps).None? <==> forall p :: p in ps ==> p in g
  {
    ParentsAccepted(g, id, ps);
    forall p | p in ps && p in g ensures !Reach(g, p, id) {
      UnknownIsUnreachable(g, p, id);
    }
  }

  /**
    Checking under one lock and writing under another is not safe for any two callers: two appends
    of known ids can both pass their check and then close a cycle. Content-addressed ids rule it out.
  */
  lemma RacingAppendsCanCycle(a: Id, b: Id)
    requires a != b && a != "" && b != ""
    ensures var g: Graph := map[a := [], b := []];
            && Acyclic(g) && Closed(g)
            && AppendError(g, a, [b]).None? && AppendError(g, b, [a]).None?
            && !Acyclic(g[a := [b]][b := [a]])
  {
    var g: Graph := map[a := [], b := []];
    forall x, y | x != y ensures !Reach(g, x, y) {
      if Reach(g, x, y) { var m := ReachFirst(g, x, y); }
    }
    ParentsAccepted(g, a, [b]);
    ParentsAccepted(g, b, [a]);
    var h := g[a := [b]][b := [a]];
    ReachSelf(h, a);
    ReachVia(h, b, a, a);
    assert b in ParentsOf(h, a);
  }

  // ---------------------------------------------------------------- children

  function AddChildren(children: map<Id, seq<Id>>, ps: seq<Id>, id: Id): map<Id, seq<Id>> {
    if ps == [] then children
    else
      var rest := AddChildren(children, ps[..|ps| - 1], id);
      var p := ps[|ps| - 1];
      rest[p := (if p in rest then rest[p] else []) + [id]]
  }

  /** Every parent link is also listed from the parent's side. */
  predicate ChildrenCover(g: Graph, children: map<Id, seq<Id>>) {
    forall c, p :: c in g && p in g[c] ==> p in children && c in children[p]
  }

  lemma {:induction false} AddChildrenCovers(children: map<Id, seq<Id>>, ps: seq<Id>, id: Id)
    ensures forall p, c :: p in children && c in children[p] ==>
              p in AddChildren(children, ps, id) && c in AddChildren(children, ps, id)[p]
    ensures forall p :: p in ps ==> p in AddChildren(children, ps, id) && id in AddChildren(children, ps, id)[p]
    decreases |ps|
  {
    if ps != [] {
      AddChildrenCovers(children, ps[..|ps| - 1], id);
      assert forall p :: p in ps <==> p == ps[|ps| - 1] || p in ps[..|ps| - 1];
    }
  }

  lemma AppendKeepsCover(g: Graph, children: map<Id, seq<Id>>, id: Id, ps: seq<Id>)
    requires ChildrenCover(g, children)
    ensures ChildrenCover(g[id := ps], AddChildren(children, ps, id))
  {
    AddChildrenCovers(children, ps, id);
  }

  // ---------------------------------------------------------------- the index

  class DagIndex {
    var parents: Graph
    var children: map<Id, seq<Id>>

    ghost predicate Valid()
      reads this
    {
      Acyclic(parents) && Closed(parents) && ChildrenCover(parents, children)
    }

    constructor ()
      ensures Valid() && parents == map[] && children == map[]
    {
      parents, children := map[], map[];
    }

    /** `append`: every check first, then the links in both directions; a refusal changes nothing. */
    method Append(commit: Commit) returns (r: Result<(), DagError>)
      requires Valid()
      modifies this
      ensures Valid()
      ensures r == match AppendError(old(parents), commit.id, commit.body.parents)
                   case Some(e) => Err(e)
                   case None => Ok(())
      ensures r.Ok? ==>
        parents == old(parents)[commit.id := commit.body.parents] &&
        children == AddChildren(old(children), commit.body.parents, commit.id)
      ensures r.Err? ==> parents == old(parents) && children == old(children)
    {
      var id, ps := commit.id, commit.body.parents;
      if id == "" {
        return Err(IdRequired);
      }
      if id in ps {
        return Err(SelfParent);
      }
      for i := 0 to |ps|
        invariant parents == old(parents) && children == old(children)
        invariant CheckParents(parents, id, ps) == CheckParents(parents, id, ps[i..])
      {
        assert ps[i..][1..] == ps[i + 1..];
        if ps[i] !in parents {
          return Err(UnknownParent(ps[i]));
        }
        var back := Reachable(parents, ps[i], id);
        if back {
          return Err(WouldCycle);
        }
      }
      AppendKeepsIndex(parents, id, ps);
      AppendKeepsCover(parents, children, id, ps);
      parents := parents[id := ps];
      for i := 0 to |ps|
        invariant parents == old(parents)[id := ps]
        invariant children == AddChildren(old(children), ps[..i], id)
      {
        assert ps[..i + 1][..i] == ps[..i];
        children := children[ps[i] := (if ps[i] in children then children[ps[i]] else []) + [id]];
      }
      assert ps[..|ps|] == ps;
      r := Ok(());
    }

    /** `is_ancestor` */
    method IsAncestor(ancestor: Id, id: Id) returns (b: bool)
      ensures b <==> ancestor in Anc(parents, id)
    {
      AncIsReach(parents, id, ancestor);
      if ancestor == id {
        ReachSelf(parents, id);
        return true;
      }
      b := Reachable(parents, id, ancestor);
    }

    /** `ancestry` */
    method AncestryOf(id: Id) returns (out: seq<Id>)
      ensures Elems(out) == Anc(parents, id) && Distinct(out) && out != [] && out[|out| - 1] == id
      ensures Acyclic(parents) ==> out == Ancestry(parents, id)
    {
      var seen;
      seen, out := CollectAncestry(parents, id, {}, []);
      VisitListsAncestry(parents, id);
      if Acyclic(parents) {
        SearchesAgree(parents, id);
      }
    }

    /** `nearest_common_ancestor`: the first of `b`'s ancestry that `a` shares. */
    method NearestCommonAncestor(a: Id, b: Id) returns (r: Option<Id>)
      ensures r.None? <==> Anc(parents, a) * Anc(parents, b) == {}
      ensures Acyclic(parents) ==> r == FirstShared(parents, a, Ancestry(parents, b))
    {
      var ofA := AncestryOf(a);
      var ofB := AncestryOf(b);
      for i := 0 to |ofB|
        invariant forall j :: 0 <= j < i ==> ofB[j] !in Anc(parents, a)
        invariant FirstShared(parents, a, ofB) == FirstShared(parents, a, ofB[i..])
      {
        assert ofB[i..][1..] == ofB[i + 1..];
        assert ofB[i] in Elems(ofB) && (ofB[i] in ofA <==> ofB[i] in Elems(ofA));
        if ofB[i] in ofA {
          assert ofB[i] in Anc(parents, a) * Anc(parents, b);
          return Some(ofB[i]);
        }
      }
      forall x | x in Anc(parents, b) ensures x !in Anc(parents, a) {
        assert x in Elems(ofB);
      }
      r := None;
    }
  }

  /** `from_commits`: every commit appended in turn; the first refusal ends it. */
  method FromCommits(commits: seq<Commit>) returns (index: DagIndex, r: Result<(), DagError>)
    ensures fresh(index) && index.Valid()
    ensures match Rebuild(map[], commits)
            case Ok(g) => r == Ok(()) && index.parents == g
            case Err(e) => r == Err(e)
  {
    index := new DagIndex();
    for i := 0 to |commits|
      invariant fresh(index) && index.Valid()
      invariant Rebuild(map[], commits) == Rebuild(index.parents, commits[i..])
    {
      assert commits[i..][1..] == commits[i + 1..];
      r := index.Append(commits[i]);
      if r.Err? {
        return;
      }
    }
    r := Ok(());
  }

  ghost function Rebuild(g: Graph, commits: seq<Commit>): Result<Graph, DagError>
    decreases |commits|
  {
    if commits == [] then Ok(g)
    else
      match AppendError(g, commits[0].id, commits[0].body.parents)
      case Some(e) => Err(e)
      case None => Rebuild(g[commits[0].id := commits[0].body.parents], commits[1..])
  }

  // ---------------------------------------------------------------- the searches

  /** `reachable_locked`: the worklist search stops, and answers whether a parent path exists. */
  method Reachable(g: Graph, start: Id, target: Id) returns (found: bool)
    ensures found <==> Reach(g, start, target)
  {
    var stack := [start];
    var seen: set<Id> := {};
    ReachSelf(g, start);
    ghost var universe := Nodes(g) + {start};
    while stack != []
      invariant seen <= universe && forall x :: x in stack ==> x in universe
      invariant forall x :: x in stack || x in seen ==> Reach(g, start, x)
      invariant target !in seen && (start in seen || start in stack)
      invariant forall x, y :: x in seen && y in ParentsOf(g, x) ==> y in seen || y in stack
      decreases universe - seen, |stack|
    {
      var current := stack[|stack| - 1];
      ghost var was := stack;
      stack := stack[..|stack| - 1];
      assert was == stack + [current];
      if current == target {
        return true;
      }
      if current !in seen {
        seen := seen + {current};
        if current in g {
          forall y | y in g[current] ensures Reach(g, start, y) && y in universe {
            ReachSelf(g, y);
            ReachVia(g, current, y, y);
            ReachTrans(g, start, current, y);
          }
          stack := stack + g[current];
        }
      }
    }
    if Reach(g, start, target) {
      ReachStays(g, seen, start, target);
    }
    return false;
  }

  /** `collect_ancestry`: post-order with a seen set. */
  method CollectAncestry(g: Graph, id: Id, seen0: set<Id>, out0: seq<Id>) returns (seen: set<Id>, out: seq<Id>)
    ensures (seen, out) == Visit(g, id, seen0, out0)
    decreases Nodes(g) - seen0
  {
    if id in seen0 {
      return seen0, out0;
    }
    seen, out := seen0 + {id}, out0;
    if id in g {
      assert id in Nodes(g) - seen0;
      for i := 0 to |g[id]|
        invariant (seen, out) == VisitParents(g, id, i, seen0 + {id}, out0)
      {
        seen, out := CollectAncestry(g, g[id][i], seen, out);
      }
    }
    out := out + [id];
  }

  // ---------------------------------------------------------------- the common ancestor

  ghost function FirstShared(g: Graph, a: Id, s: seq<Id>): Option<Id> {
    if s == [] then None
    else if s[0] in Anc(g, a) then Some(s[0])
    else FirstShared(g, a, s[1..])
  }

  lemma {:induction false} FirstSharedSpec(g: Graph, a: Id, s: seq<Id>) returns (i: nat)
    ensures FirstShared(g, a, s).None? ==> forall x :: x in s ==> x !in Anc(g, a)
    ensures FirstShared(g, a, s).Some? ==>
              i < |s| && s[i] == FirstShared(g, a, s).value && s[i] in Anc(g, a)
              && forall x :: x in s[..i] ==> x !in Anc(g, a)
    decreases |s|
  {
    if s == [] || s[0] in Anc(g, a) {
      i := 0;
    } else {
      var j := FirstSharedSpec(g, a, s[1..]);
      i := j + 1;
      assert FirstShared(g, a, s).Some? ==> s[..i] == [s[0]] + s[1..][..j];
    }
  }

  /** The answer is a shared ancestor that has no parents: the scan runs oldest first. */
  lemma CommonAncestorIsRoot(g: Graph, a: Id, b: Id)
    requires Acyclic(g) && FirstShared(g, a, Ancestry(g, b)).Some?
    ensures var x := FirstShared(g, a, Ancestry(g, b)).value;
            x in Anc(g, a) && x in Anc(g, b) && ParentsOf(g, x) == []
  {
    var s := Ancestry(g, b);
    AncestrySpec(g, b);
    var i := FirstSharedSpec(g, a, s);
    assert s[i] in Elems(s);
    if ParentsOf(g, s[i]) != [] {
      var m := ParentsOf(g, s[i])[0];
      AncOfParent(g, s[i], m);
      AncUnfold(g, m, m);
      AncOfAnc(g, a, s[i]);
    }
  }

  ghost function Shared(g: Graph, a: Id, b: Id): set<Id> {
    Anc(g, a) * Anc(g, b)
  }

  /** So every shared ancestor lies in its past exactly when the two commits share only one. */
  lemma NearestIffOnlyOne(g: Graph, a: Id, b: Id)
    requires Acyclic(g) && FirstShared(g, a, Ancestry(g, b)).Some?
    ensures var x := FirstShared(g, a, Ancestry(g, b)).value;
            (forall y :: y in Shared(g, a, b) ==> y in Anc(g, x)) <==> |Shared(g, a, b)| == 1
  {
    var x := FirstShared(g, a, Ancestry(g, b)).value;
    CommonAncestorIsRoot(g, a, b);
    forall y ensures y in Anc(g, x) <==> y == x {
      AncUnfold(g, x, y);
    }
    if |Shared(g, a, b)| == 1 {
      OnlyElement(Shared(g, a, b), x);
    }
    assert Shared(g, a, b) == {x} ==> |Shared(g, a, b)| == 1;
  }

  lemma OnlyElement(s: set<Id>, x: Id)
    requires |s| == 1 && x in s
    ensures s == {x}
  {
    assert |s - {x}| == 0;
    assert s == {x} + (s - {x});
  }

  /**
    And it is a lowest shared ancestor, one that no other shared ancestor descends from, exactly when
    no shared ancestor has it for a parent.
  */
  lemma LowestIffNoSharedChild(g: Graph, a: Id, b: Id)
    requires Acyclic(g) && FirstShared(g, a, Ancestry(g, b)).Some?
    ensures var x := FirstShared(g, a, Ancestry(g, b)).value;
            (forall y :: y in Shared(g, a, b) && x in Anc(g, y) ==> y == x) <==>
              forall y :: y in Shared(g, a, b) ==> x !in ParentsOf(g, y)
  {
    var x := FirstShared(g, a, Ancestry(g, b)).value;
    forall y | y in Shared(g, a, b) && x in ParentsOf(g, y) ensures x in Anc(g, y) && y != x {
      AncOfParent(g, y, x);
      AncUnfold(g, x, x);
    }
    forall y | y in Shared(g, a, b) && x in Anc(g, y) && y != x
      ensures exists z :: z in Shared(g, a, b) && x in ParentsOf(g, z)
    {
      AncIsReach(g, y, x);
      var z := ReachLast(g, y, x);
      AncIsReach(g, y, z);
      AncOfAnc(g, a, y);
      AncOfAnc(g, b, y);
    }
  }
}
