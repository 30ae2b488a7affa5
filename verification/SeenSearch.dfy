/** The index's post-order search with a seen set, and why it agrees with the one without (daemon/src/ledger/dag.rs). */
module SeenSearch {
  import opened Graph
  import opened Seqs

  /** What `collect_ancestry` leaves in its seen set and its output, on any graph, cyclic ones included. */
  function Visit(g: Graph, id: Id, seen: set<Id>, out: seq<Id>): (r: (set<Id>, seq<Id>))
    ensures seen + {id} <= r.0
    decreases Nodes(g) - seen, 0, 0
  {
    if id in seen then (seen, out)
    else if id in g then
      assert id in Nodes(g) - seen;
      var r := VisitParents(g, id, |g[id]|, seen + {id}, out);
      (r.0, r.1 + [id])
    else (seen + {id}, out + [id])
  }

  function VisitParents(g: Graph, id: Id, k: nat, seen: set<Id>, out: seq<Id>): (r: (set<Id>, seq<Id>))
    requires id in g && k <= |g[id]|
    ensures seen <= r.0
    decreases Nodes(g) - seen, 1, k
  {
    if k == 0 then (seen, out)
    else
      var r := VisitParents(g, id, k - 1, seen, out);
      Visit(g, g[id][k - 1], r.0, r.1)
  }

  /** Seen is what is listed plus the commits entered and not yet listed. */
  predicate Split(seen: set<Id>, out: seq<Id>, pending: set<Id>) {
    seen == Elems(out) + pending && Elems(out) !! pending && Distinct(out)
  }

  /** What a search adds: commits of the ancestry, with all their parents seen. */
  ghost predicate Adds(g: Graph, id: Id, out: seq<Id>, r: (set<Id>, seq<Id>)) {
    && out <= r.1
    && (forall x :: x in Elems(r.1) - Elems(out) ==> x in Anc(g, id))
    && (forall x, y :: x in Elems(r.1) - Elems(out) && y in ParentsOf(g, x) ==> y in r.0)
  }

  lemma SplitSnoc(seen: set<Id>, out: seq<Id>, pending: set<Id>, id: Id)
    requires Split(seen, out, pending + {id}) && id !in pending
    ensures Split(seen, out + [id], pending) && Elems(out + [id]) == Elems(out) + {id}
  {
    assert id !in Elems(out) && (id in out <==> id in Elems(out));
  }

  lemma {:induction false} VisitSpec(g: Graph, id: Id, seen: set<Id>, out: seq<Id>, pending: set<Id>)
    requires Split(seen, out, pending)
    ensures var r := Visit(g, id, seen, out);
            Split(r.0, r.1, pending) && Adds(g, id, out, r) && (id !in seen ==> r.1 != [] && r.1[|r.1| - 1] == id)
    decreases Nodes(g) - seen, 0, 0
  {
    AncUnfold(g, id, id);
    if id !in seen {
      if id in g {
        assert id in Nodes(g) - seen;
        VisitParentsSpec(g, id, |g[id]|, seen + {id}, out, pending + {id});
        var r := VisitParents(g, id, |g[id]|, seen + {id}, out);
        SplitSnoc(r.0, r.1, pending, id);
      } else {
        SplitSnoc(seen + {id}, out, pending, id);
      }
    }
  }

  lemma {:induction false} VisitParentsSpec(g: Graph, id: Id, k: nat, seen: set<Id>, out: seq<Id>, pending: set<Id>)
    requires id in g && k <= |g[id]| && Split(seen, out, pending)
    ensures var r := VisitParents(g, id, k, seen, out);
            Split(r.0, r.1, pending) && Adds(g, id, out, r) && forall i :: 0 <= i < k ==> g[id][i] in r.0
    decreases Nodes(g) - seen, 1, k
  {
    if k > 0 {
      var r := VisitParents(g, id, k - 1, seen, out);
      VisitParentsSpec(g, id, k - 1, seen, out, pending);
      VisitSpec(g, g[id][k - 1], r.0, r.1, pending);
      AncOfParent(g, id, g[id][k - 1]);
    }
  }

  /** A whole search lists exactly the ancestry, once each, the commit itself last. */
  lemma VisitListsAncestry(g: Graph, id: Id)
    ensures var out := Visit(g, id, {}, []).1;
            Elems(out) == Anc(g, id) && Distinct(out) && out != [] && out[|out| - 1] == id
  {
    VisitSpec(g, id, {}, [], {});
    var out := Visit(g, id, {}, []).1;
    assert id in Elems(out);
    forall x | x in Anc(g, id) ensures x in Elems(out) {
      AncIsReach(g, id, x);
      ReachStays(g, Elems(out), id, x);
    }
  }

  /** On an acyclic graph the seen set changes nothing: the search lists what the one without it lists. */
  lemma {:induction false} VisitIsCollect(g: Graph, id: Id, seen: set<Id>, out: seq<Id>, pending: set<Id>)
    requires Acyclic(g) && Split(seen, out, pending) && ParentsFirst(g, out) && pending !! Anc(g, id)
    ensures Visit(g, id, seen, out).1 == Collect(g, id, out)
    decreases Nodes(g) - seen, 0, 0
  {
    AncUnfold(g, id, id);
    if id in seen {
      CollectAgain(g, id, out);
    } else if id in g {
      assert id in Nodes(g) - seen;
      assert Split(seen + {id}, out, pending + {id});
      AncSplit(g, id);
      NotItsOwnElder(g, id, |g[id]|);
      VisitParentsIsCollect(g, id, |g[id]|, seen + {id}, out, pending + {id});
      VisitParentsSpec(g, id, |g[id]|, seen + {id}, out, pending + {id});
      assert id !in Elems(VisitParents(g, id, |g[id]|, seen + {id}, out).1);
    } else {
      assert id !in Elems(out);
    }
  }

  lemma {:induction false} VisitParentsIsCollect(
      g: Graph, id: Id, k: nat, seen: set<Id>, out: seq<Id>, pending: set<Id>)
    requires id in g && k <= |g[id]| && Acyclic(g) && Split(seen, out, pending) && ParentsFirst(g, out)
    requires pending !! AncOfFirst(g, id, k)
    ensures VisitParents(g, id, k, seen, out).1 == CollectParents(g, id, k, out)
    decreases Nodes(g) - seen, 1, k
  {
    if k > 0 {
      var m := g[id][k - 1];
      var r := VisitParents(g, id, k - 1, seen, out);
      VisitParentsIsCollect(g, id, k - 1, seen, out, pending);
      assert Split(r.0, r.1, pending) by { VisitParentsSpec(g, id, k - 1, seen, out, pending); }
      assert ParentsFirst(g, r.1) by { CollectParentsSpec(g, id, k - 1, out); }
      assert AncOfFirst(g, id, k) == AncOfFirst(g, id, k - 1) + Anc(g, m);
      VisitIsCollect(g, m, r.0, r.1, pending);
    }
  }

  /** The two searches agree on every acyclic graph. */
  lemma SearchesAgree(g: Graph, id: Id)
    requires Acyclic(g)
    ensures Visit(g, id, {}, []).1 == Ancestry(g, id)
  {
    VisitIsCollect(g, id, {}, [], {});
  }
}
