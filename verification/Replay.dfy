/** Replaying a commit's ancestry into a captured state (daemon/src/ledger/replay.rs). */
module Replay {
  import opened Graph
  import opened Seqs
  import opened Json
  import opened DeepMerge
  import opened Commits
  import opened StableSort
  import opened Wrappers

  /** The commits table, read by id. */
  type Store = map<Id, Commit>

  predicate Keyed(store: Store) {
    forall id :: id in store ==> store[id].id == id
  }

  /** The parent links that the stored commits carry. */
  function Links(store: Store): Graph {
    map id | id in store :: store[id].body.parents
  }

  function IdsOf(cs: seq<Commit>): (ids: seq<Id>)
    ensures |ids| == |cs| && forall i :: 0 <= i < |cs| ==> ids[i] == cs[i].id
  {
    seq(|cs|, i requires 0 <= i < |cs| => cs[i].id)
  }

  function Load(store: Store, ids: seq<Id>): (cs: seq<Commit>)
    requires forall id :: id in ids ==> id in store
    ensures |cs| == |ids| && forall i :: 0 <= i < |ids| ==> cs[i] == store[ids[i]]
  {
    seq(|ids|, i requires 0 <= i < |ids| => store[ids[i]])
  }

  function DeltasOf(cs: seq<Commit>): (ds: seq<Json>)
    ensures |ds| == |cs| && forall i :: 0 <= i < |cs| ==> ds[i] == DeltaOf(cs[i])
  {
    seq(|cs|, i requires 0 <= i < |cs| => DeltaOf(cs[i]))
  }

  /** The sort key of a commit; a missing wall time counts as 0. */
  function KeyOf(c: Commit): Key {
    Key(c.body.clock, if c.body.seconds.Some? then c.body.seconds.value else 0)
  }

  predicate KeyLe(a: Commit, b: Commit) {
    Le(KeyOf(a), KeyOf(b))
  }

  function SortByKey(s: seq<Commit>): seq<Commit> {
    Sort(KeyOf, s)
  }

  // ---------------------------------------------------------------- replay

  datatype ReplayMode = StateOnly | DryRunTools | ReexecuteTools

  datatype ReplayRequest = ReplayRequest(commitId: Id, mode: ReplayMode, confirmed: bool)

  datatype ReplayError = NotConfirmed | NotFound(id: Id)

  datatype ReplayResult = ReplayResult(
    state: Json, provenance: seq<Id>, toolOutputs: seq<ToolResult>, artifacts: seq<ArtifactRef>,
    warnings: seq<SideEffect>)

  const EMPTY_STATE := Object(map[])

  /** A commit whose whole ancestry is stored. */
  ghost predicate Complete(store: Store, id: Id) {
    Anc(Links(store), id) <= store.Keys
  }

  lemma AncestryIsStored(store: Store, id: Id)
    requires Acyclic(Links(store)) && Complete(store, id)
    ensures forall x :: x in Ancestry(Links(store), id) ==> x in store
  {
    AncestrySpec(Links(store), id);
    forall x | x in Ancestry(Links(store), id) ensures x in store {
      assert x in Elems(Ancestry(Links(store), id));
    }
  }

  /** The ancestry as it is collected. */
  function Collected(store: Store, id: Id): seq<Commit>
    requires Acyclic(Links(store)) && Complete(store, id)
  {
    AncestryIsStored(store, id);
    Load(store, Ancestry(Links(store), id))
  }

  /** The ancestry in the order replay applies it. */
  function ReplayOrder(store: Store, id: Id): seq<Commit>
    requires Acyclic(Links(store)) && Complete(store, id)
  {
    SortByKey(Collected(store, id))
  }

  function ToolOutputs(cs: seq<Commit>): seq<ToolResult> {
    if cs == [] then [] else ToolOutputs(cs[..|cs| - 1]) + cs[|cs| - 1].body.toolResults
  }

  function Artifacts(cs: seq<Commit>): seq<ArtifactRef> {
    if cs == [] then [] else Artifacts(cs[..|cs| - 1]) + cs[|cs| - 1].body.artifacts
  }

  function Effects(cs: seq<Commit>): seq<SideEffect> {
    if cs == [] then [] else Effects(cs[..|cs| - 1]) + cs[|cs| - 1].body.sideEffects
  }

  /** What replaying a list of commits in order gives. */
  function Applied(cs: seq<Commit>): ReplayResult {
    ReplayResult(MergeAll(EMPTY_STATE, DeltasOf(cs)), IdsOf(cs), ToolOutputs(cs), Artifacts(cs), Effects(cs))
  }

  function Replayed(store: Store, id: Id): ReplayResult
    requires Acyclic(Links(store)) && Complete(store, id)
  {
    Applied(ReplayOrder(store, id))
  }

  /**
    `collect`: parents again and again, with only a duplicate check on what is pushed.
    It ends because the links are acyclic; it fails at the first commit that is not stored.
  */
  method CollectCommits(store: Store, id: Id, out: seq<Commit>) returns (r: Result<seq<Commit>, ReplayError>)
    requires Keyed(store) && Acyclic(Links(store))
    requires forall c :: c in out ==> c.id in store && store[c.id] == c
    ensures r.Ok? <==> Complete(store, id)
    ensures r.Ok? ==> forall c :: c in r.value ==> c.id in store && store[c.id] == c
    ensures r.Ok? ==> IdsOf(r.value) == Collect(Links(store), id, IdsOf(out))
    ensures r.Err? ==> r.error.NotFound? && r.error.id !in store && r.error.id in Anc(Links(store), id)
    decreases |Anc(Links(store), id)|
  {
    ghost var g := Links(store);
    AncUnfold(g, id, id);
    if id !in store {
      return Err(NotFound(id));
    }
    var commit := store[id];
    var ps := commit.body.parents;
    var all := out;
    for i := 0 to |ps|
      invariant forall c :: c in all ==> c.id in store && store[c.id] == c
      invariant IdsOf(all) == CollectParents(g, id, i, IdsOf(out))
      invariant AncOfFirst(g, id, i) <= store.Keys
    {
      AncOfParent(g, id, ps[i]);
      var sub := CollectCommits(store, ps[i], all);
      if sub.Err? {
        return sub;
      }
      all := sub.value;
    }
    AncSplit(g, id);
    var there := exists i :: 0 <= i < |all| && all[i].id == id;
    assert there <==> id in IdsOf(all);
    if !there {
      assert IdsOf(all + [commit]) == IdsOf(all) + [id];
      all := all + [commit];
    }
    r := Ok(all);
  }

  lemma LoadedBack(store: Store, cs: seq<Commit>)
    requires forall c :: c in cs ==> c.id in store && store[c.id] == c
    ensures forall id :: id in IdsOf(cs) ==> id in store
    ensures Load(store, IdsOf(cs)) == cs
  {
  }

  lemma AppliedSnoc(cs: seq<Commit>, c: Commit)
    ensures var a := Applied(cs);
            Applied(cs + [c]) == ReplayResult(Merge(a.state, DeltaOf(c)), a.provenance + [c.id],
              a.toolOutputs + c.body.toolResults, a.artifacts + c.body.artifacts, a.warnings + c.body.sideEffects)
  {
    assert (cs + [c])[..|cs|] == cs;
    assert DeltasOf(cs + [c])[..|cs|] == DeltasOf(cs);
    assert IdsOf(cs + [c]) == IdsOf(cs) + [c.id];
  }

  /** `replay` */
  method Replay(store: Store, request: ReplayRequest) returns (r: Result<ReplayResult, ReplayError>)
    requires Keyed(store) && Acyclic(Links(store))
    ensures r.Ok? <==> !(request.mode.ReexecuteTools? && !request.confirmed) && Complete(store, request.commitId)
    ensures r.Ok? ==> r.value == Replayed(store, request.commitId)
    ensures r.Err? && r.error.NotFound? ==> r.error.id !in store && r.error.id in Anc(Links(store), request.commitId)
  {
    if request.mode.ReexecuteTools? && !request.confirmed {
      return Err(NotConfirmed);
    }
    var found := CollectCommits(store, request.commitId, []);
    if found.Err? {
      return Err(found.error);
    }
    LoadedBack(store, found.value);
    AncestryIsStored(store, request.commitId);
    assert IdsOf([]) == [];
    var commits := SortByKey(found.value);
    assert commits == ReplayOrder(store, request.commitId);
    var state, provenance, tools, artifacts, warnings := EMPTY_STATE, [], [], [], [];
    for i := 0 to |commits|
      invariant ReplayResult(state, provenance, tools, artifacts, warnings) == Applied(commits[..i])
    {
      var c := commits[i];
      AppliedSnoc(commits[..i], c);
      assert commits[..i + 1] == commits[..i] + [c];
      provenance := provenance + [c.id];
      state := MergeValue(state, PayloadToJson(c.body.delta));
      tools := tools + c.body.toolResults;
      artifacts := artifacts + c.body.artifacts;
      warnings := warnings + c.body.sideEffects;
    }
    assert commits[..|commits|] == commits;
    r := Ok(ReplayResult(state, provenance, tools, artifacts, warnings));
  }

  // ---------------------------------------------------------------- what replay promises

  lemma OrderMembers(store: Store, id: Id, c: Commit)
    requires Keyed(store) && Acyclic(Links(store)) && Complete(store, id)
    ensures c in ReplayOrder(store, id) <==> c.id in Anc(Links(store), id) && c == store[c.id]
  {
    var ids := Ancestry(Links(store), id);
    AncestryIsStored(store, id);
    AncestrySpec(Links(store), id);
    var loaded := Load(store, ids);
    SortMembers(KeyOf, loaded, c);
    if c in loaded {
      var i :| 0 <= i < |loaded| && loaded[i] == c;
      assert ids[i] in Elems(ids);
    }
    if c.id in Anc(Links(store), id) && c == store[c.id] {
      assert c.id in Elems(ids);
      var i :| 0 <= i < |ids| && ids[i] == c.id;
      assert loaded[i] == c;
    }
  }

  lemma CollectedDistinct(store: Store, id: Id)
    requires Keyed(store) && Acyclic(Links(store)) && Complete(store, id)
    ensures Distinct(Collected(store, id))
  {
    AncestrySpec(Links(store), id);
    AncestryIsStored(store, id);
    var ids := Ancestry(Links(store), id);
    var loaded := Load(store, ids);
    forall i, j | 0 <= i < j < |loaded| ensures loaded[i] != loaded[j] {
      assert loaded[i].id == ids[i] && loaded[j].id == ids[j];
    }
  }

  lemma OrderDistinct(store: Store, id: Id)
    requires Keyed(store) && Acyclic(Links(store)) && Complete(store, id)
    ensures Distinct(ReplayOrder(store, id))
  {
    CollectedDistinct(store, id);
    SortKeepsDistinct(KeyOf, Collected(store, id));
  }

  /** Whatever algorithm sorts the collected commits, if it is stable this is the order replay gets. */
  lemma ReplayOrderIsTheStableSort(store: Store, id: Id, order: seq<Commit>)
    requires Keyed(store) && Acyclic(Links(store)) && Complete(store, id)
    requires multiset(order) == multiset(Collected(store, id))
    requires Sorted(KeyOf, order) && Stable(KeyOf, Collected(store, id), order)
    ensures order == ReplayOrder(store, id)
  {
    CollectedDistinct(store, id);
    SortIsTheStableSort(KeyOf, Collected(store, id), order);
  }

  lemma OrderIds(store: Store, id: Id, x: Id)
    requires Keyed(store) && Acyclic(Links(store)) && Complete(store, id)
    ensures x in IdsOf(ReplayOrder(store, id)) <==> x in Anc(Links(store), id)
  {
    var order := ReplayOrder(store, id);
    if x in IdsOf(order) {
      var i :| 0 <= i < |order| && order[i].id == x;
      OrderMembers(store, id, order[i]);
    }
    if x in Anc(Links(store), id) {
      OrderMembers(store, id, store[x]);
      var i :| 0 <= i < |order| && order[i] == store[x];
      assert IdsOf(order)[i] == x;
    }
  }

  lemma {:induction false} ToolOutputsConcat(a: seq<Commit>, b: seq<Commit>)
    ensures ToolOutputs(a + b) == ToolOutputs(a) + ToolOutputs(b)
    decreases |b|
  {
    if b == [] {
      assert a + b == a;
    } else {
      var front := b[..|b| - 1];
      ToolOutputsConcat(a, front);
      assert (a + b)[..|a + b| - 1] == a + front;
    }
  }

  lemma {:induction false} ArtifactsConcat(a: seq<Commit>, b: seq<Commit>)
    ensures Artifacts(a + b) == Artifacts(a) + Artifacts(b)
    decreases |b|
  {
    if b == [] {
      assert a + b == a;
    } else {
      var front := b[..|b| - 1];
      ArtifactsConcat(a, front);
      assert (a + b)[..|a + b| - 1] == a + front;
    }
  }

  lemma {:induction false} EffectsConcat(a: seq<Commit>, b: seq<Commit>)
    ensures Effects(a + b) == Effects(a) + Effects(b)
    decreases |b|
  {
    if b == [] {
      assert a + b == a;
    } else {
      var front := b[..|b| - 1];
      EffectsConcat(a, front);
      assert (a + b)[..|a + b| - 1] == a + front;
    }
  }

  lemma ToolOutputsAround(a: seq<Commit>, c: Commit, b: seq<Commit>)
    ensures ToolOutputs(a + [c] + b) == ToolOutputs(a) + c.body.toolResults + ToolOutputs(b)
  {
    assert (a + [c])[..|a|] == a;
    ToolOutputsConcat(a + [c], b);
  }

  lemma ArtifactsAround(a: seq<Commit>, c: Commit, b: seq<Commit>)
    ensures Artifacts(a + [c] + b) == Artifacts(a) + c.body.artifacts + Artifacts(b)
  {
    assert (a + [c])[..|a|] == a;
    ArtifactsConcat(a + [c], b);
  }

  lemma EffectsAround(a: seq<Commit>, c: Commit, b: seq<Commit>)
    ensures Effects(a + [c] + b) == Effects(a) + c.body.sideEffects + Effects(b)
  {
    assert (a + [c])[..|a|] == a;
    EffectsConcat(a + [c], b);
  }

  /**
    The outputs, artifacts and warnings of a replay are those of its commits one after the other: around
    any commit they are what came before, then all of its own, then what came after.
  */
  lemma ReplayCollectsAll(store: Store, id: Id, k: nat)
    requires Keyed(store) && Acyclic(Links(store)) && Complete(store, id) && k < |ReplayOrder(store, id)|
    ensures var r, order := Replayed(store, id), ReplayOrder(store, id);
            var before, b, after := Applied(order[..k]), order[k].body, Applied(order[k + 1..]);
            && r.toolOutputs == before.toolOutputs + b.toolResults + after.toolOutputs
            && r.artifacts == before.artifacts + b.artifacts + after.artifacts
            && r.warnings == before.warnings + b.sideEffects + after.warnings
            && |r.provenance| == |order| && r.provenance[k] == order[k].id
  {
    var order := ReplayOrder(store, id);
    var before, after := order[..k], order[k + 1..];
    assert order == before + [order[k]] + after;
    ToolOutputsAround(before, order[k], after);
    ArtifactsAround(before, order[k], after);
    EffectsAround(before, order[k], after);
  }

  /** Every commit of the ancestry is applied once, and nothing else. */
  lemma ReplayIsPermutation(store: Store, id: Id)
    requires Keyed(store) && Acyclic(Links(store)) && Complete(store, id)
    ensures var p := Replayed(store, id).provenance;
            Elems(p) == Anc(Links(store), id) && Distinct(p)
  {
    var order := ReplayOrder(store, id);
    var p := IdsOf(order);
    forall x ensures x in p <==> x in Anc(Links(store), id) {
      OrderIds(store, id, x);
    }
    OrderDistinct(store, id);
    forall i, j | 0 <= i < j < |p| ensures p[i] != p[j] {
      OrderMembers(store, id, order[i]);
      OrderMembers(store, id, order[j]);
    }
  }

  lemma {:induction false} EffectsMembers(cs: seq<Commit>, e: SideEffect)
    ensures e in Effects(cs) <==> exists c :: c in cs && e in c.body.sideEffects
    decreases |cs|
  {
    if cs != [] {
      EffectsMembers(cs[..|cs| - 1], e);
      assert forall c :: c in cs <==> c == cs[|cs| - 1] || c in cs[..|cs| - 1];
    }
  }

  /** Replay warns about exactly the side effects of the ancestry. */
  lemma ReplayWarnings(store: Store, id: Id, e: SideEffect)
    requires Keyed(store) && Acyclic(Links(store)) && Complete(store, id)
    ensures e in Replayed(store, id).warnings <==>
            exists x :: x in Anc(Links(store), id) && e in store[x].body.sideEffects
  {
    var order := ReplayOrder(store, id);
    EffectsMembers(order, e);
    forall c | c in order ensures c.id in Anc(Links(store), id) && c == store[c.id] {
      OrderMembers(store, id, c);
    }
    forall x | x in Anc(Links(store), id) ensures store[x] in order {
      OrderMembers(store, id, store[x]);
    }
  }

  /** No commit of the ancestry sorts below one of its parents. */
  ghost predicate ClocksGrow(store: Store, id: Id)
    requires Complete(store, id)
  {
    forall c, m :: c in Anc(Links(store), id) && m in store[c].body.parents && m in store ==> KeyLe(store[m], store[c])
  }

  /** Replay applies every parent before its children exactly when no key falls from parent to child. */
  lemma ParentsFirstIffClocksGrow(store: Store, id: Id)
    requires Keyed(store) && Acyclic(Links(store)) && Complete(store, id)
    ensures ParentsFirst(Links(store), Replayed(store, id).provenance) <==> ClocksGrow(store, id)
  {
    if ParentsFirst(Links(store), Replayed(store, id).provenance) {
      forall c, m | c in Anc(Links(store), id) && m in store[c].body.parents && m in store
        ensures KeyLe(store[m], store[c])
      {
        ParentSortsLower(store, id, c, m);
      }
    }
    if ClocksGrow(store, id) {
      ClocksGrowParentsFirst(store, id);
    }
  }

  lemma ParentSortsLower(store: Store, id: Id, c: Id, m: Id)
    requires Keyed(store) && Acyclic(Links(store)) && Complete(store, id)
    requires ParentsFirst(Links(store), Replayed(store, id).provenance)
    requires c in Anc(Links(store), id) && m in store[c].body.parents && m in store
    ensures KeyLe(store[m], store[c])
  {
    var order := ReplayOrder(store, id);
    var p := IdsOf(order);
    AncestryIsStored(store, id);
    SortSorts(KeyOf, Collected(store, id));
    OrderMembers(store, id, store[c]);
    var j :| 0 <= j < |order| && order[j] == store[c];
    assert p[j] == c && m in p[..j];
    var i :| 0 <= i < j && p[i] == m;
    OrderMembers(store, id, order[i]);
  }

  /**
    Replay applies lower clocks first, and of equal clocks the lower second, a missing wall time counting
    as second 0; commits with the same clock and second keep the order in which they were collected.
  */
  lemma ReplayOrderAscends(store: Store, id: Id, i: nat, j: nat)
    requires Keyed(store) && Acyclic(Links(store)) && Complete(store, id)
    requires i < j < |ReplayOrder(store, id)|
    ensures var x, y := ReplayOrder(store, id)[i].body, ReplayOrder(store, id)[j].body;
            var sx := if x.seconds.Some? then x.seconds.value else 0;
            var sy := if y.seconds.Some? then y.seconds.value else 0;
            && x.clock <= y.clock && (x.clock == y.clock ==> sx <= sy)
            && (x.clock == y.clock && sx == sy ==>
                 Before(Collected(store, id), ReplayOrder(store, id)[i], ReplayOrder(store, id)[j]))
  {
    var collected, order := Collected(store, id), ReplayOrder(store, id);
    var x, y := order[i], order[j];
    SortSorts(KeyOf, collected);
    CollectedDistinct(store, id);
    OrderDistinct(store, id);
    SortMembers(KeyOf, collected, x);
    SortMembers(KeyOf, collected, y);
    PlacedSomehow(collected, x, y);
    if KeyOf(x) == KeyOf(y) && Before(collected, y, x) {
      SortIsStable(KeyOf, collected, y, x);
      BeforeIsOneWay(order, y, x);
    }
  }

  /** Every stored link goes to a stored commit with a lower clock, or the same clock and an earlier second. */
  ghost predicate TimesRise(store: Store) {
    forall c, m :: c in store && m in store[c].body.parents ==>
      m in store &&
      var x, y := store[m].body, store[c].body;
      x.clock < y.clock || (x.clock == y.clock &&
        (if x.seconds.Some? then x.seconds.value else 0) < (if y.seconds.Some? then y.seconds.value else 0))
  }

  /** Then replay applies every parent before its children: a chain of checkpoints does, if its seconds rise. */
  lemma RisingTimesReplayInOrder(store: Store, id: Id)
    requires Keyed(store) && Acyclic(Links(store)) && Complete(store, id) && TimesRise(store)
    ensures ParentsFirst(Links(store), Replayed(store, id).provenance)
  {
    ParentsFirstIffClocksGrow(store, id);
  }

  lemma ClocksGrowParentsFirst(store: Store, id: Id)
    requires Keyed(store) && Acyclic(Links(store)) && Complete(store, id) && ClocksGrow(store, id)
    ensures ParentsFirst(Links(store), Replayed(store, id).provenance)
  {
    var order := ReplayOrder(store, id);
    var p := IdsOf(order);
    ReplayIsPermutation(store, id);
    forall j, m | 0 <= j < |p| && m in ParentsOf(Links(store), p[j]) ensures m in p[..j] {
      OrderMembers(store, id, order[j]);
      ParentBefore(store, id, p[j], m);
      var a, b :| 0 <= a < b < |order| && order[a] == store[m] && order[b] == store[p[j]];
      assert p[b] == p[j] && p[a] == m;
    }
  }

  lemma ParentBefore(store: Store, id: Id, c: Id, m: Id)
    requires Keyed(store) && Acyclic(Links(store)) && Complete(store, id) && ClocksGrow(store, id)
    requires c in Anc(Links(store), id) && m in ParentsOf(Links(store), c)
    ensures m in store && Before(ReplayOrder(store, id), store[m], store[c])
  {
    var g := Links(store);
    var ids := Ancestry(g, id);
    AncestrySpec(g, id);
    AncestryIsStored(store, id);
    var loaded := Load(store, ids);
    assert c in Elems(ids);
    var j :| 0 <= j < |ids| && ids[j] == c;
    assert m in ids[..j];
    var i :| 0 <= i < j && ids[i] == m;
    assert loaded[i] == store[m] && loaded[j] == store[c];
    SortIsStable(KeyOf, loaded, store[m], store[c]);
  }

  /** A store that only gained commits. */
  predicate Grew(store: Store, later: Store) {
    forall id :: id in store ==> id in later && later[id] == store[id]
  }

  /** Replay is stable: what a commit replays to never changes as the store grows. */
  lemma ReplayStable(store: Store, later: Store, id: Id)
    requires Acyclic(Links(store)) && Acyclic(Links(later)) && Grew(store, later) && Complete(store, id)
    ensures Complete(later, id) && Replayed(later, id) == Replayed(store, id)
  {
    var g, h := Links(store), Links(later);
    AncAgree(g, h, id);
    CollectAgree(g, h, id, []);
    AncestryIsStored(store, id);
    AncestryIsStored(later, id);
    assert Load(store, Ancestry(g, id)) == Load(later, Ancestry(g, id));
  }

  /** Last writer wins, in replay order, at every path of the replayed state. */
  lemma ReplayLastWriter(store: Store, id: Id, p: Path)
    requires Acyclic(Links(store)) && Complete(store, id)
    ensures var ds := DeltasOf(ReplayOrder(store, id));
            var k := LastWriter(ds, p);
            At(Replayed(store, id).state, p) == if k < 0 then Absent else At(ds[k], p)
  {
    LastWriterWins(EMPTY_STATE, DeltasOf(ReplayOrder(store, id)), p);
    assert ReplayOrder(store, id) != [] by {
      AncestryIsStored(store, id);
      AncestrySpec(Links(store), id);
    }
  }

  /** Adding a commit on top of one parent: its ancestry is the parent's, then itself. */
  lemma ChildAncestry(g: Graph, id: Id, source: Id)
    requires Acyclic(g) && id in g && g[id] == [source]
    ensures Ancestry(g, id) == Ancestry(g, source) + [id]
  {
    AncestrySpec(g, source);
    AncOfParent(g, id, source);
    assert CollectParents(g, id, 1, []) == Collect(g, source, CollectParents(g, id, 0, []));
    assert id !in Elems(Ancestry(g, source));
  }

  /** A child that sorts below none of its ancestors replays to its parent's state merged with its own delta. */
  lemma ChildReplay(store: Store, c: Commit, source: Id)
    requires Keyed(store) && Acyclic(Links(store)) && Complete(store, c.id)
    requires c.id in store && store[c.id] == c && c.body.parents == [source]
    requires forall a :: a in Anc(Links(store), source) && a in store ==> KeyLe(store[a], c)
    ensures Complete(store, source)
    ensures Replayed(store, c.id).state == Merge(Replayed(store, source).state, DeltaOf(c))
    ensures Replayed(store, c.id).provenance == Replayed(store, source).provenance + [c.id]
  {
    var g := Links(store);
    AncOfParent(g, c.id, source);
    ChildAncestry(g, c.id, source);
    AncestryIsStored(store, source);
    AncestryIsStored(store, c.id);
    AncestrySpec(g, source);
    var older := Load(store, Ancestry(g, source));
    assert Load(store, Ancestry(g, c.id)) == older + [c];
    forall x | x in older ensures KeyLe(x, c) {
      var i :| 0 <= i < |older| && older[i] == x;
      assert Ancestry(g, source)[i] in Elems(Ancestry(g, source));
    }
    SortKeepsLast(KeyOf, older, c);
    AppliedSnoc(SortByKey(older), c);
  }
}
