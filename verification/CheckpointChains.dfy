/** A run of checkpoints into one slot, their seconds rising: it replays and restarts in order. */
module CheckpointChains {
  import opened Graph
  import opened Seqs
  import opened Commits
  import opened Replay
  import opened StableSort
  import opened SqliteStore
  import opened Service
  import opened Ledger
  import opened LedgerRuns
  import opened LoopRuns
  import opened DeepMerge

  // ---------------------------------------------------------------- one commit on the other

  /** Commits with clock 0 whose seconds rise. */
  predicate SecondsRise(cs: seq<Commit>) {
    && (forall k :: 0 <= k < |cs| ==> cs[k].body.clock == 0 && cs[k].body.seconds.Some?)
    && (forall j, k :: 0 <= j < k < |cs| ==> cs[j].body.seconds.value < cs[k].body.seconds.value)
  }

  /** Each commit has the one before it for its only parent. */
  predicate Linked(cs: seq<Commit>) {
    && (cs != [] ==> cs[0].body.parents == [])
    && (forall k :: 1 <= k < |cs| ==> cs[k].body.parents == [cs[k - 1].id])
  }

  /** The store holds these commits and no others. */
  predicate Holds(store: Store, cs: seq<Commit>) {
    store.Keys == Elems(IdsOf(cs)) && forall c :: c in cs ==> c.id in store && store[c.id] == c
  }

  ghost predicate Line(store: Store, cs: seq<Commit>) {
    Keyed(store) && Acyclic(Links(store)) && Linked(cs) && SecondsRise(cs) && Holds(store, cs)
  }

  lemma RootAncestry(g: Graph, id: Id)
    requires Acyclic(g) && id in g && g[id] == []
    ensures Ancestry(g, id) == [id]
  {
    assert CollectParents(g, id, 0, []) == [];
  }

  lemma LineLink(store: Store, cs: seq<Commit>, k: nat)
    requires Line(store, cs) && k < |cs|
    ensures Links(store)[cs[k].id] == if k == 0 then [] else [cs[k - 1].id]
  {
    assert cs[k] in cs;
  }

  lemma IdsSnoc(cs: seq<Commit>, k: nat)
    requires k < |cs|
    ensures IdsOf(cs[..k + 1]) == IdsOf(cs[..k]) + [cs[k].id]
  {
  }

  lemma {:induction false} LineAncestry(store: Store, cs: seq<Commit>, k: nat)
    requires Line(store, cs) && k < |cs|
    ensures Ancestry(Links(store), cs[k].id) == IdsOf(cs[..k + 1])
  {
    var g := Links(store);
    LineLink(store, cs, k);
    if k == 0 {
      RootAncestry(g, cs[0].id);
      IdsSnoc(cs, 0);
    } else {
      LineAncestry(store, cs, k - 1);
      ChildAncestry(g, cs[k].id, cs[k - 1].id);
      IdsSnoc(cs, k);
    }
  }

  lemma PrefixIds(cs: seq<Commit>, k: nat, x: Id)
    requires k < |cs| && x in IdsOf(cs[..k + 1])
    ensures x in IdsOf(cs)
  {
    var j :| 0 <= j < k + 1 && IdsOf(cs[..k + 1])[j] == x;
    assert IdsOf(cs)[j] == x;
  }

  lemma LineComplete(store: Store, cs: seq<Commit>, k: nat)
    requires Line(store, cs) && k < |cs|
    ensures Complete(store, cs[k].id)
  {
    var g := Links(store);
    LineAncestry(store, cs, k);
    AncestrySpec(g, cs[k].id);
    forall x | x in Anc(g, cs[k].id) ensures x in store {
      assert x in Ancestry(g, cs[k].id);
      PrefixIds(cs, k, x);
    }
  }

  /** Replay of a commit of the line applies the line up to it, in its order. */
  lemma LineReplays(store: Store, cs: seq<Commit>, k: nat)
    requires Line(store, cs) && k < |cs|
    ensures Complete(store, cs[k].id) && Replayed(store, cs[k].id) == Applied(cs[..k + 1])
  {
    LineAncestry(store, cs, k);
    LineComplete(store, cs, k);
    var line := cs[..k + 1];
    assert Collected(store, cs[k].id) == line;
    forall i, j | 0 <= i < j < |line| ensures Le(KeyOf(line[i]), KeyOf(line[j])) {
      assert cs[i].body.seconds.value < cs[j].body.seconds.value;
    }
    assert Stable(KeyOf, line, line);
    ReplayOrderIsTheStableSort(store, cs[k].id, line);
  }

  lemma LineGrows(store: Store, cs: seq<Commit>)
    requires Line(store, cs)
    ensures RowsGrow(store)
  {
    forall c, m | c in store && m in store[c].body.parents ensures m in store && RowBelow(store[m], store[c]) {
      var k :| 0 <= k < |IdsOf(cs)| && IdsOf(cs)[k] == c;
      assert cs[k] in cs;
      assert store[c] == cs[k] && k > 0;
      assert cs[k - 1] in cs;
      assert cs[k - 1].body.seconds.value < cs[k].body.seconds.value;
    }
  }

  /** A commit on top of the line. */
  predicate Tops(cs: seq<Commit>, c: Commit)
    requires SecondsRise(cs)
  {
    && c.body.parents == (if cs == [] then [] else [cs[|cs| - 1].id])
    && c.body.clock == 0 && c.body.seconds.Some?
    && forall j :: 0 <= j < |cs| ==> cs[j].body.seconds.value < c.body.seconds.value
  }

  lemma SecondsSnoc(cs: seq<Commit>, c: Commit)
    requires SecondsRise(cs) && Linked(cs) && Tops(cs, c)
    ensures SecondsRise(cs + [c]) && Linked(cs + [c])
  {
  }

  lemma HoldsSnoc(store: Store, cs: seq<Commit>, c: Commit)
    requires Holds(store, cs) && c.id !in store
    ensures Holds(store[c.id := c], cs + [c])
  {
    assert IdsOf(cs + [c]) == IdsOf(cs) + [c.id];
    assert Elems(IdsOf(cs) + [c.id]) == Elems(IdsOf(cs)) + {c.id};
  }

  lemma LineSnoc(store: Store, cs: seq<Commit>, c: Commit)
    requires Line(store, cs) && Tops(cs, c) && c.id !in store
    requires Keyed(store[c.id := c]) && Acyclic(Links(store[c.id := c]))
    ensures Line(store[c.id := c], cs + [c])
  {
    SecondsSnoc(cs, c);
    HoldsSnoc(store, cs, c);
  }

  lemma TopIsNew(w: World, store: Store, cs: seq<Commit>, c: Commit)
    requires Injective(w.hash) && Line(store, cs) && Hashed(w, store) && WellHashed(w.hash, c) && Tops(cs, c)
    ensures c.id !in store
  {
    forall k | 0 <= k < |cs| ensures cs[k].id != c.id {
      assert cs[k] in cs;
      if cs[k].id == c.id { SameIdSameCommit(w.hash, c, cs[k]); }
    }
  }

  // ---------------------------------------------------------------- the run that makes such a line

  predicate RequestsRise(requests: seq<Request>) {
    && (forall k :: 0 <= k < |requests| ==> requests[k].draft.clock == 0 && requests[k].draft.seconds.Some?)
    && (forall j, k :: 0 <= j < k < |requests| ==>
         requests[j].draft.seconds.value < requests[k].draft.seconds.value)
  }

  /** The slot's head is the end of the line, and the line is all that is stored. */
  ghost predicate LineState(s: State, cs: seq<Commit>, slot: string) {
    && Line(s.commits, cs)
    && s.heads == if cs == [] then map[] else map[slot := cs[|cs| - 1].id]
  }

  /** The seconds of the requests go on where those of the line end. */
  predicate GoesOn(cs: seq<Commit>, requests: seq<Request>) {
    forall j, k :: 0 <= j < |cs| && 0 <= k < |requests| && cs[j].body.seconds.Some? ==>
      requests[k].draft.seconds.Some? && cs[j].body.seconds.value < requests[k].draft.seconds.value
  }

  lemma LinkTops(w: World, cfg: Config, s: State, cs: seq<Commit>, r: Request, slot: string)
    requires LineState(s, cs, slot) && GoesOn(cs, [r]) && AllInSlot([r], slot)
    requires r.draft.clock == 0 && r.draft.seconds.Some?
    ensures var c := CommitFor(w, cfg, s, r.draft, r.payload);
            Tops(cs, c) && WellHashed(w.hash, c) && SlotOf(c.body) == slot && c.body.seconds == r.draft.seconds
  {
    assert [r][0] == r;
  }

  /** One more checkpoint lengthens the line. */
  lemma LinkLengthensLine(
      w: World, cfg: Config, s: State, pid: nat, cs: seq<Commit>, r: Request, slot: string)
    requires Injective(w.hash) && Inv(w, s) && s.up && pid !in s.active && LineState(s, cs, slot)
    requires RequestsRise([r]) && GoesOn(cs, [r]) && AllInSlot([r], slot)
    ensures var c := CommitFor(w, cfg, s, r.draft, r.payload);
            LineState(AfterPublish(s, c), cs + [c], slot) && c.body.seconds == r.draft.seconds
  {
    var c := CommitFor(w, cfg, s, r.draft, r.payload);
    assert [r][0] == r;
    LinkTops(w, cfg, s, cs, r, slot);
    assert Line(AfterPublish(s, c).commits, cs + [c]) by {
      RowsOf(w, s);
      TopIsNew(w, s.commits, cs, c);
      LinkStored(w, cfg, s, pid, r);
      LineSnoc(s.commits, cs, c);
    }
    HeadSnoc(s, cs, c, slot);
  }

  lemma HeadSnoc(s: State, cs: seq<Commit>, c: Commit, slot: string)
    requires SlotOf(c.body) == slot
    requires s.heads == if cs == [] then map[] else map[slot := cs[|cs| - 1].id]
    ensures AfterPublish(s, c).heads == map[slot := (cs + [c])[|cs + [c]| - 1].id]
  {
  }

  lemma LinkStored(w: World, cfg: Config, s: State, pid: nat, r: Request)
    requires Injective(w.hash) && Inv(w, s) && s.up && pid !in s.active && r.draft.parents == []
    ensures var later := AfterPublish(s, CommitFor(w, cfg, s, r.draft, r.payload)).commits;
            Keyed(later) && Acyclic(Links(later))
  {
    ChainLink(w, cfg, s, pid, r);
    RowsOf(w, AfterPublish(s, CommitFor(w, cfg, s, r.draft, r.payload)));
  }

  lemma FirstGoesOn(cs: seq<Commit>, c: Commit, requests: seq<Request>, slot: string)
    requires SecondsRise(cs) && RequestsRise(requests) && GoesOn(cs, requests) && requests != []
    requires AllInSlot(requests, slot)
    ensures var first, rest := [requests[0]], requests[1..];
            && RequestsRise(first) && GoesOn(cs, first) && AllInSlot(first, slot)
            && RequestsRise(rest) && AllInSlot(rest, slot)
            && (c.body.seconds == requests[0].draft.seconds ==> GoesOn(cs + [c], rest))
  {
  }

  /** A line that these requests, in one slot, can lengthen. */
  ghost predicate Ready(w: World, s: State, pid: nat, cs: seq<Commit>, requests: seq<Request>, slot: string) {
    && Inv(w, s) && s.up && pid !in s.active && LineState(s, cs, slot)
    && AllInSlot(requests, slot) && RequestsRise(requests) && GoesOn(cs, requests)
  }

  lemma ReadyAgain(
      w: World, cfg: Config, s: State, pid: nat, cs: seq<Commit>, requests: seq<Request>, slot: string)
    requires Injective(w.hash) && Ready(w, s, pid, cs, requests, slot) && requests != []
    ensures var c := CommitFor(w, cfg, s, requests[0].draft, requests[0].payload);
            Ready(w, AfterPublish(s, c), pid, cs + [c], requests[1..], slot)
  {
    var c := CommitFor(w, cfg, s, requests[0].draft, requests[0].payload);
    FirstGoesOn(cs, c, requests, slot);
    assert LineState(AfterPublish(s, c), cs + [c], slot) && GoesOn(cs + [c], requests[1..]) by {
      LinkLengthensLine(w, cfg, s, pid, cs, requests[0], slot);
    }
    assert Inv(w, AfterPublish(s, c)) by {
      InSlotRest(requests, slot);
      ChainLink(w, cfg, s, pid, requests[0]);
    }
  }

  lemma Regroup<T>(a: seq<T>, x: T, b: seq<T>)
    ensures a + ([x] + b) == a + [x] + b && a + [] == a
  {
  }

  lemma {:induction false} ChainLengthensLine(
      w: World, cfg: Config, s: State, pid: nat, cs: seq<Commit>, requests: seq<Request>, slot: string)
    requires Injective(w.hash) && Ready(w, s, pid, cs, requests, slot)
    ensures LineState(AfterChain(w, cfg, s, requests), cs + ChainOf(w, cfg, s, requests), slot)
    decreases |requests|
  {
    if requests == [] {
      assert cs + ChainOf(w, cfg, s, requests) == cs;
    } else {
      var c := CommitFor(w, cfg, s, requests[0].draft, requests[0].payload);
      var t := AfterPublish(s, c);
      var rest := ChainOf(w, cfg, t, requests[1..]);
      ReadyAgain(w, cfg, s, pid, cs, requests, slot);
      ChainLengthensLine(w, cfg, t, pid, cs + [c], requests[1..], slot);
      Regroup(cs, c, rest);
      assert ChainOf(w, cfg, s, requests) == [c] + rest;
      assert AfterChain(w, cfg, s, requests) == AfterChain(w, cfg, t, requests[1..]);
    }
  }

  lemma {:induction false} ChainSize(w: World, cfg: Config, s: State, requests: seq<Request>)
    ensures |ChainOf(w, cfg, s, requests)| == |requests|
    decreases |requests|
  {
    if requests != [] {
      var c := CommitFor(w, cfg, s, requests[0].draft, requests[0].payload);
      ChainSize(w, cfg, AfterPublish(s, c), requests[1..]);
    }
  }

  /** What a crash at the end of a line leaves. */
  lemma LineRestarts(w: World, cfg: Config, s: State, cs: seq<Commit>, slot: string)
    requires Inv(w, s) && s.up && LineState(s, cs, slot)
    ensures var t := Run(w, cfg, s, [Crash]); t.up && t.commits == s.commits && t.heads == s.heads
  {
    assert [Crash] == [Crash] + [];
    RunStep(w, cfg, s, Crash, []);
    LineGrows(s.commits, cs);
    CrashRecovery(w, cfg, s);
  }

  /**
    Any number of checkpoints into one slot, all with clock 0 and each at a later second than the one before:
    the daemon starts again after a crash, and each of them replays as the checkpoints up to it, applied in
    the order they were made.
  */
  lemma CheckpointsStayInOrder(w: World, cfg: Config, pid: nat, requests: seq<Request>, slot: string, k: nat)
    requires Injective(w.hash) && AllInSlot(requests, slot) && RequestsRise(requests) && k < |requests|
    ensures var cs := ChainOf(w, cfg, INIT, requests);
            var t := Run(w, cfg, INIT, ChainSteps(pid, requests) + [Crash]);
            && t.up && |cs| == |requests| && t.heads == map[slot := cs[|cs| - 1].id]
            && Acyclic(Links(t.commits)) && Complete(t.commits, cs[k].id)
            && Replayed(t.commits, cs[k].id).provenance == IdsOf(cs[..k + 1])
            && Replayed(t.commits, cs[k].id).state == MergeAll(EMPTY_STATE, DeltasOf(cs[..k + 1]))
  {
    var cs := ChainOf(w, cfg, INIT, requests);
    var s := AfterChain(w, cfg, INIT, requests);
    ChainFromNothing(w, cfg, pid, requests, slot);
    RunConcat(w, cfg, INIT, ChainSteps(pid, requests), [Crash]);
    LineRestarts(w, cfg, s, cs, slot);
    LineReplays(s.commits, cs, k);
  }

  lemma ChainFromNothing(w: World, cfg: Config, pid: nat, requests: seq<Request>, slot: string)
    requires Injective(w.hash) && AllInSlot(requests, slot) && RequestsRise(requests)
    ensures var s := AfterChain(w, cfg, INIT, requests);
            && Run(w, cfg, INIT, ChainSteps(pid, requests)) == s && Inv(w, s) && s.up
            && |ChainOf(w, cfg, INIT, requests)| == |requests|
            && LineState(s, ChainOf(w, cfg, INIT, requests), slot)
  {
    InitInv(w);
    assert Ready(w, INIT, pid, [], requests, slot);
    ChainLengthensLine(w, cfg, INIT, pid, [], requests, slot);
    ChainSize(w, cfg, INIT, requests);
    assert [] + ChainOf(w, cfg, INIT, requests) == ChainOf(w, cfg, INIT, requests);
    ChainRuns(w, cfg, INIT, pid, requests, slot);
    AfterChainIsLater(w, cfg, INIT, pid, requests, slot);
  }
}
