/** Forking a run and rolling a head back (daemon/src/ledger/fork.rs, rollback.rs). */
module HeadMoves {
  import opened Graph
  import opened Seqs
  import opened Commits
  import opened Dag
  import opened Replay
  import opened SqliteStore
  import opened Wrappers

  // ---------------------------------------------------------------- fork

  datatype ForkError = SourceNotFound

  datatype ForkResult = ForkResult(source: Id, run: string, head: Id)

  /** `fork`: a head for the same thread, agent and channel in another run; `newId` is the generated run id. */
  method Fork(store: SqliteStore, source: Id, newRun: string, newId: string) returns (r: Result<ForkResult, ForkError>)
    modifies store
    ensures source !in old(store.commits) ==> r == Err(SourceNotFound) && store.Contents() == old(store.Contents())
    ensures source in old(store.commits) ==>
      var b := old(store.commits)[source].body;
      var run := if newRun == "" then newId else newRun;
      r == Ok(ForkResult(source, run, source)) &&
      store.Contents() == old(store.Contents()).(
        heads := old(store.heads)[HeadKey(run, b.thread, b.agent, b.channel) := old(store.commits)[source].id],
        events := old(store.events) + [ForkEvent(old(store.commits)[source].id, run)])
  {
    var found := store.GetCommit(source);
    if found.None? {
      return Err(SourceNotFound);
    }
    var c := found.value;
    var run := if newRun == "" then newId else newRun;
    store.SetHead(run, c.body.thread, c.body.agent, c.body.channel, c.id);
    store.AppendEvent(ForkEvent(c.id, run));
    r := Ok(ForkResult(source, run, source));
  }

  // ---------------------------------------------------------------- rollback

  datatype RollbackRequest = RollbackRequest(head: Id, target: Id, force: bool)

  datatype RollbackError = NotAnAncestor | HeadNotFound | TargetNotFound

  datatype RollbackResponse = RollbackResponse(previous: Id, current: Id, warnings: seq<string>)

  function Wordings(ws: seq<Warning>): (lines: seq<string>)
    ensures |lines| == |ws|
  {
    seq(|ws|, i requires 0 <= i < |ws| => Wording(ws[i]))
  }

  /** The part of a list before `x`, or all of it. */
  function Until(s: seq<Id>, x: Id): seq<Id> {
    if s == [] || s[0] == x then [] else [s[0]] + Until(s[1..], x)
  }

  function EffectsOf(c: Commit): (ws: seq<Warning>)
    ensures |ws| == |c.body.sideEffects|
    ensures forall i :: 0 <= i < |ws| ==> ws[i] == Warning(c.id, c.body.sideEffects[i])
  {
    seq(|c.body.sideEffects|, i requires 0 <= i < |c.body.sideEffects| => Warning(c.id, c.body.sideEffects[i]))
  }

  /** The side effects of the stored commits among `ids`. */
  function WarningsFor(commits: Store, ids: seq<Id>): seq<Warning> {
    if ids == [] then []
    else (if ids[0] in commits then EffectsOf(commits[ids[0]]) else []) + WarningsFor(commits, ids[1..])
  }

  ghost function RollbackRefusal(t: Tables, g: Graph, q: RollbackRequest): Option<RollbackError> {
    if !q.force && q.target !in Anc(g, q.head) then Some(NotAnAncestor)
    else if q.head !in t.commits then Some(HeadNotFound)
    else if q.target !in t.commits then Some(TargetNotFound)
    else None
  }

  /** `rollback`: only the named head commit's slot moves, and only when nothing refuses. */
  method Rollback(store: SqliteStore, dag: DagIndex, q: RollbackRequest)
    returns (r: Result<RollbackResponse, RollbackError>)
    requires dag.Valid()
    modifies store
    ensures match RollbackRefusal(old(store.Contents()), dag.parents, q)
      case Some(e) => r == Err(e) && store.Contents() == old(store.Contents())
      case None =>
        var warnings := Wordings(WarningsFor(old(store.commits), Until(Ancestry(dag.parents, q.head), q.target)));
        var head, target := old(store.commits)[q.head], old(store.commits)[q.target];
        && r == Ok(RollbackResponse(q.head, q.target, warnings))
        && store.Contents() == old(store.Contents()).(
             heads := old(store.heads)[SlotOf(head.body) := target.id],
             events := old(store.events) + [RollbackEvent(head.id, target.id, warnings)],
             rollbacks := old(store.rollbacks) + [RollbackEvent(head.id, target.id, warnings)])
  {
    if !q.force {
      var ancestor := dag.IsAncestor(q.target, q.head);
      if !ancestor {
        return Err(NotAnAncestor);
      }
    }
    var head := store.GetCommit(q.head);
    if head.None? {
      return Err(HeadNotFound);
    }
    var target := store.GetCommit(q.target);
    if target.None? {
      return Err(TargetNotFound);
    }
    var ids := dag.AncestryOf(q.head);
    var found := ScanForEffects(store, ids, q.target);
    var warnings := Wordings(found);
    var b := head.value.body;
    store.SetHead(b.run, b.thread, b.agent, b.channel, target.value.id);
    store.AppendEvent(RollbackEvent(head.value.id, target.value.id, warnings));
    r := Ok(RollbackResponse(q.head, q.target, warnings));
  }

  /** What the warning loop still has to find from position `i` on. */
  function ScanFrom(commits: Store, ids: seq<Id>, i: nat, target: Id): seq<Warning>
    requires i <= |ids|
  {
    WarningsFor(commits, Until(ids[i..], target))
  }

  lemma ScanStep(commits: Store, ids: seq<Id>, i: nat, target: Id)
    requires i < |ids|
    ensures ids[i] == target ==> ScanFrom(commits, ids, i, target) == []
    ensures ids[i] != target ==>
      ScanFrom(commits, ids, i, target) ==
        (if ids[i] in commits then EffectsOf(commits[ids[i]]) else []) + ScanFrom(commits, ids, i + 1, target)
  {
    assert ids[i..][1..] == ids[i + 1..];
    assert ids[i] != target ==> Until(ids[i..], target)[1..] == Until(ids[i + 1..], target);
  }

  /** The warning loop, which stops at the target. */
  method ScanForEffects(store: SqliteStore, ids: seq<Id>, target: Id) returns (warnings: seq<Warning>)
    ensures warnings == WarningsFor(store.commits, Until(ids, target))
  {
    warnings := [];
    assert ids[0..] == ids;
    for i := 0 to |ids|
      invariant ScanFrom(store.commits, ids, 0, target) == warnings + ScanFrom(store.commits, ids, i, target)
    {
      ScanStep(store.commits, ids, i, target);
      if ids[i] == target {
        break;
      }
      var c := store.GetCommit(ids[i]);
      if c.Some? {
        warnings := warnings + EffectsOf(c.value);
      }
    }
  }

  // ---------------------------------------------------------------- what the warnings cover

  /** The warnings are exactly the side effects of the scanned commits that are stored. */
  lemma {:induction false} WarningsAreEffects(commits: Store, ids: seq<Id>, warning: Warning)
    requires Keyed(commits)
    ensures warning in WarningsFor(commits, ids)
       <==> warning.commit in ids && warning.commit in commits
            && warning.effect in commits[warning.commit].body.sideEffects
    decreases |ids|
  {
    if ids != [] {
      WarningsAreEffects(commits, ids[1..], warning);
      assert warning.commit in ids <==> warning.commit == ids[0] || warning.commit in ids[1..];
      if ids[0] in commits {
        var c := commits[ids[0]];
        if warning.commit == c.id && warning.effect in c.body.sideEffects {
          var i :| 0 <= i < |c.body.sideEffects| && c.body.sideEffects[i] == warning.effect;
          assert EffectsOf(c)[i] == warning;
        }
      }
    }
  }

  /** Warnings come in the order of the scan, and per commit in the order of its side effects. */
  lemma {:induction false} WarningsInOrder(commits: Store, a: seq<Id>, b: seq<Id>)
    ensures WarningsFor(commits, a + b) == WarningsFor(commits, a) + WarningsFor(commits, b)
    decreases |a|
  {
    if a == [] {
      assert a + b == b;
    } else {
      assert (a + b)[1..] == a[1..] + b;
      WarningsInOrder(commits, a[1..], b);
    }
  }

  lemma WarningsOfOne(commits: Store, id: Id, i: nat)
    requires id in commits && i < |commits[id].body.sideEffects|
    ensures |WarningsFor(commits, [id])| == |commits[id].body.sideEffects|
    ensures var e := commits[id].body.sideEffects[i];
            Wordings(WarningsFor(commits, [id]))[i] ==
              "Commit " + commits[id].id + " includes external side effect '" + e.id + "' of kind '" + e.kind
              + "'. Rollback moves captured logical state only."
  {
    assert WarningsFor(commits, [id]) == EffectsOf(commits[id]) + WarningsFor(commits, [id][1..]);
    assert WarningsFor(commits, [id]) == EffectsOf(commits[id]);
  }

  lemma {:induction false} UntilSpec(s: seq<Id>, x: Id)
    ensures Until(s, x) <= s && x !in Until(s, x)
    ensures x !in s ==> Until(s, x) == s
    ensures x in s ==> |Until(s, x)| < |s| && s[|Until(s, x)|] == x
    decreases |s|
  {
    if s != [] && s[0] != x {
      UntilSpec(s[1..], x);
      assert s == [s[0]] + s[1..];
    }
  }

  /** An unforced scan sees every proper ancestor of the target and no descendant of it. */
  lemma ScanSeesTargetsPast(g: Graph, head: Id, target: Id)
    requires Acyclic(g) && target in Anc(g, head)
    ensures var seen := Elems(Until(Ancestry(g, head), target));
            && Anc(g, target) - {target} <= seen
            && forall x :: x in seen ==> target !in Anc(g, x)
  {
    var s := Ancestry(g, head);
    AncestrySpec(g, head);
    UntilSpec(s, target);
    var n := |Until(s, target)|;
    assert target in Elems(s) && s[n] == target && Until(s, target) == s[..n];
    forall x | x in Anc(g, target) - {target} ensures x in Elems(s[..n]) {
      ListedAncestry(g, s, n, x);
      assert s[..n + 1] == s[..n] + [target];
    }
    forall x | x in Elems(s[..n]) ensures target !in Anc(g, x) {
      var i :| 0 <= i < n && s[i] == x;
      assert target !in s[..i + 1] by { assert s[..i + 1] <= s[..n]; }
      if target in Anc(g, x) {
        ListedAncestry(g, s, i, target);
      }
    }
  }

  /** The commits that a rollback leaves behind: the head's ancestry without the target's. */
  ghost function RolledBack(g: Graph, head: Id, target: Id): set<Id> {
    Anc(g, head) - Anc(g, target)
  }

  /** The scan covers the rolled-back range exactly when that range is empty or the target is not in the head's past. */
  lemma ScanCoversRangeIff(g: Graph, head: Id, target: Id)
    requires Acyclic(g)
    ensures RolledBack(g, head, target) <= Elems(Until(Ancestry(g, head), target))
       <==> head == target || target !in Anc(g, head)
  {
    var s := Ancestry(g, head);
    AncestrySpec(g, head);
    UntilSpec(s, target);
    if target in Anc(g, head) {
      if head != target {
        ScanSeesTargetsPast(g, head, target);
        AncUnfold(g, head, head);
        if head in Anc(g, target) { AncAntisymmetric(g, head, target); }
        assert head in RolledBack(g, head, target);
      }
    } else {
      assert target !in s by { assert target in s ==> target in Elems(s); }
    }
  }

  /** So with an unforced rollback to a proper ancestor, the head's own side effects are never warned about. */
  lemma HeadIsNeverScanned(g: Graph, head: Id, target: Id)
    requires Acyclic(g) && target in Anc(g, head)
    ensures head !in Until(Ancestry(g, head), target)
  {
    ScanSeesTargetsPast(g, head, target);
    assert head !in Elems(Until(Ancestry(g, head), target));
  }
}
