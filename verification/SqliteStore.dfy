/** The tables the ledger keeps, their listing order, and rebuilding the index (daemon/src/ledger/sqlite_store.rs). */
module SqliteStore {
  import opened Graph
  import opened Seqs
  import opened Commits
  import opened Dag
  import opened Replay
  import Text
  import opened Wrappers

  datatype RunRow = RunRow(lastCommitAt: int, count: nat)

  /** A side effect that a rollback warns about, with the commit that carries it. */
  datatype Warning = Warning(commit: Id, effect: SideEffect)

  /** The warning as it is worded. */
  function Wording(w: Warning): string {
    "Commit " + w.commit + " includes external side effect '" + w.effect.id + "' of kind '" + w.effect.kind
    + "'. Rollback moves captured logical state only."
  }

  datatype Audit =
    | ForkEvent(source: Id, run: string)
    | RollbackEvent(previous: Id, current: Id, warnings: seq<string>)

  /** A row of the commit_parents table. */
  datatype ParentRow = ParentRow(commit: Id, parent: Id)

  datatype DeltaRow = DeltaRow(commit: Id, run: string, agent: string, channel: string, seconds: int)

  datatype CallRow = CallRow(commit: Id, name: string)

  datatype ResultRow = ResultRow(callId: string, commit: Id, failed: bool)

  datatype EffectRow = EffectRow(commit: Id, kind: string, reversible: bool, compensable: bool)

  /** The rows that list what a commit carries: its delta, tool calls, tool results and side effects. */
  datatype Details = Details(
    deltas: map<string, DeltaRow>, calls: map<string, CallRow>, results: seq<ResultRow>,
    effects: map<string, EffectRow>)

  /** The tables' contents; each statement or transaction on them is atomic. */
  datatype Tables = Tables(
    commits: Store, parentRows: set<ParentRow>, details: Details, heads: map<string, Id>, runs: map<string, RunRow>,
    durable: map<string, nat>, events: seq<Audit>, rollbacks: seq<Audit>, artifacts: map<string, Bytes>)

  const NO_DETAILS := Details(map[], map[], [], map[])

  const NO_TABLES := Tables(map[], {}, NO_DETAILS, map[], map[], map[], [], [], map[])

  /** `INSERT OR IGNORE`: the first commit under an id stays. */
  function InsertOrIgnore(commits: Store, c: Commit): Store {
    if c.id in commits then commits else commits[c.id := c]
  }

  /** The rows that a commit's parents take up. */
  function ParentRowsOf(c: Commit): set<ParentRow> {
    set m | m in c.body.parents :: ParentRow(c.id, m)
  }

  function AddDelta(deltas: map<string, DeltaRow>, c: Commit): map<string, DeltaRow> {
    if c.body.deltaId in deltas then deltas
    else deltas[c.body.deltaId := DeltaRow(c.id, c.body.run, c.body.agent, c.body.channel, KeyOf(c).seconds)]
  }

  /** `INSERT OR REPLACE`: the latest row under an id stays. */
  function AddCalls(rows: map<string, CallRow>, id: Id, calls: seq<ToolCall>): map<string, CallRow> {
    if calls == [] then rows
    else
      var last := calls[|calls| - 1];
      AddCalls(rows, id, calls[..|calls| - 1])[last.id := CallRow(id, last.name)]
  }

  function ResultRows(id: Id, results: seq<ToolResult>): (rows: seq<ResultRow>)
    ensures |rows| == |results|
  {
    seq(|results|, i requires 0 <= i < |results| => ResultRow(results[i].callId, id, results[i].error.Some?))
  }

  function AddEffects(rows: map<string, EffectRow>, id: Id, effects: seq<SideEffect>): map<string, EffectRow> {
    if effects == [] then rows
    else
      var last := effects[|effects| - 1];
      AddEffects(rows, id, effects[..|effects| - 1])[
        last.id := EffectRow(id, last.kind, last.reversible, last.compensable)]
  }

  function AddDetails(d: Details, c: Commit): Details {
    Details(AddDelta(d.deltas, c), AddCalls(d.calls, c.id, c.body.toolCalls),
            d.results + ResultRows(c.id, c.body.toolResults), AddEffects(d.effects, c.id, c.body.sideEffects))
  }

  /** The upsert of the runs table. */
  function CountRun(runs: map<string, RunRow>, run: string, seconds: int): map<string, RunRow> {
    runs[run := RunRow(seconds, if run in runs then runs[run].count + 1 else 1)]
  }

  /** The insert and update of the channels table. */
  function CountDurable(durable: map<string, nat>, channel: string): map<string, nat> {
    durable[channel := if channel in durable then durable[channel] + 1 else 1]
  }

  /** `append_commit`, one transaction. */
  function AppendCommit(t: Tables, c: Commit): Tables {
    t.(commits := InsertOrIgnore(t.commits, c),
       parentRows := t.parentRows + ParentRowsOf(c),
       details := AddDetails(t.details, c),
       runs := CountRun(t.runs, c.body.run, KeyOf(c).seconds),
       durable := CountDurable(t.durable, c.body.channel))
  }

  /** The head of a slot, or none. */
  function HeadOf(heads: map<string, Id>, run: string, thread: string, agent: string, channel: string): Option<Id> {
    var key := HeadKey(run, thread, agent, channel);
    if key in heads then Some(heads[key]) else None
  }

  class SqliteStore {
    var commits: Store
    var parentRows: set<ParentRow>
    var deltas: map<string, DeltaRow>
    var calls: map<string, CallRow>
    var results: seq<ResultRow>
    var effects: map<string, EffectRow>
    var heads: map<string, Id>
    var runs: map<string, RunRow>
    var durable: map<string, nat>
    var events: seq<Audit>
    var rollbacks: seq<Audit>
    // what each stored artifact decompresses to
    var artifacts: map<string, Bytes>

    function DetailRows(): Details
      reads this
    {
      Details(deltas, calls, results, effects)
    }

    function Contents(): Tables
      reads this
    {
      Tables(commits, parentRows, DetailRows(), heads, runs, durable, events, rollbacks, artifacts)
    }

    constructor ()
      ensures Contents() == NO_TABLES
    {
      commits, parentRows, heads, runs, durable := map[], {}, map[], map[], map[];
      deltas, calls, results, effects := map[], map[], [], map[];
      events, rollbacks, artifacts := [], [], map[];
    }

    /** The rows that link a commit to its parents. */
    method AppendParents(c: Commit)
      modifies this`parentRows
      ensures parentRows == old(parentRows) + ParentRowsOf(c)
    {
      for i := 0 to |c.body.parents|
        invariant parentRows == old(parentRows) + set m | m in c.body.parents[..i] :: ParentRow(c.id, m)
      {
        parentRows := parentRows + {ParentRow(c.id, c.body.parents[i])};
      }
      assert c.body.parents[..|c.body.parents|] == c.body.parents;
    }

    /** The rows that list what a commit carries. */
    method AppendDetails(c: Commit)
      modifies this`deltas, this`calls, this`results, this`effects
      ensures DetailRows() == AddDetails(old(DetailRows()), c)
    {
      var b := c.body;
      if b.deltaId !in deltas {
        var seconds := if b.seconds.Some? then b.seconds.value else 0;
        deltas := deltas[b.deltaId := DeltaRow(c.id, b.run, b.agent, b.channel, seconds)];
      }
      for i := 0 to |b.toolCalls|
        modifies this`calls
        invariant calls == AddCalls(old(calls), c.id, b.toolCalls[..i])
      {
        assert b.toolCalls[..i + 1][..i] == b.toolCalls[..i];
        calls := calls[b.toolCalls[i].id := CallRow(c.id, b.toolCalls[i].name)];
      }
      for i := 0 to |b.toolResults|
        modifies this`results
        invariant results == old(results) + ResultRows(c.id, b.toolResults[..i])
      {
        var r := b.toolResults[i];
        assert ResultRows(c.id, b.toolResults[..i + 1]) ==
          ResultRows(c.id, b.toolResults[..i]) + [ResultRow(r.callId, c.id, r.error.Some?)];
        results := results + [ResultRow(r.callId, c.id, r.error.Some?)];
      }
      for i := 0 to |b.sideEffects|
        modifies this`effects
        invariant effects == AddEffects(old(effects), c.id, b.sideEffects[..i])
      {
        var e := b.sideEffects[i];
        assert b.sideEffects[..i + 1][..i] == b.sideEffects[..i];
        effects := effects[e.id := EffectRow(c.id, e.kind, e.reversible, e.compensable)];
      }
      assert b.toolCalls[..|b.toolCalls|] == b.toolCalls;
      assert b.toolResults[..|b.toolResults|] == b.toolResults;
      assert b.sideEffects[..|b.sideEffects|] == b.sideEffects;
    }

    /** The counters of the commit's run and channel. */
    method CountAppend(c: Commit)
      modifies this`runs, this`durable
      ensures runs == CountRun(old(runs), c.body.run, KeyOf(c).seconds)
      ensures durable == CountDurable(old(durable), c.body.channel)
    {
      var b := c.body;
      var seconds := if b.seconds.Some? then b.seconds.value else 0;
      var count := if b.run in runs then runs[b.run].count + 1 else 1;
      runs := runs[b.run := RunRow(seconds, count)];
      if b.channel !in durable {
        durable := durable[b.channel := 0];
      }
      durable := durable[b.channel := durable[b.channel] + 1];
    }

    /** `append_commit` */
    method Append(c: Commit)
      modifies this
      ensures Contents() == AppendCommit(old(Contents()), c)
    {
      if c.id !in commits {
        commits := commits[c.id := c];
      }
      AppendParents(c);
      CountAppend(c);
      AppendDetails(c);
    }

    /** `get_commit` */
    method GetCommit(id: Id) returns (c: Option<Commit>)
      ensures c == if id in commits then Some(commits[id]) else None
    {
      c := if id in commits then Some(commits[id]) else None;
    }

    /** `get_head` */
    method GetHead(run: string, thread: string, agent: string, channel: string) returns (head: Option<Id>)
      ensures head == HeadOf(heads, run, thread, agent, channel)
    {
      var key := HeadKey(run, thread, agent, channel);
      head := if key in heads then Some(heads[key]) else None;
    }

    /** `set_head` */
    method SetHead(run: string, thread: string, agent: string, channel: string, id: Id)
      modifies this`heads
      ensures heads == old(heads)[HeadKey(run, thread, agent, channel) := id]
    {
      heads := heads[HeadKey(run, thread, agent, channel) := id];
    }

    /**
      `put_artifact`, under an id made from the digest of the bytes; from `threshold` bytes on they are
      compressed.
    */
    method PutArtifact(digest: string, bytes: Bytes, mediaType: string, threshold: nat) returns (a: ArtifactRef)
      modifies this`artifacts
      ensures a == ArtifactRef("artifact_" + digest, digest, bytes.length, mediaType, bytes.length >= threshold)
      ensures artifacts == old(artifacts)[a.id := bytes]
    {
      a := ArtifactRef("artifact_" + digest, digest, bytes.length, mediaType, !(bytes.length < threshold));
      artifacts := artifacts[a.id := bytes];
    }

    /** `append_event`; a rollback is logged twice. */
    method AppendEvent(e: Audit)
      modifies this`events, this`rollbacks
      ensures events == old(events) + [e]
      ensures rollbacks == old(rollbacks) + if e.RollbackEvent? then [e] else []
    {
      events := events + [e];
      if e.RollbackEvent? {
        rollbacks := rollbacks + [e];
      }
    }
  }

  // ---------------------------------------------------------------- what is read back

  /**
    A head set in one slot is read back there, and every other slot keeps its head, as long as no name
    holds the separator.
  */
  lemma HeadsAreSeparate(heads: map<string, Id>, slot: seq<string>, other: seq<string>, id: Id)
    requires |slot| == 4 && |other| == 4
    ensures var later := heads[HeadKey(slot[0], slot[1], slot[2], slot[3]) := id];
            && HeadOf(later, slot[0], slot[1], slot[2], slot[3]) == Some(id)
            && (other != slot && Text.SepFree(slot, '\U{1f}') && Text.SepFree(other, '\U{1f}') ==>
                 HeadOf(later, other[0], other[1], other[2], other[3]) ==
                   HeadOf(heads, other[0], other[1], other[2], other[3]))
  {
    assert slot == [slot[0], slot[1], slot[2], slot[3]] && other == [other[0], other[1], other[2], other[3]];
    if Text.Join(slot, '\U{1f}') == Text.Join(other, '\U{1f}')
       && Text.SepFree(slot, '\U{1f}') && Text.SepFree(other, '\U{1f}') {
      Text.JoinInjective(slot, other, '\U{1f}');
    }
  }

  function AppendAll(t: Tables, cs: seq<Commit>): Tables {
    if cs == [] then t else AppendCommit(AppendAll(t, cs[..|cs| - 1]), cs[|cs| - 1])
  }

  /**
    After any list of appends the table holds exactly the appended commits, each as it was appended, and
    the parent rows are exactly the links of the stored commits.
  */
  lemma {:induction false} CommitsReadBack(hash: Hash, cs: seq<Commit>, c: Commit, m: Id)
    requires Injective(hash) && forall x :: x in cs ==> WellHashed(hash, x)
    requires WellHashed(hash, c)
    ensures var t := AppendAll(NO_TABLES, cs);
            && (c in cs <==> c.id in t.commits)
            && (c in cs ==> t.commits[c.id] == c)
            && (ParentRow(c.id, m) in t.parentRows <==> c.id in t.commits && m in ParentsOf(Links(t.commits), c.id))
    decreases |cs|
  {
    if cs != [] {
      var front, last := cs[..|cs| - 1], cs[|cs| - 1];
      CommitsReadBack(hash, front, c, m);
      assert c in cs <==> c in front || c == last;
      if c.id == last.id { SameIdSameCommit(hash, c, last); }
    }
  }

  /** The last side effect with this id in a list, and the last tool call. */
  function LastEffect(effects: seq<SideEffect>, id: string): Option<SideEffect> {
    if effects == [] then None
    else if effects[|effects| - 1].id == id then Some(effects[|effects| - 1])
    else LastEffect(effects[..|effects| - 1], id)
  }

  function LastCall(calls: seq<ToolCall>, id: string): Option<ToolCall> {
    if calls == [] then None
    else if calls[|calls| - 1].id == id then Some(calls[|calls| - 1])
    else LastCall(calls[..|calls| - 1], id)
  }

  /** The last of the commits that carries such a side effect or tool call, and the first with such a delta. */
  function LastWithEffect(cs: seq<Commit>, id: string): Option<Commit> {
    if cs == [] then None
    else if LastEffect(cs[|cs| - 1].body.sideEffects, id).Some? then Some(cs[|cs| - 1])
    else LastWithEffect(cs[..|cs| - 1], id)
  }

  function LastWithCall(cs: seq<Commit>, id: string): Option<Commit> {
    if cs == [] then None
    else if LastCall(cs[|cs| - 1].body.toolCalls, id).Some? then Some(cs[|cs| - 1])
    else LastWithCall(cs[..|cs| - 1], id)
  }

  function FirstWithDelta(cs: seq<Commit>, id: string): Option<Commit> {
    if cs == [] then None
    else if FirstWithDelta(cs[..|cs| - 1], id).Some? then FirstWithDelta(cs[..|cs| - 1], id)
    else if cs[|cs| - 1].body.deltaId == id then Some(cs[|cs| - 1])
    else None
  }

  lemma {:induction false} AddedEffects(rows: map<string, EffectRow>, id: Id, effects: seq<SideEffect>, x: string)
    ensures var later := AddEffects(rows, id, effects);
            match LastEffect(effects, x)
            case Some(e) => x in later && later[x] == EffectRow(id, e.kind, e.reversible, e.compensable)
            case None => (x in later <==> x in rows) && (x in rows ==> later[x] == rows[x])
    decreases |effects|
  {
    if effects != [] { AddedEffects(rows, id, effects[..|effects| - 1], x); }
  }

  lemma {:induction false} AddedCalls(rows: map<string, CallRow>, id: Id, calls: seq<ToolCall>, x: string)
    ensures var later := AddCalls(rows, id, calls);
            match LastCall(calls, x)
            case Some(call) => x in later && later[x] == CallRow(id, call.name)
            case None => (x in later <==> x in rows) && (x in rows ==> later[x] == rows[x])
    decreases |calls|
  {
    if calls != [] { AddedCalls(rows, id, calls[..|calls| - 1], x); }
  }

  /** A side effect's row is that of the latest commit that carries it, so an id used twice replaces the older row. */
  lemma {:induction false} EffectRowsFollowAppends(cs: seq<Commit>, effect: string)
    ensures var rows := AppendAll(NO_TABLES, cs).details.effects;
            match LastWithEffect(cs, effect)
            case None => effect !in rows
            case Some(c) =>
              var e := LastEffect(c.body.sideEffects, effect);
              e.Some? && effect in rows
              && rows[effect] == EffectRow(c.id, e.value.kind, e.value.reversible, e.value.compensable)
    decreases |cs|
  {
    if cs != [] {
      var front, last := cs[..|cs| - 1], cs[|cs| - 1];
      EffectRowsFollowAppends(front, effect);
      AddedEffects(AppendAll(NO_TABLES, front).details.effects, last.id, last.body.sideEffects, effect);
    }
  }

  /** The same for a tool call. */
  lemma {:induction false} CallRowsFollowAppends(cs: seq<Commit>, call: string)
    ensures var rows := AppendAll(NO_TABLES, cs).details.calls;
            match LastWithCall(cs, call)
            case None => call !in rows
            case Some(c) =>
              var found := LastCall(c.body.toolCalls, call);
              found.Some? && call in rows && rows[call] == CallRow(c.id, found.value.name)
    decreases |cs|
  {
    if cs != [] {
      var front, last := cs[..|cs| - 1], cs[|cs| - 1];
      CallRowsFollowAppends(front, call);
      AddedCalls(AppendAll(NO_TABLES, front).details.calls, last.id, last.body.toolCalls, call);
    }
  }

  /** A delta's row is that of the first commit with its id. */
  lemma {:induction false} DeltaRowsFollowAppends(cs: seq<Commit>, delta: string)
    ensures var rows := AppendAll(NO_TABLES, cs).details.deltas;
            match FirstWithDelta(cs, delta)
            case None => delta !in rows
            case Some(c) =>
              var b := c.body;
              delta in rows && rows[delta] ==
                DeltaRow(c.id, b.run, b.agent, b.channel, if b.seconds.Some? then b.seconds.value else 0)
    decreases |cs|
  {
    if cs != [] { DeltaRowsFollowAppends(cs[..|cs| - 1], delta); }
  }

  /** Every tool result of every append has its row. */
  lemma {:induction false} ResultRowsFollowAppends(cs: seq<Commit>, row: ResultRow)
    ensures row in AppendAll(NO_TABLES, cs).details.results <==>
      exists c, r :: c in cs && r in c.body.toolResults && row == ResultRow(r.callId, c.id, r.error.Some?)
    decreases |cs|
  {
    if cs != [] {
      var front, last := cs[..|cs| - 1], cs[|cs| - 1];
      ResultRowsFollowAppends(front, row);
      ResultRowsOf(last.id, last.body.toolResults, row);
      assert forall c :: c in cs <==> c in front || c == last;
    }
  }

  lemma ResultRowsOf(id: Id, results: seq<ToolResult>, row: ResultRow)
    ensures row in ResultRows(id, results) <==>
      exists r :: r in results && row == ResultRow(r.callId, id, r.error.Some?)
  {
    var rows := ResultRows(id, results);
    if row in rows {
      var i :| 0 <= i < |rows| && rows[i] == row;
      assert results[i] in results;
    }
    forall r | r in results && row == ResultRow(r.callId, id, r.error.Some?) ensures row in rows {
      var i :| 0 <= i < |results| && results[i] == r;
      assert rows[i] == row;
    }
  }

  // ---------------------------------------------------------------- run counts

  function InRun(cs: seq<Commit>, run: string): seq<Id> {
    if cs == [] then []
    else
      var c := cs[|cs| - 1];
      InRun(cs[..|cs| - 1], run) + if c.body.run == run then [c.id] else []
  }

  /** The stored commits of a run. */
  function StoredInRun(commits: Store, run: string): set<Id> {
    set id | id in commits && commits[id].body.run == run
  }

  lemma StoredInRunAppend(commits: Store, c: Commit, run: string)
    requires c.id in commits ==> commits[c.id] == c
    ensures StoredInRun(InsertOrIgnore(commits, c), run)
         == StoredInRun(commits, run) + if c.body.run == run then {c.id} else {}
  {
  }

  /** A run's count is the number of appends made for it, re-appended ids included. */
  lemma {:induction false} RunCountIsAppends(hash: Hash, cs: seq<Commit>, run: string)
    requires Injective(hash) && forall c :: c in cs ==> WellHashed(hash, c)
    ensures var t := AppendAll(NO_TABLES, cs);
            && (run in t.runs <==> InRun(cs, run) != [])
            && (run in t.runs ==> t.runs[run].count == |InRun(cs, run)|)
            && StoredInRun(t.commits, run) == Elems(InRun(cs, run))
            && (forall id :: id in t.commits ==> t.commits[id].id == id && WellHashed(hash, t.commits[id]))
    decreases |cs|
  {
    if cs != [] {
      var front, c := cs[..|cs| - 1], cs[|cs| - 1];
      RunCountIsAppends(hash, front, run);
      var t := AppendAll(NO_TABLES, front);
      if c.id in t.commits {
        SameIdSameCommit(hash, c, t.commits[c.id]);
      }
      StoredInRunAppend(t.commits, c, run);
      assert Elems(InRun(cs, run)) == Elems(InRun(front, run)) + if c.body.run == run then {c.id} else {};
    }
  }

  /** How many appends went to a channel. */
  function OnChannel(cs: seq<Commit>, channel: string): nat {
    if cs == [] then 0
    else OnChannel(cs[..|cs| - 1], channel) + if cs[|cs| - 1].body.channel == channel then 1 else 0
  }

  /** The wall-clock second of a run's latest append. */
  function LastIn(cs: seq<Commit>, run: string): int {
    if cs == [] then 0
    else if cs[|cs| - 1].body.run == run then KeyOf(cs[|cs| - 1]).seconds
    else LastIn(cs[..|cs| - 1], run)
  }

  /** A channel's durable count is the number of its appends, and a run's time is that of its latest append. */
  lemma {:induction false} CountersFollowAppends(cs: seq<Commit>, run: string, channel: string)
    ensures var t := AppendAll(NO_TABLES, cs);
            && (if channel in t.durable then t.durable[channel] else 0) == OnChannel(cs, channel)
            && (run in t.runs <==> exists c :: c in cs && c.body.run == run)
            && (run in t.runs ==> t.runs[run].lastCommitAt == LastIn(cs, run))
            && t.heads == map[] && t.events == [] && t.artifacts == map[]
    decreases |cs|
  {
    if cs != [] {
      CountersFollowAppends(cs[..|cs| - 1], run, channel);
      assert forall c :: c in cs <==> c == cs[|cs| - 1] || c in cs[..|cs| - 1];
    }
  }

  lemma {:induction false} SmallerWithRepeats<T>(s: seq<T>)
    ensures |Elems(s)| <= |s|
    ensures |Elems(s)| == |s| <==> Distinct(s)
    decreases |s|
  {
    if s != [] {
      var rest := s[1..];
      SmallerWithRepeats(rest);
      assert Elems(s) == {s[0]} + Elems(rest);
      if s[0] in rest {
        assert Elems(s) == Elems(rest);
        var j :| 0 <= j < |rest| && rest[j] == s[0];
        assert s[0] == s[j + 1];
      } else {
        assert |Elems(s)| == |Elems(rest)| + 1;
        assert forall i :: 0 < i < |s| ==> s[i] == rest[i - 1];
        assert Distinct(s) <==> Distinct(rest);
      }
    }
  }

  /** So it is the number of stored commits exactly when no id was appended twice. */
  lemma RunCountExactIffNoReappend(hash: Hash, cs: seq<Commit>, run: string)
    requires Injective(hash) && forall c :: c in cs ==> WellHashed(hash, c)
    requires run in AppendAll(NO_TABLES, cs).runs
    ensures var t := AppendAll(NO_TABLES, cs);
            t.runs[run].count == |StoredInRun(t.commits, run)| <==> Distinct(InRun(cs, run))
  {
    RunCountIsAppends(hash, cs, run);
    SmallerWithRepeats(InRun(cs, run));
  }

  // ---------------------------------------------------------------- the listing order

  /** `logical_clock as i64` */
  function AsI64(n: u64): int {
    if n < TWO_64 / 2 then n else n - TWO_64
  }

  /** `ORDER BY logical_clock ASC, wall_time_seconds ASC, commit_id ASC` */
  predicate RowBelow(a: Commit, b: Commit) {
    var ka, kb := AsI64(a.body.clock), AsI64(b.body.clock);
    var sa, sb := KeyOf(a).seconds, KeyOf(b).seconds;
    ka < kb || (ka == kb && (sa < sb || (sa == sb && Text.Below(a.id, b.id))))
  }

  lemma RowOrder(a: Commit, b: Commit)
    ensures !(RowBelow(a, b) && RowBelow(b, a)) && !RowBelow(a, a)
    ensures a.id != b.id ==> RowBelow(a, b) || RowBelow(b, a)
  {
    Text.BelowTotal(a.id, b.id);
    Text.BelowTotal(a.id, a.id);
  }

  lemma RowTransitive(a: Commit, b: Commit, c: Commit)
    requires RowBelow(a, b) && RowBelow(b, c)
    ensures RowBelow(a, c)
  {
    if Text.Below(a.id, b.id) && Text.Below(b.id, c.id) {
      Text.BelowTransitive(a.id, b.id, c.id);
    }
  }

  /** `cs` is what `list_all_commits` returns: every stored commit once, in row order. */
  ghost predicate Listed(commits: Store, cs: seq<Commit>) {
    && (forall i :: 0 <= i < |cs| ==> cs[i].id in commits && commits[cs[i].id] == cs[i])
    && (forall id :: id in commits ==> commits[id] in cs)
    && (forall i, j :: 0 <= i < j < |cs| ==> RowBelow(cs[i], cs[j]))
  }

  function InsertRow(c: Commit, s: seq<Commit>): seq<Commit> {
    if s == [] then [c]
    else if RowBelow(c, s[0]) then [c] + s
    else [s[0]] + InsertRow(c, s[1..])
  }

  ghost predicate InRowOrder(s: seq<Commit>) {
    forall i, j :: 0 <= i < j < |s| ==> RowBelow(s[i], s[j])
  }

  lemma {:induction false} InsertRowSpec(c: Commit, s: seq<Commit>)
    requires InRowOrder(s) && forall x :: x in s ==> x.id != c.id
    ensures InRowOrder(InsertRow(c, s))
    ensures forall x :: x in InsertRow(c, s) <==> x == c || x in s
    decreases |s|
  {
    if s != [] {
      RowOrder(c, s[0]);
      if RowBelow(c, s[0]) {
        forall j | 0 <= j < |s| ensures RowBelow(c, s[j]) {
          if j > 0 { RowTransitive(c, s[0], s[j]); }
        }
      } else {
        InsertRowSpec(c, s[1..]);
        var r := InsertRow(c, s[1..]);
        forall j | 0 <= j < |r| ensures RowBelow(s[0], r[j]) {
          assert r[j] in r;
        }
        assert s == [s[0]] + s[1..];
      }
    }
  }

  ghost function AnyId(commits: Store): (id: Id)
    requires commits != map[]
    ensures id in commits
  {
    assert commits.Keys != {};
    var id :| id in commits; id
  }

  /** The rows of a table, in order. */
  ghost function Listing(commits: Store): seq<Commit>
    decreases |commits|
  {
    if commits == map[] then []
    else
      var id := AnyId(commits);
      InsertRow(commits[id], Listing(commits - {id}))
  }

  lemma {:induction false} ListingIsListed(commits: Store)
    requires Keyed(commits)
    ensures Listed(commits, Listing(commits))
    decreases |commits|
  {
    if commits != map[] {
      var id := AnyId(commits);
      var rest := commits - {id};
      ListingIsListed(rest);
      InsertRowSpec(commits[id], Listing(rest));
      var cs := Listing(commits);
      forall i | 0 <= i < |cs| ensures cs[i].id in commits && commits[cs[i].id] == cs[i] {
        assert cs[i] in cs;
      }
      forall x | x in commits ensures commits[x] in cs {
        assert x != id ==> x in rest && rest[x] == commits[x];
      }
    }
  }

  // ---------------------------------------------------------------- restart

  /** Every parent of a listed commit is listed earlier. */
  ghost predicate ParentsListedFirst(cs: seq<Commit>) {
    forall i, m :: 0 <= i < |cs| && m in cs[i].body.parents ==> m in IdsOf(cs[..i])
  }

  /** The index that holds exactly the commits of `cs`. */
  function IndexOf(cs: seq<Commit>): Graph {
    if cs == [] then map[] else IndexOf(cs[..|cs| - 1])[cs[|cs| - 1].id := cs[|cs| - 1].body.parents]
  }

  lemma {:induction false} IndexKeys(cs: seq<Commit>, id: Id)
    ensures id in IndexOf(cs) <==> id in IdsOf(cs)
    decreases |cs|
  {
    if cs != [] {
      IndexKeys(cs[..|cs| - 1], id);
      assert IdsOf(cs) == IdsOf(cs[..|cs| - 1]) + [cs[|cs| - 1].id];
    }
  }

  lemma {:induction false} RebuildFrom(cs: seq<Commit>, n: nat)
    requires n <= |cs| && Distinct(IdsOf(cs)) && "" !in IdsOf(cs)
    requires Closed(IndexOf(cs[..n]))
    ensures var r := Rebuild(IndexOf(cs[..n]), cs[n..]);
            && (r.Ok? <==> forall i, m :: n <= i < |cs| && m in cs[i].body.parents ==> m in IdsOf(cs[..i]))
            && (r.Ok? ==> r.value == IndexOf(cs))
    decreases |cs| - n
  {
    if n == |cs| {
      assert cs[..n] == cs;
    } else {
      var g, c := IndexOf(cs[..n]), cs[n];
      assert c.id == IdsOf(cs)[n];
      IndexKeys(cs[..n], c.id);
      assert c.id !in IdsOf(cs[..n]) by {
        assert forall i :: 0 <= i < n ==> IdsOf(cs[..n])[i] == IdsOf(cs)[i];
      }
      NewIdAccepted(g, c.id, c.body.parents);
      forall m | m in c.body.parents ensures m in g <==> m in IdsOf(cs[..n]) {
        IndexKeys(cs[..n], m);
      }
      assert cs[n..][1..] == cs[n + 1..] && cs[..n + 1][..n] == cs[..n];
      if AppendError(g, c.id, c.body.parents).None? {
        RebuildFrom(cs, n + 1);
      }
    }
  }

  /**
    Rebuilding succeeds exactly when the list puts every parent before its children, and then gives the
    listed links.
  */
  lemma RebuildIffParentsFirst(cs: seq<Commit>)
    requires Distinct(IdsOf(cs)) && "" !in IdsOf(cs)
    ensures Rebuild(map[], cs).Ok? <==> ParentsListedFirst(cs)
    ensures Rebuild(map[], cs).Ok? ==> Rebuild(map[], cs).value == IndexOf(cs)
  {
    assert cs[..0] == [] && cs[0..] == cs;
    RebuildFrom(cs, 0);
  }

  /** Every stored link goes to a stored commit whose row comes earlier. */
  predicate RowsGrow(commits: Store) {
    forall c, m :: c in commits && m in commits[c].body.parents ==> m in commits && RowBelow(commits[m], commits[c])
  }

  lemma ListedIds(commits: Store, cs: seq<Commit>)
    requires Keyed(commits) && Listed(commits, cs)
    ensures Distinct(IdsOf(cs)) && forall id :: id in IdsOf(cs) <==> id in commits
  {
    forall i, j | 0 <= i < j < |cs| ensures cs[i].id != cs[j].id {
      RowOrder(cs[i], cs[i]);
    }
    forall id | id in commits ensures id in IdsOf(cs) {
      var i :| 0 <= i < |cs| && cs[i] == commits[id];
      assert IdsOf(cs)[i] == id;
    }
  }

  lemma EarlierIffBelow(commits: Store, cs: seq<Commit>, i: nat, m: Id)
    requires Keyed(commits) && Listed(commits, cs) && i < |cs|
    ensures m in IdsOf(cs[..i]) <==> m in commits && RowBelow(commits[m], cs[i])
  {
    if m in IdsOf(cs[..i]) {
      var j :| 0 <= j < i && IdsOf(cs[..i])[j] == m;
      assert cs[..i][j] == cs[j];
    }
    if m in commits && RowBelow(commits[m], cs[i]) {
      var j :| 0 <= j < |cs| && cs[j] == commits[m];
      RowOrder(cs[j], cs[i]);
      assert j < i;
      assert IdsOf(cs[..i])[j] == m;
    }
  }

  lemma ListedParentsFirst(commits: Store, cs: seq<Commit>)
    requires Keyed(commits) && Listed(commits, cs)
    ensures ParentsListedFirst(cs) <==> RowsGrow(commits)
  {
    if ParentsListedFirst(cs) {
      forall c, m | c in commits && m in commits[c].body.parents
        ensures m in commits && RowBelow(commits[m], commits[c])
      {
        var i :| 0 <= i < |cs| && cs[i] == commits[c];
        EarlierIffBelow(commits, cs, i, m);
      }
    }
    if RowsGrow(commits) {
      forall i, m | 0 <= i < |cs| && m in cs[i].body.parents ensures m in IdsOf(cs[..i]) {
        EarlierIffBelow(commits, cs, i, m);
      }
    }
  }

  lemma {:induction false} IndexOfListed(commits: Store, cs: seq<Commit>, id: Id)
    requires Distinct(IdsOf(cs)) && forall i :: 0 <= i < |cs| ==> cs[i].id in commits && commits[cs[i].id] == cs[i]
    ensures id in IndexOf(cs) ==> id in commits && IndexOf(cs)[id] == commits[id].body.parents
    decreases |cs|
  {
    if cs != [] {
      var front := cs[..|cs| - 1];
      assert forall i :: 0 <= i < |front| ==> IdsOf(front)[i] == IdsOf(cs)[i];
      IndexOfListed(commits, front, id);
    }
  }

  /**
    Restart: the daemon can rebuild its index from the commits table exactly when every
    stored link goes to an earlier row, and the index it rebuilds has the stored links.
  */
  lemma RestartIffRowsGrow(commits: Store, cs: seq<Commit>)
    requires Keyed(commits) && "" !in commits && Listed(commits, cs)
    ensures Rebuild(map[], cs).Ok? <==> RowsGrow(commits)
    ensures Rebuild(map[], cs).Ok? ==> Rebuild(map[], cs).value == Links(commits)
  {
    ListedIds(commits, cs);
    RebuildIffParentsFirst(cs);
    ListedParentsFirst(commits, cs);
    IndexIsLinks(commits, cs);
  }

  lemma IndexIsLinks(commits: Store, cs: seq<Commit>)
    requires Keyed(commits) && Listed(commits, cs)
    ensures IndexOf(cs) == Links(commits)
  {
    ListedIds(commits, cs);
    forall id ensures id in IndexOf(cs) <==> id in commits {
      IndexKeys(cs, id);
    }
    forall id | id in commits ensures IndexOf(cs)[id] == Links(commits)[id] {
      IndexOfListed(commits, cs, id);
    }
  }

  /** Row order and replay order agree on clocks that fit in an i64. */
  lemma RowsGrowClocksGrow(commits: Store, id: Id)
    requires RowsGrow(commits) && Complete(commits, id)
    requires forall c :: c in commits ==> commits[c].body.clock < TWO_64 / 2
    ensures ClocksGrow(commits, id)
  {
  }

  /**
    The listing puts lower signed clocks first, of equal clocks the lower second, a missing wall time
    counting as second 0, and of equal seconds the lower id; a clock from 2^63 on counts as negative.
  */
  lemma ListingAscends(commits: Store, i: nat, j: nat)
    requires Keyed(commits) && i < j < |Listing(commits)|
    ensures var x, y := Listing(commits)[i], Listing(commits)[j];
            var wrap := 0x1_0000_0000_0000_0000;
            var cx := if x.body.clock < 0x8000_0000_0000_0000 then x.body.clock else x.body.clock - wrap;
            var cy := if y.body.clock < 0x8000_0000_0000_0000 then y.body.clock else y.body.clock - wrap;
            var sx := if x.body.seconds.Some? then x.body.seconds.value else 0;
            var sy := if y.body.seconds.Some? then y.body.seconds.value else 0;
            && cx <= cy && (cx == cy ==> sx <= sy)
            && (cx == cy && sx == sy ==> exists n: nat :: n <= |x.id| && n < |y.id| && x.id[..n] == y.id[..n]
                                                          && (n == |x.id| || x.id[n] < y.id[n]))
  {
    ListingIsListed(commits);
    Text.BelowIff(Listing(commits)[i].id, Listing(commits)[j].id);
  }

  lemma RisingTimesRows(commits: Store)
    requires TimesRise(commits) && forall id :: id in commits ==> commits[id].body.clock < 0x8000_0000_0000_0000
    ensures RowsGrow(commits)
  {
    forall c, m | c in commits && m in commits[c].body.parents
      ensures m in commits && RowBelow(commits[m], commits[c])
    {
      assert m in commits;
    }
  }

  /** If times rise along the stored links and clocks fit in an i64, the daemon can be started from the table. */
  lemma RisingTimesRestart(commits: Store)
    requires Keyed(commits) && "" !in commits && TimesRise(commits)
    requires forall id :: id in commits ==> commits[id].body.clock < 0x8000_0000_0000_0000
    ensures RowsGrow(commits) && Rebuild(map[], Listing(commits)) == Ok(Links(commits))
  {
    RisingTimesRows(commits);
    ListingIsListed(commits);
    RestartIffRowsGrow(commits, Listing(commits));
  }

  /** A parent published with clock 1 under a checkpoint, whose clock is always 0, cannot be restarted from. */
  lemma RestartCanFail(parent: Commit, child: Commit, cs: seq<Commit>)
    requires parent.id != child.id && parent.id != "" && child.id != ""
    requires parent.body.clock == 1 && parent.body.parents == []
    requires child.body.clock == 0 && child.body.parents == [parent.id]
    requires Listed(map[parent.id := parent, child.id := child], cs)
    ensures Closed(Links(map[parent.id := parent, child.id := child]))
    ensures Rebuild(map[], cs).Err?
  {
    var commits := map[parent.id := parent, child.id := child];
    RestartIffRowsGrow(commits, cs);
    assert parent.id in commits[child.id].body.parents;
    assert !RowBelow(parent, child);
  }
}
