/**
  The ledger as a system of atomic steps: requests interleave, any request may stop after any
  step, and the daemon may crash anywhere (daemon/src/grpc/service.rs with the ledger modules).

  A request takes one step at a time: read the head, check the index under its read lock, write
  the index under its write lock, append to the commits table, move the head. Events that are
  not enabled change nothing, so every list of events is a run.
*/
module Ledger {
  import opened Graph
  import opened Commits
  import opened Dag
  import opened Replay
  import opened SqliteStore
  import opened Service
  import opened Wrappers

  /** Where a request stands. */
  datatype Phase =
    | Resolving(draft: Body)
    | Checking(commit: Commit)
    | Checked(commit: Commit)
    | Indexed(commit: Commit)
    | Stored(commit: Commit)
    | MovingHead(slot: string, target: Id)

  /**
    `index` lives in memory; `commits` and `heads` are on disk. `origin` remembers which commit
    put each entry into the index, and `acked` which ids have been returned to a client.
  */
  datatype State = State(
    up: bool, index: Graph, origin: Store, commits: Store, heads: map<string, Id>,
    acked: set<Id>, active: map<nat, Phase>)

  datatype Event =
    | Arrive(pid: nat, draft: Body, payload: Option<Payload>)
    | Resolve(pid: nat)
    | Check(pid: nat)
    | WriteIndex(pid: nat)
    | AppendRow(pid: nat)
    | MoveHead(pid: nat)
    | Fork(pid: nat, source: Id, run: string)
    | Rollback(pid: nat, head: Id, target: Id, force: bool)
    | Stop(pid: nat)
    | Crash

  const INIT := State(true, map[], map[], map[], map[], {}, map[])

  function To(s: State, pid: nat, phase: Phase): State {
    s.(active := s.active[pid := phase])
  }

  function Done(s: State, pid: nat): State {
    s.(active := s.active - {pid})
  }

  /** The daemon comes back with an index rebuilt from the commits table, or not at all. */
  ghost function Restarted(s: State): State {
    match Rebuild(map[], Listing(s.commits))
    case Ok(g) => State(true, g, s.commits, s.commits, s.heads, s.acked, map[])
    case Err(_) => State(false, map[], map[], s.commits, s.heads, s.acked, map[])
  }

  /** The index write, under its own lock. */
  function Written(s: State, pid: nat, c: Commit): State {
    To(s, pid, Indexed(c)).(index := s.index[c.id := c.body.parents], origin := s.origin[c.id := c])
  }

  /** The commits-table transaction. */
  function Appended(s: State, pid: nat, c: Commit): State {
    To(s, pid, Stored(c)).(commits := InsertOrIgnore(s.commits, c))
  }

  /** The head move that ends a publish or checkpoint, after which the client has its answer. */
  function Published(s: State, pid: nat, c: Commit): State {
    Done(s, pid).(heads := s.heads[SlotOf(c.body) := c.id], acked := s.acked + {c.id})
  }

  /** The head move that ends a fork or rollback. */
  function HeadMoved(s: State, pid: nat, slot: string, target: Id): State {
    Done(s, pid).(heads := s.heads[slot := target])
  }

  /** The phase a new request starts in: a fork or rollback that is refused does not start. */
  ghost function Started(w: World, cfg: Config, s: State, e: Event): Option<Phase> {
    match e
    case Arrive(_, draft, payload) => Some(Resolving(Filled(w, cfg, draft, payload)))
    case Fork(_, source, run) =>
      if source in s.commits then
        var b := s.commits[source].body;
        Some(MovingHead(HeadKey(run, b.thread, b.agent, b.channel), s.commits[source].id))
      else None
    case Rollback(_, head, target, force) =>
      if (force || target in Anc(s.index, head)) && head in s.commits && target in s.commits then
        Some(MovingHead(SlotOf(s.commits[head].body), s.commits[target].id))
      else None
    case _ => None
  }

  /** The state after one event. */
  ghost function Next(w: World, cfg: Config, s: State, e: Event): State {
    if !s.up then s
    else if e.Crash? then Restarted(s)
    else if e.pid !in s.active then
      if Started(w, cfg, s, e).Some? then To(s, e.pid, Started(w, cfg, s, e).value) else s
    else Advanced(w, s, e.pid, s.active[e.pid], e)
  }

  /** One step of request `pid`, which stands at `p`. */
  ghost function Advanced(w: World, s: State, pid: nat, p: Phase, e: Event): State {
    if e.Resolve? && p.Resolving? then
      To(s, pid, Checking(FromBody(w.hash, p.draft.(parents := ParentsFor(s.heads, p.draft)))))
    else if e.Check? && p.Checking? then
      if AppendError(s.index, p.commit.id, p.commit.body.parents).None? then To(s, pid, Checked(p.commit))
      else Done(s, pid)
    else if e.WriteIndex? && p.Checked? then Written(s, pid, p.commit)
    else if e.AppendRow? && p.Indexed? then Appended(s, pid, p.commit)
    else if e.MoveHead? && p.Stored? then Published(s, pid, p.commit)
    else if e.MoveHead? && p.MovingHead? then HeadMoved(s, pid, p.slot, p.target)
    else if e.Stop? then Done(s, pid)
    else s
  }

  ghost function Run(w: World, cfg: Config, s: State, events: seq<Event>): State
    decreases |events|
  {
    if events == [] then s else Run(w, cfg, Next(w, cfg, s, events[0]), events[1..])
  }

  // ---------------------------------------------------------------- what every step keeps

  ghost predicate Hashed(w: World, store: Store) {
    forall id :: id in store ==> store[id].id == id && WellHashed(w.hash, store[id])
  }

  /** The index holds every stored commit with its parents, has no cycle, and knows every parent. */
  ghost predicate IndexInv(w: World, index: Graph, origin: Store, commits: Store) {
    && Hashed(w, origin) && index == Links(origin)
    && Acyclic(index) && Closed(index)
    && Grew(commits, origin)
  }

  /** Commits carry their own ids and make no cycle; heads and acknowledged ids name stored commits. */
  ghost predicate RowsInv(w: World, commits: Store, heads: map<string, Id>, acked: set<Id>) {
    && Hashed(w, commits) && Acyclic(Links(commits))
    && (forall k :: k in heads ==> heads[k] in commits)
    && acked <= commits.Keys
  }

  ghost predicate PhaseInv(w: World, known: set<Id>, rows: set<Id>, p: Phase) {
    match p
    case Resolving(_) => true
    case Checking(c) => WellHashed(w.hash, c)
    case Checked(c) => WellHashed(w.hash, c) && forall m :: m in c.body.parents ==> m in known
    case Indexed(c) => WellHashed(w.hash, c) && c.id in known
    case Stored(c) => WellHashed(w.hash, c) && c.id in rows
    case MovingHead(_, target) => target in rows
  }

  ghost predicate PhasesInv(w: World, known: set<Id>, rows: set<Id>, active: map<nat, Phase>) {
    forall pid :: pid in active ==> PhaseInv(w, known, rows, active[pid])
  }

  ghost predicate Inv(w: World, s: State) {
    && RowsInv(w, s.commits, s.heads, s.acked)
    && (if s.up then IndexInv(w, s.index, s.origin, s.commits) else s.active == map[])
    && PhasesInv(w, s.index.Keys, s.commits.Keys, s.active)
  }

  lemma PhasesCarryOver(
      w: World, known: set<Id>, rows: set<Id>, active: map<nat, Phase>, known': set<Id>, rows': set<Id>)
    requires PhasesInv(w, known, rows, active) && known <= known' && rows <= rows'
    ensures PhasesInv(w, known', rows', active)
  {
  }

  lemma OnePhaseChanges(w: World, known: set<Id>, rows: set<Id>, active: map<nat, Phase>, pid: nat, p: Phase)
    requires PhasesInv(w, known, rows, active)
    ensures PhaseInv(w, known, rows, p) ==> PhasesInv(w, known, rows, active[pid := p])
    ensures PhasesInv(w, known, rows, active - {pid})
  {
  }

  /** Equal ids mean equal commits, so writing a known id into the index changes nothing. */
  lemma RewriteChangesNothing(w: World, index: Graph, origin: Store, c: Commit)
    requires Injective(w.hash) && Hashed(w, origin) && index == Links(origin) && WellHashed(w.hash, c) && c.id in index
    ensures index[c.id := c.body.parents] == index && origin[c.id := c] == origin
  {
    SameIdSameCommit(w.hash, c, origin[c.id]);
  }

  lemma NewEntryLinks(origin: Store, c: Commit)
    ensures Links(origin[c.id := c]) == Links(origin)[c.id := c.body.parents]
  {
  }

  lemma WriteKeepsAcyclic(index: Graph, c: Commit)
    requires Acyclic(index) && Closed(index) && c.id !in index && forall m :: m in c.body.parents ==> m in index
    ensures Acyclic(index[c.id := c.body.parents])
  {
    forall m | m in c.body.parents ensures !Reach(index, m, c.id) {
      UnknownIsUnreachable(index, m, c.id);
    }
    InsertKeepsAcyclic(index, c.id, c.body.parents);
  }

  lemma WriteKeepsOrigin(w: World, origin: Store, commits: Store, c: Commit)
    requires Hashed(w, origin) && Grew(commits, origin) && WellHashed(w.hash, c) && c.id !in origin
    ensures Hashed(w, origin[c.id := c]) && Grew(commits, origin[c.id := c])
  {
  }

  /** The write keeps the index even though the check was made under another lock. */
  lemma WriteKeepsIndex(w: World, index: Graph, origin: Store, commits: Store, c: Commit)
    requires Injective(w.hash) && IndexInv(w, index, origin, commits) && WellHashed(w.hash, c)
    requires forall m :: m in c.body.parents ==> m in index
    ensures IndexInv(w, index[c.id := c.body.parents], origin[c.id := c], commits)
  {
    NewEntryLinks(origin, c);
    if c.id in index {
      RewriteChangesNothing(w, index, origin, c);
    } else {
      WriteKeepsAcyclic(index, c);
      WriteKeepsOrigin(w, origin, commits, c);
    }
  }

  lemma LinksOfPart(part: Store, whole: Store)
    requires Grew(part, whole)
    ensures SubGraph(Links(part), Links(whole))
  {
  }

  lemma AppendKeepsRows(w: World, index: Graph, origin: Store, commits: Store, c: Commit)
    requires Injective(w.hash) && IndexInv(w, index, origin, commits) && Hashed(w, commits)
    requires WellHashed(w.hash, c) && c.id in origin
    ensures var later := InsertOrIgnore(commits, c);
            Hashed(w, later) && Grew(commits, later) && Grew(later, origin) && Acyclic(Links(later))
  {
    SameIdSameCommit(w.hash, c, origin[c.id]);
    LinksOfPart(InsertOrIgnore(commits, c), origin);
    AcyclicSub(Links(InsertOrIgnore(commits, c)), index);
  }

  /** After a crash the daemon is up again exactly when every stored link goes to an earlier row. */
  lemma RestartIff(w: World, s: State)
    requires Hashed(w, s.commits)
    ensures Restarted(s).up <==> RowsGrow(s.commits)
    ensures Restarted(s).up ==> Restarted(s).index == Links(s.commits)
  {
    ListingIsListed(s.commits);
    RestartIffRowsGrow(s.commits, Listing(s.commits));
  }

  lemma RestartKeepsInv(w: World, s: State)
    requires RowsInv(w, s.commits, s.heads, s.acked)
    ensures Inv(w, Restarted(s))
  {
    RestartIff(w, s);
  }

  lemma PhaseStep(w: World, s: State, pid: nat, p: Phase)
    requires Inv(w, s) && s.up
    ensures PhaseInv(w, s.index.Keys, s.commits.Keys, p) ==> Inv(w, To(s, pid, p))
    ensures Inv(w, Done(s, pid))
  {
    OnePhaseChanges(w, s.index.Keys, s.commits.Keys, s.active, pid, p);
  }

  lemma CheckAccepts(w: World, s: State, c: Commit)
    requires WellHashed(w.hash, c) && AppendError(s.index, c.id, c.body.parents).None?
    ensures PhaseInv(w, s.index.Keys, s.commits.Keys, Checked(c))
  {
    ParentsAccepted(s.index, c.id, c.body.parents);
  }

  lemma WriteStep(w: World, s: State, pid: nat, c: Commit)
    requires Injective(w.hash) && Inv(w, s) && s.up && PhaseInv(w, s.index.Keys, s.commits.Keys, Checked(c))
    ensures Inv(w, Written(s, pid, c))
  {
    var index := s.index[c.id := c.body.parents];
    assert IndexInv(w, index, s.origin[c.id := c], s.commits) by {
      WriteKeepsIndex(w, s.index, s.origin, s.commits, c);
    }
    assert PhasesInv(w, index.Keys, s.commits.Keys, s.active[pid := Indexed(c)]) by {
      PhasesCarryOver(w, s.index.Keys, s.commits.Keys, s.active, index.Keys, s.commits.Keys);
      OnePhaseChanges(w, index.Keys, s.commits.Keys, s.active, pid, Indexed(c));
    }
  }

  lemma AppendStep(w: World, s: State, pid: nat, c: Commit)
    requires Injective(w.hash) && Inv(w, s) && s.up && PhaseInv(w, s.index.Keys, s.commits.Keys, Indexed(c))
    ensures Inv(w, Appended(s, pid, c))
  {
    var later := InsertOrIgnore(s.commits, c);
    assert RowsInv(w, later, s.heads, s.acked) && IndexInv(w, s.index, s.origin, later) by {
      AppendKeepsRows(w, s.index, s.origin, s.commits, c);
    }
    assert PhasesInv(w, s.index.Keys, later.Keys, s.active[pid := Stored(c)]) by {
      PhasesCarryOver(w, s.index.Keys, s.commits.Keys, s.active, s.index.Keys, later.Keys);
      OnePhaseChanges(w, s.index.Keys, later.Keys, s.active, pid, Stored(c));
    }
  }

  lemma HeadStep(w: World, s: State, pid: nat, slot: string, id: Id, acks: set<Id>)
    requires Inv(w, s) && s.up && id in s.commits && acks <= s.commits.Keys
    ensures Inv(w, Done(s, pid).(heads := s.heads[slot := id], acked := s.acked + acks))
  {
    OnePhaseChanges(w, s.index.Keys, s.commits.Keys, s.active, pid, MovingHead(slot, id));
  }

  /** Every step, by whichever request, keeps the invariant. */
  lemma StepKeepsInv(w: World, cfg: Config, s: State, e: Event)
    requires Injective(w.hash) && Inv(w, s)
    ensures Inv(w, Next(w, cfg, s, e))
  {
    if s.up {
      if e.Crash? {
        RestartKeepsInv(w, s);
      } else if e.pid in s.active {
        AdvanceKeepsInv(w, s, e.pid, s.active[e.pid], e);
      } else if Started(w, cfg, s, e).Some? {
        PhaseStep(w, s, e.pid, Started(w, cfg, s, e).value);
      }
    }
  }

  lemma AdvanceKeepsInv(w: World, s: State, pid: nat, p: Phase, e: Event)
    requires Injective(w.hash) && Inv(w, s) && s.up && PhaseInv(w, s.index.Keys, s.commits.Keys, p)
    ensures Inv(w, Advanced(w, s, pid, p, e))
  {
    if e.Resolve? && p.Resolving? {
      PhaseStep(w, s, pid, Checking(FromBody(w.hash, p.draft.(parents := ParentsFor(s.heads, p.draft)))));
    } else if e.Check? && p.Checking? {
      PhaseStep(w, s, pid, Checked(p.commit));
      if AppendError(s.index, p.commit.id, p.commit.body.parents).None? { CheckAccepts(w, s, p.commit); }
    } else if e.WriteIndex? && p.Checked? {
      WriteStep(w, s, pid, p.commit);
    } else if e.AppendRow? && p.Indexed? {
      AppendStep(w, s, pid, p.commit);
    } else if e.MoveHead? && p.Stored? {
      HeadStep(w, s, pid, SlotOf(p.commit.body), p.commit.id, {p.commit.id});
    } else if e.MoveHead? && p.MovingHead? {
      HeadStep(w, s, pid, p.slot, p.target, {});
    } else {
      PhaseStep(w, s, pid, p);
    }
  }

  lemma AdvanceOnlyAdds(w: World, s: State, pid: nat, p: Phase, e: Event)
    ensures Grew(s.commits, Advanced(w, s, pid, p, e).commits) && s.acked <= Advanced(w, s, pid, p, e).acked
  {
  }

  lemma StepOnlyAdds(w: World, cfg: Config, s: State, e: Event)
    ensures Grew(s.commits, Next(w, cfg, s, e).commits) && s.acked <= Next(w, cfg, s, e).acked
  {
    if s.up && !e.Crash? && e.pid in s.active {
      AdvanceOnlyAdds(w, s, e.pid, s.active[e.pid], e);
    }
  }

  lemma {:induction false} RunKeepsInv(w: World, cfg: Config, s: State, events: seq<Event>)
    requires Injective(w.hash) && Inv(w, s)
    ensures Inv(w, Run(w, cfg, s, events))
    decreases |events|
  {
    if events != [] {
      StepKeepsInv(w, cfg, s, events[0]);
      RunKeepsInv(w, cfg, Next(w, cfg, s, events[0]), events[1..]);
    }
  }

  lemma {:induction false} RunOnlyAdds(w: World, cfg: Config, s: State, events: seq<Event>)
    ensures Grew(s.commits, Run(w, cfg, s, events).commits) && s.acked <= Run(w, cfg, s, events).acked
    decreases |events|
  {
    if events != [] {
      StepOnlyAdds(w, cfg, s, events[0]);
      RunOnlyAdds(w, cfg, Next(w, cfg, s, events[0]), events[1..]);
    }
  }
}
