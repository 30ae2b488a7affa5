/** What holds over every run of the ledger. */
module LedgerRuns {
  import opened Graph
  import opened Commits
  import opened Dag
  import opened Replay
  import opened SqliteStore
  import opened Service
  import opened Ledger
  import opened DeepMerge
  import HeadMoves
  import Redaction
  import opened Wrappers

  // ---------------------------------------------------------------- safety

  /**
    In every interleaving, with stops and crashes anywhere: every head and every acknowledged id
    names a stored commit, the stored links make no cycle, and while the daemon is up the index
    holds every stored commit with the same parents, has no cycle and knows every parent.
  */
  lemma RunsAreSafe(w: World, cfg: Config, events: seq<Event>)
    requires Injective(w.hash)
    ensures var s := Run(w, cfg, INIT, events);
            && (forall k :: k in s.heads ==> s.heads[k] in s.commits)
            && s.acked <= s.commits.Keys
            && Keyed(s.commits) && Acyclic(Links(s.commits))
            && (s.up ==> forall id :: id in s.commits ==> id in s.index && s.index[id] == s.commits[id].body.parents)
            && (s.up ==> Acyclic(s.index) && Closed(s.index))
  {
    InitInv(w);
    RunKeepsInv(w, cfg, INIT, events);
  }

  lemma InitInv(w: World)
    ensures Inv(w, INIT)
  {
  }

  /** What a commit replays to never changes, whatever happens to the ledger afterwards. */
  lemma ReplayStableOverRuns(w: World, cfg: Config, s: State, events: seq<Event>, id: Id)
    requires Injective(w.hash) && Inv(w, s) && Complete(s.commits, id)
    ensures var later := Run(w, cfg, s, events).commits;
            && Acyclic(Links(later)) && Complete(later, id)
            && Replayed(later, id) == Replayed(s.commits, id)
  {
    RunKeepsInv(w, cfg, s, events);
    RunOnlyAdds(w, cfg, s, events);
    ReplayStable(s.commits, Run(w, cfg, s, events).commits, id);
  }

  // ---------------------------------------------------------------- when every stored commit replays

  /** Explicit parents are only ids that some earlier request was answered with. */
  ghost predicate ParentsAcked(w: World, cfg: Config, s: State, events: seq<Event>)
    decreases |events|
  {
    events == [] ||
    ((events[0].Arrive? ==> forall m :: m in events[0].draft.parents ==> m in s.acked)
     && ParentsAcked(w, cfg, Next(w, cfg, s, events[0]), events[1..]))
  }

  ghost predicate PhaseStoredParents(rows: set<Id>, p: Phase) {
    match p
    case Resolving(draft) => forall m :: m in draft.parents ==> m in rows
    case Checking(c) => forall m :: m in c.body.parents ==> m in rows
    case Checked(c) => forall m :: m in c.body.parents ==> m in rows
    case Indexed(c) => forall m :: m in c.body.parents ==> m in rows
    case _ => true
  }

  ghost predicate PhasesStoredParents(rows: set<Id>, active: map<nat, Phase>) {
    forall pid :: pid in active ==> PhaseStoredParents(rows, active[pid])
  }

  /** Every link, stored or about to be, goes to a stored commit. */
  ghost predicate StoredParents(s: State) {
    Closed(Links(s.commits)) && PhasesStoredParents(s.commits.Keys, s.active)
  }

  lemma OnePhaseStoredParents(rows: set<Id>, active: map<nat, Phase>, pid: nat, p: Phase)
    requires PhasesStoredParents(rows, active)
    ensures PhaseStoredParents(rows, p) ==> PhasesStoredParents(rows, active[pid := p])
    ensures PhasesStoredParents(rows, active - {pid})
  {
  }

  lemma InsertKeepsClosed(commits: Store, c: Commit)
    requires Closed(Links(commits)) && forall m :: m in c.body.parents ==> m in commits
    ensures Closed(Links(InsertOrIgnore(commits, c)))
  {
    if c.id !in commits {
      NewEntryLinks(commits, c);
    }
  }

  lemma MoreRowsStoredParents(rows: set<Id>, rows': set<Id>, active: map<nat, Phase>)
    requires PhasesStoredParents(rows, active) && rows <= rows'
    ensures PhasesStoredParents(rows', active)
  {
    forall pid | pid in active ensures PhaseStoredParents(rows', active[pid]) {
      assert PhaseStoredParents(rows, active[pid]);
    }
  }

  lemma ToKeepsStoredParents(s: State, pid: nat, p: Phase)
    requires StoredParents(s) && PhaseStoredParents(s.commits.Keys, p)
    ensures StoredParents(To(s, pid, p))
  {
    OnePhaseStoredParents(s.commits.Keys, s.active, pid, p);
  }

  lemma DoneKeepsStoredParents(s: State, pid: nat, heads: map<string, Id>, acked: set<Id>)
    requires StoredParents(s)
    ensures StoredParents(Done(s, pid).(heads := heads, acked := acked))
  {
    OnePhaseStoredParents(s.commits.Keys, s.active, pid, MovingHead("", ""));
  }

  lemma WrittenKeepsStoredParents(s: State, pid: nat, c: Commit)
    requires StoredParents(s) && PhaseStoredParents(s.commits.Keys, Indexed(c))
    ensures StoredParents(Written(s, pid, c))
  {
    ToKeepsStoredParents(s, pid, Indexed(c));
  }

  lemma AppendedKeepsStoredParents(s: State, pid: nat, c: Commit)
    requires StoredParents(s) && PhaseStoredParents(s.commits.Keys, Indexed(c))
    ensures StoredParents(Appended(s, pid, c))
  {
    var later := InsertOrIgnore(s.commits, c);
    InsertKeepsClosed(s.commits, c);
    MoreRowsStoredParents(s.commits.Keys, later.Keys, s.active);
    OnePhaseStoredParents(later.Keys, s.active, pid, Stored(c));
  }

  lemma StepKeepsStoredParents(w: World, cfg: Config, s: State, e: Event)
    requires Inv(w, s) && StoredParents(s)
    requires e.Arrive? ==> forall m :: m in e.draft.parents ==> m in s.acked
    ensures StoredParents(Next(w, cfg, s, e))
  {
    if s.up && !e.Crash? {
      if e.pid in s.active {
        AdvanceKeepsStoredParents(w, s, e.pid, s.active[e.pid], e);
      } else if Started(w, cfg, s, e).Some? {
        ToKeepsStoredParents(s, e.pid, Started(w, cfg, s, e).value);
      }
    }
  }

  lemma AdvanceKeepsStoredParents(w: World, s: State, pid: nat, p: Phase, e: Event)
    requires Inv(w, s) && StoredParents(s) && PhaseStoredParents(s.commits.Keys, p)
    ensures StoredParents(Advanced(w, s, pid, p, e))
  {
    if e.Resolve? && p.Resolving? {
      ToKeepsStoredParents(s, pid, Checking(FromBody(w.hash, p.draft.(parents := ParentsFor(s.heads, p.draft)))));
    } else if e.Check? && p.Checking? {
      ToKeepsStoredParents(s, pid, Checked(p.commit));
      DoneKeepsStoredParents(s, pid, s.heads, s.acked);
    } else if e.WriteIndex? && p.Checked? {
      WrittenKeepsStoredParents(s, pid, p.commit);
    } else if e.AppendRow? && p.Indexed? {
      AppendedKeepsStoredParents(s, pid, p.commit);
    } else {
      var next := Advanced(w, s, pid, p, e);
      DoneKeepsStoredParents(s, pid, next.heads, next.acked);
    }
  }

  lemma {:induction false} RunKeepsStoredParents(w: World, cfg: Config, s: State, events: seq<Event>)
    requires Injective(w.hash) && Inv(w, s) && StoredParents(s) && ParentsAcked(w, cfg, s, events)
    ensures StoredParents(Run(w, cfg, s, events))
    decreases |events|
  {
    if events != [] {
      StepKeepsInv(w, cfg, s, events[0]);
      StepKeepsStoredParents(w, cfg, s, events[0]);
      RunKeepsStoredParents(w, cfg, Next(w, cfg, s, events[0]), events[1..]);
    }
  }

  /** When clients only name acknowledged parents, every stored commit has its whole ancestry stored, so it replays. */
  lemma AckedParentsReplay(w: World, cfg: Config, events: seq<Event>, id: Id)
    requires Injective(w.hash) && ParentsAcked(w, cfg, INIT, events)
    requires id in Run(w, cfg, INIT, events).commits
    ensures Complete(Run(w, cfg, INIT, events).commits, id)
  {
    InitInv(w);
    RunKeepsStoredParents(w, cfg, INIT, events);
    ClosedIsComplete(Run(w, cfg, INIT, events).commits, id);
  }

  lemma ClosedIsComplete(commits: Store, id: Id)
    requires Closed(Links(commits)) && id in commits
    ensures Complete(commits, id)
  {
    forall x | x in Anc(Links(commits), id) ensures x in commits {
      AncIsReach(Links(commits), id, x);
      ReachStays(Links(commits), Links(commits).Keys, id, x);
    }
  }

  /** In general a stored commit replays exactly when everything the index lists above it is stored. */
  lemma ReplaysIffIndexAncestryStored(w: World, s: State, id: Id)
    requires Inv(w, s) && s.up && id in s.commits
    ensures Complete(s.commits, id) <==> Anc(s.index, id) <= s.commits.Keys
  {
    var g := Links(s.commits);
    if Complete(s.commits, id) {
      AncAgree(g, s.index, id);
    }
    if Anc(s.index, id) <= s.commits.Keys {
      AncAgree(s.index, g, id);
    }
  }

  // ---------------------------------------------------------------- crash and restart

  /**
    After a crash the daemon comes up exactly when every stored link goes to an earlier row, and
    its new index is the live one cut down to the stored commits.
  */
  lemma CrashRecovery(w: World, cfg: Config, s: State)
    requires Inv(w, s) && s.up
    ensures var next := Next(w, cfg, s, Crash);
            && (next.up <==> RowsGrow(s.commits))
            && (next.up ==> CutDown(next.index, s.index, s.commits.Keys))
            && next.commits == s.commits && next.heads == s.heads && next.acked == s.acked
  {
    assert Next(w, cfg, s, Crash) == Restarted(s);
    RowsOf(w, s);
    RestartIff(w, s);
    RestartKeepsTables(s);
    if Restarted(s).up {
      RecoveredIndex(w, s);
    }
  }

  lemma UpAfterCrashIff(w: World, cfg: Config, s: State)
    requires Inv(w, s) && s.up
    ensures Next(w, cfg, s, Crash).up <==> RowsGrow(s.commits)
  {
    CrashRecovery(w, cfg, s);
  }

  lemma RestartKeepsTables(s: State)
    ensures Restarted(s).commits == s.commits && Restarted(s).heads == s.heads && Restarted(s).acked == s.acked
  {
  }

  /** `part` is `whole` on exactly the ids in `ids`. */
  predicate CutDown(part: Graph, whole: Graph, ids: set<Id>) {
    part.Keys == ids && ids <= whole.Keys && forall id :: id in ids ==> part[id] == whole[id]
  }

  lemma RecoveredIndex(w: World, s: State)
    requires Inv(w, s) && s.up && Restarted(s).up
    ensures CutDown(Restarted(s).index, s.index, s.commits.Keys)
  {
    RestartIff(w, s);
    IndexHoldsRows(w, s);
  }

  lemma IndexHoldsRows(w: World, s: State)
    requires Inv(w, s) && s.up
    ensures forall id :: id in s.commits ==> id in s.index && s.index[id] == s.commits[id].body.parents
  {
    forall id | id in s.commits ensures id in s.index && s.index[id] == s.commits[id].body.parents {
      assert s.origin[id] == s.commits[id];
    }
  }

  // ---------------------------------------------------------------- runs in which every crash recovers

  /** `c` sorts after each of its parents in the listing, and they are stored. */
  ghost predicate RowAbove(commits: Store, c: Commit) {
    forall m :: m in c.body.parents ==> m in commits && RowBelow(commits[m], c)
  }

  ghost predicate PhaseRowAbove(commits: Store, p: Phase) {
    match p
    case Checking(c) => RowAbove(commits, c)
    case Checked(c) => RowAbove(commits, c)
    case Indexed(c) => RowAbove(commits, c)
    case _ => true
  }

  ghost predicate PhasesRowAbove(commits: Store, active: map<nat, Phase>) {
    forall pid :: pid in active ==> PhaseRowAbove(commits, active[pid])
  }

  ghost predicate GrowsInv(s: State) {
    RowsGrow(s.commits) && PhasesRowAbove(s.commits, s.active)
  }

  /** If `e` resolves a request's parents, its commit sorts after those of them that are stored. */
  ghost predicate ResolvesAbove(w: World, s: State, e: Event) {
    s.up && e.Resolve? && e.pid in s.active && s.active[e.pid].Resolving? ==>
      var draft := s.active[e.pid].draft;
      var c := FromBody(w.hash, draft.(parents := ParentsFor(s.heads, draft)));
      forall m :: m in c.body.parents && m in s.commits ==> RowBelow(s.commits[m], c)
  }

  /** Every commit of the run sorts after its stored parents when it resolves them. */
  ghost predicate SortsAbove(w: World, cfg: Config, s: State, events: seq<Event>)
    decreases |events|
  {
    events == [] || (ResolvesAbove(w, s, events[0]) && SortsAbove(w, cfg, Next(w, cfg, s, events[0]), events[1..]))
  }

  lemma OnePhaseRowAbove(commits: Store, active: map<nat, Phase>, pid: nat, p: Phase)
    requires PhasesRowAbove(commits, active)
    ensures PhaseRowAbove(commits, p) ==> PhasesRowAbove(commits, active[pid := p])
    ensures PhasesRowAbove(commits, active - {pid})
  {
  }

  lemma MoreRowsRowAbove(commits: Store, later: Store, active: map<nat, Phase>)
    requires PhasesRowAbove(commits, active) && Grew(commits, later)
    ensures PhasesRowAbove(later, active)
  {
    forall pid | pid in active ensures PhaseRowAbove(later, active[pid]) {
      assert PhaseRowAbove(commits, active[pid]);
    }
  }

  lemma ToKeepsGrows(s: State, pid: nat, p: Phase)
    requires GrowsInv(s) && PhaseRowAbove(s.commits, p)
    ensures GrowsInv(To(s, pid, p))
  {
    OnePhaseRowAbove(s.commits, s.active, pid, p);
  }

  lemma DoneKeepsGrows(s: State, pid: nat, heads: map<string, Id>, acked: set<Id>)
    requires GrowsInv(s)
    ensures GrowsInv(Done(s, pid).(heads := heads, acked := acked))
  {
    OnePhaseRowAbove(s.commits, s.active, pid, MovingHead("", ""));
  }

  lemma WrittenKeepsGrows(s: State, pid: nat, c: Commit)
    requires GrowsInv(s) && RowAbove(s.commits, c)
    ensures GrowsInv(Written(s, pid, c))
  {
    ToKeepsGrows(s, pid, Indexed(c));
  }

  lemma AppendedKeepsGrows(s: State, pid: nat, c: Commit)
    requires GrowsInv(s) && RowAbove(s.commits, c)
    ensures GrowsInv(Appended(s, pid, c))
  {
    var later := InsertOrIgnore(s.commits, c);
    MoreRowsRowAbove(s.commits, later, s.active);
    OnePhaseRowAbove(later, s.active, pid, Stored(c));
  }

  lemma ResolvedKeepsGrows(w: World, s: State, pid: nat, draft: Body, e: Event)
    requires Inv(w, s) && StoredParents(s) && GrowsInv(s) && s.up && e == Resolve(pid)
    requires pid in s.active && s.active[pid] == Resolving(draft) && ResolvesAbove(w, s, e)
    ensures GrowsInv(To(s, pid, Checking(FromBody(w.hash, draft.(parents := ParentsFor(s.heads, draft))))))
  {
    var c := FromBody(w.hash, draft.(parents := ParentsFor(s.heads, draft)));
    assert PhaseStoredParents(s.commits.Keys, s.active[pid]);
    ToKeepsGrows(s, pid, Checking(c));
  }

  lemma AdvanceKeepsGrows(w: World, s: State, pid: nat, p: Phase, e: Event)
    requires Inv(w, s) && StoredParents(s) && GrowsInv(s) && s.up && pid in s.active && s.active[pid] == p
    requires !e.Crash? && e.pid == pid && ResolvesAbove(w, s, e) && PhaseRowAbove(s.commits, p)
    ensures GrowsInv(Advanced(w, s, pid, p, e))
  {
    if e.Resolve? && p.Resolving? {
      ResolvedKeepsGrows(w, s, pid, p.draft, e);
    } else if e.Check? && p.Checking? {
      ToKeepsGrows(s, pid, Checked(p.commit));
      DoneKeepsGrows(s, pid, s.heads, s.acked);
    } else if e.WriteIndex? && p.Checked? {
      WrittenKeepsGrows(s, pid, p.commit);
    } else if e.AppendRow? && p.Indexed? {
      AppendedKeepsGrows(s, pid, p.commit);
    } else {
      var next := Advanced(w, s, pid, p, e);
      DoneKeepsGrows(s, pid, next.heads, next.acked);
    }
  }

  lemma StepKeepsGrows(w: World, cfg: Config, s: State, e: Event)
    requires Inv(w, s) && StoredParents(s) && GrowsInv(s) && s.up && ResolvesAbove(w, s, e)
    ensures GrowsInv(Next(w, cfg, s, e)) && Next(w, cfg, s, e).up
  {
    if e.Crash? {
      RowsOf(w, s);
      RestartIff(w, s);
      RestartKeepsTables(s);
    } else if e.pid in s.active {
      AdvanceKeepsGrows(w, s, e.pid, s.active[e.pid], e);
      AdvanceStaysUp(w, s, e.pid, s.active[e.pid], e);
    } else if Started(w, cfg, s, e).Some? {
      ToKeepsGrows(s, e.pid, Started(w, cfg, s, e).value);
    }
  }

  lemma AdvanceStaysUp(w: World, s: State, pid: nat, p: Phase, e: Event)
    ensures Advanced(w, s, pid, p, e).up == s.up
  {
  }

  lemma {:induction false} RunKeepsGrows(w: World, cfg: Config, s: State, events: seq<Event>)
    requires Injective(w.hash) && Inv(w, s) && StoredParents(s) && GrowsInv(s) && s.up
    requires ParentsAcked(w, cfg, s, events) && SortsAbove(w, cfg, s, events)
    ensures GrowsInv(Run(w, cfg, s, events)) && Run(w, cfg, s, events).up
    decreases |events|
  {
    if events != [] {
      StepKeepsInv(w, cfg, s, events[0]);
      StepKeepsStoredParents(w, cfg, s, events[0]);
      StepKeepsGrows(w, cfg, s, events[0]);
      RunKeepsGrows(w, cfg, Next(w, cfg, s, events[0]), events[1..]);
    }
  }

  /**
    If clients only name acknowledged parents and every commit sorts after its parents in the listing when
    it resolves them, then the daemon is up after every run, whatever crashes are in it.
  */
  lemma EveryCrashRecovers(w: World, cfg: Config, events: seq<Event>)
    requires Injective(w.hash) && ParentsAcked(w, cfg, INIT, events) && SortsAbove(w, cfg, INIT, events)
    ensures Run(w, cfg, INIT, events).up
  {
    InitInv(w);
    RunKeepsGrows(w, cfg, INIT, events);
  }

  // ---------------------------------------------------------------- redaction

  ghost predicate PhaseClean(p: Phase) {
    match p
    case Resolving(draft) => Redaction.Clean(PayloadToJson(draft.delta))
    case MovingHead(_, _) => true
    case _ => Redaction.Clean(DeltaOf(p.commit))
  }

  ghost predicate PhasesClean(active: map<nat, Phase>) {
    forall pid :: pid in active ==> PhaseClean(active[pid])
  }

  ghost predicate RowsClean(commits: Store) {
    forall id :: id in commits ==> Redaction.Clean(DeltaOf(commits[id]))
  }

  ghost predicate AllClean(s: State) {
    RowsClean(s.commits) && PhasesClean(s.active)
  }

  lemma OnePhaseClean(active: map<nat, Phase>, pid: nat, p: Phase)
    requires PhasesClean(active)
    ensures PhaseClean(p) ==> PhasesClean(active[pid := p])
    ensures PhasesClean(active - {pid})
  {
  }

  lemma ToKeepsClean(s: State, pid: nat, p: Phase)
    requires AllClean(s) && PhaseClean(p)
    ensures AllClean(To(s, pid, p))
  {
    OnePhaseClean(s.active, pid, p);
  }

  lemma DoneKeepsClean(s: State, pid: nat, heads: map<string, Id>, acked: set<Id>)
    requires AllClean(s)
    ensures AllClean(Done(s, pid).(heads := heads, acked := acked))
  {
    OnePhaseClean(s.active, pid, MovingHead("", ""));
  }

  lemma WrittenKeepsClean(s: State, pid: nat, c: Commit)
    requires AllClean(s) && PhaseClean(Indexed(c))
    ensures AllClean(Written(s, pid, c))
  {
    ToKeepsClean(s, pid, Indexed(c));
  }

  lemma AppendedKeepsClean(s: State, pid: nat, c: Commit)
    requires AllClean(s) && PhaseClean(Indexed(c))
    ensures AllClean(Appended(s, pid, c))
  {
    ToKeepsClean(s, pid, Stored(c));
  }

  lemma StepKeepsClean(w: World, cfg: Config, s: State, e: Event)
    requires PrintsBack(w) && cfg.redactionEnabled && AllClean(s)
    ensures AllClean(Next(w, cfg, s, e))
  {
    if s.up && !e.Crash? {
      if e.pid in s.active {
        AdvanceKeepsClean(w, s, e.pid, s.active[e.pid], e);
      } else if Started(w, cfg, s, e).Some? {
        if e.Arrive? { PreparedReplaysClean(w, cfg, e.payload); }
        ToKeepsClean(s, e.pid, Started(w, cfg, s, e).value);
      }
    }
  }

  lemma AdvanceKeepsClean(w: World, s: State, pid: nat, p: Phase, e: Event)
    requires AllClean(s) && PhaseClean(p)
    ensures AllClean(Advanced(w, s, pid, p, e))
  {
    if e.Resolve? && p.Resolving? {
      ToKeepsClean(s, pid, Checking(FromBody(w.hash, p.draft.(parents := ParentsFor(s.heads, p.draft)))));
    } else if e.Check? && p.Checking? {
      ToKeepsClean(s, pid, Checked(p.commit));
      DoneKeepsClean(s, pid, s.heads, s.acked);
    } else if e.WriteIndex? && p.Checked? {
      WrittenKeepsClean(s, pid, p.commit);
    } else if e.AppendRow? && p.Indexed? {
      AppendedKeepsClean(s, pid, p.commit);
    } else {
      var next := Advanced(w, s, pid, p, e);
      DoneKeepsClean(s, pid, next.heads, next.acked);
    }
  }

  lemma {:induction false} RunKeepsClean(w: World, cfg: Config, s: State, events: seq<Event>)
    requires PrintsBack(w) && cfg.redactionEnabled && AllClean(s)
    ensures AllClean(Run(w, cfg, s, events))
    decreases |events|
  {
    if events != [] {
      StepKeepsClean(w, cfg, s, events[0]);
      RunKeepsClean(w, cfg, Next(w, cfg, s, events[0]), events[1..]);
    }
  }

  /** With redaction on, no run ever replays to a state in which a secret-named key holds anything but the marker. */
  lemma ReplayedStatesAreClean(w: World, cfg: Config, events: seq<Event>, id: Id)
    requires Injective(w.hash) && PrintsBack(w) && cfg.redactionEnabled
    requires Complete(Run(w, cfg, INIT, events).commits, id)
    ensures var s := Run(w, cfg, INIT, events);
            Acyclic(Links(s.commits)) && Redaction.Clean(Replayed(s.commits, id).state)
  {
    var s := Run(w, cfg, INIT, events);
    RunsAreSafe(w, cfg, events);
    RunKeepsClean(w, cfg, INIT, events);
    var order := ReplayOrder(s.commits, id);
    forall i | 0 <= i < |order| ensures Redaction.Clean(DeltasOf(order)[i]) {
      OrderMembers(s.commits, id, order[i]);
    }
    Redaction.CleanMergeAll(EMPTY_STATE, DeltasOf(order));
  }

  // ---------------------------------------------------------------- one request without interruption

  /** The steps of one publish or checkpoint. */
  function PublishSteps(pid: nat, draft: Body, payload: Option<Payload>): seq<Event> {
    [Arrive(pid, draft, payload), Resolve(pid), Check(pid), WriteIndex(pid), AppendRow(pid), MoveHead(pid)]
  }

  /** The commit that such a request makes. */
  ghost function CommitFor(w: World, cfg: Config, s: State, draft: Body, payload: Option<Payload>): Commit {
    FromBody(w.hash, Filled(w, cfg, draft, payload).(parents := ParentsFor(s.heads, draft)))
  }

  lemma RunStep(w: World, cfg: Config, s: State, e: Event, rest: seq<Event>)
    ensures Run(w, cfg, s, [e] + rest) == Run(w, cfg, Next(w, cfg, s, e), rest)
  {
    assert ([e] + rest)[1..] == rest;
  }

  lemma RunNothing(w: World, cfg: Config, s: State)
    ensures Run(w, cfg, s, []) == s
  {
  }

  /** The state an uninterrupted publish of `c` ends in. */
  function AfterPublish(s: State, c: Commit): State {
    s.(index := s.index[c.id := c.body.parents], origin := s.origin[c.id := c],
       commits := InsertOrIgnore(s.commits, c), heads := s.heads[SlotOf(c.body) := c.id], acked := s.acked + {c.id})
  }

  lemma ToTo(s: State, pid: nat, p: Phase, q: Phase)
    ensures To(To(s, pid, p), pid, q) == To(s, pid, q)
  {
    assert s.active[pid := p][pid := q] == s.active[pid := q];
  }

  lemma ResolveStep(w: World, cfg: Config, s: State, pid: nat, d: Body)
    requires s.up
    ensures Next(w, cfg, To(s, pid, Resolving(d)), Resolve(pid))
         == To(s, pid, Checking(FromBody(w.hash, d.(parents := ParentsFor(s.heads, d)))))
  {
    ToTo(s, pid, Resolving(d), Checking(FromBody(w.hash, d.(parents := ParentsFor(s.heads, d)))));
  }

  lemma CheckStep(w: World, cfg: Config, s: State, pid: nat, c: Commit)
    requires s.up && AppendError(s.index, c.id, c.body.parents).None?
    ensures Next(w, cfg, To(s, pid, Checking(c)), Check(pid)) == To(s, pid, Checked(c))
  {
    ToTo(s, pid, Checking(c), Checked(c));
  }

  lemma WriteIndexStep(w: World, cfg: Config, s: State, pid: nat, c: Commit)
    requires s.up
    ensures Next(w, cfg, To(s, pid, Checked(c)), WriteIndex(pid)) == Written(s, pid, c)
  {
    ToTo(s, pid, Checked(c), Indexed(c));
  }

  lemma AppendRowStep(w: World, cfg: Config, s: State, pid: nat, c: Commit)
    requires s.up
    ensures Next(w, cfg, Written(s, pid, c), AppendRow(pid)) == Appended(Written(s, pid, c), pid, c)
  {
  }

  lemma MoveHeadStep(w: World, cfg: Config, s: State, pid: nat, c: Commit)
    requires s.up && pid !in s.active
    ensures Next(w, cfg, Appended(Written(s, pid, c), pid, c), MoveHead(pid)) == AfterPublish(s, c)
  {
    assert s.active[pid := Indexed(c)][pid := Stored(c)] - {pid} == s.active;
  }

  lemma ThreeSteps(w: World, cfg: Config, s0: State, s1: State, s2: State, s3: State, a: Event, b: Event, c: Event)
    requires Next(w, cfg, s0, a) == s1 && Next(w, cfg, s1, b) == s2 && Next(w, cfg, s2, c) == s3
    ensures Run(w, cfg, s0, [a, b, c]) == s3
  {
    assert [a, b, c] == [a] + [b, c] && [b, c] == [b] + [c] && [c] == [c] + [];
    RunStep(w, cfg, s0, a, [b, c]);
    RunStep(w, cfg, s1, b, [c]);
    RunStep(w, cfg, s2, c, []);
    RunNothing(w, cfg, s3);
  }

  lemma UpToCheck(w: World, cfg: Config, s: State, pid: nat, draft: Body, payload: Option<Payload>)
    requires s.up && pid !in s.active
    requires var c := CommitFor(w, cfg, s, draft, payload); AppendError(s.index, c.id, c.body.parents).None?
    ensures Run(w, cfg, s, [Arrive(pid, draft, payload), Resolve(pid), Check(pid)])
         == To(s, pid, Checked(CommitFor(w, cfg, s, draft, payload)))
  {
    var c := CommitFor(w, cfg, s, draft, payload);
    var d := Filled(w, cfg, draft, payload);
    ResolveStep(w, cfg, s, pid, d);
    assert d.(parents := ParentsFor(s.heads, d)) == c.body;
    CheckStep(w, cfg, s, pid, c);
    ThreeSteps(w, cfg, s, To(s, pid, Resolving(d)), To(s, pid, Checking(c)), To(s, pid, Checked(c)),
      Arrive(pid, draft, payload), Resolve(pid), Check(pid));
  }

  lemma FromCheck(w: World, cfg: Config, s: State, pid: nat, c: Commit)
    requires s.up && pid !in s.active
    ensures Run(w, cfg, To(s, pid, Checked(c)), [WriteIndex(pid), AppendRow(pid), MoveHead(pid)]) == AfterPublish(s, c)
  {
    WriteIndexStep(w, cfg, s, pid, c);
    AppendRowStep(w, cfg, s, pid, c);
    MoveHeadStep(w, cfg, s, pid, c);
    ThreeSteps(w, cfg, To(s, pid, Checked(c)), Written(s, pid, c), Appended(Written(s, pid, c), pid, c),
      AfterPublish(s, c), WriteIndex(pid), AppendRow(pid), MoveHead(pid));
  }

  /** Without interruption the steps do what `AppState.PersistCommit` does. */
  lemma UninterruptedPublish(w: World, cfg: Config, s: State, pid: nat, draft: Body, payload: Option<Payload>)
    requires s.up && pid !in s.active
    requires var c := CommitFor(w, cfg, s, draft, payload); AppendError(s.index, c.id, c.body.parents).None?
    ensures Run(w, cfg, s, PublishSteps(pid, draft, payload)) == AfterPublish(s, CommitFor(w, cfg, s, draft, payload))
  {
    var before := [Arrive(pid, draft, payload), Resolve(pid), Check(pid)];
    var rest := [WriteIndex(pid), AppendRow(pid), MoveHead(pid)];
    assert PublishSteps(pid, draft, payload) == before + rest;
    RunConcat(w, cfg, s, before, rest);
    UpToCheck(w, cfg, s, pid, draft, payload);
    FromCheck(w, cfg, s, pid, CommitFor(w, cfg, s, draft, payload));
  }

  lemma {:induction false} RunConcat(w: World, cfg: Config, s: State, a: seq<Event>, b: seq<Event>)
    ensures Run(w, cfg, s, a + b) == Run(w, cfg, Run(w, cfg, s, a), b)
    decreases |a|
  {
    if a == [] {
      assert a + b == b;
    } else {
      assert (a + b)[1..] == a[1..] + b;
      RunConcat(w, cfg, Next(w, cfg, s, a[0]), a[1..], b);
    }
  }

  // ---------------------------------------------------------------- fork, then continue

  function ForkSteps(pid: nat, source: Id, run: string): seq<Event> {
    [Fork(pid, source, run), MoveHead(pid)]
  }

  lemma UninterruptedFork(w: World, cfg: Config, s: State, pid: nat, source: Id, run: string)
    requires Inv(w, s) && s.up && pid !in s.active && source in s.commits
    ensures var b := s.commits[source].body;
            Run(w, cfg, s, ForkSteps(pid, source, run)) ==
              s.(heads := s.heads[HeadKey(run, b.thread, b.agent, b.channel) := source])
  {
    var b := s.commits[source].body;
    var slot := HeadKey(run, b.thread, b.agent, b.channel);
    var s1 := To(s, pid, MovingHead(slot, source));
    assert Next(w, cfg, s, Fork(pid, source, run)) == s1;
    var s2 := HeadMoved(s1, pid, slot, source);
    assert Next(w, cfg, s1, MoveHead(pid)) == s2;
    assert s2.active == s.active;
    var es := ForkSteps(pid, source, run);
    assert es == [es[0]] + ([es[1]] + []);
    RunStep(w, cfg, s, es[0], [es[1]] + []);
    RunStep(w, cfg, s1, es[1], []);
    RunNothing(w, cfg, s2);
  }

  /** A commit whose only parent is already in the index is never refused. */
  lemma ChildAccepted(w: World, s: State, c: Commit, source: Id)
    requires Injective(w.hash) && Inv(w, s) && s.up && source in s.index
    requires WellHashed(w.hash, c) && c.body.parents == [source]
    ensures AppendError(s.index, c.id, c.body.parents).None?
  {
    ParentsAccepted(s.index, c.id, c.body.parents);
    if c.id in s.index {
      RewriteChangesNothing(w, s.index, s.origin, c);
      assert source in ParentsOf(s.index, c.id);
      ReachSelf(s.index, c.id);
    } else {
      UnknownIsUnreachable(s.index, source, c.id);
      ReachSelf(s.index, source);
    }
  }

  /** The commit that continues a fork. */
  ghost function Continuation(w: World, cfg: Config, source: Id, draft: Body, payload: Option<Payload>): Commit {
    FromBody(w.hash, Filled(w, cfg, draft, payload).(parents := [source]))
  }

  /** `draft` names no parents and goes to the slot that forking `source` into its run sets. */
  predicate Continues(commits: Store, source: Id, draft: Body) {
    && source in commits && draft.parents == []
    && draft.thread == commits[source].body.thread && draft.agent == commits[source].body.agent
    && draft.channel == commits[source].body.channel
  }

  function Forked(s: State, source: Id, draft: Body): State {
    s.(heads := s.heads[SlotOf(draft) := source])
  }

  lemma ContinuationCommit(w: World, cfg: Config, s: State, source: Id, draft: Body, payload: Option<Payload>)
    requires draft.parents == []
    ensures CommitFor(w, cfg, Forked(s, source, draft), draft, payload) == Continuation(w, cfg, source, draft, payload)
  {
  }

  lemma ForkLeavesHead(w: World, cfg: Config, s: State, pid: nat, source: Id, draft: Body)
    requires Inv(w, s) && s.up && pid !in s.active && Continues(s.commits, source, draft)
    ensures Run(w, cfg, s, ForkSteps(pid, source, draft.run)) == Forked(s, source, draft)
  {
    UninterruptedFork(w, cfg, s, pid, source, draft.run);
  }

  lemma AfterForkedPublish(s: State, source: Id, draft: Body, c: Commit)
    requires SlotOf(c.body) == SlotOf(draft)
    ensures AfterPublish(Forked(s, source, draft), c) == AfterPublish(s, c)
  {
    assert s.heads[SlotOf(draft) := source][SlotOf(c.body) := c.id] == s.heads[SlotOf(c.body) := c.id];
  }

  lemma ForkThenPublish(w: World, cfg: Config, s: State, pid: nat, source: Id, draft: Body, payload: Option<Payload>)
    requires Injective(w.hash) && Inv(w, s) && s.up && pid !in s.active && Continues(s.commits, source, draft)
    ensures Run(w, cfg, s, ForkSteps(pid, source, draft.run) + PublishSteps(pid, draft, payload))
         == AfterPublish(s, Continuation(w, cfg, source, draft, payload))
  {
    var c := Continuation(w, cfg, source, draft, payload);
    RunConcat(w, cfg, s, ForkSteps(pid, source, draft.run), PublishSteps(pid, draft, payload));
    ForkLeavesHead(w, cfg, s, pid, source, draft);
    ContinuationCommit(w, cfg, s, source, draft, payload);
    assert AppendError(s.index, c.id, c.body.parents).None? by {
      IndexHoldsRows(w, s);
      ChildAccepted(w, s, c, source);
    }
    UninterruptedPublish(w, cfg, Forked(s, source, draft), pid, draft, payload);
    AfterForkedPublish(s, source, draft, c);
  }

  /**
    Fork, then publish into the forked slot without naming parents: the new commit is stored, heads
    the slot, and has the source's ancestry followed by itself; if it sorts below none of them, it
    replays to the source's state merged with its own delta. No other slot's head moves.
  */
  lemma ForkThenContinue(w: World, cfg: Config, s: State, pid: nat, source: Id, draft: Body, payload: Option<Payload>)
    requires Injective(w.hash) && Inv(w, s) && s.up && pid !in s.active && Continues(s.commits, source, draft)
    requires Complete(s.commits, source)
    ensures var c := Continuation(w, cfg, source, draft, payload);
            var t := Run(w, cfg, s, ForkSteps(pid, source, draft.run) + PublishSteps(pid, draft, payload));
            && Inv(w, t) && c.id in t.commits && t.commits[c.id] == c
            && t.heads == s.heads[SlotOf(draft) := c.id] && c.id in t.acked
            && Complete(t.commits, c.id)
            && Ancestry(Links(t.commits), c.id) == Ancestry(Links(s.commits), source) + [c.id]
            && (SortsLast(s.commits, source, c) ==>
                 Replayed(t.commits, c.id).state == Merge(Replayed(s.commits, source).state, DeltaOf(c)))
  {
    ForkThenPublish(w, cfg, s, pid, source, draft, payload);
    RunKeepsInv(w, cfg, s, ForkSteps(pid, source, draft.run) + PublishSteps(pid, draft, payload));
    ContinuationReplays(w, s, source, Continuation(w, cfg, source, draft, payload));
  }

  lemma ContinuationReplays(w: World, s: State, source: Id, c: Commit)
    requires Injective(w.hash) && Inv(w, s) && Inv(w, AfterPublish(s, c))
    requires WellHashed(w.hash, c) && c.body.parents == [source] && source in s.commits && Complete(s.commits, source)
    ensures var later := AfterPublish(s, c).commits;
            && c.id in later && later[c.id] == c && Complete(later, c.id)
            && Ancestry(Links(later), c.id) == Ancestry(Links(s.commits), source) + [c.id]
            && (SortsLast(s.commits, source, c) ==>
                 Replayed(later, c.id).state == Merge(Replayed(s.commits, source).state, DeltaOf(c)))
  {
    RowsOf(w, s);
    RowsOf(w, AfterPublish(s, c));
    InsertedBack(w, s.commits, c);
    ContinuedReplay(s.commits, InsertOrIgnore(s.commits, c), c, source);
  }

  lemma RowsOf(w: World, s: State)
    requires Inv(w, s)
    ensures Acyclic(Links(s.commits)) && Hashed(w, s.commits) && Keyed(s.commits)
    ensures forall k :: k in s.heads ==> s.heads[k] in s.commits
  {
  }

  lemma InsertedBack(w: World, commits: Store, c: Commit)
    requires Injective(w.hash) && Hashed(w, commits) && WellHashed(w.hash, c)
    ensures var later := InsertOrIgnore(commits, c); c.id in later && later[c.id] == c && Grew(commits, later)
  {
    if c.id in commits { SameIdSameCommit(w.hash, c, commits[c.id]); }
  }

  /** `c` sorts below nothing in the ancestry of `source`. */
  ghost predicate SortsLast(commits: Store, source: Id, c: Commit) {
    forall a :: a in Anc(Links(commits), source) && a in commits ==> KeyLe(commits[a], c)
  }

  lemma ContinuedReplay(before: Store, after: Store, c: Commit, source: Id)
    requires Acyclic(Links(before)) && Acyclic(Links(after)) && Keyed(after) && Grew(before, after)
    requires source in before && Complete(before, source)
    requires c.id in after && after[c.id] == c && c.body.parents == [source]
    ensures Complete(after, c.id)
    ensures Ancestry(Links(after), c.id) == Ancestry(Links(before), source) + [c.id]
    ensures SortsLast(before, source, c) ==>
              Replayed(after, c.id).state == Merge(Replayed(before, source).state, DeltaOf(c))
  {
    var g, h := Links(before), Links(after);
    ReplayStable(before, after, source);
    AncAgree(g, h, source);
    CollectAgree(g, h, source, []);
    ChildAncestry(h, c.id, source);
    forall x | x in Anc(h, c.id) ensures x in after {
      AncUnfold(h, c.id, x);
    }
    if SortsLast(before, source, c) {
      ChildReplay(after, c, source);
    }
  }

  // ---------------------------------------------------------------- who moves heads

  /** The slot that a request at its last step moves. */
  function SlotMoved(p: Phase): string
    requires p.Stored? || p.MovingHead?
  {
    if p.Stored? then SlotOf(p.commit.body) else p.slot
  }

  lemma AdvanceHeads(w: World, s: State, pid: nat, p: Phase, e: Event)
    requires Advanced(w, s, pid, p, e).heads != s.heads
    ensures e.MoveHead? && (p.Stored? || p.MovingHead?)
    ensures Advanced(w, s, pid, p, e).heads - {SlotMoved(p)} == s.heads - {SlotMoved(p)}
    ensures Advanced(w, s, pid, p, e).commits == s.commits && Advanced(w, s, pid, p, e).index == s.index
  {
  }

  /** A step moves at most one head slot, and only the last step of a publish, fork or rollback moves one. */
  lemma OneHeadMoves(w: World, cfg: Config, s: State, e: Event)
    requires Next(w, cfg, s, e).heads != s.heads
    ensures e.MoveHead? && e.pid in s.active && (s.active[e.pid].Stored? || s.active[e.pid].MovingHead?)
    ensures Next(w, cfg, s, e).heads - {SlotMoved(s.active[e.pid])} == s.heads - {SlotMoved(s.active[e.pid])}
    ensures Next(w, cfg, s, e).commits == s.commits && Next(w, cfg, s, e).index == s.index
  {
    AdvanceHeads(w, s, e.pid, s.active[e.pid], e);
  }

  lemma KnownAncestry(g: Graph, id: Id)
    requires Closed(g) && id in g
    ensures Anc(g, id) <= g.Keys
  {
    forall x | x in Anc(g, id) ensures x in g {
      AncIsReach(g, id, x);
      ReachStays(g, g.Keys, id, x);
    }
  }

  // ---------------------------------------------------------------- rollback

  function RollbackSteps(pid: nat, head: Id, target: Id, force: bool): seq<Event> {
    [Rollback(pid, head, target, force), MoveHead(pid)]
  }

  /** The tables a rollback reads. */
  function TablesOf(s: State): Tables {
    NO_TABLES.(commits := s.commits, heads := s.heads)
  }

  /** A rollback's steps start exactly when the sequential rollback is not refused. */
  lemma RollbackStartsIff(w: World, cfg: Config, s: State, pid: nat, head: Id, target: Id, force: bool)
    ensures Started(w, cfg, s, Rollback(pid, head, target, force)).Some? <==>
      HeadMoves.RollbackRefusal(TablesOf(s), s.index, HeadMoves.RollbackRequest(head, target, force)).None?
  {
  }

  predicate Accepted(s: State, head: Id, target: Id) {
    head in s.commits && target in s.commits
  }

  /** The state after an accepted rollback: one slot moved. */
  function RolledBack(s: State, head: Id, target: Id): State
    requires Accepted(s, head, target)
  {
    s.(heads := s.heads[SlotOf(s.commits[head].body) := target])
  }

  lemma AcceptedRollback(w: World, cfg: Config, s: State, pid: nat, head: Id, target: Id, force: bool)
    requires Hashed(w, s.commits) && s.up && pid !in s.active && Accepted(s, head, target)
    requires force || target in Anc(s.index, head)
    ensures Run(w, cfg, s, RollbackSteps(pid, head, target, force)) == RolledBack(s, head, target)
  {
    var e := Rollback(pid, head, target, force);
    var slot := SlotOf(s.commits[head].body);
    var s1 := To(s, pid, MovingHead(slot, target));
    assert Next(w, cfg, s, e) == s1;
    var s2 := HeadMoved(s1, pid, slot, target);
    assert Next(w, cfg, s1, MoveHead(pid)) == s2;
    assert s2.active == s.active;
    assert RollbackSteps(pid, head, target, force) == [e] + ([MoveHead(pid)] + []);
    RunStep(w, cfg, s, e, [MoveHead(pid)] + []);
    RunStep(w, cfg, s1, MoveHead(pid), []);
    RunNothing(w, cfg, s2);
  }

  lemma RefusedRollback(w: World, cfg: Config, s: State, pid: nat, head: Id, target: Id, force: bool)
    requires s.up && pid !in s.active
    requires !Accepted(s, head, target) || (!force && target !in Anc(s.index, head))
    ensures Run(w, cfg, s, RollbackSteps(pid, head, target, force)) == s
  {
    var e := Rollback(pid, head, target, force);
    assert Started(w, cfg, s, e).None?;
    assert RollbackSteps(pid, head, target, force) == [e] + ([MoveHead(pid)] + []);
    RunStep(w, cfg, s, e, [MoveHead(pid)] + []);
    RunStep(w, cfg, s, MoveHead(pid), []);
    RunNothing(w, cfg, s);
  }

  /**
    A rollback either changes nothing or moves exactly the slot of the head commit it names to the
    target; unforced, the target is then in that commit's stored past.
  */
  lemma UninterruptedRollback(w: World, cfg: Config, s: State, pid: nat, head: Id, target: Id, force: bool)
    requires Inv(w, s) && s.up && pid !in s.active
    ensures var goes := Accepted(s, head, target) && (force || target in Anc(s.index, head));
            && Run(w, cfg, s, RollbackSteps(pid, head, target, force)) ==
                 (if goes then RolledBack(s, head, target) else s)
            && (goes && !force && Complete(s.commits, head) ==> target in Anc(Links(s.commits), head))
  {
    if Accepted(s, head, target) && (force || target in Anc(s.index, head)) {
      AcceptedRollback(w, cfg, s, pid, head, target, force);
      if Complete(s.commits, head) {
        IndexHoldsRows(w, s);
        AncAgree(Links(s.commits), s.index, head);
      }
    } else {
      RefusedRollback(w, cfg, s, pid, head, target, force);
    }
  }

  /** The slot of both commits stands at `head`, and `target` is in its past. */
  ghost predicate CanRollBack(s: State, head: Id, target: Id) {
    && Accepted(s, head, target) && target in Anc(s.index, head)
    && SlotOf(s.commits[head].body) == SlotOf(s.commits[target].body)
    && SlotOf(s.commits[head].body) in s.heads && s.heads[SlotOf(s.commits[head].body)] == head
  }

  lemma ThereAndBack(s: State, head: Id, target: Id)
    requires CanRollBack(s, head, target)
    ensures RolledBack(RolledBack(s, head, target), target, head) == s
  {
    var slot := SlotOf(s.commits[head].body);
    assert s.heads[slot := target][slot := head] == s.heads;
  }

  lemma RunBoth(w: World, cfg: Config, s: State, a: seq<Event>, t: State, b: seq<Event>, u: State)
    requires Run(w, cfg, s, a) == t && Run(w, cfg, t, b) == u
    ensures Run(w, cfg, s, a + b) == u
  {
    RunConcat(w, cfg, s, a, b);
  }

  /** A forced rollback the other way undoes a rollback within one slot. */
  lemma RollbackUndone(w: World, cfg: Config, s: State, pid: nat, head: Id, target: Id)
    requires Inv(w, s) && s.up && pid !in s.active && CanRollBack(s, head, target)
    ensures Run(w, cfg, s, RollbackSteps(pid, head, target, false) + RollbackSteps(pid, target, head, true)) == s
  {
    var s1 := RolledBack(s, head, target);
    AcceptedRollback(w, cfg, s, pid, head, target, false);
    AcceptedRollback(w, cfg, s1, pid, target, head, true);
    ThereAndBack(s, head, target);
    RunBoth(w, cfg, s, RollbackSteps(pid, head, target, false), s1, RollbackSteps(pid, target, head, true), s);
  }

  /** Without force a request that names the slot's present head is refused the way back. */
  lemma RollbackNotUndoneUnforced(w: World, cfg: Config, s: State, pid: nat, head: Id, target: Id)
    requires Inv(w, s) && s.up && pid !in s.active && CanRollBack(s, head, target) && head != target
    ensures Run(w, cfg, s, RollbackSteps(pid, head, target, false) + RollbackSteps(pid, target, head, false))
         == RolledBack(s, head, target)
  {
    var s1 := RolledBack(s, head, target);
    AcceptedRollback(w, cfg, s, pid, head, target, false);
    if head in Anc(s.index, target) {
      AncAntisymmetric(s.index, head, target);
    }
    RefusedRollback(w, cfg, s1, pid, target, head, false);
    RunBoth(w, cfg, s, RollbackSteps(pid, head, target, false), s1, RollbackSteps(pid, target, head, false), s1);
  }

  /**
    But the check never looks at the slot: an unforced request that names the old head, as head and as
    target, goes back as well.
  */
  lemma RollbackUndoneByName(w: World, cfg: Config, s: State, pid: nat, head: Id, target: Id)
    requires Inv(w, s) && s.up && pid !in s.active && CanRollBack(s, head, target)
    ensures Run(w, cfg, s, RollbackSteps(pid, head, target, false) + RollbackSteps(pid, head, head, false)) == s
  {
    var s1 := RolledBack(s, head, target);
    AcceptedRollback(w, cfg, s, pid, head, target, false);
    AncUnfold(s1.index, head, head);
    AcceptedRollback(w, cfg, s1, pid, head, head, false);
    BackByName(s, head, target);
    RunBoth(w, cfg, s, RollbackSteps(pid, head, target, false), s1, RollbackSteps(pid, head, head, false), s);
  }

  lemma BackByName(s: State, head: Id, target: Id)
    requires CanRollBack(s, head, target)
    ensures RolledBack(RolledBack(s, head, target), head, head) == s
  {
    var slot := SlotOf(s.commits[head].body);
    assert s.heads[slot := target][slot := head] == s.heads;
  }

  /**
    Whatever an unforced rollback naming `named` is let through to lies in the past of the slot's present
    head exactly when `named` does.
  */
  lemma UnforcedStaysInPastIff(w: World, cfg: Config, s: State, pid: nat, named: Id)
    requires Inv(w, s) && s.up && named in s.commits && SlotOf(s.commits[named].body) in s.heads
    ensures var present := s.heads[SlotOf(s.commits[named].body)];
            (forall target :: Started(w, cfg, s, Rollback(pid, named, target, false)).Some? ==>
              target in Anc(s.index, present)) <==> named in Anc(s.index, present)
  {
    var present := s.heads[SlotOf(s.commits[named].body)];
    AncUnfold(s.index, named, named);
    assert Started(w, cfg, s, Rollback(pid, named, named, false)).Some?;
    if named in Anc(s.index, present) {
      AncOfAnc(s.index, present, named);
    }
  }

  /** Two publishes into an empty ledger's slot lead to a state in which this happens. */
  lemma CanRollBackIsReachable(w: World, cfg: Config, a: Body, b: Body, p: Option<Payload>)
    requires Injective(w.hash) && a.parents == [] && b.parents == [] && SlotOf(a) == SlotOf(b)
    ensures var first := CommitFor(w, cfg, INIT, a, p);
            var second := CommitFor(w, cfg, AfterPublish(INIT, first), b, p);
            var s := Run(w, cfg, INIT, PublishSteps(0, a, p) + PublishSteps(0, b, p));
            Inv(w, s) && s.up && s.active == map[] && CanRollBack(s, second.id, first.id) && second.id != first.id
  {
    var first := CommitFor(w, cfg, INIT, a, p);
    var s1 := AfterPublish(INIT, first);
    var second := CommitFor(w, cfg, s1, b, p);
    TwoPublishes(w, cfg, a, b, p);
    InitInv(w);
    RunKeepsInv(w, cfg, INIT, PublishSteps(0, a, p) + PublishSteps(0, b, p));
    var s := AfterPublish(s1, second);
    AncOfParent(s.index, second.id, first.id);
    AncUnfold(s.index, first.id, first.id);
  }

  /** The state after two publishes into one slot of an empty ledger. */
  lemma TwoPublishes(w: World, cfg: Config, a: Body, b: Body, p: Option<Payload>)
    requires Injective(w.hash) && a.parents == [] && b.parents == [] && SlotOf(a) == SlotOf(b)
    ensures var first := CommitFor(w, cfg, INIT, a, p);
            var s1 := AfterPublish(INIT, first);
            var second := CommitFor(w, cfg, s1, b, p);
            && Run(w, cfg, INIT, PublishSteps(0, a, p) + PublishSteps(0, b, p)) == AfterPublish(s1, second)
            && second.body.parents == [first.id] && second.id != first.id
  {
    var first := CommitFor(w, cfg, INIT, a, p);
    FirstAccepted(w, INIT, first);
    UninterruptedPublish(w, cfg, INIT, 0, a, p);
    var s1 := AfterPublish(INIT, first);
    var second := CommitFor(w, cfg, s1, b, p);
    assert SlotOf(first.body) == SlotOf(b);
    OrphanAccepted(w, s1, first, second);
    UninterruptedPublish(w, cfg, s1, 0, b, p);
    RunConcat(w, cfg, INIT, PublishSteps(0, a, p), PublishSteps(0, b, p));
  }

  // ---------------------------------------------------------------- forks over an existing head

  /**
    A fork replaces the head of its slot without looking at it. The replaced head stays in the new head's
    past exactly when it was in the source's; if it is a commit of that slot, an unforced rollback that
    names it puts it back.
  */
  lemma ForkReplacesHead(w: World, cfg: Config, s: State, pid: nat, source: Id, run: string)
    requires Inv(w, s) && s.up && pid !in s.active && source in s.commits
    requires var b := s.commits[source].body; HeadKey(run, b.thread, b.agent, b.channel) in s.heads
    ensures var b := s.commits[source].body;
            var slot := HeadKey(run, b.thread, b.agent, b.channel);
            var replaced := s.heads[slot];
            var t := Run(w, cfg, s, ForkSteps(pid, source, run));
            && t.heads == s.heads[slot := source] && replaced in t.commits
            && (replaced in Anc(t.index, t.heads[slot]) <==> replaced in Anc(s.index, source))
            && (SlotOf(s.commits[replaced].body) == slot ==>
                 Run(w, cfg, t, RollbackSteps(pid, replaced, replaced, false)) == s)
  {
    var b := s.commits[source].body;
    var slot := HeadKey(run, b.thread, b.agent, b.channel);
    var replaced := s.heads[slot];
    UninterruptedFork(w, cfg, s, pid, source, run);
    RowsOf(w, s);
    if SlotOf(s.commits[replaced].body) == slot {
      NamedGoesBack(w, cfg, s, pid, slot, source);
    }
  }

  lemma NamedGoesBack(w: World, cfg: Config, s: State, pid: nat, slot: string, other: Id)
    requires Hashed(w, s.commits) && s.up && pid !in s.active
    requires slot in s.heads && s.heads[slot] in s.commits && SlotOf(s.commits[s.heads[slot]].body) == slot
    ensures Run(w, cfg, s.(heads := s.heads[slot := other]), RollbackSteps(pid, s.heads[slot], s.heads[slot], false))
         == s
  {
    var named, t := s.heads[slot], s.(heads := s.heads[slot := other]);
    AncUnfold(t.index, named, named);
    AcceptedRollback(w, cfg, t, pid, named, named, false);
    assert s.heads[slot := other][slot := named] == s.heads;
  }

  /** A fork into the source's own run is an unforced rollback that names the source as head and target. */
  lemma ForkIntoOwnRun(w: World, cfg: Config, s: State, pid: nat, source: Id)
    requires Inv(w, s) && s.up && pid !in s.active && source in s.commits
    ensures Run(w, cfg, s, ForkSteps(pid, source, s.commits[source].body.run))
         == Run(w, cfg, s, RollbackSteps(pid, source, source, false))
  {
    UninterruptedFork(w, cfg, s, pid, source, s.commits[source].body.run);
    AncUnfold(s.index, source, source);
    AcceptedRollback(w, cfg, s, pid, source, source, false);
  }

  // ---------------------------------------------------------------- two runs that go wrong

  /** The first publish into an empty ledger. */
  lemma FirstAccepted(w: World, s: State, c: Commit)
    requires WellHashed(w.hash, c) && c.body.parents == []
    ensures AppendError(s.index, c.id, c.body.parents).None?
  {
  }

  /** Naming a parent that is indexed but was never acknowledged. */
  function UnackedSteps(a: Body, b: Body, p: Option<Payload>): seq<Event> {
    [Arrive(0, a, p), Resolve(0), Check(0)] + [WriteIndex(0)] + PublishSteps(1, b, p)
  }

  /**
    Without the condition on explicit parents an acknowledged commit can fail to replay: its parent
    was indexed by a request that then stopped before its row was stored. A crash after that leaves
    the daemon unable to rebuild its index.
  */
  lemma UnackedParentBreaksReplay(w: World, cfg: Config, a: Body, b: Body, p: Option<Payload>)
    requires Injective(w.hash) && a.parents == []
    requires b.parents == [CommitFor(w, cfg, INIT, a, p).id]
    ensures var s := Run(w, cfg, INIT, UnackedSteps(a, b, p));
            exists id :: id in s.acked && id in s.commits && !Complete(s.commits, id)
    ensures !Run(w, cfg, INIT, UnackedSteps(a, b, p) + [Crash]).up
  {
    var first := CommitFor(w, cfg, INIT, a, p);
    var s1 := Written(INIT, 0, first);
    FirstAccepted(w, INIT, first);
    UpToCheck(w, cfg, INIT, 0, a, p);
    WriteIndexStep(w, cfg, INIT, 0, first);
    var begin := [Arrive(0, a, p), Resolve(0), Check(0)];
    RunConcat(w, cfg, INIT, begin, [WriteIndex(0)]);
    assert [WriteIndex(0)] == [WriteIndex(0)] + [];
    RunStep(w, cfg, To(INIT, 0, Checked(first)), WriteIndex(0), []);
    RunConcat(w, cfg, INIT, begin + [WriteIndex(0)], PublishSteps(1, b, p));
    var second := CommitFor(w, cfg, s1, b, p);
    OrphanAccepted(w, s1, first, second);
    UninterruptedPublish(w, cfg, s1, 1, b, p);
    var s := Run(w, cfg, INIT, UnackedSteps(a, b, p));
    assert s == AfterPublish(s1, second);
    assert s.commits == map[second.id := second];
    OrphanIncomplete(s.commits, second, first.id);
    RunConcat(w, cfg, INIT, UnackedSteps(a, b, p), [Crash]);
    assert [Crash] == [Crash] + [];
    RunStep(w, cfg, s, Crash, []);
    InitInv(w);
    RunKeepsInv(w, cfg, INIT, UnackedSteps(a, b, p));
    UpAfterCrashIff(w, cfg, s);
  }

  lemma OrphanAccepted(w: World, s1: State, first: Commit, second: Commit)
    requires Injective(w.hash) && WellHashed(w.hash, first) && WellHashed(w.hash, second)
    requires s1.index == map[first.id := []] && second.body.parents == [first.id] && first.body.parents == []
    ensures second.id != first.id && AppendError(s1.index, second.id, second.body.parents).None?
  {
    if second.id == first.id { SameIdSameCommit(w.hash, first, second); }
    NewIdAccepted(s1.index, second.id, second.body.parents);
  }

  lemma OrphanIncomplete(commits: Store, c: Commit, parent: Id)
    requires c.id in commits && commits[c.id] == c && c.body.parents == [parent] && parent !in commits
    ensures !Complete(commits, c.id) && !RowsGrow(commits)
  {
    AncOfParent(Links(commits), c.id, parent);
    AncUnfold(Links(commits), parent, parent);
    assert parent in commits[c.id].body.parents;
  }

  /**
    A delta published with clock 1 and then a checkpoint, whose clock is always 0, in the same slot:
    both are acknowledged and every stored commit replays, yet after a crash the daemon cannot rebuild
    its index.
  */
  lemma CheckpointAfterPublishBlocksRestart(w: World, cfg: Config, a: Body, b: Body, p: Option<Payload>)
    requires Injective(w.hash) && a.parents == [] && b.parents == [] && SlotOf(a) == SlotOf(b)
    requires a.clock == 1 && b.clock == 0
    ensures var events := PublishSteps(0, a, p) + PublishSteps(0, b, p);
            var s := Run(w, cfg, INIT, events);
            && |s.acked| == 2 && (forall id :: id in s.commits ==> Complete(s.commits, id))
            && !Run(w, cfg, INIT, events + [Crash]).up
  {
    var first := CommitFor(w, cfg, INIT, a, p);
    var s1 := AfterPublish(INIT, first);
    var second := CommitFor(w, cfg, s1, b, p);
    TwoPublishes(w, cfg, a, b, p);
    var s2 := AfterPublish(s1, second);
    var events := PublishSteps(0, a, p) + PublishSteps(0, b, p);
    assert s2.acked == {first.id, second.id};
    assert s2.commits == map[first.id := first, second.id := second];
    TwoStored(s2.commits, first, second);
    RunConcat(w, cfg, INIT, events, [Crash]);
    assert [Crash] == [Crash] + [];
    RunStep(w, cfg, s2, Crash, []);
    InitInv(w);
    RunKeepsInv(w, cfg, INIT, events);
    UpAfterCrashIff(w, cfg, s2);
  }

  lemma TwoStored(commits: Store, first: Commit, second: Commit)
    requires first.id != second.id && commits == map[first.id := first, second.id := second]
    requires first.body.parents == [] && second.body.parents == [first.id]
    requires first.body.clock == 1 && second.body.clock == 0
    ensures !RowsGrow(commits) && forall id :: id in commits ==> Complete(commits, id)
  {
    assert commits[first.id] == first && commits[second.id] == second;
    assert first.id in commits[second.id].body.parents && !RowBelow(commits[first.id], commits[second.id]);
    forall id | id in commits ensures Complete(commits, id) {
      ClosedIsComplete(commits, id);
    }
  }
}
