/** What one request can rely on while others run between its steps. */
module Interleaving {
  import opened Graph
  import opened Commits
  import opened Dag
  import opened DeepMerge
  import opened Replay
  import opened Service
  import opened Ledger
  import opened LedgerRuns
  import opened Wrappers

  // ---------------------------------------------------------------- gaps between the steps of a request

  predicate NoCrash(events: seq<Event>) {
    forall i :: 0 <= i < |events| ==> !events[i].Crash?
  }

  /** Whatever happens in `events`, it is neither a crash nor a step of `pid`. */
  predicate Quiet(events: seq<Event>, pid: nat) {
    forall i :: 0 <= i < |events| ==> !events[i].Crash? && events[i].pid != pid
  }

  predicate Extends(g: Graph, h: Graph) {
    forall id :: id in g ==> id in h && h[id] == g[id]
  }

  /** Links that are known stay, and so do stored commits and acknowledgements. */
  ghost predicate Later(s: State, t: State) {
    s.up && t.up && s.acked <= t.acked && Grew(s.commits, t.commits) && Extends(s.index, t.index)
  }

  lemma LaterTrans(s: State, t: State, u: State)
    requires Later(s, t) && Later(t, u)
    ensures Later(s, u)
  {
  }

  lemma WriteExtends(w: World, s: State, pid: nat, c: Commit)
    requires Injective(w.hash) && Inv(w, s) && s.up && PhaseInv(w, s.index.Keys, s.commits.Keys, Checked(c))
    ensures Extends(s.index, Written(s, pid, c).index)
  {
    if c.id in s.index { RewriteChangesNothing(w, s.index, s.origin, c); }
  }

  lemma IndexUntouched(w: World, s: State, pid: nat, p: Phase, e: Event)
    requires !(e.WriteIndex? && p.Checked?)
    ensures Advanced(w, s, pid, p, e).up == s.up && Advanced(w, s, pid, p, e).index == s.index
  {
  }

  lemma AdvanceExtends(w: World, s: State, pid: nat, p: Phase, e: Event)
    requires Injective(w.hash) && Inv(w, s) && s.up && PhaseInv(w, s.index.Keys, s.commits.Keys, p)
    ensures Advanced(w, s, pid, p, e).up && Extends(s.index, Advanced(w, s, pid, p, e).index)
  {
    if e.WriteIndex? && p.Checked? {
      WriteExtends(w, s, pid, p.commit);
    } else {
      IndexUntouched(w, s, pid, p, e);
    }
  }

  lemma StepExtends(w: World, cfg: Config, s: State, e: Event)
    requires Injective(w.hash) && Inv(w, s) && s.up && !e.Crash?
    ensures Next(w, cfg, s, e).up && Extends(s.index, Next(w, cfg, s, e).index)
  {
    if e.pid in s.active { AdvanceExtends(w, s, e.pid, s.active[e.pid], e); }
  }

  lemma StepIsLater(w: World, cfg: Config, s: State, e: Event)
    requires Injective(w.hash) && Inv(w, s) && s.up && !e.Crash?
    ensures Inv(w, Next(w, cfg, s, e)) && Later(s, Next(w, cfg, s, e))
  {
    StepKeepsInv(w, cfg, s, e);
    StepOnlyAdds(w, cfg, s, e);
    StepExtends(w, cfg, s, e);
  }

  lemma {:induction false} RunIsLater(w: World, cfg: Config, s: State, events: seq<Event>)
    requires Injective(w.hash) && Inv(w, s) && s.up && NoCrash(events)
    ensures Inv(w, Run(w, cfg, s, events)) && Later(s, Run(w, cfg, s, events))
    decreases |events|
  {
    if events != [] {
      StepIsLater(w, cfg, s, events[0]);
      var next := Next(w, cfg, s, events[0]);
      RunIsLater(w, cfg, next, events[1..]);
      LaterTrans(s, next, Run(w, cfg, next, events[1..]));
    }
  }

  /** In a run without a crash, a known commit's ancestry never changes. */
  lemma AncestryStaysFixed(w: World, cfg: Config, s: State, events: seq<Event>, id: Id)
    requires Injective(w.hash) && Inv(w, s) && s.up && NoCrash(events) && id in s.index
    ensures Anc(Run(w, cfg, s, events).index, id) == Anc(s.index, id)
  {
    RunIsLater(w, cfg, s, events);
    LaterAncestry(s, Run(w, cfg, s, events), id);
  }

  lemma LaterAncestry(s: State, t: State, id: Id)
    requires Later(s, t) && Closed(s.index) && id in s.index
    ensures Anc(t.index, id) == Anc(s.index, id)
  {
    KnownAncestry(s.index, id);
    AncAgree(s.index, t.index, id);
  }

  lemma AdvanceKeepsOthers(w: World, s: State, mover: nat, p: Phase, e: Event, pid: nat)
    requires mover != pid && pid in s.active
    ensures pid in Advanced(w, s, mover, p, e).active && Advanced(w, s, mover, p, e).active[pid] == s.active[pid]
  {
  }

  /** Request `pid` stands at `p` in a state that the daemon can be in. */
  ghost predicate StandsAt(w: World, s: State, pid: nat, p: Phase) {
    Inv(w, s) && s.up && pid in s.active && s.active[pid] == p
  }

  lemma OthersKeepPhase(w: World, cfg: Config, s: State, e: Event, pid: nat, p: Phase)
    requires Injective(w.hash) && StandsAt(w, s, pid, p) && !e.Crash? && e.pid != pid
    ensures StandsAt(w, Next(w, cfg, s, e), pid, p) && Later(s, Next(w, cfg, s, e))
  {
    StepIsLater(w, cfg, s, e);
    if e.pid in s.active { AdvanceKeepsOthers(w, s, e.pid, s.active[e.pid], e, pid); }
  }

  /** Other requests leave a request where it stands. */
  lemma {:induction false} Gap(w: World, cfg: Config, s: State, pid: nat, p: Phase, events: seq<Event>)
    requires Injective(w.hash) && StandsAt(w, s, pid, p) && Quiet(events, pid)
    ensures var t := Run(w, cfg, s, events); StandsAt(w, t, pid, p) && Later(s, t)
    decreases |events|
  {
    if events != [] {
      var next := Next(w, cfg, s, events[0]);
      OthersKeepPhase(w, cfg, s, events[0], pid, p);
      Gap(w, cfg, next, pid, p, events[1..]);
      LaterTrans(s, next, Run(w, cfg, next, events[1..]));
    }
  }

  /** A request's next step after a gap. */
  ghost function After(w: World, cfg: Config, s: State, gap: seq<Event>, e: Event): State {
    Next(w, cfg, Run(w, cfg, s, gap), e)
  }

  lemma AfterIsRun(w: World, cfg: Config, s: State, gap: seq<Event>, e: Event, rest: seq<Event>)
    ensures Run(w, cfg, s, gap + [e] + rest) == Run(w, cfg, After(w, cfg, s, gap, e), rest)
  {
    assert gap + [e] + rest == gap + ([e] + rest);
    RunConcat(w, cfg, s, gap, [e] + rest);
    RunStep(w, cfg, Run(w, cfg, s, gap), e, rest);
  }

  /** A request that is let in stands at its first phase. */
  lemma StartStep(w: World, cfg: Config, s: State, e: Event, p: Phase)
    requires Injective(w.hash) && Inv(w, s) && s.up && !e.Crash? && e.pid !in s.active
    requires Started(w, cfg, s, e) == Some(p)
    ensures Next(w, cfg, s, e) == To(s, e.pid, p)
    ensures StandsAt(w, To(s, e.pid, p), e.pid, p) && Later(s, To(s, e.pid, p))
  {
    StepIsLater(w, cfg, s, e);
  }

  /** A request's own step, once its effect on its phase is known. */
  lemma OwnStep(w: World, cfg: Config, s: State, pid: nat, p: Phase, e: Event, q: Phase)
    requires Injective(w.hash) && StandsAt(w, s, pid, p) && !e.Crash? && e.pid == pid
    requires pid in Advanced(w, s, pid, p, e).active && Advanced(w, s, pid, p, e).active[pid] == q
    ensures StandsAt(w, Next(w, cfg, s, e), pid, q) && Later(s, Next(w, cfg, s, e))
  {
    StepIsLater(w, cfg, s, e);
    assert Next(w, cfg, s, e) == Advanced(w, s, pid, p, e);
  }

  // ---------------------------------------------------------------- a rollback among other requests

  /**
    After an unforced rollback has started and any other requests have run, its check still holds when
    its head moves: the slot of the head commit it named goes to a stored commit of that commit's past.
  */
  lemma InterleavedRollback(
      w: World, cfg: Config, s: State, pid: nat, head: Id, target: Id, force: bool, gap: seq<Event>)
    requires Injective(w.hash) && Inv(w, s) && s.up && pid !in s.active && Quiet(gap, pid)
    requires Started(w, cfg, s, Rollback(pid, head, target, force)).Some?
    ensures var t := Run(w, cfg, s, [Rollback(pid, head, target, force)] + gap);
            var u := Next(w, cfg, t, MoveHead(pid));
            && t.up && head in t.commits && target in t.commits && (!force ==> target in Anc(t.index, head))
            && u == Done(t, pid).(heads := t.heads[SlotOf(t.commits[head].body) := target])
  {
    var e := Rollback(pid, head, target, force);
    var p := Started(w, cfg, s, e).value;
    var s1 := To(s, pid, p);
    StartStep(w, cfg, s, e, p);
    RunStep(w, cfg, s, e, gap);
    Gap(w, cfg, s1, pid, p, gap);
    IndexHoldsRows(w, s);
    LaterAncestry(s1, Run(w, cfg, s1, gap), head);
  }

  // ---------------------------------------------------------------- a publish among other requests

  /** The index accepts a commit with a content-addressed id exactly when it knows every parent. */
  lemma AcceptedIffParentsKnown(w: World, s: State, c: Commit)
    requires Injective(w.hash) && Inv(w, s) && s.up && WellHashed(w.hash, c)
    ensures AppendError(s.index, c.id, c.body.parents).None? <==> forall m :: m in c.body.parents ==> m in s.index
  {
    ParentsAccepted(s.index, c.id, c.body.parents);
    if c.id !in s.index {
      NewIdAccepted(s.index, c.id, c.body.parents);
    } else {
      RewriteChangesNothing(w, s.index, s.origin, c);
      assert ParentsOf(s.index, c.id) == c.body.parents;
      ReachSelf(s.index, c.id);
    }
  }

  /** The steps of a publish from its check up to its head move, with other requests in the gaps. */
  function UpToMove(pid: nat, a: seq<Event>, b: seq<Event>, c: seq<Event>, d: seq<Event>): seq<Event> {
    a + [Check(pid)] + (b + [WriteIndex(pid)] + (c + [AppendRow(pid)] + d))
  }

  /** And the head move. */
  function FromChecking(pid: nat, a: seq<Event>, b: seq<Event>, c: seq<Event>, d: seq<Event>): seq<Event> {
    UpToMove(pid, a, b, c, d) + [MoveHead(pid)]
  }

  lemma CheckAfterGap(w: World, cfg: Config, s: State, pid: nat, c: Commit, gap: seq<Event>)
    requires Injective(w.hash) && StandsAt(w, s, pid, Checking(c)) && Quiet(gap, pid)
    requires forall m :: m in c.body.parents ==> m in s.index
    ensures var t := After(w, cfg, s, gap, Check(pid)); StandsAt(w, t, pid, Checked(c)) && Later(s, t)
  {
    Gap(w, cfg, s, pid, Checking(c), gap);
    var t := Run(w, cfg, s, gap);
    assert WellHashed(w.hash, c) by {
      assert PhaseInv(w, s.index.Keys, s.commits.Keys, s.active[pid]);
    }
    AcceptedIffParentsKnown(w, t, c);
    OwnStep(w, cfg, t, pid, Checking(c), Check(pid), Checked(c));
    LaterTrans(s, t, After(w, cfg, s, gap, Check(pid)));
  }

  lemma WriteAfterGap(w: World, cfg: Config, s: State, pid: nat, c: Commit, gap: seq<Event>)
    requires Injective(w.hash) && StandsAt(w, s, pid, Checked(c)) && Quiet(gap, pid)
    ensures var t := After(w, cfg, s, gap, WriteIndex(pid)); StandsAt(w, t, pid, Indexed(c)) && Later(s, t)
  {
    Gap(w, cfg, s, pid, Checked(c), gap);
    OwnStep(w, cfg, Run(w, cfg, s, gap), pid, Checked(c), WriteIndex(pid), Indexed(c));
    LaterTrans(s, Run(w, cfg, s, gap), After(w, cfg, s, gap, WriteIndex(pid)));
  }

  lemma AppendAfterGap(w: World, cfg: Config, s: State, pid: nat, c: Commit, gap: seq<Event>)
    requires Injective(w.hash) && StandsAt(w, s, pid, Indexed(c)) && Quiet(gap, pid)
    ensures var t := After(w, cfg, s, gap, AppendRow(pid)); StandsAt(w, t, pid, Stored(c)) && Later(s, t)
  {
    Gap(w, cfg, s, pid, Indexed(c), gap);
    OwnStep(w, cfg, Run(w, cfg, s, gap), pid, Indexed(c), AppendRow(pid), Stored(c));
    LaterTrans(s, Run(w, cfg, s, gap), After(w, cfg, s, gap, AppendRow(pid)));
  }

  /** Whatever other requests do in the gaps, the request comes to its head move. */
  lemma ReachesMove(
      w: World, cfg: Config, s: State, pid: nat, c: Commit,
      g1: seq<Event>, g2: seq<Event>, g3: seq<Event>, g4: seq<Event>)
    requires Injective(w.hash) && StandsAt(w, s, pid, Checking(c))
    requires Quiet(g1, pid) && Quiet(g2, pid) && Quiet(g3, pid) && Quiet(g4, pid)
    requires forall m :: m in c.body.parents ==> m in s.index
    ensures var t := Run(w, cfg, s, UpToMove(pid, g1, g2, g3, g4)); StandsAt(w, t, pid, Stored(c)) && Later(s, t)
  {
    var s1 := After(w, cfg, s, g1, Check(pid));
    var s2 := After(w, cfg, s1, g2, WriteIndex(pid));
    var s3 := After(w, cfg, s2, g3, AppendRow(pid));
    CheckAfterGap(w, cfg, s, pid, c, g1);
    WriteAfterGap(w, cfg, s1, pid, c, g2);
    AppendAfterGap(w, cfg, s2, pid, c, g3);
    Gap(w, cfg, s3, pid, Stored(c), g4);
    LaterTrans(s, s1, s2);
    LaterTrans(s, s2, s3);
    LaterTrans(s, s3, Run(w, cfg, s3, g4));
    var third := g3 + [AppendRow(pid)] + g4;
    AfterIsRun(w, cfg, s, g1, Check(pid), g2 + [WriteIndex(pid)] + third);
    AfterIsRun(w, cfg, s1, g2, WriteIndex(pid), third);
    AfterIsRun(w, cfg, s2, g3, AppendRow(pid), g4);
  }

  /** `c` is stored, acknowledged, and the head of its slot. */
  ghost predicate PublishedIn(w: World, t: State, c: Commit) {
    && Inv(w, t) && t.up && c.id in t.commits && t.commits[c.id] == c
    && c.id in t.acked && SlotOf(c.body) in t.heads && t.heads[SlotOf(c.body)] == c.id
  }

  lemma MoveStep(w: World, cfg: Config, s: State, pid: nat, c: Commit)
    requires Injective(w.hash) && StandsAt(w, s, pid, Stored(c))
    ensures var t := Next(w, cfg, s, MoveHead(pid));
            t == Published(s, pid, c) && PublishedIn(w, t, c) && Later(s, t)
  {
    StepIsLater(w, cfg, s, MoveHead(pid));
    assert Next(w, cfg, s, MoveHead(pid)) == Published(s, pid, c);
    assert PhaseInv(w, s.index.Keys, s.commits.Keys, s.active[pid]);
    SameIdSameCommit(w.hash, c, s.commits[c.id]);
  }

  lemma LastRunStep(w: World, cfg: Config, s: State, events: seq<Event>, e: Event)
    ensures Run(w, cfg, s, events + [e]) == Next(w, cfg, Run(w, cfg, s, events), e)
  {
    RunConcat(w, cfg, s, events, [e]);
    assert [e] == [e] + [];
    RunStep(w, cfg, Run(w, cfg, s, events), e, []);
    RunNothing(w, cfg, Next(w, cfg, Run(w, cfg, s, events), e));
  }

  /**
    A request whose parents the index knows is never refused, whatever other requests do between its
    steps: it ends stored, acknowledged, and head of its slot.
  */
  lemma InterleavedPublish(
      w: World, cfg: Config, s: State, pid: nat, c: Commit,
      g1: seq<Event>, g2: seq<Event>, g3: seq<Event>, g4: seq<Event>)
    requires Injective(w.hash) && StandsAt(w, s, pid, Checking(c))
    requires Quiet(g1, pid) && Quiet(g2, pid) && Quiet(g3, pid) && Quiet(g4, pid)
    requires forall m :: m in c.body.parents ==> m in s.index
    ensures var t := Run(w, cfg, s, FromChecking(pid, g1, g2, g3, g4)); PublishedIn(w, t, c) && Later(s, t)
  {
    var before := UpToMove(pid, g1, g2, g3, g4);
    var t := Run(w, cfg, s, before);
    ReachesMove(w, cfg, s, pid, c, g1, g2, g3, g4);
    LastRunStep(w, cfg, s, before, MoveHead(pid));
    MoveStep(w, cfg, t, pid, c);
    LaterTrans(s, t, Next(w, cfg, t, MoveHead(pid)));
  }

  lemma ResolveAt(w: World, cfg: Config, s: State, pid: nat, d: Body)
    requires Injective(w.hash) && StandsAt(w, s, pid, Resolving(d))
    ensures var c := FromBody(w.hash, d.(parents := ParentsFor(s.heads, d)));
            && Next(w, cfg, s, Resolve(pid)) == To(s, pid, Checking(c))
            && StandsAt(w, To(s, pid, Checking(c)), pid, Checking(c)) && Later(s, To(s, pid, Checking(c)))
  {
    StepIsLater(w, cfg, s, Resolve(pid));
  }

  lemma ImplicitParentsKnown(w: World, s: State, draft: Body)
    requires Inv(w, s) && s.up && draft.parents == []
    ensures forall m :: m in ParentsFor(s.heads, draft) ==> m in s.index
  {
    IndexHoldsRows(w, s);
  }

  // ---------------------------------------------------------------- what a publish stores

  /** `b` is what was asked for: every field of the request, the prepared payload, and these parents. */
  ghost predicate StoresRequest(
      w: World, cfg: Config, b: Body, draft: Body, payload: Option<Payload>, parents: seq<Id>)
  {
    && b.parents == parents
    && b.deltaId == draft.deltaId && b.run == draft.run && b.thread == draft.thread && b.agent == draft.agent
    && b.channel == draft.channel && b.clock == draft.clock && b.seconds == draft.seconds
    && b.objective == draft.objective && b.toolCalls == draft.toolCalls && b.toolResults == draft.toolResults
    && b.sideEffects == draft.sideEffects && b.summary == draft.summary && b.tags == draft.tags && b.rest == draft.rest
    && b.delta == Some(Prepared(w, cfg, payload))
    && b.artifacts == ArtifactRefs(w, cfg, payload) + draft.artifacts
    && b.report == Report(ReportedFindings(w, cfg, payload))
  }

  lemma FilledStoresRequest(w: World, cfg: Config, heads: map<string, Id>, draft: Body, payload: Option<Payload>)
    ensures var key := HeadKey(draft.run, draft.thread, draft.agent, draft.channel);
            var d := Filled(w, cfg, draft, payload);
            && SlotOf(d) == key
            && StoresRequest(w, cfg, d.(parents := ParentsFor(heads, d)), draft, payload,
                 if draft.parents != [] then draft.parents else if key in heads then [heads[key]] else [])
  {
  }

  /** The past of a stored commit is itself and the pasts of its parents, in the index and among the stored links. */
  ghost predicate PastOfParents(t: State, id: Id, parents: seq<Id>) {
    && (forall x :: x in Anc(t.index, id) <==> x == id || exists m :: m in parents && x in Anc(t.index, m))
    && (forall x :: x in Anc(Links(t.commits), id) <==>
         x == id || exists m :: m in parents && x in Anc(Links(t.commits), m))
  }

  lemma PublishedPast(w: World, t: State, c: Commit)
    requires PublishedIn(w, t, c)
    ensures PastOfParents(t, c.id, c.body.parents)
  {
    IndexHoldsRows(w, t);
    forall x ensures x in Anc(t.index, c.id) <==> x == c.id || exists m :: m in c.body.parents && x in Anc(t.index, m) {
      AncUnfold(t.index, c.id, x);
    }
    var g := Links(t.commits);
    forall x ensures x in Anc(g, c.id) <==> x == c.id || exists m :: m in c.body.parents && x in Anc(g, m) {
      AncUnfold(g, c.id, x);
    }
  }

  /**
    From arrival to answer, with other requests in every gap: the head of the request's slot is then a
    stored, acknowledged commit with every field as asked for. Its parents are the named ones as they were
    named, else the head the slot had at the resolve, else none, and its past is that of all of them.
  */
  lemma PublishStoresRequest(
      w: World, cfg: Config, s: State, pid: nat, draft: Body, payload: Option<Payload>,
      g0: seq<Event>, g1: seq<Event>, g2: seq<Event>, g3: seq<Event>, g4: seq<Event>)
    requires Injective(w.hash) && Inv(w, s) && s.up && pid !in s.active
    requires Quiet(g0, pid) && Quiet(g1, pid) && Quiet(g2, pid) && Quiet(g3, pid) && Quiet(g4, pid)
    requires forall m :: m in draft.parents ==> m in s.index
    ensures var s1 := Run(w, cfg, s, [Arrive(pid, draft, payload)] + g0);
            var t := Run(w, cfg, s1, [Resolve(pid)] + FromChecking(pid, g1, g2, g3, g4));
            var key := HeadKey(draft.run, draft.thread, draft.agent, draft.channel);
            var parents := if draft.parents != [] then draft.parents
                           else if key in s1.heads then [s1.heads[key]] else [];
            && key in t.heads && t.heads[key] in t.acked && t.heads[key] in t.commits
            && StoresRequest(w, cfg, t.commits[t.heads[key]].body, draft, payload, parents)
            && PastOfParents(t, t.heads[key], parents)
  {
    var d := Filled(w, cfg, draft, payload);
    var s0 := To(s, pid, Resolving(d));
    StartStep(w, cfg, s, Arrive(pid, draft, payload), Resolving(d));
    RunStep(w, cfg, s, Arrive(pid, draft, payload), g0);
    Gap(w, cfg, s0, pid, Resolving(d), g0);
    var s1 := Run(w, cfg, s0, g0);
    LaterTrans(s, s0, s1);
    ResolvesAndPublishes(w, cfg, s1, pid, d, g1, g2, g3, g4);
    FilledStoresRequest(w, cfg, s1.heads, draft, payload);
    var t := Run(w, cfg, s1, [Resolve(pid)] + FromChecking(pid, g1, g2, g3, g4));
    PublishedPast(w, t, FromBody(w.hash, d.(parents := ParentsFor(s1.heads, d))));
  }

  lemma ResolvesAndPublishes(
      w: World, cfg: Config, s: State, pid: nat, d: Body,
      g1: seq<Event>, g2: seq<Event>, g3: seq<Event>, g4: seq<Event>)
    requires Injective(w.hash) && StandsAt(w, s, pid, Resolving(d))
    requires Quiet(g1, pid) && Quiet(g2, pid) && Quiet(g3, pid) && Quiet(g4, pid)
    requires forall m :: m in d.parents ==> m in s.index
    ensures var c := FromBody(w.hash, d.(parents := ParentsFor(s.heads, d)));
            PublishedIn(w, Run(w, cfg, s, [Resolve(pid)] + FromChecking(pid, g1, g2, g3, g4)), c)
  {
    var c := FromBody(w.hash, d.(parents := ParentsFor(s.heads, d)));
    ResolveAt(w, cfg, s, pid, d);
    RunStep(w, cfg, s, Resolve(pid), FromChecking(pid, g1, g2, g3, g4));
    if d.parents == [] { ImplicitParentsKnown(w, s, d); }
    InterleavedPublish(w, cfg, To(s, pid, Checking(c)), pid, c, g1, g2, g3, g4);
  }

  // ---------------------------------------------------------------- a slot that nobody else moves

  /** Event `e` moves the head of `slot`. */
  ghost predicate Moves(s: State, e: Event, slot: string) {
    && s.up && e.MoveHead? && e.pid in s.active
    && (s.active[e.pid].Stored? || s.active[e.pid].MovingHead?) && SlotMoved(s.active[e.pid]) == slot
  }

  /** No event of the list moves the head of `slot`. */
  ghost predicate LeavesSlot(w: World, cfg: Config, s: State, events: seq<Event>, slot: string)
    decreases |events|
  {
    events == [] || (!Moves(s, events[0], slot) && LeavesSlot(w, cfg, Next(w, cfg, s, events[0]), events[1..], slot))
  }

  /** The head of a slot, or none. */
  function HeadAt(s: State, slot: string): Option<Id> {
    if slot in s.heads then Some(s.heads[slot]) else None
  }

  lemma HeadUnmoved(w: World, cfg: Config, s: State, e: Event, slot: string)
    requires !Moves(s, e, slot)
    ensures HeadAt(Next(w, cfg, s, e), slot) == HeadAt(s, slot)
  {
    var next := Next(w, cfg, s, e);
    if next.heads != s.heads {
      OneHeadMoves(w, cfg, s, e);
      var moved := SlotMoved(s.active[e.pid]);
      assert moved != slot;
      SameBut(s.heads, next.heads, moved, slot);
    }
  }

  lemma SameBut(a: map<string, Id>, b: map<string, Id>, moved: string, slot: string)
    requires a - {moved} == b - {moved} && slot != moved
    ensures slot in a <==> slot in b
    ensures slot in a ==> a[slot] == b[slot]
  {
    assert slot in a <==> slot in a - {moved};
    assert slot in b <==> slot in b - {moved};
    assert slot in a ==> (a - {moved})[slot] == a[slot];
    assert slot in b ==> (b - {moved})[slot] == b[slot];
  }

  lemma {:induction false} HeadStays(w: World, cfg: Config, s: State, events: seq<Event>, slot: string)
    requires LeavesSlot(w, cfg, s, events, slot)
    ensures HeadAt(Run(w, cfg, s, events), slot) == HeadAt(s, slot)
    decreases |events|
  {
    if events != [] {
      HeadUnmoved(w, cfg, s, events[0], slot);
      HeadStays(w, cfg, Next(w, cfg, s, events[0]), events[1..], slot);
    }
  }

  // ---------------------------------------------------------------- fork, then continue, among other requests

  /**
    A request without explicit parents resolves them while its slot stands at `source`, as a fork leaves
    it. Whatever other requests do between its steps, its commit is stored on top of `source`, heads the
    slot, has the source's ancestry followed by itself, and, if it sorts below none of them, replays to
    the source's state merged with its own delta.
  */
  lemma InterleavedContinuation(
      w: World, cfg: Config, s: State, pid: nat, draft: Body, source: Id,
      g1: seq<Event>, g2: seq<Event>, g3: seq<Event>, g4: seq<Event>)
    requires Injective(w.hash) && StandsAt(w, s, pid, Resolving(draft)) && draft.parents == []
    requires SlotOf(draft) in s.heads && s.heads[SlotOf(draft)] == source && Complete(s.commits, source)
    requires Quiet(g1, pid) && Quiet(g2, pid) && Quiet(g3, pid) && Quiet(g4, pid)
    ensures var c := FromBody(w.hash, draft.(parents := [source]));
            var t := Run(w, cfg, s, [Resolve(pid)] + FromChecking(pid, g1, g2, g3, g4));
            && PublishedIn(w, t, c) && Complete(t.commits, c.id)
            && Ancestry(Links(t.commits), c.id) == Ancestry(Links(s.commits), source) + [c.id]
            && (SortsLast(s.commits, source, c) ==>
                 Replayed(t.commits, c.id).state == Merge(Replayed(s.commits, source).state, DeltaOf(c)))
  {
    var c := FromBody(w.hash, draft.(parents := [source]));
    var rest := FromChecking(pid, g1, g2, g3, g4);
    var s1 := To(s, pid, Checking(c));
    ResolveAt(w, cfg, s, pid, draft);
    RunStep(w, cfg, s, Resolve(pid), rest);
    ImplicitParentsKnown(w, s, draft);
    InterleavedPublish(w, cfg, s1, pid, c, g1, g2, g3, g4);
    var t := Run(w, cfg, s1, rest);
    LaterTrans(s, s1, t);
    RowsOf(w, s);
    RowsOf(w, t);
    ContinuedReplay(s.commits, t.commits, c, source);
  }

  /** A fork, other requests, its head move, and more requests that leave the new slot alone. */
  lemma InterleavedFork(
      w: World, cfg: Config, s: State, pid: nat, source: Id, run: string, gap: seq<Event>, more: seq<Event>)
    requires Injective(w.hash) && Inv(w, s) && s.up && pid !in s.active && source in s.commits
    requires Quiet(gap, pid) && NoCrash(more)
    requires var b := s.commits[source].body;
             LeavesSlot(w, cfg, Run(w, cfg, s, [Fork(pid, source, run)] + gap + [MoveHead(pid)]), more,
                        HeadKey(run, b.thread, b.agent, b.channel))
    ensures var b := s.commits[source].body;
            var slot := HeadKey(run, b.thread, b.agent, b.channel);
            var t := Run(w, cfg, s, [Fork(pid, source, run)] + gap + [MoveHead(pid)] + more);
            Inv(w, t) && Later(s, t) && slot in t.heads && t.heads[slot] == source
  {
    var e, b := Fork(pid, source, run), s.commits[source].body;
    var slot := HeadKey(run, b.thread, b.agent, b.channel);
    var s1 := To(s, pid, MovingHead(slot, source));
    assert s.commits[source].id == source;
    StartStep(w, cfg, s, e, MovingHead(slot, source));
    HeadMoveAfterGap(w, cfg, s1, pid, slot, source, gap);
    var s2 := After(w, cfg, s1, gap, MoveHead(pid));
    ForkRun(w, cfg, s, e, gap, MoveHead(pid), more);
    RunIsLater(w, cfg, s2, more);
    HeadStays(w, cfg, s2, more, slot);
    LaterTrans(s, s1, s2);
    LaterTrans(s, s2, Run(w, cfg, s2, more));
  }

  lemma HeadMoveAfterGap(w: World, cfg: Config, s: State, pid: nat, slot: string, target: Id, gap: seq<Event>)
    requires Injective(w.hash) && StandsAt(w, s, pid, MovingHead(slot, target)) && Quiet(gap, pid)
    ensures var t := After(w, cfg, s, gap, MoveHead(pid));
            Inv(w, t) && Later(s, t) && t.heads == Run(w, cfg, s, gap).heads[slot := target]
  {
    Gap(w, cfg, s, pid, MovingHead(slot, target), gap);
    var t := Run(w, cfg, s, gap);
    StepIsLater(w, cfg, t, MoveHead(pid));
    assert After(w, cfg, s, gap, MoveHead(pid)) == HeadMoved(t, pid, slot, target);
    LaterTrans(s, t, HeadMoved(t, pid, slot, target));
  }

  lemma ForkRun(w: World, cfg: Config, s: State, e: Event, gap: seq<Event>, f: Event, more: seq<Event>)
    ensures Run(w, cfg, s, [e] + gap + [f]) == After(w, cfg, Next(w, cfg, s, e), gap, f)
    ensures Run(w, cfg, s, [e] + gap + [f] + more) == Run(w, cfg, After(w, cfg, Next(w, cfg, s, e), gap, f), more)
  {
    var s1 := Next(w, cfg, s, e);
    assert [e] + gap + [f] == [e] + (gap + [f] + []);
    RunStep(w, cfg, s, e, gap + [f] + []);
    AfterIsRun(w, cfg, s1, gap, f, []);
    RunNothing(w, cfg, After(w, cfg, s1, gap, f));
    RunConcat(w, cfg, s, [e] + gap + [f], more);
  }

  // ---------------------------------------------------------------- two publishes into one slot

  /**
    When a publish moves its slot's head, the head it replaces stays in the new head's past exactly when
    it is the new commit itself or in the past of one of its parents.
  */
  lemma HeadKeptIff(w: World, cfg: Config, s: State, pid: nat, c: Commit)
    requires Injective(w.hash) && StandsAt(w, s, pid, Stored(c)) && SlotOf(c.body) in s.heads
    ensures var t := Next(w, cfg, s, MoveHead(pid));
            var replaced := s.heads[SlotOf(c.body)];
            && t.heads[SlotOf(c.body)] == c.id
            && (replaced in Anc(t.index, c.id) <==>
                 replaced == c.id || exists m :: m in c.body.parents && replaced in Anc(s.index, m))
  {
    MoveStep(w, cfg, s, pid, c);
    IndexHoldsRows(w, s);
    StoredBack(w, s, pid, c);
    AncUnfold(s.index, c.id, s.heads[SlotOf(c.body)]);
  }

  lemma StoredBack(w: World, s: State, pid: nat, c: Commit)
    requires Injective(w.hash) && StandsAt(w, s, pid, Stored(c))
    ensures c.id in s.commits && s.commits[c.id] == c
  {
    assert PhaseInv(w, s.index.Keys, s.commits.Keys, s.active[pid]);
    SameIdSameCommit(w.hash, c, s.commits[c.id]);
  }

  /**
    From resolve to head move, for a request without explicit parents: the replaced head stays in the new
    head's past exactly when it is the new commit or was in the past of the head it resolved. If nobody
    else moves the slot in between, the replaced head is the resolved one, so it is kept; if the slot had
    no head at the resolve, any other commit that was made its head in between is lost.
  */
  lemma HeadKeptOverRun(
      w: World, cfg: Config, s: State, pid: nat, draft: Body,
      g1: seq<Event>, g2: seq<Event>, g3: seq<Event>, g4: seq<Event>)
    requires Injective(w.hash) && StandsAt(w, s, pid, Resolving(draft)) && draft.parents == []
    requires Quiet(g1, pid) && Quiet(g2, pid) && Quiet(g3, pid) && Quiet(g4, pid)
    ensures var slot, c := SlotOf(draft), ResolvedIn(w, s, draft);
            var s1 := Next(w, cfg, s, Resolve(pid));
            var before := UpToMove(pid, g1, g2, g3, g4);
            var t := Run(w, cfg, s1, before);
            var u := Run(w, cfg, s, [Resolve(pid)] + (before + [MoveHead(pid)]));
            && HeadAt(u, slot) == Some(c.id)
            && (slot in t.heads ==>
                 (t.heads[slot] in Anc(u.index, c.id) <==>
                   t.heads[slot] == c.id || (slot in s.heads && t.heads[slot] in Anc(s.index, s.heads[slot]))))
            && (LeavesSlot(w, cfg, s1, before, slot) ==>
                 HeadAt(t, slot) == HeadAt(s, slot) && (slot in s.heads ==> s.heads[slot] in Anc(u.index, c.id)))
  {
    var slot, c := SlotOf(draft), ResolvedIn(w, s, draft);
    var s1 := Next(w, cfg, s, Resolve(pid));
    var before := UpToMove(pid, g1, g2, g3, g4);
    var t := Run(w, cfg, s1, before);
    ResolvesAndReachesMove(w, cfg, s, pid, draft, g1, g2, g3, g4);
    MoveStep(w, cfg, t, pid, c);
    if LeavesSlot(w, cfg, s1, before, slot) { HeadStays(w, cfg, s1, before, slot); }
    if slot in t.heads {
      HeadKeptIff(w, cfg, t, pid, c);
      PastOfResolved(w, s, t, draft, t.heads[slot]);
    }
  }

  lemma ResolvesAndReachesMove(
      w: World, cfg: Config, s: State, pid: nat, draft: Body,
      g1: seq<Event>, g2: seq<Event>, g3: seq<Event>, g4: seq<Event>)
    requires Injective(w.hash) && StandsAt(w, s, pid, Resolving(draft)) && draft.parents == []
    requires Quiet(g1, pid) && Quiet(g2, pid) && Quiet(g3, pid) && Quiet(g4, pid)
    ensures var s1 := Next(w, cfg, s, Resolve(pid));
            var before := UpToMove(pid, g1, g2, g3, g4);
            var t := Run(w, cfg, s1, before);
            && s1.heads == s.heads && StandsAt(w, t, pid, Stored(ResolvedIn(w, s, draft))) && Later(s, t)
            && Run(w, cfg, s, [Resolve(pid)] + (before + [MoveHead(pid)])) == Next(w, cfg, t, MoveHead(pid))
  {
    var c := ResolvedIn(w, s, draft);
    var s1 := To(s, pid, Checking(c));
    var before := UpToMove(pid, g1, g2, g3, g4);
    ResolveAt(w, cfg, s, pid, draft);
    ImplicitParentsKnown(w, s, draft);
    ReachesMove(w, cfg, s1, pid, c, g1, g2, g3, g4);
    RunStep(w, cfg, s, Resolve(pid), before + [MoveHead(pid)]);
    LastRunStep(w, cfg, s1, before, MoveHead(pid));
    LaterTrans(s, s1, Run(w, cfg, s1, before));
  }

  /** The past of the parents, in terms of the head that was resolved. */
  lemma PastOfResolved(w: World, s: State, t: State, draft: Body, x: Id)
    requires Inv(w, s) && Later(s, t) && draft.parents == []
    ensures var slot, ps := SlotOf(draft), ParentsFor(s.heads, draft);
            (exists m :: m in ps && x in Anc(t.index, m)) <==> slot in s.heads && x in Anc(s.index, s.heads[slot])
    ensures SlotOf(draft) in s.heads ==> s.heads[SlotOf(draft)] in Anc(s.index, s.heads[SlotOf(draft)])
  {
    var slot, ps := SlotOf(draft), ParentsFor(s.heads, draft);
    if slot in s.heads {
      IndexHoldsRows(w, s);
      LaterAncestry(s, t, s.heads[slot]);
      AncUnfold(s.index, s.heads[slot], s.heads[slot]);
      assert ps[0] == s.heads[slot];
    }
  }

  /** The commit that a request makes when it resolves its parents in `s`. */
  function ResolvedIn(w: World, s: State, draft: Body): Commit {
    FromBody(w.hash, draft.(parents := ParentsFor(s.heads, draft)))
  }

  lemma QuietJoin(a: seq<Event>, b: seq<Event>, pid: nat)
    requires Quiet(a, pid) && Quiet(b, pid)
    ensures Quiet(a + b, pid)
  {
  }

  lemma StepIsQuiet(e: Event, pid: nat)
    requires !e.Crash? && e.pid != pid
    ensures Quiet([e], pid)
  {
  }

  /** One request's steps are a gap between another's, if nothing else in between is the other's. */
  lemma FromCheckingIsQuiet(
      pid: nat, other: nat, g1: seq<Event>, g2: seq<Event>, g3: seq<Event>, g4: seq<Event>)
    requires pid != other && Quiet(g1, other) && Quiet(g2, other) && Quiet(g3, other) && Quiet(g4, other)
    ensures Quiet(FromChecking(pid, g1, g2, g3, g4), other)
  {
    StepIsQuiet(Check(pid), other);
    StepIsQuiet(WriteIndex(pid), other);
    StepIsQuiet(AppendRow(pid), other);
    StepIsQuiet(MoveHead(pid), other);
    var third := g3 + [AppendRow(pid)] + g4;
    var second := g2 + [WriteIndex(pid)] + third;
    QuietJoin(g3, [AppendRow(pid)], other);
    QuietJoin(g3 + [AppendRow(pid)], g4, other);
    QuietJoin(g2, [WriteIndex(pid)], other);
    QuietJoin(g2 + [WriteIndex(pid)], third, other);
    QuietJoin(g1, [Check(pid)], other);
    QuietJoin(g1 + [Check(pid)], second, other);
    QuietJoin(UpToMove(pid, g1, g2, g3, g4), [MoveHead(pid)], other);
  }

  /** Both requests resolve before either moves the head. */
  lemma BothResolve(w: World, cfg: Config, s: State, p: nat, a: Body, q: nat, b: Body)
    requires Injective(w.hash) && p != q && StandsAt(w, s, p, Resolving(a)) && StandsAt(w, s, q, Resolving(b))
    ensures var t := Next(w, cfg, Next(w, cfg, s, Resolve(p)), Resolve(q));
            && StandsAt(w, t, p, Checking(ResolvedIn(w, s, a))) && StandsAt(w, t, q, Checking(ResolvedIn(w, s, b)))
            && Later(s, t)
  {
    var s1 := To(s, p, Checking(ResolvedIn(w, s, a)));
    var s2 := To(s1, q, Checking(ResolvedIn(w, s, b)));
    ResolveAt(w, cfg, s, p, a);
    assert StandsAt(w, s1, q, Resolving(b));
    ResolveAt(w, cfg, s1, q, b);
    LaterTrans(s, s1, s2);
  }

  /** Two requests that have both resolved their parents finish one after the other. */
  lemma BothFinish(
      w: World, cfg: Config, s: State, p: nat, ca: Commit, q: nat, cb: Commit, first: seq<Event>,
      h1: seq<Event>, h2: seq<Event>, h3: seq<Event>, h4: seq<Event>)
    requires Injective(w.hash) && StandsAt(w, s, q, Checking(cb)) && Quiet(first, q)
    requires PublishedIn(w, Run(w, cfg, s, first), ca)
    requires Quiet(h1, q) && Quiet(h2, q) && Quiet(h3, q) && Quiet(h4, q)
    requires forall m :: m in cb.body.parents ==> m in s.index
    ensures var t := Run(w, cfg, s, first + FromChecking(q, h1, h2, h3, h4));
            PublishedIn(w, t, cb) && ca.id in t.acked && Later(s, t)
  {
    var s1 := Run(w, cfg, s, first);
    var second := FromChecking(q, h1, h2, h3, h4);
    Gap(w, cfg, s, q, Checking(cb), first);
    InterleavedPublish(w, cfg, s1, q, cb, h1, h2, h3, h4);
    RunConcat(w, cfg, s, first, second);
    LaterTrans(s, s1, Run(w, cfg, s1, second));
  }

  lemma NotBelow(g: Graph, h: Graph, id: Id, ps: seq<Id>, x: Id)
    requires Closed(g) && Extends(g, h) && id in h && h[id] == ps && (forall m :: m in ps ==> m in g)
    requires x !in g && x != id
    ensures x !in Anc(h, id)
  {
    AncUnfold(h, id, x);
    forall m | m in ps ensures x !in Anc(h, m) {
      KnownAncestry(g, m);
      AncAgree(g, h, m);
    }
  }

  lemma LastIsNotAbove(w: World, before: Graph, t: State, first: Id, c: Commit)
    requires PublishedIn(w, t, c) && Closed(before) && Extends(before, t.index)
    requires (forall m :: m in c.body.parents ==> m in before) && first !in before && first != c.id
    ensures first !in Anc(t.index, c.id)
  {
    IndexHoldsRows(w, t);
    NotBelow(before, t.index, c.id, c.body.parents, first);
  }

  /**
    Two publishes without explicit parents into one slot that both resolve before either moves its head
    are both acknowledged, whatever other requests do in between, and the first new commit is not in the
    past of the slot's final head.
  */
  lemma LostUpdate(
      w: World, cfg: Config, s: State, p: nat, a: Body, q: nat, b: Body,
      g1: seq<Event>, g2: seq<Event>, g3: seq<Event>, g4: seq<Event>,
      h1: seq<Event>, h2: seq<Event>, h3: seq<Event>, h4: seq<Event>)
    requires Injective(w.hash) && p != q && StandsAt(w, s, p, Resolving(a)) && StandsAt(w, s, q, Resolving(b))
    requires a.parents == [] && b.parents == [] && SlotOf(a) == SlotOf(b)
    requires ResolvedIn(w, s, a).id !in s.index && ResolvedIn(w, s, a).id != ResolvedIn(w, s, b).id
    requires Quiet(g1, p) && Quiet(g2, p) && Quiet(g3, p) && Quiet(g4, p)
    requires Quiet(g1, q) && Quiet(g2, q) && Quiet(g3, q) && Quiet(g4, q)
    requires Quiet(h1, q) && Quiet(h2, q) && Quiet(h3, q) && Quiet(h4, q)
    ensures var first, second := ResolvedIn(w, s, a).id, ResolvedIn(w, s, b).id;
            var finish := FromChecking(p, g1, g2, g3, g4) + FromChecking(q, h1, h2, h3, h4);
            var t := Run(w, cfg, s, [Resolve(p)] + ([Resolve(q)] + finish));
            && first in t.acked && second in t.acked
            && SlotOf(a) in t.heads && t.heads[SlotOf(a)] == second && first !in Anc(t.index, second)
  {
    var ca, cb := ResolvedIn(w, s, a), ResolvedIn(w, s, b);
    var s2 := Next(w, cfg, Next(w, cfg, s, Resolve(p)), Resolve(q));
    var first := FromChecking(p, g1, g2, g3, g4);
    var finish := first + FromChecking(q, h1, h2, h3, h4);
    RunStep(w, cfg, s, Resolve(p), [Resolve(q)] + finish);
    RunStep(w, cfg, Next(w, cfg, s, Resolve(p)), Resolve(q), finish);
    BothResolve(w, cfg, s, p, a, q, b);
    ImplicitParentsKnown(w, s, a);
    ImplicitParentsKnown(w, s, b);
    FromCheckingIsQuiet(p, q, g1, g2, g3, g4);
    InterleavedPublish(w, cfg, s2, p, ca, g1, g2, g3, g4);
    BothFinish(w, cfg, s2, p, ca, q, cb, first, h1, h2, h3, h4);
    LaterTrans(s, s2, Run(w, cfg, s2, finish));
    LastIsNotAbove(w, s.index, Run(w, cfg, s2, finish), ca.id, cb);
  }

  /** Such a state is two arrivals away: one slot, two different bodies. */
  lemma RaceIsReachable(w: World, cfg: Config, a: Body, pa: Option<Payload>, b: Body, pb: Option<Payload>)
    requires Injective(w.hash) && a.parents == [] && b.parents == [] && SlotOf(a) == SlotOf(b)
    requires Filled(w, cfg, a, pa) != Filled(w, cfg, b, pb)
    ensures var s := Run(w, cfg, INIT, [Arrive(0, a, pa), Arrive(1, b, pb)]);
            var da, db := Filled(w, cfg, a, pa), Filled(w, cfg, b, pb);
            && StandsAt(w, s, 0, Resolving(da)) && StandsAt(w, s, 1, Resolving(db))
            && ResolvedIn(w, s, da).id !in s.index && ResolvedIn(w, s, da).id != ResolvedIn(w, s, db).id
  {
    var da, db := Filled(w, cfg, a, pa), Filled(w, cfg, b, pb);
    var s1 := To(INIT, 0, Resolving(da));
    var s2 := To(s1, 1, Resolving(db));
    InitInv(w);
    StartStep(w, cfg, INIT, Arrive(0, a, pa), Resolving(da));
    StartStep(w, cfg, s1, Arrive(1, b, pb), Resolving(db));
    RunStep(w, cfg, INIT, Arrive(0, a, pa), [Arrive(1, b, pb)] + []);
    RunStep(w, cfg, s1, Arrive(1, b, pb), []);
    assert [Arrive(0, a, pa), Arrive(1, b, pb)] == [Arrive(0, a, pa)] + ([Arrive(1, b, pb)] + []);
    RunNothing(w, cfg, s2);
    var ca, cb := ResolvedIn(w, s2, da), ResolvedIn(w, s2, db);
    if ca.id == cb.id { SameIdSameCommit(w.hash, ca, cb); }
  }
}
