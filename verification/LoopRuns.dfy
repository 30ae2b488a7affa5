/** When the loop detector can see a repetition at all: fingerprints over runs of the ledger. */
module LoopRuns {
  import opened Graph
  import opened Commits
  import opened Service
  import opened Ledger
  import opened LedgerRuns
  import opened Interleaving
  import opened LoopDetector
  import opened LoopCounts
  import opened Wrappers

  // ---------------------------------------------------------------- heads that only move forward

  /** `c` is known and lies in the past of its slot's head. */
  ghost predicate Above(s: State, slot: string, c: Commit) {
    && c.id in s.index && s.index[c.id] == c.body.parents
    && slot in s.heads && c.id in Anc(s.index, s.heads[slot])
  }

  ghost predicate Forward(s: State, next: State, slot: string) {
    slot in s.heads && slot in next.heads ==> s.heads[slot] in Anc(next.index, next.heads[slot])
  }

  /** Every move of the slot's head leaves the replaced head in the new head's past. */
  ghost predicate MovesForward(w: World, cfg: Config, s: State, events: seq<Event>, slot: string)
    decreases |events|
  {
    events == [] ||
    (var next := Next(w, cfg, s, events[0]);
     Forward(s, next, slot) && MovesForward(w, cfg, next, events[1..], slot))
  }

  lemma HeadsRemain(w: World, cfg: Config, s: State, e: Event, slot: string)
    requires slot in s.heads && !e.Crash?
    ensures slot in Next(w, cfg, s, e).heads
  {
  }

  lemma StepKeepsAbove(w: World, s: State, next: State, slot: string, c: Commit)
    requires Inv(w, s) && Later(s, next) && Above(s, slot, c)
    requires slot in next.heads && Forward(s, next, slot)
    ensures Above(next, slot, c)
  {
    IndexHoldsRows(w, s);
    LaterAncestry(s, next, s.heads[slot]);
    AncOfAnc(next.index, next.heads[slot], s.heads[slot]);
  }

  lemma NextKeepsAbove(w: World, cfg: Config, s: State, e: Event, slot: string, c: Commit)
    requires Injective(w.hash) && Inv(w, s) && s.up && !e.Crash? && Above(s, slot, c)
    requires Forward(s, Next(w, cfg, s, e), slot)
    ensures Inv(w, Next(w, cfg, s, e)) && Next(w, cfg, s, e).up && Above(Next(w, cfg, s, e), slot, c)
  {
    StepIsLater(w, cfg, s, e);
    HeadsRemain(w, cfg, s, e, slot);
    StepKeepsAbove(w, s, Next(w, cfg, s, e), slot, c);
  }

  lemma ForwardRest(w: World, cfg: Config, s: State, events: seq<Event>, slot: string)
    requires events != [] && NoCrash(events) && MovesForward(w, cfg, s, events, slot)
    ensures !events[0].Crash? && Forward(s, Next(w, cfg, s, events[0]), slot)
    ensures NoCrash(events[1..]) && MovesForward(w, cfg, Next(w, cfg, s, events[0]), events[1..], slot)
  {
  }

  lemma {:induction false} RunKeepsAbove(
      w: World, cfg: Config, s: State, events: seq<Event>, slot: string, c: Commit)
    requires Injective(w.hash) && Inv(w, s) && s.up && NoCrash(events) && Above(s, slot, c)
    requires MovesForward(w, cfg, s, events, slot)
    ensures Above(Run(w, cfg, s, events), slot, c)
    decreases |events|
  {
    if events != [] {
      var next, rest := Next(w, cfg, s, events[0]), events[1..];
      ForwardRest(w, cfg, s, events, slot);
      NextKeepsAbove(w, cfg, s, events[0], slot, c);
      RunKeepsAbove(w, cfg, next, rest, slot, c);
      assert Run(w, cfg, s, events) == Run(w, cfg, next, rest);
    }
  }

  /** The head of a slot is not a parent of anything in its past. */
  lemma HeadIsNoParent(w: World, s: State, slot: string, c: Commit)
    requires Inv(w, s) && s.up && Above(s, slot, c)
    ensures s.heads[slot] !in c.body.parents
  {
    forall m | m in c.body.parents ensures c.id !in Anc(s.index, m) {
      AncOfParent(s.index, c.id, m);
    }
  }

  lemma PublishKeepsAbove(s: State, t: State, slot: string, c: Commit, d: Commit)
    requires Above(s, slot, c) && Closed(s.index) && Later(s, t) && s.heads[slot] in s.index
    requires d.body.parents == [s.heads[slot]] && d.id in t.index && t.index[d.id] == d.body.parents
    requires slot in t.heads && t.heads[slot] == d.id
    ensures Above(t, slot, c)
  {
    LaterAncestry(s, t, s.heads[slot]);
    AncUnfold(t.index, d.id, c.id);
    assert d.body.parents[0] == s.heads[slot];
  }

  // ---------------------------------------------------------------- fingerprints of one slot

  lemma KnownIdsArePlain(w: World, s: State)
    requires Hexadecimal(w.hash) && Inv(w, s) && s.up
    ensures forall id :: id in s.index ==> Plain(id)
  {
    forall id | id in s.index ensures Plain(id) {
      var b := s.origin[id].body;
      assert id == "c_" + w.hash(b);
      forall i | 0 <= i < |id| ensures id[i] != '|' && id[i] != ',' {
        if i >= 2 { assert id[i] == w.hash(b)[i - 2]; }
      }
    }
  }

  /** A request that resolves its parents from a slot gets other parents than any commit below its head. */
  lemma ResolvesAfresh(w: World, s: State, c: Commit, draft: Body)
    requires Inv(w, s) && s.up && Above(s, SlotOf(draft), c) && draft.parents == []
    ensures ResolvedIn(w, s, draft).body.parents != c.body.parents
    ensures forall m :: m in ResolvedIn(w, s, draft).body.parents || m in c.body.parents ==> m in s.index
  {
    var d := ResolvedIn(w, s, draft);
    assert d.body.parents == [s.heads[SlotOf(draft)]];
    assert d.body.parents[0] == s.heads[SlotOf(draft)];
    HeadIsNoParent(w, s, SlotOf(draft), c);
    IndexHoldsRows(w, s);
  }

  lemma OtherParentsOtherFingerprint(w: World, s: State, c: Commit, d: Commit, digest: string -> string)
    requires Hexadecimal(w.hash) && TellsApart(digest) && Inv(w, s) && s.up
    requires forall m :: m in d.body.parents || m in c.body.parents ==> m in s.index
    requires d.body.parents != c.body.parents
    ensures Fingerprint(digest, d) != Fingerprint(digest, c)
  {
    KnownIdsArePlain(w, s);
    if Fingerprint(digest, d) == Fingerprint(digest, c) {
      SameFingerprintSameParents(digest, d, c);
    }
  }

  /**
    Once a commit heads its slot, no later request that resolves its parents there repeats its
    fingerprint, whatever other requests run, unless a head move in between left its replaced head behind.
  */
  lemma RepeatNeedsHeadMovedBack(
      w: World, cfg: Config, s: State, events: seq<Event>, c: Commit, draft: Body, digest: string -> string)
    requires Injective(w.hash) && Hexadecimal(w.hash) && TellsApart(digest)
    requires PublishedIn(w, s, c) && NoCrash(events) && draft.parents == [] && SlotOf(draft) == SlotOf(c.body)
    ensures MovesForward(w, cfg, s, events, SlotOf(draft)) ==>
      Fingerprint(digest, ResolvedIn(w, Run(w, cfg, s, events), draft)) != Fingerprint(digest, c)
  {
    if MovesForward(w, cfg, s, events, SlotOf(draft)) {
      var t := Run(w, cfg, s, events);
      IndexHoldsRows(w, s);
      AncUnfold(s.index, c.id, c.id);
      RunKeepsAbove(w, cfg, s, events, SlotOf(draft), c);
      RunIsLater(w, cfg, s, events);
      ResolvesAfresh(w, t, c, draft);
      OtherParentsOtherFingerprint(w, t, c, ResolvedIn(w, t, draft), digest);
    }
  }

  // ---------------------------------------------------------------- one slot, one publish after the other

  /** A request of a chain: its fields, and its payload. */
  datatype Request = Request(draft: Body, payload: Option<Payload>)

  /** Each request names no parents and goes to the slot. */
  predicate AllInSlot(requests: seq<Request>, slot: string) {
    forall i :: 0 <= i < |requests| ==> requests[i].draft.parents == [] && SlotOf(requests[i].draft) == slot
  }

  /** The commits of requests that run one after the other. */
  ghost function ChainOf(w: World, cfg: Config, s: State, requests: seq<Request>): seq<Commit>
    decreases |requests|
  {
    if requests == [] then []
    else
      var c := CommitFor(w, cfg, s, requests[0].draft, requests[0].payload);
      [c] + ChainOf(w, cfg, AfterPublish(s, c), requests[1..])
  }

  function ChainSteps(pid: nat, requests: seq<Request>): seq<Event> {
    if requests == [] then []
    else PublishSteps(pid, requests[0].draft, requests[0].payload) + ChainSteps(pid, requests[1..])
  }

  ghost function AfterChain(w: World, cfg: Config, s: State, requests: seq<Request>): State
    decreases |requests|
  {
    if requests == [] then s
    else
      AfterChain(w, cfg, AfterPublish(s, CommitFor(w, cfg, s, requests[0].draft, requests[0].payload)), requests[1..])
  }

  /** One link of the chain: it is accepted, and becomes the head. */
  lemma ChainLink(w: World, cfg: Config, s: State, pid: nat, r: Request)
    requires Injective(w.hash) && Inv(w, s) && s.up && pid !in s.active && r.draft.parents == []
    ensures var c := CommitFor(w, cfg, s, r.draft, r.payload);
            var t := AfterPublish(s, c);
            && Run(w, cfg, s, PublishSteps(pid, r.draft, r.payload)) == t && Inv(w, t) && Later(s, t)
            && c.body.parents == ParentsFor(s.heads, r.draft)
            && c.id in t.index && t.index[c.id] == c.body.parents && t.heads[SlotOf(r.draft)] == c.id
  {
    var c := CommitFor(w, cfg, s, r.draft, r.payload);
    var steps := PublishSteps(pid, r.draft, r.payload);
    ImplicitParentsKnown(w, s, r.draft);
    AcceptedIffParentsKnown(w, s, c);
    UninterruptedPublish(w, cfg, s, pid, r.draft, r.payload);
    assert NoCrash(steps);
    RunIsLater(w, cfg, s, steps);
  }

  /** The steps do run to the end of the chain. */
  lemma {:induction false} ChainRuns(w: World, cfg: Config, s: State, pid: nat, requests: seq<Request>, slot: string)
    requires Injective(w.hash) && Inv(w, s) && s.up && pid !in s.active && AllInSlot(requests, slot)
    ensures Run(w, cfg, s, ChainSteps(pid, requests)) == AfterChain(w, cfg, s, requests)
    decreases |requests|
  {
    if requests != [] {
      var r := requests[0];
      ChainLink(w, cfg, s, pid, r);
      var t := AfterPublish(s, CommitFor(w, cfg, s, r.draft, r.payload));
      RunConcat(w, cfg, s, PublishSteps(pid, r.draft, r.payload), ChainSteps(pid, requests[1..]));
      ChainRuns(w, cfg, t, pid, requests[1..], slot);
    }
  }

  /** A commit with other parents than `c`, whose parents the index knows, as it knows those of `c`. */
  ghost predicate FreshIn(s: State, d: Commit, c: Commit) {
    d.body.parents != c.body.parents && forall m :: m in d.body.parents || m in c.body.parents ==> m in s.index
  }

  lemma LinkIsFresh(w: World, cfg: Config, s: State, pid: nat, r: Request, slot: string, c: Commit)
    requires Injective(w.hash) && Inv(w, s) && s.up && pid !in s.active
    requires r.draft.parents == [] && SlotOf(r.draft) == slot && Above(s, slot, c)
    ensures var d := CommitFor(w, cfg, s, r.draft, r.payload); FreshIn(s, d, c) && Above(AfterPublish(s, d), slot, c)
  {
    var filled := Filled(w, cfg, r.draft, r.payload);
    var d := CommitFor(w, cfg, s, r.draft, r.payload);
    ChainLink(w, cfg, s, pid, r);
    assert ResolvedIn(w, s, filled) == d;
    ResolvesAfresh(w, s, c, filled);
    IndexHoldsRows(w, s);
    PublishKeepsAbove(s, AfterPublish(s, d), slot, c, d);
  }

  lemma LinkIsAbove(w: World, cfg: Config, s: State, pid: nat, r: Request)
    requires Injective(w.hash) && Inv(w, s) && s.up && pid !in s.active && r.draft.parents == []
    ensures var c := CommitFor(w, cfg, s, r.draft, r.payload); Above(AfterPublish(s, c), SlotOf(r.draft), c)
  {
    var c := CommitFor(w, cfg, s, r.draft, r.payload);
    ChainLink(w, cfg, s, pid, r);
    AncUnfold(AfterPublish(s, c).index, c.id, c.id);
  }

  lemma InSlotRest(requests: seq<Request>, slot: string)
    requires AllInSlot(requests, slot) && requests != []
    ensures AllInSlot(requests[1..], slot) && requests[0].draft.parents == [] && SlotOf(requests[0].draft) == slot
  {
  }

  ghost predicate AllFresh(s: State, ds: seq<Commit>, c: Commit) {
    forall d :: d in ds ==> FreshIn(s, d, c)
  }

  lemma OneMoreFresh(s: State, t: State, d: Commit, ds: seq<Commit>, c: Commit)
    requires FreshIn(s, d, c) && Extends(s.index, t.index) && AllFresh(t, ds, c)
    ensures AllFresh(t, [d] + ds, c)
  {
  }

  lemma {:induction false} AfterChainIsLater(
      w: World, cfg: Config, s: State, pid: nat, requests: seq<Request>, slot: string)
    requires Injective(w.hash) && Inv(w, s) && s.up && pid !in s.active && AllInSlot(requests, slot)
    ensures Inv(w, AfterChain(w, cfg, s, requests)) && Later(s, AfterChain(w, cfg, s, requests))
    decreases |requests|
  {
    if requests != [] {
      var s1 := AfterPublish(s, CommitFor(w, cfg, s, requests[0].draft, requests[0].payload));
      InSlotRest(requests, slot);
      ChainLink(w, cfg, s, pid, requests[0]);
      AfterChainIsLater(w, cfg, s1, pid, requests[1..], slot);
      LaterTrans(s, s1, AfterChain(w, cfg, s1, requests[1..]));
    }
  }

  /** Every commit of the chain has other parents than a commit below the slot's head. */
  lemma {:induction false} ChainIsFresh(
      w: World, cfg: Config, s: State, pid: nat, requests: seq<Request>, slot: string, c: Commit)
    requires Injective(w.hash) && Inv(w, s) && s.up && pid !in s.active
    requires AllInSlot(requests, slot) && Above(s, slot, c)
    ensures AllFresh(AfterChain(w, cfg, s, requests), ChainOf(w, cfg, s, requests), c)
    decreases |requests|
  {
    if requests != [] {
      var d := CommitFor(w, cfg, s, requests[0].draft, requests[0].payload);
      var s1 := AfterPublish(s, d);
      InSlotRest(requests, slot);
      ChainLink(w, cfg, s, pid, requests[0]);
      LinkIsFresh(w, cfg, s, pid, requests[0], slot, c);
      ChainIsFresh(w, cfg, s1, pid, requests[1..], slot, c);
      AfterChainIsLater(w, cfg, s, pid, requests, slot);
      OneMoreFresh(s, AfterChain(w, cfg, s, requests), d, ChainOf(w, cfg, s1, requests[1..]), c);
    }
  }

  ghost predicate NoRepeats(digest: string -> string, cs: seq<Commit>) {
    forall i, j :: 0 <= i < j < |cs| ==> Fingerprint(digest, cs[i]) != Fingerprint(digest, cs[j])
  }

  lemma FreshFirst(digest: string -> string, c: Commit, rest: seq<Commit>)
    requires forall d :: d in rest ==> Fingerprint(digest, d) != Fingerprint(digest, c)
    requires NoRepeats(digest, rest)
    ensures NoRepeats(digest, [c] + rest)
  {
    assert forall j :: 0 <= j < |rest| ==> rest[j] in rest;
  }

  /** The commits of a chain have pairwise different fingerprints. */
  lemma {:induction false} ChainNeverRepeats(
      w: World, cfg: Config, s: State, pid: nat, requests: seq<Request>, slot: string, digest: string -> string)
    requires Injective(w.hash) && Hexadecimal(w.hash) && TellsApart(digest)
    requires Inv(w, s) && s.up && pid !in s.active && AllInSlot(requests, slot)
    ensures NoRepeats(digest, ChainOf(w, cfg, s, requests))
    decreases |requests|
  {
    if requests != [] {
      var c := CommitFor(w, cfg, s, requests[0].draft, requests[0].payload);
      var t := AfterPublish(s, c);
      InSlotRest(requests, slot);
      ChainLink(w, cfg, s, pid, requests[0]);
      LinkIsAbove(w, cfg, s, pid, requests[0]);
      var rest := ChainOf(w, cfg, t, requests[1..]);
      ChainIsFresh(w, cfg, t, pid, requests[1..], slot, c);
      AfterChainIsLater(w, cfg, t, pid, requests[1..], slot);
      forall d | d in rest ensures Fingerprint(digest, d) != Fingerprint(digest, c) {
        OtherParentsOtherFingerprint(w, AfterChain(w, cfg, t, requests[1..]), c, d, digest);
      }
      ChainNeverRepeats(w, cfg, t, pid, requests[1..], slot, digest);
      FreshFirst(digest, c, rest);
    }
  }

  lemma {:induction false} NewFingerprintCountsNothing(history: seq<Inspection>, key: string, fingerprint: string)
    requires forall i :: 0 <= i < |history| ==> history[i].entry.fingerprint != fingerprint
    ensures forall e :: e in Entries(history, key) ==> e.fingerprint != fingerprint
    decreases |history|
  {
    if history != [] { NewFingerprintCountsNothing(history[..|history| - 1], key, fingerprint); }
  }

  lemma {:induction false} CountsNothing(window: seq<Entry>, fingerprint: string)
    requires forall e :: e in window ==> e.fingerprint != fingerprint
    ensures Count(window, fingerprint) == 0
    decreases |window|
  {
    if window != [] { CountsNothing(window[1..], fingerprint); }
  }

  /**
    So a detector that inspects publishes into one slot, none naming its parents and each after the one
    before, never counts a repetition, whatever they say and whatever its window size: it never warns.
  */
  lemma ChainNeverWarns(
      w: World, cfg: Config, s: State, pid: nat, requests: seq<Request>, slot: string, digest: string -> string,
      k: nat, key: string, size: nat)
    requires Injective(w.hash) && Hexadecimal(w.hash) && TellsApart(digest)
    requires Inv(w, s) && s.up && pid !in s.active && AllInSlot(requests, slot)
    requires k < |ChainOf(w, cfg, s, requests)|
    ensures var cs := ChainOf(w, cfg, s, requests);
            Count(Window(Inspected(digest, cs[..k]), key, size), Fingerprint(digest, cs[k])) == 0
  {
    var cs := ChainOf(w, cfg, s, requests);
    ChainNeverRepeats(w, cfg, s, pid, requests, slot, digest);
    NothingCounted(digest, cs, k, key, size);
  }

  lemma NothingCounted(digest: string -> string, cs: seq<Commit>, k: nat, key: string, size: nat)
    requires NoRepeats(digest, cs) && k < |cs|
    ensures Count(Window(Inspected(digest, cs[..k]), key, size), Fingerprint(digest, cs[k])) == 0
  {
    var history, fp := Inspected(digest, cs[..k]), Fingerprint(digest, cs[k]);
    forall i | 0 <= i < k ensures history[i].entry.fingerprint != fp {
      assert cs[..k][i] == cs[i];
    }
    NewFingerprintCountsNothing(history, key, fp);
    CountsNothing(Window(history, key, size), fp);
  }
}
