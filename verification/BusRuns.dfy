/** What holds over every run of the bus, and two runs with a reused name. */
module BusRuns {
  import opened Bus
  import opened Seqs

  // ---------------------------------------------------------------- who stays registered

  /** Channel `i` is what its owner's name stands for. */
  predicate Registered(s: State, i: nat)
    requires i < |s.channels|
  {
    s.channels[i].owner in s.subs && s.subs[s.channels[i].owner].chan == i
  }

  /** An earlier channel was opened under the same name. */
  ghost predicate HasEarlier(channels: seq<Channel>, i: nat) {
    i < |channels| && exists j :: 0 <= j < i && channels[j].owner == channels[i].owner
  }

  /**
    A registered channel is its name's latest and has not been undercut; an open channel that is its
    name's latest and has not been undercut is registered; one that has been undercut is not the first.
  */
  ghost predicate NameInv(s: State, i: nat)
    requires i < |s.channels|
  {
    && (i in s.undercut ==> HasEarlier(s.channels, i))
    && (Registered(s, i) ==> Latest(s.channels, i) && i !in s.undercut)
    && (s.channels[i].open && Latest(s.channels, i) && i !in s.undercut ==> Registered(s, i))
  }

  ghost predicate NamesInv(s: State) {
    && (forall i :: i in s.undercut ==> i < |s.channels|)
    && (forall i: nat | i < |s.channels| :: NameInv(s, i))
  }

  /** The later state has the same channels under the same names, some perhaps closed since. */
  predicate SameNames(s: State, later: State) {
    && |later.channels| == |s.channels|
    && (forall i :: 0 <= i < |s.channels| ==>
         later.channels[i].owner == s.channels[i].owner && (later.channels[i].open ==> s.channels[i].open))
  }

  /** Any step but a new subscription and an attempt on a closed channel leaves every name where it is. */
  lemma QuietStep(s: State, e: Event)
    requires !e.Subscribe?
    requires !(e.Try? && AtTarget(s, e.task) && !FirstChannel(s, e.task).open)
    ensures SameNames(s, Next(s, e)) && Next(s, e).undercut == s.undercut
    ensures forall i :: 0 <= i < |s.channels| ==> (Registered(Next(s, e), i) <==> Registered(s, i))
  {
  }

  lemma LatestSame(s: State, later: State, i: nat)
    requires SameNames(s, later) && i < |s.channels|
    ensures Latest(later.channels, i) <==> Latest(s.channels, i)
    ensures HasEarlier(s.channels, i) ==> HasEarlier(later.channels, i)
  {
    if HasEarlier(s.channels, i) {
      var j :| 0 <= j < i && s.channels[j].owner == s.channels[i].owner;
      assert later.channels[j].owner == later.channels[i].owner;
    }
  }

  lemma QuietKeepsNames(s: State, e: Event)
    requires NamesInv(s) && !e.Subscribe?
    requires !(e.Try? && AtTarget(s, e.task) && !FirstChannel(s, e.task).open)
    ensures NamesInv(Next(s, e))
  {
    QuietStep(s, e);
    forall i: nat | i < |s.channels| ensures NameInv(Next(s, e), i) {
      assert NameInv(s, i);
      LatestSame(s, Next(s, e), i);
    }
  }

  /** A new channel is its name's latest, and no older one of that name is any more. */
  lemma OpenTakesName(s: State, e: Event, i: nat)
    requires Inv(s) && e.Subscribe? && i < |s.channels|
    ensures var next := Next(s, e);
            && (Latest(next.channels, i) <==> Latest(s.channels, i) && s.channels[i].owner != e.subscriber)
            && (Registered(next, i) <==> Registered(s, i) && s.channels[i].owner != e.subscriber)
            && (HasEarlier(s.channels, i) ==> HasEarlier(next.channels, i))
  {
    var next := Next(s, e);
    assert next.channels[|s.channels|].owner == e.subscriber;
    assert forall j :: 0 <= j < |s.channels| ==> next.channels[j] == s.channels[j];
    if HasEarlier(s.channels, i) {
      var j :| 0 <= j < i && s.channels[j].owner == s.channels[i].owner;
      assert next.channels[j].owner == next.channels[i].owner;
    }
  }

  lemma OpenKeepsNames(s: State, e: Event)
    requires NamesInv(s) && Inv(s) && e.Subscribe?
    ensures NamesInv(Next(s, e))
  {
    var next := Next(s, e);
    forall i: nat | i < |next.channels| ensures NameInv(next, i) {
      if i < |s.channels| {
        assert NameInv(s, i);
        OpenTakesName(s, e, i);
      }
    }
  }

  lemma ClosedKeepsNames(s: State, k: nat)
    requires NamesInv(s) && Inv(s) && AtTarget(s, k) && !FirstChannel(s, k).open
    ensures NamesInv(Tried(s, k))
  {
    var next := Tried(s, k);
    var target := s.tasks[k].targets[0];
    assert target in s.tasks[k].targets && TargetInv(s.channels, target);
    assert SameNames(s, next);
    forall i: nat | i < |next.channels| ensures NameInv(next, i) {
      assert NameInv(s, i);
      LatestSame(s, next, i);
      assert Registered(next, i) <==> Registered(s, i) && s.channels[i].owner != target.subscriber;
      if i in LaterOf(s.channels, target.subscriber, target.chan) {
        assert next.channels[target.chan].owner == next.channels[i].owner;
      }
    }
  }

  lemma StepKeepsNames(s: State, e: Event)
    requires Inv(s) && NamesInv(s)
    ensures NamesInv(Next(s, e))
  {
    if e.Subscribe? {
      OpenKeepsNames(s, e);
    } else if e.Try? && AtTarget(s, e.task) && !FirstChannel(s, e.task).open {
      if Next(s, e) != s { ClosedKeepsNames(s, e.task); }
    } else {
      QuietKeepsNames(s, e);
    }
  }

  lemma {:induction false} RunKeepsNames(s: State, events: seq<Event>)
    requires Inv(s) && NamesInv(s)
    ensures Inv(Run(s, events)) && NamesInv(Run(s, events))
    decreases |events|
  {
    if events != [] {
      StepKeepsInv(s, events[0]);
      StepKeepsNames(s, events[0]);
      RunKeepsNames(Next(s, events[0]), events[1..]);
    }
  }

  /**
    In every run, an open channel that is its name's latest is registered exactly when no broadcast has
    met an earlier channel of that name closed since it opened; a name used once keeps its registration.
  */
  lemma RegisteredIff(events: seq<Event>, i: nat)
    requires var s := Run(INIT, events);
             i < |s.channels| && s.channels[i].open && Latest(s.channels, i)
    ensures var s := Run(INIT, events);
            && (Registered(s, i) <==> i !in s.undercut)
            && (OnlyChannel(s.channels, i) ==> Registered(s, i))
  {
    RunKeepsNames(INIT, events);
    var s := Run(INIT, events);
    assert NameInv(s, i);
  }

  lemma UnregisteredStep(s: State, e: Event, i: nat)
    requires Inv(s) && i < |s.channels| && !Registered(s, i)
    ensures var next := Next(s, e);
            i < |next.channels| && !Registered(next, i) && next.channels[i].matched == s.channels[i].matched
  {
    if e.Subscribe? {
      OpenTakesName(s, e, i);
    } else if e.Try? && AtTarget(s, e.task) && !FirstChannel(s, e.task).open {
    } else {
      QuietStep(s, e);
      if e.Broadcast? {
        assert Target(s.channels[i].owner, i) !in e.targets || Next(s, e) == s;
      }
    }
  }

  /** A channel that has lost its registration never gets it back, and no later broadcast is meant for it. */
  lemma {:induction false} UnregisteredGetsNothing(s: State, events: seq<Event>, i: nat)
    requires Inv(s) && i < |s.channels| && !Registered(s, i)
    ensures var later := Run(s, events);
            i < |later.channels| && !Registered(later, i) && later.channels[i].matched == s.channels[i].matched
    decreases |events|
  {
    if events != [] {
      StepKeepsInv(s, events[0]);
      UnregisteredStep(s, events[0], i);
      UnregisteredGetsNothing(Next(s, events[0]), events[1..], i);
    }
  }

  // ---------------------------------------------------------------- the end of a subscriber's stream

  /** A running broadcast still holds a sender of channel `i`. */
  ghost predicate HoldsSender(t: Task, i: nat) {
    !t.cancelled && exists target :: target in t.targets && target.chan == i
  }

  /** Nobody holds a sender of channel `i`: its receiver gets what is queued and then the end of the stream. */
  ghost predicate Ended(s: State, i: nat)
    requires i < |s.channels|
  {
    !Registered(s, i) && forall k :: 0 <= k < |s.tasks| ==> !HoldsSender(s.tasks[k], i)
  }

  /**
    The stream of an open channel that is its name's latest has ended exactly when the channel is undercut
    and no broadcast still holds it.
  */
  lemma StreamEndsIff(events: seq<Event>, i: nat)
    requires var s := Run(INIT, events);
             i < |s.channels| && s.channels[i].open && Latest(s.channels, i)
    ensures var s := Run(INIT, events);
            Ended(s, i) <==> i in s.undercut && forall k :: 0 <= k < |s.tasks| ==> !HoldsSender(s.tasks[k], i)
  {
    RegisteredIff(events, i);
  }

  lemma TriedElsewhere(s: State, k: nat, i: nat)
    requires AtTarget(s, k) && !s.tasks[k].cancelled && i < |s.channels| && !HoldsSender(s.tasks[k], i)
    ensures Tried(s, k).channels[i] == s.channels[i] && !HoldsSender(Tried(s, k).tasks[k], i)
  {
    assert s.tasks[k].targets[0] in s.tasks[k].targets;
  }

  lemma FinishedElsewhere(s: State, k: nat, i: nat, e: Event)
    requires Inv(s) && Waiting(s, k) && i < |s.channels| && !HoldsSender(s.tasks[k], i)
    requires e == Deliver(k) || e == GiveUp(k) || e == Cancel(k)
    ensures Next(s, e).channels[i] == s.channels[i] && |Next(s, e).tasks| == |s.tasks|
    ensures !HoldsSender(Next(s, e).tasks[k], i)
  {
    assert s.tasks[k].targets[0] in s.tasks[k].targets;
    assert WaitsOn(s.tasks, k, s.tasks[k].targets[0].chan);
  }

  lemma EndedTasks(s: State, e: Event, i: nat)
    requires Inv(s) && i < |s.channels| && Ended(s, i)
    ensures forall k :: 0 <= k < |Next(s, e).tasks| ==> !HoldsSender(Next(s, e).tasks[k], i)
  {
    match e
    case Try(k) => if AtTarget(s, k) && !s.tasks[k].cancelled { TriedElsewhere(s, k, i); }
    case Deliver(k) => if Waiting(s, k) { FinishedElsewhere(s, k, i, e); }
    case GiveUp(k) => if Waiting(s, k) { FinishedElsewhere(s, k, i, e); }
    case Cancel(k) => if Waiting(s, k) { FinishedElsewhere(s, k, i, e); }
    case Broadcast(topic, durable, targets) =>
      forall t | t in targets && Next(s, e) != s ensures t.chan != i {
        assert SubInv(t.subscriber, s.subs[t.subscriber], s.channels, s.tasks, s.drops);
      }
    case _ =>
  }

  lemma EndedChannel(s: State, e: Event, i: nat)
    requires Inv(s) && i < |s.channels| && Ended(s, i)
    ensures i < |Next(s, e).channels|
    ensures var c, d := s.channels[i], Next(s, e).channels[i];
            c.received + c.queue == d.received + d.queue && d.matched == c.matched
  {
    match e
    case Try(k) => if AtTarget(s, k) && !s.tasks[k].cancelled { TriedElsewhere(s, k, i); }
    case Deliver(k) => if Waiting(s, k) { FinishedElsewhere(s, k, i, e); }
    case GiveUp(k) => if Waiting(s, k) { FinishedElsewhere(s, k, i, e); }
    case Cancel(k) => if Waiting(s, k) { FinishedElsewhere(s, k, i, e); }
    case Broadcast(_, _, _) => UnregisteredStep(s, e, i);
    case Receive(j) =>
      if j == i && Next(s, e) != s {
        var c := s.channels[i];
        assert c.received + c.queue == c.received + [c.queue[0]] + c.queue[1..];
      }
    case _ =>
  }

  /** Once a stream has ended, nothing more is ever sent into it: the receiver only takes what was queued. */
  lemma {:induction false} EndedForever(s: State, events: seq<Event>, i: nat)
    requires Inv(s) && i < |s.channels| && Ended(s, i)
    ensures var later := Run(s, events);
            && i < |later.channels| && Ended(later, i)
            && s.channels[i].received + s.channels[i].queue == later.channels[i].received + later.channels[i].queue
    decreases |events|
  {
    if events != [] {
      StepKeepsInv(s, events[0]);
      UnregisteredStep(s, events[0], i);
      EndedTasks(s, events[0], i);
      EndedChannel(s, events[0], i);
      EndedForever(Next(s, events[0]), events[1..], i);
    }
  }

  // ---------------------------------------------------------------- what subscribers get

  /**
    In every run and for every channel: what it was matched with is the first of what passed its filter
    since it began, and all of it while it is open, its name's latest and not undercut; each message of
    it is received, queued, dropped, on its way, abandoned by a cancelled request, or lost to its closing.
  */
  lemma Conservation(events: seq<Event>, i: nat, m: Message)
    requires i < |Run(INIT, events).channels|
    ensures var s := Run(INIT, events);
            var c := s.channels[i];
            && c.matched <= Passing(s.tasks, c.since, c.filter)
            && (c.open && Latest(s.channels, i) && i !in s.undercut ==>
                 c.matched == Passing(s.tasks, c.since, c.filter))
            && (c.open ==> c.lost == [])
            && Times(c.matched, m) ==
                 Times(c.received, m) + Times(c.queue, m) + Times(c.dropped, m) + Times(c.lost, m)
                 + OnTheWay(s.tasks, i, m) + Abandoned(s.tasks, i, m)
  {
    RunKeepsNames(INIT, events);
    var s := Run(INIT, events);
    var c := s.channels[i];
    assert ChannelInv(c) && Conserved(c, s.tasks, i, m) && MatchInv(c, s.tasks);
    UnsentSplits(s.tasks, i, m);
    assert NameInv(s, i);
    if c.open && Latest(s.channels, i) && i !in s.undercut {
      assert SubInv(c.owner, s.subs[c.owner], s.channels, s.tasks, s.drops);
    }
  }

  /** In every run every queue keeps to its clamped capacity, and what is dropped is ephemeral. */
  lemma Backpressure(events: seq<Event>, i: nat)
    requires i < |Run(INIT, events).channels|
    ensures var c := Run(INIT, events).channels[i];
            1 <= c.capacity <= 8192 && |c.queue| <= c.capacity && forall m :: m in c.dropped ==> !m.durable
  {
    RunKeepsNames(INIT, events);
    assert ChannelInv(Run(INIT, events).channels[i]);
  }

  lemma {:induction false} ChargedNone(drops: seq<Drop>, id: string, i: nat)
    ensures Charged(drops, id, i) == 0 <==> forall d :: d in drops ==> !ChargedTo(d, id, i)
    decreases |drops|
  {
    if drops != [] {
      var n := |drops| - 1;
      ChargedNone(drops[..n], id, i);
      assert forall d :: d in drops <==> d in drops[..n] || d == drops[n];
    }
  }

  /**
    In every run a subscription's counter is the number of its own drops plus those that older channels
    of its name had after it opened; so it is exact when there were none, and for a name used once.
  */
  lemma DropCounter(events: seq<Event>, id: string)
    requires id in Run(INIT, events).subs
    ensures var s := Run(INIT, events);
            var sub := s.subs[id];
            && sub.chan < |s.channels|
            && sub.dropped == |s.channels[sub.chan].dropped| + Charged(s.drops, id, sub.chan)
            && (sub.dropped == |s.channels[sub.chan].dropped| <==>
                 forall d :: d in s.drops ==> !ChargedTo(d, id, sub.chan))
            && (OnlyChannel(s.channels, sub.chan) ==> sub.dropped == |s.channels[sub.chan].dropped|)
            && (forall d :: d in s.drops && ChargedTo(d, id, sub.chan) ==> d.chan < sub.chan)
  {
    RunKeepsNames(INIT, events);
    var s := Run(INIT, events);
    var sub := s.subs[id];
    assert SubInv(id, sub, s.channels, s.tasks, s.drops);
    ChargedNone(s.drops, id, sub.chan);
    assert Registered(s, sub.chan) && NameInv(s, sub.chan);
  }

  /**
    A durable broadcast that passes the filter of an open channel, its name's latest and not undercut, is
    received or queued, on its way, or abandoned by a request that was dropped while it waited.
  */
  lemma DurableArrives(events: seq<Event>, i: nat, m: Message)
    requires var s := Run(INIT, events);
             i < |s.channels| && s.channels[i].open && Latest(s.channels, i) && i !in s.undercut
    requires m.durable
    ensures var s := Run(INIT, events);
            var c := s.channels[i];
            m in Passing(s.tasks, c.since, c.filter) <==>
              m in c.received || m in c.queue || OnTheWay(s.tasks, i, m) > 0 || Abandoned(s.tasks, i, m) > 0
  {
    Conservation(events, i, m);
    Backpressure(events, i);
    var s := Run(INIT, events);
    var c := s.channels[i];
    InTimes(Passing(s.tasks, c.since, c.filter), m);
    InTimes(c.received, m);
    InTimes(c.queue, m);
    InTimes(c.dropped, m);
  }

  lemma InTimes(s: seq<Message>, m: Message)
    ensures m in s <==> Times(s, m) > 0
  {
  }

  lemma {:induction false} PassingOnce(tasks: seq<Task>, since: nat, f: Filter, m: Message)
    requires Numbered(tasks)
    ensures Times(Passing(tasks, since, f), m) <= 1
    ensures m.serial >= |tasks| ==> Times(Passing(tasks, since, f), m) == 0
    decreases |tasks|
  {
    if |tasks| > since { PassingOnce(tasks[..|tasks| - 1], since, f, m); }
  }

  /** No broadcast reaches a channel twice, and none is both delivered and dropped. */
  lemma AtMostOnce(events: seq<Event>, i: nat, m: Message)
    requires i < |Run(INIT, events).channels|
    ensures var c := Run(INIT, events).channels[i];
            Times(c.received, m) + Times(c.queue, m) + Times(c.dropped, m) + Times(c.lost, m) <= 1
  {
    Conservation(events, i, m);
    RunKeepsNames(INIT, events);
    var s := Run(INIT, events);
    var c := s.channels[i];
    var all := Passing(s.tasks, c.since, c.filter);
    PassingOnce(s.tasks, c.since, c.filter, m);
    assert all == c.matched + all[|c.matched|..];
  }

  predicate GrowsAtBack(c: Channel, d: Channel) {
    c.received + c.queue <= d.received + d.queue
  }

  lemma TriedGrowsAtBack(s: State, k: nat, i: nat)
    requires AtTarget(s, k) && i < |s.channels|
    ensures GrowsAtBack(s.channels[i], Tried(s, k).channels[i]) && s.channels[i].queue <= Tried(s, k).channels[i].queue
  {
  }

  /**
    What a receiver has taken and what waits for it only grows at the back: nothing overtakes, and no
    old message makes room.
  */
  lemma DeliveryOrderKept(s: State, e: Event, i: nat)
    requires i < |s.channels|
    ensures i < |Next(s, e).channels| && GrowsAtBack(s.channels[i], Next(s, e).channels[i])
    ensures !e.Receive? ==> s.channels[i].queue <= Next(s, e).channels[i].queue
  {
    if e.Try? && AtTarget(s, e.task) {
      TriedGrowsAtBack(s, e.task, i);
    } else if e.Receive? && e.chan == i && Next(s, e) != s {
      var c := s.channels[i];
      assert c.received + c.queue == c.received + [c.queue[0]] + c.queue[1..];
    }
  }

  /**
    A message is dropped only by the attempt of an ephemeral broadcast on an open channel whose permits
    are all used or promised.
  */
  lemma DropsOnlyWhenFull(s: State, e: Event, i: nat)
    requires i < |s.channels| && Next(s, e).channels[i].dropped != s.channels[i].dropped
    ensures e.Try? && AtTarget(s, e.task) && s.tasks[e.task].targets[0].chan == i && !s.tasks[e.task].message.durable
    ensures s.channels[i].open && |s.channels[i].queue| + |s.channels[i].waiters| >= s.channels[i].capacity
    ensures Next(s, e).channels[i].dropped == s.channels[i].dropped + [s.tasks[e.task].message]
  {
  }

  /**
    No wake-up is lost: in every run a waiting broadcast is durable and stands in its channel's line,
    so it can be delivered as soon as the queue has room for it and those before it; the first in line
    can be delivered whenever the queue is not full.
  */
  lemma WaitersAreServed(events: seq<Event>, k: nat)
    requires var s := Run(INIT, events); k < |s.tasks| && s.tasks[k].waiting
    ensures var s := Run(INIT, events);
            && AtTarget(s, k) && s.tasks[k].message.durable
            && var c := FirstChannel(s, k);
               && k in c.waiters
               && (|c.queue| + |c.waiters| <= c.capacity ==> Granted(c, k))
               && (c.waiters[0] == k && |c.queue| < c.capacity ==> Granted(c, k))
  {
    RunKeepsNames(INIT, events);
    var s := Run(INIT, events);
    assert WaitsOn(s.tasks, k, s.tasks[k].targets[0].chan);
    assert s.tasks[k].targets[0] in s.tasks[k].targets;
    assert TargetInv(s.channels, s.tasks[k].targets[0]);
    var c := FirstChannel(s, k);
    assert k in c.waiters;
    var i :| 0 <= i < |c.waiters| && c.waiters[i] == k;
  }

  /** A request dropped while it waits gives up its place: whoever stood behind it moves up one. */
  lemma {:induction false} WithoutMovesUp(waiters: seq<nat>, k: nat, i: nat)
    requires Distinct(waiters) && i < |waiters| && waiters[i] == k
    ensures Without(waiters, k) == waiters[..i] + waiters[i + 1..]
    decreases |waiters|
  {
    if i > 0 {
      assert waiters[1..][i - 1] == k && waiters[0] != k;
      WithoutMovesUp(waiters[1..], k, i - 1);
      assert waiters[..i] == [waiters[0]] + waiters[1..][..i - 1];
    }
  }

  // ---------------------------------------------------------------- requests dropped while they wait

  lemma {:induction false} AbandonedUpdate(tasks: seq<Task>, k: nat, t: Task, i: nat, m: Message)
    requires k < |tasks| && !tasks[k].cancelled && t.cancelled
    ensures Abandoned(tasks[k := t], i, m) == Abandoned(tasks, i, m) + Left(t.targets, t.message, i, m)
    decreases |tasks|
  {
    var n := |tasks| - 1;
    if k < n {
      AbandonedUpdate(tasks[..n], k, t, i, m);
      assert tasks[k := t][..n] == tasks[..n][k := t];
    } else {
      assert tasks[k := t][..n] == tasks[..n];
    }
  }

  /** A request dropped while it waits abandons the target it waits on and every one after it. */
  lemma CancelAbandonsRest(s: State, k: nat, i: nat, m: Message)
    requires Inv(s) && Waiting(s, k)
    ensures var next := Next(s, Cancel(k));
            && Abandoned(next.tasks, i, m) ==
                 Abandoned(s.tasks, i, m) + Left(s.tasks[k].targets, s.tasks[k].message, i, m)
            && Unsent(next.tasks, i, m) == Unsent(s.tasks, i, m)
  {
    assert WaitsOn(s.tasks, k, s.tasks[k].targets[0].chan);
    var t := s.tasks[k].(waiting := false, cancelled := true);
    AbandonedUpdate(s.tasks, k, t, i, m);
    UnsentUpdate(s.tasks, k, t, i, m);
  }

  /** And no later step sends any of it. */
  lemma CancelledStaysPut(s: State, e: Event, k: nat)
    requires Inv(s) && k < |s.tasks| && s.tasks[k].cancelled
    ensures k < |Next(s, e).tasks| && Next(s, e).tasks[k] == s.tasks[k]
  {
    assert !s.tasks[k].waiting;
  }

  // ---------------------------------------------------------------- two runs with a reused name

  const ANY := Filter(["*"], false)

  function Opened(since: nat): Channel {
    Channel("a", ANY, 1, since, true, [], [], [], [], [], [])
  }

  lemma AnyMatches(topic: string, durable: bool)
    ensures FilterMatches(ANY, topic, durable)
  {
    assert ANY.patterns[0] == "*" && PatternMatches(ANY.patterns[0], topic);
  }

  /** A broadcast to the only subscription there is. */
  lemma BroadcastToA(s: State, durable: bool)
    requires s.subs.Keys == {"a"} && s.subs["a"].chan == 0 && |s.channels| == 1
    requires s.channels[0].owner == "a" && s.channels[0].filter == ANY
    ensures var m := Message(|s.tasks|, "t", durable);
            Next(s, Broadcast("t", durable, [Target("a", 0)])) ==
              s.(tasks := s.tasks + [Task(m, [Target("a", 0)], false, false)],
                 channels := [s.channels[0].(matched := s.channels[0].matched + [m])])
  {
    AnyMatches("t", durable);
    var m, targets := Message(|s.tasks|, "t", durable), [Target("a", 0)];
    assert Snapshot(s, "t", durable, targets);
    assert targets[0] in targets;
    assert AllMatched(s.channels, m, targets) == [s.channels[0].(matched := s.channels[0].matched + [m])];
  }

  lemma RunStep(s: State, e: Event, rest: seq<Event>)
    ensures Run(s, [e] + rest) == Run(Next(s, e), rest)
  {
    assert ([e] + rest)[1..] == rest;
  }

  lemma ThreeSteps(s0: State, s1: State, s2: State, s3: State, a: Event, b: Event, c: Event, rest: seq<Event>)
    requires Next(s0, a) == s1 && Next(s1, b) == s2 && Next(s2, c) == s3
    ensures Run(s0, [a, b, c] + rest) == Run(s3, rest)
  {
    assert [a, b, c] + rest == [a] + ([b] + ([c] + rest));
    RunStep(s0, a, [b] + ([c] + rest));
    RunStep(s1, b, [c] + rest);
    RunStep(s2, c, rest);
  }

  const FIRST_CLOSES := [Subscribe("a", ANY, 1), Broadcast("t", true, [Target("a", 0)]), Close(0)]

  const NEXT_MISSES := [Subscribe("a", ANY, 1), Try(0), Broadcast("t", true, [])]

  /** The channel after `FIRST_CLOSES`. */
  const CLOSED := Opened(0).(matched := [Message(0, "t", true)], open := false)

  const HOLDING := Task(Message(0, "t", true), [Target("a", 0)], false, false)

  lemma AfterFirstCloses(rest: seq<Event>)
    ensures Run(INIT, FIRST_CLOSES + rest)
         == Run(State(map["a" := Subscription(0, 0)], [CLOSED], [HOLDING], {}, []), rest)
  {
    var s1 := State(map["a" := Subscription(0, 0)], [Opened(0)], [], {}, []);
    var s2 := s1.(channels := [Opened(0).(matched := [HOLDING.message])], tasks := [HOLDING]);
    assert Next(INIT, FIRST_CLOSES[0]) == s1;
    BroadcastToA(s1, true);
    assert Opened(0).matched + [HOLDING.message] == [HOLDING.message] && s1.tasks + [HOLDING] == [HOLDING];
    assert Next(s1, FIRST_CLOSES[1]) == s2;
    assert Next(s2, Close(0)) == s2.(channels := [CLOSED]);
    ThreeSteps(INIT, s1, s2, s2.(channels := [CLOSED]), FIRST_CLOSES[0], FIRST_CLOSES[1], FIRST_CLOSES[2], rest);
  }

  /**
    A broadcast that still holds the closed old channel of a name unregisters the new one: it is open
    and was never replaced, but the next broadcast is not meant for it and its stream has ended.
  */
  lemma UndercutSubscriptionMisses()
    ensures var s := Run(INIT, FIRST_CLOSES + NEXT_MISSES);
            && |s.channels| == 2 && s.channels[1].open && Latest(s.channels, 1) && "a" !in s.subs && Ended(s, 1)
            && var c, m := s.channels[1], Message(1, "t", true);
               && m in Passing(s.tasks, c.since, c.filter) && c.matched == [] && c.received + c.queue + c.dropped == []
  {
    AfterFirstCloses(NEXT_MISSES);
    var m := HOLDING.message;
    var s3 := State(map["a" := Subscription(0, 0)], [CLOSED], [HOLDING], {}, []);
    var s4 := s3.(subs := map["a" := Subscription(1, 0)], channels := [CLOSED, Opened(1)]);
    var s5 := s4.(subs := map[], channels := [CLOSED.(lost := [m]), Opened(1)],
                  tasks := [Task(m, [], false, false)], undercut := {1});
    var s6 := s5.(tasks := s5.tasks + [Task(Message(1, "t", true), [], false, false)]);
    assert Next(s3, NEXT_MISSES[0]) == s4;
    assert Next(s4, Try(0)) == s5 by {
      assert LaterOf(s4.channels, "a", 0) == {1};
      assert HOLDING.targets[1..] == [] && CLOSED.lost + [m] == [m];
      assert s4.channels[0 := CLOSED.(lost := [m])] == s5.channels;
      assert s4.tasks[0 := Advance(HOLDING)] == s5.tasks;
    }
    assert Next(s5, NEXT_MISSES[2]) == s6 by {
      assert Snapshot(s5, "t", true, []);
      assert AllMatched(s5.channels, Message(1, "t", true), []) == s5.channels;
    }
    assert NEXT_MISSES == NEXT_MISSES + [];
    ThreeSteps(s3, s4, s5, s6, NEXT_MISSES[0], NEXT_MISSES[1], NEXT_MISSES[2], []);
    AnyMatches("t", true);
    assert s6.tasks[..1] == s5.tasks;
  }

  const FIRST_FILLS := [Subscribe("a", ANY, 1), Broadcast("t", false, [Target("a", 0)]), Try(0)]

  const FIRST_DROPS := [Broadcast("t", false, [Target("a", 0)]), Subscribe("a", ANY, 1), Try(1)]

  /** A drop on the old channel of a name is counted by the new subscription, which dropped nothing. */
  lemma ReusedNameMiscounts()
    ensures var s := Run(INIT, FIRST_FILLS + FIRST_DROPS);
            && |s.channels| == 2 && s.subs == map["a" := Subscription(1, 1)]
            && s.channels[1].matched == [] && s.channels[1].dropped == []
  {
    var m, n, target := Message(0, "t", false), Message(1, "t", false), [Target("a", 0)];
    var s1 := State(map["a" := Subscription(0, 0)], [Opened(0)], [], {}, []);
    var s2 := s1.(channels := [Opened(0).(matched := [m])], tasks := [Task(m, target, false, false)]);
    var full := Opened(0).(matched := [m], queue := [m]);
    var s3 := s2.(channels := [full], tasks := [Task(m, [], false, false)]);
    assert Next(INIT, FIRST_FILLS[0]) == s1;
    BroadcastToA(s1, false);
    assert Opened(0).matched + [m] == [m] && s1.tasks + s2.tasks == s2.tasks && target[1..] == [];
    assert Next(s1, FIRST_FILLS[1]) == s2;
    assert Next(s2, Try(0)) == s3 by {
      assert s2.channels[0 := full] == s3.channels;
      assert s2.tasks[0 := Advance(s2.tasks[0])] == s3.tasks;
    }
    ThreeSteps(INIT, s1, s2, s3, FIRST_FILLS[0], FIRST_FILLS[1], FIRST_FILLS[2], FIRST_DROPS);
    var s4 := s3.(channels := [full.(matched := [m, n])], tasks := s3.tasks + [Task(n, target, false, false)]);
    var s5 := s4.(subs := map["a" := Subscription(1, 0)], channels := s4.channels + [Opened(2)]);
    var s6 := s5.(subs := map["a" := Subscription(1, 1)],
                  channels := [s4.channels[0].(dropped := [n]), Opened(2)],
                  tasks := s3.tasks + [Task(n, [], false, false)], drops := [Drop("a", 0, 2)]);
    BroadcastToA(s3, false);
    assert full.matched + [n] == [m, n];
    assert Next(s3, FIRST_DROPS[0]) == s4;
    assert Next(s4, FIRST_DROPS[1]) == s5;
    assert Next(s5, Try(1)) == s6 by {
      assert full.dropped + [n] == [n] && s5.drops + s6.drops == s6.drops;
      assert s5.channels[0 := s6.channels[0]] == s6.channels;
      assert s5.tasks[1 := Advance(s5.tasks[1])] == s6.tasks;
    }
    assert FIRST_DROPS == FIRST_DROPS + [];
    ThreeSteps(s3, s4, s5, s6, FIRST_DROPS[0], FIRST_DROPS[1], FIRST_DROPS[2], []);
  }
}
