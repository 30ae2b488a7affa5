/** What a subscription asked for and what it gets, on the fields of its filter, and who is served when. */
module BusFilters {
  import opened Bus
  import opened BusRuns
  import opened Seqs

  // ---------------------------------------------------------------- what a step leaves alone

  /** Channels keep what they were opened for, and broadcasts their messages. */
  ghost predicate Kept(s: State, later: State) {
    && |s.channels| <= |later.channels| && |s.tasks| <= |later.tasks|
    && (forall i :: 0 <= i < |s.channels| ==> KeptChannel(s.channels[i], later.channels[i]))
    && (forall k :: 0 <= k < |s.tasks| ==> later.tasks[k].message == s.tasks[k].message)
  }

  predicate KeptChannel(c: Channel, d: Channel) {
    c.owner == d.owner && c.filter == d.filter && c.capacity == d.capacity && c.since == d.since
  }

  lemma StepKeeps(s: State, e: Event)
    ensures Kept(s, Next(s, e))
  {
  }

  lemma KeptTrans(a: State, b: State, c: State)
    requires Kept(a, b) && Kept(b, c)
    ensures Kept(a, c)
  {
    forall i | 0 <= i < |a.channels| ensures KeptChannel(a.channels[i], c.channels[i]) {
      assert KeptChannel(a.channels[i], b.channels[i]) && KeptChannel(b.channels[i], c.channels[i]);
    }
  }

  lemma {:induction false} RunKeeps(s: State, events: seq<Event>)
    ensures Kept(s, Run(s, events))
    decreases |events|
  {
    if events != [] {
      StepKeeps(s, events[0]);
      RunKeeps(Next(s, events[0]), events[1..]);
      KeptTrans(s, Next(s, events[0]), Run(s, events));
    }
  }

  lemma {:induction false} RunConcat(s: State, a: seq<Event>, b: seq<Event>)
    ensures Run(s, a + b) == Run(Run(s, a), b)
    decreases |a|
  {
    if a == [] {
      assert a + b == b;
    } else {
      assert (a + b)[1..] == a[1..] + b;
      RunConcat(Next(s, a[0]), a[1..], b);
    }
  }

  /** The run after `a`, one more event, and `b`. */
  lemma RunAround(s: State, a: seq<Event>, e: Event, b: seq<Event>)
    ensures Run(s, a + [e] + b) == Run(Next(Run(s, a), e), b)
  {
    RunConcat(s, a, [e] + b);
    assert a + [e] + b == a + ([e] + b);
    RunStep(Run(s, a), e, b);
  }

  // ---------------------------------------------------------------- what a filter asks for

  /** A durable broadcast if nothing else is wanted, on a topic that is named or begins as a starred pattern does. */
  ghost predicate Wants(f: Filter, m: Message) {
    && (f.durableOnly ==> m.durable)
    && (exists pattern :: pattern in f.patterns
          && (pattern == m.topic || exists prefix :: pattern == prefix + "*" && prefix <= m.topic))
  }

  lemma WantsIff(f: Filter, m: Message)
    ensures FilterMatches(f, m.topic, m.durable) <==> Wants(f, m)
  {
    forall i | 0 <= i < |f.patterns| && PatternMatches(f.patterns[i], m.topic)
      ensures f.patterns[i] in f.patterns
           && (f.patterns[i] == m.topic || exists prefix :: f.patterns[i] == prefix + "*" && prefix <= m.topic)
    {
      PatternMeaning(f.patterns[i], m.topic);
    }
    forall pattern | pattern in f.patterns ensures exists i :: 0 <= i < |f.patterns| && f.patterns[i] == pattern {
    }
    if Wants(f, m) {
      var pattern :| pattern in f.patterns
        && (pattern == m.topic || exists prefix :: pattern == prefix + "*" && prefix <= m.topic);
      var i :| 0 <= i < |f.patterns| && f.patterns[i] == pattern;
      PatternMeaning(f.patterns[i], m.topic);
    }
  }

  lemma RisingSnoc(ms: seq<Message>, m: Message)
    requires Rising(ms) && forall x :: x in ms ==> x.serial < m.serial
    ensures Rising(ms + [m])
  {
    forall x | 0 <= x < |ms| ensures ms[x].serial < m.serial {
      assert ms[x] in ms;
    }
  }

  /** What passes a filter: the broadcasts since then that it wants, in their order. */
  lemma {:induction false} PassingIff(tasks: seq<Task>, since: nat, f: Filter)
    requires Numbered(tasks)
    ensures forall m :: m in Passing(tasks, since, f) <==>
      since <= m.serial < |tasks| && tasks[m.serial].message == m && Wants(f, m)
    ensures Rising(Passing(tasks, since, f))
    decreases |tasks|
  {
    if |tasks| > since {
      var n := |tasks| - 1;
      var front, last := tasks[..n], tasks[n].message;
      PassingIff(front, since, f);
      WantsIff(f, last);
      var before, all := Passing(front, since, f), Passing(tasks, since, f);
      assert all == if Wants(f, last) then before + [last] else before;
      if Wants(f, last) { RisingSnoc(before, last); }
      forall m ensures m in all <==> since <= m.serial < |tasks| && tasks[m.serial].message == m && Wants(f, m) {
        assert m in all <==> m in before || (m == last && Wants(f, last));
        assert m.serial < n ==> front[m.serial] == tasks[m.serial];
      }
    }
  }

  predicate Rising(ms: seq<Message>) {
    forall x, y :: 0 <= x < y < |ms| ==> ms[x].serial < ms[y].serial
  }

  /** A message that a channel holds was meant for it. */
  lemma HeldIsMatched(events: seq<Event>, i: nat, m: Message)
    requires i < |Run(INIT, events).channels|
    requires var c := Run(INIT, events).channels[i];
             m in c.received || m in c.queue || m in c.dropped || m in c.lost
    ensures m in Run(INIT, events).channels[i].matched
  {
    Conservation(events, i, m);
    var c := Run(INIT, events).channels[i];
    InTimes(c.received, m);
    InTimes(c.queue, m);
    InTimes(c.dropped, m);
    InTimes(c.lost, m);
    InTimes(c.matched, m);
  }

  // ---------------------------------------------------------------- subscriptions over runs

  /** A subscription's channel is what was asked for, its capacity brought between 1 and 8192, over every later run. */
  lemma Subscribed(a: seq<Event>, id: string, f: Filter, capacity: nat, b: seq<Event>)
    ensures var i, start := |Run(INIT, a).channels|, |Run(INIT, a).tasks|;
            var s := Run(INIT, a + [Subscribe(id, f, capacity)] + b);
            && i < |s.channels| && start <= |s.tasks|
            && s.channels[i].owner == id && s.channels[i].filter == f && s.channels[i].since == start
            && (1 <= capacity <= 8192 ==> s.channels[i].capacity == capacity)
            && (capacity == 0 ==> s.channels[i].capacity == 1)
            && (capacity > 8192 ==> s.channels[i].capacity == 8192)
  {
    var before := Run(INIT, a);
    var e := Subscribe(id, f, capacity);
    RunAround(INIT, a, e, b);
    RunKeeps(Next(before, e), b);
    var after := Run(Next(before, e), b);
    assert KeptChannel(Next(before, e).channels[|before.channels|], after.channels[|before.channels|]);
  }

  /**
    In every run a subscription is sent only what it asked for: broadcasts that started after it, durable ones
    if it wants no others, on a topic equal to one of its patterns or beginning as a starred one does, in the
    order they started.
  */
  lemma OnlyWantedIsSent(a: seq<Event>, id: string, f: Filter, capacity: nat, b: seq<Event>, m: Message)
    requires var c := Run(INIT, a + [Subscribe(id, f, capacity)] + b).channels;
             var i := |Run(INIT, a).channels|;
             i < |c| && (m in c[i].matched || m in c[i].received || m in c[i].queue
                         || m in c[i].dropped || m in c[i].lost)
    ensures f.durableOnly ==> m.durable
    ensures exists pattern :: pattern in f.patterns
              && (pattern == m.topic || exists prefix :: pattern == prefix + "*" && prefix <= m.topic)
    ensures var s := Run(INIT, a + [Subscribe(id, f, capacity)] + b);
            && |Run(INIT, a).tasks| <= m.serial < |s.tasks| && s.tasks[m.serial].message == m
            && Rising(s.channels[|Run(INIT, a).channels|].matched)
  {
    var events, i := a + [Subscribe(id, f, capacity)] + b, |Run(INIT, a).channels|;
    Subscribed(a, id, f, capacity, b);
    var s := Run(INIT, events);
    if m !in s.channels[i].matched { HeldIsMatched(events, i, m); }
    Conservation(events, i, m);
    RunKeepsNames(INIT, events);
    PassingIff(s.tasks, s.channels[i].since, f);
    assert m in Passing(s.tasks, s.channels[i].since, f);
    assert Wants(f, m);
  }

  /**
    Conversely, while it is open, its name's latest and not undercut, every broadcast that it asked for is
    meant for it.
  */
  lemma EveryWantedIsMeant(
      a: seq<Event>, id: string, f: Filter, capacity: nat, b: seq<Event>, topic: string, durable: bool,
      targets: seq<Target>, d: seq<Event>)
    requires Snapshot(Run(INIT, a + [Subscribe(id, f, capacity)] + b), topic, durable, targets)
    requires var events := a + [Subscribe(id, f, capacity)] + b + [Broadcast(topic, durable, targets)] + d;
             var s, i := Run(INIT, events), |Run(INIT, a).channels|;
             i < |s.channels| && s.channels[i].open && Latest(s.channels, i) && i !in s.undercut
    requires f.durableOnly ==> durable
    requires exists pattern :: pattern in f.patterns
               && (pattern == topic || exists prefix :: pattern == prefix + "*" && prefix <= topic)
    ensures var events := a + [Subscribe(id, f, capacity)] + b;
            var m := Message(|Run(INIT, events).tasks|, topic, durable);
            m in Run(INIT, events + [Broadcast(topic, durable, targets)] + d).channels[|Run(INIT, a).channels|].matched
  {
    var before := a + [Subscribe(id, f, capacity)] + b;
    var e := Broadcast(topic, durable, targets);
    var events, i := before + [e] + d, |Run(INIT, a).channels|;
    var m := Message(|Run(INIT, before).tasks|, topic, durable);
    Subscribed(a, id, f, capacity, b);
    Subscribed(a, id, f, capacity, b + [e] + d);
    assert a + [Subscribe(id, f, capacity)] + (b + [e] + d) == events;
    RunAround(INIT, before, e, d);
    RunKeeps(Next(Run(INIT, before), e), d);
    var s := Run(INIT, events);
    assert s.tasks[m.serial].message == m;
    assert Wants(f, m);
    RunKeepsNames(INIT, events);
    Conservation(events, i, m);
    PassingIff(s.tasks, s.channels[i].since, f);
  }

  /**
    A broadcast is meant for exactly the registered channels whose filter asks for it, even one whose receiver is
    gone: nothing but the registration and the filter is looked at.
  */
  lemma MeantIff(s: State, topic: string, durable: bool, targets: seq<Target>, i: nat)
    requires Snapshot(s, topic, durable, targets) && i < |s.channels|
    ensures var c, m := s.channels[i], Message(|s.tasks|, topic, durable);
            Next(s, Broadcast(topic, durable, targets)).channels[i] ==
              if Registered(s, i) && Wants(c.filter, m) then c.(matched := c.matched + [m]) else c
  {
    WantsIff(s.channels[i].filter, Message(|s.tasks|, topic, durable));
  }

  // ---------------------------------------------------------------- who is served when

  /**
    An attempt on an open channel: with room for it and for everyone in line it is queued at the back; without
    room a durable broadcast joins the line at its end and an ephemeral one is dropped. No attempt changes
    another channel.
  */
  lemma AttemptOutcome(s: State, k: nat)
    requires AtTarget(s, k) && !s.tasks[k].waiting && !s.tasks[k].cancelled && FirstChannel(s, k).open
    ensures var i, m := s.tasks[k].targets[0].chan, s.tasks[k].message;
            var c, d := s.channels[i], Next(s, Try(k)).channels[i];
            && (|c.queue| + |c.waiters| < c.capacity ==> d == c.(queue := c.queue + [m]))
            && (|c.queue| + |c.waiters| >= c.capacity && m.durable ==> d == c.(waiters := c.waiters + [k]))
            && (|c.queue| + |c.waiters| >= c.capacity && !m.durable ==> d == c.(dropped := c.dropped + [m]))
            && (forall j :: 0 <= j < |s.channels| && j != i ==> Next(s, Try(k)).channels[j] == s.channels[j])
  {
  }

  /** A place in line that there is room for. */
  predicate RoomAt(c: Channel, p: nat, k: nat) {
    p < |c.waiters| && c.waiters[p] == k && |c.queue| + p < c.capacity
  }

  /** A waiting broadcast is delivered exactly when there is room for it and for everyone before it in line. */
  lemma DeliveredIff(s: State, k: nat, p: nat)
    requires Inv(s) && Waiting(s, k) && p < |FirstChannel(s, k).waiters| && FirstChannel(s, k).waiters[p] == k
    ensures var i, m := s.tasks[k].targets[0].chan, s.tasks[k].message;
            var c, next := s.channels[i], Next(s, Deliver(k));
            if |c.queue| + p < c.capacity then
              next.channels[i] == c.(queue := c.queue + [m], waiters := c.waiters[..p] + c.waiters[p + 1..])
            else next == s
  {
    var c := FirstChannel(s, k);
    WithoutMovesUp(c.waiters, k, p);
    if Granted(c, k) {
      var j :| 0 <= j < |c.waiters| && c.waiters[j] == k && |c.queue| + j < c.capacity;
      assert j == p;
    }
  }

  /** How one place in line changes when someone else leaves it. */
  lemma PlaceAfterLeaving(waiters: seq<nat>, x: nat, q: nat, k: nat, p: nat)
    requires Distinct(waiters) && q < |waiters| && waiters[q] == x && p < |waiters| && waiters[p] == k && x != k
    ensures var rest := Without(waiters, x);
            var place := if q < p then p - 1 else p;
            place < |rest| && rest[place] == k
  {
    WithoutMovesUp(waiters, x, q);
  }

  /** Someone else leaves the line: for the queue if it is `e.task`'s turn. */
  lemma LeavingKeepsRoom(s: State, e: Event, i: nat, p: nat, k: nat)
    requires Inv(s) && i < |s.channels| && RoomAt(s.channels[i], p, k)
    requires (e.Deliver? || e.GiveUp? || e.Cancel?) && e.task != k && Next(s, e) != s
    requires Waiting(s, e.task) && s.tasks[e.task].targets[0].chan == i
    ensures exists place: nat :: RoomAt(Next(s, e).channels[i], place, k)
  {
    var c, x := s.channels[i], e.task;
    assert WaitsOn(s.tasks, x, i);
    assert x in c.waiters;
    var q: nat :| q < |c.waiters| && c.waiters[q] == x && (e.Deliver? ==> |c.queue| + q < c.capacity);
    PlaceAfterLeaving(c.waiters, x, q, k, p);
    assert RoomAt(Next(s, e).channels[i], if q < p then p - 1 else p, k);
  }

  lemma LeavingItself(s: State, e: Event, i: nat, k: nat)
    requires Inv(s) && i < |s.channels| && k in s.channels[i].waiters
    requires (e.Deliver? || e.GiveUp? || e.Cancel?) && e.task == k && Next(s, e) != s
    ensures k !in Next(s, e).channels[i].waiters
  {
    assert WaitsOn(s.tasks, k, i);
    WithoutSpec(s.channels[i].waiters, k);
  }

  /**
    Room once given is never taken away: whatever happens next, a waiting broadcast there is room for has
    left the line or there is still room for it.
  */
  lemma RoomIsKept(s: State, e: Event, i: nat, p: nat, k: nat)
    requires Inv(s) && i < |s.channels| && RoomAt(s.channels[i], p, k)
    ensures var d := Next(s, e).channels[i];
            k in d.waiters ==> exists place: nat :: RoomAt(d, place, k)
  {
    var c := s.channels[i];
    assert k in c.waiters;
    if Next(s, e).channels[i] == c {
      assert RoomAt(Next(s, e).channels[i], p, k);
    } else if e.Deliver? || e.GiveUp? || e.Cancel? {
      if e.task == k {
        LeavingItself(s, e, i, k);
      } else {
        LeavingKeepsRoom(s, e, i, p, k);
      }
    } else {
      assert RoomAt(Next(s, e).channels[i], p, k);
    }
  }
}
