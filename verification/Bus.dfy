/**
  The live bus: bounded subscriber queues under interleaved broadcasts (daemon/src/bus/mod.rs).

  A broadcast snapshots its targets and then tries them one by one; between any two of its steps
  other broadcasts, receivers and subscribers may run. A channel is a tokio mpsc channel: freed
  permits go to waiting senders first, in the order they started to wait.
*/
module Bus {
  import opened Seqs

  datatype Filter = Filter(patterns: seq<string>, durableOnly: bool)

  /** One broadcast, numbered in the order broadcasts start. */
  datatype Message = Message(serial: nat, topic: string, durable: bool)

  datatype Target = Target(subscriber: string, chan: nat)

  /**
    A broadcast: the targets it has not finished with, whether it waits on the first of them, and
    whether its request was dropped while it did.
  */
  datatype Task = Task(message: Message, targets: seq<Target>, waiting: bool, cancelled: bool)

  /**
    One subscription's channel. `matched`, `received`, `dropped` and `lost` remember what was meant
    for it, what its receiver took, what a full queue refused, and what was sent after it closed.
  */
  datatype Channel = Channel(
    owner: string, filter: Filter, capacity: nat, since: nat, open: bool, queue: seq<Message>, waiters: seq<nat>,
    matched: seq<Message>, received: seq<Message>, dropped: seq<Message>, lost: seq<Message>)

  datatype Subscription = Subscription(chan: nat, dropped: nat)

  /** A drop: the name it was counted under, the channel that refused, and how many channels there were. */
  datatype Drop = Drop(owner: string, chan: nat, total: nat)

  /**
    `undercut` remembers the channels whose name a broadcast unregistered because it met an earlier
    channel of that name closed; `drops` remembers every drop.
  */
  datatype State = State(
    subs: map<string, Subscription>, channels: seq<Channel>, tasks: seq<Task>, undercut: set<nat>, drops: seq<Drop>)

  const INIT := State(map[], [], [], {}, [])

  // ---------------------------------------------------------------- filters

  /** `channel_pattern_matches` */
  predicate PatternMatches(pattern: string, topic: string) {
    || pattern == "*" || pattern == topic
    || (pattern != "" && pattern[|pattern| - 1] == '*' && pattern[..|pattern| - 1] <= topic)
  }

  /** `filter_matches` */
  predicate FilterMatches(f: Filter, topic: string, durable: bool) {
    (f.durableOnly ==> durable) && exists i :: 0 <= i < |f.patterns| && PatternMatches(f.patterns[i], topic)
  }

  /** A pattern is a name, or a prefix followed by a star. */
  lemma PatternMeaning(pattern: string, topic: string)
    ensures PatternMatches(pattern, topic)
       <==> pattern == topic || exists prefix :: pattern == prefix + "*" && prefix <= topic
  {
    if pattern != "" && pattern[|pattern| - 1] == '*' {
      assert pattern == pattern[..|pattern| - 1] + "*";
    }
    forall prefix | pattern == prefix + "*" && prefix <= topic ensures PatternMatches(pattern, topic) {
      assert pattern[..|pattern| - 1] == prefix;
    }
  }

  // ---------------------------------------------------------------- steps

  datatype Event =
    | Subscribe(subscriber: string, filter: Filter, capacity: nat)
    | Broadcast(topic: string, durable: bool, targets: seq<Target>)
    | Try(task: nat)
    | Deliver(task: nat)
    | GiveUp(task: nat)
    | Cancel(task: nat)
    | Receive(chan: nat)
    | Close(chan: nat)

  function Clamp(n: nat, lo: nat, hi: nat): nat {
    if n < lo then lo else if n > hi then hi else n
  }

  /** `targets` is the snapshot of the matching subscriptions, in any order. */
  ghost predicate Snapshot(s: State, topic: string, durable: bool, targets: seq<Target>) {
    && Distinct(targets)
    && forall t :: t in targets <==>
         && t.subscriber in s.subs && s.subs[t.subscriber].chan == t.chan && t.chan < |s.channels|
         && FilterMatches(s.channels[t.chan].filter, topic, durable)
  }

  /** A task that has finished with its first target. */
  function Advance(t: Task): Task
    requires t.targets != []
  {
    t.(targets := t.targets[1..], waiting := false)
  }

  function Without(waiters: seq<nat>, task: nat): seq<nat> {
    if waiters == [] then []
    else if waiters[0] == task then waiters[1..]
    else [waiters[0]] + Without(waiters[1..], task)
  }

  /** A sender gets through when a permit is neither used nor promised to a waiter. */
  predicate HasPermit(c: Channel) {
    |c.queue| + |c.waiters| < c.capacity
  }

  /** A waiter holds a permit once there is room for it and everyone before it. */
  predicate Granted(c: Channel, task: nat) {
    exists i :: 0 <= i < |c.waiters| && c.waiters[i] == task && |c.queue| + i < c.capacity
  }

  /** Broadcast `task` has a target left, and its channel exists. */
  predicate AtTarget(s: State, task: nat) {
    task < |s.tasks| && s.tasks[task].targets != [] && s.tasks[task].targets[0].chan < |s.channels|
  }

  /** Broadcast `task` waits for a permit. */
  predicate Waiting(s: State, task: nat) {
    AtTarget(s, task) && s.tasks[task].waiting
  }

  function FirstChannel(s: State, task: nat): Channel
    requires AtTarget(s, task)
  {
    s.channels[s.tasks[task].targets[0].chan]
  }

  /** The new channel and task of a step at the first target of `task`. */
  function Put(s: State, task: nat, c: Channel, t: Task): State
    requires AtTarget(s, task)
  {
    s.(channels := s.channels[s.tasks[task].targets[0].chan := c], tasks := s.tasks[task := t])
  }

  /** `record_drop` for a full queue: the counter of whoever is subscribed under that name now. */
  function RecordDrop(subs: map<string, Subscription>, subscriber: string): map<string, Subscription> {
    if subscriber in subs then subs[subscriber := subs[subscriber].(dropped := subs[subscriber].dropped + 1)] else subs
  }

  /** The channels opened under a name after channel `i`. */
  function LaterOf(channels: seq<Channel>, name: string, i: nat): set<nat> {
    set j | i < j < |channels| && channels[j].owner == name
  }

  /** The `try_send` of `broadcast`, and what follows from its answer. */
  function Tried(s: State, task: nat): State
    requires AtTarget(s, task)
  {
    var t := s.tasks[task];
    var subscriber := t.targets[0].subscriber;
    var i := t.targets[0].chan;
    var c := s.channels[i];
    if !c.open then
      Put(s, task, c.(lost := c.lost + [t.message]), Advance(t)).(
        subs := s.subs - {subscriber}, undercut := s.undercut + LaterOf(s.channels, subscriber, i))
    else if HasPermit(c) then
      Put(s, task, c.(queue := c.queue + [t.message]), Advance(t))
    else if t.message.durable then
      Put(s, task, c.(waiters := c.waiters + [task]), t.(waiting := true))
    else
      Put(s, task, c.(dropped := c.dropped + [t.message]), Advance(t)).(
        subs := RecordDrop(s.subs, subscriber), drops := s.drops + [Drop(subscriber, i, |s.channels|)])
  }

  /** The last step of a task that waited: its message is where `c` says, and its place in line is free. */
  function Finished(s: State, task: nat, c: Channel): State
    requires AtTarget(s, task)
  {
    Put(s, task, c.(waiters := Without(c.waiters, task)), Advance(s.tasks[task]))
  }

  /** What a subscription's channel has been matched with once one more broadcast starts. */
  function Matched(c: Channel, i: nat, m: Message, targets: seq<Target>): Channel {
    if Target(c.owner, i) in targets then c.(matched := c.matched + [m]) else c
  }

  ghost function Next(s: State, e: Event): State {
    match e
    case Subscribe(id, filter, capacity) =>
      var c := Channel(id, filter, Clamp(capacity, 1, 8192), |s.tasks|, true, [], [], [], [], [], []);
      s.(subs := s.subs[id := Subscription(|s.channels|, 0)], channels := s.channels + [c])
    case Broadcast(topic, durable, targets) =>
      if Snapshot(s, topic, durable, targets) then
        var m := Message(|s.tasks|, topic, durable);
        s.(tasks := s.tasks + [Task(m, targets, false, false)],
           channels := AllMatched(s.channels, m, targets))
      else s
    case Try(task) =>
      if AtTarget(s, task) && !s.tasks[task].waiting && !s.tasks[task].cancelled then Tried(s, task) else s
    case Deliver(task) =>
      if Waiting(s, task) && Granted(FirstChannel(s, task), task) then
        var c := FirstChannel(s, task);
        Finished(s, task, c.(queue := c.queue + [s.tasks[task].message]))
      else s
    case GiveUp(task) =>
      if Waiting(s, task) && !FirstChannel(s, task).open then
        var c := FirstChannel(s, task);
        Finished(s, task, c.(lost := c.lost + [s.tasks[task].message]))
      else s
    case Cancel(task) =>
      if Waiting(s, task) then
        var c := FirstChannel(s, task);
        Put(s, task, c.(waiters := Without(c.waiters, task)), s.tasks[task].(waiting := false, cancelled := true))
      else s
    case Receive(i) =>
      if i < |s.channels| && s.channels[i].open && s.channels[i].queue != [] then
        var c := s.channels[i];
        s.(channels := s.channels[i := c.(queue := c.queue[1..], received := c.received + [c.queue[0]])])
      else s
    case Close(i) =>
      if i < |s.channels| then s.(channels := s.channels[i := s.channels[i].(open := false)]) else s
  }

  ghost function Run(s: State, events: seq<Event>): State
    decreases |events|
  {
    if events == [] then s else Run(Next(s, events[0]), events[1..])
  }

  // ---------------------------------------------------------------- conservation

  /** How often `m` is still to be sent to channel `i` by a task with message `own` and these targets. */
  function Left(targets: seq<Target>, own: Message, i: nat, m: Message): nat {
    if targets == [] then 0
    else (if targets[0].chan == i && own == m then 1 else 0) + Left(targets[1..], own, i, m)
  }

  /** How often broadcasts have not finished with `m` at channel `i`. */
  function Unsent(tasks: seq<Task>, i: nat, m: Message): nat {
    if tasks == [] then 0
    else
      var last := tasks[|tasks| - 1];
      Unsent(tasks[..|tasks| - 1], i, m) + Left(last.targets, last.message, i, m)
  }

  /** The part of it that running broadcasts still bring: waiting, or not yet attempted. */
  function OnTheWay(tasks: seq<Task>, i: nat, m: Message): nat {
    if tasks == [] then 0
    else
      var last := tasks[|tasks| - 1];
      OnTheWay(tasks[..|tasks| - 1], i, m) + if last.cancelled then 0 else Left(last.targets, last.message, i, m)
  }

  /** The part of it that cancelled broadcasts never bring. */
  function Abandoned(tasks: seq<Task>, i: nat, m: Message): nat {
    if tasks == [] then 0
    else
      var last := tasks[|tasks| - 1];
      Abandoned(tasks[..|tasks| - 1], i, m) + if last.cancelled then Left(last.targets, last.message, i, m) else 0
  }

  lemma {:induction false} UnsentSplits(tasks: seq<Task>, i: nat, m: Message)
    ensures Unsent(tasks, i, m) == OnTheWay(tasks, i, m) + Abandoned(tasks, i, m)
    decreases |tasks|
  {
    if tasks != [] { UnsentSplits(tasks[..|tasks| - 1], i, m); }
  }

  lemma {:induction false} UnsentUpdate(tasks: seq<Task>, k: nat, t: Task, i: nat, m: Message)
    requires k < |tasks|
    ensures Unsent(tasks[k := t], i, m) + Left(tasks[k].targets, tasks[k].message, i, m)
         == Unsent(tasks, i, m) + Left(t.targets, t.message, i, m)
    decreases |tasks|
  {
    var n := |tasks| - 1;
    if k < n {
      UnsentUpdate(tasks[..n], k, t, i, m);
      assert tasks[k := t][..n] == tasks[..n][k := t];
    } else {
      assert tasks[k := t][..n] == tasks[..n];
    }
  }

  function Times(s: seq<Message>, m: Message): nat {
    multiset(s)[m]
  }

  function Held(c: Channel, m: Message): nat {
    Times(c.received, m) + Times(c.queue, m) + Times(c.dropped, m) + Times(c.lost, m)
  }

  /** Every message meant for a channel is received, queued, dropped, lost to its closing, or not yet sent. */
  predicate Conserved(c: Channel, tasks: seq<Task>, i: nat, m: Message) {
    Times(c.matched, m) == Held(c, m) + Unsent(tasks, i, m)
  }

  ghost predicate ChannelInv(c: Channel) {
    && 1 <= c.capacity <= 8192 && |c.queue| <= c.capacity
    && (forall m :: m in c.dropped ==> !m.durable)
    && (c.open ==> c.lost == [])
  }

  ghost predicate AllConserved(channels: seq<Channel>, tasks: seq<Task>) {
    forall i: nat, m | i < |channels| :: Conserved(channels[i], tasks, i, m)
  }

  ghost predicate ChannelsInv(channels: seq<Channel>) {
    forall i :: 0 <= i < |channels| ==> ChannelInv(channels[i])
  }

  /** A target names the subscriber that owns its channel. */
  predicate TargetInv(channels: seq<Channel>, t: Target) {
    t.chan < |channels| && channels[t.chan].owner == t.subscriber
  }

  ghost predicate TargetsInv(channels: seq<Channel>, tasks: seq<Task>) {
    forall k, t :: 0 <= k < |tasks| && t in tasks[k].targets ==> TargetInv(channels, t)
  }

  /** The messages from number `since` on that pass `f`. */
  function Passing(tasks: seq<Task>, since: nat, f: Filter): seq<Message> {
    if |tasks| <= since then []
    else
      var m := tasks[|tasks| - 1].message;
      Passing(tasks[..|tasks| - 1], since, f) + if FilterMatches(f, m.topic, m.durable) then [m] else []
  }

  /** No other channel was ever opened under the same name. */
  ghost predicate OnlyChannel(channels: seq<Channel>, i: nat)
    requires i < |channels|
  {
    forall j :: 0 <= j < |channels| && channels[j].owner == channels[i].owner ==> j == i
  }

  /** No channel was opened under the same name after this one. */
  ghost predicate Latest(channels: seq<Channel>, i: nat)
    requires i < |channels|
  {
    forall j :: i < j < |channels| ==> channels[j].owner != channels[i].owner
  }

  /** `d` was counted under this name, on another channel, after channel `i` opened. */
  predicate ChargedTo(d: Drop, id: string, i: nat) {
    d.owner == id && d.chan != i && d.total > i
  }

  function Charged(drops: seq<Drop>, id: string, i: nat): nat {
    if drops == [] then 0
    else Charged(drops[..|drops| - 1], id, i) + if ChargedTo(drops[|drops| - 1], id, i) then 1 else 0
  }

  ghost predicate DropsInv(channels: seq<Channel>, drops: seq<Drop>) {
    forall d :: d in drops ==> d.chan < |channels| && channels[d.chan].owner == d.owner && d.total <= |channels|
  }

  /** A channel has been matched with the first of what passed its filter since it began, in order. */
  ghost predicate MatchInv(c: Channel, tasks: seq<Task>) {
    c.since <= |tasks| && c.matched <= Passing(tasks, c.since, c.filter)
  }

  ghost predicate MatchesInv(channels: seq<Channel>, tasks: seq<Task>) {
    forall i :: 0 <= i < |channels| ==> MatchInv(channels[i], tasks)
  }

  /**
    A current subscription has been matched with everything that passed its filter since it began,
    and its counter is the number of its drops and of those charged to its name by other channels.
  */
  ghost predicate SubInv(id: string, sub: Subscription, channels: seq<Channel>, tasks: seq<Task>, drops: seq<Drop>) {
    && sub.chan < |channels|
    && var c := channels[sub.chan];
       && c.owner == id && c.since <= |tasks|
       && c.matched == Passing(tasks, c.since, c.filter)
       && sub.dropped == |c.dropped| + Charged(drops, id, sub.chan)
  }

  ghost predicate SubsInv(subs: map<string, Subscription>, channels: seq<Channel>, tasks: seq<Task>, drops: seq<Drop>) {
    forall id :: id in subs ==> SubInv(id, subs[id], channels, tasks, drops)
  }

  /** Broadcasts carry their numbers. */
  predicate Numbered(tasks: seq<Task>) {
    forall k :: 0 <= k < |tasks| ==> tasks[k].message.serial == k
  }

  /** Task `k` waits on channel `i`. */
  predicate WaitsOn(tasks: seq<Task>, k: nat, i: nat) {
    && k < |tasks| && tasks[k].waiting && !tasks[k].cancelled
    && tasks[k].targets != [] && tasks[k].targets[0].chan == i && tasks[k].message.durable
  }

  /** A channel lists exactly the tasks that wait on it, each once; a task that waits, waits on its first target. */
  ghost predicate WaitersInv(channels: seq<Channel>, tasks: seq<Task>) {
    && (forall i :: 0 <= i < |channels| ==> Distinct(channels[i].waiters))
    && (forall i: nat, k: nat | i < |channels| :: k in channels[i].waiters <==> WaitsOn(tasks, k, i))
    && (forall k: nat | k < |tasks| && tasks[k].waiting ::
         tasks[k].targets != [] && WaitsOn(tasks, k, tasks[k].targets[0].chan))
  }

  ghost predicate Inv(s: State) {
    && WaitersInv(s.channels, s.tasks)
    && Numbered(s.tasks)
    && ChannelsInv(s.channels) && AllConserved(s.channels, s.tasks)
    && TargetsInv(s.channels, s.tasks)
    && MatchesInv(s.channels, s.tasks)
    && DropsInv(s.channels, s.drops)
    && SubsInv(s.subs, s.channels, s.tasks, s.drops)
  }

  // ---------------------------------------------------------------- a step at one target

  lemma {:induction false} PassingSame(tasks: seq<Task>, k: nat, t: Task, since: nat, f: Filter)
    requires k < |tasks| && t.message == tasks[k].message
    ensures Passing(tasks[k := t], since, f) == Passing(tasks, since, f)
    decreases |tasks|
  {
    if |tasks| > since {
      var n := |tasks| - 1;
      if k < n {
        PassingSame(tasks[..n], k, t, since, f);
        assert tasks[k := t][..n] == tasks[..n][k := t];
      } else {
        assert tasks[k := t][..n] == tasks[..n];
      }
    }
  }

  /** Neither its owner nor what it was opened for and matched with changes. */
  predicate SameSubscription(c: Channel, d: Channel) {
    c.owner == d.owner && c.filter == d.filter && c.since == d.since && c.matched == d.matched
  }

  /** `d` holds what `c` holds, and `sent` once more if `extra`. */
  ghost predicate HoldsMore(c: Channel, d: Channel, extra: bool, sent: Message) {
    forall m :: Held(d, m) == Held(c, m) + if extra && m == sent then 1 else 0
  }

  /** A step at task `k`'s first target: what leaves its targets goes into the channel. */
  ghost predicate Moves(channels: seq<Channel>, tasks: seq<Task>, k: nat, d: Channel, t: Task) {
    && k < |tasks| && tasks[k].targets != [] && tasks[k].targets[0].chan < |channels|
    && var i := tasks[k].targets[0].chan;
       && SameSubscription(channels[i], d) && ChannelInv(d) && t.message == tasks[k].message
       && (t.targets == tasks[k].targets || t.targets == tasks[k].targets[1..])
       && HoldsMore(channels[i], d, t.targets != tasks[k].targets, t.message)
  }

  lemma {:induction false} WithoutSpec(waiters: seq<nat>, k: nat)
    requires Distinct(waiters)
    ensures Distinct(Without(waiters, k))
    ensures forall x :: x in Without(waiters, k) <==> x in waiters && x != k
    decreases |waiters|
  {
    if waiters != [] {
      var rest := waiters[1..];
      WithoutSpec(rest, k);
      assert waiters == [waiters[0]] + rest && waiters[0] !in rest;
      var r := Without(rest, k);
      assert forall j :: 0 <= j < |r| ==> r[j] in r;
    }
  }

  /** How a step at task `k` changes the waiters of its channel. */
  ghost predicate WaitersFollow(c: Channel, d: Channel, k: nat, t: Task) {
    && Distinct(d.waiters)
    && (forall x :: x != k ==> (x in d.waiters <==> x in c.waiters))
    && (k in d.waiters <==> t.waiting)
  }

  lemma MoveKeepsWaiters(channels: seq<Channel>, tasks: seq<Task>, k: nat, d: Channel, t: Task, later: seq<Channel>)
    requires WaitersInv(channels, tasks) && Moves(channels, tasks, k, d, t)
    requires WaitersFollow(channels[tasks[k].targets[0].chan], d, k, t)
    requires t.waiting ==> t.targets == tasks[k].targets && t.message.durable && !t.cancelled
    requires later == channels[tasks[k].targets[0].chan := d]
    ensures WaitersInv(later, tasks[k := t])
  {
    var i := tasks[k].targets[0].chan;
    var moved := tasks[k := t];
    forall j: nat, x: nat | j < |later| ensures x in later[j].waiters <==> WaitsOn(moved, x, j) {
      assert x in channels[j].waiters <==> WaitsOn(tasks, x, j);
    }
    forall x: nat | x < |moved| && moved[x].waiting
      ensures moved[x].targets != [] && WaitsOn(moved, x, moved[x].targets[0].chan)
    {
      if x != k { assert WaitsOn(tasks, x, tasks[x].targets[0].chan); }
    }
  }

  lemma MoveConserves(channels: seq<Channel>, tasks: seq<Task>, k: nat, d: Channel, t: Task, j: nat, m: Message)
    requires Moves(channels, tasks, k, d, t) && j < |channels| && Conserved(channels[j], tasks, j, m)
    ensures var i := tasks[k].targets[0].chan; Conserved(if j == i then d else channels[j], tasks[k := t], j, m)
  {
    UnsentUpdate(tasks, k, t, j, m);
    var i := tasks[k].targets[0].chan;
    assert Held(d, m) == Held(channels[i], m) + if t.targets != tasks[k].targets && m == t.message then 1 else 0;
  }

  lemma MoveKeepsChannels(channels: seq<Channel>, tasks: seq<Task>, k: nat, d: Channel, t: Task, later: seq<Channel>)
    requires ChannelsInv(channels) && AllConserved(channels, tasks) && Moves(channels, tasks, k, d, t)
    requires later == channels[tasks[k].targets[0].chan := d]
    ensures ChannelsInv(later) && AllConserved(later, tasks[k := t])
  {
    var moved := tasks[k := t];
    forall j: nat, m | j < |later| ensures Conserved(later[j], moved, j, m) {
      MoveConserves(channels, tasks, k, d, t, j, m);
    }
  }

  lemma MoveKeepsTargets(channels: seq<Channel>, tasks: seq<Task>, k: nat, d: Channel, t: Task, later: seq<Channel>)
    requires TargetsInv(channels, tasks) && Moves(channels, tasks, k, d, t)
    requires later == channels[tasks[k].targets[0].chan := d]
    ensures TargetsInv(later, tasks[k := t])
  {
    var moved := tasks[k := t];
    forall j, x | 0 <= j < |moved| && x in moved[j].targets ensures TargetInv(later, x) {
      assert x in tasks[j].targets;
      assert TargetInv(channels, x);
    }
  }

  lemma MoveKeepsMatches(channels: seq<Channel>, tasks: seq<Task>, k: nat, d: Channel, t: Task, later: seq<Channel>)
    requires MatchesInv(channels, tasks) && Moves(channels, tasks, k, d, t)
    requires later == channels[tasks[k].targets[0].chan := d]
    ensures MatchesInv(later, tasks[k := t])
  {
    forall i | 0 <= i < |later| ensures MatchInv(later[i], tasks[k := t]) {
      assert MatchInv(channels[i], tasks);
      PassingSame(tasks, k, t, channels[i].since, channels[i].filter);
    }
  }

  lemma MoveKeepsDrops(channels: seq<Channel>, i: nat, d: Channel, drops: seq<Drop>)
    requires i < |channels| && DropsInv(channels, drops) && d.owner == channels[i].owner
    ensures DropsInv(channels[i := d], drops)
  {
  }

  lemma MoveKeepsSub(
      id: string, sub: Subscription, s: State, k: nat, d: Channel, t: Task, later: seq<Channel>)
    requires SubInv(id, sub, s.channels, s.tasks, s.drops) && Moves(s.channels, s.tasks, k, d, t)
    requires var i := s.tasks[k].targets[0].chan;
             later == s.channels[i := d] && d.dropped == s.channels[i].dropped
    ensures SubInv(id, sub, later, s.tasks[k := t], s.drops)
  {
    var c := s.channels[sub.chan];
    PassingSame(s.tasks, k, t, c.since, c.filter);
  }

  lemma ChargedMore(drops: seq<Drop>, d: Drop, id: string, i: nat)
    ensures Charged(drops + [d], id, i) == Charged(drops, id, i) + if ChargedTo(d, id, i) then 1 else 0
  {
    assert (drops + [d])[..|drops|] == drops;
  }

  /** A drop is counted by whoever holds the name, and charged to it unless the channel is its own. */
  lemma DropKeepsSub(
      id: string, sub: Subscription, s: State, k: nat, d: Channel, t: Task, later: seq<Channel>, drop: Drop)
    requires SubInv(id, sub, s.channels, s.tasks, s.drops) && Moves(s.channels, s.tasks, k, d, t)
    requires TargetInv(s.channels, s.tasks[k].targets[0])
    requires later == s.channels[s.tasks[k].targets[0].chan := d]
    requires d.dropped == s.channels[s.tasks[k].targets[0].chan].dropped + [t.message]
    requires drop == Drop(s.tasks[k].targets[0].subscriber, s.tasks[k].targets[0].chan, |s.channels|)
    ensures SubInv(id, if id == drop.owner then sub.(dropped := sub.dropped + 1) else sub,
                   later, s.tasks[k := t], s.drops + [drop])
  {
    var c := s.channels[sub.chan];
    PassingSame(s.tasks, k, t, c.since, c.filter);
    ChargedMore(s.drops, drop, id, sub.chan);
  }

  lemma PutKeepsInv(s: State, k: nat, d: Channel, t: Task)
    requires Inv(s) && Moves(s.channels, s.tasks, k, d, t)
    requires WaitersFollow(s.channels[s.tasks[k].targets[0].chan], d, k, t)
    requires t.waiting ==> t.targets == s.tasks[k].targets && t.message.durable && !t.cancelled
    requires d.dropped == s.channels[s.tasks[k].targets[0].chan].dropped
    ensures Inv(Put(s, k, d, t))
  {
    var later := Put(s, k, d, t).channels;
    MoveKeepsWaiters(s.channels, s.tasks, k, d, t, later);
    MoveKeepsChannels(s.channels, s.tasks, k, d, t, later);
    MoveKeepsTargets(s.channels, s.tasks, k, d, t, later);
    MoveKeepsMatches(s.channels, s.tasks, k, d, t, later);
    MoveKeepsDrops(s.channels, s.tasks[k].targets[0].chan, d, s.drops);
    forall id | id in s.subs ensures SubInv(id, s.subs[id], later, s.tasks[k := t], s.drops) {
      MoveKeepsSub(id, s.subs[id], s, k, d, t, later);
    }
  }

  lemma DropKeepsInv(s: State, k: nat, d: Channel, t: Task, drop: Drop)
    requires Inv(s) && Moves(s.channels, s.tasks, k, d, t)
    requires WaitersFollow(s.channels[s.tasks[k].targets[0].chan], d, k, t) && !t.waiting
    requires d.dropped == s.channels[s.tasks[k].targets[0].chan].dropped + [t.message]
    requires drop == Drop(s.tasks[k].targets[0].subscriber, s.tasks[k].targets[0].chan, |s.channels|)
    ensures Inv(Put(s, k, d, t).(subs := RecordDrop(s.subs, drop.owner), drops := s.drops + [drop]))
  {
    var later := Put(s, k, d, t).channels;
    MoveKeepsWaiters(s.channels, s.tasks, k, d, t, later);
    MoveKeepsChannels(s.channels, s.tasks, k, d, t, later);
    MoveKeepsTargets(s.channels, s.tasks, k, d, t, later);
    MoveKeepsMatches(s.channels, s.tasks, k, d, t, later);
    MoveKeepsDrops(s.channels, s.tasks[k].targets[0].chan, d, s.drops);
    assert s.tasks[k].targets[0] in s.tasks[k].targets;
    assert TargetInv(s.channels, s.tasks[k].targets[0]);
    forall id | id in s.subs
      ensures SubInv(id, RecordDrop(s.subs, drop.owner)[id], later, s.tasks[k := t], s.drops + [drop])
    {
      DropKeepsSub(id, s.subs[id], s, k, d, t, later, drop);
    }
  }

  lemma FewerSubsKeepInv(s: State, subscriber: string, undercut: set<nat>)
    requires Inv(s)
    ensures Inv(s.(subs := s.subs - {subscriber}, undercut := undercut))
  {
  }

  lemma TriedKeepsInv(s: State, k: nat)
    requires Inv(s) && AtTarget(s, k) && !s.tasks[k].waiting && !s.tasks[k].cancelled
    ensures Inv(Tried(s, k))
  {
    var t := s.tasks[k];
    var i := t.targets[0].chan;
    var c := s.channels[i];
    assert ChannelInv(c);
    assert k !in c.waiters <==> !WaitsOn(s.tasks, k, i);
    if !c.open {
      PutKeepsInv(s, k, c.(lost := c.lost + [t.message]), Advance(t));
      FewerSubsKeepInv(Put(s, k, c.(lost := c.lost + [t.message]), Advance(t)), t.targets[0].subscriber,
        Tried(s, k).undercut);
    } else if HasPermit(c) {
      PutKeepsInv(s, k, c.(queue := c.queue + [t.message]), Advance(t));
    } else if t.message.durable {
      PutKeepsInv(s, k, c.(waiters := c.waiters + [k]), t.(waiting := true));
    } else {
      DropKeepsInv(s, k, c.(dropped := c.dropped + [t.message]), Advance(t),
        Drop(t.targets[0].subscriber, i, |s.channels|));
    }
  }

  // ---------------------------------------------------------------- the other steps

  lemma {:induction false} LeftOnce(channels: seq<Channel>, targets: seq<Target>, own: Message, i: nat, m: Message)
    requires Distinct(targets) && forall t :: t in targets ==> TargetInv(channels, t)
    requires i < |channels|
    ensures Left(targets, own, i, m) == if own == m && Target(channels[i].owner, i) in targets then 1 else 0
    decreases |targets|
  {
    if targets != [] {
      assert TargetInv(channels, targets[0]);
      LeftOnce(channels, targets[1..], own, i, m);
      assert targets[0] !in targets[1..];
    }
  }

  lemma SnapshotTargets(s: State, topic: string, durable: bool, targets: seq<Target>)
    requires SubsInv(s.subs, s.channels, s.tasks, s.drops) && Snapshot(s, topic, durable, targets)
    ensures forall t :: t in targets ==> TargetInv(s.channels, t)
  {
    forall t | t in targets ensures TargetInv(s.channels, t) {
      assert SubInv(t.subscriber, s.subs[t.subscriber], s.channels, s.tasks, s.drops);
    }
  }

  /** The channels after a broadcast has taken its snapshot. */
  function AllMatched(channels: seq<Channel>, m: Message, targets: seq<Target>): (r: seq<Channel>)
    ensures |r| == |channels| && forall i :: 0 <= i < |r| ==> r[i] == Matched(channels[i], i, m, targets)
  {
    seq(|channels|, i requires 0 <= i < |channels| => Matched(channels[i], i, m, targets))
  }

  lemma MatchConserves(channels: seq<Channel>, tasks: seq<Task>, task: Task, i: nat, m: Message)
    requires i < |channels| && Conserved(channels[i], tasks, i, m)
    requires Distinct(task.targets) && forall t :: t in task.targets ==> TargetInv(channels, t)
    ensures Conserved(Matched(channels[i], i, task.message, task.targets), tasks + [task], i, m)
  {
    assert (tasks + [task])[..|tasks|] == tasks;
    LeftOnce(channels, task.targets, task.message, i, m);
  }

  lemma MatchKeepsTargets(channels: seq<Channel>, tasks: seq<Task>, task: Task, later: seq<Channel>)
    requires TargetsInv(channels, tasks) && forall t :: t in task.targets ==> TargetInv(channels, t)
    requires later == AllMatched(channels, task.message, task.targets)
    ensures TargetsInv(later, tasks + [task])
  {
    forall k, t | 0 <= k < |tasks + [task]| && t in (tasks + [task])[k].targets ensures TargetInv(later, t) {
      assert TargetInv(channels, t) by {
        if k < |tasks| { assert t in tasks[k].targets; }
      }
    }
  }

  lemma MatchKeepsWaiters(channels: seq<Channel>, tasks: seq<Task>, task: Task, later: seq<Channel>)
    requires WaitersInv(channels, tasks) && !task.waiting
    requires later == AllMatched(channels, task.message, task.targets)
    ensures WaitersInv(later, tasks + [task])
  {
    var moved := tasks + [task];
    forall i: nat, k: nat | i < |later| ensures k in later[i].waiters <==> WaitsOn(moved, k, i) {
      assert k in channels[i].waiters <==> WaitsOn(tasks, k, i);
    }
    forall k: nat | k < |moved| && moved[k].waiting
      ensures moved[k].targets != [] && WaitsOn(moved, k, moved[k].targets[0].chan)
    {
      assert WaitsOn(tasks, k, tasks[k].targets[0].chan);
    }
  }

  lemma MatchKeepsSub(id: string, sub: Subscription, s: State, task: Task, later: seq<Channel>)
    requires SubInv(id, sub, s.channels, s.tasks, s.drops)
    requires later == AllMatched(s.channels, task.message, task.targets)
    requires Target(id, sub.chan) in task.targets <==>
      FilterMatches(s.channels[sub.chan].filter, task.message.topic, task.message.durable)
    ensures SubInv(id, sub, later, s.tasks + [task], s.drops)
  {
    assert (s.tasks + [task])[..|s.tasks|] == s.tasks;
  }

  /** A snapshot only holds registered channels, which have been matched with everything so far. */
  lemma MatchKeepsMatch(s: State, i: nat, topic: string, durable: bool, targets: seq<Target>)
    requires Inv(s) && Snapshot(s, topic, durable, targets) && i < |s.channels|
    ensures var task := Task(Message(|s.tasks|, topic, durable), targets, false, false);
            MatchInv(Matched(s.channels[i], i, task.message, targets), s.tasks + [task])
  {
    var task := Task(Message(|s.tasks|, topic, durable), targets, false, false);
    var c := s.channels[i];
    assert MatchInv(c, s.tasks);
    assert (s.tasks + [task])[..|s.tasks|] == s.tasks;
    if Target(c.owner, i) in targets {
      assert SubInv(c.owner, s.subs[c.owner], s.channels, s.tasks, s.drops);
    }
  }

  lemma BroadcastKeepsInv(s: State, topic: string, durable: bool, targets: seq<Target>)
    requires Inv(s) && Snapshot(s, topic, durable, targets)
    ensures Inv(Next(s, Broadcast(topic, durable, targets)))
  {
    var task := Task(Message(|s.tasks|, topic, durable), targets, false, false);
    var later := AllMatched(s.channels, task.message, targets);
    SnapshotTargets(s, topic, durable, targets);
    forall i: nat, m | i < |later| ensures Conserved(later[i], s.tasks + [task], i, m) {
      MatchConserves(s.channels, s.tasks, task, i, m);
    }
    forall i | 0 <= i < |later| ensures ChannelInv(later[i]) && MatchInv(later[i], s.tasks + [task]) {
      assert ChannelInv(s.channels[i]);
      MatchKeepsMatch(s, i, topic, durable, targets);
    }
    MatchKeepsTargets(s.channels, s.tasks, task, later);
    MatchKeepsWaiters(s.channels, s.tasks, task, later);
    forall id | id in s.subs ensures SubInv(id, s.subs[id], later, s.tasks + [task], s.drops) {
      MatchKeepsSub(id, s.subs[id], s, task, later);
    }
  }

  lemma {:induction false} NothingLeft(channels: seq<Channel>, targets: seq<Target>, own: Message, i: nat, m: Message)
    requires i >= |channels| && forall t :: t in targets ==> TargetInv(channels, t)
    ensures Left(targets, own, i, m) == 0
    decreases |targets|
  {
    if targets != [] {
      assert TargetInv(channels, targets[0]);
      NothingLeft(channels, targets[1..], own, i, m);
    }
  }

  lemma {:induction false} NothingUnsent(channels: seq<Channel>, tasks: seq<Task>, i: nat, m: Message)
    requires TargetsInv(channels, tasks) && i >= |channels|
    ensures Unsent(tasks, i, m) == 0
    decreases |tasks|
  {
    if tasks != [] {
      var n := |tasks| - 1;
      assert TargetsInv(channels, tasks[..n]) by {
        forall k, t | 0 <= k < n && t in tasks[..n][k].targets ensures TargetInv(channels, t) {
          assert t in tasks[k].targets;
        }
      }
      NothingUnsent(channels, tasks[..n], i, m);
      NothingLeft(channels, tasks[n].targets, tasks[n].message, i, m);
    }
  }

  lemma OpenKeepsWaiters(channels: seq<Channel>, tasks: seq<Task>, c: Channel, later: seq<Channel>)
    requires WaitersInv(channels, tasks) && TargetsInv(channels, tasks)
    requires later == channels + [c] && c.waiters == []
    ensures WaitersInv(later, tasks)
  {
    forall i: nat, k: nat | i < |later| ensures k in later[i].waiters <==> WaitsOn(tasks, k, i) {
      if i < |channels| {
        assert k in channels[i].waiters <==> WaitsOn(tasks, k, i);
      } else if k < |tasks| && tasks[k].targets != [] {
        assert TargetInv(channels, tasks[k].targets[0]);
      }
    }
  }

  lemma {:induction false} NothingCharged(drops: seq<Drop>, id: string, i: nat)
    requires forall d :: d in drops ==> !ChargedTo(d, id, i)
    ensures Charged(drops, id, i) == 0
    decreases |drops|
  {
    if drops != [] { NothingCharged(drops[..|drops| - 1], id, i); }
  }

  lemma SubscribeKeepsInv(s: State, id: string, filter: Filter, capacity: nat)
    requires Inv(s)
    ensures Inv(Next(s, Subscribe(id, filter, capacity)))
  {
    var next := Next(s, Subscribe(id, filter, capacity));
    var n := |s.channels|;
    var later := next.channels;
    forall i: nat, m | i < |later| ensures Conserved(later[i], s.tasks, i, m) {
      if i < n {
        assert Conserved(s.channels[i], s.tasks, i, m);
      } else {
        NothingUnsent(s.channels, s.tasks, n, m);
      }
    }
    assert TargetsInv(later, s.tasks) by {
      forall k, t | 0 <= k < |s.tasks| && t in s.tasks[k].targets ensures TargetInv(later, t) {
        assert TargetInv(s.channels, t);
      }
    }
    OpenKeepsWaiters(s.channels, s.tasks, later[n], later);
    NothingCharged(s.drops, id, n);
    forall x | x in next.subs ensures SubInv(x, next.subs[x], later, s.tasks, s.drops) {
      assert x != id ==> SubInv(x, s.subs[x], s.channels, s.tasks, s.drops);
    }
  }

  /** A channel that changes with its receiver alone. */
  lemma ReceiverKeepsInv(s: State, i: nat, d: Channel)
    requires Inv(s) && i < |s.channels| && SameSubscription(s.channels[i], d) && ChannelInv(d)
    requires HoldsMore(s.channels[i], d, false, Message(0, "", false)) && d.dropped == s.channels[i].dropped
    requires d.waiters == s.channels[i].waiters
    ensures Inv(s.(channels := s.channels[i := d]))
  {
    var later := s.channels[i := d];
    forall j: nat, m | j < |later| ensures Conserved(later[j], s.tasks, j, m) {
      assert Conserved(s.channels[j], s.tasks, j, m);
      assert Held(d, m) == Held(s.channels[i], m);
    }
    assert TargetsInv(later, s.tasks) by {
      forall k, t | 0 <= k < |s.tasks| && t in s.tasks[k].targets ensures TargetInv(later, t) {
        assert TargetInv(s.channels, t);
      }
    }
    assert WaitersInv(later, s.tasks) by {
      forall j: nat, k: nat | j < |later| ensures k in later[j].waiters <==> WaitsOn(s.tasks, k, j) {
        assert k in s.channels[j].waiters <==> WaitsOn(s.tasks, k, j);
      }
    }
    forall x | 0 <= x < |later| ensures MatchInv(later[x], s.tasks) {
      assert MatchInv(s.channels[x], s.tasks);
    }
    forall id | id in s.subs ensures SubInv(id, s.subs[id], later, s.tasks, s.drops) {
      assert SubInv(id, s.subs[id], s.channels, s.tasks, s.drops);
    }
  }

  lemma TakeFirst(c: Channel)
    requires c.queue != []
    ensures HoldsMore(c, c.(queue := c.queue[1..], received := c.received + [c.queue[0]]), false, c.queue[0])
    ensures HoldsMore(c, c.(queue := c.queue[1..], received := c.received + [c.queue[0]]), false, Message(0, "", false))
  {
    assert c.queue == [c.queue[0]] + c.queue[1..];
  }

  lemma StepKeepsInv(s: State, e: Event)
    requires Inv(s)
    ensures Inv(Next(s, e))
  {
    match e
    case Subscribe(id, filter, capacity) => SubscribeKeepsInv(s, id, filter, capacity);
    case Broadcast(topic, durable, targets) =>
      if Snapshot(s, topic, durable, targets) { BroadcastKeepsInv(s, topic, durable, targets); }
    case Try(k) =>
      if AtTarget(s, k) && !s.tasks[k].waiting && !s.tasks[k].cancelled { TriedKeepsInv(s, k); }
    case Deliver(k) => if Next(s, e) != s { DeliverKeepsInv(s, k); }
    case GiveUp(k) => if Next(s, e) != s { GiveUpKeepsInv(s, k); }
    case Cancel(k) => if Waiting(s, k) { CancelKeepsInv(s, k); }
    case Receive(i) =>
      if i < |s.channels| && s.channels[i].open && s.channels[i].queue != [] {
        var c := s.channels[i];
        assert ChannelInv(c);
        TakeFirst(c);
        ReceiverKeepsInv(s, i, c.(queue := c.queue[1..], received := c.received + [c.queue[0]]));
      }
    case Close(i) =>
      if i < |s.channels| {
        assert ChannelInv(s.channels[i]);
        ReceiverKeepsInv(s, i, s.channels[i].(open := false));
      }
  }

  lemma DeliverKeepsInv(s: State, k: nat)
    requires Inv(s) && Waiting(s, k) && Granted(FirstChannel(s, k), k)
    ensures Inv(Next(s, Deliver(k)))
  {
    var c := FirstChannel(s, k);
    assert ChannelInv(c);
    WithoutSpec(c.waiters, k);
    var queue := c.queue + [s.tasks[k].message];
    PutKeepsInv(s, k, c.(queue := queue, waiters := Without(c.waiters, k)), Advance(s.tasks[k]));
  }

  lemma GiveUpKeepsInv(s: State, k: nat)
    requires Inv(s) && Waiting(s, k) && !FirstChannel(s, k).open
    ensures Inv(Next(s, GiveUp(k)))
  {
    var c := FirstChannel(s, k);
    assert ChannelInv(c);
    WithoutSpec(c.waiters, k);
    var lost := c.lost + [s.tasks[k].message];
    PutKeepsInv(s, k, c.(lost := lost, waiters := Without(c.waiters, k)), Advance(s.tasks[k]));
  }

  lemma CancelKeepsInv(s: State, k: nat)
    requires Inv(s) && Waiting(s, k)
    ensures Inv(Next(s, Cancel(k)))
  {
    var c := FirstChannel(s, k);
    assert ChannelInv(c);
    WithoutSpec(c.waiters, k);
    PutKeepsInv(s, k, c.(waiters := Without(c.waiters, k)), s.tasks[k].(waiting := false, cancelled := true));
  }
}
