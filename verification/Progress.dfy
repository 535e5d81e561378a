/**
  Progress events of one session: every Publish appends to the history and copies the subscriber
  list under the lock, then sends to the copied channels one by one without it; Subscribe takes a
  snapshot of the history and joins the list.  Any number of publishers and subscribers interleave.
  */
module Progress {
  import opened Runs

  datatype Event = Event(sessionId: string, stage: string, message: string, timestamp: int)

  const CAPACITY: nat := 50

  /**
    A subscriber's view, in positions of the history: how many events its snapshot held, the
    positions its channel accepted, how many of those were received, and those dropped when full.
    */
  datatype Channel = Channel(snapshot: nat, stream: seq<nat>, received: nat, dropped: seq<nat>, closed: bool)

  /** `unsent[i]` are the channels the publisher of event `i` still has to send to. */
  datatype State = State(
    history: seq<Event>, subscribers: seq<nat>, channels: seq<Channel>, unsent: seq<seq<nat>>, panicked: bool)

  datatype Action =
    | Publish(event: Event)
    | Send(i: nat)
    | Subscribe
    | Unsubscribe(c: nat)
    | Receive(c: nat)

  function Without(subs: seq<nat>, c: nat): seq<nat> {
    if subs == [] then [] else if subs[0] == c then subs[1..] else [subs[0]] + Without(subs[1..], c)
  }

  function Offered(ch: Channel, i: nat): Channel
    requires ch.received <= |ch.stream|
  {
    if |ch.stream| - ch.received < CAPACITY then ch.(stream := ch.stream + [i]) else ch.(dropped := ch.dropped + [i])
  }

  predicate Enabled(s: State, a: Action) {
    && !s.panicked
    && match a
       case Send(i) =>
         && i < |s.unsent| && s.unsent[i] != [] && s.unsent[i][0] < |s.channels|
         && var ch := s.channels[s.unsent[i][0]]; ch.received <= |ch.stream|
       case Unsubscribe(c) => c < |s.channels|
       case Receive(c) => c < |s.channels| && s.channels[c].received < |s.channels[c].stream|
       case _ => true
  }

  /** Sending to a closed channel, and closing one twice, panics. */
  function Apply(s: State, a: Action): State
    requires Enabled(s, a)
  {
    match a
    case Publish(e) => s.(history := s.history + [e], unsent := s.unsent + [s.subscribers])
    case Send(i) =>
      var c := s.unsent[i][0];
      if s.channels[c].closed then s.(panicked := true)
      else s.(channels := s.channels[c := Offered(s.channels[c], i)], unsent := s.unsent[i := s.unsent[i][1..]])
    case Subscribe =>
      s.(channels := s.channels + [Channel(|s.history|, [], 0, [], false)],
         subscribers := s.subscribers + [|s.channels|])
    case Unsubscribe(c) =>
      if s.channels[c].closed then s.(panicked := true)
      else s.(channels := s.channels[c := s.channels[c].(closed := true)], subscribers := Without(s.subscribers, c))
    case Receive(c) =>
      s.(channels := s.channels[c := s.channels[c].(received := s.channels[c].received + 1)])
  }

  ghost predicate Init(s: State) { s == State([], [], [], [], false) }

  ghost predicate Next(s: State, a: Action, s': State) { Enabled(s, a) && s' == Apply(s, a) }

  // ---------------------------------------------------------------- exactly once

  /** In how many places event `i` is, as far as subscriber `c` is concerned. */
  ghost function Places(s: State, c: nat, i: nat): nat
    requires c < |s.channels| && i < |s.unsent|
  {
    var ch := s.channels[c];
    (if i < ch.snapshot then 1 else 0) + multiset(ch.stream)[i] + multiset(ch.dropped)[i] + multiset(s.unsent[i])[c]
  }

  predicate Bounded(ch: Channel, published: nat) {
    && ch.snapshot <= published && ch.received <= |ch.stream| <= ch.received + CAPACITY
    && (forall i :: i in ch.stream ==> i < published) && (forall i :: i in ch.dropped ==> i < published)
  }

  /** A channel is on the subscriber list once until it is closed, and not afterwards. */
  ghost predicate Listed(s: State, c: nat) {
    && c < |s.channels|
    && multiset(s.subscribers)[c] == if s.channels[c].closed then 0 else 1
  }

  ghost predicate ChannelTrue(s: State, c: nat) {
    && c < |s.channels|
    && Bounded(s.channels[c], |s.history|) && Listed(s, c)
  }

  ghost predicate Inv(s: State) {
    && |s.unsent| == |s.history|
    && (forall c :: c in s.subscribers ==> c < |s.channels|)
    && (forall i, c :: 0 <= i < |s.unsent| && c in s.unsent[i] ==> c < |s.channels|)
    && (forall c :: 0 <= c < |s.channels| ==> ChannelTrue(s, c))
    && (forall c, i :: 0 <= c < |s.channels| && 0 <= i < |s.unsent| && !s.channels[c].closed ==> Places(s, c, i) == 1)
  }

  lemma {:induction false} WithoutOne(subs: seq<nat>, c: nat)
    ensures multiset(Without(subs, c)) == multiset(subs) - multiset{c}
  {
    if subs != [] {
      var rest := Without(subs[1..], c);
      assert subs == [subs[0]] + subs[1..];
      assert multiset([subs[0]] + rest) == multiset{subs[0]} + multiset(rest);
      if subs[0] != c { WithoutOne(subs[1..], c); }
    }
  }

  lemma Absent(xs: seq<nat>, n: nat)
    requires forall x :: x in xs ==> x < n
    ensures multiset(xs)[n] == 0
  {
    assert n !in xs;
  }

  lemma BoundedKept(s: State, a: Action, s': State, c: nat)
    requires Inv(s) && Next(s, a, s') && c < |s'.channels|
    ensures Bounded(s'.channels[c], |s'.history|)
  {
    if c < |s.channels| { assert ChannelTrue(s, c); }
  }

  lemma SubscribeLists(s: State, c: nat)
    requires Enabled(s, Subscribe) && c <= |s.channels| && (c < |s.channels| ==> Listed(s, c))
    requires forall e :: e in s.subscribers ==> e < |s.channels|
    ensures Listed(Apply(s, Subscribe), c)
  {
    Absent(s.subscribers, |s.channels|);
  }

  lemma UnsubscribeDelists(s: State, e: nat, c: nat)
    requires Enabled(s, Unsubscribe(e)) && c < |s.channels| && Listed(s, c) && Listed(s, e)
    ensures Listed(Apply(s, Unsubscribe(e)), c)
  {
    WithoutOne(s.subscribers, e);
  }

  lemma ListedKept(s: State, a: Action, s': State, c: nat)
    requires Inv(s) && Next(s, a, s') && c < |s'.channels|
    ensures Listed(s', c)
  {
    if c < |s.channels| { assert ChannelTrue(s, c); }
    match a
    case Subscribe => SubscribeLists(s, c);
    case Unsubscribe(e) =>
      assert ChannelTrue(s, e);
      UnsubscribeDelists(s, e, c);
    case _ =>
  }

  lemma PlacesKept(s: State, a: Action, s': State, c: nat, i: nat)
    requires Inv(s) && Next(s, a, s') && c < |s'.channels| && i < |s'.unsent| && !s'.channels[c].closed
    ensures Places(s', c, i) == 1
  {
    if c >= |s.channels| {
      Absent(s.unsent[i], c);
    } else if i >= |s.unsent| {
      assert ChannelTrue(s, c);
      Absent(s.channels[c].stream, i);
      Absent(s.channels[c].dropped, i);
    } else {
      OldPlacesKept(s, a, s', c, i);
    }
  }

  lemma OldPlacesKept(s: State, a: Action, s': State, c: nat, i: nat)
    requires Inv(s) && Next(s, a, s') && c < |s.channels| && i < |s.unsent| && !s'.channels[c].closed
    ensures Places(s', c, i) == 1
  {
    assert Places(s, c, i) == 1;
    match a
    case Send(j) => SendKeepsPlaces(s, j, c, i);
    case _ =>
  }

  lemma SendKeepsPlaces(s: State, j: nat, c: nat, i: nat)
    requires Enabled(s, Send(j)) && c < |s.channels| && i < |s.unsent| && Places(s, c, i) == 1
    ensures
      var s' := Apply(s, Send(j));
      !s'.channels[c].closed ==> Places(s', c, i) == 1
  {
    assert s.unsent[j] == [s.unsent[j][0]] + s.unsent[j][1..];
  }

  lemma ListsKept(s: State, a: Action, s': State)
    requires Inv(s) && Next(s, a, s')
    ensures |s'.unsent| == |s'.history|
    ensures forall c :: c in s'.subscribers ==> c < |s'.channels|
    ensures forall i, c :: 0 <= i < |s'.unsent| && c in s'.unsent[i] ==> c < |s'.channels|
  {
    if a.Unsubscribe? {
      WithoutOne(s.subscribers, a.c);
      forall c | c in Without(s.subscribers, a.c) ensures c in s.subscribers {
        assert c in multiset(Without(s.subscribers, a.c));
      }
    }
    forall i, c | 0 <= i < |s'.unsent| && c in s'.unsent[i] ensures c < |s'.channels| {
      if i < |s.unsent| { assert c in s.unsent[i]; }
    }
  }

  lemma StepKeepsInv(s: State, a: Action, s': State)
    requires Inv(s) && Next(s, a, s')
    ensures Inv(s')
  {
    ListsKept(s, a, s');
    forall c | 0 <= c < |s'.channels| ensures ChannelTrue(s', c) {
      BoundedKept(s, a, s', c);
      ListedKept(s, a, s', c);
    }
    forall c, i | 0 <= c < |s'.channels| && 0 <= i < |s'.unsent| && !s'.channels[c].closed
      ensures Places(s', c, i) == 1
    {
      PlacesKept(s, a, s', c, i);
    }
  }

  lemma RunKeepsInv(states: seq<State>, actions: seq<Action>)
    requires IsRun(Init, Next, states, actions)
    ensures forall i :: 0 <= i < |states| ==> Inv(states[i])
  {
    forall s, a, s' | Inv(s) && Next(s, a, s') ensures Inv(s') { StepKeepsInv(s, a, s'); }
    Invariance(Init, Next, Inv, states, actions);
  }

  /**
    No gap and no duplicate: for a subscriber that has not left, every published event is in exactly
    one of its snapshot, its channel, its dropped events, or a publisher's unsent list.
    */
  lemma ExactlyOnce(states: seq<State>, actions: seq<Action>, n: nat, c: nat, i: nat)
    requires IsRun(Init, Next, states, actions) && n < |states|
    requires c < |states[n].channels| && !states[n].channels[c].closed && i < |states[n].history|
    ensures |states[n].unsent| == |states[n].history| && Places(states[n], c, i) == 1
  {
    RunKeepsInv(states, actions);
  }

  // ---------------------------------------------------------------- fifty events never overflow

  lemma {:induction false} Pigeonhole(xs: multiset<nat>, lo: nat, hi: nat)
    requires lo <= hi && forall x :: x in xs ==> lo <= x < hi && xs[x] == 1
    ensures |xs| <= hi - lo
    decreases hi
  {
    if lo < hi {
      Pigeonhole(xs - multiset{hi - 1}, lo, hi - 1);
    } else {
      assert xs == multiset{};
    }
  }

  ghost predicate NoEarlyDrop(s: State) {
    forall c :: 0 <= c < |s.channels| && !s.channels[c].closed && |s.history| <= s.channels[c].snapshot + CAPACITY ==>
      s.channels[c].dropped == []
  }

  lemma FullChannel(s: State, c: nat, i: nat)
    requires Inv(s) && c < |s.channels| && !s.channels[c].closed && i < |s.unsent| && c in s.unsent[i]
    requires |s.channels[c].stream| >= CAPACITY
    ensures |s.history| > s.channels[c].snapshot + CAPACITY
  {
    var ch := s.channels[c];
    assert ChannelTrue(s, c);
    assert Places(s, c, i) == 1 && c in multiset(s.unsent[i]);
    var xs: seq<nat> := ch.stream + [i];
    forall x: nat | x in multiset(xs) ensures ch.snapshot <= x < |s.history| && multiset(xs)[x] == 1 {
      assert x in xs && Places(s, c, x) == 1;
      if x in ch.stream { assert x in multiset(ch.stream); }
    }
    Pigeonhole(multiset(xs), ch.snapshot, |s.history|);
    assert |multiset(xs)| == |xs|;
  }

  lemma NoEarlyDropKept(s: State, a: Action, s': State)
    requires Inv(s) && NoEarlyDrop(s) && Next(s, a, s')
    ensures NoEarlyDrop(s')
  {
    if a.Send? {
      var c := s.unsent[a.i][0];
      if !s.channels[c].closed && |s.channels[c].stream| >= CAPACITY { FullChannel(s, c, a.i); }
    }
  }

  ghost predicate InvAndNoEarlyDrop(s: State) { Inv(s) && NoEarlyDrop(s) }

  /** A subscriber loses nothing as long as at most fifty events are published after its snapshot. */
  lemma FiftyEventsFit(states: seq<State>, actions: seq<Action>, n: nat, c: nat)
    requires IsRun(Init, Next, states, actions) && n < |states|
    requires c < |states[n].channels| && !states[n].channels[c].closed
    requires |states[n].history| <= states[n].channels[c].snapshot + 50
    ensures states[n].channels[c].dropped == []
  {
    forall s, a, s' | InvAndNoEarlyDrop(s) && Next(s, a, s') ensures InvAndNoEarlyDrop(s') {
      StepKeepsInv(s, a, s');
      NoEarlyDropKept(s, a, s');
    }
    Invariance(Init, Next, InvAndNoEarlyDrop, states, actions);
  }

  // ---------------------------------------------------------------- one publisher at a time

  /** The next Publish starts only when the previous one has sent to all its channels. */
  ghost predicate SerialNext(s: State, a: Action, s': State) {
    Next(s, a, s') && (a.Publish? ==> forall i :: 0 <= i < |s.unsent| ==> s.unsent[i] == [])
  }

  predicate Increasing(xs: seq<nat>, lo: nat) {
    (forall i :: 0 <= i < |xs| ==> lo <= xs[i]) && (forall i, j :: 0 <= i < j < |xs| ==> xs[i] < xs[j])
  }

  ghost predicate SerialInv(s: State) {
    && Inv(s)
    && (forall i :: 0 <= i < |s.unsent| - 1 ==> s.unsent[i] == [])
    && (forall c :: 0 <= c < |s.channels| ==> Increasing(s.channels[c].stream, s.channels[c].snapshot))
  }

  lemma SerialKept(s: State, a: Action, s': State)
    requires SerialInv(s) && SerialNext(s, a, s')
    ensures SerialInv(s')
  {
    StepKeepsInv(s, a, s');
    if a.Send? {
      var c := s.unsent[a.i][0];
      if !s.channels[c].closed {
        assert ChannelTrue(s, c) && Places(s, c, a.i) == 1 && c in multiset(s.unsent[a.i]);
        assert a.i !in multiset(s.channels[c].stream);
        forall k | 0 <= k < |s.channels[c].stream| ensures s.channels[c].stream[k] < a.i {
          assert s.channels[c].stream[k] in s.channels[c].stream && a.i !in s.channels[c].stream;
        }
      }
    }
  }

  function Range(lo: nat, hi: nat): seq<nat>
    requires lo <= hi
    decreases hi
  {
    if lo == hi then [] else Range(lo, hi - 1) + [hi - 1]
  }

  lemma {:induction false} IncreasingAndFull(xs: seq<nat>, lo: nat, hi: nat)
    requires lo <= hi && Increasing(xs, lo)
    requires forall x :: x in xs <==> lo <= x < hi
    ensures xs == Range(lo, hi)
    decreases hi
  {
    if xs == [] {
      assert lo in xs <==> lo < hi;
    } else {
      assert xs[0] in xs && hi - 1 in xs;
      var last := |xs| - 1;
      assert xs[last] in xs;
      var ys := xs[..last];
      forall x ensures x in ys <==> lo <= x < hi - 1 {
        if x in ys { assert x in xs; }
        if lo <= x < hi - 1 { assert x in xs; }
      }
      IncreasingAndFull(ys, lo, hi - 1);
    }
  }

  /**
    With one publisher at a time, a subscriber that dropped nothing and to whom nothing is left to be
    sent has, in its snapshot followed by its channel, the history in order.
    */
  lemma SnapshotThenStreamIsHistory(states: seq<State>, actions: seq<Action>, n: nat, c: nat)
    requires IsRun(Init, SerialNext, states, actions) && n < |states|
    requires c < |states[n].channels| && !states[n].channels[c].closed && states[n].channels[c].dropped == []
    requires forall i :: 0 <= i < |states[n].unsent| ==> c !in states[n].unsent[i]
    ensures states[n].channels[c].snapshot <= |states[n].history|
    ensures Range(0, states[n].channels[c].snapshot) + states[n].channels[c].stream == Range(0, |states[n].history|)
  {
    forall s, a, s' | SerialInv(s) && SerialNext(s, a, s') ensures SerialInv(s') { SerialKept(s, a, s'); }
    Invariance(Init, SerialNext, SerialInv, states, actions);
    var s := states[n];
    var ch := s.channels[c];
    assert ChannelTrue(s, c) && Increasing(ch.stream, ch.snapshot);
    forall x ensures x in ch.stream <==> ch.snapshot <= x < |s.history| {
      if ch.snapshot <= x < |s.history| { assert Places(s, c, x) == 1; }
      if x in ch.stream {
        var k :| 0 <= k < |ch.stream| && ch.stream[k] == x;
      }
    }
    IncreasingAndFull(ch.stream, ch.snapshot, |s.history|);
    RangeSplit(0, ch.snapshot, |s.history|);
  }

  lemma {:induction false} RangeSplit(lo: nat, mid: nat, hi: nat)
    requires lo <= mid <= hi
    ensures Range(lo, mid) + Range(mid, hi) == Range(lo, hi)
    decreases hi
  {
    if mid < hi { RangeSplit(lo, mid, hi - 1); }
  }

  // ---------------------------------------------------------------- leaving while being sent to

  /** A subscriber that leaves between the copy of the list and the send makes the publisher panic. */
  lemma LeavingEarlyPanics(e: Event) returns (states: seq<State>, actions: seq<Action>)
    ensures IsRun(Init, Next, states, actions) && states[|actions|].panicked
  {
    var s0 := State([], [], [], [], false);
    actions := [Subscribe, Publish(e), Unsubscribe(0), Send(0)];
    var s1 := Apply(s0, Subscribe);
    var s2 := Apply(s1, Publish(e));
    var s3 := Apply(s2, Unsubscribe(0));
    states := [s0, s1, s2, s3, Apply(s3, Send(0))];
  }

  /** Subscribers leave once, and only when no publisher still has their channel. */
  ghost predicate PatientNext(s: State, a: Action, s': State) {
    && Next(s, a, s')
    && (a.Unsubscribe? ==> !s.channels[a.c].closed && forall i :: 0 <= i < |s.unsent| ==> a.c !in s.unsent[i])
  }

  ghost predicate OnlyOpenAhead(s: State) {
    && Inv(s) && !s.panicked
    && (forall i, c :: 0 <= i < |s.unsent| && c in s.unsent[i] ==> c < |s.channels| && !s.channels[c].closed)
  }

  lemma ListedAreOpen(s: State, c: nat)
    requires Inv(s) && c in s.subscribers
    ensures !s.channels[c].closed
  {
    assert ChannelTrue(s, c) && c in multiset(s.subscribers);
  }

  lemma PatientKept(s: State, a: Action, s': State)
    requires OnlyOpenAhead(s) && PatientNext(s, a, s')
    ensures OnlyOpenAhead(s')
  {
    StepKeepsInv(s, a, s');
    forall i, c | 0 <= i < |s'.unsent| && c in s'.unsent[i] ensures c < |s'.channels| && !s'.channels[c].closed {
      if i < |s.unsent| { assert c in s.unsent[i]; } else { ListedAreOpen(s, c); }
    }
  }

  /** If they do, no interleaving ever panics. */
  lemma PatientRunsNeverPanic(states: seq<State>, actions: seq<Action>, n: nat)
    requires IsRun(Init, PatientNext, states, actions) && n < |states|
    ensures !states[n].panicked
  {
    forall s, a, s' | OnlyOpenAhead(s) && PatientNext(s, a, s') ensures OnlyOpenAhead(s') { PatientKept(s, a, s'); }
    Invariance(Init, PatientNext, OnlyOpenAhead, states, actions);
  }

  /** A publisher still has a channel whose subscriber has left. */
  predicate Doomed(s: State, i: nat, c: nat) {
    i < |s.unsent| && c in s.unsent[i] && c < |s.channels| && s.channels[c].closed
  }

  lemma DoomStays(s: State, a: Action, s': State, i: nat, c: nat)
    requires Next(s, a, s') && !s'.panicked && Doomed(s, i, c)
    ensures Doomed(s', i, c)
  {
    if a.Send? && a.i == i {
      assert s.unsent[i] == [s.unsent[i][0]] + s.unsent[i][1..];
    }
  }

  /** Until somebody panics that publisher is not done. */
  lemma {:induction false} DoomLasts(states: seq<State>, actions: seq<Action>, k: nat, n: nat, i: nat, c: nat)
    requires IsRun(Init, Next, states, actions) && k <= n < |states| && Doomed(states[k], i, c) && !states[n].panicked
    ensures Doomed(states[n], i, c)
  {
    if k < n {
      assert Next(states[n - 1], actions[n - 1], states[n - 1 + 1]);
      DoomLasts(states, actions, k, n - 1, i, c);
      DoomStays(states[n - 1], actions[n - 1], states[n], i, c);
    }
  }

  /** Every publisher has sent what it had to send, or one has panicked. */
  predicate Over(s: State) { s.panicked || forall i :: 0 <= i < |s.unsent| ==> s.unsent[i] == [] }

  lemma StepsWerePatient(states: seq<State>, actions: seq<Action>, k: nat)
    requires IsRun(Init, Next, states, actions) && k < |actions|
    requires !states[|actions|].panicked && Over(states[|actions|])
    ensures PatientNext(states[k], actions[k], states[k + 1])
  {
    var s, a, s' := states[k], actions[k], states[k + 1];
    assert Next(s, a, s');
    if a.Unsubscribe? {
      NoPanicBefore(states, actions, k + 1);
      forall i | 0 <= i < |s.unsent| ensures a.c !in s.unsent[i] {
        if a.c in s.unsent[i] {
          assert Doomed(s', i, a.c);
          DoomLasts(states, actions, k + 1, |actions|, i, a.c);
        }
      }
    }
  }

  /** Nothing happens after a panic. */
  lemma NoPanicBefore(states: seq<State>, actions: seq<Action>, n: nat)
    requires IsRun(Init, Next, states, actions) && n < |states| && !states[|actions|].panicked
    ensures !states[n].panicked
  {
    if n < |actions| { assert Next(states[n], actions[n], states[n + 1]); }
  }

  /**
    A run that is over has not panicked exactly if every subscriber in it that left did so once, and
    while no publisher had its channel.
    */
  lemma PanicFreeExactly(states: seq<State>, actions: seq<Action>)
    requires IsRun(Init, Next, states, actions) && Over(states[|actions|])
    ensures !states[|actions|].panicked <==>
      forall k :: 0 <= k < |actions| ==> PatientNext(states[k], actions[k], states[k + 1])
  {
    if !states[|actions|].panicked {
      forall k | 0 <= k < |actions| ensures PatientNext(states[k], actions[k], states[k + 1]) {
        StepsWerePatient(states, actions, k);
      }
    } else if forall k :: 0 <= k < |actions| ==> PatientNext(states[k], actions[k], states[k + 1]) {
      PatientRunsNeverPanic(states, actions, |actions|);
    }
  }

  // ---------------------------------------------------------------- the tracker as the service holds it

  /** A channel's contents, apart from where it is kept. */
  datatype Buffer = Buffer(queue: seq<Event>, closed: bool)

  /** One session's share of the tracker; `listed` are its subscribers, as places among the channels made for it. */
  datatype Contents = Contents(history: seq<Event>, listed: seq<nat>, buffers: seq<Buffer>)

  function Offer(b: Buffer, e: Event): Buffer { if |b.queue| < CAPACITY then b.(queue := b.queue + [e]) else b }

  function AfterRecord(t: Contents, e: Event): Contents { t.(history := t.history + [e]) }

  function AfterSend(t: Contents, c: nat, e: Event): Contents
    requires c < |t.buffers|
  {
    t.(buffers := t.buffers[c := Offer(t.buffers[c], e)])
  }

  function AfterSubscribe(t: Contents): Contents {
    t.(listed := t.listed + [|t.buffers|], buffers := t.buffers + [Buffer([], false)])
  }

  function AfterUnsubscribe(t: Contents, c: nat): Contents
    requires c < |t.buffers|
  {
    t.(listed := Without(t.listed, c), buffers := t.buffers[c := t.buffers[c].(closed := true)])
  }

  function AfterReceive(t: Contents, c: nat): Contents
    requires c < |t.buffers| && t.buffers[c].queue != []
  {
    t.(buffers := t.buffers[c := t.buffers[c].(queue := t.buffers[c].queue[1..])])
  }

  // ---- the contents follow the machine

  /** A buffer holds the events that its channel accepted and its client has not received. */
  predicate Holds(b: Buffer, ch: Channel, history: seq<Event>) {
    && b.closed == ch.closed && |ch.stream| == ch.received + |b.queue|
    && forall k :: ch.received <= k < |ch.stream| ==>
         ch.stream[k] < |history| && b.queue[k - ch.received] == history[ch.stream[k]]
  }

  ghost predicate Agree(s: State, t: Contents) {
    && s.history == t.history && s.subscribers == t.listed && |s.channels| == |t.buffers|
    && forall c :: 0 <= c < |t.buffers| ==> Holds(t.buffers[c], s.channels[c], t.history)
  }

  /** What the methods of the tracker do to the contents, step by step. */
  function AfterStep(s: State, t: Contents, a: Action): Contents
    requires Enabled(s, a) && |s.channels| == |t.buffers| && |s.unsent| == |s.history|
  {
    match a
    case Publish(e) => AfterRecord(t, e)
    case Send(i) => AfterSend(t, s.unsent[i][0], s.history[i])
    case Subscribe => AfterSubscribe(t)
    case Unsubscribe(c) => AfterUnsubscribe(t, c)
    case Receive(c) => if t.buffers[c].queue != [] then AfterReceive(t, c) else t
  }

  lemma LongerHistoryHolds(b: Buffer, ch: Channel, history: seq<Event>, e: Event)
    requires Holds(b, ch, history)
    ensures Holds(b, ch, history + [e])
  {}

  lemma OfferHolds(b: Buffer, ch: Channel, history: seq<Event>, i: nat)
    requires Holds(b, ch, history) && i < |history|
    ensures Holds(Offer(b, history[i]), Offered(ch, i), history)
  {}

  lemma TakenHolds(b: Buffer, ch: Channel, history: seq<Event>)
    requires Holds(b, ch, history) && b.queue != []
    ensures Holds(b.(queue := b.queue[1..]), ch.(received := ch.received + 1), history)
  {}

  lemma SendFollows(s: State, s': State, t: Contents, i: nat, c: nat)
    requires Inv(s) && Next(s, Send(i), s') && !s'.panicked && Agree(s, t) && c < |t.buffers|
    ensures Holds(AfterSend(t, s.unsent[i][0], s.history[i]).buffers[c], s'.channels[c], t.history)
  {
    assert Holds(t.buffers[c], s.channels[c], t.history);
    if c == s.unsent[i][0] { OfferHolds(t.buffers[c], s.channels[c], t.history, i); }
  }

  lemma LeaveFollows(s: State, t: Contents, e: nat, c: nat)
    requires Agree(s, t) && Enabled(s, Unsubscribe(e)) && !s.channels[e].closed && c < |t.buffers|
    ensures Holds(AfterUnsubscribe(t, e).buffers[c], Apply(s, Unsubscribe(e)).channels[c], t.history)
  {
    assert Holds(t.buffers[c], s.channels[c], t.history) && Holds(t.buffers[e], s.channels[e], t.history);
  }

  lemma ReceiveFollows(s: State, t: Contents, e: nat, c: nat)
    requires Agree(s, t) && Enabled(s, Receive(e)) && c < |t.buffers|
    ensures t.buffers[e].queue != []
    ensures Holds(AfterReceive(t, e).buffers[c], Apply(s, Receive(e)).channels[c], t.history)
  {
    assert Holds(t.buffers[c], s.channels[c], t.history) && Holds(t.buffers[e], s.channels[e], t.history);
    TakenHolds(t.buffers[e], s.channels[e], t.history);
  }

  /** The class follows the machine: whatever step a method takes, contents and state still agree, unless it panics. */
  lemma TrackerFollows(s: State, a: Action, s': State, t: Contents)
    requires Inv(s) && Next(s, a, s') && !s'.panicked && Agree(s, t)
    ensures Agree(s', AfterStep(s, t, a))
  {
    var t' := AfterStep(s, t, a);
    assert |t'.buffers| == |s'.channels|;
    forall c | 0 <= c < |t'.buffers| ensures Holds(t'.buffers[c], s'.channels[c], t'.history) {
      assert c < |t.buffers| ==> Holds(t.buffers[c], s.channels[c], t.history);
      match a
      case Publish(e) => LongerHistoryHolds(t.buffers[c], s.channels[c], t.history, e);
      case Send(i) => SendFollows(s, s', t, i, c);
      case Unsubscribe(e) => LeaveFollows(s, t, e, c);
      case Receive(e) => ReceiveFollows(s, t, e, c);
      case Subscribe =>
    }
  }

  // ---- the classes

  /** A buffered Go channel. */
  class Chan {
    var queue: seq<Event>
    var closed: bool

    constructor ()
      ensures queue == [] && !closed
    {
      queue, closed := [], false;
    }

    ghost function View(): Buffer
      reads this
    {
      Buffer(queue, closed)
    }

    /** A send that gives up when the buffer is full; sending to a closed channel would panic. */
    method TrySend(e: Event)
      requires !closed
      modifies this`queue
      ensures View() == Offer(old(View()), e)
      ensures queue == if |old(queue)| < 50 then old(queue) + [e] else old(queue)
    {
      if |queue| < CAPACITY { queue := queue + [e]; }
    }

    method Close()
      requires !closed
      modifies this`closed
      ensures closed
    {
      closed := true;
    }

    method Receive() returns (e: Event)
      requires |queue| > 0
      modifies this`queue
      ensures [e] + queue == old(queue)
    {
      e := queue[0];
      queue := queue[1..];
    }
  }

  /** The channels of a list are those at the given places. */
  ghost predicate AtPlaces(subs: seq<Chan>, channels: seq<Chan>, places: seq<nat>) {
    && |subs| == |places|
    && forall k :: 0 <= k < |places| ==> places[k] < |channels| && subs[k] == channels[places[k]]
  }

  function Get<V>(m: map<string, seq<V>>, id: string): seq<V> { if id in m then m[id] else [] }

  /**
    The tracker.  Ghost fields: some session that is being observed, every channel ever made for it,
    and the places of its subscribers among them.
    */
  class ProgressTracker {
    var history: map<string, seq<Event>>
    var subscribers: map<string, seq<Chan>>
    ghost const observed: string
    ghost var channels: seq<Chan>
    ghost var listed: seq<nat>

    /** The ghost fields are true of the subscriber lists, and no other session has one of the channels. */
    ghost predicate Valid()
      reads this
    {
      && (forall c, e :: 0 <= c < e < |channels| ==> channels[c] != channels[e])
      && AtPlaces(Get(subscribers, observed), channels, listed)
      && (forall id, ch :: id in subscribers && id != observed && ch in subscribers[id] ==> ch !in channels)
    }

    ghost function View(): Contents
      reads this, channels
    {
      Contents(Get(history, observed), listed,
               seq(|channels|, c requires 0 <= c < |channels| reads this, channels => channels[c].View()))
    }

    constructor (ghost observed: string)
      ensures Valid() && history == map[] && subscribers == map[] && this.observed == observed
      ensures View() == Contents([], [], [])
    {
      history, subscribers := map[], map[];
      this.observed := observed;
      channels, listed := [], [];
    }

    /** The critical section of Publish: records the event and copies the list. */
    method Record(e: Event) returns (subs: seq<Chan>)
      requires Valid()
      modifies this`history
      ensures Valid() && subs == Get(subscribers, e.sessionId)
      ensures history == old(history)[e.sessionId := Get(old(history), e.sessionId) + [e]]
      ensures View() == if e.sessionId == observed then AfterRecord(old(View()), e) else old(View())
    {
      history := history[e.sessionId := Get(history, e.sessionId) + [e]];
      subs := Get(subscribers, e.sessionId);
    }

    /** One send of Publish, outside the lock, to the `c`-th channel. */
    method Send(ch: Chan, e: Event, ghost c: nat)
      requires Valid() && c < |channels| && channels[c] == ch && !ch.closed
      modifies ch`queue
      ensures Valid() && View() == AfterSend(old(View()), c, e)
    {
      ch.TrySend(e);
    }

    /** Publish, when no subscriber leaves between the copy of the list and the last send. */
    method Publish(e: Event)
      requires Valid() && forall ch :: ch in Get(subscribers, e.sessionId) ==> !ch.closed
      requires forall i, j :: 0 <= i < j < |Get(subscribers, e.sessionId)| ==>
                 Get(subscribers, e.sessionId)[i] != Get(subscribers, e.sessionId)[j]
      modifies this`history, set ch | ch in Get(subscribers, e.sessionId) :: ch`queue
      ensures Valid() && history == old(history)[e.sessionId := Get(old(history), e.sessionId) + [e]]
      ensures forall ch :: ch in Get(subscribers, e.sessionId) ==>
                ch.queue == if old(|ch.queue|) < 50 then old(ch.queue) + [e] else old(ch.queue)
    {
      var subs := Record(e);
      SendAll(subs, e);
    }

    /** The loop over the copied list. */
    static method SendAll(subs: seq<Chan>, e: Event)
      requires forall i :: 0 <= i < |subs| ==> !subs[i].closed
      requires forall i, j :: 0 <= i < j < |subs| ==> subs[i] != subs[j]
      modifies set ch | ch in subs :: ch`queue
      ensures forall ch :: ch in subs ==>
                ch.queue == if old(|ch.queue|) < 50 then old(ch.queue) + [e] else old(ch.queue)
    {
      for i := 0 to |subs|
        invariant forall k :: i <= k < |subs| ==> subs[k].queue == old(subs[k].queue)
        invariant forall k :: 0 <= k < i ==> subs[k].View() == Offer(old(subs[k].View()), e)
      {
        assert subs[i] in subs;
        subs[i].TrySend(e);
      }
    }

    method Subscribe(id: string) returns (hist: seq<Event>, ch: Chan)
      requires Valid()
      modifies this
      ensures Valid() && fresh(ch) && ch.View() == Buffer([], false) && history == old(history)
      ensures hist == Get(history, id) && subscribers == old(subscribers)[id := Get(old(subscribers), id) + [ch]]
      ensures View() == if id == observed then AfterSubscribe(old(View())) else old(View())
    {
      hist := Get(history, id);
      ch := new Chan();
      subscribers := subscribers[id := Get(subscribers, id) + [ch]];
      if id == observed {
        MorePlaces(Get(old(subscribers), id), ch, channels, listed);
        channels, listed := channels + [ch], listed + [|channels|];
      }
    }

    /**
      The cleanup that Subscribe hands out, called once: takes the channel off the session's list, if
      Clear has not dropped the list meanwhile, and closes it either way.
      */
    method Unsubscribe(id: string, ch: Chan, ghost c: nat)
      requires Valid() && !ch.closed && (ch in channels <==> id == observed)
      requires id == observed ==> c < |channels| && channels[c] == ch
      modifies this, ch`closed
      ensures Valid() && ch.closed && history == old(history)
      ensures Get(subscribers, id) == Removed(old(Get(subscribers, id)), ch)
      ensures forall k :: k != id ==> Get(subscribers, k) == old(Get(subscribers, k))
      ensures View() == if id == observed then AfterUnsubscribe(old(View()), c) else old(View())
    {
      TakeOff(id, ch);
      RemovedIsPart(old(Get(subscribers, id)), ch);
      if id == observed {
        RemovedPlaces(old(Get(subscribers, id)), ch, channels, listed, c);
        listed := Without(listed, c);
      }
      ch.Close();
    }

    /** The loop over the session's list. */
    method TakeOff(id: string, ch: Chan)
      modifies this`subscribers
      ensures Get(subscribers, id) == Removed(old(Get(subscribers, id)), ch)
      ensures forall k :: k != id ==>
          (k in subscribers <==> k in old(subscribers)) && Get(subscribers, k) == old(Get(subscribers, k))
    {
      var subs := Get(subscribers, id);
      for i := 0 to |subs|
        invariant subscribers == old(subscribers) && ch !in subs[..i]
      {
        if subs[i] == ch {
          RemovedAt(subs, ch, i);
          subscribers := subscribers[id := subs[..i] + subs[i + 1..]];
          return;
        }
      }
      RemovedAbsent(subs, ch);
    }

    method GetHistory(id: string) returns (hist: seq<Event>)
      ensures hist == Get(history, id)
    {
      hist := Get(history, id);
    }

    method Clear(id: string)
      requires Valid()
      modifies this
      ensures Valid() && history == old(history) - {id} && subscribers == old(subscribers) - {id}
    {
      history := history - {id};
      subscribers := subscribers - {id};
      if id == observed { listed := []; }
    }
  }

  /** The list without the first occurrence of a channel. */
  ghost function Removed(subs: seq<Chan>, ch: Chan): seq<Chan> {
    if subs == [] then [] else if subs[0] == ch then subs[1..] else [subs[0]] + Removed(subs[1..], ch)
  }

  lemma {:induction false} RemovedIsPart(subs: seq<Chan>, ch: Chan)
    ensures forall x :: x in Removed(subs, ch) ==> x in subs
  {
    if subs != [] && subs[0] != ch { RemovedIsPart(subs[1..], ch); }
  }

  lemma MorePlaces(subs: seq<Chan>, ch: Chan, channels: seq<Chan>, listed: seq<nat>)
    requires AtPlaces(subs, channels, listed)
    ensures AtPlaces(subs + [ch], channels + [ch], listed + [|channels|])
  {}

  lemma {:induction false} RemovedAbsent(subs: seq<Chan>, ch: Chan)
    requires ch !in subs
    ensures Removed(subs, ch) == subs
  {
    if subs != [] { RemovedAbsent(subs[1..], ch); }
  }

  lemma {:induction false} RemovedAt(subs: seq<Chan>, ch: Chan, i: nat)
    requires i < |subs| && subs[i] == ch && ch !in subs[..i]
    ensures Removed(subs, ch) == subs[..i] + subs[i + 1..]
  {
    if i > 0 {
      assert subs[..i][0] == subs[0] && subs[1..][..i - 1] == subs[..i][1..];
      RemovedAt(subs[1..], ch, i - 1);
      assert subs[1..][i..] == subs[i + 1..];
    }
  }

  lemma {:induction false} RemovedPlaces(subs: seq<Chan>, ch: Chan, channels: seq<Chan>, listed: seq<nat>, c: nat)
    requires AtPlaces(subs, channels, listed) && c < |channels| && channels[c] == ch
    requires forall i, j :: 0 <= i < j < |channels| ==> channels[i] != channels[j]
    ensures AtPlaces(Removed(subs, ch), channels, Without(listed, c))
  {
    assert |subs| > 0 ==> (subs[0] == ch <==> listed[0] == c);
    if subs != [] && listed[0] != c {
      assert AtPlaces(subs[1..], channels, listed[1..]);
      RemovedPlaces(subs[1..], ch, channels, listed[1..], c);
    }
  }
}
