/**
  One shared terminal and its subscribers: the read loop broadcasts each chunk to every registered
  channel without waiting, subscribers come and go, and the loop closes whoever is left when it ends.
  */
module Fanout {
  import opened Wrappers
  import opened Runs

  const CAPACITY: nat := 1024

  /**
    One subscriber channel over its whole life, in numbers of chunks: `joined` chunks had been read
    when it was registered and, once deregistered, `left` when it was; `accepted` are the chunks its
    buffer took, `received` of which the client has read; `full` remembers that it ever held 1024.
    `closes` and `sentClosed` count what must not happen twice, or at all.
    */
  datatype Channel = Channel(
    id: string, joined: nat, left: Option<nat>, accepted: seq<nat>, received: nat, full: bool,
    closes: nat, sentClosed: nat)

  datatype State = State(chunks: nat, looping: bool, subscribers: map<string, nat>, channels: seq<Channel>)

  datatype Action =
    | Broadcast
    | Subscribe(id: string)
    | Unsubscribe(id: string)
    | CloseSubscribers
    | Receive(c: nat)

  function Offer(ch: Channel, chunk: nat): Channel {
    if ch.closes > 0 then ch.(sentClosed := ch.sentClosed + 1)
    else if |ch.accepted| < ch.received + CAPACITY then
      ch.(accepted := ch.accepted + [chunk], full := ch.full || |ch.accepted| + 1 == ch.received + CAPACITY)
    else ch
  }

  function Closed(ch: Channel, chunks: nat): Channel { ch.(closes := ch.closes + 1, left := Some(chunks)) }

  function Replaced(ch: Channel, chunks: nat): Channel { ch.(left := Some(chunks)) }

  predicate Registered(s: State, c: nat)
    requires c < |s.channels|
  {
    s.channels[c].id in s.subscribers && s.subscribers[s.channels[c].id] == c
  }

  function Broadcasted(s: State): State {
    s.(chunks := s.chunks + 1,
       channels := seq(|s.channels|, c requires 0 <= c < |s.channels| =>
                     if Registered(s, c) then Offer(s.channels[c], s.chunks) else s.channels[c]))
  }

  /** A subscriber id that is already taken is taken over; the channel it had is dropped, not closed. */
  function Subscribed(s: State, id: string): State {
    var channels := if id in s.subscribers && s.subscribers[id] < |s.channels|
                    then s.channels[s.subscribers[id] := Replaced(s.channels[s.subscribers[id]], s.chunks)]
                    else s.channels;
    s.(channels := channels + [Channel(id, s.chunks, None, [], 0, false, 0, 0)],
       subscribers := s.subscribers[id := |channels|])
  }

  function Unsubscribed(s: State, id: string): State {
    if id in s.subscribers && s.subscribers[id] < |s.channels| then
      var c := s.subscribers[id];
      s.(channels := s.channels[c := Closed(s.channels[c], s.chunks)], subscribers := s.subscribers - {id})
    else s
  }

  function AllClosed(s: State): State {
    s.(looping := false, subscribers := map[],
       channels := seq(|s.channels|, c requires 0 <= c < |s.channels| =>
                     if Registered(s, c) then Closed(s.channels[c], s.chunks) else s.channels[c]))
  }

  function Received(s: State, c: nat): State
    requires c < |s.channels|
  {
    s.(channels := s.channels[c := s.channels[c].(received := s.channels[c].received + 1)])
  }

  ghost predicate Init(s: State) { s == State(0, true, map[], []) }

  ghost predicate Next(s: State, a: Action, s': State) {
    match a
    case Broadcast => s.looping && s' == Broadcasted(s)
    case Subscribe(id) => s' == Subscribed(s, id)
    case Unsubscribe(id) => s' == Unsubscribed(s, id)
    case CloseSubscribers => s.looping && s' == AllClosed(s)
    case Receive(c) => c < |s.channels| && s.channels[c].received < |s.channels[c].accepted| && s' == Received(s, c)
  }

  // ---------------------------------------------------------------- invariants

  /** The chunk count up to which a channel was registered. */
  function End(ch: Channel, chunks: nat): nat { if ch.left.Some? then ch.left.value else chunks }

  predicate Increasing(xs: seq<nat>, lo: nat, hi: nat) {
    (forall i :: 0 <= i < |xs| ==> lo <= xs[i] < hi) && (forall i, j :: 0 <= i < j < |xs| ==> xs[i] < xs[j])
  }

  predicate Sound(ch: Channel, chunks: nat) {
    && ch.closes <= 1 && ch.sentClosed == 0 && (ch.left.None? ==> ch.closes == 0)
    && ch.joined <= End(ch, chunks) <= chunks
    && ch.received <= |ch.accepted| <= ch.received + CAPACITY
    && Increasing(ch.accepted, ch.joined, End(ch, chunks))
    && (|ch.accepted| == ch.received + CAPACITY ==> ch.full)
    && (!ch.full ==> |ch.accepted| == End(ch, chunks) - ch.joined)
  }

  /** A channel is on the map exactly until it leaves. */
  predicate Tracked(s: State, c: nat) {
    && c < |s.channels|
    && (Registered(s, c) <==> s.channels[c].left.None?)
  }

  ghost predicate MapTrue(s: State) {
    forall id :: id in s.subscribers ==> s.subscribers[id] < |s.channels| && s.channels[s.subscribers[id]].id == id
  }

  ghost predicate Inv(s: State) {
    MapTrue(s) && forall c :: 0 <= c < |s.channels| ==> Sound(s.channels[c], s.chunks) && Tracked(s, c)
  }

  lemma ChangesAreSound(ch: Channel, chunks: nat)
    requires Sound(ch, chunks)
    ensures ch.left.None? ==>
        Sound(Offer(ch, chunks), chunks + 1) && Sound(Closed(ch, chunks), chunks) && Sound(Replaced(ch, chunks), chunks)
    ensures ch.left.Some? ==> Sound(ch, chunks + 1)
    ensures ch.received < |ch.accepted| ==> Sound(ch.(received := ch.received + 1), chunks)
  {}

  lemma BroadcastKeeps(s: State)
    requires Inv(s)
    ensures Inv(Broadcasted(s))
  {
    var s' := Broadcasted(s);
    forall c | 0 <= c < |s.channels| ensures Sound(s'.channels[c], s'.chunks) && Tracked(s', c) {
      ChangesAreSound(s.channels[c], s.chunks);
      assert Tracked(s, c);
    }
  }

  lemma CloseKeeps(s: State)
    requires Inv(s)
    ensures Inv(AllClosed(s))
  {
    var s' := AllClosed(s);
    forall c | 0 <= c < |s.channels| ensures Sound(s'.channels[c], s'.chunks) && Tracked(s', c) {
      ChangesAreSound(s.channels[c], s.chunks);
      assert Tracked(s, c);
    }
  }

  lemma SubscribeKeeps(s: State, id: string)
    requires Inv(s)
    ensures Inv(Subscribed(s, id))
  {
    var s' := Subscribed(s, id);
    forall c | 0 <= c < |s'.channels| ensures Sound(s'.channels[c], s'.chunks) && Tracked(s', c) {
      if c < |s.channels| {
        ChangesAreSound(s.channels[c], s.chunks);
        assert Tracked(s, c);
      }
    }
  }

  lemma UnsubscribeKeeps(s: State, id: string)
    requires Inv(s)
    ensures Inv(Unsubscribed(s, id))
  {
    var s' := Unsubscribed(s, id);
    forall c | 0 <= c < |s'.channels| ensures Sound(s'.channels[c], s'.chunks) && Tracked(s', c) {
      ChangesAreSound(s.channels[c], s.chunks);
      assert Tracked(s, c);
    }
  }

  lemma ReceiveKeeps(s: State, c: nat)
    requires Inv(s) && c < |s.channels| && s.channels[c].received < |s.channels[c].accepted|
    ensures Inv(Received(s, c))
  {
    var s' := Received(s, c);
    forall d | 0 <= d < |s'.channels| ensures Sound(s'.channels[d], s'.chunks) && Tracked(s', d) {
      ChangesAreSound(s.channels[d], s.chunks);
      assert Tracked(s, d);
    }
  }

  lemma StepKeepsInv(s: State, a: Action, s': State)
    requires Inv(s) && Next(s, a, s')
    ensures Inv(s')
  {
    match a
    case Broadcast => BroadcastKeeps(s);
    case Subscribe(id) => SubscribeKeeps(s, id);
    case Unsubscribe(id) => UnsubscribeKeeps(s, id);
    case CloseSubscribers => CloseKeeps(s);
    case Receive(c) => ReceiveKeeps(s, c);
  }

  lemma RunKeepsInv(states: seq<State>, actions: seq<Action>)
    requires IsRun(Init, Next, states, actions)
    ensures forall i :: 0 <= i < |states| ==> Inv(states[i])
  {
    forall s, a, s' | Inv(s) && Next(s, a, s') ensures Inv(s') { StepKeepsInv(s, a, s'); }
    Invariance(Init, Next, Inv, states, actions);
  }

  // ---------------------------------------------------------------- whole runs

  /** In every interleaving a channel is closed at most once, never while registered, and never sent to afterwards. */
  lemma ClosedAtMostOnce(states: seq<State>, actions: seq<Action>, n: nat, c: nat)
    requires IsRun(Init, Next, states, actions) && n < |states| && c < |states[n].channels|
    ensures states[n].channels[c].closes <= 1 && states[n].channels[c].sentClosed == 0
    ensures Registered(states[n], c) ==> states[n].channels[c].closes == 0
  {
    RunKeepsInv(states, actions);
    assert Sound(states[n].channels[c], states[n].chunks) && Tracked(states[n], c);
  }

  lemma {:induction false} IncreasingFills(xs: seq<nat>, lo: nat, hi: nat, k: nat)
    requires Increasing(xs, lo, hi) && |xs| == hi - lo && k < |xs|
    ensures xs[k] >= lo + k && xs[|xs| - 1 - k] < hi - k
  {
    if k > 0 { IncreasingFills(xs, lo, hi, k - 1); }
  }

  /** In the first `n` states, while channel `c` was registered, fewer than 1024 chunks waited for its client. */
  ghost predicate HasRoom(states: seq<State>, c: nat, n: nat) {
    && n <= |states|
    && forall m :: 0 <= m < n && c < |states[m].channels| && Registered(states[m], c) ==>
         |states[m].channels[c].accepted| - states[m].channels[c].received < 1024
  }

  lemma FullExactly(s: State, a: Action, s': State, c: nat)
    requires Inv(s) && Next(s, a, s') && c < |s'.channels| && s'.channels[c].full
    ensures (c < |s.channels| && s.channels[c].full)
         || (Registered(s', c) && |s'.channels[c].accepted| - s'.channels[c].received >= 1024)
  {
    if c < |s.channels| { assert Tracked(s, c) && Sound(s.channels[c], s.chunks); }
  }

  lemma {:induction false} NeverFull(states: seq<State>, actions: seq<Action>, n: nat, c: nat)
    requires IsRun(Init, Next, states, actions) && n < |states| && c < |states[n].channels| && HasRoom(states, c, n + 1)
    ensures !states[n].channels[c].full
  {
    assert n > 0 by { assert Init(states[0]); }
    assert Next(states[n - 1], actions[n - 1], states[n - 1 + 1]);
    RunKeepsInv(states, actions);
    if states[n].channels[c].full {
      FullExactly(states[n - 1], actions[n - 1], states[n], c);
      NeverFull(states, actions, n - 1, c);
    }
  }

  /**
    What a client has received is, in order and without repetition, some of the chunks broadcast while
    it was registered; if fewer than 1024 were waiting for it in every state of the run in which it was,
    its buffer took every one of them.
    */
  lemma DeliveredInOrder(states: seq<State>, actions: seq<Action>, n: nat, c: nat)
    requires IsRun(Init, Next, states, actions) && n < |states| && c < |states[n].channels|
    ensures
      var ch, end := states[n].channels[c], End(states[n].channels[c], states[n].chunks);
      && ch.received <= |ch.accepted| && Increasing(ch.accepted[..ch.received], ch.joined, end)
      && (HasRoom(states, c, n + 1) ==>
            && |ch.accepted| == end - ch.joined
            && forall k :: 0 <= k < |ch.accepted| ==> ch.accepted[k] == ch.joined + k)
  {
    RunKeepsInv(states, actions);
    var ch, end := states[n].channels[c], End(states[n].channels[c], states[n].chunks);
    assert Sound(ch, states[n].chunks);
    if HasRoom(states, c, n + 1) {
      NeverFull(states, actions, n, c);
      forall k | 0 <= k < |ch.accepted| ensures ch.accepted[k] == ch.joined + k {
        IncreasingFills(ch.accepted, ch.joined, end, k);
        IncreasingFills(ch.accepted, ch.joined, end, |ch.accepted| - 1 - k);
      }
    }
  }

  /**
    A chunk goes to exactly the channels registered when it is read that have fewer than 1024 chunks
    waiting; no other step gives a channel anything, and none takes anything back.
    */
  lemma AcceptedExactly(s: State, a: Action, s': State, c: nat)
    requires Inv(s) && Next(s, a, s') && c < |s.channels|
    ensures c < |s'.channels|
    ensures s'.channels[c].accepted ==
            if a.Broadcast? && Registered(s, c) && |s.channels[c].accepted| - s.channels[c].received < 1024
            then s.channels[c].accepted + [s.chunks] else s.channels[c].accepted
    ensures s'.channels[c].received == s.channels[c].received + if a == Receive(c) then 1 else 0
    ensures s'.chunks == s.chunks + if a.Broadcast? then 1 else 0
  {
    assert Tracked(s, c) && Sound(s.channels[c], s.chunks);
  }

  /** A channel is closed by exactly two things: its own Unsubscribe, and the end of the loop while it is registered. */
  lemma ClosedExactly(s: State, a: Action, s': State, c: nat)
    requires Inv(s) && Next(s, a, s') && c < |s.channels|
    ensures c < |s'.channels|
    ensures s'.channels[c].closes > s.channels[c].closes <==>
      Registered(s, c) && (a.CloseSubscribers? || a == Unsubscribe(s.channels[c].id))
  {
    assert Sound(s.channels[c], s.chunks) && Tracked(s, c);
  }

  /** Some step between `i` and `j` is the Unsubscribe that reaches channel `c`. */
  ghost predicate Leaves(states: seq<State>, actions: seq<Action>, c: nat, i: nat, j: nat) {
    && j <= |actions| < |states|
    && exists k :: i <= k < j && c < |states[k].channels| && Registered(states[k], c)
         && actions[k] == Unsubscribe(states[k].channels[c].id)
  }

  lemma NothingAfterTheLoop(s: State, a: Action, s': State, c: nat)
    requires Inv(s) && Next(s, a, s') && !s.looping && c < |s.channels|
    ensures !s'.looping && c < |s'.channels| && s'.channels[c].accepted == s.channels[c].accepted
    ensures s'.channels[c].closes >= s.channels[c].closes
  {}

  /**
    Once the loop has ended an open channel gets no further chunk, and in all the rest of the run it
    is closed exactly if it is registered when its own client unsubscribes.
    */
  lemma {:induction false} AfterTheLoop(states: seq<State>, actions: seq<Action>, c: nat, i: nat, j: nat)
    requires IsRun(Init, Next, states, actions) && i <= j < |states|
    requires !states[i].looping && c < |states[i].channels| && states[i].channels[c].closes == 0
    ensures !states[j].looping && c < |states[j].channels|
    ensures states[j].channels[c].accepted == states[i].channels[c].accepted
    ensures states[j].channels[c].closes > 0 <==> Leaves(states, actions, c, i, j)
  {
    if i < j {
      var s, a, s' := states[j - 1], actions[j - 1], states[j];
      assert Next(s, a, states[j - 1 + 1]);
      AfterTheLoop(states, actions, c, i, j - 1);
      RunKeepsInv(states, actions);
      NothingAfterTheLoop(s, a, s', c);
      ClosedExactly(s, a, s', c);
      if Leaves(states, actions, c, i, j - 1) {
        var k :| i <= k < j - 1 && c < |states[k].channels| && Registered(states[k], c)
                 && actions[k] == Unsubscribe(states[k].channels[c].id);
        assert i <= k < j;
      }
    }
  }

  /**
    A subscriber that joins after the loop has ended never gets a chunk, and stays open for the rest
    of the run unless its own client unsubscribes.
    */
  lemma LateSubscriberIsStranded(states: seq<State>, actions: seq<Action>, i: nat, j: nat)
    requires IsRun(Init, Next, states, actions) && i < j < |states| && !states[i].looping && actions[i].Subscribe?
    ensures
      var c := |states[i].channels|;
      && c < |states[j].channels| && states[j].channels[c].accepted == []
      && (states[j].channels[c].closes > 0 <==> Leaves(states, actions, c, i + 1, j))
  {
    assert Next(states[i], actions[i], states[i + 1]);
    AfterTheLoop(states, actions, |states[i].channels|, i + 1, j);
  }

  /** Such a run exists. */
  lemma SubscriberCanBeLate(id: string) returns (states: seq<State>, actions: seq<Action>)
    ensures IsRun(Init, Next, states, actions) && |actions| == 2 && !states[1].looping && actions[1] == Subscribe(id)
  {
    var s0 := State(0, true, map[], []);
    var s1 := AllClosed(s0);
    actions := [CloseSubscribers, Subscribe(id)];
    states := [s0, s1, Subscribed(s1, id)];
  }

  // ---------------------------------------------------------------- the terminal as the service holds it

  class Subscriber {
    const id: string
    var queue: seq<seq<int>>
    var closed: bool

    constructor (id: string)
      ensures this.id == id && queue == [] && !closed
    {
      this.id := id;
      queue, closed := [], false;
    }

    /** A send that gives up when the buffer is full. */
    method TrySend(chunk: seq<int>)
      modifies this`queue
      ensures queue == if |old(queue)| < 1024 then old(queue) + [chunk] else old(queue)
    {
      if |queue| < CAPACITY { queue := queue + [chunk]; }
    }

    /** Closing a closed channel would panic. */
    method Close()
      requires !closed
      modifies this`closed
      ensures closed
    {
      closed := true;
    }
  }

  /** A channel's contents, apart from where it is kept. */
  datatype Buffer = Buffer(id: string, queue: seq<seq<int>>, closed: bool)

  /** The terminal's contents: every channel it ever made, and which are registered under what id. */
  datatype Terminal = Terminal(index: map<string, nat>, buffers: seq<Buffer>) {
    predicate Registers(c: nat)
      requires c < |buffers|
    {
      buffers[c].id in index && index[buffers[c].id] == c
    }
  }

  function Offered(b: Buffer, chunk: seq<int>): Buffer {
    if |b.queue| < CAPACITY then b.(queue := b.queue + [chunk]) else b
  }

  function AfterBroadcast(t: Terminal, chunk: seq<int>): Terminal {
    t.(buffers := seq(|t.buffers|, c requires 0 <= c < |t.buffers| =>
                    if t.Registers(c) then Offered(t.buffers[c], chunk) else t.buffers[c]))
  }

  function AfterSubscribe(t: Terminal, id: string): Terminal {
    Terminal(t.index[id := |t.buffers|], t.buffers + [Buffer(id, [], false)])
  }

  function AfterUnsubscribe(t: Terminal, id: string): Terminal {
    if id in t.index && t.index[id] < |t.buffers|
    then Terminal(t.index - {id}, t.buffers[t.index[id] := t.buffers[t.index[id]].(closed := true)])
    else t
  }

  function AfterReceive(t: Terminal, c: nat): Terminal
    requires c < |t.buffers| && t.buffers[c].queue != []
  {
    t.(buffers := t.buffers[c := t.buffers[c].(queue := t.buffers[c].queue[1..])])
  }

  function AfterClose(t: Terminal): Terminal {
    Terminal(map[], seq(|t.buffers|, c requires 0 <= c < |t.buffers| =>
                      if t.Registers(c) then t.buffers[c].(closed := true) else t.buffers[c]))
  }

  // ---- the contents follow the machine

  /**
    A buffer holds the chunks that its channel accepted and its client has not received; `data` are all
    chunks read.
    */
  predicate Holds(b: Buffer, ch: Channel, data: seq<seq<int>>) {
    && b.id == ch.id && (b.closed <==> ch.closes > 0) && |ch.accepted| == ch.received + |b.queue|
    && forall k :: ch.received <= k < |ch.accepted| ==>
         ch.accepted[k] < |data| && b.queue[k - ch.received] == data[ch.accepted[k]]
  }

  ghost predicate Agree(s: State, t: Terminal, data: seq<seq<int>>) {
    && |data| == s.chunks && s.subscribers == t.index && |s.channels| == |t.buffers|
    && forall c :: 0 <= c < |t.buffers| ==> Holds(t.buffers[c], s.channels[c], data)
  }

  /** What the method for a step does to the contents; `chunk` is the one read, if the step reads one. */
  function AfterStep(t: Terminal, a: Action, chunk: seq<int>): Terminal {
    match a
    case Broadcast => AfterBroadcast(t, chunk)
    case Subscribe(id) => AfterSubscribe(t, id)
    case Unsubscribe(id) => AfterUnsubscribe(t, id)
    case CloseSubscribers => AfterClose(t)
    case Receive(c) => if c < |t.buffers| && t.buffers[c].queue != [] then AfterReceive(t, c) else t
  }

  function DataAfter(data: seq<seq<int>>, a: Action, chunk: seq<int>): seq<seq<int>> {
    if a.Broadcast? then data + [chunk] else data
  }

  lemma MoreDataHolds(b: Buffer, ch: Channel, data: seq<seq<int>>, chunk: seq<int>)
    requires Holds(b, ch, data)
    ensures Holds(b, ch, data + [chunk])
  {}

  lemma OfferHolds(b: Buffer, ch: Channel, data: seq<seq<int>>, chunk: seq<int>)
    requires Holds(b, ch, data) && ch.closes == 0
    ensures Holds(Offered(b, chunk), Offer(ch, |data|), data + [chunk])
  {
    MoreDataHolds(b, ch, data, chunk);
  }

  lemma BroadcastFollows(s: State, t: Terminal, data: seq<seq<int>>, chunk: seq<int>, c: nat)
    requires Inv(s) && Agree(s, t, data) && c < |t.buffers|
    ensures Holds(AfterBroadcast(t, chunk).buffers[c], Broadcasted(s).channels[c], data + [chunk])
  {
    assert Holds(t.buffers[c], s.channels[c], data) && Sound(s.channels[c], s.chunks) && Tracked(s, c);
    if Registered(s, c) {
      OfferHolds(t.buffers[c], s.channels[c], data, chunk);
    } else {
      MoreDataHolds(t.buffers[c], s.channels[c], data, chunk);
    }
  }

  lemma SubscribeFollows(s: State, t: Terminal, data: seq<seq<int>>, id: string, c: nat)
    requires Inv(s) && Agree(s, t, data) && c <= |t.buffers|
    ensures c < |Subscribed(s, id).channels|
    ensures Holds(AfterSubscribe(t, id).buffers[c], Subscribed(s, id).channels[c], data)
  {
    assert c < |t.buffers| ==> Holds(t.buffers[c], s.channels[c], data);
  }

  lemma LeaveFollows(s: State, t: Terminal, data: seq<seq<int>>, id: string, c: nat)
    requires Inv(s) && Agree(s, t, data) && c < |t.buffers|
    ensures Holds(AfterUnsubscribe(t, id).buffers[c], Unsubscribed(s, id).channels[c], data)
    ensures Holds(AfterClose(t).buffers[c], AllClosed(s).channels[c], data)
  {
    assert Holds(t.buffers[c], s.channels[c], data);
  }

  lemma ReceiveFollows(s: State, t: Terminal, data: seq<seq<int>>, e: nat, c: nat)
    requires Agree(s, t, data) && c < |t.buffers|
    requires e < |t.buffers| && s.channels[e].received < |s.channels[e].accepted|
    ensures t.buffers[e].queue != [] && Holds(AfterReceive(t, e).buffers[c], Received(s, e).channels[c], data)
  {
    assert Holds(t.buffers[c], s.channels[c], data) && Holds(t.buffers[e], s.channels[e], data);
    TakenHolds(t.buffers[e], s.channels[e], data);
  }

  lemma TakenHolds(b: Buffer, ch: Channel, data: seq<seq<int>>)
    requires Holds(b, ch, data) && b.queue != []
    ensures Holds(b.(queue := b.queue[1..]), ch.(received := ch.received + 1), data)
  {}

  /** The class follows the machine: whatever step a method takes, the contents and the machine's state still agree. */
  lemma TerminalFollows(s: State, a: Action, s': State, t: Terminal, data: seq<seq<int>>, chunk: seq<int>)
    requires Inv(s) && Next(s, a, s') && Agree(s, t, data)
    ensures Agree(s', AfterStep(t, a, chunk), DataAfter(data, a, chunk))
  {
    var t', data' := AfterStep(t, a, chunk), DataAfter(data, a, chunk);
    forall c | 0 <= c < |t'.buffers| ensures c < |s'.channels| && Holds(t'.buffers[c], s'.channels[c], data') {
      match a
      case Broadcast => BroadcastFollows(s, t, data, chunk, c);
      case Subscribe(id) => SubscribeFollows(s, t, data, id, c);
      case Unsubscribe(id) => LeaveFollows(s, t, data, id, c);
      case CloseSubscribers => LeaveFollows(s, t, data, "", c);
      case Receive(e) => ReceiveFollows(s, t, data, e, c);
    }
  }

  class SharedPTY {
    var subscribers: map<string, Subscriber>
    ghost var channels: seq<Subscriber>
    ghost var index: map<string, nat>

    /** The index tells which of the channels made so far is registered under what id. */
    ghost predicate Valid()
      reads this, channels
    {
      && (forall c, e :: 0 <= c < e < |channels| ==> channels[c] != channels[e])
      && subscribers.Keys == index.Keys
      && (forall id :: id in subscribers ==> Entered(id))
    }

    ghost predicate Entered(id: string)
      requires id in subscribers && id in index
      reads this, channels
    {
      && index[id] < |channels| && subscribers[id] == channels[index[id]]
      && subscribers[id].id == id && !subscribers[id].closed
    }

    /** Registered channels are open and under their own id. */
    ghost predicate Own()
      reads this, subscribers.Values
    {
      forall id :: id in subscribers ==> subscribers[id].id == id && !subscribers[id].closed
    }

    ghost function View(): Terminal
      reads this, channels
    {
      Terminal(index, seq(|channels|, c requires 0 <= c < |channels| reads this, channels => BufferOf(channels[c])))
    }

    ghost function BufferOf(sub: Subscriber): Buffer
      reads sub
    {
      Buffer(sub.id, sub.queue, sub.closed)
    }

    constructor ()
      ensures Valid() && View() == Terminal(map[], []) && subscribers == map[]
    {
      subscribers := map[];
      channels, index := [], map[];
    }

    ghost predicate Registered(c: nat)
      requires c < |channels|
      reads this, channels
    {
      channels[c].id in index && index[channels[c].id] == c
    }

    /** The loop of broadcast, in whatever order the map is walked. */
    method OfferEach(chunk: seq<int>)
      requires Own()
      modifies set id | id in subscribers :: subscribers[id]`queue
      ensures forall id :: id in subscribers ==>
                subscribers[id].queue == Offered(old(BufferOf(subscribers[id])), chunk).queue
    {
      var rest := subscribers.Keys;
      while rest != {}
        invariant Own() && rest <= subscribers.Keys
        invariant forall id :: id in rest ==> subscribers[id].queue == old(subscribers[id].queue)
        invariant forall id :: id in subscribers && id !in rest ==>
                    subscribers[id].queue == Offered(old(BufferOf(subscribers[id])), chunk).queue
        decreases rest
      {
        var id :| id in rest;
        subscribers[id].TrySend(chunk);
        rest := rest - {id};
      }
    }

    method Broadcast(chunk: seq<int>)
      requires Valid()
      modifies set id | id in subscribers :: subscribers[id]`queue
      ensures Valid() && View() == AfterBroadcast(old(View()), chunk)
      ensures forall id :: id in subscribers ==>
                subscribers[id].queue ==
                if old(|subscribers[id].queue|) < 1024 then old(subscribers[id].queue) + [chunk]
                else old(subscribers[id].queue)
    {
      assert forall id :: id in subscribers ==> Entered(id);
      OfferEach(chunk);
      OffersShow(chunk);
    }

    /** What the loop of broadcast does to the contents, channels that are no longer registered included. */
    twostate lemma OffersShow(chunk: seq<int>)
      requires old(Valid()) && subscribers == old(subscribers) && channels == old(channels) && index == old(index)
      requires forall id :: id in subscribers ==>
          BufferOf(subscribers[id]) == Offered(old(BufferOf(subscribers[id])), chunk)
      requires forall sub :: sub in channels && !(sub.id in subscribers && subscribers[sub.id] == sub) ==>
                 BufferOf(sub) == old(BufferOf(sub))
      ensures Valid() && View() == AfterBroadcast(old(View()), chunk)
    {
      forall c | 0 <= c < |channels|
        ensures BufferOf(channels[c]) ==
            if Registered(c) then Offered(old(BufferOf(channels[c])), chunk) else old(BufferOf(channels[c]))
      {
        assert channels[c] in channels;
        if Registered(c) { assert old(Entered(channels[c].id)); }
      }
      assert forall id :: id in subscribers ==> old(Entered(id)) && Entered(id);
    }

    method Subscribe(id: string) returns (sub: Subscriber)
      requires Valid()
      modifies this
      ensures Valid() && View() == AfterSubscribe(old(View()), id)
      ensures fresh(sub) && sub.queue == [] && subscribers == old(subscribers)[id := sub]
    {
      sub := new Subscriber(id);
      index := index[id := |channels|];
      subscribers, channels := subscribers[id := sub], channels + [sub];
    }

    method Unsubscribe(id: string)
      requires Valid()
      modifies this, if id in subscribers then {subscribers[id]} else {}
      ensures Valid() && View() == AfterUnsubscribe(old(View()), id) && subscribers == old(subscribers) - {id}
    {
      if id in subscribers {
        assert Entered(id);
        var sub := subscribers[id];
        subscribers, index := subscribers - {id}, index - {id};
        sub.Close();
      }
    }

    /** The client takes the oldest chunk of its channel. */
    method Receive(sub: Subscriber, ghost c: nat) returns (chunk: seq<int>)
      requires Valid() && c < |channels| && channels[c] == sub && |sub.queue| > 0
      modifies sub`queue
      ensures Valid() && View() == AfterReceive(old(View()), c) && [chunk] + sub.queue == old(sub.queue)
    {
      chunk := sub.queue[0];
      sub.queue := sub.queue[1..];
    }

    /** The loop of closeSubscribers. */
    method CloseEach()
      requires Own()
      modifies this`subscribers, set id | id in subscribers :: subscribers[id]`closed
      ensures subscribers == map[] && forall id :: id in old(subscribers) ==> old(subscribers[id]).closed
    {
      while subscribers != map[]
        invariant Own()
        invariant forall id :: id in subscribers ==> id in old(subscribers) && subscribers[id] == old(subscribers[id])
        invariant forall id :: id in old(subscribers) && id !in subscribers ==> old(subscribers[id]).closed
        decreases |subscribers|
      {
        var id :| id in subscribers;
        subscribers[id].Close();
        subscribers := subscribers - {id};
      }
    }

    method CloseSubscribers()
      requires Valid()
      modifies this, subscribers.Values
      ensures Valid() && View() == AfterClose(old(View())) && subscribers == map[]
    {
      assert forall id :: id in subscribers ==> Entered(id);
      CloseEach();
      forall c | 0 <= c < |channels|
        ensures BufferOf(channels[c]) ==
                if Registered(c) then old(BufferOf(channels[c])).(closed := true) else old(BufferOf(channels[c]))
      {
        if Registered(c) { assert old(Entered(channels[c].id)); }
      }
      index := map[];
    }
  }
}
