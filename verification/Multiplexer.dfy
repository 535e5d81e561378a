/**
  The registry of shared terminals: GetOrStart opens a PTY stream for a session under the registry
  lock, its read loop closes subscribers, then the stream, then cancels, and a cleanup goroutine
  that waits for the cancellation unregisters it.  All of them interleave.
  */
module Multiplexer {
  import opened Wrappers
  import opened Runs
  import Fanout

  /** How far the read loop of a PTY has got. */
  datatype Loop = Reading | ClosingSubscribers | ClosingStream | Cancelling | Exited

  /** `open` is the stream's; `cancelled` the context's; `cleaned` says the cleanup goroutine is done. */
  datatype Pty = Pty(session: string, loop: Loop, open: bool, cancelled: bool, cleaned: bool)

  datatype State = State(sessions: map<string, nat>, ptys: seq<Pty>)

  datatype Action =
    | GetOrStart(session: string, started: bool)
    | ReadFails(p: nat)
    | CloseSubscribers(p: nat)
    | CloseStream(p: nat)
    | Cancel(p: nat)
    | Cleanup(p: nat)

  /** Looks the session up, or starts a stream and registers it, all under one lock. */
  function Started(s: State, session: string, started: bool): State {
    if session in s.sessions || !started then s
    else State(s.sessions[session := |s.ptys|], s.ptys + [Pty(session, Reading, true, false, false)])
  }

  function With(s: State, p: nat, pty: Pty): State
    requires p < |s.ptys|
  {
    s.(ptys := s.ptys[p := pty])
  }

  /** Unregisters the PTY, unless its session is registered to another one by now. */
  function CleanedUp(s: State, p: nat): State
    requires p < |s.ptys|
  {
    var session := s.ptys[p].session;
    var s1 := With(s, p, s.ptys[p].(cleaned := true));
    if session in s.sessions && s.sessions[session] == p then s1.(sessions := s.sessions - {session}) else s1
  }

  predicate Enabled(s: State, a: Action) {
    match a
    case GetOrStart(_, _) => true
    case ReadFails(p) => p < |s.ptys| && s.ptys[p].loop.Reading?
    case CloseSubscribers(p) => p < |s.ptys| && s.ptys[p].loop.ClosingSubscribers?
    case CloseStream(p) => p < |s.ptys| && s.ptys[p].loop.ClosingStream?
    case Cancel(p) => p < |s.ptys| && s.ptys[p].loop.Cancelling?
    case Cleanup(p) => p < |s.ptys| && s.ptys[p].cancelled && !s.ptys[p].cleaned
  }

  function Apply(s: State, a: Action): State
    requires Enabled(s, a)
  {
    match a
    case GetOrStart(session, started) => Started(s, session, started)
    case ReadFails(p) => With(s, p, s.ptys[p].(loop := ClosingSubscribers))
    case CloseSubscribers(p) => With(s, p, s.ptys[p].(loop := ClosingStream))
    case CloseStream(p) => With(s, p, s.ptys[p].(loop := Cancelling, open := false))
    case Cancel(p) => With(s, p, s.ptys[p].(loop := Exited, cancelled := true))
    case Cleanup(p) => CleanedUp(s, p)
  }

  ghost predicate Init(s: State) { s == State(map[], []) }

  ghost predicate Next(s: State, a: Action, s': State) { Enabled(s, a) && s' == Apply(s, a) }

  /** An open stream is the registered one of its session, and is neither cancelled nor past its closing. */
  ghost predicate PtyTrue(s: State, p: nat) {
    && p < |s.ptys|
    && var pty := s.ptys[p];
       && (pty.open <==> pty.loop.Reading? || pty.loop.ClosingSubscribers? || pty.loop.ClosingStream?)
       && (pty.cancelled <==> pty.loop.Exited?) && (pty.cleaned ==> pty.cancelled)
       && (!pty.cleaned ==> pty.session in s.sessions && s.sessions[pty.session] == p)
  }

  ghost predicate Inv(s: State) {
    && (forall p :: 0 <= p < |s.ptys| ==> PtyTrue(s, p))
    && (forall id :: id in s.sessions ==>
          s.sessions[id] < |s.ptys| && s.ptys[s.sessions[id]].session == id && !s.ptys[s.sessions[id]].cleaned)
  }

  lemma PtyKept(s: State, a: Action, s': State, p: nat)
    requires Inv(s) && Next(s, a, s') && p < |s'.ptys|
    ensures PtyTrue(s', p)
  {
    if p < |s.ptys| { assert PtyTrue(s, p); }
    if a.Cleanup? { assert PtyTrue(s, a.p); }
  }

  lemma EntryKept(s: State, a: Action, s': State, id: string)
    requires Inv(s) && Next(s, a, s') && id in s'.sessions
    ensures s'.sessions[id] < |s'.ptys|
    ensures s'.ptys[s'.sessions[id]].session == id && !s'.ptys[s'.sessions[id]].cleaned
  {
    if a.Cleanup? { assert PtyTrue(s, a.p); }
  }

  lemma StepKeepsInv(s: State, a: Action, s': State)
    requires Inv(s) && Next(s, a, s')
    ensures Inv(s')
  {
    forall p | 0 <= p < |s'.ptys| ensures PtyTrue(s', p) { PtyKept(s, a, s', p); }
    forall id | id in s'.sessions
      ensures s'.sessions[id] < |s'.ptys|
      ensures s'.ptys[s'.sessions[id]].session == id && !s'.ptys[s'.sessions[id]].cleaned
    {
      EntryKept(s, a, s', id);
    }
  }

  lemma RunKeepsInv(states: seq<State>, actions: seq<Action>)
    requires IsRun(Init, Next, states, actions)
    ensures forall i :: 0 <= i < |states| ==> Inv(states[i])
  {
    forall s, a, s' | Inv(s) && Next(s, a, s') ensures Inv(s') { StepKeepsInv(s, a, s'); }
    Invariance(Init, Next, Inv, states, actions);
  }

  /** In every interleaving at most one stream is open per session, and it is the registered one. */
  lemma OneOpenStream(states: seq<State>, actions: seq<Action>, n: nat, p: nat)
    requires IsRun(Init, Next, states, actions) && n < |states| && p < |states[n].ptys| && states[n].ptys[p].open
    ensures
      var s := states[n];
      && s.ptys[p].session in s.sessions && s.sessions[s.ptys[p].session] == p
      && forall q :: 0 <= q < |s.ptys| && s.ptys[q].open && s.ptys[q].session == s.ptys[p].session ==> q == p
  {
    RunKeepsInv(states, actions);
    var s := states[n];
    assert PtyTrue(s, p);
    forall q | 0 <= q < |s.ptys| && s.ptys[q].open && s.ptys[q].session == s.ptys[p].session ensures q == p {
      assert PtyTrue(s, q);
    }
  }

  /**
    A cleanup takes its own PTY off the registry and no other: its stream is closed by then, and no
    successor can have been registered, so the code's check for one never fails.
    */
  lemma CleanupSparesSuccessors(s: State, p: nat, s': State)
    requires Inv(s) && Next(s, Cleanup(p), s')
    ensures s.ptys[p].session in s.sessions && s.sessions[s.ptys[p].session] == p
    ensures !s.ptys[p].open && s'.sessions == s.sessions - {s.ptys[p].session}
    ensures forall q :: 0 <= q < |s.ptys| && q != p ==> s.ptys[q].session != s.ptys[p].session || s.ptys[q].cleaned
  {
    assert PtyTrue(s, p);
    forall q | 0 <= q < |s.ptys| && q != p
      ensures s.ptys[q].session != s.ptys[p].session || s.ptys[q].cleaned
    {
      assert PtyTrue(s, q);
    }
  }

  // ---------------------------------------------------------------- the registry as the service holds it

  /** Ghost fields: the machine's view of the registry, and every shared terminal it ever started. */
  class Registry {
    var sessions: map<string, Fanout.SharedPTY>
    ghost var view: State
    ghost var started: seq<Fanout.SharedPTY>

    /** The view is true of the map, and terminals are told apart. */
    ghost predicate Valid()
      reads this
    {
      && |started| == |view.ptys| && (forall p, q :: 0 <= p < q < |started| ==> started[p] != started[q])
      && sessions.Keys == view.sessions.Keys
      && forall id :: id in sessions ==> view.sessions[id] < |started| && sessions[id] == started[view.sessions[id]]
    }

    constructor ()
      ensures Valid() && Init(view) && sessions == map[]
    {
      sessions := map[];
      view, started := State(map[], []), [];
    }

    /** `opens` is whether a stream can be opened; no error leaves the caller without a subscription. */
    method GetOrStart(session: string, subId: string, opens: bool)
      returns (pty: Option<Fanout.SharedPTY>, sub: Option<Fanout.Subscriber>)
      requires Valid() && (session in sessions ==> sessions[session].Valid())
      modifies this, if session in sessions then {sessions[session]} else {}
      ensures Valid() && view == Started(old(view), session, opens)
      ensures pty.Some? <==> session in old(sessions) || opens
      ensures session in old(sessions) ==> pty == Some(old(sessions)[session])
      ensures session !in old(sessions) && opens ==> fresh(pty.value)
      ensures sessions == if pty.Some? then old(sessions)[session := pty.value] else old(sessions)
      ensures pty.Some? ==>
                && pty.value.Valid() && sub.Some? && subId in pty.value.subscribers
                && pty.value.subscribers[subId] == sub.value
    {
      if session in sessions {
        var s := sessions[session].Subscribe(subId);
        return Some(sessions[session]), Some(s);
      }
      if !opens { return None, None; }
      var shared := new Fanout.SharedPTY();
      var s := shared.Subscribe(subId);
      Register(session, shared);
      return Some(shared), Some(s);
    }

    method Register(session: string, shared: Fanout.SharedPTY)
      requires Valid() && session !in sessions && shared !in started
      modifies this
      ensures Valid() && view == Started(old(view), session, true)
      ensures sessions == old(sessions)[session := shared] && started == old(started) + [shared]
    {
      view := Started(view, session, true);
      sessions, started := sessions[session := shared], started + [shared];
    }

    /** What the cleanup goroutine of the `p`-th terminal does once its context is cancelled. */
    method Cleanup(session: string, shared: Fanout.SharedPTY, ghost p: nat)
      requires Valid() && p < |started| && started[p] == shared && view.ptys[p].session == session
      modifies this
      ensures Valid() && view == CleanedUp(old(view), p) && started == old(started)
      ensures sessions == if session in old(sessions) && old(sessions)[session] == shared
                          then old(sessions) - {session} else old(sessions)
    {
      view := CleanedUp(view, p);
      if session in sessions && sessions[session] == shared {
        sessions := sessions - {session};
      }
    }

    /** A step of some terminal's read loop, which touches nothing of the registry. */
    ghost method LoopStep(a: Action)
      requires Valid() && Enabled(view, a) && !a.GetOrStart? && !a.Cleanup?
      modifies this`view
      ensures Valid() && view == Apply(old(view), a)
    {
      view := Apply(view, a);
    }
  }
}
