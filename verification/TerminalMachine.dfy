/**
  The browser's terminal connection: a socket whose unexpected close schedules a reconnect, a timer
  that checks the sandbox's health and connects again, and at most six attempts.  Sockets and timers
  that were superseded stay in flight: closing a socket only asks for a close event that comes later,
  when the flag that marks the close as intentional is down again.
  */
module TerminalMachine {
  import opened Numbers
  import opened Wrappers
  import opened Runs

  const MAX_RECONNECT_ATTEMPTS: nat := 6
  const BASE_BACKOFF_MS: nat := 1000
  const MAX_BACKOFF_MS: nat := 15000

  // ---------------------------------------------------------------- delays

  function BaseMs(attempt: nat): int { Min(BASE_BACKOFF_MS * Pow2(attempt), MAX_BACKOFF_MS) }

  /** The delay before an attempt; `random` is what Math.random returned. */
  function BackoffMs(attempt: nat, random: real): int { Round(Jittered(BaseMs(attempt) as real, random)) }

  function Jittered(base: real, random: real): real { base + base * 0.1 * (random * 2.0 - 1.0) }

  lemma BaseIsWholeHundreds(attempt: nat)
    ensures BaseMs(attempt) % 1000 == 0 && 1000 <= BaseMs(attempt) <= MAX_BACKOFF_MS
  {
    assert BASE_BACKOFF_MS * Pow2(attempt) % 1000 == 0;
  }

  lemma JitterBound(base: real, tenth: real, random: real)
    requires base == 10.0 * tenth && tenth >= 0.0 && 0.0 <= random <= 1.0
    ensures base - tenth <= Jittered(base, random) <= base + tenth
  {
    assert 0.0 <= tenth * random && 0.0 <= tenth * (1.0 - random);
    assert base * 0.1 == tenth;
    assert tenth * (random * 2.0 - 1.0) == 2.0 * (tenth * random) - tenth;
  }

  lemma RoundWithin(lo: int, x: real, hi: int)
    requires lo as real <= x <= hi as real
    ensures lo <= Round(x) <= hi
  {}

  /** Jitter moves a delay by a tenth at most, rounding included. */
  lemma BackoffWithinTenth(attempt: nat, random: real)
    requires 0.0 <= random < 1.0
    ensures 9 * Min(1000 * Pow2(attempt), 15000) <= 10 * BackoffMs(attempt, random)
    ensures 10 * BackoffMs(attempt, random) <= 11 * Min(1000 * Pow2(attempt), 15000)
  {
    BaseIsWholeHundreds(attempt);
    var base := BaseMs(attempt);
    var tenth := base / 10;
    assert base == 10 * tenth;
    JitterBound(base as real, tenth as real, random);
    RoundWithin(base - tenth, Jittered(base as real, random), base + tenth);
  }

  function TotalMs(randoms: seq<real>): int {
    if randoms == [] then 0 else TotalMs(randoms[..|randoms| - 1]) + BackoffMs(|randoms| - 1, randoms[|randoms| - 1])
  }

  function TotalBaseMs(n: nat): int { if n == 0 then 0 else TotalBaseMs(n - 1) + BaseMs(n - 1) }

  lemma {:induction false} TotalWithinTenth(randoms: seq<real>)
    requires forall i :: 0 <= i < |randoms| ==> 0.0 <= randoms[i] < 1.0
    ensures 9 * TotalBaseMs(|randoms|) <= 10 * TotalMs(randoms) <= 11 * TotalBaseMs(|randoms|)
  {
    if randoms != [] {
      TotalWithinTenth(randoms[..|randoms| - 1]);
      BackoffWithinTenth(|randoms| - 1, randoms[|randoms| - 1]);
    }
  }

  /** The six delays of an exhausted budget add up to between 40.5 and 49.5 seconds. */
  lemma ExhaustedBudgetTakes(randoms: seq<real>)
    requires |randoms| == 6 && forall i :: 0 <= i < |randoms| ==> 0.0 <= randoms[i] < 1.0
    ensures 40500 <= TotalMs(randoms) <= 49500
  {
    TotalWithinTenth(randoms);
    assert Pow2(1) == 2 && Pow2(2) == 4 && Pow2(3) == 8 && Pow2(4) == 16 && Pow2(5) == 32;
    assert TotalBaseMs(3) == 7000;
    assert TotalBaseMs(6) == TotalBaseMs(3) + 8000 + 15000 + 15000;
  }

  // ---------------------------------------------------------------- the machine

  datatype Ui = Idle | RequestingSandbox | Provisioning | Connecting | Connected | Reconnecting | SandboxLost | Failed

  /**
    `sockets` are the sockets whose close event has not arrived, `timers` the timers not yet fired,
    `checks` the timer callbacks waiting for a health answer, `requests` and `probes` the starts waiting
    for a session and then for its worker; `wsRef` and `timerRef` are the hook's references, and
    `created` counts sockets and timers made so far.
    */
  datatype State = State(
    ui: Ui, attempt: nat, session: bool, intentional: bool, wsRef: Option<nat>, timerRef: Option<nat>,
    sockets: set<nat>, timers: set<nat>, checks: nat, requests: nat, probes: nat, created: nat)

  datatype Health = Alive | Dead | BadGateway | NetworkBlip

  datatype Action =
    | SocketCloses(socket: nat, code: int)
    | TimerFires(timer: nat)
    | HealthAnswers(health: Health)
    | SocketReady(socket: nat)
    | SocketOpens(socket: nat)
    | StartAnswers(ok: bool)
    | ProbeAnswers(badGateway: bool)
    | StartSession
    | RetryAfterLoss
    | TerminateBegin
    | TerminateEnd
    | Unmount
  {
    /** Steps that happen with no user action and no socket opening. */
    predicate Background() { Works() || SocketReady? }

    /** Background steps other than messages. */
    predicate Works() { SocketCloses? || TimerFires? || HealthAnswers? || StartAnswers? || ProbeAnswers? }
  }

  function ScheduleReconnect(s: State): State {
    if s.attempt >= MAX_RECONNECT_ATTEMPTS then s.(ui := SandboxLost)
    else s.(attempt := s.attempt + 1, timers := s.timers + {s.created}, timerRef := Some(s.created),
            created := s.created + 1)
  }

  function HandleWsClose(s: State, code: int): State {
    if s.intentional then s
    else if code == 1000 || code == 1001 then s.(ui := SandboxLost)
    else ScheduleReconnect(s.(ui := Reconnecting))
  }

  /** Any socket still referenced is asked to close; its close event comes later, as for any other. */
  function ConnectWs(s: State): State {
    s.(intentional := if s.wsRef.Some? then false else s.intentional, ui := Connecting,
       wsRef := Some(s.created), sockets := s.sockets + {s.created}, created := s.created + 1)
  }

  function Fired(s: State, timer: nat): State {
    var s1 := s.(timers := s.timers - {timer});
    if s.session then s1.(checks := s.checks + 1) else s1.(ui := SandboxLost)
  }

  function Answered(s: State, health: Health): State
    requires s.checks > 0
  {
    var s1 := s.(checks := s.checks - 1);
    match health
    case Dead => s1.(ui := SandboxLost)
    case BadGateway => s1.(ui := Failed)
    case _ => ConnectWs(s1)
  }

  function Requesting(s: State): State { s.(ui := RequestingSandbox, requests := s.requests + 1) }

  /** The request for a session, or for a trial, has come back. */
  function Started(s: State, ok: bool): State
    requires s.requests > 0
  {
    var s1 := s.(requests := s.requests - 1);
    if ok then s1.(session := true, ui := Provisioning, probes := s.probes + 1) else s1.(ui := Failed)
  }

  /** Anything but a bad gateway goes on to connect. */
  function Probed(s: State, badGateway: bool): State
    requires s.probes > 0
  {
    var s1 := s.(probes := s.probes - 1);
    if badGateway then s1.(ui := Failed) else ConnectWs(s1)
  }

  /** What terminate does before its request to the server; the last timer is cleared, older ones are not. */
  function Terminating(s: State): State {
    s.(intentional := false, wsRef := None,
       timers := if s.timerRef.Some? then s.timers - {s.timerRef.value} else s.timers)
  }

  ghost predicate Init(s: State) { s == State(Idle, 0, false, false, None, None, {}, {}, 0, 0, 0, 0) }

  ghost predicate Next(s: State, a: Action, s': State) {
    match a
    case SocketCloses(w, code) => w in s.sockets && s' == HandleWsClose(s.(sockets := s.sockets - {w}), code)
    case TimerFires(t) => t in s.timers && s' == Fired(s, t)
    case HealthAnswers(health) => s.checks > 0 && s' == Answered(s, health)
    case SocketReady(w) => w in s.sockets && s' == s.(ui := Connected)
    case SocketOpens(w) => w in s.sockets && s' == s.(attempt := 0)
    case StartAnswers(ok) => s.requests > 0 && s' == Started(s, ok)
    case ProbeAnswers(badGateway) => s.probes > 0 && s' == Probed(s, badGateway)
    case StartSession => s' == Requesting(s)
    case RetryAfterLoss => s' == Requesting(s.(session := false, attempt := 0))
    case TerminateBegin => s.session && s' == Terminating(s)
    case TerminateEnd => s' == s.(session := false, attempt := 0, ui := Idle)
    case Unmount =>
      s' == s.(intentional := true,
               timers := if s.timerRef.Some? then s.timers - {s.timerRef.value} else s.timers)
  }

  // ---------------------------------------------------------------- termination

  function Outstanding(s: State): nat { |s.timers| + s.checks + |s.sockets| + s.requests + s.probes }

  /**
    Twice 3 * (6 - attempt) + 2 * timers + sockets; what waits for an answer counts as what the answer
    brings, and a half.
    */
  function Measure(s: State): int {
    6 * (MAX_RECONNECT_ATTEMPTS - s.attempt) + 4 * |s.timers| + 3 * s.checks + 2 * |s.sockets|
    + 4 * s.requests + 3 * s.probes
  }

  /** Sockets and timers are told apart by when they were made. */
  ghost predicate Numbered(s: State) {
    && s.attempt <= MAX_RECONNECT_ATTEMPTS
    && (forall w :: w in s.sockets ==> w < s.created) && (forall t :: t in s.timers ==> t < s.created)
  }

  lemma NumberedKept(s: State, a: Action, s': State)
    requires Numbered(s) && Next(s, a, s')
    ensures Numbered(s')
  {}

  /** The attempt count stays within its budget in every run, user actions included. */
  lemma AttemptWithinBudget(states: seq<State>, actions: seq<Action>, n: nat)
    requires IsRun(Init, Next, states, actions) && n < |states|
    ensures Numbered(states[n]) && states[n].attempt <= 6
  {
    forall s, a, s' | Numbered(s) && Next(s, a, s') ensures Numbered(s') { NumberedKept(s, a, s'); }
    Invariance(Init, Next, Numbered, states, actions);
  }

  lemma StepLowersMeasure(s: State, a: Action, s': State)
    requires Numbered(s) && Next(s, a, s') && a.Background()
    ensures if a.Works() then Measure(s') < Measure(s) else Measure(s') == Measure(s)
  {
    match a
    case SocketCloses(w, code) => CloseLowersMeasure(s, w, code);
    case TimerFires(t) => assert |s.timers - {t}| == |s.timers| - 1;
    case HealthAnswers(health) => AnswerLowersMeasure(s, health);
    case ProbeAnswers(badGateway) => ProbeLowersMeasure(s, badGateway);
    case _ =>
  }

  lemma ProbeLowersMeasure(s: State, badGateway: bool)
    requires Numbered(s) && s.probes > 0
    ensures Measure(Probed(s, badGateway)) < Measure(s)
  {
    assert s.created !in s.sockets;
  }

  lemma AnswerLowersMeasure(s: State, health: Health)
    requires Numbered(s) && s.checks > 0
    ensures Measure(Answered(s, health)) < Measure(s)
  {
    assert s.created !in s.sockets;
  }

  lemma CloseLowersMeasure(s: State, w: nat, code: int)
    requires Numbered(s) && w in s.sockets
    ensures Measure(HandleWsClose(s.(sockets := s.sockets - {w}), code)) < Measure(s)
  {
    assert |s.sockets - {w}| == |s.sockets| - 1;
    assert s.created !in s.timers;
  }

  /** Consecutive background steps from any state. */
  ghost predicate BackgroundRun(states: seq<State>, actions: seq<Action>) {
    && |states| == |actions| + 1
    && forall i :: 0 <= i < |actions| ==> actions[i].Background() && Next(states[i], actions[i], states[i + 1])
  }

  function Work(actions: seq<Action>): nat {
    if actions == [] then 0 else Work(actions[..|actions| - 1]) + if actions[|actions| - 1].Works() then 1 else 0
  }

  /** Either something is outstanding, or the user has been told that the sandbox is lost or failed. */
  predicate Told(s: State) { Outstanding(s) > 0 || s.ui.SandboxLost? || s.ui.Failed? }

  lemma ConnectTells(s: State)
    ensures Told(ConnectWs(s))
  {
    assert s.created in ConnectWs(s).sockets;
  }

  lemma CloseTells(s: State, code: int)
    requires !s.intentional
    ensures Told(HandleWsClose(s, code))
  {
    var s' := HandleWsClose(s, code);
    assert s.created in s'.timers || s'.ui.SandboxLost?;
  }

  lemma StepTells(s: State, a: Action, s': State)
    requires Next(s, a, s') && a.Background() && !s.intentional
    ensures Told(s') && !s'.intentional
  {
    match a
    case SocketCloses(w, code) => CloseTells(s.(sockets := s.sockets - {w}), code);
    case HealthAnswers(_) => ConnectTells(s.(checks := s.checks - 1));
    case ProbeAnswers(_) => ConnectTells(s.(probes := s.probes - 1));
    case SocketReady(w) => assert |s.sockets| > 0;
    case _ =>
  }

  /**
    With no socket opening and no user action the machine stops: from any state, unmounted ones included,
    it takes at most Measure steps, stale sockets and timers among them.
    */
  lemma {:induction false} WorkIsBounded(states: seq<State>, actions: seq<Action>)
    requires BackgroundRun(states, actions) && Numbered(states[0])
    ensures Numbered(states[|actions|])
    ensures Work(actions) <= Measure(states[0]) - Measure(states[|actions|]) <= Measure(states[0])
  {
    if actions != [] {
      var n := |actions| - 1;
      WorkIsBounded(states[..n + 1], actions[..n]);
      NumberedKept(states[n], actions[n], states[n + 1]);
      StepLowersMeasure(states[n], actions[n], states[n + 1]);
    }
  }

  /**
    And while it is mounted, when nothing is left in flight the screen says that the sandbox is lost or
    failed, never that it is still connecting.
    */
  lemma {:induction false} ReconnectingTerminates(states: seq<State>, actions: seq<Action>)
    requires BackgroundRun(states, actions) && Numbered(states[0]) && !states[0].intentional && Told(states[0])
    ensures Work(actions) <= Measure(states[0]) - Measure(states[|actions|]) <= Measure(states[0])
    ensures Numbered(states[|actions|]) && !states[|actions|].intentional && Told(states[|actions|])
  {
    WorkIsBounded(states, actions);
    if actions != [] {
      var n := |actions| - 1;
      ReconnectingTerminates(states[..n + 1], actions[..n]);
      StepTells(states[n], actions[n], states[n + 1]);
    }
  }

  /**
    A connection that had just opened, with nothing else under way, is given up after at most 38 steps:
    when nothing is left in flight the screen says that the sandbox is lost or failed.
    */
  lemma LostConnectionIsGivenUp(states: seq<State>, actions: seq<Action>, w: nat)
    requires BackgroundRun(states, actions) && Numbered(states[0]) && !states[0].intentional
    requires states[0].attempt == 0 && states[0].sockets == {w} && states[0].timers == {}
    requires states[0].checks == states[0].requests == states[0].probes == 0
    ensures Work(actions) <= 38
    ensures Outstanding(states[|actions|]) == 0 ==> states[|actions|].ui.SandboxLost? || states[|actions|].ui.Failed?
  {
    ReconnectingTerminates(states, actions);
  }

  // ---------------------------------------------------------------- which closes are worth a retry

  /** No socket is left whose close could set a timer, and nothing that could open another. */
  predicate Dormant(s: State) { s.sockets == {} && Still(s) }

  lemma {:induction false} DormantStays(states: seq<State>, actions: seq<Action>)
    requires BackgroundRun(states, actions) && Dormant(states[0])
    ensures Dormant(states[|actions|]) && states[|actions|].created == states[0].created
  {
    if actions != [] {
      var n := |actions| - 1;
      DormantStays(states[..n + 1], actions[..n]);
      assert Next(states[n], actions[n], states[n + 1]);
    }
  }

  /**
    The last thing in flight, the socket of a mounted session, closes.  The machine may connect again, with
    no user action, exactly if the close code is neither 1000 nor 1001 and fewer than six attempts have been
    made since a socket opened; otherwise the screen says at once that the sandbox is lost.
    */
  lemma ReconnectsExactly(s: State, w: nat, code: int, s': State)
    requires Next(s, SocketCloses(w, code), s') && s.sockets == {w} && !s.intentional && s.session
    requires s.timers == {} && s.checks == s.requests == s.probes == 0
    ensures CanReconnect(s') <==> code != 1000 && code != 1001 && s.attempt < 6
    ensures if CanReconnect(s') then s'.ui.Reconnecting? && s'.attempt == s.attempt + 1
            else s'.ui.SandboxLost? && s'.attempt == s.attempt
  {
    if code == 1000 || code == 1001 || s.attempt >= 6 {
      forall states: seq<State>, actions: seq<Action> | BackgroundRun(states, actions) && states[0] == s'
        ensures states[|actions|].created == s'.created
      {
        DormantStays(states, actions);
      }
    } else {
      assert s.created in s'.timers;
      RestlessReconnects(s');
    }
  }

  // ---------------------------------------------------------------- idle is not for good

  /** After terminate the screen stays idle exactly when nothing is in flight: any background step leaves it. */
  lemma IdleLastsExactly(s: State)
    requires s.ui.Idle? && !s.session && !s.intentional
    ensures (forall a: Action, s': State :: a.Background() && Next(s, a, s') ==> s'.ui.Idle?) <==> Outstanding(s) == 0
  {
    if s.checks > 0 {
      assert Next(s, HealthAnswers(Dead), Answered(s, Dead));
    } else if s.requests > 0 {
      assert Next(s, StartAnswers(false), Started(s, false));
    } else if s.probes > 0 {
      assert Next(s, ProbeAnswers(true), Probed(s, true));
    } else if s.timers != {} {
      var t :| t in s.timers;
      assert Next(s, TimerFires(t), Fired(s, t));
    } else if s.sockets != {} {
      var w :| w in s.sockets;
      assert Next(s, SocketCloses(w, 1000), HandleWsClose(s.(sockets := s.sockets - {w}), 1000));
    }
  }

  /** A session that has started and opened its socket. */
  lemma Connects() returns (s: State)
    ensures Reached(Init, Next, s) && s == State(Connecting, 0, true, false, Some(0), None, {0}, {}, 0, 0, 0, 1)
  {
    var s0 := State(Idle, 0, false, false, None, None, {}, {}, 0, 0, 0, 0);
    ReachedInitially(Init, Next, s0);
    var s1 := Requesting(s0);
    ReachedNext(Init, Next, s0, StartSession, s1);
    var s2 := Started(s1, true);
    ReachedNext(Init, Next, s1, StartAnswers(true), s2);
    s := Probed(s2, false);
    ReachedNext(Init, Next, s2, ProbeAnswers(false), s);
  }

  /** Terminating a session: once it is idle the close event of its own socket sets the machine reconnecting. */
  lemma TerminateThenReconnecting() returns (s: State, closing: State, idle: State, after: State)
    ensures Reached(Init, Next, s) && Next(s, TerminateBegin, closing) && Next(closing, TerminateEnd, idle)
    ensures idle.ui.Idle? && s.wsRef.Some?
    ensures Next(idle, SocketCloses(s.wsRef.value, 1005), after) && after.ui.Reconnecting?
  {
    s := Connects();
    closing := Terminating(s);
    idle := closing.(session := false, attempt := 0, ui := Idle);
    after := HandleWsClose(idle.(sockets := idle.sockets - {0}), 1005);
  }

  // ---------------------------------------------------------------- unmounting is not for good

  /** Nothing is waiting whose answer could lead to another connection. */
  predicate Still(s: State) { s.checks == 0 && s.requests == 0 && s.probes == 0 && (s.timers == {} || !s.session) }

  lemma StillStays(s: State, a: Action, s': State)
    requires Still(s) && s.intentional && Next(s, a, s') && a.Background()
    ensures Still(s') && s'.intentional && s'.created == s.created
  {}

  lemma {:induction false} StillRunStays(states: seq<State>, actions: seq<Action>)
    requires BackgroundRun(states, actions) && Still(states[0]) && states[0].intentional
    ensures Still(states[|actions|]) && states[|actions|].intentional && states[|actions|].created == states[0].created
  {
    if actions != [] {
      var n := |actions| - 1;
      StillRunStays(states[..n + 1], actions[..n]);
      StillStays(states[n], actions[n], states[n + 1]);
    }
  }

  /** Some background run from `s` opens another socket. */
  ghost predicate CanReconnect(s: State) {
    exists states: seq<State>, actions: seq<Action> ::
      BackgroundRun(states, actions) && states[0] == s && states[|actions|].created > s.created
  }

  lemma OneStepReconnects(s: State, a: Action, s': State)
    requires a.Background() && Next(s, a, s') && s'.created > s.created
    ensures CanReconnect(s)
  {
    var states, actions := [s, s'], [a];
    assert BackgroundRun(states, actions) && states[0] == s && states[|actions|] == s';
  }

  lemma TwoStepsReconnect(s: State, a: Action, s': State, b: Action, s'': State)
    requires a.Background() && Next(s, a, s') && b.Background() && Next(s', b, s'') && s''.created > s.created
    ensures CanReconnect(s)
  {
    var states, actions := [s, s', s''], [a, b];
    assert BackgroundRun(states, actions) && states[0] == s && states[|actions|] == s'';
  }

  lemma RestlessReconnects(s: State)
    requires !Still(s)
    ensures CanReconnect(s)
  {
    if s.checks > 0 {
      OneStepReconnects(s, HealthAnswers(Alive), Answered(s, Alive));
    } else if s.probes > 0 {
      OneStepReconnects(s, ProbeAnswers(false), Probed(s, false));
    } else if s.requests > 0 {
      var s' := Started(s, true);
      TwoStepsReconnect(s, StartAnswers(true), s', ProbeAnswers(false), Probed(s', false));
    } else {
      var t :| t in s.timers;
      var s' := Fired(s, t);
      TwoStepsReconnect(s, TimerFires(t), s', HealthAnswers(Alive), Answered(s', Alive));
    }
  }

  /**
    Unmounting clears the last timer and no other, and nothing that waits for an answer.  After it no
    socket is opened again, whatever comes in, exactly if no health check and no start was waiting and no
    older timer was left, or none with a session.
    */
  lemma UnmountIsFinalExactly(s: State, s': State)
    requires Next(s, Unmount, s')
    ensures !CanReconnect(s') <==> Still(s')
  {
    if Still(s') {
      forall states: seq<State>, actions: seq<Action> | BackgroundRun(states, actions) && states[0] == s'
        ensures states[|actions|].created == s'.created
      {
        StillRunStays(states, actions);
      }
    } else {
      RestlessReconnects(s');
    }
  }

  /** A connection lost and its health check under way: unmounted, then alive, and the machine connects again. */
  lemma ChecksHealth() returns (s: State)
    ensures Reached(Init, Next, s) && s.checks == 1 && s.wsRef.Some? && !s.intentional
  {
    var s0 := Connects();
    var s1 := HandleWsClose(s0.(sockets := {}), 1006);
    ReachedNext(Init, Next, s0, SocketCloses(0, 1006), s1);
    s := Fired(s1, 1);
    ReachedNext(Init, Next, s1, TimerFires(1), s);
  }

  lemma UnmountThenConnecting() returns (s: State, gone: State, after: State)
    ensures Reached(Init, Next, s) && Next(s, Unmount, gone) && gone.intentional
    ensures Next(gone, HealthAnswers(Alive), after)
    ensures after.ui.Connecting? && !after.intentional && after.created > gone.created
  {
    s := ChecksHealth();
    gone := s.(intentional := true, timers := if s.timerRef.Some? then s.timers - {s.timerRef.value} else s.timers);
    after := Answered(gone, Alive);
  }

  // ---------------------------------------------------------------- the hook's references

  /** The hook, with the browser's own bookkeeping of sockets, timers and callbacks beside its references. */
  class Hook {
    var state: Ui
    var reconnectAttempt: nat
    var session: bool
    var intentionalClose: bool
    var wsRef: Option<nat>
    var reconnectTimer: Option<nat>
    var sockets: set<nat>
    var timers: set<nat>
    var checks: nat
    var requests: nat
    var probes: nat
    var created: nat

    function View(): State
      reads this
    {
      State(state, reconnectAttempt, session, intentionalClose, wsRef, reconnectTimer,
            sockets, timers, checks, requests, probes, created)
    }

    constructor ()
      ensures Init(View())
    {
      state, reconnectAttempt, session, intentionalClose := Idle, 0, false, false;
      wsRef, reconnectTimer, sockets, timers := None, None, {}, {};
      checks, requests, probes, created := 0, 0, 0, 0;
    }

    /** The `onclose` of any socket ever made, current or stale. */
    method OnClose(socket: nat, code: int, random: real) returns (delayMs: int)
      requires socket in sockets
      modifies this
      ensures View() == HandleWsClose(old(View()).(sockets := old(sockets) - {socket}), code)
      ensures reconnectAttempt > old(reconnectAttempt) ==> delayMs == BackoffMs(old(reconnectAttempt), random)
      ensures
        var closed := old(View()).(sockets := old(sockets) - {socket});
        View() ==
        if old(intentionalClose) then closed
        else if code == 1000 || code == 1001 || old(reconnectAttempt) >= 6 then closed.(ui := SandboxLost)
        else closed.(ui := Reconnecting, attempt := old(reconnectAttempt) + 1, timers := old(timers) + {old(created)},
                     timerRef := Some(old(created)), created := old(created) + 1)
    {
      sockets := sockets - {socket};
      delayMs := 0;
      if intentionalClose { return; }
      if code == 1000 || code == 1001 {
        state := SandboxLost;
        return;
      }
      state := Reconnecting;
      delayMs := Schedule(random);
    }

    method Schedule(random: real) returns (delayMs: int)
      modifies this
      ensures View() == ScheduleReconnect(old(View()))
      ensures reconnectAttempt > old(reconnectAttempt) ==> delayMs == BackoffMs(old(reconnectAttempt), random)
    {
      var attempt := reconnectAttempt;
      delayMs := 0;
      if attempt >= MAX_RECONNECT_ATTEMPTS {
        state := SandboxLost;
        return;
      }
      delayMs := BackoffMs(attempt, random);
      reconnectAttempt := attempt + 1;
      reconnectTimer := Some(created);
      timers := timers + {created};
      created := created + 1;
    }

    method OnTimer(timer: nat)
      requires timer in timers
      modifies this
      ensures View() == Fired(old(View()), timer)
      ensures
        var fired := old(View()).(timers := old(timers) - {timer});
        View() == if old(session) then fired.(checks := old(checks) + 1) else fired.(ui := SandboxLost)
    {
      timers := timers - {timer};
      if session { checks := checks + 1; } else { state := SandboxLost; }
    }

    method OnHealth(health: Health)
      requires checks > 0
      modifies this
      ensures View() == Answered(old(View()), health)
      ensures
        var answered := old(View()).(checks := old(checks) - 1);
        && (health.Dead? ==> View() == answered.(ui := SandboxLost))
        && (health.BadGateway? ==> View() == answered.(ui := Failed))
        && (health.Alive? || health.NetworkBlip? ==>
              View() ==
              answered.(ui := Connecting, wsRef := Some(old(created)), sockets := old(sockets) + {old(created)},
                        created := old(created) + 1, intentional := old(wsRef).None? && old(intentionalClose)))
    {
      checks := checks - 1;
      if health.Dead? {
        state := SandboxLost;
      } else if health.BadGateway? {
        state := Failed;
      } else {
        Connect();
      }
    }

    method Connect()
      modifies this
      ensures View() == ConnectWs(old(View()))
    {
      if wsRef.Some? {
        intentionalClose := true;
        intentionalClose := false;
      }
      state := Connecting;
      wsRef := Some(created);
      sockets := sockets + {created};
      created := created + 1;
    }

    /** startSession and startTrial up to their first await. */
    method Start()
      modifies this
      ensures View() == Requesting(old(View()))
    {
      state := RequestingSandbox;
      requests := requests + 1;
    }

    method Retry()
      modifies this
      ensures View() == Requesting(old(View()).(session := false, attempt := 0))
      ensures View() ==
              old(View()).(session := false, attempt := 0, ui := RequestingSandbox, requests := old(requests) + 1)
    {
      session := false;
      reconnectAttempt := 0;
      Start();
    }

    method OnStarted(ok: bool)
      requires requests > 0
      modifies this
      ensures View() == Started(old(View()), ok)
      ensures
        var answered := old(View()).(requests := old(requests) - 1);
        View() == if ok then answered.(session := true, ui := Provisioning, probes := old(probes) + 1)
                  else answered.(ui := Failed)
    {
      requests := requests - 1;
      if !ok {
        state := Failed;
        return;
      }
      session := true;
      state := Provisioning;
      probes := probes + 1;
    }

    method OnProbed(badGateway: bool)
      requires probes > 0
      modifies this
      ensures View() == Probed(old(View()), badGateway)
      ensures
        var answered := old(View()).(probes := old(probes) - 1);
        View() ==
        if badGateway then answered.(ui := Failed)
        else answered.(ui := Connecting, wsRef := Some(old(created)), sockets := old(sockets) + {old(created)},
                       created := old(created) + 1, intentional := old(wsRef).None? && old(intentionalClose))
    {
      probes := probes - 1;
      if badGateway { state := Failed; } else { Connect(); }
    }

    /** The synchronous part of terminate, up to the request that tells the server. */
    method TerminateBegin()
      modifies this
      ensures View() == if old(session) then Terminating(old(View())) else old(View())
      ensures
        var cleared := if old(reconnectTimer).Some? then old(timers) - {old(reconnectTimer).value} else old(timers);
        View() ==
        if old(session) then old(View()).(intentional := false, wsRef := None, timers := cleared) else old(View())
    {
      if !session { return; }
      intentionalClose := true;
      wsRef := None;
      intentionalClose := false;
      if reconnectTimer.Some? { timers := timers - {reconnectTimer.value}; }
    }
  }
}
