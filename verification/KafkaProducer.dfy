/**
  The self-healing Kafka connector: any number of callers of initProducer, connects that succeed or
  fail later, and a retry timer.  Each step runs from one await to the next.
  */
module KafkaProducer {
  import opened Wrappers
  import opened Runs

  /**
    What `connectPromise` holds: nothing, the promise of a connect in flight, or, once making a
    producer object has thrown before the connect, a rejected promise that nothing clears.
    */
  datatype Connect = Absent | InFlight(candidate: nat) | Broken

  /** The fields of the service; producer objects are numbered as they are made. */
  datatype Fields = Fields(producer: Option<nat>, connect: Connect, isRetryScheduled: bool, failedAttempts: nat)

  const FRESH := Fields(None, Absent, false, 0)

  /** What a caller gets at once: the producer, a promise to wait for, or an exception. */
  datatype Reply = Ready(producer: nat) | Promised(candidate: nat) | Threw

  // ---------------------------------------------------------------- the code between awaits

  function Initialized(f: Fields, candidate: nat, makes: bool): (r: (Fields, Reply)) {
    if f.producer.Some? then (f, Ready(f.producer.value))
    else match f.connect
         case InFlight(k) => (f, Promised(k))
         case Broken => (f, Threw)
         case Absent =>
           if makes then (f.(connect := InFlight(candidate)), Promised(candidate))
           else (f.(connect := Broken), Threw)
  }

  function Succeeded(f: Fields, candidate: nat): Fields { Fields(Some(candidate), Absent, f.isRetryScheduled, 0) }

  function Failed(f: Fields): Fields { Fields(None, Absent, true, f.failedAttempts + 1) }

  /** The timer's callback starts a connect only when there is neither a producer nor a promise. */
  function Retried(f: Fields, candidate: nat, makes: bool): (r: (Fields, Reply)) {
    var f1 := f.(isRetryScheduled := false);
    if f.producer.None? && f.connect.Absent? then Initialized(f1, candidate, makes) else (f1, Threw)
  }

  class MessagingService {
    var producer: Option<nat>
    var connectPromise: Connect
    var isRetryScheduled: bool
    var failedAttempts: nat

    ghost function View(): Fields
      reads this
    {
      Fields(producer, connectPromise, isRetryScheduled, failedAttempts)
    }

    constructor ()
      ensures View() == FRESH
    {
      producer, connectPromise, isRetryScheduled, failedAttempts := None, Absent, false, 0;
    }

    /** `candidate` is the producer object made, if the library does not throw at making it. */
    method InitProducer(candidate: nat, makes: bool) returns (r: Reply)
      modifies this
      ensures (View(), r) == Initialized(old(View()), candidate, makes)
      ensures old(producer).Some? ==> r == Ready(old(producer).value) && View() == old(View())
      ensures old(producer).None? && old(connectPromise).InFlight? ==>
                r == Promised(old(connectPromise).candidate) && View() == old(View())
      ensures old(producer).None? && old(connectPromise).Broken? ==> r == Threw && View() == old(View())
      ensures old(producer).None? && old(connectPromise).Absent? ==>
                && r == (if makes then Promised(candidate) else Threw)
                && View() == old(View()).(connect := if makes then InFlight(candidate) else Broken)
    {
      if producer.Some? { return Ready(producer.value); }
      match connectPromise {
        case InFlight(k) => return Promised(k);
        case Broken => return Threw;
        case Absent =>
      }
      if !makes {
        connectPromise := Broken;
        return Threw;
      }
      connectPromise := InFlight(candidate);
      r := Promised(candidate);
    }

    method ConnectSucceeds(candidate: nat)
      modifies this
      ensures View() == Succeeded(old(View()), candidate)
      ensures View() == Fields(Some(candidate), Absent, old(isRetryScheduled), 0)
    {
      producer := Some(candidate);
      failedAttempts := 0;
      connectPromise := Absent;
    }

    /** `timerSet` says whether a timer was set. */
    method ConnectFails() returns (timerSet: bool)
      modifies this
      ensures View() == Failed(old(View())) && timerSet == !old(isRetryScheduled)
      ensures View() == Fields(None, Absent, true, old(failedAttempts) + 1)
    {
      producer := None;
      failedAttempts := failedAttempts + 1;
      timerSet := ScheduleProducerRetry();
      connectPromise := Absent;
    }

    method ScheduleProducerRetry() returns (timerSet: bool)
      modifies this`isRetryScheduled
      ensures isRetryScheduled && timerSet == !old(isRetryScheduled)
    {
      if isRetryScheduled { return false; }
      isRetryScheduled := true;
      timerSet := true;
    }

    method TimerFires(candidate: nat, makes: bool)
      modifies this
      ensures View() == Retried(old(View()), candidate, makes).0
      ensures
        var after := old(View()).(isRetryScheduled := false);
        View() == if old(producer).None? && old(connectPromise).Absent?
                  then after.(connect := if makes then InFlight(candidate) else Broken) else after
    {
      isRetryScheduled := false;
      if producer.None? && connectPromise.Absent? {
        var _ := InitProducer(candidate, makes);
      }
    }
  }

  // ---------------------------------------------------------------- interleavings

  datatype Caller = Waiting(candidate: nat) | Returned(producer: nat) | Refused

  /**
    `pending` are the candidates whose connect has not come back and `timers` how many timers run;
    `made` counts candidates and `settled` keeps how each connect ended.
    */
  datatype State = State(
    f: Fields, pending: set<nat>, timers: nat, made: nat, settled: map<nat, bool>, callers: map<nat, Caller>)

  datatype Action =
    | Call(caller: nat, makes: bool)
    | ConnectSucceeds(candidate: nat)
    | ConnectFails(candidate: nat)
    | TimerFires(makes: bool)
    | Resume(caller: nat)

  function CallerFor(r: Reply): Caller {
    match r
    case Ready(p) => Returned(p)
    case Promised(k) => Waiting(k)
    case Threw => Refused
  }

  /** A promise for the newest candidate means its connect has just been started. */
  function Starting(s: State, f: Fields): State {
    if f.connect == InFlight(s.made) then s.(f := f, pending := s.pending + {s.made}, made := s.made + 1)
    else s.(f := f)
  }

  function Called(s: State, c: nat, makes: bool): State {
    var (f, r) := Initialized(s.f, s.made, makes);
    Starting(s, f).(callers := s.callers[c := CallerFor(r)])
  }

  function ConnectSucceeded(s: State, k: nat): State {
    s.(f := Succeeded(s.f, k), pending := s.pending - {k}, settled := s.settled[k := true])
  }

  function ConnectFailed(s: State, k: nat): State {
    s.(f := Failed(s.f), pending := s.pending - {k}, settled := s.settled[k := false],
       timers := if s.f.isRetryScheduled then s.timers else s.timers + 1)
  }

  function TimerFired(s: State, makes: bool): State
    requires s.timers > 0
  {
    Starting(s.(timers := s.timers - 1), Retried(s.f, s.made, makes).0)
  }

  function Resumed(s: State, c: nat, k: nat): State
    requires k in s.settled
  {
    s.(callers := s.callers[c := if s.settled[k] then Returned(k) else Refused])
  }

  ghost predicate Init(s: State) { s == State(FRESH, {}, 0, 0, map[], map[]) }

  ghost predicate Next(s: State, a: Action, s': State) {
    match a
    case Call(c, makes) => c !in s.callers && s' == Called(s, c, makes)
    case ConnectSucceeds(k) => k in s.pending && s' == ConnectSucceeded(s, k)
    case ConnectFails(k) => k in s.pending && s' == ConnectFailed(s, k)
    case TimerFires(makes) => s.timers > 0 && s' == TimerFired(s, makes)
    case Resume(c) =>
      && c in s.callers && s.callers[c].Waiting? && s.callers[c].candidate in s.settled
      && s' == Resumed(s, c, s.callers[c].candidate)
  }

  // ---------------------------------------------------------------- safety

  ghost predicate CallerTrue(s: State, c: nat) {
    && c in s.callers
    && match s.callers[c]
       case Waiting(k) => k in s.pending || k in s.settled
       case Returned(k) => s.f.producer == Some(k)
       case Refused => true
  }

  /** The flags tell the truth about what is outstanding, and something is while a failure is not made good. */
  ghost predicate Inv(s: State) {
    && s.pending == (if s.f.connect.InFlight? then {s.f.connect.candidate} else {})
    && s.timers == (if s.f.isRetryScheduled then 1 else 0)
    && (s.f.connect.InFlight? ==> s.f.connect.candidate < s.made)
    && (s.f.producer.Some? ==> s.f.connect.Absent? && s.f.failedAttempts == 0)
    && (s.f.producer.None? && s.f.failedAttempts > 0 ==> s.f.isRetryScheduled || !s.f.connect.Absent?)
    && (forall k :: k in s.settled ==> k < s.made && k !in s.pending && (s.settled[k] ==> s.f.producer == Some(k)))
    && (forall c :: c in s.callers ==> CallerTrue(s, c))
  }

  lemma StepKeepsInv(s: State, a: Action, s': State)
    requires Inv(s) && Next(s, a, s')
    ensures Inv(s')
  {
    forall c | c in s'.callers ensures CallerTrue(s', c) {
      if c in s.callers { assert CallerTrue(s, c); }
    }
  }

  lemma RunKeepsInv(states: seq<State>, actions: seq<Action>)
    requires IsRun(Init, Next, states, actions)
    ensures forall i :: 0 <= i < |states| ==> Inv(states[i])
  {
    forall s, a, s' | Inv(s) && Next(s, a, s') ensures Inv(s') { StepKeepsInv(s, a, s'); }
    Invariance(Init, Next, Inv, states, actions);
  }

  /** In every interleaving at most one connect is in flight and one timer runs. */
  lemma OneConnectOneTimer(states: seq<State>, actions: seq<Action>, n: nat)
    requires IsRun(Init, Next, states, actions) && n < |states|
    ensures |states[n].pending| <= 1 && states[n].timers <= 1
  {
    RunKeepsInv(states, actions);
    assert Inv(states[n]);
  }

  ghost predicate Keeps(s: State, s': State) { s.f.producer.Some? ==> s'.f.producer == s.f.producer }

  /** A producer that is ready is never reset or replaced, whatever connects and timers still come in. */
  lemma ReadyProducerStays(states: seq<State>, actions: seq<Action>, i: nat, j: nat)
    requires IsRun(Init, Next, states, actions) && i <= j < |states|
    ensures Keeps(states[i], states[j])
  {
    RunKeepsInv(states, actions);
    forall k | 0 <= k < |actions| ensures Keeps(states[k], states[k + 1]) {
      assert Inv(states[k]) && Next(states[k], actions[k], states[k + 1]);
    }
    Monotonicity(Init, Next, Keeps, states, actions, i, j);
  }

  /** Every caller that is given a producer, whenever it called, is given the same one. */
  lemma CallersAgree(states: seq<State>, actions: seq<Action>, i: nat, j: nat, c: nat, d: nat)
    requires IsRun(Init, Next, states, actions) && i <= j < |states|
    requires c in states[i].callers && d in states[j].callers
    requires states[i].callers[c].Returned? && states[j].callers[d].Returned?
    ensures states[i].callers[c].producer == states[j].callers[d].producer
  {
    RunKeepsInv(states, actions);
    ReadyProducerStays(states, actions, i, j);
    assert Inv(states[i]) && Inv(states[j]);
    assert CallerTrue(states[i], c) && CallerTrue(states[j], d);
  }

  /** The caller waits for connect `k`, or has what that came to. */
  predicate ServedBy(s: State, c: nat, k: nat) {
    && c in s.callers && (k in s.pending || k in s.settled)
    && (s.callers[c] == Waiting(k)
        || (k in s.settled && s.callers[c] == if s.settled[k] then Returned(k) else Refused))
  }

  lemma CallIsServed(s: State, c: nat, makes: bool, s': State)
    requires Inv(s) && Next(s, Call(c, makes), s')
    ensures s.f.producer.Some? ==> s'.callers == s.callers[c := Returned(s.f.producer.value)]
    ensures s.f.producer.None? && s.f.connect.InFlight? ==> ServedBy(s', c, s.f.connect.candidate)
    ensures s.f.producer.None? && s.f.connect.Absent? && makes ==> s'.pending == {s.made} && ServedBy(s', c, s.made)
    ensures !(s.f.connect.Absent? && makes) ==> s'.pending == s.pending
  {}

  /** Whatever caller `c` waits for or has been given stays so. */
  ghost predicate Serves(s: State, s': State, c: nat, k: nat) {
    c in s.callers ==>
      && c in s'.callers && (ServedBy(s, c, k) ==> ServedBy(s', c, k))
      && (s.callers[c].Returned? ==> s'.callers[c] == s.callers[c])
  }

  lemma StepServes(s: State, a: Action, s': State, c: nat, k: nat)
    requires Inv(s) && Next(s, a, s')
    ensures Serves(s, s', c, k)
  {}

  lemma ServedInRun(states: seq<State>, actions: seq<Action>, i: nat, j: nat, c: nat, k: nat)
    requires IsRun(Init, Next, states, actions) && i <= j < |states|
    ensures Serves(states[i], states[j], c, k)
  {
    RunKeepsInv(states, actions);
    var serves := (s, s') => Serves(s, s', c, k);
    forall n | 0 <= n < |actions| ensures serves(states[n], states[n + 1]) {
      StepServes(states[n], actions[n], states[n + 1], c, k);
    }
    Monotonicity(Init, Next, serves, states, actions, i, j);
  }

  /**
    Over every run: who calls when there is a producer has that one; who calls while a connect is in flight
    starts no other and waits for that one, and so does whoever starts it; and at any later time it is still
    waiting or has what that connect came to, its producer or its failure.
    */
  lemma CallersShareTheConnect(states: seq<State>, actions: seq<Action>, i: nat, j: nat)
    requires IsRun(Init, Next, states, actions) && i < j < |states| && actions[i].Call?
    ensures
      var f, c := states[i].f, actions[i].caller;
      && (f.producer.Some? ==> c in states[j].callers && states[j].callers[c] == Returned(f.producer.value))
      && (f.producer.None? && f.connect.InFlight? ==>
            states[i + 1].pending == states[i].pending && ServedBy(states[j], c, f.connect.candidate))
      && (f.producer.None? && f.connect.Absent? && actions[i].makes ==> ServedBy(states[j], c, states[i].made))
  {
    RunKeepsInv(states, actions);
    assert Next(states[i], actions[i], states[i + 1]);
    var f := states[i].f;
    CallIsServed(states[i], actions[i].caller, actions[i].makes, states[i + 1]);
    ServedInRun(states, actions, i + 1, j, actions[i].caller,
                if f.connect.InFlight? then f.connect.candidate else states[i].made);
  }

  // ---------------------------------------------------------------- healing

  /** A step that no caller takes part in. */
  ghost predicate Alone(s: State, a: Action, s': State) { Next(s, a, s') && !a.Call? }

  function Is(s: State): State -> bool { (t: State) => t == s }

  /** Left alone, the service may still get a producer. */
  ghost predicate CanHeal(s: State) { exists t :: Reached(Is(s), Alone, t) && t.f.producer.Some? }

  ghost predicate HasNone(s: State) { s.f.connect.Broken? && s.f.producer.None? && s.pending == {} }

  lemma BrokenStays(s: State, a: Action, s': State)
    requires HasNone(s) && Next(s, a, s')
    ensures HasNone(s')
  {}

  /** Once making the producer object has thrown, no step, callers' included, ever brings a producer. */
  lemma BrokenForGood(states: seq<State>, actions: seq<Action>, i: nat, j: nat)
    requires IsRun(Init, Next, states, actions) && i <= j < |states| && states[i].f.connect.Broken?
    ensures states[j].f.producer.None? && states[j].f.connect.Broken?
  {
    RunKeepsInv(states, actions);
    assert Inv(states[i]);
    forall s, a, s' | HasNone(s) && Next(s, a, s') ensures HasNone(s') { BrokenStays(s, a, s'); }
    assert forall k :: i <= k < |actions| ==> Next(states[k], actions[k], states[k + 1]);
    Invariance(Is(states[i]), Next, HasNone, states[i..], actions[i..]);
    assert states[i..][j - i] == states[j];
  }

  lemma BrokenCannotHeal(s: State)
    requires HasNone(s)
    ensures !CanHeal(s)
  {
    forall t | Reached(Is(s), Alone, t) ensures t.f.producer.None? {
      var states, actions :| IsRun(Is(s), Alone, states, actions) && states[|actions|] == t;
      forall u, a, u' | HasNone(u) && Alone(u, a, u') ensures HasNone(u') { BrokenStays(u, a, u'); }
      Invariance(Is(s), Alone, HasNone, states, actions);
    }
  }

  lemma PendingHeals(s: State, t: State, k: nat)
    requires Reached(Is(s), Alone, t) && k in t.pending
    ensures CanHeal(s)
  {
    ReachedNext(Is(s), Alone, t, ConnectSucceeds(k), ConnectSucceeded(t, k));
  }

  /**
    Whenever an attempt has failed and there is no producer, a timer or a connect is outstanding and
    can lead to one without anybody calling, unless making the producer object has thrown meanwhile.
    */
  lemma HealsExactly(states: seq<State>, actions: seq<Action>, n: nat)
    requires IsRun(Init, Next, states, actions) && n < |states|
    requires states[n].f.producer.None? && states[n].f.failedAttempts > 0
    ensures CanHeal(states[n]) <==> !states[n].f.connect.Broken?
    ensures !states[n].f.connect.Broken? ==> states[n].timers == 1 || |states[n].pending| == 1
  {
    RunKeepsInv(states, actions);
    var s := states[n];
    assert Inv(s);
    if s.f.connect.Broken? {
      BrokenCannotHeal(s);
    } else {
      ReachedInitially(Is(s), Alone, s);
      if s.f.connect.InFlight? {
        PendingHeals(s, s, s.f.connect.candidate);
      } else {
        var t := TimerFired(s, true);
        ReachedNext(Is(s), Alone, s, TimerFires(true), t);
        PendingHeals(s, t, s.made);
      }
    }
  }

  /** The exception is real: a failed attempt, then a caller for whom no producer object can be made. */
  lemma BreaksForGood()
    ensures exists s :: Reached(Init, Next, s) && s.f.failedAttempts > 0 && s.f.connect.Broken?
  {
    var s0 := State(FRESH, {}, 0, 0, map[], map[]);
    ReachedInitially(Init, Next, s0);
    var s1 := Called(s0, 0, true);
    ReachedNext(Init, Next, s0, Call(0, true), s1);
    var s2 := ConnectFailed(s1, 0);
    ReachedNext(Init, Next, s1, ConnectFails(0), s2);
    var s3 := Called(s2, 1, false);
    ReachedNext(Init, Next, s2, Call(1, false), s3);
  }
}
