/**
  The auth service's outbox: one processor at a time takes the oldest pending rows, emits them in
  order, and stops its cycle at the first failure.  Event types it does not know are left pending.
  */
module AuthOutbox {
  import opened Wrappers
  import opened Runs
  import opened OutboxTable
  import opened CircuitBreaker
  import opened Numbers

  datatype EventType = UserRegistered | EmailVerificationRequested | PasswordResetRequested | UserDeleted | Unknown

  type Rows = seq<Row<EventType>>

  predicate Known(row: Row<EventType>) { !row.payload.Unknown? }

  /**
    What happened to one event.  In a failure the emit or the mark threw; the mark may have taken
    effect all the same, and the write-back of the retry count has an outcome of its own.
    */
  datatype Outcome = Emitted | Failed(marked: bool, count: WriteOutcome)

  /** The table and breaker after one event, and whether the loop goes on. */
  datatype Handled = Handled(rows: Rows, breaker: Breaker, goesOn: bool)

  function Handle(rows: Rows, b: Breaker, f: Fetched, o: Outcome, now: int): (h: Handled)
    requires f.id < |rows|
    ensures |h.rows| == |rows|
  {
    if !Known(rows[f.id]) then Handled(rows, b, true)
    else match o
      case Emitted => Handled(Processed(rows, f.id), Delivered(b), true)
      case Failed(marked, count) =>
        var rows1 := if marked then Processed(rows, f.id) else rows;
        Handled(if count.Rejected? then rows1 else Retried(rows1, f),
                if count.Written? then Checked(Counted(b), now) else Counted(b), false)
  }

  // ---------------------------------------------------------------- steps

  datatype State = State(rows: Rows, breaker: Breaker, cycle: Option<seq<Fetched>>)

  datatype Action =
    | Insert(eventType: EventType)
    | StartCycle(now: int)
    | HandleNext(outcome: Outcome, now: int)
    | EndCycle
    | Restart

  ghost predicate Init(s: State) { s == State([], FRESH, None) }

  /** `cycle` is the processing flag and what is left of the fetched batch; rows are only ever appended. */
  ghost predicate Next(s: State, a: Action, s': State) {
    match a
    case Insert(t) => s' == s.(rows := s.rows + [NewRow(t)])
    case StartCycle(now) => s.cycle.None? && !IsOpen(s.breaker, now) && s' == s.(cycle := Some(Fetch(s.rows)))
    case HandleNext(o, now) =>
      && s.cycle.Some? && s.cycle.value != [] && s.cycle.value[0].id < |s.rows|
      && var h := Handle(s.rows, s.breaker, s.cycle.value[0], o, now);
         s' == State(h.rows, h.breaker, Some(if h.goesOn then s.cycle.value[1..] else []))
    case EndCycle => s.cycle == Some([]) && s' == s.(cycle := None)
    case Restart => s' == s.(cycle := None, breaker := FRESH)
  }

  // ---------------------------------------------------------------- first in, first out

  /** The processor has written to the row. */
  predicate Touched(row: Row<EventType>) { row.processed || row.failed || row.retryCount > 0 }

  /** A row has been touched only if every older row of a known type is processed or failed. */
  ghost predicate InOrder(rows: Rows) {
    forall i, k | 0 <= i < k < |rows| && Touched(rows[k]) && Known(rows[i]) :: rows[i].Settled()
  }

  /** Retry counts stay within bounds, and a row is failed exactly when it is used up. */
  ghost predicate Counted5(rows: Rows) {
    forall i :: 0 <= i < |rows| ==>
      rows[i].retryCount <= MAX_RETRIES && (rows[i].failed <==> rows[i].retryCount == MAX_RETRIES)
  }

  /** What is left of a batch is pending, in order, and skips no pending row of a known type. */
  ghost predicate BatchTrue(rows: Rows, batch: seq<Fetched>) {
    && (forall p :: 0 <= p < |batch| ==>
          batch[p].id < |rows| && !rows[batch[p].id].Settled() && batch[p].retryCount == rows[batch[p].id].retryCount)
    && (forall p, q :: 0 <= p < q < |batch| ==> batch[p].id < batch[q].id)
    && (forall p, k | 0 <= p < |batch| && 0 <= k < batch[p].id && Known(rows[k]) ::
          rows[k].Settled() || Fetched(k, rows[k].retryCount) in batch[..p])
  }

  ghost predicate Inv(s: State) {
    InOrder(s.rows) && Counted5(s.rows) && (s.cycle.Some? ==> BatchTrue(s.rows, s.cycle.value))
  }

  lemma HandleKeepsOrder(rows: Rows, b: Breaker, batch: seq<Fetched>, o: Outcome, now: int)
    requires InOrder(rows) && Counted5(rows) && batch != [] && BatchTrue(rows, batch)
    ensures
      var h := Handle(rows, b, batch[0], o, now);
      InOrder(h.rows) && Counted5(h.rows)
  {
    assert batch[..0] == [];
  }

  lemma HandleKeepsBatch(rows: Rows, b: Breaker, batch: seq<Fetched>, o: Outcome, now: int)
    requires batch != [] && BatchTrue(rows, batch)
    ensures
      var h := Handle(rows, b, batch[0], o, now);
      h.goesOn ==> BatchTrue(h.rows, batch[1..])
  {
    var h := Handle(rows, b, batch[0], o, now);
    if h.goesOn {
      var rest := batch[1..];
      forall p, k | 0 <= p < |rest| && 0 <= k < rest[p].id && Known(h.rows[k])
        ensures h.rows[k].Settled() || Fetched(k, h.rows[k].retryCount) in rest[..p]
      {
        assert rest[p] == batch[p + 1] && batch[..p + 1] == [batch[0]] + rest[..p];
      }
    }
  }

  lemma HandleKeeps(rows: Rows, b: Breaker, batch: seq<Fetched>, o: Outcome, now: int)
    requires InOrder(rows) && Counted5(rows) && batch != [] && BatchTrue(rows, batch)
    ensures
      var h := Handle(rows, b, batch[0], o, now);
      InOrder(h.rows) && Counted5(h.rows) && (h.goesOn ==> BatchTrue(h.rows, batch[1..]))
  {
    HandleKeepsOrder(rows, b, batch, o, now);
    HandleKeepsBatch(rows, b, batch, o, now);
  }

  lemma StepKeepsInv(s: State, a: Action, s': State)
    requires Inv(s) && Next(s, a, s')
    ensures Inv(s')
  {
    match a
    case StartCycle(now) => FetchIsInOrder(s.rows, 0, BATCH_SIZE);
    case HandleNext(o, now) => HandleKeeps(s.rows, s.breaker, s.cycle.value, o, now);
    case _ =>
  }

  lemma RunKeepsInv(states: seq<State>, actions: seq<Action>)
    requires IsRun(Init, Next, states, actions)
    ensures forall i :: 0 <= i < |states| ==> Inv(states[i])
  {
    forall s, a, s' | Inv(s) && Next(s, a, s') ensures Inv(s') { StepKeepsInv(s, a, s'); }
    Invariance(Init, Next, Inv, states, actions);
  }

  /**
    Over any run, with any failures, arrivals and restarts: a row is processed, or its retry count
    moved, only after every older row of a known type is processed or failed.
    */
  lemma FirstInFirstOut(states: seq<State>, actions: seq<Action>, n: nat)
    requires IsRun(Init, Next, states, actions) && n < |states|
    ensures InOrder(states[n].rows) && Counted5(states[n].rows)
  {
    RunKeepsInv(states, actions);
  }

  /** What a step does to the breaker. */
  function EventsOf(s: State, a: Action): seq<Event> {
    if !a.HandleNext? || s.cycle.None? || s.cycle.value == [] || s.cycle.value[0].id >= |s.rows| then []
    else if !Known(s.rows[s.cycle.value[0].id]) then []
    else if a.outcome.Emitted? then [Deliver]
    else if a.outcome.count.Written? then [Count] + [Check(a.now)]
    else [Count]
  }

  /** All that happened to the breaker in the first `n` steps of a run, since the last restart. */
  function History(states: seq<State>, actions: seq<Action>, n: nat): seq<Event>
    requires n <= |actions| && |actions| < |states|
  {
    if n == 0 || actions[n - 1].Restart? then []
    else History(states, actions, n - 1) + EventsOf(states[n - 1], actions[n - 1])
  }

  lemma StepIsReplayed(s: State, a: Action, s': State, events: seq<Event>)
    requires Next(s, a, s') && s.breaker == Replay(events) && !a.Restart?
    ensures s'.breaker == Replay(events + EventsOf(s, a))
  {
    ReplayAppend(events, Deliver);
    ReplayAppend(events, Count);
    if a.HandleNext? { ReplayAppend(events + [Count], Check(a.now)); }
    assert events + [] == events;
    if a.HandleNext? { assert events + ([Count] + [Check(a.now)]) == events + [Count] + [Check(a.now)]; }
  }

  ghost predicate Replayed(states: seq<State>, actions: seq<Action>, n: nat) {
    && n <= |actions| && |actions| < |states|
    && states[n].breaker == Replay(History(states, actions, n))
  }

  lemma StartIsReplayed(states: seq<State>, actions: seq<Action>)
    requires |actions| < |states| && Init(states[0])
    ensures Replayed(states, actions, 0)
  {}

  lemma RunStepIsReplayed(states: seq<State>, actions: seq<Action>, n: nat)
    requires IsRun(Init, Next, states, actions) && n < |actions|
    requires actions[n].Restart? || Replayed(states, actions, n)
    ensures Replayed(states, actions, n + 1)
  {
    assert Next(states[n], actions[n], states[n + 1]);
    if actions[n].Restart? {
      RestartClosesTheBreaker(states[n], states[n + 1]);
    } else {
      StepIsReplayed(states[n], actions[n], states[n + 1], History(states, actions, n));
    }
  }

  lemma {:induction false} BreakerIsReplayed(states: seq<State>, actions: seq<Action>, n: nat)
    requires IsRun(Init, Next, states, actions) && n < |states|
    ensures Replayed(states, actions, n)
  {
    StartIsReplayed(states, actions);
    var k := 0;
    while k < n
      invariant k <= n && Replayed(states, actions, k)
    {
      RunStepIsReplayed(states, actions, k);
      k := k + 1;
    }
  }

  lemma RestartClosesTheBreaker(s: State, s': State)
    requires Next(s, Restart, s')
    ensures s'.breaker == FRESH
  {}

  /**
    In every run the breaker is what the run's own history makes of it: the failures counted since the
    last delivery, the end of its last opening, and the term of the next, where the k-th opening since the
    last delivery, k from 0, lasts min(5000 * 2^k, 60000) ms.
    */
  lemma BreakerFollowsHistory(states: seq<State>, actions: seq<Action>, n: nat)
    requires IsRun(Init, Next, states, actions) && n < |states|
    ensures
      var h := History(states, actions, n);
      && states[n].breaker == Breaker(Failures(h), OpeningMs(|Openings(h)|), LastEnd(h))
      && forall k :: 0 <= k < |Openings(h)| ==> Openings(h)[k] == OpeningMs(k)
  {
    BreakerIsReplayed(states, actions, n);
    KthOpening(History(states, actions, n));
  }

  /**
    The step of a run that opens the breaker for the (k+1)-st time since the last delivery, k from 0,
    opens it for min(5000 * 2^k, 60000) ms.
    */
  lemma OpensFor(states: seq<State>, actions: seq<Action>, n: nat)
    requires IsRun(Init, Next, states, actions) && n < |actions|
    requires |EventsOf(states[n], actions[n])| == 2 && Failures(History(states, actions, n)) + 1 >= 3
    ensures states[n + 1].breaker.openUntil == actions[n].now + OpeningMs(|Openings(History(states, actions, n))|)
  {
    var h := History(states, actions, n);
    BreakerIsReplayed(states, actions, n);
    assert Next(states[n], actions[n], states[n + 1]);
    StepIsReplayed(states[n], actions[n], states[n + 1], h);
    assert h + ([Count] + [Check(actions[n].now)]) == h + [Count] + [Check(actions[n].now)];
    NextOpening(h, actions[n].now);
  }

  /** Rows never disappear, and one that is processed or failed stays so. */
  ghost predicate Grows(s: State, s': State) {
    && |s.rows| <= |s'.rows|
    && forall i :: 0 <= i < |s.rows| ==>
         && s'.rows[i].payload == s.rows[i].payload
         && (s.rows[i].processed ==> s'.rows[i].processed)
         && (s.rows[i].failed ==> s'.rows[i].failed)
  }

  lemma StepGrows(s: State, a: Action, s': State)
    requires Inv(s) && Next(s, a, s')
    ensures Grows(s, s')
  {}

  lemma SettledForGood(states: seq<State>, actions: seq<Action>, i: nat, j: nat)
    requires IsRun(Init, Next, states, actions) && i <= j < |states|
    ensures Grows(states[i], states[j])
  {
    RunKeepsInv(states, actions);
    forall k | 0 <= k < |actions| ensures Grows(states[k], states[k + 1]) {
      StepGrows(states[k], actions[k], states[k + 1]);
    }
    Monotonicity(Init, Next, Grows, states, actions, i, j);
  }

  // ---------------------------------------------------------------- what a run has done to each row

  /** The step is about row `k`, which is of a known type. */
  predicate Handles(s: State, a: Action, k: nat) {
    && a.HandleNext? && s.cycle.Some? && s.cycle.value != [] && s.cycle.value[0].id == k
    && k < |s.rows| && Known(s.rows[k])
  }

  /** It delivers the event and marks the row, or its mark takes effect although the call failed. */
  predicate MarksRow(s: State, a: Action, k: nat) { Handles(s, a, k) && (a.outcome.Emitted? || a.outcome.marked) }

  /** Something failed, and the write-back of the retry count takes effect. */
  predicate CountsRow(s: State, a: Action, k: nat) {
    Handles(s, a, k) && a.outcome.Failed? && !a.outcome.count.Rejected?
  }

  lemma StepOnRow(s: State, a: Action, s': State, k: nat)
    requires Inv(s) && Next(s, a, s') && k < |s.rows|
    ensures k < |s'.rows|
    ensures s'.rows[k].processed <==> s.rows[k].processed || MarksRow(s, a, k)
    ensures s'.rows[k].retryCount == s.rows[k].retryCount + if CountsRow(s, a, k) then 1 else 0
  {}

  lemma NewRowIsPending(s: State, a: Action, s': State, k: nat)
    requires Next(s, a, s') && |s.rows| <= k < |s'.rows|
    ensures !s'.rows[k].processed && s'.rows[k].retryCount == 0
  {}

  ghost predicate MarkedBy(states: seq<State>, actions: seq<Action>, n: nat, k: nat) {
    && n <= |actions| <= |states|
    && exists j :: 0 <= j < n && MarksRow(states[j], actions[j], k)
  }

  /** How many write-backs of row `k` took effect in the first `n` steps. */
  function WriteBacks(states: seq<State>, actions: seq<Action>, n: nat, k: nat): nat
    requires n <= |actions| <= |states|
  {
    if n == 0 then 0
    else WriteBacks(states, actions, n - 1, k) + if CountsRow(states[n - 1], actions[n - 1], k) then 1 else 0
  }

  lemma {:induction false} NothingBeforeIt(states: seq<State>, actions: seq<Action>, n: nat, k: nat)
    requires IsRun(Init, Next, states, actions) && n < |states| && |states[n].rows| <= k
    ensures !MarkedBy(states, actions, n, k) && WriteBacks(states, actions, n, k) == 0
  {
    if n > 0 {
      SettledForGood(states, actions, n - 1, n);
      NothingBeforeIt(states, actions, n - 1, k);
    }
  }

  /**
    In every run a row is processed exactly if some step of the run delivered or marked it, its retry
    count is the number of its failures that were written back, and it is failed exactly at five.
    */
  lemma {:induction false} RowHistory(states: seq<State>, actions: seq<Action>, n: nat, k: nat)
    requires IsRun(Init, Next, states, actions) && n < |states| && k < |states[n].rows|
    ensures states[n].rows[k].processed <==> MarkedBy(states, actions, n, k)
    ensures states[n].rows[k].retryCount == WriteBacks(states, actions, n, k)
    ensures states[n].rows[k].failed <==> WriteBacks(states, actions, n, k) == 5
  {
    assert n > 0 by { assert Init(states[0]); }
    assert Next(states[n - 1], actions[n - 1], states[n - 1 + 1]);
    RunKeepsInv(states, actions);
    if k < |states[n - 1].rows| {
      RowHistory(states, actions, n - 1, k);
      StepOnRow(states[n - 1], actions[n - 1], states[n], k);
    } else {
      NothingBeforeIt(states, actions, n - 1, k);
      NewRowIsPending(states[n - 1], actions[n - 1], states[n], k);
    }
  }

  // ---------------------------------------------------------------- one cycle

  /** What the broker, the database and the clock answer to one event. */
  datatype Answer = Answer(outcome: Outcome, now: int)

  /** The table and breaker after a whole batch; the loop stops at the first failure. */
  function RunBatch(rows: Rows, b: Breaker, batch: seq<Fetched>, answers: seq<Answer>): (r: (Rows, Breaker))
    requires forall p :: 0 <= p < |batch| ==> batch[p].id < |rows|
    requires |answers| >= |batch|
    ensures |r.0| == |rows|
    decreases |batch|
  {
    if batch == [] then (rows, b)
    else
      var h := Handle(rows, b, batch[0], answers[0].outcome, answers[0].now);
      if h.goesOn then RunBatch(h.rows, h.breaker, batch[1..], answers[1..]) else (h.rows, h.breaker)
  }

  function Cycle(rows: Rows, b: Breaker, answers: seq<Answer>): (r: (Rows, Breaker))
    requires |answers| >= BATCH_SIZE
    ensures |r.0| == |rows|
  {
    FetchIsInOrder(rows, 0, BATCH_SIZE);
    RunBatch(rows, b, Fetch(rows), answers)
  }

  predicate AllEmitted(answers: seq<Answer>) { forall a :: a in answers ==> a.outcome.Emitted? }

  /** Delivering a batch marks its rows of a known type, and touches nothing else of any row. */
  lemma {:induction false} BatchDelivers(rows: Rows, b: Breaker, batch: seq<Fetched>, answers: seq<Answer>, k: nat)
    requires (forall p :: 0 <= p < |batch| ==> batch[p].id < |rows|) && |answers| >= |batch| && AllEmitted(answers)
    requires k < |rows|
    ensures RunBatch(rows, b, batch, answers).0[k] ==
        if Known(rows[k]) && NamedIn(batch, k) then rows[k].(processed := true) else rows[k]
    decreases |batch|
  {
    if batch != [] {
      assert batch == [batch[0]] + batch[1..];
      NamedFirst(batch[0], batch[1..], k);
      var h := Handle(rows, b, batch[0], answers[0].outcome, answers[0].now);
      BatchDelivers(h.rows, h.breaker, batch[1..], answers[1..], k);
    }
  }

  /**
    A cycle whose emits all succeed processes exactly the pending rows of a known type that have fewer
    than ten pending rows before them, and leaves every other row as it was.
    */
  lemma CycleDelivers(rows: Rows, b: Breaker, answers: seq<Answer>, k: nat)
    requires |answers| >= BATCH_SIZE && AllEmitted(answers) && k < |rows|
    ensures Cycle(rows, b, answers).0[k] ==
            if Known(rows[k]) && !rows[k].processed && !rows[k].failed && PendingBetween(rows, 0, k) < 10
            then rows[k].(processed := true) else rows[k]
  {
    FetchIsInOrder(rows, 0, BATCH_SIZE);
    BatchDelivers(rows, b, Fetch(rows), answers, k);
    FetchNamesExactly(rows, k);
  }

  /** The plugin: its flag, its breaker and the table it drains. */
  class Processor {
    const circuit: Circuit
    var processing: bool
    var rows: Rows

    constructor ()
      ensures !processing && rows == [] && fresh(circuit) && circuit.View() == FRESH
    {
      circuit := new Circuit();
      processing := false;
      rows := [];
    }

    /** One timer tick.  `fetched` tells whether the query itself succeeded. */
    method ProcessOutbox(now: int, producerReady: bool, fetched: bool, answers: seq<Answer>)
      requires |answers| >= BATCH_SIZE
      modifies this, circuit
      ensures processing == old(processing)
      ensures
        if old(processing) || IsOpen(old(circuit.View()), now) || !producerReady || !fetched
        then rows == old(rows) && circuit.View() == old(circuit.View())
        else (rows, circuit.View()) == Cycle(old(rows), old(circuit.View()), answers)
    {
      if processing || now < circuit.circuitOpenUntil || !producerReady { return; }
      processing := true;
      if fetched {
        var events := Fetch(rows);
        FetchIsInOrder(rows, 0, BATCH_SIZE);
        var i := 0;
        while i < |events|
          invariant 0 <= i <= |events| <= |answers|
          invariant |rows| == |old(rows)| && processing
          invariant forall p :: 0 <= p < |events| ==> events[p].id < |rows|
          invariant RunBatch(rows, circuit.View(), events[i..], answers[i..])
                 == RunBatch(old(rows), old(circuit.View()), events, answers)
        {
          var goesOn := HandleEvent(events[i], answers[i].outcome, answers[i].now);
          i := i + 1;
          if !goesOn { break; }
        }
      }
      processing := false;
    }

    /** The body of the loop over the fetched events. */
    method HandleEvent(event: Fetched, o: Outcome, now: int) returns (goesOn: bool)
      requires event.id < |rows|
      modifies this`rows, circuit
      ensures Handled(rows, circuit.View(), goesOn) == Handle(old(rows), old(circuit.View()), event, o, now)
      ensures !Known(old(rows[event.id])) ==> goesOn && rows == old(rows) && circuit.View() == old(circuit.View())
      ensures Known(old(rows[event.id])) && o.Emitted? ==>
                && goesOn && rows == old(rows)[event.id := old(rows[event.id]).(processed := true)]
                && circuit.View() == old(circuit.View()).(failures := 0, backoffMs := 5000)
      ensures Known(old(rows[event.id])) && o.Failed? ==>
                var row, retries := old(rows[event.id]), event.retryCount + 1;
                var marked := row.(processed := row.processed || o.marked);
                && !goesOn
                && rows == old(rows)[event.id := if o.count.Rejected? then marked
                                                 else marked.(retryCount := retries, failed := retries >= 5)]
      ensures Known(old(rows[event.id])) && o.Failed? ==>
                var was := old(circuit.View());
                circuit.View() ==
                if o.count.Written? && was.failures + 1 >= 3
                then Breaker(was.failures + 1, Min(2 * was.backoffMs, 60000), now + was.backoffMs)
                else was.(failures := was.failures + 1)
    {
      if rows[event.id].payload.Unknown? { return true; }
      if o.Emitted? {
        rows := Processed(rows, event.id);
        circuit.Deliver();
        return true;
      }
      if o.marked { rows := Processed(rows, event.id); }
      circuit.Count();
      if !o.count.Rejected? { rows := Retried(rows, event); }
      if o.count.Written? { var _ := circuit.Check(now); }
      return false;
    }
  }

  // ---------------------------------------------------------------- draining

  predicate Pending(row: Row<EventType>) { !row.Settled() }

  /** Attempts left over all pending rows of a known type, from place `i` on. */
  function AttemptsLeft(rows: Rows, i: nat): int
    decreases |rows| - i
  {
    if i >= |rows| then 0
    else
      (if Known(rows[i]) && Pending(rows[i]) then MAX_RETRIES - rows[i].retryCount else 0)
      + AttemptsLeft(rows, i + 1)
  }

  function KnownPending(rows: Rows, i: nat): nat
    decreases |rows| - i
  {
    if i >= |rows| then 0 else (if Known(rows[i]) && Pending(rows[i]) then 1 else 0) + KnownPending(rows, i + 1)
  }

  function UnknownPending(rows: Rows, i: nat): nat
    decreases |rows| - i
  {
    if i >= |rows| then 0 else (if !Known(rows[i]) && Pending(rows[i]) then 1 else 0) + UnknownPending(rows, i + 1)
  }

  /** How many pending rows of unknown type stand before the first pending row of a known one. */
  function UnknownsAhead(rows: Rows, i: nat): nat
    decreases |rows| - i
  {
    if i >= |rows| || (Pending(rows[i]) && Known(rows[i])) then 0
    else (if Pending(rows[i]) then 1 else 0) + UnknownsAhead(rows, i + 1)
  }

  /** The write-back of a failure, or the mark itself, took effect. */
  predicate Effective(a: Answer) { a.outcome.Emitted? || a.outcome.marked || !a.outcome.count.Rejected? }

  predicate AllEffective(answers: seq<Answer>) { forall a :: a in answers ==> Effective(a) }

  lemma {:induction false} UpdateMeasures(rows: Rows, i: nat, k: nat, row: Row<EventType>)
    requires k < |rows| && Known(rows[k]) && row.payload == rows[k].payload && Pending(rows[k])
    requires if Pending(row) then row.retryCount > rows[k].retryCount else rows[k].retryCount < MAX_RETRIES
    ensures UnknownPending(rows[k := row], i) == UnknownPending(rows, i)
    ensures if i <= k then AttemptsLeft(rows[k := row], i) < AttemptsLeft(rows, i)
            else AttemptsLeft(rows[k := row], i) == AttemptsLeft(rows, i)
    decreases |rows| - i
  {
    if i < |rows| { UpdateMeasures(rows, i + 1, k, row); }
  }

  /** Some row of a known type is in the batch. */
  ghost predicate HasKnown(rows: Rows, batch: seq<Fetched>) {
    exists p :: 0 <= p < |batch| && batch[p].id < |rows| && Known(rows[batch[p].id])
  }

  lemma HandleLowers(rows: Rows, b: Breaker, batch: seq<Fetched>, a: Answer)
    requires InOrder(rows) && Counted5(rows) && batch != [] && BatchTrue(rows, batch) && Effective(a)
    ensures
      var h := Handle(rows, b, batch[0], a.outcome, a.now);
      && UnknownPending(h.rows, 0) == UnknownPending(rows, 0)
      && if Known(rows[batch[0].id]) then AttemptsLeft(h.rows, 0) < AttemptsLeft(rows, 0)
         else h == Handled(rows, b, true)
  {
    var h := Handle(rows, b, batch[0], a.outcome, a.now);
    var k := batch[0].id;
    if Known(rows[k]) {
      assert h.rows == rows[k := h.rows[k]];
      UpdateMeasures(rows, 0, k, h.rows[k]);
    }
  }

  lemma {:induction false} BatchLowers(rows: Rows, b: Breaker, batch: seq<Fetched>, answers: seq<Answer>)
    requires InOrder(rows) && Counted5(rows) && BatchTrue(rows, batch) && |answers| >= |batch| && AllEffective(answers)
    ensures
      var r := RunBatch(rows, b, batch, answers);
      && InOrder(r.0) && Counted5(r.0) && UnknownPending(r.0, 0) == UnknownPending(rows, 0)
      && if HasKnown(rows, batch) then AttemptsLeft(r.0, 0) < AttemptsLeft(rows, 0) else r == (rows, b)
    decreases |batch|
  {
    if batch != [] {
      HandleKeeps(rows, b, batch, answers[0].outcome, answers[0].now);
      HandleLowers(rows, b, batch, answers[0]);
      var h := Handle(rows, b, batch[0], answers[0].outcome, answers[0].now);
      if h.goesOn {
        BatchLowers(h.rows, h.breaker, batch[1..], answers[1..]);
        if !Known(rows[batch[0].id]) && HasKnown(rows, batch) {
          var p :| 0 <= p < |batch| && Known(rows[batch[p].id]);
          assert batch[1..][p - 1] == batch[p];
        }
      }
    }
  }

  /** A batch reaches a row of a known type exactly when fewer than `limit` unknown ones stand before it. */
  lemma {:induction false} FetchReachesKnown(rows: Rows, i: nat, limit: nat)
    ensures HasKnown(rows, PendingFrom(rows, i, limit)) <==> KnownPending(rows, i) > 0 && UnknownsAhead(rows, i) < limit
    decreases |rows| - i
  {
    var batch := PendingFrom(rows, i, limit);
    if i < |rows| && limit > 0 {
      if rows[i].Settled() {
        FetchReachesKnown(rows, i + 1, limit);
      } else {
        FetchReachesKnown(rows, i + 1, limit - 1);
        HasKnownFirst(rows, Fetched(i, rows[i].retryCount), PendingFrom(rows, i + 1, limit - 1));
      }
    }
  }

  lemma HasKnownFirst(rows: Rows, f: Fetched, rest: seq<Fetched>)
    ensures HasKnown(rows, [f] + rest) <==> (f.id < |rows| && Known(rows[f.id])) || HasKnown(rows, rest)
  {
    var batch := [f] + rest;
    if f.id < |rows| && Known(rows[f.id]) {
      assert batch[0] == f;
    } else {
      assert forall p :: 0 <= p < |rest| ==> batch[p + 1] == rest[p];
      assert forall p :: 1 <= p < |batch| ==> batch[p] == rest[p - 1];
    }
  }

  /**
    A cycle whose write-backs take effect uses up an attempt exactly when a row of a known type is
    pending with fewer than ten unknown ones pending before it; otherwise it changes nothing, so ten
    unknown rows at the head block the outbox for good.
    */
  lemma CycleProgress(rows: Rows, b: Breaker, answers: seq<Answer>)
    requires InOrder(rows) && Counted5(rows) && |answers| >= BATCH_SIZE && AllEffective(answers)
    ensures
      var r := Cycle(rows, b, answers);
      var canProgress := KnownPending(rows, 0) > 0 && UnknownsAhead(rows, 0) < BATCH_SIZE;
      && InOrder(r.0) && Counted5(r.0) && UnknownPending(r.0, 0) == UnknownPending(rows, 0)
      && (AttemptsLeft(r.0, 0) < AttemptsLeft(rows, 0) <==> canProgress)
      && (!canProgress ==> r == (rows, b))
  {
    FetchIsInOrder(rows, 0, BATCH_SIZE);
    FetchReachesKnown(rows, 0, BATCH_SIZE);
    BatchLowers(rows, b, Fetch(rows), answers);
  }

  /** The table and breaker after one cycle per element of `answers`. */
  function Cycles(rows: Rows, b: Breaker, answers: seq<seq<Answer>>): (Rows, Breaker)
    requires forall a :: a in answers ==> |a| >= BATCH_SIZE
    decreases |answers|
  {
    if answers == [] then (rows, b)
    else
      var r := Cycle(rows, b, answers[0]);
      Cycles(r.0, r.1, answers[1..])
  }

  lemma {:induction false} UnknownsAheadBounded(rows: Rows, i: nat)
    ensures UnknownsAhead(rows, i) <= UnknownPending(rows, i)
    decreases |rows| - i
  {
    if i < |rows| { UnknownsAheadBounded(rows, i + 1); }
  }

  lemma {:induction false} AttemptsBounds(rows: Rows, i: nat)
    requires Counted5(rows)
    ensures KnownPending(rows, i) <= AttemptsLeft(rows, i) <= MAX_RETRIES * KnownPending(rows, i)
    decreases |rows| - i
  {
    if i < |rows| { AttemptsBounds(rows, i + 1); }
  }

  /** As many cycles as attempts are left settle every row of a known type. */
  lemma {:induction false} DrainsWithinAttempts(rows: Rows, b: Breaker, answers: seq<seq<Answer>>)
    requires InOrder(rows) && Counted5(rows) && UnknownPending(rows, 0) < BATCH_SIZE
    requires forall a :: a in answers ==> |a| >= BATCH_SIZE && AllEffective(a)
    requires |answers| >= AttemptsLeft(rows, 0)
    ensures KnownPending(Cycles(rows, b, answers).0, 0) == 0
    decreases |answers|
  {
    AttemptsBounds(rows, 0);
    if answers != [] {
      CycleProgress(rows, b, answers[0]);
      UnknownsAheadBounded(rows, 0);
      var r := Cycle(rows, b, answers[0]);
      AttemptsBounds(r.0, 0);
      DrainsWithinAttempts(r.0, r.1, answers[1..]);
    }
  }

  /** With fewer than ten unknown rows pending, n known rows are all processed or failed after 5n cycles. */
  lemma Drains(rows: Rows, b: Breaker, answers: seq<seq<Answer>>)
    requires InOrder(rows) && Counted5(rows) && UnknownPending(rows, 0) < BATCH_SIZE
    requires forall a :: a in answers ==> |a| >= BATCH_SIZE && AllEffective(a)
    requires |answers| >= MAX_RETRIES * KnownPending(rows, 0)
    ensures KnownPending(Cycles(rows, b, answers).0, 0) == 0
  {
    AttemptsBounds(rows, 0);
    DrainsWithinAttempts(rows, b, answers);
  }
}
