/**
  Whole runs of the auth outbox, with rows arriving at any time and cycles cut into steps: a row of a
  known type is settled within so many cycles if fewer than ten rows of unknown type are pending before
  it, and is otherwise never touched.
  */
module AuthDraining {
  import opened Wrappers
  import opened Runs
  import opened OutboxTable
  import opened CircuitBreaker
  import opened AuthOutbox

  // ---------------------------------------------------------------- what a cycle owes

  /** A cycle under way will come to a row of a known type among the first `m`. */
  ghost predicate Pledged(s: State, m: nat) {
    && s.cycle.Some?
    && exists p :: 0 <= p < |s.cycle.value| && s.cycle.value[p].id < m && Names(s.rows, s.cycle.value[p])
  }

  predicate Names(rows: Rows, f: Fetched) { f.id < |rows| && Known(rows[f.id]) }

  /** The attempts left to the first `m` rows, less the one that a cycle under way is about to use. */
  ghost function Debt(s: State, m: nat): int
    requires m <= |s.rows|
  {
    AttemptsLeft(s.rows[..m], 0) - if Pledged(s, m) then 1 else 0
  }

  /** What the claims ask of a step: no restart, and write-backs that take effect. */
  predicate Smooth(a: Action) { !a.Restart? && (a.HandleNext? ==> Effective(Answer(a.outcome, a.now))) }

  lemma {:induction false} FindPending(rows: Rows, i: nat) returns (k: nat)
    requires KnownPending(rows, i) > 0
    ensures i <= k < |rows| && Known(rows[k]) && Pending(rows[k])
    decreases |rows| - i
  {
    if Known(rows[i]) && Pending(rows[i]) { k := i; } else { k := FindPending(rows, i + 1); }
  }

  lemma {:induction false} AheadInPrefix(rows: Rows, m: nat, i: nat)
    requires m <= |rows| && KnownPending(rows[..m], i) > 0
    ensures UnknownsAhead(rows, i) <= UnknownPending(rows[..m], i) && KnownPending(rows, i) > 0
    decreases |rows| - i
  {
    if !(Known(rows[i]) && Pending(rows[i])) { AheadInPrefix(rows, m, i + 1); }
  }

  /** A fetch comes to one of the first `m` rows as long as fewer than ten of them are pending and unknown. */
  lemma FetchPledges(rows: Rows, m: nat)
    requires m <= |rows| && KnownPending(rows[..m], 0) > 0 && UnknownPending(rows[..m], 0) < BATCH_SIZE
    ensures exists p :: 0 <= p < |Fetch(rows)| && Fetch(rows)[p].id < m && Names(rows, Fetch(rows)[p])
  {
    var batch := Fetch(rows);
    var k := FindPending(rows[..m], 0);
    AheadInPrefix(rows, m, 0);
    FetchReachesKnown(rows, 0, BATCH_SIZE);
    FetchIsInOrder(rows, 0, BATCH_SIZE);
    var p :| 0 <= p < |batch| && batch[p].id < |rows| && Known(rows[batch[p].id]);
    if batch[p].id < m {
      assert Names(rows, batch[p]);
    } else {
      assert Fetched(k, rows[k].retryCount) in batch[..p];
      var q :| 0 <= q < p && batch[q] == Fetched(k, rows[k].retryCount);
      assert Names(rows, batch[q]);
    }
  }

  lemma StartLowers(s: State, m: nat, now: int)
    requires Inv(s) && m <= |s.rows| && s.cycle.None? && UnknownPending(s.rows[..m], 0) < BATCH_SIZE
    ensures
      var s' := s.(cycle := Some(Fetch(s.rows)));
      Debt(s', m) <= Debt(s, m) && (AttemptsLeft(s.rows[..m], 0) > 0 ==> Debt(s', m) < Debt(s, m))
  {
    AttemptsBounds(s.rows[..m], 0);
    if AttemptsLeft(s.rows[..m], 0) > 0 { FetchPledges(s.rows, m); }
  }

  /** Handling an unknown row changes nothing; a known one among the first `m` uses up an attempt of theirs. */
  lemma HandleLowersDebt(s: State, s': State, m: nat, o: Outcome, now: int)
    requires Inv(s) && Next(s, HandleNext(o, now), s') && Effective(Answer(o, now)) && m <= |s.rows|
    ensures m <= |s'.rows| && UnknownPending(s'.rows[..m], 0) == UnknownPending(s.rows[..m], 0)
    ensures Debt(s', m) <= Debt(s, m)
  {
    var batch := s.cycle.value;
    var k := batch[0].id;
    if !Known(s.rows[k]) {
      HeadUnknown(s, s', m);
    } else if k < m {
      assert s'.rows == s.rows[k := s'.rows[k]] && s'.rows[..m] == s.rows[..m][k := s'.rows[k]];
      UpdateMeasures(s.rows[..m], 0, k, s'.rows[k]);
    } else {
      assert s'.rows == s.rows[k := s'.rows[k]] && s'.rows[..m] == s.rows[..m];
      NoPledgeBehind(s, s', m);
    }
  }

  lemma HeadUnknown(s: State, s': State, m: nat)
    requires s.cycle.Some? && s.cycle.value != [] && !Names(s.rows, s.cycle.value[0])
    requires s' == s.(cycle := Some(s.cycle.value[1..]))
    ensures Pledged(s', m) <==> Pledged(s, m)
  {
    var batch := s.cycle.value;
    assert forall p :: 1 <= p < |batch| ==> batch[p] == batch[1..][p - 1];
    if Pledged(s', m) {
      var p :| 0 <= p < |batch[1..]| && batch[1..][p].id < m && Names(s.rows, batch[1..][p]);
      assert batch[p + 1] == batch[1..][p];
    }
  }

  lemma NoPledgeBehind(s: State, s': State, m: nat)
    requires s.cycle.Some? && s.cycle.value != [] && BatchTrue(s.rows, s.cycle.value) && s.cycle.value[0].id >= m
    requires s'.cycle == Some(s.cycle.value[1..]) || s'.cycle == Some([])
    ensures !Pledged(s, m) && !Pledged(s', m)
  {}

  lemma InsertKeepsDebt(s: State, s': State, m: nat, t: EventType)
    requires Inv(s) && Next(s, Insert(t), s') && m <= |s.rows|
    ensures s'.rows[..m] == s.rows[..m] && Debt(s', m) == Debt(s, m)
  {
    if s.cycle.Some? {
      var batch := s.cycle.value;
      assert forall p :: 0 <= p < |batch| ==> Names(s'.rows, batch[p]) == Names(s.rows, batch[p]);
    }
  }

  lemma StepLowersDebt(s: State, a: Action, s': State, m: nat)
    requires Inv(s) && Next(s, a, s') && Smooth(a) && m <= |s.rows| && UnknownPending(s.rows[..m], 0) < BATCH_SIZE
    ensures m <= |s'.rows| && UnknownPending(s'.rows[..m], 0) == UnknownPending(s.rows[..m], 0)
    ensures Debt(s', m) <= Debt(s, m)
    ensures a.StartCycle? && AttemptsLeft(s.rows[..m], 0) > 0 ==> Debt(s', m) < Debt(s, m)
  {
    match a
    case Insert(t) => InsertKeepsDebt(s, s', m, t);
    case StartCycle(now) => StartLowers(s, m, now);
    case HandleNext(o, now) => HandleLowersDebt(s, s', m, o, now);
    case _ =>
  }

  // ---------------------------------------------------------------- whole runs

  /** How many cycles start between steps `i` and `j`. */
  function Starts(actions: seq<Action>, i: nat, j: nat): nat
    requires i <= j <= |actions|
  {
    if i == j then 0 else Starts(actions, i, j - 1) + if actions[j - 1].StartCycle? then 1 else 0
  }

  lemma {:induction false} RunLowersDebt(states: seq<State>, actions: seq<Action>, i: nat, j: nat, m: nat)
    requires IsRun(Init, Next, states, actions) && i <= j < |states| && m <= |states[i].rows|
    requires UnknownPending(states[i].rows[..m], 0) < BATCH_SIZE && forall k :: i <= k < j ==> Smooth(actions[k])
    ensures m <= |states[j].rows| && UnknownPending(states[j].rows[..m], 0) == UnknownPending(states[i].rows[..m], 0)
    ensures Debt(states[j], m) <= Debt(states[i], m)
    ensures Debt(states[j], m) > 0 ==> Debt(states[j], m) + Starts(actions, i, j) <= Debt(states[i], m)
  {
    if i < j {
      RunLowersDebt(states, actions, i, j - 1, m);
      assert Next(states[j - 1], actions[j - 1], states[j - 1 + 1]);
      RunKeepsInv(states, actions);
      StepLowersDebt(states[j - 1], actions[j - 1], states[j], m);
    }
  }

  lemma {:induction false} NonePending(rows: Rows, i: nat, k: nat)
    requires KnownPending(rows, i) == 0 && i <= k < |rows| && Known(rows[k])
    ensures rows[k].Settled()
    decreases |rows| - i
  {
    if i < k { NonePending(rows, i + 1, k); }
  }

  lemma {:induction false} PrefixPending(rows: Rows, i: nat, k: nat)
    requires i <= k < |rows| && Known(rows[k])
    ensures UnknownPending(rows[..k + 1], i) == UnknownPending(rows[..k], i)
    decreases k - i
  {
    if i < k { PrefixPending(rows, i + 1, k); }
  }

  /**
    In every run: take a known row with fewer than ten unknown ones pending before it, and n known ones
    pending up to and with it.  Once 5n more cycles have started, and the last has ended, the row is
    processed or failed, whatever is pending behind it and whatever has been inserted since.
    */
  lemma DrainsInRuns(states: seq<State>, actions: seq<Action>, i: nat, j: nat, k: nat)
    requires IsRun(Init, Next, states, actions) && i <= j < |states| && states[j].cycle.None?
    requires k < |states[i].rows| && Known(states[i].rows[k]) && UnknownPending(states[i].rows[..k], 0) < BATCH_SIZE
    requires forall n :: i <= n < j ==> Smooth(actions[n])
    requires Starts(actions, i, j) >= MAX_RETRIES * KnownPending(states[i].rows[..k + 1], 0)
    ensures k < |states[j].rows| && states[j].rows[k].Settled()
  {
    var m := k + 1;
    PrefixPending(states[i].rows, 0, k);
    RunKeepsInv(states, actions);
    RunLowersDebt(states, actions, i, j, m);
    AttemptsBounds(states[i].rows[..m], 0);
    AttemptsBounds(states[j].rows[..m], 0);
    SettledForGood(states, actions, i, j);
    NonePending(states[j].rows[..m], 0, k);
  }

  // ---------------------------------------------------------------- stuck for good

  /** Row `k` is pending, ten unknown rows are pending before it, and the cycle under way does not name it. */
  ghost predicate Stuck(s: State, k: nat) {
    && k < |s.rows| && Pending(s.rows[k]) && UnknownPending(s.rows[..k], 0) >= BATCH_SIZE
    && (s.cycle.Some? ==> Spares(s.cycle.value, k))
  }

  predicate Spares(batch: seq<Fetched>, k: nat) { forall p :: 0 <= p < |batch| ==> batch[p].id != k }

  lemma {:induction false} FetchSpares(rows: Rows, i: nat, limit: nat, k: nat)
    requires i <= k < |rows| && UnknownPending(rows[..k], i) >= limit
    ensures Spares(PendingFrom(rows, i, limit), k)
    decreases |rows| - i
  {
    if limit > 0 {
      if rows[i].Settled() {
        FetchSpares(rows, i + 1, limit, k);
      } else {
        FetchSpares(rows, i + 1, limit - 1, k);
      }
    }
  }

  lemma {:induction false} KnownUpdate(rows: Rows, i: nat, h: nat, row: Row<EventType>)
    requires h < |rows| && Known(rows[h]) && row.payload == rows[h].payload
    ensures UnknownPending(rows[h := row], i) == UnknownPending(rows, i)
    decreases |rows| - i
  {
    if i < |rows| { KnownUpdate(rows, i + 1, h, row); }
  }

  lemma HandleLeavesStuck(s: State, s': State, k: nat, o: Outcome, now: int)
    requires Stuck(s, k) && Next(s, HandleNext(o, now), s')
    ensures Stuck(s', k) && s'.rows[k] == s.rows[k]
  {
    var h := s.cycle.value[0].id;
    if Known(s.rows[h]) {
      assert s'.rows == s.rows[h := s'.rows[h]];
      if h < k {
        assert s'.rows[..k] == s.rows[..k][h := s'.rows[h]];
        KnownUpdate(s.rows[..k], 0, h, s'.rows[h]);
      } else {
        assert s'.rows[..k] == s.rows[..k];
      }
    }
  }

  lemma StuckStays(s: State, a: Action, s': State, k: nat)
    requires Stuck(s, k) && Next(s, a, s')
    ensures Stuck(s', k) && s'.rows[k] == s.rows[k]
  {
    match a
    case Insert(_) => assert s'.rows[..k] == s.rows[..k];
    case StartCycle(_) => FetchSpares(s.rows, 0, BATCH_SIZE, k);
    case HandleNext(o, now) => HandleLeavesStuck(s, s', k, o, now);
    case _ =>
  }

  /** Such a row is never touched again, in any run, restarts included, whatever else still settles. */
  lemma {:induction false} StuckForGood(states: seq<State>, actions: seq<Action>, i: nat, j: nat, k: nat)
    requires IsRun(Init, Next, states, actions) && i <= j < |states| && Stuck(states[i], k)
    ensures Stuck(states[j], k) && states[j].rows[k] == states[i].rows[k]
  {
    if i < j {
      StuckForGood(states, actions, i, j - 1, k);
      assert Next(states[j - 1], actions[j - 1], states[j - 1 + 1]);
      StuckStays(states[j - 1], actions[j - 1], states[j], k);
    }
  }

  /**
    So over the cycles that its known predecessors and itself may need, a pending known row is settled
    exactly if fewer than ten rows of unknown type are pending before it.
    */
  lemma SettlesExactly(states: seq<State>, actions: seq<Action>, i: nat, j: nat, k: nat)
    requires IsRun(Init, Next, states, actions) && i <= j < |states| && states[i].cycle.None? && states[j].cycle.None?
    requires k < |states[i].rows| && Known(states[i].rows[k]) && Pending(states[i].rows[k])
    requires forall n :: i <= n < j ==> Smooth(actions[n])
    requires Starts(actions, i, j) >= MAX_RETRIES * KnownPending(states[i].rows[..k + 1], 0)
    ensures k < |states[j].rows|
    ensures states[j].rows[k].Settled() <==> UnknownPending(states[i].rows[..k], 0) < BATCH_SIZE
  {
    if UnknownPending(states[i].rows[..k], 0) < BATCH_SIZE {
      DrainsInRuns(states, actions, i, j, k);
    } else {
      StuckForGood(states, actions, i, j, k);
    }
  }

  // ---------------------------------------------------------------- a table with nothing left to do

  /** Ten pending rows of unknown type stand before the first pending row of a known one. */
  ghost predicate Blocked(s: State) {
    && UnknownsAhead(s.rows, 0) >= BATCH_SIZE
    && (s.cycle.Some? ==>
          forall p :: 0 <= p < |s.cycle.value| ==> s.cycle.value[p].id < |s.rows| && !Names(s.rows, s.cycle.value[p]))
  }

  lemma {:induction false} AheadGrows(rows: Rows, row: Row<EventType>, i: nat)
    ensures UnknownsAhead(rows + [row], i) >= UnknownsAhead(rows, i)
    decreases |rows| - i
  {
    if i < |rows| { AheadGrows(rows, row, i + 1); }
  }

  lemma BlockedStays(s: State, a: Action, s': State)
    requires Blocked(s) && Next(s, a, s')
    ensures Blocked(s') && s.rows <= s'.rows
  {
    match a
    case Insert(t) => AheadGrows(s.rows, NewRow(t), 0);
    case StartCycle(_) => FetchIsUnknown(s.rows);
    case HandleNext(_, _) => assert !Names(s.rows, s.cycle.value[0]);
    case _ =>
  }

  lemma FetchIsUnknown(rows: Rows)
    requires UnknownsAhead(rows, 0) >= BATCH_SIZE
    ensures forall p :: 0 <= p < |Fetch(rows)| ==> Fetch(rows)[p].id < |rows| && !Names(rows, Fetch(rows)[p])
  {
    FetchReachesKnown(rows, 0, BATCH_SIZE);
    FetchIsInOrder(rows, 0, BATCH_SIZE);
  }

  /** While every known row is stuck no row at all is touched, in any run, restarts included. */
  lemma {:induction false} BlockedForGood(states: seq<State>, actions: seq<Action>, i: nat, j: nat)
    requires IsRun(Init, Next, states, actions) && i <= j < |states| && Blocked(states[i])
    ensures Blocked(states[j]) && states[i].rows <= states[j].rows
  {
    if i < j {
      BlockedForGood(states, actions, i, j - 1);
      assert Next(states[j - 1], actions[j - 1], states[j - 1 + 1]);
      BlockedStays(states[j - 1], actions[j - 1], states[j]);
    }
  }

  function RowsOf(types: seq<EventType>): Rows { seq(|types|, i requires 0 <= i < |types| => NewRow(types[i])) }

  lemma {:induction false} InsertAll(types: seq<EventType>)
    ensures Reached(Init, Next, State(RowsOf(types), FRESH, None))
  {
    if types == [] {
      ReachedInitially(Init, Next, State(RowsOf(types), FRESH, None));
    } else {
      var before, t := types[..|types| - 1], types[|types| - 1];
      InsertAll(before);
      assert RowsOf(types) == RowsOf(before) + [NewRow(t)];
      ReachedNext(Init, Next, State(RowsOf(before), FRESH, None), Insert(t), State(RowsOf(types), FRESH, None));
    }
  }

  lemma {:induction false} UnknownRun(rows: Rows, i: nat, n: nat)
    requires i <= n <= |rows| && forall k :: i <= k < n ==> !Known(rows[k]) && Pending(rows[k])
    ensures UnknownsAhead(rows, i) >= n - i
    decreases n - i
  {
    if i < n { UnknownRun(rows, i + 1, n); }
  }

  lemma {:induction false} PendingSomewhere(rows: Rows, i: nat, k: nat)
    requires i <= k < |rows| && Known(rows[k]) && Pending(rows[k])
    ensures KnownPending(rows, i) > 0
    decreases k - i
  {
    if i < k { PendingSomewhere(rows, i + 1, k); }
  }

  /** Ten rows of a type this version does not know, then one it does: a reachable table that is blocked. */
  lemma BlockCanHappen() returns (s: State)
    ensures Reached(Init, Next, s) && Blocked(s) && s.cycle.None? && KnownPending(s.rows, 0) > 0
  {
    var types := seq(10, _ => Unknown) + [UserRegistered];
    s := State(RowsOf(types), FRESH, None);
    InsertAll(types);
    UnknownRun(s.rows, 0, 10);
    PendingSomewhere(s.rows, 0, 10);
  }

  lemma {:induction false} CountUnknown(rows: Rows, i: nat, n: nat)
    requires i <= n <= |rows| && forall k :: i <= k < n ==> Pending(rows[k]) && (k == 5 || !Known(rows[k]))
    ensures UnknownPending(rows, i) >= n - i - (if i <= 5 < n then 1 else 0)
    decreases n - i
  {
    if i < n { CountUnknown(rows, i + 1, n); }
  }

  /** Five unknown rows, a known one, five unknown rows, a known one: the last is stuck although the other is not. */
  lemma OneOfTwoCanBeStuck() returns (s: State)
    ensures Reached(Init, Next, s) && s.cycle.None? && |s.rows| == 12 && Known(s.rows[5]) && Known(s.rows[11])
    ensures Stuck(s, 11) && Pending(s.rows[5]) && UnknownPending(s.rows[..5], 0) < BATCH_SIZE && !Blocked(s)
  {
    var types := seq(5, _ => Unknown) + [UserRegistered] + seq(5, _ => Unknown) + [UserDeleted];
    s := State(RowsOf(types), FRESH, None);
    InsertAll(types);
    CountUnknown(s.rows[..11], 0, 11);
    AtMost(s.rows[..5], 0);
    AheadUpTo(s.rows, 0, 5);
  }

  lemma {:induction false} AtMost(rows: Rows, i: nat)
    requires i <= |rows|
    ensures UnknownPending(rows, i) <= |rows| - i
    decreases |rows| - i
  {
    if i < |rows| { AtMost(rows, i + 1); }
  }

  lemma {:induction false} AheadUpTo(rows: Rows, i: nat, k: nat)
    requires i <= k < |rows| && Known(rows[k]) && Pending(rows[k])
    ensures UnknownsAhead(rows, i) <= k - i
    decreases k - i
  {
    if i < k { AheadUpTo(rows, i + 1, k); }
  }
}
