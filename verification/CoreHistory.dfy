/**
  What a run of the core outbox has done to each session and each row: a session is terminated exactly if
  some transaction ended it, a row is processed exactly if some step marked it, and what a reaper ends is
  announced.
  */
module CoreHistory {
  import opened Wrappers
  import opened Runs
  import opened OutboxTable
  import opened CoreOutbox

  // ---------------------------------------------------------------- sessions

  /** A transaction that takes effect ends the session and writes its row, and leaves every other as it was. */
  lemma TerminationTakesEffect(s: State, r: nat, outcome: WriteOutcome, s': State)
    requires Next(s, ReapTerminate(r, outcome), s')
    ensures
      var id := s.reapers[r].left[0];
      if outcome.Rejected? then s'.rows == s.rows && s'.sessions == s.sessions
      else
        && s'.rows == s.rows + [Row(Payload(SessionEnded(ByExpiry), id), false, 0, false)]
        && s'.sessions == s.sessions[id := Terminated]
  {}

  /** So does the transaction of a request: it starts its session, or ends it if there is one, and writes the row. */
  lemma RequestTakesEffect(s: State, w: nat, payload: Payload, outcome: WriteOutcome, s': State)
    requires Next(s, WriterBegin(w, payload, outcome), s')
    ensures
      if outcome.Rejected? then s'.rows == s.rows && s'.sessions == s.sessions
      else
        && s'.rows == s.rows + [Row(payload, false, 0, false)]
        && s'.sessions == if payload.kind.SessionStarted? then s.sessions[payload.session := Active]
                          else if payload.session in s.sessions then s.sessions[payload.session := Terminated]
                          else s.sessions
  {}

  /**
    Over every interleaving: from the moment a reaper's transaction takes effect its session stays
    terminated, and the row it wrote is pending, failed, or delivered with its own event accepted.
    */
  lemma TerminationsAreAnnounced(states: seq<State>, actions: seq<Action>, k: nat, n: nat)
    requires IsRun(Init, Next, states, actions) && k < n < |states|
    requires actions[k].ReapTerminate? && !actions[k].outcome.Rejected?
    ensures actions[k].reaper in states[k].reapers && states[k].reapers[actions[k].reaper].Terminating?
    ensures states[k].reapers[actions[k].reaper].left != []
    ensures
      var id, s, i := states[k].reapers[actions[k].reaper].left[0], states[n], |states[k].rows|;
      && id in s.sessions && s.sessions[id].Terminated?
      && i < |s.rows| && s.rows[i].payload == Payload(SessionEnded(ByExpiry), id)
      && (s.rows[i].failed || BothAccepted(s, i) || !s.rows[i].processed)
  {
    assert Next(states[k], actions[k], states[k + 1]);
    TerminationTakesEffect(states[k], actions[k].reaper, actions[k].outcome, states[k + 1]);
    ProcessedIsForGood(states, actions, k + 1, n);
    ProcessedMeansAccepted(states, actions, n, |states[k].rows|);
  }

  predicate IsTerminated(s: State, id: string) { id in s.sessions && s.sessions[id].Terminated? }

  /** The step is a transaction that ends the session, a reaper's or a request's, and it takes effect. */
  predicate EndsSession(s: State, a: Action, id: string) {
    || (a.ReapTerminate? && !a.outcome.Rejected? && a.reaper in s.reapers && s.reapers[a.reaper].Terminating?
        && s.reapers[a.reaper].left != [] && s.reapers[a.reaper].left[0] == id)
    || (a.WriterBegin? && !a.outcome.Rejected? && a.payload.kind.SessionEnded? && a.payload.session == id
        && id in s.sessions)
  }

  lemma BatchStepsLeaveSessions(s: State, p: nat, batch: seq<Fetched>, sent: Sent, outcome: WriteOutcome, now: int)
    requires Busy(s, batch)
    ensures Emitted(s, p, batch, sent).sessions == Published(s, p, batch, sent).sessions == s.sessions
    ensures Marked(s, p, batch, outcome).sessions == WrittenBack(s, p, batch, outcome, now).sessions == s.sessions
  {}

  lemma BatchLeavesSessions(s: State, a: Action, poll: Poll, s': State)
    requires a.OfPoll() && !a.PollBegin? && !a.PollFetch? && !poll.Fetching? && !poll.Finished?
    requires BatchNext(s, a, poll, s')
    ensures s'.sessions == s.sessions
  {
    match a
    case PollEmit(p, sent) => BatchStepsLeaveSessions(s, p, poll.batch, sent, Written, 0);
    case PollPublish(p, sent) => BatchStepsLeaveSessions(s, p, poll.batch, sent, Written, 0);
    case PollMark(p, outcome) => BatchStepsLeaveSessions(s, p, poll.batch, Accepted, outcome, 0);
    case PollCount(p, outcome, now) => BatchStepsLeaveSessions(s, p, poll.batch, Accepted, outcome, now);
    case _ =>
  }

  lemma PollsLeaveSessions(s: State, a: Action, s': State)
    requires a.OfPoll() && PollNext(s, a, s')
    ensures s'.sessions == s.sessions
  {
    if !a.PollBegin? && !a.PollFetch? { BatchLeavesSessions(s, a, s.polls[a.poll], s'); }
  }

  lemma StepEndsExactly(s: State, a: Action, s': State, id: string)
    requires Next(s, a, s')
    ensures IsTerminated(s', id) <==> IsTerminated(s, id) || EndsSession(s, a, id)
  {
    if a.OfPoll() { PollsLeaveSessions(s, a, s'); }
    else if a.ReapTerminate? { TerminationTakesEffect(s, a.reaper, a.outcome, s'); }
    else if a.WriterBegin? { RequestTakesEffect(s, a.writer, a.payload, a.outcome, s'); }
  }

  ghost predicate EndedInRun(states: seq<State>, actions: seq<Action>, n: nat, id: string) {
    && n <= |actions| <= |states|
    && exists k :: 0 <= k < n && EndsSession(states[k], actions[k], id)
  }

  lemma EndedByThen(states: seq<State>, actions: seq<Action>, n: nat, id: string)
    requires n < |actions| <= |states|
    ensures EndedInRun(states, actions, n + 1, id) <==>
        EndedInRun(states, actions, n, id) || EndsSession(states[n], actions[n], id)
  {
    if EndsSession(states[n], actions[n], id) { assert 0 <= n < n + 1; }
  }

  /** Over every interleaving a session is terminated exactly if some transaction of the run has ended it. */
  lemma {:induction false} TerminatedExactly(states: seq<State>, actions: seq<Action>, n: nat, id: string)
    requires IsRun(Init, Next, states, actions) && n < |states|
    ensures IsTerminated(states[n], id) <==> EndedInRun(states, actions, n, id)
  {
    if n == 0 {
      assert Init(states[0]);
    } else {
      assert Next(states[n - 1], actions[n - 1], states[n - 1 + 1]);
      StepEndsExactly(states[n - 1], actions[n - 1], states[n], id);
      TerminatedExactly(states, actions, n - 1, id);
      EndedByThen(states, actions, n - 1, id);
    }
  }

  // ---------------------------------------------------------------- rows

  /** The step is the mark of a poll that delivers row `i`, and it takes effect. */
  predicate PollMarksRow(s: State, a: Action, i: nat) {
    && a.PollMark? && !a.outcome.Rejected? && a.poll in s.polls && s.polls[a.poll].Marking?
    && s.polls[a.poll].batch != [] && s.polls[a.poll].batch[0].id == i
  }

  /** The step is the mark of a reaper that has announced the row it wrote, and it takes effect. */
  predicate ReaperMarksRow(s: State, a: Action, i: nat) {
    && a.ReapMark? && !a.outcome.Rejected? && a.reaper in s.reapers && s.reapers[a.reaper].MarkingEnd?
    && s.reapers[a.reaper].row == i
  }

  predicate MarksRow(s: State, a: Action, i: nat) {
    PollMarksRow(s, a, i) || ReaperMarksRow(s, a, i) || MarksAlike(s, a, i)
  }

  lemma PollsMarkExactly(s: State, a: Action, s': State, i: nat)
    requires a.OfPoll() && PollNext(s, a, s') && i < |s.rows|
    ensures i < |s'.rows| && (s'.rows[i].processed <==> s.rows[i].processed || PollMarksRow(s, a, i))
  {
    if a.PollCount? {
      WriteBackMarksNothing(s, a.poll, s.polls[a.poll].batch, a.outcome, a.now, i);
    } else if !a.PollMark? {
      PollLeavesRows(s, a, s');
    }
  }

  lemma ReapersMarkExactly(s: State, a: Action, s': State, i: nat)
    requires a.OfReaper() && ReaperNext(s, a, s') && i < |s.rows|
    ensures i < |s'.rows| && (s'.rows[i].processed <==> s.rows[i].processed || ReaperMarksRow(s, a, i))
  {}

  /** A row becomes processed by exactly these steps, and by nothing else does one that is stop being it. */
  lemma MarkedExactly(s: State, a: Action, s': State, i: nat)
    requires Inv(s) && Next(s, a, s') && i < |s.rows|
    ensures i < |s'.rows| && (s'.rows[i].processed <==> s.rows[i].processed || MarksRow(s, a, i))
  {
    if a.OfPoll() { PollsMarkExactly(s, a, s', i); }
    else if a.OfReaper() { ReapersMarkExactly(s, a, s', i); }
    else if a.OfWriter() {
      StepGrows(s, a, s');
      if !s.rows[i].processed { RequestsMarkExactly(s, a, s', i); }
    } else { WorldMarksNothing(s, a, s', i); }
  }

  /** The mark of a poll or a reaper changes that row, nothing in it but the mark, and no other row. */
  lemma MarkTakesEffect(s: State, a: Action, s': State, i: nat)
    requires Next(s, a, s') && i < |s.rows| && (PollMarksRow(s, a, i) || ReaperMarksRow(s, a, i))
    ensures s'.rows == s.rows[i := s.rows[i].(processed := true)]
  {}

  /** One of the first `n` steps marked row `i`. */
  ghost predicate MarkedInRun(states: seq<State>, actions: seq<Action>, n: nat, i: nat) {
    && n <= |actions| <= |states|
    && exists k :: 0 <= k < n && i < |states[k].rows| && MarksRow(states[k], actions[k], i)
  }

  lemma NoMarkBeforeIt(states: seq<State>, actions: seq<Action>, n: nat, i: nat)
    requires IsRun(Init, Next, states, actions) && n < |states| && |states[n].rows| <= i
    ensures !MarkedInRun(states, actions, n, i)
  {
    forall k | 0 <= k < n ensures |states[k].rows| <= i { ProcessedIsForGood(states, actions, k, n); }
  }

  /** Over every interleaving a row is processed exactly if some step of the run marked it. */
  lemma {:induction false} ProcessedExactly(states: seq<State>, actions: seq<Action>, n: nat, i: nat)
    requires IsRun(Init, Next, states, actions) && n < |states| && i < |states[n].rows|
    ensures states[n].rows[i].processed <==> MarkedInRun(states, actions, n, i)
  {
    assert n > 0 by { assert Init(states[0]); }
    var s, a, s' := states[n - 1], actions[n - 1], states[n];
    assert Next(s, a, states[n - 1 + 1]) && Inv(s) by { RunKeepsInv(states, actions); }
    if i < |s.rows| {
      MarkedExactly(s, a, s', i);
      ProcessedExactly(states, actions, n - 1, i);
    } else {
      NewRowsArePending(s, a, s', i);
      NoMarkBeforeIt(states, actions, n - 1, i);
    }
  }
}
