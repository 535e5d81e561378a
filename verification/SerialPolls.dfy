/**
  What the core outbox would promise if a poll began only when no other was under way, as its single
  timer suggests: write-backs are then never stale, so the poison mark is for good.  Reapers, brokers,
  failing writes and restarts interleave as before.
  */
module SerialPolls {
  import opened Wrappers
  import opened Runs
  import opened OutboxTable
  import opened CoreOutbox

  predicate Idle(s: State) { forall p :: p in s.polls ==> s.polls[p].Finished? }

  ghost predicate SerialNext(s: State, a: Action, s': State) { Next(s, a, s') && (a.PollBegin? ==> Idle(s)) }

  /** The batch names distinct rows that are not failed, with the retry counts they have now. */
  ghost predicate UpToDate(rows: Rows, batch: seq<Fetched>) {
    && (forall k :: 0 <= k < |batch| ==>
          batch[k].id < |rows| && !rows[batch[k].id].failed && rows[batch[k].id].retryCount == batch[k].retryCount)
    && (forall j, k :: 0 <= j < k < |batch| ==> batch[j].id != batch[k].id)
  }

  predicate HasBatch(poll: Poll) { !poll.Fetching? && !poll.Finished? }

  ghost predicate Serial(s: State) {
    && (forall p, q :: p in s.polls && q in s.polls && !s.polls[p].Finished? && !s.polls[q].Finished? ==> p == q)
    && (forall p :: p in s.polls && HasBatch(s.polls[p]) ==> UpToDate(s.rows, s.polls[p].batch))
  }

  /** Retry counts do not go down and failed rows stay failed. */
  ghost predicate NeverEasier(s: State, s': State) {
    && |s.rows| <= |s'.rows|
    && forall i :: 0 <= i < |s.rows| ==>
         s'.rows[i].retryCount >= s.rows[i].retryCount && (s.rows[i].failed ==> s'.rows[i].failed)
  }

  lemma FetchIsUpToDate(rows: Rows)
    ensures UpToDate(rows, Fetch(rows))
  {
    FetchIsInOrder(rows, 0, BATCH_SIZE);
    forall j, k | 0 <= j < k < |Fetch(rows)| ensures Fetch(rows)[j].id != Fetch(rows)[k].id {}
  }

  /** Changing the first row leaves the rest of the batch up to date. */
  lemma RestIsUpToDate(rows: Rows, batch: seq<Fetched>, row: Row<Payload>)
    requires batch != [] && UpToDate(rows, batch)
    ensures UpToDate(rows[batch[0].id := row], batch[1..]) && UpToDate(rows, batch[1..])
  {}

  /** The one poll under way has moved on, rows included. */
  ghost predicate Moved(s: State, p: nat, s': State) {
    && p in s'.polls && s'.polls == s.polls[p := s'.polls[p]] && NeverEasier(s, s')
    && (HasBatch(s'.polls[p]) ==> UpToDate(s'.rows, s'.polls[p].batch))
  }

  lemma MarkMoves(s: State, p: nat, batch: seq<Fetched>, outcome: WriteOutcome)
    requires Busy(s, batch) && UpToDate(s.rows, batch)
    ensures Moved(s, p, Marked(s, p, batch, outcome))
  {
    RestIsUpToDate(s.rows, batch, s.rows[batch[0].id].(processed := true));
  }

  lemma WriteBackMoves(s: State, p: nat, batch: seq<Fetched>, outcome: WriteOutcome, now: int)
    requires Busy(s, batch) && UpToDate(s.rows, batch)
    ensures Moved(s, p, WrittenBack(s, p, batch, outcome, now))
  {
    var n := batch[0].retryCount + 1;
    RestIsUpToDate(s.rows, batch, s.rows[batch[0].id].(retryCount := n, failed := n >= MAX_RETRIES));
  }

  lemma SendMoves(s: State, p: nat, batch: seq<Fetched>, sent: Sent)
    requires Busy(s, batch) && UpToDate(s.rows, batch)
    ensures Moved(s, p, Emitted(s, p, batch, sent)) && Moved(s, p, Published(s, p, batch, sent))
  {}

  lemma BatchMoves(s: State, a: Action, s': State)
    requires Serial(s) && SerialNext(s, a, s') && a.OfPoll() && !a.PollBegin? && !a.PollFetch?
    ensures Moved(s, a.poll, s')
  {
    var batch := s.polls[a.poll].batch;
    match a
    case PollEmit(p, sent) => SendMoves(s, p, batch, sent);
    case PollPublish(p, sent) => SendMoves(s, p, batch, sent);
    case PollMark(p, outcome) => MarkMoves(s, p, batch, outcome);
    case PollCount(p, outcome, now) => WriteBackMoves(s, p, batch, outcome, now);
    case PollSkip(_) =>
  }

  lemma MovedKeepsSerial(s: State, p: nat, s': State)
    requires Serial(s) && Moved(s, p, s') && p in s.polls && !s.polls[p].Finished?
    ensures Serial(s')
  {
    forall q | q in s'.polls && HasBatch(s'.polls[q]) ensures UpToDate(s'.rows, s'.polls[q].batch) {
      assert q == p;
    }
  }

  lemma PollKeepsSerial(s: State, a: Action, s': State)
    requires Serial(s) && SerialNext(s, a, s') && a.OfPoll()
    ensures Serial(s') && NeverEasier(s, s')
  {
    if a.PollBegin? {
      assert s'.rows == s.rows;
    } else if a.PollFetch? {
      FetchIsUpToDate(s.rows);
    } else {
      BatchMoves(s, a, s');
      MovedKeepsSerial(s, a.poll, s');
    }
  }

  lemma OthersLeavePolls(s: State, a: Action, s': State)
    requires Next(s, a, s') && !a.OfPoll()
    ensures s'.polls == s.polls || s'.polls == map[]
    ensures |s.rows| <= |s'.rows|
  {
    if a.OfReaper() { ReaperFrame(s, a, s'); }
    else if a.OfWriter() { RequestsLeavePolls(s, a, s'); }
  }

  lemma RequestsLeavePolls(s: State, a: Action, s': State)
    requires a.OfWriter() && WriterNext(s, a, s')
    ensures s'.polls == s.polls && |s.rows| <= |s'.rows|
  {}

  lemma SameRetriesKeepSerial(s: State, s': State)
    requires Serial(s) && (s'.polls == s.polls || s'.polls == map[]) && |s.rows| <= |s'.rows|
    requires forall i :: 0 <= i < |s.rows| ==> SameRetries(s.rows, s'.rows, i)
    ensures Serial(s') && NeverEasier(s, s')
  {
    forall i | 0 <= i < |s.rows|
      ensures s'.rows[i].failed == s.rows[i].failed && s'.rows[i].retryCount == s.rows[i].retryCount
    {
      assert SameRetries(s.rows, s'.rows, i);
    }
  }

  lemma OthersKeepSerial(s: State, a: Action, s': State)
    requires Serial(s) && SerialNext(s, a, s') && !a.OfPoll()
    ensures Serial(s') && NeverEasier(s, s')
  {
    OthersLeavePolls(s, a, s');
    forall i | 0 <= i < |s.rows| ensures SameRetries(s.rows, s'.rows, i) { OnlyWriteBacksTouchRetries(s, a, s', i); }
    SameRetriesKeepSerial(s, s');
  }

  lemma StepKeepsSerial(s: State, a: Action, s': State)
    requires Serial(s) && SerialNext(s, a, s')
    ensures Serial(s') && NeverEasier(s, s')
  {
    if a.OfPoll() { PollKeepsSerial(s, a, s'); } else { OthersKeepSerial(s, a, s'); }
  }

  lemma RunKeepsSerial(states: seq<State>, actions: seq<Action>)
    requires IsRun(Init, SerialNext, states, actions)
    ensures forall i :: 0 <= i < |states| ==> Serial(states[i])
  {
    forall s, a, s' | Serial(s) && SerialNext(s, a, s') ensures Serial(s') { StepKeepsSerial(s, a, s'); }
    Invariance(Init, SerialNext, Serial, states, actions);
  }

  /** With polls one at a time, over every run no retry count goes down and no failed row comes back. */
  lemma PoisonIsForGood(states: seq<State>, actions: seq<Action>, i: nat, j: nat)
    requires IsRun(Init, SerialNext, states, actions) && i <= j < |states|
    ensures NeverEasier(states[i], states[j])
  {
    RunKeepsSerial(states, actions);
    forall k | 0 <= k < |actions| ensures NeverEasier(states[k], states[k + 1]) {
      StepKeepsSerial(states[k], actions[k], states[k + 1]);
    }
    Monotonicity(Init, SerialNext, NeverEasier, states, actions, i, j);
  }
}
