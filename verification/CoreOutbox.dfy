/**
  The core service's outbox under interleaving: any number of overlapping polls (nothing guards one
  against the next), session reapers and request handlers that write and mark the same rows, brokers
  that accept an event late, and writes that fail.  Each step is one awaited call and the code up to
  the next.
  */
module CoreOutbox {
  import opened Wrappers
  import opened Runs
  import opened OutboxTable
  import opened CircuitBreaker
  import opened Numbers

  datatype EndReason = ByExpiry | ByUser

  datatype Kind = SessionStarted | SessionEnded(reason: EndReason) | Other

  datatype Payload = Payload(kind: Kind, session: string)

  type Rows = seq<Row<Payload>>

  datatype Status = Active | Terminated

  /** Where a poll stands; the first row of `batch` is the one it is delivering. */
  datatype Poll =
    | Fetching
    | Emitting(batch: seq<Fetched>)
    | Publishing(batch: seq<Fetched>)
    | Marking(batch: seq<Fetched>)
    | Counting(batch: seq<Fetched>)
    | Finished

  /** Where a reaper stands; `left` are the expired sessions it still has to terminate. */
  datatype Reaper =
    | Terminating(left: seq<string>)
    | EmittingEnd(row: nat, left: seq<string>)
    | PublishingEnd(row: nat, left: seq<string>)
    | MarkingEnd(row: nat, left: seq<string>)

  /** Where a request that starts or ends a session stands, `row` being the one its transaction wrote. */
  datatype Writer = Sending(row: nat) | Forwarding(row: nat) | Settling(row: nat) | Done

  /**
    `kafka` and `rabbit` are the rows whose event each broker has accepted.  History: `reaped` is the
    row written by the transaction with which a reaper terminated a session, and `vouchers` says for
    a row marked processed whose acceptance it was marked for.
    */
  datatype State = State(
    rows: Rows, kafka: set<nat>, rabbit: set<nat>, breaker: Breaker,
    sessions: map<string, Status>, reaped: map<string, nat>, vouchers: map<nat, nat>,
    polls: map<nat, Poll>, reapers: map<nat, Reaper>, writers: map<nat, Writer>)

  /** What a broker call did; one that fails or times out may have been accepted, or be later. */
  datatype Sent = Accepted | Refused | AcceptedButFailed

  datatype Action =
    | PollBegin(poll: nat, now: int)
    | PollFetch(poll: nat, answered: bool)
    | PollEmit(poll: nat, sent: Sent)
    | PollSkip(poll: nat)
    | PollPublish(poll: nat, sent: Sent)
    | PollMark(poll: nat, outcome: WriteOutcome)
    | PollCount(poll: nat, outcome: WriteOutcome, now: int)
    | ReapBegin(reaper: nat, expired: seq<string>)
    | ReapTerminate(reaper: nat, outcome: WriteOutcome)
    | ReapEmit(reaper: nat, sent: Sent)
    | ReapPublish(reaper: nat, sent: Sent)
    | ReapMark(reaper: nat, outcome: WriteOutcome)
    | WriterBegin(writer: nat, payload: Payload, outcome: WriteOutcome)
    | WriterEmit(writer: nat, sent: Sent)
    | WriterPublish(writer: nat, sent: Sent)
    | WriterMark(writer: nat, outcome: WriteOutcome)
    | Insert(payload: Payload)
    | KafkaAcceptsLate(row: nat)
    | RabbitAcceptsLate(row: nat)
    | Restart
  {
    predicate OfPoll() {
      PollBegin? || PollFetch? || PollEmit? || PollSkip? || PollPublish? || PollMark? || PollCount?
    }

    predicate OfReaper() { ReapBegin? || ReapTerminate? || ReapEmit? || ReapPublish? || ReapMark? }

    predicate OfWriter() { WriterBegin? || WriterEmit? || WriterPublish? || WriterMark? }
  }

  function Add(accepted: set<nat>, row: nat, sent: Sent): set<nat> {
    if sent.Refused? then accepted else accepted + {row}
  }

  function Mark(rows: Rows, row: nat, outcome: WriteOutcome): Rows
    requires row < |rows|
  {
    if outcome.Rejected? then rows else Processed(rows, row)
  }

  /** The update by payload: it marks every row with that payload, however many there are. */
  function MarkAlike(rows: Rows, payload: Payload, outcome: WriteOutcome): (r: Rows)
    ensures |r| == |rows|
  {
    if outcome.Rejected? then rows
    else seq(|rows|, i requires 0 <= i < |rows| =>
               if rows[i].payload == payload then rows[i].(processed := true) else rows[i])
  }

  function Vouch(vouchers: map<nat, nat>, row: nat, outcome: WriteOutcome): map<nat, nat> {
    if outcome.Rejected? then vouchers else vouchers[row := row]
  }

  function VouchAlike(vouchers: map<nat, nat>, rows: Rows, row: nat, outcome: WriteOutcome): map<nat, nat>
    requires row < |rows|
  {
    if outcome.Rejected? then vouchers
    else vouchers + map i: nat | i < |rows| && rows[i].payload == rows[row].payload :: row
  }

  function PollAt(batch: seq<Fetched>): Poll { if batch == [] then Finished else Emitting(batch) }

  function PollTo(s: State, p: nat, poll: Poll): State { s.(polls := s.polls[p := poll]) }

  function WriterTo(s: State, w: nat, writer: Writer): State { s.(writers := s.writers[w := writer]) }

  function ReapTo(s: State, r: nat, reaper: Reaper): State { s.(reapers := s.reapers[r := reaper]) }

  // ---------------------------------------------------------------- steps of a poll

  predicate Busy(s: State, batch: seq<Fetched>) { batch != [] && batch[0].id < |s.rows| }

  function Emitted(s: State, p: nat, batch: seq<Fetched>, sent: Sent): State
    requires Busy(s, batch)
  {
    var s1 := s.(kafka := Add(s.kafka, batch[0].id, sent));
    if sent.Accepted? then PollTo(s1, p, Publishing(batch))
    else PollTo(s1.(breaker := Counted(s.breaker)), p, Counting(batch))
  }

  function Published(s: State, p: nat, batch: seq<Fetched>, sent: Sent): State
    requires Busy(s, batch)
  {
    var s1 := s.(rabbit := Add(s.rabbit, batch[0].id, sent));
    if sent.Accepted? then PollTo(s1, p, Marking(batch))
    else PollTo(s1.(breaker := Counted(s.breaker)), p, Counting(batch))
  }

  function Marked(s: State, p: nat, batch: seq<Fetched>, outcome: WriteOutcome): State
    requires Busy(s, batch)
  {
    var s1 := s.(rows := Mark(s.rows, batch[0].id, outcome), vouchers := Vouch(s.vouchers, batch[0].id, outcome));
    if outcome.Written? then PollTo(s1.(breaker := Delivered(s.breaker)), p, PollAt(batch[1..]))
    else PollTo(s1.(breaker := Counted(s.breaker)), p, Counting(batch))
  }

  /** The write-back uses the retry count fetched with the batch, however stale. */
  function WrittenBack(s: State, p: nat, batch: seq<Fetched>, outcome: WriteOutcome, now: int): State
    requires Busy(s, batch)
  {
    var s1 := s.(rows := if outcome.Rejected? then s.rows else Retried(s.rows, batch[0]));
    if !outcome.Written? then PollTo(s1, p, Finished)
    else PollTo(s1.(breaker := Checked(s.breaker, now)), p,
                if s.breaker.failures >= THRESHOLD then Finished else PollAt(batch[1..]))
  }

  // ---------------------------------------------------------------- steps of a reaper

  /** One transaction terminates the session and writes its row. */
  function SessionTerminated(s: State, r: nat, left: seq<string>, outcome: WriteOutcome): State
    requires left != []
  {
    if outcome.Rejected? then ReapTo(s, r, Terminating(left[1..]))
    else
      var row := |s.rows|;
      var s1 := s.(sessions := s.sessions[left[0] := Terminated],
                   rows := s.rows + [NewRow(Payload(SessionEnded(ByExpiry), left[0]))],
                   reaped := s.reaped[left[0] := row]);
      ReapTo(s1, r, if outcome.Written? then EmittingEnd(row, left[1..]) else Terminating(left[1..]))
  }

  function EndEmitted(s: State, r: nat, row: nat, left: seq<string>, sent: Sent): State {
    ReapTo(s.(kafka := Add(s.kafka, row, sent)), r,
           if sent.Accepted? then PublishingEnd(row, left) else Terminating(left))
  }

  function EndPublished(s: State, r: nat, row: nat, left: seq<string>, sent: Sent): State {
    ReapTo(s.(rabbit := Add(s.rabbit, row, sent)), r,
           if sent.Accepted? then MarkingEnd(row, left) else Terminating(left))
  }

  function EndMarked(s: State, r: nat, row: nat, left: seq<string>, outcome: WriteOutcome): State
    requires row < |s.rows|
  {
    ReapTo(s.(rows := Mark(s.rows, row, outcome), vouchers := Vouch(s.vouchers, row, outcome)), r, Terminating(left))
  }

  // ---------------------------------------------------------------- steps of a request

  /** What the transaction of a request does to its session. */
  function SessionsAfter(sessions: map<string, Status>, payload: Payload): map<string, Status> {
    match payload.kind
    case SessionStarted => sessions[payload.session := Active]
    case SessionEnded(_) => if payload.session in sessions then sessions[payload.session := Terminated] else sessions
    case Other => sessions
  }

  function Begun(s: State, w: nat, payload: Payload, outcome: WriteOutcome): State {
    if outcome.Rejected? then WriterTo(s, w, Done)
    else WriterTo(s.(rows := s.rows + [NewRow(payload)], sessions := SessionsAfter(s.sessions, payload)), w,
                  if outcome.Written? then Sending(|s.rows|) else Done)
  }

  function HandedOver(s: State, w: nat, row: nat, sent: Sent): State {
    WriterTo(s.(kafka := Add(s.kafka, row, sent)), w, if sent.Accepted? then Forwarding(row) else Done)
  }

  function Forwarded(s: State, w: nat, row: nat, sent: Sent): State {
    WriterTo(s.(rabbit := Add(s.rabbit, row, sent)), w, if sent.Accepted? then Settling(row) else Done)
  }

  function MarkedAlike(s: State, w: nat, row: nat, outcome: WriteOutcome): State
    requires row < |s.rows|
  {
    WriterTo(s.(rows := MarkAlike(s.rows, s.rows[row].payload, outcome),
                vouchers := VouchAlike(s.vouchers, s.rows, row, outcome)), w, Done)
  }

  ghost predicate Init(s: State) {
    && s.rows == [] && s.kafka == {} && s.rabbit == {} && s.breaker == FRESH
    && s.sessions == map[] && s.reaped == map[] && s.vouchers == map[]
    && s.polls == map[] && s.reapers == map[] && s.writers == map[]
  }

  ghost predicate PollNext(s: State, a: Action, s': State)
    requires a.OfPoll()
  {
    var p := a.poll;
    if a.PollBegin? then
      p !in s.polls && !IsOpen(s.breaker, a.now) && s' == PollTo(s, p, Fetching)
    else if p !in s.polls || s.polls[p].Finished? then
      false
    else if a.PollFetch? then
      s.polls[p].Fetching? && s' == PollTo(s, p, if a.answered then PollAt(Fetch(s.rows)) else Finished)
    else
      !s.polls[p].Fetching? && BatchNext(s, a, s.polls[p], s')
  }

  ghost predicate BatchNext(s: State, a: Action, poll: Poll, s': State)
    requires a.OfPoll() && !a.PollBegin? && !a.PollFetch? && !poll.Fetching? && !poll.Finished?
  {
    var p, batch := a.poll, poll.batch;
    && Busy(s, batch)
    && var other := s.rows[batch[0].id].payload.kind.Other?;
       match a
       case PollEmit(_, sent) => poll.Emitting? && !other && s' == Emitted(s, p, batch, sent)
       case PollSkip(_) => poll.Emitting? && other && s' == PollTo(s, p, Marking(batch))
       case PollPublish(_, sent) => poll.Publishing? && s' == Published(s, p, batch, sent)
       case PollMark(_, outcome) => poll.Marking? && s' == Marked(s, p, batch, outcome)
       case PollCount(_, outcome, now) => poll.Counting? && s' == WrittenBack(s, p, batch, outcome, now)
  }

  ghost predicate ReaperNext(s: State, a: Action, s': State)
    requires a.OfReaper()
  {
    var r := a.reaper;
    if a.ReapBegin? then
      && r !in s.reapers && (forall e :: e in a.expired ==> e in s.sessions && s.sessions[e].Active?)
      && s' == ReapTo(s, r, Terminating(a.expired))
    else
      && r in s.reapers
      && var reaper := s.reapers[r];
         match a
         case ReapTerminate(_, outcome) =>
           reaper.Terminating? && reaper.left != [] && s' == SessionTerminated(s, r, reaper.left, outcome)
         case ReapEmit(_, sent) => reaper.EmittingEnd? && s' == EndEmitted(s, r, reaper.row, reaper.left, sent)
         case ReapPublish(_, sent) => reaper.PublishingEnd? && s' == EndPublished(s, r, reaper.row, reaper.left, sent)
         case ReapMark(_, outcome) =>
           reaper.MarkingEnd? && reaper.row < |s.rows| && s' == EndMarked(s, r, reaper.row, reaper.left, outcome)
  }

  ghost predicate WriterNext(s: State, a: Action, s': State)
    requires a.OfWriter()
  {
    var w := a.writer;
    if a.WriterBegin? then
      && w !in s.writers && s' == Begun(s, w, a.payload, a.outcome)
      && match a.payload.kind
         case SessionStarted => a.payload.session !in s.sessions
         case SessionEnded(reason) => reason.ByUser?
         case Other => false
    else
      && w in s.writers
      && var writer := s.writers[w];
         match a
         case WriterEmit(_, sent) => writer.Sending? && s' == HandedOver(s, w, writer.row, sent)
         case WriterPublish(_, sent) => writer.Forwarding? && s' == Forwarded(s, w, writer.row, sent)
         case WriterMark(_, outcome) =>
           writer.Settling? && writer.row < |s.rows| && s' == MarkedAlike(s, w, writer.row, outcome)
  }

  ghost predicate WorldNext(s: State, a: Action, s': State) {
    match a
    case Insert(payload) => payload.kind.Other? && s' == s.(rows := s.rows + [NewRow(payload)])
    case KafkaAcceptsLate(row) => s' == s.(kafka := s.kafka + {row})
    case RabbitAcceptsLate(row) => s' == s.(rabbit := s.rabbit + {row})
    case Restart => s' == s.(polls := map[], reapers := map[], writers := map[], breaker := FRESH)
    case _ => false
  }

  ghost predicate Next(s: State, a: Action, s': State) {
    if a.OfPoll() then PollNext(s, a, s')
    else if a.OfReaper() then ReaperNext(s, a, s')
    else if a.OfWriter() then WriterNext(s, a, s')
    else WorldNext(s, a, s')
  }

  // ---------------------------------------------------------------- invariants

  predicate BothAccepted(s: State, row: nat) { row in s.kafka && row in s.rabbit }

  /** Both brokers accepted the event of row `j`, which is the event of row `i`. */
  predicate Vouches(s: State, j: nat, i: nat) {
    && i < |s.rows|
    && j < |s.rows| && s.rows[j].payload == s.rows[i].payload && BothAccepted(s, j)
  }

  /**
    A failed row is one that used up its retries, and a processed session row has had its event accepted
    by both brokers.
    */
  ghost predicate RowTrue(s: State, i: nat) {
    && i < |s.rows|
    && s.rows[i].retryCount <= MAX_RETRIES && (s.rows[i].failed <==> s.rows[i].retryCount == MAX_RETRIES)
    && (s.rows[i].processed && !s.rows[i].payload.kind.Other? ==> i in s.vouchers && Vouches(s, s.vouchers[i], i))
    && (s.rows[i].processed && ByReaper(s.rows[i]) ==> BothAccepted(s, i))
  }

  /** Only reapers write such rows. */
  predicate ByReaper(row: Row<Payload>) { row.payload.kind == SessionEnded(ByExpiry) }

  /** A fetched batch names rows that were still retriable. */
  ghost predicate BatchTrue(rows: Rows, batch: seq<Fetched>) {
    forall p :: 0 <= p < |batch| ==> batch[p].id < |rows| && batch[p].retryCount < MAX_RETRIES
  }

  ghost predicate PollTrue(s: State, p: nat) {
    && p in s.polls
    && match s.polls[p]
       case Fetching => true
       case Finished => true
       case Emitting(batch) => BatchTrue(s.rows, batch) && batch != []
       case Counting(batch) => BatchTrue(s.rows, batch) && batch != []
       case Publishing(batch) => BatchTrue(s.rows, batch) && batch != [] && batch[0].id in s.kafka
       case Marking(batch) =>
         && BatchTrue(s.rows, batch) && batch != []
         && (s.rows[batch[0].id].payload.kind.Other? || BothAccepted(s, batch[0].id))
  }

  ghost predicate ReaperTrue(s: State, r: nat) {
    && r in s.reapers
    && match s.reapers[r]
       case Terminating(_) => true
       case EmittingEnd(row, _) => row < |s.rows|
       case PublishingEnd(row, _) => row < |s.rows| && row in s.kafka
       case MarkingEnd(row, _) => row < |s.rows| && BothAccepted(s, row)
  }

  ghost predicate WriterTrue(s: State, w: nat) {
    && w in s.writers
    && match s.writers[w]
       case Sending(row) => Requested(s.rows, row)
       case Forwarding(row) => Requested(s.rows, row) && row in s.kafka
       case Settling(row) => Requested(s.rows, row) && BothAccepted(s, row)
       case Done => true
  }

  /** The row is there and not one that only reapers write. */
  predicate Requested(rows: Rows, row: nat) { row < |rows| && !ByReaper(rows[row]) }

  ghost predicate ReapedTrue(s: State, id: string) {
    && id in s.reaped
    && id in s.sessions && s.sessions[id].Terminated?
    && s.reaped[id] < |s.rows| && s.rows[s.reaped[id]].payload == Payload(SessionEnded(ByExpiry), id)
  }

  ghost predicate RowsTrue(s: State) { forall i :: 0 <= i < |s.rows| ==> RowTrue(s, i) }
  ghost predicate PollsTrue(s: State) { forall p :: p in s.polls ==> PollTrue(s, p) }
  ghost predicate ReapersTrue(s: State) { forall r :: r in s.reapers ==> ReaperTrue(s, r) }
  ghost predicate WritersTrue(s: State) { forall w :: w in s.writers ==> WriterTrue(s, w) }
  ghost predicate AllReapedTrue(s: State) { forall id :: id in s.reaped ==> ReapedTrue(s, id) }

  ghost predicate Inv(s: State) { RowsTrue(s) && PollsTrue(s) && ReapersTrue(s) && WritersTrue(s) && AllReapedTrue(s) }

  /** Rows keep their payload; deliveries, acceptances and terminations are for good. */
  ghost predicate Grown(s: State, s': State) {
    && |s.rows| <= |s'.rows|
    && (forall i :: 0 <= i < |s.rows| ==>
          s'.rows[i].payload == s.rows[i].payload && (s.rows[i].processed ==> s'.rows[i].processed))
    && s.kafka <= s'.kafka && s.rabbit <= s'.rabbit
    && (forall id :: id in s.sessions && s.sessions[id].Terminated? ==>
          id in s'.sessions && s'.sessions[id].Terminated?)
  }

  lemma GrownKeepsPoll(s: State, s': State, p: nat)
    requires Grown(s, s') && p in s.polls && PollTrue(s, p) && p in s'.polls && s'.polls[p] == s.polls[p]
    ensures PollTrue(s', p)
  {}

  lemma GrownKeepsReaper(s: State, s': State, r: nat)
    requires Grown(s, s') && r in s.reapers && ReaperTrue(s, r) && r in s'.reapers && s'.reapers[r] == s.reapers[r]
    ensures ReaperTrue(s', r)
  {}

  lemma GrownKeepsWriter(s: State, s': State, w: nat)
    requires Grown(s, s') && w in s.writers && WriterTrue(s, w) && w in s'.writers && s'.writers[w] == s.writers[w]
    ensures WriterTrue(s', w)
  {}

  lemma GrownKeepsReaped(s: State, s': State, id: string)
    requires Grown(s, s') && id in s.reaped && ReapedTrue(s, id) && id in s'.reaped && s'.reaped[id] == s.reaped[id]
    ensures ReapedTrue(s', id)
  {}

  // ---- polls

  /** A step of poll `p` that keeps everything: its own stage, the rows, and all it does not touch. */
  ghost predicate PollKept(s: State, p: nat, s': State) {
    && Grown(s, s') && s'.reapers == s.reapers && s'.writers == s.writers && s'.reaped == s.reaped && RowsTrue(s')
    && s'.polls.Keys == s.polls.Keys + {p} && PollTrue(s', p)
    && (forall q :: q in s.polls && q != p ==> s'.polls[q] == s.polls[q])
  }

  lemma FetchKeeps(s: State, p: nat, answered: bool)
    requires RowsTrue(s)
    ensures PollKept(s, p, PollTo(s, p, if answered then PollAt(Fetch(s.rows)) else Finished))
  {
    var s' := PollTo(s, p, if answered then PollAt(Fetch(s.rows)) else Finished);
    forall i | 0 <= i < |s'.rows| ensures RowTrue(s', i) { assert RowTrue(s, i); }
    FetchIsInOrder(s.rows, 0, BATCH_SIZE);
    forall k | 0 <= k < |Fetch(s.rows)| ensures Fetch(s.rows)[k].retryCount < MAX_RETRIES {
      assert RowTrue(s, Fetch(s.rows)[k].id);
    }
  }

  lemma EmitKeeps(s: State, p: nat, batch: seq<Fetched>, sent: Sent)
    requires RowsTrue(s) && batch != [] && BatchTrue(s.rows, batch)
    ensures PollKept(s, p, Emitted(s, p, batch, sent))
  {
    var s' := Emitted(s, p, batch, sent);
    forall i | 0 <= i < |s'.rows| ensures RowTrue(s', i) { assert RowTrue(s, i); }
  }

  lemma PublishKeeps(s: State, p: nat, batch: seq<Fetched>, sent: Sent)
    requires RowsTrue(s) && batch != [] && BatchTrue(s.rows, batch) && batch[0].id in s.kafka
    ensures PollKept(s, p, Published(s, p, batch, sent))
  {
    var s' := Published(s, p, batch, sent);
    forall i | 0 <= i < |s'.rows| ensures RowTrue(s', i) { assert RowTrue(s, i); }
  }

  lemma MarkKeeps(s: State, p: nat, batch: seq<Fetched>, outcome: WriteOutcome)
    requires RowsTrue(s) && batch != [] && BatchTrue(s.rows, batch)
    requires s.rows[batch[0].id].payload.kind.Other? || BothAccepted(s, batch[0].id)
    ensures PollKept(s, p, Marked(s, p, batch, outcome))
  {
    var s' := Marked(s, p, batch, outcome);
    forall i | 0 <= i < |s'.rows| ensures RowTrue(s', i) { assert RowTrue(s, i); }
  }

  lemma WriteBackKeeps(s: State, p: nat, batch: seq<Fetched>, outcome: WriteOutcome, now: int)
    requires RowsTrue(s) && batch != [] && BatchTrue(s.rows, batch)
    ensures PollKept(s, p, WrittenBack(s, p, batch, outcome, now))
  {
    var s' := WrittenBack(s, p, batch, outcome, now);
    forall i | 0 <= i < |s'.rows| ensures RowTrue(s', i) { assert RowTrue(s, i); }
  }

  lemma BatchKeeps(s: State, a: Action, poll: Poll, s': State)
    requires a.OfPoll() && !a.PollBegin? && !a.PollFetch? && !poll.Fetching? && !poll.Finished?
    requires RowsTrue(s) && a.poll in s.polls && s.polls[a.poll] == poll
    requires PollTrue(s, a.poll) && BatchNext(s, a, poll, s')
    ensures PollKept(s, a.poll, s')
  {
    match a
    case PollEmit(p, sent) => EmitKeeps(s, p, poll.batch, sent);
    case PollSkip(p) => forall i | 0 <= i < |s'.rows| ensures RowTrue(s', i) { assert RowTrue(s, i); }
    case PollPublish(p, sent) => PublishKeeps(s, p, poll.batch, sent);
    case PollMark(p, outcome) => MarkKeeps(s, p, poll.batch, outcome);
    case PollCount(p, outcome, now) => WriteBackKeeps(s, p, poll.batch, outcome, now);
  }

  lemma PollKeeps(s: State, a: Action, s': State)
    requires Inv(s) && a.OfPoll() && PollNext(s, a, s')
    ensures PollKept(s, a.poll, s')
  {
    if a.PollBegin? {
      forall i | 0 <= i < |s'.rows| ensures RowTrue(s', i) { assert RowTrue(s, i); }
    } else if a.PollFetch? {
      FetchKeeps(s, a.poll, a.answered);
    } else {
      BatchKeeps(s, a, s.polls[a.poll], s');
    }
  }

  lemma PollKeepsInv(s: State, a: Action, s': State)
    requires Inv(s) && a.OfPoll() && PollNext(s, a, s')
    ensures Inv(s')
  {
    PollKeeps(s, a, s');
    forall p | p in s'.polls ensures PollTrue(s', p) {
      if p != a.poll { GrownKeepsPoll(s, s', p); }
    }
    forall r | r in s'.reapers ensures ReaperTrue(s', r) { GrownKeepsReaper(s, s', r); }
    forall w | w in s'.writers ensures WriterTrue(s', w) { GrownKeepsWriter(s, s', w); }
    forall id | id in s'.reaped ensures ReapedTrue(s', id) { GrownKeepsReaped(s, s', id); }
  }

  // ---- reapers

  lemma TerminationGrows(s: State, r: nat, left: seq<string>, outcome: WriteOutcome)
    requires left != []
    ensures Grown(s, SessionTerminated(s, r, left, outcome))
  {}

  lemma EndMarkGrows(s: State, r: nat, row: nat, left: seq<string>, outcome: WriteOutcome)
    requires row < |s.rows|
    ensures Grown(s, EndMarked(s, r, row, left, outcome))
  {}

  lemma ReaperFrame(s: State, a: Action, s': State)
    requires a.OfReaper() && ReaperNext(s, a, s')
    ensures Grown(s, s') && s'.polls == s.polls && s'.writers == s.writers
    ensures forall r :: r in s'.reapers && r != a.reaper ==> r in s.reapers && s'.reapers[r] == s.reapers[r]
  {
    match a
    case ReapTerminate(r, outcome) => TerminationGrows(s, r, s.reapers[r].left, outcome);
    case ReapMark(r, outcome) => EndMarkGrows(s, r, s.reapers[r].row, s.reapers[r].left, outcome);
    case _ =>
  }

  lemma ReaperKeepsRow(s: State, a: Action, s': State, i: nat)
    requires Inv(s) && a.OfReaper() && ReaperNext(s, a, s') && i < |s'.rows|
    ensures RowTrue(s', i)
  {
    if i < |s.rows| { assert RowTrue(s, i); }
    if !a.ReapBegin? { assert ReaperTrue(s, a.reaper); }
  }

  lemma ReaperKeepsItself(s: State, a: Action, s': State)
    requires Inv(s) && a.OfReaper() && ReaperNext(s, a, s')
    ensures a.reaper in s'.reapers && ReaperTrue(s', a.reaper)
  {
    if !a.ReapBegin? { assert ReaperTrue(s, a.reaper); }
  }

  lemma TerminationKeepsReaped(s: State, r: nat, left: seq<string>, outcome: WriteOutcome, id: string)
    requires AllReapedTrue(s) && left != [] && id in SessionTerminated(s, r, left, outcome).reaped
    ensures ReapedTrue(SessionTerminated(s, r, left, outcome), id)
  {
    if id in s.reaped { assert ReapedTrue(s, id); }
  }

  lemma OthersKeepReaped(s: State, a: Action, s': State)
    requires a.OfReaper() && ReaperNext(s, a, s') && !a.ReapTerminate?
    ensures s'.reaped == s.reaped
  {}

  lemma ReaperKeepsReaped(s: State, a: Action, s': State, id: string)
    requires Inv(s) && a.OfReaper() && ReaperNext(s, a, s') && Grown(s, s') && id in s'.reaped
    ensures ReapedTrue(s', id)
  {
    if a.ReapTerminate? {
      TerminationKeepsReaped(s, a.reaper, s.reapers[a.reaper].left, a.outcome, id);
    } else {
      OthersKeepReaped(s, a, s');
      GrownKeepsReaped(s, s', id);
    }
  }

  lemma ReaperKeepsInv(s: State, a: Action, s': State)
    requires Inv(s) && a.OfReaper() && ReaperNext(s, a, s')
    ensures Inv(s')
  {
    ReaperFrame(s, a, s');
    forall i | 0 <= i < |s'.rows| ensures RowTrue(s', i) { ReaperKeepsRow(s, a, s', i); }
    forall p | p in s'.polls ensures PollTrue(s', p) { GrownKeepsPoll(s, s', p); }
    forall r | r in s'.reapers ensures ReaperTrue(s', r) {
      if r == a.reaper { ReaperKeepsItself(s, a, s'); } else { GrownKeepsReaper(s, s', r); }
    }
    forall w | w in s'.writers ensures WriterTrue(s', w) { GrownKeepsWriter(s, s', w); }
    forall id | id in s'.reaped ensures ReapedTrue(s', id) { ReaperKeepsReaped(s, a, s', id); }
  }

  // ---- requests

  /** A step of request `w` that keeps everything: its own stage, the rows, and all it does not touch. */
  ghost predicate WriterKept(s: State, w: nat, s': State) {
    && Grown(s, s') && s'.polls == s.polls && s'.reapers == s.reapers && s'.reaped == s.reaped && RowsTrue(s')
    && s'.writers.Keys == s.writers.Keys + {w} && WriterTrue(s', w)
    && (forall v :: v in s.writers && v != w ==> s'.writers[v] == s.writers[v])
  }

  lemma BeginKeeps(s: State, w: nat, payload: Payload, outcome: WriteOutcome)
    requires RowsTrue(s) && payload.kind != SessionEnded(ByExpiry)
    requires payload.kind.SessionStarted? ==> payload.session !in s.sessions
    ensures WriterKept(s, w, Begun(s, w, payload, outcome))
  {
    var s' := Begun(s, w, payload, outcome);
    forall i | 0 <= i < |s'.rows| ensures RowTrue(s', i) {
      if i < |s.rows| { assert RowTrue(s, i); }
    }
  }

  lemma HandOverKeeps(s: State, w: nat, row: nat, sent: Sent)
    requires RowsTrue(s) && Requested(s.rows, row)
    ensures WriterKept(s, w, HandedOver(s, w, row, sent))
  {
    var s' := HandedOver(s, w, row, sent);
    forall i | 0 <= i < |s'.rows| ensures RowTrue(s', i) { assert RowTrue(s, i); }
  }

  lemma ForwardKeeps(s: State, w: nat, row: nat, sent: Sent)
    requires RowsTrue(s) && Requested(s.rows, row) && row in s.kafka
    ensures WriterKept(s, w, Forwarded(s, w, row, sent))
  {
    var s' := Forwarded(s, w, row, sent);
    forall i | 0 <= i < |s'.rows| ensures RowTrue(s', i) { assert RowTrue(s, i); }
  }

  lemma MarkAlikeKeepsRow(s: State, w: nat, row: nat, outcome: WriteOutcome, i: nat)
    requires RowsTrue(s) && Requested(s.rows, row) && BothAccepted(s, row) && i < |s.rows|
    ensures RowTrue(MarkedAlike(s, w, row, outcome), i)
  {
    assert RowTrue(s, i);
  }

  lemma MarkAlikeKeeps(s: State, w: nat, row: nat, outcome: WriteOutcome)
    requires RowsTrue(s) && Requested(s.rows, row) && BothAccepted(s, row)
    ensures WriterKept(s, w, MarkedAlike(s, w, row, outcome))
  {
    var s' := MarkedAlike(s, w, row, outcome);
    forall i | 0 <= i < |s'.rows| ensures RowTrue(s', i) { MarkAlikeKeepsRow(s, w, row, outcome, i); }
  }

  lemma WriterKeeps(s: State, a: Action, s': State)
    requires Inv(s) && a.OfWriter() && WriterNext(s, a, s')
    ensures WriterKept(s, a.writer, s')
  {
    if a.WriterBegin? {
      BeginKeeps(s, a.writer, a.payload, a.outcome);
    } else {
      assert WriterTrue(s, a.writer);
      var row := s.writers[a.writer].row;
      match a
      case WriterEmit(w, sent) => HandOverKeeps(s, w, row, sent);
      case WriterPublish(w, sent) => ForwardKeeps(s, w, row, sent);
      case WriterMark(w, outcome) => MarkAlikeKeeps(s, w, row, outcome);
    }
  }

  lemma WriterKeepsInv(s: State, a: Action, s': State)
    requires Inv(s) && a.OfWriter() && WriterNext(s, a, s')
    ensures Inv(s')
  {
    WriterKeeps(s, a, s');
    forall p | p in s'.polls ensures PollTrue(s', p) { GrownKeepsPoll(s, s', p); }
    forall r | r in s'.reapers ensures ReaperTrue(s', r) { GrownKeepsReaper(s, s', r); }
    forall w | w in s'.writers ensures WriterTrue(s', w) {
      if w != a.writer { GrownKeepsWriter(s, s', w); }
    }
    forall id | id in s'.reaped ensures ReapedTrue(s', id) { GrownKeepsReaped(s, s', id); }
  }

  // ---- everything else

  lemma WorldKeepsInv(s: State, a: Action, s': State)
    requires Inv(s) && WorldNext(s, a, s')
    ensures Inv(s')
  {
    forall i | 0 <= i < |s'.rows| ensures RowTrue(s', i) {
      if i < |s.rows| { assert RowTrue(s, i); }
    }
    forall p | p in s'.polls ensures PollTrue(s', p) { GrownKeepsPoll(s, s', p); }
    forall r | r in s'.reapers ensures ReaperTrue(s', r) { GrownKeepsReaper(s, s', r); }
    forall w | w in s'.writers ensures WriterTrue(s', w) { GrownKeepsWriter(s, s', w); }
    forall id | id in s'.reaped ensures ReapedTrue(s', id) { GrownKeepsReaped(s, s', id); }
  }

  lemma StepKeepsInv(s: State, a: Action, s': State)
    requires Inv(s) && Next(s, a, s')
    ensures Inv(s')
  {
    if a.OfPoll() { PollKeepsInv(s, a, s'); }
    else if a.OfReaper() { ReaperKeepsInv(s, a, s'); }
    else if a.OfWriter() { WriterKeepsInv(s, a, s'); }
    else { WorldKeepsInv(s, a, s'); }
  }

  lemma RunKeepsInv(states: seq<State>, actions: seq<Action>)
    requires IsRun(Init, Next, states, actions)
    ensures forall i :: 0 <= i < |states| ==> Inv(states[i])
  {
    forall s, a, s' | Inv(s) && Next(s, a, s') ensures Inv(s') { StepKeepsInv(s, a, s'); }
    Invariance(Init, Next, Inv, states, actions);
  }

  // ---------------------------------------------------------------- whole runs

  /** No other row has the payload of row `i`. */
  ghost predicate Alone(rows: Rows, i: nat) {
    && i < |rows|
    && forall j :: 0 <= j < |rows| && j != i ==> rows[j].payload != rows[i].payload
  }

  /**
    Over every interleaving: a session row marked processed has had its event accepted by Kafka and by
    RabbitMQ, as the event of some row with that payload, hence as its own if no other row has it, and
    always as its own if a reaper wrote it; and a row is failed exactly when its retry count is 5, stale
    write-backs notwithstanding.
    */
  lemma ProcessedMeansAccepted(states: seq<State>, actions: seq<Action>, n: nat, i: nat)
    requires IsRun(Init, Next, states, actions) && n < |states| && i < |states[n].rows|
    ensures
      var s := states[n];
      && (s.rows[i].processed && !s.rows[i].payload.kind.Other? ==> exists j :: 0 <= j < |s.rows| && Vouches(s, j, i))
      && (s.rows[i].processed && !s.rows[i].payload.kind.Other? && Alone(s.rows, i) ==> BothAccepted(s, i))
      && (s.rows[i].processed && ByReaper(s.rows[i]) ==> BothAccepted(s, i))
      && (s.rows[i].failed <==> s.rows[i].retryCount == MAX_RETRIES) && s.rows[i].retryCount <= MAX_RETRIES
  {
    RunKeepsInv(states, actions);
    assert RowTrue(states[n], i);
  }

  /**
    For every session terminated by a reaper, the row that the terminating transaction wrote is pending,
    failed, or delivered: both brokers have accepted its own event.
    */
  lemma ReapedSessionsAreAnnounced(states: seq<State>, actions: seq<Action>, n: nat, id: string)
    requires IsRun(Init, Next, states, actions) && n < |states| && id in states[n].reaped
    ensures
      var s, i := states[n], states[n].reaped[id];
      && id in s.sessions && s.sessions[id].Terminated?
      && i < |s.rows| && s.rows[i].payload == Payload(SessionEnded(ByExpiry), id)
      && (!s.rows[i].Settled() || s.rows[i].failed || BothAccepted(s, i))
  {
    RunKeepsInv(states, actions);
    assert ReapedTrue(states[n], id);
    assert RowTrue(states[n], states[n].reaped[id]);
  }

  // ---- what marks a row whose own event has not been accepted

  /** The step is a request's mark by payload, and the payload is that of row `i`. */
  predicate MarksAlike(s: State, a: Action, i: nat) {
    && i < |s.rows|
    && a.WriterMark? && !a.outcome.Rejected? && a.writer in s.writers && s.writers[a.writer].Settling?
    && s.writers[a.writer].row < |s.rows| && s.rows[s.writers[a.writer].row].payload == s.rows[i].payload
  }

  lemma PollsMarkAccepted(s: State, a: Action, s': State, i: nat)
    requires Inv(s) && a.OfPoll() && PollNext(s, a, s') && i < |s.rows|
    requires !s.rows[i].processed && !s.rows[i].payload.kind.Other?
    ensures i < |s'.rows| && (s'.rows[i].processed ==> BothAccepted(s', i))
  {
    if a.PollMark? {
      assert PollTrue(s, a.poll);
    } else if a.PollCount? {
      WriteBackMarksNothing(s, a.poll, s.polls[a.poll].batch, a.outcome, a.now, i);
    } else {
      PollLeavesRows(s, a, s');
    }
  }

  lemma WriteBackMarksNothing(s: State, p: nat, batch: seq<Fetched>, outcome: WriteOutcome, now: int, i: nat)
    requires Busy(s, batch) && i < |s.rows|
    ensures
      var s' := WrittenBack(s, p, batch, outcome, now);
      |s'.rows| == |s.rows| && s'.rows[i].processed == s.rows[i].processed
  {}

  lemma ReapersMarkAccepted(s: State, a: Action, s': State, i: nat)
    requires Inv(s) && a.OfReaper() && ReaperNext(s, a, s') && i < |s.rows| && !s.rows[i].processed
    ensures i < |s'.rows| && (s'.rows[i].processed ==> BothAccepted(s', i))
  {
    if !a.ReapBegin? { assert ReaperTrue(s, a.reaper); }
  }

  lemma RequestsMarkExactly(s: State, a: Action, s': State, i: nat)
    requires Inv(s) && a.OfWriter() && WriterNext(s, a, s') && i < |s.rows| && !s.rows[i].processed
    ensures i < |s'.rows| && (s'.rows[i].processed <==> MarksAlike(s, a, i))
    ensures a.WriterMark? ==> (BothAccepted(s', i) <==> BothAccepted(s, i))
  {
    if !a.WriterBegin? { assert WriterTrue(s, a.writer); }
  }

  lemma WorldMarksNothing(s: State, a: Action, s': State, i: nat)
    requires WorldNext(s, a, s') && i < |s.rows|
    ensures i < |s'.rows| && s'.rows[i].processed == s.rows[i].processed
  {}

  /**
    A session row becomes processed without its own event accepted by exactly one thing: a request that
    has had the event of a row with the same payload accepted marks by that payload.
    */
  lemma MarkedUnacceptedExactly(s: State, a: Action, s': State, i: nat)
    requires Inv(s) && Next(s, a, s') && i < |s.rows|
    requires !s.rows[i].processed && !s.rows[i].payload.kind.Other?
    ensures i < |s'.rows|
    ensures s'.rows[i].processed && !BothAccepted(s', i) <==> MarksAlike(s, a, i) && !BothAccepted(s, i)
  {
    if a.OfPoll() { PollsMarkAccepted(s, a, s', i); }
    else if a.OfReaper() { ReapersMarkAccepted(s, a, s', i); }
    else if a.OfWriter() { RequestsMarkExactly(s, a, s', i); }
    else { WorldMarksNothing(s, a, s', i); }
  }

  lemma StepGrows(s: State, a: Action, s': State)
    requires Inv(s) && Next(s, a, s')
    ensures Grown(s, s')
  {
    if a.OfPoll() { PollKeeps(s, a, s'); }
    else if a.OfReaper() { ReaperFrame(s, a, s'); }
    else if a.OfWriter() { WriterKeeps(s, a, s'); }
  }

  /** Nothing that any poll or reaper does undoes a delivery, an acceptance or a termination. */
  lemma ProcessedIsForGood(states: seq<State>, actions: seq<Action>, i: nat, j: nat)
    requires IsRun(Init, Next, states, actions) && i <= j < |states|
    ensures Grown(states[i], states[j])
  {
    RunKeepsInv(states, actions);
    forall k | 0 <= k < |actions| ensures Grown(states[k], states[k + 1]) {
      StepGrows(states[k], actions[k], states[k + 1]);
    }
    Monotonicity(Init, Next, Grown, states, actions, i, j);
  }

  lemma NewRowsArePending(s: State, a: Action, s': State, i: nat)
    requires Next(s, a, s') && |s.rows| <= i < |s'.rows|
    ensures !s'.rows[i].processed
  {
    if a.OfPoll() { PollsAddNothing(s, a, s'); }
  }

  lemma PollsAddNothing(s: State, a: Action, s': State)
    requires a.OfPoll() && PollNext(s, a, s')
    ensures |s'.rows| == |s.rows|
  {
    if !a.PollMark? && !a.PollCount? { PollLeavesRows(s, a, s'); }
  }

  /** The step marks row `i`, pending until then, for another row with its payload. */
  predicate MarksForAnother(s: State, a: Action, i: nat) {
    i < |s.rows| && !s.rows[i].processed && MarksAlike(s, a, i)
  }

  lemma StepMarksForAnother(s: State, a: Action, s': State, i: nat)
    requires Inv(s) && Next(s, a, s') && i < |s.rows| && !s.rows[i].payload.kind.Other?
    ensures i < |s'.rows| && s'.rows[i].payload == s.rows[i].payload && (BothAccepted(s, i) ==> BothAccepted(s', i))
    ensures !BothAccepted(s', i) ==> (s'.rows[i].processed <==> s.rows[i].processed || MarksForAnother(s, a, i))
  {
    StepGrows(s, a, s');
    if !s.rows[i].processed { MarkedUnacceptedExactly(s, a, s', i); }
  }

  /** One of the first `n` steps did so. */
  ghost predicate MarkedForAnother(states: seq<State>, actions: seq<Action>, n: nat, i: nat) {
    && n <= |actions| <= |states|
    && exists k :: 0 <= k < n && MarksForAnother(states[k], actions[k], i)
  }

  lemma NotBeforeItIsThere(states: seq<State>, actions: seq<Action>, n: nat, i: nat)
    requires IsRun(Init, Next, states, actions) && n < |states| && |states[n].rows| <= i
    ensures !MarkedForAnother(states, actions, n, i)
  {
    forall k | 0 <= k < n ensures !MarksForAnother(states[k], actions[k], i) {
      ProcessedIsForGood(states, actions, k, n);
    }
  }

  /**
    Over every interleaving: a session row whose own event has not been accepted is processed exactly if
    some step of the run marked it, by payload, for another row.
    */
  lemma {:induction false} UnacceptedExactly(states: seq<State>, actions: seq<Action>, n: nat, i: nat)
    requires IsRun(Init, Next, states, actions) && n < |states| && i < |states[n].rows|
    requires !states[n].rows[i].payload.kind.Other? && !BothAccepted(states[n], i)
    ensures states[n].rows[i].processed <==> MarkedForAnother(states, actions, n, i)
  {
    assert n > 0 by { assert Init(states[0]); }
    var s, a, s' := states[n - 1], actions[n - 1], states[n];
    assert Next(s, a, states[n - 1 + 1]) && Inv(s) by { RunKeepsInv(states, actions); }
    if i < |s.rows| {
      PayloadKept(s, a, s', i);
      StepMarksForAnother(s, a, s', i);
      UnacceptedExactly(states, actions, n - 1, i);
    } else {
      NewRowsArePending(s, a, s', i);
      NotBeforeItIsThere(states, actions, n - 1, i);
    }
  }

  lemma PayloadKept(s: State, a: Action, s': State, i: nat)
    requires Inv(s) && Next(s, a, s') && i < |s.rows|
    ensures i < |s'.rows| && s'.rows[i].payload == s.rows[i].payload
  {
    StepGrows(s, a, s');
  }

  /** What a step does to the breaker; overlapping polls put other steps between a count and its check. */
  function EventsOf(a: Action): seq<Event> {
    match a
    case PollEmit(_, sent) => if sent.Accepted? then [] else [Count]
    case PollPublish(_, sent) => if sent.Accepted? then [] else [Count]
    case PollMark(_, outcome) => if outcome.Written? then [Deliver] else [Count]
    case PollCount(_, outcome, now) => if outcome.Written? then [Check(now)] else []
    case _ => []
  }

  /** All that happened to the breaker in the first `n` steps of a run, since the last restart. */
  function History(actions: seq<Action>, n: nat): seq<Event>
    requires n <= |actions|
  {
    if n == 0 || actions[n - 1].Restart? then [] else History(actions, n - 1) + EventsOf(actions[n - 1])
  }

  lemma OnlyPollsTouchTheBreaker(s: State, a: Action, s': State)
    requires Next(s, a, s') && !a.OfPoll() && !a.Restart?
    ensures s'.breaker == s.breaker && EventsOf(a) == []
  {}

  lemma PollTouchesTheBreaker(s: State, a: Action, s': State)
    requires a.OfPoll() && PollNext(s, a, s')
    ensures EventsOf(a) == [] ==> s'.breaker == s.breaker
    ensures forall e :: EventsOf(a) == [e] ==> s'.breaker == CircuitBreaker.Step(s.breaker, e)
  {}

  lemma StepIsReplayed(s: State, a: Action, s': State, events: seq<Event>)
    requires Next(s, a, s') && s.breaker == Replay(events) && !a.Restart?
    ensures s'.breaker == Replay(events + EventsOf(a))
  {
    if a.OfPoll() { PollTouchesTheBreaker(s, a, s'); } else { OnlyPollsTouchTheBreaker(s, a, s'); }
    if EventsOf(a) == [] {
      assert events + [] == events;
    } else {
      ReplayAppend(events, EventsOf(a)[0]);
    }
  }

  lemma {:induction false} BreakerIsReplayed(states: seq<State>, actions: seq<Action>, n: nat)
    requires IsRun(Init, Next, states, actions) && n < |states|
    ensures states[n].breaker == Replay(History(actions, n))
  {
    if n == 0 {
      assert Init(states[0]);
    } else {
      assert Next(states[n - 1], actions[n - 1], states[n - 1 + 1]);
      if actions[n - 1].Restart? {
        RestartClosesTheBreaker(states[n - 1], states[n]);
      } else {
        BreakerIsReplayed(states, actions, n - 1);
        StepIsReplayed(states[n - 1], actions[n - 1], states[n], History(actions, n - 1));
      }
    }
  }

  lemma RestartClosesTheBreaker(s: State, s': State)
    requires Next(s, Restart, s')
    ensures s'.breaker == FRESH
  {}

  /**
    However polls overlap, the breaker is what the run's own history makes of it: the failures counted
    since the last delivery, the end of its last opening, and the term of the next, where the k-th opening
    since the last delivery, k from 0, lasts min(5000 * 2^k, 60000) ms.
    */
  lemma BreakerFollowsHistory(states: seq<State>, actions: seq<Action>, n: nat)
    requires IsRun(Init, Next, states, actions) && n < |states|
    ensures
      var h := History(actions, n);
      && states[n].breaker == Breaker(Failures(h), OpeningMs(|Openings(h)|), LastEnd(h))
      && forall k :: 0 <= k < |Openings(h)| ==> Openings(h)[k] == OpeningMs(k)
  {
    BreakerIsReplayed(states, actions, n);
    KthOpening(History(actions, n));
  }

  /** The step of a run that opens the breaker for the (k+1)-st time since the last delivery opens it for that long. */
  lemma OpensFor(states: seq<State>, actions: seq<Action>, n: nat)
    requires IsRun(Init, Next, states, actions) && n < |actions|
    requires actions[n].PollCount? && actions[n].outcome.Written? && Failures(History(actions, n)) >= 3
    ensures states[n + 1].breaker.openUntil == actions[n].now + OpeningMs(|Openings(History(actions, n))|)
  {
    BreakerFollowsHistory(states, actions, n);
    assert Next(states[n], actions[n], states[n + 1]);
    PollTouchesTheBreaker(states[n], actions[n], states[n + 1]);
    assert EventsOf(actions[n]) == [Check(actions[n].now)];
  }

  // ---------------------------------------------------------------- a poisoned row can come back

  ghost predicate Reachable(s: State) { Reached(Init, Next, s) }

  lemma Take(s: State, a: Action, s': State)
    requires Reachable(s) && Next(s, a, s')
    ensures Reachable(s')
  {
    ReachedNext(Init, Next, s, a, s');
  }

  const END := Payload(SessionEnded(ByUser), "session")

  /** Two requests to end one session, as when a client repeats it: two rows with one payload. */
  lemma TwoRequestsEnd() returns (s: State)
    ensures Reachable(s) && s.rows == [NewRow(END), NewRow(END)] && s.kafka == {} && s.vouchers == map[]
    ensures 0 in s.writers && s.writers[0] == Sending(0)
  {
    var s0 := State([], {}, {}, FRESH, map[], map[], map[], map[], map[], map[]);
    ReachedInitially(Init, Next, s0);
    var s1 := Begun(s0, 0, END, Written);
    Take(s0, WriterBegin(0, END, Written), s1);
    s := Begun(s1, 1, END, Written);
    Take(s1, WriterBegin(1, END, Written), s);
  }

  lemma FirstIsAccepted() returns (s: State)
    ensures Reachable(s) && s.rows == [NewRow(END), NewRow(END)] && s.kafka == {0} && s.rabbit >= {0}
    ensures 0 in s.writers && s.writers[0] == Settling(0)
  {
    var s0 := TwoRequestsEnd();
    var s1 := HandedOver(s0, 0, 0, Accepted);
    Take(s0, WriterEmit(0, Accepted), s1);
    s := Forwarded(s1, 0, 0, Accepted);
    Take(s1, WriterPublish(0, Accepted), s);
  }

  /** A row can be marked for the acceptance of another row's event: the first request marks the second's row too. */
  lemma MarkedForItsTwin() returns (s: State)
    ensures Reachable(s) && |s.rows| == 2 && s.rows[1].processed && 1 !in s.kafka && Vouches(s, 0, 1)
  {
    var s0 := FirstIsAccepted();
    s := MarkedAlike(s0, 0, 0, Written);
    Take(s0, WriterMark(0, Written), s);
  }

  const ONLY := Payload(SessionStarted, "session")

  /** Poll 0 failed to emit the only row and has yet to write back; polls 1..n failed on it and did. */
  ghost predicate Stale(s: State, n: nat) {
    && s.rows == [Row(ONLY, false, n, n >= MAX_RETRIES)]
    && (forall p :: p in s.polls ==> p <= n)
    && 0 in s.polls && s.polls[0] == Counting([Fetched(0, 0)])
  }

  lemma PollBegins() returns (s: State)
    ensures Reachable(s) && s.rows == [NewRow(ONLY)] && s.polls == map[0 := Fetching]
  {
    var s0 := State([], {}, {}, FRESH, map[], map[], map[], map[], map[], map[]);
    ReachedInitially(Init, Next, s0);
    var s1 := Begun(s0, 0, ONLY, Written);
    Take(s0, WriterBegin(0, ONLY, Written), s1);
    s := PollTo(s1, 0, Fetching);
    Take(s1, PollBegin(0, 0), s);
  }

  lemma StaleFirst() returns (s: State)
    ensures Reachable(s) && Stale(s, 0)
  {
    var s0 := PollBegins();
    assert PendingFrom(s0.rows, 0, BATCH_SIZE) == [Fetched(0, 0)];
    var s1 := PollTo(s0, 0, Emitting([Fetched(0, 0)]));
    Take(s0, PollFetch(0, true), s1);
    s := Emitted(s1, 0, [Fetched(0, 0)], Refused);
    Take(s1, PollEmit(0, Refused), s);
  }

  lemma StaleNext(s: State, n: nat) returns (s': State)
    requires Reachable(s) && Stale(s, n) && n < MAX_RETRIES
    ensures Reachable(s') && Stale(s', n + 1)
  {
    var p, now, batch := n + 1, s.breaker.openUntil, [Fetched(0, n)];
    var s1 := PollTo(s, p, Fetching);
    Take(s, PollBegin(p, now), s1);
    assert PendingFrom(s1.rows, 0, BATCH_SIZE) == batch;
    var s2 := PollTo(s1, p, Emitting(batch));
    Take(s1, PollFetch(p, true), s2);
    var s3 := Emitted(s2, p, batch, Refused);
    Take(s2, PollEmit(p, Refused), s3);
    s' := WrittenBack(s3, p, batch, Written, now);
    Take(s3, PollCount(p, Written, now), s');
  }

  /**
    Overlapping polls can undo a poison mark: a row that five polls brought to "failed" is pending
    again, with a retry count of 1, once a poll that fetched it before them writes back.
    */
  lemma PoisonIsNotForGood() returns (s: State, a: Action, s': State)
    ensures Reachable(s) && Next(s, a, s') && |s.rows| == |s'.rows| == 1
    ensures s.rows[0].failed && s.rows[0].retryCount == MAX_RETRIES
    ensures !s'.rows[0].Settled() && s'.rows[0].retryCount == 1
  {
    s := StaleFirst();
    var n := 0;
    while n < MAX_RETRIES
      invariant 0 <= n <= MAX_RETRIES && Reachable(s) && Stale(s, n)
    {
      s := StaleNext(s, n);
      n := n + 1;
    }
    a := PollCount(0, Written, 0);
    s' := WrittenBack(s, 0, [Fetched(0, 0)], Written, 0);
  }

  /** Row `i` is still there, with the retry count and poison mark it had. */
  predicate SameRetries(rows: Rows, rows': Rows, i: nat)
    requires i < |rows|
  {
    i < |rows'| && rows'[i].failed == rows[i].failed && rows'[i].retryCount == rows[i].retryCount
  }

  lemma MarkKeepsRetries(rows: Rows, row: nat, outcome: WriteOutcome, i: nat)
    requires row < |rows| && i < |rows|
    ensures SameRetries(rows, Mark(rows, row, outcome), i)
  {}

  lemma SendsLeaveRows(s: State, p: nat, batch: seq<Fetched>, sent: Sent)
    requires Busy(s, batch)
    ensures Emitted(s, p, batch, sent).rows == s.rows && Published(s, p, batch, sent).rows == s.rows
  {}

  lemma BatchLeavesRows(s: State, a: Action, poll: Poll, s': State)
    requires (a.PollEmit? || a.PollSkip? || a.PollPublish?) && !poll.Fetching?
    requires !poll.Finished? && BatchNext(s, a, poll, s')
    ensures s'.rows == s.rows
  {
    if !a.PollSkip? { SendsLeaveRows(s, a.poll, poll.batch, a.sent); }
  }

  lemma PollLeavesRows(s: State, a: Action, s': State)
    requires a.OfPoll() && PollNext(s, a, s') && !a.PollCount? && !a.PollMark?
    ensures s'.rows == s.rows
  {
    if !a.PollBegin? && !a.PollFetch? { BatchLeavesRows(s, a, s.polls[a.poll], s'); }
  }

  lemma PollKeepsRetries(s: State, a: Action, s': State, i: nat)
    requires a.OfPoll() && PollNext(s, a, s') && !a.PollCount? && i < |s.rows|
    ensures SameRetries(s.rows, s'.rows, i)
  {
    if a.PollMark? {
      MarkKeepsRetries(s.rows, s.polls[a.poll].batch[0].id, a.outcome, i);
    } else {
      PollLeavesRows(s, a, s');
    }
  }

  lemma ReaperKeepsRetries(s: State, a: Action, s': State, i: nat)
    requires a.OfReaper() && ReaperNext(s, a, s') && i < |s.rows|
    ensures SameRetries(s.rows, s'.rows, i)
  {}

  lemma WriterKeepsRetries(s: State, a: Action, s': State, i: nat)
    requires a.OfWriter() && WriterNext(s, a, s') && i < |s.rows|
    ensures SameRetries(s.rows, s'.rows, i)
  {}

  lemma WorldKeepsRetries(s: State, a: Action, s': State, i: nat)
    requires WorldNext(s, a, s') && i < |s.rows|
    ensures SameRetries(s.rows, s'.rows, i)
  {}

  lemma OnlyWriteBacksTouchRetries(s: State, a: Action, s': State, i: nat)
    requires Next(s, a, s') && !a.PollCount? && i < |s.rows|
    ensures SameRetries(s.rows, s'.rows, i)
  {
    if a.OfPoll() { PollKeepsRetries(s, a, s', i); }
    else if a.OfReaper() { ReaperKeepsRetries(s, a, s', i); }
    else if a.OfWriter() { WriterKeepsRetries(s, a, s', i); }
    else { WorldKeepsRetries(s, a, s', i); }
  }

  /** The step is a write-back of row `i` that takes effect. */
  predicate WritesBack(s: State, a: Action, i: nat) {
    && a.PollCount? && !a.outcome.Rejected? && a.poll in s.polls && s.polls[a.poll].Counting?
    && s.polls[a.poll].batch != [] && s.polls[a.poll].batch[0].id == i
  }

  /** A write-back sets the row to one more than the count fetched, failed from five on; nothing else touches either. */
  lemma RetriesExactly(s: State, a: Action, s': State, i: nat)
    requires Next(s, a, s') && i < |s.rows|
    ensures i < |s'.rows|
    ensures
      if WritesBack(s, a, i)
      then
        var retries := s.polls[a.poll].batch[0].retryCount + 1;
        s'.rows[i].retryCount == retries && (s'.rows[i].failed <==> retries >= 5)
      else s'.rows[i].retryCount == s.rows[i].retryCount && s'.rows[i].failed == s.rows[i].failed
  {
    if !a.PollCount? { OnlyWriteBacksTouchRetries(s, a, s', i); }
  }

  /** A poison mark is undone by exactly one thing: a write-back whose fetched count is below four. */
  lemma PoisonUndoneExactly(s: State, a: Action, s': State, i: nat)
    requires Inv(s) && Next(s, a, s') && i < |s.rows| && s.rows[i].failed
    ensures i < |s'.rows|
    ensures !s'.rows[i].failed <==>
      && a.PollCount? && !a.outcome.Rejected? && a.poll in s.polls && s.polls[a.poll].Counting?
      && s.polls[a.poll].batch[0].id == i && s.polls[a.poll].batch[0].retryCount + 1 < MAX_RETRIES
  {
    if a.PollCount? { assert PollTrue(s, a.poll); } else { OnlyWriteBacksTouchRetries(s, a, s', i); }
  }

  // ---------------------------------------------------------------- one poll without interference

  /** What brokers, database and clock answer while one event is delivered. */
  datatype Answer = Answer(emit: Sent, publish: Sent, mark: WriteOutcome, count: WriteOutcome, now: int)

  datatype Handled = Handled(rows: Rows, breaker: Breaker, goesOn: bool)

  predicate Accepts(row: Row<Payload>, io: Answer) {
    row.payload.kind.Other? || (io.emit.Accepted? && io.publish.Accepted?)
  }

  /** The table and breaker after one event of a batch, and whether the loop goes on. */
  function DeliverOne(rows: Rows, b: Breaker, f: Fetched, io: Answer): (h: Handled)
    requires f.id < |rows|
    ensures |h.rows| == |rows|
  {
    var accepted := Accepts(rows[f.id], io);
    var rows1 := if accepted then Mark(rows, f.id, io.mark) else rows;
    if accepted && io.mark.Written? then Handled(rows1, Delivered(b), true)
    else
      var rows2 := if io.count.Rejected? then rows1 else Retried(rows1, f);
      if io.count.Written? then Handled(rows2, Checked(Counted(b), io.now), Counted(b).failures < THRESHOLD)
      else Handled(rows2, Counted(b), false)
  }

  function MarkInSteps(s: State, p: nat, batch: seq<Fetched>, io: Answer): State
    requires Busy(s, batch)
  {
    var marked := Marked(s, p, batch, io.mark);
    if io.mark.Written? then marked else WrittenBack(marked, p, batch, io.count, io.now)
  }

  /** The same event taken through the machine's steps with nothing in between. */
  function DeliverInSteps(s: State, p: nat, batch: seq<Fetched>, io: Answer): State
    requires Busy(s, batch)
  {
    if s.rows[batch[0].id].payload.kind.Other? then MarkInSteps(PollTo(s, p, Marking(batch)), p, batch, io)
    else
      var emitted := Emitted(s, p, batch, io.emit);
      if !io.emit.Accepted? then WrittenBack(emitted, p, batch, io.count, io.now)
      else
        var published := Published(emitted, p, batch, io.publish);
        if !io.publish.Accepted? then WrittenBack(published, p, batch, io.count, io.now)
        else MarkInSteps(published, p, batch, io)
  }

  /** What the machine's steps for an event leave is what the loop body leaves. */
  ghost predicate AsLoop(s': State, p: nat, batch: seq<Fetched>, h: Handled)
    requires batch != []
  {
    && s'.rows == h.rows && s'.breaker == h.breaker
    && p in s'.polls && s'.polls[p] == if h.goesOn then PollAt(batch[1..]) else Finished
  }

  lemma WriteBackAgrees(s: State, p: nat, batch: seq<Fetched>, io: Answer)
    requires Busy(s, batch)
    ensures
      var rows := if io.count.Rejected? then s.rows else Retried(s.rows, batch[0]);
      AsLoop(WrittenBack(s, p, batch, io.count, io.now), p, batch,
             if io.count.Written? then Handled(rows, Checked(s.breaker, io.now), s.breaker.failures < THRESHOLD)
             else Handled(rows, s.breaker, false))
  {}

  lemma MarkAgrees(s: State, p: nat, batch: seq<Fetched>, io: Answer)
    requires Busy(s, batch) && Accepts(s.rows[batch[0].id], io)
    ensures AsLoop(MarkInSteps(s, p, batch, io), p, batch, DeliverOne(s.rows, s.breaker, batch[0], io))
  {
    var marked := Marked(s, p, batch, io.mark);
    assert marked.rows == Mark(s.rows, batch[0].id, io.mark);
    if !io.mark.Written? {
      assert marked.breaker == Counted(s.breaker);
      WriteBackAgrees(marked, p, batch, io);
    }
  }

  lemma EmitRefusalAgrees(s: State, p: nat, batch: seq<Fetched>, io: Answer)
    requires Busy(s, batch) && !s.rows[batch[0].id].payload.kind.Other? && !io.emit.Accepted?
    ensures AsLoop(WrittenBack(Emitted(s, p, batch, io.emit), p, batch, io.count, io.now), p, batch,
                   DeliverOne(s.rows, s.breaker, batch[0], io))
  {
    var s1 := Emitted(s, p, batch, io.emit);
    assert s1.rows == s.rows && s1.breaker == Counted(s.breaker);
    WriteBackAgrees(s1, p, batch, io);
  }

  lemma PublishRefusalAgrees(s: State, p: nat, batch: seq<Fetched>, io: Answer)
    requires Busy(s, batch) && !s.rows[batch[0].id].payload.kind.Other? && !io.publish.Accepted?
    ensures AsLoop(WrittenBack(Published(s, p, batch, io.publish), p, batch, io.count, io.now), p, batch,
                   DeliverOne(s.rows, s.breaker, batch[0], io))
  {
    var s1 := Published(s, p, batch, io.publish);
    assert s1.rows == s.rows && s1.breaker == Counted(s.breaker);
    WriteBackAgrees(s1, p, batch, io);
  }

  lemma DeliverIsSteps(s: State, p: nat, batch: seq<Fetched>, io: Answer)
    requires Busy(s, batch)
    ensures AsLoop(DeliverInSteps(s, p, batch, io), p, batch, DeliverOne(s.rows, s.breaker, batch[0], io))
  {
    if s.rows[batch[0].id].payload.kind.Other? {
      MarkAgrees(PollTo(s, p, Marking(batch)), p, batch, io);
    } else {
      var emitted := Emitted(s, p, batch, io.emit);
      if !io.emit.Accepted? {
        EmitRefusalAgrees(s, p, batch, io);
      } else if !io.publish.Accepted? {
        PublishRefusalAgrees(emitted, p, batch, io);
      } else {
        MarkAgrees(Published(emitted, p, batch, io.publish), p, batch, io);
      }
    }
  }

  function RunBatch(rows: Rows, b: Breaker, batch: seq<Fetched>, answers: seq<Answer>): (r: (Rows, Breaker))
    requires forall p :: 0 <= p < |batch| ==> batch[p].id < |rows|
    requires |answers| >= |batch|
    decreases |batch|
  {
    if batch == [] then (rows, b)
    else
      var h := DeliverOne(rows, b, batch[0], answers[0]);
      if h.goesOn then RunBatch(h.rows, h.breaker, batch[1..], answers[1..]) else (h.rows, h.breaker)
  }

  /** Everything asked while one event is delivered succeeds. */
  predicate Delivers(io: Answer) { io.emit.Accepted? && io.publish.Accepted? && io.mark.Written? }

  lemma {:induction false} BatchDelivers(rows: Rows, b: Breaker, batch: seq<Fetched>, answers: seq<Answer>, k: nat)
    requires (forall p :: 0 <= p < |batch| ==> batch[p].id < |rows|) && |answers| >= |batch| && k < |rows|
    requires forall a :: a in answers ==> Delivers(a)
    ensures |RunBatch(rows, b, batch, answers).0| == |rows|
    ensures RunBatch(rows, b, batch, answers).0[k] == if NamedIn(batch, k) then rows[k].(processed := true) else rows[k]
    decreases |batch|
  {
    if batch != [] {
      assert batch == [batch[0]] + batch[1..];
      NamedFirst(batch[0], batch[1..], k);
      var h := DeliverOne(rows, b, batch[0], answers[0]);
      assert Delivers(answers[0]) && h.rows == rows[batch[0].id := rows[batch[0].id].(processed := true)];
      BatchDelivers(h.rows, h.breaker, batch[1..], answers[1..], k);
    }
  }

  /**
    A poll for which everything succeeds processes exactly the pending rows that have fewer than ten
    pending rows before them, and leaves every other row as it was.
    */
  lemma PollDelivers(rows: Rows, b: Breaker, answers: seq<Answer>, k: nat)
    requires |answers| >= BATCH_SIZE && (forall a :: a in answers ==> Delivers(a)) && k < |rows|
    requires forall p :: 0 <= p < |Fetch(rows)| ==> Fetch(rows)[p].id < |rows|
    ensures k < |RunBatch(rows, b, Fetch(rows), answers).0|
    ensures RunBatch(rows, b, Fetch(rows), answers).0[k] ==
            if !rows[k].processed && !rows[k].failed && PendingBetween(rows, 0, k) < 10
            then rows[k].(processed := true) else rows[k]
  {
    BatchDelivers(rows, b, Fetch(rows), answers, k);
    FetchNamesExactly(rows, k);
  }

  class Poller {
    const circuit: Circuit
    var rows: Rows

    constructor ()
      ensures rows == [] && fresh(circuit) && circuit.View() == FRESH
    {
      circuit := new Circuit();
      rows := [];
    }

    /** One timer tick.  `fetched` tells whether the query itself succeeded. */
    method Poll(now: int, producerReady: bool, fetched: bool, answers: seq<Answer>)
      requires |answers| >= BATCH_SIZE
      modifies this, circuit
      ensures
        if IsOpen(old(circuit.View()), now) || !producerReady || !fetched
        then rows == old(rows) && circuit.View() == old(circuit.View())
        else
          && (forall p :: 0 <= p < |Fetch(old(rows))| ==> Fetch(old(rows))[p].id < |old(rows)|)
          && (rows, circuit.View()) == RunBatch(old(rows), old(circuit.View()), Fetch(old(rows)), answers)
    {
      if now < circuit.circuitOpenUntil || !producerReady { return; }
      if !fetched { return; }
      var events := Fetch(rows);
      FetchIsInOrder(rows, 0, BATCH_SIZE);
      DeliverAll(events, answers);
    }

    method DeliverAll(events: seq<Fetched>, answers: seq<Answer>)
      requires |events| <= |answers| && forall p :: 0 <= p < |events| ==> events[p].id < |rows|
      modifies this`rows, circuit
      ensures (rows, circuit.View()) == RunBatch(old(rows), old(circuit.View()), events, answers)
    {
      var i := 0;
      while i < |events|
        invariant 0 <= i <= |events| && |rows| == |old(rows)|
        invariant RunBatch(rows, circuit.View(), events[i..], answers[i..])
               == RunBatch(old(rows), old(circuit.View()), events, answers)
      {
        var goesOn := DeliverEvent(events[i], answers[i]);
        i := i + 1;
        if !goesOn { break; }
      }
    }

    /** The body of the loop over the fetched events. */
    method DeliverEvent(event: Fetched, io: Answer) returns (goesOn: bool)
      requires event.id < |rows|
      modifies this`rows, circuit
      ensures Handled(rows, circuit.View(), goesOn) == DeliverOne(old(rows), old(circuit.View()), event, io)
      ensures
        var row, was := old(rows[event.id]), old(circuit.View());
        var delivered := row.payload.kind.Other? || (io.emit.Accepted? && io.publish.Accepted?);
        && (delivered && io.mark.Written? ==>
              && goesOn && rows == old(rows)[event.id := row.(processed := true)]
              && circuit.View() == was.(failures := 0, backoffMs := 5000))
        && (!(delivered && io.mark.Written?) ==>
              var marked := row.(processed := row.processed || (delivered && !io.mark.Rejected?));
              var retries := event.retryCount + 1;
              && goesOn == (io.count.Written? && was.failures + 1 < 3)
              && rows == old(rows)[event.id := if io.count.Rejected? then marked
                                               else marked.(retryCount := retries, failed := retries >= 5)]
              && circuit.View() ==
                 if io.count.Written? && was.failures + 1 >= 3
                 then Breaker(was.failures + 1, Min(2 * was.backoffMs, 60000), io.now + was.backoffMs)
                 else was.(failures := was.failures + 1))
    {
      if rows[event.id].payload.kind.Other? || (io.emit.Accepted? && io.publish.Accepted?) {
        rows := Mark(rows, event.id, io.mark);
        if io.mark.Written? {
          circuit.Deliver();
          return true;
        }
      }
      goesOn := HandleFailure(event, io);
    }

    /** The catch block. */
    method HandleFailure(event: Fetched, io: Answer) returns (goesOn: bool)
      requires event.id < |rows|
      modifies this`rows, circuit
      ensures rows == if io.count.Rejected? then old(rows) else Retried(old(rows), event)
      ensures circuit.View() ==
              if io.count.Written? then Checked(Counted(old(circuit.View())), io.now) else Counted(old(circuit.View()))
      ensures goesOn == (io.count.Written? && old(circuit.View()).failures + 1 < 3)
    {
      circuit.Count();
      if !io.count.Rejected? { rows := Retried(rows, event); }
      if !io.count.Written? { return false; }
      var tripped := circuit.Check(io.now);
      return !tripped;
    }
  }
}
