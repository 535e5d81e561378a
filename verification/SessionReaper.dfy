/**
  The core service's session reaper: replicas tick independently, a Redis lock that is never released
  but expires after 90 seconds elects the one that reaps, and each cycle terminates at most 50 of the
  sessions whose time is up, writing an outbox row with each.
  */
module SessionReaper {
  import opened Numbers
  import opened Wrappers
  import opened OutboxTable
  import CoreOutbox

  const POLL_INTERVAL_MS: int := 60000
  const LOCK_TTL_MS: int := 90000
  const TAKE: nat := 50

  // ---------------------------------------------------------------- leadership

  /** The Redis key, by the instant at which it expires. */
  class LeaderLock {
    var expiresAt: Option<int>

    constructor ()
      ensures expiresAt == None
    {
      expiresAt := None;
    }

    /** SET key value EX 90 NX; no answer is an error, and the key may have been set all the same. */
    method TryAcquire(now: int, outcome: WriteOutcome) returns (acquired: Option<bool>)
      modifies this
      ensures
        var free := old(expiresAt).None? || now >= old(expiresAt).value;
        && acquired == (if outcome.Written? then Some(free) else None)
        && expiresAt == if free && !outcome.Rejected? then Some(now + 90000) else old(expiresAt)
    {
      var free := expiresAt.None? || now >= expiresAt.value;
      if free && !outcome.Rejected? { expiresAt := Some(now + LOCK_TTL_MS); }
      acquired := if outcome.Written? then Some(free) else None;
    }
  }

  predicate IsFree(expiresAt: Option<int>, now: int) { expiresAt.None? || now >= expiresAt.value }

  /** One try by some replica to become leader. */
  datatype Try = Try(at: int, outcome: WriteOutcome)

  /** When the key expires after the tries made so far, in order. */
  function Expiry(tries: seq<Try>): Option<int> {
    if tries == [] then None
    else
      var before, t := Expiry(tries[..|tries| - 1]), tries[|tries| - 1];
      if IsFree(before, t.at) && !t.outcome.Rejected? then Some(t.at + LOCK_TTL_MS) else before
  }

  /** The instants at which some replica becomes leader. */
  function Led(tries: seq<Try>): seq<int> {
    if tries == [] then []
    else
      var init, t := tries[..|tries| - 1], tries[|tries| - 1];
      if IsFree(Expiry(init), t.at) && t.outcome.Written? then Led(init) + [t.at] else Led(init)
  }

  method Elect(tries: seq<Try>) returns (led: seq<int>)
    ensures led == Led(tries)
  {
    var lock := new LeaderLock();
    led := [];
    for i := 0 to |tries|
      invariant led == Led(tries[..i]) && lock.expiresAt == Expiry(tries[..i])
    {
      var acquired := lock.TryAcquire(tries[i].at, tries[i].outcome);
      assert tries[..i + 1][..i] == tries[..i];
      if acquired == Some(true) { led := led + [tries[i].at]; }
    }
    assert tries[..|tries|] == tries;
  }

  lemma {:induction false} LedIsHeld(tries: seq<Try>, i: nat)
    requires i < |Led(tries)|
    ensures Expiry(tries).Some? && Led(tries)[i] + LOCK_TTL_MS <= Expiry(tries).value
  {
    if i < |Led(tries[..|tries| - 1])| { LedIsHeld(tries[..|tries| - 1], i); }
  }

  /** Two replicas, or one twice, become leader at least 90 seconds apart, whatever fails in between. */
  lemma {:induction false} LeadersApart(tries: seq<Try>, i: nat, j: nat)
    requires i < j < |Led(tries)|
    ensures Led(tries)[j] >= Led(tries)[i] + 90000
  {
    var init := tries[..|tries| - 1];
    if j < |Led(init)| { LeadersApart(init, i, j); } else { LedIsHeld(init, i); }
  }

  predicate Ordered(tries: seq<Try>) { forall i, j :: 0 <= i < j < |tries| ==> tries[i].at <= tries[j].at }

  predicate AllAnswered(tries: seq<Try>) { forall t :: t in tries ==> t.outcome.Written? }

  lemma {:induction false} LeadersAreTries(tries: seq<Try>, k: nat) returns (i: nat)
    requires k < |Led(tries)|
    ensures i < |tries| && tries[i].at == Led(tries)[k]
  {
    var init := tries[..|tries| - 1];
    if k < |Led(init)| { i := LeadersAreTries(init, k); } else { i := |tries| - 1; }
  }

  lemma {:induction false} LastLeaderHolds(tries: seq<Try>)
    requires AllAnswered(tries)
    ensures Expiry(tries) == if Led(tries) == [] then None else Some(Led(tries)[|Led(tries)| - 1] + LOCK_TTL_MS)
  {
    if tries != [] { LastLeaderHolds(tries[..|tries| - 1]); }
  }

  /** A try made after a leader's 90 seconds finds that the next leader has been there by then. */
  lemma {:induction false} NextLeader(tries: seq<Try>, k: nat, j: nat)
    requires Ordered(tries) && AllAnswered(tries) && k < |Led(tries)| && j < |tries|
    requires tries[j].at >= Led(tries)[k] + LOCK_TTL_MS
    ensures k + 1 < |Led(tries)| && Led(tries)[k + 1] <= tries[j].at
  {
    var n := |tries| - 1;
    var init := tries[..n];
    if k < |Led(init)| && j < n {
      NextLeader(init, k, j);
    } else if k + 1 < |Led(init)| {
      var i := LeadersAreTries(init, k + 1);
    } else {
      LastLeaderHolds(init);
    }
  }

  /**
    While one replica ticks every 60 seconds and Redis answers, the next leader comes 90 to 150 seconds
    after the last.
    */
  lemma LeadershipCadence(tries: seq<Try>, first: int, n: nat, k: nat)
    requires Ordered(tries) && AllAnswered(tries) && k < |Led(tries)|
    requires forall i :: 0 <= i <= n ==> Try(first + 60000 * i, Written) in tries
    requires first <= Led(tries)[k] + 90000 <= first + 60000 * n
    ensures k + 1 < |Led(tries)| && 90000 <= Led(tries)[k + 1] - Led(tries)[k] < 150000
  {
    var due := Led(tries)[k] + LOCK_TTL_MS;
    var i := (due - first + POLL_INTERVAL_MS - 1) / POLL_INTERVAL_MS;
    assert due <= first + POLL_INTERVAL_MS * i < due + POLL_INTERVAL_MS && 0 <= i <= n;
    var j :| 0 <= j < |tries| && tries[j] == Try(first + POLL_INTERVAL_MS * i, Written);
    NextLeader(tries, k, j);
    LeadersApart(tries, k, k + 1);
  }

  // ---------------------------------------------------------------- one cycle

  datatype Status = Active | Terminated

  datatype Session = Session(userId: string, status: Status, startedAt: int)

  type Sessions = map<string, Session>

  /** Times to live in minutes, of ordinary and of guest sessions. */
  datatype Ttls = Ttls(standard: nat, guest: nat)

  predicate IsGuest(userId: string) { "guest_" <= userId }

  /** A guest time to live of 0 reads as the default of ten. */
  function Minutes(userId: string, ttls: Ttls): nat {
    if !IsGuest(userId) then ttls.standard else if ttls.guest == 0 then 10 else ttls.guest
  }

  predicate IsExpired(s: Session, ttls: Ttls, now: int) {
    && s.status.Active?
    && s.startedAt < now - 60000 * Minutes(s.userId, ttls)
  }

  function Expired(sessions: Sessions, ttls: Ttls, now: int): set<string> {
    set id | id in sessions && IsExpired(sessions[id], ttls, now)
  }

  /** The query's answer: some expired sessions, as many as there are up to 50, none twice. */
  ghost predicate Picked(picks: seq<string>, sessions: Sessions, ttls: Ttls, now: int) {
    && (forall i, j :: 0 <= i < j < |picks| ==> picks[i] != picks[j])
    && (forall id :: id in picks ==> id in Expired(sessions, ttls, now))
    && |picks| == Min(TAKE, |Expired(sessions, ttls, now)|)
  }

  /** What the database and the brokers answer for one session. */
  datatype Answer = Answer(
    transaction: WriteOutcome, emit: CoreOutbox.Sent, publish: CoreOutbox.Sent, mark: WriteOutcome)

  function Ended(sessions: Sessions, id: string): Sessions
    requires id in sessions
  {
    sessions[id := sessions[id].(status := Terminated)]
  }

  function EndedRow(id: string, io: Answer): Row<CoreOutbox.Payload> {
    var row := NewRow(CoreOutbox.Payload(CoreOutbox.SessionEnded(CoreOutbox.ByExpiry), id));
    if io.transaction.Written? && io.emit.Accepted? && io.publish.Accepted? && !io.mark.Rejected?
    then row.(processed := true) else row
  }

  function ReapOne(sessions: Sessions, rows: CoreOutbox.Rows, id: string, io: Answer): (Sessions, CoreOutbox.Rows)
    requires id in sessions
  {
    if io.transaction.Rejected? then (sessions, rows) else (Ended(sessions, id), rows + [EndedRow(id, io)])
  }

  /** The same session handled by the steps of CoreOutbox, none of anyone else's in between. */
  function ReapInSteps(s: CoreOutbox.State, r: nat, left: seq<string>, io: Answer): CoreOutbox.State
    requires left != []
  {
    var s1 := CoreOutbox.SessionTerminated(s, r, left, io.transaction);
    if io.transaction.Written? then AnnounceInSteps(s1, r, |s.rows|, left[1..], io) else s1
  }

  function AnnounceInSteps(s: CoreOutbox.State, r: nat, row: nat, left: seq<string>, io: Answer): CoreOutbox.State
    requires row < |s.rows|
  {
    var s1 := CoreOutbox.EndEmitted(s, r, row, left, io.emit);
    if !io.emit.Accepted? then s1
    else
      var s2 := CoreOutbox.EndPublished(s1, r, row, left, io.publish);
      if io.publish.Accepted? then CoreOutbox.EndMarked(s2, r, row, left, io.mark) else s2
  }

  /** The reaper has moved on and neither rows nor sessions have changed. */
  ghost predicate OnlyReaperMoved(s: CoreOutbox.State, s': CoreOutbox.State, r: nat, reaper: CoreOutbox.Reaper) {
    s'.rows == s.rows && s'.sessions == s.sessions && r in s'.reapers && s'.reapers[r] == reaper
  }

  lemma SendsLeaveRows(s: CoreOutbox.State, r: nat, row: nat, left: seq<string>, sent: CoreOutbox.Sent)
    ensures OnlyReaperMoved(s, CoreOutbox.EndEmitted(s, r, row, left, sent), r,
              if sent.Accepted? then CoreOutbox.PublishingEnd(row, left) else CoreOutbox.Terminating(left))
    ensures OnlyReaperMoved(s, CoreOutbox.EndPublished(s, r, row, left, sent), r,
              if sent.Accepted? then CoreOutbox.MarkingEnd(row, left) else CoreOutbox.Terminating(left))
  {}

  lemma AnnounceIsSteps(s: CoreOutbox.State, r: nat, row: nat, left: seq<string>, io: Answer)
    requires row < |s.rows|
    ensures
      var s' := AnnounceInSteps(s, r, row, left, io);
      && s'.rows ==
         (if io.emit.Accepted? && io.publish.Accepted? then CoreOutbox.Mark(s.rows, row, io.mark) else s.rows)
      && s'.sessions == s.sessions && r in s'.reapers && s'.reapers[r] == CoreOutbox.Terminating(left)
  {
    SendsLeaveRows(s, r, row, left, io.emit);
    SendsLeaveRows(CoreOutbox.EndEmitted(s, r, row, left, io.emit), r, row, left, io.publish);
  }

  /** The loop body is those steps: same rows, the session ended in both or in neither, then on to the next. */
  lemma ReapOneIsSteps(sessions: Sessions, s: CoreOutbox.State, r: nat, left: seq<string>, io: Answer)
    requires left != [] && left[0] in sessions && left[0] in s.sessions
    requires s.sessions[left[0]].Active? && sessions[left[0]].status.Active?
    ensures
      var s', (after, rows) := ReapInSteps(s, r, left, io), ReapOne(sessions, s.rows, left[0], io);
      && s'.rows == rows && (s'.sessions[left[0]].Terminated? <==> after[left[0]].status.Terminated?)
      && r in s'.reapers && s'.reapers[r] == CoreOutbox.Terminating(left[1..])
  {
    if io.transaction.Written? {
      var row := NewRow(CoreOutbox.Payload(CoreOutbox.SessionEnded(CoreOutbox.ByExpiry), left[0]));
      AnnounceIsSteps(CoreOutbox.SessionTerminated(s, r, left, io.transaction), r, |s.rows|, left[1..], io);
      assert Processed(s.rows + [row], |s.rows|) == s.rows + [row.(processed := true)];
    }
  }

  /** What a cycle leaves of the table: every picked session whose transaction took effect is terminated. */
  function ReapAll(
    sessions: Sessions, rows: CoreOutbox.Rows, picks: seq<string>, io: seq<Answer>): (r: (Sessions, CoreOutbox.Rows))
    requires (forall id :: id in picks ==> id in sessions) && |io| == |picks|
    ensures r.0.Keys == sessions.Keys
  {
    if picks == [] then (sessions, rows)
    else
      var (s, r) := ReapAll(sessions, rows, picks[..|picks| - 1], io[..|picks| - 1]);
      ReapOne(s, r, picks[|picks| - 1], io[|picks| - 1])
  }

  class Reaper {
    var sessions: Sessions
    var rows: CoreOutbox.Rows

    constructor (sessions: Sessions)
      ensures this.sessions == sessions && rows == []
    {
      this.sessions := sessions;
      rows := [];
    }

    /**
      One tick.  `locked` is what SET does, `queried` whether the query answers, `picks` what it finds,
      and `io` what happens to each session found.
      */
    method Reap(
      lock: LeaderLock, now: int, locked: WriteOutcome, queried: bool, ttls: Ttls, picks: seq<string>, io: seq<Answer>)
      requires Picked(picks, sessions, ttls, now) && |io| == |picks|
      modifies this, lock
      ensures lock.expiresAt ==
              if IsFree(old(lock.expiresAt), now) && !locked.Rejected? then Some(now + LOCK_TTL_MS)
              else old(lock.expiresAt)
      ensures
        if IsFree(old(lock.expiresAt), now) && locked.Written? && queried
        then
          && (forall id :: id in picks ==> id in old(sessions))
          && (sessions, rows) == ReapAll(old(sessions), old(rows), picks, io)
        else sessions == old(sessions) && rows == old(rows)
    {
      var acquired := lock.TryAcquire(now, locked);
      if acquired != Some(true) || !queried { return; }
      for i := 0 to |picks|
        invariant lock.expiresAt == Some(now + LOCK_TTL_MS)
        invariant sessions.Keys == old(sessions).Keys
        invariant forall id :: id in picks ==> id in old(sessions)
        invariant (sessions, rows) == ReapAll(old(sessions), old(rows), picks[..i], io[..i])
      {
        assert picks[..i + 1][..i] == picks[..i] && io[..i + 1][..i] == io[..i];
        assert picks[i] in picks;
        if !io[i].transaction.Rejected? {
          sessions := Ended(sessions, picks[i]);
          rows := rows + [EndedRow(picks[i], io[i])];
        }
      }
      assert picks[..|picks|] == picks && io[..|io|] == io;
    }
  }

  // ---------------------------------------------------------------- draining

  /** Some transaction that ends the session takes effect. */
  ghost predicate Ends(picks: seq<string>, io: seq<Answer>, id: string) {
    && |io| == |picks|
    && exists k :: 0 <= k < |picks| && picks[k] == id && !io[k].transaction.Rejected?
  }

  lemma {:induction false} ReapAllTerminates(
    sessions: Sessions, rows: CoreOutbox.Rows, picks: seq<string>, io: seq<Answer>, id: string)
    requires (forall p :: p in picks ==> p in sessions) && |io| == |picks| && id in sessions
    ensures ReapAll(sessions, rows, picks, io).0[id] ==
        if Ends(picks, io, id) then sessions[id].(status := Terminated) else sessions[id]
  {
    if picks != [] {
      var n := |picks| - 1;
      ReapAllTerminates(sessions, rows, picks[..n], io[..n], id);
      assert forall k :: 0 <= k < n ==> picks[..n][k] == picks[k] && io[..n][k] == io[k];
    }
  }

  /** How many transactions take effect. */
  function Effects(io: seq<Answer>): nat {
    if io == [] then 0 else Effects(io[..|io| - 1]) + if io[|io| - 1].transaction.Rejected? then 0 else 1
  }

  lemma {:induction false} EffectsGrow(io: seq<Answer>, k: nat)
    requires k < |io|
    ensures Effects(io[..k]) + (if io[k].transaction.Rejected? then 0 else 1) <= Effects(io)
  {
    var n := |io| - 1;
    if k < n {
      EffectsGrow(io[..n], k);
      assert io[..n][..k] == io[..k];
    }
  }

  lemma {:induction false} ReapAllWrites(
    sessions: Sessions, rows: CoreOutbox.Rows, picks: seq<string>, io: seq<Answer>, k: nat)
    requires (forall p :: p in picks ==> p in sessions) && |io| == |picks|
    ensures
      var after := ReapAll(sessions, rows, picks, io).1;
      && rows <= after && |after| == |rows| + Effects(io)
      && (k < |picks| && !io[k].transaction.Rejected? ==>
            && Effects(io[..k]) < Effects(io)
            && after[|rows| + Effects(io[..k])] == EndedRow(picks[k], io[k]))
  {
    if picks != [] {
      var n := |picks| - 1;
      ReapAllWrites(sessions, rows, picks[..n], io[..n], k);
      if k < n {
        assert io[..n][..k] == io[..k];
        EffectsGrow(io, k);
      }
    }
  }

  lemma EndsExactly(sessions: Sessions, ttls: Ttls, now: int, picks: seq<string>, io: seq<Answer>, k: nat)
    requires Picked(picks, sessions, ttls, now) && |io| == |picks| && k < |picks|
    ensures Ends(picks, io, picks[k]) <==> !io[k].transaction.Rejected?
  {}

  /**
    What a cycle does for the k-th session it finds.  That was active and older than its time to live, a
    guest's being the guests' minutes, or ten if there are none, and any other user's the standard ones.
    If the transaction takes effect it is terminated and has a row of its own, appended in order, that is
    marked exactly if both brokers accepted the event and the mark took effect; otherwise it is as it was.
    */
  lemma CycleExactly(
    sessions: Sessions, rows: CoreOutbox.Rows, ttls: Ttls, now: int, picks: seq<string>, io: seq<Answer>, k: nat)
    requires Picked(picks, sessions, ttls, now) && |io| == |picks| && k < |picks|
    ensures picks[k] in sessions && sessions[picks[k]].status.Active?
    ensures now - sessions[picks[k]].startedAt > 60000 * (
        if "guest_" <= sessions[picks[k]].userId then if ttls.guest == 0 then 10 else ttls.guest else ttls.standard)
    ensures ReapAll(sessions, rows, picks, io).0[picks[k]] ==
        if io[k].transaction.Rejected? then sessions[picks[k]] else sessions[picks[k]].(status := Terminated)
    ensures rows <= ReapAll(sessions, rows, picks, io).1
    ensures |ReapAll(sessions, rows, picks, io).1| == |rows| + Effects(io)
    ensures !io[k].transaction.Rejected? ==>
              && Effects(io[..k]) < Effects(io)
              && ReapAll(sessions, rows, picks, io).1[|rows| + Effects(io[..k])] ==
                 Row(CoreOutbox.Payload(CoreOutbox.SessionEnded(CoreOutbox.ByExpiry), picks[k]),
                     io[k].transaction.Written? && io[k].emit.Accepted? && io[k].publish.Accepted?
                     && !io[k].mark.Rejected?, 0, false)
  {
    assert picks[k] in picks && picks[k] in Expired(sessions, ttls, now);
    EndsExactly(sessions, ttls, now, picks, io, k);
    ReapAllTerminates(sessions, rows, picks, io, picks[k]);
    ReapAllWrites(sessions, rows, picks, io, k);
  }

  /** Sessions it does not find are left alone. */
  lemma CycleLeavesOthers(
    sessions: Sessions, rows: CoreOutbox.Rows, ttls: Ttls, now: int, picks: seq<string>, io: seq<Answer>, id: string)
    requires Picked(picks, sessions, ttls, now) && |io| == |picks| && id in sessions && id !in picks
    ensures ReapAll(sessions, rows, picks, io).0[id] == sessions[id]
  {
    ReapAllTerminates(sessions, rows, picks, io, id);
  }

  lemma {:induction false} DistinctCount(picks: seq<string>)
    requires forall i, j :: 0 <= i < j < |picks| ==> picks[i] != picks[j]
    ensures |set id | id in picks| == |picks|
  {
    if picks != [] {
      var n := |picks| - 1;
      DistinctCount(picks[..n]);
      assert picks == picks[..n] + [picks[n]];
      assert (set id | id in picks) == (set id | id in picks[..n]) + {picks[n]};
    }
  }

  /** A cycle whose transactions succeed terminates fifty expired sessions, or all if there are fewer. */
  lemma CycleTerminatesFifty(
    sessions: Sessions, rows: CoreOutbox.Rows, ttls: Ttls, now: int, picks: seq<string>, io: seq<Answer>)
    requires Picked(picks, sessions, ttls, now) && |io| == |picks|
    requires forall i :: 0 <= i < |io| ==> !io[i].transaction.Rejected?
    ensures
      var (after, _) := ReapAll(sessions, rows, picks, io);
      |Expired(after, ttls, now)| == Max(0, |Expired(sessions, ttls, now)| - 50)
  {
    var (after, _) := ReapAll(sessions, rows, picks, io);
    var picked := set id | id in picks;
    forall id | id in sessions
      ensures after[id] == if id in picks then sessions[id].(status := Terminated) else sessions[id]
    {
      ReapAllTerminates(sessions, rows, picks, io, id);
    }
    assert Expired(after, ttls, now) == Expired(sessions, ttls, now) - picked;
    assert picked <= Expired(sessions, ttls, now);
    DistinctCount(picks);
  }

  /** One leader cycle: its clock, what its query found, and the table before it. */
  datatype Cycle = Cycle(sessions: Sessions, rows: CoreOutbox.Rows, now: int, picks: seq<string>, io: seq<Answer>)

  ghost predicate Succeeds(c: Cycle, ttls: Ttls) {
    && Picked(c.picks, c.sessions, ttls, c.now) && |c.io| == |c.picks|
    && forall i :: 0 <= i < |c.io| ==> !c.io[i].transaction.Rejected?
  }

  /** Between cycles nothing touches the sessions except time, and no session newly expires. */
  ghost predicate Follows(c: Cycle, d: Cycle, ttls: Ttls)
    requires Succeeds(c, ttls)
  {
    && d.sessions == ReapAll(c.sessions, c.rows, c.picks, c.io).0
    && Expired(d.sessions, ttls, d.now) <= Expired(d.sessions, ttls, c.now)
  }

  /**
    Before the n-th cycle in a row at most k - 50n of k expired sessions are left, so ceil(k / 50)
    cycles end them all.
    */
  lemma {:induction false} ExpiredSessionsDrain(cycles: seq<Cycle>, ttls: Ttls, n: nat)
    requires n < |cycles| && forall i :: 0 <= i < |cycles| ==> Succeeds(cycles[i], ttls)
    requires forall i :: 0 <= i < |cycles| - 1 ==> Follows(cycles[i], cycles[i + 1], ttls)
    ensures |Expired(cycles[n].sessions, ttls, cycles[n].now)|
         <= Max(0, |Expired(cycles[0].sessions, ttls, cycles[0].now)| - 50 * n)
    ensures n >= (|Expired(cycles[0].sessions, ttls, cycles[0].now)| + 49) / 50 ==>
      Expired(cycles[n].sessions, ttls, cycles[n].now) == {}
  {
    if n > 0 {
      ExpiredSessionsDrain(cycles, ttls, n - 1);
      var c, d := cycles[n - 1], cycles[n];
      assert Succeeds(c, ttls) && Follows(c, cycles[n - 1 + 1], ttls);
      CycleTerminatesFifty(c.sessions, c.rows, ttls, c.now, c.picks, c.io);
      SubsetCount(Expired(d.sessions, ttls, d.now), Expired(d.sessions, ttls, c.now));
    }
  }

  /** After that many cycles no active session has outlived its minutes: a guest's, or ten, or the standard ones. */
  lemma NobodyOutlives(cycles: seq<Cycle>, ttls: Ttls, n: nat, id: string)
    requires n < |cycles| && forall i :: 0 <= i < |cycles| ==> Succeeds(cycles[i], ttls)
    requires forall i :: 0 <= i < |cycles| - 1 ==> Follows(cycles[i], cycles[i + 1], ttls)
    requires n >= (|Expired(cycles[0].sessions, ttls, cycles[0].now)| + 49) / 50
    requires id in cycles[n].sessions && cycles[n].sessions[id].status.Active?
    ensures cycles[n].now - cycles[n].sessions[id].startedAt <= 60000 * (
        if "guest_" <= cycles[n].sessions[id].userId then if ttls.guest == 0 then 10 else ttls.guest
        else ttls.standard)
  {
    ExpiredSessionsDrain(cycles, ttls, n);
    assert id !in Expired(cycles[n].sessions, ttls, cycles[n].now);
  }

  lemma SubsetCount(a: set<string>, b: set<string>)
    requires a <= b
    ensures |a| <= |b|
  {
    assert b == a + (b - a);
  }
}
