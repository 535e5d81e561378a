/**
  The breaker that both outboxes put before the message broker: three failures in a row open it,
  each opening doubles the next one up to a minute, and a delivery resets everything but the time
  until which it is open.
  */
module CircuitBreaker {
  import opened Numbers

  const INITIAL_BACKOFF_MS: nat := 5000
  const MAX_BACKOFF_MS: nat := 60000
  const THRESHOLD: nat := 3

  datatype Breaker = Breaker(failures: nat, backoffMs: nat, openUntil: int)

  const FRESH := Breaker(0, INITIAL_BACKOFF_MS, 0)

  predicate IsOpen(b: Breaker, now: int) { now < b.openUntil }

  function Delivered(b: Breaker): Breaker { b.(failures := 0, backoffMs := INITIAL_BACKOFF_MS) }

  function Counted(b: Breaker): Breaker { b.(failures := b.failures + 1) }

  /** The check made after a failure has been written back. */
  function Checked(b: Breaker, now: int): Breaker {
    if b.failures >= THRESHOLD
    then b.(openUntil := now + b.backoffMs, backoffMs := Min(2 * b.backoffMs, MAX_BACKOFF_MS))
    else b
  }

  /** The three variables as the plugins keep them. */
  class Circuit {
    var consecutiveFailures: nat
    var backoffMs: nat
    var circuitOpenUntil: int

    function View(): Breaker
      reads this
    {
      Breaker(consecutiveFailures, backoffMs, circuitOpenUntil)
    }

    constructor ()
      ensures View() == FRESH
    {
      consecutiveFailures, backoffMs, circuitOpenUntil := 0, INITIAL_BACKOFF_MS, 0;
    }

    method Deliver()
      modifies this
      ensures View() == Delivered(old(View()))
    {
      consecutiveFailures := 0;
      backoffMs := INITIAL_BACKOFF_MS;
    }

    method Count()
      modifies this
      ensures View() == Counted(old(View()))
    {
      consecutiveFailures := consecutiveFailures + 1;
    }

    method Check(now: int) returns (tripped: bool)
      modifies this
      ensures View() == Checked(old(View()), now) && (tripped <==> old(consecutiveFailures) >= 3)
      ensures View() ==
              if tripped then Breaker(old(consecutiveFailures), Min(2 * old(backoffMs), 60000), now + old(backoffMs))
              else old(View())
    {
      tripped := consecutiveFailures >= THRESHOLD;
      if tripped {
        circuitOpenUntil := now + backoffMs;
        backoffMs := Min(backoffMs * 2, MAX_BACKOFF_MS);
      }
    }
  }

  // ---------------------------------------------------------------- any history of the breaker

  /** Overlapping polls may put other events between a count and its check. */
  datatype Event = Deliver | Count | Check(now: int)

  function Step(b: Breaker, e: Event): Breaker {
    match e
    case Deliver => Delivered(b)
    case Count => Counted(b)
    case Check(now) => Checked(b, now)
  }

  function Replay(events: seq<Event>): Breaker {
    if events == [] then FRESH else Step(Replay(events[..|events| - 1]), events[|events| - 1])
  }

  /** The failures counted since the last delivery. */
  function Failures(events: seq<Event>): nat {
    if events == [] then 0
    else
      var before := Failures(events[..|events| - 1]);
      match events[|events| - 1]
      case Deliver => 0
      case Count => before + 1
      case Check(_) => before
  }

  /** How long each opening since the last delivery lasts, in order. */
  function Openings(events: seq<Event>): seq<int> {
    if events == [] then []
    else
      var before := events[..|events| - 1];
      match events[|events| - 1]
      case Deliver => []
      case Count => Openings(before)
      case Check(now) =>
        if Failures(before) >= 3 then Openings(before) + [Replay(events).openUntil - now] else Openings(before)
  }

  /** The k-th opening since the last delivery. */
  function OpeningMs(k: nat): int { Min(5000 * Pow2(k), 60000) }

  /** When the last opening ends, deliveries since then notwithstanding. */
  function LastEnd(events: seq<Event>): int {
    if events == [] then 0
    else
      var before := events[..|events| - 1];
      match events[|events| - 1]
      case Check(now) => if Failures(before) >= 3 then now + OpeningMs(|Openings(before)|) else LastEnd(before)
      case _ => LastEnd(before)
  }

  /**
    In every history a check with three failures counted since the last delivery, and no other, opens the
    breaker; the k-th opening since then lasts min(5000 * 2^k, 60000) ms.
    */
  lemma {:induction false} KthOpening(events: seq<Event>)
    ensures forall k :: 0 <= k < |Openings(events)| ==> Openings(events)[k] == OpeningMs(k)
    ensures Replay(events) == Breaker(Failures(events), OpeningMs(|Openings(events)|), LastEnd(events))
  {
    if events != [] {
      KthOpening(events[..|events| - 1]);
    }
  }

  lemma ReplayAppend(events: seq<Event>, e: Event)
    ensures Replay(events + [e]) == Step(Replay(events), e)
    ensures e.Count? ==> Openings(events + [e]) == Openings(events)
  {
    assert (events + [e])[..|events|] == events;
  }

  /** A failure that is counted and checked with nothing in between is the next opening of the series. */
  lemma NextOpening(events: seq<Event>, now: int)
    requires Failures(events) + 1 >= 3
    ensures Replay(events + [Count] + [Check(now)]).openUntil == now + OpeningMs(|Openings(events)|)
  {
    ReplayAppend(events, Count);
    ReplayAppend(events + [Count], Check(now));
    KthOpening(events);
  }
}
