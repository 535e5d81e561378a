/**
  Revocation of access tokens by time: invalidating a user's sessions leaves a mark for 900 seconds,
  and a token is refused while a mark is there that is not older than its issue time, which the
  token carries in whole seconds.
  */
module Revocation {
  import opened Wrappers

  const TOKEN_SECONDS: int := 900
  const MARK_SECONDS: int := 900

  /** A token's claims, by its issue time in milliseconds: `iat` is that time cut to seconds, `exp` 900 later. */
  function Iat(issuedMs: nat): nat { issuedMs / 1000 }

  function Exp(issuedMs: nat): nat { Iat(issuedMs) + TOKEN_SECONDS }

  /** A token must not be accepted on or after its `exp` (section 4.1.4 of RFC 7519). */
  predicate Expired(issuedMs: nat, nowMs: int) { nowMs >= 1000 * Exp(issuedMs) }

  /** One call of invalidateAllSessions for the user: the time it wrote, and when Redis stored it. */
  datatype Invalidation = Invalidation(revokedAt: nat, storedAt: nat)

  /** The mark that Redis holds at an instant: the last one stored by then, for 900 seconds. */
  function MarkAt(calls: seq<Invalidation>, nowMs: int): Option<nat> {
    if calls == [] then None
    else
      var last := calls[|calls| - 1];
      if last.storedAt > nowMs then MarkAt(calls[..|calls| - 1], nowMs)
      else if nowMs < last.storedAt + 1000 * MARK_SECONDS then Some(last.revokedAt)
      else None
  }

  /** The check made on every request, with Redis reachable; a missing or zero `iat` counts as revoked. */
  function IsTokenDenylisted(jtiRevoked: bool, mark: Option<nat>, iat: Option<nat>): bool {
    jtiRevoked || (mark.Some? && (iat.None? || iat.value == 0 || iat.value * 1000 <= mark.value))
  }

  function Refused(calls: seq<Invalidation>, issuedMs: nat, nowMs: int): bool {
    IsTokenDenylisted(false, MarkAt(calls, nowMs), Some(Iat(issuedMs)))
  }

  /** Calls are listed in the order Redis stored them, each after reading the clock. */
  ghost predicate Stored(calls: seq<Invalidation>) {
    && (forall k :: 0 <= k < |calls| ==> calls[k].revokedAt <= calls[k].storedAt)
    && (forall k, l :: 0 <= k < l < |calls| ==> calls[k].storedAt <= calls[l].storedAt)
  }

  /** No call's write overtook that of one that read the clock later. */
  ghost predicate InClockOrder(calls: seq<Invalidation>) {
    forall k, l :: 0 <= k < l < |calls| ==> calls[k].revokedAt <= calls[l].revokedAt
  }

  lemma {:induction false} LastMark(calls: seq<Invalidation>, k: nat, nowMs: int) returns (m: nat)
    requires Stored(calls) && k < |calls| && calls[k].storedAt <= nowMs
    ensures k <= m < |calls| && calls[m].storedAt <= nowMs && (m + 1 < |calls| ==> nowMs < calls[m + 1].storedAt)
    ensures MarkAt(calls, nowMs) ==
        if nowMs < calls[m].storedAt + 900000 then Some(calls[m].revokedAt) else None
  {
    var n := |calls| - 1;
    if calls[n].storedAt <= nowMs {
      m := n;
    } else {
      m := LastMark(calls[..n], k, nowMs);
    }
  }

  /**
    For every token issued at or before a call, at every instant after the call the token is refused
    or has expired, although its issue time was cut to seconds, the mark lives only 900 seconds, and
    later calls overwrite it.
    */
  lemma RevocationCovers(calls: seq<Invalidation>, k: nat, issuedMs: nat, nowMs: int)
    requires Stored(calls) && InClockOrder(calls) && k < |calls|
    requires issuedMs <= calls[k].revokedAt && calls[k].storedAt <= nowMs
    ensures Refused(calls, issuedMs, nowMs) || Expired(issuedMs, nowMs)
  {
    var m := LastMark(calls, k, nowMs);
    assert k == m || calls[k].revokedAt <= calls[m].revokedAt;
  }

  /**
    A mark refuses exactly the tokens issued in its own second or earlier, those issued at zero, and those
    without an issue time; without a mark only a token denylisted by itself is refused.
    */
  lemma RefusedExactly(revokedAt: nat, issuedMs: nat)
    ensures IsTokenDenylisted(false, Some(revokedAt), Some(Iat(issuedMs))) <==>
      Iat(issuedMs) == 0 || issuedMs / 1000 <= revokedAt / 1000
    ensures !IsTokenDenylisted(false, None, Some(Iat(issuedMs))) && IsTokenDenylisted(true, None, Some(Iat(issuedMs)))
    ensures IsTokenDenylisted(false, Some(revokedAt), None)
  {}

  /** A token issued a second or more after every call is never refused by their marks. */
  lemma {:induction false} LaterTokensPass(calls: seq<Invalidation>, issuedMs: nat, nowMs: int)
    requires forall k :: 0 <= k < |calls| ==> calls[k].revokedAt + 1000 <= issuedMs
    ensures !Refused(calls, issuedMs, nowMs)
  {
    if calls != [] { LaterTokensPass(calls[..|calls| - 1], issuedMs, nowMs); }
  }

  /**
    Call `m` leaves a mark too old for the tokens of call `k`, as the last one at its instant, while they
    are still good.
    */
  predicate Exposes(calls: seq<Invalidation>, k: nat, m: nat) {
    && k < |calls| && m < |calls|
    && calls[m].revokedAt < 1000 * Iat(calls[k].revokedAt) && !Expired(calls[k].revokedAt, calls[m].storedAt)
    && (m + 1 < |calls| ==> calls[m].storedAt < calls[m + 1].storedAt)
  }

  /** From the moment call `k` is stored, every token issued up to it is refused or has expired. */
  ghost predicate Covers(calls: seq<Invalidation>, k: nat) {
    && k < |calls|
    && forall issuedMs: nat, nowMs: int :: issuedMs <= calls[k].revokedAt && calls[k].storedAt <= nowMs ==>
         Refused(calls, issuedMs, nowMs) || Expired(issuedMs, nowMs)
  }

  /** A token that slips through has a later call to thank for it. */
  lemma SlipIsExposed(calls: seq<Invalidation>, k: nat, issuedMs: nat, nowMs: int) returns (m: nat)
    requires Stored(calls) && k < |calls| && issuedMs <= calls[k].revokedAt && calls[k].storedAt <= nowMs
    requires !Refused(calls, issuedMs, nowMs) && !Expired(issuedMs, nowMs)
    ensures k < m < |calls| && Exposes(calls, k, m)
  {
    m := LastMark(calls, k, nowMs);
    assert calls[k].storedAt <= calls[m].storedAt;
    assert nowMs < calls[m].storedAt + 1000 * MARK_SECONDS;
    assert Iat(issuedMs) <= Iat(calls[k].revokedAt);
  }

  /**
    When the writes of overlapping calls overtake each other the cover can fail.  It holds at every later
    instant, for every token issued up to call `k`, exactly if no later call exposes them.
    */
  lemma CoverageExactly(calls: seq<Invalidation>, k: nat)
    requires Stored(calls) && k < |calls|
    ensures Covers(calls, k) <==> !exists m :: k < m < |calls| && Exposes(calls, k, m)
  {
    forall issuedMs: nat, nowMs: int |
      issuedMs <= calls[k].revokedAt && calls[k].storedAt <= nowMs
      && !Refused(calls, issuedMs, nowMs) && !Expired(issuedMs, nowMs)
      ensures exists m :: k < m < |calls| && Exposes(calls, k, m)
    {
      var m := SlipIsExposed(calls, k, issuedMs, nowMs);
    }
    if m :| k < m < |calls| && Exposes(calls, k, m) {
      var n := LastMark(calls, m, calls[m].storedAt);
      assert n == m;
      assert !Refused(calls, calls[k].revokedAt, calls[m].storedAt);
    }
  }

  /** Two overlapping calls whose writes swap leave a token of the later one accepted. */
  lemma OvertakenCallMisses()
    ensures
      var calls := [Invalidation(7000, 7001), Invalidation(5000, 7002)];
      Stored(calls) && !Refused(calls, 6000, 7003) && !Expired(6000, 7003)
  {
    var calls := [Invalidation(7000, 7001), Invalidation(5000, 7002)];
    assert MarkAt(calls, 7003) == Some(5000);
  }
}
