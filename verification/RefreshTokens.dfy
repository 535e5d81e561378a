/**
  Refresh-token rotation: a refresh key is active until its first use, then marked with the time of
  that use and honoured for ten more seconds; a later use is a replay and costs the user every key.
  Handlers run one at a time, secrets are fresh, and hashing a secret is taken to be injective; every
  call to Redis or the database may fail, with or without having taken effect.
  */
module RefreshTokens {
  import opened Wrappers
  import opened Runs
  import opened RefreshCookie

  const GRACE_MS: int := 10000

  /** What the key holds: "1", the rotation record, JSON of another kind, or something that does not parse. */
  datatype TokenState = Active | Rotated(at: int) | OtherJson | Garbage

  type Keys = map<Key, TokenState>

  datatype Reply = Issued(newKey: Key) | Malformed | SessionExpired | Compromised | UserNotFound | ServerError

  // ---------------------------------------------------------------- the handler

  predicate Honoured(keys: Keys, key: Key, now: int) {
    key in keys && match keys[key]
                   case Active => true
                   case OtherJson => true
                   case Rotated(at) => now - at <= GRACE_MS
                   case Garbage => false
  }

  /** One turn of the SCAN loop: the keys found, and what their DEL did; no DEL is sent for no keys. */
  datatype Turn = Turn(answered: bool, found: seq<Key>, deletion: WriteOutcome) {
    predicate Succeeds() { answered && (found == [] || deletion.Written?) }
  }

  /** The mark, the loop, and the update of the session rows. */
  datatype Revocation = Revocation(mark: WriteOutcome, turns: seq<Turn>, rows: WriteOutcome) {
    predicate Succeeds() { mark.Written? && (forall i :: 0 <= i < |turns| ==> turns[i].Succeeds()) && rows.Written? }
  }

  /** The keys that the loop deletes before its first failure, that failure's own DEL included. */
  function Deleted(turns: seq<Turn>): set<Key> {
    if turns == [] then {} else TurnDeletes(turns[0]) + if turns[0].Succeeds() then Deleted(turns[1..]) else {}
  }

  function TurnDeletes(turn: Turn): set<Key> {
    if !turn.answered || turn.deletion.Rejected? then {} else set k | k in turn.found
  }

  lemma DeletedFrom(turns: seq<Turn>, i: nat)
    requires i < |turns|
    ensures Deleted(turns[i..]) == TurnDeletes(turns[i]) + if turns[i].Succeeds() then Deleted(turns[i + 1..]) else {}
  {
    assert turns[i..][1..] == turns[i + 1..];
  }

  function Revoked(keys: Keys, io: Revocation): Keys { if io.mark.Written? then keys - Deleted(io.turns) else keys }

  /** The pattern matches only the user's keys, and a scan answered to its end reports every one of them. */
  ghost predicate Reports(turns: seq<Turn>, keys: Keys, user: string) {
    && (forall i, k :: 0 <= i < |turns| && k in turns[i].found ==> k.user == user)
    && ((forall i :: 0 <= i < |turns| ==> turns[i].answered) ==>
          forall k :: k in keys && k.user == user ==> exists i :: 0 <= i < |turns| && k in turns[i].found)
  }

  lemma {:induction false} DeletedWhenAllSucceed(turns: seq<Turn>, i: nat, k: Key)
    requires (forall j :: 0 <= j < |turns| ==> turns[j].Succeeds()) && i < |turns| && k in turns[i].found
    ensures k in Deleted(turns)
  {
    if i > 0 { DeletedWhenAllSucceed(turns[1..], i - 1, k); }
  }

  lemma {:induction false} DeletedWasFound(turns: seq<Turn>, k: Key)
    requires k in Deleted(turns)
    ensures exists i :: 0 <= i < |turns| && k in turns[i].found
  {
    if k in turns[0].found {
      assert k in turns[0].found;
    } else {
      DeletedWasFound(turns[1..], k);
      var i :| 0 <= i < |turns[1..]| && k in turns[1..][i].found;
      assert k in turns[i + 1].found;
    }
  }

  lemma OthersAreSpared(keys: Keys, user: string, io: Revocation)
    requires Reports(io.turns, keys, user)
    ensures forall k :: k in Deleted(io.turns) ==> k.user == user
  {
    forall k | k in Deleted(io.turns) ensures k.user == user {
      DeletedWasFound(io.turns, k);
      var i :| 0 <= i < |io.turns| && k in io.turns[i].found;
    }
  }

  /** A revocation without failures leaves none of the keys of the user, and none touches another user's. */
  lemma RevokedIs(keys: Keys, user: string, io: Revocation)
    requires Reports(io.turns, keys, user)
    ensures io.Succeeds() <==>
            && io.mark.Written? && io.rows.Written?
            && forall i :: 0 <= i < |io.turns| ==>
                 io.turns[i].answered && (io.turns[i].found == [] || io.turns[i].deletion.Written?)
    ensures io.Succeeds() ==> forall k :: k in Revoked(keys, io) <==> k in keys && k.user != user
    ensures forall k :: k in Revoked(keys, io) ==> k in keys && Revoked(keys, io)[k] == keys[k]
    ensures forall k :: k in keys && k.user != user ==> k in Revoked(keys, io)
  {
    OthersAreSpared(keys, user, io);
    if io.Succeeds() {
      forall k | k in keys && k.user == user ensures k in Deleted(io.turns) {
        var i :| 0 <= i < |io.turns| && k in io.turns[i].found;
        DeletedWhenAllSucceed(io.turns, i, k);
      }
    }
  }

  /** What Redis and the database answer to one refresh, in the order in which they are asked. */
  datatype Answers = Answers(
    read: bool, revocation: Revocation, logged: bool, rotation: WriteOutcome, looked: bool, stored: WriteOutcome)

  /**
    One refresh: the keys afterwards and the reply.  `newKey` is the one a new session would store.
    The revocation runs inside a try whose catch answers that the session has expired.
    */
  function Refresh(keys: Keys, users: set<string>, key: Key, newKey: Key, now: int, io: Answers): (Keys, Reply) {
    if !io.read then (keys, ServerError)
    else if key !in keys || keys[key].Garbage? then (keys, SessionExpired)
    else if !Honoured(keys, key, now) then
      (Revoked(keys, io.revocation), if io.revocation.Succeeds() && io.logged then Compromised else SessionExpired)
    else if keys[key].Active? then
      var keys1 := if io.rotation.Rejected? then keys else keys[key := Rotated(now)];
      if io.rotation.Written? then Granted(keys1, users, key, newKey, io) else (keys1, ServerError)
    else Granted(keys, users, key, newKey, io)
  }

  function Granted(keys: Keys, users: set<string>, key: Key, newKey: Key, io: Answers): (Keys, Reply) {
    if !io.looked then (keys, ServerError)
    else if key.user !in users then (keys, UserNotFound)
    else (if io.stored.Rejected? then keys else keys[newKey := Active],
          if io.stored.Written? then Issued(newKey) else ServerError)
  }

  /** The handler and its helpers over the Redis keys they overwrite. */
  class TokenStore {
    var keys: Keys

    constructor ()
      ensures keys == map[]
    {
      keys := map[];
    }

    /** The body of the SCAN loop; an empty answer sends no DEL. */
    method TakeTurn(turn: Turn) returns (goesOn: bool)
      modifies this
      ensures goesOn == turn.Succeeds() && keys == old(keys) - TurnDeletes(turn)
    {
      if !turn.answered { return false; }
      if |turn.found| == 0 { return true; }
      if !turn.deletion.Rejected? { keys := keys - set k | k in turn.found; }
      goesOn := turn.deletion.Written?;
    }

    /** Marks the user revoked and deletes every refresh key; the first call that fails ends it. */
    method InvalidateAll(user: string, io: Revocation) returns (ok: bool)
      requires Reports(io.turns, keys, user)
      modifies this
      ensures ok == io.Succeeds() && keys == Revoked(old(keys), io)
      ensures ok <==>
              && io.mark.Written? && io.rows.Written?
              && forall i :: 0 <= i < |io.turns| ==>
                   io.turns[i].answered && (io.turns[i].found == [] || io.turns[i].deletion.Written?)
      ensures ok ==> forall k :: k in keys <==> k in old(keys) && k.user != user
      ensures forall k :: k in keys ==> k in old(keys) && keys[k] == old(keys)[k]
      ensures forall k :: k in old(keys) && k.user != user ==> k in keys
    {
      RevokedIs(keys, user, io);
      if !io.mark.Written? { return false; }
      var deleted := DeleteKeys(io.turns);
      ok := deleted && io.rows.Written?;
    }

    /** The SCAN loop, up to its end or its first failure. */
    method DeleteKeys(turns: seq<Turn>) returns (ok: bool)
      modifies this
      ensures ok <==> forall i :: 0 <= i < |turns| ==> turns[i].Succeeds()
      ensures keys == old(keys) - Deleted(turns)
    {
      var cursor := 0;
      while cursor < |turns|
        invariant 0 <= cursor <= |turns|
        invariant forall i :: 0 <= i < cursor ==> turns[i].Succeeds()
        invariant keys - Deleted(turns[cursor..]) == old(keys) - Deleted(turns)
      {
        DeletedFrom(turns, cursor);
        var goesOn := TakeTurn(turns[cursor]);
        if !goesOn { return false; }
        cursor := cursor + 1;
      }
      ok := true;
    }

    method CreateSession(newKey: Key, outcome: WriteOutcome) returns (ok: bool)
      modifies this
      ensures ok == outcome.Written? && keys == if outcome.Rejected? then old(keys) else old(keys)[newKey := Active]
    {
      if !outcome.Rejected? { keys := keys[newKey := Active]; }
      ok := outcome.Written?;
    }

    method HandleRefresh(
      cookie: Option<string>, users: set<string>, newKey: Key, now: int, io: Answers) returns (reply: Reply)
      requires ParseRefreshToken(cookie).Some? ==>
          Reports(io.revocation.turns, keys, ParseRefreshToken(cookie).value.user)
      modifies this
      ensures ParseRefreshToken(cookie).None? ==> reply == Malformed && keys == old(keys)
      ensures ParseRefreshToken(cookie).Some? ==>
                (keys, reply) == Refresh(old(keys), users, ParseRefreshToken(cookie).value, newKey, now, io)
    {
      var parsed := ParseRefreshToken(cookie);
      if parsed.None? { return Malformed; }
      reply := RefreshWith(parsed.value, users, newKey, now, io);
    }

    /** The handler from the lookup of the key in Redis on. */
    method RefreshWith(key: Key, users: set<string>, newKey: Key, now: int, io: Answers) returns (reply: Reply)
      requires Reports(io.revocation.turns, keys, key.user)
      modifies this
      ensures (keys, reply) == Refresh(old(keys), users, key, newKey, now, io)
      ensures !io.read ==> reply == ServerError && keys == old(keys)
      ensures io.read && (key !in old(keys) || old(keys)[key].Garbage?) ==> reply == SessionExpired && keys == old(keys)
      ensures io.read && key in old(keys) && old(keys)[key].Rotated? && now - old(keys)[key].at > 10000 ==>
                && reply == (if io.revocation.Succeeds() && io.logged then Compromised else SessionExpired)
                && (io.revocation.Succeeds() ==> forall k :: k in keys <==> k in old(keys) && k.user != key.user)
                && (forall k :: k in keys ==> k in old(keys) && keys[k] == old(keys)[k])
      ensures io.read && key in old(keys) && old(keys)[key].Active? && !io.rotation.Written? ==>
                && reply == ServerError
                && keys == if io.rotation.Rejected? then old(keys) else old(keys)[key := Rotated(now)]
      ensures io.read && key in old(keys) && old(keys)[key].Active? && io.rotation.Written? ==>
                && reply == (if !io.looked then ServerError else if key.user !in users then UserNotFound
                             else if io.stored.Written? then Issued(newKey) else ServerError)
                && keys == if io.looked && key.user in users && !io.stored.Rejected?
                           then old(keys)[key := Rotated(now)][newKey := Active] else old(keys)[key := Rotated(now)]
      ensures io.read && key in old(keys)
              && (old(keys)[key].OtherJson? || (old(keys)[key].Rotated? && now - old(keys)[key].at <= 10000)) ==>
                && reply == (if !io.looked then ServerError else if key.user !in users then UserNotFound
                             else if io.stored.Written? then Issued(newKey) else ServerError)
                && keys == if io.looked && key.user in users && !io.stored.Rejected?
                           then old(keys)[newKey := Active] else old(keys)
    {
      if !io.read { return ServerError; }
      if key !in keys { return SessionExpired; }
      match keys[key] {
        case Garbage => return SessionExpired;
        case OtherJson =>
        case Rotated(at) =>
          if now - at > GRACE_MS {
            var revoked := InvalidateAll(key.user, io.revocation);
            return if revoked && io.logged then Compromised else SessionExpired;
          }
        case Active =>
          if !io.rotation.Rejected? { keys := keys[key := Rotated(now)]; }
          if !io.rotation.Written? { return ServerError; }
      }
      if !io.looked { return ServerError; }
      if key.user !in users { return UserNotFound; }
      var ok := CreateSession(newKey, io.stored);
      reply := if ok then Issued(newKey) else ServerError;
    }
  }

  // ---------------------------------------------------------------- runs

  datatype Issue = Issue(key: Key, at: int)

  /** `born` are the keys ever stored; `rotatedAt` and `issues` are history: first uses, and refreshes granted. */
  datatype State = State(
    keys: Keys, users: set<string>, now: int, born: set<Key>, rotatedAt: map<Key, int>, issues: seq<Issue>)

  datatype Action =
    | SignIn(newKey: Key)
    | DoRefresh(key: Key, newKey: Key, io: Answers)
    | Logout(key: Key)
    | RevokeAll(user: string, revocation: Revocation)
    | Expire(key: Key)
    | DeleteUser(user: string)
    | Tick(now: int)

  function Refreshed(s: State, key: Key, newKey: Key, io: Answers): State {
    var (keys, reply) := Refresh(s.keys, s.users, key, newKey, s.now, io);
    s.(keys := keys,
       rotatedAt := if key in s.keys && s.keys[key].Active? && key in keys && keys[key].Rotated?
                    then s.rotatedAt[key := s.now] else s.rotatedAt,
       born := if newKey in keys then s.born + {newKey} else s.born,
       issues := if reply.Issued? then s.issues + [Issue(key, s.now)] else s.issues)
  }

  ghost predicate Init(s: State) { s.keys == map[] && s.born == {} && s.rotatedAt == map[] && s.issues == [] }

  ghost predicate Next(s: State, a: Action, s': State) {
    match a
    case SignIn(k) =>
      k !in s.born && s' == s.(keys := s.keys[k := Active], born := s.born + {k}, users := s.users + {k.user})
    case DoRefresh(k, newKey, io) =>
      && newKey !in s.born && newKey.user == k.user && Reports(io.revocation.turns, s.keys, k.user)
      && s' == Refreshed(s, k, newKey, io)
    case Logout(k) => s' == s.(keys := s.keys - {k})
    case RevokeAll(user, io) => Reports(io.turns, s.keys, user) && s' == s.(keys := Revoked(s.keys, io))
    case Expire(k) => s' == s.(keys := s.keys - {k})
    case DeleteUser(user) => s' == s.(users := s.users - {user})
    case Tick(now) => s.now <= now && s' == s.(now := now)
  }

  ghost predicate KeyTrue(s: State, k: Key) {
    && (k in s.keys ==> k in s.born && (s.keys[k].Active? || s.keys[k].Rotated?))
    && (k in s.keys && s.keys[k].Active? ==> k !in s.rotatedAt)
    && (k in s.keys && s.keys[k].Rotated? ==> k in s.rotatedAt && s.rotatedAt[k] == s.keys[k].at)
    && (k in s.rotatedAt ==> k in s.born && s.rotatedAt[k] <= s.now)
  }

  ghost predicate IssueTrue(s: State, i: nat) {
    && i < |s.issues|
    && var issue := s.issues[i];
       issue.key in s.rotatedAt && s.rotatedAt[issue.key] <= issue.at <= s.rotatedAt[issue.key] + GRACE_MS
  }

  ghost predicate Inv(s: State) {
    (forall k :: KeyTrue(s, k)) && forall i :: 0 <= i < |s.issues| ==> IssueTrue(s, i)
  }

  lemma KeyKept(s: State, a: Action, s': State, k: Key)
    requires Inv(s) && Next(s, a, s')
    ensures KeyTrue(s', k)
  {
    assert KeyTrue(s, k);
    if a.DoRefresh? { assert KeyTrue(s, a.key); }
  }

  lemma IssueKept(s: State, a: Action, s': State, i: nat)
    requires Inv(s) && Next(s, a, s') && i < |s'.issues|
    ensures IssueTrue(s', i)
  {
    if i < |s.issues| { assert IssueTrue(s, i); }
    if a.DoRefresh? { assert KeyTrue(s, a.key); }
  }

  lemma StepKeepsInv(s: State, a: Action, s': State)
    requires Inv(s) && Next(s, a, s')
    ensures Inv(s')
  {
    forall k ensures KeyTrue(s', k) { KeyKept(s, a, s', k); }
    forall i | 0 <= i < |s'.issues| ensures IssueTrue(s', i) { IssueKept(s, a, s', i); }
  }

  lemma RunKeepsInv(states: seq<State>, actions: seq<Action>)
    requires IsRun(Init, Next, states, actions)
    ensures forall i :: 0 <= i < |states| ==> Inv(states[i])
  {
    forall s, a, s' | Inv(s) && Next(s, a, s') ensures Inv(s') { StepKeepsInv(s, a, s'); }
    Invariance(Init, Next, Inv, states, actions);
  }

  // ---------------------------------------------------------------- the life of a key

  datatype Life = Unborn | Live | Used(at: int) | Gone

  function LifeOf(s: State, k: Key): Life {
    if k !in s.born then Unborn
    else if k !in s.keys then Gone
    else if s.keys[k].Rotated? then Used(s.keys[k].at) else Live
  }

  /** A key only moves on: unborn, live, used at a fixed time, gone. */
  predicate MovesOn(l: Life, l': Life) {
    l == l' || l.Unborn? || l'.Gone? || (l.Live? && l'.Used?)
  }

  ghost predicate AllMoveOn(s: State, s': State) { forall k :: MovesOn(LifeOf(s, k), LifeOf(s', k)) }

  lemma StepMovesOn(s: State, a: Action, s': State, k: Key)
    requires Inv(s) && Next(s, a, s')
    ensures MovesOn(LifeOf(s, k), LifeOf(s', k))
  {
    assert KeyTrue(s, k);
    if a.DoRefresh? { assert KeyTrue(s, a.key); }
  }

  lemma KeysOnlyMoveOn(states: seq<State>, actions: seq<Action>, i: nat, j: nat, k: Key)
    requires IsRun(Init, Next, states, actions) && i <= j < |states|
    ensures MovesOn(LifeOf(states[i], k), LifeOf(states[j], k))
  {
    RunKeepsInv(states, actions);
    forall n | 0 <= n < |actions| ensures AllMoveOn(states[n], states[n + 1]) {
      forall k' ensures MovesOn(LifeOf(states[n], k'), LifeOf(states[n + 1], k')) {
        StepMovesOn(states[n], actions[n], states[n + 1], k');
      }
    }
    forall s, t, u | AllMoveOn(s, t) && AllMoveOn(t, u) ensures AllMoveOn(s, u) {
      forall k' ensures MovesOn(LifeOf(s, k'), LifeOf(u, k')) {
        assert MovesOn(LifeOf(s, k'), LifeOf(t, k')) && MovesOn(LifeOf(t, k'), LifeOf(u, k'));
      }
    }
    Monotonicity(Init, Next, AllMoveOn, states, actions, i, j);
  }

  /** Over a whole run, any two sessions issued for one refresh key are issued within ten seconds of each other. */
  lemma IssuesWithinGrace(states: seq<State>, actions: seq<Action>, n: nat, i: nat, j: nat)
    requires IsRun(Init, Next, states, actions) && n < |states|
    requires i < |states[n].issues| && j < |states[n].issues| && states[n].issues[i].key == states[n].issues[j].key
    ensures states[n].issues[i].at - states[n].issues[j].at <= 10000
  {
    RunKeepsInv(states, actions);
    assert IssueTrue(states[n], i) && IssueTrue(states[n], j);
  }

  /**
    A session is issued exactly while its key is active or within its grace, for a user that exists,
    when everything asked on the way answers.
    */
  lemma IssuedExactly(s: State, key: Key, newKey: Key, io: Answers)
    requires Inv(s)
    ensures |Refreshed(s, key, newKey, io).issues| > |s.issues| <==>
      && io.read && io.looked && io.stored.Written? && key.user in s.users
      && ((LifeOf(s, key).Live? && io.rotation.Written?)
          || (LifeOf(s, key).Used? && s.now - LifeOf(s, key).at <= 10000))
  {
    assert KeyTrue(s, key);
  }

  // ---------------------------------------------------------------- what is issued can be used

  /** When a key is issued it is stored, active; the one used is spent, and no other changes. */
  lemma IssuedKeyIsStored(s: State, key: Key, newKey: Key, io: Answers)
    requires Inv(s) && newKey !in s.born && Refresh(s.keys, s.users, key, newKey, s.now, io).1 == Issued(newKey)
    ensures
      var keys := Refresh(s.keys, s.users, key, newKey, s.now, io).0;
      && newKey in keys && keys[newKey] == Active
      && key in s.keys && key in keys && keys[key] == (if s.keys[key].Active? then Rotated(s.now) else s.keys[key])
      && (forall k :: k != key && k != newKey ==> (k in keys <==> k in s.keys))
      && (forall k :: k != key && k != newKey && k in keys ==> keys[k] == s.keys[k])
  {
    assert KeyTrue(s, key) && KeyTrue(s, newKey);
  }

  /** The step uses the key, logs it out, lets it expire, or is one that revokes the keys of its user. */
  predicate Disturbs(s: State, a: Action, k: Key) {
    match a
    case DoRefresh(key, _, _) =>
      key == k || (key.user == k.user && LifeOf(s, key).Used? && s.now - LifeOf(s, key).at > 10000)
    case Logout(key) => key == k
    case Expire(key) => key == k
    case RevokeAll(user, _) => user == k.user
    case _ => false
  }

  lemma StaysActive(s: State, a: Action, s': State, k: Key)
    requires Inv(s) && Next(s, a, s') && k in s.keys && s.keys[k] == Active && !Disturbs(s, a, k)
    ensures k in s'.keys && s'.keys[k] == Active
  {
    assert KeyTrue(s, k);
    match a
    case DoRefresh(key, newKey, io) =>
      assert KeyTrue(s, key) && KeyTrue(s, newKey);
      OthersAreSpared(s.keys, key.user, io.revocation);
    case RevokeAll(user, io) => OthersAreSpared(s.keys, user, io);
    case _ =>
  }

  lemma {:induction false} StaysActiveInRun(states: seq<State>, actions: seq<Action>, i: nat, j: nat, k: Key)
    requires IsRun(Init, Next, states, actions) && i <= j < |states|
    requires k in states[i].keys && states[i].keys[k] == Active
    requires forall m :: i <= m < j ==> !Disturbs(states[m], actions[m], k)
    ensures k in states[j].keys && states[j].keys[k] == Active
  {
    if i < j {
      StaysActiveInRun(states, actions, i, j - 1, k);
      RunKeepsInv(states, actions);
      assert Next(states[j - 1], actions[j - 1], states[j - 1 + 1]);
      StaysActive(states[j - 1], actions[j - 1], states[j], k);
    }
  }

  /**
    Over every run: a key that a refresh has issued is good for the next one, however much later, unless it
    was used, logged out or expired meanwhile or its user's keys were revoked: if the user still exists and
    everything asked answers, that refresh issues a session too.
    */
  lemma IssuedKeyIsGood(states: seq<State>, actions: seq<Action>, i: nat, j: nat, newest: Key, io: Answers)
    requires IsRun(Init, Next, states, actions) && i < j < |states| && actions[i].DoRefresh?
    requires |states[i + 1].issues| > |states[i].issues|
    requires forall m :: i < m < j ==> !Disturbs(states[m], actions[m], actions[i].newKey)
    requires io.read && io.rotation.Written? && io.looked && io.stored.Written?
    requires actions[i].newKey.user in states[j].users
    ensures Refresh(states[j].keys, states[j].users, actions[i].newKey, newest, states[j].now, io).1 == Issued(newest)
  {
    var s, a := states[i], actions[i];
    assert Next(s, a, states[i + 1]);
    RunKeepsInv(states, actions);
    IssuedKeyIsStored(s, a.key, a.newKey, a.io);
    StaysActiveInRun(states, actions, i + 1, j, a.newKey);
  }

  /**
    A replay after the grace: if the reply says compromised the user is left without any refresh key;
    otherwise some call failed and the reply says expired.  Nothing of other users goes in either
    case, and everything of the user's goes exactly if each key is in a DEL that took effect, which
    a revocation without failures ensures.
    */
  lemma ReplayRevokesExactly(s: State, key: Key, newKey: Key, io: Answers)
    requires LifeOf(s, key).Used? && s.now - LifeOf(s, key).at > 10000
    requires io.read && Reports(io.revocation.turns, s.keys, key.user)
    ensures
      var (keys, reply) := Refresh(s.keys, s.users, key, newKey, s.now, io);
      && (reply == Compromised <==> io.revocation.Succeeds() && io.logged)
      && (reply == Compromised || reply == SessionExpired)
      && (io.revocation.Succeeds() ==> forall k :: k in keys <==> k in s.keys && k.user != key.user)
      && (forall k :: k in keys ==> k in s.keys && keys[k] == s.keys[k])
      && (forall k :: k in s.keys && k.user != key.user ==> k in keys)
      && ((forall k :: k in keys ==> k.user != key.user) <==>
            && io.revocation.mark.Written?
            && forall k :: k in s.keys && k.user == key.user ==> k in Deleted(io.revocation.turns))
  {
    RevokedIs(s.keys, key.user, io.revocation);
    OthersAreSpared(s.keys, key.user, io.revocation);
  }

  ghost predicate Reachable(s: State) { Reached(Init, Next, s) }

  lemma Take(s: State, a: Action, s': State)
    requires Reachable(s) && Next(s, a, s')
    ensures Reachable(s')
  {
    ReachedNext(Init, Next, s, a, s');
  }

  /** The exception is real: a replay whose first SCAN fails leaves the successor's key live, and answers expired. */
  lemma FailedScanKeepsKeys(user: string) returns (s: State, s': State, key: Key, successor: Key, io: Answers)
    ensures Reachable(s) && Next(s, DoRefresh(key, Key(user, "c"), io), s') && key.user == successor.user == user
    ensures LifeOf(s, key).Used? && s.now - LifeOf(s, key).at > 10000 && LifeOf(s', successor).Live?
    ensures Refresh(s.keys, s.users, key, Key(user, "c"), s.now, io).1 == SessionExpired
  {
    key, successor := Key(user, "a"), Key(user, "b");
    var none := Revocation(Written, [Turn(false, [], Written)], Written);
    io := Answers(true, none, true, Written, true, Written);
    var s0 := State(map[], {}, 0, {}, map[], []);
    ReachedInitially(Init, Next, s0);
    var s1 := State(map[key := Active], {user}, 0, {key}, map[], []);
    Take(s0, SignIn(key), s1);
    var s2 := Refreshed(s1, key, successor, io);
    assert !none.turns[0].answered;
    Take(s1, DoRefresh(key, successor, io), s2);
    s := s2.(now := 10000 + 1);
    Take(s2, Tick(10000 + 1), s);
    s' := Refreshed(s, key, Key(user, "c"), io);
  }
}
