/**
  The concurrent control plane of one sandbox session: any number of Create and Destroy calls,
  interleaved one critical section (or one awaited Redis or provider call) at a time, with
  Redis writes that may fail, records that expire and a worker that restarts.  Sessions share
  nothing but the two maps of the manager, whose methods (see SessionManager) each touch one entry.
  */
module SessionControl {
  import opened Wrappers
  import opened Runs

  type Id = string

  /** The runtime id that Create stores while the container does not exist yet. */
  const PROVISIONING := "provisioning"

  datatype SessionData = SessionData(
    sessionId: Id, runtimeId: string, userId: string, challengeId: string,
    image: string, provider: string, createdAt: int, workerAddr: string)

  /** What a Redis key holds: an entry that decrypts, or one that does not. */
  datatype Stored = Readable(data: SessionData) | Corrupt

  datatype Lookup = Found(data: SessionData) | Missing | Unreadable

  function StoreGet(stored: Option<Stored>): Lookup {
    match stored
    case None => Missing
    case Some(Corrupt) => Unreadable
    case Some(Readable(data)) => Found(data)
  }

  /** Manager.Get with Redis reachable: the index first, then Redis. */
  function ManagerGet(entry: Option<SessionData>, stored: Option<Stored>): Lookup {
    if entry.Some? then Found(entry.value) else StoreGet(stored)
  }

  /** What a starting worker puts in its index; an unreadable entry is skipped. */
  function Adopted(stored: Option<Stored>): Option<SessionData> {
    match stored
    case Some(Readable(data)) => Some(data)
    case _ => None
  }

  // ---------------------------------------------------------------- calls

  /** The arguments of Create; `provider` is already trimmed, lower-cased and defaulted. */
  datatype Request = Request(sessionId: Id, userId: string, challengeId: string, image: string, provider: string)

  datatype Reply = Created(data: SessionData) | Failed

  function DataFor(req: Request, runtimeId: string, now: int, worker: string): SessionData {
    SessionData(req.sessionId, runtimeId, req.userId, req.challengeId, req.image, req.provider, now, worker)
  }

  /** Where a Create call stands; each stage names the next critical section or awaited call. */
  datatype Stage =
    | Waiting
    | Checking
    | Announcing
    | Provisioning
    | Withdrawing
    | Persisting(data: SessionData)
    | Discarding(data: SessionData)
    | Registering(data: SessionData)
    | Unlocking(reply: Reply)
    | Done(reply: Reply)
  {
    predicate Live() { !Done? }

    /** The stages that hold the session's mutex. */
    predicate Locked() { !Waiting? && !Done? }

    /** Between the existence check and the registration. */
    predicate Critical() { Locked() && !Checking? && !Unlocking? }

    /** The stages that carry a container no one else knows of. */
    predicate Holding() { Persisting? || Discarding? || Registering? }

    predicate Answered() { (Unlocking? || Done?) && reply.Created? }
  }

  datatype Call = Call(req: Request, mutex: nat, era: nat, stage: Stage)

  datatype DestroyStage =
    | Looking
    | Asking
    | Removing(data: SessionData)
    | Deleting
    | Forgetting
    | Finished

  /** History: what became of a provisioned container. */
  datatype Fate = Carried(call: nat) | Indexed | Removed | RemoveFailed | Orphaned

  /**
    `entry` and `inFlight` are the session's entries in the manager's two maps, `stored` is its
    Redis key, `owners` says which call holds each locked mutex.  History variables: `boots`
    counts restarts, `era` counts restarts and completed destroys, `records` keeps what the index
    held in each era, and `containers` what became of every container provisioned.
    */
  datatype State = State(
    worker: string, hasProvider: bool,
    entry: Option<SessionData>, inFlight: Option<nat>, stored: Option<Stored>, owners: map<nat, nat>,
    calls: map<nat, Call>, destroys: map<nat, DestroyStage>,
    containers: map<string, Fate>, boots: nat, era: nat, records: map<nat, SessionData>)

  // ---------------------------------------------------------------- steps

  datatype Action =
    | Begin(call: nat, req: Request, newMutex: nat)
    | Lock(call: nat)
    | Check(call: nat)
    | Announce(call: nat, written: bool, now: int)
    | ProvisionOk(call: nat, container: string, now: int)
    | ProvisionErr(call: nat)
    | Withdraw(call: nat, deleted: bool)
    | Persist(call: nat, outcome: WriteOutcome)
    | Discard(call: nat, removed: bool)
    | Register(call: nat)
    | Unlock(call: nat)
    | DestroyBegin(destroy: nat)
    | DestroyLook(destroy: nat)
    | DestroyAsk(destroy: nat, reachable: bool)
    | DestroyRemove(destroy: nat, removed: bool)
    | DestroyDelete(destroy: nat, deleted: bool)
    | DestroyForget(destroy: nat)
    | Expire
    | Damage
    | Restart(read: bool)
  {
    /** Up to the moment its container exists. */
    predicate Early() {
      Begin? || Lock? || Check? || Announce? || ProvisionOk? || ProvisionErr? || Withdraw?
    }

    /** From the moment its container exists to its return. */
    predicate Late() { Persist? || Discard? || Register? || Unlock? }
  }

  predicate Quiet(s: State) { forall c :: c in s.calls ==> !s.calls[c].stage.Live() }

  predicate NoDestroy(s: State) { forall d :: d in s.destroys ==> s.destroys[d].Finished? }

  /** When the code can take a step. */
  predicate Possible(s: State, a: Action) {
    match a
    case Begin(c, _, newMutex) => c !in s.calls && forall e :: e in s.calls ==> s.calls[e].mutex != newMutex
    case Lock(c) => c in s.calls && s.calls[c].stage.Waiting? && s.calls[c].mutex !in s.owners
    case Check(c) => c in s.calls && s.calls[c].stage.Checking?
    case Announce(c, _, _) => c in s.calls && s.calls[c].stage.Announcing?
    case ProvisionOk(c, id, _) =>
      c in s.calls && s.calls[c].stage.Provisioning? && id !in s.containers && id != PROVISIONING
    case ProvisionErr(c) => c in s.calls && s.calls[c].stage.Provisioning?
    case Withdraw(c, _) => c in s.calls && s.calls[c].stage.Withdrawing?
    case Persist(c, _) => c in s.calls && s.calls[c].stage.Persisting?
    case Discard(c, _) => c in s.calls && s.calls[c].stage.Discarding?
    case Register(c) => c in s.calls && s.calls[c].stage.Registering?
    case Unlock(c) => c in s.calls && s.calls[c].stage.Unlocking?
    case DestroyBegin(d) => d !in s.destroys
    case DestroyLook(d) => d in s.destroys && s.destroys[d].Looking?
    case DestroyAsk(d, _) => d in s.destroys && s.destroys[d].Asking?
    case DestroyRemove(d, _) => d in s.destroys && s.destroys[d].Removing?
    case DestroyDelete(d, _) => d in s.destroys && s.destroys[d].Deleting?
    case DestroyForget(d) => d in s.destroys && s.destroys[d].Forgetting?
    case Expire => s.stored.Some?
    case Damage => s.stored.Some?
    case Restart(_) => true
  }

  /** The scope of the claims: no Destroy of the session overlaps a Create of it. */
  predicate InScope(s: State, a: Action) {
    (a.Begin? ==> NoDestroy(s)) && (a.DestroyBegin? ==> Quiet(s))
  }

  function To(s: State, c: nat, stage: Stage): State
    requires c in s.calls
  {
    s.(calls := s.calls[c := s.calls[c].(stage := stage)])
  }

  function Mark(containers: map<string, Fate>, c: string, fate: Fate): map<string, Fate> {
    if c in containers then containers[c := fate] else containers
  }

  /** A restart keeps a container that was indexed or carried only if the adopted record names it. */
  function FateAfterRestart(fate: Fate, c: string, entry: Option<SessionData>): Fate {
    if !fate.Indexed? && !fate.Carried? then fate
    else if entry.Some? && entry.value.runtimeId == c then Indexed
    else Orphaned
  }

  function Begun(s: State, c: nat, req: Request, newMutex: nat): State {
    var m := if s.inFlight.Some? then s.inFlight.value else newMutex;
    s.(inFlight := Some(m), calls := s.calls[c := Call(req, m, s.era, Waiting)])
  }

  function LockTaken(s: State, c: nat): State
    requires c in s.calls
  {
    To(s.(owners := s.owners[s.calls[c].mutex := c]), c, Checking)
  }

  function Checked(s: State, c: nat): State
    requires c in s.calls
  {
    To(s, c, if s.entry.Some? then Unlocking(Created(s.entry.value))
             else if !s.hasProvider then Unlocking(Failed) else Announcing)
  }

  function Announced(s: State, c: nat, written: bool, now: int): State
    requires c in s.calls
  {
    var data := DataFor(s.calls[c].req, PROVISIONING, now, s.worker);
    To(s.(stored := if written then Some(Readable(data)) else s.stored), c, Provisioning)
  }

  function Provisioned(s: State, c: nat, id: string, now: int): State
    requires c in s.calls
  {
    To(s.(containers := s.containers[id := Carried(c)]), c, Persisting(DataFor(s.calls[c].req, id, now, s.worker)))
  }

  function ProvisionFailed(s: State, c: nat): State
    requires c in s.calls
  {
    To(s, c, Withdrawing)
  }

  function Withdrawn(s: State, c: nat, deleted: bool): State
    requires c in s.calls
  {
    To(s.(stored := if deleted then None else s.stored), c, Unlocking(Failed))
  }

  function Persisted(s: State, c: nat, outcome: WriteOutcome): State
    requires c in s.calls && s.calls[c].stage.Persisting?
  {
    var data := s.calls[c].stage.data;
    To(s.(stored := if outcome.Rejected? then s.stored else Some(Readable(data))), c,
       if outcome.Written? then Registering(data) else Discarding(data))
  }

  function Discarded(s: State, c: nat, removed: bool): State
    requires c in s.calls && s.calls[c].stage.Discarding?
  {
    var fate := if removed then Removed else RemoveFailed;
    To(s.(containers := Mark(s.containers, s.calls[c].stage.data.runtimeId, fate)), c, Unlocking(Failed))
  }

  function Registered(s: State, c: nat): State
    requires c in s.calls && s.calls[c].stage.Registering?
  {
    var data := s.calls[c].stage.data;
    To(s.(entry := Some(data), inFlight := None, records := s.records[s.era := data],
          containers := Mark(s.containers, data.runtimeId, Indexed)), c, Unlocking(Created(data)))
  }

  function Unlocked(s: State, c: nat): State
    requires c in s.calls && s.calls[c].stage.Unlocking?
  {
    To(s.(owners := s.owners - {s.calls[c].mutex}), c, Done(s.calls[c].stage.reply))
  }

  function DestroyBegun(s: State, d: nat): State {
    s.(destroys := s.destroys[d := Looking])
  }

  function DestroyLooked(s: State, d: nat): State {
    s.(destroys := s.destroys[d := if s.entry.Some? then Removing(s.entry.value) else Asking])
  }

  function DestroyAsked(s: State, d: nat, reachable: bool): State {
    var found := StoreGet(s.stored);
    s.(destroys := s.destroys[d := if reachable && found.Found? then Removing(found.data) else Finished])
  }

  function DestroyRemoved(s: State, d: nat, removed: bool): State
    requires d in s.destroys && s.destroys[d].Removing?
  {
    var fate := if removed then Removed else RemoveFailed;
    s.(containers := Mark(s.containers, s.destroys[d].data.runtimeId, fate), destroys := s.destroys[d := Deleting])
  }

  function DestroyDeleted(s: State, d: nat, deleted: bool): State {
    s.(stored := if deleted then None else s.stored, destroys := s.destroys[d := Forgetting])
  }

  function Forgotten(s: State, d: nat): State {
    s.(entry := None, era := s.era + 1, destroys := s.destroys[d := Finished])
  }

  function Expired(s: State): State {
    s.(stored := None)
  }

  function Damaged(s: State): State {
    s.(stored := Some(Corrupt))
  }

  /** At the start a key whose read fails is skipped like one that has expired. */
  function Restarted(s: State, read: bool): State {
    var entry := if read then Adopted(s.stored) else None;
    s.(entry := entry, inFlight := None, owners := map[], destroys := map[],
       calls := map c | c in s.calls && !s.calls[c].stage.Live() :: s.calls[c],
       containers := map c | c in s.containers :: FateAfterRestart(s.containers[c], c, entry),
       boots := s.boots + 1, era := s.era + 1,
       records := if entry.Some? then s.records[s.era + 1 := entry.value] else s.records)
  }

  function Apply(s: State, a: Action): State
    requires Possible(s, a)
  {
    match a
    case Begin(c, req, newMutex) => Begun(s, c, req, newMutex)
    case Lock(c) => LockTaken(s, c)
    case Check(c) => Checked(s, c)
    case Announce(c, written, now) => Announced(s, c, written, now)
    case ProvisionOk(c, id, now) => Provisioned(s, c, id, now)
    case ProvisionErr(c) => ProvisionFailed(s, c)
    case Withdraw(c, deleted) => Withdrawn(s, c, deleted)
    case Persist(c, outcome) => Persisted(s, c, outcome)
    case Discard(c, removed) => Discarded(s, c, removed)
    case Register(c) => Registered(s, c)
    case Unlock(c) => Unlocked(s, c)
    case DestroyBegin(d) => DestroyBegun(s, d)
    case DestroyLook(d) => DestroyLooked(s, d)
    case DestroyAsk(d, reachable) => DestroyAsked(s, d, reachable)
    case DestroyRemove(d, removed) => DestroyRemoved(s, d, removed)
    case DestroyDelete(d, deleted) => DestroyDeleted(s, d, deleted)
    case DestroyForget(d) => Forgotten(s, d)
    case Expire => Expired(s)
    case Damage => Damaged(s)
    case Restart(read) => Restarted(s, read)
  }

  ghost predicate Init(s: State) {
    && s.entry == None && s.inFlight == None && s.stored == None && s.owners == map[]
    && s.calls == map[] && s.destroys == map[] && s.containers == map[]
    && s.boots == 0 && s.era == 0 && s.records == map[]
  }

  /** Any step of the code, Destroy overlapping Create included. */
  ghost predicate AnyNext(s: State, a: Action, s': State) { Possible(s, a) && s' == Apply(s, a) }

  ghost predicate Next(s: State, a: Action, s': State) { AnyNext(s, a, s') && InScope(s, a) }

  // ---------------------------------------------------------------- mutual exclusion

  /**
    The key invariant: a call past the lock owns its mutex; until the session is registered every
    live call waits for, or owns, the one mutex in the in-flight map; once it is registered no call
    is past the existence check.
    */
  ghost predicate CallOrderly(s: State, c: nat) {
    && c in s.calls
    && var call := s.calls[c];
       && (call.stage.Locked() ==> call.mutex in s.owners && s.owners[call.mutex] == c)
       && (call.stage.Live() ==> if s.entry.Some? then !call.stage.Critical() else s.inFlight == Some(call.mutex))
  }

  /** Destroys and creates do not overlap. */
  ghost predicate Separate(s: State) { Quiet(s) || NoDestroy(s) }

  ghost predicate Exclusive(s: State) { Separate(s) && forall c :: c in s.calls ==> CallOrderly(s, c) }

  /** Two calls are never both between the existence check and the registration. */
  ghost predicate AtMostOneCreator(s: State) {
    forall c, e | c in s.calls && e in s.calls :: s.calls[c].stage.Critical() && s.calls[e].stage.Critical() ==> c == e
  }

  lemma ExclusiveImpliesOne(s: State)
    requires Exclusive(s)
    ensures AtMostOneCreator(s)
  {
    forall c, e | c in s.calls && e in s.calls && s.calls[c].stage.Critical() && s.calls[e].stage.Critical()
      ensures c == e
    {
      assert CallOrderly(s, c) && CallOrderly(s, e);
    }
  }

  lemma EarlyCallOrderly(s: State, a: Action, s': State, c: nat)
    requires Exclusive(s) && Next(s, a, s') && c in s'.calls && a.Early()
    ensures CallOrderly(s', c)
  {
    if c in s.calls { assert CallOrderly(s, c); }
  }

  lemma LateCallOrderly(s: State, a: Action, s': State, c: nat)
    requires Exclusive(s) && Next(s, a, s') && c in s'.calls && a.Late()
    ensures CallOrderly(s', c)
  {
    assert CallOrderly(s, c);
  }

  lemma OtherCallOrderly(s: State, a: Action, s': State, c: nat)
    requires Exclusive(s) && Next(s, a, s') && c in s'.calls && !a.Early() && !a.Late()
    ensures CallOrderly(s', c)
  {
    assert CallOrderly(s, c);
  }

  lemma ExclusiveKept(s: State, a: Action, s': State)
    requires Exclusive(s) && Next(s, a, s')
    ensures Exclusive(s')
  {
    forall c | c in s'.calls ensures CallOrderly(s', c) {
      if a.Early() { EarlyCallOrderly(s, a, s', c); }
      else if a.Late() { LateCallOrderly(s, a, s', c); }
      else { OtherCallOrderly(s, a, s', c); }
    }
    SeparateKept(s, a, s');
  }

  lemma SeparateKept(s: State, a: Action, s': State)
    requires Separate(s) && Next(s, a, s')
    ensures Separate(s')
  {}

  // ---------------------------------------------------------------- cache coherence

  /** A session both in the index and readable in Redis has the same record in each. */
  ghost predicate SameRecord(s: State) {
    s.entry.Some? && s.stored.Some? && s.stored.value.Readable? ==> s.stored.value.data == s.entry.value
  }

  /** A call about to register has in Redis the very record it will register, or no readable one. */
  ghost predicate RegisteringRecord(s: State) {
    forall c :: c in s.calls && s.calls[c].stage.Registering? && s.stored.Some? && s.stored.value.Readable? ==>
      s.stored.value.data == s.calls[c].stage.data
  }

  ghost predicate Coherent(s: State) { SameRecord(s) && RegisteringRecord(s) }

  lemma SameRecordKept(s: State, a: Action, s': State)
    requires Exclusive(s) && Coherent(s) && Next(s, a, s')
    ensures SameRecord(s')
  {}

  lemma CoherentKept(s: State, a: Action, s': State)
    requires Exclusive(s) && Coherent(s) && Next(s, a, s')
    ensures Coherent(s')
  {
    SameRecordKept(s, a, s');
    ExclusiveImpliesOne(s);
  }

  // ---------------------------------------------------------------- agreement of replies

  ghost predicate CallAgrees(s: State, c: nat) {
    && c in s.calls
    && var call := s.calls[c];
       && call.era <= s.era
       && (call.stage.Live() ==> call.era == s.era)
       && (call.stage.Answered() ==> call.era in s.records && s.records[call.era] == call.stage.reply.data)
  }

  ghost predicate RecordsTrue(s: State) {
    && (forall era :: era in s.records ==> era <= s.era)
    && (s.entry.Some? <==> s.era in s.records)
    && (s.entry.Some? ==> s.records[s.era] == s.entry.value)
  }

  ghost predicate Agreeing(s: State) {
    RecordsTrue(s) && forall c :: c in s.calls ==> CallAgrees(s, c)
  }

  /** Successful Create calls of one era answer with the same record. */
  ghost predicate SameAnswers(s: State) {
    forall c, e | c in s.calls && e in s.calls && s.calls[c].stage.Answered() && s.calls[e].stage.Answered() ::
      s.calls[c].era == s.calls[e].era ==> s.calls[c].stage.reply == s.calls[e].stage.reply
  }

  lemma EarlyCallAgrees(s: State, a: Action, s': State, c: nat)
    requires Exclusive(s) && Agreeing(s) && Next(s, a, s') && c in s'.calls && a.Early()
    ensures CallAgrees(s', c)
  {
    if c in s.calls { assert CallAgrees(s, c); }
  }

  lemma LateCallAgrees(s: State, a: Action, s': State, c: nat)
    requires Exclusive(s) && Agreeing(s) && Next(s, a, s') && c in s'.calls && a.Late()
    ensures CallAgrees(s', c)
  {
    assert CallAgrees(s, c) && CallOrderly(s, a.call);
  }

  lemma OtherCallAgrees(s: State, a: Action, s': State, c: nat)
    requires Exclusive(s) && Agreeing(s) && Next(s, a, s') && c in s'.calls && !a.Early() && !a.Late()
    ensures CallAgrees(s', c)
  {
    assert CallAgrees(s, c);
  }

  lemma RecordsKept(s: State, a: Action, s': State)
    requires Exclusive(s) && Agreeing(s) && Next(s, a, s')
    ensures RecordsTrue(s')
  {
    if a.Register? { assert CallOrderly(s, a.call); }
  }

  lemma AgreeingKept(s: State, a: Action, s': State)
    requires Exclusive(s) && Agreeing(s) && Next(s, a, s')
    ensures Agreeing(s')
  {
    RecordsKept(s, a, s');
    forall c | c in s'.calls ensures CallAgrees(s', c) {
      if a.Early() { EarlyCallAgrees(s, a, s', c); }
      else if a.Late() { LateCallAgrees(s, a, s', c); }
      else { OtherCallAgrees(s, a, s', c); }
    }
  }

  // ---------------------------------------------------------------- container accounting

  ghost predicate DestroyHonest(s: State, d: nat) {
    && d in s.destroys
    && match s.destroys[d]
       case Asking => s.entry.None?
       case Removing(data) => s.entry.Some? ==> s.entry.value == data
       case Deleting => forall c :: c in s.containers ==> !s.containers[c].Indexed?
       case Forgetting => forall c :: c in s.containers ==> !s.containers[c].Indexed?
       case _ => true
  }

  /** Every container is where its fate says. */
  ghost predicate FateTrue(s: State, c: string) {
    && c in s.containers
    && match s.containers[c]
       case Carried(k) => k in s.calls && s.calls[k].stage.Holding() && s.calls[k].stage.data.runtimeId == c
       case Indexed => s.entry.Some? && s.entry.value.runtimeId == c
       case Orphaned => s.boots > 0
       case _ => true
  }

  ghost predicate HolderCarries(s: State, k: nat) {
    && k in s.calls && s.calls[k].stage.Holding()
    && var c := s.calls[k].stage.data.runtimeId;
       c in s.containers && s.containers[c] == Carried(k)
  }

  ghost predicate Accounted(s: State) {
    && (forall c :: c in s.containers ==> FateTrue(s, c))
    && (forall d :: d in s.destroys ==> DestroyHonest(s, d))
    && (forall k :: k in s.calls && s.calls[k].stage.Holding() ==> HolderCarries(s, k))
  }

  lemma EarlyFate(s: State, a: Action, s': State, c: string)
    requires Accounted(s) && Next(s, a, s') && c in s'.containers && a.Early()
    ensures FateTrue(s', c)
  {
    if c in s.containers { assert FateTrue(s, c); }
  }

  lemma LateFate(s: State, a: Action, s': State, c: string)
    requires Exclusive(s) && Accounted(s) && Next(s, a, s') && c in s'.containers && a.Late()
    ensures FateTrue(s', c)
  {
    assert FateTrue(s, c) && CallOrderly(s, a.call);
  }

  lemma OtherFate(s: State, a: Action, s': State, c: string)
    requires Exclusive(s) && Accounted(s) && Next(s, a, s') && c in s'.containers && !a.Early() && !a.Late()
    ensures FateTrue(s', c)
  {
    assert FateTrue(s, c);
    if a.DestroyForget? { assert DestroyHonest(s, a.destroy); }
  }

  lemma DestroyHonestKeptByCreate(s: State, a: Action, s': State, d: nat)
    requires Exclusive(s) && Accounted(s) && Next(s, a, s') && d in s'.destroys && (a.Early() || a.Late())
    ensures DestroyHonest(s', d)
  {
    assert DestroyHonest(s, d);
  }

  lemma DestroyHonestKeptByOthers(s: State, a: Action, s': State, d: nat)
    requires Exclusive(s) && Accounted(s) && Next(s, a, s') && d in s'.destroys && !a.Early() && !a.Late()
    ensures DestroyHonest(s', d)
  {
    if d in s.destroys { assert DestroyHonest(s, d); }
    if a.DestroyRemove? && a.destroy == d {
      forall c | c in s'.containers ensures !s'.containers[c].Indexed? { assert FateTrue(s, c); }
    }
  }

  lemma HolderKeptByCreate(s: State, a: Action, s': State, k: nat)
    requires Exclusive(s) && Accounted(s) && Next(s, a, s') && k in s'.calls && s'.calls[k].stage.Holding()
    requires a.Early() || a.Late()
    ensures HolderCarries(s', k)
  {
    if !a.Begin? { assert CallOrderly(s, a.call); }
    if k in s.calls && s.calls[k].stage.Holding() { assert HolderCarries(s, k) && CallOrderly(s, k); }
  }

  lemma HolderKeptByOthers(s: State, a: Action, s': State, k: nat)
    requires Exclusive(s) && Accounted(s) && Next(s, a, s') && k in s'.calls && s'.calls[k].stage.Holding()
    requires !a.Early() && !a.Late()
    ensures HolderCarries(s', k)
  {
    assert HolderCarries(s, k);
  }

  lemma AccountedKept(s: State, a: Action, s': State)
    requires Exclusive(s) && Accounted(s) && Next(s, a, s')
    ensures Accounted(s')
  {
    forall c | c in s'.containers ensures FateTrue(s', c) {
      if a.Early() { EarlyFate(s, a, s', c); }
      else if a.Late() { LateFate(s, a, s', c); }
      else { OtherFate(s, a, s', c); }
    }
    forall d | d in s'.destroys ensures DestroyHonest(s', d) {
      if a.Early() || a.Late() {
        DestroyHonestKeptByCreate(s, a, s', d);
      } else {
        DestroyHonestKeptByOthers(s, a, s', d);
      }
    }
    forall k | k in s'.calls && s'.calls[k].stage.Holding() ensures HolderCarries(s', k) {
      if a.Early() || a.Late() { HolderKeptByCreate(s, a, s', k); } else { HolderKeptByOthers(s, a, s', k); }
    }
  }

  // ---------------------------------------------------------------- whole runs

  ghost predicate Inv(s: State) { Exclusive(s) && Coherent(s) && Agreeing(s) && Accounted(s) }

  lemma StepKeepsInv(s: State, a: Action, s': State)
    requires Inv(s) && Next(s, a, s')
    ensures Inv(s')
  {
    ExclusiveKept(s, a, s');
    CoherentKept(s, a, s');
    AgreeingKept(s, a, s');
    AccountedKept(s, a, s');
  }

  lemma RunKeepsInv(states: seq<State>, actions: seq<Action>)
    requires IsRun(Init, Next, states, actions)
    ensures forall i :: 0 <= i < |states| ==> Inv(states[i])
  {
    forall s, a, s' | Inv(s) && Next(s, a, s') ensures Inv(s') { StepKeepsInv(s, a, s'); }
    Invariance(Init, Next, Inv, states, actions);
  }

  /** In every interleaving at most one call is between the existence check and the registration. */
  lemma CreatesAreSerialized(states: seq<State>, actions: seq<Action>, i: nat)
    requires IsRun(Init, Next, states, actions) && i < |states|
    ensures AtMostOneCreator(states[i])
  {
    RunKeepsInv(states, actions);
    ExclusiveImpliesOne(states[i]);
  }

  /** All Create calls of one era that succeed return the same record, hence the same runtime id. */
  lemma CreatesAgree(states: seq<State>, actions: seq<Action>, i: nat)
    requires IsRun(Init, Next, states, actions) && i < |states|
    ensures SameAnswers(states[i])
  {
    RunKeepsInv(states, actions);
    forall c | c in states[i].calls ensures CallAgrees(states[i], c) {}
  }

  /** Nobody has tried to remove the container, nor lost it in a restart. */
  predicate InUse(s: State, c: string) { c in s.containers && (s.containers[c].Indexed? || s.containers[c].Carried?) }

  /** The index names the container, and no one has tried to remove it. */
  predicate Names(s: State, c: string) {
    c in s.containers && s.containers[c].Indexed? && s.entry.Some? && s.entry.value.runtimeId == c
  }

  /** What a worker that starts in `s` adopts names the container. */
  predicate Adopts(s: State, read: bool, c: string) {
    read && Adopted(s.stored).Some? && Adopted(s.stored).value.runtimeId == c
  }

  /** Step `k` of the run is a restart that does not adopt a container which was in use until then. */
  ghost predicate LostByRestart(states: seq<State>, actions: seq<Action>, k: nat, c: string) {
    && k < |actions| && |actions| < |states|
    && actions[k].Restart? && InUse(states[k], c) && !Adopts(states[k], actions[k].read, c)
  }

  lemma OrphansComeFromRestarts(s: State, a: Action, s': State, c: string)
    requires Next(s, a, s') && c in s'.containers && s'.containers[c].Orphaned?
    ensures c in s.containers
    ensures s.containers[c].Orphaned? || (a.Restart? && InUse(s, c) && !Adopts(s, a.read, c))
  {}

  /** Every orphan of a run was lost by one of its restarts. */
  lemma {:induction false} OrphanedByARestart(
    states: seq<State>, actions: seq<Action>, i: nat, c: string) returns (k: nat)
    requires IsRun(Init, Next, states, actions) && i < |states|
    requires c in states[i].containers && states[i].containers[c].Orphaned?
    ensures k < i && LostByRestart(states, actions, k, c)
  {
    assert i > 0 by { assert Init(states[0]); }
    assert Next(states[i - 1], actions[i - 1], states[i - 1 + 1]);
    OrphansComeFromRestarts(states[i - 1], actions[i - 1], states[i], c);
    if states[i - 1].containers[c].Orphaned? {
      k := OrphanedByARestart(states, actions, i - 1, c);
    } else {
      k := i - 1;
    }
  }

  /**
    When no call is under way, every container ever provisioned is the one the index names, or was
    removed, or is one whose removal failed, or was lost by a restart of the run that did not find in
    Redis a record naming it.
    */
  lemma ContainersAreAccountedFor(states: seq<State>, actions: seq<Action>, i: nat, c: string)
    requires IsRun(Init, Next, states, actions) && i < |states| && c in states[i].containers
    ensures FateTrue(states[i], c)
    ensures Quiet(states[i]) ==>
      || states[i].containers[c].Removed? || states[i].containers[c].RemoveFailed? || Names(states[i], c)
      || (states[i].containers[c].Orphaned? && exists k :: 0 <= k < i && LostByRestart(states, actions, k, c))
  {
    RunKeepsInv(states, actions);
    assert FateTrue(states[i], c);
    if states[i].containers[c].Orphaned? {
      var _ := OrphanedByARestart(states, actions, i, c);
    }
  }

  /** In every reachable state the cache and a readable Redis record of the session agree. */
  lemma CacheIsCoherent(states: seq<State>, actions: seq<Action>, i: nat)
    requires IsRun(Init, Next, states, actions) && i < |states|
    ensures SameRecord(states[i])
    ensures states[i].stored.Some? && states[i].stored.value.Readable? ==>
      ManagerGet(states[i].entry, states[i].stored) == StoreGet(states[i].stored)
  {
    RunKeepsInv(states, actions);
  }

  /** A worker that has just restarted answers Get exactly as Redis does. */
  lemma RestartAnswersLikeRedis(s: State, read: bool, s': State)
    requires Next(s, Restart(read), s')
    ensures ManagerGet(s'.entry, s'.stored) == StoreGet(s'.stored)
    ensures s'.stored == s.stored
  {}

  /** The in-flight mutex is dropped only by the step that registers the session, or with the process. */
  lemma MutexDroppedOnlyByRegistering(s: State, a: Action, s': State)
    requires Next(s, a, s') && s.inFlight.Some? && s'.inFlight != s.inFlight
    ensures (a.Register? && s'.entry == Some(s.calls[a.call].stage.data)) || a.Restart?
  {}

  // ---------------------------------------------------------------- no Create waits for ever

  /** A locked mutex is held by a call of that mutex which is past the lock and has not returned. */
  ghost predicate HeldTrue(s: State, m: nat) {
    && m in s.owners
    && var c := s.owners[m];
       c in s.calls && s.calls[c].mutex == m && s.calls[c].stage.Locked()
  }

  ghost predicate AllHeldTrue(s: State) { forall m :: m in s.owners ==> HeldTrue(s, m) }

  lemma HeldKeptByCreate(s: State, a: Action, s': State, m: nat)
    requires AllHeldTrue(s) && AnyNext(s, a, s') && m in s'.owners && (a.Early() || a.Late())
    ensures HeldTrue(s', m)
  {
    if m in s.owners { assert HeldTrue(s, m); }
  }

  lemma HeldKeptByOthers(s: State, a: Action, s': State, m: nat)
    requires AllHeldTrue(s) && AnyNext(s, a, s') && m in s'.owners && !a.Early() && !a.Late()
    ensures HeldTrue(s', m)
  {
    assert HeldTrue(s, m);
  }

  lemma HeldKept(s: State, a: Action, s': State, m: nat)
    requires AllHeldTrue(s) && AnyNext(s, a, s') && m in s'.owners
    ensures HeldTrue(s', m)
  {
    if a.Early() || a.Late() { HeldKeptByCreate(s, a, s', m); } else { HeldKeptByOthers(s, a, s', m); }
  }

  /** How many steps a call has left, itself and what it waits for apart. */
  function StepsLeft(stage: Stage): nat {
    match stage
    case Waiting => 7
    case Checking => 6
    case Announcing => 5
    case Provisioning => 4
    case Persisting(_) => 3
    case Withdrawing => 2
    case Discarding(_) => 2
    case Registering(_) => 2
    case Unlocking(_) => 1
    case Done(_) => 0
  }

  /** A step that call `c` can take now; the remote calls answer with an error. */
  function NextStep(c: nat, stage: Stage): Action
    requires stage.Live()
  {
    match stage
    case Waiting => Lock(c)
    case Checking => Check(c)
    case Announcing => Announce(c, false, 0)
    case Provisioning => ProvisionErr(c)
    case Withdrawing => Withdraw(c, false)
    case Persisting(_) => Persist(c, Rejected)
    case Discarding(_) => Discard(c, false)
    case Registering(_) => Register(c)
    case Unlocking(_) => Unlock(c)
  }

  /** The call is there afterwards, nearer to its return. */
  ghost predicate Lowers(s: State, c: nat, s': State) {
    c in s.calls && c in s'.calls && StepsLeft(s'.calls[c].stage) < StepsLeft(s.calls[c].stage)
  }

  lemma EarlyStepLowers(s: State, c: nat, written: bool, id: string, now: int)
    requires c in s.calls
    ensures s.calls[c].stage.Waiting? ==> Lowers(s, c, LockTaken(s, c))
    ensures s.calls[c].stage.Checking? ==> Lowers(s, c, Checked(s, c))
    ensures s.calls[c].stage.Announcing? ==> Lowers(s, c, Announced(s, c, written, now))
    ensures s.calls[c].stage.Provisioning? ==> Lowers(s, c, ProvisionFailed(s, c))
    ensures s.calls[c].stage.Provisioning? ==> Lowers(s, c, Provisioned(s, c, id, now))
  {}

  lemma LateStepLowers(s: State, c: nat, works: bool, outcome: WriteOutcome)
    requires c in s.calls
    ensures s.calls[c].stage.Withdrawing? ==> Lowers(s, c, Withdrawn(s, c, works))
    ensures s.calls[c].stage.Persisting? ==> Lowers(s, c, Persisted(s, c, outcome))
    ensures s.calls[c].stage.Discarding? ==> Lowers(s, c, Discarded(s, c, works))
  {}

  lemma LastStepLowers(s: State, c: nat)
    requires c in s.calls
    ensures s.calls[c].stage.Registering? ==> Lowers(s, c, Registered(s, c))
    ensures s.calls[c].stage.Unlocking? ==> Lowers(s, c, Unlocked(s, c))
  {}

  /** Every step of a call, whatever the remote calls answer, brings it nearer to its return. */
  lemma CreateStepLowers(s: State, a: Action)
    requires (a.Early() || a.Late()) && !a.Begin? && Possible(s, a)
    ensures Lowers(s, a.call, Apply(s, a))
  {
    match a
    case Announce(c, written, now) => EarlyStepLowers(s, c, written, "", now);
    case ProvisionOk(c, id, now) => EarlyStepLowers(s, c, true, id, now);
    case Withdraw(c, deleted) => LateStepLowers(s, c, deleted, Written);
    case Persist(c, outcome) => LateStepLowers(s, c, true, outcome);
    case Discard(c, removed) => LateStepLowers(s, c, removed, Written);
    case Lock(c) => EarlyStepLowers(s, c, true, "", 0);
    case Check(c) => EarlyStepLowers(s, c, true, "", 0);
    case ProvisionErr(c) => EarlyStepLowers(s, c, true, "", 0);
    case Register(c) => LastStepLowers(s, c);
    case Unlock(c) => LastStepLowers(s, c);
  }

  /** A call that waits for a mutex that is free can take it; if it is held, the holder can go on. */
  lemma SomeoneCanStep(s: State, c: nat) returns (e: nat)
    requires AllHeldTrue(s) && c in s.calls && s.calls[c].stage.Live()
    ensures e in s.calls && s.calls[e].stage.Live() && Possible(s, NextStep(e, s.calls[e].stage))
    ensures e == c || (s.calls[c].stage.Waiting? && s.calls[e].stage.Locked() && s.calls[e].mutex == s.calls[c].mutex)
  {
    e := c;
    if s.calls[c].stage.Waiting? && s.calls[c].mutex in s.owners {
      e := s.owners[s.calls[c].mutex];
      assert HeldTrue(s, s.calls[c].mutex);
    }
  }

  /**
    However calls overlap, Destroys included, no Create waits for ever: while one has not returned, it or
    the holder of its mutex can take a step; no call takes more than seven.
    */
  lemma CreatesNeverDeadlock(states: seq<State>, actions: seq<Action>, n: nat, c: nat) returns (e: nat, a: Action)
    requires IsRun(Init, AnyNext, states, actions) && n < |states|
    requires c in states[n].calls && states[n].calls[c].stage.Live()
    ensures e in states[n].calls && states[n].calls[e].stage.Live() && Possible(states[n], a)
    ensures e == c || (states[n].calls[c].stage.Waiting? && states[n].calls[e].mutex == states[n].calls[c].mutex)
    ensures Lowers(states[n], e, Apply(states[n], a)) && StepsLeft(states[n].calls[e].stage) <= 7
  {
    forall s, b, s' | AllHeldTrue(s) && AnyNext(s, b, s') ensures AllHeldTrue(s') {
      forall m | m in s'.owners ensures HeldTrue(s', m) { HeldKept(s, b, s', m); }
    }
    Invariance(Init, AnyNext, AllHeldTrue, states, actions);
    e := SomeoneCanStep(states[n], c);
    a := NextStep(e, states[n].calls[e].stage);
    CreateStepLowers(states[n], a);
  }

  // ---------------------------------------------------------------- why the scope is needed

  /**
    Whatever overlaps, a container that the index names stops being named, with no attempt to remove
    it, in exactly three ways: a Destroy that has not tried to remove it forgets the session, another
    container is registered over it, or a restart does not adopt a record that names it.  In scope
    only the restart can do so.
    */
  lemma LostExactly(s: State, a: Action, s': State, c: string)
    requires AnyNext(s, a, s') && Names(s, c)
    ensures c in s'.containers
    ensures !Names(s', c) && !s'.containers[c].Removed? && !s'.containers[c].RemoveFailed? <==>
      || a.DestroyForget? || (a.Register? && s.calls[a.call].stage.data.runtimeId != c)
      || (a.Restart? && !Adopts(s, a.read, c))
    ensures Inv(s) && InScope(s, a) && !a.Restart? ==>
      Names(s', c) || s'.containers[c].Removed? || s'.containers[c].RemoveFailed?
  {
    if Inv(s) && InScope(s, a) {
      StepKeepsInv(s, a, s');
      assert c in s'.containers ==> FateTrue(s', c);
    }
  }

  ghost predicate ReachableUnscoped(s: State) { Reached(Init, AnyNext, s) }

  lemma Take(s: State, a: Action) returns (s': State)
    requires ReachableUnscoped(s) && Possible(s, a)
    ensures ReachableUnscoped(s') && s' == Apply(s, a)
  {
    s' := Apply(s, a);
    ReachedNext(Init, AnyNext, s, a, s');
  }

  /** A Create that has announced itself and is waiting for its container. */
  lemma CreateAnnounces(req: Request) returns (s: State)
    ensures ReachableUnscoped(s) && s.entry.None? && s.boots == 0 && s.containers == map[] && s.destroys == map[]
    ensures s.calls.Keys == {0} && s.calls[0].stage.Provisioning?
    ensures s.stored.Some? && s.stored.value.Readable? && s.stored.value.data.runtimeId == PROVISIONING
  {
    s := State("w", true, None, None, None, map[], map[], map[], map[], 0, 0, map[]);
    ReachedInitially(Init, AnyNext, s);
    s := Take(s, Begin(0, req, 0));
    s := Take(s, Lock(0));
    s := Take(s, Check(0));
    s := Take(s, Announce(0, true, 0));
  }

  /** A Destroy that overlaps it takes the "provisioning" record for the session. */
  lemma DestroyReads(req: Request) returns (s: State)
    ensures ReachableUnscoped(s) && s.boots == 0 && s.containers == map[]
    ensures s.calls.Keys == {0} && s.calls[0].stage.Provisioning?
    ensures s.destroys.Keys == {0} && s.destroys[0].Deleting?
  {
    s := CreateAnnounces(req);
    s := Take(s, DestroyBegin(0));
    s := Take(s, DestroyLook(0));
    s := Take(s, DestroyAsk(0, true));
    s := Take(s, DestroyRemove(0, true));
  }

  lemma CreateRegisters(req: Request) returns (s: State)
    ensures ReachableUnscoped(s) && s.boots == 0 && s.calls.Keys == {0} && s.calls[0].stage.Unlocking?
    ensures s.destroys.Keys == {0} && s.destroys[0].Deleting?
    ensures "c" in s.containers && s.containers["c"].Indexed?
  {
    s := DestroyReads(req);
    s := Take(s, ProvisionOk(0, "c", 0));
    s := Take(s, Persist(0, Written));
    s := Take(s, Register(0));
  }

  /**
    Destroy does not take the session's mutex.  One that reads the "provisioning" record while a
    Create is under way can forget the session just after it registers: both calls return, the
    worker never restarts, and a container is left that nothing names and no one removed.
    */
  lemma OverlapLosesAContainer(req: Request) returns (s: State)
    ensures ReachableUnscoped(s) && Quiet(s) && NoDestroy(s) && s.boots == 0 && s.entry.None? && s.stored.None?
    ensures "c" in s.containers && s.containers["c"].Indexed?
  {
    s := CreateRegisters(req);
    s := Take(s, DestroyDelete(0, true));
    s := Take(s, DestroyForget(0));
    s := Take(s, Unlock(0));
  }

  // ---------------------------------------------------------------- restarts lose containers in scope

  ghost predicate Reachable(s: State) { Reached(Init, Next, s) }

  lemma TakeInScope(s: State, a: Action) returns (s': State)
    requires Reachable(s) && Possible(s, a) && InScope(s, a)
    ensures Reachable(s') && s' == Apply(s, a)
  {
    s' := Apply(s, a);
    ReachedNext(Init, Next, s, a, s');
  }

  lemma CreateChecks(req: Request) returns (s: State)
    ensures Reachable(s) && s.boots == 0 && s.destroys == map[] && s.entry.None? && s.containers == map[]
    ensures s.calls.Keys == {0} && s.calls[0].stage.Announcing?
  {
    s := State("w", true, None, None, None, map[], map[], map[], map[], 0, 0, map[]);
    ReachedInitially(Init, Next, s);
    s := TakeInScope(s, Begin(0, req, 0));
    s := TakeInScope(s, Lock(0));
    s := TakeInScope(s, Check(0));
  }

  lemma CreateReachesContainer(req: Request) returns (s: State)
    ensures Reachable(s) && s.boots == 0 && s.destroys == map[] && s.entry.None? && s.containers.Keys == {"c"}
    ensures s.calls.Keys == {0} && s.calls[0].stage.Persisting? && s.calls[0].stage.data.runtimeId == "c"
    ensures s.containers["c"] == Carried(0)
  {
    s := CreateChecks(req);
    s := TakeInScope(s, Announce(0, true, 0));
    s := TakeInScope(s, ProvisionOk(0, "c", 0));
  }

  lemma CreateReturns(req: Request) returns (s: State)
    ensures Reachable(s) && Quiet(s) && s.boots == 0 && s.destroys == map[] && s.stored.Some? && Names(s, "c")
  {
    s := CreateReachesContainer(req);
    s := TakeInScope(s, Persist(0, Written));
    s := TakeInScope(s, Register(0));
    s := TakeInScope(s, Unlock(0));
  }

  /** A Redis record that expires just before a restart: a container that nothing names and no one removed. */
  lemma ExpiryThenRestartLosesAContainer(req: Request) returns (s: State)
    ensures Reachable(s) && Quiet(s) && s.destroys == map[] && s.entry.None? && s.stored.None?
    ensures "c" in s.containers && s.containers["c"].Orphaned?
  {
    s := CreateReturns(req);
    s := TakeInScope(s, Expire);
    s := TakeInScope(s, Restart(true));
  }

  /** A save that took effect and failed: its container is removed, and Redis, hence Get, still names it. */
  lemma FailedSaveLeavesARecord(req: Request) returns (s: State)
    ensures Reachable(s) && Quiet(s) && s.entry.None? && "c" in s.containers && s.containers["c"].Removed?
    ensures ManagerGet(s.entry, s.stored).Found? && ManagerGet(s.entry, s.stored).data.runtimeId == "c"
  {
    s := CreateReachesContainer(req);
    s := TakeInScope(s, Persist(0, WrittenButFailed));
    s := TakeInScope(s, Discard(0, true));
    s := TakeInScope(s, Unlock(0));
  }
}
