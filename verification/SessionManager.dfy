/**
  The session manager and its Redis store as the objects the service runs.  Each critical section
  is a method, proved to take the step of SessionControl that carries its name for the session it
  is given and to leave every other session's entries alone; Create, Destroy and Get compose them.
  The providers that run containers all talk to one Docker daemon.
  */
module SessionManager {
  import opened Wrappers
  import opened SessionControl
  import opened Daemon

  function Entry<V>(m: map<Id, V>, id: Id): Option<V> {
    if id in m then Some(m[id]) else None
  }

  /** The two maps agree on every key but `id`. */
  ghost predicate SameElsewhere<V>(m: map<Id, V>, m': map<Id, V>, id: Id) {
    forall k :: k != id ==> Entry(m, k) == Entry(m', k)
  }

  /** `snapshot` holds every session of the index once and nothing else. */
  ghost predicate Lists(snapshot: seq<SessionData>, sessions: map<Id, SessionData>) {
    && (forall d :: d in snapshot <==> d.sessionId in sessions && sessions[d.sessionId] == d)
    && (forall id :: id in sessions ==> sessions[id].sessionId == id)
    && (forall i, j :: 0 <= i < j < |snapshot| ==> snapshot[i].sessionId != snapshot[j].sessionId)
  }

  class RedisStore {
    var records: map<Id, Stored>

    /** Every readable record sits under the id it carries. */
    ghost predicate Valid()
      reads this
    {
      forall id :: id in records && records[id].Readable? ==> records[id].data.sessionId == id
    }

    constructor ()
      ensures Valid() && records == map[]
    {
      records := map[];
    }

    method Save(data: SessionData, outcome: WriteOutcome) returns (ok: bool)
      requires Valid()
      modifies this
      ensures Valid() && ok == outcome.Written?
      ensures records == if outcome.Rejected? then old(records) else old(records)[data.sessionId := Readable(data)]
    {
      if !outcome.Rejected? {
        records := records[data.sessionId := Readable(data)];
      }
      ok := outcome.Written?;
    }

    method Get(id: Id, reachable: bool) returns (r: Lookup)
      requires Valid()
      ensures reachable ==> r == StoreGet(Entry(records, id))
      ensures r.Missing? <==> reachable && id !in records
      ensures r.Found? ==> r.data.sessionId == id
      ensures !reachable ==> r.Unreadable?
    {
      if !reachable { return Unreadable; }
      if id !in records { return Missing; }
      if records[id].Corrupt? { return Unreadable; }
      r := Found(records[id].data);
    }

    method Delete(id: Id, deleted: bool)
      requires Valid()
      modifies this
      ensures Valid() && records == if deleted then old(records) - {id} else old(records)
    {
      if deleted { records := records - {id}; }
    }

    /**
      All readable sessions.  `scans` are the answers of the SCAN cursor, one of which may be an error;
      they may repeat a key and name one that has expired.  Keys whose read fails, or that do not
      decrypt, are skipped.
      */
    method AllSessions(scans: seq<Option<seq<Id>>>, read: Id -> bool) returns (found: Option<seq<SessionData>>)
      requires Valid()
      ensures found.Some? <==> Answered(scans)
      ensures found.Some? ==> forall d :: d in found.value <==>
                && d.sessionId in Keys(scans) && read(d.sessionId)
                && d.sessionId in records && records[d.sessionId] == Readable(d)
    {
      var keys := Scan(scans);
      if keys.None? { return None; }
      var readable := Decrypted(keys.value, read);
      found := Some(readable);
    }

    /** The first loop, over the cursor. */
    method Scan(scans: seq<Option<seq<Id>>>) returns (keys: Option<seq<Id>>)
      ensures keys == if Answered(scans) then Some(Keys(scans)) else None
    {
      var found: seq<Id> := [];
      var cursor := 0;
      while cursor < |scans|
        invariant 0 <= cursor <= |scans| && forall k :: 0 <= k < cursor ==> scans[k].Some?
        invariant found + Keys(scans[cursor..]) == Keys(scans)
      {
        if scans[cursor].None? { return None; }
        found := found + scans[cursor].value;
        cursor := cursor + 1;
      }
      assert scans[cursor..] == [] && found + [] == found;
      keys := Some(found);
    }

    /** The second loop, over the keys that the scan collected. */
    method Decrypted(keys: seq<Id>, read: Id -> bool) returns (found: seq<SessionData>)
      requires Valid()
      ensures forall d :: d in found <==>
                && d.sessionId in keys && read(d.sessionId)
                && d.sessionId in records && records[d.sessionId] == Readable(d)
    {
      found := [];
      for i := 0 to |keys|
        invariant forall d :: d in found <==>
                    && d.sessionId in keys[..i] && read(d.sessionId)
                    && d.sessionId in records && records[d.sessionId] == Readable(d)
      {
        assert keys[..i + 1] == keys[..i] + [keys[i]];
        if read(keys[i]) && keys[i] in records && records[keys[i]].Readable? {
          found := found + [records[keys[i]].data];
        }
      }
      assert keys[..|keys|] == keys;
    }
  }

  predicate Answered(scans: seq<Option<seq<Id>>>) { forall k :: 0 <= k < |scans| ==> scans[k].Some? }

  /** The keys that a scan reports, over all its answers. */
  function Keys(scans: seq<Option<seq<Id>>>): seq<Id> {
    if scans == [] then [] else (if scans[0].None? then [] else scans[0].value) + Keys(scans[1..])
  }

  /** What a lookup finds: memory first, then Redis if it can be reached. */
  function Look(entry: Option<SessionData>, stored: Option<Stored>, reachable: bool): Lookup {
    if entry.Some? then Found(entry.value) else if reachable then StoreGet(stored) else Unreadable
  }

  /** What the daemon answers to one Provision: the id it would give, its clock, and how far it gets. */
  datatype Launch = Launch(id: string, at: int, created: bool, started: bool, cleaned: bool)

  /** What Redis, the clock and the daemon answer while one Create runs. */
  datatype CreateAnswers = CreateAnswers(
    announced: bool, announcedAt: int, launch: Launch, createdAt: int, withdrawn: bool,
    saved: WriteOutcome, discarded: WriteOutcome)

  /** Create in the steps of SessionControl, none of anyone else's in between: from a started container on. */
  function RecordInSteps(s: State, c: nat, io: CreateAnswers): (s': State)
    requires c in s.calls
    ensures c in s'.calls && s'.calls[c].stage.Unlocking?
  {
    var s1 := Persisted(Provisioned(s, c, io.launch.id, io.createdAt), c, io.saved);
    if io.saved.Written? then Registered(s1, c) else Discarded(s1, c, io.discarded.Written?)
  }

  /** From the announcement on. */
  function ProvisionInSteps(s: State, c: nat, io: CreateAnswers): (s': State)
    requires c in s.calls
    ensures c in s'.calls && s'.calls[c].stage.Unlocking?
  {
    var announced := Announced(s, c, io.announced, io.announcedAt);
    if io.launch.created && io.launch.started then RecordInSteps(announced, c, io)
    else Withdrawn(ProvisionFailed(announced, c), c, io.withdrawn)
  }

  /** From the existence check on. */
  function CheckInSteps(s: State, c: nat, io: CreateAnswers): (s': State)
    requires c in s.calls
    ensures c in s'.calls && s'.calls[c].stage.Unlocking?
  {
    var checked := Checked(s, c);
    if checked.calls[c].stage.Announcing? then ProvisionInSteps(checked, c, io) else checked
  }

  /** The whole call. */
  function CreateInSteps(s: State, c: nat, req: Request, newMutex: nat, io: CreateAnswers): State {
    Unlocked(CheckInSteps(LockTaken(Begun(s, c, req, newMutex), c), c, io), c)
  }

  /** A state is left with these entries and the call about to unlock with this reply. */
  ghost predicate Leaves(
    s: State, s': State, c: nat,
    entry: Option<SessionData>, inFlight: Option<nat>, stored: Option<Stored>, reply: Reply)
  {
    && s'.worker == s.worker && s'.hasProvider == s.hasProvider
    && s'.entry == entry && s'.inFlight == inFlight && s'.stored == stored
    && c in s'.calls && s'.calls[c].stage == Unlocking(reply)
  }

  lemma RecordIsSteps(s: State, c: nat, io: CreateAnswers)
    requires c in s.calls
    ensures
      var s', req := RecordInSteps(s, c, io), s.calls[c].req;
      var data := SessionData(req.sessionId, io.launch.id, req.userId, req.challengeId, req.image,
                              req.provider, io.createdAt, s.worker);
      if io.saved.Written?
      then
        && Leaves(s, s', c, Some(data), None, Some(Readable(data)), Created(data))
        && s'.containers == s.containers[io.launch.id := Indexed]
      else
        && Leaves(s, s', c, s.entry, s.inFlight, if io.saved.Rejected? then s.stored else Some(Readable(data)), Failed)
        && s'.containers == s.containers[io.launch.id := if io.discarded.Written? then Removed else RemoveFailed]
  {}

  lemma WithdrawIsSteps(s: State, c: nat, io: CreateAnswers)
    requires c in s.calls
    ensures
      var s' := Withdrawn(ProvisionFailed(s, c), c, io.withdrawn);
      Leaves(s, s', c, s.entry, s.inFlight, if io.withdrawn then None else s.stored, Failed)
      && s'.containers == s.containers
  {}

  /** What becomes of the session's entries, by the record that Create would register, if it comes to that. */
  ghost predicate Provisions(s: State, s': State, c: nat, io: CreateAnswers, data: SessionData) {
    var initial := data.(runtimeId := "provisioning", createdAt := io.announcedAt);
    var announced := if io.announced then Some(Readable(initial)) else s.stored;
    if !io.launch.created || !io.launch.started
    then Leaves(s, s', c, s.entry, s.inFlight, if io.withdrawn then None else announced, Failed)
    else if io.saved.Written? then Leaves(s, s', c, Some(data), None, Some(Readable(data)), Created(data))
    else Leaves(s, s', c, s.entry, s.inFlight, if io.saved.Rejected? then announced else Some(Readable(data)), Failed)
  }

  lemma ProvisionIsSteps(s: State, c: nat, io: CreateAnswers)
    requires c in s.calls
    ensures
      var req := s.calls[c].req;
      var data := SessionData(req.sessionId, io.launch.id, req.userId, req.challengeId, req.image,
                              req.provider, io.createdAt, s.worker);
      Provisions(s, ProvisionInSteps(s, c, io), c, io, data)
  {
    var announced := Announced(s, c, io.announced, io.announcedAt);
    assert announced.calls[c].req == s.calls[c].req;
    if io.launch.created && io.launch.started {
      RecordIsSteps(announced, c, io);
    } else {
      WithdrawIsSteps(announced, c, io);
    }
  }

  lemma CheckIsSteps(s: State, c: nat, io: CreateAnswers)
    requires c in s.calls
    ensures
      var s', req := CheckInSteps(s, c, io), s.calls[c].req;
      var data := SessionData(req.sessionId, io.launch.id, req.userId, req.challengeId, req.image,
                              req.provider, io.createdAt, s.worker);
      if s.entry.Some? then Leaves(s, s', c, s.entry, s.inFlight, s.stored, Created(s.entry.value))
      else if !s.hasProvider then Leaves(s, s', c, s.entry, s.inFlight, s.stored, Failed)
      else Provisions(s, s', c, io, data)
  {
    var checked := Checked(s, c);
    assert checked.calls[c].req == s.calls[c].req;
    if s.entry.None? && s.hasProvider { ProvisionIsSteps(checked, c, io); }
  }

  lemma BeginIsSteps(s: State, c: nat, req: Request, newMutex: nat)
    ensures
      var s', m := LockTaken(Begun(s, c, req, newMutex), c), if s.inFlight.Some? then s.inFlight else Some(newMutex);
      && s' == s.(inFlight := m, owners := s'.owners, calls := s'.calls)
      && c in s'.calls && s'.calls[c].req == req && s'.calls[c].stage.Checking?
  {}

  /**
    The whole call leaves the entries that the contract of Manager.Create states: an existing session
    untouched; nothing but the mutex without a provider; otherwise what becomes of the container and its
    record, written out.
    */
  lemma CreateIsSteps(s: State, c: nat, req: Request, newMutex: nat, io: CreateAnswers)
    ensures
      var s', m := CreateInSteps(s, c, req, newMutex, io), if s.inFlight.Some? then s.inFlight else Some(newMutex);
      var data := SessionData(req.sessionId, io.launch.id, req.userId, req.challengeId, req.image,
                              req.provider, io.createdAt, s.worker);
      var initial := data.(runtimeId := "provisioning", createdAt := io.announcedAt);
      var announced := if io.announced then Some(Readable(initial)) else s.stored;
      && c in s'.calls
      && if s.entry.Some? then
           s'.calls[c].stage == Done(Created(s.entry.value)) && s'.entry == s.entry && s'.stored == s.stored
         else if !s.hasProvider then
           s'.calls[c].stage == Done(Failed) && s'.entry == None && s'.inFlight == m && s'.stored == s.stored
         else if !io.launch.created || !io.launch.started then
           && s'.calls[c].stage == Done(Failed) && s'.entry == None && s'.inFlight == m
           && s'.stored == if io.withdrawn then None else announced
         else if io.saved.Written? then
           && s'.calls[c].stage == Done(Created(data)) && s'.entry == Some(data) && s'.inFlight == None
           && s'.stored == Some(Readable(data))
         else
           && s'.calls[c].stage == Done(Failed) && s'.entry == None && s'.inFlight == m
           && s'.stored == if io.saved.Rejected? then announced else Some(Readable(data))
  {
    var begun := LockTaken(Begun(s, c, req, newMutex), c);
    BeginIsSteps(s, c, req, newMutex);
    CheckIsSteps(begun, c, io);
    UnlockIsStep(CheckInSteps(begun, c, io), c);
  }

  lemma UnlockIsStep(s: State, c: nat)
    requires c in s.calls && s.calls[c].stage.Unlocking?
    ensures
      var s' := Unlocked(s, c);
      && s'.entry == s.entry && s'.inFlight == s.inFlight && s'.stored == s.stored
      && c in s'.calls && s'.calls[c].stage == Done(s.calls[c].stage.reply)
  {}

  /** What they answer while one Destroy runs. */
  datatype DestroyAnswers = DestroyAnswers(reachable: bool, removal: WriteOutcome, deleted: bool)

  /** A whole Destroy in the steps of SessionControl. */
  function DestroyInSteps(s: State, d: nat, io: DestroyAnswers): State {
    var looked := DestroyLooked(DestroyBegun(s, d), d);
    var s1 := if looked.destroys[d].Asking? then DestroyAsked(looked, d, io.reachable) else looked;
    if s1.destroys[d].Removing?
    then Forgotten(DestroyDeleted(DestroyRemoved(s1, d, s.hasProvider && io.removal.Written?), d, io.deleted), d)
    else s1
  }

  /** The chain of fallbacks: the named provider, the default, docker, any. */
  method ResolveProvider(providers: map<string, string>, default: string, name: string) returns (p: Option<string>)
    ensures name in providers ==> p == Some(providers[name])
    ensures name !in providers && default in providers ==> p == Some(providers[default])
    ensures name !in providers && default !in providers && "docker" in providers ==> p == Some(providers["docker"])
    ensures p.None? <==> providers == map[]
    ensures p.Some? ==> p.value in providers.Values
  {
    if name in providers { return Some(providers[name]); }
    if default in providers { return Some(providers[default]); }
    if "docker" in providers { return Some(providers["docker"]); }
    if providers != map[] {
      var k :| k in providers;
      return Some(providers[k]);
    }
    return None;
  }

  class Manager {
    const redis: RedisStore
    const docker: Docker
    const worker: string
    const providers: map<string, string>
    const defaultProvider: string
    var sessions: map<Id, SessionData>
    var inFlight: map<Id, nat>
    var mutexes: nat

    ghost predicate Valid()
      reads this, redis
    {
      && redis.Valid()
      && (providers != map[] ==> defaultProvider in providers)
      && (forall id :: id in sessions ==> sessions[id].sessionId == id)
      && (forall id :: id in inFlight ==> inFlight[id] < mutexes)
    }

    /** The manager's and the store's entries for `id` are those of the machine state `s`. */
    ghost predicate Shows(id: Id, s: State)
      reads this, redis
    {
      && s.worker == worker && s.hasProvider == (providers != map[])
      && s.entry == Entry(sessions, id) && s.inFlight == Entry(inFlight, id)
      && s.stored == Entry(redis.records, id)
    }

    /** Every mutex that a call of `s` holds or waits for is one the manager made. */
    ghost predicate Made(s: State)
      reads this
    {
      forall c :: c in s.calls ==> s.calls[c].mutex < mutexes
    }

    constructor (redis: RedisStore, docker: Docker, worker: string, providers: map<string, string>)
      requires redis.Valid()
      ensures Valid() && this.redis == redis && this.docker == docker && inFlight == map[] && sessions == map[]
      ensures this.worker == worker && this.providers == providers
    {
      this.redis := redis;
      this.docker := docker;
      this.worker := worker;
      this.providers := providers;
      var d := "docker";
      if "docker" !in providers && providers != map[] {
        d :| d in providers;
      }
      this.defaultProvider := d;
      inFlight := map[];
      mutexes := 0;
      sessions := map[];
    }

    /**
      NewManager: fails if the scan does, and otherwise re-adopts whatever it can read in Redis, given
      that a scan without errors reports every key.
      */
    static method New(redis: RedisStore, docker: Docker, worker: string, providers: map<string, string>,
                      scans: seq<Option<seq<Id>>>, read: Id -> bool)
      returns (r: Option<Manager>)
      requires redis.Valid()
      requires Answered(scans) ==> forall id :: id in redis.records ==> id in Keys(scans)
      ensures r.Some? <==> Answered(scans)
      ensures r.Some? ==>
                && fresh(r.value) && r.value.Valid() && r.value.redis == redis && r.value.docker == docker
                && r.value.worker == worker && r.value.providers == providers && r.value.inFlight == map[]
                && (forall id ::
                      Entry(r.value.sessions, id) == if read(id) then Adopted(Entry(redis.records, id)) else None)
                && (forall id :: id in r.value.sessions <==>
                      read(id) && id in redis.records && redis.records[id].Readable?)
                && (forall id :: id in r.value.sessions ==> redis.records[id] == Readable(r.value.sessions[id]))
    {
      var existing := redis.AllSessions(scans, read);
      if existing.None? { return None; }
      var m := new Manager(redis, docker, worker, providers);
      m.Adopt(existing.value);
      forall id ensures Entry(m.sessions, id) == if read(id) then Adopted(Entry(redis.records, id)) else None {
        if read(id) && id in redis.records && redis.records[id].Readable? {
          assert redis.records[id].data in existing.value;
        }
      }
      r := Some(m);
    }

    method Adopt(existing: seq<SessionData>)
      requires Valid() && sessions == map[]
      requires forall d :: d in existing ==> d.sessionId in redis.records && redis.records[d.sessionId] == Readable(d)
      modifies this
      ensures Valid() && inFlight == old(inFlight) && mutexes == old(mutexes)
      ensures forall id :: id in sessions <==> exists d :: d in existing && d.sessionId == id
      ensures forall id :: id in sessions ==> id in redis.records && redis.records[id] == Readable(sessions[id])
    {
      for i := 0 to |existing|
        invariant Valid() && inFlight == old(inFlight) && mutexes == old(mutexes)
        invariant forall id :: id in sessions <==> exists k :: 0 <= k < i && existing[k].sessionId == id
        invariant forall id :: id in sessions ==> id in redis.records && redis.records[id] == Readable(sessions[id])
      {
        assert existing[i] in existing;
        sessions := sessions[existing[i].sessionId := existing[i]];
      }
      forall id ensures id in sessions <==> exists d :: d in existing && d.sessionId == id {
        if d :| d in existing && d.sessionId == id {
          var k :| 0 <= k < |existing| && existing[k] == d;
        }
      }
    }

    /** On a manager built by its constructor only the first two fallbacks ever apply. */
    method GetProviderByName(name: string) returns (p: Option<string>)
      requires Valid()
      ensures p.None? <==> providers == map[]
      ensures p.Some? ==> p.value == if name in providers then providers[name] else providers[defaultProvider]
    {
      p := ResolveProvider(providers, defaultProvider, name);
    }

    // ---- critical sections

    method GetOrCreateMutex(req: Request) returns (m: nat)
      requires Valid()
      modifies this
      ensures Valid() && sessions == old(sessions) && SameElsewhere(inFlight, old(inFlight), req.sessionId)
      ensures req.sessionId in inFlight && inFlight[req.sessionId] == m
      ensures req.sessionId in old(inFlight) ==> inFlight == old(inFlight)
      ensures forall s: State, c: nat {:trigger Begun(s, c, req, old(mutexes))} ::
                old(Shows(req.sessionId, s) && Made(s)) && c !in s.calls ==>
                  && Possible(s, Begin(c, req, old(mutexes)))
                  && Begun(s, c, req, old(mutexes)).calls[c].mutex == m
                  && Shows(req.sessionId, Begun(s, c, req, old(mutexes))) && Made(Begun(s, c, req, old(mutexes)))
    {
      var id := req.sessionId;
      if id in inFlight {
        m := inFlight[id];
      } else {
        m := mutexes;
        mutexes := mutexes + 1;
        inFlight := inFlight[id := m];
      }
      forall s: State, c: nat | old(Shows(id, s) && Made(s)) && c !in s.calls
        ensures Possible(s, Begin(c, req, old(mutexes)))
        ensures Made(Begun(s, c, req, old(mutexes)))
      {
        assert forall e :: e in s.calls ==> s.calls[e].mutex < old(mutexes);
      }
    }

    method Register(data: SessionData)
      requires Valid()
      modifies this
      ensures Valid() && mutexes == old(mutexes)
      ensures sessions == old(sessions)[data.sessionId := data] && inFlight == old(inFlight) - {data.sessionId}
      ensures forall s: State, c: nat {:trigger Registered(s, c)} ::
                old(Shows(data.sessionId, s)) && c in s.calls && s.calls[c].stage == Registering(data) ==>
                  Shows(data.sessionId, Registered(s, c))
    {
      sessions := sessions[data.sessionId := data];
      inFlight := inFlight - {data.sessionId};
    }

    method Forget(id: Id)
      requires Valid()
      modifies this
      ensures Valid() && sessions == old(sessions) - {id} && inFlight == old(inFlight) && mutexes == old(mutexes)
      ensures forall s: State, d: nat {:trigger Forgotten(s, d)} :: old(Shows(id, s)) ==> Shows(id, Forgotten(s, d))
    {
      sessions := sessions - {id};
    }

    // ---- whole calls

    /** Memory first, then Redis; an unreachable Redis answers like an unreadable record. */
    method Get(id: Id, reachable: bool) returns (r: Lookup)
      requires Valid()
      ensures r == Look(Entry(sessions, id), Entry(redis.records, id), reachable)
      ensures id in sessions ==> r == Found(sessions[id])
      ensures id !in sessions && reachable && id !in redis.records ==> r == Missing
      ensures id !in sessions && reachable && id in redis.records ==>
                r == match redis.records[id] case Readable(data) => Found(data) case Corrupt => Unreadable
      ensures id !in sessions && !reachable ==> r == Unreadable
      ensures reachable ==> r == ManagerGet(Entry(sessions, id), Entry(redis.records, id))
    {
      if id in sessions { return Found(sessions[id]); }
      r := redis.Get(id, reachable);
    }

    /**
      Create from the announcement in Redis to the registration.  A container that was started but
      cannot be recorded is removed again, if that works; a save that took effect and failed leaves its
      record behind all the same, and one that did not the announcement.
      */
    method Provision(req: Request, io: CreateAnswers) returns (reply: Reply)
      requires Valid() && io.launch.id !in docker.containers
      modifies this, redis, docker
      ensures Valid()
      ensures reply.Created? <==> io.launch.created && io.launch.started && io.saved.Written?
      ensures reply.Created? ==>
                && reply.data == SessionData(req.sessionId, io.launch.id, req.userId, req.challengeId, req.image,
                                             req.provider, io.createdAt, worker)
                && sessions == old(sessions)[req.sessionId := reply.data]
                && redis.records == old(redis.records)[req.sessionId := Readable(reply.data)]
                && inFlight == old(inFlight) - {req.sessionId}
      ensures reply.Failed? ==> sessions == old(sessions) && inFlight == old(inFlight)
      ensures reply.Failed? ==>
                var data := SessionData(req.sessionId, io.launch.id, req.userId, req.challengeId, req.image,
                                        req.provider, io.createdAt, worker);
                var initial := data.(runtimeId := "provisioning", createdAt := io.announcedAt);
                var announced :=
                  if io.announced then old(redis.records)[req.sessionId := Readable(initial)] else old(redis.records);
                redis.records ==
                if !io.launch.created || !io.launch.started
                then if io.withdrawn then old(redis.records) - {req.sessionId} else announced
                else if io.saved.Rejected? then announced
                else old(redis.records)[req.sessionId := Readable(data)]
      ensures SameElsewhere(redis.records, old(redis.records), req.sessionId)
      ensures
        var made := Container(map["managed-by" := "devops-platform-sandbox"], io.launch.at, io.launch.started, None);
        docker.containers ==
        if !io.launch.created
           || (if io.launch.started then reply.Failed? && !io.discarded.Rejected? else io.launch.cleaned)
        then old(docker.containers) else old(docker.containers)[io.launch.id := made]
    {
      var initial := DataFor(req, PROVISIONING, io.announcedAt, worker);
      var _ := redis.Save(initial, if io.announced then Written else Rejected);
      var launch := io.launch;
      var id := docker.Provision(launch.id, launch.at, launch.created, launch.started, launch.cleaned);
      if id.None? {
        redis.Delete(req.sessionId, io.withdrawn);
        return Failed;
      }
      var data := DataFor(req, id.value, io.createdAt, worker);
      var ok := redis.Save(data, io.saved);
      if !ok {
        var _ := docker.Remove(id.value, io.discarded);
        return Failed;
      }
      Register(data);
      reply := Created(data);
    }

    /** Create, when no other call touches the session meanwhile. */
    method Create(req: Request, io: CreateAnswers) returns (reply: Reply)
      requires Valid() && io.launch.id !in docker.containers
      modifies this, redis, docker
      ensures Valid()
      ensures req.sessionId in old(sessions) ==>
                && reply == Created(old(sessions[req.sessionId])) && sessions == old(sessions)
                && redis.records == old(redis.records)
      ensures req.sessionId !in old(sessions) ==>
                (reply.Created? <==> providers != map[] && io.launch.created && io.launch.started && io.saved.Written?)
      ensures req.sessionId !in old(sessions) && reply.Created? ==>
                && reply.data == SessionData(req.sessionId, io.launch.id, req.userId, req.challengeId, req.image,
                                             req.provider, io.createdAt, worker)
                && sessions == old(sessions)[req.sessionId := reply.data]
                && redis.records == old(redis.records)[req.sessionId := Readable(reply.data)]
                && req.sessionId !in inFlight
      ensures
        var made := Container(map["managed-by" := "devops-platform-sandbox"], io.launch.at, io.launch.started, None);
        docker.containers ==
        if req.sessionId in old(sessions) || providers == map[] || !io.launch.created
           || (if io.launch.started then reply.Failed? && !io.discarded.Rejected? else io.launch.cleaned)
        then old(docker.containers) else old(docker.containers)[io.launch.id := made]
      ensures reply.Failed? ==> sessions == old(sessions) && req.sessionId in inFlight
      ensures reply.Failed? ==>
                var data := SessionData(req.sessionId, io.launch.id, req.userId, req.challengeId, req.image,
                                        req.provider, io.createdAt, worker);
                var initial := data.(runtimeId := "provisioning", createdAt := io.announcedAt);
                var announced :=
                  if io.announced then old(redis.records)[req.sessionId := Readable(initial)] else old(redis.records);
                redis.records ==
                if providers == map[] then old(redis.records)
                else if !io.launch.created || !io.launch.started
                then if io.withdrawn then old(redis.records) - {req.sessionId} else announced
                else if io.saved.Rejected? then announced
                else old(redis.records)[req.sessionId := Readable(data)]
      ensures SameElsewhere(redis.records, old(redis.records), req.sessionId)
      ensures SameElsewhere(inFlight, old(inFlight), req.sessionId)
    {
      var _ := GetOrCreateMutex(req);
      if req.sessionId in sessions { return Created(sessions[req.sessionId]); }
      var provider := GetProviderByName(req.provider);
      if provider.None? { return Failed; }
      reply := Provision(req, io);
    }

    /** The index as a list, in whatever order the map yields it. */
    method AllActive() returns (snapshot: seq<SessionData>)
      requires Valid()
      ensures Lists(snapshot, sessions)
    {
      snapshot := [];
      var rest := sessions.Keys;
      while rest != {}
        invariant rest <= sessions.Keys
        invariant forall d :: d in snapshot <==> d.sessionId in sessions.Keys - rest && sessions[d.sessionId] == d
        invariant forall i, j :: 0 <= i < j < |snapshot| ==> snapshot[i].sessionId != snapshot[j].sessionId
        decreases rest
      {
        var id :| id in rest;
        rest := rest - {id};
        assert forall d :: d in snapshot ==> d.sessionId != id;
        snapshot := snapshot + [sessions[id]];
      }
    }

    /**
      Destroy.  It fails only when the session is not in memory and Redis cannot say; whatever else
      goes wrong, a session found in memory is gone from it, and a session found anywhere has its
      container removed, if there is a provider and the removal works.
      */
    method Destroy(id: Id, io: DestroyAnswers) returns (ok: bool)
      requires Valid()
      modifies this, redis, docker
      ensures Valid()
      ensures ok <==> !old(Look(Entry(sessions, id), Entry(redis.records, id), io.reachable)).Unreadable?
      ensures sessions == old(sessions) - {id} && inFlight == old(inFlight)
      ensures
        var found := old(Look(Entry(sessions, id), Entry(redis.records, id), io.reachable));
        redis.records == if found.Found? && io.deleted then old(redis.records) - {id} else old(redis.records)
      ensures forall s: State, d: nat {:trigger DestroyInSteps(s, d, io)} ::
                old(Shows(id, s)) ==> Shows(id, DestroyInSteps(s, d, io))
      ensures
        var found := old(Look(Entry(sessions, id), Entry(redis.records, id), io.reachable));
        docker.containers == if found.Found? && providers != map[] && !io.removal.Rejected?
                             then old(docker.containers) - {found.data.runtimeId} else old(docker.containers)
    {
      var r := Get(id, io.reachable);
      if !r.Found? { return r.Missing?; }
      var provider := GetProviderByName(r.data.provider);
      if provider.Some? { var _ := docker.Remove(r.data.runtimeId, io.removal); }
      redis.Delete(id, io.deleted);
      Forget(id);
      ok := true;
    }
  }
}
