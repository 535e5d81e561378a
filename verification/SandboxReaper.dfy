/**
  The sandbox worker's reaper: one sweep over a snapshot of the index destroys the sessions that are
  too old or whose container is dead, then hands the snapshot's ids to the orphan sweep of every
  provider.  The providers that have an orphan sweep all talk to one Docker daemon.
  */
module SandboxReaper {
  import opened Wrappers
  import opened SessionControl
  import opened SessionManager
  import opened Daemon

  const GUEST_TTL: int := 600 * SECOND
  const ORPHAN_MIN_AGE: int := 300 * SECOND

  /** One sweep: its configuration, its clock, and what the daemon answers about each session. */
  datatype Sweep = Sweep(hasProvider: bool, ttl: int, now: int, probed: Id -> bool, io: Id -> DestroyAnswers)

  /** One provider's orphan sweep. */
  datatype Pass = Pass(listed: bool, now: int, removal: string -> WriteOutcome)

  /** The index, the daemon's containers and the records in Redis. */
  datatype World = World(sessions: map<Id, SessionData>, containers: Containers, records: map<Id, Stored>)

  predicate IsTooOld(d: SessionData, e: Sweep) {
    e.now - d.createdAt > (if "guest_" <= d.userId then GUEST_TTL else e.ttl)
  }

  /** A session within its time dies only of a container that is found not to run. */
  predicate Dies(d: SessionData, containers: Containers, e: Sweep) {
    IsTooOld(d, e) || (e.hasProvider && e.probed(d.sessionId) && !Running(containers, d.runtimeId))
  }

  function Destroyed(w: World, d: SessionData, e: Sweep): World {
    World(w.sessions - {d.sessionId},
          if e.hasProvider && !e.io(d.sessionId).removal.Rejected? then w.containers - {d.runtimeId} else w.containers,
          if e.io(d.sessionId).deleted then w.records - {d.sessionId} else w.records)
  }

  function Visited(w: World, d: SessionData, e: Sweep): World {
    if Dies(d, w.containers, e) then Destroyed(w, d, e) else w
  }

  /** The world after the loop over a snapshot. */
  function Swept(w: World, snapshot: seq<SessionData>, e: Sweep): World {
    if snapshot == [] then w
    else Visited(Swept(w, snapshot[..|snapshot| - 1], e), snapshot[|snapshot| - 1], e)
  }

  /** What the orphan sweeps leave of the daemon's containers. */
  function AfterPasses(containers: Containers, active: set<Id>, passes: seq<Pass>): Containers {
    if passes == [] then containers
    else
      var before, p := AfterPasses(containers, active, passes[..|passes| - 1]), passes[|passes| - 1];
      if p.listed then before - Gone(Orphans(before, active, p.now, ORPHAN_MIN_AGE), p.removal) else before
  }

  /** No visit touches a session that comes later in the snapshot. */
  lemma {:induction false} AwaitsItsTurn(w: World, snapshot: seq<SessionData>, n: nat, k: nat, e: Sweep)
    requires Lists(snapshot, w.sessions) && n <= k < |snapshot|
    ensures
      var d, after := snapshot[k], Swept(w, snapshot[..n], e);
      d.sessionId in after.sessions && after.sessions[d.sessionId] == d
  {
    if n == 0 {
      assert snapshot[k] in snapshot;
    } else {
      assert snapshot[..n][..n - 1] == snapshot[..n - 1];
      AwaitsItsTurn(w, snapshot, n - 1, k, e);
    }
  }

  class Reaper {
    const manager: Manager
    const ttl: int

    constructor (manager: Manager, ttl: int)
      ensures this.manager == manager && this.ttl == ttl
    {
      this.manager := manager;
      this.ttl := ttl;
    }

    ghost function View(): World
      reads manager, manager.docker, manager.redis
    {
      World(manager.sessions, manager.docker.containers, manager.redis.records)
    }

    /** The loop body.  `e` is read at this session only. */
    method VisitOne(d: SessionData, e: Sweep)
      requires manager.Valid() && d.sessionId in manager.sessions && manager.sessions[d.sessionId] == d
      requires e.hasProvider == (manager.providers != map[]) && e.ttl == ttl
      modifies manager, manager.redis, manager.docker
      ensures manager.Valid() && View() == Visited(old(View()), d, e)
    {
      var age := e.now - d.createdAt;
      var effectiveTtl := ttl;
      if "guest_" <= d.userId { effectiveTtl := GUEST_TTL; }
      if age > effectiveTtl {
        var _ := manager.Destroy(d.sessionId, e.io(d.sessionId));
        return;
      }
      var provider := manager.GetProviderByName(d.provider);
      if provider.None? { return; }
      var running := manager.docker.IsRunning(d.runtimeId, e.probed(d.sessionId));
      if running == Some(false) {
        var _ := manager.Destroy(d.sessionId, e.io(d.sessionId));
      }
    }

    /** The loop over the snapshot. */
    method SweepSessions(sessions: seq<SessionData>, e: Sweep)
      requires manager.Valid() && Lists(sessions, manager.sessions)
      requires e.hasProvider == (manager.providers != map[]) && e.ttl == ttl
      modifies manager, manager.redis, manager.docker
      ensures manager.Valid() && View() == Swept(old(View()), sessions, e)
    {
      ghost var start := View();
      for i := 0 to |sessions|
        invariant manager.Valid() && View() == Swept(start, sessions[..i], e)
      {
        assert sessions[..i + 1][..i] == sessions[..i];
        AwaitsItsTurn(start, sessions, i, i, e);
        VisitOne(sessions[i], e);
      }
      assert sessions[..|sessions|] == sessions;
    }

    /** One orphan sweep for each distinct provider. */
    method SweepOrphans(active: set<Id>, passes: seq<Pass>)
      requires |passes| == |manager.providers.Values|
      modifies manager.docker
      ensures manager.docker.containers == AfterPasses(old(manager.docker.containers), active, passes)
    {
      for i := 0 to |passes|
        invariant manager.docker.containers == AfterPasses(old(manager.docker.containers), active, passes[..i])
      {
        assert passes[..i + 1][..i] == passes[..i];
        var _ := manager.docker.ReapOrphans(active, passes[i].now, ORPHAN_MIN_AGE, passes[i].listed, passes[i].removal);
      }
      assert passes[..|passes|] == passes;
    }

    /**
      The whole sweep.  `snapshot` is the order in which the index was listed; its ids, those of the
      sessions just destroyed among them, are what the orphan sweep takes for active.
      */
    method Run(now: int, probed: Id -> bool, io: Id -> DestroyAnswers, passes: seq<Pass>)
      returns (ghost snapshot: seq<SessionData>)
      requires manager.Valid() && |passes| == |manager.providers.Values|
      modifies manager, manager.redis, manager.docker
      ensures manager.Valid() && Lists(snapshot, old(manager.sessions))
      ensures old(manager.sessions) == map[] ==> View() == old(View())
      ensures old(manager.sessions) != map[] ==>
                var w := Swept(old(View()), snapshot, Sweep(manager.providers != map[], ttl, now, probed, io));
                View() == w.(containers := AfterPasses(w.containers, old(manager.sessions).Keys, passes))
    {
      var sessions := manager.AllActive();
      snapshot := sessions;
      if |sessions| == 0 { return; }
      assert sessions[0].sessionId in manager.sessions;
      var active := set d | d in sessions :: d.sessionId;
      assert active == manager.sessions.Keys;
      SweepSessions(sessions, Sweep(manager.providers != map[], ttl, now, probed, io));
      SweepOrphans(active, passes);
    }
  }

  // ---------------------------------------------------------------- the sweep is exact

  /** No two sessions name the same existing container. */
  ghost predicate Unshared(w: World) {
    forall id, other | id in w.sessions && other in w.sessions && id != other ::
      w.sessions[id].runtimeId == w.sessions[other].runtimeId ==> w.sessions[id].runtimeId !in w.containers
  }

  /** The loop removes only what its snapshot names. */
  lemma {:induction false} SweptShrinks(w: World, snapshot: seq<SessionData>, e: Sweep)
    ensures
      var after := Swept(w, snapshot, e);
      && after.sessions.Keys <= w.sessions.Keys && after.containers.Keys <= w.containers.Keys
      && (forall id :: id in after.sessions ==> after.sessions[id] == w.sessions[id])
      && (forall c :: c in after.containers ==> after.containers[c] == w.containers[c])
      && (forall c :: c in w.containers && c !in after.containers ==> exists d :: d in snapshot && d.runtimeId == c)
  {
    if snapshot != [] {
      var before, d := snapshot[..|snapshot| - 1], snapshot[|snapshot| - 1];
      SweptShrinks(w, before, e);
      assert snapshot == before + [d];
      assert d in snapshot && forall x :: x in before ==> x in snapshot;
    }
  }

  /** When a session's turn comes, its container is as it was when the sweep began. */
  lemma RunningAtItsTurn(w: World, snapshot: seq<SessionData>, n: nat, e: Sweep)
    requires Lists(snapshot, w.sessions) && Unshared(w) && n < |snapshot|
    ensures Running(Swept(w, snapshot[..n], e).containers, snapshot[n].runtimeId) ==
        Running(w.containers, snapshot[n].runtimeId)
  {
    SweptShrinks(w, snapshot[..n], e);
    forall m | 0 <= m < n && snapshot[m].runtimeId == snapshot[n].runtimeId
      ensures snapshot[n].runtimeId !in w.containers
    {
      assert snapshot[m] in snapshot && snapshot[n] in snapshot;
    }
  }

  /** Before its turn a session is in the index; after it, exactly if it does not die. */
  lemma {:induction false} FateOf(w: World, snapshot: seq<SessionData>, n: nat, k: nat, e: Sweep)
    requires Lists(snapshot, w.sessions) && Unshared(w) && n <= |snapshot| && k < |snapshot|
    ensures snapshot[k].sessionId in Swept(w, snapshot[..n], e).sessions <==>
        n <= k || !Dies(snapshot[k], w.containers, e)
  {
    if n <= k {
      AwaitsItsTurn(w, snapshot, n, k, e);
    } else {
      assert snapshot[..n][..n - 1] == snapshot[..n - 1];
      if k < n - 1 {
        FateOf(w, snapshot, n - 1, k, e);
      } else {
        AtItsTurn(w, snapshot, k, e);
      }
    }
  }

  lemma AtItsTurn(w: World, snapshot: seq<SessionData>, k: nat, e: Sweep)
    requires Lists(snapshot, w.sessions) && Unshared(w) && k < |snapshot|
    ensures
      var after := Visited(Swept(w, snapshot[..k], e), snapshot[k], e);
      snapshot[k].sessionId in after.sessions <==> !Dies(snapshot[k], w.containers, e)
  {
    AwaitsItsTurn(w, snapshot, k, k, e);
    RunningAtItsTurn(w, snapshot, k, e);
  }

  /** What is left of the index. */
  lemma SweptSessions(w: World, snapshot: seq<SessionData>, e: Sweep)
    requires Lists(snapshot, w.sessions) && Unshared(w)
    ensures Swept(w, snapshot, e).sessions ==
            map id | id in w.sessions && !Dies(w.sessions[id], w.containers, e) :: w.sessions[id]
  {
    SweptShrinks(w, snapshot, e);
    assert snapshot[..|snapshot|] == snapshot;
    forall id | id in w.sessions
      ensures id in Swept(w, snapshot, e).sessions <==> !Dies(w.sessions[id], w.containers, e)
    {
      var d := w.sessions[id];
      assert d in snapshot;
      var k :| 0 <= k < |snapshot| && snapshot[k] == d;
      FateOf(w, snapshot, |snapshot|, k, e);
    }
  }

  /** The session dies, and what that asks of the daemon, or of Redis, takes effect. */
  predicate TakesContainer(d: SessionData, containers: Containers, e: Sweep) {
    Dies(d, containers, e) && e.hasProvider && !e.io(d.sessionId).removal.Rejected?
  }

  predicate TakesRecord(d: SessionData, containers: Containers, e: Sweep) {
    Dies(d, containers, e) && e.io(d.sessionId).deleted
  }

  lemma {:induction false} SweptContainers(w: World, snapshot: seq<SessionData>, n: nat, e: Sweep, c: string)
    requires Lists(snapshot, w.sessions) && Unshared(w) && n <= |snapshot| && c in w.containers
    ensures c in Swept(w, snapshot[..n], e).containers <==>
        forall k :: 0 <= k < n && snapshot[k].runtimeId == c ==> !TakesContainer(snapshot[k], w.containers, e)
  {
    if n > 0 {
      assert snapshot[..n][..n - 1] == snapshot[..n - 1];
      SweptContainers(w, snapshot, n - 1, e, c);
      RunningAtItsTurn(w, snapshot, n - 1, e);
    }
  }

  lemma {:induction false} SweptRecords(w: World, snapshot: seq<SessionData>, n: nat, e: Sweep, id: Id)
    requires Lists(snapshot, w.sessions) && Unshared(w) && n <= |snapshot| && id in w.records
    ensures id in Swept(w, snapshot[..n], e).records <==>
        forall k :: 0 <= k < n && snapshot[k].sessionId == id ==> !TakesRecord(snapshot[k], w.containers, e)
  {
    if n > 0 {
      assert snapshot[..n][..n - 1] == snapshot[..n - 1];
      SweptRecords(w, snapshot, n - 1, e, id);
      RunningAtItsTurn(w, snapshot, n - 1, e);
    }
  }

  lemma Listed(w: World, snapshot: seq<SessionData>, id: Id) returns (k: nat)
    requires Lists(snapshot, w.sessions) && id in w.sessions
    ensures k < |snapshot| && snapshot[k] == w.sessions[id] && snapshot[k].sessionId == id
    ensures forall j :: 0 <= j < |snapshot| && snapshot[j].sessionId == id ==> j == k
  {
    assert w.sessions[id] in snapshot;
    k :| 0 <= k < |snapshot| && snapshot[k] == w.sessions[id];
  }

  /**
    What becomes of a session.  It dies exactly if it is older than its time (ten minutes for guests), or its
    container was found not to run when the sweep began.  Then it leaves the index, its container is removed
    if there is a provider and the removal works, and its record if the deletion does; otherwise all three
    are as they were.
    */
  lemma SweepIsExact(w: World, snapshot: seq<SessionData>, e: Sweep, id: Id)
    requires Lists(snapshot, w.sessions) && Unshared(w) && id in w.sessions
    ensures
      var d, after := w.sessions[id], Swept(w, snapshot, e);
      var dies :=
        || e.now - d.createdAt > (if "guest_" <= d.userId then 600 * 1000000000 else e.ttl)
        || (e.hasProvider && e.probed(id) && !(d.runtimeId in w.containers && w.containers[d.runtimeId].running));
      && (id in after.sessions <==> !dies)
      && (id in after.sessions ==> after.sessions[id] == d)
      && (d.runtimeId in w.containers ==>
            (d.runtimeId in after.containers <==> !(dies && e.hasProvider && !e.io(id).removal.Rejected?)))
      && (id in w.records ==> (id in after.records <==> !(dies && e.io(id).deleted)))
  {
    var k := Listed(w, snapshot, id);
    var n := |snapshot|;
    assert snapshot[..n] == snapshot;
    SweptSessions(w, snapshot, e);
    if w.sessions[id].runtimeId in w.containers { OwnContainer(w, snapshot, e, id, k); }
    if id in w.records { SweptRecords(w, snapshot, n, e, id); }
  }

  lemma OwnContainer(w: World, snapshot: seq<SessionData>, e: Sweep, id: Id, k: nat)
    requires Lists(snapshot, w.sessions) && Unshared(w) && id in w.sessions && w.sessions[id].runtimeId in w.containers
    requires k < |snapshot| && snapshot[k] == w.sessions[id] && snapshot[k].sessionId == id
    ensures w.sessions[id].runtimeId in Swept(w, snapshot, e).containers <==>
            !TakesContainer(w.sessions[id], w.containers, e)
  {
    assert snapshot[..|snapshot|] == snapshot;
    SweptContainers(w, snapshot, |snapshot|, e, w.sessions[id].runtimeId);
    forall j | 0 <= j < |snapshot| && snapshot[j].runtimeId == snapshot[k].runtimeId ensures j == k {
      assert snapshot[j] in snapshot;
    }
  }

  /** A container that does not run when a sweep begins takes its session with it, whoever shares it. */
  lemma {:induction false} DeadContainerLosesItsSession(w: World, snapshot: seq<SessionData>, e: Sweep, d: SessionData)
    requires e.hasProvider && e.probed(d.sessionId) && !Running(w.containers, d.runtimeId) && d in snapshot
    ensures d.sessionId !in Swept(w, snapshot, e).sessions
  {
    var before, last := snapshot[..|snapshot| - 1], snapshot[|snapshot| - 1];
    SweptShrinks(w, before, e);
    assert snapshot == before + [last];
    if d in before { DeadContainerLosesItsSession(w, before, e, d); }
  }

  /** A container the disk quota has removed loses its session at the next sweep. */
  lemma QuotaKillLosesItsSession(
    w: World, over: set<string>, removal: string -> WriteOutcome, snapshot: seq<SessionData>, e: Sweep, id: Id)
    requires id in w.sessions && w.sessions[id].runtimeId in Gone(over, removal)
    requires e.hasProvider && e.probed(id) && Lists(snapshot, w.sessions)
    ensures id !in Swept(w.(containers := w.containers - Gone(over, removal)), snapshot, e).sessions
  {
    DeadContainerLosesItsSession(w.(containers := w.containers - Gone(over, removal)), snapshot, e, w.sessions[id]);
  }

  // ---------------------------------------------------------------- the orphan sweep

  /** One orphan sweep leaves the container in place. */
  predicate Spares(p: Pass, c: Container, id: string, active: set<Id>) {
    !p.listed || !IsOrphan(c, active, p.now, ORPHAN_MIN_AGE) || p.removal(id).Rejected?
  }

  /** A container is left exactly when every sweep spares it; none is touched otherwise. */
  lemma {:induction false} SparedExactly(containers: Containers, active: set<Id>, passes: seq<Pass>)
    ensures AfterPasses(containers, active, passes) ==
            map id | id in containers && forall i :: 0 <= i < |passes| ==> Spares(passes[i], containers[id], id, active)
              :: containers[id]
  {
    if passes != [] { SparedExactly(containers, active, passes[..|passes| - 1]); }
  }

  /** A container without the platform's label is left alone, by every sweep of orphans. */
  lemma ForeignIsSpared(containers: Containers, active: set<Id>, passes: seq<Pass>, id: string)
    requires id in containers
    requires "managed-by" in containers[id].labels ==> containers[id].labels["managed-by"] != "devops-platform-sandbox"
    ensures id in AfterPasses(containers, active, passes)
    ensures AfterPasses(containers, active, passes)[id] == containers[id]
  {
    SparedExactly(containers, active, passes);
    assert forall i :: 0 <= i < |passes| ==> Spares(passes[i], containers[id], id, active);
  }

  /**
    A container that Provision made carries no session id, so being active does not protect it: it is
    spared exactly while it is younger than five minutes, the daemon cannot list, or cannot remove it.
    */
  lemma ProvisionedIsSparedExactly(created: int, id: string, active: set<Id>, p: Pass)
    ensures Spares(p, NewContainer(created), id, active) <==>
            !p.listed || p.now - created * 1000000000 < 300 * 1000000000 || p.removal(id).Rejected?
  {
    var c := NewContainer(created);
    assert Label(c, SESSION_ID) == "" && Label(c, MANAGED_BY) == PLATFORM;
  }

  /**
    A session that a sweep leaves alone, on a provisioned container, is kept by the next sweep exactly
    when the first one's orphan passes spared its container.
    */
  lemma NextSweepKeepsExactly(
    w: World, snapshot: seq<SessionData>, e: Sweep, passes: seq<Pass>,
    snapshot': seq<SessionData>, e': Sweep, id: Id, created: int)
    requires Lists(snapshot, w.sessions) && Unshared(w) && id in w.sessions
    requires w.sessions[id].runtimeId in w.containers && w.containers[w.sessions[id].runtimeId] == NewContainer(created)
    requires !IsTooOld(w.sessions[id], e) && !IsTooOld(w.sessions[id], e') && e'.hasProvider && e'.probed(id)
    requires Lists(snapshot', Swept(w, snapshot, e).sessions)
    ensures
      var w1 := Swept(w, snapshot, e);
      var w2 := w1.(containers := AfterPasses(w1.containers, w.sessions.Keys, passes));
      id in Swept(w2, snapshot', e').sessions <==>
      forall i :: 0 <= i < |passes| ==>
        || !passes[i].listed || passes[i].now - created * 1000000000 < 300 * 1000000000
        || passes[i].removal(w.sessions[id].runtimeId).Rejected?
  {
    var w1 := Swept(w, snapshot, e);
    var w2 := w1.(containers := AfterPasses(w1.containers, w.sessions.Keys, passes));
    var c := w.sessions[id].runtimeId;
    SweptSessions(w, snapshot, e);
    ContainerKeptExactly(w, snapshot, e, passes, id, created);
    UnsharedAfter(w, snapshot, e, passes);
    SweptSessions(w2, snapshot', e');
  }

  lemma ContainerKeptExactly(w: World, snapshot: seq<SessionData>, e: Sweep, passes: seq<Pass>, id: Id, created: int)
    requires Lists(snapshot, w.sessions) && Unshared(w) && id in Swept(w, snapshot, e).sessions && id in w.sessions
    requires w.sessions[id].runtimeId in w.containers && w.containers[w.sessions[id].runtimeId] == NewContainer(created)
    ensures
      var c, after := w.sessions[id].runtimeId, AfterPasses(Swept(w, snapshot, e).containers, w.sessions.Keys, passes);
      && Running(after, c) == (c in after)
      && (c in after <==> forall i :: 0 <= i < |passes| ==>
            || !passes[i].listed || passes[i].now - created * 1000000000 < 300 * 1000000000
            || passes[i].removal(c).Rejected?)
  {
    var c := w.sessions[id].runtimeId;
    SurvivorKeepsItsContainer(w, snapshot, e, id);
    SparedExactly(Swept(w, snapshot, e).containers, w.sessions.Keys, passes);
    forall i | 0 <= i < |passes|
      ensures Spares(passes[i], NewContainer(created), c, w.sessions.Keys) <==>
              || !passes[i].listed || passes[i].now - created * 1000000000 < 300 * 1000000000
              || passes[i].removal(c).Rejected?
    {
      ProvisionedIsSparedExactly(created, c, w.sessions.Keys, passes[i]);
    }
  }

  lemma UnsharedAfter(w: World, snapshot: seq<SessionData>, e: Sweep, passes: seq<Pass>)
    requires Unshared(w)
    ensures
      var w1 := Swept(w, snapshot, e);
      Unshared(w1.(containers := AfterPasses(w1.containers, w.sessions.Keys, passes)))
  {
    SweptShrinks(w, snapshot, e);
    SparedExactly(Swept(w, snapshot, e).containers, w.sessions.Keys, passes);
  }

  /** The loop does not remove the container of a session it keeps. */
  lemma SurvivorKeepsItsContainer(w: World, snapshot: seq<SessionData>, e: Sweep, id: Id)
    requires Lists(snapshot, w.sessions) && Unshared(w) && id in Swept(w, snapshot, e).sessions
    requires id in w.sessions && w.sessions[id].runtimeId in w.containers
    ensures
      var c, after := w.sessions[id].runtimeId, Swept(w, snapshot, e).containers;
      c in after && after[c] == w.containers[c]
  {
    assert snapshot[..|snapshot|] == snapshot;
    SurvivorPrefix(w, snapshot, |snapshot|, e, id);
    SweptShrinks(w, snapshot, e);
  }

  lemma {:induction false} SurvivorPrefix(w: World, snapshot: seq<SessionData>, n: nat, e: Sweep, id: Id)
    requires Lists(snapshot, w.sessions) && Unshared(w) && n <= |snapshot| && id in Swept(w, snapshot[..n], e).sessions
    requires id in w.sessions && w.sessions[id].runtimeId in w.containers
    ensures w.sessions[id].runtimeId in Swept(w, snapshot[..n], e).containers
  {
    if n > 0 {
      assert snapshot[..n][..n - 1] == snapshot[..n - 1];
      SurvivorPrefix(w, snapshot, n - 1, e, id);
      assert snapshot[n - 1] in snapshot;
    }
  }

  /**
    So a healthy session is lost: six minutes old and with its container running, it is
    kept by a sweep whose orphan pass removes the container, and dropped by the next sweep.
    */
  lemma HealthySessionIsLost()
    ensures
      var d := SessionData("s", "c", "user", "challenge", "image", "docker", 0, "worker");
      var w := World(map["s" := d], map["c" := NewContainer(0)], map["s" := Readable(d)]);
      var now := 360 * SECOND;
      var e := Sweep(true, 3600 * SECOND, now, (_: Id) => true, (_: Id) => DestroyAnswers(true, Written, true));
      var passes := [Pass(true, now, (_: string) => Written)];
      var w1 := Swept(w, [d], e);
      var w2 := w1.(containers := AfterPasses(w1.containers, w.sessions.Keys, passes));
      && Lists([d], w.sessions) && !Dies(d, w.containers, e)
      && w2.sessions == w.sessions && w2.containers == map[]
      && Swept(w2, [d], e.(now := now + 60 * SECOND)).sessions == map[]
  {
    var d := SessionData("s", "c", "user", "challenge", "image", "docker", 0, "worker");
    var w := World(map["s" := d], map["c" := NewContainer(0)], map["s" := Readable(d)]);
    var now := 360 * SECOND;
    var e := Sweep(true, 3600 * SECOND, now, (_: Id) => true, (_: Id) => DestroyAnswers(true, Written, true));
    var pass := Pass(true, now, (_: string) => Written);
    assert [d][..|[d]| - 1] == [];
    assert Swept(w, [], e) == w && !Dies(d, w.containers, e);
    SparedExactly(w.containers, w.sessions.Keys, [pass]);
    ProvisionedIsSparedExactly(0, "c", w.sessions.Keys, pass);
    assert !Spares([pass][0], w.containers["c"], "c", w.sessions.Keys);
  }
}
