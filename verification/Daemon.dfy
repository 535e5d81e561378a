/** The Docker daemon as the sandbox service drives it: provisioning, removal, the disk quota and the orphan sweep. */
module Daemon {
  import opened Wrappers

  const SECOND: int := 1000000000
  const MANAGED_BY := "managed-by"
  const PLATFORM := "devops-platform-sandbox"
  const SESSION_ID := "session-id"

  /** `created` is in seconds since the epoch, as the daemon reports it; every other time is in nanoseconds. */
  datatype Container = Container(labels: map<string, string>, created: int, running: bool, sizeRw: Option<int>)

  type Containers = map<string, Container>

  /** A label, or the empty string that Go reads when it is not set. */
  function Label(c: Container, key: string): string { if key in c.labels then c.labels[key] else "" }

  predicate Managed(c: Container) { Label(c, MANAGED_BY) == PLATFORM }

  predicate Running(containers: Containers, id: string) { id in containers && containers[id].running }

  predicate IsOrphan(c: Container, active: set<string>, now: int, minAge: int) {
    && Managed(c)
    && (Label(c, SESSION_ID) == "" || Label(c, SESSION_ID) !in active)
    && now - c.created * SECOND >= minAge
  }

  function Orphans(containers: Containers, active: set<string>, now: int, minAge: int): set<string> {
    set id | id in containers && IsOrphan(containers[id], active, now, minAge)
  }

  predicate IsOverQuota(c: Container, maxBytes: int) {
    c.running && Managed(c) && c.sizeRw.Some? && c.sizeRw.value > maxBytes
  }

  function OverQuota(containers: Containers, maxBytes: int): set<string> {
    set id | id in containers && IsOverQuota(containers[id], maxBytes)
  }

  /** Those of `ids` that a removal takes away, whether or not it reports success. */
  function Gone(ids: set<string>, removal: string -> WriteOutcome): set<string> {
    set id | id in ids && !removal(id).Rejected?
  }

  /** What Provision asks the daemon for: the platform's label and no session id. */
  function NewContainer(created: int): Container {
    Container(map[MANAGED_BY := PLATFORM], created, true, None)
  }

  class Docker {
    var containers: Containers

    constructor ()
      ensures containers == map[]
    {
      containers := map[];
    }

    /** A container that was created but does not start is removed again, if that works. */
    method Provision(id: string, now: int, created: bool, started: bool, cleaned: bool) returns (r: Option<string>)
      requires id !in containers
      modifies this
      ensures r == if created && started then Some(id) else None
      ensures
        var made := Container(map["managed-by" := "devops-platform-sandbox"], now, started, None);
        containers == if created && (started || !cleaned) then old(containers)[id := made] else old(containers)
    {
      if !created { return None; }
      containers := containers[id := NewContainer(now).(running := false)];
      if !started {
        if cleaned { containers := containers - {id}; }
        return None;
      }
      containers := containers[id := containers[id].(running := true)];
      r := Some(id);
    }

    method Remove(id: string, outcome: WriteOutcome) returns (ok: bool)
      modifies this
      ensures ok <==> id in old(containers) && outcome.Written?
      ensures containers == if outcome.Rejected? then old(containers) else old(containers) - {id}
    {
      ok := id in containers && outcome.Written?;
      if !outcome.Rejected? { containers := containers - {id}; }
    }

    /** A container that does not exist is not running; only a daemon that does not answer is an error. */
    method IsRunning(id: string, reachable: bool) returns (r: Option<bool>)
      ensures r == if reachable then Some(Running(containers, id)) else None
    {
      if !reachable { return None; }
      if id !in containers { return Some(false); }
      r := Some(containers[id].running);
    }

    /** Removes every running platform container over the quota; the answer names also those whose removal failed. */
    method EnforceDiskQuotas(maxBytes: int, listed: bool, inspected: string -> bool, removal: string -> WriteOutcome)
      returns (killed: Option<seq<string>>)
      modifies this
      ensures killed.Some? <==> listed
      ensures killed.None? ==> containers == old(containers)
      ensures killed.Some? ==>
                var over := set id | id in OverQuota(old(containers), maxBytes) && inspected(id);
                && containers == old(containers) - Gone(over, removal)
                && forall id :: id in killed.value <==> id in over
      ensures killed.Some? ==>
                forall id :: id in containers <==>
                  && id in old(containers)
                  && var c := old(containers)[id];
                     !(c.running && "managed-by" in c.labels && c.labels["managed-by"] == "devops-platform-sandbox"
                       && c.sizeRw.Some? && c.sizeRw.value > maxBytes && inspected(id) && !removal(id).Rejected?)
      ensures forall id :: id in containers ==> id in old(containers) && containers[id] == old(containers)[id]
    {
      if !listed { return None; }
      ghost var over := set id | id in OverQuota(containers, maxBytes) && inspected(id);
      var names: seq<string> := [];
      var rest := set id | id in containers && containers[id].running;
      ghost var all := rest;
      while rest != {}
        invariant rest <= all && over <= all <= old(containers).Keys
        invariant containers == old(containers) - Gone(over - rest, removal)
        invariant forall id :: id in names <==> id in over - rest
        decreases rest
      {
        var id :| id in rest;
        rest := rest - {id};
        var c := containers[id];
        if Managed(c) && inspected(id) && c.sizeRw.Some? && c.sizeRw.value > maxBytes {
          var _ := Remove(id, removal(id));
          names := names + [id];
        }
      }
      killed := Some(names);
    }

    /** Removes every orphan; the answer names those whose removal succeeded. */
    method ReapOrphans(active: set<string>, now: int, minAge: int, listed: bool, removal: string -> WriteOutcome)
      returns (reaped: Option<seq<string>>)
      modifies this
      ensures reaped.Some? <==> listed
      ensures reaped.None? ==> containers == old(containers)
      ensures reaped.Some? ==>
                var orphans := Orphans(old(containers), active, now, minAge);
                && containers == old(containers) - Gone(orphans, removal)
                && forall id :: id in reaped.value <==> id in orphans && removal(id).Written?
      ensures reaped.Some? ==>
                forall id :: id in containers <==>
                  && id in old(containers)
                  && var c := old(containers)[id];
                     !("managed-by" in c.labels && c.labels["managed-by"] == "devops-platform-sandbox"
                       && ("session-id" in c.labels ==>
                             c.labels["session-id"] == "" || c.labels["session-id"] !in active)
                       && now - c.created * 1000000000 >= minAge && !removal(id).Rejected?)
      ensures forall id :: id in containers ==> id in old(containers) && containers[id] == old(containers)[id]
    {
      if !listed { return None; }
      ghost var orphans := Orphans(containers, active, now, minAge);
      var names: seq<string> := [];
      var rest := containers.Keys;
      while rest != {}
        invariant rest <= old(containers).Keys
        invariant containers == old(containers) - Gone(orphans - rest, removal)
        invariant forall id :: id in names <==> id in orphans - rest && removal(id).Written?
        decreases rest
      {
        var id :| id in rest;
        rest := rest - {id};
        var c := containers[id];
        if !Managed(c) { continue; }
        var sessionId := Label(c, SESSION_ID);
        if sessionId != "" && sessionId in active { continue; }
        if now - c.created * SECOND < minAge { continue; }
        var ok := Remove(id, removal(id));
        if ok { names := names + [id]; }
      }
      reaped := Some(names);
    }
  }
}
