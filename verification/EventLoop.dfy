/** The control plane's objects. Each method is one block of code between two suspension points, and keeps `Valid`. */
module EventLoop {
  import opened Common
  import opened TokenRegistries
  import opened PodPool
  import CP = ControlPlane
  import LS = LeaseSafety

  class ControlPlane {
    const maxSessions: nat
    const pool: PodPoolManager
    const registry: TokenRegistry
    var sessions: map<SessionId, CP.Session>
    var store: set<SessionId>
    var tasks: map<CP.TaskId, CP.Task>
    ghost var places: map<PodLease, CP.Place>

    constructor (maxSessions: nat, pool: PodPoolManager, registry: TokenRegistry)
      requires pool.idle == [] && pool.deleteCalls == [] && registry.View() == Registry(map[], map[])
      ensures this.maxSessions == maxSessions && this.pool == pool && this.registry == registry
      ensures View() == CP.EMPTY && Valid()
    {
      this.maxSessions, this.pool, this.registry := maxSessions, pool, registry;
      sessions, store, tasks, places := map[], {}, map[], map[];
    }

    function Config(): CP.Config {
      CP.Config(pool.poolSize, pool.maxIdle, maxSessions)
    }

    ghost function View(): CP.State
      reads this, pool, registry
    {
      CP.State(sessions, store, pool.idle, registry.View(), tasks, (set n | n in pool.deleteCalls), places)
    }

    /** One place for every lease, no lease lost, tokens bound to holders only. */
    ghost predicate Valid()
      reads this, pool, registry
    {
      LS.Safe(View())
    }

    method DeletePod(name: PodName)
      modifies pool
      ensures pool.idle == old(pool.idle) && View() == old(View()).Delete(name)
    {
      pool.deleteCalls := pool.deleteCalls + [name];
    }

    method CreateSession(sid: SessionId, user: User) returns (accepted: bool)
      requires Valid() && sid !in sessions && CP.Init(sid) !in tasks
      modifies this
      ensures accepted <==> |old(store)| < maxSessions
      ensures View() == if accepted then CP.Apply(Config(), old(View()), CP.CreateSession(sid, user)) else old(View())
      ensures Valid()
    {
      if |store| >= maxSessions {
        return false;
      }
      hide LS.Safe;
      LS.StepKeeps(Config(), View(), CP.CreateSession(sid, user));
      sessions := sessions[sid := CP.Session(user, Starting, None, None, None, 0, 0)];
      store := store + {sid};
      tasks := tasks[CP.Init(sid) := CP.Created];
      accepted := true;
    }

    // ---- `_init_session` and `_create_pooled` ----

    method FailCreate(sid: SessionId)
      requires sid in sessions
      modifies this
      ensures View() == CP.FailCreate(old(View()), sid)
    {
      sessions := sessions[sid := sessions[sid].(status := Error)];
      tasks := tasks - {CP.Init(sid)};
    }

    /** From the head of the acquire loop to the next suspension. */
    method AcquireRound(sid: SessionId, pick: CP.Pick)
      requires sid in sessions
      modifies this, pool
      ensures View() == CP.AcquireRound(old(View()), sid, pick)
    {
      if pool.idle == [] {
        tasks := tasks[CP.Init(sid) := CP.Spawning];
        return;
      }
      if pick.late {
        FailCreate(sid);
        return;
      }
      var lease := pool.idle[|pool.idle| - 1];
      pool.idle := pool.idle[..|pool.idle| - 1];
      if pick.shortLived {
        DeletePod(lease.name);
        tasks := tasks[CP.Init(sid) := CP.Discarding(false)];
        places := places[lease := CP.Deleted];
      } else {
        tasks := tasks[CP.Init(sid) := CP.Probing(lease)];
        places := places[lease := CP.InTask(CP.Init(sid))];
      }
    }

    method BindLease(sid: SessionId, lease: PodLease)
      requires sid in sessions
      modifies this, registry
      ensures View() == CP.BindLease(old(View()), sid, lease)
    {
      var o := sessions[sid];
      o := o.(podLease := Some(lease));
      o := o.(podName := Some(lease.name));
      o := o.(podToken := Some(lease.llmToken));
      sessions := sessions[sid := o];
      registry.Bind(lease.llmToken, sid, o.user);
      tasks := tasks[CP.Init(sid) := CP.Provisioning(lease)];
      places := places[lease := CP.HeldBy(sid)];
    }

    method InitRuns(sid: SessionId, pick: CP.Pick)
      requires Valid() && CP.Enabled(Config(), View(), CP.InitRuns(sid, pick))
      modifies this, pool
      ensures View() == CP.Apply(Config(), old(View()), CP.InitRuns(sid, pick))
      ensures Valid()
    {
      hide LS.Safe;
      LS.StepKeeps(Config(), View(), CP.InitRuns(sid, pick));
      AcquireRound(sid, pick);
    }

    method DiscardReturns(sid: SessionId, raised: bool, pick: CP.Pick)
      requires Valid() && CP.Enabled(Config(), View(), CP.DiscardReturns(sid, raised, pick))
      modifies this, pool
      ensures View() == CP.Apply(Config(), old(View()), CP.DiscardReturns(sid, raised, pick))
      ensures Valid()
    {
      hide LS.Safe;
      LS.StepKeeps(Config(), View(), CP.DiscardReturns(sid, raised, pick));
      if raised && !tasks[CP.Init(sid)].caught {
        FailCreate(sid);
      } else {
        AcquireRound(sid, pick);
      }
    }

    method ProbeReturns(sid: SessionId, alive: bool)
      requires Valid() && CP.Enabled(Config(), View(), CP.ProbeReturns(sid, alive))
      modifies this, pool, registry
      ensures View() == CP.Apply(Config(), old(View()), CP.ProbeReturns(sid, alive))
      ensures Valid()
    {
      hide LS.Safe;
      LS.StepKeeps(Config(), View(), CP.ProbeReturns(sid, alive));
      var lease := tasks[CP.Init(sid)].lease;
      if alive {
        BindLease(sid, lease);
        return;
      }
      DeletePod(lease.name);
      tasks := tasks[CP.Init(sid) := CP.Discarding(true)];
      places := places[lease := CP.Deleted];
    }

    method SpawnReturns(sid: SessionId, spawned: Option<PodLease>)
      requires Valid() && CP.Enabled(Config(), View(), CP.SpawnReturns(sid, spawned))
      modifies this, registry
      ensures View() == CP.Apply(Config(), old(View()), CP.SpawnReturns(sid, spawned))
      ensures Valid()
    {
      hide LS.Safe;
      LS.StepKeeps(Config(), View(), CP.SpawnReturns(sid, spawned));
      match spawned
      case Some(lease) => BindLease(sid, lease);
      case None => FailCreate(sid);
    }

    method ProvisionReturns(sid: SessionId, ok: bool)
      requires Valid() && CP.Enabled(Config(), View(), CP.ProvisionReturns(sid, ok))
      modifies this, pool, registry
      ensures View() == CP.Apply(Config(), old(View()), CP.ProvisionReturns(sid, ok))
      ensures Valid()
    {
      hide LS.Safe;
      LS.StepKeeps(Config(), View(), CP.ProvisionReturns(sid, ok));
      if ok {
        sessions := sessions[sid := sessions[sid].(status := Ready)];
        tasks := tasks - {CP.Init(sid)};
        return;
      }
      var lease := tasks[CP.Init(sid)].lease;
      registry.Unbind(lease.llmToken);
      if sessions[sid].podLease == Some(lease) {
        places := places[lease := CP.Deleted];
      }
      sessions := sessions[sid := sessions[sid].(podLease := None)];
      DeletePod(lease.name);
      tasks := tasks[CP.Init(sid) := CP.Failing];
    }

    method FailReturns(sid: SessionId)
      requires Valid() && CP.Enabled(Config(), View(), CP.FailReturns(sid))
      modifies this
      ensures View() == CP.Apply(Config(), old(View()), CP.FailReturns(sid))
      ensures Valid()
    {
      hide LS.Safe;
      LS.StepKeeps(Config(), View(), CP.FailReturns(sid));
      FailCreate(sid);
    }

    // ---- `end_session`, the idle reaper, `destroy` ----

    method StoreEnd(n: nat, sid: SessionId)
      requires sid in sessions
      modifies this
      ensures View() == CP.StoreEnd(old(View()), n, sid)
    {
      if sid in store {
        store := store - {sid};
        var o := sessions[sid];
        sessions := sessions[sid := o.(status := Done, ends := o.ends + 1)];
      }
      tasks := tasks - {CP.End(n)};
    }

    method Destroy(n: nat, sid: SessionId, ender: CP.Ender)
      requires sid in sessions
      modifies this, pool, registry
      ensures View() == CP.Destroy(old(View()), n, sid, ender)
    {
      var o := sessions[sid];
      if o.podLease.Some? {
        var lease := o.podLease.value;
        sessions := sessions[sid := o.(podLease := None, podName := None, podToken := None,
                                       teardowns := o.teardowns + 1)];
        if o.podToken.Some? {
          registry.Unbind(o.podToken.value);
        }
        tasks := tasks[CP.End(n) := CP.Resetting(sid, lease, ender)];
        places := places[lease := CP.InTask(CP.End(n))];
        return;
      }
      registry.RevokeForSession(sid);
      sessions := sessions[sid := o.(podName := None, podToken := None)];
      match o.podName
      case Some(name) =>
        sessions := sessions[sid := sessions[sid].(teardowns := o.teardowns + 1)];
        DeletePod(name);
        tasks := tasks[CP.End(n) := CP.Deleting(sid, ender)];
      case None =>
        StoreEnd(n, sid);
    }

    method EndStarts(n: nat, sid: SessionId, ender: CP.Ender, driving: bool)
      requires Valid() && CP.Enabled(Config(), View(), CP.EndStarts(n, sid, ender, driving))
      modifies this, pool, registry
      ensures View() == CP.Apply(Config(), old(View()), CP.EndStarts(n, sid, ender, driving))
      ensures Valid()
    {
      hide LS.Safe;
      LS.StepKeeps(Config(), View(), CP.EndStarts(n, sid, ender, driving));
      if ender == CP.ByRequest {
        if sid !in store {
          return;
        }
      } else {
        sessions := sessions[sid := sessions[sid].(status := Done)];
      }
      if driving {
        tasks := tasks[CP.End(n) := CP.AwaitingDrive(sid, ender)];
      } else {
        Destroy(n, sid, ender);
      }
    }

    method DriveStops(n: nat)
      requires Valid() && CP.Enabled(Config(), View(), CP.DriveStops(n))
      modifies this, pool, registry
      ensures View() == CP.Apply(Config(), old(View()), CP.DriveStops(n))
      ensures Valid()
    {
      hide LS.Safe;
      LS.StepKeeps(Config(), View(), CP.DriveStops(n));
      Destroy(n, tasks[CP.End(n)].sid, tasks[CP.End(n)].ender);
    }

    method ResetDone(n: nat, healthy: bool)
      requires Valid() && CP.Enabled(Config(), View(), CP.ResetDone(n, healthy))
      modifies this, pool
      ensures View() == CP.Apply(Config(), old(View()), CP.ResetDone(n, healthy))
      ensures var lease, sid := old(tasks)[CP.End(n)].lease, old(tasks)[CP.End(n)].sid;
              if healthy && |old(pool.idle)| < pool.maxIdle then
                pool.idle == old(pool.idle) + [lease] && pool.deleteCalls == old(pool.deleteCalls) && sid !in store
              else
                pool.idle == old(pool.idle) && pool.deleteCalls == old(pool.deleteCalls) + [lease.name]
      ensures Valid()
    {
      hide LS.Safe;
      LS.StepKeeps(Config(), View(), CP.ResetDone(n, healthy));
      var t := tasks[CP.End(n)];
      var pooled := healthy && |pool.idle| < pool.maxIdle;
      places := places[t.lease := if pooled then CP.IdleAt(|pool.idle|) else CP.Deleted];
      pool.Release(t.lease, healthy);
      if pooled {
        StoreEnd(n, t.sid);
      } else {
        tasks := tasks[CP.End(n) := CP.Deleting(t.sid, t.ender)];
      }
    }

    method DeleteDone(n: nat, raised: bool)
      requires Valid() && CP.Enabled(Config(), View(), CP.DeleteDone(n, raised))
      modifies this
      ensures View() == CP.Apply(Config(), old(View()), CP.DeleteDone(n, raised))
      ensures Valid()
    {
      hide LS.Safe;
      LS.StepKeeps(Config(), View(), CP.DeleteDone(n, raised));
      var t := tasks[CP.End(n)];
      if raised && t.ender == CP.ByRequest {
        tasks := tasks - {CP.End(n)};
      } else {
        StoreEnd(n, t.sid);
      }
    }

    // ---- `warm` ----

    method WarmRound(n: nat)
      modifies this
      ensures View() == CP.WarmRound(Config(), old(View()), n)
    {
      if |pool.idle| < pool.poolSize {
        tasks := tasks[CP.Warm(n) := CP.Warming];
      } else {
        tasks := tasks - {CP.Warm(n)};
      }
    }

    method WarmStarts(n: nat)
      requires Valid() && CP.Enabled(Config(), View(), CP.WarmStarts(n))
      modifies this
      ensures View() == CP.Apply(Config(), old(View()), CP.WarmStarts(n))
      ensures Valid()
    {
      hide LS.Safe;
      LS.StepKeeps(Config(), View(), CP.WarmStarts(n));
      WarmRound(n);
    }

    method WarmSpawnReturns(n: nat, spawned: Option<PodLease>)
      requires Valid() && CP.Enabled(Config(), View(), CP.WarmSpawnReturns(n, spawned))
      modifies this, pool
      ensures View() == CP.Apply(Config(), old(View()), CP.WarmSpawnReturns(n, spawned))
      ensures Valid()
    {
      hide LS.Safe;
      LS.StepKeeps(Config(), View(), CP.WarmSpawnReturns(n, spawned));
      match spawned
      case None => tasks := tasks - {CP.Warm(n)};
      case Some(lease) =>
        places := places[lease := CP.IdleAt(|pool.idle|)];
        pool.idle := pool.idle + [lease];
        WarmRound(n);
    }
  }
}
