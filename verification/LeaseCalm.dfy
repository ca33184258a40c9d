/** Runs in which a session is ended only after its create has returned: there every claim on a lease is exact. */
module LeaseCalm {
  import opened Common
  import opened PodPool
  import opened ControlPlane
  import opened LeaseSafety
  import opened LeaseTheorems

  predicate CalmEvent(s: State, e: Event) {
    e.EndStarts? ==> Init(e.sid) !in s.tasks
  }

  predicate CalmRun(cfg: Config, s: State, es: seq<Event>)
    requires Feasible(cfg, s, es)
    decreases es
  {
    es == [] || (CalmEvent(s, es[0]) && CalmRun(cfg, Apply(cfg, s, es[0]), es[1..]))
  }

  ghost predicate CalmTask(s: State, id: TaskId, task: Task) {
    && (id.Init? && task.Provisioning? && id.sid in s.sessions ==> s.sessions[id.sid].podLease == Some(task.lease))
    && (task.InEnd() ==> Init(task.sid) !in s.tasks)
    && ((task.Resetting? || task.Deleting?) && task.sid in s.sessions ==> s.sessions[task.sid].podLease.None?)
  }

  ghost predicate CalmSession(s: State, sid: SessionId, o: Session) {
    && (o.podLease.Some? ==> o.podLease.value.llmToken in s.registry.bySession)
    && (o.podLease.None? && o.podName.Some? ==> o.podName.value in s.deleted)
    && (sid !in s.store ==> o.podLease.None? && Init(sid) !in s.tasks)
  }

  ghost predicate Calm(s: State) {
    && (forall sid | sid in s.sessions :: CalmSession(s, sid, s.sessions[sid]))
    && (forall id | id in s.tasks :: CalmTask(s, id, s.tasks[id]))
    && (forall l | l in s.places && l.name in s.deleted :: s.places[l] == Deleted)
  }

  // ---- Each block keeps it ----

  lemma FailCreateKeepsCalm(s: State, sid: SessionId)
    requires Safe(s) && Calm(s) && sid in s.sessions
    ensures Calm(FailCreate(s, sid))
  {
  }

  lemma PopIdleKeepsCalm(s: State, sid: SessionId, shortLived: bool)
    requires Safe(s) && Calm(s) && sid in s.sessions && Init(sid) in s.tasks && s.idle != []
    ensures Calm(PopIdle(s, sid, shortLived))
  {
    hide Bound, Conserved, SessionOk;
  }

  lemma AcquireRoundKeepsCalm(s: State, sid: SessionId, pick: Pick)
    requires Safe(s) && Calm(s) && sid in s.sessions && Init(sid) in s.tasks
    ensures Calm(AcquireRound(s, sid, pick))
  {
    if s.idle != [] && pick.late {
      FailCreateKeepsCalm(s, sid);
    } else if s.idle != [] {
      PopIdleKeepsCalm(s, sid, pick.shortLived);
    }
  }

  lemma DiscardProbedKeepsCalm(s: State, sid: SessionId)
    requires Safe(s) && Calm(s) && Init(sid) in s.tasks && s.tasks[Init(sid)].Probing?
    ensures Calm(DiscardProbed(s, sid, s.tasks[Init(sid)].lease))
  {
  }

  lemma BindKeepsCalm(s: State, sid: SessionId, lease: PodLease)
    requires Safe(s) && Calm(s) && sid in s.sessions && Init(sid) in s.tasks && s.tasks[Init(sid)].BeforeBind()
    requires s.Unused(lease) || s.tasks[Init(sid)] == Probing(lease)
    ensures Calm(BindLease(s, sid, lease))
  {
    hide Bound, SessionOk;
  }

  lemma ProvisionFailsKeepsCalm(s: State, sid: SessionId)
    requires Safe(s) && Calm(s) && sid in s.sessions && Init(sid) in s.tasks && s.tasks[Init(sid)].Provisioning?
    ensures Calm(ProvisionFails(s, sid, s.tasks[Init(sid)].lease))
  {
    hide Conserved, Bound;
  }

  lemma StoreEndKeepsCalm(s: State, n: nat, sid: SessionId)
    requires Safe(s) && Calm(s) && sid in s.sessions && s.sessions[sid].podLease.None? && Init(sid) !in s.tasks
    ensures Calm(StoreEnd(s, n, sid))
  {
  }

  lemma DestroyPooledKeepsCalm(s: State, n: nat, sid: SessionId, ender: Ender)
    requires Safe(s) && Calm(s) && sid in s.sessions && s.sessions[sid].podLease.Some? && Init(sid) !in s.tasks
    ensures Calm(DestroyPooled(s, n, sid, ender))
  {
    hide Distinct, Conserved, TaskOk;
  }

  lemma ForgetPodKeepsCalm(s: State, sid: SessionId)
    requires Safe(s) && Calm(s) && sid in s.sessions && s.sessions[sid].podLease.None?
    ensures Calm(ForgetPod(s, sid))
  {
  }

  lemma DestroyByNameKeepsCalm(s: State, n: nat, sid: SessionId, ender: Ender)
    requires Safe(s) && Calm(s) && sid in s.sessions && s.sessions[sid].podLease.None? && Init(sid) !in s.tasks
    ensures Calm(DestroyByName(s, n, sid, ender))
  {
    ForgetPodKeeps(s, sid);
    ForgetPodKeepsCalm(s, sid);
    if s.sessions[sid].podName.None? {
      StoreEndKeepsCalm(ForgetPod(s, sid), n, sid);
    }
  }

  lemma DestroyKeepsCalm(s: State, n: nat, sid: SessionId, ender: Ender)
    requires Safe(s) && Calm(s) && sid in s.sessions && Init(sid) !in s.tasks
    ensures Calm(Destroy(s, n, sid, ender))
  {
    if s.sessions[sid].podLease.Some? {
      DestroyPooledKeepsCalm(s, n, sid, ender);
    } else {
      DestroyByNameKeepsCalm(s, n, sid, ender);
    }
  }

  lemma StatusKeepsCalm(s: State, sid: SessionId, status: Status)
    requires Safe(s) && Calm(s) && sid in s.sessions
    ensures Calm(s.Put(sid, s.sessions[sid].(status := status)))
  {
  }

  lemma WarmRoundKeepsCalm(cfg: Config, s: State, n: nat)
    requires Safe(s) && Calm(s) && (Warm(n) in s.tasks ==> s.tasks[Warm(n)].Warming?)
    ensures Calm(s.Finish(Warm(n))) && Calm(WarmRound(cfg, s, n))
  {
  }

  lemma AddIdleKeepsCalm(s: State, lease: PodLease)
    requires Safe(s) && Calm(s) && s.Unused(lease)
    ensures Calm(AddIdle(s, lease))
  {
  }

  lemma AwaitDriveKeepsCalm(s: State, n: nat, sid: SessionId, ender: Ender)
    requires Calm(s) && End(n) !in s.tasks && Init(sid) !in s.tasks
    ensures Calm(s.Suspend(End(n), AwaitingDrive(sid, ender)))
  {
  }

  lemma EndBeginsKeepsCalm(s: State, n: nat, sid: SessionId, ender: Ender, driving: bool)
    requires Safe(s) && Calm(s) && sid in s.sessions && End(n) !in s.tasks && Init(sid) !in s.tasks
    ensures Calm(EndBegins(s, n, sid, ender, driving))
  {
    hide Safe, Calm, Destroy;
    var marked := if ender == ByReaper then s.Put(sid, s.sessions[sid].(status := Done)) else s;
    StatusKeeps(s, sid, Done);
    StatusKeepsCalm(s, sid, Done);
    if driving {
      AwaitDriveKeepsCalm(marked, n, sid, ender);
    } else {
      DestroyKeepsCalm(marked, n, sid, ender);
    }
  }

  lemma PoolLeaseKeepsCalm(s: State, n: nat)
    requires Safe(s) && Calm(s) && End(n) in s.tasks && s.tasks[End(n)].Resetting?
    ensures var t := s.tasks[End(n)];
            Calm(PoolLease(s, n, t.lease)) && Calm(DropLease(s, n, t.sid, t.lease, t.ender))
  {
    hide Bound, Conserved;
  }

  lemma AdmitKeepsCalm(s: State, sid: SessionId, user: User)
    requires Safe(s) && Calm(s) && sid !in s.sessions && Init(sid) !in s.tasks
    ensures Calm(Admit(s, sid, user))
  {
    forall id | id in s.tasks
      ensures CalmTask(Admit(s, sid, user), id, s.tasks[id])
    {
      assert TaskOk(s, id, s.tasks[id]);
    }
  }

  lemma FinishKeepsCalm(s: State, id: TaskId)
    requires Calm(s)
    ensures Calm(s.Finish(id))
  {
  }

  /** A teardown under way is alone with its session. */
  lemma EndIsAlone(s: State, id: TaskId)
    requires Safe(s) && Calm(s) && id in s.tasks && s.tasks[id].InEnd()
    ensures s.tasks[id].sid in s.sessions && Init(s.tasks[id].sid) !in s.tasks
    ensures !s.tasks[id].AwaitingDrive? ==> s.sessions[s.tasks[id].sid].podLease.None?
  {
    hide Located, Conserved, Distinct, Bound, SessionOk, CalmSession;
    assert TaskOk(s, id, s.tasks[id]) && CalmTask(s, id, s.tasks[id]);
  }

  lemma ResetReturnsKeepsCalm(cfg: Config, s: State, n: nat, healthy: bool)
    requires Safe(s) && Calm(s) && End(n) in s.tasks && s.tasks[End(n)].Resetting? && s.tasks[End(n)].sid in s.sessions
    ensures var t := s.tasks[End(n)]; Calm(ResetReturns(cfg, s, n, t.sid, t.lease, t.ender, healthy))
  {
    hide Safe, Calm, StoreEnd;
    EndIsAlone(s, End(n));
    PoolLeaseKeeps(s, n);
    PoolLeaseKeepsCalm(s, n);
    StoreEndKeepsCalm(PoolLease(s, n, s.tasks[End(n)].lease), n, s.tasks[End(n)].sid);
  }

  lemma StepKeepsCalm(cfg: Config, s: State, e: Event)
    requires Safe(s) && Calm(s) && Enabled(cfg, s, e) && CalmEvent(s, e)
    ensures Calm(Apply(cfg, s, e))
  {
    hide Safe, Calm, AcquireRound, BindLease, Destroy, EndBegins, ResetReturns, StoreEnd;
    match e {
      case CreateSession(sid, user) => AdmitKeepsCalm(s, sid, user);
      case InitRuns(sid, pick) => AcquireRoundKeepsCalm(s, sid, pick);
      case DiscardReturns(sid, raised, pick) =>
        FailCreateKeepsCalm(s, sid);
        AcquireRoundKeepsCalm(s, sid, pick);
      case ProbeReturns(sid, alive) =>
        BindKeepsCalm(s, sid, s.tasks[Init(sid)].lease);
        DiscardProbedKeepsCalm(s, sid);
      case SpawnReturns(sid, spawned) =>
        FailCreateKeepsCalm(s, sid);
        if spawned.Some? {
          BindKeepsCalm(s, sid, spawned.value);
        }
      case ProvisionReturns(sid, ok) =>
        StatusKeepsCalm(s, sid, Ready);
        FinishKeepsCalm(s.Put(sid, s.sessions[sid].(status := Ready)), Init(sid));
        ProvisionFailsKeepsCalm(s, sid);
      case FailReturns(sid) => FailCreateKeepsCalm(s, sid);
      case EndStarts(n, sid, ender, driving) => EndBeginsKeepsCalm(s, n, sid, ender, driving);
      case DriveStops(n) =>
        EndIsAlone(s, End(n));
        DestroyKeepsCalm(s, n, s.tasks[End(n)].sid, s.tasks[End(n)].ender);
      case ResetDone(n, healthy) => ResetReturnsKeepsCalm(cfg, s, n, healthy);
      case DeleteDone(n, raised) =>
        EndIsAlone(s, End(n));
        FinishKeepsCalm(s, End(n));
        StoreEndKeepsCalm(s, n, s.tasks[End(n)].sid);
      case WarmStarts(n) =>
        WarmRoundKeepsCalm(cfg, s, n);
      case WarmSpawnReturns(n, spawned) =>
        WarmRoundKeepsCalm(cfg, s, n);
        if spawned.Some? {
          AddIdleKeeps(s, spawned.value);
          AddIdleKeepsCalm(s, spawned.value);
          WarmRoundKeepsCalm(cfg, AddIdle(s, spawned.value), n);
        }
    }
  }

  lemma {:induction false} RunKeepsCalm(cfg: Config, s: State, es: seq<Event>)
    requires Safe(s) && Calm(s) && Feasible(cfg, s, es) && CalmRun(cfg, s, es)
    ensures Calm(Run(cfg, s, es))
    decreases es
  {
    if es != [] {
      StepKeeps(cfg, s, es[0]);
      StepKeepsCalm(cfg, s, es[0]);
      RunKeepsCalm(cfg, Apply(cfg, s, es[0]), es[1..]);
    }
  }

  /** A pool token resolves to a session exactly when that session holds the lease. */
  lemma TokenBindingExact(cfg: Config, es: seq<Event>, lease: PodLease, sid: SessionId)
    requires Feasible(cfg, EMPTY, es) && CalmRun(cfg, EMPTY, es)
    requires lease in Run(cfg, EMPTY, es).places && sid in Run(cfg, EMPTY, es).sessions
    ensures var s := Run(cfg, EMPTY, es);
            (lease.llmToken in s.registry.bySession && s.registry.bySession[lease.llmToken] == sid)
            <==> s.sessions[sid].podLease == Some(lease)
  {
    RunKeeps(cfg, EMPTY, es);
    RunKeepsCalm(cfg, EMPTY, es);
    var s := Run(cfg, EMPTY, es);
    assert Truthful(s, lease, s.places[lease]);
  }

  /** An ended session holds no pod, and no pod the control plane deleted is idle, held or about to be. */
  lemma NothingHeldAfterEnd(cfg: Config, es: seq<Event>)
    requires Feasible(cfg, EMPTY, es) && CalmRun(cfg, EMPTY, es)
    ensures var s := Run(cfg, EMPTY, es);
            && (forall sid :: sid in s.sessions && sid !in s.store ==> s.sessions[sid].podLease.None?)
            && (forall i :: 0 <= i < |s.idle| ==> s.idle[i].name !in s.deleted)
            && (forall sid :: sid in s.sessions && s.sessions[sid].podLease.Some? ==>
                  s.sessions[sid].podLease.value.name !in s.deleted)
            && (forall id :: id in s.tasks && s.tasks[id].Carried().Some? ==>
                  s.tasks[id].Carried().value.name !in s.deleted)
  {
    RunKeeps(cfg, EMPTY, es);
    RunKeepsCalm(cfg, EMPTY, es);
  }
}
