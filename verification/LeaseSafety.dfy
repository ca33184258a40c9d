/** What every step of the control plane keeps, and what follows for every run. */
module LeaseSafety {
  import opened Common
  import opened PodPool
  import opened ControlPlane

  // ---- The invariant, in three parts ----

  /** Where a lease is, `places` says so. */
  ghost predicate Located(s: State) {
    && (forall i :: 0 <= i < |s.idle| ==> s.idle[i] in s.places && s.places[s.idle[i]] == IdleAt(i))
    && (forall sid | sid in s.sessions && s.sessions[sid].podLease.Some? ::
          && s.sessions[sid].podLease.value in s.places
          && s.places[s.sessions[sid].podLease.value] == HeldBy(sid))
    && (forall id | id in s.tasks && s.tasks[id].Carried().Some? ::
          && s.tasks[id].Carried().value in s.places
          && s.places[s.tasks[id].Carried().value] == InTask(id))
  }

  ghost predicate Truthful(s: State, lease: PodLease, place: Place) {
    match place
    case IdleAt(i) => i < |s.idle| && s.idle[i] == lease
    case HeldBy(sid) => sid in s.sessions && s.sessions[sid].podLease == Some(lease)
    case InTask(id) => id in s.tasks && s.tasks[id].Carried() == Some(lease)
    case Deleted => lease.name in s.deleted
  }

  /** What `places` says, is so: no lease is lost. */
  ghost predicate Conserved(s: State) {
    forall l | l in s.places :: Truthful(s, l, s.places[l])
  }

  ghost predicate SessionOk(o: Session, stored: bool) {
    && (o.podLease.Some? ==>
          o.podName == Some(o.podLease.value.name) && o.podToken == Some(o.podLease.value.llmToken))
    && o.teardowns + (if o.podName.Some? then 1 else 0) <= 1
    && o.ends + (if stored then 1 else 0) == 1
  }

  ghost predicate TaskOk(s: State, id: TaskId, task: Task) {
    match id
    case Init(sid) =>
      && task.InCreate() && sid in s.sessions
      && (task.BeforeBind() ==>
            var o := s.sessions[sid];
            o.podLease.None? && o.podName.None? && o.podToken.None? && o.teardowns == 0)
      && (task.Provisioning? ==>
            && task.lease in s.places
            && (s.sessions[sid].podLease.None? || s.sessions[sid].podLease == Some(task.lease)))
    case End(_) => task.InEnd() && task.sid in s.sessions
    case Warm(_) => task.Warming?
  }

  ghost predicate Orderly(s: State) {
    && s.store <= s.sessions.Keys
    && (forall sid | sid in s.sessions :: SessionOk(s.sessions[sid], sid in s.store))
    && (forall id | id in s.tasks :: TaskOk(s, id, s.tasks[id]))
  }

  ghost predicate Distinct(s: State) {
    forall l, m | l in s.places && m in s.places && l != m :: l.llmToken != m.llmToken && l.name != m.name
  }

  /** A bound pool token belongs to a held lease; both tables then speak of the session that holds it. */
  ghost predicate Bound(s: State) {
    && s.registry.Consistent()
    && forall l | l in s.places && l.llmToken in s.registry.bySession ::
         var sid := s.registry.bySession[l.llmToken];
         && s.places[l] == HeldBy(sid)
         && sid in s.sessions
         && (if s.sessions[sid].user == "" then l.llmToken !in s.registry.byUser
             else l.llmToken in s.registry.byUser && s.registry.byUser[l.llmToken] == s.sessions[sid].user)
  }

  ghost predicate Safe(s: State) {
    Located(s) && Conserved(s) && Orderly(s) && Distinct(s) && Bound(s)
  }

  // ---- Each block keeps the invariant ----

  lemma SuspendKeepsPlaces(s: State, id: TaskId, task: Task)
    requires Safe(s)
    requires id in s.tasks ==> s.tasks[id].Carried().None?
    requires task.Carried().None? && TaskOk(s, id, task)
    ensures var t := s.Suspend(id, task); Located(t) && Conserved(t)
  {
    hide Bound, SessionOk;
  }

  lemma SuspendKeepsRest(s: State, id: TaskId, task: Task)
    requires Safe(s)
    requires id in s.tasks ==> s.tasks[id].Carried().None?
    requires task.Carried().None? && TaskOk(s, id, task)
    ensures var t := s.Suspend(id, task); Orderly(t) && Distinct(t) && Bound(t)
  {
    hide Truthful, Located;
  }

  lemma SuspendKeeps(s: State, id: TaskId, task: Task)
    requires Safe(s)
    requires id in s.tasks ==> s.tasks[id].Carried().None?
    requires task.Carried().None? && TaskOk(s, id, task)
    ensures var t := s.Suspend(id, task); Safe(t)
  {
    SuspendKeepsPlaces(s, id, task);
    SuspendKeepsRest(s, id, task);
  }

  lemma FinishKeepsPlaces(s: State, id: TaskId)
    requires Safe(s)
    requires id in s.tasks ==> s.tasks[id].Carried().None?
    ensures var t := s.Finish(id); Located(t) && Conserved(t)
  {
    hide Bound, SessionOk;
  }

  lemma FinishKeepsRest(s: State, id: TaskId)
    requires Safe(s)
    requires id in s.tasks ==> s.tasks[id].Carried().None?
    ensures var t := s.Finish(id); Orderly(t) && Distinct(t) && Bound(t)
  {
    hide Truthful, Located;
  }

  lemma FinishKeeps(s: State, id: TaskId)
    requires Safe(s)
    requires id in s.tasks ==> s.tasks[id].Carried().None?
    ensures var t := s.Finish(id); Safe(t)
  {
    FinishKeepsPlaces(s, id);
    FinishKeepsRest(s, id);
  }

  lemma DeleteKeeps(s: State, name: PodName)
    requires Safe(s)
    ensures var t := s.Delete(name); Safe(t)
  {
  }

  lemma StatusKeepsPlaces(s: State, sid: SessionId, status: Status)
    requires Safe(s)
    requires sid in s.sessions
    ensures var t := s.Put(sid, s.sessions[sid].(status := status)); Located(t) && Conserved(t)
  {
    hide Bound, SessionOk;
  }

  lemma StatusKeepsRest(s: State, sid: SessionId, status: Status)
    requires Safe(s)
    requires sid in s.sessions
    ensures var t := s.Put(sid, s.sessions[sid].(status := status)); Orderly(t) && Distinct(t) && Bound(t)
  {
    hide Truthful, Located;
  }

  lemma StatusKeeps(s: State, sid: SessionId, status: Status)
    requires Safe(s)
    requires sid in s.sessions
    ensures var t := s.Put(sid, s.sessions[sid].(status := status)); Safe(t)
  {
    StatusKeepsPlaces(s, sid, status);
    StatusKeepsRest(s, sid, status);
  }

  lemma AdmitKeepsPlaces(s: State, sid: SessionId, user: User)
    requires Safe(s)
    requires sid !in s.sessions && Init(sid) !in s.tasks
    ensures var t := Admit(s, sid, user); Located(t) && Conserved(t)
  {
    hide Bound, SessionOk;
  }

  lemma AdmitKeepsRest(s: State, sid: SessionId, user: User)
    requires Safe(s)
    requires sid !in s.sessions && Init(sid) !in s.tasks
    ensures var t := Admit(s, sid, user); Orderly(t) && Distinct(t) && Bound(t)
  {
    hide Truthful;
  }

  lemma AdmitKeeps(s: State, sid: SessionId, user: User)
    requires Safe(s)
    requires sid !in s.sessions && Init(sid) !in s.tasks
    ensures var t := Admit(s, sid, user); Safe(t)
  {
    AdmitKeepsPlaces(s, sid, user);
    AdmitKeepsRest(s, sid, user);
  }

  lemma RemoveFromStoreKeepsPlaces(s: State, sid: SessionId)
    requires Safe(s)
    requires sid in s.sessions && sid in s.store
    ensures var t := RemoveFromStore(s, sid); Located(t) && Conserved(t)
  {
    hide Bound, SessionOk;
  }

  lemma RemoveFromStoreKeepsRest(s: State, sid: SessionId)
    requires Safe(s)
    requires sid in s.sessions && sid in s.store
    ensures var t := RemoveFromStore(s, sid); Orderly(t) && Distinct(t) && Bound(t)
  {
    hide Truthful, Located;
  }

  lemma RemoveFromStoreKeeps(s: State, sid: SessionId)
    requires Safe(s)
    requires sid in s.sessions && sid in s.store
    ensures var t := RemoveFromStore(s, sid); Safe(t)
  {
    RemoveFromStoreKeepsPlaces(s, sid);
    RemoveFromStoreKeepsRest(s, sid);
  }

  lemma ForgetPodKeepsPlaces(s: State, sid: SessionId)
    requires Safe(s)
    requires sid in s.sessions && s.sessions[sid].podLease.None?
    ensures var t := ForgetPod(s, sid); Located(t) && Conserved(t)
  {
    hide Bound, SessionOk;
  }

  lemma ForgetPodKeepsRest(s: State, sid: SessionId)
    requires Safe(s)
    requires sid in s.sessions && s.sessions[sid].podLease.None?
    ensures var t := ForgetPod(s, sid); Orderly(t) && Distinct(t) && Bound(t)
  {
    hide Truthful, Located;
  }

  lemma ForgetPodKeeps(s: State, sid: SessionId)
    requires Safe(s)
    requires sid in s.sessions && s.sessions[sid].podLease.None?
    ensures var t := ForgetPod(s, sid); Safe(t)
  {
    ForgetPodKeepsPlaces(s, sid);
    ForgetPodKeepsRest(s, sid);
  }

  lemma AddIdleKeepsPlaces(s: State, lease: PodLease)
    requires Safe(s)
    requires s.Unused(lease)
    ensures var t := AddIdle(s, lease); Located(t) && Conserved(t)
  {
    hide Bound, SessionOk;
  }

  lemma AddIdleKeepsRest(s: State, lease: PodLease)
    requires Safe(s)
    requires s.Unused(lease)
    ensures var t := AddIdle(s, lease); Orderly(t) && Distinct(t) && Bound(t)
  {
    hide Truthful;
  }

  lemma AddIdleKeeps(s: State, lease: PodLease)
    requires Safe(s)
    requires s.Unused(lease)
    ensures var t := AddIdle(s, lease); Safe(t)
  {
    AddIdleKeepsPlaces(s, lease);
    AddIdleKeepsRest(s, lease);
  }

  lemma PoolLeaseKeepsPlaces(s: State, n: nat)
    requires Safe(s)
    requires End(n) in s.tasks && s.tasks[End(n)].Resetting?
    ensures var t := PoolLease(s, n, s.tasks[End(n)].lease); Located(t) && Conserved(t)
  {
    hide Bound, SessionOk;
  }

  lemma PoolLeaseKeepsRest(s: State, n: nat)
    requires Safe(s)
    requires End(n) in s.tasks && s.tasks[End(n)].Resetting?
    ensures var t := PoolLease(s, n, s.tasks[End(n)].lease); Orderly(t) && Distinct(t) && Bound(t)
  {
    hide Truthful;
  }

  lemma PoolLeaseKeeps(s: State, n: nat)
    requires Safe(s)
    requires End(n) in s.tasks && s.tasks[End(n)].Resetting?
    ensures var t := PoolLease(s, n, s.tasks[End(n)].lease); Safe(t)
  {
    PoolLeaseKeepsPlaces(s, n);
    PoolLeaseKeepsRest(s, n);
  }

  lemma DropLeaseKeepsPlaces(s: State, n: nat)
    requires Safe(s)
    requires End(n) in s.tasks && s.tasks[End(n)].Resetting?
    ensures var t := DropLease(s, n, s.tasks[End(n)].sid, s.tasks[End(n)].lease, s.tasks[End(n)].ender);
            Located(t) && Conserved(t)
  {
    hide Distinct, Bound, SessionOk;
  }

  lemma DropLeaseKeepsRest(s: State, n: nat)
    requires Safe(s)
    requires End(n) in s.tasks && s.tasks[End(n)].Resetting?
    ensures var t := DropLease(s, n, s.tasks[End(n)].sid, s.tasks[End(n)].lease, s.tasks[End(n)].ender);
            Orderly(t) && Distinct(t) && Bound(t)
  {
    hide Conserved, SessionOk;
  }

  lemma DropLeaseKeeps(s: State, n: nat)
    requires Safe(s)
    requires End(n) in s.tasks && s.tasks[End(n)].Resetting?
    ensures var t := DropLease(s, n, s.tasks[End(n)].sid, s.tasks[End(n)].lease, s.tasks[End(n)].ender); Safe(t)
  {
    DropLeaseKeepsPlaces(s, n);
    DropLeaseKeepsRest(s, n);
  }

  lemma PopIdleKeepsLocated(s: State, sid: SessionId, shortLived: bool)
    requires Safe(s)
    requires s.idle != [] && sid in s.sessions
    requires Init(sid) in s.tasks && s.tasks[Init(sid)].BeforeBind() && s.tasks[Init(sid)].Carried().None?
    ensures var t := PopIdle(s, sid, shortLived); Located(t)
  {
    hide Distinct, Bound;
  }

  lemma PopIdleKeepsConserved(s: State, sid: SessionId, shortLived: bool)
    requires Safe(s)
    requires s.idle != [] && sid in s.sessions
    requires Init(sid) in s.tasks && s.tasks[Init(sid)].BeforeBind() && s.tasks[Init(sid)].Carried().None?
    ensures var t := PopIdle(s, sid, shortLived); Conserved(t)
  {
    hide Orderly, Distinct, Bound;
  }

  lemma PopIdleKeepsRest(s: State, sid: SessionId, shortLived: bool)
    requires Safe(s)
    requires s.idle != [] && sid in s.sessions
    requires Init(sid) in s.tasks && s.tasks[Init(sid)].BeforeBind() && s.tasks[Init(sid)].Carried().None?
    ensures var t := PopIdle(s, sid, shortLived); Orderly(t) && Distinct(t) && Bound(t)
  {
  }

  lemma DiscardProbedKeepsPlaces(s: State, sid: SessionId)
    requires Safe(s)
    requires Init(sid) in s.tasks && s.tasks[Init(sid)].Probing?
    ensures var t := DiscardProbed(s, sid, s.tasks[Init(sid)].lease); Located(t) && Conserved(t)
  {
    hide Distinct, Bound, SessionOk;
  }

  lemma DiscardProbedKeepsRest(s: State, sid: SessionId)
    requires Safe(s)
    requires Init(sid) in s.tasks && s.tasks[Init(sid)].Probing?
    ensures var t := DiscardProbed(s, sid, s.tasks[Init(sid)].lease); Orderly(t) && Distinct(t) && Bound(t)
  {
    hide Truthful;
  }

  lemma DiscardProbedKeeps(s: State, sid: SessionId)
    requires Safe(s)
    requires Init(sid) in s.tasks && s.tasks[Init(sid)].Probing?
    ensures var t := DiscardProbed(s, sid, s.tasks[Init(sid)].lease); Safe(t)
  {
    DiscardProbedKeepsPlaces(s, sid);
    DiscardProbedKeepsRest(s, sid);
  }

  lemma BindProbedKeepsPlaces(s: State, sid: SessionId)
    requires Safe(s)
    requires sid in s.sessions && Init(sid) in s.tasks && s.tasks[Init(sid)].Probing?
    ensures var t := BindLease(s, sid, s.tasks[Init(sid)].lease); Located(t) && Conserved(t)
  {
    hide Distinct, Bound, SessionOk;
  }

  lemma BindProbedKeepsOrderly(s: State, sid: SessionId)
    requires Safe(s)
    requires sid in s.sessions && Init(sid) in s.tasks && s.tasks[Init(sid)].Probing?
    ensures var t := BindLease(s, sid, s.tasks[Init(sid)].lease); Orderly(t)
  {
    hide Conserved, Distinct, Bound;
  }

  lemma BindProbedKeepsTokens(s: State, sid: SessionId)
    requires Safe(s)
    requires sid in s.sessions && Init(sid) in s.tasks && s.tasks[Init(sid)].Probing?
    ensures var t := BindLease(s, sid, s.tasks[Init(sid)].lease); Distinct(t) && Bound(t)
  {
    hide Conserved, SessionOk;
  }

  lemma BindSpawnedKeepsPlaces(s: State, sid: SessionId, lease: PodLease)
    requires Safe(s)
    requires sid in s.sessions && Init(sid) in s.tasks && s.tasks[Init(sid)].Spawning? && s.Unused(lease)
    ensures var t := BindLease(s, sid, lease); Located(t) && Conserved(t)
  {
    hide Distinct, Bound, SessionOk;
  }

  lemma BindSpawnedKeepsOrderly(s: State, sid: SessionId, lease: PodLease)
    requires Safe(s)
    requires sid in s.sessions && Init(sid) in s.tasks && s.tasks[Init(sid)].Spawning? && s.Unused(lease)
    ensures var t := BindLease(s, sid, lease); Orderly(t)
  {
    hide Located, Conserved, Distinct, Bound;
  }

  lemma BindSpawnedKeepsTokens(s: State, sid: SessionId, lease: PodLease)
    requires Safe(s)
    requires sid in s.sessions && Init(sid) in s.tasks && s.tasks[Init(sid)].Spawning? && s.Unused(lease)
    ensures var t := BindLease(s, sid, lease); Distinct(t) && Bound(t)
  {
    hide Located, TaskOk;
  }

  lemma ProvisionFailsKeepsLocated(s: State, sid: SessionId)
    requires Safe(s)
    requires sid in s.sessions && Init(sid) in s.tasks && s.tasks[Init(sid)].Provisioning?
    ensures var t := ProvisionFails(s, sid, s.tasks[Init(sid)].lease); Located(t)
  {
    hide Distinct, Bound, SessionOk;
  }

  lemma ProvisionFailsKeepsConserved(s: State, sid: SessionId)
    requires Safe(s)
    requires sid in s.sessions && Init(sid) in s.tasks && s.tasks[Init(sid)].Provisioning?
    ensures var t := ProvisionFails(s, sid, s.tasks[Init(sid)].lease); Conserved(t)
  {
    hide Distinct, Bound, SessionOk;
  }

  lemma ProvisionFailsKeepsOrderly(s: State, sid: SessionId)
    requires Safe(s)
    requires sid in s.sessions && Init(sid) in s.tasks && s.tasks[Init(sid)].Provisioning?
    ensures var t := ProvisionFails(s, sid, s.tasks[Init(sid)].lease); Orderly(t)
  {
    hide Located, Conserved, Distinct, Bound;
  }

  lemma ProvisionFailsKeepsTokens(s: State, sid: SessionId)
    requires Safe(s)
    requires sid in s.sessions && Init(sid) in s.tasks && s.tasks[Init(sid)].Provisioning?
    ensures var t := ProvisionFails(s, sid, s.tasks[Init(sid)].lease); Distinct(t) && Bound(t)
  {
    hide Located, Conserved, SessionOk;
  }

  lemma DestroyPooledKeepsPlaces(s: State, n: nat, sid: SessionId, ender: Ender)
    requires Safe(s)
    requires sid in s.sessions && s.sessions[sid].podLease.Some?
    requires End(n) in s.tasks ==> s.tasks[End(n)].Carried().None?
    ensures var t := DestroyPooled(s, n, sid, ender); Located(t) && Conserved(t)
  {
    hide Distinct, Bound, SessionOk;
  }

  lemma DestroyPooledKeepsOrderly(s: State, n: nat, sid: SessionId, ender: Ender)
    requires Safe(s)
    requires sid in s.sessions && s.sessions[sid].podLease.Some?
    requires End(n) in s.tasks ==> s.tasks[End(n)].Carried().None?
    ensures var t := DestroyPooled(s, n, sid, ender); Orderly(t)
  {
    hide Located, Conserved, Distinct, Bound;
  }

  lemma DestroyPooledKeepsTokens(s: State, n: nat, sid: SessionId, ender: Ender)
    requires Safe(s)
    requires sid in s.sessions && s.sessions[sid].podLease.Some?
    requires End(n) in s.tasks ==> s.tasks[End(n)].Carried().None?
    ensures var t := DestroyPooled(s, n, sid, ender); Distinct(t) && Bound(t)
  {
    hide Conserved, TaskOk;
  }

  lemma FailCreateKeeps(s: State, sid: SessionId)
    requires Safe(s) && sid in s.sessions && (Init(sid) in s.tasks ==> s.tasks[Init(sid)].Carried().None?)
    ensures Safe(FailCreate(s, sid))
  {
    StatusKeeps(s, sid, Error);
    FinishKeeps(s.Put(sid, s.sessions[sid].(status := Error)), Init(sid));
  }

  lemma AcquireRoundKeeps(s: State, sid: SessionId, pick: Pick)
    requires Safe(s) && sid in s.sessions && Init(sid) in s.tasks
    requires s.tasks[Init(sid)].BeforeBind() && s.tasks[Init(sid)].Carried().None?
    ensures Safe(AcquireRound(s, sid, pick))
  {
    if s.idle == [] {
      assert TaskOk(s, Init(sid), s.tasks[Init(sid)]);
      SuspendKeeps(s, Init(sid), Spawning);
    } else if pick.late {
      FailCreateKeeps(s, sid);
    } else {
      PopIdleKeepsLocated(s, sid, pick.shortLived);
      PopIdleKeepsConserved(s, sid, pick.shortLived);
      PopIdleKeepsRest(s, sid, pick.shortLived);
    }
  }

  lemma StoreEndKeeps(s: State, n: nat, sid: SessionId)
    requires Safe(s) && sid in s.sessions && (End(n) in s.tasks ==> s.tasks[End(n)].Carried().None?)
    ensures Safe(StoreEnd(s, n, sid))
  {
    if sid in s.store {
      RemoveFromStoreKeeps(s, sid);
      FinishKeeps(RemoveFromStore(s, sid), End(n));
    } else {
      FinishKeeps(s, End(n));
    }
  }

  lemma DestroyKeeps(s: State, n: nat, sid: SessionId, ender: Ender)
    requires Safe(s) && sid in s.sessions && (End(n) in s.tasks ==> s.tasks[End(n)].Carried().None?)
    ensures Safe(Destroy(s, n, sid, ender))
  {
    if s.sessions[sid].podLease.Some? {
      DestroyPooledKeepsPlaces(s, n, sid, ender);
      DestroyPooledKeepsOrderly(s, n, sid, ender);
      DestroyPooledKeepsTokens(s, n, sid, ender);
    } else {
      ForgetPodKeeps(s, sid);
      var t := ForgetPod(s, sid);
      match s.sessions[sid].podName {
        case Some(name) =>
          DeleteKeeps(t, name);
          SuspendKeeps(t.Delete(name), End(n), Deleting(sid, ender));
        case None => StoreEndKeeps(t, n, sid);
      }
    }
  }

  lemma EndBeginsKeeps(s: State, n: nat, sid: SessionId, ender: Ender, driving: bool)
    requires Safe(s) && sid in s.sessions && End(n) !in s.tasks
    ensures Safe(EndBegins(s, n, sid, ender, driving))
  {
    StatusKeeps(s, sid, Done);
    var marked := if ender == ByReaper then s.Put(sid, s.sessions[sid].(status := Done)) else s;
    if ender == ByRequest && sid !in s.store {
    } else if driving {
      SuspendKeeps(marked, End(n), AwaitingDrive(sid, ender));
    } else {
      DestroyKeeps(marked, n, sid, ender);
    }
  }

  lemma WarmRoundKeeps(cfg: Config, s: State, n: nat)
    requires Safe(s) && (Warm(n) in s.tasks ==> s.tasks[Warm(n)].Warming?)
    ensures Safe(WarmRound(cfg, s, n))
  {
    if |s.idle| < cfg.poolSize {
      SuspendKeeps(s, Warm(n), Warming);
    } else {
      FinishKeeps(s, Warm(n));
    }
  }

  /** Every step of every coroutine keeps the invariant. */
  lemma StepKeeps(cfg: Config, s: State, e: Event)
    requires Safe(s) && Enabled(cfg, s, e)
    ensures Safe(Apply(cfg, s, e))
  {
    hide Located, Conserved, Distinct, Bound, SessionOk;
    match e {
      case CreateSession(sid, user) => AdmitKeeps(s, sid, user);
      case InitRuns(sid, pick) => AcquireRoundKeeps(s, sid, pick);
      case DiscardReturns(sid, raised, pick) =>
        FailCreateKeeps(s, sid);
        AcquireRoundKeeps(s, sid, pick);
      case ProbeReturns(sid, alive) =>
        if alive {
          BindProbedKeepsPlaces(s, sid);
          BindProbedKeepsOrderly(s, sid);
          BindProbedKeepsTokens(s, sid);
        } else {
          DiscardProbedKeeps(s, sid);
        }
      case SpawnReturns(sid, spawned) =>
        if spawned.Some? {
          BindSpawnedKeepsPlaces(s, sid, spawned.value);
          BindSpawnedKeepsOrderly(s, sid, spawned.value);
          BindSpawnedKeepsTokens(s, sid, spawned.value);
        } else {
          FailCreateKeeps(s, sid);
        }
      case ProvisionReturns(sid, ok) =>
        if ok {
          StatusKeeps(s, sid, Ready);
          FinishKeeps(s.Put(sid, s.sessions[sid].(status := Ready)), Init(sid));
        } else {
          ProvisionFailsKeepsLocated(s, sid);
          ProvisionFailsKeepsConserved(s, sid);
          ProvisionFailsKeepsOrderly(s, sid);
          ProvisionFailsKeepsTokens(s, sid);
        }
      case FailReturns(sid) => FailCreateKeeps(s, sid);
      case EndStarts(n, sid, ender, driving) => EndBeginsKeeps(s, n, sid, ender, driving);
      case DriveStops(n) => DestroyKeeps(s, n, s.tasks[End(n)].sid, s.tasks[End(n)].ender);
      case ResetDone(n, healthy) =>
        DropLeaseKeeps(s, n);
        PoolLeaseKeeps(s, n);
        StoreEndKeeps(PoolLease(s, n, s.tasks[End(n)].lease), n, s.tasks[End(n)].sid);
      case DeleteDone(n, raised) =>
        FinishKeeps(s, End(n));
        StoreEndKeeps(s, n, s.tasks[End(n)].sid);
      case WarmStarts(n) => WarmRoundKeeps(cfg, s, n);
      case WarmSpawnReturns(n, spawned) =>
        if spawned.Some? {
          AddIdleKeeps(s, spawned.value);
          WarmRoundKeeps(cfg, AddIdle(s, spawned.value), n);
        } else {
          FinishKeeps(s, Warm(n));
        }
    }
  }
}
