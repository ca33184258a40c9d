/** What one block of the control plane changes, variable by variable: the idle list, the deletions asked for, a
    session's status, its place in the store, and where its create goes on. */
module LeaseSteps {
  import opened Common
  import opened PodPool
  import opened ControlPlane
  import opened LeaseSafety
  import opened LeaseFates

  // ---- the idle list: a stack ----------------------------------------------------------------------------

  /** The lease this step gives back, or adds, to the pool. */
  function Pooled(cfg: Config, s: State, e: Event): Option<PodLease> {
    match e
    case ResetDone(n, healthy) =>
      if healthy && |s.idle| < cfg.maxIdle && End(n) in s.tasks && s.tasks[End(n)].Resetting?
      then Some(s.tasks[End(n)].lease) else None
    case WarmSpawnReturns(_, spawned) => spawned
    case _ => None
  }

  /** A round of the acquire loop that is in time takes the last idle lease. */
  predicate TakesLast(s: State, e: Event) {
    s.idle != [] && (e.InitRuns? || e.DiscardReturns?) && RoundOf(s, e, e.sid, e.pick) && !e.pick.late
  }

  lemma DestroyKeepsIdle(s: State, n: nat, sid: SessionId, ender: Ender)
    requires sid in s.sessions
    ensures Destroy(s, n, sid, ender).idle == s.idle
  {
  }

  lemma StepIdle(cfg: Config, s: State, e: Event)
    requires Enabled(cfg, s, e)
    ensures Apply(cfg, s, e).idle ==
            if Pooled(cfg, s, e).Some? then s.idle + [Pooled(cfg, s, e).value]
            else if TakesLast(s, e) then s.idle[..|s.idle| - 1]
            else s.idle
  {
    hide Destroy;
    match e {
      case EndStarts(n, sid, ender, _) =>
        DestroyKeepsIdle(if ender == ByReaper then s.Put(sid, s.sessions[sid].(status := Done)) else s, n, sid, ender);
      case DriveStops(n) => DestroyKeepsIdle(s, n, s.tasks[End(n)].sid, s.tasks[End(n)].ender);
      case _ =>
    }
  }

  /** Healthy, and with room, a pod that was reset is the next to be taken, and the session is over. */
  lemma HealthyResetIsPooled(cfg: Config, s: State, n: nat)
    requires Enabled(cfg, s, ResetDone(n, true)) && |s.idle| < cfg.maxIdle
    ensures var t := Apply(cfg, s, ResetDone(n, true));
            && LastIdle(t, s.tasks[End(n)].lease) && t.idle[..|t.idle| - 1] == s.idle && t.deleted == s.deleted
            && s.tasks[End(n)].sid !in t.store && End(n) !in t.tasks
  {
  }

  // ---- deletions asked for -------------------------------------------------------------------------------

  /** The session a destroy starts to release on this step. */
  function Destroyed(s: State, e: Event): Option<SessionId> {
    match e
    case EndStarts(_, sid, ender, driving) =>
      if driving || (ender == ByRequest && sid !in s.store) then None else Some(sid)
    case DriveStops(n) =>
      if End(n) in s.tasks && s.tasks[End(n)].AwaitingDrive? then Some(s.tasks[End(n)].sid) else None
    case _ => None
  }

  /** A pod is deleted when it is given up, when its create fails to provision it, whoever records it by then, and by
      its name when a session without a lease is destroyed. */
  predicate AsksDeletion(cfg: Config, s: State, e: Event, name: PodName) {
    match e
    case InitRuns(_, _) => TakesLast(s, e) && e.pick.shortLived && s.idle[|s.idle| - 1].name == name
    case DiscardReturns(_, _, _) => TakesLast(s, e) && e.pick.shortLived && s.idle[|s.idle| - 1].name == name
    case ProbeReturns(sid, alive) =>
      !alive && Init(sid) in s.tasks && s.tasks[Init(sid)].Probing? && s.tasks[Init(sid)].lease.name == name
    case ProvisionReturns(sid, ok) =>
      !ok && Init(sid) in s.tasks && s.tasks[Init(sid)].Provisioning? && s.tasks[Init(sid)].lease.name == name
    case ResetDone(n, healthy) =>
      && !(healthy && |s.idle| < cfg.maxIdle)
      && End(n) in s.tasks && s.tasks[End(n)].Resetting? && s.tasks[End(n)].lease.name == name
    case EndStarts(_, _, _, _) => NamedOnly(s, Destroyed(s, e), name)
    case DriveStops(_) => NamedOnly(s, Destroyed(s, e), name)
    case _ => false
  }

  predicate NamedOnly(s: State, sid: Option<SessionId>, name: PodName) {
    && sid.Some? && sid.value in s.sessions
    && s.sessions[sid.value].podLease == None && s.sessions[sid.value].podName == Some(name)
  }

  lemma DestroyDeletes(s: State, n: nat, sid: SessionId, ender: Ender, name: PodName)
    requires sid in s.sessions
    ensures name in Destroy(s, n, sid, ender).deleted <==> name in s.deleted || NamedOnly(s, Some(sid), name)
  {
  }

  lemma StepDeletes(cfg: Config, s: State, e: Event, name: PodName)
    requires Enabled(cfg, s, e)
    ensures name in Apply(cfg, s, e).deleted <==> name in s.deleted || AsksDeletion(cfg, s, e, name)
  {
    hide Destroy;
    match e {
      case EndStarts(n, sid, ender, _) =>
        DestroyDeletes(if ender == ByReaper then s.Put(sid, s.sessions[sid].(status := Done)) else s, n, sid, ender,
                       name);
      case DriveStops(n) => DestroyDeletes(s, n, s.tasks[End(n)].sid, s.tasks[End(n)].ender, name);
      case _ =>
    }
  }

  // ---- a session's status and its place in the store -----------------------------------------------------

  /** The create of `sid` fails on this step: too late, a deletion or a spawn that raised, or provisioning. */
  predicate CreateFails(s: State, e: Event, sid: SessionId) {
    match e
    case InitRuns(x, pick) => x == sid && s.idle != [] && pick.late
    case DiscardReturns(x, _, pick) => x == sid && (RoundOf(s, e, x, pick) ==> s.idle != [] && pick.late)
    case SpawnReturns(x, spawned) => x == sid && spawned == None
    case FailReturns(x) => x == sid
    case _ => false
  }

  /** `store.end` is reached on this step for `sid`: nothing was left to release, the pod went back to the pool, or its
      deletion is over and did not raise towards a request. */
  predicate Ends(cfg: Config, s: State, e: Event, sid: SessionId) {
    match e
    case EndStarts(_, _, _, _) => Destroyed(s, e) == Some(sid) && Bare(s, sid)
    case DriveStops(_) => Destroyed(s, e) == Some(sid) && Bare(s, sid)
    case ResetDone(n, healthy) =>
      healthy && |s.idle| < cfg.maxIdle && End(n) in s.tasks && s.tasks[End(n)].Resetting? && s.tasks[End(n)].sid == sid
    case DeleteDone(n, raised) =>
      && End(n) in s.tasks && s.tasks[End(n)].Deleting? && s.tasks[End(n)].sid == sid
      && (raised ==> s.tasks[End(n)].ender == ByReaper)
    case _ => false
  }

  predicate Bare(s: State, sid: SessionId) {
    sid in s.sessions && s.sessions[sid].podLease == None && s.sessions[sid].podName == None
  }

  lemma DestroyStores(s: State, n: nat, sid: SessionId, ender: Ender, x: SessionId)
    requires sid in s.sessions
    ensures x in Destroy(s, n, sid, ender).store <==> x in s.store && !(x == sid && Bare(s, sid))
  {
  }

  lemma ForgetPodStatus(s: State, sid: SessionId, x: SessionId)
    requires sid in s.sessions && x in s.sessions
    ensures var t := ForgetPod(s, sid);
            x in t.sessions && t.sessions[x].status == s.sessions[x].status && t.store == s.store
  {
  }

  lemma DestroyStatus(s: State, n: nat, sid: SessionId, ender: Ender, x: SessionId)
    requires sid in s.sessions && x in s.sessions
    ensures var t := Destroy(s, n, sid, ender);
            && x in t.sessions
            && t.sessions[x].status == if x == sid && Bare(s, sid) && x in s.store then Done else s.sessions[x].status
  {
    hide ForgetPod;
    ForgetPodStatus(s, sid, x);
  }

  lemma StepStores(cfg: Config, s: State, e: Event, sid: SessionId)
    requires Enabled(cfg, s, e) && sid in s.sessions
    ensures sid in Apply(cfg, s, e).store <==> sid in s.store && !Ends(cfg, s, e, sid)
  {
    hide Destroy;
    match e {
      case EndStarts(n, x, ender, _) =>
        DestroyStores(if ender == ByReaper then s.Put(x, s.sessions[x].(status := Done)) else s, n, x, ender, sid);
      case DriveStops(n) => DestroyStores(s, n, s.tasks[End(n)].sid, s.tasks[End(n)].ender, sid);
      case _ =>
    }
  }

  /** Ready exactly by a provisioning that succeeded, in error exactly by a create that failed, done by the reaper's
      mark or by leaving the store. */
  lemma StepStatus(cfg: Config, s: State, e: Event, sid: SessionId)
    requires Enabled(cfg, s, e) && sid in s.sessions
    ensures sid in Apply(cfg, s, e).sessions
    ensures Apply(cfg, s, e).sessions[sid].status ==
            if e == ProvisionReturns(sid, true) then Ready
            else if CreateFails(s, e, sid) then Error
            else if (Ends(cfg, s, e, sid) && sid in s.store)
                    || (e.EndStarts? && e.sid == sid && e.ender == ByReaper) then Done
            else s.sessions[sid].status
  {
    hide Destroy;
    match e {
      case EndStarts(n, x, ender, _) =>
        DestroyStatus(if ender == ByReaper then s.Put(x, s.sessions[x].(status := Done)) else s, n, x, ender, sid);
      case DriveStops(n) => DestroyStatus(s, n, s.tasks[End(n)].sid, s.tasks[End(n)].ender, sid);
      case _ =>
    }
  }

  /** A session begins in the store, starting, with nothing on its record, and its create is scheduled. */
  lemma SessionBegins(cfg: Config, s: State, sid: SessionId, user: User)
    requires Enabled(cfg, s, CreateSession(sid, user))
    ensures var t := Apply(cfg, s, CreateSession(sid, user));
            && sid in t.store && t.sessions[sid] == Session(user, Starting, None, None, None, 0, 0)
            && Init(sid) in t.tasks && t.tasks[Init(sid)] == Created && |s.store| < cfg.maxSessions
  {
  }

  // ---- where a create goes on ----------------------------------------------------------------------------

  /** With nothing idle a pod is spawned, however late; else a round that is late fails, and one that is not probes the
      last idle lease or, its life too short, has it deleted. */
  lemma RoundGoesOn(cfg: Config, s: State, e: Event, sid: SessionId, pick: Pick)
    requires Enabled(cfg, s, e) && RoundOf(s, e, sid, pick)
    ensures var t, id := Apply(cfg, s, e), Init(sid);
            if s.idle == [] then id in t.tasks && t.tasks[id] == Spawning
            else if pick.late then id !in t.tasks
            else if pick.shortLived then id in t.tasks && t.tasks[id] == Discarding(false)
            else id in t.tasks && t.tasks[id] == Probing(s.idle[|s.idle| - 1])
  {
  }

  /** A live or fresh lease is recorded by the session, its token names the session and its user, and provisioning
      begins. */
  lemma BindGoesOn(cfg: Config, s: State, e: Event, sid: SessionId, l: PodLease)
    requires Enabled(cfg, s, e)
    requires (e == ProbeReturns(sid, true) && s.tasks[Init(sid)].lease == l) || e == SpawnReturns(sid, Some(l))
    ensures var t := Apply(cfg, s, e);
            && sid in t.sessions && t.sessions[sid].podLease == Some(l) && t.sessions[sid].podName == Some(l.name)
            && l.llmToken in t.registry.bySession && t.registry.bySession[l.llmToken] == sid
            && (s.sessions[sid].user != "" ==>
                  l.llmToken in t.registry.byUser && t.registry.byUser[l.llmToken] == s.sessions[sid].user)
            && Init(sid) in t.tasks && t.tasks[Init(sid)] == Provisioning(l)
  {
  }

  /** A dead pod is deleted before the next round; a provisioning that failed deletes its pod before the create does.
      */
  lemma FailureGoesOn(cfg: Config, s: State, e: Event, sid: SessionId)
    requires Enabled(cfg, s, e) && e in {ProbeReturns(sid, false), ProvisionReturns(sid, false)}
    ensures var t := Apply(cfg, s, e);
            && Init(sid) in t.tasks && t.tasks[Init(sid)] == (if e.ProbeReturns? then Discarding(true) else Failing)
            && (e.ProvisionReturns? ==>
                  t.sessions[sid].podLease == None && s.tasks[Init(sid)].lease.llmToken !in t.registry.bySession)
  {
  }

  // ---- what a destroy takes ------------------------------------------------------------------------------

  /** A recorded lease passes to the destroyer, which resets it, and its token is unbound; without a lease a recorded
      name is deleted and every token of the session revoked. */
  lemma DestroyTakes(cfg: Config, s: State, e: Event, n: nat, sid: SessionId, ender: Ender)
    requires Safe(s) && Enabled(cfg, s, e) && Destroyed(s, e) == Some(sid) && sid in s.sessions
    requires (e.EndStarts? && e.n == n && e.ender == ender) || (e == DriveStops(n) && s.tasks[End(n)].ender == ender)
    ensures var o, t := s.sessions[sid], Apply(cfg, s, e);
            && sid in t.sessions && t.sessions[sid].podLease == None && t.sessions[sid].podName == None
            && (o.podLease.Some? ==>
                  && End(n) in t.tasks && t.tasks[End(n)] == Resetting(sid, o.podLease.value, ender)
                  && o.podLease.value.llmToken !in t.registry.bySession)
            && (o.podLease.None? ==> forall k | k in t.registry.bySession :: t.registry.bySession[k] != sid)
            && (o.podLease.None? && o.podName.Some? ==> End(n) in t.tasks && t.tasks[End(n)] == Deleting(sid, ender))
  {
    hide Located, Conserved, Distinct, Bound;
    assert SessionOk(s.sessions[sid], sid in s.store);
  }

  /** A request for a session nobody knows changes nothing; one that meets a running turn waits for it first. */
  lemma EndWaits(cfg: Config, s: State, n: nat, sid: SessionId, ender: Ender, driving: bool)
    requires Enabled(cfg, s, EndStarts(n, sid, ender, driving))
    ensures var t := Apply(cfg, s, EndStarts(n, sid, ender, driving));
            && (ender == ByRequest && sid !in s.store ==> t == s)
            && (driving && (ender == ByReaper || sid in s.store) ==>
                  End(n) in t.tasks && t.tasks[End(n)] == AwaitingDrive(sid, ender) && t.registry == s.registry)
  {
  }

  // ---- `warm` --------------------------------------------------------------------------------------------

  /** `warm` goes on spawning exactly while the list is shorter than the pool size; a spawn that raises ends it. */
  lemma WarmGoesOn(cfg: Config, s: State, e: Event, n: nat)
    requires Enabled(cfg, s, e) && (e == WarmStarts(n) || (e.WarmSpawnReturns? && e.n == n))
    ensures var t := Apply(cfg, s, e);
            Warm(n) in t.tasks <==> |t.idle| < cfg.poolSize && (e.WarmSpawnReturns? ==> e.spawned.Some?)
  {
  }
}
