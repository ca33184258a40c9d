/** Pods left on sessions that are over: a create that binds after its session was ended, and no DELETE takes it
    back. */
module LeaseStranded {
  import opened Common
  import opened PodPool
  import opened ControlPlane
  import opened LeaseSafety
  import opened LeaseTheorems
  import opened LeaseWitnesses

  /** The session is out of the store and still records a lease. */
  predicate Stranded(s: State, sid: SessionId) {
    sid in s.sessions && sid !in s.store && s.sessions[sid].podLease.Some?
  }

  /** The create of a session that is over gets its pod. */
  predicate BindsLate(s: State, e: Event, sid: SessionId) {
    && sid !in s.store
    && ((e.ProbeReturns? && e.sid == sid && e.alive) || (e.SpawnReturns? && e.sid == sid && e.spawned.Some?))
  }

  /** The create fails to provision, or a teardown that did not ask the store anew reaches the session. */
  predicate Frees(s: State, e: Event, sid: SessionId) {
    || (e.ProvisionReturns? && e.sid == sid && !e.ok)
    || (e.EndStarts? && e.sid == sid && !e.driving && (e.ender == ByReaper || sid in s.store))
    || (e.DriveStops? && End(e.n) in s.tasks && s.tasks[End(e.n)].AwaitingDrive? && s.tasks[End(e.n)].sid == sid)
  }

  /** A teardown that awaits the pod has taken it off the session's record. */
  ghost predicate Torn(s: State) {
    forall id | id in s.tasks && (s.tasks[id].Resetting? || s.tasks[id].Deleting?) ::
      s.tasks[id].sid in s.sessions && s.sessions[s.tasks[id].sid].teardowns >= 1
  }

  // ---- One step ----

  lemma DestroyTorn(s: State, n: nat, sid: SessionId, ender: Ender)
    requires Safe(s) && Torn(s) && sid in s.sessions
    ensures Torn(Destroy(s, n, sid, ender))
  {
    hide Located, Conserved, Distinct, Bound, TaskOk;
  }

  lemma EndBeginsTorn(s: State, n: nat, sid: SessionId, ender: Ender, driving: bool)
    requires Safe(s) && Torn(s) && sid in s.sessions
    ensures Torn(EndBegins(s, n, sid, ender, driving))
  {
    hide Safe, Destroy;
    var marked := if ender == ByReaper then s.Put(sid, s.sessions[sid].(status := Done)) else s;
    StatusKeeps(s, sid, Done);
    DestroyTorn(marked, n, sid, ender);
  }

  lemma AcquireRoundTorn(s: State, sid: SessionId, pick: Pick)
    requires Torn(s) && sid in s.sessions
    ensures Torn(AcquireRound(s, sid, pick))
  {
  }

  lemma BindLeaseTorn(s: State, sid: SessionId, lease: PodLease)
    requires Torn(s) && sid in s.sessions
    ensures Torn(BindLease(s, sid, lease))
  {
  }

  lemma ProvisionFailsTorn(s: State, sid: SessionId, lease: PodLease)
    requires Torn(s) && sid in s.sessions
    ensures Torn(ProvisionFails(s, sid, lease))
  {
  }

  /** The steps of a create leave the teardowns alone. */
  lemma CreateTorn(cfg: Config, s: State, e: Event)
    requires Torn(s) && Enabled(cfg, s, e)
    requires e.InitRuns? || e.DiscardReturns? || e.ProbeReturns? || e.SpawnReturns? || e.ProvisionReturns?
    ensures Torn(Apply(cfg, s, e))
  {
    hide AcquireRound, BindLease, ProvisionFails;
    match e {
      case InitRuns(sid, pick) => AcquireRoundTorn(s, sid, pick);
      case DiscardReturns(sid, _, pick) => AcquireRoundTorn(s, sid, pick);
      case ProbeReturns(sid, _) => BindLeaseTorn(s, sid, s.tasks[Init(sid)].lease);
      case SpawnReturns(sid, spawned) =>
        if spawned.Some? {
          BindLeaseTorn(s, sid, spawned.value);
        }
      case ProvisionReturns(sid, _) => ProvisionFailsTorn(s, sid, s.tasks[Init(sid)].lease);
    }
  }

  lemma StepTorn(cfg: Config, s: State, e: Event)
    requires Safe(s) && Torn(s) && Enabled(cfg, s, e)
    ensures Torn(Apply(cfg, s, e))
  {
    hide Safe, Destroy, EndBegins;
    match e {
      case EndStarts(n, sid, ender, driving) => EndBeginsTorn(s, n, sid, ender, driving);
      case DriveStops(n) => DestroyTorn(s, n, s.tasks[End(n)].sid, s.tasks[End(n)].ender);
      case _ =>
        if e.InitRuns? || e.DiscardReturns? || e.ProbeReturns? || e.SpawnReturns? || e.ProvisionReturns? {
          hide Apply, Enabled;
          CreateTorn(cfg, s, e);
        }
    }
  }

  lemma TornHoldsNothing(s: State, id: TaskId)
    requires Safe(s) && Torn(s) && id in s.tasks && (s.tasks[id].Resetting? || s.tasks[id].Deleting?)
    ensures s.tasks[id].sid in s.sessions && s.sessions[s.tasks[id].sid].podLease.None?
  {
    hide Located, Conserved, Distinct, Bound, TaskOk;
  }

  lemma DestroyStrands(s: State, n: nat, sid: SessionId, ender: Ender, x: SessionId)
    requires sid in s.sessions
    ensures Stranded(Destroy(s, n, sid, ender), x) <==> Stranded(s, x) && x != sid
  {
  }

  lemma StoreEndStrands(s: State, n: nat, sid: SessionId, x: SessionId)
    requires sid in s.sessions && s.sessions[sid].podLease.None?
    ensures Stranded(StoreEnd(s, n, sid), x) <==> Stranded(s, x)
  {
  }

  lemma StepStrands(cfg: Config, s: State, e: Event, x: SessionId)
    requires Safe(s) && Torn(s) && Enabled(cfg, s, e)
    ensures Stranded(Apply(cfg, s, e), x) <==> (Stranded(s, x) && !Frees(s, e, x)) || BindsLate(s, e, x)
  {
    hide Safe, Torn, Destroy;
    match e {
      case EndStarts(n, sid, ender, driving) =>
        var marked := if ender == ByReaper then s.Put(sid, s.sessions[sid].(status := Done)) else s;
        DestroyStrands(marked, n, sid, ender, x);
      case DriveStops(n) => DestroyStrands(s, n, s.tasks[End(n)].sid, s.tasks[End(n)].ender, x);
      case ResetDone(n, _) =>
        TornHoldsNothing(s, End(n));
        StoreEndStrands(PoolLease(s, n, s.tasks[End(n)].lease), n, s.tasks[End(n)].sid, x);
      case DeleteDone(n, _) =>
        TornHoldsNothing(s, End(n));
        StoreEndStrands(s, n, s.tasks[End(n)].sid, x);
      case _ =>
    }
  }

  // ---- Whole runs ----

  predicate NeverFreed(cfg: Config, s: State, es: seq<Event>, sid: SessionId)
    requires Feasible(cfg, s, es)
    decreases es
  {
    es != [] ==> !Frees(s, es[0], sid) && NeverFreed(cfg, Apply(cfg, s, es[0]), es[1..], sid)
  }

  /** Somewhere in the run the session's create binds after the session was ended, and nothing frees the pod since. */
  predicate BoundLateAndKept(cfg: Config, s: State, es: seq<Event>, sid: SessionId)
    requires Feasible(cfg, s, es)
    decreases es
  {
    es != [] &&
    var s' := Apply(cfg, s, es[0]);
    BoundLateAndKept(cfg, s', es[1..], sid) || (BindsLate(s, es[0], sid) && NeverFreed(cfg, s', es[1..], sid))
  }

  lemma {:induction false} RunStrands(cfg: Config, s: State, es: seq<Event>, sid: SessionId)
    requires Safe(s) && Torn(s) && Feasible(cfg, s, es)
    ensures Stranded(Run(cfg, s, es), sid) <==>
              BoundLateAndKept(cfg, s, es, sid) || (Stranded(s, sid) && NeverFreed(cfg, s, es, sid))
    decreases es
  {
    hide Safe, Torn, Stranded, Frees, BindsLate, Apply, Enabled;
    if es != [] {
      StepKeeps(cfg, s, es[0]);
      StepTorn(cfg, s, es[0]);
      StepStrands(cfg, s, es[0], sid);
      RunStrands(cfg, Apply(cfg, s, es[0]), es[1..], sid);
    }
  }

  /** In every run an ended session holds a lease if and only if its create bound it after the end and nothing freed
      it since. */
  lemma StrandedExactly(cfg: Config, es: seq<Event>, sid: SessionId)
    requires Feasible(cfg, EMPTY, es)
    ensures Stranded(Run(cfg, EMPTY, es), sid) <==> BoundLateAndKept(cfg, EMPTY, es, sid)
  {
    RunStrands(cfg, EMPTY, es, sid);
  }

  /** DELETE and the beacon find no session, so they change nothing. */
  lemma DeleteLeavesStranded(cfg: Config, s: State, n: nat, sid: SessionId, driving: bool)
    requires Stranded(s, sid) && Enabled(cfg, s, EndStarts(n, sid, ByRequest, driving))
    ensures Apply(cfg, s, EndStarts(n, sid, ByRequest, driving)) == s
  {
  }

  /** A session is ended while its create awaits the spawn: it is out of the store at once. */
  lemma EndWhileSpawning(cfg: Config, sid: SessionId, user: User) returns (s: State)
    requires cfg.maxSessions >= 1
    ensures Reaches(cfg, s, 0)
    ensures s == EMPTY.(sessions := map[sid := Session(user, Done, None, None, None, 0, 1)],
                        tasks := map[Init(sid) := Spawning])
  {
    hide Reaches, Feasible, Run, WarmersAtMost;
    ReachEmpty(cfg, 0);
    var s1 := Admit(EMPTY, sid, user);
    assert s1.Warmers() == {};
    ReachNext(cfg, EMPTY, CreateSession(sid, user), s1, 0);
    var s2 := s1.Suspend(Init(sid), Spawning);
    assert s2.Warmers() == {};
    ReachNext(cfg, s1, InitRuns(sid, Pick(false, false)), s2, 0);
    s := EMPTY.(sessions := map[sid := Session(user, Done, None, None, None, 0, 1)],
                tasks := map[Init(sid) := Spawning]);
    assert s.Warmers() == {};
    ReachNext(cfg, s2, EndStarts(0, sid, ByRequest, false), s, 0);
  }

  /** A run that strands a pod: the spawn returns to a session that is over. */
  lemma SomePodIsStranded(cfg: Config, sid: SessionId, user: User, pod: PodLease) returns (s: State)
    requires cfg.maxSessions >= 1
    ensures Reaches(cfg, s, 0) && Stranded(s, sid) && s.sessions[sid].podLease == Some(pod)
    ensures s.tasks == map[] && s.sessions[sid].status == Ready
  {
    hide Reaches, Feasible, Run, WarmersAtMost;
    var s1 := EndWhileSpawning(cfg, sid, user);
    var s2 := BindLease(s1, sid, pod);
    assert s2.Warmers() == {};
    ReachNext(cfg, s1, SpawnReturns(sid, Some(pod)), s2, 0);
    s := Apply(cfg, s2, ProvisionReturns(sid, true));
    assert s.tasks == map[];
    ReachNext(cfg, s2, ProvisionReturns(sid, true), s, 0);
  }
}
