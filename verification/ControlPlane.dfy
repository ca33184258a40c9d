/**
 The session control plane as a transition system. Everything runs on one event loop, so a step is the code
 between two suspension points: an `await` that can really suspend (the pod API, a pod's HTTP endpoints, a
 running turn). Awaiting a session-store method is not one, because no critical section of the store awaits.
 */
module ControlPlane {
  import opened Common
  import opened TokenRegistries
  import opened PodPool

  /** A session object; it outlives its entry in the store while some task still refers to it. */
  datatype Session = Session(
    user: User,
    status: Status,
    podLease: Option<PodLease>,
    podName: Option<PodName>,
    podToken: Option<Token>,
    teardowns: nat,  // destroys that found something to release
    ends: nat)       // times `store.end` found the session

  datatype Ender = ByRequest | ByReaper

  datatype TaskId = Init(sid: SessionId) | End(n: nat) | Warm(n: nat)

  /** Where a suspended coroutine is, with the locals it will still use. */
  datatype Task =
    // `_init_session` inside `executor.create`
    | Created
    | Discarding(caught: bool)
    | Probing(lease: PodLease)
    | Spawning
    | Provisioning(lease: PodLease)
    | Failing
    // `end_session` or one round of the idle reaper
    | AwaitingDrive(sid: SessionId, ender: Ender)
    | Resetting(sid: SessionId, lease: PodLease, ender: Ender)
    | Deleting(sid: SessionId, ender: Ender)
    // `warm`
    | Warming
  {
    predicate InCreate() {
      Created? || Discarding? || Probing? || Spawning? || Provisioning? || Failing?
    }

    predicate BeforeBind() {
      Created? || Discarding? || Probing? || Spawning?
    }

    predicate InEnd() {
      AwaitingDrive? || Resetting? || Deleting?
    }

    /** The lease this coroutine alone is responsible for. */
    function Carried(): Option<PodLease> {
      if Probing? then Some(lease) else if Resetting? then Some(lease) else None
    }
  }

  /** Bookkeeping of the model: where a spawned lease is. No step reads it. */
  datatype Place = IdleAt(i: nat) | HeldBy(sid: SessionId) | InTask(id: TaskId) | Deleted

  datatype Config = Config(poolSize: nat, maxIdle: nat, maxSessions: nat)

  datatype State = State(
    sessions: map<SessionId, Session>,
    store: set<SessionId>,
    idle: seq<PodLease>,
    registry: Registry,
    tasks: map<TaskId, Task>,
    deleted: set<PodName>,  // names handed to `delete_pod`
    places: map<PodLease, Place>)
  {
    function Put(sid: SessionId, o: Session): State {
      this.(sessions := sessions[sid := o])
    }

    function Suspend(id: TaskId, task: Task): State {
      this.(tasks := tasks[id := task])
    }

    function Finish(id: TaskId): State {
      this.(tasks := tasks - {id})
    }

    function Move(lease: PodLease, place: Place): State {
      this.(places := places[lease := place])
    }

    function Delete(name: PodName): State {
      this.(deleted := deleted + {name})
    }

    /** Pod names and tokens are drawn at random; a spawned lease repeats none of them. */
    predicate Unused(lease: PodLease) {
      && lease !in places && lease.llmToken !in registry.bySession && lease.name !in deleted
      && forall l | l in places :: l.llmToken != lease.llmToken && l.name != lease.name
    }

    function Warmers(): set<TaskId> {
      set id | id in tasks && tasks[id].Warming?
    }
  }

  const EMPTY := State(map[], {}, [], Registry(map[], map[]), map[], {}, map[])

  /** What a round of the acquire loop reads from the clocks. */
  datatype Pick = Pick(late: bool, shortLived: bool)

  // ---- The blocks of code between two suspension points ----

  function Admit(s: State, sid: SessionId, user: User): State {
    s.Put(sid, Session(user, Starting, None, None, None, 0, 0)).(store := s.store + {sid}).Suspend(Init(sid), Created)
  }

  function FailCreate(s: State, sid: SessionId): State
    requires sid in s.sessions
  {
    s.Put(sid, s.sessions[sid].(status := Error)).Finish(Init(sid))
  }

  /** The last idle lease is popped; too short a remaining life sends it to deletion, else it is probed. */
  function PopIdle(s: State, sid: SessionId, shortLived: bool): State
    requires s.idle != []
  {
    var lease := s.idle[|s.idle| - 1];
    var popped := s.(idle := s.idle[..|s.idle| - 1]);
    if shortLived then popped.Delete(lease.name).Suspend(Init(sid), Discarding(false)).Move(lease, Deleted)
    else popped.Suspend(Init(sid), Probing(lease)).Move(lease, InTask(Init(sid)))
  }

  function AcquireRound(s: State, sid: SessionId, pick: Pick): State
    requires sid in s.sessions
  {
    if s.idle == [] then s.Suspend(Init(sid), Spawning)
    else if pick.late then FailCreate(s, sid)
    else PopIdle(s, sid, pick.shortLived)
  }

  function DiscardProbed(s: State, sid: SessionId, lease: PodLease): State {
    s.Delete(lease.name).Suspend(Init(sid), Discarding(true)).Move(lease, Deleted)
  }

  function BindLease(s: State, sid: SessionId, lease: PodLease): State
    requires sid in s.sessions
  {
    var o := s.sessions[sid];
    s.Put(sid, o.(podLease := Some(lease), podName := Some(lease.name), podToken := Some(lease.llmToken)))
     .(registry := s.registry.Bind(lease.llmToken, sid, o.user))
     .Suspend(Init(sid), Provisioning(lease))
     .Move(lease, HeldBy(sid))
  }

  function ProvisionFails(s: State, sid: SessionId, lease: PodLease): State
    requires sid in s.sessions
  {
    var o := s.sessions[sid];
    var cut := s.Put(sid, o.(podLease := None))
                .(registry := s.registry.Unbind(lease.llmToken))
                .Delete(lease.name)
                .Suspend(Init(sid), Failing);
    if o.podLease == Some(lease) then cut.Move(lease, Deleted) else cut
  }

  function RemoveFromStore(s: State, sid: SessionId): State
    requires sid in s.sessions
  {
    var o := s.sessions[sid];
    s.Put(sid, o.(status := Done, ends := o.ends + 1)).(store := s.store - {sid})
  }

  /** `store.end`, with which `end_session` and the reaper's round finish. */
  function StoreEnd(s: State, n: nat, sid: SessionId): State
    requires sid in s.sessions
  {
    if sid in s.store then RemoveFromStore(s, sid).Finish(End(n)) else s.Finish(End(n))
  }

  /** `_destroy_pooled` up to the reset request. */
  function DestroyPooled(s: State, n: nat, sid: SessionId, ender: Ender): State
    requires sid in s.sessions && s.sessions[sid].podLease.Some?
  {
    var o := s.sessions[sid];
    var lease := o.podLease.value;
    s.Put(sid, o.(podLease := None, podName := None, podToken := None, teardowns := o.teardowns + 1))
     .(registry := if o.podToken.Some? then s.registry.Unbind(o.podToken.value) else s.registry)
     .Suspend(End(n), Resetting(sid, lease, ender))
     .Move(lease, InTask(End(n)))
  }

  function ForgetPod(s: State, sid: SessionId): State
    requires sid in s.sessions
  {
    var o := s.sessions[sid];
    var found := if o.podName.Some? then 1 else 0;
    s.(registry := s.registry.RevokeForSession(sid))
     .Put(sid, o.(podName := None, podToken := None, teardowns := o.teardowns + found))
  }

  /** `_destroy_ephemeral` up to the deletion; with no pod name it returns to `end_session` at once. */
  function DestroyByName(s: State, n: nat, sid: SessionId, ender: Ender): State
    requires sid in s.sessions
  {
    match s.sessions[sid].podName
    case Some(name) => ForgetPod(s, sid).Delete(name).Suspend(End(n), Deleting(sid, ender))
    case None => StoreEnd(ForgetPod(s, sid), n, sid)
  }

  function Destroy(s: State, n: nat, sid: SessionId, ender: Ender): State
    requires sid in s.sessions
  {
    if s.sessions[sid].podLease.Some? then DestroyPooled(s, n, sid, ender) else DestroyByName(s, n, sid, ender)
  }

  function EndBegins(s: State, n: nat, sid: SessionId, ender: Ender, driving: bool): State
    requires sid in s.sessions
  {
    var o := s.sessions[sid];
    var marked := if ender == ByReaper then s.Put(sid, o.(status := Done)) else s;
    if ender == ByRequest && sid !in s.store then s
    else if driving then marked.Suspend(End(n), AwaitingDrive(sid, ender))
    else Destroy(marked, n, sid, ender)
  }

  function AddIdle(s: State, lease: PodLease): State {
    s.(idle := s.idle + [lease]).Move(lease, IdleAt(|s.idle|))
  }

  /** `release` of a healthy lease while there is room. */
  function PoolLease(s: State, n: nat, lease: PodLease): State {
    AddIdle(s, lease).Finish(End(n))
  }

  function DropLease(s: State, n: nat, sid: SessionId, lease: PodLease, ender: Ender): State {
    s.Delete(lease.name).Suspend(End(n), Deleting(sid, ender)).Move(lease, Deleted)
  }

  function ResetReturns(cfg: Config, s: State, n: nat, sid: SessionId, lease: PodLease, ender: Ender,
                        healthy: bool): State
    requires sid in s.sessions
  {
    if healthy && |s.idle| < cfg.maxIdle then StoreEnd(PoolLease(s, n, lease), n, sid)
    else DropLease(s, n, sid, lease, ender)
  }

  function WarmRound(cfg: Config, s: State, n: nat): State {
    if |s.idle| < cfg.poolSize then s.Suspend(Warm(n), Warming) else s.Finish(Warm(n))
  }

  // ---- Steps and runs ----

  datatype Event =
    | CreateSession(sid: SessionId, user: User)
    | InitRuns(sid: SessionId, pick: Pick)
    | DiscardReturns(sid: SessionId, raised: bool, pick: Pick)
    | ProbeReturns(sid: SessionId, alive: bool)
    | SpawnReturns(sid: SessionId, spawned: Option<PodLease>)
    | ProvisionReturns(sid: SessionId, ok: bool)
    | FailReturns(sid: SessionId)
    | EndStarts(n: nat, sid: SessionId, ender: Ender, driving: bool)
    | DriveStops(n: nat)
    | ResetDone(n: nat, healthy: bool)
    | DeleteDone(n: nat, raised: bool)
    | WarmStarts(n: nat)
    | WarmSpawnReturns(n: nat, spawned: Option<PodLease>)


  /** `create_session` counts and inserts without suspending; session ids are drawn at random. */
  predicate Enabled(cfg: Config, s: State, e: Event) {
    match e
    case CreateSession(sid, _) =>
      |s.store| < cfg.maxSessions && sid !in s.sessions && Init(sid) !in s.tasks
    case InitRuns(sid, _) =>
      sid in s.sessions && Init(sid) in s.tasks && s.tasks[Init(sid)].Created?
    case DiscardReturns(sid, _, _) =>
      sid in s.sessions && Init(sid) in s.tasks && s.tasks[Init(sid)].Discarding?
    case ProbeReturns(sid, _) =>
      sid in s.sessions && Init(sid) in s.tasks && s.tasks[Init(sid)].Probing?
    case SpawnReturns(sid, spawned) =>
      && sid in s.sessions && Init(sid) in s.tasks && s.tasks[Init(sid)].Spawning?
      && (spawned.Some? ==> s.Unused(spawned.value))
    case ProvisionReturns(sid, _) =>
      sid in s.sessions && Init(sid) in s.tasks && s.tasks[Init(sid)].Provisioning?
    case FailReturns(sid) =>
      sid in s.sessions && Init(sid) in s.tasks && s.tasks[Init(sid)].Failing?
    case EndStarts(n, sid, ender, _) =>
      && sid in s.sessions && End(n) !in s.tasks
      && (ender == ByReaper ==> s.sessions[sid].status != Done && s.sessions[sid].status != Error)
    case DriveStops(n) =>
      End(n) in s.tasks && s.tasks[End(n)].AwaitingDrive? && s.tasks[End(n)].sid in s.sessions
    case ResetDone(n, _) =>
      End(n) in s.tasks && s.tasks[End(n)].Resetting? && s.tasks[End(n)].sid in s.sessions
    case DeleteDone(n, _) =>
      End(n) in s.tasks && s.tasks[End(n)].Deleting? && s.tasks[End(n)].sid in s.sessions
    case WarmStarts(n) => Warm(n) !in s.tasks
    case WarmSpawnReturns(n, spawned) =>
      Warm(n) in s.tasks && s.tasks[Warm(n)].Warming? && (spawned.Some? ==> s.Unused(spawned.value))
  }

  function Apply(cfg: Config, s: State, e: Event): State
    requires Enabled(cfg, s, e)
  {
    match e
    case CreateSession(sid, user) =>
      Admit(s, sid, user)
    case InitRuns(sid, pick) => AcquireRound(s, sid, pick)
    case DiscardReturns(sid, raised, pick) =>
      if raised && !s.tasks[Init(sid)].caught then FailCreate(s, sid) else AcquireRound(s, sid, pick)
    case ProbeReturns(sid, alive) =>
      var lease := s.tasks[Init(sid)].lease;
      if alive then BindLease(s, sid, lease)
      else DiscardProbed(s, sid, lease)
    case SpawnReturns(sid, spawned) =>
      if spawned.Some? then BindLease(s, sid, spawned.value) else FailCreate(s, sid)
    case ProvisionReturns(sid, ok) =>
      if ok then s.Put(sid, s.sessions[sid].(status := Ready)).Finish(Init(sid))
      else ProvisionFails(s, sid, s.tasks[Init(sid)].lease)
    case FailReturns(sid) => FailCreate(s, sid)
    case EndStarts(n, sid, ender, driving) => EndBegins(s, n, sid, ender, driving)
    case DriveStops(n) => Destroy(s, n, s.tasks[End(n)].sid, s.tasks[End(n)].ender)
    case ResetDone(n, healthy) =>
      var t := s.tasks[End(n)];
      ResetReturns(cfg, s, n, t.sid, t.lease, t.ender, healthy)
    case DeleteDone(n, raised) =>
      var t := s.tasks[End(n)];
      if raised && t.ender == ByRequest then s.Finish(End(n)) else StoreEnd(s, n, t.sid)
    case WarmStarts(n) => WarmRound(cfg, s, n)
    case WarmSpawnReturns(n, spawned) =>
      if spawned.None? then s.Finish(Warm(n))
      else
        WarmRound(cfg, AddIdle(s, spawned.value), n)
  }
}
