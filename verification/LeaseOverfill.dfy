/** Runs that attain the bound on idle pods, for every number of `warm` calls and every pool. */
module LeaseOverfill {
  import opened Common
  import opened PodPool
  import opened ControlPlane
  import opened LeaseWitnesses

  // ---- Names enough for any run ----

  function Ticks(n: nat): string {
    seq(n, _ => '|')
  }

  function Pod(n: nat): PodLease {
    PodLease(Ticks(n), "", "", Ticks(n), 0.0)
  }

  function WarmIds(w: nat): (ids: set<TaskId>)
    ensures forall id :: id in ids <==> id.Warm? && id.n < w
    ensures |ids| == w
  {
    if w == 0 then {} else WarmIds(w - 1) + {Warm(w - 1)}
  }

  predicate WarmersBelow(s: State, w: nat) {
    forall id | id in s.tasks && s.tasks[id].Warming? :: id.Warm? && id.n < w
  }

  lemma WarmersCounted(s: State, w: nat)
    requires WarmersBelow(s, w)
    ensures |s.Warmers()| <= w
  {
    var rest := WarmIds(w) - s.Warmers();
    assert WarmIds(w) == s.Warmers() + rest;
  }

  // ---- How far a run has come ----

  /** Names and tokens in use are shorter than `made`. */
  ghost predicate Fresh(s: State, made: nat) {
    && (forall l | l in s.places :: |l.name| < made && |l.llmToken| < made)
    && (forall token | token in s.registry.bySession :: |token| < made)
    && (forall name | name in s.deleted :: |name| < made)
  }

  /** `begun` sessions were created, the first `over` of them are over and the others hold a pod, `n` pods are
      idle, and `w` calls of `warm` await a spawn. */
  ghost predicate Stage(s: State, made: nat, begun: nat, over: nat, n: nat, w: nat) {
    && Fresh(s, made) && |s.idle| == n && over <= begun && |s.store| == begun - over
    && s.store <= s.sessions.Keys && (forall sid | sid in s.sessions :: |sid| < begun)
    && (forall i: nat | over <= i < begun :: Holds(s, Ticks(i)))
    && (forall id :: id in s.tasks <==> id.Warm? && id.n < w)
    && (forall id | id in s.tasks :: s.tasks[id].Warming?)
  }

  predicate Holds(s: State, sid: SessionId) {
    && sid in s.sessions && sid in s.store
    && s.sessions[sid].podLease.Some? && s.sessions[sid].podLease.value in s.places
  }

  /** One more event that leaves no more than `w` warm calls waiting. */
  lemma Next(cfg: Config, s: State, e: Event, w: nat, most: nat) returns (t: State)
    requires Reaches(cfg, s, most) && Enabled(cfg, s, e) && w <= most && WarmersBelow(Apply(cfg, s, e), w)
    ensures t == Apply(cfg, s, e) && Reaches(cfg, t, most)
  {
    hide Reaches;
    t := Apply(cfg, s, e);
    WarmersCounted(t, w);
    ReachNext(cfg, s, e, t, most);
  }

  /** A session is created while no pod is idle, so its create awaits a spawn. */
  lemma Create(cfg: Config, s: State, most: nat, made: nat, begun: nat, w: nat) returns (t: State)
    requires Stage(s, made, begun, 0, 0, w) && begun < cfg.maxSessions && w <= most && Reaches(cfg, s, most)
    ensures var sid := Ticks(begun);
            && t == Admit(s, sid, "").Suspend(Init(sid), Spawning) && Init(sid) !in s.tasks
            && t.Unused(Pod(made)) && WarmersBelow(s, w)
    ensures Reaches(cfg, t, most)
  {
    hide Reaches;
    var sid := Ticks(begun);
    t := Next(cfg, s, CreateSession(sid, ""), w, most);
    t := Next(cfg, t, InitRuns(sid, Pick(false, false)), w, most);
  }

  /** The state once the new session's pod is provisioned. */
  function WithPod(s: State, sid: SessionId, pod: PodLease): State {
    s.(sessions := s.sessions[sid := Session("", Ready, Some(pod), Some(pod.name), Some(pod.llmToken), 0, 0)],
       store := s.store + {sid},
       registry := s.registry.Bind(pod.llmToken, sid, ""),
       places := s.places[pod := HeldBy(sid)])
  }

  /** The spawn returns and provisioning succeeds. */
  lemma Provision(cfg: Config, s: State, most: nat, made: nat, begun: nat, w: nat) returns (t: State)
    requires Stage(s, made, begun, 0, 0, w) && begun < cfg.maxSessions && w <= most && Reaches(cfg, s, most)
    ensures t == WithPod(s, Ticks(begun), Pod(made)) && Reaches(cfg, t, most)
  {
    hide Reaches, Stage, Ticks;
    var sid := Ticks(begun);
    t := Create(cfg, s, most, made, begun, w);
    t := Next(cfg, t, SpawnReturns(sid, Some(Pod(made))), w, most);
    t := Next(cfg, t, ProvisionReturns(sid, true), w, most);
    assert t.tasks == s.tasks;
  }

  lemma Open(cfg: Config, s: State, most: nat, made: nat, begun: nat, w: nat) returns (t: State)
    requires Stage(s, made, begun, 0, 0, w) && begun < cfg.maxSessions && w <= most && Reaches(cfg, s, most)
    ensures Stage(t, made + 1, begun + 1, 0, 0, w) && Reaches(cfg, t, most)
  {
    hide Reaches;
    var sid := Ticks(begun);
    t := Provision(cfg, s, most, made, begun, w);
    forall i: nat | i < begun + 1 ensures Holds(t, Ticks(i)) {
      assert i < begun ==> Holds(s, Ticks(i));
      assert |Ticks(i)| == i && |sid| == begun;
    }
  }

  /** The pod of the oldest session awaits its reset. */
  lemma Detach(cfg: Config, s: State, most: nat, made: nat, begun: nat, over: nat, n: nat, w: nat)
    returns (t: State)
    requires Stage(s, made, begun, over, n, w) && over < begun && w <= most && Reaches(cfg, s, most)
    ensures Holds(s, Ticks(over)) && Reaches(cfg, t, most)
    ensures t == DestroyPooled(s, 0, Ticks(over), ByRequest)
  {
    hide Reaches, Ticks;
    assert Holds(s, Ticks(over));
    t := Next(cfg, s, EndStarts(0, Ticks(over), ByRequest, false), w, most);
  }

  /** The state once that pod is pooled and the session is out of the store. */
  function Pooled(s: State, sid: SessionId): State
    requires sid in s.sessions && sid in s.store && s.sessions[sid].podLease.Some?
  {
    var t := DestroyPooled(s, 0, sid, ByRequest);
    RemoveFromStore(AddIdle(t, s.sessions[sid].podLease.value), sid).(tasks := s.tasks)
  }

  lemma Reset(cfg: Config, s: State, most: nat, made: nat, begun: nat, over: nat, n: nat, w: nat) returns (t: State)
    requires Stage(s, made, begun, over, n, w) && over < begun && n < cfg.maxIdle && w <= most
    requires Reaches(cfg, s, most)
    ensures Holds(s, Ticks(over)) && t == Pooled(s, Ticks(over)) && Reaches(cfg, t, most)
  {
    hide Reaches, Ticks, Fresh;
    t := Detach(cfg, s, most, made, begun, over, n, w);
    assert End(0) !in s.tasks;
    t := Next(cfg, t, ResetDone(0, true), w, most);
    assert t.tasks == s.tasks;
  }

  /** The oldest session is ended and its pod pooled. */
  lemma Close(cfg: Config, s: State, most: nat, made: nat, begun: nat, over: nat, n: nat, w: nat) returns (t: State)
    requires Stage(s, made, begun, over, n, w) && over < begun && n < cfg.maxIdle && w <= most
    requires Reaches(cfg, s, most)
    ensures Stage(t, made, begun, over + 1, n + 1, w) && Reaches(cfg, t, most)
  {
    hide Reaches;
    t := Reset(cfg, s, most, made, begun, over, n, w);
    forall i: nat | over < i < begun ensures Holds(t, Ticks(i)) {
      assert Holds(s, Ticks(i));
      assert |Ticks(i)| == i && |Ticks(over)| == over;
    }
  }

  lemma StartWarm(cfg: Config, s: State, most: nat, made: nat, begun: nat, n: nat, w: nat) returns (t: State)
    requires Stage(s, made, begun, 0, n, w) && n < cfg.poolSize && w < most && Reaches(cfg, s, most)
    ensures Stage(t, made, begun, 0, n, w + 1) && Reaches(cfg, t, most)
  {
    hide Reaches;
    t := Next(cfg, s, WarmStarts(w), w + 1, most);
  }

  /** The last `warm` call's spawn returns; the call goes on exactly while the list is short. */
  lemma WarmReturns(cfg: Config, s: State, most: nat, made: nat, begun: nat, over: nat, n: nat, w: nat)
    returns (t: State)
    requires Stage(s, made, begun, over, n, w) && 0 < w <= most && Reaches(cfg, s, most)
    ensures Stage(t, made + 1, begun, over, n + 1, if n + 1 < cfg.poolSize then w else w - 1)
    ensures Reaches(cfg, t, most)
  {
    hide Reaches;
    t := Next(cfg, s, WarmSpawnReturns(w - 1, Some(Pod(made))), w, most);
  }

  // ---- Many steps of one kind ----

  lemma {:induction false} OpenMany(cfg: Config, most: nat, k: nat) returns (t: State)
    requires k <= cfg.maxSessions
    ensures Stage(t, k, k, 0, 0, 0) && Reaches(cfg, t, most)
  {
    hide Reaches;
    if k == 0 {
      t := EMPTY;
      ReachEmpty(cfg, most);
    } else {
      t := OpenMany(cfg, most, k - 1);
      t := Open(cfg, t, most, k - 1, k - 1, 0);
    }
  }

  lemma {:induction false} GrowMany(cfg: Config, s: State, most: nat, made: nat, begun: nat, k: nat) returns (t: State)
    requires Stage(s, made, begun, 0, 0, 1) && k < cfg.poolSize && most >= 1 && Reaches(cfg, s, most)
    ensures Stage(t, made + k, begun, 0, k, 1) && Reaches(cfg, t, most)
    decreases k
  {
    hide Reaches, Stage;
    t := s;
    if k != 0 {
      t := GrowMany(cfg, s, most, made, begun, k - 1);
      t := WarmReturns(cfg, t, most, made + k - 1, begun, 0, k - 1, 1);
    }
  }

  lemma {:induction false} StartMany(cfg: Config, s: State, most: nat, made: nat, begun: nat, n: nat, w: nat)
    returns (t: State)
    requires Stage(s, made, begun, 0, n, 1) && n < cfg.poolSize && 1 <= w <= most && Reaches(cfg, s, most)
    ensures Stage(t, made, begun, 0, n, w) && Reaches(cfg, t, most)
    decreases w
  {
    hide Reaches, Stage;
    t := s;
    if w > 1 {
      t := StartMany(cfg, s, most, made, begun, n, w - 1);
      t := StartWarm(cfg, t, most, made, begun, n, w - 1);
    }
  }

  lemma {:induction false} CloseMany(cfg: Config, s: State, most: nat, made: nat, begun: nat, n: nat, w: nat, k: nat)
    returns (t: State)
    requires Stage(s, made, begun, 0, n, w) && k <= begun && n + k <= cfg.maxIdle && w <= most
    requires Reaches(cfg, s, most)
    ensures Stage(t, made, begun, k, n + k, w) && Reaches(cfg, t, most)
    decreases k
  {
    hide Reaches, Stage;
    t := s;
    if k != 0 {
      t := CloseMany(cfg, s, most, made, begun, n, w, k - 1);
      t := Close(cfg, t, most, made, begun, k - 1, n + k - 1, w);
    }
  }

  lemma {:induction false} FinishMany(cfg: Config, s: State, most: nat, made: nat, begun: nat, over: nat, n: nat,
                                      w: nat)
    returns (t: State)
    requires Stage(s, made, begun, over, n, w) && n >= cfg.poolSize && w <= most && Reaches(cfg, s, most)
    ensures |t.idle| == n + w && Reaches(cfg, t, most)
    decreases w
  {
    hide Reaches;
    t := s;
    if w != 0 {
      t := WarmReturns(cfg, s, most, made, begun, over, n, w);
      t := FinishMany(cfg, t, most, made + 1, begun, over, n + 1, w - 1);
    }
  }

  /** For every W from one up and every pool, with session slots enough to fill the list, a run with at most W `warm`
      calls at once leaves `max_idle + W` pods idle: the calls wait just below the pool size, releases fill the list,
      then the spawns return. */
  lemma IdleBoundAttained(cfg: Config, w: nat) returns (s: State)
    requires 1 <= w && 1 <= cfg.poolSize <= cfg.maxIdle && cfg.maxIdle - cfg.poolSize < cfg.maxSessions
    ensures Reaches(cfg, s, w) && |s.idle| == cfg.maxIdle + w
  {
    hide Reaches, Stage;
    var k := cfg.maxIdle - cfg.poolSize + 1;
    var p := cfg.poolSize - 1;
    s := OpenMany(cfg, w, k);
    s := StartWarm(cfg, s, w, k, k, 0, 0);
    s := GrowMany(cfg, s, w, k, k, p);
    s := StartMany(cfg, s, w, k + p, k, p, w);
    s := CloseMany(cfg, s, w, k + p, k, p, w, k);
    s := FinishMany(cfg, s, w, k + p, k, k, cfg.maxIdle, w);
  }
}
