/** Two sessions on one pod: a create still provisions the pod that another session records. */
module LeaseSharing {
  import opened Common
  import opened PodPool
  import opened ControlPlane
  import opened LeaseSafety
  import opened LeaseTheorems
  import opened LeaseTokens
  import opened LeaseCalm
  import opened LeaseWitnesses

  /** The create of `a` is posting its skill and token to a pod that `b` records. */
  predicate SharedBy(s: State, a: SessionId, b: SessionId) {
    && a != b && Init(a) in s.tasks && s.tasks[Init(a)].Provisioning?
    && b in s.sessions && s.sessions[b].podLease == Some(s.tasks[Init(a)].lease)
  }

  ghost predicate Shared(s: State) {
    exists a, b :: SharedBy(s, a, b)
  }

  /** A probed lease is bound to `b` while the create of `a` still provisions it. */
  predicate BindsOver(s: State, e: Event, a: SessionId, b: SessionId) {
    && a != b && e == ProbeReturns(b, true)
    && Init(a) in s.tasks && Init(b) in s.tasks && s.tasks[Init(b)].Probing?
    && s.tasks[Init(a)] == Provisioning(s.tasks[Init(b)].lease)
  }

  ghost predicate Overlaps(s: State, e: Event) {
    exists a, b :: BindsOver(s, e, a, b)
  }

  // ---- One step ----

  lemma AcquireRoundShares(s: State, sid: SessionId, pick: Pick, a: SessionId, b: SessionId)
    requires sid in s.sessions && !SharedBy(s, a, b)
    ensures !SharedBy(AcquireRound(s, sid, pick), a, b)
  {
  }

  lemma BindShares(s: State, sid: SessionId, lease: PodLease, a: SessionId, b: SessionId)
    requires Safe(s) && sid in s.sessions && !SharedBy(s, a, b)
    requires s.Unused(lease) || (Init(sid) in s.tasks && s.tasks[Init(sid)] == Probing(lease))
    ensures SharedBy(BindLease(s, sid, lease), a, b) <==>
              a != b && sid == b && Init(a) in s.tasks && s.tasks[Init(a)] == Provisioning(lease)
  {
    hide Conserved, Distinct, Bound, SessionOk;
  }

  /** A spawned lease is new to everybody. */
  lemma SpawnedIsUnshared(s: State, lease: PodLease, a: SessionId)
    requires Safe(s) && s.Unused(lease) && Init(a) in s.tasks
    ensures s.tasks[Init(a)] != Provisioning(lease)
  {
    hide Located, Conserved, Distinct, Bound, SessionOk;
    assert TaskOk(s, Init(a), s.tasks[Init(a)]);
  }

  lemma DestroyShares(s: State, n: nat, sid: SessionId, ender: Ender, a: SessionId, b: SessionId)
    requires sid in s.sessions && !SharedBy(s, a, b)
    ensures !SharedBy(Destroy(s, n, sid, ender), a, b)
  {
  }

  lemma StoreEndShares(s: State, n: nat, sid: SessionId, a: SessionId, b: SessionId)
    requires sid in s.sessions && !SharedBy(s, a, b)
    ensures !SharedBy(StoreEnd(s, n, sid), a, b)
  {
  }

  lemma StepSharesFor(cfg: Config, s: State, e: Event, a: SessionId, b: SessionId)
    requires Safe(s) && !SharedBy(s, a, b) && Enabled(cfg, s, e)
    ensures SharedBy(Apply(cfg, s, e), a, b) <==> BindsOver(s, e, a, b)
  {
    hide Safe, AcquireRound, BindLease, Destroy, StoreEnd;
    match e {
      case InitRuns(sid, pick) => AcquireRoundShares(s, sid, pick, a, b);
      case DiscardReturns(sid, _, pick) => AcquireRoundShares(s, sid, pick, a, b);
      case ProbeReturns(sid, _) => BindShares(s, sid, s.tasks[Init(sid)].lease, a, b);
      case SpawnReturns(sid, spawned) =>
        if spawned.Some? {
          BindShares(s, sid, spawned.value, a, b);
          if Init(a) in s.tasks {
            SpawnedIsUnshared(s, spawned.value, a);
          }
        }
      case EndStarts(n, sid, ender, _) =>
        var marked := if ender == ByReaper then s.Put(sid, s.sessions[sid].(status := Done)) else s;
        DestroyShares(marked, n, sid, ender, a, b);
      case DriveStops(n) => DestroyShares(s, n, s.tasks[End(n)].sid, s.tasks[End(n)].ender, a, b);
      case ResetDone(n, _) => StoreEndShares(PoolLease(s, n, s.tasks[End(n)].lease), n, s.tasks[End(n)].sid, a, b);
      case DeleteDone(n, _) => StoreEndShares(s, n, s.tasks[End(n)].sid, a, b);
      case _ =>
    }
  }

  /** Sharing begins exactly with a bind of a lease that another create still provisions. */
  lemma StepSharesExactly(cfg: Config, s: State, e: Event)
    requires Safe(s) && !Shared(s) && Enabled(cfg, s, e)
    ensures Shared(Apply(cfg, s, e)) <==> Overlaps(s, e)
  {
    hide Safe, SharedBy, BindsOver, Apply, Enabled;
    forall a, b
      ensures SharedBy(Apply(cfg, s, e), a, b) <==> BindsOver(s, e, a, b)
    {
      StepSharesFor(cfg, s, e, a, b);
    }
  }

  /** Only a shared pod can be given up under the session that records it. */
  lemma RobberyNeedsSharing(s: State, e: Event)
    requires Robs(s, e)
    ensures Shared(s)
  {
    var b :| RobbedBy(s, e, b);
    assert SharedBy(s, e.sid, b);
  }

  // ---- Whole runs ----

  ghost predicate NeverShared(cfg: Config, s: State, es: seq<Event>)
    requires Feasible(cfg, s, es)
    decreases es
  {
    !Shared(s) && (es != [] ==> NeverShared(cfg, Apply(cfg, s, es[0]), es[1..]))
  }

  ghost predicate NoOverlaps(cfg: Config, s: State, es: seq<Event>)
    requires Feasible(cfg, s, es)
    decreases es
  {
    es != [] ==> !Overlaps(s, es[0]) && NoOverlaps(cfg, Apply(cfg, s, es[0]), es[1..])
  }

  lemma SharedNow(cfg: Config, s: State, es: seq<Event>)
    requires Feasible(cfg, s, es) && Shared(s)
    ensures !NeverShared(cfg, s, es)
  {
  }

  lemma {:induction false} RunSharesExactly(cfg: Config, s: State, es: seq<Event>)
    requires Safe(s) && !Shared(s) && Feasible(cfg, s, es)
    ensures NeverShared(cfg, s, es) <==> NoOverlaps(cfg, s, es)
    decreases es
  {
    hide Safe, Shared, Overlaps, Apply, Enabled;
    if es != [] {
      StepKeeps(cfg, s, es[0]);
      StepSharesExactly(cfg, s, es[0]);
      if Overlaps(s, es[0]) {
        SharedNow(cfg, Apply(cfg, s, es[0]), es[1..]);
      } else {
        RunSharesExactly(cfg, Apply(cfg, s, es[0]), es[1..]);
      }
    }
  }

  /** In every run no two sessions are ever on one pod if and only if no lease is bound over a create that still
      provisions it. */
  lemma PodsSharedExactly(cfg: Config, es: seq<Event>)
    requires Feasible(cfg, EMPTY, es)
    ensures NeverShared(cfg, EMPTY, es) <==> NoOverlaps(cfg, EMPTY, es)
  {
    RunSharesExactly(cfg, EMPTY, es);
  }

  lemma CalmSharesNothing(s: State, a: SessionId)
    requires Safe(s) && Calm(s) && Init(a) in s.tasks && s.tasks[Init(a)].Provisioning?
    ensures a in s.sessions && s.sessions[a].podLease == Some(s.tasks[Init(a)].lease)
    ensures forall b :: !SharedBy(s, a, b)
  {
    hide Conserved, Distinct, Bound, SessionOk, CalmSession;
    assert TaskOk(s, Init(a), s.tasks[Init(a)]) && CalmTask(s, Init(a), s.tasks[Init(a)]);
  }

  /** Where destroys start only after their create returned, a provisioning create is always the holder's. */
  lemma CalmRunsShareNothing(cfg: Config, es: seq<Event>)
    requires Feasible(cfg, EMPTY, es) && CalmRun(cfg, EMPTY, es)
    ensures var s := Run(cfg, EMPTY, es);
            && !Shared(s)
            && forall a :: Init(a) in s.tasks && s.tasks[Init(a)].Provisioning? ==>
                 a in s.sessions && s.sessions[a].podLease == Some(s.tasks[Init(a)].lease)
  {
    RunKeeps(cfg, EMPTY, es);
    RunKeepsCalm(cfg, EMPTY, es);
    hide Safe, Calm;
    var s := Run(cfg, EMPTY, es);
    forall a | Init(a) in s.tasks && s.tasks[Init(a)].Provisioning?
      ensures a in s.sessions && s.sessions[a].podLease == Some(s.tasks[Init(a)].lease)
      ensures forall b :: !SharedBy(s, a, b)
    {
      CalmSharesNothing(s, a);
    }
  }

  /** A run in which session b records the pod that the create of a still provisions. */
  lemma SomePodIsShared(cfg: Config, a: SessionId, b: SessionId, u: User, v: User, pod: PodLease) returns (s: State)
    requires cfg.maxSessions >= 1 && cfg.maxIdle >= 1 && a != b
    ensures Reaches(cfg, s, 1) && SharedBy(s, a, b)
    ensures s.tasks[Init(a)] == Provisioning(pod) && s.sessions[b].podLease == Some(pod)
  {
    hide Reaches;
    s := Overlapped(a, b, u, v, pod);
    ReachOverlapped(cfg, a, b, u, v, pod);
  }
}
