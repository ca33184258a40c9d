/** When a held token stays bound: exactly while no failing create gives up a pod that another session holds by then.
    */
module LeaseTokens {
  import opened Common
  import opened PodPool
  import opened ControlPlane
  import opened LeaseSafety
  import opened LeaseTheorems

  predicate ResolvesFor(s: State, sid: SessionId) {
    sid in s.sessions && s.sessions[sid].podLease.Some? ==>
      var token := s.sessions[sid].podLease.value.llmToken;
      token in s.registry.bySession && s.registry.bySession[token] == sid
  }

  /** The token of every recorded lease resolves to the session that records it. */
  ghost predicate Resolves(s: State) {
    forall sid :: ResolvesFor(s, sid)
  }

  /** The create of `e` gives up its lease, and `b` records that lease. */
  predicate RobbedBy(s: State, e: Event, b: SessionId) {
    && e.ProvisionReturns? && !e.ok && b != e.sid
    && Init(e.sid) in s.tasks && s.tasks[Init(e.sid)].Provisioning?
    && b in s.sessions && s.sessions[b].podLease == Some(s.tasks[Init(e.sid)].lease)
  }

  ghost predicate Robs(s: State, e: Event) {
    exists b :: RobbedBy(s, e, b)
  }

  // ---- Each block ----

  lemma AcquireRoundResolves(s: State, sid: SessionId, pick: Pick, x: SessionId)
    requires sid in s.sessions && ResolvesFor(s, x)
    ensures ResolvesFor(AcquireRound(s, sid, pick), x)
  {
  }

  lemma BindResolves(s: State, sid: SessionId, lease: PodLease, x: SessionId)
    requires Safe(s) && sid in s.sessions && ResolvesFor(s, x)
    requires s.Unused(lease) || (Init(sid) in s.tasks && s.tasks[Init(sid)] == Probing(lease))
    ensures ResolvesFor(BindLease(s, sid, lease), x)
  {
    hide Conserved, Orderly, Bound;
  }

  /** Giving up a lease unbinds the token of whoever else records it, and of nobody else. */
  lemma ProvisionFailsResolves(s: State, e: Event, x: SessionId)
    requires Safe(s) && e.ProvisionReturns? && !e.ok && e.sid in s.sessions
    requires Init(e.sid) in s.tasks && s.tasks[Init(e.sid)].Provisioning? && ResolvesFor(s, x)
    ensures ResolvesFor(ProvisionFails(s, e.sid, s.tasks[Init(e.sid)].lease), x) <==> !RobbedBy(s, e, x)
  {
    hide Conserved, Bound, SessionOk;
    assert TaskOk(s, Init(e.sid), s.tasks[Init(e.sid)]);
  }

  lemma DestroyResolves(s: State, n: nat, sid: SessionId, ender: Ender, x: SessionId)
    requires Safe(s) && sid in s.sessions && ResolvesFor(s, x)
    ensures ResolvesFor(Destroy(s, n, sid, ender), x)
  {
    hide Conserved, Bound, TaskOk;
  }

  lemma EndBeginsResolves(s: State, n: nat, sid: SessionId, ender: Ender, driving: bool, x: SessionId)
    requires Safe(s) && sid in s.sessions && ResolvesFor(s, x)
    ensures ResolvesFor(EndBegins(s, n, sid, ender, driving), x)
  {
    hide Safe, Destroy;
    var marked := if ender == ByReaper then s.Put(sid, s.sessions[sid].(status := Done)) else s;
    StatusKeeps(s, sid, Done);
    DestroyResolves(marked, n, sid, ender, x);
  }

  lemma StoreEndResolves(s: State, n: nat, sid: SessionId, x: SessionId)
    requires sid in s.sessions && ResolvesFor(s, x)
    ensures ResolvesFor(StoreEnd(s, n, sid), x)
  {
  }

  lemma StepResolvesFor(cfg: Config, s: State, e: Event, x: SessionId)
    requires Safe(s) && ResolvesFor(s, x) && Enabled(cfg, s, e)
    ensures ResolvesFor(Apply(cfg, s, e), x) <==> !RobbedBy(s, e, x)
  {
    hide Safe;
    match e {
      case InitRuns(sid, pick) => AcquireRoundResolves(s, sid, pick, x);
      case DiscardReturns(sid, _, pick) => AcquireRoundResolves(s, sid, pick, x);
      case ProbeReturns(sid, _) => BindResolves(s, sid, s.tasks[Init(sid)].lease, x);
      case SpawnReturns(sid, spawned) =>
        if spawned.Some? {
          BindResolves(s, sid, spawned.value, x);
        }
      case ProvisionReturns(_, ok) =>
        if !ok {
          ProvisionFailsResolves(s, e, x);
        }
      case EndStarts(n, sid, ender, driving) => EndBeginsResolves(s, n, sid, ender, driving, x);
      case DriveStops(n) => DestroyResolves(s, n, s.tasks[End(n)].sid, s.tasks[End(n)].ender, x);
      case ResetDone(n, _) => StoreEndResolves(PoolLease(s, n, s.tasks[End(n)].lease), n, s.tasks[End(n)].sid, x);
      case DeleteDone(n, _) => StoreEndResolves(s, n, s.tasks[End(n)].sid, x);
      case _ =>
    }
  }

  /** A step breaks a held token's binding if and only if it is such a failure. */
  lemma StepResolvesExactly(cfg: Config, s: State, e: Event)
    requires Safe(s) && Resolves(s) && Enabled(cfg, s, e)
    ensures Resolves(Apply(cfg, s, e)) <==> !Robs(s, e)
  {
    hide Safe, ResolvesFor, RobbedBy, Apply, Enabled;
    forall x
      ensures ResolvesFor(Apply(cfg, s, e), x) <==> !RobbedBy(s, e, x)
    {
      StepResolvesFor(cfg, s, e, x);
    }
  }

  // ---- Whole runs ----

  ghost predicate AlwaysResolves(cfg: Config, s: State, es: seq<Event>)
    requires Feasible(cfg, s, es)
    decreases es
  {
    Resolves(s) && (es != [] ==> AlwaysResolves(cfg, Apply(cfg, s, es[0]), es[1..]))
  }

  ghost predicate NoneRobbed(cfg: Config, s: State, es: seq<Event>)
    requires Feasible(cfg, s, es)
    decreases es
  {
    es != [] ==> !Robs(s, es[0]) && NoneRobbed(cfg, Apply(cfg, s, es[0]), es[1..])
  }

  /** In every run, overlapping or not, held tokens resolve to their holders throughout if and only if no create
      fails to provision a pod that another session records by then. */
  lemma {:induction false} TokensResolveExactly(cfg: Config, s: State, es: seq<Event>)
    requires Safe(s) && Resolves(s) && Feasible(cfg, s, es)
    ensures AlwaysResolves(cfg, s, es) <==> NoneRobbed(cfg, s, es)
    decreases es
  {
    hide Safe, Resolves, Robs, Apply, Enabled;
    if es != [] {
      StepKeeps(cfg, s, es[0]);
      StepResolvesExactly(cfg, s, es[0]);
      if !Robs(s, es[0]) {
        TokensResolveExactly(cfg, Apply(cfg, s, es[0]), es[1..]);
      } else {
        NotResolving(cfg, Apply(cfg, s, es[0]), es[1..]);
      }
    }
  }

  lemma NotResolving(cfg: Config, s: State, es: seq<Event>)
    requires Feasible(cfg, s, es) && !Resolves(s)
    ensures !AlwaysResolves(cfg, s, es)
  {
  }

  /** The same for the runs of the control plane, which start from nothing. */
  lemma HeldTokensResolve(cfg: Config, es: seq<Event>)
    requires Feasible(cfg, EMPTY, es)
    ensures AlwaysResolves(cfg, EMPTY, es) <==> NoneRobbed(cfg, EMPTY, es)
  {
    TokensResolveExactly(cfg, EMPTY, es);
  }
}
