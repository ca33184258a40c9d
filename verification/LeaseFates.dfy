/** What becomes of a lease: what each step takes, gives back or discards, and that a discarded pod never comes back.
    */
module LeaseFates {
  import opened Common
  import opened PodPool
  import opened ControlPlane
  import opened LeaseSafety
  import opened LeaseTheorems

  /** The lease is idle, on a session's record, or in the hands of an acquirer or a destroyer. */
  ghost predicate Circulates(s: State, l: PodLease) {
    || l in s.idle
    || (exists sid :: sid in s.sessions && s.sessions[sid].podLease == Some(l))
    || (exists id :: id in s.tasks && s.tasks[id].Carried() == Some(l))
  }

  /** A round of the acquire loop begins on this step: a create starts, or goes on after a deletion. A deletion that
      raised ends the create, unless the pod had failed its probe. */
  predicate RoundOf(s: State, e: Event, sid: SessionId, pick: Pick) {
    || e == InitRuns(sid, pick)
    || e == DiscardReturns(sid, false, pick)
    || (e == DiscardReturns(sid, true, pick) && Init(sid) in s.tasks && s.tasks[Init(sid)] == Discarding(true))
  }

  predicate LastIdle(s: State, l: PodLease) {
    s.idle != [] && s.idle[|s.idle| - 1] == l
  }

  /** The five ways a pod is given up: too short a life, a failed probe, a failed provisioning, a failed reset, and a
      healthy return to a full pool. */
  predicate Discards(cfg: Config, s: State, e: Event, l: PodLease) {
    match e
    case InitRuns(sid, pick) => LastIdle(s, l) && !pick.late && pick.shortLived
    case DiscardReturns(sid, _, pick) => RoundOf(s, e, sid, pick) && LastIdle(s, l) && !pick.late && pick.shortLived
    case ProbeReturns(sid, alive) => !alive && Init(sid) in s.tasks && s.tasks[Init(sid)] == Probing(l)
    case ProvisionReturns(sid, ok) =>
      && !ok && Init(sid) in s.tasks && s.tasks[Init(sid)] == Provisioning(l)
      && sid in s.sessions && s.sessions[sid].podLease == Some(l)
    case ResetDone(n, healthy) =>
      && End(n) in s.tasks && s.tasks[End(n)].Resetting? && s.tasks[End(n)].lease == l
      && !(healthy && |s.idle| < cfg.maxIdle)
    case _ => false
  }

  // ---- where a step leaves a lease -----------------------------------------------------------------------

  lemma PlacedCirculates(s: State, l: PodLease)
    requires Safe(s)
    ensures Circulates(s, l) <==> l in s.places && s.places[l] != Deleted
  {
    hide Orderly, Distinct, Bound;
    assert l in s.places ==> Truthful(s, l, s.places[l]);
  }

  lemma DestroyPlaces(s: State, n: nat, sid: SessionId, ender: Ender, l: PodLease)
    requires Safe(s) && sid in s.sessions && l in s.places
    ensures var t := Destroy(s, n, sid, ender);
            l in t.places && (t.places[l] == Deleted <==> s.places[l] == Deleted)
  {
    hide Conserved, Distinct, Bound, Orderly;
  }

  lemma RoundPlaces(s: State, sid: SessionId, pick: Pick, l: PodLease)
    requires Safe(s) && sid in s.sessions && l in s.places
    ensures var t := AcquireRound(s, sid, pick);
            l in t.places && (t.places[l] == Deleted <==>
                                s.places[l] == Deleted || (LastIdle(s, l) && !pick.late && pick.shortLived))
  {
    hide Conserved, Distinct, Bound, Orderly;
  }

  lemma BindPlaces(s: State, sid: SessionId, lease: PodLease, l: PodLease)
    requires sid in s.sessions && l in s.places && (lease in s.places ==> s.places[lease] != Deleted)
    ensures var t := BindLease(s, sid, lease); l in t.places && (t.places[l] == Deleted <==> s.places[l] == Deleted)
  {
  }

  lemma ResetPlaces(cfg: Config, s: State, n: nat, healthy: bool, l: PodLease)
    requires Safe(s) && Enabled(cfg, s, ResetDone(n, healthy)) && l in s.places
    ensures var t := Apply(cfg, s, ResetDone(n, healthy));
            l in t.places && (t.places[l] == Deleted <==>
                                s.places[l] == Deleted || Discards(cfg, s, ResetDone(n, healthy), l))
  {
    hide Conserved, Distinct, Bound, Orderly;
    assert s.tasks[End(n)].Carried() == Some(s.tasks[End(n)].lease);
  }

  lemma ProbedIsPlaced(s: State, sid: SessionId)
    requires Safe(s) && Init(sid) in s.tasks && s.tasks[Init(sid)].Probing?
    ensures s.tasks[Init(sid)].lease in s.places && s.places[s.tasks[Init(sid)].lease] == InTask(Init(sid))
  {
    hide Conserved, Distinct, Bound, Orderly;
    assert s.tasks[Init(sid)].Carried() == Some(s.tasks[Init(sid)].lease);
  }

  lemma ProvisionPlaces(cfg: Config, s: State, sid: SessionId, ok: bool, l: PodLease)
    requires Safe(s) && Enabled(cfg, s, ProvisionReturns(sid, ok)) && l in s.places
    ensures var t := Apply(cfg, s, ProvisionReturns(sid, ok));
            l in t.places && (t.places[l] == Deleted <==>
                                s.places[l] == Deleted || Discards(cfg, s, ProvisionReturns(sid, ok), l))
  {
    hide Conserved, Distinct, Bound, SessionOk;
  }

  lemma WarmPlaces(cfg: Config, s: State, n: nat, spawned: Option<PodLease>, l: PodLease)
    requires Enabled(cfg, s, WarmSpawnReturns(n, spawned)) && l in s.places
    ensures var t := Apply(cfg, s, WarmSpawnReturns(n, spawned));
            l in t.places && (t.places[l] == Deleted <==> s.places[l] == Deleted)
  {
  }

  lemma StepPlacesExactly(cfg: Config, s: State, e: Event, l: PodLease)
    requires Safe(s) && Enabled(cfg, s, e) && l in s.places
    ensures var t := Apply(cfg, s, e);
            l in t.places && (t.places[l] == Deleted <==> s.places[l] == Deleted || Discards(cfg, s, e, l))
  {
    hide Safe, AcquireRound, BindLease, Destroy, StoreEnd, ResetReturns, ProvisionFails, WarmRound;
    match e {
      case InitRuns(sid, pick) => RoundPlaces(s, sid, pick, l);
      case DiscardReturns(sid, raised, pick) =>
        if raised && !s.tasks[Init(sid)].caught {
          assert !RoundOf(s, e, sid, pick);
        } else {
          RoundPlaces(s, sid, pick, l);
        }
      case ProbeReturns(sid, alive) =>
        ProbedIsPlaced(s, sid);
        if alive {
          BindPlaces(s, sid, s.tasks[Init(sid)].lease, l);
        }
      case SpawnReturns(sid, spawned) =>
        if spawned.Some? {
          BindPlaces(s, sid, spawned.value, l);
        }
      case ProvisionReturns(sid, ok) => ProvisionPlaces(cfg, s, sid, ok, l);
      case EndStarts(n, sid, ender, _) =>
        if ender == ByReaper {
          StatusKeeps(s, sid, Done);
        }
        DestroyPlaces(if ender == ByReaper then s.Put(sid, s.sessions[sid].(status := Done)) else s, n, sid, ender, l);
      case DriveStops(n) => DestroyPlaces(s, n, s.tasks[End(n)].sid, s.tasks[End(n)].ender, l);
      case ResetDone(n, healthy) => ResetPlaces(cfg, s, n, healthy, l);
      case DeleteDone(n, _) => StoreEndPlaces(s, n, s.tasks[End(n)].sid);
      case WarmStarts(n) => WarmRoundPlaces(cfg, s, n);
      case WarmSpawnReturns(n, spawned) => WarmPlaces(cfg, s, n, spawned, l);
      case _ =>
    }
  }

  lemma StoreEndPlaces(s: State, n: nat, sid: SessionId)
    requires sid in s.sessions
    ensures StoreEnd(s, n, sid).places == s.places
  {
  }

  lemma WarmRoundPlaces(cfg: Config, s: State, n: nat)
    ensures WarmRound(cfg, s, n).places == s.places
  {
  }

  /** A step takes a lease out of circulation exactly if it gives the pod up. */
  lemma StepCirculates(cfg: Config, s: State, e: Event, l: PodLease)
    requires Safe(s) && Enabled(cfg, s, e) && Circulates(s, l)
    ensures Circulates(Apply(cfg, s, e), l) <==> !Discards(cfg, s, e, l)
    ensures Discards(cfg, s, e, l) ==> l.name in Apply(cfg, s, e).deleted
  {
    hide Safe, Circulates, Discards, Apply, Enabled;
    PlacedCirculates(s, l);
    StepPlacesExactly(cfg, s, e, l);
    StepKeeps(cfg, s, e);
    PlacedCirculates(Apply(cfg, s, e), l);
    if Discards(cfg, s, e, l) {
      DeletedIsNamed(Apply(cfg, s, e), l);
    }
  }

  lemma DeletedIsNamed(s: State, l: PodLease)
    requires Safe(s) && l in s.places && s.places[l] == Deleted
    ensures l.name in s.deleted
  {
    assert Truthful(s, l, s.places[l]);
  }

  // ---- whole runs ----------------------------------------------------------------------------------------

  lemma {:induction false} DeletedStays(cfg: Config, s: State, es: seq<Event>, l: PodLease)
    requires Safe(s) && l in s.places && s.places[l] == Deleted && Feasible(cfg, s, es)
    ensures var t := Run(cfg, s, es); !Circulates(t, l) && l.name in t.deleted
    decreases es
  {
    hide Safe, Circulates, Discards, Apply, Enabled;
    if es == [] {
      PlacedCirculates(s, l);
      DeletedIsNamed(s, l);
    } else {
      StepKeeps(cfg, s, es[0]);
      StepPlacesExactly(cfg, s, es[0], l);
      DeletedStays(cfg, Apply(cfg, s, es[0]), es[1..], l);
    }
  }

  /** A pod that was given up is handed to deletion and in no continuation idle, on a record or carried again. */
  lemma DiscardedForGood(cfg: Config, s: State, e: Event, l: PodLease, es: seq<Event>)
    requires Safe(s) && Enabled(cfg, s, e) && Discards(cfg, s, e, l) && Feasible(cfg, Apply(cfg, s, e), es)
    ensures var t := Run(cfg, Apply(cfg, s, e), es); !Circulates(t, l) && l.name in t.deleted
  {
    hide Apply, Enabled;
    DiscardedCirculates(cfg, s, e, l);
    hide Safe, Discards, Circulates;
    PlacedCirculates(s, l);
    StepKeeps(cfg, s, e);
    StepPlacesExactly(cfg, s, e, l);
    DeletedStays(cfg, Apply(cfg, s, e), es, l);
  }

  lemma DiscardedCirculates(cfg: Config, s: State, e: Event, l: PodLease)
    requires Safe(s) && Discards(cfg, s, e, l)
    ensures Circulates(s, l)
  {
    if e.ProbeReturns? {
      assert s.tasks[Init(e.sid)].Carried() == Some(l);
    } else if e.ResetDone? {
      assert s.tasks[End(e.n)].Carried() == Some(l);
    }
  }

  /** A pod whose reset failed is deleted and nobody ever gets it again. */
  lemma FailedResetNeverReused(cfg: Config, s: State, n: nat, es: seq<Event>)
    requires Safe(s) && Enabled(cfg, s, ResetDone(n, false))
    requires Feasible(cfg, Apply(cfg, s, ResetDone(n, false)), es)
    ensures var l, t := s.tasks[End(n)].lease, Run(cfg, Apply(cfg, s, ResetDone(n, false)), es);
            && l.name in t.deleted && l !in t.idle
            && (forall sid | sid in t.sessions :: t.sessions[sid].podLease != Some(l))
            && (forall id | id in t.tasks :: t.tasks[id].Carried() != Some(l))
  {
    hide Safe, Apply, Run, Feasible;
    DiscardedForGood(cfg, s, ResetDone(n, false), s.tasks[End(n)].lease, es);
  }

  ghost predicate NeverDiscarded(cfg: Config, s: State, es: seq<Event>, l: PodLease)
    requires Feasible(cfg, s, es)
    decreases es
  {
    es != [] ==> !Discards(cfg, s, es[0], l) && NeverDiscarded(cfg, Apply(cfg, s, es[0]), es[1..], l)
  }

  lemma {:induction false} RunCirculates(cfg: Config, s: State, es: seq<Event>, l: PodLease)
    requires Safe(s) && Circulates(s, l) && Feasible(cfg, s, es)
    ensures Circulates(Run(cfg, s, es), l) <==> NeverDiscarded(cfg, s, es, l)
    decreases es
  {
    hide Safe, Circulates, Discards, Apply, Enabled;
    if es != [] {
      StepKeeps(cfg, s, es[0]);
      StepCirculates(cfg, s, es[0], l);
      if Discards(cfg, s, es[0], l) {
        DiscardedForGood(cfg, s, es[0], l, es[1..]);
      } else {
        RunCirculates(cfg, Apply(cfg, s, es[0]), es[1..], l);
      }
    }
  }

  lemma DestroyPlacesNothing(s: State, n: nat, sid: SessionId, ender: Ender, l: PodLease)
    requires Safe(s) && sid in s.sessions && l !in s.places
    ensures l !in Destroy(s, n, sid, ender).places
  {
    hide Conserved, Distinct, Bound, Orderly;
  }

  lemma RoundPlacesNothing(s: State, sid: SessionId, pick: Pick, l: PodLease)
    requires Safe(s) && sid in s.sessions && l !in s.places
    ensures l !in AcquireRound(s, sid, pick).places
  {
    hide Conserved, Distinct, Bound, Orderly;
  }

  lemma BindPlacesOne(s: State, sid: SessionId, lease: PodLease, l: PodLease)
    requires sid in s.sessions && l !in s.places
    ensures var t := BindLease(s, sid, lease); (l in t.places <==> l == lease) && t.places[lease] != Deleted
  {
  }

  lemma ProvisionPlacesNothing(s: State, sid: SessionId, lease: PodLease, l: PodLease)
    requires Safe(s) && sid in s.sessions && l !in s.places
    ensures l !in ProvisionFails(s, sid, lease).places
  {
    hide Conserved, Distinct, Bound, Orderly;
  }

  lemma ResetPlacesNothing(cfg: Config, s: State, n: nat, healthy: bool, l: PodLease)
    requires Safe(s) && Enabled(cfg, s, ResetDone(n, healthy)) && l !in s.places
    ensures l !in Apply(cfg, s, ResetDone(n, healthy)).places
  {
    hide Conserved, Distinct, Bound, Orderly;
    assert s.tasks[End(n)].Carried() == Some(s.tasks[End(n)].lease);
  }

  lemma OnlySpawnsPlace(cfg: Config, s: State, e: Event, l: PodLease)
    requires Safe(s) && Enabled(cfg, s, e) && l !in s.places
    ensures l in Apply(cfg, s, e).places <==> Spawns(e, l)
    ensures Spawns(e, l) ==> Apply(cfg, s, e).places[l] != Deleted
  {
    hide Safe, AcquireRound, BindLease, Destroy, StoreEnd, ResetReturns, ProvisionFails, WarmRound;
    match e {
      case InitRuns(sid, pick) => RoundPlacesNothing(s, sid, pick, l);
      case DiscardReturns(sid, _, pick) => RoundPlacesNothing(s, sid, pick, l);
      case ProbeReturns(sid, alive) =>
        ProbedIsPlaced(s, sid);
        BindPlacesOne(s, sid, s.tasks[Init(sid)].lease, l);
      case SpawnReturns(sid, spawned) =>
        if spawned.Some? {
          BindPlacesOne(s, sid, spawned.value, l);
        }
      case ProvisionReturns(sid, _) => ProvisionPlacesNothing(s, sid, s.tasks[Init(sid)].lease, l);
      case EndStarts(n, sid, ender, _) =>
        if ender == ByReaper {
          StatusKeeps(s, sid, Done);
        }
        DestroyPlacesNothing(if ender == ByReaper then s.Put(sid, s.sessions[sid].(status := Done)) else s,
                             n, sid, ender, l);
      case DriveStops(n) => DestroyPlacesNothing(s, n, s.tasks[End(n)].sid, s.tasks[End(n)].ender, l);
      case ResetDone(n, healthy) => ResetPlacesNothing(cfg, s, n, healthy, l);
      case DeleteDone(n, _) => StoreEndPlaces(s, n, s.tasks[End(n)].sid);
      case WarmStarts(n) => WarmRoundPlaces(cfg, s, n);
      case WarmSpawnReturns(n, spawned) =>
        if spawned.Some? {
          WarmRoundPlaces(cfg, AddIdle(s, spawned.value), n);
        }
      case _ =>
    }
  }

  lemma {:induction false} SpawnedCirculates(cfg: Config, s: State, es: seq<Event>, l: PodLease)
    requires Safe(s) && l !in s.places && Feasible(cfg, s, es)
    ensures Circulates(Run(cfg, s, es), l) <==>
              (exists e :: e in es && Spawns(e, l)) && NeverDiscarded(cfg, s, es, l)
    decreases es
  {
    hide Safe, Circulates, Discards, Apply, Enabled, Spawns;
    if es == [] {
      PlacedCirculates(s, l);
    } else {
      StepKeeps(cfg, s, es[0]);
      OnlySpawnsPlace(cfg, s, es[0], l);
      if Discards(cfg, s, es[0], l) {
        DiscardedCirculates(cfg, s, es[0], l);
        PlacedCirculates(s, l);
      }
      if Spawns(es[0], l) {
        assert es[0] in es;
        PlacedCirculates(Apply(cfg, s, es[0]), l);
        RunCirculates(cfg, Apply(cfg, s, es[0]), es[1..], l);
      } else {
        SpawnedCirculates(cfg, Apply(cfg, s, es[0]), es[1..], l);
        assert es == [es[0]] + es[1..];
      }
    }
  }

  /** In every run the leases in circulation are exactly those that some spawn returned and no step gave up. */
  lemma CirculationExact(cfg: Config, es: seq<Event>, l: PodLease)
    requires Feasible(cfg, EMPTY, es)
    ensures Circulates(Run(cfg, EMPTY, es), l) <==>
              (exists e :: e in es && Spawns(e, l)) && NeverDiscarded(cfg, EMPTY, es, l)
  {
    SpawnedCirculates(cfg, EMPTY, es, l);
  }
}
