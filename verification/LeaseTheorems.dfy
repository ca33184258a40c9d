/** Theorems about every run of the control plane, from the empty state. */
module LeaseTheorems {
  import opened Common
  import opened PodPool
  import opened ControlPlane
  import opened LeaseSafety

  predicate Feasible(cfg: Config, s: State, es: seq<Event>)
    decreases es
  {
    es == [] || (Enabled(cfg, s, es[0]) && Feasible(cfg, Apply(cfg, s, es[0]), es[1..]))
  }

  function Run(cfg: Config, s: State, es: seq<Event>): State
    requires Feasible(cfg, s, es)
    decreases es
  {
    if es == [] then s else Run(cfg, Apply(cfg, s, es[0]), es[1..])
  }

  lemma {:induction false} RunKeeps(cfg: Config, s: State, es: seq<Event>)
    requires Safe(s) && Feasible(cfg, s, es)
    ensures Safe(Run(cfg, s, es))
    decreases es
  {
    if es != [] {
      StepKeeps(cfg, s, es[0]);
      RunKeeps(cfg, Apply(cfg, s, es[0]), es[1..]);
    }
  }

  // ---- Lease exclusivity ----

  /** No lease is in two places among: idle slots, session records, and suspended acquirers and destroyers. */
  ghost predicate Exclusive(s: State) {
    && (forall i, j :: 0 <= i < j < |s.idle| ==> s.idle[i] != s.idle[j])
    && (forall i, sid :: 0 <= i < |s.idle| && sid in s.sessions ==> s.sessions[sid].podLease != Some(s.idle[i]))
    && (forall sid, sid' :: sid in s.sessions && sid' in s.sessions && sid != sid' && s.sessions[sid].podLease.Some? ==>
          s.sessions[sid].podLease != s.sessions[sid'].podLease)
    && (forall id, i :: id in s.tasks && 0 <= i < |s.idle| ==> s.tasks[id].Carried() != Some(s.idle[i]))
    && (forall id, sid :: id in s.tasks && sid in s.sessions && s.tasks[id].Carried().Some? ==>
          s.tasks[id].Carried() != s.sessions[sid].podLease)
    && (forall id, id' :: id in s.tasks && id' in s.tasks && id != id' && s.tasks[id].Carried().Some? ==>
          s.tasks[id].Carried() != s.tasks[id'].Carried())
  }

  lemma SafeIsExclusive(s: State)
    requires Safe(s)
    ensures Exclusive(s)
  {
  }

  lemma LeaseExclusivity(cfg: Config, es: seq<Event>)
    requires Feasible(cfg, EMPTY, es)
    ensures Exclusive(Run(cfg, EMPTY, es))
  {
    RunKeeps(cfg, EMPTY, es);
    SafeIsExclusive(Run(cfg, EMPTY, es));
  }

  /** The step is a spawn returning this lease. */
  predicate Spawns(e: Event, lease: PodLease) {
    (e.SpawnReturns? || e.WarmSpawnReturns?) && e.spawned == Some(lease)
  }

  lemma StepPlaces(cfg: Config, s: State, e: Event, lease: PodLease)
    requires Enabled(cfg, s, e) && (lease in s.places || Spawns(e, lease))
    ensures lease in Apply(cfg, s, e).places
  {
  }

  lemma {:induction false} PlacesStay(cfg: Config, s: State, es: seq<Event>, lease: PodLease)
    requires Feasible(cfg, s, es) && (lease in s.places || exists e :: e in es && Spawns(e, lease))
    ensures lease in Run(cfg, s, es).places
    decreases es
  {
    if es != [] {
      if lease in s.places || Spawns(es[0], lease) {
        StepPlaces(cfg, s, es[0], lease);
      } else {
        var e :| e in es && Spawns(e, lease);
        assert e in es[1..];
      }
      PlacesStay(cfg, Apply(cfg, s, es[0]), es[1..], lease);
    }
  }

  /** Every lease a spawn of the run returned is idle, recorded, carried by a coroutine, or was handed to
      `delete_pod`. */
  lemma NoLeaseIsLost(cfg: Config, es: seq<Event>, lease: PodLease)
    requires Feasible(cfg, EMPTY, es) && exists e :: e in es && Spawns(e, lease)
    ensures var s := Run(cfg, EMPTY, es);
            || lease in s.idle
            || (exists sid :: sid in s.sessions && s.sessions[sid].podLease == Some(lease))
            || (exists id :: id in s.tasks && s.tasks[id].Carried() == Some(lease))
            || lease.name in s.deleted
  {
    PlacesStay(cfg, EMPTY, es, lease);
    RunKeeps(cfg, EMPTY, es);
    var s := Run(cfg, EMPTY, es);
    assert Truthful(s, lease, s.places[lease]);
  }

  // ---- Tokens ----

  /** In every run: a pool token never resolves to anyone but the session that records its lease. */
  lemma TokensResolveToHolders(cfg: Config, es: seq<Event>, lease: PodLease)
    requires Feasible(cfg, EMPTY, es) && lease in Run(cfg, EMPTY, es).places
    ensures var s := Run(cfg, EMPTY, es);
            && s.registry.byUser.Keys <= s.registry.bySession.Keys
            && (lease in s.idle ==> lease.llmToken !in s.registry.bySession)
            && (lease.llmToken in s.registry.bySession ==>
                  var sid := s.registry.bySession[lease.llmToken];
                  && sid in s.sessions && s.sessions[sid].podLease == Some(lease)
                  && (lease.llmToken in s.registry.byUser <==> s.sessions[sid].user != "")
                  && (lease.llmToken in s.registry.byUser ==>
                        s.registry.byUser[lease.llmToken] == s.sessions[sid].user))
  {
    RunKeeps(cfg, EMPTY, es);
    var s := Run(cfg, EMPTY, es);
    assert Truthful(s, lease, s.places[lease]);
  }

  // ---- Teardown ----

  /** The destroys of a session release something at most once, and `store.end` finds it at most once. */
  lemma SingleRelease(cfg: Config, es: seq<Event>, sid: SessionId)
    requires Feasible(cfg, EMPTY, es) && sid in Run(cfg, EMPTY, es).sessions
    ensures var o := Run(cfg, EMPTY, es).sessions[sid];
            && o.teardowns <= 1
            && (o.podLease.Some? ==> o.teardowns == 0)
            && o.ends <= 1
            && (o.ends == 1 <==> sid !in Run(cfg, EMPTY, es).store)
  {
    RunKeeps(cfg, EMPTY, es);
  }

  lemma DestroyLeavesEnded(s: State, n: nat, sid: SessionId, ender: Ender, x: SessionId)
    requires sid in s.sessions && x in s.sessions && x !in s.store
    ensures x in Destroy(s, n, sid, ender).sessions && x !in Destroy(s, n, sid, ender).store
  {
  }

  lemma StepLeavesEnded(cfg: Config, s: State, e: Event, x: SessionId)
    requires Enabled(cfg, s, e) && x in s.sessions && x !in s.store
    ensures x in Apply(cfg, s, e).sessions && x !in Apply(cfg, s, e).store
  {
    if e.EndStarts? {
      var marked := if e.ender == ByReaper then s.Put(e.sid, s.sessions[e.sid].(status := Done)) else s;
      DestroyLeavesEnded(marked, e.n, e.sid, e.ender, x);
    } else if e.DriveStops? {
      DestroyLeavesEnded(s, e.n, s.tasks[End(e.n)].sid, s.tasks[End(e.n)].ender, x);
    } else {
      OthersLeaveEnded(cfg, s, e, x);
    }
  }

  lemma OthersLeaveEnded(cfg: Config, s: State, e: Event, x: SessionId)
    requires Enabled(cfg, s, e) && x in s.sessions && x !in s.store && !e.EndStarts? && !e.DriveStops?
    ensures x in Apply(cfg, s, e).sessions && x !in Apply(cfg, s, e).store
  {
  }

  lemma {:induction false} SessionsStay(cfg: Config, s: State, es: seq<Event>, sid: SessionId)
    requires Feasible(cfg, s, es) && sid in s.sessions && sid !in s.store
    ensures sid in Run(cfg, s, es).sessions && sid !in Run(cfg, s, es).store
    decreases es
  {
    if es != [] {
      StepLeavesEnded(cfg, s, es[0], sid);
      SessionsStay(cfg, Apply(cfg, s, es[0]), es[1..], sid);
    }
  }

  /** Whether this step lets `end_session` (or the reaper's round) on a session finish without raising. */
  predicate EndReturns(cfg: Config, s: State, e: Event, n: nat, sid: SessionId)
    requires Enabled(cfg, s, e)
  {
    && End(n) !in Apply(cfg, s, e).tasks
    && match e
       case EndStarts(m, x, _, _) => m == n && x == sid
       case DriveStops(m) => m == n && s.tasks[End(m)].sid == sid
       case ResetDone(m, _) => m == n && s.tasks[End(m)].sid == sid
       case DeleteDone(m, raised) =>
         m == n && s.tasks[End(m)].sid == sid && !(raised && s.tasks[End(m)].ender == ByRequest)
       case _ => false
  }

  /** Once one of DELETE, beacon and reaper has returned, the session is out of the store for good. */
  lemma EndedForGood(cfg: Config, s: State, e: Event, n: nat, sid: SessionId, es: seq<Event>)
    requires Safe(s) && Enabled(cfg, s, e) && EndReturns(cfg, s, e, n, sid)
    requires Feasible(cfg, Apply(cfg, s, e), es)
    ensures sid !in Run(cfg, Apply(cfg, s, e), es).store
  {
    SessionsStay(cfg, Apply(cfg, s, e), es, sid);
  }

  // ---- Sizes ----

  lemma StepBoundsStore(cfg: Config, s: State, e: Event)
    requires |s.store| <= cfg.maxSessions && Enabled(cfg, s, e)
    ensures |Apply(cfg, s, e).store| <= cfg.maxSessions
  {
    var t := Apply(cfg, s, e);
    assert t.store == s.store || (exists sid :: t.store == s.store - {sid}) || e.CreateSession?;
  }

  /** Counting and inserting without suspending keeps the store within its limit. */
  lemma {:induction false} SessionsBounded(cfg: Config, s: State, es: seq<Event>)
    requires |s.store| <= cfg.maxSessions && Feasible(cfg, s, es)
    ensures |Run(cfg, s, es).store| <= cfg.maxSessions
    decreases es
  {
    if es != [] {
      StepBoundsStore(cfg, s, es[0]);
      SessionsBounded(cfg, Apply(cfg, s, es[0]), es[1..]);
    }
  }

  /** At most `w` calls of `warm` are ever under way at once. */
  predicate WarmersAtMost(cfg: Config, s: State, es: seq<Event>, w: nat)
    requires Feasible(cfg, s, es)
    decreases es
  {
    |s.Warmers()| <= w && (es == [] || WarmersAtMost(cfg, Apply(cfg, s, es[0]), es[1..], w))
  }

  /** A step of `warm` aside, a step touches the entry of one `create` or one `end_session`. */
  function Subject(e: Event): TaskId
    requires !e.WarmStarts? && !e.WarmSpawnReturns?
  {
    if e.EndStarts? || e.DriveStops? || e.ResetDone? || e.DeleteDone? then End(e.n) else Init(e.sid)
  }

  lemma EndTouchesOne(s: State, n: nat, sid: SessionId, ender: Ender, driving: bool, id: TaskId)
    requires sid in s.sessions && id != End(n)
    ensures id in EndBegins(s, n, sid, ender, driving).tasks <==> id in s.tasks
    ensures id in s.tasks ==> EndBegins(s, n, sid, ender, driving).tasks[id] == s.tasks[id]
  {
  }

  lemma StepTouchesOne(cfg: Config, s: State, e: Event, id: TaskId)
    requires Enabled(cfg, s, e) && !e.WarmStarts? && !e.WarmSpawnReturns? && id != Subject(e)
    ensures id in Apply(cfg, s, e).tasks <==> id in s.tasks
    ensures id in s.tasks ==> Apply(cfg, s, e).tasks[id] == s.tasks[id]
  {
    if e.EndStarts? {
      EndTouchesOne(s, e.n, e.sid, e.ender, e.driving, id);
    }
  }

  lemma OthersLeaveWarmers(cfg: Config, s: State, e: Event)
    requires Safe(s) && Enabled(cfg, s, e) && !e.WarmStarts? && !e.WarmSpawnReturns?
    ensures Apply(cfg, s, e).Warmers() == s.Warmers()
  {
    hide Apply, Enabled, Located, Conserved, Distinct, Bound, SessionOk;
    var t := Apply(cfg, s, e);
    StepKeeps(cfg, s, e);
    forall id
      ensures id in t.Warmers() <==> id in s.Warmers()
    {
      if id == Subject(e) {
        assert id in s.tasks ==> TaskOk(s, id, s.tasks[id]);
        assert id in t.tasks ==> TaskOk(t, id, t.tasks[id]);
      } else {
        StepTouchesOne(cfg, s, e, id);
      }
    }
  }

  lemma OthersBoundIdle(cfg: Config, s: State, e: Event)
    requires Enabled(cfg, s, e) && !e.WarmStarts? && !e.WarmSpawnReturns?
    ensures |Apply(cfg, s, e).idle| <= |s.idle| || |Apply(cfg, s, e).idle| <= cfg.maxIdle
  {
  }

  lemma WarmRoundBounds(cfg: Config, s: State, n: nat, w: nat)
    requires cfg.poolSize <= cfg.maxIdle && |WarmRound(cfg, s, n).Warmers()| <= w
    requires |s.idle| + |s.Finish(Warm(n)).Warmers()| <= cfg.maxIdle + w
    ensures var t := WarmRound(cfg, s, n); |t.idle| + |t.Warmers()| <= cfg.maxIdle + w
  {
  }

  lemma StepBoundsIdle(cfg: Config, s: State, e: Event, w: nat)
    requires cfg.poolSize <= cfg.maxIdle && Safe(s) && Enabled(cfg, s, e)
    requires |s.idle| + |s.Warmers()| <= cfg.maxIdle + w
    requires |Apply(cfg, s, e).Warmers()| <= w
    ensures |Apply(cfg, s, e).idle| + |Apply(cfg, s, e).Warmers()| <= cfg.maxIdle + w
  {
    if e.WarmStarts? || e.WarmSpawnReturns? {
      assert s.Finish(Warm(e.n)).Warmers() == s.Warmers() - {Warm(e.n)};
      if e.WarmStarts? {
        WarmRoundBounds(cfg, s, e.n, w);
      } else if e.spawned.Some? {
        var grown := AddIdle(s, e.spawned.value);
        assert grown.Finish(Warm(e.n)).Warmers() == s.Warmers() - {Warm(e.n)};
        WarmRoundBounds(cfg, grown, e.n, w);
      }
    } else {
      OthersLeaveWarmers(cfg, s, e);
      OthersBoundIdle(cfg, s, e);
    }
  }

  lemma {:induction false} IdleBounded(cfg: Config, s: State, es: seq<Event>, w: nat)
    requires cfg.poolSize <= cfg.maxIdle && Safe(s) && Feasible(cfg, s, es) && WarmersAtMost(cfg, s, es, w)
    requires |s.idle| + |s.Warmers()| <= cfg.maxIdle + w
    ensures var t := Run(cfg, s, es); |t.idle| + |t.Warmers()| <= cfg.maxIdle + w
    decreases es
  {
    if es != [] {
      StepKeeps(cfg, s, es[0]);
      StepBoundsIdle(cfg, s, es[0], w);
      IdleBounded(cfg, Apply(cfg, s, es[0]), es[1..], w);
    }
  }

  // ---- When `max_idle` itself holds ----

  /** A spawn of `warm` returns onto an idle list that has reached its limit meanwhile. */
  predicate Overfills(cfg: Config, s: State, e: Event) {
    e.WarmSpawnReturns? && e.spawned.Some? && |s.idle| >= cfg.maxIdle
  }

  lemma StepWithinMaxIdle(cfg: Config, s: State, e: Event)
    requires Enabled(cfg, s, e) && |s.idle| <= cfg.maxIdle
    ensures |Apply(cfg, s, e).idle| <= cfg.maxIdle <==> !Overfills(cfg, s, e)
  {
    if !e.WarmStarts? && !e.WarmSpawnReturns? {
      OthersBoundIdle(cfg, s, e);
    }
  }

  ghost predicate AlwaysWithinMaxIdle(cfg: Config, s: State, es: seq<Event>)
    requires Feasible(cfg, s, es)
    decreases es
  {
    |s.idle| <= cfg.maxIdle && (es != [] ==> AlwaysWithinMaxIdle(cfg, Apply(cfg, s, es[0]), es[1..]))
  }

  predicate NeverOverfills(cfg: Config, s: State, es: seq<Event>)
    requires Feasible(cfg, s, es)
    decreases es
  {
    es != [] ==> !Overfills(cfg, s, es[0]) && NeverOverfills(cfg, Apply(cfg, s, es[0]), es[1..])
  }

  /** The idle list stays within `max_idle` in a run if and only if no `warm` spawn returns onto a full list. */
  lemma {:induction false} MaxIdleExactly(cfg: Config, s: State, es: seq<Event>)
    requires |s.idle| <= cfg.maxIdle && Feasible(cfg, s, es)
    ensures AlwaysWithinMaxIdle(cfg, s, es) <==> NeverOverfills(cfg, s, es)
    decreases es
  {
    hide Apply, Enabled, Overfills;
    if es != [] {
      StepWithinMaxIdle(cfg, s, es[0]);
      if !Overfills(cfg, s, es[0]) {
        MaxIdleExactly(cfg, Apply(cfg, s, es[0]), es[1..]);
      }
    }
  }
}
