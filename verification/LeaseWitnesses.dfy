/** What a run can reach, and a run in which overlapping create and destroy unbinds a held token. */
module LeaseWitnesses {
  import opened Common
  import opened TokenRegistries
  import opened PodPool
  import opened ControlPlane
  import opened LeaseTheorems

  lemma {:induction false} Extend(cfg: Config, s: State, es: seq<Event>, e: Event)
    requires Feasible(cfg, s, es) && Enabled(cfg, Run(cfg, s, es), e)
    ensures Feasible(cfg, s, es + [e]) && Run(cfg, s, es + [e]) == Apply(cfg, Run(cfg, s, es), e)
    decreases es
  {
    if es == [] {
      assert [e][1..] == [];
    } else {
      assert (es + [e])[1..] == es[1..] + [e];
      Extend(cfg, Apply(cfg, s, es[0]), es[1..], e);
    }
  }

  lemma {:induction false} ExtendWarmers(cfg: Config, s: State, es: seq<Event>, e: Event, w: nat)
    requires Feasible(cfg, s, es) && Feasible(cfg, s, es + [e])
    requires WarmersAtMost(cfg, s, es, w) && |Run(cfg, s, es + [e]).Warmers()| <= w
    ensures WarmersAtMost(cfg, s, es + [e], w)
    decreases es
  {
    if es == [] {
      assert [e][1..] == [];
    } else {
      assert (es + [e])[1..] == es[1..] + [e];
      ExtendWarmers(cfg, Apply(cfg, s, es[0]), es[1..], e, w);
    }
  }

  /** Some run from the empty state reaches `s`, with never more than `w` calls of `warm` under way. */
  ghost predicate Reaches(cfg: Config, s: State, w: nat) {
    exists es :: Feasible(cfg, EMPTY, es) && WarmersAtMost(cfg, EMPTY, es, w) && Run(cfg, EMPTY, es) == s
  }

  lemma ReachEmpty(cfg: Config, w: nat)
    ensures Reaches(cfg, EMPTY, w)
  {
    assert EMPTY.Warmers() == {};
    assert Feasible(cfg, EMPTY, []) && WarmersAtMost(cfg, EMPTY, [], w) && Run(cfg, EMPTY, []) == EMPTY;
  }

  lemma ReachNext(cfg: Config, s: State, e: Event, t: State, w: nat)
    requires Reaches(cfg, s, w) && Enabled(cfg, s, e) && Apply(cfg, s, e) == t && |t.Warmers()| <= w
    ensures Reaches(cfg, t, w)
  {
    var es :| Feasible(cfg, EMPTY, es) && WarmersAtMost(cfg, EMPTY, es, w) && Run(cfg, EMPTY, es) == s;
    Extend(cfg, EMPTY, es, e);
    ExtendWarmers(cfg, EMPTY, es, e, w);
  }

  const NO_TOKENS := Registry(map[], map[])

  function Holder(user: User, status: Status, lease: PodLease): Session {
    Session(user, status, Some(lease), Some(lease.name), Some(lease.llmToken), 0, 0)
  }

  /** The state once session a has spawned `pod` and is provisioning it. */
  function Provisioned(a: SessionId, u: User, pod: PodLease): State {
    State(map[a := Holder(u, Starting, pod)], {a}, [], NO_TOKENS.Bind(pod.llmToken, a, u),
          map[Init(a) := Provisioning(pod)], {}, map[pod := HeldBy(a)])
  }

  lemma ReachProvisioned(cfg: Config, a: SessionId, u: User, pod: PodLease)
    requires cfg.maxSessions >= 1
    ensures Reaches(cfg, Provisioned(a, u, pod), 1)
  {
    hide Reaches, Feasible, Run, WarmersAtMost;
    var young := Session(u, Starting, None, None, None, 0, 0);
    var s1 := EMPTY.(sessions := map[a := young], store := {a}, tasks := map[Init(a) := Created]);
    var s2 := s1.(tasks := map[Init(a) := Spawning]);
    ReachEmpty(cfg, 1);
    assert Reaches(cfg, s1, 1) by {
      assert s1.Warmers() == {};
      ReachNext(cfg, EMPTY, CreateSession(a, u), s1, 1);
    }
    assert Reaches(cfg, s2, 1) by {
      assert s2.Warmers() == {};
      ReachNext(cfg, s1, InitRuns(a, Pick(false, false)), s2, 1);
    }
    assert Reaches(cfg, Provisioned(a, u, pod), 1) by {
      assert Provisioned(a, u, pod).Warmers() == {};
      ReachNext(cfg, s2, SpawnReturns(a, Some(pod)), Provisioned(a, u, pod), 1);
    }
  }

  /** Session a was ended while its create provisions; its pod is idle again. */
  function EndedEarly(a: SessionId, u: User, pod: PodLease): State {
    Provisioned(a, u, pod).(
      sessions := map[a := Session(u, Done, None, None, None, 1, 1)], store := {}, idle := [pod],
      registry := NO_TOKENS, places := map[pod := IdleAt(0)])
  }

  function ResetEarly(a: SessionId, u: User, pod: PodLease): State {
    Provisioned(a, u, pod).(
      sessions := map[a := Session(u, Starting, None, None, None, 1, 0)], registry := NO_TOKENS,
      tasks := map[Init(a) := Provisioning(pod), End(0) := Resetting(a, pod, ByRequest)],
      places := map[pod := InTask(End(0))])
  }

  lemma ReachResetEarly(cfg: Config, a: SessionId, u: User, pod: PodLease)
    requires cfg.maxSessions >= 1 && cfg.maxIdle >= 1
    ensures Reaches(cfg, ResetEarly(a, u, pod), 1)
  {
    hide Reaches, Feasible, Run, WarmersAtMost;
    ReachProvisioned(cfg, a, u, pod);
    assert ResetEarly(a, u, pod).Warmers() == {};
    ReachNext(cfg, Provisioned(a, u, pod), EndStarts(0, a, ByRequest, false), ResetEarly(a, u, pod), 1);
  }

  lemma ReachEndedEarly(cfg: Config, a: SessionId, u: User, pod: PodLease)
    requires cfg.maxSessions >= 1 && cfg.maxIdle >= 1
    ensures Reaches(cfg, EndedEarly(a, u, pod), 1)
  {
    hide Reaches, Feasible, Run, WarmersAtMost;
    ReachResetEarly(cfg, a, u, pod);
    assert EndedEarly(a, u, pod).Warmers() == {};
    ReachNext(cfg, ResetEarly(a, u, pod), ResetDone(0, true), EndedEarly(a, u, pod), 1);
  }

  /** Session b has acquired the pod that the create of a still provisions. */
  function Overlapped(a: SessionId, b: SessionId, u: User, v: User, pod: PodLease): State {
    EndedEarly(a, u, pod).(
      sessions := EndedEarly(a, u, pod).sessions[b := Holder(v, Starting, pod)], store := {b}, idle := [],
      registry := NO_TOKENS.Bind(pod.llmToken, b, v),
      tasks := map[Init(a) := Provisioning(pod), Init(b) := Provisioning(pod)], places := map[pod := HeldBy(b)])
  }

  function SecondProbes(a: SessionId, b: SessionId, u: User, v: User, pod: PodLease): State {
    EndedEarly(a, u, pod).(
      sessions := EndedEarly(a, u, pod).sessions[b := Session(v, Starting, None, None, None, 0, 0)], store := {b},
      idle := [], tasks := map[Init(a) := Provisioning(pod), Init(b) := Probing(pod)],
      places := map[pod := InTask(Init(b))])
  }

  lemma ReachSecondProbes(cfg: Config, a: SessionId, b: SessionId, u: User, v: User, pod: PodLease)
    requires cfg.maxSessions >= 1 && cfg.maxIdle >= 1
    requires a != b
    ensures Reaches(cfg, SecondProbes(a, b, u, v, pod), 1)
  {
    hide Reaches, Feasible, Run, WarmersAtMost;
    var s3 := EndedEarly(a, u, pod).(
      sessions := EndedEarly(a, u, pod).sessions[b := Session(v, Starting, None, None, None, 0, 0)], store := {b},
      tasks := map[Init(a) := Provisioning(pod), Init(b) := Created]);
    ReachEndedEarly(cfg, a, u, pod);
    assert Reaches(cfg, s3, 1) by {
      assert s3.Warmers() == {};
      ReachNext(cfg, EndedEarly(a, u, pod), CreateSession(b, v), s3, 1);
    }
    assert SecondProbes(a, b, u, v, pod).Warmers() == {};
    ReachNext(cfg, s3, InitRuns(b, Pick(false, false)), SecondProbes(a, b, u, v, pod), 1);
  }

  lemma ReachOverlapped(cfg: Config, a: SessionId, b: SessionId, u: User, v: User, pod: PodLease)
    requires cfg.maxSessions >= 1 && cfg.maxIdle >= 1
    requires a != b
    ensures Reaches(cfg, Overlapped(a, b, u, v, pod), 1)
  {
    hide Reaches, Feasible, Run, WarmersAtMost;
    ReachSecondProbes(cfg, a, b, u, v, pod);
    assert Overlapped(a, b, u, v, pod).Warmers() == {};
    ReachNext(cfg, SecondProbes(a, b, u, v, pod), ProbeReturns(b, true), Overlapped(a, b, u, v, pod), 1);
  }

  /** The create of a, failing late, unbinds and deletes the pod that b by now holds. */
  lemma OverlapUnbindsAHeldLease(cfg: Config, a: SessionId, b: SessionId, u: User, v: User,
                                 pod: PodLease) returns (s: State)
    requires cfg.maxSessions >= 1 && cfg.maxIdle >= 1
    requires a != b
    ensures Reaches(cfg, s, 1)
    ensures b in s.store && b in s.sessions && s.sessions[b].podLease == Some(pod)
    ensures pod.llmToken !in s.registry.bySession && pod.name in s.deleted
  {
    ReachOverlapped(cfg, a, b, u, v, pod);
    s := ProvisionFails(Overlapped(a, b, u, v, pod), a, pod);
    assert s.Warmers() == {};
    ReachNext(cfg, Overlapped(a, b, u, v, pod), ProvisionReturns(a, false), s, 1);
  }
}
