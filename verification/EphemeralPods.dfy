/** The mode without a pool: one session, the pod made for it, and every teardown that may meet its create. */
module EphemeralPods {
  import opened Common

  /** Where `_create_ephemeral` is suspended. */
  datatype Create = Scheduled | AwaitPod | AwaitReady | AwaitProvision | AwaitCleanup | Over

  datatype Teardown = AwaitDrive | AwaitDelete

  /** `bound` says that the session's token resolves, `cut` that its failing create asked for the pod's deletion;
      `released` counts the pods that destroys took by name, `ends` the times `store.end` found the session. */
  datatype State = State(
    status: Status, inStore: bool, bound: bool, podName: Option<PodName>, cut: bool, create: Create,
    teardowns: map<nat, (Teardown, bool)>, released: nat, ends: nat)

  const CREATED := State(Starting, true, false, None, false, Scheduled, map[], 0, 0)

  /** `byReaper` tells the idle reaper's round from DELETE and the beacon. */
  datatype Event =
    | CreateRuns
    | PodReturns(name: Option<PodName>)
    | ReadyReturns(ok: bool)
    | ProvisionReturns(ok: bool)
    | CleanupReturns
    | EndStarts(n: nat, byReaper: bool, driving: bool)
    | DriveStops(n: nat)
    | DeleteReturns(n: nat, raised: bool)

  predicate Enabled(s: State, e: Event) {
    match e
    case CreateRuns => s.create == Scheduled
    case PodReturns(_) => s.create == AwaitPod
    case ReadyReturns(_) => s.create == AwaitReady
    case ProvisionReturns(_) => s.create == AwaitProvision
    case CleanupReturns => s.create == AwaitCleanup
    case EndStarts(n, byReaper, _) => n !in s.teardowns && (byReaper ==> s.status != Done && s.status != Error)
    case DriveStops(n) => n in s.teardowns && s.teardowns[n].0 == AwaitDrive
    case DeleteReturns(n, _) => n in s.teardowns && s.teardowns[n].0 == AwaitDelete
  }

  function FailCreate(s: State): State {
    s.(status := Error, create := Over)
  }

  /** Waiting for the pod or provisioning failed: the token is revoked and the pod deleted, but its name stays. */
  function CleanUp(s: State): State {
    s.(bound := false, cut := true, create := AwaitCleanup)
  }

  function StoreEnd(s: State, n: nat): State {
    var t := s.(teardowns := s.teardowns - {n});
    if s.inStore then t.(inStore := false, status := Done, ends := s.ends + 1) else t
  }

  /** `_destroy_ephemeral`: the name is taken before the deletion is awaited. */
  function Destroy(s: State, n: nat, byReaper: bool): State {
    var t := s.(bound := false, podName := None);
    if s.podName.Some?
    then t.(released := s.released + 1, teardowns := s.teardowns[n := (AwaitDelete, byReaper)])
    else StoreEnd(t, n)
  }

  function Apply(s: State, e: Event): State
    requires Enabled(s, e)
  {
    match e
    case CreateRuns => s.(bound := true, create := AwaitPod)
    case PodReturns(name) =>
      if name.Some? then s.(podName := name, create := AwaitReady) else FailCreate(s)
    case ReadyReturns(ok) => if ok then s.(create := AwaitProvision) else CleanUp(s)
    case ProvisionReturns(ok) => if ok then s.(status := Ready, create := Over) else CleanUp(s)
    case CleanupReturns => FailCreate(s)
    case EndStarts(n, byReaper, driving) =>
      if !byReaper && !s.inStore then s
      else
        var marked := if byReaper then s.(status := Done) else s;
        if driving then marked.(teardowns := s.teardowns[n := (AwaitDrive, byReaper)]) else Destroy(marked, n, byReaper)
    case DriveStops(n) => Destroy(s, n, s.teardowns[n].1)
    case DeleteReturns(n, raised) =>
      if raised && !s.teardowns[n].1 then s.(teardowns := s.teardowns - {n}) else StoreEnd(s, n)
  }

  predicate Feasible(s: State, es: seq<Event>)
    decreases es
  {
    es == [] || (Enabled(s, es[0]) && Feasible(Apply(s, es[0]), es[1..]))
  }

  function Run(s: State, es: seq<Event>): State
    requires Feasible(s, es)
    decreases es
  {
    if es == [] then s else Run(Apply(s, es[0]), es[1..])
  }

  // ---- The invariant ----

  /** The pod is still to come, is recorded, or was taken, at most one of these; a teardown that awaits a deletion has
      taken it. */
  ghost predicate Safe(s: State) {
    && s.released + (if s.podName.Some? then 1 else 0) + (if s.create in {Scheduled, AwaitPod} then 1 else 0) <= 1
    && s.ends + (if s.inStore then 1 else 0) == 1
    && (forall n | n in s.teardowns && s.teardowns[n].0 == AwaitDelete :: s.released == 1)
    && (s.create in {Scheduled, AwaitPod} ==> !s.cut)
  }

  lemma StoreEndKeeps(s: State, n: nat)
    requires Safe(s)
    ensures Safe(StoreEnd(s, n))
  {
  }

  lemma DestroyKeeps(s: State, n: nat, byReaper: bool)
    requires Safe(s)
    ensures Safe(Destroy(s, n, byReaper))
  {
    hide StoreEnd;
    StoreEndKeeps(s.(bound := false, podName := None), n);
  }

  lemma StepKeeps(s: State, e: Event)
    requires Safe(s) && Enabled(s, e)
    ensures Safe(Apply(s, e))
  {
    hide Destroy, StoreEnd;
    match e {
      case EndStarts(n, byReaper, _) => DestroyKeeps(if byReaper then s.(status := Done) else s, n, byReaper);
      case DriveStops(n) => DestroyKeeps(s, n, s.teardowns[n].1);
      case DeleteReturns(n, _) => StoreEndKeeps(s, n);
      case _ =>
    }
  }

  lemma {:induction false} RunKeeps(s: State, es: seq<Event>)
    requires Safe(s) && Feasible(s, es)
    ensures Safe(Run(s, es))
    decreases es
  {
    if es != [] {
      StepKeeps(s, es[0]);
      RunKeeps(Apply(s, es[0]), es[1..]);
    }
  }

  /** Under every interleaving the destroys together take the pod by its name at most once, and `store.end` finds the
      session at most once. */
  lemma SingleRelease(es: seq<Event>)
    requires Feasible(CREATED, es)
    ensures Run(CREATED, es).released <= 1 && Run(CREATED, es).ends <= 1
    ensures Run(CREATED, es).ends == 1 <==> !Run(CREATED, es).inStore
  {
    RunKeeps(CREATED, es);
  }

  /** A teardown that returned without raising has left the session out of the store. */
  lemma ReturnedMeansEnded(s: State, e: Event, n: nat)
    requires Enabled(s, e) && n !in Apply(s, e).teardowns
    requires (e.EndStarts? && e.n == n) || e == DriveStops(n)
             || (e.DeleteReturns? && e.n == n && (!e.raised || s.teardowns[n].1))
    ensures !Apply(s, e).inStore
  {
  }

  /** And once out it stays out. */
  lemma {:induction false} EndedForGood(s: State, es: seq<Event>)
    requires !s.inStore && Feasible(s, es)
    ensures !Run(s, es).inStore
    decreases es
  {
    if es != [] {
      EndedForGood(Apply(s, es[0]), es[1..]);
    }
  }

  // ---- One step, variable by variable ----

  /** A destroy begins on this step. */
  predicate Destroys(s: State, e: Event) {
    e.DriveStops? || (e.EndStarts? && !e.driving && (e.byReaper || s.inStore))
  }

  /** `store.end` is reached: nothing to delete, or the deletion is over and did not raise towards a request. */
  predicate Ends(s: State, e: Event) {
    || (Destroys(s, e) && s.podName == None)
    || (e.DeleteReturns? && e.n in s.teardowns && (e.raised ==> s.teardowns[e.n].1))
  }

  /** Ready exactly by a provisioning that succeeded; in error by a create whose pod was not made, or after the
      clean-up of one that failed; done by the reaper's mark or by leaving the store. */
  lemma StepStatus(s: State, e: Event)
    requires Enabled(s, e)
    ensures Apply(s, e).inStore <==> s.inStore && !Ends(s, e)
    ensures Apply(s, e).status ==
            if e == ProvisionReturns(true) then Ready
            else if e == PodReturns(None) || e == CleanupReturns then Error
            else if (Ends(s, e) && s.inStore) || (e.EndStarts? && e.byReaper) then Done
            else s.status
  {
  }

  /** The token resolves from the start of the create until that fails or a destroy begins; the pod's name is recorded
      until a destroy; a failing create, and a destroy that finds a name, await the pod's deletion. */
  lemma StepToken(s: State, e: Event)
    requires Enabled(s, e)
    ensures Apply(s, e).bound <==>
              || e == CreateRuns
              || (s.bound && !Destroys(s, e) && e != ReadyReturns(false) && e != ProvisionReturns(false))
    ensures Apply(s, e).podName ==
            if e.PodReturns? && e.name.Some? then e.name else if Destroys(s, e) then None else s.podName
    ensures Apply(s, e).cut <==> s.cut || e == ReadyReturns(false) || e == ProvisionReturns(false)
    ensures e == ReadyReturns(false) || e == ProvisionReturns(false) ==> Apply(s, e).create == AwaitCleanup
    ensures Destroys(s, e) && s.podName.Some? ==>
              e.n in Apply(s, e).teardowns && Apply(s, e).teardowns[e.n].0 == AwaitDelete
  {
  }

  // ---- Pods left behind ----

  /** The session is out of the store, a pod is still on its record, and nobody has asked for the pod's deletion. */
  predicate Stranded(s: State) {
    !s.inStore && s.podName.Some? && !s.cut
  }

  /** The pod API answers a create whose session is over. */
  predicate NamedLate(s: State, e: Event) {
    !s.inStore && e.PodReturns? && e.name.Some?
  }

  /** The create fails after the pod was made, or a teardown that does not ask the store anew gets to its destroy. */
  predicate Frees(s: State, e: Event) {
    || (e.ReadyReturns? && !e.ok) || (e.ProvisionReturns? && !e.ok)
    || e.DriveStops? || (e.EndStarts? && !e.driving && (e.byReaper || s.inStore))
  }

  lemma StepStrands(s: State, e: Event)
    requires Safe(s) && Enabled(s, e)
    ensures Stranded(Apply(s, e)) <==> (Stranded(s) && !Frees(s, e)) || NamedLate(s, e)
  {
  }

  predicate NeverFreed(s: State, es: seq<Event>)
    requires Feasible(s, es)
    decreases es
  {
    es != [] ==> !Frees(s, es[0]) && NeverFreed(Apply(s, es[0]), es[1..])
  }

  predicate NamedLateAndKept(s: State, es: seq<Event>)
    requires Feasible(s, es)
    decreases es
  {
    es != [] &&
    var s' := Apply(s, es[0]);
    NamedLateAndKept(s', es[1..]) || (NamedLate(s, es[0]) && NeverFreed(s', es[1..]))
  }

  lemma {:induction false} RunStrands(s: State, es: seq<Event>)
    requires Safe(s) && Feasible(s, es)
    ensures Stranded(Run(s, es)) <==> NamedLateAndKept(s, es) || (Stranded(s) && NeverFreed(s, es))
    decreases es
  {
    hide Safe, Stranded, Frees, NamedLate, Apply, Enabled;
    if es != [] {
      StepKeeps(s, es[0]);
      StepStrands(s, es[0]);
      RunStrands(Apply(s, es[0]), es[1..]);
    }
  }

  /** An ended session keeps a pod nobody asked to delete if and only if the pod was made after the end, and since then
      the create has not failed and no teardown took it. */
  lemma StrandedExactly(es: seq<Event>)
    requires Feasible(CREATED, es)
    ensures Stranded(Run(CREATED, es)) <==> NamedLateAndKept(CREATED, es)
  {
    RunStrands(CREATED, es);
  }

  /** The run: the session is ended while its pod is being made, and the create then succeeds. */
  lemma SomePodIsStranded(name: PodName) returns (es: seq<Event>)
    ensures Feasible(CREATED, es)
    ensures var s := Run(CREATED, es);
            && Stranded(s) && s.podName == Some(name) && s.status == Ready && s.create == Over && s.teardowns == map[]
            && forall n, driving :: n !in s.teardowns ==> Apply(s, EndStarts(n, false, driving)) == s
  {
    var late := [ReadyReturns(true), ProvisionReturns(true)];
    var s1 := Apply(CREATED, CreateRuns);
    var s2 := Apply(s1, EndStarts(0, false, false));
    var s3 := Apply(s2, PodReturns(Some(name)));
    var s4 := Apply(s3, ReadyReturns(true));
    Steps(s4, [ProvisionReturns(true)]);
    assert late[1..] == [ProvisionReturns(true)];
    Steps(s3, late);
    Steps(s2, [PodReturns(Some(name))] + late);
    Steps(s1, [EndStarts(0, false, false), PodReturns(Some(name))] + late);
    es := [CreateRuns, EndStarts(0, false, false), PodReturns(Some(name))] + late;
    Steps(CREATED, es);
  }

  lemma Steps(s: State, es: seq<Event>)
    requires es != [] && Enabled(s, es[0]) && Feasible(Apply(s, es[0]), es[1..])
    ensures Feasible(s, es) && Run(s, es) == Run(Apply(s, es[0]), es[1..])
  {
  }
}
