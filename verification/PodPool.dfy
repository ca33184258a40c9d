/** The allocator of warm pods, run one call at a time. ControlPlane.dfy treats its interleavings. */
module PodPool {
  import opened Common

  datatype PodLease = PodLease(name: PodName, ip: string, workerToken: Token, llmToken: Token, createdAt: real)

  /** What the outside answers while one `acquire` runs; clock readings are numbered in program order. */
  datatype Outside = Outside(
    loopTime: nat -> real,
    monotonic: nat -> real,
    alive: PodLease -> bool,
    deleteFails: PodLease -> bool,
    spawned: Option<PodLease>)

  datatype Acquired =
    | Reused(lease: PodLease)
    | Fresh(lease: PodLease)
    | TimedOut
    | DeleteFailed
    | SpawnFailed

  function Names(leases: seq<PodLease>): seq<PodName> {
    seq(|leases|, i requires 0 <= i < |leases| => leases[i].name)
  }

  /** The names of a stack of leases in the order they are popped. */
  function PopOrder(leases: seq<PodLease>): (names: seq<PodName>)
    ensures |names| == |leases|
  {
    seq(|leases|, i requires 0 <= i < |leases| => leases[|leases| - 1 - i].name)
  }

  /** Popping one lease more adds its name at the end. */
  lemma PopOneMore(stack: seq<PodLease>, n: nat)
    requires n < |stack|
    ensures PopOrder(stack[n..]) == PopOrder(stack[n + 1..]) + [stack[n].name]
  {
    assert |PopOrder(stack[n..])| == |PopOrder(stack[n + 1..])| + 1;
  }

  class PodPoolManager {
    const poolSize: nat
    const maxIdle: nat
    const sessionMaxLifetime: real
    const minLeaseLifetime: real
    var idle: seq<PodLease>
    /** Every call made to `delete_pod`, in order. */
    var deleteCalls: seq<PodName>

    constructor (poolSize: nat, maxIdle: nat, sessionMaxLifetime: real, minLeaseLifetime: real)
      ensures idle == [] && deleteCalls == []
      ensures this.poolSize == poolSize && this.poolSize <= this.maxIdle
      ensures this.maxIdle == poolSize || this.maxIdle == maxIdle
      ensures maxIdle <= this.maxIdle
      ensures this.sessionMaxLifetime == sessionMaxLifetime && this.minLeaseLifetime == minLeaseLifetime
    {
      this.poolSize := poolSize;
      this.maxIdle := if maxIdle < poolSize then poolSize else maxIdle;
      this.sessionMaxLifetime := sessionMaxLifetime;
      this.minLeaseLifetime := minLeaseLifetime;
      idle, deleteCalls := [], [];
    }

    function Remaining(lease: PodLease, now: real): real {
      sessionMaxLifetime - (now - lease.createdAt)
    }

    predicate ShortLived(outside: Outside, lease: PodLease, k: nat) {
      Remaining(lease, outside.monotonic(k)) < minLeaseLifetime
    }

    /** Whether `lease`, examined at clock reading `k`, may be handed to a session. */
    predicate Fit(outside: Outside, lease: PodLease, k: nat) {
      !ShortLived(outside, lease, k) && outside.alive(lease)
    }

    /** The lease at index i of the stack, examined in its turn, was unfit, and dropping it raised nothing. */
    ghost predicate Dropped(outside: Outside, stack: seq<PodLease>, i: nat)
      requires i < |stack|
    {
      && !Fit(outside, stack[i], |stack| - i)
      && !(ShortLived(outside, stack[i], |stack| - i) && outside.deleteFails(stack[i]))
    }

    /** Fit is a lease whose pod answers and whose session, started now, has the least lifetime before the pod's end.
        */
    lemma FitExactly(outside: Outside, lease: PodLease, k: nat)
      ensures Fit(outside, lease, k) <==>
                && outside.alive(lease)
                && outside.monotonic(k) + minLeaseLifetime <= lease.createdAt + sessionMaxLifetime
    {
    }

    /** Dropped is one that does not answer or is too old; the deletion raised nothing, unless it was a dead one's. */
    lemma DroppedExactly(outside: Outside, stack: seq<PodLease>, i: nat)
      requires i < |stack|
      ensures var l := stack[i];
              var tooOld := outside.monotonic(|stack| - i) + minLeaseLifetime > l.createdAt + sessionMaxLifetime;
              Dropped(outside, stack, i) <==> (tooOld && !outside.deleteFails(l)) || (!tooOld && !outside.alive(l))
    {
    }

    /** Pops until a lease is fit. The lease at index i is examined at reading |old idle| - i. */
    method Acquire(outside: Outside, timeout: real) returns (r: Acquired)
      modifies this
      ensures |idle| <= |old(idle)| && idle == old(idle)[..|idle|]
      ensures r.Reused? ==> |idle| < |old(idle)| && r.lease == old(idle)[|idle|]
      ensures r.Reused? ==> Fit(outside, r.lease, |old(idle)| - |idle|)
      ensures r.Reused? ==>
                && outside.alive(r.lease)
                && outside.monotonic(|old(idle)| - |idle|) + minLeaseLifetime <= r.lease.createdAt + sessionMaxLifetime
      ensures deleteCalls == old(deleteCalls) + PopOrder(old(idle)[if r.Reused? then |idle| + 1 else |idle|..])
      ensures var kept := if r.Reused? || r.DeleteFailed? then |idle| + 1 else |idle|;
              forall i | kept <= i < |old(idle)| :: Dropped(outside, old(idle), i)
      ensures forall k :: 1 <= k <= |old(idle)| - |idle| ==>
                outside.loopTime(k) <= outside.loopTime(0) + timeout
      ensures r.Fresh? ==> idle == [] && outside.spawned == Some(r.lease)
      ensures r.SpawnFailed? ==> idle == [] && outside.spawned.None?
      ensures r.TimedOut? ==>
                idle != [] && outside.loopTime(|old(idle)| - |idle| + 1) > outside.loopTime(0) + timeout
      ensures r.DeleteFailed? ==>
                && |idle| < |old(idle)| && outside.deleteFails(old(idle)[|idle|])
                && ShortLived(outside, old(idle)[|idle|], |old(idle)| - |idle|)
    {
      hide PopOrder;
      var deadline := outside.loopTime(0) + timeout;
      var k := 0;
      while idle != []
        invariant k == |old(idle)| - |idle| && idle == old(idle)[..|idle|]
        invariant deadline == outside.loopTime(0) + timeout
        invariant deleteCalls == old(deleteCalls) + PopOrder(old(idle)[|idle|..])
        invariant forall i :: |idle| <= i < |old(idle)| ==> Dropped(outside, old(idle), i)
        invariant forall j :: 1 <= j <= k ==> outside.loopTime(j) <= deadline
        decreases |idle|
      {
        k := k + 1;
        if outside.loopTime(k) > deadline {
          return TimedOut;
        }
        var lease := idle[|idle| - 1];
        idle := idle[..|idle| - 1];
        PopOneMore(old(idle), |idle|);
        if ShortLived(outside, lease, k) {
          deleteCalls := deleteCalls + [lease.name];
          if outside.deleteFails(lease) {
            return DeleteFailed;
          }
          continue;
        }
        if outside.alive(lease) {
          return Reused(lease);
        }
        deleteCalls := deleteCalls + [lease.name];
      }
      match outside.spawned
      case Some(lease) => r := Fresh(lease);
      case None => r := SpawnFailed;
    }

    /** `spawns(k)` answers the k-th spawn; the first failure ends the call. */
    method Warm(spawns: nat -> Option<PodLease>)
      modifies this
      ensures deleteCalls == old(deleteCalls)
      ensures |old(idle)| <= |idle| && idle[..|old(idle)|] == old(idle)
      ensures forall i :: |old(idle)| <= i < |idle| ==> spawns(i - |old(idle)|) == Some(idle[i])
      ensures |idle| == |old(idle)| || |idle| <= poolSize
      ensures |idle| < poolSize ==> spawns(|idle| - |old(idle)|).None?
    {
      var k := 0;
      while |idle| < poolSize
        invariant k == |idle| - |old(idle)| && deleteCalls == old(deleteCalls)
        invariant |old(idle)| <= |idle| && idle[..|old(idle)|] == old(idle)
        invariant |idle| == |old(idle)| || |idle| <= poolSize
        invariant forall i :: |old(idle)| <= i < |idle| ==> spawns(i - |old(idle)|) == Some(idle[i])
        decreases poolSize - |idle|
      {
        var spawned := spawns(k);
        if spawned.None? {
          return;
        }
        idle, k := idle + [spawned.value], k + 1;
      }
    }

    method Release(lease: PodLease, healthy: bool)
      modifies this
      ensures healthy && |old(idle)| < maxIdle ==>
                idle == old(idle) + [lease] && deleteCalls == old(deleteCalls)
      ensures !(healthy && |old(idle)| < maxIdle) ==>
                idle == old(idle) && deleteCalls == old(deleteCalls) + [lease.name]
    {
      if healthy && |idle| < maxIdle {
        idle := idle + [lease];
        return;
      }
      deleteCalls := deleteCalls + [lease.name];
    }

    /** The pool is emptied at once; a deletion that raises stops the rest. */
    method Shutdown(outside: Outside) returns (raised: bool)
      modifies this
      ensures idle == []
      ensures |old(deleteCalls)| <= |deleteCalls| <= |old(deleteCalls)| + |old(idle)|
      ensures var n := |deleteCalls| - |old(deleteCalls)|;
              && deleteCalls == old(deleteCalls) + Names(old(idle)[..n])
              && (forall i :: 0 <= i < n - 1 ==> !outside.deleteFails(old(idle)[i]))
              && (raised <==> n > 0 && outside.deleteFails(old(idle)[n - 1]))
              && (!raised ==> n == |old(idle)|)
    {
      var leases := idle;
      idle := [];
      for i := 0 to |leases|
        invariant idle == []
        invariant deleteCalls == old(deleteCalls) + Names(leases[..i])
        invariant forall j :: 0 <= j < i ==> !outside.deleteFails(leases[j])
      {
        deleteCalls := deleteCalls + [leases[i].name];
        assert Names(leases[..i + 1]) == Names(leases[..i]) + [leases[i].name];
        if outside.deleteFails(leases[i]) {
          return true;
        }
      }
      assert leases[..|leases|] == leases;
      raised := false;
    }
  }
}
