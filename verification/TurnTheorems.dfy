/** What every run of a session keeps: the turn count, what each turn puts on the queue, and one turn at a time. */
module TurnTheorems {

  import opened Common
  import opened Turns

  // ---- counting and the shape of a turn, in all runs -------------------------------------------------------

  predicate Shaped(s: State, t: Turn) {
    && t.delivered <= |t.yielded| <= t.delivered + 1
    && match t.phase
       case Scheduled => t.yielded == [] && t.error == t.done == NotTried
       case AwaitEvent => t.delivered == |t.yielded| && t.error == t.done == NotTried
       case AwaitPut(event) => t.yielded == t.yielded[..t.delivered] + [event] && t.error == t.done == NotTried
       case Finished =>
         && (t.error != NotTried ==> t.delivered == |t.yielded|)
         && (t.done == NotTried ==> t.yielded == [] && t.error == NotTried && (t.cancelled || !s.inStore))
  }

  ghost predicate Counted(cfg: Config, s: State) {
    && s.turnCount == |s.turns| <= cfg.maxTurns
    && (cfg.queueMax > 0 ==> |s.queue| <= cfg.queueMax)
    && forall t | t in s.turns :: Shaped(s, t)
  }

  lemma PopTurn(s: State, k: nat)
    requires k < |s.turns|
    ensures |PopAndCancel(s).turns| == |s.turns|
    ensures PopAndCancel(s).turns[k] == s.turns[k] || PopAndCancel(s).turns[k] == s.turns[k].(cancelled := true)
  {
  }

  lemma FinishTurn(cfg: Config, s: State, i: nat, k: nat)
    requires i < |s.turns| && k < |s.turns|
    ensures |Finish(cfg, s, i).turns| == |s.turns|
    ensures Finish(cfg, s, i).turns[k] ==
            if k == i then s.turns[k].(phase := Finished, done := Outcome(cfg, s)) else s.turns[k]
    ensures Outcome(cfg, s) != NotTried
  {
  }

  /** What a step does to turn `k`: nothing, unless it is that turn's own step or its cancellation. */
  lemma StepTurn(cfg: Config, s: State, e: Event, k: nat)
    requires Enabled(cfg, s, e) && k < |s.turns|
    ensures var t, t' := s.turns[k], Apply(cfg, s, e).turns[k];
            || t' == t
            || (e == Begin(k) && t' == t.(phase := if s.inStore then AwaitEvent else Finished))
            || (e.Yield? && e.i == k && t' == t.(phase := AwaitPut(e.event), yielded := t.yielded + [e.event]))
            || (e == PutDone(k) && t' == t.(phase := AwaitEvent, delivered := t.delivered + 1))
            || (e in {PutTimedOut(k), Exhausted(k), Cancelled(k)} && t' == t.(phase := Finished, done := t'.done)
                && (t'.done != NotTried || (t.phase == Scheduled && t'.done == t.done)))
            || (e == Raised(k) && t' == t.(phase := Finished, error := t'.error, done := t'.done)
                && t'.error != NotTried && t'.done != NotTried)
            || (e in {EndSession, Reap} && t' == t.(cancelled := true))
  {
    hide Reply, PopAndCancel, Finish, Full, Outcome;
    match e {
      case PutTimedOut(i) => FinishTurn(cfg, s, i, k);
      case Exhausted(i) => FinishTurn(cfg, s, i, k);
      case Cancelled(i) => FinishTurn(cfg, s, i, k);
      case Raised(i) =>
        FinishTurn(cfg, s, i, k);
        FinishTurn(cfg, PutTurn(Emit(cfg, s, TurnError(i)), i, s.turns[i].(error := Outcome(cfg, s))), i, k);
      case _ => PopTurn(s, k);
    }
  }

  lemma StepShapes(cfg: Config, s: State, e: Event, k: nat)
    requires Enabled(cfg, s, e) && k < |s.turns| && Shaped(s, s.turns[k])
    ensures Shaped(Apply(cfg, s, e), Apply(cfg, s, e).turns[k])
  {
    StepTurn(cfg, s, e, k);
    var t, t' := s.turns[k], Apply(cfg, s, e).turns[k];
    assert t'.delivered == |t.yielded| ==> t.yielded[..t'.delivered] == t.yielded;
  }

  lemma StepCounts(cfg: Config, s: State, e: Event)
    requires Enabled(cfg, s, e) && s.turnCount == |s.turns| <= cfg.maxTurns
    requires cfg.queueMax > 0 ==> |s.queue| <= cfg.queueMax
    ensures var s' := Apply(cfg, s, e);
            && s'.turnCount == |s'.turns| <= cfg.maxTurns
            && (cfg.queueMax > 0 ==> |s'.queue| <= cfg.queueMax)
  {
  }

  lemma StepCounted(cfg: Config, s: State, e: Event)
    requires Counted(cfg, s) && Enabled(cfg, s, e)
    ensures Counted(cfg, Apply(cfg, s, e))
  {
    var s' := Apply(cfg, s, e);
    StepCounts(cfg, s, e);
    forall k: nat | k < |s'.turns| ensures Shaped(s', s'.turns[k]) {
      if k < |s.turns| {
        assert s.turns[k] in s.turns;
        StepShapes(cfg, s, e, k);
      }
    }
  }

  lemma PopCounted(cfg: Config, s: State)
    requires Counted(cfg, s)
    ensures Counted(cfg, PopAndCancel(s))
  {
    var s' := PopAndCancel(s);
    forall k: nat | k < |s'.turns| ensures Shaped(s', s'.turns[k]) {
      assert s.turns[k] in s.turns;
    }
  }

  lemma {:induction false} RunCounted(cfg: Config, s: State, es: seq<Event>)
    requires Counted(cfg, s) && Feasible(cfg, s, es)
    ensures Counted(cfg, Run(cfg, s, es))
    decreases es
  {
    if es != [] {
      StepCounted(cfg, s, es[0]);
      RunCounted(cfg, Apply(cfg, s, es[0]), es[1..]);
    }
  }

  /** In every run `turn_count` is the number of messages accepted and never passes the limit. */
  lemma TurnsCounted(cfg: Config, es: seq<Event>)
    requires Feasible(cfg, FRESH, es)
    ensures Run(cfg, FRESH, es).turnCount == |Run(cfg, FRESH, es).turns| == Sends(es) <= cfg.maxTurns
  {
    RunCounted(cfg, FRESH, es);
    SendsMakeTurns(cfg, FRESH, es);
  }

  function Sends(es: seq<Event>): nat
    decreases es
  {
    if es == [] then 0 else (if es[0].Send? then 1 else 0) + Sends(es[1..])
  }

  lemma {:induction false} SendsMakeTurns(cfg: Config, s: State, es: seq<Event>)
    requires Feasible(cfg, s, es)
    ensures |Run(cfg, s, es).turns| == |s.turns| + Sends(es)
    decreases es
  {
    if es != [] {
      SendsMakeTurns(cfg, Apply(cfg, s, es[0]), es[1..]);
    }
  }

  // ---- one turn at a time -----------------------------------------------------------------------------------

  ghost predicate Serial(s: State) {
    forall i: nat | Live(s, i) :: i == |s.turns| - 1
  }

  /** Every state the run passes through has at most one live turn, the latest. */
  ghost predicate AlwaysSerial(cfg: Config, s: State, es: seq<Event>)
    requires Feasible(cfg, s, es)
    decreases es
  {
    Serial(s) && (es != [] ==> AlwaysSerial(cfg, Apply(cfg, s, es[0]), es[1..]))
  }

  /** No message is accepted while an earlier turn is live. */
  ghost predicate NoOverlap(cfg: Config, s: State, es: seq<Event>)
    requires Feasible(cfg, s, es)
    decreases es
  {
    es != [] ==>
      && (es[0].Send? ==> forall i: nat :: !Live(s, i))
      && NoOverlap(cfg, Apply(cfg, s, es[0]), es[1..])
  }

  lemma StepLive(cfg: Config, s: State, e: Event, i: nat)
    requires Enabled(cfg, s, e)
    ensures !e.Send? ==> |Apply(cfg, s, e).turns| == |s.turns| && (Live(Apply(cfg, s, e), i) ==> Live(s, i))
    ensures e.Send? ==> (Live(Apply(cfg, s, e), i) <==> Live(s, i) || i == |s.turns|)
  {
  }

  lemma {:induction false} SerialUntilOverlap(cfg: Config, s: State, es: seq<Event>)
    requires Serial(s) && Feasible(cfg, s, es)
    ensures AlwaysSerial(cfg, s, es) <==> NoOverlap(cfg, s, es)
    decreases es
  {
    if es != [] {
      var e, s' := es[0], Apply(cfg, s, es[0]);
      forall i: nat ensures Live(s', i) ==> Live(s, i) || (e.Send? && i == |s.turns|) {
        StepLive(cfg, s, e, i);
      }
      if e.Send? && exists i: nat :: Live(s, i) {
        var i: nat :| Live(s, i);
        StepLive(cfg, s, e, i);
        assert Live(s', i) && i != |s'.turns| - 1;
      } else {
        assert e.Send? ==> |s'.turns| == |s.turns| + 1;
        StepLive(cfg, s, e, 0);
        assert Serial(s');
        SerialUntilOverlap(cfg, s', es[1..]);
      }
    }
  }

  /** Some turn whose entry was taken and whose cancellation was requested has not ended yet. */
  ghost predicate Lingering(s: State) {
    exists i: nat :: Live(s, i) && s.turns[i].cancelled
  }

  /** No message is accepted between the taking of a turn's entry and the end of that turn. */
  ghost predicate NoSendOverCancelled(cfg: Config, s: State, es: seq<Event>)
    requires Feasible(cfg, s, es)
    decreases es
  {
    es != [] ==>
      && (es[0].Send? ==> !Lingering(s))
      && NoSendOverCancelled(cfg, Apply(cfg, s, es[0]), es[1..])
  }

  /** While turns do not overlap, a live turn is registered or was cancelled by whoever took its entry. */
  ghost predicate Tended(s: State) {
    Serial(s) && forall i: nat | Live(s, i) :: s.registered == Some(i) || s.turns[i].cancelled
  }

  lemma StepTended(cfg: Config, s: State, e: Event)
    requires Tended(s) && Enabled(cfg, s, e)
    ensures e.Send? && (exists i: nat :: Live(s, i)) ==> Lingering(s)
    ensures (e.Send? ==> !Lingering(s)) ==> Tended(Apply(cfg, s, e))
  {
    var s' := Apply(cfg, s, e);
    match e {
      case PutTimedOut(j) => assert Live(s, j);
      case Exhausted(j) => assert Live(s, j);
      case Raised(j) => assert Live(s, j);
      case _ =>
    }
    if e.Send? ==> !Lingering(s) {
      forall i: nat | Live(s', i)
        ensures i == |s'.turns| - 1 && (s'.registered == Some(i) || s'.turns[i].cancelled)
      {
        StepLive(cfg, s, e, i);
      }
    }
  }

  lemma {:induction false} OverlapsByCancelled(cfg: Config, s: State, es: seq<Event>)
    requires Tended(s) && Feasible(cfg, s, es)
    ensures NoOverlap(cfg, s, es) <==> NoSendOverCancelled(cfg, s, es)
    decreases es
  {
    hide Enabled, Tended, Apply;
    if es != [] {
      StepTended(cfg, s, es[0]);
      if !es[0].Send? || !Lingering(s) {
        OverlapsByCancelled(cfg, Apply(cfg, s, es[0]), es[1..]);
      }
    }
  }

  /** In every run turns are one at a time if and only if no message is accepted after `end_session` or the reaper
      took a running turn's entry and before that turn has ended. */
  lemma SerialExactly(cfg: Config, es: seq<Event>)
    requires Feasible(cfg, FRESH, es)
    ensures AlwaysSerial(cfg, FRESH, es) <==> NoSendOverCancelled(cfg, FRESH, es)
  {
    SerialUntilOverlap(cfg, FRESH, es);
    OverlapsByCancelled(cfg, FRESH, es);
  }

  /** A live turn is the registered one, unless the session is over for good. */
  ghost predicate Guarded(s: State) {
    && Serial(s)
    && (s.registered.Some? ==> s.registered.value == |s.turns| - 1)
    && (forall i: nat | Live(s, i) :: s.registered == Some(i) || s.status == Done || s.status == Error)
    && (s.turns != [] || s.status == Ready || s.status == Active ==> s.initDone)
  }

  lemma StepGuarded(cfg: Config, s: State, e: Event)
    requires Guarded(s) && Enabled(cfg, s, e) && e != EndSession
    ensures Guarded(Apply(cfg, s, e))
    ensures e.Send? ==> forall i: nat :: !Live(s, i)
  {
    var s' := Apply(cfg, s, e);
    match e {
      case PutTimedOut(j) => assert Live(s, j);
      case Exhausted(j) => assert Live(s, j);
      case Raised(j) => assert Live(s, j);
      case _ =>
    }
    forall i: nat | Live(s', i)
      ensures i == |s'.turns| - 1 && (s'.registered == Some(i) || s'.status == Done || s'.status == Error)
    {
      StepLive(cfg, s, e, i);
    }
  }

  lemma {:induction false} GuardedRun(cfg: Config, s: State, es: seq<Event>)
    requires Guarded(s) && Feasible(cfg, s, es) && EndSession !in es
    ensures NoOverlap(cfg, s, es) && Guarded(Run(cfg, s, es))
    decreases es
  {
    if es != [] {
      StepGuarded(cfg, s, es[0]);
      GuardedRun(cfg, Apply(cfg, s, es[0]), es[1..]);
    }
  }

  /** Until `end_session` is called there is at most one live turn, whatever else happens, the idle reaper and failed
      or late initialisation included. */
  lemma OneTurnAtATime(cfg: Config, es: seq<Event>)
    requires Feasible(cfg, FRESH, es) && EndSession !in es
    ensures NoOverlap(cfg, FRESH, es) && AlwaysSerial(cfg, FRESH, es)
    ensures forall i: nat, j: nat | Live(Run(cfg, FRESH, es), i) && Live(Run(cfg, FRESH, es), j) :: i == j
  {
    GuardedRun(cfg, FRESH, es);
    SerialUntilOverlap(cfg, FRESH, es);
  }

  lemma {:induction false} Extend(cfg: Config, s: State, es: seq<Event>, e: Event)
    requires Feasible(cfg, s, es) && Enabled(cfg, Run(cfg, s, es), e)
    ensures Feasible(cfg, s, es + [e]) && Run(cfg, s, es + [e]) == Apply(cfg, Run(cfg, s, es), e)
    decreases es
  {
    if es == [] {
      assert [e][1..] == [];
    } else {
      assert (es + [e])[1..] == es[1..] + [e];
      Extend(cfg, Apply(cfg, s, es[0]), es[1..], e);
    }
  }

  ghost predicate Reaches(cfg: Config, s: State) {
    exists es :: Feasible(cfg, FRESH, es) && Run(cfg, FRESH, es) == s
  }

  lemma ReachNext(cfg: Config, s: State, e: Event)
    requires Reaches(cfg, s) && Enabled(cfg, s, e)
    ensures Reaches(cfg, Apply(cfg, s, e))
  {
    var es :| Feasible(cfg, FRESH, es) && Run(cfg, FRESH, es) == s;
    Extend(cfg, FRESH, es, e);
  }

  lemma ReachFresh(cfg: Config)
    ensures Reaches(cfg, FRESH)
  {
    assert Feasible(cfg, FRESH, []) && Run(cfg, FRESH, []) == FRESH;
  }

  /** After `end_session` took the entry a second message is accepted beside the turn still being cancelled, and when
      that turn ends it removes the second one's entry, so that a third message would be accepted too. */
  lemma EndSessionLetsTurnsOverlap(cfg: Config, chars: nat) returns (two: State, late: State)
    requires cfg.maxTurns >= 2 && chars <= cfg.maxChars
    ensures Reaches(cfg, two) && two.turnCount == 2 && Live(two, 0) && Live(two, 1)
    ensures Reaches(cfg, late) && Live(late, 1) && late.registered == None
    ensures Reply(cfg, late, chars) == if cfg.maxTurns > 2 then 200 else 429
  {
    hide Reaches, Feasible, Run;
    var s1 := Apply(cfg, FRESH, InitReady);
    var s2 := Apply(cfg, s1, Send(chars));
    var s3 := Apply(cfg, s2, Begin(0));
    var s4 := Apply(cfg, s3, EndSession);
    two := Apply(cfg, s4, Send(chars));
    late := Apply(cfg, two, Cancelled(0));
    ReachFresh(cfg);
    ReachNext(cfg, FRESH, InitReady);
    ReachNext(cfg, s1, Send(chars));
    ReachNext(cfg, s2, Begin(0));
    ReachNext(cfg, s3, EndSession);
    ReachNext(cfg, s4, Send(chars));
    ReachNext(cfg, two, Cancelled(0));
  }
}
