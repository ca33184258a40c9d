/** What `send_message` answers, told from what has happened to the session so far. */
module TurnReplies {

  import opened Common
  import opened Turns
  import opened TurnTheorems

  /** What the event makes of the session's status, if anything. */
  function SetsStatus(e: Event): Option<Status> {
    match e
    case InitReady => Some(Ready)
    case InitFailed => Some(Error)
    case Send(_) => Some(Active)
    case Reap => Some(Done)
    case StoreEnd => Some(Done)
    case _ => None
  }

  predicate LeavesStatus(es: seq<Event>) {
    forall e | e in es :: SetsStatus(e) == None
  }

  /** The i-th event is the last that sets the status. */
  predicate LastSets(es: seq<Event>, i: nat) {
    i < |es| && SetsStatus(es[i]).Some? && LeavesStatus(es[i + 1..])
  }

  lemma {:induction false} UnsetStays(cfg: Config, s: State, es: seq<Event>)
    requires Feasible(cfg, s, es) && LeavesStatus(es)
    ensures Run(cfg, s, es).status == s.status
    decreases es
  {
    if es != [] {
      assert es[0] in es;
      UnsetStays(cfg, Apply(cfg, s, es[0]), es[1..]);
    }
  }

  /** The status is what the last event that sets it made of it. */
  lemma {:induction false} StatusIsLast(cfg: Config, s: State, es: seq<Event>, i: nat)
    requires Feasible(cfg, s, es) && LastSets(es, i)
    ensures Some(Run(cfg, s, es).status) == SetsStatus(es[i])
    decreases es
  {
    if i == 0 {
      UnsetStays(cfg, Apply(cfg, s, es[0]), es[1..]);
    } else {
      assert es[1..][i - 1] == es[i] && es[1..][i..] == es[i + 1..];
      StatusIsLast(cfg, Apply(cfg, s, es[0]), es[1..], i - 1);
    }
  }

  lemma {:induction false} StoredUntilEnd(cfg: Config, s: State, es: seq<Event>)
    requires Feasible(cfg, s, es)
    ensures Run(cfg, s, es).inStore <==> s.inStore && StoreEnd !in es
    decreases es
  {
    if es != [] {
      StoredUntilEnd(cfg, Apply(cfg, s, es[0]), es[1..]);
      assert es == [es[0]] + es[1..];
    }
  }

  /** Once the session is out of the store every message is answered 404. */
  lemma GoneIsNotFound(cfg: Config, es: seq<Event>, chars: nat)
    requires Feasible(cfg, FRESH, es)
    ensures Reply(cfg, Run(cfg, FRESH, es), chars) == 404 <==> StoreEnd in es
  {
    StoredUntilEnd(cfg, FRESH, es);
  }

  /** Until its initialisation has ended or it is reaped, a session in the store answers 503, and never again. */
  lemma StartingIsUnavailable(cfg: Config, es: seq<Event>, chars: nat)
    requires Feasible(cfg, FRESH, es)
    ensures Reply(cfg, Run(cfg, FRESH, es), chars) == 503 <==>
              StoreEnd !in es && InitReady !in es && InitFailed !in es && Reap !in es
  {
    StoredUntilEnd(cfg, FRESH, es);
    if LeavesStatus(es) {
      UnsetStays(cfg, FRESH, es);
    } else {
      var i := LastSetter(es);
      StatusIsLast(cfg, FRESH, es, i);
      if InitReady !in es && InitFailed !in es && Reap !in es && StoreEnd !in es {
        assert es[i] in es;
        NoSendYet(cfg, FRESH, es);
      }
    }
  }

  lemma {:induction false} LastSetter(es: seq<Event>) returns (i: nat)
    requires !LeavesStatus(es)
    ensures LastSets(es, i)
  {
    var front, last := es[..|es| - 1], es[|es| - 1];
    assert es == front + [last];
    if SetsStatus(last).Some? {
      i := |es| - 1;
      assert es[i + 1..] == [];
    } else {
      i := LastSetter(front);
      assert es[i + 1..] == front[i + 1..] + [last];
    }
  }

  /** No message is accepted while the session is starting. */
  lemma {:induction false} NoSendYet(cfg: Config, s: State, es: seq<Event>)
    requires Feasible(cfg, s, es) && s.status == Starting
    requires InitReady !in es && InitFailed !in es && Reap !in es && StoreEnd !in es
    ensures LeavesStatus(es)
    decreases es
  {
    if es != [] {
      assert es[0] in es;
      NoSendYet(cfg, Apply(cfg, s, es[0]), es[1..]);
      assert es == [es[0]] + es[1..];
    }
  }

  /** A session still in the store answers 410 exactly if the last thing that set its status was a failed
      initialisation or the reaper. */
  lemma EndedIsGone(cfg: Config, es: seq<Event>, i: nat, chars: nat)
    requires Feasible(cfg, FRESH, es) && LastSets(es, i)
    ensures Reply(cfg, Run(cfg, FRESH, es), chars) == 410 <==> StoreEnd !in es && es[i] in {InitFailed, Reap}
  {
    StoredUntilEnd(cfg, FRESH, es);
    StatusIsLast(cfg, FRESH, es, i);
    assert es[i] in es;
  }

  /** Ready or active, it answers by the length of the message, then by the turns taken, then by the turn under way. */
  lemma OpenAnswers(cfg: Config, es: seq<Event>, i: nat, chars: nat)
    requires Feasible(cfg, FRESH, es) && LastSets(es, i) && StoreEnd !in es && (es[i] == InitReady || es[i].Send?)
    ensures var s := Run(cfg, FRESH, es);
            var busy := s.registered.Some? && s.registered.value < |s.turns|
                        && s.turns[s.registered.value].phase != Finished;
            Reply(cfg, s, chars) ==
              if chars > cfg.maxChars then 400
              else if Sends(es) >= cfg.maxTurns then 429
              else if busy then 409
              else 200
  {
    StoredUntilEnd(cfg, FRESH, es);
    StatusIsLast(cfg, FRESH, es, i);
    TurnsCounted(cfg, es);
  }

  /** A produced event waits for a place in the queue, and goes there as soon as there is one. */
  lemma PutNeedsOnlyRoom(cfg: Config, s: State, i: nat)
    requires i < |s.turns| && s.turns[i].phase.AwaitPut?
    ensures Enabled(cfg, s, PutDone(i)) <==> cfg.queueMax <= 0 || |s.queue| < cfg.queueMax
    ensures Enabled(cfg, s, PutTimedOut(i))
  {
  }
}
