/** `send_message`, `_drive_turn` and the cancelling part of `end_session`, one method for each stretch between
    awaits. */
module TurnServer {

  import opened Common
  import opened Turns
  import opened TurnTheorems

  class Session {
    const cfg: Config
    var status: Status
    var initDone: bool
    var inStore: bool
    var turnCount: nat
    var registered: Option<nat>
    var turns: seq<Turn>
    var queue: seq<Item>
    ghost var consumed: seq<Item>

    ghost function View(): State
      reads this
    {
      State(status, initDone, inStore, turnCount, registered, turns, queue, consumed)
    }

    /** The turn count, the queue's bound, and the shape of every turn. */
    ghost predicate Valid()
      reads this
    {
      Counted(cfg, View())
    }

    constructor (cfg: Config)
      ensures Valid() && this.cfg == cfg && View() == FRESH
    {
      this.cfg := cfg;
      status, initDone, inStore, turnCount := Starting, false, true, 0;
      registered, turns, queue, consumed := None, [], [], [];
    }

    method SendMessage(chars: nat) returns (code: int)
      requires Valid()
      modifies this
      ensures Valid()
      ensures code == Reply(cfg, old(View()), chars)
      ensures code in {200, 400, 404, 409, 410, 429, 503}
      ensures code == 404 <==> !old(inStore)
      ensures code == 503 <==> old(inStore && status == Starting)
      ensures code == 410 <==> old(inStore && status in {Done, Error})
      ensures code in {400, 429, 409, 200} <==> old(inStore && status in {Ready, Active})
      ensures code == 400 ==> chars > cfg.maxChars
      ensures code in {429, 409, 200} ==> chars <= cfg.maxChars
      ensures code == 429 ==> old(turnCount) >= cfg.maxTurns
      ensures code in {409, 200} ==> old(turnCount) < cfg.maxTurns
      ensures code == 409 ==> old(registered.Some? && Live(View(), registered.value))
      ensures code == 200 ==> !old(registered.Some? && Live(View(), registered.value))
      ensures code == 200 ==>
                && status == Active && turnCount == old(turnCount) + 1 && registered == Some(|old(turns)|)
                && turns == old(turns) + [NEW_TURN] && queue == old(queue)
      ensures View() == if code == 200 then Apply(cfg, old(View()), Send(chars)) else old(View())
    {
      if !inStore {
        return 404;
      }
      if status == Starting {
        return 503;
      }
      if status == Done || status == Error {
        return 410;
      }
      if chars > cfg.maxChars {
        return 400;
      }
      if turnCount >= cfg.maxTurns {
        return 429;
      }
      if registered.Some? && registered.value < |turns| && turns[registered.value].phase != Finished {
        return 409;
      }
      StepCounted(cfg, View(), Send(chars));
      turnCount := turnCount + 1;
      status := Active;
      registered := Some(|turns|);
      turns := turns + [NEW_TURN];
      code := 200;
    }

    /** `_emit_terminal`. */
    method EmitTerminal(item: Item) returns (outcome: Terminal)
      modifies `queue
      ensures outcome == Outcome(cfg, old(View())) && View() == Emit(cfg, old(View()), item)
      ensures outcome == if cfg.queueMax > 0 && |old(queue)| >= cfg.queueMax then Dropped else Queued
      ensures queue == if outcome == Queued then old(queue) + [item] else old(queue)
    {
      if cfg.queueMax > 0 && |queue| >= cfg.queueMax {
        return Dropped;
      }
      queue := queue + [item];
      outcome := Queued;
    }

    /** The `finally` of `_drive_turn`. */
    method FinishTurn(i: nat)
      requires i < |turns|
      modifies this
      ensures View() == Finish(cfg, old(View()), i)
      ensures registered == None && turns[i].phase == Finished
      ensures queue == if cfg.queueMax > 0 && |old(queue)| >= cfg.queueMax then old(queue)
                       else old(queue) + [TurnDone(i)]
    {
      registered := None;
      var outcome := EmitTerminal(TurnDone(i));
      turns := turns[i := turns[i].(phase := Finished, done := outcome)];
    }

    method BeginTurn(i: nat)
      requires Valid() && Enabled(cfg, View(), Begin(i))
      modifies this
      ensures View() == Apply(cfg, old(View()), Begin(i))
      ensures Valid()
    {
      StepCounted(cfg, View(), Begin(i));
      if inStore {
        turns := turns[i := turns[i].(phase := AwaitEvent)];
      } else {
        turns := turns[i := turns[i].(phase := Finished)];
      }
    }

    /** The executor produced an event. */
    method OnEvent(i: nat, event: string)
      requires Valid() && Enabled(cfg, View(), Yield(i, event))
      modifies this
      ensures View() == Apply(cfg, old(View()), Yield(i, event))
      ensures Valid()
    {
      StepCounted(cfg, View(), Yield(i, event));
      turns := turns[i := turns[i].(phase := AwaitPut(event), yielded := turns[i].yielded + [event])];
    }

    /** The wait for a place in the queue ended, in time or not. */
    method OnPut(i: nat, inTime: bool)
      requires Valid() && Enabled(cfg, View(), if inTime then PutDone(i) else PutTimedOut(i))
      modifies this
      ensures View() == Apply(cfg, old(View()), if inTime then PutDone(i) else PutTimedOut(i))
      ensures Valid()
    {
      StepCounted(cfg, View(), if inTime then PutDone(i) else PutTimedOut(i));
      if inTime {
        queue := queue + [Output(i, cfg.redact(turns[i].phase.event))];
        turns := turns[i := turns[i].(phase := AwaitEvent, delivered := turns[i].delivered + 1)];
      } else {
        FinishTurn(i);
      }
    }

    /** The executor's events are over; `raised` says that an exception ended them. */
    method OnEventsOver(i: nat, raised: bool)
      requires Valid() && Enabled(cfg, View(), if raised then Raised(i) else Exhausted(i))
      modifies this
      ensures View() == Apply(cfg, old(View()), if raised then Raised(i) else Exhausted(i))
      ensures Valid()
    {
      StepCounted(cfg, View(), if raised then Raised(i) else Exhausted(i));
      if raised {
        var outcome := EmitTerminal(TurnError(i));
        turns := turns[i := turns[i].(error := outcome)];
      }
      FinishTurn(i);
    }

    method OnCancelled(i: nat)
      requires Valid() && Enabled(cfg, View(), Cancelled(i))
      modifies this
      ensures View() == Apply(cfg, old(View()), Cancelled(i))
      ensures Valid()
    {
      StepCounted(cfg, View(), Cancelled(i));
      if turns[i].phase == Scheduled {
        turns := turns[i := turns[i].(phase := Finished)];
      } else {
        FinishTurn(i);
      }
    }

    /** `_drive_tasks.pop` and `cancel`, as in `end_session` and in the idle reaper. */
    method PopDrive() returns (waitFor: Option<nat>)
      requires Valid()
      modifies this
      ensures View() == PopAndCancel(old(View()))
      ensures Valid()
      ensures waitFor.Some? <==> old(registered.Some? && Live(View(), registered.value))
      ensures waitFor.Some? ==> waitFor == old(registered)
      ensures registered == None && queue == old(queue)
      ensures turns == if waitFor.None? then old(turns)
                       else old(turns)[waitFor.value := old(turns)[waitFor.value].(cancelled := true)]
    {
      PopCounted(cfg, View());
      waitFor := None;
      if registered.Some? && registered.value < |turns| && turns[registered.value].phase != Finished {
        waitFor := registered;
        turns := turns[registered.value := turns[registered.value].(cancelled := true)];
      }
      registered := None;
    }
  }
}
