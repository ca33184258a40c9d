/** One session's turns as a transition system: `send_message`, `_drive_turn`, and what ends a session around them. */
module Turns {

  import opened Common

  /** What is on the session's event queue: a turn's own events, and everything other code puts there. */
  datatype Item = Output(turn: nat, event: string) | TurnError(turn: nat) | TurnDone(turn: nat) | Other(kind: string)

  datatype Phase = Scheduled | AwaitEvent | AwaitPut(event: string) | Finished

  /** What became of a non-blocking put of a closing event. */
  datatype Terminal = NotTried | Dropped | Queued

  /** One `_drive_turn` task. `yielded` is what the executor has produced for it, `delivered` how much of that has
      gone on the queue, and `cancelled` says that its cancellation was requested. */
  datatype Turn = Turn(
    phase: Phase, cancelled: bool, yielded: seq<string>, delivered: nat, error: Terminal, done: Terminal)

  /** `redact` is `_redact_event`; a queue bound of zero or less is no bound. */
  datatype Config = Config(queueMax: int, maxTurns: nat, maxChars: nat, redact: string -> string)

  /** `registered` is the session's entry in `_drive_tasks`; `consumed` is what the event stream has taken off the
      queue so far. */
  datatype State = State(
    status: Status, initDone: bool, inStore: bool, turnCount: nat, registered: Option<nat>,
    turns: seq<Turn>, queue: seq<Item>, consumed: seq<Item>)

  const FRESH := State(Starting, false, true, 0, None, [], [], [])
  const NEW_TURN := Turn(Scheduled, false, [], 0, NotTried, NotTried)

  datatype Event =
    | Send(chars: nat)
    | Begin(i: nat)
    | Yield(i: nat, event: string)
    | PutDone(i: nat)
    | PutTimedOut(i: nat)
    | Exhausted(i: nat)
    | Raised(i: nat)
    | Cancelled(i: nat)
    | EndSession
    | Reap
    | StoreEnd
    | InitReady
    | InitFailed
    | OtherPut(kind: string)
    | Consume

  predicate Live(s: State, i: nat) {
    i < |s.turns| && s.turns[i].phase != Finished
  }

  predicate Full(cfg: Config, s: State) {
    cfg.queueMax > 0 && |s.queue| >= cfg.queueMax
  }

  /** The reply of `send_message`: the checks in the order the code makes them. */
  function Reply(cfg: Config, s: State, chars: nat): int {
    if !s.inStore then 404
    else if s.status == Starting then 503
    else if s.status == Done || s.status == Error then 410
    else if chars > cfg.maxChars then 400
    else if s.turnCount >= cfg.maxTurns then 429
    else if s.registered.Some? && Live(s, s.registered.value) then 409
    else 200
  }

  predicate In(s: State, i: nat, phase: Phase) {
    i < |s.turns| && s.turns[i].phase == phase
  }

  predicate Enabled(cfg: Config, s: State, e: Event) {
    match e
    case Send(chars) => Reply(cfg, s, chars) == 200
    case Begin(i) => In(s, i, Scheduled) && !s.turns[i].cancelled
    case Yield(i, _) => In(s, i, AwaitEvent)
    case PutDone(i) => i < |s.turns| && s.turns[i].phase.AwaitPut? && !Full(cfg, s)
    case PutTimedOut(i) => i < |s.turns| && s.turns[i].phase.AwaitPut?
    case Exhausted(i) => In(s, i, AwaitEvent)
    case Raised(i) => In(s, i, AwaitEvent)
    case Cancelled(i) => Live(s, i) && s.turns[i].cancelled
    case EndSession => s.inStore
    case Reap => s.status != Done && s.status != Error
    case StoreEnd => s.inStore
    case InitReady => !s.initDone
    case InitFailed => !s.initDone
    case OtherPut(_) => !Full(cfg, s)
    case Consume => s.queue != []
  }

  /** `_emit_terminal`: puts the event if there is room, drops it otherwise. */
  function Emit(cfg: Config, s: State, item: Item): State {
    if Full(cfg, s) then s else s.(queue := s.queue + [item])
  }

  function Outcome(cfg: Config, s: State): Terminal {
    if Full(cfg, s) then Dropped else Queued
  }

  function PutTurn(s: State, i: nat, t: Turn): State
    requires i < |s.turns|
  {
    s.(turns := s.turns[i := t])
  }

  /** The `finally` of `_drive_turn`: the session's entry goes, whichever task it names, and `done` is offered. */
  function Finish(cfg: Config, s: State, i: nat): State
    requires i < |s.turns|
  {
    var t := s.turns[i].(phase := Finished, done := Outcome(cfg, s));
    PutTurn(Emit(cfg, s, TurnDone(i)), i, t).(registered := None)
  }

  /** Takes the entry out of `_drive_tasks` and requests the cancellation of its turn if that is still live. */
  function PopAndCancel(s: State): State {
    if s.registered.Some? && Live(s, s.registered.value)
    then PutTurn(s, s.registered.value, s.turns[s.registered.value].(cancelled := true)).(registered := None)
    else s.(registered := None)
  }

  function Apply(cfg: Config, s: State, e: Event): State
    requires Enabled(cfg, s, e)
  {
    match e
    case Send(_) =>
      s.(turnCount := s.turnCount + 1, status := Active, registered := Some(|s.turns|), turns := s.turns + [NEW_TURN])
    case Begin(i) => PutTurn(s, i, s.turns[i].(phase := if s.inStore then AwaitEvent else Finished))
    case Yield(i, event) =>
      PutTurn(s, i, s.turns[i].(phase := AwaitPut(event), yielded := s.turns[i].yielded + [event]))
    case PutDone(i) =>
      var t := s.turns[i];
      PutTurn(s.(queue := s.queue + [Output(i, cfg.redact(t.phase.event))]), i,
              t.(phase := AwaitEvent, delivered := t.delivered + 1))
    case PutTimedOut(i) => Finish(cfg, s, i)
    case Exhausted(i) => Finish(cfg, s, i)
    case Raised(i) =>
      Finish(cfg, PutTurn(Emit(cfg, s, TurnError(i)), i, s.turns[i].(error := Outcome(cfg, s))), i)
    case Cancelled(i) =>
      if s.turns[i].phase == Scheduled then PutTurn(s, i, s.turns[i].(phase := Finished)) else Finish(cfg, s, i)
    case EndSession => PopAndCancel(s)
    case Reap => PopAndCancel(s).(status := Done)
    case StoreEnd => s.(inStore := false, status := Done)
    case InitReady => s.(initDone := true, status := Ready)
    case InitFailed => s.(initDone := true, status := Error)
    case OtherPut(kind) => s.(queue := s.queue + [Other(kind)])
    case Consume => s.(queue := s.queue[1..], consumed := s.consumed + [s.queue[0]])
  }

  predicate Feasible(cfg: Config, s: State, es: seq<Event>)
    decreases es
  {
    es == [] || (Enabled(cfg, s, es[0]) && Feasible(cfg, Apply(cfg, s, es[0]), es[1..]))
  }

  function Run(cfg: Config, s: State, es: seq<Event>): State
    requires Feasible(cfg, s, es)
    decreases es
  {
    if es == [] then s else Run(cfg, Apply(cfg, s, es[0]), es[1..])
  }
}
