/** The LLM proxy as a transition system: each step is the code one call runs between two awaits. */
module Proxy {

  import opened Common
  import opened Budgets

  type CallId = nat

  datatype Ending = Denied | Refused | GaveUp | Relayed | Abandoned

  /** Where a call is suspended. `day` is the day whose key the call is asking or filing under. `Answering` is a check
      whose counter has been read and whose answer is on its way. `Accounting` lasts until the addition is carried out
      or never will be, whether or not the call still waits for it. */
  datatype Phase =
    | Checking(day: nat)
    | Answering(within: bool)
    | Admitted
    | Sending(attempt: nat)
    | Relaying
    | Closing(usage: Option<int>)
    | Accounting(day: nat, tokens: int)
    | Ended(how: Ending)

  /** `acquired` and `released` are about the semaphore permit; `releases` counts calls of `sem.release`;
      `open` says that an upstream response is open. */
  datatype Call = Call(user: User, phase: Phase, acquired: bool, released: bool, releases: nat, open: bool)

  /** `permits` is `llm_max_concurrency`, and there is no semaphore at all unless it is positive. */
  datatype Config = Config(permits: int, limit: int) {
    predicate Gated() { permits > 0 }
  }

  datatype State = State(free: int, calls: map<CallId, Call>, ledger: Ledger, today: nat)

  datatype Event =
    | Begin(c: CallId, user: User)
    | CheckRead(c: CallId)
    | CheckAnswered(c: CallId)
    | CheckFailed(c: CallId)
    | Refuse(c: CallId)
    | Enter(c: CallId)
    | Sent(c: CallId)
    | SendFailed(c: CallId)
    | RelayOver(c: CallId, usage: Option<int>)
    | Closed(c: CallId)
    | Accounted(c: CallId)
    | AccountingFailed(c: CallId)
    | Abandon(c: CallId)
    | Midnight

  function Empty(cfg: Config): State {
    State(if cfg.Gated() then cfg.permits else 0, map[], map[], 0)
  }

  predicate Enabled(cfg: Config, s: State, e: Event) {
    if e.Midnight? then true
    else if e.Begin? then e.c !in s.calls
    else e.c in s.calls && EnabledIn(cfg, s, e, s.calls[e.c].phase)
  }

  predicate EnabledIn(cfg: Config, s: State, e: Event, phase: Phase)
    requires !e.Midnight? && !e.Begin?
  {
    match e
    case CheckRead(_) => phase.Checking?
    case CheckAnswered(_) => phase.Answering?
    case CheckFailed(_) => phase.Checking? || phase.Answering?
    case Refuse(_) => phase.Admitted?
    case Enter(_) => phase.Admitted? && (cfg.Gated() ==> s.free > 0)
    case Sent(_) => phase.Sending?
    case SendFailed(_) => phase.Sending?
    case RelayOver(_, _) => phase.Relaying?
    case Closed(_) => phase.Closing?
    case Accounted(_) => phase.Accounting?
    case AccountingFailed(_) => phase.Accounting?
    case Abandon(_) => !phase.Ended? && !phase.Accounting?
  }

  /** `_release_sem` on one call: the first use gives the permit back, any later use does nothing. */
  function ReleaseOn(cfg: Config, call: Call): Call {
    if cfg.Gated() && !call.released then call.(released := true, releases := call.releases + 1) else call
  }

  function FreeAfterRelease(cfg: Config, s: State, call: Call): int {
    if cfg.Gated() && !call.released then s.free + 1 else s.free
  }

  function Put(s: State, c: CallId, call: Call): State {
    s.(calls := s.calls[c := call])
  }

  function Apply(cfg: Config, s: State, e: Event): State
    requires Enabled(cfg, s, e)
  {
    match e
    case Begin(c, user) =>
      Put(s, c, Call(user, if user == "" then Admitted else Checking(s.today), false, false, 0, false))
    case CheckRead(c) =>
      var call := s.calls[c];
      Put(s, c, call.(phase := Answering(Allowed(s.ledger, call.user, cfg.limit, call.phase.day))))
    case CheckAnswered(c) =>
      var call := s.calls[c];
      Put(s, c, call.(phase := if call.phase.within then Admitted else Ended(Denied)))
    case CheckFailed(c) => Put(s, c, s.calls[c].(phase := Admitted))
    case Refuse(c) => Put(s, c, s.calls[c].(phase := Ended(Refused)))
    case Enter(c) =>
      Put(s.(free := if cfg.Gated() then s.free - 1 else s.free), c,
          s.calls[c].(phase := Sending(1), acquired := cfg.Gated()))
    case Sent(c) => Put(s, c, s.calls[c].(phase := Relaying, open := true))
    case SendFailed(c) =>
      var call := s.calls[c];
      if call.phase.attempt == 1 then Put(s, c, call.(phase := Sending(2)))
      else Put(s.(free := FreeAfterRelease(cfg, s, call)), c, ReleaseOn(cfg, call).(phase := Ended(GaveUp)))
    case RelayOver(c, usage) => Put(s, c, s.calls[c].(phase := Closing(usage)))
    case Closed(c) =>
      var call := s.calls[c];
      var next := if call.phase.usage.Some? && call.user != "" then Accounting(s.today, call.phase.usage.value)
                  else Ended(Relayed);
      Put(s.(free := FreeAfterRelease(cfg, s, call)), c, ReleaseOn(cfg, call).(phase := next, open := false))
    case Accounted(c) =>
      var call := s.calls[c];
      Put(s.(ledger := Spend(s.ledger, call.user, call.phase.tokens, call.phase.day)), c,
          call.(phase := Ended(Relayed)))
    case AccountingFailed(c) => Put(s, c, s.calls[c].(phase := Ended(Relayed)))
    case Abandon(c) => Put(s, c, s.calls[c].(phase := Ended(Abandoned)))
    case Midnight => s.(today := s.today + 1)
  }

  predicate Feasible(cfg: Config, s: State, es: seq<Event>)
    decreases es
  {
    es == [] || (Enabled(cfg, s, es[0]) && Feasible(cfg, Apply(cfg, s, es[0]), es[1..]))
  }

  function Run(cfg: Config, s: State, es: seq<Event>): State
    requires Feasible(cfg, s, es)
    decreases es
  {
    if es == [] then s else Run(cfg, Apply(cfg, s, es[0]), es[1..])
  }
}
