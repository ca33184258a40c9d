/** The life of one proxied call: a send is tried twice, and who is never refused. */
module ProxyCalls {

  import opened Proxy

  function Fails(es: seq<Event>, c: CallId): nat
    decreases es
  {
    if es == [] then 0 else (if es[0] == SendFailed(c) then 1 else 0) + Fails(es[1..], c)
  }

  /** How many of its sends have failed by now. */
  predicate FailedSoFar(call: Call, n: nat) {
    match call.phase
    case Checking(_) => n == 0
    case Answering(_) => n == 0
    case Admitted => n == 0
    case Sending(attempt) => n == attempt - 1
    case Relaying => n <= 1
    case Closing(_) => n <= 1
    case Accounting(_, _) => n <= 1
    case Ended(how) => if how == GaveUp then n == 2 else if how in {Denied, Refused} then n == 0 else n <= 1
  }

  predicate Trying(s: State, c: CallId, n: nat) {
    if c !in s.calls then n == 0
    else FailedSoFar(s.calls[c], n) && (s.calls[c].phase.Sending? ==> 1 <= s.calls[c].phase.attempt <= 2)
  }

  lemma StepTries(cfg: Config, s: State, e: Event, c: CallId, n: nat)
    requires Enabled(cfg, s, e) && Trying(s, c, n)
    ensures Trying(Apply(cfg, s, e), c, if e == SendFailed(c) then n + 1 else n)
  {
  }

  lemma {:induction false} RunTries(cfg: Config, s: State, es: seq<Event>, c: CallId, n: nat)
    requires Feasible(cfg, s, es) && Trying(s, c, n)
    ensures Trying(Run(cfg, s, es), c, n + Fails(es, c))
    decreases es
  {
    hide Apply, Enabled, Trying;
    if es != [] {
      StepTries(cfg, s, es[0], c, n);
      RunTries(cfg, Apply(cfg, s, es[0]), es[1..], c, if es[0] == SendFailed(c) then n + 1 else n);
    }
  }

  /** A call is given up exactly when two of its sends have failed, and no third is tried. */
  lemma GivenUpAfterTwo(cfg: Config, es: seq<Event>, c: CallId)
    requires Feasible(cfg, Empty(cfg), es)
    ensures Fails(es, c) <= 2
    ensures var s := Run(cfg, Empty(cfg), es);
            Fails(es, c) == 2 <==> c in s.calls && s.calls[c].phase == Ended(GaveUp)
  {
    RunTries(cfg, Empty(cfg), es, c, 0);
  }

  /** Without a limit, or without a user, a check never turns the call away. */
  predicate Unlimited(cfg: Config, call: Call) {
    (cfg.limit <= 0 || call.user == "") ==>
      call.phase != Ended(Denied) && call.phase != Answering(false) && (call.user == "" ==> !call.phase.Checking?)
  }

  lemma StepUnlimited(cfg: Config, s: State, e: Event)
    requires Enabled(cfg, s, e) && forall c | c in s.calls :: Unlimited(cfg, s.calls[c])
    ensures forall c | c in Apply(cfg, s, e).calls :: Unlimited(cfg, Apply(cfg, s, e).calls[c])
  {
  }

  lemma {:induction false} RunUnlimited(cfg: Config, s: State, es: seq<Event>)
    requires Feasible(cfg, s, es) && forall c | c in s.calls :: Unlimited(cfg, s.calls[c])
    ensures forall c | c in Run(cfg, s, es).calls :: Unlimited(cfg, Run(cfg, s, es).calls[c])
    decreases es
  {
    hide Apply, Enabled, Unlimited;
    if es != [] {
      StepUnlimited(cfg, s, es[0]);
      RunUnlimited(cfg, Apply(cfg, s, es[0]), es[1..]);
    }
  }

  /** In no run is a call denied that has no user, or any call where there is no limit. */
  lemma UnlimitedNeverDenied(cfg: Config, es: seq<Event>, c: CallId)
    requires Feasible(cfg, Empty(cfg), es) && c in Run(cfg, Empty(cfg), es).calls
    requires cfg.limit <= 0 || Run(cfg, Empty(cfg), es).calls[c].user == ""
    ensures Run(cfg, Empty(cfg), es).calls[c].phase != Ended(Denied)
  {
    RunUnlimited(cfg, Empty(cfg), es);
  }
}
