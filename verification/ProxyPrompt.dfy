/** The limiter over the memory store, whose check never suspends: there it is enough to count admitted calls. */
module ProxyPrompt {

  import opened Common
  import opened Budgets
  import opened Proxy
  import opened ProxyGate
  import opened ProxyBudget

  /** Admitted and not yet accounted. */
  function InFlight(s: State, u: User): set<CallId> {
    set c | c in s.calls && s.calls[c].user == u && !Asks(s.calls[c], u) && !s.calls[c].phase.Ended?
  }

  predicate Asks(call: Call, u: User) {
    call.user == u && (call.phase.Checking? || call.phase.Answering?)
  }

  /** A check of `u` that has begun is the next thing to go on. */
  predicate GoesOn(s: State, es: seq<Event>, u: User) {
    forall c | c in s.calls && Asks(s.calls[c], u) :: es != [] && es[0] in {CheckRead(c), CheckAnswered(c)}
  }

  /** Nothing happens between the beginning of a check of `u` and its answer. */
  ghost predicate Prompt(cfg: Config, s: State, es: seq<Event>, u: User)
    requires Feasible(cfg, s, es)
    decreases es
  {
    GoesOn(s, es, u) && (es != [] ==> Prompt(cfg, Apply(cfg, s, es[0]), es[1..], u))
  }

  /** Throughout the run at most `k` calls of `u` are in flight, and every one is modest. */
  ghost predicate FewInFlight(cfg: Config, s: State, es: seq<Event>, u: User, k: nat, m: nat)
    requires Feasible(cfg, s, es)
    decreases es
  {
    && |InFlight(s, u)| <= k
    && (es != [] ==> Modest(s, es[0], u, m) && FewInFlight(cfg, Apply(cfg, s, es[0]), es[1..], u, k, m))
  }

  predicate AsksToday(s: State, u: User) {
    forall c | c in s.calls && s.calls[c].user == u && s.calls[c].phase.Checking? :: s.calls[c].phase.day == s.today
  }

  lemma StepAsksToday(cfg: Config, s: State, e: Event, es: seq<Event>, u: User)
    requires Enabled(cfg, s, e) && AsksToday(s, u) && GoesOn(s, [e] + es, u)
    ensures AsksToday(Apply(cfg, s, e), u) && Failure(s, e, u) == 0
  {
    assert ([e] + es)[0] == e;
  }

  /** A committed call is in flight already, or will be as soon as its answer is heard. */
  lemma CommittedGoesOn(cfg: Config, s: State, es: seq<Event>, u: User)
    requires Feasible(cfg, s, es) && AsksToday(s, u) && GoesOn(s, es, u)
    ensures Committed(s, u) <= InFlight(s, u)
            || (es != [] && Committed(s, u) <= InFlight(Apply(cfg, s, es[0]), u))
  {
    if c :| c in s.calls && Asks(s.calls[c], u) && s.calls[c].phase.Answering? && s.calls[c].phase.within {
      assert es[0] == CheckAnswered(c);
      forall d | d in Committed(s, u) ensures d in InFlight(Apply(cfg, s, es[0]), u) {
        assert d == c || !Asks(s.calls[d], u);
      }
    }
  }

  lemma {:induction false} PromptRunWithin(cfg: Config, s: State, es: seq<Event>, u: User, k: nat, m: nat)
    requires Feasible(cfg, s, es) && AsksToday(s, u) && Prompt(cfg, s, es, u) && FewInFlight(cfg, s, es, u, k, m)
    ensures Within(cfg, s, es, u, k, m) && Failures(cfg, s, es, u) == 0
    decreases es
  {
    hide Apply, Enabled, Modest, Committed, Failure, InFlight, AsksToday, GoesOn;
    CommittedGoesOn(cfg, s, es, u);
    if Committed(s, u) <= InFlight(s, u) {
      SubsetSize(Committed(s, u), InFlight(s, u));
    } else {
      SubsetSize(Committed(s, u), InFlight(Apply(cfg, s, es[0]), u));
    }
    if es != [] {
      assert es == [es[0]] + es[1..];
      StepAsksToday(cfg, s, es[0], es[1..], u);
      PromptRunWithin(cfg, Apply(cfg, s, es[0]), es[1..], u, k, m);
    }
  }

  /** If every check of the user is answered before anything else happens, and at most `k` of the user's calls are
      admitted and not accounted at a time, no UTC day of that user ends above `limit - 1 + k * m`. */
  lemma PromptOvershootBound(cfg: Config, es: seq<Event>, u: User, k: nat, m: nat, day: nat)
    requires u != "" && cfg.limit >= 1 && Feasible(cfg, Empty(cfg), es)
    requires Prompt(cfg, Empty(cfg), es, u) && FewInFlight(cfg, Empty(cfg), es, u, k, m)
    ensures Used(Run(cfg, Empty(cfg), es).ledger, u, day) <= cfg.limit - 1 + k * m
  {
    PromptRunWithin(cfg, Empty(cfg), es, u, k, m);
    OvershootBound(cfg, es, u, k, m, day);
  }
}
