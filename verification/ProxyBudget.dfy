/** How far calls in flight can push a user's day past the limit: the check comes before, the count after. */
module ProxyBudget {

  import opened Common
  import opened Budgets
  import opened Proxy
  import opened ProxyGate

  /** Admitted and not yet accounted, told to go on by an answer still on its way, or asking about a day that is
      already over. */
  predicate IsCommitted(call: Call, u: User, today: nat) {
    && call.user == u
    && match call.phase
       case Checking(day) => day < today
       case Answering(within) => within
       case Ended(_) => false
       case _ => true
  }

  function Committed(s: State, u: User): set<CallId> {
    set c | c in s.calls && IsCommitted(s.calls[c], u, s.today)
  }

  /** The calls about to file their tokens under `day`. */
  function Owing(s: State, u: User, day: nat): set<CallId> {
    set c | c in s.calls && s.calls[c].user == u && s.calls[c].phase.Accounting? && s.calls[c].phase.day == day
  }

  /** No relay for `u` reports more than `m` tokens. */
  predicate Modest(s: State, e: Event, u: User, m: nat) {
    e.RelayOver? && e.c in s.calls && s.calls[e.c].user == u && e.usage.Some? ==> e.usage.value <= m
  }

  function Failure(s: State, e: Event, u: User): nat {
    if e.CheckFailed? && e.c in s.calls && s.calls[e.c].user == u then 1 else 0
  }

  /** How many checks on `u` failed in the run, and so let their call pass. */
  function Failures(cfg: Config, s: State, es: seq<Event>, u: User): nat
    requires Feasible(cfg, s, es)
    decreases es
  {
    if es == [] then 0 else Failure(s, es[0], u) + Failures(cfg, Apply(cfg, s, es[0]), es[1..], u)
  }

  /** Throughout the run at most `k` calls of `u` are committed, and every one is modest. */
  ghost predicate Within(cfg: Config, s: State, es: seq<Event>, u: User, k: nat, m: nat)
    requires Feasible(cfg, s, es)
    decreases es
  {
    && |Committed(s, u)| <= k
    && (es != [] ==> Modest(s, es[0], u, m) && Within(cfg, Apply(cfg, s, es[0]), es[1..], u, k, m))
  }

  predicate Timely(call: Call, today: nat, m: nat) {
    match call.phase
    case Checking(day) => day <= today
    case Closing(usage) => usage.Some? ==> usage.value <= m
    case Accounting(day, tokens) => day <= today && tokens <= m
    case _ => true
  }

  function Worst(used: nat, owed: nat, m: nat): nat {
    used + owed * m
  }

  /** A past day may still grow by what is owed to it; today by everything committed; later days are untouched. */
  ghost predicate Bounded(s: State, u: User, bound: int, m: nat) {
    && (forall c | c in s.calls && s.calls[c].user == u :: Timely(s.calls[c], s.today, m))
    && (forall d: nat | d < s.today :: Worst(Used(s.ledger, u, d), |Owing(s, u, d)|, m) <= bound)
    && Worst(Used(s.ledger, u, s.today), |Committed(s, u)|, m) <= bound
    && (forall d: nat | d > s.today :: Used(s.ledger, u, d) == 0)
  }

  lemma Fewer(used: nat, a: set<CallId>, b: set<CallId>, m: nat)
    requires a <= b
    ensures Worst(used, |a|, m) <= Worst(used, |b|, m)
  {
    SubsetSize(a, b);
    Scale(|a|, |b|, m);
  }

  lemma Scale(a: nat, b: nat, m: nat)
    requires a <= b
    ensures a * m <= b * m
  {
    assert (b - a) * m >= 0;
    assert b * m == a * m + (b - a) * m;
  }

  lemma OneLess(used: nat, tokens: nat, a: set<CallId>, c: CallId, m: nat)
    requires c in a && tokens <= m
    ensures Worst(used + tokens, |a - {c}|, m) <= Worst(used, |a|, m)
  {
    assert |a - {c}| == |a| - 1;
    assert |a| * m == (|a| - 1) * m + m;
  }

  lemma OneMore(used: nat, a: set<CallId>, b: set<CallId>, c: CallId, m: nat)
    requires a <= b + {c}
    ensures Worst(used, |a|, m) <= Worst(used, |b|, m) + m
  {
    Fewer(used, a, b + {c}, m);
    Scale(|b + {c}|, |b| + 1, m);
    assert (|b| + 1) * m == |b| * m + m;
  }

  lemma StepTimely(cfg: Config, s: State, e: Event, u: User, bound: int, m: nat)
    requires Enabled(cfg, s, e) && Bounded(s, u, bound, m) && Modest(s, e, u, m)
    ensures forall c | c in Apply(cfg, s, e).calls && Apply(cfg, s, e).calls[c].user == u ::
              Timely(Apply(cfg, s, e).calls[c], Apply(cfg, s, e).today, m)
  {
  }

  /** Steps that file nothing and commit nobody new only shrink what is owed. */
  lemma QuietStep(cfg: Config, s: State, e: Event, u: User, bound: int, m: nat)
    requires u != "" && Enabled(cfg, s, e) && Bounded(s, u, bound, m) && Modest(s, e, u, m)
    requires !e.Midnight? && (e.Accounted? ==> s.calls[e.c].user != u)
    requires Committed(Apply(cfg, s, e), u) <= Committed(s, u)
    ensures Bounded(Apply(cfg, s, e), u, bound, m)
  {
    var t := Apply(cfg, s, e);
    StepTimely(cfg, s, e, u, bound, m);
    assert forall d: nat :: Used(t.ledger, u, d) == Used(s.ledger, u, d);
    Fewer(Used(s.ledger, u, s.today), Committed(t, u), Committed(s, u), m);
    forall d: nat | d < s.today ensures Worst(Used(t.ledger, u, d), |Owing(t, u, d)|, m) <= bound {
      Fewer(Used(s.ledger, u, d), Owing(t, u, d), Owing(s, u, d), m);
    }
  }

  /** A failed check commits one more call, whatever has been used. */
  lemma FailingStep(cfg: Config, s: State, e: Event, u: User, bound: int, m: nat)
    requires u != "" && Enabled(cfg, s, e) && Bounded(s, u, bound, m) && Modest(s, e, u, m)
    requires e.CheckFailed? && s.calls[e.c].user == u
    ensures Bounded(Apply(cfg, s, e), u, bound + m, m)
  {
    var t := Apply(cfg, s, e);
    StepTimely(cfg, s, e, u, bound, m);
    OneMore(Used(s.ledger, u, s.today), Committed(t, u), Committed(s, u), e.c, m);
    forall d: nat | d < s.today ensures Worst(Used(t.ledger, u, d), |Owing(t, u, d)|, m) <= bound {
      Fewer(Used(s.ledger, u, d), Owing(t, u, d), Owing(s, u, d), m);
    }
  }

  /** A step that commits one more call has just read less than the limit. */
  lemma CommittingStep(cfg: Config, s: State, e: Event, u: User, bound: int, k: nat, m: nat)
    requires u != "" && cfg.limit >= 1 && bound >= cfg.limit - 1 + k * m
    requires Enabled(cfg, s, e) && Bounded(s, u, bound, m) && Modest(s, e, u, m)
    requires e.CheckRead? && s.calls[e.c].user == u && s.calls[e.c].phase.day == s.today
    requires |Committed(Apply(cfg, s, e), u)| <= k
    ensures Bounded(Apply(cfg, s, e), u, bound, m)
  {
    var t := Apply(cfg, s, e);
    if Allowed(s.ledger, u, cfg.limit, s.today) {
      StepTimely(cfg, s, e, u, bound, m);
      Scale(|Committed(t, u)|, k, m);
      forall d: nat | d < s.today ensures Worst(Used(t.ledger, u, d), |Owing(t, u, d)|, m) <= bound {
        Fewer(Used(s.ledger, u, d), Owing(t, u, d), Owing(s, u, d), m);
      }
    } else {
      QuietStep(cfg, s, e, u, bound, m);
    }
  }

  /** What filing does to the ledger and to the calls that owe. */
  lemma FilingMoves(cfg: Config, s: State, e: Event, u: User, d: nat)
    requires u != "" && Enabled(cfg, s, e) && e.Accounted? && s.calls[e.c].user == u
    ensures var t, phase := Apply(cfg, s, e), s.calls[e.c].phase;
            && t.today == s.today
            && Used(t.ledger, u, d) ==
               Used(s.ledger, u, d) + (if d == phase.day && phase.tokens > 0 then phase.tokens else 0)
            && Committed(t, u) == Committed(s, u) - {e.c} && e.c in Committed(s, u)
            && Owing(t, u, d) == Owing(s, u, d) - {e.c} && (e.c in Owing(s, u, d) <==> d == phase.day)
  {
  }

  lemma NoMore(used: nat, a: set<CallId>, c: CallId, m: nat)
    ensures Worst(used, |a - {c}|, m) <= Worst(used, |a|, m)
  {
    Fewer(used, a - {c}, a, m);
  }

  /** Filing moves tokens from owed to used, under the day the call wrote down. */
  lemma FilingStep(cfg: Config, s: State, e: Event, u: User, bound: int, m: nat)
    requires u != "" && Enabled(cfg, s, e) && Bounded(s, u, bound, m) && Modest(s, e, u, m)
    requires e.Accounted? && s.calls[e.c].user == u
    ensures Bounded(Apply(cfg, s, e), u, bound, m)
  {
    hide Apply, Used, Worst, Committed, Owing, Modest;
    var t, day, tokens := Apply(cfg, s, e), s.calls[e.c].phase.day, s.calls[e.c].phase.tokens;
    var spent: nat := if tokens > 0 then tokens else 0;
    StepTimely(cfg, s, e, u, bound, m);
    assert Timely(s.calls[e.c], s.today, m);
    FilingMoves(cfg, s, e, u, s.today);
    OneLess(Used(s.ledger, u, s.today), spent, Committed(s, u), e.c, m);
    NoMore(Used(s.ledger, u, s.today), Committed(s, u), e.c, m);
    forall d: nat | d < s.today ensures Worst(Used(t.ledger, u, d), |Owing(t, u, d)|, m) <= bound {
      FilingMoves(cfg, s, e, u, d);
      assert Worst(Used(s.ledger, u, d), |Owing(s, u, d)|, m) <= bound;
      if d == day {
        OneLess(Used(s.ledger, u, d), spent, Owing(s, u, d), e.c, m);
      } else {
        NoMore(Used(s.ledger, u, d), Owing(s, u, d), e.c, m);
      }
    }
    forall d: nat | d > s.today ensures Used(t.ledger, u, d) == 0 {
      FilingMoves(cfg, s, e, u, d);
    }
  }

  /** At midnight the new day starts from nothing, and the old one still has only its own debts to come. */
  lemma MidnightStep(cfg: Config, s: State, u: User, bound: int, k: nat, m: nat)
    requires cfg.limit >= 1 && bound >= cfg.limit - 1 + k * m && Bounded(s, u, bound, m)
    requires |Committed(Apply(cfg, s, Midnight), u)| <= k
    ensures Bounded(Apply(cfg, s, Midnight), u, bound, m)
  {
    var t := Apply(cfg, s, Midnight);
    Scale(|Committed(t, u)|, k, m);
    forall d: nat | d < t.today ensures Worst(Used(t.ledger, u, d), |Owing(t, u, d)|, m) <= bound {
      assert Owing(t, u, d) == Owing(s, u, d);
      if d == s.today {
        Fewer(Used(s.ledger, u, d), Owing(s, u, d), Committed(s, u), m);
      }
    }
  }

  /** Any other step commits nobody new. */
  lemma OtherStepsCommitNobody(cfg: Config, s: State, e: Event, u: User, bound: int, m: nat)
    requires u != "" && Enabled(cfg, s, e) && !e.Midnight? && Bounded(s, u, bound, m)
    requires e.c in s.calls && s.calls[e.c].user == u ==>
               !e.CheckFailed? && !(e.CheckRead? && s.calls[e.c].phase.day == s.today)
    ensures Committed(Apply(cfg, s, e), u) <= Committed(s, u)
  {
    assert e.c in s.calls && s.calls[e.c].user == u ==> Timely(s.calls[e.c], s.today, m);
  }

  lemma StepBounded(cfg: Config, s: State, e: Event, u: User, bound: int, k: nat, m: nat)
    requires u != "" && cfg.limit >= 1 && bound >= cfg.limit - 1 + k * m
    requires Enabled(cfg, s, e) && Bounded(s, u, bound, m) && Modest(s, e, u, m)
    requires |Committed(Apply(cfg, s, e), u)| <= k
    ensures Bounded(Apply(cfg, s, e), u, bound + Failure(s, e, u) * m, m)
  {
    hide Apply, Bounded, Committed, Modest;
    assert bound + Failure(s, e, u) * m == if Failure(s, e, u) == 1 then bound + m else bound;
    if e == Midnight {
      MidnightStep(cfg, s, u, bound, k, m);
    } else if e.Accounted? && s.calls[e.c].user == u {
      FilingStep(cfg, s, e, u, bound, m);
    } else if e.CheckFailed? && s.calls[e.c].user == u {
      FailingStep(cfg, s, e, u, bound, m);
    } else if e.CheckRead? && s.calls[e.c].user == u && s.calls[e.c].phase.day == s.today {
      CommittingStep(cfg, s, e, u, bound, k, m);
    } else {
      OtherStepsCommitNobody(cfg, s, e, u, bound, m);
      QuietStep(cfg, s, e, u, bound, m);
    }
  }

  lemma {:induction false} RunBounded(cfg: Config, s: State, es: seq<Event>, u: User, bound: int, k: nat, m: nat)
    requires u != "" && cfg.limit >= 1 && bound >= cfg.limit - 1 + k * m
    requires Feasible(cfg, s, es) && Within(cfg, s, es, u, k, m) && Bounded(s, u, bound, m)
    ensures Bounded(Run(cfg, s, es), u, bound + Failures(cfg, s, es, u) * m, m)
    decreases es
  {
    hide Bounded, Apply, Enabled, Modest, Committed, Failure;
    if es != [] {
      var failed, later := Failure(s, es[0], u), Failures(cfg, Apply(cfg, s, es[0]), es[1..], u);
      StepBounded(cfg, s, es[0], u, bound, k, m);
      Scale(0, failed, m);
      RunBounded(cfg, Apply(cfg, s, es[0]), es[1..], u, bound + failed * m, k, m);
      assert failed * m + later * m == (failed + later) * m;
    }
  }

  /** With at most `k` calls of the user committed at a time and at most `m` tokens a call, no UTC day of that user
      ends above `limit - 1 + k * m`, and `m` more for each check on the user that failed; calls across midnight
      included. */
  lemma OvershootBound(cfg: Config, es: seq<Event>, u: User, k: nat, m: nat, day: nat)
    requires u != "" && cfg.limit >= 1
    requires Feasible(cfg, Empty(cfg), es) && Within(cfg, Empty(cfg), es, u, k, m)
    ensures Used(Run(cfg, Empty(cfg), es).ledger, u, day) <= cfg.limit - 1 + (k + Failures(cfg, Empty(cfg), es, u)) * m
  {
    var f := Failures(cfg, Empty(cfg), es, u);
    var bound := cfg.limit - 1 + (k + f) * m;
    Scale(0, k, m);
    assert Committed(Empty(cfg), u) == {};
    RunBounded(cfg, Empty(cfg), es, u, cfg.limit - 1 + k * m, k, m);
    assert k * m + f * m == (k + f) * m;
    var s := Run(cfg, Empty(cfg), es);
    if day < s.today {
      assert Worst(Used(s.ledger, u, day), |Owing(s, u, day)|, m) <= bound;
      Scale(0, |Owing(s, u, day)|, m);
    } else {
      Scale(0, |Committed(s, u)|, m);
    }
  }
}
