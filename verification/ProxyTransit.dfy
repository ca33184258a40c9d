/** Why checks count before their call is admitted: an answer on its way, or one about a day that is over, lets a call
    pass whatever has been added since. */
module ProxyTransit {

  import opened Common
  import opened Budgets
  import opened Proxy
  import opened ProxyGate
  import opened ProxyBudget
  import opened ProxyOvershoot
  import opened ProxyPrompt

  /** The calls in flight, and if `told` those whose answer, on its way, lets them pass. Checks that midnight has
      overtaken before they were read are in neither. */
  function Counted(s: State, u: User, told: bool): set<CallId> {
    InFlight(s, u)
    + set c | c in s.calls && s.calls[c].user == u && told && s.calls[c].phase == Answering(true)
  }

  /** In the whole run at most one call of `u` counts, none reports more than `m` tokens, and no check fails on `u`. */
  ghost predicate OneCounted(cfg: Config, s: State, es: seq<Event>, u: User, told: bool, m: nat)
    requires Feasible(cfg, s, es)
    decreases es
  {
    && |Counted(s, u, told)| <= 1
    && (es != [] ==>
          && Failure(s, es[0], u) == 0 && Modest(s, es[0], u, m)
          && OneCounted(cfg, Apply(cfg, s, es[0]), es[1..], u, told, m))
  }

  lemma {:induction false} Prolong(cfg: Config, s: State, es: seq<Event>, e: Event, u: User, told: bool, m: nat)
    requires Feasible(cfg, s, es) && OneCounted(cfg, s, es, u, told, m)
    requires Enabled(cfg, Run(cfg, s, es), e) && Modest(Run(cfg, s, es), e, u, m)
    requires Failure(Run(cfg, s, es), e, u) == 0
    requires |Counted(Apply(cfg, Run(cfg, s, es), e), u, told)| <= 1
    ensures Feasible(cfg, s, es + [e]) && Run(cfg, s, es + [e]) == Apply(cfg, Run(cfg, s, es), e)
    ensures OneCounted(cfg, s, es + [e], u, told, m)
    decreases es
  {
    hide Apply, Enabled, Modest, Counted, Failure;
    if es == [] {
      assert [e][1..] == [];
      assert Feasible(cfg, Apply(cfg, s, e), []);
    } else {
      assert (es + [e])[1..] == es[1..] + [e];
      Prolong(cfg, Apply(cfg, s, es[0]), es[1..], e, u, told, m);
    }
  }

  predicate IsRun(cfg: Config, s: State, es: seq<Event>, t: State) {
    Feasible(cfg, s, es) && Run(cfg, s, es) == t
  }

  ghost predicate ReachesSingly(cfg: Config, s: State, u: User, told: bool, m: nat) {
    exists es :: IsRun(cfg, Empty(cfg), es, s) && OneCounted(cfg, Empty(cfg), es, u, told, m)
  }

  /** One more event that leaves no call but `c` counted. */
  lemma NextSingly(cfg: Config, s: State, e: Event, u: User, told: bool, m: nat, c: CallId) returns (t: State)
    requires ReachesSingly(cfg, s, u, told, m) && Enabled(cfg, s, e) && Modest(s, e, u, m) && Failure(s, e, u) == 0
    requires Counted(Apply(cfg, s, e), u, told) <= {c}
    ensures t == Apply(cfg, s, e) && ReachesSingly(cfg, t, u, told, m)
  {
    hide Apply, Enabled, Modest, Counted, Failure;
    t := Apply(cfg, s, e);
    SubsetSize(Counted(t, u, told), {c});
    var es :| IsRun(cfg, Empty(cfg), es, s) && OneCounted(cfg, Empty(cfg), es, u, told, m);
    Prolong(cfg, Empty(cfg), es, e, u, told, m);
    assert IsRun(cfg, Empty(cfg), es + [e], t);
  }

  /** One more event of the only call that counts. */
  lemma GoOn(cfg: Config, s: State, e: Event, u: User, told: bool, m: nat) returns (t: State)
    requires ReachesSingly(cfg, s, u, told, m) && Enabled(cfg, s, e) && Modest(s, e, u, m) && Failure(s, e, u) == 0
    requires !e.Midnight? && Counted(s, u, told) <= {e.c}
    ensures t == Apply(cfg, s, e) && ReachesSingly(cfg, t, u, told, m) && Counted(t, u, told) <= {e.c}
  {
    hide ReachesSingly;
    assert forall d | d in s.calls && d != e.c :: d !in Counted(s, u, told);
    t := NextSingly(cfg, s, e, u, told, m, e.c);
  }

  lemma StartsSingly(cfg: Config, u: User, told: bool, m: nat)
    ensures ReachesSingly(cfg, Empty(cfg), u, told, m)
  {
    var s := Empty(cfg);
    assert Counted(s, u, told) == {};
    assert IsRun(cfg, s, [], s) && OneCounted(cfg, s, [], u, told, m);
  }

  // ---- one call after another -----------------------------------------------------------------------------

  /** Of `total` calls the first `done` have finished, and the others are at `phase`. The day stands at `used`, and any
      other at nothing. */
  ghost predicate Queued(cfg: Config, s: State, u: User, phase: Phase, done: nat, total: nat, used: nat) {
    && s.free == Empty(cfg).free && Used(s.ledger, u, s.today) == used
    && (forall d: nat | d != s.today :: Used(s.ledger, u, d) == 0)
    && (forall c: CallId :: c in s.calls <==> c < total)
    && (forall c: CallId :: c in s.calls ==>
          s.calls[c] == if c < done then Finished(cfg, u) else Call(u, phase, false, false, 0, false))
  }

  /** Calls that do not count: told to pass where answers are not counted, or asking about yesterday. */
  predicate Uncounted(s: State, phase: Phase, told: bool) {
    (phase == Answering(true) && !told) || (phase.Checking? && phase.day < s.today)
  }

  lemma {:induction false} AskMany(cfg: Config, u: User, told: bool, m: nat, n: nat) returns (t: State)
    requires u != ""
    ensures Queued(cfg, t, u, Checking(0), 0, n, 0) && t.today == 0 && ReachesSingly(cfg, t, u, told, m)
  {
    hide ReachesSingly;
    if n == 0 {
      t := Empty(cfg);
      StartsSingly(cfg, u, told, m);
    } else {
      t := AskMany(cfg, u, told, m, n - 1);
      t := NextSingly(cfg, t, Begin(n - 1, u), u, told, m, 0);
    }
  }

  /** Ask and read, again and again, before any answer arrives. */
  lemma {:induction false} ReadMany(cfg: Config, u: User, m: nat, n: nat) returns (t: State)
    requires u != "" && cfg.limit >= 1
    ensures Queued(cfg, t, u, Answering(true), 0, n, 0) && t.today == 0 && ReachesSingly(cfg, t, u, false, m)
  {
    hide ReachesSingly;
    if n == 0 {
      t := Empty(cfg);
      StartsSingly(cfg, u, false, m);
    } else {
      t := ReadMany(cfg, u, m, n - 1);
      t := NextSingly(cfg, t, Begin(n - 1, u), u, false, m, 0);
      t := NextSingly(cfg, t, CheckRead(n - 1), u, false, m, 0);
    }
  }

  /** What the call reads or has read is not what is in the ledger now, so it is admitted. */
  lemma AdmitLate(cfg: Config, u: User, told: bool, m: nat, phase: Phase, done: nat, total: nat, used: nat, s: State)
    returns (t: State)
    requires u != "" && cfg.limit >= 1 && done < total && Uncounted(s, phase, told)
    requires Queued(cfg, s, u, phase, done, total, used) && ReachesSingly(cfg, s, u, told, m)
    ensures t == s.(calls := s.calls[done := Waiting(u)]) && ReachesSingly(cfg, t, u, told, m)
    ensures Counted(t, u, told) <= {done}
  {
    hide ReachesSingly;
    assert Counted(s, u, told) == {};
    hide Counted;
    t := s;
    if phase.Checking? {
      t := GoOn(cfg, t, CheckRead(done), u, told, m);
    }
    t := GoOn(cfg, t, CheckAnswered(done), u, told, m);
  }

  /** A call that has relayed `m` tokens which are still to be added. */
  function InDebt(cfg: Config, u: User, day: nat, m: nat): Call {
    Finished(cfg, u).(phase := Accounting(day, m))
  }

  /** A waiting call is sent, relays `m` tokens, and owes them to the day. */
  lemma SendOne(cfg: Config, u: User, told: bool, m: nat, c: CallId, s: State) returns (t: State)
    requires u != "" && ReachesSingly(cfg, s, u, told, m) && s.free == Empty(cfg).free
    requires c in s.calls && s.calls[c] == Waiting(u) && Counted(s, u, told) <= {c}
    ensures t == s.(calls := s.calls[c := InDebt(cfg, u, s.today, m)])
    ensures ReachesSingly(cfg, t, u, told, m) && Counted(t, u, told) <= {c}
  {
    hide ReachesSingly, Counted;
    t := GoOn(cfg, s, Enter(c), u, told, m);
    t := GoOn(cfg, t, Sent(c), u, told, m);
    t := GoOn(cfg, t, RelayOver(c, Some(m)), u, told, m);
    t := GoOn(cfg, t, Closed(c), u, told, m);
    assert t.calls == s.calls[c := InDebt(cfg, u, s.today, m)];
  }

  /** Its tokens are added. */
  lemma FileLate(cfg: Config, u: User, told: bool, m: nat, c: CallId, s: State) returns (t: State)
    requires u != "" && m >= 1 && ReachesSingly(cfg, s, u, told, m)
    requires c in s.calls && s.calls[c] == InDebt(cfg, u, s.today, m) && Counted(s, u, told) <= {c}
    ensures t == s.(calls := s.calls[c := Finished(cfg, u)], ledger := t.ledger)
    ensures ReachesSingly(cfg, t, u, told, m) && Counted(t, u, told) == {}
    ensures forall d: nat :: Used(t.ledger, u, d) == Used(s.ledger, u, d) + if d == s.today then m else 0
  {
    hide ReachesSingly;
    t := GoOn(cfg, s, Accounted(c), u, told, m);
  }

  lemma RelayLate(cfg: Config, u: User, told: bool, m: nat, phase: Phase, done: nat, total: nat, used: nat, s: State)
    returns (t: State)
    requires u != "" && cfg.limit >= 1 && done < total && m >= 1 && Uncounted(s, phase, told)
    requires Queued(cfg, s, u, phase, done, total, used) && ReachesSingly(cfg, s, u, told, m)
    ensures Queued(cfg, t, u, phase, done + 1, total, used + m) && ReachesSingly(cfg, t, u, told, m)
    ensures t.today == s.today
  {
    hide ReachesSingly, Counted, Used;
    t := AdmitLate(cfg, u, told, m, phase, done, total, used, s);
    t := SendOne(cfg, u, told, m, done, t);
    t := FileLate(cfg, u, told, m, done, t);
  }

  lemma {:induction false} RelayAll(cfg: Config, u: User, told: bool, m: nat, phase: Phase, n: nat, k: nat, s: State)
    returns (t: State)
    requires u != "" && cfg.limit >= 1 && m >= 1 && k <= n && Uncounted(s, phase, told)
    requires Queued(cfg, s, u, phase, 0, n, 0) && ReachesSingly(cfg, s, u, told, m)
    ensures Queued(cfg, t, u, phase, k, n, k * m) && ReachesSingly(cfg, t, u, told, m) && t.today == s.today
    decreases k
  {
    hide ReachesSingly, Queued;
    t := s;
    if k != 0 {
      t := RelayAll(cfg, u, told, m, phase, n, k - 1, s);
      assert (k - 1) * m + m == k * m;
      t := RelayLate(cfg, u, told, m, phase, k - 1, n, (k - 1) * m, t);
    }
  }

  /** Counting only calls in flight, never more than one at a time, a day reaches any multiple of `m` whatever the
      limit: every check was read before the first call was accounted. There is no midnight in the run. */
  lemma AnswersInTransitUnbounded(cfg: Config, u: User, m: nat, n: nat)
    requires u != "" && cfg.limit >= 1 && m >= 1
    ensures exists es, s ::
              && IsRun(cfg, Empty(cfg), es, s) && OneCounted(cfg, Empty(cfg), es, u, false, m)
              && s.today == 0 && Used(s.ledger, u, 0) == n * m
  {
    var s := ReadMany(cfg, u, m, n);
    s := RelayAll(cfg, u, false, m, Answering(true), n, n, s);
  }

  /** Counting the answers on their way too, the day after midnight still does: every call asks about the day before.
      */
  lemma LateReadsUnbounded(cfg: Config, u: User, m: nat, n: nat)
    requires u != "" && cfg.limit >= 1 && m >= 1
    ensures exists es, s ::
              && IsRun(cfg, Empty(cfg), es, s) && OneCounted(cfg, Empty(cfg), es, u, true, m)
              && s.today == 1 && Used(s.ledger, u, 1) == n * m
  {
    var s := AskMany(cfg, u, true, m, n);
    s := NextSingly(cfg, s, Midnight, u, true, m, 0);
    s := RelayAll(cfg, u, true, m, Checking(0), n, n, s);
  }

  // ---- a single answer in transit ------------------------------------------------------------------------

  /** Runs with one committed call at a time have one in flight at a time. */
  lemma {:induction false} WithinIsSingly(cfg: Config, s: State, es: seq<Event>, u: User, m: nat)
    requires Feasible(cfg, s, es) && Within(cfg, s, es, u, 1, m) && Failures(cfg, s, es, u) == 0
    ensures OneCounted(cfg, s, es, u, false, m)
    decreases es
  {
    hide Apply, Enabled, Modest, Failure;
    SubsetSize(Counted(s, u, false), Committed(s, u));
    if es != [] {
      WithinIsSingly(cfg, Apply(cfg, s, es[0]), es[1..], u, m);
    }
  }

  lemma JustBelow(cfg: Config, u: User, m: nat) returns (t: State)
    requires u != "" && cfg.limit >= 1 && m >= 1
    ensures Standing(cfg, t, u, cfg.limit - 1, cfg.limit - 1, cfg.limit - 1) && ReachesSingly(cfg, t, u, false, m)
  {
    hide Standing;
    t := SpendSingly(cfg, u, 1, m, cfg.limit - 1);
    var es :| && Feasible(cfg, Empty(cfg), es) && Within(cfg, Empty(cfg), es, u, 1, m)
              && Failures(cfg, Empty(cfg), es, u) == 0 && Run(cfg, Empty(cfg), es) == t;
    WithinIsSingly(cfg, Empty(cfg), es, u, m);
    assert IsRun(cfg, Empty(cfg), es, t);
  }

  /** The first `n` calls have finished, the next one owes its tokens, and the counter stands just below the limit. */
  ghost predicate OneOwes(cfg: Config, s: State, u: User, m: nat, n: nat) {
    && s.free == Empty(cfg).free && s.today == 0 && Used(s.ledger, u, 0) == n && cfg.limit == n + 1
    && (forall c: CallId :: c in s.calls <==> c <= n)
    && s.calls[n] == InDebt(cfg, u, 0, m) && (forall c: CallId :: c < n ==> s.calls[c] == Finished(cfg, u))
  }

  lemma LastBelow(cfg: Config, u: User, m: nat, n: nat) returns (t: State)
    requires u != "" && cfg.limit == n + 1 && m >= 1
    ensures OneOwes(cfg, t, u, m, n) && ReachesSingly(cfg, t, u, false, m) && Counted(t, u, false) <= {n}
  {
    hide ReachesSingly;
    t := JustBelow(cfg, u, m);
    assert Counted(t, u, false) == {};
    hide Counted;
    t := GoOn(cfg, t, Begin(n, u), u, false, m);
    t := GoOn(cfg, t, CheckRead(n), u, false, m);
    t := GoOn(cfg, t, CheckAnswered(n), u, false, m);
    t := SendOne(cfg, u, false, m, n, t);
  }

  /** Call `n + 1` asks and is told to pass while call `n` owes, and call `n` is accounted before it hears that. */
  lemma AnswerOvertaken(cfg: Config, u: User, m: nat, n: nat, s: State) returns (t: State)
    requires u != "" && m >= 1 && OneOwes(cfg, s, u, m, n) && ReachesSingly(cfg, s, u, false, m)
    ensures ReachesSingly(cfg, t, u, false, m) && Counted(t, u, false) <= {n + 1}
    ensures t.free == Empty(cfg).free && t.today == 0 && Used(t.ledger, u, 0) == n + m
    ensures n + 1 in t.calls && t.calls[n + 1] == Waiting(u)
  {
    hide ReachesSingly;
    t := NextSingly(cfg, s, Begin(n + 1, u), u, false, m, n);
    t := NextSingly(cfg, t, CheckRead(n + 1), u, false, m, n);
    hide Counted;
    t := FileLate(cfg, u, false, m, n, t);
    t := GoOn(cfg, t, CheckAnswered(n + 1), u, false, m);
  }

  /** One answer in transit is enough to pass the bound, for every limit: the counter is read for a second call just
      before the first call's tokens are added, and the answer heard just after. */
  lemma OneAnswerInTransit(cfg: Config, u: User, m: nat)
    requires u != "" && cfg.limit >= 1 && m >= 1
    ensures exists es, s ::
              && IsRun(cfg, Empty(cfg), es, s) && OneCounted(cfg, Empty(cfg), es, u, false, m)
              && s.today == 0 && Used(s.ledger, u, 0) == cfg.limit - 1 + 2 * m
  {
    var n: nat := cfg.limit - 1;
    var s := LastBelow(cfg, u, m, n);
    s := AnswerOvertaken(cfg, u, m, n, s);
    s := SendOne(cfg, u, false, m, n + 1, s);
    s := FileLate(cfg, u, false, m, n + 1, s);
  }
}
