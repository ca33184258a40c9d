/** Runs that attain the overshoot bound, whatever the limit, the number of calls, their size and the failed checks. */
module ProxyOvershoot {

  import opened Common
  import opened Budgets
  import opened Proxy
  import opened ProxyGate
  import opened ProxyBudget

  lemma {:induction false} Extend(cfg: Config, s: State, es: seq<Event>, e: Event, u: User, k: nat, m: nat)
    requires Feasible(cfg, s, es) && Within(cfg, s, es, u, k, m)
    requires Enabled(cfg, Run(cfg, s, es), e) && Modest(Run(cfg, s, es), e, u, m)
    requires |Committed(Apply(cfg, Run(cfg, s, es), e), u)| <= k
    ensures Feasible(cfg, s, es + [e]) && Run(cfg, s, es + [e]) == Apply(cfg, Run(cfg, s, es), e)
    ensures Within(cfg, s, es + [e], u, k, m)
    ensures Failures(cfg, s, es + [e], u) == Failures(cfg, s, es, u) + Failure(Run(cfg, s, es), e, u)
    decreases es
  {
    hide Apply, Enabled, Modest, Committed, Failure;
    if es == [] {
      assert [e][1..] == [];
      assert Feasible(cfg, Apply(cfg, s, e), []);
    } else {
      assert (es + [e])[1..] == es[1..] + [e];
      Extend(cfg, Apply(cfg, s, es[0]), es[1..], e, u, k, m);
    }
  }

  /** Some run from the empty state ends in `s`, within `k` committed calls and `m` tokens a call, and with `f` failed
      checks. */
  ghost predicate Reaches(cfg: Config, s: State, u: User, k: nat, f: nat, m: nat) {
    exists es ::
      && Feasible(cfg, Empty(cfg), es) && Within(cfg, Empty(cfg), es, u, k, m)
      && Failures(cfg, Empty(cfg), es, u) == f && Run(cfg, Empty(cfg), es) == s
  }

  /** One more event that leaves nobody committed but calls numbered from `a` up to `b`. */
  lemma Next(cfg: Config, s: State, e: Event, u: User, k: nat, f: nat, m: nat, a: nat, b: nat) returns (t: State)
    requires Reaches(cfg, s, u, k, f, m) && Enabled(cfg, s, e) && Modest(s, e, u, m)
    requires a <= b <= a + k && forall c :: c in Committed(Apply(cfg, s, e), u) ==> a <= c < b
    ensures t == Apply(cfg, s, e) && Reaches(cfg, t, u, k, f + Failure(s, e, u), m)
  {
    hide Apply, Enabled, Modest, Committed, Failure;
    t := Apply(cfg, s, e);
    SubsetSize(Committed(t, u), Window(a, b));
    var es :| && Feasible(cfg, Empty(cfg), es) && Within(cfg, Empty(cfg), es, u, k, m)
              && Failures(cfg, Empty(cfg), es, u) == f && Run(cfg, Empty(cfg), es) == s;
    Extend(cfg, Empty(cfg), es, e, u, k, m);
  }

  function Finished(cfg: Config, u: User): Call {
    Call(u, Ended(Relayed), cfg.Gated(), cfg.Gated(), if cfg.Gated() then 1 else 0, false)
  }

  function Waiting(u: User): Call {
    Call(u, Admitted, false, false, 0, false)
  }

  /** The calls numbered from `a` up to, but not including, `b`. */
  function Window(a: nat, b: nat): (w: set<CallId>)
    ensures forall c: CallId :: c in w <==> a <= c < b
    ensures |w| == if a <= b then b - a else 0
    decreases b
  {
    if b <= a then {} else Window(a, b - 1) + {b - 1}
  }

  /** The first `done` of `total` calls have finished, the others are admitted, and `used` tokens are on the ledger. */
  ghost predicate Standing(cfg: Config, s: State, u: User, done: nat, total: nat, used: nat) {
    && s.free == Empty(cfg).free && s.today == 0 && Used(s.ledger, u, 0) == used
    && (forall c: CallId :: c in s.calls <==> c < total)
    && (forall c: CallId :: c in s.calls ==> s.calls[c] == if c < done then Finished(cfg, u) else Waiting(u))
  }

  /** One more call is admitted: its check reads less than the limit, or fails. */
  lemma AdmitOne(cfg: Config, u: User, k: nat, f: nat, m: nat, done: nat, total: nat, used: nat, failing: bool,
                 s: State)
    returns (t: State)
    requires u != "" && done <= total && total - done < k && (failing || used < cfg.limit)
    requires Standing(cfg, s, u, done, total, used) && Reaches(cfg, s, u, k, f, m)
    ensures Standing(cfg, t, u, done, total + 1, used)
    ensures Reaches(cfg, t, u, k, if failing then f + 1 else f, m)
  {
    hide Reaches;
    t := Next(cfg, s, Begin(total, u), u, k, f, m, done, total);
    if failing {
      t := Next(cfg, t, CheckFailed(total), u, k, f, m, done, total + 1);
    } else {
      t := Next(cfg, t, CheckRead(total), u, k, f, m, done, total + 1);
      t := Next(cfg, t, CheckAnswered(total), u, k, f, m, done, total + 1);
    }
  }

  lemma RelayOne(cfg: Config, u: User, k: nat, f: nat, m: nat, done: nat, total: nat, used: nat, n: nat, s: State)
    returns (t: State)
    requires u != "" && done < total && total - done <= k && 1 <= n <= m
    requires Standing(cfg, s, u, done, total, used) && Reaches(cfg, s, u, k, f, m)
    ensures Standing(cfg, t, u, done + 1, total, used + n) && Reaches(cfg, t, u, k, f, m)
  {
    hide Reaches;
    t := Next(cfg, s, Enter(done), u, k, f, m, done, total);
    t := Next(cfg, t, Sent(done), u, k, f, m, done, total);
    t := Next(cfg, t, RelayOver(done, Some(n)), u, k, f, m, done, total);
    t := FileOne(cfg, u, k, f, m, done, total, used, n, s, t);
  }

  lemma FileOne(cfg: Config, u: User, k: nat, f: nat, m: nat, done: nat, total: nat, used: nat, n: nat, s: State,
                closing: State)
    returns (t: State)
    requires u != "" && done < total && total - done <= k && 1 <= n <= m
    requires Standing(cfg, s, u, done, total, used) && Reaches(cfg, closing, u, k, f, m)
    requires closing == s.(free := if cfg.Gated() then s.free - 1 else s.free,
                           calls := s.calls[done := Call(u, Closing(Some(n)), cfg.Gated(), false, 0, true)])
    ensures Standing(cfg, t, u, done + 1, total, used + n) && Reaches(cfg, t, u, k, f, m)
  {
    hide Reaches;
    t := Next(cfg, closing, Closed(done), u, k, f, m, done, total);
    t := Next(cfg, t, Accounted(done), u, k, f, m, done, total);
  }

  /** One after another, single-token calls bring the day to just below the limit. */
  lemma {:induction false} SpendSingly(cfg: Config, u: User, k: nat, m: nat, n: nat) returns (t: State)
    requires u != "" && k >= 1 && m >= 1 && n < cfg.limit
    ensures Standing(cfg, t, u, n, n, n) && Reaches(cfg, t, u, k, 0, m)
  {
    if n == 0 {
      t := Empty(cfg);
      assert Committed(t, u) == {};
      assert Feasible(cfg, t, []) && Within(cfg, t, [], u, k, m) && Run(cfg, t, []) == t;
      assert Failures(cfg, t, [], u) == 0;
    } else {
      t := SpendSingly(cfg, u, k, m, n - 1);
      t := AdmitOne(cfg, u, k, 0, m, n - 1, n - 1, n - 1, false, t);
      t := RelayOne(cfg, u, k, 0, m, n - 1, n, n - 1, 1, t);
    }
  }

  lemma {:induction false} AdmitMany(cfg: Config, u: User, k: nat, m: nat, n: nat, j: nat, s: State)
    returns (t: State)
    requires u != "" && n < cfg.limit && j <= k
    requires Standing(cfg, s, u, n, n, n) && Reaches(cfg, s, u, k, 0, m)
    ensures Standing(cfg, t, u, n, n + j, n) && Reaches(cfg, t, u, k, 0, m)
    decreases j
  {
    hide Reaches, Standing;
    t := s;
    if j != 0 {
      t := AdmitMany(cfg, u, k, m, n, j - 1, s);
      t := AdmitOne(cfg, u, k, 0, m, n, n + j - 1, n, false, t);
    }
  }

  lemma {:induction false} RelayMany(cfg: Config, u: User, k: nat, m: nat, n: nat, i: nat, s: State)
    returns (t: State)
    requires u != "" && m >= 1 && i <= k
    requires Standing(cfg, s, u, n, n + k, n) && Reaches(cfg, s, u, k, 0, m)
    ensures Standing(cfg, t, u, n + i, n + k, n + i * m) && Reaches(cfg, t, u, k, 0, m)
    decreases i
  {
    hide Reaches, Standing;
    t := s;
    if i != 0 {
      t := RelayMany(cfg, u, k, m, n, i - 1, s);
      assert n + (i - 1) * m + m == n + i * m;
      t := RelayOne(cfg, u, k, 0, m, n + i - 1, n + k, n + (i - 1) * m, m, t);
    }
  }

  /** One after another, calls whose check fails each add `m`, far above the limit already. */
  lemma {:induction false} FailMany(cfg: Config, u: User, k: nat, f: nat, m: nat, done: nat, used: nat, s: State)
    returns (t: State)
    requires u != "" && k >= 1 && m >= 1
    requires Standing(cfg, s, u, done, done, used) && Reaches(cfg, s, u, k, 0, m)
    ensures Standing(cfg, t, u, done + f, done + f, used + f * m) && Reaches(cfg, t, u, k, f, m)
    decreases f
  {
    hide Reaches, Standing;
    t := s;
    if f != 0 {
      t := FailMany(cfg, u, k, f - 1, m, done, used, s);
      assert used + (f - 1) * m + m == used + f * m;
      t := AdmitOne(cfg, u, k, f - 1, m, done + f - 1, done + f - 1, used + (f - 1) * m, true, t);
      t := RelayOne(cfg, u, k, f, m, done + f - 1, done + f, used + (f - 1) * m, m, t);
    }
  }

  /** The bound of `OvershootBound` is attained for every limit, every `k` and every `m` from one up, and every number
      of failed checks. */
  lemma OvershootAttained(cfg: Config, u: User, k: nat, f: nat, m: nat)
    requires u != "" && cfg.limit >= 1 && k >= 1 && m >= 1
    ensures exists es ::
              && Feasible(cfg, Empty(cfg), es) && Within(cfg, Empty(cfg), es, u, k, m)
              && Failures(cfg, Empty(cfg), es, u) == f
              && Used(Run(cfg, Empty(cfg), es).ledger, u, 0) == cfg.limit - 1 + (k + f) * m
  {
    var n := cfg.limit - 1;
    var s := SpendSingly(cfg, u, k, m, n);
    s := AdmitMany(cfg, u, k, m, n, k, s);
    s := RelayMany(cfg, u, k, m, n, k, s);
    s := FailMany(cfg, u, k, f, m, n + k, n + k * m, s);
    assert k * m + f * m == (k + f) * m;
  }
}
