/** Both budget stores refine the ledger, so without Redis errors they answer alike; with errors Redis only allows
    more. */
module BudgetEquivalence {

  import opened Common
  import opened Calendar
  import opened Budgets

  datatype Op = Check(user: User, limit: int) | Add(user: User, tokens: int)

  /** A call begun at second `at`; `first` and `second` say how its Redis commands went. */
  datatype Call = Call(op: Op, at: nat, first: Reply, second: Reply)

  function Day(c: Call): nat {
    DayOf(c.at)
  }

  // ---- one call on each store; an answer only for a check ------------------------------------------------

  function LedgerCall(l: Ledger, c: Call): (Ledger, Option<bool>) {
    match c.op
    case Check(user, limit) => (l, Some(Allowed(l, user, limit, Day(c))))
    case Add(user, tokens) => (Spend(l, user, tokens, Day(c)), None)
  }

  function MemoryCall(m: map<User, Entry>, c: Call): (map<User, Entry>, Option<bool>)
    requires Datable(Day(c))
  {
    match c.op
    case Check(user, limit) => var (m', ok) := MemoryCheck(m, user, limit, DateText(Day(c))); (m', Some(ok))
    case Add(user, tokens) => (MemoryAdd(m, user, tokens, DateText(Day(c))), None)
  }

  function RedisCall(keys: Keys, c: Call): (Keys, Option<bool>)
    requires Datable(Day(c))
  {
    match c.op
    case Check(user, limit) => (keys, Some(RedisCheck(keys, user, limit, c.at, c.first)))
    case Add(user, tokens) => (RedisAdd(keys, user, tokens, c.at, c.first, c.second), None)
  }

  // ---- whole traces --------------------------------------------------------------------------------------

  ghost predicate Trace(cs: seq<Call>, from: nat) {
    && (forall i | 0 <= i < |cs| :: from <= Day(cs[i]) && Datable(Day(cs[i])))
    && (forall i, j | 0 <= i < j < |cs| :: Day(cs[i]) <= Day(cs[j]))
  }

  predicate Answered(c: Call) {
    c.first.Heard? && c.first.lag <= OP_TIMEOUT && c.second.Heard?
  }

  function LedgerAnswers(l: Ledger, cs: seq<Call>): seq<Option<bool>>
    decreases cs
  {
    if cs == [] then [] else
      var (l', a) := LedgerCall(l, cs[0]);
      [a] + LedgerAnswers(l', cs[1..])
  }

  function MemoryAnswers(m: map<User, Entry>, cs: seq<Call>): seq<Option<bool>>
    requires forall c | c in cs :: Datable(Day(c))
    decreases cs
  {
    if cs == [] then [] else
      var (m', a) := MemoryCall(m, cs[0]);
      [a] + MemoryAnswers(m', cs[1..])
  }

  function RedisAnswers(keys: Keys, cs: seq<Call>): seq<Option<bool>>
    requires forall c | c in cs :: Datable(Day(c))
    decreases cs
  {
    if cs == [] then [] else
      var (keys', a) := RedisCall(keys, cs[0]);
      [a] + RedisAnswers(keys', cs[1..])
  }

  // ---- what the ledger holds: the tokens accepted for that user on that day --------------------------------

  function LedgerAfter(cs: seq<Call>): Ledger {
    if cs == [] then map[] else LedgerCall(LedgerAfter(cs[..|cs| - 1]), cs[|cs| - 1]).0
  }

  function Accepted(cs: seq<Call>, user: User, day: nat): nat {
    if cs == [] then 0
    else
      var c := cs[|cs| - 1];
      Accepted(cs[..|cs| - 1], user, day)
      + if c.op.Add? && c.op.user == user && c.op.tokens > 0 && Day(c) == day then c.op.tokens else 0
  }

  lemma {:induction false} LedgerHoldsWhatWasAdded(cs: seq<Call>, user: User, day: nat)
    requires user != ""
    ensures Used(LedgerAfter(cs), user, day) == Accepted(cs, user, day)
  {
    if cs != [] {
      LedgerHoldsWhatWasAdded(cs[..|cs| - 1], user, day);
    }
  }

  // ---- the key of a day's count ---------------------------------------------------------------------------

  /** No user name, colons included, can make two (user, day) pairs share a key. */
  lemma KeyInjective(u: User, d: nat, v: User, e: nat)
    requires Datable(d) && Datable(e) && Key(u, d) == Key(v, e)
    ensures u == v && d == e
  {
    hide DateText;
    var k, n := Key(u, d), |Key(u, d)|;
    assert k[11..n - 11] == u && k[n - 10..] == DateText(d);
    assert k[11..n - 11] == v && k[n - 10..] == DateText(e);
    DateTextInjective(d, e);
  }

  // ---- the memory store -----------------------------------------------------------------------------------

  ghost predicate NothingAhead(l: Ledger, today: nat) {
    forall u, d | d > today :: Used(l, u, d) == 0
  }

  lemma NothingAheadAfter(l: Ledger, today: nat, c: Call)
    requires NothingAhead(l, today) && today <= Day(c)
    ensures NothingAhead(LedgerCall(l, c).0, Day(c))
  {
    forall u, d | d > Day(c) ensures Used(LedgerCall(l, c).0, u, d) == 0 {
      assert Used(l, u, d) == 0;
    }
  }

  function Filed(m: map<User, Entry>, u: User, date: string): int {
    if u in m && m[u].date == date then m[u].tokens else 0
  }

  ghost predicate MemoryRefines(m: map<User, Entry>, l: Ledger, today: nat) {
    && NothingAhead(l, today)
    && forall u, d | d >= today && Datable(d) :: Used(l, u, d) == Filed(m, u, DateText(d))
  }

  lemma MemoryCallRefines(m: map<User, Entry>, l: Ledger, today: nat, c: Call)
    requires MemoryRefines(m, l, today) && today <= Day(c) && Datable(Day(c))
    ensures MemoryRefines(MemoryCall(m, c).0, LedgerCall(l, c).0, Day(c))
    ensures MemoryCall(m, c).1 == LedgerCall(l, c).1
  {
    NothingAheadAfter(l, today, c);
    var m', l', date := MemoryCall(m, c).0, LedgerCall(l, c).0, DateText(Day(c));
    assert Used(l, c.op.user, Day(c)) == Filed(m, c.op.user, date);
    forall u, d | d >= Day(c) && Datable(d)
      ensures Used(l', u, d) == Filed(m', u, DateText(d))
    {
      assert Used(l, u, d) == Filed(m, u, DateText(d));
      if DateText(d) == date {
        DateTextInjective(d, Day(c));
      }
    }
  }

  // ---- the Redis store ------------------------------------------------------------------------------------

  function Stored(keys: Keys, key: string): int {
    if key in keys then keys[key].value else 0
  }

  /** `exact` while no command has failed; after a failure the key may only hold less than the ledger. A key
      that expires does so after its day, with the time one command may take to spare. */
  ghost predicate RedisRefines(keys: Keys, l: Ledger, today: nat, exact: bool) {
    && NothingAhead(l, today)
    && forall u, d | d >= today && Datable(d) ::
         && Stored(keys, Key(u, d)) <= Used(l, u, d)
         && (exact ==> Stored(keys, Key(u, d)) == Used(l, u, d))
         && Outlives(keys, Key(u, d), d)
  }

  predicate Outlives(keys: Keys, key: string, d: nat) {
    key in keys && keys[key].expiry.Some? ==> d * SECONDS_PER_DAY + TTL_SECONDS <= keys[key].expiry.value
  }

  /** The TTL cannot expire a key while its own day still counts on it. */
  lemma LiveWithinItsDay(keys: Keys, key: string, at: nat, lag: nat)
    requires key in keys && Outlives(keys, key, DayOf(at)) && lag <= OP_TIMEOUT
    ensures Live(keys, key, at + lag)
  {
    assert at < DayOf(at) * SECONDS_PER_DAY + SECONDS_PER_DAY;
  }

  lemma RedisCheckRefines(keys: Keys, l: Ledger, today: nat, c: Call, exact: bool)
    requires RedisRefines(keys, l, today, exact) && today <= Day(c) && Datable(Day(c)) && c.op.Check?
    ensures LedgerCall(l, c).1 == Some(true) ==> RedisCall(keys, c).1 == Some(true)
    ensures exact && Answered(c) ==> RedisCall(keys, c).1 == LedgerCall(l, c).1
  {
    var key := Key(c.op.user, Day(c));
    assert Stored(keys, key) <= Used(l, c.op.user, Day(c));
    if exact && Answered(c) && key in keys {
      LiveWithinItsDay(keys, key, c.at, c.first.lag);
    }
  }

  lemma RedisAddRefines(keys: Keys, l: Ledger, today: nat, c: Call, exact: bool)
    requires RedisRefines(keys, l, today, exact) && today <= Day(c) && Datable(Day(c)) && c.op.Add?
    ensures RedisRefines(RedisCall(keys, c).0, LedgerCall(l, c).0, Day(c), exact && Answered(c))
  {
    NothingAheadAfter(l, today, c);
    var keys', l', key := RedisCall(keys, c).0, LedgerCall(l, c).0, Key(c.op.user, Day(c));
    assert Stored(keys, key) <= Used(l, c.op.user, Day(c)) && Outlives(keys, key, Day(c));
    if exact && Answered(c) && key in keys {
      LiveWithinItsDay(keys, key, c.at, c.first.lag);
    }
    assert Day(c) * SECONDS_PER_DAY <= c.at;
    forall u, d | d >= Day(c) && Datable(d)
      ensures Stored(keys', Key(u, d)) <= Used(l', u, d)
      ensures exact && Answered(c) ==> Stored(keys', Key(u, d)) == Used(l', u, d)
      ensures Outlives(keys', Key(u, d), d)
    {
      assert Stored(keys, Key(u, d)) <= Used(l, u, d) && Outlives(keys, Key(u, d), d);
      if Key(u, d) == key {
        KeyInjective(u, d, c.op.user, Day(c));
      }
    }
  }

  // ---- equivalence over whole traces ----------------------------------------------------------------------

  lemma {:induction false} MemoryAnswersLikeLedger(m: map<User, Entry>, l: Ledger, today: nat, cs: seq<Call>)
    requires MemoryRefines(m, l, today) && Trace(cs, today)
    ensures MemoryAnswers(m, cs) == LedgerAnswers(l, cs)
    decreases cs
  {
    if cs != [] {
      MemoryCallRefines(m, l, today, cs[0]);
      MemoryAnswersLikeLedger(MemoryCall(m, cs[0]).0, LedgerCall(l, cs[0]).0, Day(cs[0]), cs[1..]);
    }
  }

  lemma {:induction false} RedisAnswersAtLeastAsOften(keys: Keys, l: Ledger, today: nat, cs: seq<Call>, exact: bool)
    requires RedisRefines(keys, l, today, exact) && Trace(cs, today)
    ensures |RedisAnswers(keys, cs)| == |LedgerAnswers(l, cs)| == |cs|
    ensures forall i | 0 <= i < |cs| ::
              LedgerAnswers(l, cs)[i] == Some(true) ==> RedisAnswers(keys, cs)[i] == Some(true)
    ensures exact && (forall c | c in cs :: Answered(c)) ==> RedisAnswers(keys, cs) == LedgerAnswers(l, cs)
    decreases cs
  {
    if cs != [] {
      var c := cs[0];
      var keys', l' := RedisCall(keys, c).0, LedgerCall(l, c).0;
      if c.op.Check? {
        RedisCheckRefines(keys, l, today, c, exact);
        assert RedisRefines(keys', l', Day(c), exact && Answered(c));
      } else {
        RedisAddRefines(keys, l, today, c, exact);
      }
      RedisAnswersAtLeastAsOften(keys', l', Day(c), cs[1..], exact && Answered(c));
    }
  }

  /** Without Redis errors the two stores are the same store: both answer from the tokens accepted so far. */
  lemma StoresAnswerAlike(cs: seq<Call>)
    requires Trace(cs, 0) && forall c | c in cs :: Answered(c)
    ensures MemoryAnswers(map[], cs) == RedisAnswers(map[], cs) == LedgerAnswers(map[], cs)
  {
    MemoryAnswersLikeLedger(map[], map[], 0, cs);
    RedisAnswersAtLeastAsOften(map[], map[], 0, cs, true);
  }

  /** Whatever Redis commands fail, a call the ledger would allow is never refused. */
  lemma ErrorsNeverRefuse(cs: seq<Call>, i: nat)
    requires Trace(cs, 0) && i < |cs|
    ensures |LedgerAnswers(map[], cs)| == |RedisAnswers(map[], cs)| == |cs|
    ensures LedgerAnswers(map[], cs)[i] == Some(true) ==> RedisAnswers(map[], cs)[i] == Some(true)
  {
    RedisAnswersAtLeastAsOften(map[], map[], 0, cs, true);
  }
}
