/** The edges of the budget stores: no user or limit, the first and the later writes of a day, entries of another day. */
module BudgetEdges {

  import opened Common
  import opened Calendar
  import opened Budgets

  /** Without a user, or with a limit of zero or less, no store refuses anything. */
  lemma NoLimitRefusesNothing(m: map<User, Entry>, keys: Keys, l: Ledger, user: User, limit: int, at: nat, get: Reply)
    requires Datable(DayOf(at)) && (user == "" || limit <= 0)
    ensures Allowed(l, user, limit, DayOf(at)) && RedisCheck(keys, user, limit, at, get)
    ensures MemoryCheck(m, user, limit, DateText(DayOf(at))) == (m, true)
  {
  }

  /** With both, a call is allowed while the day's count is below the limit, and the limit is not below it. */
  lemma LimitIsReached(l: Ledger, user: User, limit: int, day: nat)
    requires user != "" && limit >= 1
    ensures Allowed(l, user, limit, day) <==> Used(l, user, day) < limit
  {
  }

  /** A day's key is the user's name between a fixed prefix and the date. */
  lemma KeyReads(user: User, day: nat)
    requires Datable(day)
    ensures Key(user, day) == "srun:token:" + user + ":" + DateText(day)
  {
  }

  /** The first amount filed under a day's key lives 25 hours, and not a second longer. */
  lemma FirstWriteLivesADay(keys: Keys, user: User, tokens: int, at: nat, lag: nat, more: nat, time: nat)
    requires Datable(DayOf(at)) && user != "" && tokens > 0
    requires !Live(keys, Key(user, DayOf(at)), at + lag)
    ensures var keys' := RedisAdd(keys, user, tokens, at, Heard(lag), Heard(more));
            && Get(keys', Key(user, DayOf(at)), at + lag) == Some(tokens)
            && (Live(keys', Key(user, DayOf(at)), time) <==> time < at + lag + more + 25 * 3600)
  {
  }

  /** A later amount adds to the key's count and leaves the moment it expires alone. */
  lemma LaterWritesKeepExpiry(keys: Keys, user: User, tokens: int, at: nat, lag: nat, expire: Reply)
    requires Datable(DayOf(at)) && user != "" && tokens > 0
    requires Live(keys, Key(user, DayOf(at)), at + lag) && keys[Key(user, DayOf(at))].value != 0
    ensures var key := Key(user, DayOf(at));
            var keys' := RedisAdd(keys, user, tokens, at, Heard(lag), expire);
            key in keys' && keys'[key] == Cell(keys[key].value + tokens, keys[key].expiry)
  {
  }

  /** The memory store keeps one entry a user: asking about another day drops it, adding for another day replaces it.
      */
  lemma StaleEntryGoes(m: map<User, Entry>, user: User, limit: int, tokens: int, today: string)
    requires user != "" && user in m && m[user].date != today && limit > 0 && tokens > 0
    ensures user !in MemoryCheck(m, user, limit, today).0
    ensures MemoryAdd(m, user, tokens, today) == m[user := Entry(today, tokens)]
    ensures forall v | v in m && v != user ::
              v in MemoryCheck(m, user, limit, today).0 && MemoryCheck(m, user, limit, today).0[v] == m[v]
  {
  }
}
