/** The per-user daily token counter: one abstract ledger, and what the memory and the Redis store compute. */
module Budgets {

  import opened Common
  import opened Calendar

  // ---- the ledger: what both stores are meant to be -------------------------------------------------------

  type Ledger = map<(User, nat), nat>

  function Used(l: Ledger, user: User, day: nat): nat {
    if (user, day) in l then l[(user, day)] else 0
  }

  /** An empty user or a non-positive amount switches the whole operation off. */
  predicate Ignored(user: User, amount: int) {
    user == "" || amount <= 0
  }

  predicate Allowed(l: Ledger, user: User, limit: int, day: nat) {
    Ignored(user, limit) || Used(l, user, day) < limit
  }

  function Spend(l: Ledger, user: User, tokens: int, day: nat): Ledger {
    if Ignored(user, tokens) then l else l[(user, day) := Used(l, user, day) + tokens]
  }

  // ---- the in-process store -------------------------------------------------------------------------------

  datatype Entry = Entry(date: string, tokens: int)

  function MemoryCheck(m: map<User, Entry>, user: User, limit: int, today: string): (map<User, Entry>, bool) {
    if Ignored(user, limit) then (m, true)
    else if user in m && m[user].date != today then (m - {user}, true)
    else (m, !(user in m && m[user].tokens >= limit))
  }

  function MemoryAdd(m: map<User, Entry>, user: User, tokens: int, today: string): map<User, Entry> {
    if Ignored(user, tokens) then m
    else if user in m && m[user].date == today then m[user := Entry(today, m[user].tokens + tokens)]
    else m[user := Entry(today, tokens)]
  }

  // ---- the Redis store ------------------------------------------------------------------------------------

  const TTL_SECONDS: nat := 90000
  const OP_TIMEOUT: nat := 2

  datatype Cell = Cell(value: int, expiry: Option<nat>)

  type Keys = map<string, Cell>

  predicate Live(keys: Keys, key: string, time: nat) {
    key in keys && (keys[key].expiry == None || time < keys[key].expiry.value)
  }

  function Get(keys: Keys, key: string, time: nat): Option<int> {
    if Live(keys, key, time) then Some(keys[key].value) else None
  }

  function IncrBy(keys: Keys, key: string, n: int, time: nat): Keys {
    keys[key := if Live(keys, key, time) then keys[key].(value := keys[key].value + n) else Cell(n, None)]
  }

  function Expire(keys: Keys, key: string, ttl: nat, time: nat): Keys {
    if Live(keys, key, time) then keys[key := keys[key].(expiry := Some(time + ttl))] else keys
  }

  /** How one Redis command went: answered in time, carried out though no answer came, or never carried out.
      `lag` is the delay in seconds before the server carries it out. */
  datatype Reply = Heard(lag: nat) | Unheard(lag: nat) | Lost

  function Key(user: User, day: nat): string
    requires Datable(day)
  {
    "srun:token:" + user + ":" + DateText(day)
  }

  /** The day a moment falls in. */
  function DayOf(at: nat): nat {
    at / SECONDS_PER_DAY
  }

  function RedisCheck(keys: Keys, user: User, limit: int, at: nat, get: Reply): bool
    requires Datable(DayOf(at))
  {
    if Ignored(user, limit) || !get.Heard? then true
    else
      match Get(keys, Key(user, DayOf(at)), at + get.lag)
      case None => 0 < limit
      case Some(used) => used < limit
  }

  function RedisAdd(keys: Keys, user: User, tokens: int, at: nat, incr: Reply, expire: Reply): Keys
    requires Datable(DayOf(at))
  {
    if Ignored(user, tokens) || incr.Lost? then keys
    else
      var key := Key(user, DayOf(at));
      var counted := IncrBy(keys, key, tokens, at + incr.lag);
      if incr.Unheard? || counted[key].value != tokens || expire.Lost? then counted
      else Expire(counted, key, TTL_SECONDS, at + incr.lag + expire.lag)
  }
}
