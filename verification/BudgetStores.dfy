/** The two budget stores as objects, each kept to the ledger it stands for. */
module BudgetStores {

  import opened Common
  import opened Calendar
  import opened Budgets
  import opened BudgetEquivalence

  class MemoryUserBudgetStore {
    var tokens: map<User, Entry>
    ghost var ledger: Ledger
    ghost var today: nat

    ghost predicate Valid()
      reads this
    {
      MemoryRefines(tokens, ledger, today)
    }

    constructor ()
      ensures Valid() && tokens == map[] && ledger == map[] && today == 0
    {
      tokens, ledger, today := map[], map[], 0;
    }

    method Check(user: User, limit: int, day: nat) returns (ok: bool)
      requires Valid() && today <= day && Datable(day)
      modifies this
      ensures Valid() && ledger == old(ledger) && today == day
      ensures ok == Allowed(ledger, user, limit, day)
      ensures tokens == MemoryCheck(old(tokens), user, limit, DateText(day)).0
    {
      MemoryCallRefines(tokens, ledger, today, Call(BudgetEquivalence.Check(user, limit), day * SECONDS_PER_DAY,
                        Lost, Lost));
      today := day;
      if user == "" || limit <= 0 {
        return true;
      }
      if user in tokens && tokens[user].date != DateText(day) {
        tokens := tokens - {user};
        return true;
      }
      return !(user in tokens && tokens[user].tokens >= limit);
    }

    method Add(user: User, amount: int, day: nat)
      requires Valid() && today <= day && Datable(day)
      modifies this
      ensures Valid() && ledger == Spend(old(ledger), user, amount, day) && today == day
      ensures tokens == MemoryAdd(old(tokens), user, amount, DateText(day))
    {
      MemoryCallRefines(tokens, ledger, today, Call(BudgetEquivalence.Add(user, amount), day * SECONDS_PER_DAY, Lost,
                        Lost));
      ledger := Spend(ledger, user, amount, day);
      today := day;
      if user == "" || amount <= 0 {
        return;
      }
      var date := DateText(day);
      if user in tokens && tokens[user].date == date {
        tokens := tokens[user := tokens[user].(tokens := tokens[user].tokens + amount)];
      } else {
        tokens := tokens[user := Entry(date, amount)];
      }
    }
  }

  /** The Redis server: single commands, each carried out at a moment of the server's choosing. */
  class RedisServer {
    var keys: Keys

    constructor ()
      ensures keys == map[]
    {
      keys := map[];
    }

    method Read(key: string, time: nat) returns (r: Option<int>)
      ensures r == Get(keys, key, time)
    {
      r := None;
      if key in keys && (keys[key].expiry == None || time < keys[key].expiry.value) {
        r := Some(keys[key].value);
      }
    }

    method Increase(key: string, n: int, time: nat) returns (r: int)
      modifies this
      ensures keys == IncrBy(old(keys), key, n, time) && r == keys[key].value
    {
      var found := Read(key, time);
      if found.Some? {
        keys := keys[key := keys[key].(value := found.value + n)];
      } else {
        keys := keys[key := Cell(n, None)];
      }
      r := keys[key].value;
    }

    method SetExpiry(key: string, ttl: nat, time: nat)
      modifies this
      ensures keys == Expire(old(keys), key, ttl, time)
    {
      if key in keys && (keys[key].expiry == None || time < keys[key].expiry.value) {
        keys := keys[key := keys[key].(expiry := Some(time + ttl))];
      }
    }
  }

  class RedisUserBudgetStore {
    const client: RedisServer
    ghost var ledger: Ledger
    ghost var today: nat
    ghost var exact: bool  // no command has failed so far

    ghost predicate Valid()
      reads this, client
    {
      RedisRefines(client.keys, ledger, today, exact)
    }

    constructor (client: RedisServer)
      requires client.keys == map[]
      ensures Valid() && this.client == client && ledger == map[] && today == 0 && exact
    {
      this.client := client;
      ledger, today, exact := map[], 0, true;
    }

    /** Never refuses what the ledger allows; answers like the ledger while no command has failed. */
    method Check(user: User, limit: int, at: nat, get: Reply) returns (ok: bool)
      requires Valid() && today <= DayOf(at) && Datable(DayOf(at))
      ensures ok == RedisCheck(client.keys, user, limit, at, get)
      ensures Allowed(ledger, user, limit, DayOf(at)) ==> ok
      ensures exact && get.Heard? && get.lag <= OP_TIMEOUT ==> ok == Allowed(ledger, user, limit, DayOf(at))
    {
      RedisCheckRefines(client.keys, ledger, today, Call(BudgetEquivalence.Check(user, limit), at, get, Heard(0)),
                        exact);
      if user == "" || limit <= 0 || !get.Heard? {
        return true;
      }
      var used := client.Read(Key(user, DayOf(at)), at + get.lag);
      ok := (if used == None then 0 else used.value) < limit;
    }

    method Add(user: User, tokens: int, at: nat, incr: Reply, expire: Reply)
      requires Valid() && today <= DayOf(at) && Datable(DayOf(at))
      modifies this, client
      ensures Valid() && ledger == Spend(old(ledger), user, tokens, DayOf(at)) && today == DayOf(at)
      ensures exact == (old(exact) && incr.Heard? && incr.lag <= OP_TIMEOUT && expire.Heard?)
      ensures client.keys == RedisAdd(old(client.keys), user, tokens, at, incr, expire)
    {
      hide RedisRefines;
      RedisAddRefines(client.keys, ledger, today, Call(BudgetEquivalence.Add(user, tokens), at, incr, expire), exact);
      ledger := Spend(ledger, user, tokens, DayOf(at));
      today := DayOf(at);
      exact := exact && incr.Heard? && incr.lag <= OP_TIMEOUT && expire.Heard?;
      if user == "" || tokens <= 0 || incr.Lost? {
        return;
      }
      var key := Key(user, DayOf(at));
      var newTotal := client.Increase(key, tokens, at + incr.lag);
      if incr.Heard? && newTotal == tokens && !expire.Lost? {
        client.SetExpiry(key, TTL_SECONDS, at + incr.lag + expire.lag);
      }
    }
  }
}
