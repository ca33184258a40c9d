/** The proxy's code, one method for each stretch between two awaits, over the semaphore counter and the calls'
    locals. */
module ProxyServer {

  import opened Common
  import opened Budgets
  import opened Proxy
  import opened ProxyGate
  import opened TokenRegistries

  class LlmProxy {
    const cfg: Config
    var free: int
    var calls: map<CallId, Call>
    var ledger: Ledger
    var today: nat

    ghost function View(): State
      reads this
    {
      State(free, calls, ledger, today)
    }

    /** Permits are conserved, and every call's permit and response fit its phase. */
    ghost predicate Valid()
      reads this
    {
      Conserved(cfg, View())
    }

    constructor (cfg: Config)
      ensures Valid() && this.cfg == cfg && View() == Empty(cfg)
    {
      this.cfg := cfg;
      free := if cfg.permits > 0 then cfg.permits else 0;
      calls, ledger, today := map[], map[], 0;
      new;
      assert Holders(calls) == {};
    }

    /** From the request to the budget check: a token must resolve to a session, and without a user there is no
        check. */
    method Start(c: CallId, token: Option<Token>, registry: TokenRegistry) returns (status: int)
      requires Valid() && c !in calls
      modifies this
      ensures Valid()
      ensures var known := token.Some? && token.value in registry.tokenToSession;
              var user := if known && token.value in registry.tokenToUser then registry.tokenToUser[token.value]
                          else "";
              && status == (if known then 200 else 401)
              && View() == (if known then Apply(cfg, old(View()), Begin(c, user)) else old(View()))
              && (known ==> c in calls && calls[c].user == user && !calls[c].acquired
                            && calls[c].phase == if user == "" then Admitted else Checking(today))
    {
      if token == None {
        return 401;
      }
      var session := registry.Resolve(token.value);
      if session == None {
        return 401;
      }
      var user := registry.ResolveUser(token.value);
      StepConserves(cfg, View(), Begin(c, user));
      var phase := Admitted;
      if user != "" {
        phase := Checking(today);
      }
      calls := calls[c := Call(user, phase, false, false, 0, false)];
      status := 200;
    }

    /** The store reads the counter of the day the call asked about; the call itself is still suspended. */
    method ReadCounter(c: CallId)
      requires Valid() && Enabled(cfg, View(), CheckRead(c))
      modifies this
      ensures View() == Apply(cfg, old(View()), CheckRead(c))
      ensures Valid()
      ensures old(calls[c]).user != "" && cfg.limit >= 1 ==>
                calls[c].phase == Answering(Used(ledger, old(calls[c]).user, old(calls[c]).phase.day) < cfg.limit)
    {
      StepConserves(cfg, View(), CheckRead(c));
      var call := calls[c];
      var within := call.user == "" || cfg.limit <= 0 || Used(ledger, call.user, call.phase.day) < cfg.limit;
      calls := calls[c := call.(phase := Answering(within))];
    }

    /** The check returned: what it read decides, whatever has been added since. A check that failed lets the call
        pass. */
    method AfterCheck(c: CallId, answered: bool) returns (status: int)
      requires Valid() && Enabled(cfg, View(), if answered then CheckAnswered(c) else CheckFailed(c))
      modifies this
      ensures View() == Apply(cfg, old(View()), if answered then CheckAnswered(c) else CheckFailed(c))
      ensures Valid()
      ensures status == 429 <==> answered && !old(calls[c]).phase.within
      ensures status == 429 <==> calls[c].phase == Ended(Denied)
    {
      StepConserves(cfg, View(), if answered then CheckAnswered(c) else CheckFailed(c));
      var call := calls[c];
      status := 200;
      if !answered || call.phase.within {
        calls := calls[c := call.(phase := Admitted)];
      } else {
        status := 429;
        calls := calls[c := call.(phase := Ended(Denied))];
      }
    }

    /** `sem.acquire` returned, or there is no semaphore; the first send begins. */
    method AfterAcquire(c: CallId)
      requires Valid() && Enabled(cfg, View(), Enter(c))
      modifies this
      ensures View() == Apply(cfg, old(View()), Enter(c))
      ensures Valid()
      ensures calls[c].phase == Sending(1) && calls[c].acquired == (cfg.permits > 0)
      ensures free == if cfg.permits > 0 then old(free) - 1 else old(free)
    {
      StepConserves(cfg, View(), Enter(c));
      if cfg.permits > 0 {
        free := free - 1;
        calls := calls[c := calls[c].(acquired := true)];
      } else {
        calls := calls[c := calls[c].(acquired := false)];
      }
      calls := calls[c := calls[c].(phase := Sending(1))];
    }

    /** `_release_sem`: the closure's flag makes every use after the first a no-op. */
    method ReleaseSem(c: CallId)
      requires c in calls
      modifies this
      ensures View() == old(View()).(free := FreeAfterRelease(cfg, old(View()), old(calls[c])),
                                     calls := old(calls)[c := ReleaseOn(cfg, old(calls[c]))])
    {
      if cfg.permits > 0 && !calls[c].released {
        calls := calls[c := calls[c].(released := true, releases := calls[c].releases + 1)];
        free := free + 1;
      }
    }

    /** `client.send` returned or failed; the loop tries twice in all. */
    method AfterSend(c: CallId, ok: bool)
      requires Valid() && Enabled(cfg, View(), if ok then Sent(c) else SendFailed(c))
      modifies this
      ensures View() == Apply(cfg, old(View()), if ok then Sent(c) else SendFailed(c))
      ensures Valid()
      ensures ok ==> calls[c].phase == Relaying && calls[c].open && free == old(free)
      ensures !ok && old(calls)[c].phase == Sending(1) ==> calls[c].phase == Sending(2) && free == old(free)
      ensures !ok && old(calls)[c].phase == Sending(2) ==>
                calls[c].phase == Ended(GaveUp) && free == if cfg.permits > 0 then old(free) + 1 else old(free)
    {
      StepConserves(cfg, View(), if ok then Sent(c) else SendFailed(c));
      if ok {
        calls := calls[c := calls[c].(phase := Relaying, open := true)];
      } else if calls[c].phase.attempt == 1 {
        calls := calls[c := calls[c].(phase := Sending(2))];
      } else {
        ReleaseSem(c);
        calls := calls[c := calls[c].(phase := Ended(GaveUp))];
      }
    }

    /** The relay is over, however it ended, and the response is being closed. */
    method AfterRelay(c: CallId, usage: Option<int>)
      requires Valid() && Enabled(cfg, View(), RelayOver(c, usage))
      modifies this
      ensures View() == Apply(cfg, old(View()), RelayOver(c, usage))
      ensures Valid()
    {
      StepConserves(cfg, View(), RelayOver(c, usage));
      calls := calls[c := calls[c].(phase := Closing(usage))];
    }

    /** `resp.aclose` returned: the permit goes back before the accounting. */
    method AfterClose(c: CallId)
      requires Valid() && Enabled(cfg, View(), Closed(c))
      modifies this
      ensures View() == Apply(cfg, old(View()), Closed(c))
      ensures Valid()
      ensures calls[c].releases == (if cfg.Gated() then 1 else 0) && !calls[c].open
      ensures free == if cfg.permits > 0 then old(free) + 1 else old(free)
      ensures var usage := old(calls)[c].phase.usage;
              calls[c].phase == if usage.Some? && calls[c].user != "" then Accounting(today, usage.value)
                                else Ended(Relayed)
    {
      StepConserves(cfg, View(), Closed(c));
      ReleaseSem(c);
      var call := calls[c];
      var phase := Ended(Relayed);
      if call.phase.usage.Some? && call.user != "" {
        phase := Accounting(today, call.phase.usage.value);
      }
      calls := calls[c := call.(phase := phase, open := false)];
    }

    /** The store carried out the addition. */
    method AfterAccounting(c: CallId)
      requires Valid() && Enabled(cfg, View(), Accounted(c))
      modifies this
      ensures View() == Apply(cfg, old(View()), Accounted(c))
      ensures Valid()
      ensures var user, day, n := old(calls)[c].user, old(calls)[c].phase.day, old(calls)[c].phase.tokens;
              user != "" ==> Used(ledger, user, day) == Used(old(ledger), user, day) + if n > 0 then n else 0
    {
      StepConserves(cfg, View(), Accounted(c));
      var call := calls[c];
      ledger := Spend(ledger, call.user, call.phase.tokens, call.phase.day);
      calls := calls[c := call.(phase := Ended(Relayed))];
    }
  }
}
