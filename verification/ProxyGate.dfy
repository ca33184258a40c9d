/** Semaphore conservation in every run of the proxy, and when a permit is lost for good. */
module ProxyGate {

  import opened Proxy

  function Holders(calls: map<CallId, Call>): set<CallId> {
    set c | c in calls && calls[c].acquired && !calls[c].released
  }

  function OpenOnes(calls: map<CallId, Call>): set<CallId> {
    set c | c in calls && calls[c].open
  }

  /** How a call's phase, its permit and its upstream response go together. */
  predicate Proper(gated: bool, call: Call) {
    && call.releases == (if call.released then 1 else 0)
    && (call.released ==> call.acquired)
    && (call.acquired ==> gated)
    && (call.open ==> call.acquired == gated && !call.released)
    && match call.phase
       case Checking(_) => !call.acquired && !call.open
       case Answering(_) => !call.acquired && !call.open
       case Admitted => !call.acquired && !call.open
       case Sending(attempt) => call.acquired == gated && !call.released && !call.open && 1 <= attempt <= 2
       case Relaying => call.acquired == gated && !call.released && call.open
       case Closing(_) => call.acquired == gated && !call.released && call.open
       case Accounting(_, _) => call.acquired == call.released == gated && !call.open
       case Ended(how) =>
         match how
         case Denied => !call.acquired && !call.open
         case Refused => !call.acquired && !call.open
         case GaveUp => call.acquired == call.released == gated && !call.open
         case Relayed => call.acquired == call.released == gated && !call.open
         case Abandoned => true
  }

  ghost predicate Conserved(cfg: Config, s: State) {
    && (forall c | c in s.calls :: Proper(cfg.Gated(), s.calls[c]))
    && (cfg.Gated() ==> 0 <= s.free && s.free + |Holders(s.calls)| == cfg.permits)
  }

  function Held(call: Call): int {
    if call.acquired && !call.released then 1 else 0
  }

  lemma PutHolders(calls: map<CallId, Call>, c: CallId, call: Call)
    ensures var hs := Holders(calls);
            && Holders(calls[c := call]) == (if call.acquired && !call.released then hs + {c} else hs - {c})
            && (c in hs <==> c in calls && Held(calls[c]) == 1)
  {
  }

  lemma StepKeepsProper(cfg: Config, s: State, e: Event)
    requires Enabled(cfg, s, e) && !e.Midnight?
    requires e.c in s.calls ==> Proper(cfg.Gated(), s.calls[e.c])
    ensures Proper(cfg.Gated(), Apply(cfg, s, e).calls[e.c])
  {
  }

  /** One step moves a permit between the semaphore and the call, or moves none. */
  lemma StepMovesPermits(cfg: Config, s: State, e: Event)
    requires Enabled(cfg, s, e) && !e.Midnight? && cfg.Gated()
    requires e.c in s.calls ==> Proper(true, s.calls[e.c])
    ensures var was := if e.c in s.calls then Held(s.calls[e.c]) else 0;
            Apply(cfg, s, e).free + Held(Apply(cfg, s, e).calls[e.c]) == s.free + was
    ensures s.free >= 0 ==> Apply(cfg, s, e).free >= 0
  {
  }

  lemma StepPutsOne(cfg: Config, s: State, e: Event)
    requires Enabled(cfg, s, e)
    ensures var t := Apply(cfg, s, e);
            if e.Midnight? then t.calls == s.calls && t.free == s.free
            else e.c in t.calls && t.calls == s.calls[e.c := t.calls[e.c]]
  {
  }

  lemma StepConserves(cfg: Config, s: State, e: Event)
    requires Conserved(cfg, s) && Enabled(cfg, s, e)
    ensures Conserved(cfg, Apply(cfg, s, e))
  {
    hide Proper, Enabled, Apply, Holders;
    StepPutsOne(cfg, s, e);
    if !e.Midnight? {
      StepKeepsProper(cfg, s, e);
      PutHolders(s.calls, e.c, Apply(cfg, s, e).calls[e.c]);
      if cfg.Gated() {
        StepMovesPermits(cfg, s, e);
      }
    }
  }

  lemma {:induction false} RunConserves(cfg: Config, s: State, es: seq<Event>)
    requires Conserved(cfg, s) && Feasible(cfg, s, es)
    ensures Conserved(cfg, Run(cfg, s, es))
    decreases es
  {
    if es != [] {
      StepConserves(cfg, s, es[0]);
      RunConserves(cfg, Apply(cfg, s, es[0]), es[1..]);
    }
  }

  /** In every run free permits and held permits make up `llm_max_concurrency`, no call gives its permit back
      twice, and every open upstream response belongs to a holder, so no more than that many are open. */
  lemma PermitsConserved(cfg: Config, es: seq<Event>)
    requires cfg.Gated() && Feasible(cfg, Empty(cfg), es)
    ensures var s := Run(cfg, Empty(cfg), es);
            && 0 <= s.free && s.free + |Holders(s.calls)| == cfg.permits
            && (forall c | c in s.calls :: s.calls[c].releases <= 1)
            && OpenOnes(s.calls) <= Holders(s.calls) && |OpenOnes(s.calls)| <= cfg.permits
  {
    RunConserves(cfg, Empty(cfg), es);
    SubsetSize(OpenOnes(Run(cfg, Empty(cfg), es).calls), Holders(Run(cfg, Empty(cfg), es).calls));
  }

  /** A call whose relay finished, or whose second send failed, has given its permit back exactly once and has no
      response open; a call turned away never had one. */
  lemma FinishedCallsReleasedOnce(cfg: Config, es: seq<Event>, c: CallId)
    requires cfg.Gated() && Feasible(cfg, Empty(cfg), es)
    requires c in Run(cfg, Empty(cfg), es).calls
    ensures var call := Run(cfg, Empty(cfg), es).calls[c];
            && (call.phase in {Ended(GaveUp), Ended(Relayed)} ==> call.acquired && call.releases == 1 && !call.open)
            && (call.phase in {Ended(Denied), Ended(Refused)} ==> !call.acquired && call.releases == 0 && !call.open)
  {
    RunConserves(cfg, Empty(cfg), es);
    assert Proper(true, Run(cfg, Empty(cfg), es).calls[c]);
  }

  // ---- permits that never come back -----------------------------------------------------------------------

  /** The calls that were given up while they held a permit. */
  function Lost(calls: map<CallId, Call>): set<CallId> {
    set c | c in calls && calls[c].phase == Ended(Abandoned) && calls[c].acquired && !calls[c].released
  }

  predicate AbandonsHolder(s: State, e: Event) {
    e.Abandon? && e.c in s.calls && s.calls[e.c].acquired && !s.calls[e.c].released
  }

  lemma StepLoses(cfg: Config, s: State, e: Event)
    requires Enabled(cfg, s, e)
    ensures Lost(Apply(cfg, s, e).calls) == Lost(s.calls) + if AbandonsHolder(s, e) then {e.c} else {}
  {
  }

  predicate NoHolderAbandoned(cfg: Config, s: State, es: seq<Event>)
    requires Feasible(cfg, s, es)
    decreases es
  {
    es != [] ==> !AbandonsHolder(s, es[0]) && NoHolderAbandoned(cfg, Apply(cfg, s, es[0]), es[1..])
  }

  lemma {:induction false} RunLoses(cfg: Config, s: State, es: seq<Event>)
    requires Feasible(cfg, s, es)
    ensures Lost(Run(cfg, s, es).calls) == {} <==> Lost(s.calls) == {} && NoHolderAbandoned(cfg, s, es)
    decreases es
  {
    hide Enabled, Apply, Lost, AbandonsHolder;
    if es != [] {
      StepLoses(cfg, s, es[0]);
      RunLoses(cfg, Apply(cfg, s, es[0]), es[1..]);
    }
  }

  /** Once no call is live, additions still to be carried out aside, all permits are free again if and only if no call
      was abandoned while it held one; each such call costs one permit for good. */
  lemma PermitsReturnExactly(cfg: Config, es: seq<Event>)
    requires cfg.Gated() && Feasible(cfg, Empty(cfg), es)
    requires forall c | c in Run(cfg, Empty(cfg), es).calls ::
               var phase := Run(cfg, Empty(cfg), es).calls[c].phase;
               phase.Ended? || phase.Accounting?
    ensures var s := Run(cfg, Empty(cfg), es);
            && s.free + |Lost(s.calls)| == cfg.permits
            && (s.free == cfg.permits <==> NoHolderAbandoned(cfg, Empty(cfg), es))
  {
    RunConserves(cfg, Empty(cfg), es);
    RunLoses(cfg, Empty(cfg), es);
    var s := Run(cfg, Empty(cfg), es);
    forall c | c in Holders(s.calls) ensures c in Lost(s.calls) {
      assert Proper(true, s.calls[c]);
    }
    assert Holders(s.calls) == Lost(s.calls);
  }

  lemma {:induction false} SubsetSize<T>(a: set<T>, b: set<T>)
    requires a <= b
    ensures |a| <= |b|
  {
    assert |b| == |a| + |b - a| by {
      assert b == a + (b - a);
    }
  }
}
