/** What the turns put on a session's event queue, in every run. */
module TurnGrammar {

  import opened Common
  import opened Turns
  import opened TurnTheorems

  // ---- everything ever put on the queue, and the parts of it that turns own ---------------------------------

  function History(s: State): seq<Item> {
    s.consumed + s.queue
  }

  /** `who` picks one turn's events, or those of all turns when it is None. */
  predicate Picks(who: Option<nat>, item: Item) {
    !item.Other? && (who == None || item.turn == who.value)
  }

  function Select(items: seq<Item>, who: Option<nat>): seq<Item> {
    if items == [] then []
    else Select(items[..|items| - 1], who) + if Picks(who, items[|items| - 1]) then [items[|items| - 1]] else []
  }

  lemma {:induction false} SelectMore(a: seq<Item>, b: seq<Item>, who: Option<nat>)
    ensures Select(a + b, who) == Select(a, who) + Select(b, who)
    decreases b
  {
    if b == [] {
      assert a + b == a;
    } else {
      assert (a + b)[..|a + b| - 1] == a + b[..|b| - 1];
      SelectMore(a, b[..|b| - 1], who);
    }
  }

  lemma {:induction false} SelectAllOrNone(items: seq<Item>, who: Option<nat>)
    ensures (forall x | x in items :: Picks(who, x)) ==> Select(items, who) == items
    ensures (forall x | x in items :: !Picks(who, x)) ==> Select(items, who) == []
    decreases items
  {
    if items != [] {
      SelectAllOrNone(items[..|items| - 1], who);
    }
  }

  // ---- what one turn has said ----------------------------------------------------------------------------

  function Outputs(cfg: Config, i: nat, events: seq<string>): seq<Item> {
    if events == [] then []
    else Outputs(cfg, i, events[..|events| - 1]) + [Output(i, cfg.redact(events[|events| - 1]))]
  }

  function Ending(item: Item, outcome: Terminal): seq<Item> {
    if outcome == Queued then [item] else []
  }

  /** The redacted events delivered, then at most one turn error, then at most one final `done`. */
  function Sent(cfg: Config, i: nat, t: Turn): seq<Item> {
    Outputs(cfg, i, if t.delivered <= |t.yielded| then t.yielded[..t.delivered] else t.yielded)
    + Ending(TurnError(i), t.error) + Ending(TurnDone(i), t.done)
  }

  // ---- what one step adds --------------------------------------------------------------------------------

  function Closing(cfg: Config, s: State, i: nat): seq<Item> {
    Ending(TurnDone(i), Outcome(cfg, s))
  }

  function Added(cfg: Config, s: State, e: Event): seq<Item>
    requires Enabled(cfg, s, e)
  {
    match e
    case PutDone(i) => [Output(i, cfg.redact(s.turns[i].phase.event))]
    case PutTimedOut(i) => Closing(cfg, s, i)
    case Exhausted(i) => Closing(cfg, s, i)
    case Raised(i) => Ending(TurnError(i), Outcome(cfg, s)) + Closing(cfg, Emit(cfg, s, TurnError(i)), i)
    case Cancelled(i) => if s.turns[i].phase == Scheduled then [] else Closing(cfg, s, i)
    case OtherPut(kind) => [Other(kind)]
    case _ => []
  }

  function Speaker(e: Event): Option<nat> {
    match e
    case PutDone(i) => Some(i)
    case PutTimedOut(i) => Some(i)
    case Exhausted(i) => Some(i)
    case Raised(i) => Some(i)
    case Cancelled(i) => Some(i)
    case _ => None
  }

  lemma FinishAdds(cfg: Config, s: State, i: nat)
    requires i < |s.turns|
    ensures History(Finish(cfg, s, i)) == History(s) + Closing(cfg, s, i)
  {
  }

  lemma RaisedAdds(cfg: Config, s: State, i: nat)
    requires Enabled(cfg, s, Raised(i))
    ensures History(Apply(cfg, s, Raised(i))) == History(s) + Added(cfg, s, Raised(i))
  {
    var s1 := Emit(cfg, s, TurnError(i));
    var s2 := PutTurn(s1, i, s.turns[i].(error := Outcome(cfg, s)));
    FinishAdds(cfg, s2, i);
    assert History(s2) == History(s1) == History(s) + Ending(TurnError(i), Outcome(cfg, s));
  }

  lemma StepAdds(cfg: Config, s: State, e: Event)
    requires Enabled(cfg, s, e)
    ensures History(Apply(cfg, s, e)) == History(s) + Added(cfg, s, e)
  {
    match e {
      case PutTimedOut(i) => FinishAdds(cfg, s, i);
      case Exhausted(i) => FinishAdds(cfg, s, i);
      case Cancelled(i) => FinishAdds(cfg, s, i);
      case Raised(i) => RaisedAdds(cfg, s, i);
      case _ =>
    }
  }

  /** A step adds events of one live turn only, or nothing of any turn's. */
  lemma StepAddsFor(cfg: Config, s: State, e: Event, who: Option<nat>)
    requires Enabled(cfg, s, e)
    ensures Speaker(e).Some? ==> Live(s, Speaker(e).value)
    ensures Select(Added(cfg, s, e), who) ==
            if Speaker(e) == None || (who.Some? && who != Speaker(e)) then [] else Added(cfg, s, e)
  {
    SelectAllOrNone(Added(cfg, s, e), who);
  }

  lemma FinishSays(cfg: Config, s: State, i: nat)
    requires i < |s.turns| && s.turns[i].done == NotTried
    ensures Sent(cfg, i, Finish(cfg, s, i).turns[i]) == Sent(cfg, i, s.turns[i]) + Closing(cfg, s, i)
  {
  }

  lemma RaisedSays(cfg: Config, s: State, k: nat)
    requires Enabled(cfg, s, Raised(k)) && Shaped(s, s.turns[k])
    ensures Sent(cfg, k, Apply(cfg, s, Raised(k)).turns[k]) == Sent(cfg, k, s.turns[k]) + Added(cfg, s, Raised(k))
  {
    hide Reply;
    var t := s.turns[k];
    var s2 := PutTurn(Emit(cfg, s, TurnError(k)), k, t.(error := Outcome(cfg, s)));
    FinishSays(cfg, s2, k);
    assert Sent(cfg, k, s2.turns[k]) == Sent(cfg, k, t) + Ending(TurnError(k), Outcome(cfg, s));
  }

  /** A turn's own step extends what it has said by what the step adds. */
  lemma SpeakerSays(cfg: Config, s: State, e: Event, k: nat)
    requires Enabled(cfg, s, e) && k < |s.turns| && Shaped(s, s.turns[k]) && Speaker(e) == Some(k)
    ensures Sent(cfg, k, Apply(cfg, s, e).turns[k]) == Sent(cfg, k, s.turns[k]) + Added(cfg, s, e)
  {
    hide Reply, Full;
    var t := s.turns[k];
    match e {
      case PutDone(_) =>
        assert t.yielded[..t.delivered + 1] == t.yielded[..t.delivered] + [t.phase.event];
        assert t.yielded[..t.delivered + 1][..t.delivered] == t.yielded[..t.delivered];
      case PutTimedOut(_) => FinishSays(cfg, s, k);
      case Exhausted(_) => FinishSays(cfg, s, k);
      case Cancelled(_) =>
        if t.phase != Scheduled {
          FinishSays(cfg, s, k);
        }
      case Raised(_) => RaisedSays(cfg, s, k);
    }
  }

  /** No other step changes what a turn has said. */
  lemma OthersSayNothing(cfg: Config, s: State, e: Event, k: nat)
    requires Enabled(cfg, s, e) && k < |s.turns| && Shaped(s, s.turns[k]) && Speaker(e) != Some(k)
    ensures Sent(cfg, k, Apply(cfg, s, e).turns[k]) == Sent(cfg, k, s.turns[k])
  {
    StepTurn(cfg, s, e, k);
    var t, t' := s.turns[k], Apply(cfg, s, e).turns[k];
    assert t'.yielded[..t'.delivered] == t.yielded[..t.delivered];
  }

  // ---- every run -----------------------------------------------------------------------------------------

  /** Of turn `k` the history holds what that turn has said, in the order it said it. */
  predicate Speaks(cfg: Config, s: State, k: nat) {
    if k < |s.turns| then Shaped(s, s.turns[k]) && Select(History(s), Some(k)) == Sent(cfg, k, s.turns[k])
    else Select(History(s), Some(k)) == []
  }

  lemma StepSpeaks(cfg: Config, s: State, e: Event, k: nat)
    requires Enabled(cfg, s, e) && Speaks(cfg, s, k)
    ensures Speaks(cfg, Apply(cfg, s, e), k)
  {
    StepAdds(cfg, s, e);
    SelectMore(History(s), Added(cfg, s, e), Some(k));
    StepAddsFor(cfg, s, e, Some(k));
    StepLive(cfg, s, e, k);
    if k < |s.turns| {
      StepShapes(cfg, s, e, k);
      if Speaker(e) == Some(k) {
        SpeakerSays(cfg, s, e, k);
      } else {
        OthersSayNothing(cfg, s, e, k);
      }
    }
  }

  lemma {:induction false} RunSpeaks(cfg: Config, s: State, es: seq<Event>, k: nat)
    requires Speaks(cfg, s, k) && Feasible(cfg, s, es)
    ensures Speaks(cfg, Run(cfg, s, es), k)
    decreases es
  {
    if es != [] {
      StepSpeaks(cfg, s, es[0], k);
      RunSpeaks(cfg, Apply(cfg, s, es[0]), es[1..], k);
    }
  }

  /** In every run, overlapping turns included: what the queue carried of a turn is a prefix of the executor's events,
      redacted, then at most one turn error, then at most one final `done`. */
  lemma EachTurnsEvents(cfg: Config, es: seq<Event>, k: nat)
    requires Feasible(cfg, FRESH, es) && k < |Run(cfg, FRESH, es).turns|
    ensures var s := Run(cfg, FRESH, es);
            && Shaped(s, s.turns[k])
            && Select(History(s), Some(k)) ==
               Outputs(cfg, k, s.turns[k].yielded[..s.turns[k].delivered])
               + Ending(TurnError(k), s.turns[k].error) + Ending(TurnDone(k), s.turns[k].done)
  {
    RunSpeaks(cfg, FRESH, es, k);
  }

  /** A turn that ends puts its `done`, unless the queue is full, or it had not begun and was cancelled or its session
      was gone; an executor that raised leaves an error too, unless the queue is full. */
  lemma DoneMissingOnlyIfFull(cfg: Config, s: State, e: Event, k: nat)
    requires Enabled(cfg, s, e) && Live(s, k) && !Live(Apply(cfg, s, e), k)
    ensures var s', t, t' := Apply(cfg, s, e), s.turns[k], Apply(cfg, s, e).turns[k];
            && (t'.done == Queued || Full(cfg, s') || (t.phase == Scheduled && (t.cancelled || !s.inStore)))
            && (e == Raised(k) ==> t'.error == Queued || Full(cfg, s'))
  {
  }

  // ---- one turn after another ----------------------------------------------------------------------------

  function Flatten(parts: seq<seq<Item>>): seq<Item> {
    if parts == [] then [] else Flatten(parts[..|parts| - 1]) + parts[|parts| - 1]
  }

  function Parts(cfg: Config, turns: seq<Turn>): seq<seq<Item>> {
    seq(|turns|, k requires 0 <= k < |turns| => Sent(cfg, k, turns[k]))
  }

  function Said(cfg: Config, turns: seq<Turn>): seq<Item> {
    Flatten(Parts(cfg, turns))
  }

  /** The turns' events stand on the queue turn by turn, in the order the messages were accepted. */
  ghost predicate InOrder(cfg: Config, s: State) {
    && Guarded(s) && (forall k: nat | k < |s.turns| :: Shaped(s, s.turns[k]))
    && Select(History(s), None) == Said(cfg, s.turns)
  }

  /** Only the last turn speaks, so only the end of the whole grows. */
  lemma FlattenGrows(before: seq<seq<Item>>, after: seq<seq<Item>>, more: seq<Item>)
    requires |before| == |after| && (before == [] ==> more == [])
    requires forall k: nat | k < |before| :: after[k] == before[k] + if k == |before| - 1 then more else []
    ensures Flatten(after) == Flatten(before) + more
  {
    if before != [] {
      var n := |before| - 1;
      forall k: nat | k < n ensures after[..n][k] == before[..n][k] {
        assert after[k] == before[k] + [];
      }
      assert after[..n] == before[..n] && after[n] == before[n] + more;
    }
  }

  lemma StepSaysMore(cfg: Config, s: State, e: Event, more: seq<Item>)
    requires Guarded(s) && Enabled(cfg, s, e) && !e.Send? && more == Select(Added(cfg, s, e), None)
    requires forall k: nat | k < |s.turns| :: Shaped(s, s.turns[k])
    ensures Said(cfg, Apply(cfg, s, e).turns) == Said(cfg, s.turns) + more
  {
    var s' := Apply(cfg, s, e);
    StepLive(cfg, s, e, 0);
    StepAddsFor(cfg, s, e, None);
    forall k: nat | k < |s.turns|
      ensures Sent(cfg, k, s'.turns[k]) == Sent(cfg, k, s.turns[k]) + if k == |s.turns| - 1 then more else []
    {
      if Speaker(e) == Some(k) {
        SpeakerSays(cfg, s, e, k);
      } else {
        OthersSayNothing(cfg, s, e, k);
      }
    }
    FlattenGrows(Parts(cfg, s.turns), Parts(cfg, s'.turns), more);
  }

  lemma SendSaysNothing(cfg: Config, s: State, e: Event)
    requires Enabled(cfg, s, e) && e.Send?
    ensures Said(cfg, Apply(cfg, s, e).turns) == Said(cfg, s.turns) && Added(cfg, s, e) == []
  {
    var parts, parts' := Parts(cfg, s.turns), Parts(cfg, Apply(cfg, s, e).turns);
    assert parts'[..|parts|] == parts && parts'[|parts|] == [];
  }

  lemma StepKeepsShapes(cfg: Config, s: State, e: Event)
    requires Enabled(cfg, s, e) && forall k: nat | k < |s.turns| :: Shaped(s, s.turns[k])
    ensures forall k: nat | k < |Apply(cfg, s, e).turns| :: Shaped(Apply(cfg, s, e), Apply(cfg, s, e).turns[k])
  {
    forall k: nat | k < |Apply(cfg, s, e).turns| ensures Shaped(Apply(cfg, s, e), Apply(cfg, s, e).turns[k]) {
      if k < |s.turns| {
        StepShapes(cfg, s, e, k);
      }
    }
  }

  lemma StepInOrder(cfg: Config, s: State, e: Event)
    requires InOrder(cfg, s) && Enabled(cfg, s, e) && e != EndSession
    ensures InOrder(cfg, Apply(cfg, s, e))
  {
    hide Apply, Enabled, Guarded, Shaped, Added, Said, History;
    var more := Select(Added(cfg, s, e), None);
    StepGuarded(cfg, s, e);
    StepKeepsShapes(cfg, s, e);
    StepAdds(cfg, s, e);
    SelectMore(History(s), Added(cfg, s, e), None);
    if e.Send? {
      SendSaysNothing(cfg, s, e);
    } else {
      StepSaysMore(cfg, s, e, more);
    }
  }

  lemma {:induction false} RunInOrder(cfg: Config, s: State, es: seq<Event>)
    requires InOrder(cfg, s) && Feasible(cfg, s, es) && EndSession !in es
    ensures InOrder(cfg, Run(cfg, s, es))
    decreases es
  {
    if es != [] {
      StepInOrder(cfg, s, es[0]);
      RunInOrder(cfg, Apply(cfg, s, es[0]), es[1..]);
    }
  }

  /** Until `end_session` is called the turns' events on the queue are a sequence of turns, never interleaved. */
  lemma TurnsSpeakInOrder(cfg: Config, es: seq<Event>)
    requires Feasible(cfg, FRESH, es) && EndSession !in es
    ensures Select(History(Run(cfg, FRESH, es)), None) == Said(cfg, Run(cfg, FRESH, es).turns)
  {
    RunInOrder(cfg, FRESH, es);
  }
}
