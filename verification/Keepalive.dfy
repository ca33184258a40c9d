/** The worker's turn stream: a producer fills a queue, a consumer drains it and fills silences with keepalives. */
module Keepalive {

  import opened Common

  datatype Queued = Event(body: string) | WorkerFailed(message: string) | Sentinel

  datatype Line = KeepaliveLine | EventLine(item: Queued)

  datatype Producer = Producing | Stopped

  datatype Consumer = Waiting | Completed | Dropped

  /** `made` is everything the executor has produced, and `failure` the exception that ended it, if one did. */
  datatype State = State(
    producer: Producer, consumer: Consumer, queue: seq<Queued>, emitted: seq<Line>,
    made: seq<string>, failure: Option<string>)

  const FRESH := State(Producing, Waiting, [], [], [], None)

  datatype Step = Produce(body: string) | ProducerOver | ProducerRaised(message: string)
                | Silence | Take | Disconnect | ProducerCancelled

  predicate Enabled(s: State, e: Step) {
    match e
    case Produce(_) => s.producer == Producing
    case ProducerOver => s.producer == Producing
    case ProducerRaised(_) => s.producer == Producing
    case Silence => s.consumer == Waiting
    case Take => s.consumer == Waiting && s.queue != []
    case Disconnect => s.consumer == Waiting
    case ProducerCancelled => s.consumer != Waiting && s.producer == Producing
  }

  function Apply(s: State, e: Step): State
    requires Enabled(s, e)
  {
    match e
    case Produce(body) => s.(queue := s.queue + [Event(body)], made := s.made + [body])
    case ProducerOver => s.(queue := s.queue + [Sentinel], producer := Stopped)
    case ProducerRaised(message) =>
      s.(queue := s.queue + [WorkerFailed(message), Sentinel], producer := Stopped, failure := Some(message))
    case Silence => s.(emitted := s.emitted + [KeepaliveLine])
    case Take =>
      if s.queue[0] == Sentinel then s.(queue := s.queue[1..], consumer := Completed)
      else s.(queue := s.queue[1..], emitted := s.emitted + [EventLine(s.queue[0])])
    case Disconnect => s.(consumer := Dropped)
    case ProducerCancelled => s.(queue := s.queue + [Sentinel], producer := Stopped)
  }

  predicate Feasible(s: State, es: seq<Step>)
    decreases es
  {
    es == [] || (Enabled(s, es[0]) && Feasible(Apply(s, es[0]), es[1..]))
  }

  function Run(s: State, es: seq<Step>): State
    requires Feasible(s, es)
    decreases es
  {
    if es == [] then s else Run(Apply(s, es[0]), es[1..])
  }

  // ---- transparency -----------------------------------------------------------------------------------------

  /** The lines sent, without the keepalives. */
  function Payload(lines: seq<Line>): seq<Queued> {
    if lines == [] then []
    else Payload(lines[..|lines| - 1]) + match lines[|lines| - 1] { case KeepaliveLine => [] case EventLine(x) => [x] }
  }

  function Events(made: seq<string>): seq<Queued> {
    if made == [] then [] else Events(made[..|made| - 1]) + [Event(made[|made| - 1])]
  }

  /** What the executor has to say: its events, and one failure if it raised. */
  function Output(s: State): seq<Queued> {
    Events(s.made) + if s.failure.Some? then [WorkerFailed(s.failure.value)] else []
  }

  /** The lines sent and the queue hold the executor's output in order; once the producer has stopped the end mark
      follows it, and the consumer stops only by taking that mark. */
  ghost predicate Transparent(s: State) {
    && Payload(s.emitted) + s.queue ==
       Output(s) + (if s.producer == Stopped && s.consumer != Completed then [Sentinel] else [])
    && (s.consumer == Completed ==> s.producer == Stopped && s.queue == [])
    && (s.producer == Producing ==> s.failure == None)
    && Sentinel !in Output(s) && Sentinel !in Payload(s.emitted)
  }

  lemma PayloadNext(lines: seq<Line>, line: Line)
    ensures Payload(lines + [line]) == Payload(lines) + match line { case KeepaliveLine => [] case EventLine(x) => [x] }
  {
    assert (lines + [line])[..|lines|] == lines;
  }

  lemma EventsNext(made: seq<string>, body: string)
    ensures Events(made + [body]) == Events(made) + [Event(body)]
  {
    assert (made + [body])[..|made|] == made;
  }

  lemma Append(p: seq<Queued>, q: seq<Queued>, more: seq<Queued>)
    ensures p + (q + more) == (p + q) + more && p + [] == p
  {
  }

  lemma ProducerTransparent(s: State, e: Step)
    requires Transparent(s) && Enabled(s, e) && s.producer == Producing && !e.Take? && !e.Silence? && !e.Disconnect?
    ensures Transparent(Apply(s, e))
  {
    var p, said := Payload(s.emitted), Events(s.made);
    Append(said, [], []);
    assert p + s.queue == said;
    match e {
      case Produce(body) =>
        EventsNext(s.made, body);
        Append(p, s.queue, [Event(body)]);
        Append(said + [Event(body)], [], []);
      case ProducerRaised(message) =>
        Append(p, s.queue, [WorkerFailed(message), Sentinel]);
        assert [WorkerFailed(message), Sentinel] == [WorkerFailed(message)] + [Sentinel];
        Append(said, [WorkerFailed(message)], [Sentinel]);
      case _ =>
        Append(p, s.queue, [Sentinel]);
    }
  }

  /** The end mark is the last thing on the queue, and by then everything before it has been sent. */
  lemma SentinelIsLast(p: seq<Queued>, q: seq<Queued>, out: seq<Queued>, end: seq<Queued>)
    requires p + q == out + end && (end == [] || end == [Sentinel]) && Sentinel !in out
    requires q != [] && q[0] == Sentinel
    ensures p == out && q == end == [Sentinel]
  {
    assert (p + q)[|p|] == Sentinel;
    forall k | 0 <= k < |out| ensures (out + end)[k] != Sentinel {
      assert (out + end)[k] in out;
    }
    assert |p| == |out|;
    assert out == (out + end)[..|out|] == (p + q)[..|p|] == p;
    assert end == (out + end)[|out|..] == (p + q)[|p|..] == q;
  }

  lemma TakeTransparent(s: State)
    requires Transparent(s) && Enabled(s, Take)
    ensures Transparent(Apply(s, Take))
  {
    var p, q := Payload(s.emitted), s.queue;
    if q[0] == Sentinel {
      SentinelIsLast(p, q, Output(s), if s.producer == Stopped && s.consumer != Completed then [Sentinel] else []);
      Append(p, [], []);
      Append(Output(s), [], []);
    } else {
      PayloadNext(s.emitted, EventLine(q[0]));
      assert p + [q[0]] + q[1..] == p + q;
    }
  }

  lemma StepTransparent(s: State, e: Step)
    requires Transparent(s) && Enabled(s, e)
    ensures Transparent(Apply(s, e))
  {
    match e {
      case Silence => PayloadNext(s.emitted, KeepaliveLine);
      case Take => TakeTransparent(s);
      case Disconnect =>
      case _ => ProducerTransparent(s, e);
    }
  }

  lemma {:induction false} RunTransparent(s: State, es: seq<Step>)
    requires Transparent(s) && Feasible(s, es)
    ensures Transparent(Run(s, es))
    decreases es
  {
    if es != [] {
      StepTransparent(s, es[0]);
      RunTransparent(Apply(s, es[0]), es[1..]);
    }
  }

  /** Under every interleaving of producer, consumer and timeouts, the lines sent without keepalives, followed by the
      queue, are what the executor has produced so far. */
  lemma NothingLostOrReordered(es: seq<Step>)
    requires Feasible(FRESH, es)
    ensures var s := Run(FRESH, es);
            s.consumer == Waiting ==>
              Payload(s.emitted) + s.queue == Output(s) + if s.producer == Stopped then [Sentinel] else []
  {
    RunTransparent(FRESH, es);
  }

  lemma CompletedCarries(s: State)
    requires Transparent(s) && s.consumer == Completed
    ensures s.producer == Stopped && s.queue == [] && Payload(s.emitted) == Output(s)
  {
    Append(Payload(s.emitted), [], []);
    Append(Output(s), [], []);
  }

  /** A completed stream carried exactly the executor's events in order, and one failure just if the executor raised.
      */
  lemma CompletedStreamIsTheTurn(es: seq<Step>)
    requires Feasible(FRESH, es) && Run(FRESH, es).consumer == Completed
    ensures var s := Run(FRESH, es);
            && s.producer == Stopped && s.queue == []
            && Payload(s.emitted) == Events(s.made) + if s.failure.Some? then [WorkerFailed(s.failure.value)] else []
  {
    RunTransparent(FRESH, es);
    CompletedCarries(Run(FRESH, es));
  }

  // ---- how many keepalives ----------------------------------------------------------------------------------

  function Keepalives(lines: seq<Line>): nat {
    if lines == [] then 0
    else Keepalives(lines[..|lines| - 1]) + if lines[|lines| - 1] == KeepaliveLine then 1 else 0
  }

  function Timeouts(es: seq<Step>): nat
    decreases es
  {
    if es == [] then 0 else (if es[0] == Silence then 1 else 0) + Timeouts(es[1..])
  }

  lemma {:induction false} KeepalivesFrom(s: State, es: seq<Step>)
    requires Feasible(s, es)
    ensures Keepalives(Run(s, es).emitted) == Keepalives(s.emitted) + Timeouts(es)
    decreases es
  {
    if es != [] {
      var s' := Apply(s, es[0]);
      if s'.emitted != s.emitted {
        assert s'.emitted[..|s'.emitted| - 1] == s.emitted;
      }
      KeepalivesFrom(s', es[1..]);
    }
  }

  /** Every timeout of the waiting consumer sends one keepalive, and nothing else does. */
  lemma OneKeepaliveForEachTimeout(es: seq<Step>)
    requires Feasible(FRESH, es)
    ensures Keepalives(Run(FRESH, es).emitted) == Timeouts(es)
  {
    KeepalivesFrom(FRESH, es);
  }

  // ---- the worker's objects ---------------------------------------------------------------------------------

  class TurnStream {
    var producer: Producer
    var consumer: Consumer
    var queue: seq<Queued>
    var emitted: seq<Line>
    ghost var made: seq<string>
    ghost var failure: Option<string>

    ghost function View(): State
      reads this
    {
      State(producer, consumer, queue, emitted, made, failure)
    }

    /** Nothing is lost or out of order. */
    ghost predicate Valid()
      reads this
    {
      Transparent(View())
    }

    constructor ()
      ensures Valid() && View() == FRESH
    {
      producer, consumer, queue, emitted, made, failure := Producing, Waiting, [], [], [], None;
    }

    /** `_produce`: an event came, or the executor's events ended, by an exception if there is a message. */
    method OnEvent(body: string)
      requires Valid() && Enabled(View(), Produce(body))
      modifies this
      ensures View() == Apply(old(View()), Produce(body))
      ensures Valid()
    {
      StepTransparent(View(), Produce(body));
      made := made + [body];
      queue := queue + [Event(body)];
    }

    method OnEventsOver(raised: Option<string>)
      requires Valid() && producer == Producing
      modifies this
      ensures View() == Apply(old(View()), if raised.Some? then ProducerRaised(raised.value) else ProducerOver)
      ensures Valid()
    {
      StepTransparent(View(), if raised.Some? then ProducerRaised(raised.value) else ProducerOver);
      if raised.Some? {
        failure := raised;
        queue := queue + [WorkerFailed(raised.value)];
      }
      queue := queue + [Sentinel];
      producer := Stopped;
    }

    /** `gen`: one round of the loop, ended by the timeout or by an item. */
    method Round(timedOut: bool)
      requires Valid() && Enabled(View(), if timedOut then Silence else Take)
      modifies this
      ensures View() == Apply(old(View()), if timedOut then Silence else Take)
      ensures Valid()
      ensures consumer == Completed ==> Payload(emitted) == Output(View()) && queue == []
    {
      hide Transparent, Payload, Output;
      ghost var next := Apply(View(), if timedOut then Silence else Take);
      StepTransparent(View(), if timedOut then Silence else Take);
      if next.consumer == Completed {
        CompletedCarries(next);
      }
      if timedOut {
        emitted := emitted + [KeepaliveLine];
        return;
      }
      var item := queue[0];
      queue := queue[1..];
      if item == Sentinel {
        consumer := Completed;
      } else {
        emitted := emitted + [EventLine(item)];
      }
    }

    /** The `finally` of `gen` has cancelled the producer, whose own `finally` puts the end mark. */
    method OnCancelled()
      requires Valid() && Enabled(View(), ProducerCancelled)
      modifies this
      ensures View() == Apply(old(View()), ProducerCancelled)
      ensures Valid()
    {
      StepTransparent(View(), ProducerCancelled);
      queue := queue + [Sentinel];
      producer := Stopped;
    }
  }
}
