/**
 * `viewfactor.events.EventManager`: the pipeline state, an append-only event log and
 * a subscriber list. Every stage method first asks `changeState` whether the move is
 * allowed (an `IllegalStateException` otherwise, before anything changes), then logs
 * one event and hands it to every subscriber on the calling thread.
 *
 * Subscribers are known by identity; their `onEvent` calls are recorded in order as
 * the `delivered` trace. Stopwatch readings and the current time are parameters.
 */
module EventManagement {
  import opened Pipeline
  import opened Events
  import opened Timing
  import opened Wrappers

  /** A registered `Subscriber`. */
  type SubscriberId = nat

  /** One `subscriber.onEvent(event)` call. */
  datatype Delivery = Delivery(subscriber: SubscriberId, event: Event)

  /** `subscribers.forEach(s -> s.onEvent(e))`: one call per subscriber, in list order. */
  function FanOut(subs: seq<SubscriberId>, e: Event): (r: seq<Delivery>)
    ensures |r| == |subs|
    ensures forall i :: 0 <= i < |subs| ==> r[i] == Delivery(subs[i], e)
  {
    if subs == [] then [] else FanOut(subs[..|subs| - 1], e) + [Delivery(subs[|subs| - 1], e)]
  }

  /**
   * The calls a log gives rise to: event by event, in log order, each handed to the
   * subscribers registered when it was recorded.
   */
  function Deliveries(events: seq<Event>, audiences: seq<seq<SubscriberId>>): seq<Delivery>
    requires |events| == |audiences|
  {
    if events == [] then []
    else Deliveries(events[..|events| - 1], audiences[..|audiences| - 1])
         + FanOut(audiences[|audiences| - 1], events[|events| - 1])
  }

  /** Whether `p` is a prefix of `s`. */
  predicate IsPrefix<T(==)>(p: seq<T>, s: seq<T>) {
    |p| <= |s| && s[..|p|] == p
  }

  class EventManager {
    var state: State
    var events: seq<Event>
    var subscribers: seq<SubscriberId>
    /** Every `onEvent` call made so far. */
    var delivered: seq<Delivery>
    /** The subscriber list at the time each logged event was recorded. */
    ghost var audiences: seq<seq<SubscriberId>>

    /**
     * The log and the calls agree: every event went, in log order, to exactly the
     * subscribers registered when it was recorded; registration only ever appends.
     */
    ghost predicate Valid()
      reads this
    {
      && |audiences| == |events|
      && delivered == Deliveries(events, audiences)
      && forall i :: 0 <= i < |audiences| ==> IsPrefix(audiences[i], subscribers)
    }

    /** A fresh manager is idle with an empty log; the console logger is its only subscriber. */
    constructor (consoleLogger: SubscriberId)
      ensures Valid()
      ensures state == Idle && events == [] && delivered == []
      ensures subscribers == [consoleLogger]
    {
      state := Idle;
      events := [];
      subscribers := [consoleLogger];
      delivered := [];
      audiences := [];
    }

    /** `registerSubscriber`: appends to the list; only later events reach it. */
    method RegisterSubscriber(s: SubscriberId)
      requires Valid()
      modifies this
      ensures Valid()
      ensures subscribers == old(subscribers) + [s]
      ensures state == old(state) && events == old(events) && delivered == old(delivered)
    {
      subscribers := subscribers + [s];
      forall i | 0 <= i < |audiences|
        ensures IsPrefix(audiences[i], subscribers)
      {
        assert IsPrefix(audiences[i], old(subscribers));
        assert subscribers[..|old(subscribers)|] == old(subscribers);
      }
    }

    /** The effect of `recordAndAlertSubscribers(e)`. */
    twostate predicate Recorded(e: Event)
      reads this
    {
      && events == old(events) + [e]
      && delivered == old(delivered) + FanOut(subscribers, e)
      && subscribers == old(subscribers)
    }

    /** Nothing observable changed: what a rejected move leaves behind. */
    twostate predicate Untouched()
      reads this
    {
      && state == old(state)
      && events == old(events)
      && delivered == old(delivered)
      && subscribers == old(subscribers)
    }

    /** `recordAndAlertSubscribers`: log the event, then call each subscriber in turn. */
    method RecordAndAlert(e: Event)
      requires Valid()
      modifies this
      ensures Valid()
      ensures Recorded(e) && state == old(state)
    {
      events := events + [e];
      audiences := audiences + [subscribers];
      var i := 0;
      while i < |subscribers|
        invariant 0 <= i <= |subscribers|
        invariant events == old(events) + [e] && audiences == old(audiences) + [subscribers]
        invariant subscribers == old(subscribers) && state == old(state)
        invariant delivered == old(delivered) + FanOut(subscribers[..i], e)
      {
        delivered := delivered + [Delivery(subscribers[i], e)];
        i := i + 1;
        assert subscribers[..i][..i - 1] == subscribers[..i - 1];
      }
      assert subscribers[..i] == subscribers;
      assert events[..|events| - 1] == old(events);
      assert audiences[..|audiences| - 1] == old(audiences);
      forall j | 0 <= j < |audiences|
        ensures IsPrefix(audiences[j], subscribers)
      {
        if j < |audiences| - 1 {
          assert audiences[j] == old(audiences)[j];
        }
      }
    }

    /**
     * `changeState(next)` followed by `recordAndAlertSubscribers(e)`: when the guard
     * rejects the move nothing at all happens (the exception is `ok == false`).
     */
    method Move(next: State, e: Event) returns (ok: bool)
      requires Valid()
      modifies this
      ensures Valid()
      ensures ok == Accepts(old(state), next)
      ensures ok ==> state == next && Recorded(e)
      ensures !ok ==> Untouched()
    {
      ok := Accepts(state, next);
      if ok {
        state := next;
        RecordAndAlert(e);
      }
    }

    /** `start()`: from `Idle` or `Exception` to `Init`, logging `JobStart`. */
    method Start(now: int) returns (ok: bool)
      requires Valid()
      modifies this
      ensures Valid()
      ensures ok <==> old(state) == Idle || old(state) == Pipeline.Exception
      ensures ok ==> state == Init && Recorded(Event(JobStart, now))
      ensures !ok ==> Untouched()
    {
      ok := Move(Init, Event(JobStart, now));
    }

    /** `startParseStl()`: from `Init` only. */
    method StartParseStl(now: int) returns (ok: bool)
      requires Valid()
      modifies this
      ensures Valid()
      ensures ok <==> old(state) == Init
      ensures ok ==> state == ParseStl && Recorded(Event(ParseStlStart, now))
      ensures !ok ==> Untouched()
    {
      ok := Move(ParseStl, Event(ParseStlStart, now));
    }

    /** `finishParseStl()`: from `ParseStl` only; the event holds the stopped STL stopwatch. */
    method FinishParseStl(now: int, stl: Elapsed) returns (ok: bool)
      requires Valid()
      modifies this
      ensures Valid()
      ensures ok <==> old(state) == ParseStl
      ensures ok ==> state == PostParseStl && Recorded(Event(ParseStlFinish(stl), now))
      ensures !ok ==> Untouched()
    {
      ok := Move(PostParseStl, Event(ParseStlFinish(stl), now));
    }

    /** `startBufferTransfer()`: from `PostParseStl` only. */
    method StartBufferTransfer(now: int) returns (ok: bool)
      requires Valid()
      modifies this
      ensures Valid()
      ensures ok <==> old(state) == PostParseStl
      ensures ok ==> state == BufferTransfer && Recorded(Event(BufferTransferStart, now))
      ensures !ok ==> Untouched()
    {
      ok := Move(BufferTransfer, Event(BufferTransferStart, now));
    }

    /** `finishBufferTransfer()`: from `BufferTransfer` only. */
    method FinishBufferTransfer(now: int, transfer: Elapsed) returns (ok: bool)
      requires Valid()
      modifies this
      ensures Valid()
      ensures ok <==> old(state) == BufferTransfer
      ensures ok ==> state == PostBufferTransfer && Recorded(Event(BufferTransferFinish(transfer), now))
      ensures !ok ==> Untouched()
    {
      ok := Move(PostBufferTransfer, Event(BufferTransferFinish(transfer), now));
    }

    /** `startComputation()`: from `PostBufferTransfer` only. */
    method StartComputation(now: int) returns (ok: bool)
      requires Valid()
      modifies this
      ensures Valid()
      ensures ok <==> old(state) == PostBufferTransfer
      ensures ok ==> state == Computation && Recorded(Event(ComputationStart, now))
      ensures !ok ==> Untouched()
    {
      ok := Move(Computation, Event(ComputationStart, now));
    }

    /** `updateComputationProgress(current, max)`: accepted in every state, which it keeps. */
    method UpdateComputationProgress(now: int, current: int, max: int)
      requires Valid()
      modifies this
      ensures Valid()
      ensures state == old(state) && Recorded(Event(ComputationProgress(current, max), now))
    {
      RecordAndAlert(Event(ComputationProgress(current, max), now));
    }

    /** `finishComputation(result)`: from `Computation` only. */
    method FinishComputation(now: int, computation: Elapsed, result: real) returns (ok: bool)
      requires Valid()
      modifies this
      ensures Valid()
      ensures ok <==> old(state) == Computation
      ensures ok ==> state == PostComputation && Recorded(Event(ComputationFinish(computation, result), now))
      ensures !ok ==> Untouched()
    {
      ok := Move(PostComputation, Event(ComputationFinish(computation, result), now));
    }

    /** `finish()`: from `PostComputation` only, back to `Idle`; never from `Exception`. */
    method Finish(now: int, all: Elapsed) returns (ok: bool)
      requires Valid()
      modifies this
      ensures Valid()
      ensures ok <==> old(state) == PostComputation
      ensures ok ==> state == Idle && Recorded(Event(JobFinish(all), now))
      ensures !ok ==> Untouched()
    {
      ok := Move(Idle, Event(JobFinish(all), now));
    }

    /** `info(text)`: accepted in every state, which it keeps. */
    method Info(now: int, text: string)
      requires Valid()
      modifies this
      ensures Valid()
      ensures state == old(state) && Recorded(Event(Events.Info(text), now))
    {
      RecordAndAlert(Event(Events.Info(text), now));
    }

    /** `exception(e)`: accepted in every state, `Exception` included, and ends there. */
    method ReportException(now: int, message: Option<string>)
      requires Valid()
      modifies this
      ensures Valid()
      ensures state == Pipeline.Exception && Recorded(Event(ExceptionThrown(message), now))
    {
      var ok := Move(Pipeline.Exception, Event(ExceptionThrown(message), now));
      assert ok;
    }
  }

  /** The progress events of jobs `0 .. count - 1` out of `total`. */
  function ProgressEvents(now: int, count: nat, total: int): (r: seq<Event>)
    ensures |r| == count
    ensures forall i :: 0 <= i < count ==> r[i] == Event(ComputationProgress(i, total), now)
  {
    if count == 0 then []
    else ProgressEvents(now, count - 1, total) + [Event(ComputationProgress(count - 1, total), now)]
  }

  /** The log of one complete run: the stages in pipeline order, one progress report per job. */
  function RunEvents(now: int, stl: Elapsed, transfer: Elapsed, computation: Elapsed,
                     all: Elapsed, jobs: nat, result: real): seq<Event>
  {
    [Event(JobStart, now), Event(ParseStlStart, now), Event(ParseStlFinish(stl), now),
     Event(BufferTransferStart, now), Event(BufferTransferFinish(transfer), now),
     Event(ComputationStart, now)]
    + ProgressEvents(now, jobs, jobs)
    + [Event(ComputationFinish(computation, result), now), Event(JobFinish(all), now)]
  }

  /** `start()` and the parsing stage, from an idle or failed manager. */
  method StartAndParse(m: EventManager, now: int, stl: Elapsed) returns (ok: bool)
    requires m.Valid() && (m.state == Idle || m.state == Pipeline.Exception)
    modifies m
    ensures m.Valid() && ok && m.state == PostParseStl
    ensures m.subscribers == old(m.subscribers)
    ensures m.events == old(m.events)
      + [Event(JobStart, now), Event(ParseStlStart, now), Event(ParseStlFinish(stl), now)]
  {
    ok := m.Start(now);
    var ok1 := m.StartParseStl(now);
    var ok2 := m.FinishParseStl(now, stl);
    ok := ok && ok1 && ok2;
  }

  /** The buffer transfer and the start of the computation, after parsing. */
  method TransferAndStartComputation(m: EventManager, now: int, transfer: Elapsed) returns (ok: bool)
    requires m.Valid() && m.state == PostParseStl
    modifies m
    ensures m.Valid() && ok && m.state == Computation
    ensures m.subscribers == old(m.subscribers)
    ensures m.events == old(m.events)
      + [Event(BufferTransferStart, now), Event(BufferTransferFinish(transfer), now), Event(ComputationStart, now)]
  {
    ok := m.StartBufferTransfer(now);
    var ok1 := m.FinishBufferTransfer(now, transfer);
    var ok2 := m.StartComputation(now);
    ok := ok && ok1 && ok2;
  }

  /** One progress report per job, in job order; the state stays `Computation`. */
  method ReportProgress(m: EventManager, now: int, jobs: nat)
    requires m.Valid() && m.state == Computation
    modifies m
    ensures m.Valid() && m.state == Computation
    ensures m.subscribers == old(m.subscribers)
    ensures m.events == old(m.events) + ProgressEvents(now, jobs, jobs)
  {
    var job := 0;
    while job < jobs
      invariant 0 <= job <= jobs
      invariant m.Valid() && m.state == Computation && m.subscribers == old(m.subscribers)
      invariant m.events == old(m.events) + ProgressEvents(now, job, jobs)
    {
      m.UpdateComputationProgress(now, job, jobs);
      job := job + 1;
    }
  }

  /**
   * A whole run: `start`, then the stages the latest kernel's `build` and `calculate`
   * move this manager through (the parsing stage, the buffer transfer, the computation
   * with one progress report per job), then `finish`, the frame `ViewFactorCalculator.run`
   * puts around them (on the older manager, which has the same stages). From an
   * idle (or failed) manager every call is accepted, the manager ends idle, and the log
   * grows by exactly these events in this order.
   */
  method FullRun(m: EventManager, now: int, stl: Elapsed, transfer: Elapsed,
                 computation: Elapsed, all: Elapsed, jobs: nat, result: real)
    returns (ok: bool)
    requires m.Valid() && (m.state == Idle || m.state == Pipeline.Exception)
    modifies m
    ensures m.Valid() && ok && m.state == Idle
    ensures m.subscribers == old(m.subscribers)
    ensures m.events == old(m.events) + RunEvents(now, stl, transfer, computation, all, jobs, result)
  {
    ok := StartAndParse(m, now, stl);
    var ok1 := TransferAndStartComputation(m, now, transfer);
    ReportProgress(m, now, jobs);
    var ok2 := m.FinishComputation(now, computation, result);
    var ok3 := m.Finish(now, all);
    ok := ok && ok1 && ok2 && ok3;
  }
}
