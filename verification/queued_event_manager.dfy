/**
 * `events.EventManager`, the earlier manager: the same states, successor table, guard
 * and event log, but no default console logger, and subscribers are called on a
 * single-worker executor. Each recorded event becomes one task on that executor's
 * FIFO queue; the worker runs the tasks one at a time, in order, and a task hands its
 * event to the subscribers registered when it runs.
 *
 * The manager's own event class, `events.Event`, is not part of this model; the event
 * kinds of `viewfactor.events.Event` (module `Events`) stand in for it.
 */
module QueuedEventManagement {
  import opened Pipeline
  import opened Events
  import opened Timing
  import opened Wrappers
  import EventManagement

  type SubscriberId = EventManagement.SubscriberId

  class EventManager {
    var state: State
    var events: seq<Event>
    var subscribers: seq<SubscriberId>
    /** The events whose dispatch tasks wait on the executor, oldest first. */
    var queue: seq<Event>
    /** Every `onEvent` call the worker has made. */
    var delivered: seq<EventManagement.Delivery>
    /** The events whose tasks have run, in the order they ran. */
    ghost var dispatched: seq<Event>
    /** The subscriber list each task saw when it ran. */
    ghost var audiences: seq<seq<SubscriberId>>

    /**
     * The worker keeps log order: the dispatched events followed by the queued ones are
     * exactly the log, and each dispatched event went to the subscribers of its time.
     */
    ghost predicate Valid()
      reads this
    {
      && dispatched + queue == events
      && |audiences| == |dispatched|
      && delivered == EventManagement.Deliveries(dispatched, audiences)
      && forall i :: 0 <= i < |audiences| ==> EventManagement.IsPrefix(audiences[i], subscribers)
    }

    /** A fresh manager: idle, no subscribers, nothing logged, nothing queued. */
    constructor ()
      ensures Valid()
      ensures state == Idle && events == [] && subscribers == [] && queue == [] && delivered == []
    {
      state := Idle;
      events := [];
      subscribers := [];
      queue := [];
      delivered := [];
      dispatched := [];
      audiences := [];
    }

    /** `registerSubscriber`. */
    method RegisterSubscriber(s: SubscriberId)
      requires Valid()
      modifies this
      ensures Valid()
      ensures subscribers == old(subscribers) + [s]
      ensures state == old(state) && events == old(events) && queue == old(queue)
      ensures delivered == old(delivered)
    {
      subscribers := subscribers + [s];
      forall i | 0 <= i < |audiences|
        ensures EventManagement.IsPrefix(audiences[i], subscribers)
      {
        assert EventManagement.IsPrefix(audiences[i], old(subscribers));
        assert subscribers[..|old(subscribers)|] == old(subscribers);
      }
    }

    /** The effect of `recordAndAlertSubscribers(e)`: logged and queued, nobody called yet. */
    twostate predicate Recorded(e: Event)
      reads this
    {
      && events == old(events) + [e]
      && queue == old(queue) + [e]
      && delivered == old(delivered)
      && subscribers == old(subscribers)
    }

    /** What a rejected move leaves behind: state, log, queue and calls unchanged. */
    twostate predicate Untouched()
      reads this
    {
      && state == old(state)
      && events == old(events)
      && queue == old(queue)
      && delivered == old(delivered)
      && subscribers == old(subscribers)
    }

    /** `recordAndAlertSubscribers`: append to the log, then submit one dispatch task. */
    method RecordAndAlert(e: Event)
      requires Valid()
      modifies this
      ensures Valid()
      ensures Recorded(e) && state == old(state)
    {
      events := events + [e];
      queue := queue + [e];
    }

    /**
     * The worker runs the oldest task: it takes the first queued event and calls every
     * subscriber registered at this moment, in list order. With no task waiting it
     * does nothing.
     */
    method RunNextTask() returns (ran: bool)
      requires Valid()
      modifies this
      ensures Valid()
      ensures ran <==> old(queue) != []
      ensures ran ==> (queue == old(queue)[1..]
        && delivered == old(delivered) + EventManagement.FanOut(subscribers, old(queue)[0]))
      ensures !ran ==> queue == old(queue) && delivered == old(delivered)
      ensures state == old(state) && events == old(events) && subscribers == old(subscribers)
    {
      if queue == [] {
        return false;
      }
      var e := queue[0];
      queue := queue[1..];
      dispatched := dispatched + [e];
      audiences := audiences + [subscribers];
      var i := 0;
      while i < |subscribers|
        invariant 0 <= i <= |subscribers|
        invariant queue == old(queue)[1..] && dispatched == old(dispatched) + [e]
        invariant audiences == old(audiences) + [subscribers]
        invariant subscribers == old(subscribers) && state == old(state) && events == old(events)
        invariant delivered == old(delivered) + EventManagement.FanOut(subscribers[..i], e)
      {
        delivered := delivered + [EventManagement.Delivery(subscribers[i], e)];
        i := i + 1;
        assert subscribers[..i][..i - 1] == subscribers[..i - 1];
      }
      assert subscribers[..i] == subscribers;
      assert dispatched[..|dispatched| - 1] == old(dispatched);
      assert audiences[..|audiences| - 1] == old(audiences);
      assert dispatched + queue == old(dispatched) + ([e] + old(queue)[1..]);
      assert [e] + old(queue)[1..] == old(queue);
      forall j | 0 <= j < |audiences|
        ensures EventManagement.IsPrefix(audiences[j], subscribers)
      {
        if j < |audiences| - 1 {
          assert audiences[j] == old(audiences)[j];
        }
      }
      ran := true;
    }

    /** `changeState(next)` then `recordAndAlertSubscribers(e)`; a rejected move changes nothing. */
    method Move(next: State, e: Event) returns (ok: bool)
      requires Valid()
      modifies this
      ensures Valid()
      ensures ok == Accepts(old(state), next)
      ensures ok ==> state == next && Recorded(e)
      ensures !ok ==> Untouched()
    {
      ok := Accepts(state, next);
      if ok {
        state := next;
        RecordAndAlert(e);
      }
    }

    /** `start()`: from `Idle` or `Exception` to `Init`. */
    method Start(now: int) returns (ok: bool)
      requires Valid()
      modifies this
      ensures Valid()
      ensures ok <==> old(state) == Idle || old(state) == Pipeline.Exception
      ensures ok ==> state == Init && Recorded(Event(JobStart, now))
      ensures !ok ==> Untouched()
    {
      ok := Move(Init, Event(JobStart, now));
    }

    /** `startParseStl()`: from `Init` only. */
    method StartParseStl(now: int) returns (ok: bool)
      requires Valid()
      modifies this
      ensures Valid()
      ensures ok <==> old(state) == Init
      ensures ok ==> state == ParseStl && Recorded(Event(ParseStlStart, now))
      ensures !ok ==> Untouched()
    {
      ok := Move(ParseStl, Event(ParseStlStart, now));
    }

    /** `finishParseStl()`: from `ParseStl` only. */
    method FinishParseStl(now: int, stl: Elapsed) returns (ok: bool)
      requires Valid()
      modifies this
      ensures Valid()
      ensures ok <==> old(state) == ParseStl
      ensures ok ==> state == PostParseStl && Recorded(Event(ParseStlFinish(stl), now))
      ensures !ok ==> Untouched()
    {
      ok := Move(PostParseStl, Event(ParseStlFinish(stl), now));
    }

    /** `startBufferTransfer()`: from `PostParseStl` only. */
    method StartBufferTransfer(now: int) returns (ok: bool)
      requires Valid()
      modifies this
      ensures Valid()
      ensures ok <==> old(state) == PostParseStl
      ensures ok ==> state == BufferTransfer && Recorded(Event(BufferTransferStart, now))
      ensures !ok ==> Untouched()
    {
      ok := Move(BufferTransfer, Event(BufferTransferStart, now));
    }

    /** `finishBufferTransfer()`: from `BufferTransfer` only. */
    method FinishBufferTransfer(now: int, transfer: Elapsed) returns (ok: bool)
      requires Valid()
      modifies this
      ensures Valid()
      ensures ok <==> old(state) == BufferTransfer
      ensures ok ==> state == PostBufferTransfer && Recorded(Event(BufferTransferFinish(transfer), now))
      ensures !ok ==> Untouched()
    {
      ok := Move(PostBufferTransfer, Event(BufferTransferFinish(transfer), now));
    }

    /** `startComputation()`: from `PostBufferTransfer` only. */
    method StartComputation(now: int) returns (ok: bool)
      requires Valid()
      modifies this
      ensures Valid()
      ensures ok <==> old(state) == PostBufferTransfer
      ensures ok ==> state == Computation && Recorded(Event(ComputationStart, now))
      ensures !ok ==> Untouched()
    {
      ok := Move(Computation, Event(ComputationStart, now));
    }

    /** `updateComputationProgress(current, max)`: accepted in every state, which it keeps. */
    method UpdateComputationProgress(now: int, current: int, max: int)
      requires Valid()
      modifies this
      ensures Valid()
      ensures state == old(state) && Recorded(Event(ComputationProgress(current, max), now))
    {
      RecordAndAlert(Event(ComputationProgress(current, max), now));
    }

    /** `finishComputation(result)`: from `Computation` only. */
    method FinishComputation(now: int, computation: Elapsed, result: real) returns (ok: bool)
      requires Valid()
      modifies this
      ensures Valid()
      ensures ok <==> old(state) == Computation
      ensures ok ==> state == PostComputation && Recorded(Event(ComputationFinish(computation, result), now))
      ensures !ok ==> Untouched()
    {
      ok := Move(PostComputation, Event(ComputationFinish(computation, result), now));
    }

    /** `finish()`: from `PostComputation` only, back to `Idle`. */
    method Finish(now: int, all: Elapsed) returns (ok: bool)
      requires Valid()
      modifies this
      ensures Valid()
      ensures ok <==> old(state) == PostComputation
      ensures ok ==> state == Idle && Recorded(Event(JobFinish(all), now))
      ensures !ok ==> Untouched()
    {
      ok := Move(Idle, Event(JobFinish(all), now));
    }

    /** `info(text)`: accepted in every state, which it keeps. */
    method Info(now: int, text: string)
      requires Valid()
      modifies this
      ensures Valid()
      ensures state == old(state) && Recorded(Event(Events.Info(text), now))
    {
      RecordAndAlert(Event(Events.Info(text), now));
    }

    /** `exception(e)`: accepted in every state and ends in `Exception`. */
    method ReportException(now: int, message: Option<string>)
      requires Valid()
      modifies this
      ensures Valid()
      ensures state == Pipeline.Exception && Recorded(Event(ExceptionThrown(message), now))
    {
      var ok := Move(Pipeline.Exception, Event(ExceptionThrown(message), now));
      assert ok;
    }

    /**
     * Lets the worker run until the queue is empty. Afterwards every logged event has
     * been handed out, in log order, each to the subscribers of the time its task ran.
     */
    method RunAllTasks()
      requires Valid()
      modifies this
      ensures Valid()
      ensures queue == [] && dispatched == events
      ensures delivered == old(delivered) + QueuedDeliveries(old(queue), subscribers)
      ensures state == old(state) && events == old(events) && subscribers == old(subscribers)
    {
      while queue != []
        invariant Valid()
        invariant delivered + QueuedDeliveries(queue, subscribers)
          == old(delivered) + QueuedDeliveries(old(queue), subscribers)
        invariant state == old(state) && events == old(events) && subscribers == old(subscribers)
        decreases |queue|
      {
        ghost var before, d0 := queue, delivered;
        var ran := RunNextTask();
        DeliveriesShift(d0, delivered, before, queue, subscribers);
      }
      assert dispatched + queue == dispatched;
    }
  }

  /** The calls made when the tasks for `es` run one after the other with a fixed subscriber list. */
  function QueuedDeliveries(es: seq<Event>, subs: seq<SubscriberId>): seq<EventManagement.Delivery>
  {
    if es == [] then [] else EventManagement.FanOut(subs, es[0]) + QueuedDeliveries(es[1..], subs)
  }

  /** Running the first queued task moves its calls from the pending part to the delivered part. */
  lemma DeliveriesShift(d0: seq<EventManagement.Delivery>, d1: seq<EventManagement.Delivery>,
                        before: seq<Event>, after: seq<Event>, subs: seq<SubscriberId>)
    requires before != [] && after == before[1..]
    requires d1 == d0 + EventManagement.FanOut(subs, before[0])
    ensures d1 + QueuedDeliveries(after, subs) == d0 + QueuedDeliveries(before, subs)
  {
    assert QueuedDeliveries(before, subs) == EventManagement.FanOut(subs, before[0]) + QueuedDeliveries(after, subs);
  }
}
