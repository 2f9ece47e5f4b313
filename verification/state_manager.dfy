/**
 * `viewfactor.state.StateManager`, the variant without an event log. Each stage method
 * checks its own precondition (Guava's `checkState`, which throws before anything is
 * touched), then `changeState` assigns the state and tells every subscriber about it,
 * and only then are the subscribers given the stage's own callback.
 *
 * Subscribers are ids; what they are told is kept as the trace `notes` of
 * (subscriber, callback) pairs. A stopwatch handed to a callback inside an
 * `ElapsedTime` is modelled by its readings at the moment of the call.
 */
module StateManagement {
  import opened Pipeline
  import opened Timing
  import opened Wrappers
  import Text

  type SubscriberId = nat

  /** The methods of `StateManager.Subscriber`, with their arguments. */
  datatype Callback =
    | OnStart
    | OnStop(timer: Elapsed)
    | OnParseStlStart
    | OnParseStlFinish(timer: Elapsed)
    | OnBufferTransferStart
    | OnBufferTransferFinish(timer: Elapsed)
    | OnComputationStart
    | OnComputationProgress(timer: Elapsed, current: int, max: int)
    | OnComputationFinish(timer: Elapsed, result: real)
    | OnInfo(info: string)
    | OnException(message: Option<string>)
    | OnStateChange(state: State)

  /** One callback made on one subscriber. */
  datatype Note = Note(subscriber: SubscriberId, callback: Callback)

  /** `subscribers.forEach(s -> s.c)`: one note per registration, in list order. */
  function Broadcast(subs: seq<SubscriberId>, c: Callback): (r: seq<Note>)
    ensures |r| == |subs|
    ensures forall i :: 0 <= i < |subs| ==> r[i] == Note(subs[i], c)
  {
    if subs == [] then [] else [Note(subs[0], c)] + Broadcast(subs[1..], c)
  }

  /** The callbacks subscriber `x` received, in order. */
  function Received(notes: seq<Note>, x: SubscriberId): seq<Callback> {
    if notes == [] then []
    else (if notes[0].subscriber == x then [notes[0].callback] else []) + Received(notes[1..], x)
  }

  /** How often `x` is registered. */
  function Registrations(subs: seq<SubscriberId>, x: SubscriberId): nat {
    if subs == [] then 0 else (if subs[0] == x then 1 else 0) + Registrations(subs[1..], x)
  }

  /** `n` copies of `c`. */
  function Repeat(c: Callback, n: nat): (r: seq<Callback>)
    ensures |r| == n && forall i :: 0 <= i < n ==> r[i] == c
  {
    if n == 0 then [] else [c] + Repeat(c, n - 1)
  }

  /** Splitting the trace splits what each subscriber received. */
  lemma {:induction false} ReceivedAppend(a: seq<Note>, b: seq<Note>, x: SubscriberId)
    ensures Received(a + b, x) == Received(a, x) + Received(b, x)
    decreases |a|
  {
    if a != [] {
      assert (a + b)[1..] == a[1..] + b;
      ReceivedAppend(a[1..], b, x);
    } else {
      assert a + b == b;
    }
  }

  /** A broadcast reaches `x` once per registration of `x`, and nobody else's copy reaches `x`. */
  lemma {:induction false} ReceivedBroadcast(subs: seq<SubscriberId>, c: Callback, x: SubscriberId)
    ensures Received(Broadcast(subs, c), x) == Repeat(c, Registrations(subs, x))
    decreases |subs|
  {
    if subs != [] {
      var r := Broadcast(subs, c);
      assert r[1..] == Broadcast(subs[1..], c);
      ReceivedBroadcast(subs[1..], c, x);
      if subs[0] == x {
        assert Repeat(c, Registrations(subs, x)) == [c] + Repeat(c, Registrations(subs[1..], x));
      }
    }
  }

  /**
   * A subscriber registered once sees a stage as two consecutive callbacks: the new
   * state first, then the stage's own callback.
   */
  lemma StageSeenInOrder(subs: seq<SubscriberId>, next: State, c: Callback, x: SubscriberId)
    requires Registrations(subs, x) == 1
    ensures Received(Broadcast(subs, OnStateChange(next)) + Broadcast(subs, c), x)
      == [OnStateChange(next), c]
  {
    ReceivedAppend(Broadcast(subs, OnStateChange(next)), Broadcast(subs, c), x);
    ReceivedBroadcast(subs, OnStateChange(next), x);
    ReceivedBroadcast(subs, c, x);
  }

  const UnreasonablePrefix := "Unable to find reasonable time unit for seconds: "

  /**
   * `ElapsedTime.toString()`: the reading in the first unit, in declaration order,
   * that shows at most 9999, else the fallback text with the seconds reading.
   */
  function ElapsedText(e: Elapsed): string {
    match ReasonableUnit(e)
    case Some(u) => UnitText(e, u)
    case None => UnreasonablePrefix + Text.IntToString(e.seconds)
  }

  /**
   * The text shows the reading in the first unit that fits, and falls back to the
   * seconds reading only when no unit fits.
   */
  lemma ElapsedTextUnit(e: Elapsed)
    ensures forall u :: FirstFitting(e, u) ==> ElapsedText(e) == UnitText(e, u)
    ensures (forall u :: e.In(u) > Limit) ==> ElapsedText(e) == UnreasonablePrefix + Text.IntToString(e.seconds)
  {
  }

  /** The loop of `ElapsedTime.toString()`, which returns from inside the `for`. */
  method ElapsedTimeToString(e: Elapsed) returns (s: string)
    ensures s == ElapsedText(e)
  {
    var i := 0;
    while i < |Units|
      invariant 0 <= i <= |Units|
      invariant forall k :: 0 <= k < i ==> e.In(Units[k]) > Limit
    {
      var value := e.In(Units[i]);
      if value > Limit {
        i := i + 1;
        continue;
      }
      assert FirstFitting(e, Units[i]) by {
        assert Position(Units[i]) == i;
      }
      ElapsedTextUnit(e);
      return Text.IntToString(value) + " " + UnitName(Units[i]) + ".";
    }
    assert forall u :: e.In(u) > Limit by {
      forall u ensures e.In(u) > Limit {
        assert Units[Position(u)] == u;
      }
    }
    ElapsedTextUnit(e);
    s := UnreasonablePrefix + Text.IntToString(e.In(Seconds));
  }

  class StateManager {
    var state: State
    var subscribers: seq<SubscriberId>
    /** Every callback made so far, in the order made. */
    var notes: seq<Note>

    /** Subscribes the console logger, then `changeState(IDLE)`, which tells it so. */
    constructor (consoleLogger: SubscriberId)
      ensures state == Idle && subscribers == [consoleLogger]
      ensures notes == [Note(consoleLogger, OnStateChange(Idle))]
    {
      subscribers := [consoleLogger];
      notes := [];
      state := Idle;
      new;
      ChangeState(Idle);
    }

    /** `registerSubscriber`. */
    method RegisterSubscriber(s: SubscriberId)
      modifies this
      ensures subscribers == old(subscribers) + [s]
      ensures state == old(state) && notes == old(notes)
    {
      subscribers := subscribers + [s];
    }

    /** `subscribers.forEach(...)` with callback `c`. */
    method Notify(c: Callback)
      modifies this
      ensures notes == old(notes) + Broadcast(subscribers, c)
      ensures state == old(state) && subscribers == old(subscribers)
    {
      var i := 0;
      while i < |subscribers|
        invariant 0 <= i <= |subscribers|
        invariant state == old(state) && subscribers == old(subscribers)
        invariant notes == old(notes) + Broadcast(subscribers[..i], c)
      {
        notes := notes + [Note(subscribers[i], c)];
        i := i + 1;
        assert Broadcast(subscribers[..i], c) == Broadcast(subscribers[..i - 1], c) + [Note(subscribers[i - 1], c)];
      }
      assert subscribers[..i] == subscribers;
    }

    /** `changeState`: assign, then tell every subscriber the new state. */
    method ChangeState(next: State)
      modifies this
      ensures state == next && subscribers == old(subscribers)
      ensures notes == old(notes) + Broadcast(subscribers, OnStateChange(next))
    {
      state := next;
      Notify(OnStateChange(next));
    }

    /** An accepted stage call: the move to `next`, announced, then callback `c` to everyone. */
    twostate predicate Staged(next: State, c: Callback)
      reads this
    {
      && state == next
      && subscribers == old(subscribers)
      && notes == old(notes) + Broadcast(subscribers, OnStateChange(next)) + Broadcast(subscribers, c)
    }

    /** A failed `checkState`: nothing changed and nobody was called. */
    twostate predicate Untouched()
      reads this
    {
      state == old(state) && subscribers == old(subscribers) && notes == old(notes)
    }

    /** The shared shape of the stage methods: check, move, then the stage callback. */
    method Stage(allowed: bool, next: State, c: Callback) returns (ok: bool)
      modifies this
      ensures ok == allowed
      ensures ok ==> Staged(next, c)
      ensures !ok ==> Untouched()
    {
      if !allowed {
        return false;
      }
      ChangeState(next);
      Notify(c);
      ok := true;
    }

    /** `start()`: from `IDLE` or `EXCEPTION` to `INIT`, then `onStart`. */
    method Start() returns (ok: bool)
      modifies this
      ensures ok <==> old(state) == Idle || old(state) == Pipeline.Exception
      ensures ok ==> Staged(Init, OnStart)
      ensures !ok ==> Untouched()
    {
      ok := Stage(state == Idle || state == Pipeline.Exception, Init, OnStart);
    }

    /** `startParseStl()`: from `INIT` only. */
    method StartParseStl() returns (ok: bool)
      modifies this
      ensures ok <==> old(state) == Init
      ensures ok ==> Staged(ParseStl, OnParseStlStart)
      ensures !ok ==> Untouched()
    {
      ok := Stage(state == Init, ParseStl, OnParseStlStart);
    }

    /** `finishParseStl()`: from `PARSE_STL` only; `stl` is the stopped STL stopwatch. */
    method FinishParseStl(stl: Elapsed) returns (ok: bool)
      modifies this
      ensures ok <==> old(state) == ParseStl
      ensures ok ==> Staged(PostParseStl, OnParseStlFinish(stl))
      ensures !ok ==> Untouched()
    {
      ok := Stage(state == ParseStl, PostParseStl, OnParseStlFinish(stl));
    }

    /** `startBufferTransfer()`: from `POST_PARSE_STL` only. */
    method StartBufferTransfer() returns (ok: bool)
      modifies this
      ensures ok <==> old(state) == PostParseStl
      ensures ok ==> Staged(BufferTransfer, OnBufferTransferStart)
      ensures !ok ==> Untouched()
    {
      ok := Stage(state == PostParseStl, BufferTransfer, OnBufferTransferStart);
    }

    /** `finishBufferTransfer()`: from `BUFFER_TRANSFER` only. */
    method FinishBufferTransfer(transfer: Elapsed) returns (ok: bool)
      modifies this
      ensures ok <==> old(state) == BufferTransfer
      ensures ok ==> Staged(PostBufferTransfer, OnBufferTransferFinish(transfer))
      ensures !ok ==> Untouched()
    {
      ok := Stage(state == BufferTransfer, PostBufferTransfer, OnBufferTransferFinish(transfer));
    }

    /** `startComputation()`: from `POST_BUFFER_TRANSFER` only. */
    method StartComputation() returns (ok: bool)
      modifies this
      ensures ok <==> old(state) == PostBufferTransfer
      ensures ok ==> Staged(Computation, OnComputationStart)
      ensures !ok ==> Untouched()
    {
      ok := Stage(state == PostBufferTransfer, Computation, OnComputationStart);
    }

    /**
     * `updateComputationProgress(current, max)`: only during `COMPUTATION`, which it
     * keeps; no state change is announced. `timer` is the running computation stopwatch.
     */
    method UpdateComputationProgress(timer: Elapsed, current: int, max: int) returns (ok: bool)
      modifies this
      ensures ok <==> old(state) == Computation
      ensures ok ==> (state == old(state) && subscribers == old(subscribers)
        && notes == old(notes) + Broadcast(subscribers, OnComputationProgress(timer, current, max)))
      ensures !ok ==> Untouched()
    {
      if state != Computation {
        return false;
      }
      Notify(OnComputationProgress(timer, current, max));
      ok := true;
    }

    /** `finishComputation(result)`: from `COMPUTATION` only. */
    method FinishComputation(computation: Elapsed, result: real) returns (ok: bool)
      modifies this
      ensures ok <==> old(state) == Computation
      ensures ok ==> Staged(PostComputation, OnComputationFinish(computation, result))
      ensures !ok ==> Untouched()
    {
      ok := Stage(state == Computation, PostComputation, OnComputationFinish(computation, result));
    }

    /** `finish()`: from `POST_COMPUTATION` only, back to `IDLE`, then `onStop`. */
    method Finish(all: Elapsed) returns (ok: bool)
      modifies this
      ensures ok <==> old(state) == PostComputation
      ensures ok ==> Staged(Idle, OnStop(all))
      ensures !ok ==> Untouched()
    {
      ok := Stage(state == PostComputation, Idle, OnStop(all));
    }

    /** `info(text)`: no precondition and no state change. */
    method Info(text: string)
      modifies this
      ensures state == old(state) && subscribers == old(subscribers)
      ensures notes == old(notes) + Broadcast(subscribers, OnInfo(text))
    {
      Notify(OnInfo(text));
    }

    /** `exception(e)`: no precondition; always ends in `EXCEPTION`. */
    method ReportException(message: Option<string>)
      modifies this
      ensures Staged(Pipeline.Exception, OnException(message))
    {
      ChangeState(Pipeline.Exception);
      Notify(OnException(message));
    }
  }

  /**
   * Each stage method's own precondition is exactly the successor table of the event
   * managers: the state it demands is the one state whose successor it moves to.
   */
  lemma StagePreconditionsFollowTable(current: State)
    ensures (current == Idle || current == Exception) <==> Accepts(current, Init)
    ensures current == Init <==> Accepts(current, ParseStl)
    ensures current == ParseStl <==> Accepts(current, PostParseStl)
    ensures current == PostParseStl <==> Accepts(current, BufferTransfer)
    ensures current == BufferTransfer <==> Accepts(current, PostBufferTransfer)
    ensures current == PostBufferTransfer <==> Accepts(current, Computation)
    ensures current == Computation <==> Accepts(current, PostComputation)
    ensures current == PostComputation <==> Accepts(current, Idle)
  {
  }
}
