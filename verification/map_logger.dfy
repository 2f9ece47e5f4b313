/**
 * `MapLogger`, a `StateManager` subscriber that buffers what it is told for a poller:
 * each callback appends messages or overwrites one of its status fields, and `get()`
 * hands out a snapshot of everything and then empties the message buffer.
 */
module MapLogging {
  import opened Pipeline
  import opened Wrappers
  import opened StateManagement
  import opened Timing
  import Events
  import Text

  const MessagesKey := "messages"
  const StateKey := "state"
  const PercentageKey := "percentage"
  const ResultKey := "result"
  const FailureKey := "failure"
  const Keys := {MessagesKey, StateKey, PercentageKey, FailureKey, ResultKey}

  // The fixed texts of the callbacks' messages.
  const InitializingText := "Initializing..."
  const StopPrefix := "All operations completed in "
  const ParseStartText := "Reading STL files and precomputing geometry..."
  const ParseFinishPrefix := "STLs parsed and geometry precomputed in: "
  const TransferStartText := "Beginning initial buffer transfer to GPU."
  const TransferFinishPrefix := "Initial buffer transfer complete in: "
  const ComputationStartText := "Beginning GPU computation of view factors."
  const ProgressPrefix := "GPU computation is "
  const ProgressInfix := " complete "
  const ComputationFinishPrefix := "GPU computation finished in: "
  const ResultPrefix := "Result: "
  const InfoTag := "[INFO]: "
  const ErrorTag := "[ERROR]: "

  /** `String.valueOf(boolean)`. */
  function BoolText(b: bool): string {
    if b then "true" else "false"
  }

  /** `e.getMessage()` inside string concatenation: a null message reads `null`. */
  function MessageText(message: Option<string>): string {
    match message
    case Some(m) => m
    case None => "null"
  }

  /**
   * The messages a callback appends, in order. `fmt.percent(current, max)` stands for
   * `PERCENTAGE_FORMATTER.format((double) current / (double) max)` and `fmt.double` for
   * Java's rendering of a `double`.
   */
  function Appended(fmt: Events.Formats, c: Callback): seq<string> {
    match c
    case OnStart => [InitializingText]
    case OnStop(timer) => [StopPrefix + ElapsedText(timer)]
    case OnParseStlStart => [ParseStartText]
    case OnParseStlFinish(timer) => [ParseFinishPrefix + ElapsedText(timer)]
    case OnBufferTransferStart => [TransferStartText]
    case OnBufferTransferFinish(timer) => [TransferFinishPrefix + ElapsedText(timer)]
    case OnComputationStart => [ComputationStartText]
    case OnComputationProgress(_, current, max) =>
      [ProgressPrefix + fmt.percent(current, max) + ProgressInfix + Events.Fraction(current, max)]
    case OnComputationFinish(timer, result) =>
      [ComputationFinishPrefix + ElapsedText(timer), ResultPrefix + fmt.double(result)]
    case OnInfo(info) => [InfoTag + info]
    case OnException(message) => [ErrorTag + MessageText(message)]
    case OnStateChange(_) => []
  }

  /**
   * Only `onStateChange` is silent; `onComputationFinish` is the one callback that
   * appends two messages, every other callback appends exactly one.
   */
  lemma AppendedCount(fmt: Events.Formats, c: Callback)
    ensures |Appended(fmt, c)| == 0 <==> c.OnStateChange?
    ensures |Appended(fmt, c)| == 2 <==> c.OnComputationFinish?
    ensures |Appended(fmt, c)| <= 2
  {
    match c
    case OnStateChange(_) =>
    case OnComputationFinish(_, _) =>
    case _ =>
  }

  /** The four status entries of the map, besides the messages. */
  datatype Status = Status(percentage: string, state: State, failure: bool, result: real)

  /**
   * The status after callback `c`: `onStart` resets percentage, failure and result,
   * progress and finish overwrite the percentage (finish also the result), an exception
   * raises the failure flag, a state change records the state; the rest keep it.
   */
  function StatusAfter(fmt: Events.Formats, s: Status, c: Callback): Status {
    match c
    case OnStart => s.(percentage := "0", failure := false, result := -1.0)
    case OnComputationProgress(_, current, max) => s.(percentage := fmt.percent(current, max))
    case OnComputationFinish(_, result) => s.(percentage := "100%", result := result)
    case OnException(_) => s.(failure := true)
    case OnStateChange(next) => s.(state := next)
    case _ => s
  }

  /** The status after the callbacks `cs`, made in order from status `s`. */
  function StatusAfterAll(fmt: Events.Formats, s: Status, cs: seq<Callback>): Status {
    if cs == [] then s else StatusAfter(fmt, StatusAfterAll(fmt, s, cs[..|cs| - 1]), cs[|cs| - 1])
  }

  /** One more callback moves the status on from where the earlier ones left it. */
  lemma StatusAfterAllStep(fmt: Events.Formats, s: Status, cs: seq<Callback>, i: nat)
    requires i < |cs|
    ensures StatusAfterAll(fmt, s, cs[..i + 1]) == StatusAfter(fmt, StatusAfterAll(fmt, s, cs[..i]), cs[i])
  {
    assert cs[..i + 1][..i] == cs[..i];
  }

  /** No `onStart` among the callbacks from index `i` on. */
  predicate NoStartFrom(cs: seq<Callback>, i: nat) {
    forall j :: i <= j < |cs| ==> !cs[j].OnStart?
  }

  /**
   * After a batch of callbacks the failure flag is up exactly when some exception was
   * reported after the last `onStart`, or the flag was up before and no `onStart` came.
   */
  lemma {:induction false} FailureAfterAll(fmt: Events.Formats, s: Status, cs: seq<Callback>)
    ensures StatusAfterAll(fmt, s, cs).failure <==>
      (|| (exists i :: 0 <= i < |cs| && cs[i].OnException? && NoStartFrom(cs, i + 1))
       || (s.failure && NoStartFrom(cs, 0)))
    decreases |cs|
  {
    if cs != [] {
      var init, last := cs[..|cs| - 1], cs[|cs| - 1];
      FailureAfterAll(fmt, s, init);
      assert forall i :: 0 <= i <= |init| ==> (NoStartFrom(cs, i) <==> NoStartFrom(init, i) && !last.OnStart?);
      if last.OnException? {
        assert NoStartFrom(cs, |cs|);
      } else if !last.OnStart? {
        if exists i :: 0 <= i < |cs| && cs[i].OnException? && NoStartFrom(cs, i + 1) {
          var i :| 0 <= i < |cs| && cs[i].OnException? && NoStartFrom(cs, i + 1);
          assert i < |init| && init[i].OnException? && NoStartFrom(init, i + 1);
        }
        if exists i :: 0 <= i < |init| && init[i].OnException? && NoStartFrom(init, i + 1) {
          var i :| 0 <= i < |init| && init[i].OnException? && NoStartFrom(init, i + 1);
          assert cs[i].OnException? && NoStartFrom(cs, i + 1);
        }
      }
    }
  }

  /** The info and error lines carry the reported text after a fixed tag. */
  lemma TaggedLines(fmt: Events.Formats, info: string, message: string)
    ensures var line := Appended(fmt, OnInfo(info))[0];
      line[..8] == InfoTag && line[8..] == info
    ensures var line := Appended(fmt, OnException(Some(message)))[0];
      line[..9] == ErrorTag && line[9..] == message
  {
  }

  class MapLogger {
    /** The library renderings, fixed for the logger's lifetime. */
    const fmt: Events.Formats
    var messages: seq<string>
    var percentage: string
    var state: State
    var failure: bool
    var result: real

    /** The status entries as they stand. */
    function CurrentStatus(): Status
      reads this
    {
      Status(percentage, state, failure, result)
    }

    /**
     * A fresh logger: no messages, state `INIT`, no failure, result -1 and the
     * formatter's rendering of zero (`format(0)`, the same text as `0 / 1`).
     */
    constructor (fmt: Events.Formats)
      ensures this.fmt == fmt
      ensures messages == [] && percentage == fmt.percent(0, 1) && state == Init
      ensures !failure && result == -1.0
    {
      this.fmt := fmt;
      percentage := fmt.percent(0, 1);
      state := Init;
      failure := false;
      result := -1.0;
      messages := [];
    }

    /**
     * `get()`: the five entries as they stand, messages joined with commas; then the
     * message buffer is cleared and nothing else changes.
     */
    method Get() returns (r: map<string, string>)
      modifies this
      ensures r.Keys == Keys
      ensures r[MessagesKey] == Text.Join(old(messages), ',')
      ensures r[StateKey] == Name(state)
      ensures r[PercentageKey] == percentage
      ensures r[FailureKey] == BoolText(failure)
      ensures r[ResultKey] == fmt.double(result)
      ensures messages == []
      ensures percentage == old(percentage) && state == old(state)
      ensures failure == old(failure) && result == old(result)
    {
      r := map[];
      r := r[MessagesKey := Text.Join(messages, ',')];
      r := r[StateKey := Name(state)];
      r := r[PercentageKey := percentage];
      r := r[FailureKey := BoolText(failure)];
      r := r[ResultKey := fmt.double(result)];
      messages := [];
    }

    /** `onStart`: a new run clears the status and says it is initialising. */
    method OnStart()
      modifies this
      ensures messages == old(messages) + Appended(fmt, StateManagement.OnStart)
      ensures percentage == "0" && !failure && result == -1.0 && state == old(state)
    {
      percentage := "0";
      failure := false;
      result := -1.0;
      messages := messages + [InitializingText];
    }

    /** The callbacks that only append their messages. */
    twostate predicate OnlyAppended(c: Callback)
      reads this
    {
      && messages == old(messages) + Appended(fmt, c)
      && percentage == old(percentage) && state == old(state)
      && failure == old(failure) && result == old(result)
    }

    method OnStop(timer: Elapsed)
      modifies this
      ensures OnlyAppended(StateManagement.OnStop(timer))
    {
      messages := messages + [StopPrefix + ElapsedText(timer)];
    }

    method OnParseStlStart()
      modifies this
      ensures OnlyAppended(StateManagement.OnParseStlStart)
    {
      messages := messages + [ParseStartText];
    }

    method OnParseStlFinish(elapsed: Elapsed)
      modifies this
      ensures OnlyAppended(StateManagement.OnParseStlFinish(elapsed))
    {
      messages := messages + [ParseFinishPrefix + ElapsedText(elapsed)];
    }

    method OnBufferTransferStart()
      modifies this
      ensures OnlyAppended(StateManagement.OnBufferTransferStart)
    {
      messages := messages + [TransferStartText];
    }

    method OnBufferTransferFinish(elapsed: Elapsed)
      modifies this
      ensures OnlyAppended(StateManagement.OnBufferTransferFinish(elapsed))
    {
      messages := messages + [TransferFinishPrefix + ElapsedText(elapsed)];
    }

    method OnComputationStart()
      modifies this
      ensures OnlyAppended(StateManagement.OnComputationStart)
    {
      messages := messages + [ComputationStartText];
    }

    /** `onComputationProgress`: one progress line, and the same percentage text is kept. */
    method OnComputationProgress(elapsed: Elapsed, current: int, max: int)
      modifies this
      ensures messages == old(messages) + Appended(fmt, StateManagement.OnComputationProgress(elapsed, current, max))
      ensures percentage == fmt.percent(current, max)
      ensures state == old(state) && failure == old(failure) && result == old(result)
    {
      var fraction := Events.Fraction(current, max);
      messages := messages + [ProgressPrefix + fmt.percent(current, max) + ProgressInfix + fraction];
      percentage := fmt.percent(current, max);
    }

    /** `onComputationFinish`: two lines, the percentage pinned to `100%`, the result kept. */
    method OnComputationFinish(elapsed: Elapsed, result: real)
      modifies this
      ensures messages == old(messages) + Appended(fmt, StateManagement.OnComputationFinish(elapsed, result))
      ensures percentage == "100%" && this.result == result
      ensures state == old(state) && failure == old(failure)
    {
      messages := messages + [ComputationFinishPrefix + ElapsedText(elapsed)];
      messages := messages + [ResultPrefix + fmt.double(result)];
      percentage := "100%";
      this.result := result;
    }

    method OnInfo(info: string)
      modifies this
      ensures OnlyAppended(StateManagement.OnInfo(info))
    {
      messages := messages + [InfoTag + info];
    }

    /** `onException`: an error line, and the failure flag is raised. */
    method OnException(message: Option<string>)
      modifies this
      ensures messages == old(messages) + Appended(fmt, StateManagement.OnException(message))
      ensures failure
      ensures percentage == old(percentage) && state == old(state) && result == old(result)
    {
      messages := messages + [ErrorTag + MessageText(message)];
      failure := true;
    }

    /** `onStateChange`: records the state and appends nothing. */
    method OnStateChange(next: State)
      modifies this
      ensures state == next && messages == old(messages)
      ensures percentage == old(percentage) && failure == old(failure) && result == old(result)
    {
      state := next;
    }

    /** The subscriber interface's dispatch: the callback `c` made on this logger. */
    method Handle(c: Callback)
      modifies this
      ensures messages == old(messages) + Appended(fmt, c)
      ensures state == (if c.OnStateChange? then c.state else old(state))
      ensures failure == (if c.OnException? then true else if c.OnStart? then false else old(failure))
      ensures percentage ==
        (if c.OnStart? then "0"
         else if c.OnComputationProgress? then fmt.percent(c.current, c.max)
         else if c.OnComputationFinish? then "100%"
         else old(percentage))
      ensures result ==
        (if c.OnStart? then -1.0 else if c.OnComputationFinish? then c.result else old(result))
      ensures CurrentStatus() == StatusAfter(fmt, old(CurrentStatus()), c)
    {
      match c
      case OnStart => OnStart();
      case OnStop(timer) => OnStop(timer);
      case OnParseStlStart => OnParseStlStart();
      case OnParseStlFinish(timer) => OnParseStlFinish(timer);
      case OnBufferTransferStart => OnBufferTransferStart();
      case OnBufferTransferFinish(timer) => OnBufferTransferFinish(timer);
      case OnComputationStart => OnComputationStart();
      case OnComputationProgress(timer, current, max) => OnComputationProgress(timer, current, max);
      case OnComputationFinish(timer, result) => OnComputationFinish(timer, result);
      case OnInfo(info) => OnInfo(info);
      case OnException(message) => OnException(message);
      case OnStateChange(next) => OnStateChange(next);
    }
  }

  /** The messages `f` gives for each callback of `cs`, one callback after the other. */
  function ConcatMap(f: Callback -> seq<string>, cs: seq<Callback>): seq<string> {
    if cs == [] then [] else ConcatMap(f, cs[..|cs| - 1]) + f(cs[|cs| - 1])
  }

  /** `Appended` with the renderings fixed. */
  function AppendedWith(fmt: Events.Formats): Callback -> seq<string> {
    c => Appended(fmt, c)
  }

  /** Every message appended by the callbacks `cs`, in order. */
  function AllAppended(fmt: Events.Formats, cs: seq<Callback>): seq<string> {
    ConcatMap(AppendedWith(fmt), cs)
  }

  /** One more callback appends its own messages after those of the earlier ones. */
  lemma AllAppendedStep(fmt: Events.Formats, cs: seq<Callback>, i: nat)
    requires i < |cs|
    ensures AllAppended(fmt, cs[..i + 1]) == AllAppended(fmt, cs[..i]) + Appended(fmt, cs[i])
  {
    assert cs[..i + 1][..i] == cs[..i];
  }

  /**
   * The callbacks `cs` made in order: the log grows by everything they append, and the
   * status is the one the callbacks leave, one after the other.
   */
  method HandleAll(l: MapLogger, cs: seq<Callback>)
    modifies l
    ensures l.messages == old(l.messages) + AllAppended(l.fmt, cs)
    ensures l.CurrentStatus() == StatusAfterAll(l.fmt, old(l.CurrentStatus()), cs)
  {
    var i := 0;
    while i < |cs|
      invariant 0 <= i <= |cs|
      invariant l.messages == old(l.messages) + AllAppended(l.fmt, cs[..i])
      invariant l.CurrentStatus() == StatusAfterAll(l.fmt, old(l.CurrentStatus()), cs[..i])
    {
      ghost var before, status := l.messages, l.CurrentStatus();
      l.Handle(cs[i]);
      assert l.messages == before + Appended(l.fmt, cs[i]);
      assert l.CurrentStatus() == StatusAfter(l.fmt, status, cs[i]);
      AllAppendedStep(l.fmt, cs, i);
      StatusAfterAllStep(l.fmt, old(l.CurrentStatus()), cs, i);
      i := i + 1;
    }
    assert cs[..i] == cs;
  }

  /**
   * A poller reading the logger after the callbacks `cs`: the first `get()` returns
   * every message they appended since the last one, joined with commas, and the
   * status they leave; an immediate second `get()` returns an empty message string
   * with the same status.
   */
  method PollAfter(l: MapLogger, cs: seq<Callback>) returns (first: map<string, string>, second: map<string, string>)
    modifies l
    ensures first.Keys == Keys && second.Keys == Keys
    ensures first[MessagesKey] == Text.Join(old(l.messages) + AllAppended(l.fmt, cs), ',')
    ensures var status := StatusAfterAll(l.fmt, old(l.CurrentStatus()), cs);
      && first[StateKey] == Name(status.state) && first[PercentageKey] == status.percentage
      && first[FailureKey] == BoolText(status.failure) && first[ResultKey] == l.fmt.double(status.result)
    ensures second[MessagesKey] == ""
    ensures second[StateKey] == first[StateKey] && second[PercentageKey] == first[PercentageKey]
    ensures second[FailureKey] == first[FailureKey] && second[ResultKey] == first[ResultKey]
    ensures l.messages == []
  {
    HandleAll(l, cs);
    first := l.Get();
    second := l.Get();
  }

  /** Concatenating per-callback messages distributes over splitting the callbacks. */
  lemma {:induction false} ConcatMapSplit(f: Callback -> seq<string>, a: seq<Callback>, b: seq<Callback>)
    ensures ConcatMap(f, a + b) == ConcatMap(f, a) + ConcatMap(f, b)
    decreases |b|
  {
    if b == [] {
      assert a + b == a;
    } else {
      assert (a + b)[..|a + b| - 1] == a + b[..|b| - 1];
      ConcatMapSplit(f, a, b[..|b| - 1]);
    }
  }

  /** Two batches of callbacks append their messages one batch after the other. */
  lemma AllAppendedSplit(fmt: Events.Formats, a: seq<Callback>, b: seq<Callback>)
    ensures AllAppended(fmt, a + b) == AllAppended(fmt, a) + AllAppended(fmt, b)
  {
    ConcatMapSplit(AppendedWith(fmt), a, b);
  }
}
