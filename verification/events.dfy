/**
 * `Event` and its eleven kinds: the immutable records the event managers log and hand
 * to their subscribers, their messages and their JSON form.
 */
module Events {
  import opened Wrappers
  import Text
  import opened Timing

  /**
   * The text renderings that come from Java's libraries: `DecimalFormat("##.##%")`
   * applied to `(double) current / (double) max`, and `Double.toString`.
   */
  datatype Formats = Formats(percent: (int, int) -> string, double: real -> string)

  /**
   * The kinds of event with what each carries. A finishing stage carries the readings
   * of its stopwatch, which is stopped before the event is built. An exception carries
   * its `getMessage()`, which Java allows to be null (`None`).
   */
  datatype Kind =
    | JobStart
    | JobFinish(all: Elapsed)
    | ParseStlStart
    | ParseStlFinish(stl: Elapsed)
    | BufferTransferStart
    | BufferTransferFinish(transfer: Elapsed)
    | ComputationStart
    | ComputationProgress(currentJob: int, numJobs: int)
    | ComputationFinish(computation: Elapsed, result: real)
    | Info(info: string)
    | ExceptionThrown(exceptionMessage: Option<string>)

  /** An event: its kind and the wall-clock milliseconds at which it was built. */
  datatype Event = Event(kind: Kind, timestamp: int)
  {
    /** `getTimestamp()`. */
    function GetTimestamp(): int {
      timestamp
    }
  }

  /** `getClass().getSimpleName()`. */
  function SimpleName(k: Kind): string {
    match k
    case JobStart => "JobStart"
    case JobFinish(_) => "JobFinish"
    case ParseStlStart => "ParseStlStart"
    case ParseStlFinish(_) => "ParseStlFinish"
    case BufferTransferStart => "BufferTransferStart"
    case BufferTransferFinish(_) => "BufferTransferFinish"
    case ComputationStart => "ComputationStart"
    case ComputationProgress(_, _) => "ComputationProgress"
    case ComputationFinish(_, _) => "ComputationFinish"
    case Info(_) => "Info"
    case ExceptionThrown(_) => "ExceptionThrown"
  }

  const TooLarge := "Error: time unit too large."

  /**
   * `getReasonableTimeUnit`: the reading in the first unit, in declaration order, that
   * shows at most 9999, or the fixed error text when no unit does.
   */
  function ReasonableTimeUnit(e: Elapsed): (s: string)
    ensures forall u :: FirstFitting(e, u) ==> s == UnitText(e, u)
    ensures (forall u :: e.In(u) > Limit) ==> s == TooLarge
  {
    match ReasonableUnit(e)
    case Some(u) =>
      UnitText(e, u)
    case None => TooLarge
  }

  /** `"(" + current + "/" + numJobs + ")."`. */
  function Fraction(current: int, numJobs: int): string {
    "(" + Text.IntToString(current) + "/" + Text.IntToString(numJobs) + ")."
  }

  /** `getMessage()`, which is null only for an exception without a message. */
  function Message(fmt: Formats, k: Kind): Option<string> {
    match k
    case JobStart => Some("Initializing...")
    case JobFinish(all) => Some("All operations completed in: " + ReasonableTimeUnit(all))
    case ParseStlStart => Some("Reading STL files and precomputing geometry...")
    case ParseStlFinish(stl) => Some("STLs parsed and geometry precomputed in: " + ReasonableTimeUnit(stl))
    case BufferTransferStart => Some("Transferring initial buffers to GPU...")
    case BufferTransferFinish(transfer) =>
      Some("Initial buffer transfer complete in: " + ReasonableTimeUnit(transfer))
    case ComputationStart => Some("Beginning GPU computation of view factors...")
    case ComputationProgress(current, numJobs) =>
      Some("GPU computation is " + fmt.percent(current, numJobs) + " complete " + Fraction(current, numJobs))
    case ComputationFinish(computation, result) =>
      Some("GPU computation finished in: " + ReasonableTimeUnit(computation) + "\n"
           + "Result: " + fmt.double(result))
    case Info(info) => Some(info)
    case ExceptionThrown(message) => message
  }

  /** The values `toJson` stores. */
  datatype JsonValue = JString(s: string) | JNumber(n: int)

  /**
   * `toJson()`: `type`, `message` and `timestamp`, plus `current_job` and `num_jobs`
   * for a progress event. `JSONObject.put` with a null value removes the key, so an
   * exception without a message has no `message` entry.
   */
  function ToJson(fmt: Formats, e: Event): (j: map<string, JsonValue>)
    ensures j.Keys == {"type", "timestamp"}
      + (if Message(fmt, e.kind).Some? then {"message"} else {})
      + (if e.kind.ComputationProgress? then {"current_job", "num_jobs"} else {})
    ensures j["type"] == JString(SimpleName(e.kind))
    ensures j["timestamp"] == JNumber(e.GetTimestamp())
    ensures Message(fmt, e.kind).Some? ==> j["message"] == JString(Message(fmt, e.kind).value)
    ensures e.kind.ComputationProgress? ==>
      j["current_job"] == JNumber(e.kind.currentJob) && j["num_jobs"] == JNumber(e.kind.numJobs)
  {
    var base := map["type" := JString(SimpleName(e.kind)), "timestamp" := JNumber(e.timestamp)];
    var withMessage :=
      match Message(fmt, e.kind)
      case Some(m) => base["message" := JString(m)]
      case None => base;
    match e.kind
    case ComputationProgress(current, numJobs) =>
      withMessage["current_job" := JNumber(current)]["num_jobs" := JNumber(numJobs)]
    case _ => withMessage
  }

  /** Every kind except `ExceptionThrown` has a message; `Info` shows its text verbatim. */
  lemma MessagePresent(fmt: Formats, k: Kind)
    ensures Message(fmt, k).None? <==> k.ExceptionThrown? && k.exceptionMessage.None?
    ensures k.Info? ==> Message(fmt, k) == Some(k.info)
    ensures k.ExceptionThrown? ==> Message(fmt, k) == k.exceptionMessage
  {
  }

  /** A progress message ends with `(current/numJobs).`, whatever the percentage text. */
  lemma ProgressMessageEnding(fmt: Formats, current: int, numJobs: int)
    ensures var m := Message(fmt, ComputationProgress(current, numJobs)).value;
      var f := Fraction(current, numJobs);
      |f| <= |m| && m[|m| - |f|..] == f
  {
    var m := Message(fmt, ComputationProgress(current, numJobs)).value;
    var f := Fraction(current, numJobs);
    var prefix := "GPU computation is " + fmt.percent(current, numJobs) + " complete ";
    assert m == prefix + f;
    assert m[|prefix|..] == f;
  }

  /**
   * The job counts in a progress message read back: the text between `(` and `/` is
   * the current job and the text between `/` and `)` the number of jobs.
   */
  lemma FractionReadsBack(current: int, numJobs: int)
    ensures var a := Text.IntToString(current);
      var b := Text.IntToString(numJobs);
      var f := Fraction(current, numJobs);
      && f[1..1 + |a|] == a && Text.ParseInt(a) == current
      && f[1 + |a|] == '/'
      && f[2 + |a|..2 + |a| + |b|] == b && Text.ParseInt(b) == numJobs
  {
    Text.IntToStringRoundTrip(current);
    Text.IntToStringRoundTrip(numJobs);
  }

  /**
   * The duration in a finishing stage's message never falls back to the error text
   * while the stopwatch has run for at most 9999 days.
   */
  lemma FinishMessageHasUnit(e: Elapsed)
    requires e.Coarsening() && e.days <= Limit
    ensures ReasonableTimeUnit(e) != TooLarge
    ensures ReasonableTimeUnit(e)[|ReasonableTimeUnit(e)| - 1] == '.'
  {
    ReasonableUnitFound(e);
    var u := ReasonableUnit(e).value;
    UnitTextReadsBack(e, u);
    var s := ReasonableTimeUnit(e);
    assert Text.IsDigit(s[..|Text.NatToString(e.In(u))|][0]);
    assert s[0] != TooLarge[0];
  }
}
