/**
 * Elapsed times and the "first reasonable unit" rendering shared by `Event` and
 * `StateManager.ElapsedTime`.
 *
 * A Guava `Stopwatch` is read through `elapsed(TimeUnit)`; every stopwatch that reaches
 * a rendering has already been stopped, so it is modelled as an `Elapsed` snapshot
 * holding one reading per `java.util.concurrent.TimeUnit`.
 */
module Timing {
  import opened Wrappers
  import Text

  /** `java.util.concurrent.TimeUnit`, in declaration order. */
  datatype TimeUnit = Nanoseconds | Microseconds | Milliseconds | Seconds | Minutes | Hours | Days

  /** `TimeUnit.values()`: finest first. */
  const Units: seq<TimeUnit> := [Nanoseconds, Microseconds, Milliseconds, Seconds, Minutes, Hours, Days]

  /** `unit.name().toLowerCase()`. */
  function UnitName(u: TimeUnit): string {
    match u
    case Nanoseconds => "nanoseconds"
    case Microseconds => "microseconds"
    case Milliseconds => "milliseconds"
    case Seconds => "seconds"
    case Minutes => "minutes"
    case Hours => "hours"
    case Days => "days"
  }

  /** Where `u` stands in `Units`. */
  function Position(u: TimeUnit): (i: nat)
    ensures i < |Units| && Units[i] == u
  {
    match u
    case Nanoseconds => 0
    case Microseconds => 1
    case Milliseconds => 2
    case Seconds => 3
    case Minutes => 4
    case Hours => 5
    case Days => 6
  }

  /** The readings of a stopped stopwatch, one per unit. */
  datatype Elapsed = Elapsed(nanos: nat, micros: nat, millis: nat, seconds: nat,
                             minutes: nat, hours: nat, days: nat)
  {
    /** `stopwatch.elapsed(u)`. */
    function In(u: TimeUnit): nat {
      match u
      case Nanoseconds => nanos
      case Microseconds => micros
      case Milliseconds => millis
      case Seconds => seconds
      case Minutes => minutes
      case Hours => hours
      case Days => days
    }

    /** A reading a real stopwatch can give: a coarser unit never shows a larger value. */
    ghost predicate Coarsening() {
      forall k :: 0 <= k < |Units| - 1 ==> In(Units[k + 1]) <= In(Units[k])
    }
  }

  /** The largest reading still shown in its own unit. */
  const Limit: nat := 9999

  /**
   * The index of the first unit of `us` whose reading is at most `Limit`: every unit
   * before it reads more than `Limit`, and `None` means every unit does.
   */
  function FirstWithinLimit(e: Elapsed, us: seq<TimeUnit>): (r: Option<nat>)
    ensures r.Some? ==> r.value < |us| && e.In(us[r.value]) <= Limit
    ensures r.Some? ==> forall k :: 0 <= k < r.value ==> e.In(us[k]) > Limit
    ensures r.None? <==> forall k :: 0 <= k < |us| ==> e.In(us[k]) > Limit
  {
    if |us| == 0 then None
    else if e.In(us[0]) <= Limit then Some(0)
    else
      match FirstWithinLimit(e, us[1..])
      case Some(j) => Some(j + 1)
      case None => None
  }

  /** `u` shows at most `Limit` and every unit declared before it shows more. */
  ghost predicate FirstFitting(e: Elapsed, u: TimeUnit) {
    e.In(u) <= Limit && forall k :: 0 <= k < Position(u) ==> e.In(Units[k]) > Limit
  }

  /** The first unit, in declaration order, whose reading is at most `Limit`. */
  function ReasonableUnit(e: Elapsed): (r: Option<TimeUnit>)
    ensures r.Some? ==> e.In(r.value) <= Limit
    ensures r.Some? ==> forall k :: 0 <= k < Position(r.value) ==> e.In(Units[k]) > Limit
    ensures r.None? <==> forall u :: e.In(u) > Limit
  {
    match FirstWithinLimit(e, Units)
    case Some(i) => Some(Units[i])
    case None =>
      assert forall u :: e.In(u) > Limit by {
        forall u ensures e.In(u) > Limit {
          assert Units[Position(u)] == u;
        }
      }
      None
  }

  /** `value + " " + unit.name().toLowerCase() + "."`. */
  function UnitText(e: Elapsed, u: TimeUnit): string {
    Text.IntToString(e.In(u)) + " " + UnitName(u) + "."
  }

  /**
   * The rendering loses nothing: the digits before the first space read back as the
   * reading, and the text ends with the unit's name and a full stop.
   */
  lemma UnitTextReadsBack(e: Elapsed, u: TimeUnit)
    ensures var s := UnitText(e, u);
      var n := |Text.NatToString(e.In(u))|;
      && n < |s| && s[n] == ' ' && Text.AllDigits(s[..n])
      && Text.ParseNat(s[..n]) == e.In(u)
      && s[n + 1..] == UnitName(u) + "."
  {
    var s := UnitText(e, u);
    var n := |Text.NatToString(e.In(u))|;
    assert s[..n] == Text.NatToString(e.In(u));
    Text.ParseNatToString(e.In(u));
  }

  /**
   * On a real stopwatch the search fails only when even the day count exceeds
   * `Limit`; otherwise the chosen unit is the finest one whose reading fits.
   */
  lemma {:induction false} ReasonableUnitFound(e: Elapsed)
    requires e.Coarsening()
    ensures ReasonableUnit(e).None? <==> e.days > Limit
  {
    if e.days > Limit {
      assert e.hours >= e.days by { assert e.In(Units[6]) <= e.In(Units[5]); }
      assert e.minutes >= e.hours by { assert e.In(Units[5]) <= e.In(Units[4]); }
      assert e.seconds >= e.minutes by { assert e.In(Units[4]) <= e.In(Units[3]); }
      assert e.millis >= e.seconds by { assert e.In(Units[3]) <= e.In(Units[2]); }
      assert e.micros >= e.millis by { assert e.In(Units[2]) <= e.In(Units[1]); }
      assert e.nanos >= e.micros by { assert e.In(Units[1]) <= e.In(Units[0]); }
      assert forall u :: e.In(u) > Limit;
    } else {
      assert e.In(Days) <= Limit;
    }
  }

  /** The finest unit is chosen whenever its own reading fits. */
  lemma NanosecondsPreferred(e: Elapsed)
    requires e.nanos <= Limit
    ensures ReasonableUnit(e) == Some(Nanoseconds)
  {
  }
}
