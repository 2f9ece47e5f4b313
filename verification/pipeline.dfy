/**
 * The nine pipeline stages shared by both `EventManager`s and the successor table
 * `VALID_STATES` that `changeState` consults before every move.
 */
module Pipeline {

  datatype State =
    | Idle
    | Init
    | ParseStl
    | PostParseStl
    | BufferTransfer
    | PostBufferTransfer
    | Computation
    | PostComputation
    | Exception

  /** `name()` / `toString()` of the enum constant. */
  function Name(s: State): string {
    match s
    case Idle => "IDLE"
    case Init => "INIT"
    case ParseStl => "PARSE_STL"
    case PostParseStl => "POST_PARSE_STL"
    case BufferTransfer => "BUFFER_TRANSFER"
    case PostBufferTransfer => "POST_BUFFER_TRANSFER"
    case Computation => "COMPUTATION"
    case PostComputation => "POST_COMPUTATION"
    case Exception => "EXCEPTION"
  }

  /** `VALID_STATES`: the one stage each stage may be followed by. */
  const ValidStates: map<State, State> := map[
    Idle := Init,
    Exception := Init,
    Init := ParseStl,
    ParseStl := PostParseStl,
    PostParseStl := BufferTransfer,
    BufferTransfer := PostBufferTransfer,
    PostBufferTransfer := Computation,
    Computation := PostComputation,
    PostComputation := Idle]

  /**
   * The guard of `changeState`: `VALID_STATES.get(state) == newState` (a missing key
   * reads as null, which equals no state) or `newState == EXCEPTION`.
   */
  predicate Accepts(current: State, next: State) {
    (current in ValidStates && ValidStates[current] == next) || next == Exception
  }

  /** The normal run, one stage after another, starting and ending idle. */
  const Cycle: seq<State> := [Idle, Init, ParseStl, PostParseStl, BufferTransfer,
                              PostBufferTransfer, Computation, PostComputation]

  /** Every stage has a successor, so the guard never compares against null. */
  lemma ValidStatesTotal(s: State)
    ensures s in ValidStates
  {
  }

  /**
   * The guard accepts exactly two moves from any stage: to its successor and to
   * `Exception`. In particular a move is decided by the table alone.
   */
  lemma AcceptsExactly(current: State, next: State)
    ensures Accepts(current, next) <==> next == ValidStates[current] || next == Exception
  {
  }

  /** `exception()` is accepted from every stage, `Exception` itself included. */
  lemma ExceptionAlwaysAccepted(current: State)
    ensures Accepts(current, Exception)
  {
  }

  /** From `Exception` the only other accepted move is `start()`, to `Init`. */
  lemma LeavingException(next: State)
    ensures Accepts(Exception, next) <==> next == Init || next == Exception
    ensures !Accepts(Exception, Idle)
  {
  }

  /** Distinct stages print differently, so the printed state identifies the stage. */
  lemma NamesDistinct(a: State, b: State)
    ensures Name(a) == Name(b) <==> a == b
  {
  }

  /** The successor table walks the normal cycle and closes it. */
  lemma CycleFollowsTable(i: nat)
    requires i < |Cycle|
    ensures ValidStates[Cycle[i]] == Cycle[(i + 1) % |Cycle|]
  {
  }

  /**
   * A run that starts idle and never raises an exception visits the stages in cycle
   * order: the `i`-th state of the run is `Cycle[i % 8]`. The cycle through all eight
   * normal stages is therefore the only way back to `Idle`.
   */
  lemma {:induction false} RunsFollowCycle(run: seq<State>)
    requires |run| >= 1 && run[0] == Idle
    requires forall i :: 1 <= i < |run| ==> Accepts(run[i - 1], run[i]) && run[i] != Exception
    ensures forall i :: 0 <= i < |run| ==> run[i] == Cycle[i % |Cycle|]
    decreases |run|
  {
    if |run| > 1 {
      var prefix := run[..|run| - 1];
      RunsFollowCycle(prefix);
      var k := |run| - 2;
      assert Accepts(run[k], run[k + 1]) && run[k + 1] != Exception;
      assert run[k] == Cycle[k % |Cycle|];
      CycleFollowsTable(k % |Cycle|);
      assert (k % |Cycle| + 1) % |Cycle| == (k + 1) % |Cycle|;
      forall i | 0 <= i < |run|
        ensures run[i] == Cycle[i % |Cycle|]
      {
        if i < |run| - 1 {
          assert run[i] == prefix[i];
        }
      }
    }
  }
}
