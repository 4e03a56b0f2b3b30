/**
 * The Startosis executor: runs validated instructions one by one, recording
 * each one's canonical rendering in a serialized log, and stops at the first
 * instruction whose execution fails. A dry run only renders.
 */
module Executor {
  import opened Wrappers
  import opened Strings

  /** What execution needs of an instruction: its canonical rendering and how executing it ends. */
  datatype ExecutableInstruction = ExecutableInstruction(canonical: string, executeError: Option<string>)

  /** One entry of the serialized log returned to the client. */
  datatype SerializedInstruction = SerializedInstruction(text: string)

  /** The failure of instruction `number` (counted from 1). */
  datatype ExecutionError = ExecutionError(number: nat, canonical: string, cause: string)

  function ErrorPrefix(number: nat, canonical: string): string
  {
    "An error occurred executing instruction (number " + NatToString(number) + "): \n" + canonical + "\n --- at"
  }

  /**
   * The error text: the prefix, the propagation site `location` (a source
   * position chosen by the stack-trace library), then the underlying cause.
   */
  function ErrorMessage(e: ExecutionError, location: string): string
  {
    ErrorPrefix(e.number, e.canonical) + location + " ---\nCaused by: " + e.cause
  }

  /** The message names the failing instruction by number and rendering, and carries the cause. */
  lemma ErrorMessageShape(e: ExecutionError, location: string)
    ensures StartsWith(ErrorMessage(e, location), ErrorPrefix(e.number, e.canonical))
    ensures Contains(ErrorMessage(e, location), e.cause)
  {
    var m := ErrorMessage(e, location);
    var head := ErrorPrefix(e.number, e.canonical) + location + " ---\nCaused by: ";
    assert m == head + e.cause;
    assert m[..|ErrorPrefix(e.number, e.canonical)|] == ErrorPrefix(e.number, e.canonical);
    assert m[|head|..|head| + |e.cause|] == e.cause;
    assert OccursAt(m, e.cause, |head|);
  }

  /** Distinct instruction numbers give distinct prefixes. */
  lemma ErrorPrefixIdentifiesNumber(a: nat, b: nat, canonical: string)
    requires ErrorPrefix(a, canonical) == ErrorPrefix(b, canonical)
    ensures a == b
  {
    var tail := "): \n" + canonical + "\n --- at";
    ErrorPrefixShape(a, canonical);
    ErrorPrefixShape(b, canonical);
    CancelLead("An error occurred executing instruction (number ", NatToString(a) + tail, NatToString(b) + tail);
    CancelTail(NatToString(a), NatToString(b), tail);
    NatToStringInjective(a, b);
  }

  lemma ErrorPrefixShape(number: nat, canonical: string)
    ensures ErrorPrefix(number, canonical) ==
      "An error occurred executing instruction (number " + (NatToString(number) + ("): \n" + canonical + "\n --- at"))
  {
  }

  // ---------------------------------------------------------------------------
  // Specification
  // ---------------------------------------------------------------------------

  /** The index of the first instruction whose execution fails, if any. */
  function FirstFailing(instructions: seq<ExecutableInstruction>): (r: Option<nat>)
    ensures r.None? <==> forall i :: 0 <= i < |instructions| ==> instructions[i].executeError.None?
    ensures r.Some? ==> r.value < |instructions| && instructions[r.value].executeError.Some? &&
                        forall i :: 0 <= i < r.value ==> instructions[i].executeError.None?
  {
    if |instructions| == 0 then None
    else if instructions[0].executeError.Some? then Some(0)
    else match FirstFailing(instructions[1..])
      case None => None
      case Some(k) => Some(k + 1)
  }

  /** The log of the given instructions: their canonical renderings, in order. */
  function Serialized(instructions: seq<ExecutableInstruction>): (log: seq<SerializedInstruction>)
    ensures |log| == |instructions|
    ensures forall i :: 0 <= i < |log| ==> log[i].text == instructions[i].canonical
  {
    seq(|instructions|, i requires 0 <= i < |instructions| => SerializedInstruction(instructions[i].canonical))
  }

  function Indices(n: nat): seq<nat>
  {
    seq(n, i requires 0 <= i => i as nat)
  }

  class StartosisExecutor {
    constructor ()
    {
    }

    /**
     * Executes the instructions in order, or only renders them in a dry run.
     * `canonicalised` and `executed` list the instructions whose canonical
     * rendering was asked for and which were executed.
     */
    method Execute(dryRun: bool, instructions: seq<ExecutableInstruction>)
      returns (log: seq<SerializedInstruction>, error: Option<ExecutionError>,
               ghost canonicalised: seq<nat>, ghost executed: seq<nat>)
      // a dry run renders every instruction once, executes none, and succeeds
      ensures dryRun ==> error.None? && log == Serialized(instructions)
      ensures dryRun ==> canonicalised == Indices(|instructions|) && executed == []
      // a real run without failures renders and executes each instruction once, in order
      ensures !dryRun && FirstFailing(instructions).None? ==> error.None? && log == Serialized(instructions)
      ensures !dryRun && FirstFailing(instructions).None? ==>
        canonicalised == Indices(|instructions|) && executed == Indices(|instructions|)
      // a real run stops at the first failure: nothing after it is touched, and it is not logged
      ensures !dryRun && FirstFailing(instructions).Some? ==>
        var k := FirstFailing(instructions).value;
        error == Some(ExecutionError(k + 1, instructions[k].canonical, instructions[k].executeError.value)) &&
        log == Serialized(instructions[..k])
      ensures !dryRun && FirstFailing(instructions).Some? ==>
        var k := FirstFailing(instructions).value;
        canonicalised == Indices(k + 1) && executed == Indices(k + 1)
    {
      log, canonicalised, executed := [], [], [];
      var i := 0;
      while i < |instructions|
        invariant 0 <= i <= |instructions|
        invariant log == Serialized(instructions[..i])
        invariant canonicalised == Indices(i)
        invariant executed == if dryRun then [] else Indices(i)
        invariant !dryRun ==> forall j :: 0 <= j < i ==> instructions[j].executeError.None?
      {
        var canonical := instructions[i].canonical;
        canonicalised := canonicalised + [i];
        assert canonicalised == Indices(i + 1);
        if !dryRun {
          var outcome := instructions[i].executeError;
          executed := executed + [i];
          if outcome.Some? {
            FirstFailingAt(instructions, i);
            return log, Some(ExecutionError(i + 1, canonical, outcome.value)), canonicalised, executed;
          }
        }
        log := log + [SerializedInstruction(canonical)];
        assert instructions[..i + 1] == instructions[..i] + [instructions[i]];
        i := i + 1;
      }
      assert instructions[..i] == instructions;
      return log, None, canonicalised, executed;
    }
  }

  lemma {:induction false} FirstFailingAt(instructions: seq<ExecutableInstruction>, k: nat)
    requires k < |instructions| && instructions[k].executeError.Some?
    requires forall j :: 0 <= j < k ==> instructions[j].executeError.None?
    ensures FirstFailing(instructions) == Some(k)
    decreases k
  {
    if k > 0 {
      FirstFailingAt(instructions[1..], k - 1);
    }
  }

  /** A failed run's log is a proper prefix of the full log: everything before the failure, in order. */
  lemma FailedLogIsPrefix(instructions: seq<ExecutableInstruction>, k: nat)
    requires FirstFailing(instructions) == Some(k)
    ensures Serialized(instructions[..k]) < Serialized(instructions)
    ensures |Serialized(instructions[..k])| == k
  {
  }
}
