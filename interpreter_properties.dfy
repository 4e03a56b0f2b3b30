/**
 * What the interpreter promises about its two accumulators, about `load`, and
 * about the errors it reports.
 */
module InterpreterProperties {
  import opened Wrappers
  import opened Interpreter

  // ---------------------------------------------------------------------------
  // Reference definitions for scripts made only of prints and instructions
  // ---------------------------------------------------------------------------

  /** A script with no load and nothing that can fail. */
  predicate Straight(script: Script)
  {
    |script| == 0 || ((script[0].Print? || script[0].Instr?) && Straight(script[1..]))
  }

  /** Everything the script prints, each print followed by a newline. */
  function Printed(script: Script): string
  {
    if |script| == 0 then ""
    else (if script[0].Print? then script[0].text + "\n" else "") + Printed(script[1..])
  }

  /** The instructions the script queues, in statement order. */
  function Queued(script: Script): seq<QueuedInstruction>
  {
    if |script| == 0 then []
    else (if script[0].Instr? then [script[0].instruction] else []) + Queued(script[1..])
  }

  lemma {:induction false} PrintedConcat(a: Script, b: Script)
    ensures Printed(a + b) == Printed(a) + Printed(b)
    decreases |a|
  {
    if |a| == 0 {
      assert a + b == b;
    } else {
      assert (a + b)[0] == a[0] && (a + b)[1..] == a[1..] + b;
      PrintedConcat(a[1..], b);
    }
  }

  lemma {:induction false} QueuedConcat(a: Script, b: Script)
    ensures Queued(a + b) == Queued(a) + Queued(b)
    decreases |a|
  {
    if |a| == 0 {
      assert a + b == b;
    } else {
      assert (a + b)[0] == a[0] && (a + b)[1..] == a[1..] + b;
      QueuedConcat(a[1..], b);
    }
  }

  lemma {:induction false} UndefinedNamesConcat(a: Script, b: Script)
    ensures UndefinedNames(a + b) == UndefinedNames(a) + UndefinedNames(b)
    decreases |a|
  {
    if |a| == 0 {
      assert a + b == b;
    } else {
      assert (a + b)[0] == a[0] && (a + b)[1..] == a[1..] + b;
      UndefinedNamesConcat(a[1..], b);
    }
  }

  lemma {:induction false} StraightHasNoUndefinedNames(script: Script)
    requires Straight(script)
    ensures UndefinedNames(script) == []
    decreases |script|
  {
    if |script| > 0 {
      StraightHasNoUndefinedNames(script[1..]);
    }
  }

  // ---------------------------------------------------------------------------
  // The accumulators are append-only
  // ---------------------------------------------------------------------------

  /**
   * Running anything only appends to the output buffer and to the instruction
   * queue, and a trace that already failed stays as it is.
   */
  lemma {:induction false} RunExtends(t: Trace, script: Script, chain: seq<string>, modules: Modules)
    ensures var r := Run(t, script, chain, modules);
      t.output <= r.output && t.instructions <= r.instructions &&
      (t.error.Some? ==> r == t)
    decreases Unvisited(modules, chain), |script|, 0
  {
    if |script| > 0 && t.error.None? {
      var t1 := Step(t, script[0], chain, modules);
      StepExtends(t, script[0], chain, modules);
      RunExtends(t1, script[1..], chain, modules);
    }
  }

  lemma {:induction false} StepExtends(t: Trace, stmt: Stmt, chain: seq<string>, modules: Modules)
    ensures var r := Step(t, stmt, chain, modules);
      t.output <= r.output && t.instructions <= r.instructions
    decreases Unvisited(modules, chain), 0, 1
  {
    match stmt
    case Print(text) =>
      assert t.output + text + "\n" == t.output + (text + "\n");
    case Instr(_) =>
    case Undefined(_, _) =>
    case Fail(_, _) =>
    case BuiltinFail(_, _, _) =>
    case Load(locator, pos) => LoadExtends(t, locator, pos, chain, modules);
  }

  lemma {:induction false} LoadExtends(t: Trace, locator: string, pos: ScriptPosition, chain: seq<string>, modules: Modules)
    ensures var r := LoadModule(t, locator, pos, chain, modules);
      t.output <= r.output && t.instructions <= r.instructions
    decreases Unvisited(modules, chain), 0, 0
  {
    if locator !in chain && locator in modules && |UndefinedNames(modules[locator])| == 0 {
      UnvisitedShrinks(modules, chain, locator);
      RunExtends(t, modules[locator], chain + [locator], modules);
    }
  }

  // ---------------------------------------------------------------------------
  // Composition
  // ---------------------------------------------------------------------------

  /** Running `a + b` is running `a`, then `b` on what `a` left behind. */
  lemma {:induction false} RunConcat(t: Trace, a: Script, b: Script, chain: seq<string>, modules: Modules)
    ensures Run(t, a + b, chain, modules) == Run(Run(t, a, chain, modules), b, chain, modules)
    decreases |a|
  {
    if |a| == 0 {
      assert a + b == b;
    } else if t.error.Some? {
      RunExtends(t, b, chain, modules);
    } else {
      assert (a + b)[0] == a[0] && (a + b)[1..] == a[1..] + b;
      RunConcat(Step(t, a[0], chain, modules), a[1..], b, chain, modules);
    }
  }

  /** A straight script appends its prints and its instructions, in statement order. */
  lemma {:induction false} RunStraight(t: Trace, script: Script, chain: seq<string>, modules: Modules)
    requires t.error.None? && Straight(script)
    ensures Run(t, script, chain, modules) == Trace(t.output + Printed(script), t.instructions + Queued(script), None)
    decreases |script|
  {
    if |script| > 0 {
      var t1 := Step(t, script[0], chain, modules);
      RunStraight(t1, script[1..], chain, modules);
      assert Run(t, script, chain, modules) == Run(t1, script[1..], chain, modules);
      if script[0].Print? {
        var text := script[0].text;
        assert t1 == Trace(t.output + text + "\n", t.instructions, None);
        assert Printed(script) == text + "\n" + Printed(script[1..]);
        assert Queued(script) == Queued(script[1..]);
        assert t.output + text + "\n" + Printed(script[1..]) == t.output + (text + "\n" + Printed(script[1..]));
      } else {
        var instruction := script[0].instruction;
        assert t1 == Trace(t.output, t.instructions + [instruction], None);
        assert Printed(script) == Printed(script[1..]);
        assert Queued(script) == [instruction] + Queued(script[1..]);
        assert t.instructions + [instruction] + Queued(script[1..]) == t.instructions + ([instruction] + Queued(script[1..]));
      }
    }
  }

  /** A script of prints and instructions succeeds with exactly its prints and its instructions. */
  lemma InterpretStraight(script: Script, modules: Modules)
    requires Straight(script)
    ensures InterpretScript(script, modules) == Interpretation(Printed(script), None, Queued(script))
  {
    StraightHasNoUndefinedNames(script);
    RunStraight(Fresh, script, [], modules);
  }

  /** A script made only of prints. */
  predicate PrintsOnly(script: Script)
  {
    |script| == 0 || (script[0].Print? && PrintsOnly(script[1..]))
  }

  /** A script that only prints returns the printed text and no instruction. */
  lemma PrintOnlyScript(script: Script, modules: Modules)
    requires PrintsOnly(script)
    ensures var r := InterpretScript(script, modules);
      r.error.None? && r.instructions == [] && r.output == Printed(script)
  {
    PrintsOnlyQueuesNothing(script);
    InterpretStraight(script, modules);
  }

  lemma {:induction false} PrintsOnlyQueuesNothing(script: Script)
    requires PrintsOnly(script)
    ensures Straight(script) && Queued(script) == []
    decreases |script|
  {
    if |script| > 0 {
      PrintsOnlyQueuesNothing(script[1..]);
    }
  }

  lemma {:induction false} StraightConcat(a: Script, b: Script)
    requires Straight(a) && Straight(b)
    ensures Straight(a + b)
    decreases |a|
  {
    if |a| == 0 {
      assert a + b == b;
    } else {
      assert (a + b)[0] == a[0] && (a + b)[1..] == a[1..] + b;
      StraightConcat(a[1..], b);
    }
  }

  /** A loop unrolled `n` times, queuing `instruction(k)` on iteration `k`. */
  function Unrolled(n: nat, instruction: nat -> QueuedInstruction): (script: Script)
    ensures |script| == n
    ensures forall k :: 0 <= k < n ==> script[k] == Instr(instruction(k))
  {
    if n == 0 then [] else Unrolled(n - 1, instruction) + [Instr(instruction(n - 1))]
  }

  /** A loop queues one instruction per iteration, in iteration order, and prints nothing. */
  lemma {:induction false} LoopQueuesOnePerIteration(n: nat, instruction: nat -> QueuedInstruction, modules: Modules)
    ensures var r := InterpretScript(Unrolled(n, instruction), modules);
      r.error.None? && r.output == "" &&
      |r.instructions| == n && forall k :: 0 <= k < n ==> r.instructions[k] == instruction(k)
    decreases n
  {
    var script := Unrolled(n, instruction);
    UnrolledQueues(n, instruction);
    InterpretStraight(script, modules);
  }

  lemma {:induction false} UnrolledQueues(n: nat, instruction: nat -> QueuedInstruction)
    ensures Straight(Unrolled(n, instruction))
    ensures Printed(Unrolled(n, instruction)) == ""
    ensures Queued(Unrolled(n, instruction)) == seq(n, k requires 0 <= k => instruction(k))
    decreases n
  {
    if n > 0 {
      var last := [Instr(instruction(n - 1))];
      UnrolledQueues(n - 1, instruction);
      StraightConcat(Unrolled(n - 1, instruction), last);
      PrintedConcat(Unrolled(n - 1, instruction), last);
      QueuedConcat(Unrolled(n - 1, instruction), last);
      assert Printed(last) == "" && Queued(last) == [instruction(n - 1)];
    }
  }

  // ---------------------------------------------------------------------------
  // load
  // ---------------------------------------------------------------------------

  /** A one-statement script is that statement's step. */
  lemma RunSingle(t: Trace, stmt: Stmt, chain: seq<string>, modules: Modules)
    requires t.error.None?
    ensures Run(t, [stmt], chain, modules) == Step(t, stmt, chain, modules)
  {
    assert [stmt][1..] == [];
  }

  /** A load that passes the chain, provider and resolution checks runs the module with the locator pushed. */
  lemma LoadRuns(t: Trace, locator: string, pos: ScriptPosition, chain: seq<string>, modules: Modules)
    requires t.error.None? && locator !in chain && locator in modules && UndefinedNames(modules[locator]) == []
    ensures var inner := Run(t, modules[locator], chain + [locator], modules);
      Run(t, [Load(locator, pos)], chain, modules) ==
        if inner.error.None? then inner
        else inner.(error := Some(EvalError(CannotLoad(locator, inner.error.value.message), pos)))
  {
    RunSingle(t, Load(locator, pos), chain, modules);
  }

  /** A script with no undefined name whose run succeeds returns what the run accumulated. */
  lemma InterpretSucceeds(script: Script, modules: Modules)
    requires UndefinedNames(script) == [] && Run(Fresh, script, [], modules).error.None?
    ensures var t := Run(Fresh, script, [], modules);
      InterpretScript(script, modules) == Interpretation(t.output, None, t.instructions)
  {
    UndefinedFramesMatchNames(script);
  }

  /** A script with no undefined name whose run fails returns the error alone, at top level. */
  lemma InterpretFails(script: Script, modules: Modules)
    requires UndefinedNames(script) == [] && Run(Fresh, script, [], modules).error.Some?
    ensures var t := Run(Fresh, script, [], modules);
      InterpretScript(script, modules) == Interpretation("", Some(TopLevelError(t.error.value)), [])
  {
    UndefinedFramesMatchNames(script);
  }

  /**
   * A loaded module's prints and instructions land at the load point: before
   * everything the importer does after the load and after everything before it.
   */
  lemma LoadInlinesModule(before: Script, locator: string, pos: ScriptPosition, after: Script, modules: Modules)
    requires Straight(before) && Straight(after)
    requires locator in modules && Straight(modules[locator])
    ensures var r := InterpretScript(before + [Load(locator, pos)] + after, modules);
      r.error.None? &&
      r.output == Printed(before) + Printed(modules[locator]) + Printed(after) &&
      r.instructions == Queued(before) + Queued(modules[locator]) + Queued(after)
  {
    var body := modules[locator];
    var load: Script := [Load(locator, pos)];
    var script := before + load + after;
    StraightHasNoUndefinedNames(before);
    StraightHasNoUndefinedNames(after);
    StraightHasNoUndefinedNames(body);
    UndefinedNamesConcat(before + load, after);
    UndefinedNamesConcat(before, load);
    RunConcat(Fresh, before + load, after, [], modules);
    RunConcat(Fresh, before, load, [], modules);
    var t1 := Trace(Printed(before), Queued(before), None);
    RunStraight(Fresh, before, [], modules);
    assert "" + Printed(before) == Printed(before) && [] + Queued(before) == Queued(before);
    assert Run(Fresh, before, [], modules) == t1;
    var t2 := Trace(Printed(before) + Printed(body), Queued(before) + Queued(body), None);
    LoadRuns(t1, locator, pos, [], modules);
    RunStraight(t1, body, [] + [locator], modules);
    assert Run(t1, load, [], modules) == t2;
    var t3 := Trace(t2.output + Printed(after), t2.instructions + Queued(after), None);
    RunStraight(t2, after, [], modules);
    assert Run(Fresh, script, [], modules) == t3;
    InterpretSucceeds(script, modules);
  }

  /** A module that loads another: the innermost module's effects come first. */
  lemma TransitiveLoad(top: Script, doo: string, bar: string, p: ScriptPosition, q: ScriptPosition, modules: Modules)
    requires doo != bar && doo in modules && bar in modules
    requires Straight(top) && Straight(modules[bar])
    requires modules[doo] == [Load(bar, q)]
    ensures var r := InterpretScript([Load(doo, p)] + top, modules);
      r.error.None? &&
      r.output == Printed(modules[bar]) + Printed(top) &&
      r.instructions == Queued(modules[bar]) + Queued(top)
  {
    var script := [Load(doo, p)] + top;
    var body := modules[bar];
    StraightHasNoUndefinedNames(top);
    StraightHasNoUndefinedNames(body);
    UndefinedNamesConcat([Load(doo, p)], top);
    RunConcat(Fresh, [Load(doo, p)], top, [], modules);
    assert [] + [doo] == [doo];
    var t1 := Trace(Printed(body), Queued(body), None);
    RunStraight(Fresh, body, [doo] + [bar], modules);
    assert "" + Printed(body) == Printed(body) && [] + Queued(body) == Queued(body);
    assert Run(Fresh, body, [doo] + [bar], modules) == t1;
    LoadRuns(Fresh, bar, q, [doo], modules);
    assert Run(Fresh, modules[doo], [doo], modules) == t1;
    LoadRuns(Fresh, doo, p, [], modules);
    assert Run(Fresh, [Load(doo, p)], [], modules) == t1;
    RunStraight(t1, top, [], modules);
    assert Run(Fresh, script, [], modules) == Trace(t1.output + Printed(top), t1.instructions + Queued(top), None);
    InterpretSucceeds(script, modules);
  }

  /** Two modules that load each other: each load wraps the error, the top frame is the first load. */
  lemma LoadCycle(top: Script, doo: string, bar: string, p: ScriptPosition, q1: ScriptPosition, q2: ScriptPosition, modules: Modules)
    requires doo != bar && doo in modules && bar in modules
    requires modules[doo] == [Load(bar, q1)] && modules[bar] == [Load(doo, q2)]
    requires UndefinedNames(top) == []
    ensures InterpretScript([Load(doo, p)] + top, modules) ==
      Interpretation("", Some(InterpretationError(
        "Evaluation error: " + CannotLoad(doo, CannotLoad(bar, CannotLoad(doo, CycleMessage))),
        [CallFrame("<toplevel>", p)])), [])
  {
    var script := [Load(doo, p)] + top;
    UndefinedNamesConcat([Load(doo, p)], top);
    RunConcat(Fresh, [Load(doo, p)], top, [], modules);
    assert [] + [doo] == [doo];
    LoadRuns(Fresh, doo, p, [], modules);
    LoadRuns(Fresh, bar, q1, [doo], modules);
    RunSingle(Fresh, Load(doo, q2), [doo] + [bar], modules);
    var cycle := CannotLoad(doo, CycleMessage);
    assert Run(Fresh, modules[bar], [doo] + [bar], modules) == Fresh.(error := Some(EvalError(cycle, q2)));
    var atTop := Run(Fresh, [Load(doo, p)], [], modules);
    assert atTop == Fresh.(error := Some(EvalError(CannotLoad(doo, CannotLoad(bar, cycle)), p)));
    RunExtends(atTop, top, [], modules);
    InterpretFails(script, modules);
    assert [CallFrame(TopLevelFrame, p)] + [] == [CallFrame(TopLevelFrame, p)];
  }

  /**
   * A missing module fails the script, and the same script succeeds once the
   * module is served: a failed load is not remembered.
   */
  lemma NoNegativeCaching(locator: string, p: ScriptPosition, after: Script, body: Script, modules: Modules)
    requires locator !in modules
    requires Straight(after) && Straight(body)
    ensures InterpretScript([Load(locator, p)] + after, modules) ==
      Interpretation("", Some(InterpretationError(
        "Evaluation error: " + CannotLoad(locator, ModuleNotFoundMessage(locator)),
        [CallFrame("<toplevel>", p)])), [])
    ensures var r := InterpretScript([Load(locator, p)] + after, modules[locator := body]);
      r.error.None? && r.output == Printed(body) + Printed(after) && r.instructions == Queued(body) + Queued(after)
  {
    var load: Script := [Load(locator, p)];
    var script := load + after;
    StraightHasNoUndefinedNames(after);
    UndefinedNamesConcat(load, after);
    RunConcat(Fresh, load, after, [], modules);
    RunSingle(Fresh, Load(locator, p), [], modules);
    var failed := Fresh.(error := Some(EvalError(CannotLoad(locator, ModuleNotFoundMessage(locator)), p)));
    assert Run(Fresh, load, [], modules) == failed;
    RunExtends(failed, after, [], modules);
    assert Run(Fresh, script, [], modules) == failed;
    InterpretFails(script, modules);
    assert [CallFrame(TopLevelFrame, p)] + [] == [CallFrame(TopLevelFrame, p)];
    var served := modules[locator := body];
    LoadInlinesModule([], locator, p, after, served);
    assert [] + load + after == script;
    assert Printed([]) == "" && Queued([]) == [];
    assert "" + Printed(body) == Printed(body) && [] + Queued(body) == Queued(body);
  }

  // ---------------------------------------------------------------------------
  // Evaluation errors
  // ---------------------------------------------------------------------------

  /**
   * An evaluation error after some instructions discards them and the output:
   * the result is the error alone, with its one top-level frame.
   */
  lemma FailureDiscardsProgress(before: Script, message: string, pos: ScriptPosition, after: Script, modules: Modules)
    requires Straight(before) && UndefinedNames(after) == []
    ensures InterpretScript(before + [Fail(message, pos)] + after, modules) ==
      Interpretation("", Some(InterpretationError("Evaluation error: " + message, [CallFrame("<toplevel>", pos)])), [])
  {
    var fail: Script := [Fail(message, pos)];
    var script := before + fail + after;
    StraightHasNoUndefinedNames(before);
    UndefinedNamesConcat(before + fail, after);
    UndefinedNamesConcat(before, fail);
    RunConcat(Fresh, before + fail, after, [], modules);
    RunConcat(Fresh, before, fail, [], modules);
    RunStraight(Fresh, before, [], modules);
    var t1 := Run(Fresh, before, [], modules);
    RunSingle(t1, Fail(message, pos), [], modules);
    var failed := t1.(error := Some(EvalError(message, pos)));
    assert Run(Fresh, before + fail, [], modules) == failed;
    RunExtends(failed, after, [], modules);
    assert Run(Fresh, script, [], modules) == failed;
    InterpretFails(script, modules);
    assert [CallFrame(TopLevelFrame, pos)] + [] == [CallFrame(TopLevelFrame, pos)];
  }

  /**
   * A builtin that rejects its arguments after some prints and instructions
   * discards them too; the error carries the top-level frame, then the
   * builtin's own frame, which has no script position.
   */
  lemma BuiltinFailureFrames(before: Script, builtin: string, message: string, pos: ScriptPosition, after: Script, modules: Modules)
    requires Straight(before) && UndefinedNames(after) == []
    ensures InterpretScript(before + [BuiltinFail(builtin, message, pos)] + after, modules) ==
      Interpretation("", Some(InterpretationError("Evaluation error: " + message,
        [CallFrame("<toplevel>", pos), CallFrame(builtin, ScriptPosition(0, 0))])), [])
  {
    var fail: Script := [BuiltinFail(builtin, message, pos)];
    var script := before + fail + after;
    StraightHasNoUndefinedNames(before);
    UndefinedNamesConcat(before + fail, after);
    UndefinedNamesConcat(before, fail);
    RunConcat(Fresh, before + fail, after, [], modules);
    RunConcat(Fresh, before, fail, [], modules);
    RunStraight(Fresh, before, [], modules);
    var t1 := Run(Fresh, before, [], modules);
    RunSingle(t1, BuiltinFail(builtin, message, pos), [], modules);
    var failed := t1.(error := Some(EvalError(message, pos, [CallFrame(builtin, NativePosition)])));
    assert Run(Fresh, before + fail, [], modules) == failed;
    RunExtends(failed, after, [], modules);
    assert Run(Fresh, script, [], modules) == failed;
    InterpretFails(script, modules);
    assert TopLevelError(failed.error.value).frames == [CallFrame(TopLevelFrame, pos), CallFrame(builtin, NativePosition)];
  }

  /**
   * The script of the multiple-errors test: three undefined references after a
   * print are all reported, in order, each at its own line and column.
   */
  lemma MultipleUndefinedNames(modules: Modules)
    ensures var script := [Print("Starting Startosis script!"),
                           Undefined("unknownInstruction", ScriptPosition(4, 1)),
                           Undefined("unknownVariable", ScriptPosition(5, 7)),
                           Undefined("unknownInstruction2", ScriptPosition(7, 1))];
            InterpretScript(script, modules) ==
              Interpretation("", Some(InterpretationError(MultipleErrorsMessage, [
                CallFrame("undefined: unknownInstruction", ScriptPosition(4, 1)),
                CallFrame("undefined: unknownVariable", ScriptPosition(5, 7)),
                CallFrame("undefined: unknownInstruction2", ScriptPosition(7, 1))])), [])
  {
    var u1 := Undefined("unknownInstruction", ScriptPosition(4, 1));
    var u2 := Undefined("unknownVariable", ScriptPosition(5, 7));
    var u3 := Undefined("unknownInstruction2", ScriptPosition(7, 1));
    var script := [Print("Starting Startosis script!"), u1, u2, u3];
    assert script[1..] == [u1, u2, u3];
    ThreeUndefinedFrames(u1, u2, u3);
  }

  lemma ThreeUndefinedFrames(u1: Stmt, u2: Stmt, u3: Stmt)
    requires u1 == Undefined("unknownInstruction", ScriptPosition(4, 1))
    requires u2 == Undefined("unknownVariable", ScriptPosition(5, 7))
    requires u3 == Undefined("unknownInstruction2", ScriptPosition(7, 1))
    ensures UndefinedFrames([u1, u2, u3]) == [
      CallFrame("undefined: unknownInstruction", ScriptPosition(4, 1)),
      CallFrame("undefined: unknownVariable", ScriptPosition(5, 7)),
      CallFrame("undefined: unknownInstruction2", ScriptPosition(7, 1))]
  {
    assert [u1, u2, u3][1..] == [u2, u3] && [u2, u3][1..] == [u3] && [u3][1..] == [];
    assert "undefined: " + u1.name == "undefined: unknownInstruction";
    assert "undefined: " + u2.name == "undefined: unknownVariable";
    assert "undefined: " + u3.name == "undefined: unknownInstruction2";
    assert UndefinedFrames([u3]) == [CallFrame("undefined: " + u3.name, u3.position)] + UndefinedFrames([]);
    assert UndefinedFrames([u2, u3]) == [CallFrame("undefined: " + u2.name, u2.position)] + UndefinedFrames([u3]);
    assert UndefinedFrames([u1, u2, u3]) == [CallFrame("undefined: " + u1.name, u1.position)] + UndefinedFrames([u2, u3]);
  }
}
