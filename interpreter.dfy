/**
 * The observable contract of the Startosis interpreter, over an abstract
 * statement language that stands for an already-parsed Starlark script.
 *
 * A script is the sequence of statements it executes, in execution order (a
 * loop or a function call is unrolled). `print` appends to one output buffer,
 * an instruction builtin appends to one instruction queue, and `load` runs
 * another module in place, sharing both accumulators. A load chain (the stack
 * of modules being loaded) gives cycle detection, and the module map is
 * consulted afresh on every load.
 */
module Interpreter {
  import opened Wrappers

  datatype ScriptPosition = ScriptPosition(line: int, column: int)

  /** One frame of an interpretation error. */
  datatype CallFrame = CallFrame(description: string, position: ScriptPosition)

  datatype InterpretationError = InterpretationError(message: string, frames: seq<CallFrame>)

  /** An instruction queued by an instruction builtin, tagged with its call site. */
  datatype QueuedInstruction = QueuedInstruction(name: string, args: seq<string>, position: ScriptPosition)

  datatype Stmt =
    | Print(text: string)                              // print(text)
    | Instr(instruction: QueuedInstruction)            // add_service(...), wait(...), ...
    | Load(locator: string, position: ScriptPosition)  // load(locator, symbols...)
    | Undefined(name: string, position: ScriptPosition) // a reference to an undefined name
    | Fail(message: string, position: ScriptPosition)  // any other evaluation error
    | BuiltinFail(builtin: string, message: string, position: ScriptPosition) // a builtin rejecting its arguments

  type Script = seq<Stmt>

  /** Module locator to module content, as the module content provider serves them. */
  type Modules = map<string, Script>

  /**
   * An evaluation error: its message, the position of the failing statement
   * and, when a builtin raised it, the builtin's own frame below that statement.
   */
  datatype EvalError = EvalError(message: string, position: ScriptPosition, builtinFrames: seq<CallFrame> := [])

  /** What running some statements appended to the two accumulators, and how it ended. */
  datatype Trace = Trace(output: string, instructions: seq<QueuedInstruction>, error: Option<EvalError>)

  const MultipleErrorsMessage := "Multiple errors caught interpreting the Startosis script. Listing each of them below."
  const CycleMessage := "There is a cycle in the load graph"
  const TopLevelFrame := "<toplevel>"

  /** Builtins are native code: their frame carries no script position. */
  const NativePosition := ScriptPosition(0, 0)

  function ModuleNotFoundMessage(locator: string): string
  {
    "An error occurred while loading the module '" + locator + "'"
  }

  /** Starlark's wrapping of an error raised while loading a module. */
  function CannotLoad(locator: string, cause: string): string
  {
    "cannot load " + locator + ": " + cause
  }

  // ---------------------------------------------------------------------------
  // Resolution: every undefined name is found before anything runs
  // ---------------------------------------------------------------------------

  /** One frame per reference to an undefined name, in source order. */
  function UndefinedFrames(script: Script): seq<CallFrame>
  {
    if |script| == 0 then []
    else
      var rest := UndefinedFrames(script[1..]);
      match script[0]
      case Undefined(name, pos) => [CallFrame("undefined: " + name, pos)] + rest
      case _ => rest
  }

  /**
   * Resolution reports every undefined name, one frame each, in source order,
   * each at the position of its reference, and nothing else.
   */
  lemma {:induction false} UndefinedFramesMatchNames(script: Script)
    ensures |UndefinedFrames(script)| == |UndefinedNames(script)| == |UndefinedPositions(script)|
    ensures forall k :: 0 <= k < |UndefinedNames(script)| ==>
      UndefinedFrames(script)[k].description == "undefined: " + UndefinedNames(script)[k]
    ensures forall k :: 0 <= k < |UndefinedPositions(script)| ==>
      UndefinedFrames(script)[k].position == UndefinedPositions(script)[k]
    ensures |UndefinedNames(script)| == 0 <==> forall k :: 0 <= k < |script| ==> !script[k].Undefined?
    decreases |script|
  {
    if |script| > 0 {
      UndefinedFramesMatchNames(script[1..]);
      assert forall k :: 1 <= k < |script| ==> script[k] == script[1..][k - 1];
    }
  }

  /** The undefined names referenced by a script, in source order. */
  function UndefinedNames(script: Script): seq<string>
  {
    if |script| == 0 then []
    else if script[0].Undefined? then [script[0].name] + UndefinedNames(script[1..])
    else UndefinedNames(script[1..])
  }

  /** Where the undefined names are referenced, in source order. */
  function UndefinedPositions(script: Script): (positions: seq<ScriptPosition>)
    ensures |positions| == |UndefinedNames(script)|
  {
    if |script| == 0 then []
    else if script[0].Undefined? then [script[0].position] + UndefinedPositions(script[1..])
    else UndefinedPositions(script[1..])
  }

  // ---------------------------------------------------------------------------
  // Execution
  // ---------------------------------------------------------------------------

  /** How many modules can still be pushed onto the load chain. */
  function Unvisited(modules: Modules, chain: seq<string>): nat
  {
    |modules.Keys - (set x | x in chain)|
  }

  lemma UnvisitedShrinks(modules: Modules, chain: seq<string>, locator: string)
    requires locator in modules && locator !in chain
    ensures Unvisited(modules, chain + [locator]) < Unvisited(modules, chain)
  {
    var before := modules.Keys - (set x | x in chain);
    var after := modules.Keys - (set x | x in chain + [locator]);
    assert after == before - {locator};
    assert locator in before;
  }

  /** The empty accumulators a call to `Interpret` starts from. */
  const Fresh := Trace("", [], None)

  /**
   * Runs the statements in order on top of the accumulators `t`, stopping at
   * the first error (a trace that already failed runs nothing more).
   */
  function Run(t: Trace, script: Script, chain: seq<string>, modules: Modules): (r: Trace)
    decreases Unvisited(modules, chain), |script|, 0
  {
    if |script| == 0 || t.error.Some? then t
    else Run(Step(t, script[0], chain, modules), script[1..], chain, modules)
  }

  /** Runs one statement on top of the accumulators `t`, which hold no error. */
  function Step(t: Trace, stmt: Stmt, chain: seq<string>, modules: Modules): (r: Trace)
    decreases Unvisited(modules, chain), 0, 1
  {
    match stmt
    case Print(text) => Trace(t.output + text + "\n", t.instructions, None)
    case Instr(instruction) => Trace(t.output, t.instructions + [instruction], None)
    case Undefined(name, pos) => t.(error := Some(EvalError("undefined: " + name, pos)))
    case Fail(message, pos) => t.(error := Some(EvalError(message, pos)))
    case BuiltinFail(builtin, message, pos) =>
      t.(error := Some(EvalError(message, pos, [CallFrame(builtin, NativePosition)])))
    case Load(locator, pos) => LoadModule(t, locator, pos, chain, modules)
  }

  /**
   * `load(locator, ...)`: a locator already on the chain is a cycle, an unknown
   * one a provider error, a module with undefined names fails resolution, and
   * otherwise the module runs on the same accumulators with the locator pushed
   * on the chain. Every error is wrapped with the locator and placed at the
   * load statement.
   */
  function LoadModule(t: Trace, locator: string, pos: ScriptPosition, chain: seq<string>, modules: Modules): (r: Trace)
    decreases Unvisited(modules, chain), 0, 0
  {
    if locator in chain then
      t.(error := Some(EvalError(CannotLoad(locator, CycleMessage), pos)))
    else if locator !in modules then
      t.(error := Some(EvalError(CannotLoad(locator, ModuleNotFoundMessage(locator)), pos)))
    else
      var names := UndefinedNames(modules[locator]);
      if |names| > 0 then
        t.(error := Some(EvalError(CannotLoad(locator, "undefined: " + names[0]), pos)))
      else
        UnvisitedShrinks(modules, chain, locator);
        var inner := Run(t, modules[locator], chain + [locator], modules);
        match inner.error
        case None => inner
        case Some(e) => inner.(error := Some(EvalError(CannotLoad(locator, e.message), pos)))
  }

  /** What `Interpret` returns: captured output, an optional error, the instruction list. */
  datatype Interpretation = Interpretation(output: string, error: Option<InterpretationError>, instructions: seq<QueuedInstruction>)

  /**
   * The top-level rendering of an evaluation error: a frame at the failing
   * top-level statement, then the frame of the builtin that raised it, if any.
   */
  function TopLevelError(e: EvalError): InterpretationError
  {
    InterpretationError("Evaluation error: " + e.message, [CallFrame(TopLevelFrame, e.position)] + e.builtinFrames)
  }

  /**
   * The result of interpreting a top-level script against the modules the
   * provider serves at that moment.
   */
  function InterpretScript(script: Script, modules: Modules): (r: Interpretation)
    // a failed interpretation yields neither output nor instructions
    ensures r.error.Some? ==> r.output == "" && r.instructions == []
    // undefined names are all reported, one frame each and in order, under the aggregated message
    ensures |UndefinedNames(script)| > 0 ==>
      r.error.Some? && r.error.value.message == MultipleErrorsMessage &&
      |r.error.value.frames| == |UndefinedNames(script)| &&
      (forall k :: 0 <= k < |UndefinedNames(script)| ==>
        r.error.value.frames[k].description == "undefined: " + UndefinedNames(script)[k] &&
        r.error.value.frames[k].position == UndefinedPositions(script)[k])
  {
    UndefinedFramesMatchNames(script);
    var frames := UndefinedFrames(script);
    if |frames| > 0 then
      Interpretation("", Some(InterpretationError(MultipleErrorsMessage, frames)), [])
    else
      var t := Run(Fresh, script, [], modules);
      match t.error
      case Some(e) => Interpretation("", Some(TopLevelError(e)), [])
      case None => Interpretation(t.output, None, t.instructions)
  }

  // ---------------------------------------------------------------------------
  // The interpreter object: two accumulators and a load chain, reset per call
  // ---------------------------------------------------------------------------

  /** The test double for the module content provider: a mutable locator-to-content map. */
  class MockModuleManager {
    var modules: Modules

    constructor (seed: Modules)
      ensures modules == seed
    {
      modules := seed;
    }

    method Add(locator: string, content: Script)
      modifies this
      ensures modules == old(modules)[locator := content]
    {
      modules := modules[locator := content];
    }
  }

  class StartosisInterpreter {
    var scriptOutputBuffer: string
    var instructionsQueue: seq<QueuedInstruction>
    var loadChain: seq<string>

    constructor ()
      ensures scriptOutputBuffer == "" && instructionsQueue == [] && loadChain == []
    {
      scriptOutputBuffer, instructionsQueue, loadChain := "", [], [];
    }

    /**
     * Interprets a script. Both accumulators start empty on every call, so the
     * result depends only on the script and on the modules served now.
     */
    method Interpret(script: Script, moduleManager: MockModuleManager)
      returns (output: string, error: Option<InterpretationError>, instructions: seq<QueuedInstruction>)
      modifies this
      ensures Interpretation(output, error, instructions) == InterpretScript(script, moduleManager.modules)
      ensures loadChain == []
    {
      scriptOutputBuffer, instructionsQueue, loadChain := "", [], [];
      var frames := UndefinedFrames(script);
      if |frames| > 0 {
        return "", Some(InterpretationError(MultipleErrorsMessage, frames)), [];
      }
      var evalError := ExecuteScript(script, moduleManager.modules);
      if evalError.Some? {
        return "", Some(TopLevelError(evalError.value)), [];
      }
      return scriptOutputBuffer, None, instructionsQueue;
    }

    /** Runs the statements in order against the shared accumulators, stopping at the first error. */
    method ExecuteScript(script: Script, modules: Modules) returns (error: Option<EvalError>)
      modifies this
      ensures loadChain == old(loadChain)
      ensures Trace(scriptOutputBuffer, instructionsQueue, error) ==
              Run(Trace(old(scriptOutputBuffer), old(instructionsQueue), None), script, old(loadChain), modules)
      decreases Unvisited(modules, loadChain), |script|, 0
    {
      ghost var t0 := Trace(scriptOutputBuffer, instructionsQueue, None);
      error := None;
      var i := 0;
      while i < |script| && error.None?
        invariant 0 <= i <= |script|
        invariant loadChain == old(loadChain)
        invariant Run(t0, script, loadChain, modules) ==
                  Run(Trace(scriptOutputBuffer, instructionsQueue, error), script[i..], loadChain, modules)
      {
        assert script[i..][0] == script[i] && script[i..][1..] == script[i + 1..];
        error := ExecuteStatement(script[i], modules);
        i := i + 1;
      }
    }

    /** Runs one statement; a load pushes the locator for the duration of the module's run. */
    method ExecuteStatement(stmt: Stmt, modules: Modules) returns (error: Option<EvalError>)
      modifies this
      ensures loadChain == old(loadChain)
      ensures Trace(scriptOutputBuffer, instructionsQueue, error) ==
              Step(Trace(old(scriptOutputBuffer), old(instructionsQueue), None), stmt, old(loadChain), modules)
      decreases Unvisited(modules, loadChain), 0, 1
    {
      error := None;
      match stmt
      case Print(text) =>
        scriptOutputBuffer := scriptOutputBuffer + text + "\n";
      case Instr(instruction) =>
        instructionsQueue := instructionsQueue + [instruction];
      case Undefined(name, pos) =>
        error := Some(EvalError("undefined: " + name, pos));
      case Fail(message, pos) =>
        error := Some(EvalError(message, pos));
      case BuiltinFail(builtin, message, pos) =>
        error := Some(EvalError(message, pos, [CallFrame(builtin, NativePosition)]));
      case Load(locator, pos) =>
        if locator in loadChain {
          error := Some(EvalError(CannotLoad(locator, CycleMessage), pos));
        } else if locator !in modules {
          error := Some(EvalError(CannotLoad(locator, ModuleNotFoundMessage(locator)), pos));
        } else {
          var names := UndefinedNames(modules[locator]);
          if |names| > 0 {
            error := Some(EvalError(CannotLoad(locator, "undefined: " + names[0]), pos));
          } else {
            UnvisitedShrinks(modules, loadChain, locator);
            loadChain := loadChain + [locator];
            var innerError := ExecuteScript(modules[locator], modules);
            loadChain := loadChain[..|loadChain| - 1];
            if innerError.Some? {
              error := Some(EvalError(CannotLoad(locator, innerError.value.message), pos));
            }
          }
        }
    }
  }
}
