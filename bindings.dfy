/**
 * The constructors of the Startosis request and response records exchanged
 * with the API container: script and module execution arguments, the
 * instructions reported back, their arguments, and the responses that carry
 * either instructions or one of the three kinds of error.
 */
module Bindings {
  import opened Wrappers

  newtype Int32 = x: int | -0x8000_0000 <= x < 0x8000_0000

  datatype ExecuteStartosisScriptArgs = ExecuteStartosisScriptArgs(serializedScript: string, dryRun: bool)

  /** Module content: the compressed module itself, or a request to fetch it from its repository. */
  datatype ModuleContent = Local(compressedModule: seq<bv8>) | Remote

  datatype ExecuteStartosisModuleArgs = ExecuteStartosisModuleArgs(
    moduleId: string, content: ModuleContent, serializedParams: string, dryRun: bool)

  datatype InstructionPosition = InstructionPosition(filename: string, line: Int32, column: Int32)

  /** A rendered argument; a keyword argument has a name, a positional one does not. */
  datatype InstructionArg = InstructionArg(serializedArgValue: string, argName: Option<string>, isRepresentative: bool)

  datatype KurtosisInstruction = KurtosisInstruction(
    instructionName: string,
    position: InstructionPosition,
    executableInstruction: string,
    arguments: seq<InstructionArg>,
    instructionResult: Option<string>)

  datatype InterpretationError = InterpretationError(errorMessage: string)
  datatype ValidationError = ValidationError(errorMessage: string)
  datatype ValidationErrors = ValidationErrors(errors: seq<ValidationError>)
  datatype ExecutionError = ExecutionError(errorMessage: string)

  /** The error a response carries: one of the three stages of the pipeline. */
  datatype KurtosisError =
    | InterpretationFailure(interpretationError: InterpretationError)
    | ValidationFailure(validationErrors: ValidationErrors)
    | ExecutionFailure(executionError: ExecutionError)

  datatype ExecuteStartosisResponse = ExecuteStartosisResponse(
    kurtosisInstructions: seq<KurtosisInstruction>, kurtosisError: Option<KurtosisError>)

  /** The error on a streamed line: as in a response, but one validation error per line. */
  datatype LineError =
    | LineInterpretationError(interpretationError: InterpretationError)
    | LineValidationError(validationError: ValidationError)
    | LineExecutionError(executionError: ExecutionError)

  /** One line of a streamed execution: an instruction, or an error. */
  datatype ExecutionResponseLine = InstructionLine(instruction: KurtosisInstruction) | ErrorLine(error: LineError)

  // ---------------------------------------------------------------------------
  // Arguments
  // ---------------------------------------------------------------------------

  function NewExecuteStartosisScriptArgs(serializedScript: string, dryRun: bool): (a: ExecuteStartosisScriptArgs)
    ensures a.serializedScript == serializedScript && a.dryRun == dryRun
  {
    ExecuteStartosisScriptArgs(serializedScript, dryRun)
  }

  /** Arguments for a module uploaded with the request. */
  function NewExecuteStartosisModuleArgs(moduleId: string, compressedModule: seq<bv8>, serializedParams: string, dryRun: bool)
    : (a: ExecuteStartosisModuleArgs)
    ensures a.content.Local? && a.content.compressedModule == compressedModule
    ensures a.moduleId == moduleId && a.serializedParams == serializedParams && a.dryRun == dryRun
  {
    ExecuteStartosisModuleArgs(moduleId, Local(compressedModule), serializedParams, dryRun)
  }

  /** Arguments for a module the server fetches from its repository. */
  function NewExecuteStartosisRemoteModuleArgs(moduleId: string, serializedParams: string, dryRun: bool)
    : (a: ExecuteStartosisModuleArgs)
    ensures a.content.Remote?
    ensures a.moduleId == moduleId && a.serializedParams == serializedParams && a.dryRun == dryRun
  {
    ExecuteStartosisModuleArgs(moduleId, Remote, serializedParams, dryRun)
  }

  /** The local and the remote form of a module request differ in their content only. */
  lemma ModuleArgsDifferInContentOnly(moduleId: string, compressedModule: seq<bv8>, serializedParams: string, dryRun: bool)
    ensures NewExecuteStartosisModuleArgs(moduleId, compressedModule, serializedParams, dryRun).(content := Remote) ==
            NewExecuteStartosisRemoteModuleArgs(moduleId, serializedParams, dryRun)
    ensures NewExecuteStartosisModuleArgs(moduleId, compressedModule, serializedParams, dryRun) !=
            NewExecuteStartosisRemoteModuleArgs(moduleId, serializedParams, dryRun)
  {
  }

  // ---------------------------------------------------------------------------
  // Instructions and their arguments
  // ---------------------------------------------------------------------------

  function NewKurtosisInstructionPosition(filename: string, line: Int32, column: Int32): (p: InstructionPosition)
    ensures p.filename == filename && p.line == line && p.column == column
  {
    InstructionPosition(filename, line, column)
  }

  /** A keyword argument: it carries its name. */
  function NewKurtosisInstructionKwarg(serializedArgValue: string, argName: string, isRepresentative: bool): (a: InstructionArg)
    ensures a.argName == Some(argName)
    ensures a.serializedArgValue == serializedArgValue && a.isRepresentative == isRepresentative
  {
    InstructionArg(serializedArgValue, Some(argName), isRepresentative)
  }

  /** A positional argument: it has no name. */
  function NewKurtosisInstructionArg(serializedArgValue: string, isRepresentative: bool): (a: InstructionArg)
    ensures a.argName.None?
    ensures a.serializedArgValue == serializedArgValue && a.isRepresentative == isRepresentative
  {
    InstructionArg(serializedArgValue, None, isRepresentative)
  }

  /** A keyword and a positional argument with the same value differ exactly in the name. */
  lemma KwargAndArgDifferInNameOnly(serializedArgValue: string, argName: string, isRepresentative: bool)
    ensures NewKurtosisInstructionKwarg(serializedArgValue, argName, isRepresentative).(argName := None) ==
            NewKurtosisInstructionArg(serializedArgValue, isRepresentative)
    ensures NewKurtosisInstructionKwarg(serializedArgValue, argName, isRepresentative) !=
            NewKurtosisInstructionArg(serializedArgValue, isRepresentative)
  {
  }

  /** A freshly interpreted instruction: it has no result yet. */
  function NewKurtosisInstruction(position: InstructionPosition, name: string, executableInstruction: string, arguments: seq<InstructionArg>)
    : (i: KurtosisInstruction)
    ensures i.instructionResult.None?
    ensures i.instructionName == name && i.position == position
    ensures i.executableInstruction == executableInstruction && i.arguments == arguments
  {
    KurtosisInstruction(name, position, executableInstruction, arguments, None)
  }

  /** The instruction with the given result, every other field copied. */
  function AddResultToKurtosisInstruction(instruction: KurtosisInstruction, maybeInstructionResult: Option<string>)
    : (i: KurtosisInstruction)
    ensures i.instructionResult == maybeInstructionResult
    ensures i.instructionName == instruction.instructionName && i.position == instruction.position
    ensures i.executableInstruction == instruction.executableInstruction && i.arguments == instruction.arguments
  {
    KurtosisInstruction(instruction.instructionName, instruction.position, instruction.executableInstruction,
                        instruction.arguments, maybeInstructionResult)
  }

  /** Adding a result changes the result and nothing else. */
  lemma AddResultChangesOnlyTheResult(instruction: KurtosisInstruction, result: Option<string>)
    ensures AddResultToKurtosisInstruction(instruction, result) == instruction.(instructionResult := result)
  {
  }

  /** Results do not accumulate: the last one added is the one kept, and restoring the old one gives the instruction back. */
  lemma AddResultLastWins(instruction: KurtosisInstruction, first: Option<string>, second: Option<string>)
    ensures AddResultToKurtosisInstruction(AddResultToKurtosisInstruction(instruction, first), second) ==
            AddResultToKurtosisInstruction(instruction, second)
    ensures AddResultToKurtosisInstruction(AddResultToKurtosisInstruction(instruction, first), instruction.instructionResult) ==
            instruction
  {
  }

  /** Two instructions that differ only in their results agree once a result is added. */
  lemma AddResultForgetsTheOldResult(a: KurtosisInstruction, b: KurtosisInstruction, result: Option<string>)
    requires a.(instructionResult := None) == b.(instructionResult := None)
    ensures AddResultToKurtosisInstruction(a, result) == AddResultToKurtosisInstruction(b, result)
  {
  }

  // ---------------------------------------------------------------------------
  // Responses
  // ---------------------------------------------------------------------------

  function NewKurtosisInterpretationError(errorMessage: string): (e: InterpretationError)
    ensures e.errorMessage == errorMessage
  {
    InterpretationError(errorMessage)
  }

  function NewKurtosisValidationError(errorMessage: string): (e: ValidationError)
    ensures e.errorMessage == errorMessage
  {
    ValidationError(errorMessage)
  }

  function NewKurtosisValidationErrors(errors: seq<ValidationError>): (e: ValidationErrors)
    ensures e.errors == errors
  {
    ValidationErrors(errors)
  }

  function NewKurtosisExecutionError(errorMessage: string): (e: ExecutionError)
    ensures e.errorMessage == errorMessage
  {
    ExecutionError(errorMessage)
  }

  /** A successful run: the instructions and no error. */
  function NewExecuteStartosisResponse(kurtosisInstructions: seq<KurtosisInstruction>): (r: ExecuteStartosisResponse)
    ensures r.kurtosisError.None? && r.kurtosisInstructions == kurtosisInstructions
  {
    ExecuteStartosisResponse(kurtosisInstructions, None)
  }

  /** A script that did not interpret: nothing ran, so no instructions. */
  function NewExecuteStartosisResponseFromInterpretationError(interpretationError: InterpretationError): (r: ExecuteStartosisResponse)
    ensures r.kurtosisInstructions == []
    ensures r.kurtosisError == Some(InterpretationFailure(interpretationError))
  {
    ExecuteStartosisResponse([], Some(InterpretationFailure(interpretationError)))
  }

  /** A script that did not validate: nothing ran, so no instructions. */
  function NewExecuteStartosisResponseFromValidationErrors(validationErrors: ValidationErrors): (r: ExecuteStartosisResponse)
    ensures r.kurtosisInstructions == []
    ensures r.kurtosisError == Some(ValidationFailure(validationErrors))
  {
    ExecuteStartosisResponse([], Some(ValidationFailure(validationErrors)))
  }

  /** A run that failed part way: the instructions that ran, and the error. */
  function NewExecuteStartosisResponseFromExecutionError(kurtosisInstructions: seq<KurtosisInstruction>, executionError: ExecutionError)
    : (r: ExecuteStartosisResponse)
    ensures r.kurtosisInstructions == kurtosisInstructions
    ensures r.kurtosisError == Some(ExecutionFailure(executionError))
  {
    ExecuteStartosisResponse(kurtosisInstructions, Some(ExecutionFailure(executionError)))
  }

  /**
   * Every response the constructors build is one of four shapes, and which
   * one is told by its error: only success and execution failure carry
   * instructions.
   */
  predicate WellFormedResponse(r: ExecuteStartosisResponse)
  {
    match r.kurtosisError
    case None => true
    case Some(InterpretationFailure(_)) => r.kurtosisInstructions == []
    case Some(ValidationFailure(_)) => r.kurtosisInstructions == []
    case Some(ExecutionFailure(_)) => true
  }

  lemma ConstructedResponsesAreWellFormed(
    instructions: seq<KurtosisInstruction>, i: InterpretationError, v: ValidationErrors, e: ExecutionError)
    ensures WellFormedResponse(NewExecuteStartosisResponse(instructions))
    ensures WellFormedResponse(NewExecuteStartosisResponseFromInterpretationError(i))
    ensures WellFormedResponse(NewExecuteStartosisResponseFromValidationErrors(v))
    ensures WellFormedResponse(NewExecuteStartosisResponseFromExecutionError(instructions, e))
  {
  }

  /** A response that carries instructions either succeeded or failed while executing. */
  lemma InstructionsOnlyFromExecution(r: ExecuteStartosisResponse)
    requires WellFormedResponse(r) && r.kurtosisInstructions != []
    ensures r.kurtosisError.None? || r.kurtosisError.value.ExecutionFailure?
  {
  }

  function NewKurtosisExecutionResponseLineFromInstruction(instruction: KurtosisInstruction): (l: ExecutionResponseLine)
    ensures l.InstructionLine? && l.instruction == instruction
  {
    InstructionLine(instruction)
  }

  function NewKurtosisExecutionResponseLineFromInterpretationError(e: InterpretationError): (l: ExecutionResponseLine)
    ensures l.ErrorLine? && l.error == LineInterpretationError(e)
  {
    ErrorLine(LineInterpretationError(e))
  }

  function NewKurtosisExecutionResponseLineFromValidationError(e: ValidationError): (l: ExecutionResponseLine)
    ensures l.ErrorLine? && l.error == LineValidationError(e)
  {
    ErrorLine(LineValidationError(e))
  }

  function NewKurtosisExecutionResponseLineFromExecutionError(e: ExecutionError): (l: ExecutionResponseLine)
    ensures l.ErrorLine? && l.error == LineExecutionError(e)
  {
    ErrorLine(LineExecutionError(e))
  }
}
