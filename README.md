# Kurtosis Startosis pipeline and its surrounding logic, in Dafny

This project models the core of Kurtosis, a platform that runs containerised test
environments ("enclaves"). Its centre is the Startosis pipeline: a Starlark script
is interpreted into a queue of instructions, the instructions are validated
(including one fetch per required Docker image), and then executed one by one.
Around it sit small pieces of deterministic logic that are modelled too:

- the Git module content provider, which finds module files on disk and clones or
  unpacks modules into place;
- the record constructors of the Startosis API;
- the port conversions, request checks and service filter of the API container;
- the validation and overlay of the CLI's configuration;
- the CLI's yes/no prompt;
- the token expiry and permission decisions of the access controller.

One module per source file:

| file | module | models |
|---|---|---|
| `interpreter.dfy` | `Interpreter` | the interpreter's observable contract, over an abstract statement language (`Print`, `Instr`, `Load`, `Undefined`, `Fail`, `BuiltinFail`); a specification function `InterpretScript` and the class `StartosisInterpreter` with its output buffer, instruction queue and load chain |
| `interpreter_properties.dfy` | `InterpreterProperties` | what the interpreter tests pin down, as lemmas about `InterpretScript` |
| `validator.dfy` | `Validator` | `StartosisValidator.Validate` (fail-fast fold over one environment) and `DockerImagesValidator.Validate` (one fetch per distinct image, errors as a multiset) |
| `executor.dfy` | `Executor` | `StartosisExecutor.Execute`: real run, failure half-way, dry run, the serialized log and the error text |
| `instruction_render.dfy` | `InstructionRender` | the canonical multi-line and the single-line rendering of the `wait` instruction |
| `file_system.dfy` | `FileSystem` | a tree-shaped disk and the operating-system calls the provider makes |
| `module_provider.dfy` | `ModuleProvider` | `GitModuleContentProvider`: file lookup, clone, atomic clone, archive store |
| `bindings.dfy` | `Bindings` | the Startosis constructors of the API bindings |
| `ports.dfy` | `Ports` | port conversion both ways, the one-to-one port check, `GetServices`, `ExecCommand` |
| `config.dfy` | `KurtosisConfig` | configuration v1: defaults, validation, overlays (a class updated in place) |
| `prompt.dfy` | `PromptDisplayer` | the confirmation prompt's input classification |
| `access.dfy` | `AccessController` | token retrieval, expiry with grace period, permission check, public-key lookup |
| `strings.dfy`, `wrappers.dfy` | `Strings`, `Wrappers` | decimal rendering, join, ASCII lower case; `Option` and `Result` |

The interpreter itself is not part of this model: only its test file is. Its
contract is therefore stated over an abstract, already-parsed script, and each
test becomes a lemma about `InterpretScript`. The same holds for the executor and
the `wait` instruction, which are modelled from their tests.

## Model

| member | source | states |
|---|---|---|
| Interpreter.UndefinedFramesMatchNames | core/server/api_container/server/startosis_engine/startosis_interpreter_test.go:38-85 | every reference to an undefined name gives exactly one frame `undefined: <name>` at the position of that reference, in source order; there are no frames exactly when no undefined name is referenced |
| Interpreter.InterpretScript | core/server/api_container/server/startosis_engine/startosis_interpreter_test.go:38-85 | a failed interpretation returns empty output and no instructions; when undefined names occur, all of them are reported under the "Multiple errors caught…" message, one frame each, in order, each at the line and column of its reference, even when there is only one |
| InterpreterProperties.MultipleUndefinedNames | core/server/api_container/server/startosis_engine/startosis_interpreter_test.go:60-85 | the test's script, a print and three undefined references, yields no output, no instructions and exactly the three frames the test expects, at (4, 1), (5, 7) and (7, 1) |
| Interpreter.MockModuleManager.Add | core/server/api_container/server/startosis_engine/startosis_interpreter_test.go:435-436 | adding a module serves it from then on, and changes no other locator |
| Interpreter.StartosisInterpreter.constructor | core/server/api_container/server/startosis_engine/startosis_interpreter_test.go:21-22 | a new interpreter has an empty output buffer, instruction queue and load chain |
| Interpreter.StartosisInterpreter.Interpret | core/server/api_container/server/startosis_engine/startosis_interpreter_test.go:636-718 | the result equals `InterpretScript` of the script and the modules served at the time of the call, whatever an earlier call left in the buffers; the load chain is empty afterwards |
| Interpreter.StartosisInterpreter.ExecuteScript | core/server/api_container/server/startosis_engine/startosis_interpreter_test.go:246-329 | the buffer and queue after running the statements are what the reference `Run` gives from the buffer and queue before; the load chain is restored |
| Interpreter.StartosisInterpreter.ExecuteStatement | core/server/api_container/server/startosis_engine/startosis_interpreter_test.go:376-421 | one statement does what the reference `Step` says: print appends its text and a newline, an instruction is queued, a load checks the chain, the provider and resolution, and wraps any error as `cannot load <locator>: …` at the load |
| InterpreterProperties.PrintOnlyScript | core/server/api_container/server/startosis_engine/startosis_interpreter_test.go:20-36 | a script of prints succeeds with no instructions and with its printed texts, each followed by a newline |
| InterpreterProperties.InterpretStraight | core/server/api_container/server/startosis_engine/startosis_interpreter_test.go:108-150 | a script of prints and instructions succeeds with exactly its prints and its instructions, in statement order |
| InterpreterProperties.LoopQueuesOnePerIteration | core/server/api_container/server/startosis_engine/startosis_interpreter_test.go:246-329 | a loop of `n` iterations queues `n` instructions, the `k`-th from iteration `k`, and prints nothing |
| InterpreterProperties.LoadInlinesModule | core/server/api_container/server/startosis_engine/startosis_interpreter_test.go:448-634 | a loaded module's prints and instructions come after the importer's earlier ones and before its later ones |
| InterpreterProperties.TransitiveLoad | core/server/api_container/server/startosis_engine/startosis_interpreter_test.go:351-374 | a module that loads another succeeds; the innermost module's effects come first |
| InterpreterProperties.LoadCycle | core/server/api_container/server/startosis_engine/startosis_interpreter_test.go:376-401 | two modules that load each other fail with `cannot load A: cannot load B: cannot load A: There is a cycle in the load graph`, with one top-level frame at the first load and no instructions |
| InterpreterProperties.NoNegativeCaching | core/server/api_container/server/startosis_engine/startosis_interpreter_test.go:403-446 | loading a missing module fails with the provider's message at the load; once the module is added, the same script succeeds with the module's effects |
| InterpreterProperties.FailureDiscardsProgress | core/server/api_container/server/startosis_engine/startosis_interpreter_test.go:168-172 | an evaluation error after prints and instructions discards both; the result is the error alone, with one top-level frame at the failing statement |
| InterpreterProperties.BuiltinFailureFrames | core/server/api_container/server/startosis_engine/startosis_interpreter_test.go:152-244 | a builtin that rejects its arguments discards output and instructions; its error has the top-level frame and then the builtin's frame at position (0, 0) |
| Validator.FirstInvalid | core/server/api_container/server/startosis_engine/startosis_validator.go:24-28 | the index of the first instruction whose own check fails: every earlier one passes, and there is none exactly when all pass |
| Validator.ValidatorEnvironment.constructor | core/server/api_container/server/startosis_engine/startosis_validator.go:23 | a fresh environment requires no image |
| Validator.ValidatorEnvironment.AppendRequiredDockerImages | core/server/api_container/server/startosis_engine/startosis_validator.go:25 | an instruction's images are added to the set the environment requires |
| Validator.StartosisValidator.Validate | core/server/api_container/server/startosis_engine/startosis_validator.go:22-35 | instructions are checked in order against one fresh environment; the first failure is reported and nothing after it is checked or fetched; otherwise the final environment's images are fetched and the result is nil exactly when no fetch fails |
| Validator.DockerImagesValidator.Validate | core/server/api_container/server/startosis_engine/startosis_validator/docker_images_validator.go:20-37 | each required image is fetched exactly once; the result is nil when every fetch succeeds, and otherwise holds, as a multiset, one error per failing image |
| Validator.RequiredImagesAreNamed | core/server/api_container/server/startosis_engine/startosis_validator/docker_images_validator.go:23-26 | the final environment requires exactly the images some instruction names, so duplicates collapse |
| Validator.PullErrorsOnePerFailingImage | core/server/api_container/server/startosis_engine/startosis_validator/docker_images_validator.go:39-45 | there is one error per failing image, carrying that image and its cause, and none for an image that was fetched |
| Validator.NoErrorsIffAllFetched | core/server/api_container/server/startosis_engine/startosis_validator/docker_images_validator.go:29-37 | the images validator reports nothing exactly when every required image can be fetched |
| Executor.FirstFailing | core/server/api_container/server/startosis_engine/startosis_executor_test.go:53-73 | the index of the first instruction whose execution fails: every earlier one succeeds, and there is none exactly when all succeed |
| Executor.Serialized | core/server/api_container/server/startosis_engine/startosis_executor_test.go:46-50 | the log has one entry per instruction, holding its canonical rendering, in order |
| Executor.StartosisExecutor.Execute | core/server/api_container/server/startosis_engine/startosis_executor_test.go:28-113 | a dry run renders each instruction once, executes none and succeeds; a real run renders and executes each once, in order; a failure at instruction `k` is reported as number `k`, and nothing after it is rendered, executed or logged |
| Executor.ErrorMessageShape | core/server/api_container/server/startosis_engine/startosis_executor_test.go:74-80 | the error text starts with `An error occurred executing instruction (number k): \n<canonical>\n --- at` and contains the underlying error |
| Executor.ErrorPrefixIdentifiesNumber | core/server/api_container/server/startosis_engine/startosis_executor_test.go:74-76 | different instruction numbers give different prefixes |
| Executor.FailedLogIsPrefix | core/server/api_container/server/startosis_engine/startosis_executor_test.go:82-86 | after a failure at `k` the log is a proper prefix of the full log, with `k` entries |
| InstructionRender.ArgTexts | core/server/api_container/server/startosis_engine/kurtosis_instruction/wait/wait_test.go:27-31 | each argument is rendered as `name="value"`, one per argument, in order |
| InstructionRender.Indent | core/server/api_container/server/startosis_engine/kurtosis_instruction/wait/wait_test.go:27-31 | each argument line is prefixed with one tab |
| InstructionRender.NewWaitInstruction | core/server/api_container/server/startosis_engine/kurtosis_instruction/wait/wait_test.go:21-26 | the instruction keeps its position, service id and fact name |
| InstructionRender.WaitArgsSortedByName | core/server/api_container/server/startosis_engine/kurtosis_instruction/wait/wait_test.go:27-31 | the arguments are rendered in name order, `fact_name` before `service_id`, although the constructor takes the service id first |
| InstructionRender.TwoArgForms | core/server/api_container/server/startosis_engine/kurtosis_instruction/wait/wait_test.go:27-37 | with two arguments, the multi-line form is the header, `name(`, the two tab-indented arguments separated by `,\n`, and `)`; the single-line form separates them with `, ` |
| InstructionRender.FormsAgree | core/server/api_container/server/startosis_engine/kurtosis_instruction/wait/wait_test.go:27-37 | both forms join the same argument texts: the multi-line one with `,\n\t` after a leading tab, the single-line one with `, ` |
| InstructionRender.GetCanonicalInstruction | core/server/api_container/server/startosis_engine/kurtosis_instruction/wait/wait_test.go:27-33 | for any wait instruction whose values need no escaping: the header line, then `wait(`, then `fact_name` and `service_id` each on its own tab-indented line with its value in double quotes, a comma between them and none after the last, then `)` |
| InstructionRender.WaitString | core/server/api_container/server/startosis_engine/kurtosis_instruction/wait/wait_test.go:35-37 | for any wait instruction whose values need no escaping: `wait(fact_name="…", service_id="…")` on one line, the values in double quotes |
| InstructionRender.WaitTestRendering | core/server/api_container/server/startosis_engine/kurtosis_instruction/wait/wait_test.go:20-37 | the instruction built at `dummyFile[1:1]` renders as the unit test expects, in both forms |
| InstructionRender.HeaderIdentifiesPosition | core/server/api_container/server/startosis_engine/kurtosis_instruction/wait/wait_test.go:27 | the `# from: <file>[<line>:<col>]` header determines the file, line and column (for file names without `[`) |
| FileSystem.Disk.MkdirTemp | core/server/api_container/server/startosis_engine/startosis_modules/git_module_content_provider/git_module_content_provider.go:140 | creates a fresh, empty directory inside an existing one, or fails and changes nothing |
| FileSystem.Disk.RemoveAll | core/server/api_container/server/startosis_engine/startosis_modules/git_module_content_provider/git_module_content_provider.go:104 | removes the path and everything below it; a missing path is not an error |
| FileSystem.Disk.Mkdir | core/server/api_container/server/startosis_engine/startosis_modules/git_module_content_provider/git_module_content_provider.go:172 | succeeds exactly when the parent is a directory and the path is free, and then creates an empty directory there |
| FileSystem.Disk.Rename | core/server/api_container/server/startosis_engine/startosis_modules/git_module_content_provider/git_module_content_provider.go:176 | succeeds exactly when the source exists, the target is free and its parent is a directory; then the tree moves |
| FileSystem.Disk.Materialize | core/server/api_container/server/startosis_engine/startosis_modules/git_module_content_provider/git_module_content_provider.go:128 | a clone or unpacked archive is placed at the path, creating parents, unless it failed or a file is in the way |
| FileSystem.Disk.ReadFile | core/server/api_container/server/startosis_engine/startosis_modules/git_module_content_provider/git_module_content_provider.go:88 | returns the contents exactly when a file is at the path |
| ModuleProvider.FileInsidePackageIsRelative | core/server/api_container/server/startosis_engine/startosis_modules/git_module_content_provider/git_module_content_provider.go:69-70 | the "doesn't exist in the package" error names the file relative to the repository, with the repository prefix removed once |
| ModuleProvider.RepoPathString | core/server/api_container/server/startosis_engine/startosis_modules/git_module_content_provider/git_module_content_provider.go:59 | the repository path is `<author>/<name>` |
| ModuleProvider.GitModuleContentProvider.CloneModule | core/server/api_container/server/startosis_engine/startosis_modules/git_module_content_provider/git_module_content_provider.go:35-48 | a locator that does not parse is an error and changes nothing; otherwise it succeeds exactly when every step of the clone does (a free temporary name, the clone, a usable author directory, a free module path, the move), and then the clone sits at the module path, which is returned; on success the author directory (made when missing) gains exactly the module; on failure the module path is as it was and at most a new, empty author directory is left; nothing else on disk changes: every path apart from the temporary directory and the author directory keeps its contents, and the temporary directory is as it was |
| ModuleProvider.GitModuleContentProvider.GetOnDiskAbsoluteFilePath | core/server/api_container/server/startosis_engine/startosis_modules/git_module_content_provider/git_module_content_provider.go:50-79 | an empty file path is refused before the disk is looked at; a file on disk is returned without cloning; a module on disk without the file is an error and nothing is cloned; in these cases the disk is unchanged; otherwise the module is cloned, and the file's path is returned exactly when every step of the clone succeeds, whether or not the clone holds the file; the clone adds only the module to the author directory, and nothing else on disk changes: every path apart from the temporary directory and the author directory keeps its contents, and the temporary directory is as it was |
| ModuleProvider.GitModuleContentProvider.GetModuleContents | core/server/api_container/server/startosis_engine/startosis_modules/git_module_content_provider/git_module_content_provider.go:81-94 | returns the contents of the file at the locator's path; a locator that does not parse, an empty file path and a module on disk without the file are errors that leave the disk unchanged; whatever is at the file's path on disk, nothing is cloned; a failed clone is an error; a successful clone that holds the file yields its contents, and one that lacks it ends in a read error; a clone adds only the module to the author directory, and nothing else on disk changes: every path apart from the temporary directory and the author directory keeps its contents, and the temporary directory is as it was |
| ModuleProvider.GitModuleContentProvider.StoreModuleContents | core/server/api_container/server/startosis_engine/startosis_modules/git_module_content_provider/git_module_content_provider.go:96-134 | without overwrite an existing module is refused and the disk untouched; with overwrite it is removed first; a short write is an error; it succeeds exactly when every step does (clearing, temporary file, full write, unpacking where no file is in the way), and then the module path is returned; the new disk is exactly the old one, with the module removed when overwriting succeeded in removing it, and with the unpacked archive placed at the module path on success |
| ModuleProvider.GitModuleContentProvider.ClearModulePath | core/server/api_container/server/startosis_engine/startosis_modules/git_module_content_provider/git_module_content_provider.go:103-113 | with overwrite the module is removed or the removal error returned; without it an existing module is refused; when it passes, the module path is free, and only the module was removed |
| ModuleProvider.GitModuleContentProvider.UnpackArchive | core/server/api_container/server/startosis_engine/startosis_modules/git_module_content_provider/git_module_content_provider.go:115-133 | it succeeds exactly when the temporary file is made, the whole archive is written and the unpacked tree can be placed; a written byte count other than the archive's length is an error; on success the new disk is exactly the old one with the unpacked archive placed at the module path; on failure the disk is unchanged |
| ModuleProvider.GitModuleContentProvider.AtomicClone | core/server/api_container/server/startosis_engine/startosis_modules/git_module_content_provider/git_module_content_provider.go:138-180 | it succeeds exactly when every step does; the temporary directory was fresh and is gone on every exit path; the module path changes only through the final move, so on success it holds the clone inside an author directory and on failure it is as it was; on success the author directory (made when missing) gains exactly the module, and on failure at most a new, empty author directory is left; nothing else on disk changes: every path apart from the temporary directory and the author directory keeps its contents, and the temporary directory is as it was; an author path that is not a directory stops the move |
| ModuleProvider.GitModuleContentProvider.MakeTempDir | core/server/api_container/server/startosis_engine/startosis_modules/git_module_content_provider/git_module_content_provider.go:140-143 | succeeds exactly when the system picks a name free in an existing temporary directory; the new disk is then exactly the old one with that directory added, empty, apart from the module and author paths; on failure nothing changes |
| ModuleProvider.GitModuleContentProvider.CloneIntoPlace | core/server/api_container/server/startosis_engine/startosis_modules/git_module_content_provider/git_module_content_provider.go:145-179 | clone, then move: it succeeds exactly when the clone works, the author directory is usable, the module path is free and the move works; on success the author directory (made when missing) gains exactly the module; on failure the module path is as it was and at most a new, empty author directory is left; every path apart from the clone path and the author directory keeps its contents |
| ModuleProvider.GitModuleContentProvider.CloneRepository | core/server/api_container/server/startosis_engine/startosis_modules/git_module_content_provider/git_module_content_provider.go:145-162 | fails exactly when the clone fails, changing nothing; otherwise the new disk is exactly the old one with the cloned tree placed at the temporary clone path |
| ModuleProvider.GitModuleContentProvider.PlaceClone | core/server/api_container/server/startosis_engine/startosis_modules/git_module_content_provider/git_module_content_provider.go:164-179 | the author directory is ensured and the clone moved into it; it succeeds exactly when the author directory is usable, the module path is free and the move works; on success the author directory (made when missing) gains exactly the module and the clone path is empty; on failure at most a new, empty author directory is left; every path apart from the clone path and the author directory keeps its contents; an author path that is not a directory is an error |
| ModuleProvider.GitModuleContentProvider.EnsureAuthorDir | core/server/api_container/server/startosis_engine/startosis_modules/git_module_content_provider/git_module_content_provider.go:165-175 | succeeds exactly when the author path is a directory, or is missing and can be created in the modules directory; the new disk is exactly the old one, plus an empty author directory when it was missing and creating it succeeded; an author path that exists but is not a directory is an error |
| ModuleProvider.GitModuleContentProvider.MoveClone | core/server/api_container/server/startosis_engine/startosis_modules/git_module_content_provider/git_module_content_provider.go:176-178 | succeeds exactly when the module path is free and the system's rename works; the new disk is then exactly the old one with the clone removed from its temporary place and placed at the module path; on failure the disk is unchanged |
| ModuleProvider.GitModuleContentProvider.RemoveTemporary | core/server/api_container/server/startosis_engine/startosis_modules/git_module_content_provider/git_module_content_provider.go:144 | the new disk is exactly the old one with the temporary directory and everything under it removed; the module and author paths are untouched |
| Bindings.NewExecuteStartosisScriptArgs | api/golang/core/lib/binding_constructors/binding_constructors.go:251-256 | the arguments carry the serialized script and the dry-run flag |
| Bindings.NewExecuteStartosisModuleArgs | api/golang/core/lib/binding_constructors/binding_constructors.go:262-269 | an uploaded module is the `Local` content variant with its bytes; id, parameters and dry-run flag are kept |
| Bindings.NewExecuteStartosisRemoteModuleArgs | api/golang/core/lib/binding_constructors/binding_constructors.go:275-282 | a module to fetch is the `Remote` content variant; id, parameters and dry-run flag are kept |
| Bindings.ModuleArgsDifferInContentOnly | api/golang/core/lib/binding_constructors/binding_constructors.go:262-282 | the local and the remote form of a module request differ in their content and nothing else |
| Bindings.NewKurtosisInstructionPosition | api/golang/core/lib/binding_constructors/binding_constructors.go:373-379 | the position keeps file name, line and column |
| Bindings.NewKurtosisInstructionKwarg | api/golang/core/lib/binding_constructors/binding_constructors.go:381-387 | a keyword argument has its name set and keeps value and representative flag |
| Bindings.NewKurtosisInstructionArg | api/golang/core/lib/binding_constructors/binding_constructors.go:389-395 | a positional argument has no name and keeps value and representative flag |
| Bindings.KwargAndArgDifferInNameOnly | api/golang/core/lib/binding_constructors/binding_constructors.go:381-395 | a keyword and a positional argument with the same value differ exactly in the name |
| Bindings.NewKurtosisInstruction | api/golang/core/lib/binding_constructors/binding_constructors.go:353-361 | a new instruction stores name, position, executable text and arguments, and has no result |
| Bindings.AddResultToKurtosisInstruction | api/golang/core/lib/binding_constructors/binding_constructors.go:363-371 | the result is set and every other field is copied |
| Bindings.AddResultChangesOnlyTheResult | api/golang/core/lib/binding_constructors/binding_constructors.go:363-371 | adding a result is the same record with only the result replaced |
| Bindings.AddResultLastWins | api/golang/core/lib/binding_constructors/binding_constructors.go:363-371 | results do not accumulate: the last one added is kept, and adding back the old one restores the instruction |
| Bindings.AddResultForgetsTheOldResult | api/golang/core/lib/binding_constructors/binding_constructors.go:363-371 | two instructions that differ only in their results are equal once a result is added |
| Bindings.NewKurtosisInterpretationError | api/golang/core/lib/binding_constructors/binding_constructors.go:329-333 | the error carries the message |
| Bindings.NewKurtosisValidationErrors | api/golang/core/lib/binding_constructors/binding_constructors.go:335-339 | the list carries the errors, in order |
| Bindings.NewKurtosisValidationError | api/golang/core/lib/binding_constructors/binding_constructors.go:341-345 | the error carries the message |
| Bindings.NewKurtosisExecutionError | api/golang/core/lib/binding_constructors/binding_constructors.go:347-351 | the error carries the message |
| Bindings.NewExecuteStartosisResponse | api/golang/core/lib/binding_constructors/binding_constructors.go:288-293 | a success response carries the instructions and no error |
| Bindings.NewExecuteStartosisResponseFromInterpretationError | api/golang/core/lib/binding_constructors/binding_constructors.go:295-304 | a response for an interpretation error carries no instructions |
| Bindings.NewExecuteStartosisResponseFromValidationErrors | api/golang/core/lib/binding_constructors/binding_constructors.go:306-315 | a response for validation errors carries no instructions |
| Bindings.NewExecuteStartosisResponseFromExecutionError | api/golang/core/lib/binding_constructors/binding_constructors.go:317-327 | a response for an execution error carries exactly the instructions passed in, and the error |
| Bindings.ConstructedResponsesAreWellFormed | api/golang/core/lib/binding_constructors/binding_constructors.go:288-327 | every response the four constructors build is well formed: only success and execution failure carry instructions |
| Bindings.InstructionsOnlyFromExecution | api/golang/core/lib/binding_constructors/binding_constructors.go:288-327 | a well-formed response that carries instructions either succeeded or failed while executing |
| Bindings.NewKurtosisExecutionResponseLineFromInstruction | api/golang/core/lib/binding_constructors/binding_constructors.go:397-403 | the line carries the instruction |
| Bindings.NewKurtosisExecutionResponseLineFromInterpretationError | api/golang/core/lib/binding_constructors/binding_constructors.go:405-415 | the line carries the interpretation error |
| Bindings.NewKurtosisExecutionResponseLineFromValidationError | api/golang/core/lib/binding_constructors/binding_constructors.go:417-427 | the line carries the validation error |
| Bindings.NewKurtosisExecutionResponseLineFromExecutionError | api/golang/core/lib/binding_constructors/binding_constructors.go:429-439 | the line carries the execution error |
| Ports.TransformApiPortToPortSpec | core/server/api_container/server/api_container_service.go:695-720 | a number above 65535 is rejected; a protocol outside the table is rejected; otherwise the result is the port spec check's verdict on the same number and the mapped protocol |
| Ports.TransformPortSpecToApiPort | core/server/api_container/server/api_container_service.go:722-740 | the table is searched for the spec protocol; it succeeds exactly when some API protocol maps to it, and then keeps the number and gives that protocol |
| Ports.ProtocolTableIsOneToOne | core/server/api_container/server/api_container_service.go:47-52 | no two API protocols map to the same spec protocol, and every known spec protocol is mapped to |
| Ports.ApiPortRoundTrip | core/server/api_container/server/api_container_service.go:695-740 | converting an API port to a port spec and back gives the same port |
| Ports.PortSpecRoundTrip | core/server/api_container/server/api_container_service.go:695-740 | converting a valid port spec to an API port and back gives the same port spec |
| Ports.CheckPrivateAndPublicPortsAreOneToOne | core/server/api_container/server/api_container_service.go:758-769 | nil exactly when both maps have the same size and every private id has a public port; different sizes give the length error; otherwise the error names a private id with no public port |
| Ports.OneToOneIffSameIds | core/server/api_container/server/api_container_service.go:754-757 | being one to one in that sense means having exactly the same port ids |
| Ports.TransformApiPortsMap | core/server/api_container/server/api_container_service.go:666-673 | succeeds exactly when every port converts, with the converted ports under the same ids; otherwise names a port that does not convert |
| Ports.ConvertAPIPortsToPortSpecs | core/server/api_container/server/api_container_service.go:658-693 | succeeds exactly when all private ports convert, the one-to-one check passes or there are no public ports, and all public ports convert; then returns both converted maps; each failure returns no maps |
| Ports.TransformPortSpecMapToApiPortsMap | core/server/api_container/server/api_container_service.go:742-752 | keeps the key set exactly, with each port converted, or fails naming a port that does not convert |
| Ports.PortMapRoundTrip | core/server/api_container/server/api_container_service.go:666-752 | converting a port map to port specs and back gives the same ports under the same ids |
| Ports.GetServices | core/server/api_container/server/api_container_service.go:545-565 | returns the information of exactly the selected services, or fails naming a selected service whose information could not be read |
| Ports.SelectedServicesFilter | core/server/api_container/server/api_container_service.go:549-555 | a nil or empty filter selects every service; otherwise only the services the filter names |
| Ports.ExecCommand | core/server/api_container/server/api_container_service.go:467-487 | a failed exec is an error; log output longer than 10·1024·1024 bytes is refused; otherwise exit code and output are returned unchanged |
| Ports.ExecCommandLimitIsInclusive | core/server/api_container/server/api_container_service.go:40 | output of exactly 10·1024·1024 bytes is accepted and one byte more is refused |
| KurtosisConfig.ValidateCluster | cli/cli/kurtosis_config/v1/kurtosis_config_v1.go:134-163 | nil exactly for a docker cluster, or a Kubernetes one whose config sets name, storage class and size; a nil type, an unknown type and a missing config each give their own error |
| KurtosisConfig.ValidateFields | cli/cli/kurtosis_config/v1/kurtosis_config_v1.go:60-75 | the metrics choice, the version (present and 1) and a non-empty cluster map are required, checked in that order |
| KurtosisConfig.DefaultDockerCluster | cli/cli/kurtosis_config/v1/kurtosis_config_v1.go:167-172 | the default docker cluster is valid, of docker type, and has no Kubernetes settings |
| KurtosisConfig.DefaultMinikubeCluster | cli/cli/kurtosis_config/v1/kurtosis_config_v1.go:174-193 | the default Minikube cluster is a valid Kubernetes cluster |
| KurtosisConfig.DefaultConfig | cli/cli/kurtosis_config/v1/kurtosis_config_v1.go:47-58 | the default configuration is version 1, leaves the metrics choice unset, and holds exactly one cluster, the valid docker cluster |
| KurtosisConfig.OverlayKubernetes | cli/cli/kurtosis_config/v1/kurtosis_config_v1.go:120-132 | corrected Kubernetes overlay: absent exactly when there is no base and the override sets nothing; each setting is the override's when set and the base's otherwise |
| KurtosisConfig.OverlayCluster | cli/cli/kurtosis_config/v1/kurtosis_config_v1.go:108-118 | corrected cluster overlay: a set type replaces the base's and an unset one keeps it; without Kubernetes overrides the base's settings stay; overrides that set something always leave Kubernetes settings, even on a base without them |
| KurtosisConfig.OverlayConfig | cli/cli/kurtosis_config/v1/kurtosis_config_v1.go:84-106 | corrected configuration overlay: the version never changes; override clusters give a cluster map holding exactly the base's ids and the overrides' ids, even when the base has no map |
| KurtosisConfig.OverlayClusterAsWritten | cli/cli/kurtosis_config/v1/kurtosis_config_v1.go:108-132 | as written, the cluster overlay panics exactly when the override sets a Kubernetes setting on a cluster that has none |
| KurtosisConfig.OverlayConfigAsWritten | cli/cli/kurtosis_config/v1/kurtosis_config_v1.go:84-132 | as written, the configuration overlay panics exactly when override clusters meet a base without a cluster map, or a shared cluster without Kubernetes settings that the override sets |
| KurtosisConfig.KurtosisConfigV1.constructor | cli/cli/kurtosis_config/v1/kurtosis_config_v1.go:26-33 | the configuration holds the given fields |
| KurtosisConfig.KurtosisConfigV1.Validate | cli/cli/kurtosis_config/v1/kurtosis_config_v1.go:60-82 | nil exactly for a valid configuration; a field error comes first; otherwise the error names a cluster that fails its own validation |
| KurtosisConfig.KurtosisConfigV1.OverlayOverrides | cli/cli/kurtosis_config/v1/kurtosis_config_v1.go:84-106 | updates the configuration in place to the corrected overlay of its old fields and returns it |
| KurtosisConfig.OverlayClusterMap | cli/cli/kurtosis_config/v1/kurtosis_config_v1.go:89-104 | the loop over the override clusters builds exactly the overlaid cluster map |
| KurtosisConfig.OverlayConfigFields | cli/cli/kurtosis_config/v1/kurtosis_config_v1.go:84-106 | a set metrics choice replaces the base and an unset one keeps it; the version never changes; absent override clusters keep the base's |
| KurtosisConfig.OverlayClustersEntries | cli/cli/kurtosis_config/v1/kurtosis_config_v1.go:89-104 | clusters in both maps are merged field by field, new ones inserted, and the others left unchanged |
| KurtosisConfig.OverlayConfigIdempotent | cli/cli/kurtosis_config/v1/kurtosis_config_v1.go:84-132 | overlaying the same overrides twice is the same as once |
| KurtosisConfig.OverlayClusterIdempotent | cli/cli/kurtosis_config/v1/kurtosis_config_v1.go:108-132 | the same for one cluster |
| KurtosisConfig.OverlayClusterOnItself | cli/cli/kurtosis_config/v1/kurtosis_config_v1.go:108-132 | a cluster overlaid with itself is unchanged |
| KurtosisConfig.OverlayNothing | cli/cli/kurtosis_config/v1/kurtosis_config_v1.go:84-106 | overrides that set nothing change nothing |
| KurtosisConfig.OverlayOntoNoClusters | cli/cli/kurtosis_config/v1/kurtosis_config_v1.go:89-104 | corrected: a base without a cluster map takes the override clusters as they are |
| KurtosisConfig.OverlayKubernetesOntoNothing | cli/cli/kurtosis_config/v1/kurtosis_config_v1.go:120-132 | corrected: with no base config, the override's settings are taken as they are once one is set, and nothing is created otherwise |
| KurtosisConfig.OverlayKubernetesAsWritten | cli/cli/kurtosis_config/v1/kurtosis_config_v1.go:120-132 | as written: with a base config it is the corrected overlay |
| KurtosisConfig.AsWrittenAgreesWhenItSucceeds | cli/cli/kurtosis_config/v1/kurtosis_config_v1.go:84-132 | wherever the overlay as written does not panic, it gives the corrected overlay |
| KurtosisConfig.ClusterAsWrittenAgrees | cli/cli/kurtosis_config/v1/kurtosis_config_v1.go:108-132 | the same for one cluster |
| KurtosisConfig.MissingBaseClustersPanics | cli/cli/kurtosis_config/v1/kurtosis_config_v1.go:89-90 | a base with no cluster map overlaid with clusters panics as written |
| KurtosisConfig.MissingBaseKubernetesConfigPanics | cli/cli/kurtosis_config/v1/kurtosis_config_v1.go:113-123 | the default docker cluster overlaid with a Kubernetes config that sets a field panics as written |
| KurtosisConfig.DefaultConfigNeedsMetricsChoice | cli/cli/kurtosis_config/v1/kurtosis_config_v1.go:47-58 | the default configuration fails validation only for its missing metrics choice, and passes once either choice is set |
| KurtosisConfig.DefaultMinikubeClusterValid | cli/cli/kurtosis_config/v1/kurtosis_config_v1.go:174-193 | the default Minikube cluster is a valid Kubernetes cluster |
| KurtosisConfig.KubernetesClusterNeedsAllSettings | cli/cli/kurtosis_config/v1/kurtosis_config_v1.go:144-160 | a Kubernetes cluster is valid exactly when it has a config with all three settings |
| KurtosisConfig.MetricsOverlayKeepsValidity | cli/cli/kurtosis_config/v1/kurtosis_config_v1.go:84-88 | a valid configuration stays valid after an overlay that sets only the metrics choice |
| PromptDisplayer.Contains | cli/cli/helpers/prompt_displayer/prompt_displayer.go:72-80 | true exactly when some input equals the string up to case |
| PromptDisplayer.ValidInputsListString | cli/cli/helpers/prompt_displayer/prompt_displayer.go:82-90 | the inputs in order, joined with `','` |
| PromptDisplayer.ValidateConfirmationInput | cli/cli/helpers/prompt_displayer/prompt_displayer.go:53-66 | accepts exactly y, yes, n and no in any case; any other input gives an error listing `y','yes` and `n','no` |
| PromptDisplayer.IsConfirmationInput | cli/cli/helpers/prompt_displayer/prompt_displayer.go:68-70 | true exactly for y or yes in any case |
| PromptDisplayer.DisplayConfirmationPromptAndGetBooleanResult | cli/cli/helpers/prompt_displayer/prompt_displayer.go:27-48 | the prompt shows the label and the default; a failed prompt is an error; otherwise the answer is true exactly when the input confirms |
| PromptDisplayer.DecisionInputs | cli/cli/helpers/prompt_displayer/prompt_displayer.go:10-24 | up to case, the confirm inputs are y and yes, the reject inputs n and no, and all four are valid |
| PromptDisplayer.ListStrings | cli/cli/helpers/prompt_displayer/prompt_displayer.go:56-62 | the error lists `y','yes` and `n','no` |
| PromptDisplayer.ConfirmationsAreValid | cli/cli/helpers/prompt_displayer/prompt_displayer.go:22-24 | every confirming input is valid, and no input both confirms and rejects |
| PromptDisplayer.DefaultIsADecision | cli/cli/helpers/prompt_displayer/prompt_displayer.go:28-31 | the default shown is "yes" when true and "no" otherwise; it is valid and confirms exactly when the default is true |
| PromptDisplayer.CaseIsIgnored | cli/cli/helpers/prompt_displayer/prompt_displayer.go:72-80 | every input is classified as its lower-case form is, against any list of inputs; so "YES" confirms and "No" rejects |
| AccessController.EncryptedSessionCache.LoadSession | core/initializer/access_controller/access_controller.go:111-112 | a session loads exactly when one is stored and the read succeeds |
| AccessController.EncryptedSessionCache.SaveSession | core/initializer/access_controller/access_controller.go:255-258 | a successful save replaces the stored session; a failed one keeps the old one |
| AccessController.RefreshSession | core/initializer/access_controller/access_controller.go:245-262 | a failed login is an error and the cache is kept; a successful one returns the new token and caches it unless the save fails, which only warns |
| AccessController.GetTokenStr | core/initializer/access_controller/access_controller.go:110-129 | the cached token when a session loads, with no login; otherwise a fresh login's token, or an error when that login fails |
| AccessController.CheckTokenExpirationWithCache | core/initializer/access_controller/access_controller.go:137-189 | the result is the expiration decision; a login happens exactly when the token parses and has expired, and only then can the cache change |
| AccessController.CheckTokenExpiration | core/initializer/access_controller/access_controller.go:137-189 | only a token that parses is accepted; a token that has not expired is kept whatever a refresh would give; the accepted claims are either the token's own, at an instant no later than the end of its five-day grace period, or, once it has expired, those of the new token |
| AccessController.ExpirationCases | core/initializer/access_controller/access_controller.go:143-188 | a token not yet expired is accepted as is; an expired one with a failed refresh is refused past the five-day grace period and kept within it; with a new token, that token's claims are returned |
| AccessController.GracePeriodBoundary | core/initializer/access_controller/access_controller.go:19-22 | the grace period is five days and includes its last instant |
| AccessController.ExpirationErrors | core/initializer/access_controller/access_controller.go:137-189 | a failed check fails because the token is invalid, it expired beyond the grace period with no new token, or the new token is invalid |
| AccessController.VerifyRequiredPerm | core/initializer/access_controller/access_controller.go:264-274 | nil exactly when the required permission is among the token's; the error lists the token's permissions |
| AccessController.GetPubKeyFromKurtosisToken | core/initializer/access_controller/access_controller.go:212-242 | succeeds exactly when the token is RSA-signed and names, as a string, a known key whose certificate text parses; a non-RSA token and a missing key id each give their own error |
| AccessController.PemTextFraming | core/initializer/access_controller/access_controller.go:233-234 | the certificate text is the header line, the key, and the footer line |
| AccessController.RunDeveloperMachineAuthFlow | core/initializer/access_controller/access_controller.go:50-83 | the token comes from the cache or a login, passes the expiration check, and must carry the execution permission; without any token it is an error; the cache ends up holding the second login's session when the token had expired and that login and its save worked, otherwise the first login's session when one was needed and its save worked, otherwise the session it held before |
| AccessController.RunCIAuthFlow | core/initializer/access_controller/access_controller.go:89-104 | a rejected credential login and an invalid token are errors; it succeeds exactly when the token carries the execution permission |

## Left out

- Starlark evaluation is not modelled: parsing, name resolution, structs and the texts of evaluation errors. A script is the sequence of statements it executes, with loops and function calls unrolled.
- Syntax errors (the test at startosis_interpreter_test.go lines 87-106) are not modelled: the constructor of that error is not part of this model.
- Interpreter: a module with undefined names fails its load with `cannot load <locator>: undefined: <first name>`; no test fixes this text.
- Interpreter: the position and arguments of queued instructions are opaque values, not computed from the script.
- The interpreter, the executor and the `wait` instruction are modelled from their tests, because their sources are not part of this model.
- InstructionRender.GetCanonicalInstruction: values are put between double quotes as they are; the escaping of `"`, `\` and control characters in Starlark string values is not modelled, because the rendering code is not part of this model and its test uses plain identifiers.
- InstructionRender.WaitString: the same escaping is not modelled, for the same reason.
- Executor: an executed instruction's optional result string is not attached to its serialized record; the executor's test builds its expected records from the canonical text alone, with instructions that return no result.
- The executor's stream writes and the text of the propagation site in its error message are not modelled; the site is a parameter.
- The images validator runs its fetches concurrently; here it is a sequential loop over the set of images, with the errors stated as a multiset.
- The backend's image fetch is a parameter.
- The validator environment's source is not part of this model; it is reduced to its set of required images.
- Module provider: `parseGitURL` is not part of this model and is a parameter.
- Module provider: git clones, archive unpacking and every `os` call that can fail for reasons outside the program take their outcome as a parameter.
- Module provider: the deferred removal of the temporary clone directory and of the temporary archive are assumed to succeed.
- Module provider: the temporary archive lives outside the modelled disk.
- Module provider: `path.Join` cleaning is not modelled; paths are sequences of names.
- Module provider: renaming onto an existing path is a failure.
- ModuleProvider.GitModuleContentProvider.AtomicClone: requires that the modules directory and the temporary directory lie apart, which callers must ensure since the constructor accepts any two directories.
- ModuleProvider.AuthorNotDirectory: the code wraps a nil error there, which is modelled as an error with no cause.
- Binding constructors other than the Startosis ones (binding_constructors.go lines 22-245 and 447-694) are left out: they copy their arguments into records.
- API container: the HTTP polling, file-artifact handlers, `StartServices`, `Repartition` and the other forwarding handlers are left out: they are network, timing or calls into the unseen service network.
- API container: `port_spec.NewPortSpec` is not part of this model; its verdict is a parameter.
- API container: protobuf enums are open, so unknown protocol values are modelled.
- API container: `getServiceInfo` and the service network's exec outcome are parameters.
- Ports.CheckPrivateAndPublicPortsAreOneToOne: which missing id is reported follows Go's unspecified map order, so the model only says that the reported id is missing.
- Ports.TransformApiPortsMap, Ports.TransformPortSpecMapToApiPortsMap, Ports.GetServices: these likewise name some failing id, not a particular one.
- Configuration: clusters and Kubernetes configs are values, so the aliasing between the base and the override records that the Go pointers allow is not modelled.
- Configuration: nil entries inside the cluster map are not modelled.
- Configuration: the configuration version constant is taken to be 1, since the version enumeration is not part of this model.
- Configuration: the overlays' error results are always nil in the code, so they are not modelled.
- Prompt: `strings.ToLower` is modelled on ASCII letters only.
- Prompt: showing the prompt and reading the answer (promptui) is a parameter.
- Access controller: JWT parsing and signature checks are a parser parameter.
- Access controller: Auth0 logins are outcome parameters.
- Access controller: sleeps, warnings and logging are left out.
- Access controller: the 64-bit overflow of time arithmetic is not modelled.
- Access controller: the Auth0 constants (execution scope, public keys) are not part of this model and are parameters.
- Access controller: the PEM parser is a parameter.
- AccessController.VerifyRequiredPerm: the error's text names the execution scope whatever permission was asked for; the model keeps only the token's permissions in the error.

## Findings

| source | as written | input that shows it | evidently intended | confidence | as-written member | corrected member |
|---|---|---|---|---|---|---|
| cli/cli/kurtosis_config/v1/kurtosis_config_v1.go:89-90 | the base cluster map is dereferenced whenever the overrides carry clusters | a base configuration with no cluster map, overlaid with a cluster map: nil dereference | the override clusters become the cluster map | not executed | KurtosisConfig.MissingBaseClustersPanics | KurtosisConfig.OverlayOntoNoClusters |
| cli/cli/kurtosis_config/v1/kurtosis_config_v1.go:113-123 | the base cluster's Kubernetes config is written through even when the cluster has none | the default docker cluster (no config) overlaid with a config that sets a cluster name: nil dereference | the override's settings become the cluster's config | not executed | KurtosisConfig.MissingBaseKubernetesConfigPanics | KurtosisConfig.OverlayKubernetesOntoNothing |
