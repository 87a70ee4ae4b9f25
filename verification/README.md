# Tool-execution bridge of the Python tools extension template, in Dafny

This project models the decision logic of a VS Code extension template that
wraps a Python tool behind a language server:

- **Client side** (`src/common/settings.ts`, `src/common/server.ts`): how the
  per-workspace settings records are built from configuration with `??`
  defaults, how a global record is resolved through `getGlobalValue`, which
  configuration changes restart the server, which workspace folder is the
  project root, and the command line and environment the server is launched
  with.
- **Server side** (`bundled/tool/server.py`): the `WORKSPACE_SETTINGS` table
  (batch upsert keyed by filesystem path, insertion-ordered), the lookup that
  resolves a document to the settings of its nearest registered ancestor
  folder, the trace level chosen in `initialize`, and the choice between the
  three ways of running the tool (`PathExec` for an explicit `path` setting,
  `RpcDelegate` for another interpreter, `InProcessModule` otherwise)
  together with the argument vector handed to it.
- **Worker** (`bundled/tool/runner.py`): the loop of the worker process that
  runs the tool under another interpreter, modelled over the sequence of
  received messages. It produces the sequence of responses sent, the number of
  messages consumed and how the loop ended.

Everything is immutable data and pure functions, plus four methods:
`GetProjectRoot`, `SelectTrace` and `GetExtensionSettings` follow the
source's loops, and `CreateServer` calls `GetProjectRoot`. Paths are sequences of components. The root
is the empty sequence and is its own parent. Host services are explicit
inputs: the configuration store, interpreter discovery, the process
environment, `utils.run_module`, `utils.is_current_interpreter`,
`utils.is_stdlib_file`, `uris.to_fs_path` and the traceback text.

Modules: `Wrappers` (Option/Result), `Paths`, `Host` (URIs, workspace folders,
JavaScript truthiness), `ClientSettings`, `ClientServer`, `WorkspaceStore`,
`TraceSelection`, `ExecutionStrategy`, `WorkerLoop`.

Behaviour of the code that the model keeps:

- A `run` response carries `error` when stderr is non-empty and `result` when
  stdout is non-empty. Both may be present at once.
- A settings batch upserts into the table. Keys missing from the batch keep
  their records; the table is not replaced wholesale.
- The worker reads `module`, `argv`, `useStdin`, `cwd` and `source` from the
  top level of the message, not from a nested `params` object. A missing one
  of the first four raises inside the `try`, so it becomes an error response.
  A missing `method`, or a missing `id` on a `run`, raises outside it and ends
  the loop.

Observation: `initialize` reads `setting["trace"]` on every entry up to the
first `"debug"`. The `ISettings` records built by `getWorkspaceSettings` have
no `trace` field. The model therefore carries `trace` as an optional key, and
`SelectTrace` fails with `MissingTrace` on any entry that lacks it.

## Model

| member | source | states |
|---|---|---|
| Paths.Parent | bundled/tool/server.py:196-199 | the parent is a prefix of the path, one component shorter; only the root is its own parent |
| ClientSettings.ChooseInterpreter | src/common/settings.ts:42-48 | no interpreter unless requested; else the configured one if non-empty, else the host's interpreter path, else `[]` — never undefined |
| ClientSettings.GetWorkspaceSettings | src/common/settings.ts:35-60 | `cwd` is the folder's fsPath and `workspace` its URI text; `args`/`path` default to `[]`, `importStrategy` to `fromEnvironment`, `showNotifications` to `off`, only when the value is missing |
| ClientSettings.DetailsOnlyAFallback | src/common/settings.ts:43-48 | when no interpreter is requested or a non-empty one is configured, the host's interpreter details do not affect the record |
| ClientSettings.GetGlobalValue | src/common/settings.ts:62-65 | the user-level value if defined, else the declared default if defined, else the caller's fallback |
| ClientSettings.GlobalValueIsFirstPresent | src/common/settings.ts:62-65 | `getGlobalValue` equals the first present value of the list [globalValue, defaultValue, fallback] |
| ClientSettings.GetGlobalSettings | src/common/settings.ts:67-88 | `cwd` and `workspace` are the process cwd; every field is resolved through `getGlobalValue` with the same defaults as the workspace record |
| ClientSettings.GetExtensionSettings | src/common/settings.ts:18-28 | exactly one record per workspace folder, the i-th built from the i-th folder |
| ClientSettings.IncludesTrue | src/common/settings.ts:98-99 | `includes(true)` holds iff some flag is true |
| ClientSettings.CheckIfConfigurationChanged | src/common/settings.ts:90-100 | true iff one of the five watched keys is affected |
| ClientSettings.ConfigurationChangedIff | src/common/settings.ts:90-100 | the decision is the disjunction of `affectsConfiguration` over `{ns}.args`, `.path`, `.interpreter`, `.importStrategy`, `.showNotifications` |
| ClientSettings.OnlyWatchedKeysMatter | src/common/settings.ts:90-100 | two events that agree on the five watched keys get the same answer |
| ClientServer.GetProjectRoot | src/common/server.ts:22-37 | fails on an empty list; one folder is returned as is; otherwise the result is a listed folder whose fsPath is no longer than any other, and every earlier folder is strictly longer (first wins ties) |
| ClientServer.DebugEnv | src/common/server.ts:50-56 | keys other than the two debug keys are untouched; `DEBUGPY_PATH` is set to the debugger path and `USE_DEBUGPY` left unchanged when `USE_DEBUGPY` is set and a debugger exists; otherwise `USE_DEBUGPY` becomes `'False'` |
| ClientServer.CreateServer | src/common/server.ts:39-62 | the command is `interpreter[0]` (undefined for an empty list); the args are the rest of the interpreter then the server script, the debug script unless `USE_DEBUGPY` is `'False'`; the cwd is the project root's fsPath (the first folder of shortest fsPath); an empty workspace list fails |
| ClientServer.DebugScriptIff | src/common/server.ts:50-61 | the debug script is chosen iff `USE_DEBUGPY` was set to something other than `'False'` and a debugger path exists |
| WorkspaceStore.Put | bundled/tool/server.py:183-186 | dictionary assignment keeps the table well-formed and a new key goes last in iteration order |
| WorkspaceStore.Update | bundled/tool/server.py:180-186 | an update keeps the table well-formed (one record per key, `workspaceFS` equals its key), its records are those of the successive assignments, and the iteration order is the old order followed by the batch's new keys in the order they are first assigned (`NewKeys`) |
| WorkspaceStore.UpdateOrder | bundled/tool/server.py:180-186 | existing keys keep their places in the iteration order, and after a non-empty batch is loaded into an empty table the first key in iteration order is that of the batch's first entry, which `_run_tool` then uses |
| WorkspaceStore.UpdateKeys | bundled/tool/server.py:180-186 | after an update the keys are exactly the old keys plus `to_fs_path` of each batch entry's workspace |
| WorkspaceStore.UpdateLeavesOthers | bundled/tool/server.py:180-186 | a key the batch does not mention keeps its record |
| WorkspaceStore.UpdateLastWins | bundled/tool/server.py:180-186 | each entry not overwritten by a later one with the same key is stored unchanged with `workspaceFS` set to its key: the last entry for a key wins |
| WorkspaceStore.WalkUp | bundled/tool/server.py:193-199 | the walk stops at an ancestor-or-self that is a registered path or the root, and no longer ancestor is registered |
| WorkspaceStore.FirstRecord | bundled/tool/server.py:190-191 | the first record in insertion order, or an `IndexError` exactly when the table is empty |
| WorkspaceStore.GetSettingsByDocument | bundled/tool/server.py:189-201 | one stored record, no document or no path: the first record (IndexError on an empty table); otherwise the record of the nearest registered ancestor-or-self of the document path, root included, or `KeyError` when none is registered |
| TraceSelection.SelectTrace | bundled/tool/server.py:159-168 | Verbose iff some entry is `"debug"` and all before it have a trace; Off iff every entry is `"off"` (so an empty batch gives Off); Messages iff none is `"debug"` and some is not `"off"`; a missing trace before any `"debug"` fails at its position |
| ExecutionStrategy.Select | bundled/tool/server.py:232-248 | PathExec iff `path` is non-empty; RpcDelegate iff `path` is empty and the first interpreter is not the running one; InProcessModule otherwise |
| ExecutionStrategy.PathOverridesInterpreter | bundled/tool/server.py:234-237 | with a non-empty `path`, neither the interpreter setting nor the current-interpreter test changes the strategy, and argv starts with the path |
| ExecutionStrategy.Plan | bundled/tool/server.py:265-302 | the call matches the strategy; cwd (and the RPC workspace) is `workspaceFS`; RPC forwards the interpreter; non-path calls run the tool module |
| ExecutionStrategy.ReplaceCrlf | bundled/tool/server.py:273 | replacing CR LF by LF never lengthens the text |
| ExecutionStrategy.ReplaceCrlfDropsCr | bundled/tool/server.py:273 | the replacement equals deleting every CR that directly precedes an LF |
| ExecutionStrategy.ReplaceCrlfOnlyDropsCr | bundled/tool/server.py:273 | apart from CRs the text is unchanged by the replacement |
| ExecutionStrategy.RunToolOnDocument | bundled/tool/server.py:207-307 | notebook-cell URIs and standard-library files give None, and only they; otherwise it fails exactly when the lookup fails, with the lookup's own error, else yields a call with the selected strategy, cwd `workspaceFS`, argv exactly the head (path or tool module) followed by `TOOL_ARGS` and the settings' `args`, the document text (CR LF normalised for PathExec), the RPC call forwarding the interpreter and `workspaceFS`, and non-path calls naming the tool module |
| ExecutionStrategy.RunTool | bundled/tool/server.py:310-370 | fails exactly on an empty table, and then with `IndexError`; otherwise the first record's strategy, argv = head then the extra arguments, stdin always used, no source; the RPC call forwards the interpreter and `workspaceFS`, non-path calls name the tool module |
| WorkerLoop.RequestOf | bundled/tool/runner.py:36-42 | module, argv, useStdin and cwd are forwarded verbatim and `source` only when present; the first missing required key, in the order module, argv, useStdin, cwd, is reported |
| WorkerLoop.Execute | bundled/tool/runner.py:34-44 | a completed run gives its result; a raised run or a missing key gives empty stdout and the traceback as stderr |
| WorkerLoop.Respond | bundled/tool/runner.py:46-51 | the response carries the request's id; `error` is present iff stderr is non-empty and then equals it; `result` likewise for stdout |
| WorkerLoop.Loop | bundled/tool/runner.py:21-53 | never consumes more messages than received nor answers more than consumed; it ends by input exhaustion exactly when all were consumed and the last did not stop it |
| WorkerLoop.LoopCharacterization | bundled/tool/runner.py:21-53 | the loop consumes up to and including the first `exit`/malformed message; its responses are exactly one per `run` before that, in order, each with its own id and result; the stopping message decides the ending |
| WorkerLoop.ExitIsFinal | bundled/tool/runner.py:25-28 | once `exit` is received, later messages change nothing: no further message is consumed or answered |
| WorkerLoop.FaultIsContained | bundled/tool/runner.py:35-53 | a failing tool yields an error response with the traceback and no result, and the loop goes on serving the following messages |

## Left out

- Message framing and request-id correlation (`jsonrpc.create_json_rpc`, `run_over_json_rpc`, `shutdown_json_rpc`): `jsonrpc` is not part of this model. The worker's receive and send are its input and output sequences; the RPC strategy is modelled only as the `RunOverRpc` call it makes.
- `utils.run_module`, `utils.run_path`, `utils.is_current_interpreter`, `utils.is_stdlib_file`, `uris.to_fs_path` and `traceback.format_exc`: their source is not part of this model, so they are function parameters. They are treated as deterministic.
- `utils.substitute_attr` (bundled/tool/server.py:295, 362; bundled/tool/runner.py:34): assumed to restore `sys.path` after each run, so the model carries no `sys.path` state.
- WorkerLoop.Loop: when the input runs out, the model stops with `InputEnded`; what `receive_data` does on a closed stream is defined in `jsonrpc`, which is not modelled.
- Logging (`show_message_log`, `traceInfo`), the LSP feature handlers (`did_open`, `did_save`, `did_close`, `formatting`), the debugpy attach block and the worker-pool size `MAX_WORKERS`: no decision logic, or concurrency the model does not cover.
- TraceSelection.SelectTrace: the `isinstance(LSP_SERVER.lsp, ...)` guard is taken as true, and the assignment to `LSP_SERVER.lsp.trace` is represented by the returned level.
- The `use_stdin` branch of `_run_tool_on_document` appends nothing (`argv += []`), so it is not represented.
- `LanguageClient` construction, `documentSelector`, `restartServer`, `src/extension.ts`, `noxfile.py` and the placeholder test: editor plumbing, build tooling, or no behaviour to model.
- ClientServer.CreateServer: `process.env` is mutated in place by the source; the model returns the new environment instead. `getDebuggerPath` and the script-path constants are inputs.
- Asynchronous calls (`await getInterpreterDetails(...)`) are inputs computed beforehand; `getInterpreterFromSetting` is the `configured` input.
- Path normalisation: `str(pathlib.Path(...))` and `to_fs_path` are assumed to agree, so keys and document paths are compared as component sequences.
- ClientServer.GetProjectRoot: JavaScript string length counts UTF-16 code units; the model counts characters.
- WorkerLoop.Execute: `run_module` is assumed to raise only `Exception` subclasses, which the worker's `except Exception` catches; a `SystemExit` or `KeyboardInterrupt` from the tool would end the worker, and the model does not represent that.
- WorkerLoop.Message: a JSON-RPC id may be a number or a string; the model uses integers.
