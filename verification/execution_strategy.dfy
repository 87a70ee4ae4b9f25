/** How the server runs the tool (bundled/tool/server.py,
    `_run_tool_on_document` and `_run_tool`): which of three strategies is
    used, and the invocation it is handed. The invocation itself is not run. */
module ExecutionStrategy {
  import opened Wrappers
  import opened Paths
  import ClientSettings
  import opened WorkspaceStore

  /** `TOOL_MODULE` and `TOOL_ARGS` as the template ships them. */
  const ToolModule := "<pytool>"
  const ToolArgs: seq<string> := []

  const NotebookCellScheme := "vscode-notebook-cell"

  /** The three ways of running the tool. */
  datatype Strategy = PathExec | RpcDelegate | InProcessModule

  /** The call the server makes: `utils.run_path`,
      `jsonrpc.run_over_json_rpc`, or `utils.run_module` inside a saved
      `sys.path`. */
  datatype Invocation =
    | RunPath(argv: seq<string>, useStdin: bool, cwd: Path, source: Option<string>)
    | RunOverRpc(workspace: Path, interpreter: seq<string>, toolModule: string, argv: seq<string>,
                 useStdin: bool, cwd: Path, source: Option<string>)
    | RunModule(toolModule: string, argv: seq<string>, useStdin: bool, cwd: Path, source: Option<string>)
  {
    function Kind(): Strategy {
      match this
      case RunPath(_, _, _, _) => PathExec
      case RunOverRpc(_, _, _, _, _, _, _) => RpcDelegate
      case RunModule(_, _, _, _, _) => InProcessModule
    }
  }

  /** The strategy decision, first match wins: an explicit `path` setting;
      else an interpreter that is not the running one; else in-process.
      `isCurrentInterpreter` stands for `utils.is_current_interpreter`. */
  function Select(s: ClientSettings.ISettings, isCurrentInterpreter: string -> bool): (st: Strategy)
    ensures st == PathExec <==> |s.path| > 0
    ensures st == RpcDelegate <==> |s.path| == 0 && |s.interpreter| > 0 && !isCurrentInterpreter(s.interpreter[0])
    ensures st == InProcessModule <==>
              |s.path| == 0 && (|s.interpreter| == 0 || isCurrentInterpreter(s.interpreter[0]))
  {
    if |s.path| > 0 then PathExec
    else if |s.interpreter| > 0 && !isCurrentInterpreter(s.interpreter[0]) then RpcDelegate
    else InProcessModule
  }

  /** The head of the argument vector: the `path` setting for an executable,
      the tool module otherwise. */
  function BaseArgv(st: Strategy, s: ClientSettings.ISettings): seq<string> {
    if st == PathExec then s.path else [ToolModule]
  }

  /** Builds the call for a strategy from the stored record. */
  function Plan(rec: Record, isCurrentInterpreter: string -> bool, argv: seq<string>, useStdin: bool,
                source: Option<string>, normalizedSource: Option<string>): (inv: Invocation)
    ensures inv.Kind() == Select(rec.setting.fields, isCurrentInterpreter)
    ensures inv.cwd == rec.workspaceFS && inv.argv == argv && inv.useStdin == useStdin
    ensures inv.RunPath? ==> inv.source == normalizedSource
    ensures !inv.RunPath? ==> inv.toolModule == ToolModule && inv.source == source
    ensures inv.RunOverRpc? ==> inv.workspace == rec.workspaceFS && inv.interpreter == rec.setting.fields.interpreter
  {
    match Select(rec.setting.fields, isCurrentInterpreter)
    case PathExec => RunPath(argv, useStdin, rec.workspaceFS, normalizedSource)
    case RpcDelegate =>
      RunOverRpc(rec.workspaceFS, rec.setting.fields.interpreter, ToolModule, argv, useStdin, rec.workspaceFS, source)
    case InProcessModule => RunModule(ToolModule, argv, useStdin, rec.workspaceFS, source)
  }

  /** Python's `s.replace("\r\n", "\n")`: each CR LF pair, scanned left to
      right without overlap, becomes LF. */
  function ReplaceCrlf(s: string): (r: string)
    ensures |r| <= |s|
    decreases |s|
  {
    if |s| == 0 then []
    else if |s| >= 2 && s[0] == '\r' && s[1] == '\n' then ['\n'] + ReplaceCrlf(s[2..])
    else [s[0]] + ReplaceCrlf(s[1..])
  }

  /** A carriage return that directly precedes a line feed. */
  predicate CrBeforeLf(s: string, i: nat)
    requires i < |s|
  {
    s[i] == '\r' && i + 1 < |s| && s[i + 1] == '\n'
  }

  /** Reference definition: keep every character except a CR directly
      followed by LF. */
  function DropCrBeforeLf(s: string): string
    decreases |s|
  {
    if |s| == 0 then []
    else if CrBeforeLf(s, 0) then DropCrBeforeLf(s[1..])
    else [s[0]] + DropCrBeforeLf(s[1..])
  }

  /** Replacing CR LF by LF is the same as deleting each CR that directly
      precedes an LF. */
  lemma {:induction false} ReplaceCrlfDropsCr(s: string)
    ensures ReplaceCrlf(s) == DropCrBeforeLf(s)
    decreases |s|
  {
    if |s| == 0 {
    } else if |s| >= 2 && s[0] == '\r' && s[1] == '\n' {
      ReplaceCrlfDropsCr(s[2..]);
      assert s[1..][1..] == s[2..];
      assert !CrBeforeLf(s[1..], 0);
    } else {
      ReplaceCrlfDropsCr(s[1..]);
    }
  }

  /** The replacement leaves every character other than CR in place: with
      all CRs removed, the text is unchanged. */
  lemma {:induction false} ReplaceCrlfOnlyDropsCr(s: string)
    ensures WithoutCr(ReplaceCrlf(s)) == WithoutCr(s)
    decreases |s|
  {
    if |s| == 0 {
    } else if |s| >= 2 && s[0] == '\r' && s[1] == '\n' {
      ReplaceCrlfOnlyDropsCr(s[2..]);
      assert s[1..][1..] == s[2..];
      assert WithoutCr(s) == WithoutCr(s[1..]);
      assert WithoutCr(s[1..]) == ['\n'] + WithoutCr(s[2..]);
      assert (['\n'] + ReplaceCrlf(s[2..]))[1..] == ReplaceCrlf(s[2..]);
    } else {
      ReplaceCrlfOnlyDropsCr(s[1..]);
      assert ([s[0]] + ReplaceCrlf(s[1..]))[1..] == ReplaceCrlf(s[1..]);
    }
  }

  /** The text with every CR removed. */
  function WithoutCr(s: string): string
    decreases |s|
  {
    if |s| == 0 then []
    else if s[0] == '\r' then WithoutCr(s[1..])
    else [s[0]] + WithoutCr(s[1..])
  }

  function StartsWith(s: string, prefix: string): bool {
    prefix <= s
  }

  /** `_run_tool_on_document`: notebook cells and standard-library files are
      skipped (`None`); otherwise the document's settings are looked up and
      the call is built from a copy of them. `isStdlibFile` stands for
      `utils.is_stdlib_file`. */
  function RunToolOnDocument(s: Store, doc: Document, useStdin: bool, isStdlibFile: Option<Path> -> bool,
                             isCurrentInterpreter: string -> bool): (r: Result<Option<Invocation>, LookupError>)
    requires Valid(s)
    ensures StartsWith(doc.uri, NotebookCellScheme) ==> r == Success(None)
    ensures !StartsWith(doc.uri, NotebookCellScheme) && isStdlibFile(doc.path) ==> r == Success(None)
    ensures !StartsWith(doc.uri, NotebookCellScheme) && !isStdlibFile(doc.path) ==>
              (r.Failure? <==> GetSettingsByDocument(s, Some(doc)).Failure?)
    ensures r.Success? ==> (r.value.None? <==> StartsWith(doc.uri, NotebookCellScheme) || isStdlibFile(doc.path))
    ensures r.Failure? ==> r.error == GetSettingsByDocument(s, Some(doc)).error
    ensures r.Success? && r.value.Some? ==>
              var rec := GetSettingsByDocument(s, Some(doc)).value;
              var fields := rec.setting.fields;
              var inv := r.value.value;
              && inv.Kind() == Select(fields, isCurrentInterpreter)
              && inv.cwd == rec.workspaceFS
              && inv.useStdin == useStdin
              && inv.argv == BaseArgv(inv.Kind(), fields) + ToolArgs + fields.args
              && inv.source == Some(if inv.RunPath? then ReplaceCrlf(doc.source) else doc.source)
              && (inv.RunOverRpc? ==> inv.workspace == rec.workspaceFS && inv.interpreter == fields.interpreter)
              && (!inv.RunPath? ==> inv.toolModule == ToolModule)
  {
    if StartsWith(doc.uri, NotebookCellScheme) then Success(None)
    else if isStdlibFile(doc.path) then Success(None)
    else
      var rec :- GetSettingsByDocument(s, Some(doc));
      var st := Select(rec.setting.fields, isCurrentInterpreter);
      var argv := BaseArgv(st, rec.setting.fields) + ToolArgs + rec.setting.fields.args;
      Success(Some(Plan(rec, isCurrentInterpreter, argv, useStdin, Some(doc.source), Some(ReplaceCrlf(doc.source)))))
  }

  /** `_run_tool`: the first stored record's settings, the caller's extra
      arguments appended, the input always piped and no source text. */
  function RunTool(s: Store, extraArgs: seq<string>, isCurrentInterpreter: string -> bool): (r: Result<Invocation, LookupError>)
    requires Valid(s)
    ensures r.Failure? <==> |s.table| == 0
    ensures r.Failure? ==> r == Failure(IndexError)
    ensures r.Success? ==>
              var rec := s.table[s.order[0]];
              var fields := rec.setting.fields;
              var inv := r.value;
              && inv.Kind() == Select(fields, isCurrentInterpreter)
              && inv.cwd == rec.workspaceFS
              && inv.useStdin
              && inv.source.None?
              && inv.argv == BaseArgv(inv.Kind(), fields) + extraArgs
              && (inv.RunOverRpc? ==> inv.workspace == rec.workspaceFS && inv.interpreter == fields.interpreter)
              && (!inv.RunPath? ==> inv.toolModule == ToolModule)
  {
    var rec :- GetSettingsByDocument(s, None);
    var st := Select(rec.setting.fields, isCurrentInterpreter);
    Success(Plan(rec, isCurrentInterpreter, BaseArgv(st, rec.setting.fields) + extraArgs, true, None, None))
  }

  /** An explicit `path` setting decides the strategy and the argument head
      whatever the interpreter settings say. */
  lemma PathOverridesInterpreter(s: ClientSettings.ISettings, i1: string -> bool, i2: string -> bool,
                                 interpreter: seq<string>)
    requires |s.path| > 0
    ensures Select(s, i1) == Select(s.(interpreter := interpreter), i2) == PathExec
    ensures BaseArgv(Select(s, i1), s)[0] == s.path[0]
  {
  }
}
