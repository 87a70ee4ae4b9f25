/** The client-side server launcher (src/common/server.ts): which workspace
    folder is the project root, and the command line and environment the
    language server process is started with. */
module ClientServer {
  import opened Wrappers
  import opened Host

  const UseDebugpy := "USE_DEBUGPY"
  const DebugpyPath := "DEBUGPY_PATH"
  const DebugDisabled := "False"

  /** `getProjectRoot`: the folder with the shortest filesystem path; on a
      tie the earliest one. Reading `workspaces[0]` of an empty list fails. */
  method GetProjectRoot(workspaces: seq<WorkspaceFolder>) returns (r: Result<WorkspaceFolder, HostError>)
    ensures r.Failure? <==> |workspaces| == 0
    ensures |workspaces| == 1 ==> r == Success(workspaces[0])
    ensures r.Success? ==> forall w :: w in workspaces ==> |r.value.uri.fsPath| <= |w.uri.fsPath|
    ensures r.Success? ==>
              exists k :: 0 <= k < |workspaces| && workspaces[k] == r.value &&
                (forall j :: 0 <= j < k ==> |workspaces[j].uri.fsPath| > |r.value.uri.fsPath|)
  {
    if |workspaces| == 0 {
      return Failure(TypeError("workspaces[0] is undefined"));
    }
    if |workspaces| == 1 {
      return Success(workspaces[0]);
    }
    var root := workspaces[0].uri.fsPath;
    var best := 0;
    var n := 0;
    while n < |workspaces|
      invariant n <= |workspaces| && best < |workspaces|
      invariant root == workspaces[best].uri.fsPath
      invariant best <= n
      invariant forall j :: 0 <= j < n ==> |root| <= |workspaces[j].uri.fsPath|
      invariant forall j :: 0 <= j < best ==> |workspaces[j].uri.fsPath| > |root|
    {
      var w := workspaces[n];
      if |root| > |w.uri.fsPath| {
        root := w.uri.fsPath;
        best := n;
      }
      n := n + 1;
    }
    return Success(workspaces[best]);
  }

  /** The environment the server is started with: `DEBUGPY_PATH` is set when
      `USE_DEBUGPY` is set and a debugger is available; otherwise
      `USE_DEBUGPY` is forced to `'False'`. */
  function DebugEnv(env: map<string, string>, debuggerPath: Option<string>): (r: map<string, string>)
    ensures forall k :: k != UseDebugpy && k != DebugpyPath ==> (k in r <==> k in env) && (k in r ==> r[k] == env[k])
    ensures UseDebugpy in r
    ensures r[UseDebugpy] == DebugDisabled <==>
              !(UseDebugpy in env && env[UseDebugpy] != "" && Truthy(debuggerPath)) || env[UseDebugpy] == DebugDisabled
    ensures !(UseDebugpy in env && env[UseDebugpy] != "" && Truthy(debuggerPath)) ==>
              (DebugpyPath in r <==> DebugpyPath in env) && (DebugpyPath in r ==> r[DebugpyPath] == env[DebugpyPath])
    ensures UseDebugpy in env && env[UseDebugpy] != "" && Truthy(debuggerPath) ==>
              DebugpyPath in r && r[DebugpyPath] == debuggerPath.value && r[UseDebugpy] == env[UseDebugpy]
  {
    if UseDebugpy in env && env[UseDebugpy] != "" && Truthy(debuggerPath) then
      env[DebugpyPath := debuggerPath.value]
    else
      env[UseDebugpy := DebugDisabled]
  }

  /** How the language server process is launched. `command` is `None` when
      the interpreter list is empty (`interpreter[0]` is `undefined`). */
  datatype ServerLaunch = ServerLaunch(command: Option<string>, args: seq<string>, cwd: string, env: map<string, string>)

  /** The command, arguments, working directory and environment computed by
      `createServer`. The script paths are the extension's constants. */
  method CreateServer(interpreter: seq<string>, workspaces: seq<WorkspaceFolder>, env: map<string, string>,
                      debuggerPath: Option<string>, serverScript: string, debugServerScript: string)
    returns (r: Result<ServerLaunch, HostError>)
    ensures r.Failure? <==> |workspaces| == 0
    ensures r.Success? ==> r.value.command == (if |interpreter| > 0 then Some(interpreter[0]) else None)
    ensures r.Success? ==> r.value.env == DebugEnv(env, debuggerPath)
    ensures r.Success? ==> |r.value.args| == (if |interpreter| > 0 then |interpreter| else 1)
    ensures r.Success? && |interpreter| > 0 ==> r.value.args[..|interpreter| - 1] == interpreter[1..]
    ensures r.Success? ==>
              r.value.args[|r.value.args| - 1] ==
                (if r.value.env[UseDebugpy] == DebugDisabled then serverScript else debugServerScript)
    ensures r.Success? ==>
              exists k :: 0 <= k < |workspaces| && r.value.cwd == workspaces[k].uri.fsPath &&
                (forall j :: 0 <= j < |workspaces| ==> |r.value.cwd| <= |workspaces[j].uri.fsPath|) &&
                (forall j :: 0 <= j < k ==> |workspaces[j].uri.fsPath| > |r.value.cwd|)
  {
    var command := if |interpreter| > 0 then Some(interpreter[0]) else None;
    var root := GetProjectRoot(workspaces);
    if root.Failure? {
      return Failure(root.error);
    }
    var debugEnv := DebugEnv(env, debuggerPath);
    var rest := if |interpreter| > 0 then interpreter[1..] else [];
    var args := if debugEnv[UseDebugpy] == DebugDisabled then rest + [serverScript] else rest + [debugServerScript];
    return Success(ServerLaunch(command, args, root.value.uri.fsPath, debugEnv));
  }

  /** The debug server script is launched exactly when `USE_DEBUGPY` was set
      to something other than `'False'` and a debugger path is available. */
  lemma DebugScriptIff(env: map<string, string>, debuggerPath: Option<string>)
    ensures DebugEnv(env, debuggerPath)[UseDebugpy] != DebugDisabled <==>
              UseDebugpy in env && env[UseDebugpy] != "" && env[UseDebugpy] != DebugDisabled && Truthy(debuggerPath)
  {
  }
}
