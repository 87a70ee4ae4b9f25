/** The client-side settings reader (src/common/settings.ts): one record per
    workspace folder, built from the folder's configuration with `??` defaults. */
module ClientSettings {
  import opened Wrappers
  import opened Host

  /** The settings record the client sends to the server (`ISettings`). */
  datatype ISettings = ISettings(
    cwd: string,
    workspace: string,
    args: seq<string>,
    path: seq<string>,
    interpreter: seq<string>,
    importStrategy: string,
    showNotifications: string)

  const DefaultImportStrategy := "fromEnvironment"
  const DefaultShowNotifications := "off"

  /** What `config.get(key)` returns for each key read from a folder-scoped
      configuration; `None` is `undefined`. */
  datatype ScopedConfig = ScopedConfig(
    args: Option<seq<string>>,
    path: Option<seq<string>>,
    importStrategy: Option<string>,
    showNotifications: Option<string>)

  /** What `config.inspect(key)` returns: the user-level and the declared default value. */
  datatype Inspection<T> = Inspection(globalValue: Option<T>, defaultValue: Option<T>)

  /** `config.inspect(key)` for each key read by `getGlobalSettings`. */
  datatype GlobalConfig = GlobalConfig(
    args: Option<Inspection<seq<string>>>,
    path: Option<Inspection<seq<string>>>,
    interpreter: Option<Inspection<seq<string>>>,
    importStrategy: Option<Inspection<string>>,
    showNotifications: Option<Inspection<string>>)

  /** The interpreter a record ends up with: none unless asked for; when asked
      for, the configured one unless it is missing or empty, in which case the
      interpreter reported by the host (`[]` when that is missing too). */
  function ChooseInterpreter(includeInterpreter: bool, configured: Option<seq<string>>,
                             details: Option<seq<string>>): (r: seq<string>)
    ensures !includeInterpreter ==> r == []
    ensures includeInterpreter && configured.Some? && |configured.value| > 0 ==> r == configured.value
    ensures includeInterpreter && (configured.None? || configured.value == []) ==>
              (details.Some? ==> r == details.value) && (details.None? ==> r == [])
  {
    if !includeInterpreter then []
    else if configured.Some? && |configured.value| > 0 then configured.value
    else details.GetOr([])
  }

  /** `getWorkspaceSettings`: `configured` is the namespace-level (not
      folder-scoped) `interpreter` setting, `details` the host's interpreter
      path for this folder. */
  function GetWorkspaceSettings(folder: WorkspaceFolder, config: ScopedConfig,
                                includeInterpreter: bool, configured: Option<seq<string>>,
                                details: Option<seq<string>>): (r: ISettings)
    ensures r.cwd == folder.uri.fsPath && r.workspace == folder.uri.text
    ensures config.args.Some? ==> r.args == config.args.value
    ensures config.args.None? ==> r.args == []
    ensures config.path.Some? ==> r.path == config.path.value
    ensures config.path.None? ==> r.path == []
    ensures config.importStrategy.Some? ==> r.importStrategy == config.importStrategy.value
    ensures config.importStrategy.None? ==> r.importStrategy == DefaultImportStrategy
    ensures config.showNotifications.Some? ==> r.showNotifications == config.showNotifications.value
    ensures config.showNotifications.None? ==> r.showNotifications == DefaultShowNotifications
    ensures r.interpreter == ChooseInterpreter(includeInterpreter, configured, details)
  {
    ISettings(
      cwd := folder.uri.fsPath,
      workspace := folder.uri.text,
      args := config.args.GetOr([]),
      path := config.path.GetOr([]),
      interpreter := ChooseInterpreter(includeInterpreter, configured, details),
      importStrategy := config.importStrategy.GetOr(DefaultImportStrategy),
      showNotifications := config.showNotifications.GetOr(DefaultShowNotifications))
  }

  /** The host's interpreter is consulted only as a fallback: when the
      interpreter is not requested, or a non-empty one is configured, the
      record does not depend on it. */
  lemma DetailsOnlyAFallback(folder: WorkspaceFolder, config: ScopedConfig, includeInterpreter: bool,
                             configured: Option<seq<string>>, d1: Option<seq<string>>, d2: Option<seq<string>>)
    requires !includeInterpreter || (configured.Some? && |configured.value| > 0)
    ensures GetWorkspaceSettings(folder, config, includeInterpreter, configured, d1)
         == GetWorkspaceSettings(folder, config, includeInterpreter, configured, d2)
  {
  }

  /** The first present value of a list of optional values. */
  function FirstPresent<T>(xs: seq<Option<T>>): (r: Option<T>)
    ensures r.None? <==> forall i :: 0 <= i < |xs| ==> xs[i].None?
    ensures r.Some? ==> exists i :: 0 <= i < |xs| && xs[i] == r && forall j :: 0 <= j < i ==> xs[j].None?
  {
    if |xs| == 0 then None
    else if xs[0].Some? then xs[0]
    else
      var r := FirstPresent(xs[1..]);
      assert forall i :: 1 <= i < |xs| ==> xs[i] == xs[1..][i - 1];
      r
  }

  /** `getGlobalValue`: `inspect?.globalValue ?? inspect?.defaultValue ?? fallback`. */
  function GetGlobalValue<T>(inspect: Option<Inspection<T>>, fallback: T): (r: T)
    ensures inspect.Some? && inspect.value.globalValue.Some? ==> r == inspect.value.globalValue.value
    ensures inspect.Some? && inspect.value.globalValue.None? && inspect.value.defaultValue.Some? ==>
              r == inspect.value.defaultValue.value
    ensures inspect.None? || (inspect.value.globalValue.None? && inspect.value.defaultValue.None?) ==>
              r == fallback
  {
    match inspect
    case None => fallback
    case Some(i) => i.globalValue.GetOr(i.defaultValue.GetOr(fallback))
  }

  /** `getGlobalValue` picks the first defined value among the user-level
      value, the declared default and the caller's fallback, in that order. */
  lemma GlobalValueIsFirstPresent<T>(inspect: Option<Inspection<T>>, fallback: T)
    ensures var candidates := match inspect
                              case None => []
                              case Some(i) => [i.globalValue, i.defaultValue];
            FirstPresent(candidates + [Some(fallback)]) == Some(GetGlobalValue(inspect, fallback))
  {
    match inspect
    case None =>
      assert [] + [Some(fallback)] == [Some(fallback)];
    case Some(i) =>
      var cs := [i.globalValue, i.defaultValue, Some(fallback)];
      assert [i.globalValue, i.defaultValue] + [Some(fallback)] == cs;
      if i.globalValue.None? {
        assert cs[1..] == [i.defaultValue, Some(fallback)];
        if i.defaultValue.None? {
          assert cs[1..][1..] == [Some(fallback)];
          assert FirstPresent(cs[1..][1..]) == Some(fallback);
          assert FirstPresent(cs[1..]) == Some(fallback);
        }
      }
  }

  /** `getGlobalSettings`: every field resolved through `getGlobalValue`;
      `cwd` and `workspace` are both the process working directory. */
  function GetGlobalSettings(config: GlobalConfig, processCwd: string, includeInterpreter: bool,
                             details: Option<seq<string>>): (r: ISettings)
    ensures r.cwd == processCwd && r.workspace == processCwd
    ensures r.args == GetGlobalValue(config.args, [])
    ensures r.path == GetGlobalValue(config.path, [])
    ensures r.importStrategy == GetGlobalValue(config.importStrategy, DefaultImportStrategy)
    ensures r.showNotifications == GetGlobalValue(config.showNotifications, DefaultShowNotifications)
    ensures r.interpreter == ChooseInterpreter(includeInterpreter, Some(GetGlobalValue(config.interpreter, [])), details)
  {
    ISettings(
      cwd := processCwd,
      workspace := processCwd,
      args := GetGlobalValue(config.args, []),
      path := GetGlobalValue(config.path, []),
      interpreter := ChooseInterpreter(includeInterpreter, Some(GetGlobalValue(config.interpreter, [])), details),
      importStrategy := GetGlobalValue(config.importStrategy, DefaultImportStrategy),
      showNotifications := GetGlobalValue(config.showNotifications, DefaultShowNotifications))
  }

  /** `getExtensionSettings`: one record per workspace folder, in folder order. */
  method GetExtensionSettings(folders: seq<WorkspaceFolder>, configOf: WorkspaceFolder -> ScopedConfig,
                              includeInterpreter: bool, configured: Option<seq<string>>,
                              detailsOf: WorkspaceFolder -> Option<seq<string>>)
    returns (settings: seq<ISettings>)
    ensures |settings| == |folders|
    ensures forall i :: 0 <= i < |folders| ==>
              settings[i] == GetWorkspaceSettings(folders[i], configOf(folders[i]), includeInterpreter,
                                                  configured, detailsOf(folders[i]))
  {
    settings := [];
    var k := 0;
    while k < |folders|
      invariant k <= |folders| && |settings| == k
      invariant forall i :: 0 <= i < k ==>
                  settings[i] == GetWorkspaceSettings(folders[i], configOf(folders[i]), includeInterpreter,
                                                      configured, detailsOf(folders[i]))
    {
      var w := folders[k];
      settings := settings + [GetWorkspaceSettings(w, configOf(w), includeInterpreter, configured, detailsOf(w))];
      k := k + 1;
    }
  }

  /** The configuration keys whose change restarts the server. */
  function WatchedKeys(namespace: string): seq<string> {
    [namespace + ".args", namespace + ".path", namespace + ".interpreter",
     namespace + ".importStrategy", namespace + ".showNotifications"]
  }

  /** `Array.prototype.includes(true)` on a list of flags. */
  function IncludesTrue(flags: seq<bool>): (r: bool)
    ensures r <==> exists i :: 0 <= i < |flags| && flags[i]
  {
    if |flags| == 0 then false
    else flags[0] || (assert forall i :: 1 <= i < |flags| ==> flags[i] == flags[1..][i - 1]; IncludesTrue(flags[1..]))
  }

  /** `checkIfConfigurationChanged`: `affects` is the event's `affectsConfiguration`. */
  function CheckIfConfigurationChanged(affects: string -> bool, namespace: string): (r: bool)
    ensures r <==> exists i :: 0 <= i < |WatchedKeys(namespace)| && affects(WatchedKeys(namespace)[i])
  {
    var keys := WatchedKeys(namespace);
    var flags := seq(|keys|, i requires 0 <= i < |keys| => affects(keys[i]));
    assert forall i :: 0 <= i < |keys| ==> flags[i] == affects(keys[i]);
    IncludesTrue(flags)
  }

  /** A change matters exactly when one of the five watched keys is affected. */
  lemma ConfigurationChangedIff(affects: string -> bool, namespace: string)
    ensures CheckIfConfigurationChanged(affects, namespace) <==>
              affects(namespace + ".args") || affects(namespace + ".path") ||
              affects(namespace + ".interpreter") || affects(namespace + ".importStrategy") ||
              affects(namespace + ".showNotifications")
  {
    var keys := WatchedKeys(namespace);
    if affects(namespace + ".showNotifications") {
      assert affects(keys[4]);
    }
    if affects(namespace + ".importStrategy") {
      assert affects(keys[3]);
    }
    if affects(namespace + ".interpreter") {
      assert affects(keys[2]);
    }
    if affects(namespace + ".path") {
      assert affects(keys[1]);
    }
    if affects(namespace + ".args") {
      assert affects(keys[0]);
    }
  }

  /** No key other than the five watched ones influences the decision. */
  lemma OnlyWatchedKeysMatter(a1: string -> bool, a2: string -> bool, namespace: string)
    requires forall i :: 0 <= i < |WatchedKeys(namespace)| ==> a1(WatchedKeys(namespace)[i]) == a2(WatchedKeys(namespace)[i])
    ensures CheckIfConfigurationChanged(a1, namespace) == CheckIfConfigurationChanged(a2, namespace)
  {
  }
}
