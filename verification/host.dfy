/** The few editor-host values the client code reads. The host itself
    (configuration store, interpreter discovery, process environment) is
    represented by explicit inputs to the functions that use it. */
module Host {
  import opened Wrappers

  /** A document or folder URI: its filesystem path and its `toString()` text. */
  datatype Uri = Uri(fsPath: string, text: string)

  /** An open workspace folder. */
  datatype WorkspaceFolder = WorkspaceFolder(uri: Uri, name: string, index: nat)

  /** A JavaScript runtime fault the client code can raise. */
  datatype HostError = TypeError(reason: string)

  /** JavaScript truthiness of an optional string: defined and non-empty. */
  predicate Truthy(s: Option<string>) {
    s.Some? && s.value != ""
  }
}
