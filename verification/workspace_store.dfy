/** The server's workspace settings table (bundled/tool/server.py): a
    dictionary from a workspace's filesystem path to its settings record,
    filled in batches, and the lookup that resolves a document to a record. */
module WorkspaceStore {
  import opened Wrappers
  import opened Paths
  import ClientSettings

  /** One entry of a settings batch as the server receives it: the client's
      record plus the optional `trace` key that `initialize` reads. */
  datatype Setting = Setting(fields: ClientSettings.ISettings, trace: Option<string>)

  /** A stored record: the received setting with `workspaceFS` added. */
  datatype Record = Record(setting: Setting, workspaceFS: Path)

  /** `WORKSPACE_SETTINGS`: `order` lists the keys in insertion order, as a
      Python dictionary iterates them. */
  datatype Store = Store(order: seq<Path>, table: map<Path, Record>)

  const Empty := Store([], map[])

  /** The shape every reachable table has: each key listed once, exactly the
      listed keys stored, and each record's `workspaceFS` equal to its key. */
  ghost predicate Valid(s: Store) {
    && (forall i, j :: 0 <= i < j < |s.order| ==> s.order[i] != s.order[j])
    && (forall k :: k in s.table <==> k in s.order)
    && (forall k :: k in s.table ==> s.table[k].workspaceFS == k)
  }

  /** The key an entry is stored under: `to_fs_path(setting["workspace"])`. */
  function KeyOf(e: Setting, toFsPath: string -> Path): Path {
    toFsPath(e.fields.workspace)
  }

  /** Dictionary assignment `table[key] = rec`: a new key goes to the end of
      the iteration order, an existing one keeps its place. */
  function Put(s: Store, key: Path, rec: Record): (r: Store)
    requires Valid(s) && rec.workspaceFS == key
    ensures Valid(r)
    ensures r.table == s.table[key := rec]
    ensures |s.order| <= |r.order| && r.order[..|s.order|] == s.order
  {
    if key in s.table then Store(s.order, s.table[key := rec])
    else Store(s.order + [key], s.table[key := rec])
  }

  /** The table part of `_update_workspace_settings`: the dictionary
      assignments `table[key] = {**setting, "workspaceFS": key}`, in batch order. */
  function AssignAll(table: map<Path, Record>, batch: seq<Setting>, toFsPath: string -> Path): map<Path, Record>
    decreases |batch|
  {
    if |batch| == 0 then table
    else
      var key := KeyOf(batch[0], toFsPath);
      AssignAll(table[key := Record(batch[0], key)], batch[1..], toFsPath)
  }

  /** Reference definition: the batch's keys that are not yet in `order`, in
      the order they are first assigned. */
  function NewKeys(order: seq<Path>, batch: seq<Setting>, toFsPath: string -> Path): seq<Path>
    decreases |batch|
  {
    if |batch| == 0 then []
    else
      var key := KeyOf(batch[0], toFsPath);
      if key in order then NewKeys(order, batch[1..], toFsPath)
      else [key] + NewKeys(order + [key], batch[1..], toFsPath)
  }

  /** `_update_workspace_settings`: each entry of the batch, in order, is
      stored under its filesystem path with `workspaceFS` set to that path.
      Keys already present keep their place in the iteration order. */
  function Update(s: Store, batch: seq<Setting>, toFsPath: string -> Path): (r: Store)
    requires Valid(s)
    ensures Valid(r)
    ensures r.table == AssignAll(s.table, batch, toFsPath)
    ensures r.order == s.order + NewKeys(s.order, batch, toFsPath)
    decreases |batch|
  {
    if |batch| == 0 then s
    else
      var key := KeyOf(batch[0], toFsPath);
      var s' := Put(s, key, Record(batch[0], key));
      var r := Update(s', batch[1..], toFsPath);
      assert s'.order == if key in s.order then s.order else s.order + [key];
      AppendAssoc(s.order, [key], NewKeys(s.order + [key], batch[1..], toFsPath));
      r
  }

  lemma AppendAssoc(a: seq<Path>, b: seq<Path>, c: seq<Path>)
    ensures (a + b) + c == a + (b + c)
  {
  }

  /** Existing keys keep their places, and the first entry of a batch loaded
      into an empty table holds the first record in iteration order. */
  lemma UpdateOrder(s: Store, batch: seq<Setting>, toFsPath: string -> Path)
    requires Valid(s)
    ensures var r := Update(s, batch, toFsPath);
            |s.order| <= |r.order| && r.order[..|s.order|] == s.order &&
            (|s.order| == 0 && |batch| > 0 ==> r.order[0] == KeyOf(batch[0], toFsPath))
  {
  }

  /** The keys a batch is stored under. */
  function BatchKeys(batch: seq<Setting>, toFsPath: string -> Path): set<Path> {
    set i | 0 <= i < |batch| :: KeyOf(batch[i], toFsPath)
  }

  /** The keys of a non-empty batch: its first entry's key and the rest's keys. */
  lemma BatchKeysSplit(batch: seq<Setting>, toFsPath: string -> Path)
    requires |batch| > 0
    ensures BatchKeys(batch, toFsPath) == {KeyOf(batch[0], toFsPath)} + BatchKeys(batch[1..], toFsPath)
  {
  }

  /** After an update the table holds the old keys plus the batch's keys, and nothing else. */
  lemma {:induction false} UpdateKeys(table: map<Path, Record>, batch: seq<Setting>, toFsPath: string -> Path)
    ensures AssignAll(table, batch, toFsPath).Keys == table.Keys + BatchKeys(batch, toFsPath)
    decreases |batch|
  {
    if |batch| > 0 {
      var key := KeyOf(batch[0], toFsPath);
      UpdateKeys(table[key := Record(batch[0], key)], batch[1..], toFsPath);
      BatchKeysSplit(batch, toFsPath);
    }
  }

  /** A key the batch does not mention keeps its record. */
  lemma {:induction false} UpdateLeavesOthers(table: map<Path, Record>, batch: seq<Setting>, toFsPath: string -> Path,
                                              k: Path)
    requires k in table
    requires forall i :: 0 <= i < |batch| ==> KeyOf(batch[i], toFsPath) != k
    ensures k in AssignAll(table, batch, toFsPath)
    ensures AssignAll(table, batch, toFsPath)[k] == table[k]
    decreases |batch|
  {
    if |batch| > 0 {
      var key := KeyOf(batch[0], toFsPath);
      assert forall i :: 0 <= i < |batch[1..]| ==> batch[1..][i] == batch[i + 1];
      UpdateLeavesOthers(table[key := Record(batch[0], key)], batch[1..], toFsPath, k);
    }
  }

  /** Each batch entry not overwritten by a later entry with the same key is
      stored, unchanged, under its key: the last entry for a key wins. */
  lemma {:induction false} UpdateLastWins(table: map<Path, Record>, batch: seq<Setting>, toFsPath: string -> Path,
                                          i: nat)
    requires i < |batch|
    requires forall j :: i < j < |batch| ==> KeyOf(batch[j], toFsPath) != KeyOf(batch[i], toFsPath)
    ensures KeyOf(batch[i], toFsPath) in AssignAll(table, batch, toFsPath)
    ensures AssignAll(table, batch, toFsPath)[KeyOf(batch[i], toFsPath)] == Record(batch[i], KeyOf(batch[i], toFsPath))
    decreases |batch|
  {
    var key := KeyOf(batch[0], toFsPath);
    var table' := table[key := Record(batch[0], key)];
    assert forall j :: 0 <= j < |batch[1..]| ==> batch[1..][j] == batch[j + 1];
    if i == 0 {
      UpdateLeavesOthers(table', batch[1..], toFsPath, key);
    } else {
      UpdateLastWins(table', batch[1..], toFsPath, i - 1);
    }
  }

  /** Why a lookup fails: `list(...)[0]` on an empty table, or indexing the
      table with a path that is not a key. */
  datatype LookupError = IndexError | KeyError(key: Path)

  /** A text document: its URI, its filesystem path when it has one, and its text. */
  datatype Document = Document(uri: string, path: Option<Path>, source: string)

  /** The `while` loop of `_get_settings_by_document`: climb from `p` until a
      registered workspace path or the root is reached. The root itself is
      never compared with `workspaces`. */
  function WalkUp(workspaces: set<Path>, p: Path): (q: Path)
    ensures q <= p
    ensures q in workspaces || q == Root
    ensures forall n :: |q| < n <= |p| ==> p[..n] !in workspaces
    decreases |p|
  {
    if p == Parent(p) then p
    else if p in workspaces then p
    else
      var q := WalkUp(workspaces, Parent(p));
      assert p[..|p|] == p;
      assert forall n :: |q| < n <= |Parent(p)| ==> p[..n] == Parent(p)[..n];
      q
  }

  /** `_get_settings_by_document`. With one stored record, or without a
      document path, the first record in insertion order; otherwise the record
      of the nearest registered ancestor-or-self of the document's path, the
      root included, or a `KeyError` when there is none. */
  function GetSettingsByDocument(s: Store, doc: Option<Document>): (r: Result<Record, LookupError>)
    requires Valid(s)
    ensures |s.table| == 1 ==> r == Success(s.table[s.order[0]])
    ensures doc.None? || doc.value.path.None? ==>
              if |s.table| == 0 then r == Failure(IndexError) else r == Success(s.table[s.order[0]])
    ensures |s.table| != 1 && doc.Some? && doc.value.path.Some? ==>
              var p := doc.value.path.value;
              && (r.Success? ==> && r.value.workspaceFS <= p
                                 && r.value.workspaceFS in s.table
                                 && s.table[r.value.workspaceFS] == r.value
                                 && forall n :: |r.value.workspaceFS| < n <= |p| ==> p[..n] !in s.table)
              && (r.Failure? ==> r.error == KeyError(Root) && forall n :: 0 <= n <= |p| ==> p[..n] !in s.table)
  {
    if |s.table| == 1 || doc.None? || doc.value.path.None? then
      FirstRecord(s)
    else
      var workspaces := set k | k in s.table :: s.table[k].workspaceFS;
      assert forall k :: k in workspaces <==> k in s.table;
      var p := WalkUp(workspaces, doc.value.path.value);
      if p in s.table then Success(s.table[p]) else Failure(KeyError(p))
  }

  /** `list(WORKSPACE_SETTINGS.values())[0]`. */
  function FirstRecord(s: Store): (r: Result<Record, LookupError>)
    requires Valid(s)
    ensures r.Failure? <==> |s.table| == 0
    ensures r.Failure? ==> r.error == IndexError
    ensures r.Success? ==> |s.order| > 0 && r.value == s.table[s.order[0]]
  {
    if |s.order| == 0 then
      assert s.table.Keys == {};
      Failure(IndexError)
    else
      assert s.order[0] in s.table;
      Success(s.table[s.order[0]])
  }
}
