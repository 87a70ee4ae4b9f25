/** The trace level chosen in the server's `initialize` handler
    (bundled/tool/server.py): a fold over the received settings batch. */
module TraceSelection {
  import opened Wrappers
  import opened WorkspaceStore

  /** The protocol trace levels the server can select. */
  datatype Trace = Off | Messages | Verbose

  /** `setting["trace"]` on an entry without that key raises a `KeyError`;
      `index` is the position of that entry in the batch. */
  datatype InitError = MissingTrace(index: nat)

  const DebugTrace := "debug"
  const OffTrace := "off"

  /** The `for` loop of `initialize`: start at `Off`; an entry traced
      `"debug"` selects `Verbose` and stops the loop; an entry traced `"off"`
      is skipped; any other trace selects `Messages`. */
  method SelectTrace(settings: seq<Setting>) returns (r: Result<Trace, InitError>)
    ensures r.Failure? ==>
              && r.error.index < |settings|
              && settings[r.error.index].trace.None?
              && forall j :: 0 <= j < r.error.index ==> settings[j].trace.Some? && settings[j].trace.value != DebugTrace
    ensures r == Success(Verbose) <==>
              exists i :: 0 <= i < |settings| && settings[i].trace == Some(DebugTrace) &&
                (forall j :: 0 <= j < i ==> settings[j].trace.Some?)
    ensures r == Success(Off) <==> forall i :: 0 <= i < |settings| ==> settings[i].trace == Some(OffTrace)
    ensures r == Success(Messages) <==>
              && (forall i :: 0 <= i < |settings| ==> settings[i].trace.Some? && settings[i].trace.value != DebugTrace)
              && (exists i :: 0 <= i < |settings| && settings[i].trace.value != OffTrace)
  {
    var trace := Off;
    var n := 0;
    while n < |settings|
      invariant n <= |settings|
      invariant forall j :: 0 <= j < n ==> settings[j].trace.Some? && settings[j].trace.value != DebugTrace
      invariant trace == Off <==> forall j :: 0 <= j < n ==> settings[j].trace.value == OffTrace
      invariant trace != Verbose
    {
      var t := settings[n].trace;
      if t.None? {
        return Failure(MissingTrace(n));
      }
      if t.value == DebugTrace {
        trace := Verbose;
        break;
      }
      if t.value == OffTrace {
        n := n + 1;
        continue;
      }
      trace := Messages;
      n := n + 1;
    }
    return Success(trace);
  }
}
