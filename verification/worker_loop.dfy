/** The worker that runs the tool under another interpreter
    (bundled/tool/runner.py): it reads messages until `exit`, answers each
    `run` with one response and ignores every other method. Receiving and
    sending are the input and output sequences; the tool run is a parameter. */
module WorkerLoop {
  import opened Wrappers

  /** A received message, with the keys the worker reads (`name` is the
      `method` key); `None` is a missing key. */
  datatype Message = Message(
    id: Option<int>,
    name: Option<string>,
    toolModule: Option<string>,
    argv: Option<seq<string>>,
    useStdin: Option<bool>,
    cwd: Option<string>,
    source: Option<string>)

  /** The arguments handed to `utils.run_module`. */
  datatype RunRequest = RunRequest(toolModule: string, argv: seq<string>, useStdin: bool, cwd: string,
                                   source: Option<string>)

  /** Captured output of a run. */
  datatype RunResult = RunResult(stdout: string, stderr: string)

  /** What `utils.run_module` does: returns a result or raises, leaving a traceback text. */
  datatype RunOutcome = Completed(result: RunResult) | Raised(traceback: string)

  /** A response: the request's id, and `error`/`result` only when non-empty. */
  datatype Response = Response(id: int, error: Option<string>, result: Option<string>)

  /** How the loop stopped: an `exit` message, the end of the input, or an
      uncaught `KeyError` on a message lacking `method` (or, for `run`, `id`). */
  datatype Ending = Exited | InputEnded | Crashed(missingKey: string)

  /** The responses sent, how many messages were received, and how it stopped. */
  datatype LoopOutcome = LoopOutcome(responses: seq<Response>, consumed: nat, ending: Ending)

  const RunMethod := "run"
  const ExitMethod := "exit"

  /** The keyword arguments of the `run_module` call, read in order;
      the first missing key fails. `source` is optional. */
  function RequestOf(m: Message): (r: Result<RunRequest, string>)
    ensures r.Success? <==> m.toolModule.Some? && m.argv.Some? && m.useStdin.Some? && m.cwd.Some?
    ensures r.Success? ==>
              r.value == RunRequest(m.toolModule.value, m.argv.value, m.useStdin.value, m.cwd.value, m.source)
    ensures r.Failure? ==> r.error in {"module", "argv", "useStdin", "cwd"}
    ensures m.toolModule.None? ==> r == Failure("module")
    ensures m.toolModule.Some? && m.argv.None? ==> r == Failure("argv")
    ensures m.toolModule.Some? && m.argv.Some? && m.useStdin.None? ==> r == Failure("useStdin")
    ensures m.toolModule.Some? && m.argv.Some? && m.useStdin.Some? && m.cwd.None? ==> r == Failure("cwd")
  {
    if m.toolModule.None? then Failure("module")
    else if m.argv.None? then Failure("argv")
    else if m.useStdin.None? then Failure("useStdin")
    else if m.cwd.None? then Failure("cwd")
    else Success(RunRequest(m.toolModule.value, m.argv.value, m.useStdin.value, m.cwd.value, m.source))
  }

  /** The `try` block: any exception, including a missing message key, is
      turned into a result with empty output and the traceback as error text.
      `keyErrorTraceback` stands for `traceback.format_exc()` after a `KeyError`. */
  function Execute(m: Message, runModule: RunRequest -> RunOutcome, keyErrorTraceback: string -> string): (r: RunResult)
    ensures RequestOf(m).Failure? ==> r == RunResult("", keyErrorTraceback(RequestOf(m).error))
    ensures RequestOf(m).Success? && runModule(RequestOf(m).value).Raised? ==>
              r == RunResult("", runModule(RequestOf(m).value).traceback)
    ensures RequestOf(m).Success? && runModule(RequestOf(m).value).Completed? ==>
              r == runModule(RequestOf(m).value).result
  {
    match RequestOf(m)
    case Failure(key) => RunResult("", keyErrorTraceback(key))
    case Success(req) =>
      match runModule(req)
      case Completed(res) => res
      case Raised(tb) => RunResult("", tb)
  }

  /** The response to a `run`: `error` and `result` each present exactly
      when the corresponding text is non-empty; both may be present. */
  function Respond(id: int, res: RunResult): (r: Response)
    ensures r.id == id
    ensures r.error.Some? <==> res.stderr != ""
    ensures r.error.Some? ==> r.error.value == res.stderr
    ensures r.result.Some? <==> res.stdout != ""
    ensures r.result.Some? ==> r.result.value == res.stdout
  {
    Response(id,
             if res.stderr != "" then Some(res.stderr) else None,
             if res.stdout != "" then Some(res.stdout) else None)
  }

  /** The `while not EXIT_NOW` loop over the received messages. */
  function Loop(msgs: seq<Message>, runModule: RunRequest -> RunOutcome, keyErrorTraceback: string -> string): (t: LoopOutcome)
    ensures t.consumed <= |msgs|
    ensures |t.responses| <= t.consumed
    ensures t.ending == InputEnded <==> t.consumed == |msgs| && (|msgs| == 0 || !Stops(msgs[|msgs| - 1]))
    decreases |msgs|
  {
    if |msgs| == 0 then LoopOutcome([], 0, InputEnded)
    else
      var m := msgs[0];
      if m.name.None? then LoopOutcome([], 1, Crashed("method"))
      else if m.name.value == ExitMethod then LoopOutcome([], 1, Exited)
      else if m.name.value == RunMethod then
        var res := Execute(m, runModule, keyErrorTraceback);
        if m.id.None? then LoopOutcome([], 1, Crashed("id"))
        else
          var rest := Loop(msgs[1..], runModule, keyErrorTraceback);
          LoopOutcome([Respond(m.id.value, res)] + rest.responses, rest.consumed + 1, rest.ending)
      else
        var rest := Loop(msgs[1..], runModule, keyErrorTraceback);
        LoopOutcome(rest.responses, rest.consumed + 1, rest.ending)
  }

  /** A message after which the loop receives nothing more. */
  predicate Stops(m: Message) {
    m.name.None? || m.name.value == ExitMethod || (m.name.value == RunMethod && m.id.None?)
  }

  /** A message that gets a response. */
  predicate IsRun(m: Message) {
    m.name == Some(RunMethod)
  }

  /** Index of the first message after which the loop stops, or the input length. */
  function FirstStop(msgs: seq<Message>): (k: nat)
    ensures k <= |msgs|
    ensures forall j :: 0 <= j < k ==> !Stops(msgs[j])
    ensures k < |msgs| ==> Stops(msgs[k])
    decreases |msgs|
  {
    if |msgs| == 0 then 0
    else if Stops(msgs[0]) then 0
    else
      var k := FirstStop(msgs[1..]);
      assert forall j :: 1 <= j < k + 1 ==> msgs[j] == msgs[1..][j - 1];
      k + 1
  }

  /** Reference definition: the `run` messages of a sequence, in order. */
  function Runs(msgs: seq<Message>): (rs: seq<Message>)
    ensures |rs| <= |msgs|
    ensures forall i :: 0 <= i < |rs| ==> IsRun(rs[i])
    decreases |msgs|
  {
    if |msgs| == 0 then []
    else if IsRun(msgs[0]) then [msgs[0]] + Runs(msgs[1..])
    else Runs(msgs[1..])
  }

  /** The loop as a whole: it consumes every message up to and including the
      first one that stops it and no further, it answers exactly the `run`
      messages among those (in order, each with its own id and the result of
      executing it), and the stopping message decides how it ended. */
  lemma {:induction false} LoopCharacterization(msgs: seq<Message>, runModule: RunRequest -> RunOutcome,
                                                keyErrorTraceback: string -> string)
    ensures var t := Loop(msgs, runModule, keyErrorTraceback);
            var k := FirstStop(msgs);
            var answered := Runs(msgs[..k]);
            && t.consumed == (if k < |msgs| then k + 1 else k)
            && |t.responses| == |answered|
            && (forall i :: 0 <= i < |answered| ==>
                  answered[i].id.Some? &&
                  t.responses[i] == Respond(answered[i].id.value, Execute(answered[i], runModule, keyErrorTraceback)))
            && (k == |msgs| <==> t.ending == InputEnded)
            && (t.ending == Exited <==> k < |msgs| && msgs[k].name == Some(ExitMethod))
            && (t.ending == Crashed("method") <==> k < |msgs| && msgs[k].name.None?)
            && (t.ending == Crashed("id") <==> k < |msgs| && msgs[k].name == Some(RunMethod))
    decreases |msgs|
  {
    if |msgs| == 0 {
      assert msgs[..0] == [];
    } else {
      var m := msgs[0];
      if Stops(m) {
        assert msgs[..0] == [];
      } else {
        var tail := msgs[1..];
        LoopCharacterization(tail, runModule, keyErrorTraceback);
        var k := FirstStop(msgs);
        assert k == FirstStop(tail) + 1;
        assert msgs[..k] == [m] + tail[..k - 1];
        assert msgs[..k][1..] == tail[..k - 1];
        if IsRun(m) {
          assert Runs(msgs[..k]) == [m] + Runs(tail[..k - 1]);
        } else {
          assert Runs(msgs[..k]) == Runs(tail[..k - 1]);
        }
        if k < |msgs| {
          assert msgs[k] == tail[k - 1];
        }
      }
    }
  }

  /** Nothing after an `exit` is received: appending messages to an input
      that already ended with `exit` changes nothing. */
  lemma {:induction false} ExitIsFinal(msgs: seq<Message>, later: seq<Message>, runModule: RunRequest -> RunOutcome,
                                       keyErrorTraceback: string -> string)
    requires Loop(msgs, runModule, keyErrorTraceback).ending == Exited
    ensures Loop(msgs + later, runModule, keyErrorTraceback) == Loop(msgs, runModule, keyErrorTraceback)
    decreases |msgs|
  {
    assert (msgs + later)[0] == msgs[0];
    if !Stops(msgs[0]) {
      assert (msgs + later)[1..] == msgs[1..] + later;
      ExitIsFinal(msgs[1..], later, runModule, keyErrorTraceback);
    }
  }

  /** A failing tool does not stop the worker: the `run` gets a response
      carrying the traceback and no result, and the next message is served. */
  lemma FaultIsContained(m: Message, msgs: seq<Message>, runModule: RunRequest -> RunOutcome,
                         keyErrorTraceback: string -> string)
    requires IsRun(m) && m.id.Some?
    requires RequestOf(m).Success? && runModule(RequestOf(m).value).Raised?
    requires runModule(RequestOf(m).value).traceback != ""
    ensures var t := Loop([m] + msgs, runModule, keyErrorTraceback);
            && t.responses[0] == Response(m.id.value, Some(runModule(RequestOf(m).value).traceback), None)
            && t.responses[1..] == Loop(msgs, runModule, keyErrorTraceback).responses
            && t.consumed == 1 + Loop(msgs, runModule, keyErrorTraceback).consumed
  {
    assert ([m] + msgs)[1..] == msgs;
  }
}
