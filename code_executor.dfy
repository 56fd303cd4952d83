/**
 * The code executor: dispatch on the language tag, the JavaScript path (a vm
 * evaluation whose `console.log` calls append to an output buffer) and the
 * Python path (a child process whose stdout/stderr chunks, exit, launch
 * failure and the executor's own timer settle one promise, once).
 *
 * The vm and the child process are not modelled: the JavaScript path is
 * given what the vm did (its `console.log` calls and what it threw), the
 * Python path the sequence of callbacks the event loop delivered.
 */
module Executor {
  import opened Wrappers
  import JsBuiltins

  /** `this.timeout`, used by both paths. */
  const DefaultTimeout: nat := 10000

  const NoOutput := "Code executed successfully (no output)"
  const TimeoutMessage := "Execution timeout"
  const PythonFailed := "Python execution failed"
  const LaunchFailedPrefix := "Failed to start Python: "
  const UnsupportedPrefix := "Unsupported language: "

  /** The state of the promise an execution returns: rejections carry the error's message. */
  datatype Settlement = Pending | Resolved(value: string) | Rejected(message: string)

  /** `resolve`/`reject` on a promise: only the first settlement takes effect. */
  function Settle(current: Settlement, next: Settlement): Settlement {
    if current.Pending? then next else current
  }

  /** `text || fallback`: the empty string is falsy. */
  function OrElse(text: string, fallback: string): string {
    if text != "" then text else fallback
  }

  // ------------------------------------------------------------ dispatch

  datatype Route = JavaScript | Python | Unsupported

  /** The `switch (language)` of `execute`. */
  function RouteOf(language: string): (r: Route)
    ensures r == JavaScript <==> language == "javascript"
    ensures r == Python <==> language == "python"
  {
    if language == "javascript" then JavaScript
    else if language == "python" then Python
    else Unsupported
  }

  // ---------------------------------------------------------- JavaScript

  /**
   * What the vm did with a script: the arguments of each `console.log` call
   * in order (already converted to text), and the message of the error it
   * threw, if any: a fault of the script, or the vm's own timeout error.
   */
  datatype JsRun = JsRun(logs: seq<seq<string>>, thrown: Option<string>)

  /** What one `console.log(...args)` appends: `args.join(' ') + '\n'`. */
  function LogLine(args: seq<string>): (line: string)
    ensures |line| > 0 && line[|line| - 1] == '\n'
    ensures line[..|line| - 1] == JsBuiltins.Join(args, " ")
  {
    JsBuiltins.Join(args, " ") + "\n"
  }

  /** The output of a sequence of `console.log` calls: their lines, in order. */
  function LogText(logs: seq<seq<string>>): string {
    if logs == [] then "" else LogLine(logs[0]) + LogText(logs[1..])
  }

  /** The output of two runs of calls is the output of the first followed by that of the second. */
  lemma {:induction false} LogTextConcat(a: seq<seq<string>>, b: seq<seq<string>>)
    ensures LogText(a + b) == LogText(a) + LogText(b)
    decreases |a|
  {
    if a == [] {
      assert a + b == b;
    } else {
      assert (a + b)[0] == a[0];
      assert (a + b)[1..] == a[1..] + b;
      LogTextConcat(a[1..], b);
    }
  }

  /** One more call appends its line to the output of the calls before it. */
  lemma LogTextExtend(logs: seq<seq<string>>, i: nat)
    requires i < |logs|
    ensures LogText(logs[..i + 1]) == LogText(logs[..i]) + LogLine(logs[i])
  {
    var before, call := logs[..i], [logs[i]];
    assert logs[..i + 1] == before + call;
    LogTextConcat(before, call);
    assert call[1..] == [];
    assert LogText(call) == LogLine(logs[i]) + LogText([]);
  }

  /** Any output of one or more calls ends with the newline of the last call. */
  lemma {:induction false} LogTextEndsWithNewline(logs: seq<seq<string>>)
    requires logs != []
    ensures var t := LogText(logs); |t| > 0 && t[|t| - 1] == '\n'
    decreases |logs|
  {
    if |logs| > 1 {
      LogTextEndsWithNewline(logs[1..]);
    } else {
      assert LogText(logs) == LogLine(logs[0]) + "";
    }
  }

  /** How `executeJavaScript` settles. */
  function JsSettlement(run: JsRun): (r: Settlement)
    ensures !r.Pending?
    ensures r.Rejected? <==> run.thrown.Some?
    ensures r.Resolved? ==> r.value != ""
  {
    match run.thrown
    case Some(message) => Rejected(message)
    case None => Resolved(OrElse(LogText(run.logs), NoOutput))
  }

  /**
   * A script that completes yields the placeholder exactly when it logged
   * nothing: a logged line always ends in a newline, the placeholder does not.
   * A script that throws yields its error, whatever it logged before.
   */
  lemma NoOutputExactlyWhenSilent(run: JsRun)
    ensures run.thrown.None? ==> (JsSettlement(run) == Resolved(NoOutput) <==> run.logs == [])
    ensures run.thrown.Some? ==> JsSettlement(run) == Rejected(run.thrown.value)
  {
    if run.thrown.None? && run.logs != [] {
      LogTextEndsWithNewline(run.logs);
      assert NoOutput[|NoOutput| - 1] == ')';
    }
  }

  /** `executeJavaScript`, with the vm replaced by what it did. */
  method RunJavaScript(run: JsRun) returns (r: Settlement)
    ensures r == JsSettlement(run)
  {
    var output := "";
    var i := 0;
    while i < |run.logs|
      invariant 0 <= i <= |run.logs|
      invariant output == LogText(run.logs[..i])
    {
      // console.log: (...args) => { output += args.join(' ') + '\n'; }
      LogTextExtend(run.logs, i);
      output := output + (JsBuiltins.Join(run.logs[i], " ") + "\n");
      i := i + 1;
    }
    assert run.logs[..i] == run.logs;
    if run.thrown.Some? {
      r := Rejected(run.thrown.value);
    } else {
      r := Resolved(OrElse(output, NoOutput));
    }
  }

  // -------------------------------------------------------------- Python

  /** The callbacks `executePython` registers, as the event loop delivers them. */
  datatype PyEvent =
    | Stdout(chunk: string)          // python.stdout 'data'
    | Stderr(chunk: string)          // python.stderr 'data'
    | Close(code: Option<int>)       // 'close'; None when the process was killed by a signal
    | SpawnError(message: string)    // 'error': the interpreter could not be started
    | TimerFired                     // the setTimeout callback, `timeout` ms after the spawn

  /** The closure state of one `executePython` call. */
  datatype PyState = PyState(output: string, error: string, timerArmed: bool, killed: bool, settled: Settlement)

  /** Right after the spawn: empty buffers, the timer armed, the promise pending. */
  const PyStart := PyState("", "", true, false, Pending)

  /**
   * One callback. A settled promise stays as it is; a chunk settles nothing
   * and leaves the timer alone; `close` and `error` always clear the timer;
   * only an armed timer that fires kills the process.
   */
  function PyStep(st: PyState, e: PyEvent): (r: PyState)
    ensures !st.settled.Pending? ==> r.settled == st.settled
    ensures e.Stdout? || e.Stderr? ==> r.settled == st.settled && r.timerArmed == st.timerArmed
    ensures e.Close? || e.SpawnError? ==> !r.timerArmed && !r.settled.Pending?
    ensures r.killed <==> st.killed || (e.TimerFired? && st.timerArmed)
    ensures r.output == st.output + (if e.Stdout? then e.chunk else "")
    ensures r.error == st.error + (if e.Stderr? then e.chunk else "")
  {
    match e
    case Stdout(chunk) => st.(output := st.output + chunk)
    case Stderr(chunk) => st.(error := st.error + chunk)
    case Close(code) =>
      var outcome := if code != Some(0) then Rejected(OrElse(st.error, PythonFailed))
                     else Resolved(OrElse(st.output, NoOutput));
      st.(timerArmed := false, settled := Settle(st.settled, outcome))
    case SpawnError(message) =>
      st.(timerArmed := false, settled := Settle(st.settled, Rejected(LaunchFailedPrefix + message)))
    case TimerFired =>
      // a cleared timer never fires, and a fired one is spent
      if st.timerArmed then st.(timerArmed := false, killed := true, settled := Settle(st.settled, Rejected(TimeoutMessage)))
      else st
  }

  /** The state after delivering `events`, in order, from `st`. */
  function Deliver(st: PyState, events: seq<PyEvent>): PyState
    decreases |events|
  {
    if events == [] then st else PyStep(Deliver(st, events[..|events| - 1]), events[|events| - 1])
  }

  function PyRun(events: seq<PyEvent>): PyState {
    Deliver(PyStart, events)
  }

  lemma {:induction false} DeliverAppend(st: PyState, a: seq<PyEvent>, b: seq<PyEvent>)
    ensures Deliver(st, a + b) == Deliver(Deliver(st, a), b)
    decreases |b|
  {
    if b == [] {
      assert a + b == a;
    } else {
      assert (a + b)[..|a + b| - 1] == a + b[..|b| - 1];
      DeliverAppend(st, a, b[..|b| - 1]);
    }
  }

  /** The promise settles once: after that, no callback changes its outcome. */
  lemma {:induction false} SettledStays(st: PyState, events: seq<PyEvent>)
    requires !st.settled.Pending?
    ensures Deliver(st, events).settled == st.settled
    decreases |events|
  {
    if events != [] {
      SettledStays(st, events[..|events| - 1]);
    }
  }

  /** A disarmed timer stays disarmed. */
  lemma {:induction false} DisarmedStays(st: PyState, events: seq<PyEvent>)
    requires !st.timerArmed
    ensures !Deliver(st, events).timerArmed && Deliver(st, events).killed == st.killed
    decreases |events|
  {
    if events != [] {
      DisarmedStays(st, events[..|events| - 1]);
    }
  }

  /** The concatenation, in order, of the stdout chunks of `events`. */
  function StdoutText(events: seq<PyEvent>): string {
    if events == [] then ""
    else (if events[0].Stdout? then events[0].chunk else "") + StdoutText(events[1..])
  }

  /** The concatenation, in order, of the stderr chunks of `events`. */
  function StderrText(events: seq<PyEvent>): string {
    if events == [] then ""
    else (if events[0].Stderr? then events[0].chunk else "") + StderrText(events[1..])
  }

  /** One more event extends the stdout text by its chunk, if it is one. */
  lemma {:induction false} StdoutTextSnoc(events: seq<PyEvent>, e: PyEvent)
    ensures StdoutText(events + [e]) == StdoutText(events) + (if e.Stdout? then e.chunk else "")
    decreases |events|
  {
    if events == [] {
      assert [] + [e] == [e];
    } else {
      var all := events + [e];
      assert all[0] == events[0] && all[1..] == events[1..] + [e];
      StdoutTextSnoc(events[1..], e);
      var last := if e.Stdout? then e.chunk else "";
      var first := if events[0].Stdout? then events[0].chunk else "";
      assert StdoutText(all) == first + (StdoutText(events[1..]) + last);
    }
  }

  /** One more event extends the stderr text by its chunk, if it is one. */
  lemma {:induction false} StderrTextSnoc(events: seq<PyEvent>, e: PyEvent)
    ensures StderrText(events + [e]) == StderrText(events) + (if e.Stderr? then e.chunk else "")
    decreases |events|
  {
    if events == [] {
      assert [] + [e] == [e];
    } else {
      var all := events + [e];
      assert all[0] == events[0] && all[1..] == events[1..] + [e];
      StderrTextSnoc(events[1..], e);
      var last := if e.Stderr? then e.chunk else "";
      var first := if events[0].Stderr? then events[0].chunk else "";
      assert StderrText(all) == first + (StderrText(events[1..]) + last);
    }
  }

  /** The two buffers are the in-order concatenations of their chunks. */
  lemma {:induction false} PyBuffersAreChunks(events: seq<PyEvent>)
    ensures PyRun(events).output == StdoutText(events)
    ensures PyRun(events).error == StderrText(events)
    decreases |events|
  {
    if events != [] {
      var init := events[..|events| - 1];
      PyBuffersAreChunks(init);
      StdoutTextSnoc(init, events[|events| - 1]);
      StderrTextSnoc(init, events[|events| - 1]);
      assert init + [events[|events| - 1]] == events;
    }
  }

  /** While the promise is pending every run holds its timer and nothing was killed. */
  lemma {:induction false} PendingKeepsTimer(events: seq<PyEvent>)
    ensures PyRun(events).timerArmed <==> PyRun(events).settled.Pending?
    ensures PyRun(events).settled.Pending? ==> !PyRun(events).killed
    ensures PyRun(events).killed ==> PyRun(events).settled == Rejected(TimeoutMessage)
    decreases |events|
  {
    if events != [] {
      PendingKeepsTimer(events[..|events| - 1]);
    }
  }

  /**
   * The first `close` decides the outcome: exit code 0 resolves with the
   * output so far or the placeholder; anything else (including a kill, which
   * has no code) rejects with the stderr text so far or the generic message.
   */
  lemma CloseDecides(pre: seq<PyEvent>, code: Option<int>, post: seq<PyEvent>)
    requires PyRun(pre).settled.Pending?
    ensures PyRun(pre + [Close(code)] + post).settled
         == if code == Some(0) then Resolved(OrElse(StdoutText(pre), NoOutput))
            else Rejected(OrElse(StderrText(pre), PythonFailed))
  {
    PyBuffersAreChunks(pre);
    PendingKeepsTimer(pre);
    DecidedBy(pre, Close(code), post);
  }

  /** A launch failure rejects with the launch message and clears the timer for good. */
  lemma SpawnErrorDecides(pre: seq<PyEvent>, message: string, post: seq<PyEvent>)
    requires PyRun(pre).settled.Pending?
    ensures var st := PyRun(pre + [SpawnError(message)] + post);
      st.settled == Rejected(LaunchFailedPrefix + message) && !st.timerArmed && !st.killed
  {
    PendingKeepsTimer(pre);
    DecidedBy(pre, SpawnError(message), post);
  }

  /**
   * When the timer fires before any `close` or `error`, the process is killed
   * and the call rejects with the timeout message; a later `close` changes nothing.
   */
  lemma TimeoutWins(pre: seq<PyEvent>, post: seq<PyEvent>)
    requires PyRun(pre).settled.Pending?
    ensures var st := PyRun(pre + [TimerFired] + post);
      st.settled == Rejected(TimeoutMessage) && st.killed
  {
    PendingKeepsTimer(pre);
    DecidedBy(pre, TimerFired, post);
  }

  /**
   * The timer always fires unless a `close` or `error` came first, so a run
   * whose trace contains the timer callback has settled.
   */
  lemma TimerFiredSettles(events: seq<PyEvent>)
    ensures TimerFired in events ==> !PyRun(events).settled.Pending?
  {
    if TimerFired in events {
      var i :| 0 <= i < |events| && events[i] == TimerFired;
      var pre, post := events[..i], events[i + 1..];
      assert events == pre + [TimerFired] + post;
      if PyRun(pre).settled.Pending? {
        TimeoutWins(pre, post);
      } else {
        DeliverAppend(PyStart, pre, [TimerFired] + post);
        assert pre + ([TimerFired] + post) == events;
        SettledStays(PyRun(pre), [TimerFired] + post);
      }
    }
  }

  /** What the deciding callback `e` leaves is what the whole run ends with. */
  lemma DecidedBy(pre: seq<PyEvent>, e: PyEvent, post: seq<PyEvent>)
    requires !e.Stdout? && !e.Stderr?
    requires PyRun(pre).settled.Pending? && PyRun(pre).timerArmed
    ensures var mid := PyStep(PyRun(pre), e);
      && PyRun(pre + [e] + post).settled == mid.settled
      && !PyRun(pre + [e] + post).timerArmed
      && PyRun(pre + [e] + post).killed == mid.killed
  {
    var mid := PyStep(PyRun(pre), e);
    DeliverAppend(PyStart, pre, [e]);
    assert Deliver(PyRun(pre), [e]) == mid by {
      assert [e][..0] == [];
    }
    DeliverAppend(PyStart, pre + [e], post);
    SettledStays(mid, post);
    DisarmedStays(mid, post);
  }

  /** `executePython`, with the child process replaced by the callbacks it caused. */
  method RunPython(events: seq<PyEvent>) returns (r: Settlement, killed: bool)
    ensures r == PyRun(events).settled && killed == PyRun(events).killed
  {
    var output, error := "", "";
    var timerArmed := true;
    killed := false;
    r := Pending;
    var i := 0;
    while i < |events|
      invariant 0 <= i <= |events|
      invariant PyState(output, error, timerArmed, killed, r) == PyRun(events[..i])
    {
      assert events[..i + 1][..i] == events[..i];
      match events[i] {
      case Stdout(chunk) =>
        output := output + chunk;
      case Stderr(chunk) =>
        error := error + chunk;
      case Close(code) =>
        timerArmed := false;
        if code != Some(0) {
          r := Settle(r, Rejected(OrElse(error, PythonFailed)));
        } else {
          r := Settle(r, Resolved(OrElse(output, NoOutput)));
        }
      case SpawnError(message) =>
        timerArmed := false;
        r := Settle(r, Rejected(LaunchFailedPrefix + message));
      case TimerFired =>
        if timerArmed {
          timerArmed := false;
          killed := true;
          r := Settle(r, Rejected(TimeoutMessage));
        }
      }
      i := i + 1;
    }
    assert events[..i] == events;
  }

  // ------------------------------------------------------------- execute

  /** How `execute(language, code)` settles, given what each runtime does with `code` under the time limit. */
  function Outcome(language: string, code: string, timeout: nat,
                   vm: (string, nat) -> JsRun, python: (string, nat) -> seq<PyEvent>): (r: Settlement)
    ensures r.Pending? ==> language == "python" && TimerFired !in python(code, timeout)
    ensures language != "javascript" && language != "python" ==> r == Rejected(UnsupportedPrefix + language)
  {
    match RouteOf(language)
    case JavaScript => JsSettlement(vm(code, timeout))
    case Python =>
      TimerFiredSettles(python(code, timeout));
      PyRun(python(code, timeout)).settled
    case Unsupported => Rejected(UnsupportedPrefix + language)
  }

  /**
   * Each tag reaches at most one runtime: the outcome for 'javascript' does
   * not depend on the Python runtime, that for 'python' not on the vm, and an
   * unsupported tag fails with its message whatever either runtime would do.
   */
  lemma RouteSelectsRuntime(language: string, code: string, timeout: nat,
                            vm1: (string, nat) -> JsRun, vm2: (string, nat) -> JsRun,
                            py1: (string, nat) -> seq<PyEvent>, py2: (string, nat) -> seq<PyEvent>)
    ensures language == "javascript" ==>
      Outcome(language, code, timeout, vm1, py1) == Outcome(language, code, timeout, vm1, py2) == JsSettlement(vm1(code, timeout))
    ensures language == "python" ==>
      Outcome(language, code, timeout, vm1, py1) == Outcome(language, code, timeout, vm2, py1) == PyRun(py1(code, timeout)).settled
    ensures language != "javascript" && language != "python" ==>
      Outcome(language, code, timeout, vm1, py1) == Outcome(language, code, timeout, vm2, py2) == Rejected(UnsupportedPrefix + language)
  {
  }

  class CodeExecutor {
    const timeout: nat

    constructor ()
      ensures timeout == DefaultTimeout
    {
      timeout := DefaultTimeout;
    }

    /** `execute`: both paths run under `this.timeout`. */
    method Execute(language: string, code: string,
                   vm: (string, nat) -> JsRun, python: (string, nat) -> seq<PyEvent>)
      returns (r: Settlement)
      ensures r == Outcome(language, code, timeout, vm, python)
    {
      if language == "javascript" {
        r := RunJavaScript(vm(code, timeout));
      } else if language == "python" {
        var killed;
        r, killed := RunPython(python(code, timeout));
      } else {
        r := Rejected(UnsupportedPrefix + language);
      }
    }
  }
}
