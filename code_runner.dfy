/**
 * The packaged application's `CodeRunner`: it runs generated code in a
 * child Python process on a background thread, one run at a time, and
 * turns the child's output into log lines.
 *
 * Nothing is spawned here. A run is described by a `Script` of what the
 * environment does: whether the temporary file could be made, whether the
 * child could be started, what each turn of the read loop reads, when the
 * child exits and with which code, and when the main thread calls
 * `stop_execution()`: just before one of the worker's reads of
 * `_stop_flag`, or while a turn of the read loop is under way.
 * `ExecuteCode` then makes the very call the main thread would make,
 * `StopExecution`, at that point.
 */
module CodeRunning {
  import opened Wrappers
  import opened Text
  import Queues

  const Created: string := "📝 临时文件已创建: "
  const Interpreter: string := "🐍 使用Python解释器: "
  const Cancelled: string := "⏹️ 代码执行已被取消"
  const InBackground: string := "⏹️ 代码正在后台运行..."
  const Stopping: string := "⏹️ 正在停止代码执行..."
  const StopAck: string := "⏹️ 代码执行已停止"
  const Succeeded: string := "✅ 代码执行完成"
  const FailedWith: string := "❌ 代码执行失败，返回码: "
  const ErrorMark: string := "❌ "
  const Crashed: string := "❌ 执行代码时发生错误: "
  const Deleted: string := "🗑️ 临时文件已删除: "
  const NotDeleted: string := "⚠️ 无法删除临时文件: "

  /** What `readlines()` still returns on the two pipes once the child has exited. */
  datatype Rest = Rest(stdout: seq<string>, stderr: seq<string>)

  /** Where, after its flag check, a turn is when the main thread calls `stop_execution()`, if it does. */
  datatype Pause = NoStop | InStdoutRead | InStderrRead | BeforePoll

  /**
   * One turn of the read loop. `stop`: the main thread called
   * `stop_execution()` just before the turn's flag check; `midStop`: it
   * called it later in the turn, while the worker waited in a `readline()`
   * or before the `poll()`. `alive` says whether that call's `poll()` still
   * found the child running. `stdoutLine` and `stderrLine` are what the two
   * `readline()` calls return ("" at the end of a stream), and `exit` is
   * `Some` when the loop's `poll()` then finds the child gone, with what is
   * left to read.
   */
  datatype Step = Step(stop: bool, midStop: Pause, alive: bool, stdoutLine: string, stderrLine: string,
                       exit: Option<Rest>)

  /** Everything a run depends on besides the code. */
  datatype Script = Script(
    tempFile: Result<string, string>,   // the temporary file's path, or the error creating it
    python: string,                     // `sys.executable`
    stopBeforeSpawn: bool,              // `stop_execution()` ran before the check ahead of `Popen`
    unlinkError: Option<string>,        // the error `os.unlink` raised, if any
    spawnError: Option<string>,         // the error `Popen` raised, if any
    steps: seq<Step>,                   // the turns of the read loop, as far as they are observed
    stopAfterLoop: bool,                // `stop_execution()` ran between the loop and the last check
    returnCode: int)                    // what `wait()` returns

  /**
   * The log a run leaves, whether the stop flag ended up set, whether the
   * run came to its end (`false` when the observed turns ran out with the
   * child still being read), and how many times the child was terminated.
   */
  datatype ExecTrace = ExecTrace(log: seq<string>, stopped: bool, finished: bool, terminations: nat)

  /** The line that reports the child's exit code. */
  function ExitLine(code: int): string {
    if code == 0 then Succeeded else FailedWith + Decimal(code)
  }

  /** `if stdout_line: log_queue.put(stdout_line.rstrip('\n'))`. */
  function PutStdout(log: seq<string>, line: string): seq<string> {
    if line == [] then log else log + [RStripNewlines(line)]
  }

  /** `if stderr_line: log_queue.put(f"❌ {stderr_line.rstrip('\n')}")`. */
  function PutStderr(log: seq<string>, line: string): seq<string> {
    if line == [] then log else log + [ErrorMark + RStripNewlines(line)]
  }

  /** The remaining stdout lines from `i` on, each one only if it is not blank. */
  function DrainStdout(log: seq<string>, lines: seq<string>, i: nat): seq<string>
    requires i <= |lines|
    decreases |lines| - i
  {
    if i == |lines| then log
    else DrainStdout(if IsBlank(lines[i]) then log else log + [RStripNewlines(lines[i])], lines, i + 1)
  }

  /** The remaining stderr lines from `i` on, marked, each one only if it is not blank. */
  function DrainStderr(log: seq<string>, lines: seq<string>, i: nat): seq<string>
    requires i <= |lines|
    decreases |lines| - i
  {
    if i == |lines| then log
    else DrainStderr(if IsBlank(lines[i]) then log else log + [ErrorMark + RStripNewlines(lines[i])], lines, i + 1)
  }

  /** The line a `stop_execution()` call in this turn adds: the acknowledgement, for a live child. */
  function Ack(st: Step): seq<string> {
    if st.alive then [StopAck] else []
  }

  /** The acknowledgement, when the turn's stop comes at `at`. */
  function AckAt(log: seq<string>, st: Step, at: Pause): seq<string> {
    if st.midStop == at then log + Ack(st) else log
  }

  /** The reads of a turn that passed its flag check, with the acknowledgement of a stop among them. */
  function TurnReads(log: seq<string>, st: Step): seq<string> {
    var log := PutStdout(AckAt(log, st, InStdoutRead), st.stdoutLine);
    AckAt(PutStderr(AckAt(log, st, InStderrRead), st.stderrLine), st, BeforePoll)
  }

  /**
   * A turn whose flag check finds the flag set: the acknowledgement of a
   * `stop_execution()` made just before, then the loop's own notice and
   * `terminate()`.
   */
  function Halted(log: seq<string>, kills: nat, st: Step): ExecTrace {
    var acked := if st.stop then Ack(st) else [];
    ExecTrace(log + acked + [Stopping], true, true, kills + |acked| + 1)
  }

  /** The `terminate()` call of a stop during the turn's reads, for a live child. */
  function MidKills(st: Step): nat {
    if st.midStop != NoStop then |Ack(st)| else 0
  }

  /**
   * A turn after which `poll()` finds the child gone: its reads, then what
   * is left on stdout and on stderr. The flag is set exactly when a stop
   * came during the turn.
   */
  function Exited(log: seq<string>, kills: nat, st: Step): ExecTrace
    requires st.exit.Some?
  {
    var rest := st.exit.value;
    ExecTrace(DrainStderr(DrainStdout(TurnReads(log, st), rest.stdout, 0), rest.stderr, 0),
              st.midStop != NoStop, true, kills + MidKills(st))
  }

  /**
   * The read loop from turn `i` on, with the log, the stop flag and the
   * number of `terminate()` calls so far.
   */
  function ReadLoop(log: seq<string>, flag: bool, kills: nat, steps: seq<Step>, i: nat): ExecTrace
    requires i <= |steps|
    decreases |steps| - i
  {
    if i == |steps| then ExecTrace(log, flag, false, kills)
    else
      var st := steps[i];
      if flag || st.stop then Halted(log, kills, st)
      else if st.exit.Some? then Exited(log, kills, st)
      else ReadLoop(TurnReads(log, st), st.midStop != NoStop, kills + MidKills(st), steps, i + 1)
  }

  /** `_cleanup_temp_file(path)`. */
  function Cleanup(log: seq<string>, path: string, unlinkError: Option<string>): seq<string> {
    log + [if unlinkError.None? then Deleted + path else NotDeleted + unlinkError.value]
  }

  /** The child is spawned: the temporary file exists, no stop came first and `Popen` worked. */
  predicate Spawns(flag: bool, s: Script) {
    s.tempFile.Ok? && !flag && !s.stopBeforeSpawn && s.spawnError.None?
  }

  /**
   * `_execute_code(code)` started with the stop flag `flag` and the log
   * `log`.
   */
  function ExecSpec(log: seq<string>, flag: bool, s: Script): ExecTrace {
    if s.tempFile.Err? then ExecTrace(log + [Crashed + s.tempFile.error], flag, true, 0)
    else
      var path := s.tempFile.value;
      var log := log + [Created + path] + [Interpreter + s.python];
      if flag || s.stopBeforeSpawn then ExecTrace(Cleanup(log + [Cancelled], path, s.unlinkError), true, true, 0)
      else
        var log := log + [InBackground];
        if s.spawnError.Some? then ExecTrace(log + [Crashed + s.spawnError.value], false, true, 0)
        else Report(ReadLoop(log, false, 0, s.steps, 0), s)
  }

  /** After the loop: the exit code is reported unless the flag is set by then. */
  function Report(t: ExecTrace, s: Script): ExecTrace {
    if !t.finished || t.stopped then t
    else if s.stopAfterLoop then t.(stopped := true)
    else t.(log := t.log + [ExitLine(s.returnCode)])
  }

  /** A turn in which nothing stops the run and the child does not exit. */
  predicate Quiet(st: Step) {
    !st.stop && st.midStop == NoStop && st.exit.None?
  }

  /** A turn that ends the loop with an exit no stop came before. */
  predicate ExitsUnstopped(st: Step) {
    !st.stop && st.midStop == NoStop && st.exit.Some?
  }

  /** The first turn, from `i` on, that is not quiet. */
  predicate EndsAt(steps: seq<Step>, i: nat, k: int) {
    i <= k < |steps| && !Quiet(steps[k])
    && forall j :: i <= j < k ==> Quiet(steps[j])
  }

  /** The log after turns `i` up to `k` (excluded), all of them quiet. */
  function Turns(log: seq<string>, steps: seq<Step>, i: nat, k: nat): seq<string>
    requires i <= k <= |steps|
    decreases k - i
  {
    if i == k then log
    else Turns(TurnReads(log, steps[i]), steps, i + 1, k)
  }

  /** A quiet turn only adds its reads and leaves the flag clear. */
  lemma QuietTurn(log: seq<string>, steps: seq<Step>, i: nat)
    requires i < |steps| && Quiet(steps[i])
    ensures ReadLoop(log, false, 0, steps, i) == ReadLoop(TurnReads(log, steps[i]), false, 0, steps, i + 1)
  {
  }

  /** The last turn that can reach the log: the first one that is not quiet, or the one after a stop mid-turn. */
  function LastRead(steps: seq<Step>, k: nat): nat
    requires k < |steps|
  {
    if steps[k].stop || steps[k].exit.Some? then k else k + 1
  }

  /**
   * Nothing the child does after the turn that ends the loop reaches the
   * log: in particular, once a stop is seen, later output is never read.
   */
  lemma {:induction false} LaterTurnsIgnored(log: seq<string>, steps: seq<Step>, i: nat, k: nat, later: seq<Step>)
    requires i <= |steps| && EndsAt(steps, i, k) && LastRead(steps, k) < |steps|
    ensures var cut := steps[..LastRead(steps, k) + 1] + later;
      ReadLoop(log, false, 0, cut, i) == ReadLoop(log, false, 0, steps, i)
    decreases k - i
  {
    var cut := steps[..LastRead(steps, k) + 1] + later;
    assert cut[i] == steps[i];
    var st := steps[i];
    if i < k {
      LaterTurnsIgnored(TurnReads(log, st), steps, i + 1, k, later);
    } else if !st.stop && st.exit.None? {
      assert cut[i + 1] == steps[i + 1];
    }
  }

  /**
   * A stop seen at turn `k` ends the log with the acknowledgements, right
   * after the output of the turns before it; the child is terminated by the
   * loop, and once more by `stop_execution()` when it was still alive.
   */
  lemma {:induction false} StopEndsLog(log: seq<string>, steps: seq<Step>, i: nat, k: nat)
    requires i <= |steps| && EndsAt(steps, i, k) && steps[k].stop
    ensures ReadLoop(log, false, 0, steps, i) == Halted(Turns(log, steps, i, k), 0, steps[k])
    ensures var t := ReadLoop(log, false, 0, steps, i);
      && t.stopped && t.finished
      && t.terminations == (if steps[k].alive then 2 else 1)
      && t.log == Turns(log, steps, i, k) + (if steps[k].alive then [StopAck] else []) + [Stopping]
    decreases k - i
  {
    if i < k {
      QuietTurn(log, steps, i);
      StopEndsLog(TurnReads(log, steps[i]), steps, i + 1, k);
    }
  }

  /**
   * An exit seen at turn `k` ends the loop with that turn's reads and what
   * is left on the pipes, stdout first, and without the loop's own stop
   * notice. A stop during that turn leaves the flag set, its
   * acknowledgement among the reads and the child terminated once.
   */
  lemma {:induction false} ExitEndsLog(log: seq<string>, steps: seq<Step>, i: nat, k: nat)
    requires i <= |steps| && EndsAt(steps, i, k) && !steps[k].stop && steps[k].exit.Some?
    ensures ReadLoop(log, false, 0, steps, i) == Exited(Turns(log, steps, i, k), 0, steps[k])
    ensures var t, st := ReadLoop(log, false, 0, steps, i), steps[k];
      && t.stopped == (st.midStop != NoStop) && t.finished
      && t.terminations == (if st.midStop != NoStop && st.alive then 1 else 0)
    decreases k - i
  {
    if i < k {
      QuietTurn(log, steps, i);
      ExitEndsLog(TurnReads(log, steps[i]), steps, i + 1, k);
    }
  }

  /**
   * A stop during turn `k` that the child does not exit from: that turn's
   * reads, the acknowledgement among them, reach the log, and the next
   * flag check ends the loop with the stop notice, if there is a next turn.
   */
  lemma {:induction false} MidStopEndsLog(log: seq<string>, steps: seq<Step>, i: nat, k: nat)
    requires i <= |steps| && EndsAt(steps, i, k) && !steps[k].stop && steps[k].exit.None?
    ensures var t := ReadLoop(log, false, 0, steps, i);
      var read, kills := TurnReads(Turns(log, steps, i, k), steps[k]), MidKills(steps[k]);
      && t.stopped
      && t == if k + 1 == |steps| then ExecTrace(read, true, false, kills) else Halted(read, kills, steps[k + 1])
    decreases k - i
  {
    if i < k {
      QuietTurn(log, steps, i);
      MidStopEndsLog(TurnReads(log, steps[i]), steps, i + 1, k);
    }
  }

  /** Quiet turns leave the loop unfinished, with the child still being read. */
  lemma {:induction false} NoEndUnfinished(log: seq<string>, steps: seq<Step>, i: nat)
    requires i <= |steps|
    requires forall j :: i <= j < |steps| ==> Quiet(steps[j])
    ensures var t := ReadLoop(log, false, 0, steps, i);
      !t.finished && !t.stopped && t.terminations == 0 && t.log == Turns(log, steps, i, |steps|)
    decreases |steps| - i
  {
    if i < |steps| {
      QuietTurn(log, steps, i);
      NoEndUnfinished(TurnReads(log, steps[i]), steps, i + 1);
    }
  }

  /**
   * When the run does not reach the exit-code report (a failure, a
   * cancellation, a stop, or turns that run out), the child's exit code
   * has no influence on the log; when it does, the report is the last line.
   */
  lemma ExitReported(log: seq<string>, flag: bool, s: Script, otherCode: int)
    ensures var t := ExecSpec(log, flag, s);
      var u := ExecSpec(log, flag, s.(returnCode := otherCode));
      if Reports(flag, s) then |u.log| > 0 && t.log == u.log[..|u.log| - 1] + [ExitLine(s.returnCode)] && !t.stopped
      else t.log == u.log
  {
    if Spawns(flag, s) {
      var log1 := log + [Created + s.tempFile.value] + [Interpreter + s.python] + [InBackground];
      LoopOutcome(log1, s.steps);
    }
  }

  /** The loop ends without the flag set exactly when its first turn that is not quiet is an unstopped exit. */
  lemma LoopOutcome(log: seq<string>, steps: seq<Step>)
    ensures var t := ReadLoop(log, false, 0, steps, 0);
      t.finished && !t.stopped <==> exists k :: EndsAt(steps, 0, k) && ExitsUnstopped(steps[k])
  {
    if k :| EndsAt(steps, 0, k) {
      forall k' | EndsAt(steps, 0, k') ensures k' == k {
        FirstEndUnique(steps, k, k');
      }
      if steps[k].stop {
        StopEndsLog(log, steps, 0, k);
      } else if steps[k].exit.Some? {
        ExitEndsLog(log, steps, 0, k);
      } else {
        MidStopEndsLog(log, steps, 0, k);
      }
    } else {
      NoEndBefore(steps, 0);
      NoEndUnfinished(log, steps, 0);
    }
  }

  /** There is only one first turn that is not quiet. */
  lemma FirstEndUnique(steps: seq<Step>, k: nat, k': nat)
    requires EndsAt(steps, 0, k) && EndsAt(steps, 0, k')
    ensures k == k'
  {
    assert !Quiet(steps[k]) && !Quiet(steps[k']);
  }

  /** Without a first turn that is not quiet, every turn is quiet. */
  lemma NoEndBefore(steps: seq<Step>, i: nat)
    requires i <= |steps| && forall k :: !EndsAt(steps, i, k)
    ensures forall j :: i <= j < |steps| ==> Quiet(steps[j])
  {
    if exists j :: i <= j < |steps| && !Quiet(steps[j]) {
      var j :| i <= j < |steps| && !Quiet(steps[j]);
      FirstEnd(steps, i, j);
    }
  }

  /** A turn that is not quiet has a first such turn at or before it. */
  lemma {:induction false} FirstEnd(steps: seq<Step>, i: nat, j: nat)
    requires i <= j < |steps| && !Quiet(steps[j])
    ensures exists k :: EndsAt(steps, i, k)
    decreases j - i
  {
    if !Quiet(steps[i]) {
      assert EndsAt(steps, i, i);
    } else {
      FirstEnd(steps, i + 1, j);
      var k :| EndsAt(steps, i + 1, k);
      assert EndsAt(steps, i, k);
    }
  }

  /** The exit code is reported: the child ran, exited, and no stop came before the last check. */
  ghost predicate Reports(flag: bool, s: Script) {
    Spawns(flag, s) && s.tempFile.Ok? && !s.stopAfterLoop
    && exists k :: EndsAt(s.steps, 0, k) && ExitsUnstopped(s.steps[k])
  }

  /** The exit-code line says "completed" exactly for code 0, and otherwise carries the code. */
  lemma ExitLineCarriesCode(code: int)
    ensures ExitLine(code) == Succeeded <==> code == 0
    ensures code != 0 ==> ParseDecimal(ExitLine(code)[|FailedWith|..]) == code
  {
    if code != 0 {
      assert ExitLine(code)[|FailedWith|..] == Decimal(code);
      DecimalRoundTrip(code);
      assert ExitLine(code)[0] != Succeeded[0];
    }
  }

  /** Every line taken from what is left on stdout after the exit is not blank and has no line end. */
  lemma {:induction false} DrainedLines(log: seq<string>, lines: seq<string>, i: nat)
    requires i <= |lines|
    ensures var r := DrainStdout(log, lines, i);
      && |log| <= |r| && r[..|log|] == log
      && forall j :: |log| <= j < |r| ==> !IsBlank(r[j]) && (r[j] == [] || Last(r[j]) != '\n')
    decreases |lines| - i
  {
    if i < |lines| {
      var next := if IsBlank(lines[i]) then log else log + [RStripNewlines(lines[i])];
      if !IsBlank(lines[i]) {
        RStripKeepsNonBlank(lines[i]);
      }
      DrainedLines(next, lines, i + 1);
      var r := DrainStdout(log, lines, i);
      assert r[..|next|] == next;
      assert r[..|log|] == next[..|log|];
    }
  }

  /** The error mark followed by a non-blank text without a line end. */
  predicate MarkedLine(x: string) {
    |ErrorMark| <= |x| && x[..|ErrorMark|] == ErrorMark
    && var body := x[|ErrorMark|..]; body != [] && !IsBlank(body) && Last(body) != '\n'
  }

  /** A non-blank stderr line is queued as a marked line. */
  lemma MarksLine(line: string)
    requires !IsBlank(line)
    ensures MarkedLine(ErrorMark + RStripNewlines(line))
  {
    var body := RStripNewlines(line);
    RStripKeepsNonBlank(line);
    assert (ErrorMark + body)[|ErrorMark|..] == body;
    assert (ErrorMark + body)[..|ErrorMark|] == ErrorMark;
  }

  /** Every line taken from what is left on stderr after the exit is a marked line. */
  lemma {:induction false} DrainedErrorLines(log: seq<string>, lines: seq<string>, i: nat)
    requires i <= |lines|
    ensures var r := DrainStderr(log, lines, i);
      && |log| <= |r| && r[..|log|] == log
      && forall j :: |log| <= j < |r| ==> MarkedLine(r[j])
    decreases |lines| - i
  {
    if i < |lines| {
      var next := if IsBlank(lines[i]) then log else log + [ErrorMark + RStripNewlines(lines[i])];
      if !IsBlank(lines[i]) {
        MarksLine(lines[i]);
      }
      DrainedErrorLines(next, lines, i + 1);
      var r := DrainStderr(log, lines, i);
      assert r[..|next|] == next;
      assert r[..|log|] == next[..|log|];
    }
  }

  /** The child process `Popen` started: its command line and the text of the file it runs. */
  class Child {
    const argv: seq<string>
    const source: string
    /** How many times `terminate()` has been called on it. */
    var terminations: nat

    constructor (argv: seq<string>, source: string)
      ensures this.argv == argv && this.source == source && terminations == 0
    {
      this.argv := argv;
      this.source := source;
      terminations := 0;
    }

    /** `process.terminate()`. */
    method Terminate()
      modifies this
      ensures terminations == old(terminations) + 1
    {
      terminations := terminations + 1;
    }
  }

  class CodeRunner {
    const logQueue: Queues.Queue<string>
    var process: Child?
    var running: bool
    var stopFlag: bool
    /** The code the last started run was handed (the worker thread's argument). */
    ghost var submitted: string

    /** Between runs there is no child. */
    ghost predicate Valid()
      reads this
    {
      !running ==> process == null
    }

    constructor (logQueue: Queues.Queue<string>)
      ensures this.logQueue == logQueue && process == null && !running && !stopFlag && Valid()
    {
      this.logQueue := logQueue;
      process := null;
      running := false;
      stopFlag := false;
      submitted := [];
    }

    /**
     * `run_code_in_background(code)`: while a run is going on, nothing
     * happens and `code` is dropped; otherwise the runner is marked running
     * with a clear flag, and `started` says the worker thread is to run
     * `ExecuteCode` on `code`, which becomes `submitted`.
     */
    method RunCodeInBackground(code: string) returns (started: bool)
      requires Valid()
      modifies this
      ensures Valid() && started == !old(running)
      ensures !started ==> running && stopFlag == old(stopFlag) && process == old(process)
                           && submitted == old(submitted)
      ensures started ==> running && !stopFlag && process == null && submitted == code
    {
      if running {
        return false;
      }
      running := true;
      stopFlag := false;
      submitted := code;
      started := true;
    }

    /**
     * `stop_execution()`, called while `poll()` would say whether the
     * child is `alive`: only a running run is stopped, and only a live
     * child is terminated, with a line saying so.
     */
    method StopExecution(alive: bool)
      modifies this, logQueue, process
      ensures running == old(running) && process == old(process) && submitted == old(submitted)
      ensures stopFlag == (old(stopFlag) || running)
      ensures var kill := running && process != null && alive;
        && logQueue.items == old(logQueue.items) + (if kill then [StopAck] else [])
        && (process != null ==> process.terminations == old(process.terminations) + (if kill then 1 else 0))
    {
      if running {
        stopFlag := true;
        if process != null && alive {
          process.Terminate();
          logQueue.Put(StopAck);
        }
      }
    }

    /**
     * `_execute_code(code)` on the worker thread that
     * `run_code_in_background` started with `code`, with the environment's
     * behaviour given by `s`. `child` is the process it spawned, if any,
     * running exactly that code. A run that comes to its end always leaves
     * `running` cleared and no child behind.
     */
    method ExecuteCode(code: string, s: Script) returns (child: Child?)
      requires running && process == null && code == submitted
      modifies this, logQueue
      ensures Valid() && submitted == old(submitted)
      ensures var t := ExecSpec(old(logQueue.items), old(stopFlag), s);
        && logQueue.items == t.log && stopFlag == t.stopped
        && running == !t.finished
        && process == (if t.finished then null else child)
        && (child != null <==> Spawns(old(stopFlag), s))
        && (child != null ==> fresh(child) && child.argv == [s.python, s.tempFile.value]
                              && child.source == code && child.terminations == t.terminations)
    {
      if s.tempFile.Err? {
        logQueue.Put(Crashed + s.tempFile.error);
        running, process := false, null;
        return null;
      }
      var path := s.tempFile.value;
      logQueue.Put(Created + path);
      logQueue.Put(Interpreter + s.python);
      if s.stopBeforeSpawn {
        StopExecution(false);
      }
      if stopFlag {
        logQueue.Put(Cancelled);
        CleanupTempFile(path, s.unlinkError);
        running, process := false, null;
        return null;
      }
      logQueue.Put(InBackground);
      if s.spawnError.Some? {
        logQueue.Put(Crashed + s.spawnError.value);
        running, process := false, null;
        return null;
      }
      child := new Child([s.python, path], code);
      process := child;
      var finished := ReadOutput(child, s.steps);
      if !finished {
        return;
      }
      if !stopFlag && s.stopAfterLoop {
        StopExecution(false);
      }
      if !stopFlag {
        logQueue.Put(ExitLine(s.returnCode));
      }
      running, process := false, null;
    }

    /** The `while True:` loop reading the child's two pipes. */
    method ReadOutput(child: Child, steps: seq<Step>) returns (finished: bool)
      requires running && !stopFlag && process == child && child.terminations == 0
      modifies this, logQueue, child
      ensures var t := ReadLoop(old(logQueue.items), false, 0, steps, 0);
        && logQueue.items == t.log && stopFlag == t.stopped && finished == t.finished
        && child.terminations == t.terminations
        && running && process == child && submitted == old(submitted)
    {
      ghost var whole := ReadLoop(logQueue.items, false, 0, steps, 0);
      var i := 0;
      while i < |steps|
        invariant i <= |steps| && running && process == child && submitted == old(submitted)
        invariant ReadLoop(logQueue.items, stopFlag, child.terminations, steps, i) == whole
        decreases |steps| - i
      {
        finished := ReadTurn(child, steps, i);
        if finished {
          return;
        }
        i := i + 1;
      }
      finished := false;
    }

    /**
     * One turn of the read loop: the flag check, the two `readline()` calls
     * and the `poll()`, with the main thread's `stop_execution()` wherever
     * the turn has one. `done` says the turn left the loop.
     */
    method ReadTurn(child: Child, steps: seq<Step>, i: nat) returns (done: bool)
      requires i < |steps| && running && process == child
      modifies this, logQueue, child
      ensures running && process == child && submitted == old(submitted)
      ensures var t := ReadLoop(old(logQueue.items), old(stopFlag), old(child.terminations), steps, i);
        && (done ==> t == ExecTrace(logQueue.items, stopFlag, true, child.terminations))
        && (!done ==> ReadLoop(logQueue.items, stopFlag, child.terminations, steps, i + 1) == t)
    {
      var st := steps[i];
      if st.stop {
        StopExecution(st.alive);
      }
      if stopFlag {
        logQueue.Put(Stopping);
        child.Terminate();
        return true;
      }
      ReadPipes(child, st);
      if st.exit.Some? {
        DrainStdoutLines(st.exit.value.stdout);
        DrainStderrLines(st.exit.value.stderr);
        return true;
      }
      return false;
    }

    /**
     * The part of a turn after a flag check that found the flag clear: the
     * two `readline()` calls, with the main thread's `stop_execution()`
     * where the turn has it.
     */
    method ReadPipes(child: Child, st: Step)
      requires running && process == child && !stopFlag
      modifies this, logQueue, child
      ensures running && process == child && submitted == old(submitted)
      ensures logQueue.items == TurnReads(old(logQueue.items), st)
      ensures stopFlag == (st.midStop != NoStop)
      ensures child.terminations == old(child.terminations) + (if st.midStop != NoStop then |Ack(st)| else 0)
    {
      ghost var log := logQueue.items;
      StopAt(child, st, InStdoutRead);
      if st.stdoutLine != [] {
        logQueue.Put(RStripNewlines(st.stdoutLine));
      }
      assert logQueue.items == PutStdout(AckAt(log, st, InStdoutRead), st.stdoutLine);
      log := logQueue.items;
      StopAt(child, st, InStderrRead);
      if st.stderrLine != [] {
        logQueue.Put(ErrorMark + RStripNewlines(st.stderrLine));
      }
      assert logQueue.items == PutStderr(AckAt(log, st, InStderrRead), st.stderrLine);
      StopAt(child, st, BeforePoll);
    }

    /** The main thread's `stop_execution()`, when the turn has it at `at`. */
    method StopAt(child: Child, st: Step, at: Pause)
      requires running && process == child
      modifies this, logQueue, child
      ensures running && process == child && submitted == old(submitted)
      ensures logQueue.items == AckAt(old(logQueue.items), st, at)
      ensures stopFlag == (old(stopFlag) || st.midStop == at)
      ensures child.terminations == old(child.terminations) + (if st.midStop == at then |Ack(st)| else 0)
    {
      if st.midStop == at {
        StopExecution(st.alive);
      }
    }

    /** `for line in self.process.stdout.readlines()`: the non-blank lines, without their line ends. */
    method DrainStdoutLines(lines: seq<string>)
      modifies logQueue
      ensures logQueue.items == DrainStdout(old(logQueue.items), lines, 0)
    {
      for i := 0 to |lines|
        invariant DrainStdout(logQueue.items, lines, i) == DrainStdout(old(logQueue.items), lines, 0)
      {
        StripEmptyIffBlank(lines[i]);
        if Strip(lines[i]) != [] {
          logQueue.Put(RStripNewlines(lines[i]));
        }
      }
    }

    /** `for line in self.process.stderr.readlines()`: the same, marked as errors. */
    method DrainStderrLines(lines: seq<string>)
      modifies logQueue
      ensures logQueue.items == DrainStderr(old(logQueue.items), lines, 0)
    {
      for i := 0 to |lines|
        invariant DrainStderr(logQueue.items, lines, i) == DrainStderr(old(logQueue.items), lines, 0)
      {
        StripEmptyIffBlank(lines[i]);
        if Strip(lines[i]) != [] {
          logQueue.Put(ErrorMark + RStripNewlines(lines[i]));
        }
      }
    }

    /** `_cleanup_temp_file(path)`: deleting the file, or reporting why it could not be. */
    method CleanupTempFile(path: string, unlinkError: Option<string>)
      modifies logQueue
      ensures logQueue.items == Cleanup(old(logQueue.items), path, unlinkError)
    {
      if unlinkError.None? {
        logQueue.Put(Deleted + path);
      } else {
        logQueue.Put(NotDeleted + unlinkError.value);
      }
    }
  }
}
