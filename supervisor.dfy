/**
 * The control logic of the packaged application's `MainWindow`: it owns
 * the current generation worker and the code runner, replaces the worker
 * on every new generation request, stops everything on request, and on
 * each timer tick drains the log queue and hands at most one generated
 * program to the runner.
 *
 * Qt is not modelled: a thread is only "there" or not, `isRunning()` is
 * an input, and the widgets are the log view and the code editor's text.
 * What the window prints goes to `console` (`sys.stdout`).
 */
module Supervisor {
  import opened Wrappers
  import Queues
  import Terminal
  import Polling
  import Generation
  import CodeRunning

  const StoppingAll: string := "🛑 正在停止所有进程..."
  const SignalsSent: string := "✅ 已发送停止信号"
  const AiStopped: string := "⏹️ AI生成已停止"
  const ThreadStopped: string := "🧵 AI线程已停止"
  const ThreadStart: string := "🧵 启动后台线程"
  const RunHint: string := "▶ 在后台进程中执行代码"
  const PackagesNote: string := "注意需要使用的包是否需要安装"
  const ConnectionQuery: string := "画一个正弦函数"
  const ConnectionPrompt: string := "你是一个python绘图代码生成工具，你能根据用户的输入直接生成代码。\n           你输出的内容只能有代码，不能有代码之外的其它东西。\n           输出必须是 markdown ``` ``` 包裹的代码。\n           禁止 if __name__ == \"__main__\",代码结尾不要带plt.close()，即使保存了图片，也要plt.show()。尽量只有一个plt.show(),这样我才能把图都显示出来\n           除非用户指定了其它语言或者字体，否则务必使用英文作为图注、图题。\n           代码中的注释与用户输入的语言一致\n           "

  /** The request `edit_code` sends: the original request, the current code, and the change asked for. */
  function EditRequest(query: string, original: string, edit: string): string {
    "你需要修改代码，这是原始需求：" + query + ", 这是原始代码：" + original + ",这是修改的需求：" + edit
  }

  /** What `stop_ai_generation` prints: for a worker, its own notice and the window's. */
  function StopAiLines(hadWorker: bool, threadAlive: bool): seq<string> {
    (if hadWorker then [Generation.Stopping, AiStopped] else []) + (if threadAlive then [ThreadStopped] else [])
  }

  class MainWindow {
    const baseUrl: string
    const model: string
    const apiKey: string
    const systemPrompt: string
    const logQueue: Queues.Queue<string>
    const resultQueue: Queues.Queue<string>
    const console: Terminal.Console
    const view: Polling.LogView
    const codeRunner: CodeRunning.CodeRunner
    /** `ai_worker`, and whether `ai_thread` is set. */
    var aiWorker: Generation.AnalyseWorker?
    var aiThread: bool
    /** The text in `plainTextEdit_code`. */
    var codeView: string

    /** The queues are distinct, the runner logs to the log queue, and the worker publishes to the result queue. */
    ghost predicate Valid()
      reads this, codeRunner, aiWorker
    {
      && logQueue != resultQueue
      && codeRunner.logQueue == logQueue && codeRunner.Valid()
      && (aiWorker != null ==> aiWorker.resultQueue == resultQueue)
    }

    constructor (baseUrl: string, model: string, apiKey: string, systemPrompt: string)
      ensures Valid() && aiWorker == null && !aiThread
      ensures logQueue.items == [] && resultQueue.items == [] && view.blocks == []
      ensures !codeRunner.running && codeRunner.process == null
      ensures this.baseUrl == baseUrl && this.model == model && this.apiKey == apiKey
      ensures this.systemPrompt == systemPrompt
    {
      this.baseUrl := baseUrl;
      this.model := model;
      this.apiKey := apiKey;
      this.systemPrompt := systemPrompt;
      var logs := new Queues.Queue<string>();
      logQueue := logs;
      resultQueue := new Queues.Queue<string>();
      console := new Terminal.Console();
      view := new Polling.LogView();
      codeRunner := new CodeRunning.CodeRunner(logs);
      aiWorker := null;
      aiThread := false;
      codeView := [];
    }

    /**
     * `stop_ai_generation()`, with `threadAlive` standing for
     * `ai_thread.isRunning()`: the current worker is told to stop, and both
     * references are dropped.
     */
    method StopAiGeneration(threadAlive: bool)
      requires Valid()
      modifies this, console, aiWorker
      ensures Valid() && aiWorker == null && !aiThread && codeView == old(codeView)
      ensures old(aiWorker) != null ==> old(aiWorker).stopFlag
      ensures console.printed == old(console.printed) + StopAiLines(old(aiWorker) != null, old(aiThread) && threadAlive)
    {
      ghost var printed := console.printed;
      if aiWorker != null {
        aiWorker.Stop(console);
        console.Print(AiStopped);
      }
      ghost var middle := console.printed;
      if aiThread && threadAlive {
        console.Print(ThreadStopped);
      }
      assert console.printed == middle + (if aiThread && threadAlive then [ThreadStopped] else []);
      aiWorker := null;
      aiThread := false;
    }

    /** `stop_code_execution()`, with `processAlive` standing for `process.poll() is None`. */
    method StopCodeExecution(processAlive: bool)
      requires Valid()
      modifies codeRunner, logQueue, codeRunner.process
      ensures Valid()
      ensures codeRunner.running == old(codeRunner.running) && codeRunner.process == old(codeRunner.process)
      ensures codeRunner.submitted == old(codeRunner.submitted)
      ensures codeRunner.stopFlag == (old(codeRunner.stopFlag) || codeRunner.running)
      ensures var kill := codeRunner.running && codeRunner.process != null && processAlive;
        && logQueue.items == old(logQueue.items) + (if kill then [CodeRunning.StopAck] else [])
        && (codeRunner.process != null ==>
              codeRunner.process.terminations == old(codeRunner.process.terminations) + (if kill then 1 else 0))
    {
      codeRunner.StopExecution(processAlive);
    }

    /** `stop_all_processes()`: stop the generation, then the run. */
    method StopAllProcesses(threadAlive: bool, processAlive: bool)
      requires Valid()
      modifies this, console, aiWorker, codeRunner, logQueue, codeRunner.process
      ensures Valid() && aiWorker == null && !aiThread && codeView == old(codeView)
      ensures old(aiWorker) != null ==> old(aiWorker).stopFlag
      ensures codeRunner.running == old(codeRunner.running) && codeRunner.process == old(codeRunner.process)
      ensures codeRunner.submitted == old(codeRunner.submitted)
      ensures codeRunner.stopFlag == (old(codeRunner.stopFlag) || codeRunner.running)
      ensures var kill := codeRunner.running && codeRunner.process != null && processAlive;
        && logQueue.items == old(logQueue.items) + (if kill then [CodeRunning.StopAck] else [])
        && (codeRunner.process != null ==>
              codeRunner.process.terminations == old(codeRunner.process.terminations) + (if kill then 1 else 0))
      ensures console.printed == old(console.printed) + [StoppingAll]
        + StopAiLines(old(aiWorker) != null, old(aiThread) && threadAlive) + [SignalsSent]
    {
      console.Print(StoppingAll);
      StopAiGeneration(threadAlive);
      StopCodeExecution(processAlive);
      console.Print(SignalsSent);
    }

    /** `update_log()`. */
    method UpdateLog()
      modifies logQueue, view
      ensures logQueue.items == []
      ensures view.blocks == old(view.blocks) + Polling.Block(old(logQueue.items))
    {
      Polling.UpdateLog(logQueue, view);
    }

    /**
     * `check_result()`: when a result is waiting, the oldest one goes into
     * the editor and to the runner, which starts it unless a run is going on
     * (and then drops it).
     */
    method CheckResult() returns (started: bool)
      requires Valid()
      modifies this, resultQueue, codeRunner
      ensures Valid() && aiWorker == old(aiWorker) && aiThread == old(aiThread)
      ensures old(resultQueue.items) == [] ==>
        && resultQueue.items == [] && codeView == old(codeView) && !started
        && unchanged(codeRunner)
      ensures old(resultQueue.items) != [] ==>
        && resultQueue.items == old(resultQueue.items)[1..]
        && codeView == old(resultQueue.items)[0]
        && started == !old(codeRunner.running) && codeRunner.running
      ensures started ==>
        && codeRunner.submitted == old(resultQueue.items)[0]
        && !codeRunner.stopFlag && codeRunner.process == null
      ensures !started ==>
        && codeRunner.submitted == old(codeRunner.submitted)
        && codeRunner.stopFlag == old(codeRunner.stopFlag) && codeRunner.process == old(codeRunner.process)
    {
      var code := Polling.TakeResult(resultQueue);
      if code.None? {
        return false;
      }
      codeView := code.value;
      started := codeRunner.RunCodeInBackground(code.value);
    }

    /** One firing of both 100 ms timers. */
    method Tick() returns (started: bool)
      requires Valid()
      modifies this, logQueue, view, resultQueue, codeRunner
      ensures Valid()
      ensures aiWorker == old(aiWorker) && aiThread == old(aiThread)
      ensures logQueue.items == [] && view.blocks == old(view.blocks) + Polling.Block(old(logQueue.items))
      ensures old(resultQueue.items) == [] ==>
        && resultQueue.items == [] && codeView == old(codeView) && !started
        && codeRunner.running == old(codeRunner.running) && codeRunner.stopFlag == old(codeRunner.stopFlag)
        && codeRunner.process == old(codeRunner.process) && codeRunner.submitted == old(codeRunner.submitted)
      ensures old(resultQueue.items) != [] ==>
        && resultQueue.items == old(resultQueue.items)[1..]
        && codeView == old(resultQueue.items)[0]
        && started == !old(codeRunner.running) && codeRunner.running
      ensures started ==>
        && codeRunner.submitted == old(resultQueue.items)[0]
        && !codeRunner.stopFlag && codeRunner.process == null
      ensures !started ==>
        && codeRunner.submitted == old(codeRunner.submitted)
        && codeRunner.stopFlag == old(codeRunner.stopFlag) && codeRunner.process == old(codeRunner.process)
    {
      UpdateLog();
      started := CheckResult();
    }

    /** `direct_run()`: run what is in the editor. */
    method DirectRun() returns (started: bool)
      requires Valid()
      modifies console, codeRunner
      ensures Valid()
      ensures console.printed == old(console.printed) + [RunHint]
      ensures started == !old(codeRunner.running) && codeRunner.running
      ensures started ==> codeRunner.submitted == codeView && !codeRunner.stopFlag && codeRunner.process == null
      ensures !started ==>
        && codeRunner.submitted == old(codeRunner.submitted)
        && codeRunner.stopFlag == old(codeRunner.stopFlag) && codeRunner.process == old(codeRunner.process)
    {
      console.Print(RunHint);
      started := codeRunner.RunCodeInBackground(codeView);
    }

    /** A new `QThread` and `AnalyseWorker` for the request, the worker's thread started. */
    method StartWorker(query: string, prompt: string) returns (worker: Generation.AnalyseWorker)
      requires Valid()
      modifies this
      ensures Valid() && fresh(worker) && aiWorker == worker && aiThread && codeView == old(codeView)
      ensures worker.userQuery == query && worker.systemPrompt == prompt
      ensures worker.baseUrl == baseUrl && worker.model == model && worker.apiKey == apiKey
      ensures !worker.stopFlag && worker.client == None
    {
      aiThread := true;
      worker := new Generation.AnalyseWorker(baseUrl, model, apiKey, query, prompt, resultQueue);
      aiWorker := worker;
    }

    /**
     * `generate_code()`: "last request wins". The current worker is told
     * to stop before the new one starts. `tableInfo` is the description of
     * the attached tables appended to the prompt ("" when there are none),
     * and `tableNotes` what their detection printed.
     */
    method GenerateCode(query: string, tableInfo: string, tableNotes: seq<string>, threadAlive: bool)
      returns (worker: Generation.AnalyseWorker)
      requires Valid()
      modifies this, console, aiWorker
      ensures Valid() && fresh(worker) && aiWorker == worker && aiThread
      ensures old(aiWorker) != null ==> old(aiWorker).stopFlag && old(aiWorker) != worker
      ensures worker.userQuery == query && worker.systemPrompt == systemPrompt + PackagesNote + tableInfo
      ensures !worker.stopFlag
      ensures console.printed == old(console.printed) + tableNotes + [ThreadStart]
        + StopAiLines(old(aiWorker) != null, old(aiThread) && threadAlive)
    {
      console.PrintEach(tableNotes);
      console.Print(ThreadStart);
      StopAiGeneration(threadAlive);
      worker := StartWorker(query, systemPrompt + PackagesNote + tableInfo);
    }

    /** `check_connection()`: the same replacement, with a fixed request. */
    method CheckConnection(threadAlive: bool) returns (worker: Generation.AnalyseWorker)
      requires Valid()
      modifies this, console, aiWorker
      ensures Valid() && fresh(worker) && aiWorker == worker && aiThread
      ensures old(aiWorker) != null ==> old(aiWorker).stopFlag && old(aiWorker) != worker
      ensures worker.userQuery == ConnectionQuery && worker.systemPrompt == ConnectionPrompt
      ensures !worker.stopFlag
      ensures console.printed == old(console.printed) + [ThreadStart]
        + StopAiLines(old(aiWorker) != null, old(aiThread) && threadAlive)
    {
      console.Print(ThreadStart);
      StopAiGeneration(threadAlive);
      worker := StartWorker(ConnectionQuery, ConnectionPrompt);
    }

    /**
     * `edit_code()`: unlike `generate_code`, it does not stop the current
     * worker; that one is merely forgotten and goes on to publish its own
     * result.
     */
    method EditCode(query: string, editQuery: string, tableInfo: string, tableNotes: seq<string>)
      returns (worker: Generation.AnalyseWorker)
      requires Valid()
      modifies this, console
      ensures Valid() && fresh(worker) && aiWorker == worker && aiThread
      ensures old(aiWorker) != null ==> old(aiWorker).stopFlag == old(aiWorker.stopFlag)
      ensures worker.userQuery == EditRequest(query, old(codeView), editQuery)
      ensures worker.systemPrompt == systemPrompt + tableInfo && !worker.stopFlag
      ensures console.printed == old(console.printed) + tableNotes + [ThreadStart]
    {
      var request := EditRequest(query, codeView, editQuery);
      console.PrintEach(tableNotes);
      console.Print(ThreadStart);
      worker := StartWorker(request, systemPrompt + tableInfo);
    }
  }
}
