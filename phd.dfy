/**
 * The stand-alone `DumbDrawPhD.py` entry point. Its `EmittingStream` and
 * fence strip are the packaged ones (`LogStream`, `Fence`). Its worker
 * cannot be stopped, its window runs the generated code in-process, and
 * `edit_code` starts two workers with the same inputs.
 */
module Phd {
  import opened Wrappers
  import opened Text
  import opened DeepSeekClient
  import Fence
  import Queues
  import Terminal
  import Polling
  import Generation
  import Supervisor

  const RunHere: string := "▶ 在主线程执行生成代码"
  const Done: string := "完成"
  const ExecFailed: string := "❌ 执行代码失败，错误如下:\n "
  const EditPrompt: string := "你是一个python绘图代码生成工具，你能根据用户的输入直接生成代码。\n        你输出的内容只能有代码，不能有代码之外的其它东西。\n        输出必须是 markdown ``` ``` 包裹的代码。\n        禁止 if __name__ == \"__main__\",代码结尾不要带plt.close()，即使保存了图片，也要plt.show()。\n        除非用户指定了其它语言或者字体，否则务必使用英文作为图注、图题。\n        代码中的注释与用户输入的语言一致\n        "
  const GeneratePrompt: string := "你是一个python绘图代码生成工具，你能根据用户的输入直接生成代码。\n你输出的内容只能有代码，不能有代码之外的其它东西。\n输出必须是 markdown ``` ``` 包裹的代码。\n禁止 if __name__ == \"__main__\",代码结尾不要带plt.close()，即使保存了图片，也要plt.show()。\n除非用户指定了其它语言或者字体，否则务必使用英文作为图注、图题。\n代码中的注释与用户输入的语言一致\n你代码中可以用python内置工具以及以下的第三方工具：\nmatplotlib==3.7.5\nseaborn\npandas\nopenpyxl\npillow\nrequests\nbiopython\nnumpy\nscikit-learn\nscikit-image\nscipy\n"
  const ConnectionPrompt: string := "你是一个python绘图代码生成工具，你能根据用户的输入直接生成代码。\n           你输出的内容只能有代码，不能有代码之外的其它东西。\n           输出必须是 markdown ``` ``` 包裹的代码。\n           禁止 if __name__ == \"__main__\",代码结尾不要带plt.close()，即使保存了图片，也要plt.show()。\n           除非用户指定了其它语言或者字体，否则务必使用英文作为图注、图题。\n           代码中的注释与用户输入的语言一致\n           "

  /** What one run of the worker leaves behind: the code it published and the console log. */
  datatype PhdTrace = PhdTrace(published: Option<string>, printed: seq<string>)

  /** `run()` from the console log `log`: call the model, clean the reply, publish it. */
  function PhdRun(log: seq<string>, outcome: Generation.ClientOutcome): PhdTrace {
    var log := log + [Generation.Starting];
    if outcome.ConstructFailed? then PhdTrace(None, log + [Generation.FailurePrefix + outcome.error])
    else
      var log := log + Generation.CallEcho(outcome);
      if outcome.Streamed? then
        PhdTrace(Some(Generation.Cleaned(outcome.deltas)), log + [Generation.Cleaning] + [Generation.Sent])
      else PhdTrace(None, log + [Generation.FailurePrefix + outcome.error])
  }

  /** What a worker's run puts on the result queue, whatever was logged before it. */
  function Artifacts(outcome: Generation.ClientOutcome): seq<string> {
    if outcome.Streamed? then [Generation.Cleaned(outcome.deltas)] else []
  }

  /** The five checkpoints of the packaged worker when no `stop()` ever runs. */
  const NoStops: seq<bool> := [false, false, false, false, false]

  /**
   * This worker is the packaged one with its cancellation removed: it
   * prints and publishes what the packaged worker does when nobody stops it.
   */
  lemma PackagedUnstopped(log: seq<string>, outcome: Generation.ClientOutcome)
    ensures var r := Generation.RunSpec(log, false, NoStops, outcome);
      PhdRun(log, outcome) == PhdTrace(r.published, r.printed) && !r.stopped
  {
  }

  /**
   * A run publishes the cleaned-up answer when the client answered, and
   * otherwise publishes nothing and ends its log with the error.
   */
  lemma OneArtifactIff(log: seq<string>, outcome: Generation.ClientOutcome)
    ensures var r := PhdRun(log, outcome);
      && Generation.Put(r.published) == Artifacts(outcome)
      && Artifacts(outcome) == (if outcome.Streamed? then [Fence.StripFences(Concat(Pieces(outcome.deltas)))] else [])
      && (!outcome.Streamed? ==> Last(r.printed) == Generation.FailurePrefix + outcome.error)
  {
  }

  /**
   * The two workers `edit_code` starts share the result queue. Each adds
   * one artifact when its client answered; the order they finish in
   * matters exactly when both answered with different code, and two
   * identical answers give the same code twice.
   */
  lemma EditArtifacts(o1: Generation.ClientOutcome, o2: Generation.ClientOutcome)
    ensures var a, b := Artifacts(o1), Artifacts(o2);
      && |a + b| == (if o1.Streamed? then 1 else 0) + (if o2.Streamed? then 1 else 0)
      && (a + b == b + a <==>
            !(o1.Streamed? && o2.Streamed?) || Generation.Cleaned(o1.deltas) == Generation.Cleaned(o2.deltas))
      && (o1 == o2 && o1.Streamed? ==> a + b == [Generation.Cleaned(o1.deltas), Generation.Cleaned(o1.deltas)])
  {
    var a, b := Artifacts(o1), Artifacts(o2);
    if o1.Streamed? && o2.Streamed? && a + b == b + a {
      assert (a + b)[0] == (b + a)[0];
    }
  }

  /** `DumbDrawPhD.AnalyseWorker`: no stop flag and no client field. */
  class PhdWorker {
    const baseUrl: string
    const model: string
    const apiKey: string
    const userQuery: string
    const systemPrompt: string
    const resultQueue: Queues.Queue<string>

    constructor (baseUrl: string, model: string, apiKey: string, userQuery: string,
                 systemPrompt: string, resultQueue: Queues.Queue<string>)
      ensures this.baseUrl == baseUrl && this.model == model && this.apiKey == apiKey
      ensures this.userQuery == userQuery && this.systemPrompt == systemPrompt
      ensures this.resultQueue == resultQueue
    {
      this.baseUrl := baseUrl;
      this.model := model;
      this.apiKey := apiKey;
      this.userQuery := userQuery;
      this.systemPrompt := systemPrompt;
      this.resultQueue := resultQueue;
    }

    /**
     * `run()`, returning the request sent when the call went through. The
     * call passes no `model`, so the request names the client's default
     * model, not the configured one.
     */
    method Run(console: Terminal.Console, outcome: Generation.ClientOutcome) returns (request: Option<Request>)
      modifies console, resultQueue
      ensures console.printed == PhdRun(old(console.printed), outcome).printed
      ensures resultQueue.items == old(resultQueue.items) + Artifacts(outcome)
      ensures request.Some? <==> !outcome.ConstructFailed?
      ensures request.Some? ==>
        && request.value.model == DefaultModel
        && request.value.baseUrl == (if baseUrl == [] then DefaultBaseUrl else baseUrl)
        && request.value.apiKey == apiKey
        && request.value.system == systemPrompt && request.value.query == userQuery
    {
      OneArtifactIff(console.printed, outcome);
      console.Print(Generation.Starting);
      if outcome.ConstructFailed? {
        console.Print(Generation.FailurePrefix + outcome.error);
        return None;
      }
      var client := Create(baseUrl := baseUrl, model := model, apiKey := apiKey);
      var sent, echo, reply := client.GetResponse(userQuery, Generation.DeltasOf(outcome),
        fault := Generation.FaultOf(outcome), prompt := systemPrompt, returnType := "string");
      request := Some(sent);
      console.PrintEach(echo);
      if reply.Err? {
        console.Print(Generation.FailurePrefix + reply.error);
        return;
      }
      console.Print(Generation.Cleaning);
      var code := Fence.StripFences(reply.value.text);
      resultQueue.Put(code);
      console.Print(Generation.Sent);
    }
  }

  /** The `DumbDrawPhD.MainWindow` control logic. */
  class MainWindow {
    const baseUrl: string
    const model: string
    const apiKey: string
    const logQueue: Queues.Queue<string>
    const resultQueue: Queues.Queue<string>
    const console: Terminal.Console
    const view: Polling.LogView
    /** `self.worker`, the last worker started. */
    var worker: PhdWorker?
    var codeView: string
    /** Whether `pushButton_analyse` and `pushButton_send_edit_query` are enabled. */
    var analyseEnabled: bool
    var editEnabled: bool

    /** The queues are distinct and the worker publishes to the result queue. */
    ghost predicate Valid()
      reads this, worker
    {
      logQueue != resultQueue && (worker != null ==> worker.resultQueue == resultQueue)
    }

    constructor (baseUrl: string, model: string, apiKey: string)
      ensures Valid() && worker == null && analyseEnabled && editEnabled
      ensures logQueue.items == [] && resultQueue.items == [] && view.blocks == []
      ensures this.baseUrl == baseUrl && this.model == model && this.apiKey == apiKey
    {
      this.baseUrl := baseUrl;
      this.model := model;
      this.apiKey := apiKey;
      logQueue := new Queues.Queue<string>();
      resultQueue := new Queues.Queue<string>();
      console := new Terminal.Console();
      view := new Polling.LogView();
      worker := null;
      codeView := [];
      analyseEnabled := true;
      editEnabled := true;
    }

    /** `update_log()`. */
    method UpdateLog()
      modifies logQueue, view
      ensures logQueue.items == []
      ensures view.blocks == old(view.blocks) + Polling.Block(old(logQueue.items))
    {
      Polling.UpdateLog(logQueue, view);
    }

    /**
     * `check_result()`: the oldest result, if any, goes into the editor and
     * is executed in-process. `output` is what the code prints and `failure`
     * the exception it raises, if any.
     */
    method CheckResult(output: seq<string>, failure: Option<string>) returns (ran: bool)
      requires Valid()
      modifies this, resultQueue, console
      ensures Valid() && worker == old(worker)
      ensures ran <==> old(resultQueue.items) != []
      ensures !ran ==>
        && resultQueue.items == [] && console.printed == old(console.printed) && codeView == old(codeView)
        && analyseEnabled == old(analyseEnabled) && editEnabled == old(editEnabled)
      ensures ran ==>
        && resultQueue.items == old(resultQueue.items)[1..] && codeView == old(resultQueue.items)[0]
        && analyseEnabled && editEnabled
        && console.printed == old(console.printed) + [RunHere] + output
           + [if failure.Some? then ExecFailed + failure.value else Done]
    {
      var code := Polling.TakeResult(resultQueue);
      if code.None? {
        return false;
      }
      ran := true;
      codeView := code.value;
      console.Print(RunHere);
      console.PrintEach(output);
      if failure.Some? {
        console.Print(ExecFailed + failure.value);
      } else {
        console.Print(Done);
      }
      analyseEnabled := true;
      editEnabled := true;
    }

    /** A new thread and worker for the request; the previous ones are dropped, not stopped. */
    method Launch(query: string, prompt: string) returns (w: PhdWorker)
      requires Valid()
      modifies this, console
      ensures Valid() && fresh(w) && worker == w && codeView == old(codeView)
      ensures analyseEnabled == old(analyseEnabled) && editEnabled == old(editEnabled)
      ensures w.baseUrl == baseUrl && w.model == model && w.apiKey == apiKey
      ensures w.userQuery == query && w.systemPrompt == prompt
      ensures console.printed == old(console.printed) + [Supervisor.ThreadStart]
    {
      console.Print(Supervisor.ThreadStart);
      w := new PhdWorker(baseUrl, model, apiKey, query, prompt, resultQueue);
      worker := w;
    }

    /**
     * `edit_code()`: the launch is written out twice, so two workers with
     * the same request run side by side. `filesNote` is the sentence listing
     * the attached files ("" when there are none).
     */
    method EditCode(query: string, editQuery: string, filesNote: string) returns (first: PhdWorker, second: PhdWorker)
      requires Valid()
      modifies this, console
      ensures Valid() && fresh(first) && fresh(second) && first != second && worker == second
      ensures first.userQuery == second.userQuery == Supervisor.EditRequest(query, old(codeView), editQuery)
      ensures first.systemPrompt == second.systemPrompt == EditPrompt + filesNote
      ensures first.resultQueue == second.resultQueue == resultQueue
      ensures first.model == second.model == model
      ensures !editEnabled && analyseEnabled == old(analyseEnabled)
      ensures console.printed == old(console.printed) + [Supervisor.ThreadStart] + [Supervisor.ThreadStart]
    {
      var request := Supervisor.EditRequest(query, codeView, editQuery);
      first := Launch(request, EditPrompt + filesNote);
      second := Launch(request, EditPrompt + filesNote);
      editEnabled := false;
    }

    /**
     * The two workers of `edit_code` running to their end on the shared
     * result queue, the first one finishing first when `firstDone`, the
     * second one otherwise.
     */
    method FinishBoth(first: PhdWorker, second: PhdWorker, o1: Generation.ClientOutcome,
                      o2: Generation.ClientOutcome, firstDone: bool)
      requires first.resultQueue == resultQueue && second.resultQueue == resultQueue
      modifies console, resultQueue
      ensures resultQueue.items == old(resultQueue.items)
        + (if firstDone then Artifacts(o1) + Artifacts(o2) else Artifacts(o2) + Artifacts(o1))
      ensures console.printed == if firstDone then PhdRun(PhdRun(old(console.printed), o1).printed, o2).printed
                                 else PhdRun(PhdRun(old(console.printed), o2).printed, o1).printed
    {
      if firstDone {
        var _ := first.Run(console, o1);
        var _ := second.Run(console, o2);
      } else {
        var _ := second.Run(console, o2);
        var _ := first.Run(console, o1);
      }
    }

    /** `generate_code()`: one worker with the package list in its prompt. */
    method GenerateCode(query: string, filesNote: string) returns (w: PhdWorker)
      requires Valid()
      modifies this, console
      ensures Valid() && fresh(w) && worker == w
      ensures w.userQuery == query && w.systemPrompt == GeneratePrompt + filesNote
      ensures !analyseEnabled && editEnabled == old(editEnabled)
      ensures console.printed == old(console.printed) + [Supervisor.ThreadStart]
    {
      analyseEnabled := false;
      w := Launch(query, GeneratePrompt + filesNote);
    }

    /** `check_connection()`: a fixed request, no attached files. */
    method CheckConnection() returns (w: PhdWorker)
      requires Valid()
      modifies this, console
      ensures Valid() && fresh(w) && worker == w
      ensures w.userQuery == Supervisor.ConnectionQuery && w.systemPrompt == ConnectionPrompt
      ensures !analyseEnabled && editEnabled == old(editEnabled)
      ensures console.printed == old(console.printed) + [Supervisor.ThreadStart]
    {
      analyseEnabled := false;
      w := Launch(Supervisor.ConnectionQuery, ConnectionPrompt);
    }
  }
}
