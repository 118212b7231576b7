/**
 * The packaged application's code-generation worker (`AnalyseWorker`): it
 * asks the model for code on a background thread, cleans the reply up and
 * hands the code to the main thread through the result queue, unless it
 * has been told to stop.
 *
 * Another thread may call `stop()` at any moment. The model takes those
 * calls as input: `stops[k]` means that `stop()` ran just before the
 * worker's k-th read of `_stop_flag` (k = 0..3 for the four checkpoints,
 * 4 for the read in the exception handler). The client's behaviour is an
 * input too (`ClientOutcome`).
 */
module Generation {
  import opened Wrappers
  import opened Text
  import opened DeepSeekClient
  import Fence
  import Queues
  import Terminal

  const Starting: string := "🚀 开始调用 AI 接口"
  const Halted: string := "⏹️ AI生成已被停止"
  const Cleaning: string := "✅ AI 返回完成，开始清理代码"
  const Sent: string := "📦 代码已发送回主线程"
  const Stopping: string := "🛑 正在停止AI生成..."
  const FailurePrefix: string := "❌ 后台异常: "

  /** What the DeepSeek client does when the worker uses it. */
  datatype ClientOutcome =
    | ConstructFailed(error: string)                  // `DeepSeek(...)` raised
    | CallFailed(error: string)                       // `chat.completions.create` raised
    | StreamFailed(deltas: seq<Delta>, error: string) // the stream raised after these chunks
    | Streamed(deltas: seq<Delta>)                    // the stream delivered these chunks and ended

  /** The chunks `get_response` sees before the stream ends or breaks. */
  function DeltasOf(outcome: ClientOutcome): seq<Delta> {
    if outcome.StreamFailed? || outcome.Streamed? then outcome.deltas else []
  }

  /** How `get_response` fails, if it does, once the client exists. */
  function FaultOf(outcome: ClientOutcome): Fault
    requires !outcome.ConstructFailed?
  {
    match outcome
    case CallFailed(error) => CreateFailed(error)
    case StreamFailed(_, error) => StreamBroke(error)
    case Streamed(_) => NoFault
  }

  /** What `get_response` prints: nothing when the request fails, part of the echo when the stream breaks. */
  function CallEcho(outcome: ClientOutcome): seq<string>
    requires !outcome.ConstructFailed?
  {
    match outcome
    case CallFailed(_) => []
    case StreamFailed(deltas, _) => PartialEcho(deltas)
    case Streamed(deltas) => Echo(deltas)
  }

  /** What one run leaves behind: the code it published, the console log, and the stop flag. */
  datatype RunTrace = RunTrace(published: Option<string>, printed: seq<string>, stopped: bool)

  /** The console log after another thread's `stop()`, when `stop` says it ran at this point. */
  function StopPrinted(log: seq<string>, stop: bool): seq<string> {
    if stop then log + [Stopping] else log
  }

  /** The code the worker publishes for a streamed reply. */
  function Cleaned(deltas: seq<Delta>): string {
    Fence.StripFences(Concat(Pieces(deltas)))
  }

  /** A checkpoint that finds the flag set prints the notice and returns. */
  function Halt(log: seq<string>): RunTrace {
    RunTrace(None, log + [Halted], true)
  }

  /** The exception handler: it reports the error unless the worker has been stopped. */
  function Handler(log: seq<string>, stop: bool, error: string): RunTrace {
    var log := StopPrinted(log, stop);
    RunTrace(None, if stop then log else log + [FailurePrefix + error], stop)
  }

  /**
   * `run()`, started with the stop flag `flag` and the console log `log`:
   * each checkpoint returns with a notice once the flag is set, and the
   * code is published only when the flag is still clear after the clean-up.
   */
  function RunSpec(log: seq<string>, flag: bool, stops: seq<bool>, outcome: ClientOutcome): RunTrace
    requires |stops| == 5
  {
    var log := StopPrinted(log + [Starting], stops[0]);
    if flag || stops[0] then Halt(log)
    else if outcome.ConstructFailed? then Handler(log, stops[4], outcome.error)
    else Connected(log, stops, outcome)
  }

  /** From the second checkpoint on, the client having been built. */
  function Connected(log: seq<string>, stops: seq<bool>, outcome: ClientOutcome): RunTrace
    requires |stops| == 5 && !outcome.ConstructFailed?
  {
    var log := StopPrinted(log, stops[1]);
    if stops[1] then Halt(log)
    else if outcome.Streamed? then Replied(log + Echo(outcome.deltas), stops, outcome.deltas)
    else Handler(log + CallEcho(outcome), stops[4], outcome.error)
  }

  /** From the third checkpoint on, the reply having streamed in. */
  function Replied(log: seq<string>, stops: seq<bool>, deltas: seq<Delta>): RunTrace
    requires |stops| == 5
  {
    var log := StopPrinted(log, stops[2]);
    if stops[2] then Halt(log)
    else Published(StopPrinted(log + [Cleaning], stops[3]), stops[3], Cleaned(deltas))
  }

  /** The last check before `result_queue.put`. */
  function Published(log: seq<string>, stop: bool, code: string): RunTrace {
    if stop then RunTrace(None, log, true) else RunTrace(Some(code), log + [Sent], false)
  }

  /** What `result_queue.put` adds: nothing, or the one published piece of code. */
  function Put(published: Option<string>): (items: seq<string>)
    ensures |items| <= 1
  {
    if published.Some? then [published.value] else []
  }

  /** Some `stop()` ran before one of the four checkpoints. */
  predicate StoppedBeforePublishing(flag: bool, stops: seq<bool>)
    requires |stops| == 5
  {
    flag || stops[0] || stops[1] || stops[2] || stops[3]
  }

  /**
   * A run publishes exactly when the client answered and no checkpoint
   * found the flag set, and then it publishes the cleaned-up answer.
   */
  lemma PublishesIff(log: seq<string>, flag: bool, stops: seq<bool>, outcome: ClientOutcome)
    requires |stops| == 5
    ensures var r := RunSpec(log, flag, stops, outcome);
      && (r.published.Some? <==> outcome.Streamed? && !StoppedBeforePublishing(flag, stops))
      && (r.published.Some? ==> r.published.value == Cleaned(outcome.deltas))
  {
  }

  /** The worker ends with its flag set exactly when some `stop()` ran. */
  lemma StoppedIff(log: seq<string>, flag: bool, stops: seq<bool>, outcome: ClientOutcome)
    requires |stops| == 5
    ensures var r := RunSpec(log, flag, stops, outcome);
      r.stopped <==> flag || Stopped(stops, outcome)
  {
  }

  /** The stops that can still matter once the worker reaches them. */
  predicate Stopped(stops: seq<bool>, outcome: ClientOutcome)
    requires |stops| == 5
  {
    || stops[0]
    || (if outcome.ConstructFailed? then stops[4]
        else stops[1] || if !outcome.Streamed? then stops[4] else stops[2] || stops[3])
  }

  /** The run only appends to the console log. */
  lemma LogGrows(log: seq<string>, flag: bool, stops: seq<bool>, outcome: ClientOutcome)
    requires |stops| == 5
    ensures var r := RunSpec(log, flag, stops, outcome);
      |log| < |r.printed| && r.printed[..|log|] == log && r.printed[|log|] == Starting
  {
    var r := RunSpec(log, flag, stops, outcome);
    var after := log + [Starting];
    var mid := StopPrinted(after, stops[0]);
    assert after <= mid;
    if !flag && !stops[0] && !outcome.ConstructFailed? {
      ConnectedGrows(mid, stops, outcome);
    }
    assert after <= r.printed;
    assert r.printed[..|log|] == after[..|log|] == log;
  }

  /** From the second checkpoint on, the run only appends to the console log. */
  lemma ConnectedGrows(log: seq<string>, stops: seq<bool>, outcome: ClientOutcome)
    requires |stops| == 5 && !outcome.ConstructFailed?
    ensures log <= Connected(log, stops, outcome).printed
  {
    var l := StopPrinted(log, stops[1]);
    assert log <= l;
    if !stops[1] && outcome.Streamed? {
      var echoed := l + Echo(outcome.deltas);
      assert l <= echoed;
      RepliedGrows(echoed, stops, outcome.deltas);
    } else if !stops[1] {
      var echoed := l + CallEcho(outcome);
      assert l <= echoed <= StopPrinted(echoed, stops[4]);
    }
  }

  /** From the third checkpoint on, the run only appends to the console log. */
  lemma RepliedGrows(log: seq<string>, stops: seq<bool>, deltas: seq<Delta>)
    requires |stops| == 5
    ensures log <= Replied(log, stops, deltas).printed
  {
    var l := StopPrinted(log, stops[2]);
    assert log <= l;
    if !stops[2] {
      var cleaning := l + [Cleaning];
      var l3 := StopPrinted(cleaning, stops[3]);
      assert l <= cleaning <= l3;
    }
  }

  /**
   * When the client fails, the failure line ends the log exactly when the
   * error reached the handler and no `stop()` had run by then.
   */
  lemma ErrorReported(log: seq<string>, flag: bool, stops: seq<bool>, outcome: ClientOutcome)
    requires |stops| == 5 && !outcome.Streamed?
    ensures var r := RunSpec(log, flag, stops, outcome);
      var reached := !flag && !stops[0] && (!outcome.ConstructFailed? ==> !stops[1]);
      Last(r.printed) == FailurePrefix + outcome.error <==> reached && !stops[4]
  {
    var failure := FailurePrefix + outcome.error;
    assert Halted != failure by { assert Halted[0] != failure[0]; }
    assert Stopping != failure by { assert Stopping[0] != failure[0]; }
  }

  /** A streamed answer never ends the log with a failure line. */
  lemma NoErrorOnAnswer(log: seq<string>, flag: bool, stops: seq<bool>, deltas: seq<Delta>, error: string)
    requires |stops| == 5
    ensures Last(RunSpec(log, flag, stops, Streamed(deltas)).printed) != FailurePrefix + error
  {
    var failure := FailurePrefix + error;
    assert Halted != failure by { assert Halted[0] != failure[0]; }
    assert Stopping != failure by { assert Stopping[0] != failure[0]; }
    assert Sent != failure by { assert Sent[0] != failure[0]; }
  }

  /** The worker gets as far as calling `get_response`. */
  predicate Calls(flag: bool, stops: seq<bool>, outcome: ClientOutcome)
    requires |stops| == 5
  {
    !flag && !stops[0] && !outcome.ConstructFailed? && !stops[1]
  }

  /** The packaged `AnalyseWorker`. */
  class AnalyseWorker {
    const baseUrl: string
    const model: string
    const apiKey: string
    const userQuery: string
    const systemPrompt: string
    const resultQueue: Queues.Queue<string>
    var stopFlag: bool
    var client: Option<DeepSeek>

    constructor (baseUrl: string, model: string, apiKey: string, userQuery: string,
                 systemPrompt: string, resultQueue: Queues.Queue<string>)
      ensures this.baseUrl == baseUrl && this.model == model && this.apiKey == apiKey
      ensures this.userQuery == userQuery && this.systemPrompt == systemPrompt
      ensures this.resultQueue == resultQueue
      ensures !stopFlag && client == None
    {
      this.baseUrl := baseUrl;
      this.model := model;
      this.apiKey := apiKey;
      this.userQuery := userQuery;
      this.systemPrompt := systemPrompt;
      this.resultQueue := resultQueue;
      stopFlag := false;
      client := None;
    }

    /** `stop()`: raise the flag and say so. */
    method Stop(console: Terminal.Console)
      modifies this, console
      ensures stopFlag && client == old(client)
      ensures console.printed == old(console.printed) + [Stopping]
    {
      stopFlag := true;
      console.Print(Stopping);
    }

    /** Another thread's `stop()` at this point, when `stop` says it happens. */
    method MaybeStopped(console: Terminal.Console, stop: bool)
      modifies this, console
      ensures stopFlag == (old(stopFlag) || stop) && client == old(client)
      ensures console.printed == StopPrinted(old(console.printed), stop)
    {
      if stop {
        Stop(console);
      }
    }

    /**
     * `run()`: the first checkpoint, then building the client. `request`
     * is what `get_response` was asked to send, when the run got that far:
     * the worker's own model, prompt and query.
     */
    method Run(console: Terminal.Console, stops: seq<bool>, outcome: ClientOutcome)
      returns (request: Option<Request>)
      requires |stops| == 5
      modifies this, console, resultQueue
      ensures var r := RunSpec(old(console.printed), old(stopFlag), stops, outcome);
        && resultQueue.items == old(resultQueue.items) + Put(r.published)
        && console.printed == r.printed
        && stopFlag == r.stopped
      ensures request.Some? <==> Calls(old(stopFlag), stops, outcome)
      ensures request.Some? ==>
        && request.value.model == model
        && request.value.baseUrl == (if baseUrl == [] then DefaultBaseUrl else baseUrl)
        && request.value.apiKey == apiKey && request.value.temperature == 0
        && request.value.system == systemPrompt && request.value.query == userQuery
    {
      console.Print(Starting);
      MaybeStopped(console, stops[0]);
      if stopFlag {
        console.Print(Halted);
        request := None;
      } else if outcome.ConstructFailed? {
        ExceptionHandler(console, stops[4], outcome.error);
        request := None;
      } else {
        client := Some(Create(baseUrl := baseUrl, model := model, apiKey := apiKey));
        request := Ask(console, stops, outcome);
      }
    }

    /** The second checkpoint, then calling the model. */
    method Ask(console: Terminal.Console, stops: seq<bool>, outcome: ClientOutcome)
      returns (request: Option<Request>)
      requires |stops| == 5 && !outcome.ConstructFailed? && !stopFlag
      requires client == Some(Create(baseUrl := baseUrl, model := model, apiKey := apiKey))
      modifies this, console, resultQueue
      ensures var r := Connected(old(console.printed), stops, outcome);
        && resultQueue.items == old(resultQueue.items) + Put(r.published)
        && console.printed == r.printed
        && stopFlag == r.stopped
      ensures request.Some? <==> !stops[1]
      ensures request.Some? ==>
        request.value == Request(if baseUrl == [] then DefaultBaseUrl else baseUrl, apiKey, model, systemPrompt, userQuery, 0)
    {
      MaybeStopped(console, stops[1]);
      if stopFlag {
        console.Print(Halted);
        return None;
      }
      var sent, reply := Call(console, outcome);
      request := Some(sent);
      if reply.Err? {
        ExceptionHandler(console, stops[4], reply.error);
      } else {
        Deliver(console, stops, outcome.deltas, reply.value);
      }
    }

    /**
     * `self.client.get_response(query=..., prompt=..., return_type="string",
     * model=self.model)`: the request it sends, its echo printed to the
     * console, and the joined answer or the error it raises.
     */
    method Call(console: Terminal.Console, outcome: ClientOutcome) returns (request: Request, reply: Result<string, string>)
      requires client.Some? && !outcome.ConstructFailed?
      modifies console
      ensures request == Request(client.value.baseUrl, client.value.apiKey, model, systemPrompt, userQuery, 0)
      ensures console.printed == old(console.printed) + CallEcho(outcome)
      ensures outcome.Streamed? ==> reply == Ok(Concat(Pieces(outcome.deltas)))
      ensures !outcome.Streamed? ==> reply == Err(outcome.error)
    {
      var echo, answer;
      request, echo, answer := client.value.GetResponse(userQuery, DeltasOf(outcome), fault := FaultOf(outcome),
        prompt := systemPrompt, returnType := "string", model := model);
      console.PrintEach(echo);
      reply := if answer.Ok? then Ok(answer.value.text) else Err(answer.error);
    }

    /** The third and fourth checkpoints around the clean-up, then publishing. */
    method Deliver(console: Terminal.Console, stops: seq<bool>, ghost deltas: seq<Delta>, reply: string)
      requires |stops| == 5 && !stopFlag && reply == Concat(Pieces(deltas))
      modifies this, console, resultQueue
      ensures var r := Replied(old(console.printed), stops, deltas);
        && resultQueue.items == old(resultQueue.items) + Put(r.published)
        && console.printed == r.printed
        && stopFlag == r.stopped
    {
      MaybeStopped(console, stops[2]);
      if stopFlag {
        console.Print(Halted);
      } else {
        console.Print(Cleaning);
        var code := Fence.StripFences(reply);
        MaybeStopped(console, stops[3]);
        if !stopFlag {
          resultQueue.Put(code);
          console.Print(Sent);
        }
      }
    }

    /** `except Exception as e:` in `run()`. */
    method ExceptionHandler(console: Terminal.Console, stop: bool, error: string)
      requires !stopFlag
      modifies this, console
      ensures stopFlag == stop && client == old(client)
      ensures console.printed == Handler(old(console.printed), stop, error).printed
    {
      MaybeStopped(console, stop);
      if !stopFlag {
        console.Print(FailurePrefix + error);
      }
    }
  }
}
