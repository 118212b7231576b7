# DumbyDraw core, modelled in Dafny

DumbyDraw is a desktop tool that asks a DeepSeek-compatible chat model for
Python plotting code and runs it. It has two entry points:

- the packaged application, `src/dumbydraw/DumbyDraw.py`;
- the older stand-alone script, `DumbDrawPhD.py`.

This project models the part of both that moves text between threads:

- **Log stream.** `EmittingStream` replaces `sys.stdout`/`sys.stderr`. It
  cuts written text into lines and queues the non-blank ones for the log
  view. Module `LogStream`.
- **Fence strip.** Both generation workers apply the same clean-up to the
  model's reply. Module `Fence`.
- **Packaged generation worker.** `AnalyseWorker` checks its stop flag at
  four points and publishes at most one piece of code. Module `Generation`.
- **Code runner.** `CodeRunner` runs the code in a child process, reads its
  two pipes, and reports how the child ended. Module `CodeRunning`.
- **Packaged window logic.** The `MainWindow` control logic drains the
  queues on each timer tick, replaces or stops the worker, and stops
  everything on request. Modules `Polling` and `Supervisor`.
- **Stand-alone variant.** The script's worker cannot be stopped, its window
  runs the code in-process, and its `edit_code` starts two identical
  workers. Module `Phd`.
- **Client.** The `DeepSeek` client picks its default endpoint, echoes the
  streamed reasoning and answer line by line, and joins the chunks. Module
  `DeepSeekClient`.

Supporting modules:

- `Text` gives Python's `str.strip`, `rstrip('\n')`, `split("\n")`,
  `"\n".join`, `''.join` and `str(int)` their meaning.
- `Queues` is `queue.Queue`.
- `Terminal` records what `print` is called with.
- `Wrappers` holds `Option` and `Result`.

How the model represents the world:

- **Threads.** Only one interleaving is modelled per run. Another thread's
  `stop()`/`stop_execution()` call is an input saying where it happened:
  just before one of the worker's flag reads, or, for the code runner,
  while a turn of the read loop waits in a `readline()` or before its
  `poll()`. The worker then makes that very method call at that point, so
  the flag can only be raised.
- **Client and child process.** The client's stream is given as its deltas,
  with the error that ends it early, if any. The child process is given as
  a `Script` of what each `readline()` and `poll()` returns.
- **Printing.** `Terminal.Console` records the messages passed to `print`.
  `LogStream.PrintAllLogged` states which log lines those messages become
  once `sys.stdout` is an `EmittingStream`.

Where the code differs from what its comments and documentation suggest,
the model follows the code:

- **The fence strip is not idempotent.** It keeps the line break after an
  opening fence (`Fence.WorkedExample`, `Fence.NotIdempotent`).
- **A rejected run is silent.** When `run_code_in_background` is called
  during a run, it returns without logging anything.
- **The temporary file stays after a normal run.** It is deleted only on
  the early-cancel path.
- **Packaged `edit_code` does not stop the current worker.** It only drops
  the reference to it.
- **The stand-alone worker ignores the configured model.** It calls
  `get_response` without `model=`, so the request names the client's
  default model (`Phd.PhdWorker.Run`).
- **A stop during a read is not announced by the loop.** When
  `stop_execution()` runs while the worker waits in `readline()` and the
  child then exits, the log holds the acknowledgement, that turn's reads
  and the drained rest, but neither the loop's "stopping" line nor an exit
  line (`CodeRunning.ExitEndsLog`, `CodeRunning.ExitReported`).
- **A late stop hides the exit code.** A `stop_execution()` that arrives
  after the child has exited, but before the final flag check, suppresses
  the exit-code line.
- **Blank stdout lines reach the log.** A stdout line read by `readline()`
  inside the loop is queued even when it is blank (only end-of-stream is
  skipped). The lines drained after the exit are filtered.

## Model

| member | source | states |
|---|---|---|
| Text.StripEmptyIffBlank | src/dumbydraw/DumbyDraw.py:124 | `line.strip()` is empty exactly when every character of the line is Python whitespace |
| Text.RStripNewlines | src/dumbydraw/DumbyDraw.py:673 | `rstrip('\n')` gives a prefix of the line that does not end in a newline, and only newlines were removed |
| Text.SplitOnce | src/dumbydraw/DumbyDraw.py:123 | `split("\n", 1)` on a buffer holding a newline gives the text before the first newline and the rest, which put back together with the newline are the buffer |
| Text.SegmentsJoin | src/dumbydraw/DumbyDraw.py:1049-1050 | splitting `"\n".join(lines)` at newlines gives the lines back when none holds a newline |
| Text.JoinSegments | src/dumbydraw/DumbyDraw.py:1049-1050 | joining the pieces of a text with newlines gives the text back |
| Text.DecimalRoundTrip | src/dumbydraw/DumbyDraw.py:695 | the decimal text of any return code, negative ones included, reads back as that code |
| LogStream.EmittingStream.Write | src/dumbydraw/DumbyDraw.py:116-125 | after `write(text)` the queue holds the old entries followed by the non-blank complete lines of buffer + text, in order, and the buffer holds the unterminated rest without a newline |
| LogStream.EmittingStream.Flush | src/dumbydraw/DumbyDraw.py:127-130 | `flush()` queues the pending text exactly when it is not blank and always empties the buffer |
| LogStream.Print | src/dumbydraw/DumbyDraw.py:116-125 | `print(message)` is a write of the message followed by a write of the line end |
| LogStream.WriteShape | src/dumbydraw/DumbyDraw.py:116-125 | a write never changes lines already queued, leaves no newline in the buffer, and adds only non-blank, newline-free lines |
| LogStream.WriteEmpty | src/dumbydraw/DumbyDraw.py:117-118 | `write("")` changes nothing |
| LogStream.WriteCompose | src/dumbydraw/DumbyDraw.py:116-125 | writing `a` then `b` leaves the same buffer and queue as writing `a + b`: how output is chunked does not matter |
| LogStream.CutStep | src/dumbydraw/DumbyDraw.py:122-125 | one turn of the loop in `write` takes the line before the first newline off the buffer and queues it unless it is blank |
| LogStream.PrintMessage | src/dumbydraw/DumbyDraw.py:116-125 | printing a message with nothing pending queues the message's non-blank lines in order and leaves nothing pending |
| LogStream.PrintLine | src/dumbydraw/DumbyDraw.py:116-125 | printing a one-line message with nothing pending queues exactly that line unless it is blank |
| LogStream.PrintAllLogged | src/dumbydraw/DumbyDraw.py:116-125 | a sequence of prints from an empty buffer queues the non-blank lines of each message, message after message |
| LogStream.PrintThenFlush | deepseek.py:55 | `print(line, flush=True)`: the flush after a print finds nothing pending and queues nothing |
| LogStream.FlushTwice | src/dumbydraw/DumbyDraw.py:127-130 | after a flush the buffer is empty, so a second flush changes nothing |
| LogStream.FlushQueues | src/dumbydraw/DumbyDraw.py:127-130 | a flush adds one queue entry exactly when the pending text is not blank, and keeps the earlier entries |
| LogStream.EmittingStream.constructor | src/dumbydraw/DumbyDraw.py:112-114 | a new stream writes to the given queue and has nothing pending |
| Queues.Queue.constructor | src/dumbydraw/DumbyDraw.py:763-764 | `queue.Queue()` starts empty |
| Queues.Queue.Put | src/dumbydraw/DumbyDraw.py:610 | `put` adds the item at the back, keeping the others |
| Queues.Queue.Empty | src/dumbydraw/DumbyDraw.py:1046 | `empty()` is true exactly when nothing is queued |
| Queues.Queue.Get | src/dumbydraw/DumbyDraw.py:1047 | `get()` on a non-empty queue returns the oldest item and leaves the rest in order |
| Fence.FenceSlice | src/dumbydraw/DumbyDraw.py:601-607 | the cleaned code is one contiguous slice of the stripped reply: 0, 3 or 9 characters dropped at the front and 0 or 3 at the back |
| Fence.NoFences | src/dumbydraw/DumbyDraw.py:601-607 | a reply with no opening and no closing fence is published stripped and otherwise unchanged |
| Fence.PythonFenceRoundTrip | src/dumbydraw/DumbyDraw.py:601-607 | code wrapped as "```python" + code + "```" is given back exactly |
| Fence.BareFenceRoundTrip | src/dumbydraw/DumbyDraw.py:601-607 | code wrapped in bare "```" fences is given back, except that a leading word "python" is dropped with the opener |
| Fence.WorkedExample | src/dumbydraw/DumbyDraw.py:601-607 | "```python\nprint(1)\n```" becomes "\nprint(1)\n": the line break after the opener stays |
| Fence.NotIdempotent | src/dumbydraw/DumbyDraw.py:601-607 | cleaning that result again gives "print(1)", so the clean-up is not idempotent |
| Fence.StripFences | src/dumbydraw/DumbyDraw.py:601-607 | the cleaned code is never longer than the trimmed reply, and is shorter exactly when the trimmed reply starts or ends with a fence |
| DeepSeekClient.Create | deepseek.py:8-24 | an empty base URL becomes "https://api.siliconflow.cn/v1/", any other is kept verbatim; key, prompt and model are stored unchanged |
| DeepSeekClient.DeepSeek.GetResponse | deepseek.py:26-91 | the request carries the client's URL and key and the call's model, prompt, query and temperature; a failing `create` prints nothing and raises; a stream that breaks prints `PartialEcho(deltas)` and raises; a complete one prints `Echo(deltas)` and returns the joined pieces for "string", the list of pieces otherwise |
| DeepSeekClient.PartialEchoPrefix | deepseek.py:47-85 | a stream that breaks has printed a prefix of what the complete stream prints, missing at most the pending last line |
| DeepSeekClient.EchoChars | deepseek.py:64-68 | the per-character loop prints every non-empty complete line and keeps the unterminated rest as `current_line` |
| DeepSeekClient.ReasoningStep | deepseek.py:62-69 | a reasoning chunk extends the part being printed, keeping the printed lines and pending line in step with the stream so far |
| DeepSeekClient.ContentStep | deepseek.py:71-83 | the first content chunk flushes the pending line and prints the banner once; every content chunk extends the output part |
| DeepSeekClient.FinalFlush | deepseek.py:85 | the last `flush_line` completes the echo: header, non-empty thinking lines, then banner and non-empty output lines if content came |
| DeepSeekClient.JoinedIsStream | deepseek.py:88-89 | `''.join(full_response)` is every reasoning and content character of the stream, in order |
| DeepSeekClient.PiecesNonEmpty | deepseek.py:62-83 | only non-empty chunk fields are appended to `full_response` |
| DeepSeekClient.PhasesCoverStream | deepseek.py:58-83 | the text echoed before the banner and the text echoed after it together are the whole stream |
| DeepSeekClient.NoOutputYet | deepseek.py:72-75 | before any content has arrived nothing is echoed as output |
| DeepSeekClient.AnsweredIff | deepseek.py:72-75 | the client switches to output exactly when some chunk carries content |
| DeepSeekClient.BannerOnce | deepseek.py:72-75 | the banner is printed once when some chunk carries content and never otherwise |
| DeepSeekClient.EchoNonEmpty | deepseek.py:52-56 | `flush_line` never prints an empty line |
| DeepSeekClient.ThinkingOnly | deepseek.py:58-85 | a reasoning-only stream echoes the header and the non-empty lines of the whole stream |
| Generation.AnalyseWorker.constructor | src/dumbydraw/DumbyDraw.py:554-563 | a new worker keeps its settings and result queue, with the stop flag clear and no client |
| Generation.AnalyseWorker.Stop | src/dumbydraw/DumbyDraw.py:565-568 | `stop()` raises the flag and prints the stopping notice |
| Generation.AnalyseWorker.MaybeStopped | src/dumbydraw/DumbyDraw.py:565-568 | another thread's `stop()` just before a flag read raises the flag and prints its notice; without one nothing changes |
| Generation.AnalyseWorker.Run | src/dumbydraw/DumbyDraw.py:570-615 | the result queue gains `Put` of what `RunSpec` publishes, the console log and the stop flag become what `RunSpec` says; a request is sent exactly when the run reaches `get_response`, and it names the worker's own model, prompt and query, the resolved URL, the key and temperature 0 |
| Generation.AnalyseWorker.Ask | src/dumbydraw/DumbyDraw.py:578-597 | from the second checkpoint on the run follows `Connected`; the request is sent exactly when no stop came at that checkpoint, with the worker's model, prompt and query |
| Generation.AnalyseWorker.Call | src/dumbydraw/DumbyDraw.py:588-593 | the request names the client's URL and key and the worker's model, prompt and query; the console gets the client's echo (none, partial or whole); the result is the joined reply or the client's error |
| Generation.AnalyseWorker.Deliver | src/dumbydraw/DumbyDraw.py:595-611 | from the third checkpoint on the run follows `Replied`: the cleaned code is queued only if the flag is still clear after the clean-up |
| Generation.AnalyseWorker.ExceptionHandler | src/dumbydraw/DumbyDraw.py:613-615 | the failure line is printed exactly when the flag is clear when the handler reads it |
| Generation.Put | src/dumbydraw/DumbyDraw.py:609-611 | a run adds at most one piece of code to the result queue |
| Generation.PublishesIff | src/dumbydraw/DumbyDraw.py:574-611 | a run publishes exactly when the client answered and no stop came before any of the four checkpoints, and then publishes the fence-stripped answer |
| Generation.StoppedIff | src/dumbydraw/DumbyDraw.py:565-615 | the worker ends with its flag raised exactly when it started raised or a stop came before a flag read the run reached |
| Generation.LogGrows | src/dumbydraw/DumbyDraw.py:570-615 | a run only appends to the console log, starting with the "start" line |
| Generation.ErrorReported | src/dumbydraw/DumbyDraw.py:613-615 | on a client failure, including a stream that breaks after part of its echo, the failure line ends the log exactly when the error reached the handler with no stop before it |
| Generation.NoErrorOnAnswer | src/dumbydraw/DumbyDraw.py:570-615 | a run whose client answered never ends with a failure line |
| CodeRunning.CodeRunner.constructor | src/dumbydraw/DumbyDraw.py:622-626 | a new runner logs to the given queue, with no child, not running, flag clear |
| CodeRunning.Child.constructor | src/dumbydraw/DumbyDraw.py:657-663 | the child keeps the command line and the code it runs, not yet terminated |
| CodeRunning.CodeRunner.RunCodeInBackground | src/dumbydraw/DumbyDraw.py:628-637 | a call during a run changes nothing and drops the code; otherwise the runner is marked running with a clear flag and the worker thread is handed exactly this code |
| CodeRunning.CodeRunner.StopExecution | src/dumbydraw/DumbyDraw.py:711-717 | only a running run gets its flag raised; only a live child is terminated, once, with the "stopped" line |
| CodeRunning.CodeRunner.ExecuteCode | src/dumbydraw/DumbyDraw.py:639-701 | the log, flag and termination count follow `ExecSpec`; a child is spawned exactly when the file exists, no stop came first and `Popen` worked, with argv [python, path] and the handed code as its program; a finished run leaves `running` clear and no child |
| CodeRunning.CodeRunner.ReadOutput | src/dumbydraw/DumbyDraw.py:665-688 | the read loop leaves the log, flag and termination count that `ReadLoop` gives |
| CodeRunning.CodeRunner.ReadTurn | src/dumbydraw/DumbyDraw.py:666-688 | one turn, with any stop the main thread makes in it, either leaves the loop in the state `ReadLoop` ends with or continues from the state `ReadLoop` continues from |
| CodeRunning.CodeRunner.ReadPipes | src/dumbydraw/DumbyDraw.py:671-679 | the two reads of a turn queue `TurnReads`: the stdout line, then the marked stderr line, with the acknowledgement of a stop during the turn where it came; the flag is then set exactly when such a stop came |
| CodeRunning.CodeRunner.StopAt | src/dumbydraw/DumbyDraw.py:711-717 | a `stop_execution()` at this point of the turn raises the flag and, for a live child, terminates it once and queues the acknowledgement |
| CodeRunning.CodeRunner.DrainStdoutLines | src/dumbydraw/DumbyDraw.py:681-683 | the lines left on stdout are queued without line ends, blank ones skipped, in order |
| CodeRunning.CodeRunner.DrainStderrLines | src/dumbydraw/DumbyDraw.py:684-687 | the lines left on stderr are queued marked "❌ ", blank ones skipped, in order |
| CodeRunning.CodeRunner.CleanupTempFile | src/dumbydraw/DumbyDraw.py:703-709 | the log gets the "deleted" line with the path, or the "could not delete" line with the error |
| CodeRunning.Child.Terminate | src/dumbydraw/DumbyDraw.py:668 | each `terminate()` is counted |
| CodeRunning.StopEndsLog | src/dumbydraw/DumbyDraw.py:666-669 | a stop just before the flag check of the first turn that is not quiet ends the log with the acknowledgement (child alive) and the "stopping" line, after the earlier turns' output; the child is terminated twice if alive, else once |
| CodeRunning.ExitEndsLog | src/dumbydraw/DumbyDraw.py:671-688 | an exit seen at a turn ends the loop with that turn's reads, then the rest of stdout, then the rest of stderr, with no "stopping" line; the flag is set and the child terminated once exactly when a stop came during that turn |
| CodeRunning.MidStopEndsLog | src/dumbydraw/DumbyDraw.py:665-688 | a stop during a turn the child does not exit in logs that turn's reads with the acknowledgement among them; the next flag check then ends the loop with the "stopping" line, or the run stays unfinished if no turn follows |
| CodeRunning.NoEndUnfinished | src/dumbydraw/DumbyDraw.py:665-688 | turns without a stop or an exit leave the loop unfinished with just their output logged |
| CodeRunning.LaterTurnsIgnored | src/dumbydraw/DumbyDraw.py:665-688 | nothing after the turn that ends the loop (or, after a stop during a turn, the turn after it) reaches the log |
| CodeRunning.LoopOutcome | src/dumbydraw/DumbyDraw.py:665-688 | the loop ends with the flag clear exactly when its first turn with a stop or an exit is an exit with no stop in it |
| CodeRunning.ExitReported | src/dumbydraw/DumbyDraw.py:690-695 | when the child ran, exited and no stop came before the last check, the log ends with the line for this exit code and the run is not stopped; otherwise the exit code has no influence on the log |
| CodeRunning.ExitLineCarriesCode | src/dumbydraw/DumbyDraw.py:692-695 | the exit line says "completed" exactly for code 0, and otherwise carries the code, which reads back |
| CodeRunning.DrainedLines | src/dumbydraw/DumbyDraw.py:681-683 | every line drained from stdout after the exit is non-blank and has no line end, and earlier log lines stay |
| CodeRunning.MarksLine | src/dumbydraw/DumbyDraw.py:684-687 | a non-blank stderr line is queued as "❌ " followed by a non-blank text without a line end |
| CodeRunning.DrainedErrorLines | src/dumbydraw/DumbyDraw.py:684-687 | every line drained from stderr after the exit is "❌ " followed by a non-blank text without a line end, and earlier log lines stay |
| Polling.DrainAll | src/dumbydraw/DumbyDraw.py:1045-1047 | the loop takes every queued line, oldest first, and leaves the queue empty |
| Polling.UpdateLog | src/dumbydraw/DumbyDraw.py:1044-1050 | the log queue is emptied and the view gains one block of the drained lines joined by newlines, or nothing if there were none |
| Polling.TakeResult | src/dumbydraw/DumbyDraw.py:1052-1056 | an empty result queue gives nothing; otherwise the oldest result is taken and the rest stay |
| Polling.BlockLines | src/dumbydraw/DumbyDraw.py:1049-1050 | the block shows each drained newline-free line on a line of its own, in queue order |
| Polling.StreamedBlock | src/dumbydraw/DumbyDraw.py:1044-1050 | lines queued by the stream show up in the view exactly as the non-blank complete lines written |
| Supervisor.MainWindow.constructor | src/dumbydraw/DumbyDraw.py:763-775 | two empty, distinct queues, the runner logging to the log queue, no worker and no thread |
| Supervisor.MainWindow.StopAiGeneration | src/dumbydraw/DumbyDraw.py:933-947 | a current worker is told to stop; the notices printed depend on whether there was a worker and a running thread; both references are cleared |
| Supervisor.MainWindow.StopCodeExecution | src/dumbydraw/DumbyDraw.py:949-951 | the runner's `stop_execution()`: the flag is raised if a run is going on, a live child is terminated once with the acknowledgement queued, and the run state and handed code stay |
| Supervisor.MainWindow.StopAllProcesses | src/dumbydraw/DumbyDraw.py:917-931 | between the two banner lines, the worker is stopped and dropped and the runner gets `stop_execution()`: flag raised if running, a live child terminated once with the acknowledgement queued, `running`, the child and the editor unchanged |
| Supervisor.MainWindow.UpdateLog | src/dumbydraw/DumbyDraw.py:1044-1050 | as `Polling.UpdateLog` on the window's queue and view |
| Supervisor.MainWindow.CheckResult | src/dumbydraw/DumbyDraw.py:1052-1062 | with no result nothing changes; otherwise the oldest result leaves the queue and goes into the editor; the runner starts exactly that code with a clear flag unless a run is going on, in which case the runner is left as it was |
| Supervisor.MainWindow.Tick | src/dumbydraw/DumbyDraw.py:781-787 | one tick of both timers drains the log queue into the view and does what `CheckResult` does: the rest of the result queue stays, the editor shows the oldest result, which the runner starts unless busy |
| Supervisor.MainWindow.DirectRun | src/dumbydraw/DumbyDraw.py:1064-1067 | prints the hint and hands the editor's text to the runner, which starts exactly that text with a clear flag unless a run is going on |
| Supervisor.MainWindow.StartWorker | src/dumbydraw/DumbyDraw.py:1088-1100 | a fresh worker with the window's settings, the request and the result queue becomes the current one |
| Supervisor.MainWindow.GenerateCode | src/dumbydraw/DumbyDraw.py:1069-1100 | the previous worker is told to stop before a fresh one starts with the prompt plus the package note and table description |
| Supervisor.MainWindow.CheckConnection | src/dumbydraw/DumbyDraw.py:1140-1165 | the previous worker is told to stop before a fresh one starts with the fixed sine request and prompt |
| Supervisor.MainWindow.EditCode | src/dumbydraw/DumbyDraw.py:980-1016 | a fresh worker gets the edit request built from the original request, the editor's code and the change; the previous worker's flag is left alone |
| Phd.PhdWorker.constructor | DumbDrawPhD.py:47-54 | a new worker keeps its settings and result queue |
| Phd.PhdWorker.Run | DumbDrawPhD.py:56-86 | the console follows `PhdRun` and the queue gains `Artifacts`; a request is sent exactly when the client was built, and it names the default model, the resolved URL, the key, the prompt and the query |
| Phd.PackagedUnstopped | DumbDrawPhD.py:56-86 | the stand-alone worker publishes and prints exactly what the packaged worker does when no stop ever comes |
| Phd.OneArtifactIff | DumbDrawPhD.py:74-86 | a run queues exactly the fence-stripped answer when the stream completed, and otherwise nothing, ending its log with the error |
| Phd.EditArtifacts | DumbDrawPhD.py:151-178 | the two workers of one edit queue one artifact per completed stream; the order they finish in changes the queue exactly when both answered with different code; identical answers give the same code twice |
| Phd.MainWindow.constructor | DumbDrawPhD.py:101-115 | two empty, distinct queues, no worker, both buttons enabled |
| Phd.MainWindow.UpdateLog | DumbDrawPhD.py:216-222 | as `Polling.UpdateLog` on the window's queue and view |
| Phd.MainWindow.CheckResult | DumbDrawPhD.py:227-241 | with no result nothing changes; otherwise the oldest result goes into the editor, the run notice, the code's output and "完成" or the error are printed, and both buttons are enabled again |
| Phd.MainWindow.Launch | DumbDrawPhD.py:149-163 | prints the launch line and makes a fresh worker with the window's settings the current one; the previous one is not stopped |
| Phd.MainWindow.EditCode | DumbDrawPhD.py:131-179 | two distinct fresh workers with the same request, prompt, model and queue; the launch line twice; the send button disabled |
| Phd.MainWindow.FinishBoth | DumbDrawPhD.py:151-178 | the two edit workers finishing in either order leave the shared queue with both artifacts in that order and the console with both runs' lines in that order |
| Phd.MainWindow.GenerateCode | DumbDrawPhD.py:255-296 | the analyse button is disabled and one worker starts with the package-list prompt |
| Phd.MainWindow.CheckConnection | DumbDrawPhD.py:333-365 | the analyse button is disabled and one worker starts with the fixed sine request |

## Left out

- The Qt user interface: widgets, dialogs, drag and drop, the file list, the edit frame toggle. The log view is a list of appended blocks and the editor is a string.
- The upgrade dialog and `UpgradeWorker`, including the upgrade branch of `stop_all_processes`.
- Reading and saving the configuration file, and `detect_table_files`/`build_file_previews`. The table description and the lines its detection prints are inputs to `GenerateCode` and `EditCode`; the stand-alone file list is the input `filesNote`.
- Threads: `QThread`, `threading.Thread`, `quit`/`wait`/`terminate` of the AI thread. A thread is present or not, `isRunning()` is an input, and each run is one interleaving. Another thread's `stop()` is modelled at most once before each flag read; `stop_execution()` at most once before each flag read of the code runner and once more during each turn's reads (in the first `readline()`, in the second, or before `poll()`). A stop during the drain after the exit is the stop between the loop and the last check: the exited child is not terminated again by it.
- `print` calls from several threads interleaving in one shared log: each worker's console log is modelled on its own.
- The OpenAI client and the network: the stream is given as its deltas and the error that ends it early, if any (`Fault`); a chunk counts whole, since both of its fields are read before anything of it is printed. The request is returned as a value. `DeepSeek.check_connection` is not part of this model.
- `tempfile`, `os.unlink`, `subprocess.Popen`, `sys.executable` and the pipes: their results are the `Script` inputs. A failure inside the read loop (a pipe error) is not modelled; failures before the loop are.
- `exec` of the generated code in the stand-alone window: what the code prints and the error it raises are inputs. `direct_run` of the stand-alone window is left out with it.
- Supervisor.MainWindow.CheckResult: does not model the `except` around `run_code_in_background`, which can only catch a failure to start a thread.
- CodeRunning.CodeRunner.ReadOutput: turns are observed only as far as the script goes; when they run out without a stop or an exit, the run is reported unfinished with `running` still set, rather than reading forever.
