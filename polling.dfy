/**
 * What the main window's timers do with the two queues, in both entry
 * points: `update_log` empties the log queue into the log view, and
 * `check_result` takes at most one piece of generated code per tick.
 */
module Polling {
  import opened Wrappers
  import opened Text
  import Queues
  import LogStream

  /** What one `update_log` adds to the log view: the drained lines as one block, if any. */
  function Block(lines: seq<string>): seq<string> {
    if lines == [] then [] else [JoinLines(lines)]
  }

  /** `textBrowser_log`: the blocks appended to it, oldest first. */
  class LogView {
    var blocks: seq<string>

    constructor ()
      ensures blocks == []
    {
      blocks := [];
    }

    /** `textBrowser_log.append(text)`. */
    method Append(text: string)
      modifies this
      ensures blocks == old(blocks) + [text]
    {
      blocks := blocks + [text];
    }
  }

  /** `while not q.empty(): lines.append(q.get())`: every queued line, oldest first. */
  method DrainAll(q: Queues.Queue<string>) returns (lines: seq<string>)
    modifies q
    ensures lines == old(q.items) && q.items == []
  {
    lines := [];
    var empty := q.Empty();
    while !empty
      invariant lines + q.items == old(q.items)
      invariant empty <==> q.items == []
      decreases |q.items|
    {
      var line := q.Get();
      lines := lines + [line];
      empty := q.Empty();
    }
  }

  /** `update_log()`: drain the log queue and append what came out as one block. */
  method UpdateLog(logQueue: Queues.Queue<string>, view: LogView)
    requires logQueue != view as object
    modifies logQueue, view
    ensures logQueue.items == []
    ensures view.blocks == old(view.blocks) + Block(old(logQueue.items))
  {
    var lines := DrainAll(logQueue);
    if lines != [] {
      view.Append(JoinLines(lines));
    }
  }

  /** The first half of `check_result()`: take the oldest result, if there is one. */
  method TakeResult(resultQueue: Queues.Queue<string>) returns (code: Option<string>)
    modifies resultQueue
    ensures old(resultQueue.items) == [] ==> code == None && resultQueue.items == []
    ensures old(resultQueue.items) != [] ==>
      code == Some(old(resultQueue.items)[0]) && resultQueue.items == old(resultQueue.items)[1..]
  {
    var empty := resultQueue.Empty();
    if empty {
      return None;
    }
    var c := resultQueue.Get();
    code := Some(c);
  }

  /**
   * A block of lines without line breaks splits back into those lines, so
   * the view shows each drained line on a line of its own, in queue order.
   */
  lemma BlockLines(lines: seq<string>)
    requires lines != []
    requires forall k :: 0 <= k < |lines| ==> '\n' !in lines[k]
    ensures |Block(lines)| == 1 && Segments(Block(lines)[0]) == lines
  {
    SegmentsJoin(lines);
  }

  /**
   * Lines that reached the log queue through an `EmittingStream` hold no
   * line breaks, so the block `update_log` makes of them shows exactly those
   * lines: the text written since the queue was last drained, cut at its
   * newlines, with the blank lines dropped.
   */
  lemma StreamedBlock(buffer: string, text: string)
    requires '\n' !in buffer
    ensures var after := LogStream.WriteSpec(LogStream.StreamState(buffer, []), text);
      var pieces := Segments(buffer + text);
      && after.queued == NonBlankOnly(Init(pieces))
      && (after.queued != [] ==> Segments(Block(after.queued)[0]) == after.queued)
  {
    var after := LogStream.WriteSpec(LogStream.StreamState(buffer, []), text);
    LogStream.WriteShape(LogStream.StreamState(buffer, []), text);
    if after.queued != [] {
      BlockLines(after.queued);
    }
  }
}
