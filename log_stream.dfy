/**
 * The line-buffered stream that both entry points install as `sys.stdout`
 * and `sys.stderr`: text written to it is cut at newlines, and every
 * complete line that is not blank goes to the shared log queue, while the
 * unterminated rest waits in a buffer.
 *
 * `StreamState` and the `...Spec` functions say what the stream does to
 * its state; `EmittingStream` is the stream itself, whose methods are
 * proved to follow them.
 */
module LogStream {
  import opened Text
  import Queues

  /** The pending, unterminated line and the lines in the log queue. */
  datatype StreamState = StreamState(buffer: string, queued: seq<string>)

  /** `write(text)`: the complete lines of `buffer + text` that are not blank join the queue. */
  function WriteSpec(s: StreamState, text: string): StreamState {
    var pieces := Segments(s.buffer + text);
    StreamState(Last(pieces), s.queued + NonBlankOnly(Init(pieces)))
  }

  /** `flush()`: a buffer that is not blank joins the queue, and the buffer is emptied. */
  function FlushSpec(s: StreamState): StreamState {
    StreamState([], s.queued + if IsBlank(s.buffer) then [] else [s.buffer])
  }

  /** `print(message)`: Python writes the message, then the line end, as two writes. */
  function PrintSpec(s: StreamState, message: string): StreamState {
    WriteSpec(WriteSpec(s, message), "\n")
  }

  /** Several `print` calls in a row. */
  function PrintAll(s: StreamState, messages: seq<string>): StreamState {
    if messages == [] then s else PrintSpec(PrintAll(s, Init(messages)), Last(messages))
  }

  /**
   * After a write the buffer holds no newline, the lines queued before stay
   * in place, and every line added is non-blank and holds no newline.
   */
  lemma WriteShape(s: StreamState, text: string)
    ensures var r := WriteSpec(s, text);
      && '\n' !in r.buffer
      && |s.queued| <= |r.queued| && r.queued[..|s.queued|] == s.queued
      && forall k :: |s.queued| <= k < |r.queued| ==> !IsBlank(r.queued[k]) && '\n' !in r.queued[k]
  {
    var pieces := Segments(s.buffer + text);
    SegmentsNoNewline(s.buffer + text);
    var added := NonBlankOnly(Init(pieces));
    var r := WriteSpec(s, text);
    assert r.queued[..|s.queued|] == s.queued;
    forall k | |s.queued| <= k < |r.queued|
      ensures !IsBlank(r.queued[k]) && '\n' !in r.queued[k]
    {
      var x := added[k - |s.queued|];
      assert r.queued[k] == x;
      NonBlankOnlyKeeps(Init(pieces), x);
    }
  }

  /** `write("")` changes nothing. */
  lemma WriteEmpty(s: StreamState)
    requires '\n' !in s.buffer
    ensures WriteSpec(s, []) == s
  {
    assert s.buffer + [] == s.buffer;
    SegmentsOfLine(s.buffer);
  }

  /** Two writes in a row leave the state one write of both texts leaves. */
  lemma WriteCompose(s: StreamState, a: string, b: string)
    ensures WriteSpec(WriteSpec(s, a), b) == WriteSpec(s, a + b)
  {
    var first := Segments(s.buffer + a);
    var second := Segments(Last(first) + b);
    var whole := Segments(s.buffer + (a + b));
    assert Init(whole) == Init(first) + Init(second) && Last(whole) == Last(second) by {
      SplitTwice(s.buffer, a, b);
    }
    var x, y := NonBlankOnly(Init(first)), NonBlankOnly(Init(second));
    assert NonBlankOnly(Init(whole)) == x + y by {
      NonBlankOnlyAppend(Init(first), Init(second));
    }
    var s1 := WriteSpec(s, a);
    assert s1 == StreamState(Last(first), s.queued + x);
    assert WriteSpec(s1, b) == StreamState(Last(second), (s.queued + x) + y);
    assert (s.queued + x) + y == s.queued + (x + y);
  }

  /** The pieces of `buffer + a + b`, from those of `buffer + a` and of the rest. */
  lemma SplitTwice(buffer: string, a: string, b: string)
    ensures var first := Segments(buffer + a);
      var second := Segments(Last(first) + b);
      var whole := Segments(buffer + (a + b));
      Init(whole) == Init(first) + Init(second) && Last(whole) == Last(second)
  {
    var first := Segments(buffer + a);
    var second := Segments(Last(first) + b);
    assert buffer + (a + b) == (buffer + a) + b;
    SegmentsAppend(buffer + a, b);
    var whole := Init(first) + second;
    assert Init(whole) == Init(first) + Init(second);
  }

  /** Printing a line with nothing pending queues that line, unless it is blank. */
  lemma PrintLine(q: seq<string>, line: string)
    requires '\n' !in line
    ensures PrintSpec(StreamState([], q), line)
         == StreamState([], q + if IsBlank(line) then [] else [line])
  {
    PrintMessage(q, line);
    SegmentsOfLine(line);
    assert NonBlankOnly([line]) == (if IsBlank(line) then [] else [line]) + NonBlankOnly([]);
  }

  /**
   * Printing a message with nothing pending queues the message's non-blank
   * lines, in order, and leaves nothing pending.
   */
  lemma PrintMessage(q: seq<string>, message: string)
    ensures PrintSpec(StreamState([], q), message)
         == StreamState([], q + NonBlankOnly(Segments(message)))
  {
    WriteCompose(StreamState([], q), message, "\n");
    assert [] + (message + "\n") == message + "\n";
    SegmentsNewlineEnd(message);
    var pieces := Segments(message);
    assert Init(pieces + [[]]) == pieces;
  }

  /** The log lines a run of messages printed from an empty buffer becomes. */
  function Logged(messages: seq<string>): seq<string> {
    if messages == [] then [] else Logged(Init(messages)) + NonBlankOnly(Segments(Last(messages)))
  }

  /**
   * Printing several messages with nothing pending queues the non-blank
   * lines of each message, message after message, and leaves nothing pending.
   */
  lemma {:induction false} PrintAllLogged(q: seq<string>, messages: seq<string>)
    ensures PrintAll(StreamState([], q), messages) == StreamState([], q + Logged(messages))
  {
    if messages != [] {
      var front, m := Init(messages), Last(messages);
      var mid := PrintAll(StreamState([], q), front);
      assert mid == StreamState([], q + Logged(front)) by {
        PrintAllLogged(q, front);
      }
      assert PrintSpec(mid, m) == StreamState([], q + Logged(front) + NonBlankOnly(Segments(m))) by {
        PrintMessage(q + Logged(front), m);
      }
      var lines := NonBlankOnly(Segments(m));
      assert Logged(messages) == Logged(front) + lines;
      assert q + Logged(front) + lines == q + Logged(messages);
    }
  }

  /** `print(..., flush=True)`: the flush after a print finds nothing pending. */
  lemma PrintThenFlush(s: StreamState, message: string)
    ensures FlushSpec(PrintSpec(s, message)) == PrintSpec(s, message)
  {
    var mid := WriteSpec(s, message);
    SegmentsNewlineEnd(mid.buffer);
    assert IsBlank([]);
  }

  /** A flush leaves nothing pending, so a second flush queues nothing. */
  lemma FlushTwice(s: StreamState)
    ensures FlushSpec(s).buffer == []
    ensures FlushSpec(FlushSpec(s)) == FlushSpec(s)
  {
    assert IsBlank([]);
  }

  /** A flush queues the pending text exactly when it is not blank. */
  lemma FlushQueues(s: StreamState)
    ensures |FlushSpec(s).queued| == |s.queued| + 1 <==> !IsBlank(s.buffer)
    ensures FlushSpec(s).queued[..|s.queued|] == s.queued
  {
  }

  /** One turn of the loop in `write`: the line before the first newline leaves the buffer. */
  lemma CutStep(line: string, rest: string)
    requires '\n' !in line
    ensures var pieces := Segments(line + "\n" + rest);
      && NonBlankOnly(Init(pieces))
         == (if IsBlank(line) then [] else [line]) + NonBlankOnly(Init(Segments(rest)))
      && Last(pieces) == Last(Segments(rest))
  {
    SegmentsAtNewline(line, rest);
    assert Init([line] + Segments(rest)) == [line] + Init(Segments(rest));
    NonBlankOnlyAppend([line], Init(Segments(rest)));
  }

  /** Python's `EmittingStream`, writing into a log queue it shares with others. */
  class EmittingStream {
    const logQueue: Queues.Queue<string>
    var buffer: string

    /** Every write leaves the buffer without a newline. */
    ghost predicate Valid()
      reads this
    {
      '\n' !in buffer
    }

    ghost function State(): StreamState
      reads this, logQueue
    {
      StreamState(buffer, logQueue.items)
    }

    constructor (logQueue: Queues.Queue<string>)
      ensures this.logQueue == logQueue && buffer == [] && Valid()
    {
      this.logQueue := logQueue;
      buffer := [];
    }

    /** `write(text)`: cut the complete lines off the front of the buffer, one at a time. */
    method Write(text: string)
      requires Valid()
      modifies this, logQueue
      ensures Valid()
      ensures State() == WriteSpec(old(State()), text)
    {
      if text == [] {
        WriteEmpty(State());
        return;
      }
      ghost var whole := buffer + text;
      ghost var done: seq<string> := [];
      buffer := buffer + text;
      while '\n' in buffer
        invariant logQueue.items == old(logQueue.items) + done
        invariant done + NonBlankOnly(Init(Segments(buffer))) == NonBlankOnly(Init(Segments(whole)))
        invariant Last(Segments(buffer)) == Last(Segments(whole))
        decreases |buffer|
      {
        var line, rest := SplitOnce(buffer, '\n').0, SplitOnce(buffer, '\n').1;
        ghost var kept := if IsBlank(line) then [] else [line];
        CutStep(line, rest);
        assert done + NonBlankOnly(Init(Segments(buffer)))
            == (done + kept) + NonBlankOnly(Init(Segments(rest)));
        done := done + kept;
        buffer := rest;
        StripEmptyIffBlank(line);
        if Strip(line) != [] {
          logQueue.Put(line);
        }
      }
      SegmentsOfLine(buffer);
    }

    /** `flush()`. */
    method Flush()
      modifies this, logQueue
      ensures Valid()
      ensures State() == FlushSpec(old(State()))
    {
      StripEmptyIffBlank(buffer);
      if Strip(buffer) != [] {
        logQueue.Put(buffer);
      }
      buffer := [];
    }
  }

  /** `print(message)` with the stream installed as `sys.stdout`. */
  method Print(out: EmittingStream, message: string)
    requires out.Valid()
    modifies out, out.logQueue
    ensures out.Valid()
    ensures out.State() == PrintSpec(old(out.State()), message)
  {
    out.Write(message);
    out.Write("\n");
  }
}
