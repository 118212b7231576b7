/**
 * The DeepSeek chat client: which endpoint it talks to, and how
 * `get_response` turns the streamed deltas into its echo on the console
 * and its return value.
 *
 * The HTTP client is not modelled: the stream is given as the sequence of
 * `(reasoning, content)` deltas it delivers, and the request the client
 * would send is returned as a value.
 */
module DeepSeekClient {
  import opened Wrappers
  import opened Text

  const DefaultBaseUrl: string := "https://api.siliconflow.cn/v1/"
  const DefaultModel: string := "deepseek-ai/DeepSeek-V3"
  const ThinkingHeader: string := "Thinking:"
  const Banner: string := "\nEnd of thinking\n\nOutput:\n"

  /** One streamed chunk; a missing field is the empty string (both are falsy). */
  datatype Delta = Delta(reasoning: string, content: string)

  /** What `chat.completions.create` is called with. */
  datatype Request = Request(
    baseUrl: string, apiKey: string, model: string,
    system: string, query: string, temperature: int)

  /** The two shapes `get_response` can return. */
  datatype Reply = Joined(text: string) | Parts(parts: seq<string>)

  /**
   * How the call goes wrong, if it does: `chat.completions.create` raises
   * before anything is printed, or the stream raises after the given
   * deltas (iterating `response` fails, or a chunk has no `choices`).
   */
  datatype Fault = NoFault | CreateFailed(error: string) | StreamBroke(error: string)

  /** `[x]` when `x` is truthy, else nothing. */
  function Kept(x: string): seq<string> {
    if x == [] then [] else [x]
  }

  /** The list `full_response`: the non-empty fields of every delta, reasoning first. */
  function Pieces(deltas: seq<Delta>): seq<string> {
    if deltas == [] then []
    else Pieces(Init(deltas)) + Kept(Last(deltas).reasoning) + Kept(Last(deltas).content)
  }

  /** Every character the stream delivers, in order. */
  function Stream(deltas: seq<Delta>): string {
    if deltas == [] then [] else Stream(Init(deltas)) + Last(deltas).reasoning + Last(deltas).content
  }

  /**
   * The character stream, cut where the banner goes: `thinking` is what
   * arrives before the first content character, `output` the rest, and
   * `answered` says whether content arrived at all.
   */
  datatype Phases = Phases(thinking: string, output: string, answered: bool)

  /** A chunk's reasoning extends whichever part is being printed. */
  function AddReasoning(ph: Phases, r: string): Phases {
    if ph.answered then ph.(output := ph.output + r) else ph.(thinking := ph.thinking + r)
  }

  /** A chunk's content extends the output, and the first one starts it. */
  function AddContent(ph: Phases, c: string): Phases {
    if c == [] then ph
    else if ph.answered then ph.(output := ph.output + c)
    else Phases(ph.thinking, c, true)
  }

  function PhasesOf(deltas: seq<Delta>): Phases {
    if deltas == [] then Phases([], [], false)
    else AddContent(AddReasoning(PhasesOf(Init(deltas)), Last(deltas).reasoning), Last(deltas).content)
  }

  /**
   * What `get_response` prints: the header, the non-empty lines of the
   * thinking part, and, once content has arrived, the banner and the
   * non-empty lines of the output part.
   */
  function Echo(deltas: seq<Delta>): seq<string> {
    Printed(PhasesOf(deltas))
  }

  function Printed(p: Phases): seq<string> {
    if p.answered then
      [ThinkingHeader] + NonEmptyOnly(Segments(p.thinking)) + [Banner] + NonEmptyOnly(Segments(p.output))
    else
      [ThinkingHeader] + NonEmptyOnly(Segments(p.thinking))
  }

  /**
   * What `get_response` has printed when the stream raises after `deltas`:
   * the final `flush_line` is never reached, so the pending line is lost.
   */
  function PartialEcho(deltas: seq<Delta>): seq<string> {
    Expected(PhasesOf(deltas)).printed
  }

  /** A broken stream prints what the whole one would, except at most its last line. */
  lemma PartialEchoPrefix(deltas: seq<Delta>)
    ensures PartialEcho(deltas) <= Echo(deltas)
    ensures |Echo(deltas)| <= |PartialEcho(deltas)| + 1
  {
    var e := Expected(PhasesOf(deltas));
    FinalFlush(PhasesOf(deltas));
    assert e.printed <= e.printed + Kept(e.current);
  }

  /** `DeepSeek(base_url=..., API_key=..., prompt=..., model=...)`. */
  datatype DeepSeek = DeepSeek(baseUrl: string, apiKey: string, prompt: string, model: string)
  {
    /**
     * `get_response(query, temperature, prompt, model, return_type)` over
     * the deltas the server streams back: the request it sends, what it
     * prints, and what it returns, or the error it raises (`fault`).
     */
    method GetResponse(query: string, deltas: seq<Delta>, fault: Fault := NoFault, temperature: int := 0,
                       prompt: string := "", model: string := DefaultModel,
                       returnType: string := "string")
      returns (request: Request, printed: seq<string>, reply: Result<Reply, string>)
      ensures request == Request(baseUrl, apiKey, model, prompt, query, temperature)
      ensures fault.CreateFailed? ==> printed == [] && reply == Err(fault.error)
      ensures fault.StreamBroke? ==> printed == PartialEcho(deltas) && reply == Err(fault.error)
      ensures fault.NoFault? ==> printed == Echo(deltas)
      ensures fault.NoFault? && returnType == "string" ==> reply == Ok(Joined(Concat(Pieces(deltas))))
      ensures fault.NoFault? && returnType != "string" ==> reply == Ok(Parts(Pieces(deltas)))
    {
      request := Request(baseUrl, apiKey, model, prompt, query, temperature);
      if fault.CreateFailed? {
        return request, [], Err(fault.error);
      }
      var full: seq<string> := [];
      var e := Echoing([ThinkingHeader], [], false);
      NothingYet();
      var i := 0;
      while i < |deltas|
        invariant i <= |deltas|
        invariant full == Pieces(deltas[..i])
        invariant e == Expected(PhasesOf(deltas[..i]))
      {
        var d := deltas[i];
        ghost var ph := PhasesOf(deltas[..i]);
        e := ReasoningStep(e, ph, d.reasoning);
        e := ContentStep(e, AddReasoning(ph, d.reasoning), d.content);
        full := full + Kept(d.reasoning) + Kept(d.content);
        assert full == Pieces(deltas[..i + 1]) && e == Expected(PhasesOf(deltas[..i + 1])) by {
          TakeOneMore(deltas, i);
          Snoc(deltas[..i], d);
        }
        i := i + 1;
      }
      assert deltas[..i] == deltas;
      if fault.StreamBroke? {
        return request, e.printed, Err(fault.error);
      }
      FinalFlush(PhasesOf(deltas));
      printed := e.printed + Kept(e.current);
      reply := Ok(if returnType == "string" then Joined(Concat(full)) else Parts(full));
    }
  }

  /** `DeepSeek.__init__`: an empty base URL means the SiliconFlow endpoint. */
  function Create(baseUrl: string := "", apiKey: string := "", prompt: string := "",
                  model: string := DefaultModel): (c: DeepSeek)
    ensures baseUrl == [] ==> c.baseUrl == DefaultBaseUrl
    ensures baseUrl != [] ==> c.baseUrl == baseUrl
    ensures c.apiKey == apiKey && c.prompt == prompt && c.model == model
  {
    DeepSeek(if baseUrl == "" then DefaultBaseUrl else baseUrl, apiKey, prompt, model)
  }

  /** The printing locals of `get_response` between chunks. */
  datatype Echoing = Echoing(printed: seq<string>, current: string, answered: bool)

  /**
   * Once the stream has reached `ph`, `printed` holds the lines flushed so
   * far and `current_line` the unterminated end of the part being printed.
   */
  function Expected(ph: Phases): Echoing {
    if ph.answered then Show([ThinkingHeader] + NonEmptyOnly(Segments(ph.thinking)) + [Banner], ph.output, true)
    else Show([ThinkingHeader], ph.thinking, false)
  }

  /** After `prefix`, the complete non-empty lines of `text` are printed and its last line is pending. */
  function Show(prefix: seq<string>, text: string, answered: bool): Echoing {
    var pieces := Segments(text);
    Echoing(prefix + NonEmptyOnly(Init(pieces)), Last(pieces), answered)
  }

  lemma ExpectedLine(ph: Phases)
    ensures '\n' !in Expected(ph).current
  {
    SegmentsNoNewline(ph.output);
    SegmentsNoNewline(ph.thinking);
  }

  /** The inner `for char in ...` loop: flush `current_line` at every newline. */
  method EchoChars(current: string, text: string) returns (line: string, out: seq<string>)
    requires '\n' !in current
    ensures '\n' !in line
    ensures out == NonEmptyOnly(Init(Segments(current + text)))
    ensures line == Last(Segments(current + text))
  {
    line, out := current, [];
    for j := 0 to |text|
      invariant '\n' !in line
      invariant out + NonEmptyOnly(Init(Segments(line + text[j..])))
             == NonEmptyOnly(Init(Segments(current + text)))
      invariant Last(Segments(line + text[j..])) == Last(Segments(current + text))
    {
      var c, rest := text[j], text[j + 1..];
      ghost var pending := line + text[j..];
      DropOne(text, j);
      if c == '\n' {
        assert out + NonEmptyOnly(Init(Segments(pending)))
            == (out + Kept(line)) + NonEmptyOnly(Init(Segments(rest)))
            && Last(Segments(pending)) == Last(Segments(rest)) by {
          EchoCut(line, rest);
        }
        out := out + Kept(line);
        line := [];
        assert line + text[j + 1..] == rest;
      } else {
        line := line + [c];
        assert line + text[j + 1..] == pending;
      }
    }
    assert line + text[|text|..] == line;
    SegmentsOfLine(line);
  }

  /** The `if chunk_reasoning_content:` block. */
  method ReasoningStep(e: Echoing, ghost ph: Phases, r: string) returns (f: Echoing)
    requires e == Expected(ph)
    ensures f == Expected(AddReasoning(ph, r))
  {
    if r == [] {
      assert ph.output + r == ph.output && ph.thinking + r == ph.thinking;
      f := e;
    } else {
      ExpectedLine(ph);
      var line, out := EchoChars(e.current, r);
      f := Echoing(e.printed + out, line, e.answered);
      if ph.answered {
        ShowGrow([ThinkingHeader] + NonEmptyOnly(Segments(ph.thinking)) + [Banner], ph.output, r, true);
      } else {
        ShowGrow([ThinkingHeader], ph.thinking, r, false);
      }
    }
  }

  /** The `if chunk_content:` block, banner included. */
  method ContentStep(e: Echoing, ghost ph: Phases, c: string) returns (f: Echoing)
    requires e == Expected(ph)
    ensures f == Expected(AddContent(ph, c))
  {
    if c == [] {
      f := e;
    } else if e.answered {
      ExpectedLine(ph);
      var line, out := EchoChars(e.current, c);
      f := Echoing(e.printed + out, line, true);
      ShowGrow([ThinkingHeader] + NonEmptyOnly(Segments(ph.thinking)) + [Banner], ph.output, c, true);
    } else {
      var printed := e.printed + Kept(e.current) + [Banner];
      var line, out := EchoChars([], c);
      assert [] + c == c;
      f := Echoing(printed + out, line, true);
      StartOutput(ph, c);
    }
  }

  /** More text for the part being printed: the line buffer carries on from `current_line`. */
  lemma ShowGrow(prefix: seq<string>, t: string, x: string, answered: bool)
    ensures var e := Show(prefix, t, answered);
      Show(prefix, t + x, answered) == Show(e.printed, e.current + x, answered)
  {
    var st := Segments(t);
    var tail := Segments(Last(st) + x);
    var grown := NonEmptyOnly(Init(Segments(t + x)));
    assert grown == NonEmptyOnly(Init(st)) + NonEmptyOnly(Init(tail))
        && Last(Segments(t + x)) == Last(tail) by {
      EchoAppend(t, x);
    }
    assert prefix + grown == (prefix + NonEmptyOnly(Init(st))) + NonEmptyOnly(Init(tail));
  }

  /** The first content: flush the pending line, print the banner, start an empty line. */
  lemma StartOutput(ph: Phases, c: string)
    requires !ph.answered
    ensures var e := Expected(ph);
      Expected(Phases(ph.thinking, c, true)) == Show(e.printed + Kept(e.current) + [Banner], c, true)
  {
    var st := Segments(ph.thinking);
    assert NonEmptyOnly(Segments(ph.thinking)) == NonEmptyOnly(Init(st)) + Kept(Last(st)) by {
      EchoFlush(ph.thinking);
    }
    assert [ThinkingHeader] + NonEmptyOnly(Segments(ph.thinking)) + [Banner]
        == [ThinkingHeader] + NonEmptyOnly(Init(st)) + Kept(Last(st)) + [Banner];
  }

  /** The last `flush_line` completes the echo. */
  lemma FinalFlush(ph: Phases)
    ensures var e := Expected(ph);
      e.printed + Kept(e.current) == Printed(ph)
  {
    if ph.answered {
      FlushShow([ThinkingHeader] + NonEmptyOnly(Segments(ph.thinking)) + [Banner], ph.output, true);
    } else {
      FlushShow([ThinkingHeader], ph.thinking, false);
    }
  }

  /** Flushing the pending line prints every non-empty line of the text. */
  lemma FlushShow(prefix: seq<string>, text: string, answered: bool)
    ensures var e := Show(prefix, text, answered);
      e.printed + Kept(e.current) == prefix + NonEmptyOnly(Segments(text))
  {
    var pieces := Segments(text);
    assert NonEmptyOnly(pieces) == NonEmptyOnly(Init(pieces)) + Kept(Last(pieces)) by {
      EchoFlush(text);
    }
    assert prefix + NonEmptyOnly(pieces) == prefix + NonEmptyOnly(Init(pieces)) + Kept(Last(pieces));
  }

  /** Before the first chunk only the header is printed and nothing is pending. */
  lemma NothingYet()
    ensures Pieces([]) == [] && Expected(PhasesOf([])) == Echoing([ThinkingHeader], [], false)
  {
    SegmentsOfLine([]);
  }

  /** Unfolding the chunk-by-chunk definitions at their last chunk. */
  lemma Snoc(ds: seq<Delta>, d: Delta)
    ensures PhasesOf(ds + [d]) == AddContent(AddReasoning(PhasesOf(ds), d.reasoning), d.content)
    ensures Pieces(ds + [d]) == Pieces(ds) + Kept(d.reasoning) + Kept(d.content)
    ensures Stream(ds + [d]) == Stream(ds) + d.reasoning + d.content
  {
    assert Init(ds + [d]) == ds && Last(ds + [d]) == d;
  }

  /** A newline in the inner loop flushes the line before it. */
  lemma EchoCut(line: string, rest: string)
    requires '\n' !in line
    ensures var pieces := Segments(line + ([ '\n' ] + rest));
      && NonEmptyOnly(Init(pieces)) == Kept(line) + NonEmptyOnly(Init(Segments(rest)))
      && Last(pieces) == Last(Segments(rest))
  {
    assert line + (['\n'] + rest) == line + "\n" + rest;
    SegmentsAtNewline(line, rest);
    assert Init([line] + Segments(rest)) == [line] + Init(Segments(rest));
    NonEmptyOnlyAppend([line], Init(Segments(rest)));
  }

  /** Feeding more text to the line buffer: the lines of `t + r` from those of `t`. */
  lemma EchoAppend(t: string, r: string)
    ensures var st := Segments(t);
      && NonEmptyOnly(Init(Segments(t + r)))
         == NonEmptyOnly(Init(st)) + NonEmptyOnly(Init(Segments(Last(st) + r)))
      && Last(Segments(t + r)) == Last(Segments(Last(st) + r))
  {
    var st := Segments(t);
    var tail := Segments(Last(st) + r);
    SegmentsAppend(t, r);
    assert Init(Init(st) + tail) == Init(st) + Init(tail);
    NonEmptyOnlyAppend(Init(st), Init(tail));
  }

  /** The final `flush_line`: the pending line is printed when it is not empty. */
  lemma EchoFlush(t: string)
    ensures var st := Segments(t);
      NonEmptyOnly(Segments(t)) == NonEmptyOnly(Init(st)) + Kept(Last(st))
  {
    var st := Segments(t);
    assert st == Init(st) + [Last(st)];
    NonEmptyOnlyAppend(Init(st), [Last(st)]);
  }

  /** Every piece `full_response` collects is non-empty. */
  lemma {:induction false} PiecesNonEmpty(deltas: seq<Delta>)
    ensures forall k :: 0 <= k < |Pieces(deltas)| ==> Pieces(deltas)[k] != []
  {
    if deltas != [] {
      PiecesNonEmpty(Init(deltas));
    }
  }

  /** `''.join(full_response)` is the whole character stream, in order. */
  lemma {:induction false} JoinedIsStream(deltas: seq<Delta>)
    ensures Concat(Pieces(deltas)) == Stream(deltas)
  {
    if deltas != [] {
      var d := Last(deltas);
      JoinedIsStream(Init(deltas));
      ConcatAppend(Pieces(Init(deltas)) + Kept(d.reasoning), Kept(d.content));
      ConcatAppend(Pieces(Init(deltas)), Kept(d.reasoning));
      KeptConcat(d.reasoning);
      KeptConcat(d.content);
    }
  }

  lemma KeptConcat(x: string)
    ensures Concat(Kept(x)) == x
  {
    if x != [] {
      assert Init([x]) == [];
    }
  }

  /** The thinking part and the output part together are the whole stream. */
  lemma {:induction false} PhasesCoverStream(deltas: seq<Delta>)
    ensures PhasesOf(deltas).thinking + PhasesOf(deltas).output == Stream(deltas)
  {
    if deltas != [] {
      var d := Last(deltas);
      var p := PhasesOf(Init(deltas));
      var q := PhasesOf(deltas);
      PhasesCoverStream(Init(deltas));
      var before := Stream(Init(deltas));
      assert Stream(deltas) == before + d.reasoning + d.content;
      if p.answered {
        assert q.thinking + q.output == p.thinking + (p.output + d.reasoning + d.content);
      } else {
        NoOutputYet(Init(deltas));
        assert before == p.thinking;
        if d.content == [] {
          assert q.thinking + q.output == p.thinking + d.reasoning + [];
        } else {
          assert q.thinking + q.output == (p.thinking + d.reasoning) + d.content;
        }
      }
    }
  }

  /** Before any content the output part is empty. */
  lemma {:induction false} NoOutputYet(deltas: seq<Delta>)
    ensures !PhasesOf(deltas).answered ==> PhasesOf(deltas).output == []
  {
    if deltas != [] {
      NoOutputYet(Init(deltas));
    }
  }

  /** The banner's condition: some chunk carries content. */
  predicate Answered(deltas: seq<Delta>) {
    exists k :: 0 <= k < |deltas| && deltas[k].content != []
  }

  /** Content arrives in some chunk exactly when the stream reaches its output part. */
  lemma {:induction false} AnsweredIff(deltas: seq<Delta>)
    ensures PhasesOf(deltas).answered <==> Answered(deltas)
  {
    if deltas != [] {
      var d := Last(deltas);
      var front := Init(deltas);
      AnsweredIff(front);
      assert deltas == front + [d];
      if Answered(front) {
        var k :| 0 <= k < |front| && front[k].content != [];
        assert deltas[k] == front[k];
      }
      if d.content != [] {
        assert deltas[|deltas| - 1] == d;
      }
      if Answered(deltas) {
        var k :| 0 <= k < |deltas| && deltas[k].content != [];
        if k < |front| {
          assert front[k] == deltas[k];
        }
      }
    }
  }

  /** No line of the stream's text is the banner, which holds line breaks. */
  lemma NoBannerIn(t: string)
    ensures Banner !in NonEmptyOnly(Segments(t))
  {
    NonEmptyOnlyKeeps(Segments(t), Banner);
    SegmentsNoNewline(t);
    assert Banner[0] == '\n';
  }

  /** The banner is printed once if some content arrives, and never otherwise. */
  lemma BannerOnce(deltas: seq<Delta>)
    ensures multiset(Echo(deltas))[Banner] == if Answered(deltas) then 1 else 0
  {
    var p := PhasesOf(deltas);
    AnsweredIff(deltas);
    NoBannerIn(p.thinking);
    NoBannerIn(p.output);
    assert ThinkingHeader[0] != Banner[0];
    var lines := NonEmptyOnly(Segments(p.thinking));
    assert multiset([ThinkingHeader] + lines)[Banner] == 0;
    if p.answered {
      var more := NonEmptyOnly(Segments(p.output));
      assert Echo(deltas) == ([ThinkingHeader] + lines) + [Banner] + more;
    }
  }

  /** `flush_line` never prints an empty line. */
  lemma EchoNonEmpty(deltas: seq<Delta>)
    ensures forall k :: 0 <= k < |Echo(deltas)| ==> Echo(deltas)[k] != []
  {
    var p := PhasesOf(deltas);
    forall k | 0 <= k < |Echo(deltas)|
      ensures Echo(deltas)[k] != []
    {
      var x := Echo(deltas)[k];
      assert x in Echo(deltas);
      NonEmptyOnlyKeeps(Segments(p.thinking), x);
      NonEmptyOnlyKeeps(Segments(p.output), x);
    }
  }

  /** Without content the echo is the header and the non-empty lines of the whole stream. */
  lemma ThinkingOnly(deltas: seq<Delta>)
    requires !Answered(deltas)
    ensures Echo(deltas) == [ThinkingHeader] + NonEmptyOnly(Segments(Stream(deltas)))
  {
    AnsweredIff(deltas);
    NoOutputYet(deltas);
    PhasesCoverStream(deltas);
    var p := PhasesOf(deltas);
    assert p.thinking + [] == p.thinking;
  }
}
