/**
 * The clean-up both generation workers apply to the model's reply before
 * handing it on as code: trim the reply, drop a leading "```python"
 * (or else a leading "```"), then drop one trailing "```".
 *
 * Only the whole reply is trimmed, before the fences go, so the line break
 * that follows an opening fence stays in the code, and applying the
 * clean-up a second time can change the result again.
 */
module Fence {
  import opened Text

  const PythonOpener: string := "```python"
  const Fence: string := "```"

  /**
   * The code the worker publishes for a reply: the trimmed reply loses
   * something exactly when it opens or closes with a fence.
   */
  function StripFences(reply: string): (r: string)
    ensures |r| <= |Strip(reply)|
    ensures |r| < |Strip(reply)| <==> StartsWith(Strip(reply), Fence) || EndsWith(Strip(reply), Fence)
  {
    var code := Strip(reply);
    assert StartsWith(code, PythonOpener) ==> StartsWith(code, Fence) by {
      if StartsWith(code, PythonOpener) {
        assert code[..3] == PythonOpener[..3];
      }
    }
    var code := if StartsWith(code, PythonOpener) then code[9..]
                else if StartsWith(code, Fence) then code[3..]
                else code;
    if EndsWith(code, Fence) then code[..|code| - 3] else code
  }

  /**
   * The code is one contiguous piece of the trimmed reply: at most one
   * opener (9 or 3 characters) goes from the front and at most one fence
   * (3 characters) from the back.
   */
  lemma FenceSlice(reply: string)
    ensures var t := Strip(reply);
      exists front: nat, end: nat ::
        && front in {0, 3, 9} && |t| - end in {0, 3} && front <= end <= |t|
        && StripFences(reply) == t[front..end]
  {
    var t := Strip(reply);
    var front := if StartsWith(t, PythonOpener) then 9 else if StartsWith(t, Fence) then 3 else 0;
    var mid := t[front..];
    var end := if EndsWith(mid, Fence) then |t| - 3 else |t|;
    assert StripFences(reply) == mid[..end - front];
    assert mid[..end - front] == t[front..end];
  }

  /** A reply that opens with "```python" also opens with "```". */
  lemma PythonOpenerIsFence(t: string)
    ensures StartsWith(t, PythonOpener) ==> StartsWith(t, Fence)
  {
    if StartsWith(t, PythonOpener) {
      assert t[..3] == PythonOpener[..3];
    }
  }

  /** A trimmed reply with neither an opening nor a closing fence is published as it is. */
  lemma NoFences(reply: string)
    requires !StartsWith(Strip(reply), Fence) && !EndsWith(Strip(reply), Fence)
    ensures StripFences(reply) == Strip(reply)
  {
    PythonOpenerIsFence(Strip(reply));
  }

  /** Text that begins and ends with a backtick is its own trim. */
  lemma FencedIsTrimmed(wrapped: string)
    requires |wrapped| >= 1 && wrapped[0] == '`' && Last(wrapped) == '`'
    ensures Strip(wrapped) == wrapped
  {
    VisibleNotSpace('`');
    StripUnchanged(wrapped);
  }

  /** Removing a closing fence from `code + "```"` gives `code`. */
  lemma DropClosing(code: string)
    ensures var rest := code + Fence;
      EndsWith(rest, Fence) && rest[..|rest| - 3] == code
  {
    var rest := code + Fence;
    assert rest[|rest| - 3..] == Fence;
    assert rest[..|rest| - 3] == code;
  }

  /** Wrapping any code in a "```python" fence and stripping gives the code back. */
  lemma PythonFenceRoundTrip(code: string)
    ensures StripFences(PythonOpener + code + Fence) == code
  {
    var wrapped := PythonOpener + code + Fence;
    assert wrapped[0] == '`' && Last(wrapped) == '`';
    FencedIsTrimmed(wrapped);
    assert wrapped[..9] == PythonOpener;
    assert wrapped[9..] == code + Fence;
    DropClosing(code);
  }

  /**
   * Wrapping code in a bare "```" fence and stripping gives the code back,
   * unless the code itself starts with "python": then the opener and that
   * word go together.
   */
  lemma BareFenceRoundTrip(code: string)
    ensures StripFences(Fence + code + Fence)
         == if StartsWith(code, "python") then code[6..] else code
  {
    var wrapped := Fence + code + Fence;
    assert wrapped[0] == '`' && Last(wrapped) == '`';
    FencedIsTrimmed(wrapped);
    if StartsWith(code, "python") {
      BareFenceWord(code, wrapped);
    } else {
      BareFenceOther(code, wrapped);
    }
  }

  lemma BareFenceWord(code: string, wrapped: string)
    requires StartsWith(code, "python") && wrapped == Fence + code + Fence
    ensures StartsWith(wrapped, PythonOpener) && wrapped[9..] == code[6..] + Fence
  {
    assert |code| >= 6 && code[..6] == "python";
    assert wrapped[..9] == Fence + code[..6];
    assert wrapped[9..] == code[6..] + Fence;
    DropClosing(code[6..]);
  }

  lemma BareFenceOther(code: string, wrapped: string)
    requires !StartsWith(code, "python") && wrapped == Fence + code + Fence
    ensures !StartsWith(wrapped, PythonOpener) && StartsWith(wrapped, Fence)
    ensures wrapped[3..] == code + Fence
  {
    if |code| >= 6 {
      assert wrapped[..9][3..] == code[..6];
      assert PythonOpener[3..] == "python";
    } else if |wrapped| >= 9 {
      var j := 3 + |code|;
      assert wrapped[..9][j] == '`';
      assert PythonOpener[j] != '`';
    }
    assert wrapped[..3] == Fence;
    assert wrapped[3..] == code + Fence;
    DropClosing(code);
  }

  /** The reply of the worked example is the code `\nprint(1)\n` in a "```python" fence. */
  lemma ExampleReply()
    ensures PythonOpener + "\nprint(1)\n" + Fence == "```python\nprint(1)\n```"
  {
  }

  /** The worked example: the line break after the opener stays in the code. */
  lemma WorkedExample()
    ensures StripFences("```python\nprint(1)\n```") == "\nprint(1)\n"
  {
    ExampleReply();
    PythonFenceRoundTrip("\nprint(1)\n");
  }

  /** A body with visible ends between two line breaks trims to the body. */
  lemma StripBetweenNewlines(body: string)
    requires body != [] && !IsSpace(body[0]) && !IsSpace(Last(body))
    ensures Strip("\n" + body + "\n") == body
  {
    var s := "\n" + body + "\n";
    var t := body + "\n";
    assert s[0] == '\n' && s[1..] == t;
    assert t[0] == body[0];
    assert LeadingSpaces(s) == 1;
    assert s[1..] == t;
    assert Last(t) == '\n' && Init(t) == body;
    assert TrailingSpaces(t) == 1;
    assert t[..|t| - 1] == body;
  }

  /** The second clean-up of the worked example's result trims its line breaks. */
  lemma SecondPass()
    ensures StripFences("\nprint(1)\n") == "print(1)"
  {
    var body := "print(1)";
    VisibleNotSpace('p');
    VisibleNotSpace(')');
    StripBetweenNewlines(body);
    assert "\n" + body + "\n" == "\nprint(1)\n";
    assert body[..3] != Fence;
    assert !EndsWith(body, Fence);
    NoFences("\nprint(1)\n");
  }

  /**
   * Cleaning up a second time changes the worked example's result: the
   * clean-up is not idempotent.
   */
  lemma NotIdempotent()
    ensures var once := StripFences("```python\nprint(1)\n```");
      once == "\nprint(1)\n" && StripFences(once) == "print(1)"
  {
    WorkedExample();
    SecondPass();
  }
}
