/**
 * Text helpers with Python's meaning: which characters `str.isspace()`
 * accepts, `str.strip()`, `str.rstrip('\n')`, `str.startswith`/`endswith`,
 * `s.split("\n")` and `"\n".join(lines)`.
 */
module Text {

  /** The characters for which Python's `str.isspace()` holds. */
  const Whitespace: seq<char> := [
    ' ', '\t', '\n', '\U{0B}', '\U{0C}', '\r', '\U{1C}', '\U{1D}', '\U{1E}', '\U{1F}',
    '\U{85}', '\U{A0}', '\U{1680}',
    '\U{2000}', '\U{2001}', '\U{2002}', '\U{2003}', '\U{2004}', '\U{2005}',
    '\U{2006}', '\U{2007}', '\U{2008}', '\U{2009}', '\U{200A}',
    '\U{2028}', '\U{2029}', '\U{202F}', '\U{205F}', '\U{3000}'
  ]

  /** Python's `c.isspace()`. */
  predicate IsSpace(c: char) {
    ListedFrom(c, 0)
  }

  /** `c` is one of the whitespace characters from position `i` of the table on. */
  predicate ListedFrom(c: char, i: nat)
    decreases |Whitespace| - i
  {
    i < |Whitespace| && (Whitespace[i] == c || ListedFrom(c, i + 1))
  }

  /** The table lookup is membership in the table. */
  lemma {:induction false} ListedFromSpec(c: char, i: nat)
    ensures ListedFrom(c, i) <==> exists k :: i <= k < |Whitespace| && Whitespace[k] == c
    decreases |Whitespace| - i
  {
    if i < |Whitespace| {
      ListedFromSpec(c, i + 1);
    }
  }

  /** `not s.strip()`: the text has no character other than whitespace. */
  predicate IsBlank(s: string) {
    forall k :: 0 <= k < |s| ==> IsSpace(s[k])
  }

  function Init<T>(s: seq<T>): seq<T>
    requires |s| > 0
  {
    s[..|s| - 1]
  }

  function Last<T>(s: seq<T>): T
    requires |s| > 0
  {
    s[|s| - 1]
  }

  predicate StartsWith(s: string, prefix: string) {
    |prefix| <= |s| && s[..|prefix|] == prefix
  }

  predicate EndsWith(s: string, suffix: string) {
    |suffix| <= |s| && s[|s| - |suffix|..] == suffix
  }

  /** How many whitespace characters `s.lstrip()` removes. */
  function LeadingSpaces(s: string): (n: nat)
    ensures n <= |s|
  {
    if s != [] && IsSpace(s[0]) then 1 + LeadingSpaces(s[1..]) else 0
  }

  /** How many whitespace characters `s.rstrip()` removes. */
  function TrailingSpaces(s: string): (n: nat)
    ensures n <= |s|
  {
    if s != [] && IsSpace(Last(s)) then 1 + TrailingSpaces(Init(s)) else 0
  }

  /** `s.strip()`: the text between the leading and the trailing whitespace. */
  function Strip(s: string): string {
    var t := s[LeadingSpaces(s)..];
    t[..|t| - TrailingSpaces(t)]
  }

  /** The leading whitespace count stops at the first non-whitespace character. */
  lemma {:induction false} LeadingSpacesSpec(s: string)
    ensures var n := LeadingSpaces(s);
      IsBlank(s[..n]) && (n < |s| ==> !IsSpace(s[n]))
  {
    if s != [] && IsSpace(s[0]) {
      LeadingSpacesSpec(s[1..]);
      var n := LeadingSpaces(s);
      var head, prev := s[..n], s[1..][..n - 1];
      forall k | 0 <= k < n ensures IsSpace(head[k]) {
        if k > 0 {
          assert head[k] == prev[k - 1];
        }
      }
      assert n < |s| ==> s[n] == s[1..][n - 1];
    }
  }

  /** The trailing whitespace count stops at the last non-whitespace character. */
  lemma {:induction false} TrailingSpacesSpec(s: string)
    ensures var n := TrailingSpaces(s);
      IsBlank(s[|s| - n..]) && (n < |s| ==> !IsSpace(s[|s| - n - 1]))
  {
    if s != [] && IsSpace(Last(s)) {
      var i := Init(s);
      TrailingSpacesSpec(i);
      var n := TrailingSpaces(s);
      var tail, prev := s[|s| - n..], i[|i| - (n - 1)..];
      forall k | 0 <= k < n ensures IsSpace(tail[k]) {
        var j := |s| - n + k;
        assert tail[k] == s[j];
        if k < n - 1 {
          assert prev[k] == i[j] == s[j];
        }
      }
      if n < |s| {
        assert s[|s| - n - 1] == i[|i| - (n - 1) - 1];
      }
    }
  }

  /** `s.strip()` is empty exactly when the text is blank. */
  lemma StripEmptyIffBlank(s: string)
    ensures Strip(s) == [] <==> IsBlank(s)
  {
    if IsBlank(s) {
      BlankLeadingSpaces(s);
    }
    if Strip(s) == [] {
      StripEmptyIsBlank(s);
    }
  }

  /** A blank text is whitespace from its first character to its last. */
  lemma {:induction false} BlankLeadingSpaces(s: string)
    requires IsBlank(s)
    ensures LeadingSpaces(s) == |s|
  {
    if s != [] {
      assert IsSpace(s[0]);
      var rest := s[1..];
      assert IsBlank(rest) by {
        forall k | 0 <= k < |rest| ensures IsSpace(rest[k]) {
          assert rest[k] == s[k + 1];
        }
      }
      BlankLeadingSpaces(rest);
    }
  }

  lemma StripEmptyIsBlank(s: string)
    requires Strip(s) == []
    ensures IsBlank(s)
  {
    var lead := LeadingSpaces(s);
    var t := s[lead..];
    var trail := TrailingSpaces(t);
    LeadingSpacesSpec(s);
    TrailingSpacesSpec(t);
    assert trail == |t|;
    assert t[|t| - trail..] == t;
    assert s == s[..lead] + t;
    BlankConcat(s[..lead], t);
  }

  /** Characters in the printable ASCII range from `!` to `~` are not whitespace. */
  lemma VisibleNotSpace(c: char)
    requires '!' <= c <= '~'
    ensures !IsSpace(c)
  {
    ListedFromSpec(c, 0);
  }

  /** A non-empty `s.strip()` begins and ends with a non-whitespace character. */
  lemma StripEnds(s: string)
    requires Strip(s) != []
    ensures !IsSpace(Strip(s)[0]) && !IsSpace(Last(Strip(s)))
  {
    var lead := LeadingSpaces(s);
    var t := s[lead..];
    var trail := TrailingSpaces(t);
    var r := Strip(s);
    LeadingSpacesSpec(s);
    TrailingSpacesSpec(t);
    assert r == t[..|t| - trail];
    assert r[0] == s[lead];
    assert Last(r) == t[|t| - trail - 1];
  }

  lemma BlankConcat(a: string, b: string)
    requires IsBlank(a) && IsBlank(b)
    ensures IsBlank(a + b)
  {
    forall k | 0 <= k < |a + b| ensures IsSpace((a + b)[k]) {
      if k >= |a| {
        assert (a + b)[k] == b[k - |a|];
      }
    }
  }

  /** A text with no outer whitespace is its own strip. */
  lemma {:induction false} StripUnchanged(s: string)
    requires s == [] || (!IsSpace(s[0]) && !IsSpace(Last(s)))
    ensures Strip(s) == s
  {
    if s != [] {
      assert s[1..] == s[1..];
    }
  }

  /** Stripping twice is stripping once. */
  lemma {:induction false} StripIdempotent(s: string)
    ensures Strip(Strip(s)) == Strip(s)
  {
    if Strip(s) != [] {
      StripEnds(s);
    }
    StripUnchanged(Strip(s));
  }

  /** `s.rstrip('\n')`: every trailing newline removed, and nothing else. */
  function RStripNewlines(s: string): (r: string)
    ensures |r| <= |s| && r == s[..|r|]
    ensures r == [] || r[|r| - 1] != '\n'
    ensures forall k :: |r| <= k < |s| ==> s[k] == '\n'
  {
    if s != [] && s[|s| - 1] == '\n' then RStripNewlines(s[..|s| - 1]) else s
  }

  /** Removing trailing newlines keeps a non-blank text non-blank. */
  lemma {:induction false} RStripKeepsNonBlank(s: string)
    requires !IsBlank(s)
    ensures !IsBlank(RStripNewlines(s))
  {
    var r := RStripNewlines(s);
    var k :| 0 <= k < |s| && !IsSpace(s[k]);
    assert k < |r| && r[k] == s[k];
  }

  /**
   * `s.split("\n")`: the pieces of the text between newline characters, in
   * order; there is always one more piece than there are newlines.
   */
  function Segments(s: string): (r: seq<string>)
    ensures |r| >= 1
  {
    if s == [] then [[]] else Prepend(s[0], Segments(s[1..]))
  }

  /** How one more leading character changes the pieces of a text. */
  function Prepend(c: char, pieces: seq<string>): (r: seq<string>)
    requires |pieces| >= 1
    ensures |r| >= 1
  {
    if c == '\n' then [[]] + pieces else [[c] + pieces[0]] + pieces[1..]
  }

  /** No piece of a split contains a newline. */
  lemma {:induction false} SegmentsNoNewline(s: string)
    ensures forall k :: 0 <= k < |Segments(s)| ==> '\n' !in Segments(s)[k]
  {
    if s != [] {
      SegmentsNoNewline(s[1..]);
    }
  }

  /** `s.index(c)`: the position of the first occurrence of `c`. */
  function IndexOf(s: string, c: char): (i: nat)
    requires c in s
    ensures i < |s| && s[i] == c && c !in s[..i]
  {
    if s[0] == c then 0
    else
      var i := 1 + IndexOf(s[1..], c);
      assert s[..i] == [s[0]] + s[1..][..i - 1];
      i
  }

  /** `s.split(sep, 1)` on a text holding `sep`: the text before its first `sep`, and the rest. */
  function SplitOnce(s: string, sep: char): (parts: (string, string))
    requires sep in s
    ensures s == parts.0 + [sep] + parts.1 && sep !in parts.0
  {
    var i := IndexOf(s, sep);
    assert s == s[..i] + [sep] + s[i + 1..];
    (s[..i], s[i + 1..])
  }

  /** `"\n".join(lines)`. */
  function JoinLines(lines: seq<string>): string {
    if lines == [] then []
    else if |lines| == 1 then lines[0]
    else lines[0] + "\n" + JoinLines(lines[1..])
  }

  /** A text without newlines is a single piece. */
  lemma {:induction false} SegmentsOfLine(s: string)
    requires '\n' !in s
    ensures Segments(s) == [s]
  {
    if s != [] {
      SegmentsOfLine(s[1..]);
      assert [s[0]] + s[1..] == s;
    }
  }

  /** Splitting at the first newline: the line before it, then the pieces of the rest. */
  lemma {:induction false} SegmentsAtNewline(line: string, rest: string)
    requires '\n' !in line
    ensures Segments(line + "\n" + rest) == [line] + Segments(rest)
  {
    if line == [] {
      assert line + "\n" + rest == ['\n'] + rest;
      assert (['\n'] + rest)[1..] == rest;
    } else {
      var s := line + "\n" + rest;
      assert s[0] == line[0] && s[1..] == line[1..] + "\n" + rest;
      SegmentsAtNewline(line[1..], rest);
      assert [line[0]] + line[1..] == line;
    }
  }

  lemma SegmentsCons(c: char, w: string)
    ensures Segments([c] + w) == Prepend(c, Segments(w))
  {
    assert ([c] + w)[0] == c && ([c] + w)[1..] == w;
  }

  /**
   * Splitting a concatenation: the complete pieces of the first text stay as
   * they are, and its last, unterminated piece continues into the second text.
   */
  lemma {:induction false} SegmentsAppend(x: string, y: string)
    ensures var sx := Segments(x);
      Segments(x + y) == Init(sx) + Segments(Last(sx) + y)
  {
    if x == [] {
      assert x + y == y;
      assert [] + y == y;
    } else {
      var c, w := x[0], x[1..];
      assert x == [c] + w && x + y == [c] + (w + y);
      var sw := Segments(w);
      SegmentsAppend(w, y);
      SegmentsCons(c, w);
      SegmentsCons(c, w + y);
      PrependAppend(c, sw, Segments(Last(sw) + y));
      if c != '\n' && |sw| == 1 {
        SegmentsCons(c, Last(sw) + y);
        assert [c] + Last(sw) + y == [c] + (Last(sw) + y);
      }
    }
  }

  /** `Prepend` over pieces whose last one is continued by `tail`. */
  lemma PrependAppend(c: char, pieces: seq<string>, tail: seq<string>)
    requires |pieces| >= 1 && |tail| >= 1
    ensures var joins := c != '\n' && |pieces| == 1;
      && Prepend(c, Init(pieces) + tail)
         == Init(Prepend(c, pieces)) + (if joins then Prepend(c, tail) else tail)
      && Last(Prepend(c, pieces)) == if joins then [c] + Last(pieces) else Last(pieces)
  {
    if c == '\n' {
      PrependNewline(pieces, tail);
    } else if |pieces| == 1 {
      assert Init(pieces) + tail == tail;
    } else {
      PrependChar(c, pieces, tail);
    }
  }

  lemma PrependNewline(pieces: seq<string>, tail: seq<string>)
    requires |pieces| >= 1 && |tail| >= 1
    ensures Prepend('\n', Init(pieces) + tail) == Init(Prepend('\n', pieces)) + tail
    ensures Last(Prepend('\n', pieces)) == Last(pieces)
  {
    var r := [[]] + pieces;
    assert Prepend('\n', pieces) == r;
    assert Init(r) == [[]] + Init(pieces);
  }

  lemma PrependChar(c: char, pieces: seq<string>, tail: seq<string>)
    requires c != '\n' && |pieces| >= 2 && |tail| >= 1
    ensures Prepend(c, Init(pieces) + tail) == Init(Prepend(c, pieces)) + tail
    ensures Last(Prepend(c, pieces)) == Last(pieces)
  {
    var h, mid := [c] + pieces[0], pieces[1..|pieces| - 1];
    var joined := Init(pieces) + tail;
    assert joined[0] == pieces[0];
    assert joined[1..] == mid + tail;
    assert Prepend(c, joined) == [h] + (mid + tail);
    assert Init(Prepend(c, pieces)) == [h] + mid;
  }

  /** A final newline adds one empty piece after the pieces of the text. */
  lemma SegmentsNewlineEnd(m: string)
    ensures Segments(m + "\n") == Segments(m) + [[]]
  {
    var pieces := Segments(m);
    SegmentsAppend(m, "\n");
    SegmentsNoNewline(m);
    assert '\n' !in pieces[|pieces| - 1];
    assert Last(pieces) + "\n" == Last(pieces) + "\n" + [];
    SegmentsAtNewline(Last(pieces), []);
    assert Init(pieces) + [Last(pieces)] == pieces;
  }

  /** Joining the pieces of a text gives the text back. */
  lemma {:induction false} JoinSegments(s: string)
    ensures JoinLines(Segments(s)) == s
  {
    if s != [] {
      JoinSegments(s[1..]);
      var rest := Segments(s[1..]);
      if s[0] == '\n' {
        assert Segments(s) == [[]] + rest;
        assert s == [] + "\n" + s[1..];
      } else {
        var r := Segments(s);
        if |rest| > 1 {
          assert r[1..] == rest[1..];
          assert JoinLines(rest) == rest[0] + "\n" + JoinLines(rest[1..]);
          assert s == [s[0]] + s[1..];
        } else {
          assert s == [s[0]] + s[1..];
        }
      }
    }
  }

  /** Splitting a join of newline-free lines gives the lines back. */
  lemma {:induction false} SegmentsJoin(lines: seq<string>)
    requires |lines| >= 1
    requires forall k :: 0 <= k < |lines| ==> '\n' !in lines[k]
    ensures Segments(JoinLines(lines)) == lines
  {
    if |lines| == 1 {
      SegmentsOfLine(lines[0]);
    } else {
      SegmentsJoin(lines[1..]);
      SegmentsAtNewline(lines[0], JoinLines(lines[1..]));
    }
  }

  /** The lines of a sequence that `line.strip()` finds non-blank, in order. */
  function NonBlankOnly(lines: seq<string>): (r: seq<string>)
    ensures |r| <= |lines|
  {
    if lines == [] then []
    else (if IsBlank(lines[0]) then [] else [lines[0]]) + NonBlankOnly(lines[1..])
  }

  lemma {:induction false} NonBlankOnlyAppend(a: seq<string>, b: seq<string>)
    ensures NonBlankOnly(a + b) == NonBlankOnly(a) + NonBlankOnly(b)
  {
    if a != [] {
      assert (a + b)[0] == a[0] && (a + b)[1..] == a[1..] + b;
      NonBlankOnlyAppend(a[1..], b);
      var h := if IsBlank(a[0]) then [] else [a[0]];
      assert NonBlankOnly(a) == h + NonBlankOnly(a[1..]);
      assert NonBlankOnly(a + b) == h + NonBlankOnly(a[1..] + b);
    } else {
      assert a + b == b;
    }
  }

  /** A line is kept exactly when it is one of the lines and is not blank. */
  lemma {:induction false} NonBlankOnlyKeeps(lines: seq<string>, x: string)
    ensures x in NonBlankOnly(lines) <==> x in lines && !IsBlank(x)
  {
    if lines != [] {
      NonBlankOnlyKeeps(lines[1..], x);
      assert lines == [lines[0]] + lines[1..];
    }
  }

  /** The lines of a sequence that are not the empty string, in order. */
  function NonEmptyOnly(lines: seq<string>): (r: seq<string>)
    ensures |r| <= |lines|
  {
    if lines == [] then []
    else (if lines[0] == [] then [] else [lines[0]]) + NonEmptyOnly(lines[1..])
  }

  lemma {:induction false} NonEmptyOnlyAppend(a: seq<string>, b: seq<string>)
    ensures NonEmptyOnly(a + b) == NonEmptyOnly(a) + NonEmptyOnly(b)
  {
    if a != [] {
      assert (a + b)[0] == a[0] && (a + b)[1..] == a[1..] + b;
      NonEmptyOnlyAppend(a[1..], b);
      var h := if a[0] == [] then [] else [a[0]];
      assert NonEmptyOnly(a) == h + NonEmptyOnly(a[1..]);
      assert NonEmptyOnly(a + b) == h + NonEmptyOnly(a[1..] + b);
    } else {
      assert a + b == b;
    }
  }

  /** A line is kept exactly when it is one of the lines and is not empty. */
  lemma {:induction false} NonEmptyOnlyKeeps(lines: seq<string>, x: string)
    ensures x in NonEmptyOnly(lines) <==> x in lines && x != []
  {
    if lines != [] {
      NonEmptyOnlyKeeps(lines[1..], x);
      assert lines == [lines[0]] + lines[1..];
    }
  }

  /** `''.join(parts)`. */
  function Concat(parts: seq<string>): string {
    if parts == [] then [] else Concat(Init(parts)) + Last(parts)
  }

  lemma {:induction false} ConcatAppend(a: seq<string>, b: seq<string>)
    ensures Concat(a + b) == Concat(a) + Concat(b)
  {
    if b != [] {
      assert Init(a + b) == a + Init(b);
      ConcatAppend(a, Init(b));
    } else {
      assert a + b == a;
    }
  }

  /** The digit character for a value below ten. */
  function DigitChar(d: nat): (c: char)
    requires d < 10
    ensures '0' <= c <= '9'
  {
    ('0' as int + d) as char
  }

  /** The decimal digits of a natural number, most significant first. */
  function Digits(n: nat): (s: string)
    ensures s != [] && '0' <= s[0] <= '9'
  {
    if n < 10 then [DigitChar(n)] else Digits(n / 10) + [DigitChar(n % 10)]
  }

  /** `str(n)` (or `f"{n}"`) for an integer: a minus sign for a negative one, then the digits. */
  function Decimal(n: int): (s: string)
    ensures s != []
    ensures s[0] == '-' <==> n < 0
  {
    if n < 0 then "-" + Digits(-n) else Digits(n)
  }

  /** The number a string of decimal digits stands for. */
  function DigitsValue(s: string): int {
    if s == [] then 0 else DigitsValue(Init(s)) * 10 + (Last(s) as int - '0' as int)
  }

  /** `int(s)` on what `Decimal` produces. */
  function ParseDecimal(s: string): int {
    if s != [] && s[0] == '-' then -DigitsValue(s[1..]) else DigitsValue(s)
  }

  lemma {:induction false} DigitsRoundTrip(n: nat)
    ensures DigitsValue(Digits(n)) == n
  {
    if n >= 10 {
      DigitsRoundTrip(n / 10);
      var s := Digits(n);
      assert Init(s) == Digits(n / 10) && Last(s) == DigitChar(n % 10);
    }
  }

  /** Reading back the decimal form of a number gives the number. */
  lemma DecimalRoundTrip(n: int)
    ensures ParseDecimal(Decimal(n)) == n
  {
    if n < 0 {
      DigitsRoundTrip(-n);
      assert Decimal(n)[1..] == Digits(-n);
    } else {
      DigitsRoundTrip(n);
    }
  }

  /** A prefix one element longer is the prefix plus that element. */
  lemma TakeOneMore<T>(s: seq<T>, i: nat)
    requires i < |s|
    ensures s[..i + 1] == s[..i] + [s[i]]
  {
  }

  /** A suffix is its first element followed by the suffix after it. */
  lemma DropOne<T>(s: seq<T>, i: nat)
    requires i < |s|
    ensures s[i..] == [s[i]] + s[i + 1..]
  {
  }
}
