/** The string operations of the standard library that both parsers are built from. */
module Text {

  /** Unicode White_Space, which is what trimming and splitting go by. */
  predicate IsSpace(c: char) {
    var n := c as int;
    || 9 <= n <= 13 || n == 32 || n == 0x85 || n == 0xA0 || n == 0x1680
    || 0x2000 <= n <= 0x200A || n == 0x2028 || n == 0x2029 || n == 0x202F || n == 0x205F || n == 0x3000
  }

  predicate IsDigit(c: char) { '0' <= c <= '9' }

  predicate NoSpace(s: string) { forall i :: 0 <= i < |s| ==> !IsSpace(s[i]) }

  predicate IsToken(s: string) { s != "" && NoSpace(s) }

  predicate StartsWith(s: string, prefix: string) { prefix <= s }

  function TrimStart(s: string): (r: string)
    ensures |r| <= |s| && (r == "" || !IsSpace(r[0]))
  {
    if s != "" && IsSpace(s[0]) then TrimStart(s[1..]) else s
  }

  function TrimEnd(s: string): string {
    if s != "" && IsSpace(s[|s| - 1]) then TrimEnd(s[..|s| - 1]) else s
  }

  function Trim(s: string): string { TrimEnd(TrimStart(s)) }

  lemma {:induction false} TrimsStart(left: string, s: string)
    requires forall i :: 0 <= i < |left| ==> IsSpace(left[i])
    requires s == "" || !IsSpace(s[0])
    ensures TrimStart(left + s) == s
  {
    if left == "" {
      assert left + s == s;
    } else {
      assert (left + s)[1..] == left[1..] + s;
      TrimsStart(left[1..], s);
    }
  }

  lemma {:induction false} TrimsEnd(s: string, right: string)
    requires forall i :: 0 <= i < |right| ==> IsSpace(right[i])
    requires s == "" || !IsSpace(s[|s| - 1])
    ensures TrimEnd(s + right) == s
  {
    if right == "" {
      assert s + right == s;
    } else {
      assert (s + right)[..|s + right| - 1] == s + right[..|right| - 1];
      TrimsEnd(s, right[..|right| - 1]);
    }
  }

  /** Trimming takes the white space off both ends, and nothing else. */
  lemma Trims(left: string, s: string, right: string)
    requires forall i :: 0 <= i < |left| ==> IsSpace(left[i])
    requires forall i :: 0 <= i < |right| ==> IsSpace(right[i])
    requires s != "" && !IsSpace(s[0]) && !IsSpace(s[|s| - 1])
    ensures Trim(left + s + right) == s
  {
    assert left + s + right == left + (s + right);
    TrimsStart(left, s + right);
    TrimsEnd(s, right);
  }

  /** The position of the first `c`, or the length when there is none. */
  function Find(s: string, c: char): (n: nat)
    ensures n <= |s| && (forall i :: 0 <= i < n ==> s[i] != c) && (n < |s| ==> s[n] == c)
  {
    if s == "" || s[0] == c then 0 else Find(s[1..], c) + 1
  }

  lemma FindAfter(s: string, c: char, rest: string)
    requires c !in s
    ensures Find(s + [c] + rest, c) == |s|
  {
    var t := s + [c] + rest;
    assert t[|s|] == c;
    assert forall i :: 0 <= i < |s| ==> t[i] == s[i];
  }

  lemma FindNowhere(s: string, c: char)
    requires c !in s
    ensures Find(s, c) == |s|
  {
  }

  // ------------------------------------------------------- split_whitespace

  function TokenLength(s: string): (n: nat)
    ensures n <= |s| && (forall i :: 0 <= i < n ==> !IsSpace(s[i])) && (n < |s| ==> IsSpace(s[n]))
  {
    if s == "" || IsSpace(s[0]) then 0 else TokenLength(s[1..]) + 1
  }

  function SplitWhitespace(s: string): (r: seq<string>)
    ensures forall i :: 0 <= i < |r| ==> IsToken(r[i])
    decreases |s|
  {
    var t := TrimStart(s);
    if t == "" then [] else
      var n := TokenLength(t);
      assert n > 0;
      [t[..n]] + SplitWhitespace(t[n..])
  }

  predicate EndsToken(rest: string) { rest == "" || IsSpace(rest[0]) }

  lemma SplitToken(w: string, rest: string)
    requires IsToken(w) && EndsToken(rest)
    ensures SplitWhitespace(w + rest) == [w] + SplitWhitespace(rest)
  {
    var s := w + rest;
    assert !IsSpace(s[0]) && TrimStart(s) == s;
    assert forall i :: 0 <= i < |w| ==> s[i] == w[i];
    assert rest != "" ==> s[|w|] == rest[0];
    assert TokenLength(s) == |w|;
    assert s[..|w|] == w && s[|w|..] == rest;
  }

  lemma SplitSpace(c: char, s: string)
    requires IsSpace(c)
    ensures SplitWhitespace([c] + s) == SplitWhitespace(s)
  {
    assert ([c] + s)[1..] == s;
  }

  function Join(words: seq<string>): string {
    if words == [] then "" else if |words| == 1 then words[0] else words[0] + ([' '] + Join(words[1..]))
  }

  lemma SplitPair(w: string, tail: string)
    requires IsToken(w)
    ensures SplitWhitespace(w + ([' '] + tail)) == [w] + SplitWhitespace(tail)
  {
    SplitToken(w, [' '] + tail);
    SplitSpace(' ', tail);
  }

  lemma SplitFirst(words: seq<string>, rest: string)
    requires |words| > 1 && IsToken(words[0])
    ensures SplitWhitespace(Join(words) + rest) == [words[0]] + SplitWhitespace(Join(words[1..]) + rest)
  {
    var w, tail := words[0], Join(words[1..]) + rest;
    assert Join(words) + rest == w + ([' '] + tail);
    SplitPair(w, tail);
  }

  /** Splitting undoes joining, whatever follows the last word. */
  lemma {:induction false} SplitJoin(words: seq<string>, rest: string)
    requires words != [] && forall i :: 0 <= i < |words| ==> IsToken(words[i])
    requires EndsToken(rest)
    ensures SplitWhitespace(Join(words) + rest) == words + SplitWhitespace(rest)
  {
    if |words| == 1 {
      SplitToken(words[0], rest);
    } else {
      SplitFirst(words, rest);
      SplitJoin(words[1..], rest);
      Reassemble(words, SplitWhitespace(rest));
    }
  }

  lemma Reassemble<T>(xs: seq<T>, ys: seq<T>)
    requires xs != []
    ensures [xs[0]] + (xs[1..] + ys) == xs + ys
  {
  }

  /** Joined words hold nothing but their own characters and spaces, and neither begin
      nor end with a space. */
  lemma {:induction false} JoinIsTrimmed(words: seq<string>)
    requires words != [] && forall i :: 0 <= i < |words| ==> IsToken(words[i])
    ensures var s := Join(words);
            && words[0] != "" && s != "" && s[0] == words[0][0] && !IsSpace(s[0]) && !IsSpace(s[|s| - 1])
            && (forall i :: 0 <= i < |s| ==> s[i] == ' ' || !IsSpace(s[i]))
            && words[0] <= s
  {
    if |words| > 1 {
      JoinIsTrimmed(words[1..]);
    }
  }

  // ------------------------------------------------------------------ lines

  /** A line of text free of line ends. */
  predicate IsLine(s: string) { '\r' !in s && '\n' !in s }

  /** `read_line`: up to and including the next newline, or all there is. */
  function ReadLine(s: string): (r: (string, string))
    ensures s == r.0 + r.1 && (s != "" ==> r.0 != "")
  {
    var n := Find(s, '\n');
    if n < |s| then (s[..n + 1], s[n + 1..]) else (s, "")
  }

  /** Drop every trailing carriage return and newline. */
  function TrimEol(s: string): string {
    if s != "" && s[|s| - 1] in {'\r', '\n'} then TrimEol(s[..|s| - 1]) else s
  }

  lemma ReadsLine(line: string, rest: string)
    requires IsLine(line)
    ensures ReadLine(line + "\r\n" + rest) == (line + "\r\n", rest)
    ensures TrimEol(line + "\r\n") == line
  {
    var head := line + "\r";
    assert line + "\r\n" + rest == head + ['\n'] + rest;
    FindAfter(head, '\n', rest);
    var s := head + ['\n'] + rest;
    assert s[..|head| + 1] == line + "\r\n" && s[|head| + 1..] == rest;
    TrimsEol(line);
  }

  lemma TrimsEol(line: string)
    requires IsLine(line)
    ensures TrimEol(line + "\r\n") == line
  {
    var full, head := line + "\r\n", line + "\r";
    assert full[..|full| - 1] == head && head[..|head| - 1] == line;
    assert TrimEol(full) == TrimEol(head) == TrimEol(line);
    assert line != "" ==> line[|line| - 1] in line;
  }

  /** `lines`: split at newlines, each line losing one carriage return at its end. */
  function Lines(s: string): seq<string>
    decreases |s|
  {
    if s == "" then [] else
      var n := Find(s, '\n');
      if n == |s| then [s]
      else [if n > 0 && s[n - 1] == '\r' then s[..n - 1] else s[..n]] + Lines(s[n + 1..])
  }

  function Unlines(lines: seq<string>): string {
    if lines == [] then "" else lines[0] + "\n" + Unlines(lines[1..])
  }

  lemma {:induction false} LinesOfUnlines(lines: seq<string>, rest: string)
    requires forall i :: 0 <= i < |lines| ==> IsLine(lines[i])
    ensures Lines(Unlines(lines) + rest) == lines + Lines(rest)
  {
    if lines == [] {
      assert Unlines(lines) + rest == rest;
    } else {
      var line, tail := lines[0], Unlines(lines[1..]) + rest;
      assert Unlines(lines) + rest == line + ['\n'] + tail;
      calc {
        Lines(Unlines(lines) + rest);
        Lines(line + ['\n'] + tail);
        { FirstOfLines(line, tail); }
        [line] + Lines(tail);
        { LinesOfUnlines(lines[1..], rest); }
        [line] + (lines[1..] + Lines(rest));
        lines + Lines(rest);
      }
    }
  }

  lemma LinesBack(lines: seq<string>)
    requires forall i :: 0 <= i < |lines| ==> IsLine(lines[i])
    ensures Lines(Unlines(lines)) == lines
  {
    LinesOfUnlines(lines, "");
    assert Unlines(lines) + "" == Unlines(lines) && lines + [] == lines;
  }

  lemma FirstOfLines(line: string, tail: string)
    requires IsLine(line)
    ensures Lines(line + ['\n'] + tail) == [line] + Lines(tail)
  {
    var s := line + ['\n'] + tail;
    FindAfter(line, '\n', tail);
    assert line != "" ==> line[|line| - 1] in line;
    assert s[..|line|] == line && s[|line| + 1..] == tail;
  }

  // ------------------------------------------------------------------ split

  /** `split`: the pieces between separators; always at least one. */
  function Split(s: string, c: char): (r: seq<string>)
    ensures r != []
    decreases |s|
  {
    var n := Find(s, c);
    if n == |s| then [s] else [s[..n]] + Split(s[n + 1..], c)
  }

  function JoinBy(pieces: seq<string>, c: char): string
    requires pieces != []
  {
    if |pieces| == 1 then pieces[0] else pieces[0] + [c] + JoinBy(pieces[1..], c)
  }

  lemma {:induction false} SplitOfJoinBy(pieces: seq<string>, c: char)
    requires pieces != [] && forall i :: 0 <= i < |pieces| ==> c !in pieces[i]
    ensures Split(JoinBy(pieces, c), c) == pieces
  {
    if |pieces| == 1 {
      FindNowhere(pieces[0], c);
    } else {
      var head, tail := pieces[0], JoinBy(pieces[1..], c);
      calc {
        Split(JoinBy(pieces, c), c);
        Split(head + [c] + tail, c);
        { FirstOfSplit(head, c, tail); }
        [head] + Split(tail, c);
        { SplitOfJoinBy(pieces[1..], c); }
        [head] + pieces[1..];
        pieces;
      }
    }
  }

  lemma FirstOfSplit(head: string, c: char, tail: string)
    requires c !in head
    ensures Split(head + [c] + tail, c) == [head] + Split(tail, c)
  {
    var s := head + [c] + tail;
    FindAfter(head, c, tail);
    assert s[..|head|] == head && s[|head| + 1..] == tail;
  }

  // ---------------------------------------------------------------- numbers

  function Digit(n: nat): (c: char)
    requires n < 10
    ensures IsDigit(c) && c as int - '0' as int == n
  {
    '0' + n as char
  }

  /** A number in decimal, without leading zeros. */
  function PrintNat(n: nat): (s: string)
    ensures s != "" && forall i :: 0 <= i < |s| ==> IsDigit(s[i])
  {
    if n < 10 then [Digit(n)] else PrintNat(n / 10) + [Digit(n % 10)]
  }

  function DigitsValue(s: string): nat
    requires forall i :: 0 <= i < |s| ==> IsDigit(s[i])
  {
    if s == "" then 0 else
      assert IsDigit(s[|s| - 1]);
      10 * DigitsValue(s[..|s| - 1]) + (s[|s| - 1] as int - '0' as int)
  }

  lemma {:induction false} PrintedValue(n: nat)
    ensures DigitsValue(PrintNat(n)) == n
  {
    var s := PrintNat(n);
    if n >= 10 {
      PrintedValue(n / 10);
      assert s[..|s| - 1] == PrintNat(n / 10);
    } else {
      assert s[..0] == "";
    }
  }
}
