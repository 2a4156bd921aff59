/** The control-protocol client of `src/control.rs`: the reply reader, the filter over
    the lines of `GETINFO circuit-status`, and the circuit parser, beside printers for
    replies (section 2.3 of Tor's control-spec) and for circuit lines. */
module Control {
  import opened Options
  import opened Text

  // ------------------------------------------------------- reading a reply

  predicate IsStatusLine(line: string) {
    |line| >= 4 && forall i :: 0 <= i < 3 ==> IsDigit(line[i])
  }

  /** What reading one reply off the stream comes to. */
  datatype Reading = Closed | Reply(text: string, rest: string)

  /** One line off the stream without its end, and what follows it. */
  function TakeLine(stream: string): (r: (string, string))
    ensures stream != "" ==> |r.1| < |stream|
  {
    var (full, rest) := ReadLine(stream);
    (TrimEol(full), rest)
  }

  /** What a line does to a reply of which `out` was collected so far. */
  datatype Absorbed = More(out: string, inBlock: bool) | Final(text: string)

  function Absorb(line: string, out: string, inBlock: bool): Absorbed {
    if inBlock then (if line == "." then More(out, false) else More(out + (line + "\n"), true))
    else if IsStatusLine(line) && line[3] == '+' then More(out, true)
    else if IsStatusLine(line) && line[3] == ' ' then Final(out + (line + "\n"))
    else More(out + (line + "\n"), false)
  }

  /** The reply at the head of the stream. */
  function ReadReply(stream: string, out: string, inBlock: bool): Reading
    decreases |stream|
  {
    if stream == "" then Closed else
      var (line, rest) := TakeLine(stream);
      match Absorb(line, out, inBlock)
      case Final(text) => Reply(text, rest)
      case More(out', inBlock') => ReadReply(rest, out', inBlock')
  }

  /** A control connection: what tor has yet to say to us, and what we have said to it. */
  class Connection {
    var stream: string
    var sent: seq<string>

    constructor (stream: string)
      ensures this.stream == stream && sent == []
    {
      this.stream := stream;
      sent := [];
    }

    /** One command and its whole reply, or `None` when the stream ends first. */
    method Command(cmd: string) returns (r: Option<string>)
      modifies this
      ensures sent == old(sent) + [cmd + "\r\n"]
      ensures match ReadReply(old(stream), "", false)
              case Closed => r == None && stream == ""
              case Reply(text, rest) => r == Some(text) && stream == rest
    {
      sent := sent + [cmd + "\r\n"];
      var out := "";
      var inBlock := false;
      while true
        invariant sent == old(sent) + [cmd + "\r\n"]
        invariant ReadReply(stream, out, inBlock) == ReadReply(old(stream), "", false)
        decreases |stream|
      {
        if stream == "" {
          return None;
        }
        var (line, rest) := TakeLine(stream);
        stream := rest;
        if inBlock {
          if line == "." {
            inBlock := false;
          } else {
            out := out + (line + "\n");
          }
          continue;
        }
        if !IsStatusLine(line) {
          out := out + (line + "\n");
          continue;
        }
        match line[3]
        case '+' => inBlock := true;
        case ' ' =>
          out := out + (line + "\n");
          return Some(out);
        case _ => out := out + (line + "\n");
      }
    }
  }

  // ------------------------------------------------------ printing a reply

  /** The parts of a reply before its last line: a line of its own, a data block, or a line that
      bears no code. */
  datatype Part =
    | Mid(code: string, text: string)
    | Data(code: string, text: string, lines: seq<string>)
    | Plain(text: string)

  datatype Message = Message(parts: seq<Part>, code: string, text: string)

  ghost predicate IsCode(s: string) { |s| == 3 && forall i :: 0 <= i < 3 ==> IsDigit(s[i]) }

  ghost predicate AreLines(lines: seq<string>) { forall i :: 0 <= i < |lines| ==> IsLine(lines[i]) }

  ghost predicate BearsCode(line: string) { |line| >= 4 && IsCode(line[..3]) }

  ghost predicate IsPart(p: Part) {
    && IsLine(p.text) && (p.Data? ==> AreLines(p.lines))
    && if p.Plain? then !BearsCode(p.text) else IsCode(p.code)
  }

  ghost predicate IsMessage(m: Message) {
    IsCode(m.code) && IsLine(m.text) && forall i :: 0 <= i < |m.parts| ==> IsPart(m.parts[i])
  }

  /** Dot-stuffing: a payload line that begins with a dot is sent with one more. */
  function Stuff(line: string): string {
    if line != "" && line[0] == '.' then "." + line else line
  }

  function Crlf(line: string): string { line + "\r\n" }

  function PrintBlock(lines: seq<string>): string {
    if lines == [] then Crlf(".") else Crlf(Stuff(lines[0])) + PrintBlock(lines[1..])
  }

  function PrintPart(p: Part): string {
    match p
    case Mid(code, text) => Crlf(code + "-" + text)
    case Data(code, text, lines) => Crlf(code + "+" + text) + PrintBlock(lines)
    case Plain(text) => Crlf(text)
  }

  function PrintParts(parts: seq<Part>): string {
    if parts == [] then "" else PrintPart(parts[0]) + PrintParts(parts[1..])
  }

  function Print(m: Message): string {
    PrintParts(m.parts) + Crlf(m.code + " " + m.text)
  }

  function StuffAll(lines: seq<string>): (r: seq<string>)
    ensures |r| == |lines| && forall i :: 0 <= i < |r| ==> r[i] == Stuff(lines[i])
  {
    seq(|lines|, i requires 0 <= i < |lines| => Stuff(lines[i]))
  }

  /** The lines of a reply as the reader hands them over: the opening and the closing
      line of each block are gone, and the stuffing is still in place. */
  function PartLines(p: Part): seq<string> {
    match p
    case Mid(code, text) => [code + "-" + text]
    case Data(_, _, lines) => StuffAll(lines)
    case Plain(text) => [text]
  }

  function PartsLines(parts: seq<Part>): seq<string> {
    if parts == [] then [] else PartLines(parts[0]) + PartsLines(parts[1..])
  }

  function ReplyLines(m: Message): seq<string> {
    PartsLines(m.parts) + [m.code + " " + m.text]
  }

  // -------------------------------------------------------- reply framing

  lemma TakesLine(line: string, rest: string)
    requires IsLine(line)
    ensures TakeLine(Crlf(line) + rest) == (line, rest)
  {
    ReadsLine(line, rest);
  }

  lemma UnlinesAppend(a: seq<string>, b: seq<string>)
    ensures Unlines(a + b) == Unlines(a) + Unlines(b)
  {
    if a == [] {
      assert a + b == b;
    } else {
      assert (a + b)[1..] == a[1..] + b;
      UnlinesAppend(a[1..], b);
    }
  }

  lemma Assoc(a: string, b: string, c: string)
    ensures a + b + c == a + (b + c)
  {
  }

  /** A line that does not end the reply is one step of reading. */
  lemma ReadsOn(line: string, rest: string, out: string, inBlock: bool)
    requires IsLine(line) && Absorb(line, out, inBlock).More?
    ensures var a := Absorb(line, out, inBlock);
            ReadReply(Crlf(line) + rest, out, inBlock) == ReadReply(rest, a.out, a.inBlock)
  {
    TakesLine(line, rest);
  }

  lemma ReadsLast(line: string, rest: string, out: string)
    requires IsLine(line) && Absorb(line, out, false).Final?
    ensures ReadReply(Crlf(line) + rest, out, false) == Reply(out + (line + "\n"), rest)
  {
    TakesLine(line, rest);
  }

  lemma ReadsBlockOn(line: string, block: string, rest: string, out: string, end: string)
    requires IsLine(line) && Absorb(line, out, true) == More(out + (line + "\n"), true)
    requires ReadReply(block + rest, out + (line + "\n"), true) == ReadReply(rest, end, false)
    ensures ReadReply(Crlf(line) + block + rest, out, true) == ReadReply(rest, end, false)
  {
    Assoc(Crlf(line), block, rest);
    ReadsOn(line, block + rest, out, true);
  }

  lemma UnlinesStuffed(lines: seq<string>, out: string)
    requires lines != []
    ensures out + Unlines(StuffAll(lines)) == out + (Stuff(lines[0]) + "\n") + Unlines(StuffAll(lines[1..]))
  {
    assert StuffAll(lines)[1..] == StuffAll(lines[1..]);
    Assoc(out, Stuff(lines[0]) + "\n", Unlines(StuffAll(lines[1..])));
  }

  /** A data block is read to its end and no further, whatever its lines look like. */
  lemma {:induction false} ReadsBlock(lines: seq<string>, rest: string, out: string)
    requires AreLines(lines)
    ensures ReadReply(PrintBlock(lines) + rest, out, true) ==
            ReadReply(rest, out + Unlines(StuffAll(lines)), false)
  {
    if lines == [] {
      ReadsOn(".", rest, out, true);
      assert out + Unlines(StuffAll(lines)) == out;
    } else {
      var line := Stuff(lines[0]);
      UnlinesStuffed(lines, out);
      ReadsBlock(lines[1..], rest, out + (line + "\n"));
      ReadsBlockOn(line, PrintBlock(lines[1..]), rest, out, out + Unlines(StuffAll(lines)));
    }
  }

  lemma ReadsPart(p: Part, rest: string, out: string)
    requires IsPart(p)
    ensures ReadReply(PrintPart(p) + rest, out, false) == ReadReply(rest, out + Unlines(PartLines(p)), false)
  {
    match p
    case Mid(code, text) =>
      var line := code + "-" + text;
      ReadsOn(line, rest, out, false);
      assert Unlines(PartLines(p)) == line + "\n";
    case Data(code, text, lines) =>
      var line := code + "+" + text;
      Assoc(Crlf(line), PrintBlock(lines), rest);
      ReadsOn(line, PrintBlock(lines) + rest, out, false);
      ReadsBlock(lines, rest, out);
    case Plain(text) =>
      BearsNone(text);
      ReadsOn(text, rest, out, false);
      assert Unlines(PartLines(p)) == text + "\n";
  }

  lemma BearsNone(line: string)
    ensures IsStatusLine(line) <==> BearsCode(line)
  {
    if |line| >= 4 {
      assert forall i :: 0 <= i < 3 ==> line[..3][i] == line[i];
    }
  }

  lemma {:induction false} ReadsParts(parts: seq<Part>, rest: string, out: string)
    requires forall i :: 0 <= i < |parts| ==> IsPart(parts[i])
    ensures ReadReply(PrintParts(parts) + rest, out, false) ==
            ReadReply(rest, out + Unlines(PartsLines(parts)), false)
  {
    if parts == [] {
      assert PrintParts(parts) + rest == rest && out + Unlines(PartsLines(parts)) == out;
    } else {
      var p, tail := parts[0], PrintParts(parts[1..]);
      var here, more := PartLines(p), PartsLines(parts[1..]);
      Assoc(PrintPart(p), tail, rest);
      ReadsPart(p, tail + rest, out);
      ReadsParts(parts[1..], rest, out + Unlines(here));
      UnlinesAppend(here, more);
      Assoc(out, Unlines(here), Unlines(more));
    }
  }

  /** Reply framing: a printed reply is consumed exactly, and the stream is left at what
      follows it. */
  lemma ReadsOneReply(m: Message, rest: string)
    requires IsMessage(m)
    ensures ReadReply(Print(m) + rest, "", false) == Reply(Unlines(ReplyLines(m)), rest)
  {
    var last, out := m.code + " " + m.text, Unlines(PartsLines(m.parts));
    calc {
      ReadReply(Print(m) + rest, "", false);
      { Assoc(PrintParts(m.parts), Crlf(last), rest); }
      ReadReply(PrintParts(m.parts) + (Crlf(last) + rest), "", false);
      { ReadsParts(m.parts, Crlf(last) + rest, ""); assert "" + out == out; }
      ReadReply(Crlf(last) + rest, out, false);
      { assert Absorb(last, out, false).Final?; ReadsLast(last, rest, out); }
      Reply(out + (last + "\n"), rest);
      { UnlinesAppend(PartsLines(m.parts), [last]); assert Unlines([last]) == last + "\n"; }
      Reply(Unlines(ReplyLines(m)), rest);
    }
  }

  // ------------------------------------------------------ a reply cut short

  lemma NoNewline(s: string)
    requires '\n' !in s
    ensures ReadLine(s) == (s, "")
  {
    FindNowhere(s, '\n');
  }

  /** The beginning of a line, with its end at most begun: it is read as far as it goes. */
  lemma TakesCut(line: string, n: nat)
    requires IsLine(line) && 0 < n <= |line| + 1
    ensures var cut := if n <= |line| then line[..n] else line;
            TakeLine(Crlf(line)[..n]) == (cut, "") && Crlf(line)[..n] != ""
  {
    var cut := Crlf(line)[..n];
    NoNewline(cut);
    if n <= |line| {
      assert cut == line[..n] && cut[n - 1] == line[n - 1];
      assert line[n - 1] in line;
    } else {
      assert cut == line + "\r" && cut[..|cut| - 1] == line && cut[|cut| - 1] == '\r';
      assert line != "" ==> line[|line| - 1] in line;
      assert TrimEol(cut) == TrimEol(line) == line;
    }
  }

  /** A line that cannot end a reply, wherever it is cut. */
  predicate NeverLast(line: string, inBlock: bool) {
    inBlock || !IsStatusLine(line) || (|line| > 3 && line[3] != ' ')
  }

  lemma CutLine(line: string, n: nat, out: string, inBlock: bool)
    requires IsLine(line) && n <= |line| + 1 && NeverLast(line, inBlock)
    ensures ReadReply(Crlf(line)[..n], out, inBlock) == Closed
  {
    if n > 0 {
      TakesCut(line, n);
      var cut := if n <= |line| then line[..n] else line;
      assert Absorb(cut, out, inBlock).More?;
    }
  }

  lemma CutSum(a: string, b: string, n: nat)
    requires n <= |a + b|
    ensures n <= |a| ==> (a + b)[..n] == a[..n]
    ensures n > |a| ==> (a + b)[..n] == a + b[..n - |a|]
  {
  }

  /** A cut either falls into the first line, or leaves it whole. */
  lemma CutLater(line: string, more: string, n: nat, out: string, inBlock: bool)
    requires IsLine(line) && NeverLast(line, inBlock) && n <= |Crlf(line) + more|
    ensures n <= |line| + 1 ==> ReadReply((Crlf(line) + more)[..n], out, inBlock) == Closed
    ensures n > |line| + 1 ==> var a := Absorb(line, out, inBlock);
                               a.More? && ReadReply((Crlf(line) + more)[..n], out, inBlock)
                                          == ReadReply(more[..n - |line| - 2], a.out, a.inBlock)
  {
    if n <= |line| + 1 {
      assert (Crlf(line) + more)[..n] == Crlf(line)[..n];
      CutLine(line, n, out, inBlock);
    } else {
      assert (Crlf(line) + more)[..n] == Crlf(line) + more[..n - |line| - 2];
      ReadsOn(line, more[..n - |line| - 2], out, inBlock);
    }
  }

  lemma {:induction false} CutBlock(lines: seq<string>, n: nat, out: string)
    requires AreLines(lines) && n <= |PrintBlock(lines)|
    ensures ReadReply(PrintBlock(lines)[..n], out, true) == Closed
  {
    if lines == [] {
      assert Crlf(".") + "" == Crlf(".");
      CutLater(".", "", n, out, true);
    } else {
      var line, more := Stuff(lines[0]), PrintBlock(lines[1..]);
      CutLater(line, more, n, out, true);
      if n > |line| + 1 {
        CutBlock(lines[1..], n - |line| - 2, out + (line + "\n"));
      }
    }
  }

  lemma CutMid(line: string, n: nat, out: string)
    requires IsLine(line) && NeverLast(line, false) && n <= |Crlf(line)|
    ensures ReadReply(Crlf(line)[..n], out, false) == Closed
  {
    assert Crlf(line) + "" == Crlf(line);
    CutLater(line, "", n, out, false);
  }

  lemma CutData(line: string, block: string, n: nat, out: string)
    requires IsLine(line) && IsStatusLine(line) && line[3] == '+' && n <= |Crlf(line) + block|
    requires forall k :: 0 <= k <= |block| ==> ReadReply(block[..k], out, true) == Closed
    ensures ReadReply((Crlf(line) + block)[..n], out, false) == Closed
  {
    CutLater(line, block, n, out, false);
  }

  lemma CutPlain(line: string, n: nat, out: string)
    requires IsLine(line) && !BearsCode(line) && n <= |Crlf(line)|
    ensures ReadReply(Crlf(line)[..n], out, false) == Closed
  {
    BearsNone(line);
    CutMid(line, n, out);
  }

  lemma CutPart(p: Part, n: nat, out: string)
    requires IsPart(p) && n <= |PrintPart(p)|
    ensures ReadReply(PrintPart(p)[..n], out, false) == Closed
  {
    match p
    case Mid(code, text) => CutMid(code + "-" + text, n, out);
    case Data(code, text, lines) =>
      var block := PrintBlock(lines);
      forall k | 0 <= k <= |block| ensures ReadReply(block[..k], out, true) == Closed {
        CutBlock(lines, k, out);
      }
      CutData(code + "+" + text, block, n, out);
    case Plain(text) => CutPlain(text, n, out);
  }

  lemma {:induction false} CutParts(parts: seq<Part>, n: nat, out: string)
    requires forall i :: 0 <= i < |parts| ==> IsPart(parts[i])
    requires n <= |PrintParts(parts)|
    ensures ReadReply(PrintParts(parts)[..n], out, false) == Closed
  {
    if parts != [] {
      var here, more := PrintPart(parts[0]), PrintParts(parts[1..]);
      CutSum(here, more, n);
      if n <= |here| {
        CutPart(parts[0], n, out);
      } else {
        ReadsPart(parts[0], more[..n - |here|], out);
        CutParts(parts[1..], n - |here|, out + Unlines(PartLines(parts[0])));
      }
    }
  }

  lemma CutLast(line: string, n: nat, out: string)
    requires IsLine(line) && |line| > 3 && IsCode(line[..3]) && line[3] == ' ' && n <= |Crlf(line)|
    ensures ReadReply(Crlf(line)[..n], out, false).Closed? <==> n < 4
  {
    if n == |line| + 2 {
      assert Crlf(line)[..n] == Crlf(line) + "";
      assert forall i :: 0 <= i < 3 ==> line[i] == line[..3][i];
      ReadsLast(line, "", out);
    } else if n > 0 {
      TakesCut(line, n);
      var cut := if n <= |line| then line[..n] else line;
      assert forall i :: 0 <= i < 3 && i < n ==> cut[i] == line[..3][i];
      assert Absorb(cut, out, false).Final? <==> n >= 4;
    }
  }

  /** When tor hangs up in the middle of a reply, that is an error exactly when fewer than four
      characters of the last line have come. A last line cut later than that is taken for the
      end of the reply. */
  lemma CutShort(m: Message, n: nat)
    requires IsMessage(m) && n <= |Print(m)|
    ensures ReadReply(Print(m)[..n], "", false).Closed? <==> n < |PrintParts(m.parts)| + 4
  {
    var last := m.code + " " + m.text;
    CutSum(PrintParts(m.parts), Crlf(last), n);
    if n <= |PrintParts(m.parts)| {
      CutParts(m.parts, n, "");
    } else {
      CutInLast(m, last, n - |PrintParts(m.parts)|);
    }
  }

  lemma CutInLast(m: Message, last: string, k: nat)
    requires IsMessage(m) && last == m.code + " " + m.text && k <= |Crlf(last)|
    ensures ReadReply(PrintParts(m.parts) + Crlf(last)[..k], "", false).Closed? <==> k < 4
  {
    var cut, out := Crlf(last)[..k], "" + Unlines(PartsLines(m.parts));
    ReadsParts(m.parts, cut, "");
    BeginsWithCode(m.code, m.text, last);
    CutLast(last, k, out);
  }

  lemma BeginsWithCode(code: string, text: string, last: string)
    requires IsCode(code) && IsLine(text) && last == code + " " + text
    ensures IsLine(last) && |last| > 3 && IsCode(last[..3]) && last[3] == ' '
  {
    assert last[..3] == code;
  }

  function PrintAll(ms: seq<Message>): string {
    if ms == [] then "" else Print(ms[0]) + PrintAll(ms[1..])
  }

  /** What `n` successive commands read: their replies and the stream after them. */
  function ReadMany(stream: string, n: nat): Option<(seq<string>, string)>
    decreases n
  {
    if n == 0 then Some(([], stream)) else
      match ReadReply(stream, "", false)
      case Closed => None
      case Reply(text, rest) =>
        match ReadMany(rest, n - 1)
        case None => None
        case Some((texts, end)) => Some(([text] + texts, end))
  }

  function Texts(ms: seq<Message>): seq<string> {
    if ms == [] then [] else [Unlines(ReplyLines(ms[0]))] + Texts(ms[1..])
  }

  lemma NextReply(stream: string, n: nat, text: string, rest: string)
    requires ReadReply(stream, "", false) == Reply(text, rest) && ReadMany(rest, n).Some?
    ensures ReadMany(stream, n + 1) == Some(([text] + ReadMany(rest, n).value.0, ReadMany(rest, n).value.1))
  {
  }

  /** Every reply of a conversation is told from the next. */
  lemma {:induction false} ReadsEveryReply(ms: seq<Message>, rest: string)
    requires forall i :: 0 <= i < |ms| ==> IsMessage(ms[i])
    ensures ReadMany(PrintAll(ms) + rest, |ms|) == Some((Texts(ms), rest))
  {
    if ms == [] {
      assert PrintAll(ms) + rest == rest;
    } else {
      var later := PrintAll(ms[1..]);
      Assoc(Print(ms[0]), later, rest);
      ReadsOneReply(ms[0], later + rest);
      ReadsEveryReply(ms[1..], rest);
      NextReply(Print(ms[0]) + (later + rest), |ms| - 1, Unlines(ReplyLines(ms[0])), later + rest);
      assert PrintAll(ms) == Print(ms[0]) + later;
    }
  }
}
