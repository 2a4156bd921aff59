/** The start-time reader of `src/polkit.rs`, beside the printer of proc(5)'s stat line. */
module Stat {
  import opened Text

  datatype Reading = Ticks(n: nat) | NoTerminator | TooFewFields | NotANumber

  const U64_LIMIT: nat := 0x1_0000_0000_0000_0000

  /** The position just after the last `c` among the first `n` characters, or 0. */
  function AfterLast(s: string, c: char, n: nat): (r: nat)
    requires n <= |s|
    ensures r <= n && (forall i :: r <= i < n ==> s[i] != c) && (r > 0 ==> s[r - 1] == c)
  {
    if n == 0 || s[n - 1] == c then n else AfterLast(s, c, n - 1)
  }

  /** `parse::<u64>`: an optional plus sign and one or more digits, within 64 bits. */
  function ParseU64(s: string): Reading {
    var digits := if s != "" && s[0] == '+' then s[1..] else s;
    if digits == "" || !(forall i :: 0 <= i < |digits| ==> IsDigit(digits[i])) then NotANumber
    else if DigitsValue(digits) >= U64_LIMIT then NotANumber
    else Ticks(DigitsValue(digits))
  }

  function ProcessStartTime(stat: string): Reading {
    var n := AfterLast(stat, ')', |stat|);
    if n == 0 then NoTerminator else
      var fields := SplitWhitespace(stat[n..]);
      if |fields| <= 19 then TooFewFields else ParseU64(fields[19])
  }

  /** The line as proc(5) prints it: the pid, the name in parentheses, then field 3 on. */
  function PrintStat(pid: nat, name: string, fields: seq<string>): string {
    PrintNat(pid) + " (" + name + ") " + Join(fields) + "\n"
  }

  ghost predicate IsField(s: string) { IsToken(s) && ')' !in s }

  lemma AfterLastIs(s: string, head: string, c: char, tail: string)
    requires c !in tail && s == head + [c] + tail
    ensures AfterLast(s, c, |s|) == |head| + 1
  {
    assert s[|head|] == c;
    forall i | |head| < i < |s| ensures s[i] != c {
      assert s[i] == tail[i - |head| - 1];
    }
  }

  lemma {:induction false} JoinWithout(words: seq<string>, c: char)
    requires c != ' ' && forall i :: 0 <= i < |words| ==> c !in words[i]
    ensures c !in Join(words)
  {
    if |words| > 1 {
      JoinWithout(words[1..], c);
    }
  }

  lemma ParsesPrinted(n: nat)
    ensures ParseU64(PrintNat(n)) == if n < U64_LIMIT then Ticks(n) else NotANumber
  {
    PrintedValue(n);
  }

  /** Whatever the executable is called, the reader sees exactly the fields after it. */
  lemma FieldsAfterName(pid: nat, name: string, fields: seq<string>)
    requires forall i :: 0 <= i < |fields| ==> IsField(fields[i])
    ensures var s := PrintStat(pid, name, fields);
            && AfterLast(s, ')', |s|) > 0
            && SplitWhitespace(s[AfterLast(s, ')', |s|)..]) == fields
  {
    var head, tail := PrintNat(pid) + " (" + name, [' '] + (Join(fields) + ['\n']);
    var s := PrintStat(pid, name, fields);
    assert s == head + [')'] + tail;
    JoinWithout(fields, ')');
    AfterLastIs(s, head, ')', tail);
    assert s[|head| + 1..] == tail;
    FieldsOfTail(fields);
  }

  lemma FieldsOfTail(fields: seq<string>)
    requires forall i :: 0 <= i < |fields| ==> IsToken(fields[i])
    ensures SplitWhitespace([' '] + (Join(fields) + ['\n'])) == fields
  {
    var end: string := ['\n'];
    SplitSpace(' ', Join(fields) + end);
    SplitSpace('\n', "");
    assert end + "" == end && fields + [] == fields && "" + end == end;
    if fields != [] {
      SplitJoin(fields, end);
    }
  }

  /** Field 22 comes back, for every name: spaces and parentheses included. */
  lemma StartTimeIsField22(pid: nat, name: string, fields: seq<string>, ticks: nat)
    requires forall i :: 0 <= i < |fields| ==> IsField(fields[i])
    requires |fields| > 19 && fields[19] == PrintNat(ticks) && ticks < U64_LIMIT
    ensures ProcessStartTime(PrintStat(pid, name, fields)) == Ticks(ticks)
  {
    FieldsAfterName(pid, name, fields);
    ParsesPrinted(ticks);
  }

  /** On a printed line the reader succeeds exactly when field 22 exists and is a 64-bit
      number, and never for want of the parenthesis. */
  lemma StartTimeExactly(pid: nat, name: string, fields: seq<string>)
    requires forall i :: 0 <= i < |fields| ==> IsField(fields[i])
    ensures ProcessStartTime(PrintStat(pid, name, fields)) ==
            if |fields| > 19 then ParseU64(fields[19]) else TooFewFields
  {
    FieldsAfterName(pid, name, fields);
  }

  /** Two processes that differ in start time are told apart whatever they are called. */
  lemma StartTimePinsTheProcess(pid: nat, name: string, fields: seq<string>, ticks: nat,
                                pid': nat, name': string, fields': seq<string>, ticks': nat)
    requires forall i :: 0 <= i < |fields| ==> IsField(fields[i])
    requires forall i :: 0 <= i < |fields'| ==> IsField(fields'[i])
    requires |fields| > 19 && fields[19] == PrintNat(ticks) && ticks < U64_LIMIT
    requires |fields'| > 19 && fields'[19] == PrintNat(ticks') && ticks' < U64_LIMIT
    ensures ProcessStartTime(PrintStat(pid, name, fields)) == ProcessStartTime(PrintStat(pid', name', fields'))
            <==> ticks == ticks'
  {
    StartTimeIsField22(pid, name, fields, ticks);
    StartTimeIsField22(pid', name', fields', ticks');
  }
}
