/** Circuit lines of `src/control.rs`: the parser and the filter over a reply's lines,
    beside a printer of circuit lines (`GETINFO circuit-status` in Tor's control-spec). */
module Circuits {
  import opened Options
  import opened Seqs
  import opened Text
  import opened Control

  datatype Hop = Hop(nickname: string, fingerprint: string)

  datatype Circuit = Circuit(id: string, state: string, purpose: string, hops: seq<Hop>)

  // ---------------------------------------------------------------- parser

  const UNKNOWN := "UNKNOWN"
  const UNNAMED := "(unnamed)"
  const PURPOSE := "PURPOSE="

  function TrimDollars(s: string): string {
    if s != "" && s[0] == '$' then TrimDollars(s[1..]) else s
  }

  /** One entry of a path: a fingerprint and perhaps a nickname after a tilde. */
  function ParseHop(entry: string): Hop {
    var e := TrimDollars(entry);
    var n := Find(e, '~');
    if n < |e| then Hop(e[n + 1..], e[..n]) else Hop(UNNAMED, e)
  }

  predicate NamesPurpose(part: string) { StartsWith(part, PURPOSE) }

  function HopList(entry: string): seq<Hop> { [ParseHop(entry)] }

  function ParseHops(entries: seq<string>): seq<Hop> { FlatMap(HopList, entries) }

  /** The hops a part of the line contributes. */
  function HopsOfPart(part: string): seq<Hop> {
    if NamesPurpose(part) || '$' !in part then [] else ParseHops(Split(part, ','))
  }

  function HopsOf(parts: seq<string>): seq<Hop> { FlatMap(HopsOfPart, parts) }

  function NextPurpose(current: string, part: string): string {
    if NamesPurpose(part) then part[|PURPOSE|..] else current
  }

  /** The last purpose named, or `current` when none is. */
  function PurposeOf(parts: seq<string>, current: string): string { Fold(NextPurpose, current, parts) }

  function Parsed(line: string): Option<Circuit> {
    var words := SplitWhitespace(line);
    if |words| < 2 then None
    else Some(Circuit(words[0], words[1], PurposeOf(words[2..], UNKNOWN), HopsOf(words[2..])))
  }

  /** Read one path, entry by entry. */
  method PushHops(part: string, hops: seq<Hop>) returns (r: seq<Hop>)
    requires !NamesPurpose(part) && '$' in part
    ensures r == hops + HopsOfPart(part)
  {
    r := hops;
    var entries := Split(part, ',');
    for j := 0 to |entries|
      invariant r == hops + ParseHops(entries[..j])
    {
      FlatMapStep(HopList, entries, j);
      var entry := TrimDollars(entries[j]);
      var n := Find(entry, '~');
      var hop := if n < |entry| then Hop(entry[n + 1..], entry[..n]) else Hop(UNNAMED, entry);
      r := r + [hop];
    }
    assert entries[..|entries|] == entries;
  }

  method ParseCircuit(line: string) returns (r: Option<Circuit>)
    ensures r == Parsed(line)
  {
    var words := SplitWhitespace(line);
    if |words| < 2 {
      return None;
    }
    var parts := words[2..];
    var hops, purpose := [], UNKNOWN;
    for i := 0 to |parts|
      invariant hops == HopsOf(parts[..i]) && purpose == PurposeOf(parts[..i], UNKNOWN)
    {
      FlatMapStep(HopsOfPart, parts, i);
      FoldStep(NextPurpose, UNKNOWN, parts, i);
      var part := parts[i];
      if NamesPurpose(part) {
        purpose := part[|PURPOSE|..];
      } else if '$' in part {
        hops := PushHops(part, hops);
      }
    }
    assert parts[..|parts|] == parts;
    return Some(Circuit(words[0], words[1], purpose, hops));
  }

  // ---------------------------------------------------------------- filter

  predicate LooksLikeCode(s: string) { StartsWith(s, "250") }

  predicate IsScaffolding(line: string) {
    LooksLikeCode(line) || line == "" || line == "OK"
  }

  /** The circuit on one line of a reply, if there is one. */
  function CircuitOn(line: string): seq<Circuit> {
    var trimmed := Trim(line);
    if IsScaffolding(trimmed) then [] else
      match Parsed(trimmed)
      case None => []
      case Some(circuit) => [circuit]
  }

  /** The circuits among the lines of a reply, in order. */
  function Collect(lines: seq<string>): seq<Circuit> { FlatMap(CircuitOn, lines) }

  /** The circuits a reply reports, and the stream it leaves. */
  function Exchange(r: Reading): Option<(seq<Circuit>, string)> {
    match r
    case Closed => None
    case Reply(text, rest) => Some((Collect(Lines(text)), rest))
  }

  /** One exchange over the connection: the circuits of its reply. */
  method ReadCircuits(c: Connection) returns (r: Option<seq<Circuit>>)
    modifies c
    ensures match Exchange(ReadReply(old(c.stream), "", false))
            case None => r == None
            case Some((circuits, rest)) => r == Some(circuits) && c.stream == rest
    ensures c.sent == old(c.sent) + [Crlf("GETINFO circuit-status")]
  {
    var reply := c.Command("GETINFO circuit-status");
    if reply.None? {
      return None;
    }
    var circuits := FilterLines(Lines(reply.value));
    return Some(circuits);
  }

  method FilterLines(lines: seq<string>) returns (circuits: seq<Circuit>)
    ensures circuits == Collect(lines)
  {
    circuits := [];
    for i := 0 to |lines|
      invariant circuits == Collect(lines[..i])
    {
      FlatMapStep(CircuitOn, lines, i);
      var line := Trim(lines[i]);
      if IsScaffolding(line) {
        continue;
      }
      var parsed := ParseCircuit(line);
      if parsed.Some? {
        circuits := circuits + [parsed.value];
      }
    }
    assert lines[..|lines|] == lines;
  }

  // --------------------------------------------------------------- printer

  datatype Relay = Relay(fingerprint: string, nickname: Option<string>)

  /** A circuit as tor reports it: its path, and `key=value` parts around its purpose. */
  datatype Entry = Entry(id: string, state: string, path: seq<Relay>,
                         before: seq<string>, purpose: Option<string>, after: seq<string>)

  ghost predicate IsRelay(r: Relay) {
    && NoSpace(r.fingerprint) && ',' !in r.fingerprint && '~' !in r.fingerprint
    && (r.fingerprint != "" ==> r.fingerprint[0] != '$')
    && (r.nickname.Some? ==> NoSpace(r.nickname.value) && ',' !in r.nickname.value)
  }

  /** A part that is neither the path nor the purpose. */
  ghost predicate IsOther(part: string) { IsToken(part) && !NamesPurpose(part) }

  ghost predicate IsEntry(e: Entry) {
    && IsToken(e.id) && IsToken(e.state)
    && (forall i :: 0 <= i < |e.path| ==> IsRelay(e.path[i]))
    && (forall i :: 0 <= i < |e.before| ==> IsOther(e.before[i]))
    && (forall i :: 0 <= i < |e.after| ==> IsOther(e.after[i]))
    && (e.purpose.Some? ==> NoSpace(e.purpose.value))
  }

  function RelayBody(r: Relay): string {
    r.fingerprint + if r.nickname.Some? then ['~'] + r.nickname.value else []
  }

  function PrintRelay(r: Relay): string { ['$'] + RelayBody(r) }

  function PrintRelays(path: seq<Relay>): (s: seq<string>)
    ensures |s| == |path| && forall i :: 0 <= i < |s| ==> s[i] == PrintRelay(path[i])
  {
    if path == [] then [] else [PrintRelay(path[0])] + PrintRelays(path[1..])
  }

  function PathParts(e: Entry): seq<string> {
    if e.path == [] then [] else [JoinBy(PrintRelays(e.path), ',')]
  }

  function PurposeParts(e: Entry): seq<string> {
    if e.purpose.Some? then [PURPOSE + e.purpose.value] else []
  }

  function Parts(e: Entry): seq<string> {
    PathParts(e) + e.before + PurposeParts(e) + e.after
  }

  function PrintEntry(e: Entry): string { Join([e.id, e.state] + Parts(e)) }

  function HopOf(r: Relay): Hop { Hop(r.nickname.GetOr(UNNAMED), r.fingerprint) }

  function HopsAlong(path: seq<Relay>): (r: seq<Hop>)
    ensures |r| == |path|
  {
    if path == [] then [] else [HopOf(path[0])] + HopsAlong(path[1..])
  }

  // ------------------------------------------------------------ round trip

  lemma {:induction false} NoPurposeIn(parts: seq<string>, current: string)
    requires forall i :: 0 <= i < |parts| ==> !NamesPurpose(parts[i])
    ensures PurposeOf(parts, current) == current
  {
    if parts != [] {
      NoPurposeIn(parts[1..], current);
    }
  }

  /** Of several purposes the last one counts. */
  lemma LastPurposeCounts(before: seq<string>, purpose: string, after: seq<string>, current: string)
    requires forall i :: 0 <= i < |after| ==> !NamesPurpose(after[i])
    ensures PurposeOf(before + [PURPOSE + purpose] + after, current) == purpose
  {
    var part := PURPOSE + purpose;
    assert part[..|PURPOSE|] == PURPOSE && part[|PURPOSE|..] == purpose;
    FoldAppend(NextPurpose, current, before + [part], after);
    FoldAppend(NextPurpose, current, before, [part]);
    FoldOne(NextPurpose, PurposeOf(before, current), part);
    NoPurposeIn(after, purpose);
  }

  /** However many dollar signs stand before a fingerprint, none of them is part of it. */
  lemma {:induction false} DollarsGo(dollars: string, s: string)
    requires forall i :: 0 <= i < |dollars| ==> dollars[i] == '$'
    requires s == "" || s[0] != '$'
    ensures ParseHop(dollars + s) == ParseHop(s)
  {
    if dollars == "" {
      assert dollars + s == s;
    } else {
      assert (dollars + s)[1..] == dollars[1..] + s;
      DollarsGo(dollars[1..], s);
    }
  }

  /** Parts that name no relay add no hop; each other part adds at least one. */
  lemma {:induction false} OtherHops(parts: seq<string>)
    requires forall i :: 0 <= i < |parts| ==> IsOther(parts[i])
    ensures HopsOf(parts) == [] <==> forall i :: 0 <= i < |parts| ==> '$' !in parts[i]
  {
    if parts != [] {
      OtherHops(parts[1..]);
      assert forall i :: 1 <= i < |parts| ==> parts[1..][i - 1] == parts[i];
      assert HopsOfPart(parts[0]) == [] <==> '$' !in parts[0];
    }
  }

  lemma SplitsAtTilde(head: string, tail: string, s: string)
    requires '~' !in head && s == head + ['~'] + tail
    ensures Find(s, '~') == |head| && |head| < |s| && s[|head| + 1..] == tail && s[..|head|] == head
  {
    FindAfter(head, '~', tail);
  }

  lemma ParsesBody(r: Relay, body: string)
    requires IsRelay(r) && body == RelayBody(r)
    ensures var n := Find(body, '~');
            (if n < |body| then Hop(body[n + 1..], body[..n]) else Hop(UNNAMED, body)) == HopOf(r)
  {
    match r.nickname
    case Some(nickname) =>
      assert body == r.fingerprint + ['~'] + nickname;
      SplitsAtTilde(r.fingerprint, nickname, body);
    case None =>
      assert body == r.fingerprint;
      FindNowhere(body, '~');
  }

  lemma ParsesRelay(r: Relay)
    requires IsRelay(r)
    ensures ParseHop(PrintRelay(r)) == HopOf(r)
  {
    var body := RelayBody(r);
    assert body != "" ==> body[0] != '$';
    assert PrintRelay(r)[1..] == body;
    assert TrimDollars(PrintRelay(r)) == TrimDollars(body) == body;
    ParsesBody(r, body);
  }

  lemma RelayIsClean(r: Relay)
    requires IsRelay(r)
    ensures ',' !in PrintRelay(r) && NoSpace(PrintRelay(r)) && PrintRelay(r)[0] == '$'
  {
    assert !IsSpace('~') && !IsSpace('$');
  }

  lemma {:induction false} JoinByKeeps(pieces: seq<string>, c: char)
    requires pieces != [] && !IsSpace(c)
    requires forall i :: 0 <= i < |pieces| ==> NoSpace(pieces[i]) && pieces[i] != ""
    ensures var s := JoinBy(pieces, c); s != "" && NoSpace(s) && s[0] == pieces[0][0]
  {
    if |pieces| > 1 {
      JoinByKeeps(pieces[1..], c);
    }
  }

  lemma {:induction false} RelaysRoundTrip(path: seq<Relay>)
    requires forall i :: 0 <= i < |path| ==> IsRelay(path[i])
    ensures ParseHops(PrintRelays(path)) == HopsAlong(path)
  {
    if path != [] {
      ParsesRelay(path[0]);
      RelaysRoundTrip(path[1..]);
    }
  }

  /** What separating pieces of a path by commas relies on. */
  ghost predicate IsPiece(s: string) { ',' !in s && NoSpace(s) && s != "" && s[0] == '$' }

  lemma RelaysArePieces(path: seq<Relay>)
    requires forall i :: 0 <= i < |path| ==> IsRelay(path[i])
    ensures forall i :: 0 <= i < |path| ==> IsPiece(PrintRelays(path)[i])
  {
    forall i | 0 <= i < |path| ensures IsPiece(PrintRelays(path)[i]) {
      RelayIsClean(path[i]);
    }
  }

  lemma DollarPart(part: string, pieces: seq<string>)
    requires part != "" && part[0] == '$' && Split(part, ',') == pieces
    ensures !NamesPurpose(part) && HopsOfPart(part) == ParseHops(pieces)
  {
    assert PURPOSE[0] == 'P';
    assert '$' in part;
  }

  lemma PathIsToken(pieces: seq<string>)
    requires pieces != [] && forall i :: 0 <= i < |pieces| ==> IsPiece(pieces[i])
    ensures var part := JoinBy(pieces, ','); IsToken(part) && part[0] == '$'
  {
    JoinByKeeps(pieces, ',');
  }

  lemma PathPart(pieces: seq<string>)
    requires pieces != [] && forall i :: 0 <= i < |pieces| ==> IsPiece(pieces[i])
    ensures var part := JoinBy(pieces, ',');
            IsToken(part) && !NamesPurpose(part) && HopsOfPart(part) == ParseHops(pieces)
  {
    PathIsToken(pieces);
    SplitOfJoinBy(pieces, ',');
    DollarPart(JoinBy(pieces, ','), pieces);
  }

  /** The path part is one word, and reads back as the path. */
  lemma ParsesPath(path: seq<Relay>)
    requires path != [] && forall i :: 0 <= i < |path| ==> IsRelay(path[i])
    ensures var part := JoinBy(PrintRelays(path), ',');
            IsToken(part) && !NamesPurpose(part) && HopsOfPart(part) == HopsAlong(path)
  {
    RelaysArePieces(path);
    PathPart(PrintRelays(path));
    RelaysRoundTrip(path);
  }

  lemma ParsesPathParts(e: Entry)
    requires IsEntry(e)
    ensures HopsOf(PathParts(e)) == HopsAlong(e.path)
    ensures forall i :: 0 <= i < |PathParts(e)| ==> IsToken(PathParts(e)[i]) && !NamesPurpose(PathParts(e)[i])
  {
    if e.path != [] {
      ParsesPath(e.path);
      FlatMapOne(HopsOfPart, JoinBy(PrintRelays(e.path), ','));
    }
  }

  lemma PurposePartIsToken(e: Entry)
    requires IsEntry(e) && e.purpose.Some?
    ensures IsToken(PURPOSE + e.purpose.value)
  {
    assert NoSpace(PURPOSE);
  }

  lemma PartsAreTokens(e: Entry)
    requires IsEntry(e)
    ensures forall i :: 0 <= i < |Parts(e)| ==> IsToken(Parts(e)[i])
  {
    ParsesPathParts(e);
    if e.purpose.Some? {
      PurposePartIsToken(e);
    }
  }

  lemma WordsOf(e: Entry)
    requires IsEntry(e)
    ensures SplitWhitespace(PrintEntry(e)) == [e.id, e.state] + Parts(e)
  {
    var words := [e.id, e.state] + Parts(e);
    PartsAreTokens(e);
    SplitJoin(words, "");
    assert Join(words) + "" == Join(words) && words + SplitWhitespace("") == words;
  }

  /** A printed entry is one line of the payload, unharmed by trimming. */
  lemma EntryIsLine(e: Entry)
    requires IsEntry(e)
    ensures var s := PrintEntry(e);
            && IsLine(s) && s != "" && s[0] == e.id[0] && Trim(s) == s
            && |e.id| < |s| && s[..|e.id|] == e.id && s[|e.id|] == ' '
  {
    var words := [e.id, e.state] + Parts(e);
    PartsAreTokens(e);
    JoinIsTrimmed(words);
    assert IsSpace('\r') && IsSpace('\n');
    var s := PrintEntry(e);
    assert s == e.id + ([' '] + Join(words[1..]));
    assert TrimStart(s) == s;
  }

  /** White space around a circuit line makes no difference. */
  lemma PaddingIsIgnored(left: string, e: Entry, right: string)
    requires IsEntry(e)
    requires forall i :: 0 <= i < |left| ==> IsSpace(left[i])
    requires forall i :: 0 <= i < |right| ==> IsSpace(right[i])
    ensures CircuitOn(left + PrintEntry(e) + right) == CircuitOn(PrintEntry(e))
  {
    var words := [e.id, e.state] + Parts(e);
    PartsAreTokens(e);
    JoinIsTrimmed(words);
    EntryIsLine(e);
    Trims(left, PrintEntry(e), right);
  }

  lemma PurposeOfEntry(e: Entry)
    requires IsEntry(e)
    ensures PurposeOf(Parts(e), UNKNOWN) == e.purpose.GetOr(UNKNOWN)
  {
    ParsesPathParts(e);
    var head := PathParts(e) + e.before;
    NoPurposeIn(head, UNKNOWN);
    FoldAppend(NextPurpose, UNKNOWN, head, PurposeParts(e));
    PurposeOfPurposeParts(e);
    FoldAppend(NextPurpose, UNKNOWN, head + PurposeParts(e), e.after);
    NoPurposeIn(e.after, e.purpose.GetOr(UNKNOWN));
  }

  lemma PurposeOfPurposeParts(e: Entry)
    ensures PurposeOf(PurposeParts(e), UNKNOWN) == e.purpose.GetOr(UNKNOWN)
    ensures HopsOf(PurposeParts(e)) == []
  {
    if e.purpose.Some? {
      var part := PURPOSE + e.purpose.value;
      assert part[..|PURPOSE|] == PURPOSE && part[|PURPOSE|..] == e.purpose.value;
      FoldOne(NextPurpose, UNKNOWN, part);
      FlatMapOne(HopsOfPart, part);
    }
  }

  lemma HopsOfAll(path: seq<string>, before: seq<string>, purpose: seq<string>, after: seq<string>)
    ensures HopsOf(path + before + purpose + after) == HopsOf(path) + HopsOf(before) + HopsOf(purpose) + HopsOf(after)
  {
    FlatMapAppend(HopsOfPart, path + before + purpose, after);
    FlatMapAppend(HopsOfPart, path + before, purpose);
    FlatMapAppend(HopsOfPart, path, before);
  }

  lemma HopsOfEntry(e: Entry)
    requires IsEntry(e)
    ensures HopsOf(Parts(e)) == HopsAlong(e.path) + HopsOf(e.before) + HopsOf(e.after)
  {
    ParsesPathParts(e);
    PurposeOfPurposeParts(e);
    HopsOfAll(PathParts(e), e.before, PurposeParts(e), e.after);
    var head := HopsAlong(e.path) + HopsOf(e.before);
    assert head + [] == head;
  }

  /** No dollar sign in any `key=value` part but the purpose. */
  ghost predicate NoStrayDollar(e: Entry) {
    && (forall i :: 0 <= i < |e.before| ==> '$' !in e.before[i])
    && (forall i :: 0 <= i < |e.after| ==> '$' !in e.after[i])
  }

  lemma HopsExactly(e: Entry)
    requires IsEntry(e)
    ensures HopsOf(Parts(e)) == HopsAlong(e.path) <==> NoStrayDollar(e)
  {
    HopsOfEntry(e);
    OtherHops(e.before);
    OtherHops(e.after);
    var path, b, a := HopsAlong(e.path), HopsOf(e.before), HopsOf(e.after);
    assert |path + b + a| == |path| + |b| + |a|;
    assert path + [] + [] == path;
  }

  /** Circuit line round trip: id, state and purpose come back for every entry, and the
      hops come back exactly when no other part holds a dollar sign. */
  lemma EntryRoundTrip(e: Entry)
    requires IsEntry(e)
    ensures var r := Parsed(PrintEntry(e));
            && r.Some? && r.value.id == e.id && r.value.state == e.state
            && r.value.purpose == e.purpose.GetOr(UNKNOWN)
            && (r.value.hops == HopsAlong(e.path) <==> NoStrayDollar(e))
  {
    WordsOf(e);
    var words := [e.id, e.state] + Parts(e);
    assert words[2..] == Parts(e);
    PurposeOfEntry(e);
    HopsExactly(e);
  }

  // ---------------------------------------------------- the whole exchange

  function PrintEntries(es: seq<Entry>): (r: seq<string>)
    ensures |r| == |es| && forall i :: 0 <= i < |r| ==> r[i] == PrintEntry(es[i])
  {
    seq(|es|, i requires 0 <= i < |es| => PrintEntry(es[i]))
  }

  const CLOSING: string := "250" + " " + "OK"

  /** The reply to `GETINFO circuit-status`, as a data block. */
  function CircuitStatus(es: seq<Entry>): Message {
    Message([Data("250", "circuit-status=", PrintEntries(es))], "250", "OK")
  }

  /** What the filter lets through: circuits whose id does not look like a success code. */
  function Kept(es: seq<Entry>): (r: seq<Entry>)
    ensures |r| <= |es|
    ensures forall e :: e in r ==> e in es
  {
    if es == [] then []
    else (if LooksLikeCode(es[0].id) then [] else [es[0]]) + Kept(es[1..])
  }

  /** Each entry parsed on its own, in order. */
  function ParsedAll(es: seq<Entry>): seq<Circuit> { FlatMap(ParsedEntry, es) }

  function ParsedEntry(e: Entry): seq<Circuit> {
    match Parsed(PrintEntry(e)) case None => [] case Some(c) => [c]
  }

  lemma FilterSeesId(e: Entry)
    requires IsEntry(e)
    ensures IsScaffolding(PrintEntry(e)) <==> LooksLikeCode(e.id)
  {
    EntryIsLine(e);
    var s, ok := PrintEntry(e), "250";
    assert |e.id| < |s| && (|e.id| < 3 ==> s[|e.id|] != ok[|e.id|]);
  }

  lemma {:induction false} CollectsKept(es: seq<Entry>)
    requires forall i :: 0 <= i < |es| ==> IsEntry(es[i])
    ensures Collect(PrintEntries(es)) == ParsedAll(Kept(es))
  {
    if es != [] {
      var e := es[0];
      assert PrintEntries(es)[1..] == PrintEntries(es[1..]);
      CollectsKept(es[1..]);
      FilterSeesId(e);
      EntryIsLine(e);
      EntryRoundTrip(e);
      assert CircuitOn(PrintEntry(e)) == if LooksLikeCode(e.id) then [] else [Parsed(PrintEntry(e)).value];
      if !LooksLikeCode(e.id) {
        assert Kept(es)[1..] == Kept(es[1..]);
      } else {
        assert Kept(es) == Kept(es[1..]);
      }
    }
  }

  /** An entry as the reader sees it: the dot-stuffing of its line is left in place. */
  function Received(e: Entry): Entry { e.(id := Stuff(e.id)) }

  function ReceivedAll(es: seq<Entry>): (r: seq<Entry>)
    ensures |r| == |es| && forall i :: 0 <= i < |r| ==> r[i] == Received(es[i])
  {
    seq(|es|, i requires 0 <= i < |es| => Received(es[i]))
  }

  predicate Dotted(s: string) { s != "" && s[0] == '.' }

  lemma StuffedCode(id: string)
    ensures LooksLikeCode(Stuff(id)) <==> LooksLikeCode(id)
  {
    var code := "250";
    assert code[0] == '2';
    if Dotted(id) {
      assert Stuff(id)[0] == '.' && id[0] == '.';
    }
  }

  lemma StuffsEntry(e: Entry)
    requires IsEntry(e)
    ensures Stuff(PrintEntry(e)) == PrintEntry(Received(e))
  {
    var words := [e.id, e.state] + Parts(e);
    var words' := [Received(e).id, e.state] + Parts(e);
    assert words[1..] == words'[1..] && |words| > 1;
    assert PrintEntry(e) == e.id + (" " + Join(words[1..]));
    assert PrintEntry(Received(e)) == Received(e).id + (" " + Join(words'[1..]));
  }

  lemma ReceivedIsEntry(e: Entry)
    requires IsEntry(e)
    ensures IsEntry(Received(e)) && (Received(e).id == e.id <==> !Dotted(e.id))
    ensures LooksLikeCode(Received(e).id) <==> LooksLikeCode(e.id)
    ensures Stuff(PrintEntry(e)) == PrintEntry(Received(e))
  {
    StuffedCode(e.id);
    StuffsEntry(e);
  }

  lemma EntriesAreLines(es: seq<Entry>)
    requires forall i :: 0 <= i < |es| ==> IsEntry(es[i])
    ensures AreLines(PrintEntries(es)) && StuffAll(PrintEntries(es)) == PrintEntries(ReceivedAll(es))
    ensures forall e :: e in ReceivedAll(es) ==> IsEntry(e)
  {
    var lines, received := PrintEntries(es), ReceivedAll(es);
    forall i | 0 <= i < |es|
      ensures IsLine(lines[i]) && Stuff(lines[i]) == PrintEntry(received[i]) && IsEntry(received[i])
    {
      EntryIsLine(es[i]);
      ReceivedIsEntry(es[i]);
    }
  }

  lemma StatusIsMessage(es: seq<Entry>)
    requires AreLines(PrintEntries(es))
    ensures IsMessage(CircuitStatus(es))
  {
  }

  lemma OneBlock(code: string, text: string, lines: seq<string>, end: string)
    ensures ReplyLines(Message([Data(code, text, lines)], code, end)) == StuffAll(lines) + [code + " " + end]
  {
    var part := Data(code, text, lines);
    var parts := [part];
    assert PartsLines(parts) == PartLines(part) + PartsLines(parts[1..]);
    assert parts[1..] == [] && StuffAll(lines) + [] == StuffAll(lines);
  }

  lemma ClosingLineIsSkipped()
    ensures CircuitOn(CLOSING) == []
  {
    assert Trim(CLOSING) == CLOSING && CLOSING[..3] == "250";
  }

  lemma CollectsLines(lines: seq<string>, last: string)
    requires AreLines(lines) && IsLine(last) && CircuitOn(last) == []
    ensures Collect(Lines(Unlines(lines + [last]))) == Collect(lines)
  {
    LinesBack(lines + [last]);
    FlatMapAppend(CircuitOn, lines, [last]);
    FlatMapOne(CircuitOn, last);
    assert Collect(lines) + [] == Collect(lines);
  }

  lemma CollectsReply(es: seq<Entry>, last: string)
    requires forall i :: 0 <= i < |es| ==> IsEntry(es[i])
    requires IsLine(last) && CircuitOn(last) == []
    ensures Collect(Lines(Unlines(PrintEntries(es) + [last]))) == ParsedAll(Kept(es))
  {
    EntriesAreLines(es);
    CollectsLines(PrintEntries(es), last);
    CollectsKept(es);
  }

  lemma StatusReply(es: seq<Entry>, rest: string, last: string) returns (text: string)
    requires forall i :: 0 <= i < |es| ==> IsEntry(es[i])
    requires last == CLOSING && IsLine(last) && CircuitOn(last) == []
    ensures ReadReply(Print(CircuitStatus(es)) + rest, "", false) == Reply(text, rest)
    ensures Collect(Lines(text)) == ParsedAll(Kept(ReceivedAll(es)))
  {
    var received := ReceivedAll(es);
    text := Unlines(PrintEntries(received) + [last]);
    EntriesAreLines(es);
    assert forall i :: 0 <= i < |received| ==> received[i] in received;
    CollectsReply(received, last);
    StatusIsMessage(es);
    OneBlock("250", "circuit-status=", PrintEntries(es), "OK");
    ReadsOneReply(CircuitStatus(es), rest);
  }

  /** Circuit-status round trip: of any list of circuits sent as a data block, exactly
      those whose id does not begin with 250 come back, parsed and in order, an id that begins
      with a dot having one more; and the stream is left at what follows the reply. */
  lemma CircuitStatusRoundTrip(es: seq<Entry>, rest: string)
    requires forall i :: 0 <= i < |es| ==> IsEntry(es[i])
    ensures Exchange(ReadReply(Print(CircuitStatus(es)) + rest, "", false))
            == Some((ParsedAll(Kept(ReceivedAll(es))), rest))
  {
    ClosingLineIsSkipped();
    var text := StatusReply(es, rest, CLOSING);
  }

  /** The circuit an entry stands for. */
  function Expected(e: Entry): Circuit {
    Circuit(e.id, e.state, e.purpose.GetOr(UNKNOWN), HopsAlong(e.path))
  }

  function ExpectedAll(es: seq<Entry>): (r: seq<Circuit>)
    ensures |r| == |es| && forall i :: 0 <= i < |r| ==> r[i] == Expected(es[i])
  {
    seq(|es|, i requires 0 <= i < |es| => Expected(es[i]))
  }

  /** Entry by entry, what is parsed is what was meant exactly when no dollar is astray. */
  lemma {:induction false} ParsedOneByOne(es: seq<Entry>)
    requires forall i :: 0 <= i < |es| ==> IsEntry(es[i])
    ensures |ParsedAll(es)| == |es|
    ensures forall i :: 0 <= i < |es| ==> ParsedAll(es)[i].id == es[i].id
    ensures forall i :: 0 <= i < |es| ==> (ParsedAll(es)[i] == Expected(es[i]) <==> NoStrayDollar(es[i]))
  {
    if es != [] {
      EntryRoundTrip(es[0]);
      ParsedOneByOne(es[1..]);
    }
  }

  /** The filter keeps everything exactly when no id begins with 250. */
  lemma {:induction false} KeepsAll(es: seq<Entry>)
    ensures |Kept(es)| == |es| ==> Kept(es) == es
    ensures |Kept(es)| == |es| <==> forall i :: 0 <= i < |es| ==> !LooksLikeCode(es[i].id)
  {
    if es != [] {
      KeepsAll(es[1..]);
      assert forall i :: 1 <= i < |es| ==> es[1..][i - 1] == es[i];
      assert es == [es[0]] + es[1..];
    }
  }

  /** An entry that comes back as it is: its id begins neither with 250 nor with a dot, and
      no dollar sign is astray. */
  ghost predicate Returns(e: Entry) { !LooksLikeCode(e.id) && !Dotted(e.id) && NoStrayDollar(e) }

  /** The exchange gives back the very list of circuits tor has exactly when each of them is
      one that comes back. */
  lemma CircuitsComeBackExactly(es: seq<Entry>, rest: string)
    requires forall i :: 0 <= i < |es| ==> IsEntry(es[i])
    ensures Exchange(ReadReply(Print(CircuitStatus(es)) + rest, "", false)) == Some((ExpectedAll(es), rest))
            <==> forall i :: 0 <= i < |es| ==> Returns(es[i])
  {
    CircuitStatusRoundTrip(es, rest);
    SameListExactly(es);
  }

  lemma SameListExactly(es: seq<Entry>)
    requires forall i :: 0 <= i < |es| ==> IsEntry(es[i])
    ensures ParsedAll(Kept(ReceivedAll(es))) == ExpectedAll(es) <==> forall i :: 0 <= i < |es| ==> Returns(es[i])
  {
    var received := ReceivedAll(es);
    var kept := Kept(received);
    forall i | 0 <= i < |es|
      ensures IsEntry(received[i]) && (LooksLikeCode(received[i].id) <==> LooksLikeCode(es[i].id))
    {
      ReceivedIsEntry(es[i]);
    }
    forall i | 0 <= i < |kept| ensures IsEntry(kept[i]) {
      assert kept[i] in received;
    }
    KeepsAll(received);
    ParsedOneByOne(kept);
    if |kept| == |es| {
      SameParseExactly(es);
    } else {
      assert |ParsedAll(kept)| != |ExpectedAll(es)|;
    }
  }

  lemma SameCircuit(e: Entry, c: Circuit)
    requires IsEntry(e) && c.id == Received(e).id
    requires c == Expected(Received(e)) <==> NoStrayDollar(Received(e))
    ensures c == Expected(e) <==> !Dotted(e.id) && NoStrayDollar(e)
  {
    ReceivedIsEntry(e);
  }

  lemma SameParseExactly(es: seq<Entry>)
    requires forall i :: 0 <= i < |es| ==> IsEntry(es[i])
    ensures ParsedAll(ReceivedAll(es)) == ExpectedAll(es)
            <==> forall i :: 0 <= i < |es| ==> !Dotted(es[i].id) && NoStrayDollar(es[i])
  {
    var received := ReceivedAll(es);
    forall i | 0 <= i < |es| ensures IsEntry(received[i]) {
      ReceivedIsEntry(es[i]);
    }
    ParsedOneByOne(received);
    var parsed, expected := ParsedAll(received), ExpectedAll(es);
    forall i | 0 <= i < |es|
      ensures parsed[i] == expected[i] <==> !Dotted(es[i].id) && NoStrayDollar(es[i])
    {
      SameCircuit(es[i], parsed[i]);
    }
    Pointwise(parsed, expected);
  }

  lemma Pointwise<T>(a: seq<T>, b: seq<T>)
    requires |a| == |b|
    ensures a == b <==> forall i :: 0 <= i < |a| ==> a[i] == b[i]
  {
  }
}
