/** The whole of `circuits` in `src/control.rs`: authenticate, read the circuits, and ask tor
    where each relay is, as far as it will say. */
module Lookups {
  import opened Options
  import opened Text
  import opened Control
  import opened Circuits

  datatype Located = Located(hop: Hop, address: Option<string>, country: Option<string>)

  datatype LocatedCircuit = LocatedCircuit(id: string, state: string, purpose: string, hops: seq<Located>)

  // ----------------------------------------------------------- what tor says

  const ROUTER: string := "r" + " "

  /** The address on the first router line of a reply, if it goes that far. */
  function AddressIn(lines: seq<string>): Option<string> {
    if lines == [] then None
    else if StartsWith(lines[0], ROUTER) then
      var words := SplitWhitespace(lines[0]);
      if |words| > 6 then Some(words[6]) else None
    else AddressIn(lines[1..])
  }

  function UpperChar(c: char): char { if 'a' <= c <= 'z' then c - 'a' + 'A' else c }

  function Upper(s: string): string { seq(|s|, i requires 0 <= i < |s| => UpperChar(s[i])) }

  /** What follows the first equals sign, on the first line that has one. */
  function ValueIn(lines: seq<string>): Option<string> {
    if lines == [] then None else
      var n := Find(lines[0], '=');
      if n < |lines[0]| then Some(Trim(lines[0][n + 1..])) else ValueIn(lines[1..])
  }

  function CountryIn(lines: seq<string>): Option<string> {
    match ValueIn(lines)
    case None => None
    case Some(value) => if value == "" || value == "??" then None else Some(Upper(value))
  }

  /** A question, and what a reading of the reply makes of it; nothing when there is none. */
  function Answer(r: Reading, read: seq<string> -> Option<string>): (Option<string>, string) {
    match r case Closed => (None, "") case Reply(text, rest) => (read(Lines(text)), rest)
  }

  /** Where a hop is: its country is asked only when its address is known. */
  function Locate(stream: string, hop: Hop): (Located, string) {
    var (address, rest) := Answer(ReadReply(stream, "", false), AddressIn);
    match address
    case None => (Located(hop, None, None), rest)
    case Some(_) =>
      var (country, rest') := Answer(ReadReply(rest, "", false), CountryIn);
      (Located(hop, address, country), rest')
  }

  function LocateHops(stream: string, hops: seq<Hop>): (seq<Located>, string)
    decreases hops
  {
    if hops == [] then ([], stream) else
      var (first, rest) := Locate(stream, hops[0]);
      var (others, end) := LocateHops(rest, hops[1..]);
      ([first] + others, end)
  }

  function LocateCircuit(stream: string, c: Circuit): (LocatedCircuit, string) {
    var (hops, rest) := LocateHops(stream, c.hops);
    (LocatedCircuit(c.id, c.state, c.purpose, hops), rest)
  }

  function LocateAll(stream: string, cs: seq<Circuit>): (seq<LocatedCircuit>, string)
    decreases cs
  {
    if cs == [] then ([], stream) else
      var (first, rest) := LocateCircuit(stream, cs[0]);
      var (others, end) := LocateAll(rest, cs[1..]);
      ([first] + others, end)
  }

  // ------------------------------------------------------------ what it is asked

  function AddressQuestion(fingerprint: string): string { Crlf("GETINFO ns/id/$" + fingerprint) }

  function CountryQuestion(address: string): string { Crlf("GETINFO ip-to-country/" + address) }

  const STATUS_QUESTION: string := Crlf("GETINFO circuit-status")

  /** Each relay and each address has a question of its own, which is for nothing else. */
  lemma QuestionsAreTold(a: string, b: string)
    ensures AddressQuestion(a) == AddressQuestion(b) <==> a == b
    ensures CountryQuestion(a) == CountryQuestion(b) <==> a == b
    ensures AddressQuestion(a) != CountryQuestion(b)
    ensures STATUS_QUESTION != AddressQuestion(a) && STATUS_QUESTION != CountryQuestion(a)
  {
    var ns, country := "GETINFO ns/id/$", "GETINFO ip-to-country/";
    assert AddressQuestion(a)[..|ns|] == ns && CountryQuestion(a)[..|country|] == country;
    assert AddressQuestion(a)[|ns|..|ns| + |a|] == a && AddressQuestion(b)[|ns|..|ns| + |b|] == b;
    assert CountryQuestion(a)[|country|..|country| + |a|] == a && CountryQuestion(b)[|country|..|country| + |b|] == b;
    assert |AddressQuestion(a)| == |ns| + |a| + 2 && |CountryQuestion(a)| == |country| + |a| + 2;
    assert AddressQuestion(a)[8] == 'n' && CountryQuestion(a)[8] == 'i' && CountryQuestion(b)[8] == 'i';
    assert STATUS_QUESTION[8] == 'c';
  }

  /** Each hop's address is asked for by its fingerprint, and the country of that address. */
  function HopQuestions(l: Located): seq<string> {
    [AddressQuestion(l.hop.fingerprint)] + (if l.address.Some? then [CountryQuestion(l.address.value)] else [])
  }

  function HopsQuestions(ls: seq<Located>): seq<string> {
    if ls == [] then [] else HopQuestions(ls[0]) + HopsQuestions(ls[1..])
  }

  function AllQuestions(cs: seq<LocatedCircuit>): seq<string> {
    if cs == [] then [] else HopsQuestions(cs[0].hops) + AllQuestions(cs[1..])
  }

  lemma {:induction false} HopsAskedNext(ls: seq<Located>, l: Located)
    ensures HopsQuestions(ls + [l]) == HopsQuestions(ls) + HopQuestions(l)
  {
    if ls == [] {
      assert ls + [l] == [l] && [l][1..] == [];
    } else {
      assert (ls + [l])[1..] == ls[1..] + [l];
      HopsAskedNext(ls[1..], l);
    }
  }

  lemma {:induction false} AllAskedNext(cs: seq<LocatedCircuit>, c: LocatedCircuit)
    ensures AllQuestions(cs + [c]) == AllQuestions(cs) + HopsQuestions(c.hops)
  {
    if cs == [] {
      assert cs + [c] == [c] && [c][1..] == [];
    } else {
      assert (cs + [c])[1..] == cs[1..] + [c];
      AllAskedNext(cs[1..], c);
    }
  }

  // ----------------------------------------------------------------- the code

  method RelayAddress(c: Connection, fingerprint: string) returns (r: Option<string>)
    modifies c
    ensures (r, c.stream) == Answer(ReadReply(old(c.stream), "", false), AddressIn)
    ensures c.sent == old(c.sent) + [AddressQuestion(fingerprint)]
  {
    var reply := c.Command("GETINFO ns/id/$" + fingerprint);
    match reply
    case None => r := None;
    case Some(text) => r := AddressIn(Lines(text));
  }

  method RelayCountry(c: Connection, address: string) returns (r: Option<string>)
    modifies c
    ensures (r, c.stream) == Answer(ReadReply(old(c.stream), "", false), CountryIn)
    ensures c.sent == old(c.sent) + [CountryQuestion(address)]
  {
    var reply := c.Command("GETINFO ip-to-country/" + address);
    match reply
    case None => r := None;
    case Some(text) => r := CountryIn(Lines(text));
  }

  method FillHop(c: Connection, hop: Hop) returns (r: Located)
    modifies c
    ensures (r, c.stream) == Locate(old(c.stream), hop)
    ensures c.sent == old(c.sent) + HopQuestions(r)
  {
    var address := RelayAddress(c, hop.fingerprint);
    var country := None;
    if address.Some? {
      country := RelayCountry(c, address.value);
    }
    r := Located(hop, address, country);
  }

  method FillHops(c: Connection, hops: seq<Hop>) returns (r: seq<Located>)
    modifies c
    ensures (r, c.stream) == LocateHops(old(c.stream), hops)
    ensures c.sent == old(c.sent) + HopsQuestions(r)
  {
    r := [];
    for i := 0 to |hops|
      invariant (r, c.stream) == LocateHops(old(c.stream), hops[..i])
      invariant c.sent == old(c.sent) + HopsQuestions(r)
    {
      HopsStep(old(c.stream), hops, i);
      var located := FillHop(c, hops[i]);
      HopsAskedNext(r, located);
      r := r + [located];
    }
    assert hops[..|hops|] == hops;
  }

  lemma Regroup<T>(a: seq<T>, b: seq<T>, c: seq<T>)
    ensures a + b + c == a + (b + c)
  {
  }

  lemma {:induction false} HopsAppend(stream: string, hops: seq<Hop>, last: Hop)
    ensures var (others, rest) := LocateHops(stream, hops);
            var (located, end) := Locate(rest, last);
            LocateHops(stream, hops + [last]) == (others + [located], end)
    decreases hops
  {
    if hops == [] {
      assert hops + [last] == [last] && [last][1..] == [];
      var one := [Locate(stream, last).0];
      assert one + [] == [] + one;
    } else {
      assert (hops + [last])[1..] == hops[1..] + [last];
      var (first, next) := Locate(stream, hops[0]);
      HopsAppend(next, hops[1..], last);
      var (others, rest) := LocateHops(next, hops[1..]);
      Regroup([first], others, [Locate(rest, last).0]);
    }
  }

  lemma {:induction false} CircuitsAppend(stream: string, cs: seq<Circuit>, last: Circuit)
    ensures var (others, rest) := LocateAll(stream, cs);
            var (located, end) := LocateCircuit(rest, last);
            LocateAll(stream, cs + [last]) == (others + [located], end)
    decreases cs
  {
    if cs == [] {
      assert cs + [last] == [last] && [last][1..] == [];
      var one := [LocateCircuit(stream, last).0];
      assert one + [] == [] + one;
    } else {
      assert (cs + [last])[1..] == cs[1..] + [last];
      var (first, next) := LocateCircuit(stream, cs[0]);
      CircuitsAppend(next, cs[1..], last);
      var (others, rest) := LocateAll(next, cs[1..]);
      Regroup([first], others, [LocateCircuit(rest, last).0]);
    }
  }

  lemma HopsStep(stream: string, hops: seq<Hop>, i: nat)
    requires i < |hops|
    ensures var (others, rest) := LocateHops(stream, hops[..i]);
            var (located, end) := Locate(rest, hops[i]);
            LocateHops(stream, hops[..i + 1]) == (others + [located], end)
  {
    assert hops[..i + 1] == hops[..i] + [hops[i]];
    HopsAppend(stream, hops[..i], hops[i]);
  }

  lemma CircuitsStep(stream: string, cs: seq<Circuit>, i: nat)
    requires i < |cs|
    ensures var (others, rest) := LocateAll(stream, cs[..i]);
            var (located, end) := LocateCircuit(rest, cs[i]);
            LocateAll(stream, cs[..i + 1]) == (others + [located], end)
  {
    assert cs[..i + 1] == cs[..i] + [cs[i]];
    CircuitsAppend(stream, cs[..i], cs[i]);
  }

  method FillCircuit(c: Connection, circuit: Circuit) returns (r: LocatedCircuit)
    modifies c
    ensures (r, c.stream) == LocateCircuit(old(c.stream), circuit)
    ensures c.sent == old(c.sent) + HopsQuestions(r.hops)
  {
    var hops := FillHops(c, circuit.hops);
    r := LocatedCircuit(circuit.id, circuit.state, circuit.purpose, hops);
  }

  method FillAll(c: Connection, circuits: seq<Circuit>) returns (r: seq<LocatedCircuit>)
    modifies c
    ensures (r, c.stream) == LocateAll(old(c.stream), circuits)
    ensures c.sent == old(c.sent) + AllQuestions(r)
  {
    r := [];
    for i := 0 to |circuits|
      invariant (r, c.stream) == LocateAll(old(c.stream), circuits[..i])
      invariant c.sent == old(c.sent) + AllQuestions(r)
    {
      CircuitsStep(old(c.stream), circuits, i);
      var located := FillCircuit(c, circuits[i]);
      AllAskedNext(r, located);
      r := r + [located];
    }
    assert circuits[..|circuits|] == circuits;
  }

  /** What goes before the first question: the cookie, when it could be read. */
  function Greeting(cookie: Option<string>): seq<string> {
    match cookie case None => [] case Some(hex) => [Crlf("AUTHENTICATE " + hex)]
  }

  /** Whether tor accepts the cookie, in hexadecimal; `None` is a file that cannot be read. */
  method Authenticate(c: Connection, cookie: Option<string>) returns (ok: bool)
    modifies c
    ensures match cookie
            case None => !ok && c.stream == old(c.stream)
            case Some(_) => (ok, c.stream) == Accepted(ReadReply(old(c.stream), "", false))
    ensures c.sent == old(c.sent) + Greeting(cookie)
  {
    match cookie
    case None => return false;
    case Some(hex) =>
      var reply := c.Command("AUTHENTICATE " + hex);
      return reply.Some? && StartsWith(reply.value, "250");
  }

  function Accepted(r: Reading): (bool, string) {
    match r case Closed => (false, "") case Reply(text, rest) => (StartsWith(text, "250"), rest)
  }

  /** What tor's report and its answers yield of a stream; the farewell at the end makes no
      difference. */
  function Reported(stream: string): Option<seq<LocatedCircuit>> {
    match Exchange(ReadReply(stream, "", false))
    case None => None
    case Some((circuits, rest)) => Some(LocateAll(rest, circuits).0)
  }

  /** What the whole conversation yields of a stream. */
  function Conversation(stream: string): Option<seq<LocatedCircuit>> {
    var (ok, rest) := Accepted(ReadReply(stream, "", false));
    if ok then Reported(rest) else None
  }

  /** All that is said once the cookie was accepted. A tor that hangs up before it has reported
      is told nothing more. */
  function Spoken(listed: Option<seq<LocatedCircuit>>): seq<string> {
    [STATUS_QUESTION] + match listed case None => [] case Some(cs) => AllQuestions(cs) + [Crlf("QUIT")]
  }

  lemma SpokenIs(before: seq<string>, listed: seq<LocatedCircuit>)
    ensures before + [STATUS_QUESTION] + (AllQuestions(listed) + [Crlf("QUIT")]) == before + Spoken(Some(listed))
  {
  }

  /** Look everything up, and leave. */
  method LookUpAndLeave(c: Connection, circuits: seq<Circuit>) returns (r: seq<LocatedCircuit>)
    modifies c
    ensures r == LocateAll(old(c.stream), circuits).0
    ensures c.sent == old(c.sent) + (AllQuestions(r) + [Crlf("QUIT")])
  {
    r := FillAll(c, circuits);
    var bye := c.Command("QUIT");
  }

  /** Read, look up, and leave. */
  method ListReported(c: Connection) returns (r: Option<seq<LocatedCircuit>>)
    modifies c
    ensures r == Reported(old(c.stream)) && c.sent == old(c.sent) + Spoken(r)
  {
    var circuits := ReadCircuits(c);
    if circuits.None? {
      return None;
    }
    var located := LookUpAndLeave(c, circuits.value);
    SpokenIs(old(c.sent), located);
    return Some(located);
  }

  /** Authenticate, read, look up, and leave. A refusal is the end of it. */
  method ListCircuits(c: Connection, cookie: Option<string>) returns (r: Option<seq<LocatedCircuit>>)
    modifies c
    ensures r == if cookie.None? then None else Conversation(old(c.stream))
    ensures c.sent == old(c.sent) + Greeting(cookie)
                      + (if cookie.None? || !Accepted(ReadReply(old(c.stream), "", false)).0 then [] else Spoken(r))
  {
    var ok := Authenticate(c, cookie);
    if !ok {
      return None;
    }
    r := ListReported(c);
  }

  // ------------------------------------------------------------- nothing is lost

  function HopsIn(ls: seq<Located>): (r: seq<Hop>)
    ensures |r| == |ls| && forall i :: 0 <= i < |r| ==> r[i] == ls[i].hop
  {
    seq(|ls|, i requires 0 <= i < |ls| => ls[i].hop)
  }

  function Plain(c: LocatedCircuit): Circuit { Circuit(c.id, c.state, c.purpose, HopsIn(c.hops)) }

  function PlainAll(cs: seq<LocatedCircuit>): (r: seq<Circuit>)
    ensures |r| == |cs| && forall i :: 0 <= i < |r| ==> r[i] == Plain(cs[i])
  {
    seq(|cs|, i requires 0 <= i < |cs| => Plain(cs[i]))
  }

  lemma {:induction false} HopsAreKept(stream: string, hops: seq<Hop>)
    ensures HopsIn(LocateHops(stream, hops).0) == hops
    decreases hops
  {
    if hops != [] {
      HopsAreKept(Locate(stream, hops[0]).1, hops[1..]);
      assert hops == [hops[0]] + hops[1..];
    }
  }

  /** Whatever tor answers, and even when it hangs up in the middle, no circuit and no hop is
      lost, added or moved by the look-ups. */
  lemma {:induction false} CircuitsAreKept(stream: string, cs: seq<Circuit>)
    ensures PlainAll(LocateAll(stream, cs).0) == cs
    decreases cs
  {
    if cs != [] {
      HopsAreKept(stream, cs[0].hops);
      CircuitsAreKept(LocateCircuit(stream, cs[0]).1, cs[1..]);
      assert cs == [cs[0]] + cs[1..];
    }
  }

  lemma ConversationIs(stream: string, text: string, rest: string, circuits: seq<Circuit>, rest': string)
    requires ReadReply(stream, "", false) == Reply(text, rest) && StartsWith(text, "250")
    requires Exchange(ReadReply(rest, "", false)) == Some((circuits, rest'))
    ensures Conversation(stream) == Some(LocateAll(rest', circuits).0)
  {
  }

  lemma Listed(welcome: Message, report: string, circuits: seq<Circuit>, rest: string)
    requires IsMessage(welcome) && StartsWith(Unlines(ReplyLines(welcome)), "250")
    requires Exchange(ReadReply(report, "", false)) == Some((circuits, rest))
    ensures Conversation(Print(welcome) + report) == Some(LocateAll(rest, circuits).0)
  {
    ReadsOneReply(welcome, report);
    ConversationIs(Print(welcome) + report, Unlines(ReplyLines(welcome)), report, circuits, rest);
  }

  /** The conversation with a tor that accepts the cookie and then reports circuits, whatever
      it says after that: what is listed are those circuits, as their own round trip has it. */
  lemma ReportIsListed(welcome: Message, es: seq<Entry>, rest: string) returns (listed: seq<LocatedCircuit>)
    requires IsMessage(welcome) && StartsWith(Unlines(ReplyLines(welcome)), "250")
    requires forall i :: 0 <= i < |es| ==> IsEntry(es[i])
    ensures Conversation(Print(welcome) + (Print(CircuitStatus(es)) + rest)) == Some(listed)
    ensures PlainAll(listed) == ParsedAll(Kept(ReceivedAll(es)))
    ensures listed == LocateAll(rest, ParsedAll(Kept(ReceivedAll(es)))).0
  {
    var report := Print(CircuitStatus(es)) + rest;
    var circuits := ParsedAll(Kept(ReceivedAll(es)));
    CircuitStatusRoundTrip(es, rest);
    Listed(welcome, report, circuits, rest);
    listed := LocateAll(rest, circuits).0;
    CircuitsAreKept(rest, circuits);
  }

  // ------------------------------------------------------- reading tor's answers

  /** The first router line of a reply, as the router status entries of Tor's dir-spec have it,
      goes as far as its seventh word, which is this. */
  ghost predicate TellsAddress(lines: seq<string>, address: string) {
    exists i :: && 0 <= i < |lines| && FirstRouter(lines, i)
                && |SplitWhitespace(lines[i])| > 6 && SplitWhitespace(lines[i])[6] == address
  }

  ghost predicate FirstRouter(lines: seq<string>, i: nat)
    requires i < |lines|
  {
    "r " <= lines[i] && forall j :: 0 <= j < i ==> !("r " <= lines[j])
  }

  lemma {:induction false} AddressExactly(lines: seq<string>, address: string)
    ensures AddressIn(lines) == Some(address) <==> TellsAddress(lines, address)
  {
    if lines != [] {
      AddressExactly(lines[1..], address);
      if StartsWith(lines[0], ROUTER) {
        assert FirstRouter(lines, 0);
      } else {
        RouterIsLater(lines, address);
      }
    }
  }

  lemma RouterIsLater(lines: seq<string>, address: string)
    requires lines != [] && !StartsWith(lines[0], ROUTER)
    ensures TellsAddress(lines, address) <==> TellsAddress(lines[1..], address)
  {
    assert ROUTER == "r ";
    forall i | 0 < i < |lines| ensures FirstRouter(lines, i) <==> FirstRouter(lines[1..], i - 1) {
      assert forall j :: 0 <= j < i - 1 ==> lines[1..][j] == lines[j + 1];
      assert forall j :: 0 < j < i ==> lines[j] == lines[1..][j - 1];
    }
    if TellsAddress(lines[1..], address) {
      var k :| && 0 <= k < |lines[1..]| && FirstRouter(lines[1..], k)
               && |SplitWhitespace(lines[1..][k])| > 6 && SplitWhitespace(lines[1..][k])[6] == address;
      assert FirstRouter(lines, k + 1);
    }
  }

  /** The first line of a reply that names anything names this. */
  ghost predicate TellsValue(lines: seq<string>, value: string) {
    exists i, key, text :: && 0 <= i < |lines| && lines[i] == key + "=" + text && '=' !in key
                           && (forall j :: 0 <= j < i ==> '=' !in lines[j]) && value == Trim(text)
  }

  /** A country that tor knows, in capitals. */
  ghost predicate TellsCountry(lines: seq<string>, country: string) {
    exists value :: TellsValue(lines, value) && value != "" && value != "??" && country == Upper(value)
  }

  lemma {:induction false} ValueExactly(lines: seq<string>, value: string)
    ensures ValueIn(lines) == Some(value) <==> TellsValue(lines, value)
  {
    if lines != [] {
      ValueExactly(lines[1..], value);
      if '=' in lines[0] {
        ValueIsHere(lines, value);
      } else {
        ValueIsLater(lines, value);
      }
    }
  }

  lemma ValueIsHere(lines: seq<string>, value: string)
    requires lines != [] && '=' in lines[0]
    ensures ValueIn(lines) == Some(value) <==> TellsValue(lines, value)
  {
    var n := Find(lines[0], '=');
    var key, text := lines[0][..n], lines[0][n + 1..];
    assert lines[0] == key + "=" + text;
    if TellsValue(lines, value) {
      var i, k, t :| && 0 <= i < |lines| && lines[i] == k + "=" + t && '=' !in k
                     && (forall j :: 0 <= j < i ==> '=' !in lines[j]) && value == Trim(t);
      FindAfter(k, '=', t);
      assert lines[0] == k + ['='] + t && t == lines[0][n + 1..];
    }
  }

  lemma ValueIsLater(lines: seq<string>, value: string)
    requires lines != [] && '=' !in lines[0]
    ensures ValueIn(lines) == ValueIn(lines[1..])
    ensures TellsValue(lines, value) <==> TellsValue(lines[1..], value)
  {
    FindNowhere(lines[0], '=');
    if TellsValue(lines, value) {
      var i, k, t :| && 0 <= i < |lines| && lines[i] == k + "=" + t && '=' !in k
                     && (forall j :: 0 <= j < i ==> '=' !in lines[j]) && value == Trim(t);
      assert lines[i][|k|] == '=';
      assert lines[1..][i - 1] == k + "=" + t;
    }
    if TellsValue(lines[1..], value) {
      var i, k, t :| && 0 <= i < |lines[1..]| && lines[1..][i] == k + "=" + t && '=' !in k
                     && (forall j :: 0 <= j < i ==> '=' !in lines[1..][j]) && value == Trim(t);
      assert lines[i + 1] == k + "=" + t;
      assert forall j :: 0 < j < i + 1 ==> lines[j] == lines[1..][j - 1];
    }
  }

  lemma CountryExactly(lines: seq<string>, country: string)
    ensures CountryIn(lines) == Some(country) <==> TellsCountry(lines, country)
  {
    match ValueIn(lines)
    case None =>
      forall value ensures !TellsValue(lines, value) {
        ValueExactly(lines, value);
      }
    case Some(value) =>
      ValueExactly(lines, value);
      forall other | TellsValue(lines, other) ensures other == value {
        ValueExactly(lines, other);
      }
  }

  const SMALL := "abcdefghijklmnopqrstuvwxyz"
  const CAPITALS := "ABCDEFGHIJKLMNOPQRSTUVWXYZ"

  lemma LetterAt(k: nat)
    requires k < 26
    ensures SMALL[k] as int == 'a' as int + k && CAPITALS[k] as int == 'A' as int + k
  {
  }

  /** Capitals, letter by letter of the alphabet; anything else stays. */
  lemma UpperByAlphabet(s: string, i: nat, k: nat)
    requires i < |s| && k < 26
    ensures |Upper(s)| == |s|
    ensures s[i] == SMALL[k] ==> Upper(s)[i] == CAPITALS[k]
    ensures s[i] !in SMALL ==> Upper(s)[i] == s[i]
  {
    LetterAt(k);
    if 'a' <= s[i] <= 'z' {
      var n := s[i] as int - 'a' as int;
      LetterAt(n);
      assert SMALL[n] == s[i];
    }
  }

  // -------------------------------------------------- what is listed is what tor says

  /** The two fields of a hop are what tor answers to the questions about that hop: its address,
      by its fingerprint; and the country of that address. */
  ghost predicate AsTold(tor: string -> Message, l: Located) {
    && (forall a :: l.address == Some(a) <==> TellsAddress(ReplyLines(tor(AddressQuestion(l.hop.fingerprint))), a))
    && (forall c :: l.country == Some(c)
                    <==> && l.address.Some?
                         && TellsCountry(ReplyLines(tor(CountryQuestion(l.address.value))), c))
  }

  /** What a tor says that gives its answer to each thing it is told, in order. */
  function Replies(tor: string -> Message, said: seq<string>): string {
    if said == [] then "" else Print(tor(said[0])) + Replies(tor, said[1..])
  }

  lemma {:induction false} RepliesAppend(tor: string -> Message, a: seq<string>, b: seq<string>)
    ensures Replies(tor, a + b) == Replies(tor, a) + Replies(tor, b)
  {
    if a == [] {
      assert a + b == b;
    } else {
      assert (a + b)[1..] == a[1..] + b;
      RepliesAppend(tor, a[1..], b);
      Assoc(Print(tor(a[0])), Replies(tor, a[1..]), Replies(tor, b));
    }
  }

  lemma {:induction false} PartsLinesAreLines(parts: seq<Part>)
    requires forall i :: 0 <= i < |parts| ==> IsPart(parts[i])
    ensures AreLines(PartsLines(parts))
  {
    if parts != [] {
      PartsLinesAreLines(parts[1..]);
    }
  }

  /** A printed answer is taken in whole, line by line. */
  lemma Answers(m: Message, rest: string, read: seq<string> -> Option<string>)
    requires IsMessage(m)
    ensures Answer(ReadReply(Print(m) + rest, "", false), read) == (read(ReplyLines(m)), rest)
  {
    ReadsOneReply(m, rest);
    LinesOfReply(m);
  }

  lemma LinesOfReply(m: Message)
    requires IsMessage(m)
    ensures Lines(Unlines(ReplyLines(m))) == ReplyLines(m)
  {
    PartsLinesAreLines(m.parts);
    LinesBack(ReplyLines(m));
  }

  /** What looking a hop up comes to with that tor. */
  function LocatedBy(tor: string -> Message, hop: Hop): Located {
    var address := AddressIn(ReplyLines(tor(AddressQuestion(hop.fingerprint))));
    Located(hop, address,
            if address.None? then None else CountryIn(ReplyLines(tor(CountryQuestion(address.value)))))
  }

  lemma LocatedAsTold(tor: string -> Message, hop: Hop)
    ensures AsTold(tor, LocatedBy(tor, hop))
  {
    var l := LocatedBy(tor, hop);
    forall a ensures l.address == Some(a) <==> TellsAddress(ReplyLines(tor(AddressQuestion(hop.fingerprint))), a) {
      AddressExactly(ReplyLines(tor(AddressQuestion(hop.fingerprint))), a);
    }
    if l.address.Some? {
      var lines := ReplyLines(tor(CountryQuestion(l.address.value)));
      forall c ensures l.country == Some(c) <==> TellsCountry(lines, c) {
        CountryExactly(lines, c);
      }
    }
  }

  lemma LocatesHop(tor: string -> Message, hop: Hop, rest: string)
    requires forall q :: IsMessage(tor(q))
    ensures Locate(Replies(tor, HopQuestions(LocatedBy(tor, hop))) + rest, hop) == (LocatedBy(tor, hop), rest)
  {
    var l := LocatedBy(tor, hop);
    var said := HopQuestions(l);
    var first := tor(AddressQuestion(hop.fingerprint));
    assert Replies(tor, said) == Print(first) + Replies(tor, said[1..]);
    Assoc(Print(first), Replies(tor, said[1..]), rest);
    Answers(first, Replies(tor, said[1..]) + rest, AddressIn);
    if l.address.Some? {
      var second := tor(CountryQuestion(l.address.value));
      assert said[1..] == [CountryQuestion(l.address.value)] && said[1..][1..] == [];
      assert Replies(tor, said[1..]) == Print(second) + "" == Print(second);
      Answers(second, rest, CountryIn);
    } else {
      assert said[1..] == [] && "" + rest == rest;
    }
  }

  function AllLocatedBy(tor: string -> Message, hops: seq<Hop>): (r: seq<Located>)
    ensures |r| == |hops| && forall i :: 0 <= i < |r| ==> r[i] == LocatedBy(tor, hops[i])
  {
    if hops == [] then [] else [LocatedBy(tor, hops[0])] + AllLocatedBy(tor, hops[1..])
  }

  lemma {:induction false} LocatesHops(tor: string -> Message, hops: seq<Hop>, rest: string)
    requires forall q :: IsMessage(tor(q))
    ensures var ls := AllLocatedBy(tor, hops);
            LocateHops(Replies(tor, HopsQuestions(ls)) + rest, hops) == (ls, rest)
    decreases hops
  {
    var ls := AllLocatedBy(tor, hops);
    if hops == [] {
      assert Replies(tor, HopsQuestions(ls)) + rest == rest;
    } else {
      var more := AllLocatedBy(tor, hops[1..]);
      assert ls[1..] == more;
      var here, later := HopQuestions(ls[0]), HopsQuestions(more);
      RepliesAppend(tor, here, later);
      Assoc(Replies(tor, here), Replies(tor, later), rest);
      LocatesHop(tor, hops[0], Replies(tor, later) + rest);
      LocatesHops(tor, hops[1..], rest);
      assert ls == [ls[0]] + more;
    }
  }

  function CircuitLocatedBy(tor: string -> Message, c: Circuit): LocatedCircuit {
    LocatedCircuit(c.id, c.state, c.purpose, AllLocatedBy(tor, c.hops))
  }

  function CircuitsLocatedBy(tor: string -> Message, cs: seq<Circuit>): (r: seq<LocatedCircuit>)
    ensures |r| == |cs| && forall i :: 0 <= i < |r| ==> r[i] == CircuitLocatedBy(tor, cs[i])
  {
    if cs == [] then [] else [CircuitLocatedBy(tor, cs[0])] + CircuitsLocatedBy(tor, cs[1..])
  }

  lemma {:induction false} LocatesAll(tor: string -> Message, cs: seq<Circuit>, rest: string)
    requires forall q :: IsMessage(tor(q))
    ensures var ls := CircuitsLocatedBy(tor, cs);
            LocateAll(Replies(tor, AllQuestions(ls)) + rest, cs) == (ls, rest)
    decreases cs
  {
    var ls := CircuitsLocatedBy(tor, cs);
    if cs == [] {
      assert Replies(tor, AllQuestions(ls)) + rest == rest;
    } else {
      var more := CircuitsLocatedBy(tor, cs[1..]);
      assert ls[1..] == more;
      var here, later := HopsQuestions(ls[0].hops), AllQuestions(more);
      RepliesAppend(tor, here, later);
      Assoc(Replies(tor, here), Replies(tor, later), rest);
      LocatesHops(tor, cs[0].hops, Replies(tor, later) + rest);
      LocatesAll(tor, cs[1..], rest);
      assert ls == [ls[0]] + more;
    }
  }

  /** The conversation with a tor that accepts the cookie, reports circuits and answers each
      question: those circuits are listed, as their own round trip has it, and the address and
      the country of each hop are what tor answers about that hop. */
  lemma ConversationRoundTrip(tor: string -> Message, hex: string, es: seq<Entry>, rest: string)
    returns (listed: seq<LocatedCircuit>)
    requires forall q :: IsMessage(tor(q))
    requires StartsWith(Unlines(ReplyLines(tor(Greeting(Some(hex))[0]))), "250")
    requires tor(STATUS_QUESTION) == CircuitStatus(es) && forall i :: 0 <= i < |es| ==> IsEntry(es[i])
    ensures Conversation(Replies(tor, Greeting(Some(hex)) + Spoken(Some(listed))) + rest) == Some(listed)
    ensures PlainAll(listed) == ParsedAll(Kept(ReceivedAll(es)))
    ensures forall i, j :: 0 <= i < |listed| && 0 <= j < |listed[i].hops| ==> AsTold(tor, listed[i].hops[j])
  {
    var circuits := ParsedAll(Kept(ReceivedAll(es)));
    listed := CircuitsLocatedBy(tor, circuits);
    var end := Replies(tor, [Crlf("QUIT")]) + rest;
    var after := Replies(tor, AllQuestions(listed)) + end;
    LocatesAll(tor, circuits, end);
    var same := ReportIsListed(tor(Greeting(Some(hex))[0]), es, after);
    WhatIsSaid(tor, hex, listed, rest);
    forall i, j | 0 <= i < |listed| && 0 <= j < |listed[i].hops| ensures AsTold(tor, listed[i].hops[j]) {
      LocatedAsTold(tor, circuits[i].hops[j]);
    }
  }

  lemma WhatIsSaid(tor: string -> Message, hex: string, listed: seq<LocatedCircuit>, rest: string)
    ensures Replies(tor, Greeting(Some(hex)) + Spoken(Some(listed))) + rest
            == Print(tor(Greeting(Some(hex))[0]))
               + (Print(tor(STATUS_QUESTION))
                  + (Replies(tor, AllQuestions(listed)) + (Replies(tor, [Crlf("QUIT")]) + rest)))
  {
    var bye, asked := [Crlf("QUIT")], AllQuestions(listed);
    var said := Greeting(Some(hex)) + Spoken(Some(listed));
    assert said[1..] == Spoken(Some(listed)) && Spoken(Some(listed))[1..] == asked + bye;
    RepliesAppend(tor, asked, bye);
  }

  /** A router line, as the router status entries of Tor's dir-spec have it, holds the address in
      its seventh word. */
  lemma AddressComesBack(words: seq<string>, more: seq<string>)
    requires |words| > 7 && words[0] == "r" && forall i :: 0 <= i < |words| ==> IsToken(words[i])
    ensures AddressIn([Join(words)] + more) == Some(words[6])
  {
    var line := Join(words);
    assert line == words[0] + ([' '] + Join(words[1..]));
    assert StartsWith(line, ROUTER);
    SplitJoin(words, "");
    assert line + "" == line && words + SplitWhitespace("") == words;
  }

  /** A country comes back in capitals, unless tor does not know it. */
  lemma CountryComesBack(key: string, country: string, more: seq<string>)
    requires '=' !in key && Trim(country) == country
    ensures CountryIn([key + ['='] + country] + more)
            == if country == "" || country == "??" then None else Some(Upper(country))
  {
    var line := key + ['='] + country;
    FindAfter(key, '=', country);
    assert line[|key| + 1..] == country;
  }

  /** Two successive replies, a router line and a country: the hop they are about has exactly
      these, each in its own field. */
  lemma HopIsLocated(router: Message, geo: Message, words: seq<string>, key: string, country: string,
                     more: seq<string>, rest: string, hop: Hop)
    requires IsMessage(router) && IsMessage(geo)
    requires |words| > 7 && words[0] == "r" && forall i :: 0 <= i < |words| ==> IsToken(words[i])
    requires '=' !in key && Trim(country) == country && country != "" && country != "??"
    requires ReplyLines(router) == [Join(words)] + more && ReplyLines(geo)[0] == key + ['='] + country
    ensures Locate(Print(router) + (Print(geo) + rest), hop)
            == (Located(hop, Some(words[6]), Some(Upper(country))), rest)
  {
    Answers(router, Print(geo) + rest, AddressIn);
    AddressComesBack(words, more);
    Answers(geo, rest, CountryIn);
    var lines := ReplyLines(geo);
    assert lines == [lines[0]] + lines[1..];
    CountryComesBack(key, country, lines[1..]);
  }
}
