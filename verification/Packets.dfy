/** The nftables ruleset of `src/nft.rs` as a program over packets.

    A base chain ends a packet when it drops it; an accept, or a return that falls to an
    accepting policy, ends only that chain. Chains of kind `Nat` are consulted while the
    flow has no translation yet. Chains of other tables are arbitrary functions: they may
    drop and rewrite as they like, but not change the interfaces of the packet. */
module Packets {
  import opened Config

  datatype Proto = Tcp | Udp | OtherProto(number: nat)

  datatype CtState = New | Established | Related | Untracked | Invalid

  datatype Packet = Packet(iif: string, oif: string, proto: Proto, src: Addr, sport: nat,
                           dst: Addr, dport: nat, ct: CtState)

  // ----------------------------------------------------------------- rules

  datatype Match =
    | Iif(name: string)
    | NotIif(name: string)
    | Oif(name: string)
    | L4Proto(proto: Proto)
    | Dport(proto: Proto, port: nat)
    | Daddr(block: Block)
    | CtIn(states: set<CtState>)
  {
    predicate Holds(p: Packet) {
      match this
      case Iif(name) => p.iif == name
      case NotIif(name) => p.iif != name
      case Oif(name) => p.oif == name
      case L4Proto(proto) => p.proto == proto
      case Dport(proto, port) => p.proto == proto && p.dport == port
      case Daddr(block) => block.Has(p.dst)
      case CtIn(states) => p.ct in states
    }
  }

  datatype Action = Accept | Drop | Return | Redirect(port: nat)

  datatype Rule = Rule(matches: seq<Match>, action: Action) {
    predicate Applies(p: Packet) { forall i :: 0 <= i < |matches| ==> matches[i].Holds(p) }
  }

  /** The action of the first rule that applies; `Return` when none does. */
  function Decide(rules: seq<Rule>, p: Packet): Action {
    if rules == [] then Return
    else if rules[0].Applies(p) then rules[0].action
    else Decide(rules[1..], p)
  }

  datatype Hook = Prerouting | Input | Forward | Output | Postrouting

  datatype Kind = Nat | Filter

  /** What a foreign chain makes of a packet. */
  datatype Effect = Effect(drop: bool, packet: Packet, natOpen: bool)

  /** Every chain here has policy accept. */
  datatype Chain =
    | Rules(hook: Hook, kind: Kind, priority: int, rules: seq<Rule>)
    | Foreign(hook: Hook, priority: int, run: (Packet, bool) -> Effect)

  /** The host around the firewall: which addresses are its own, the first address of each
      interface, and the way out it picks for a packet. */
  datatype Stack = Stack(isLocal: Addr -> bool, primary: string -> Addr, route: Packet -> string)

  datatype Passage = Gone | Pass(packet: Packet, natOpen: bool)

  function RunChain(c: Chain, stack: Stack, p: Packet, natOpen: bool): Passage {
    match c
    case Foreign(_, _, run) =>
      var e := run(p, natOpen);
      if e.drop then Gone else Pass(e.packet.(iif := p.iif, oif := p.oif), natOpen && e.natOpen)
    case Rules(_, kind, _, rules) =>
      if kind == Nat && !natOpen then Pass(p, natOpen) else
        match Decide(rules, p)
        case Drop => Gone
        case Redirect(port) => Pass(p.(dst := stack.primary(p.iif), dport := port), false)
        case _ => Pass(p, natOpen)
  }

  function RunChains(cs: seq<Chain>, stack: Stack, p: Packet, natOpen: bool): Passage {
    if cs == [] then Pass(p, natOpen) else
      match RunChain(cs[0], stack, p, natOpen)
      case Gone => Gone
      case Pass(p', natOpen') => RunChains(cs[1..], stack, p', natOpen')
  }

  /** The base chains on the three hooks a packet from outside can meet, in priority order. */
  datatype Firewall = Firewall(prerouting: seq<Chain>, input: seq<Chain>, forward: seq<Chain>)

  datatype Fate = Dropped | Delivered(packet: Packet) | Forwarded(packet: Packet)

  /** What becomes of a packet that arrives on an interface. */
  function Journey(fw: Firewall, stack: Stack, p: Packet, natOpen: bool): Fate {
    match RunChains(fw.prerouting, stack, p, natOpen)
    case Gone => Dropped
    case Pass(q, natOpen') => Route(fw, stack, q, natOpen')
  }

  function Route(fw: Firewall, stack: Stack, q: Packet, natOpen: bool): Fate {
    if stack.isLocal(q.dst) then
      match RunChains(fw.input, stack, q, natOpen)
      case Gone => Dropped
      case Pass(r, _) => Delivered(r)
    else
      match RunChains(fw.forward, stack, q.(oif := stack.route(q)), natOpen)
      case Gone => Dropped
      case Pass(r, _) => Forwarded(r)
  }

  // ---------------------------------------------------------- tort's table

  const PREROUTING := Rules(Prerouting, Nat, -100, [
    Rule([Iif(VETH_HOST), Dport(Udp, 53)], Redirect(DNS_PORT)),
    Rule([Iif(VETH_HOST), Daddr(SUBNET)], Return),
    Rule([Iif(VETH_HOST), L4Proto(Tcp)], Redirect(TRANS_PORT))
  ])

  const FORWARD := Rules(Forward, Filter, 0, [
    Rule([Iif(VETH_HOST)], Drop),
    Rule([Oif(VETH_HOST)], Drop)
  ])

  /** From any other interface, packets for the two ports of tor end here. */
  const PORTS_CLOSED := [
    Rule([NotIif(VETH_HOST), Dport(Tcp, TRANS_PORT)], Drop),
    Rule([NotIif(VETH_HOST), Dport(Udp, DNS_PORT)], Drop)
  ]

  /** From the veth, an exception for each port and for flows the kernel knows, and then nothing. */
  const VETH_RULES := [
    Rule([Iif(VETH_HOST), CtIn({Established, Related})], Accept),
    Rule([Iif(VETH_HOST), Dport(Tcp, TRANS_PORT)], Accept),
    Rule([Iif(VETH_HOST), Dport(Udp, DNS_PORT)], Accept),
    Rule([Iif(VETH_HOST)], Drop)
  ]

  const INPUT := Rules(Input, Filter, 0, PORTS_CLOSED + VETH_RULES)

  const TORT_TABLE := [PREROUTING, FORWARD, INPUT]

  /** The exceptions tort's input chain makes for a packet from the veth. */
  predicate Admitted(p: Packet) {
    || p.ct in {Established, Related}
    || (p.proto == Tcp && p.dport == TRANS_PORT)
    || (p.proto == Udp && p.dport == DNS_PORT)
  }

  lemma One(m: Match, action: Action, p: Packet)
    ensures Rule([m], action).Applies(p) <==> m.Holds(p)
  {
    assert [m][0] == m;
  }

  lemma Two(m: Match, n: Match, action: Action, p: Packet)
    ensures Rule([m, n], action).Applies(p) <==> m.Holds(p) && n.Holds(p)
  {
    assert [m, n][0] == m && [m, n][1] == n;
  }

  lemma First(r: Rule, rest: seq<Rule>, p: Packet)
    ensures Decide([r] + rest, p) == if r.Applies(p) then r.action else Decide(rest, p)
  {
    assert ([r] + rest)[1..] == rest;
  }

  lemma PreroutingDecides(p: Packet)
    ensures Decide(PREROUTING.rules, p) ==
      if p.iif != VETH_HOST then Return
      else if p.proto == Udp && p.dport == 53 then Redirect(DNS_PORT)
      else if SUBNET.Has(p.dst) || p.proto != Tcp then Return
      else Redirect(TRANS_PORT)
  {
    var rs := PREROUTING.rules;
    var veth := Iif(VETH_HOST);
    Two(veth, Dport(Udp, 53), Redirect(DNS_PORT), p);
    Two(veth, Daddr(SUBNET), Return, p);
    Two(veth, L4Proto(Tcp), Redirect(TRANS_PORT), p);
    First(rs[2], [], p);
    First(rs[1], [rs[2]], p);
    First(rs[0], [rs[1], rs[2]], p);
    assert rs == [rs[0]] + [rs[1], rs[2]] && [rs[1], rs[2]] == [rs[1]] + [rs[2]] && [rs[2]] == [rs[2]] + [];
  }

  lemma ForwardDecides(p: Packet)
    ensures Decide(FORWARD.rules, p) == if p.iif == VETH_HOST || p.oif == VETH_HOST then Drop else Return
  {
    var rs := FORWARD.rules;
    One(Iif(VETH_HOST), Drop, p);
    One(Oif(VETH_HOST), Drop, p);
    First(rs[1], [], p);
    First(rs[0], [rs[1]], p);
    assert rs == [rs[0]] + [rs[1]] && [rs[1]] == [rs[1]] + [];
  }

  lemma {:induction false} DecidesInTurn(a: seq<Rule>, b: seq<Rule>, p: Packet)
    requires forall i :: 0 <= i < |a| ==> a[i].action != Return
    ensures Decide(a + b, p) == if Decide(a, p) == Return then Decide(b, p) else Decide(a, p)
  {
    if a == [] {
      assert a + b == b;
    } else {
      assert (a + b)[1..] == a[1..] + b;
      DecidesInTurn(a[1..], b, p);
    }
  }

  lemma DecideTwo(a: Rule, b: Rule, p: Packet)
    ensures Decide([a, b], p) == if a.Applies(p) then a.action else if b.Applies(p) then b.action else Return
  {
    First(a, [b], p);
    First(b, [], p);
    assert [a, b] == [a] + [b] && [b] == [b] + [];
  }

  lemma DecideFour(a: Rule, b: Rule, c: Rule, d: Rule, p: Packet)
    ensures Decide([a, b, c, d], p) ==
      if a.Applies(p) then a.action else if b.Applies(p) then b.action else Decide([c, d], p)
  {
    First(a, [b, c, d], p);
    First(b, [c, d], p);
    assert [a, b, c, d] == [a] + [b, c, d] && [b, c, d] == [b] + [c, d];
  }

  lemma ClosedDecides(p: Packet)
    ensures Decide(PORTS_CLOSED, p) ==
      if p.iif != VETH_HOST && ((p.proto == Tcp && p.dport == TRANS_PORT) || (p.proto == Udp && p.dport == DNS_PORT))
      then Drop else Return
  {
    var rs := PORTS_CLOSED;
    Two(NotIif(VETH_HOST), Dport(Tcp, TRANS_PORT), Drop, p);
    Two(NotIif(VETH_HOST), Dport(Udp, DNS_PORT), Drop, p);
    DecideTwo(rs[0], rs[1], p);
    assert rs == [rs[0], rs[1]];
  }

  lemma VethLastDecides(p: Packet)
    ensures Decide([VETH_RULES[2], VETH_RULES[3]], p) ==
      if p.iif != VETH_HOST then Return else if p.proto == Udp && p.dport == DNS_PORT then Accept else Drop
  {
    Two(Iif(VETH_HOST), Dport(Udp, DNS_PORT), Accept, p);
    One(Iif(VETH_HOST), Drop, p);
    DecideTwo(VETH_RULES[2], VETH_RULES[3], p);
  }

  lemma VethDecides(p: Packet)
    ensures Decide(VETH_RULES, p) == if p.iif != VETH_HOST then Return else if Admitted(p) then Accept else Drop
  {
    var rs := VETH_RULES;
    Two(Iif(VETH_HOST), CtIn({Established, Related}), Accept, p);
    Two(Iif(VETH_HOST), Dport(Tcp, TRANS_PORT), Accept, p);
    VethLastDecides(p);
    DecideFour(rs[0], rs[1], rs[2], rs[3], p);
    assert rs == [rs[0], rs[1], rs[2], rs[3]];
  }

  lemma InputDecidesOutside(p: Packet)
    requires p.iif != VETH_HOST
    ensures Decide(INPUT.rules, p) ==
      if (p.proto == Tcp && p.dport == TRANS_PORT) || (p.proto == Udp && p.dport == DNS_PORT) then Drop else Return
  {
    DecidesInTurn(PORTS_CLOSED, VETH_RULES, p);
    ClosedDecides(p);
    VethDecides(p);
  }

  lemma InputDecidesInside(p: Packet)
    requires p.iif == VETH_HOST
    ensures Decide(INPUT.rules, p) == if Admitted(p) then Accept else Drop
  {
    DecidesInTurn(PORTS_CLOSED, VETH_RULES, p);
    ClosedDecides(p);
    VethDecides(p);
  }

  // ------------------------------------------- the packet theorem, beside anything

  /** Chains before and after a chain, in the order they run. */
  lemma {:induction false} RunsInTurn(a: seq<Chain>, b: seq<Chain>, stack: Stack, p: Packet, natOpen: bool)
    ensures RunChains(a + b, stack, p, natOpen) ==
            match RunChains(a, stack, p, natOpen)
            case Gone => Gone
            case Pass(q, natOpen') => RunChains(b, stack, q, natOpen')
  {
    if a == [] {
      assert a + b == b;
    } else {
      assert (a + b)[1..] == a[1..] + b;
      var r := RunChain(a[0], stack, p, natOpen);
      if r.Pass? {
        RunsInTurn(a[1..], b, stack, r.packet, r.natOpen);
      }
    }
  }

  /** No chain can move a packet to another interface. */
  lemma {:induction false} InterfacesStay(cs: seq<Chain>, stack: Stack, p: Packet, natOpen: bool)
    ensures var r := RunChains(cs, stack, p, natOpen);
            r.Pass? ==> r.packet.iif == p.iif && r.packet.oif == p.oif
  {
    if cs != [] {
      var r := RunChain(cs[0], stack, p, natOpen);
      if r.Pass? {
        InterfacesStay(cs[1..], stack, r.packet, r.natOpen);
      }
    }
  }

  /** A drop in one base chain is final, whatever the others say. */
  lemma ForwardDrops(cs: seq<Chain>, stack: Stack, p: Packet, natOpen: bool)
    requires FORWARD in cs && (p.iif == VETH_HOST || p.oif == VETH_HOST)
    ensures RunChains(cs, stack, p, natOpen) == Gone
  {
    var i :| 0 <= i < |cs| && cs[i] == FORWARD;
    assert cs == cs[..i] + cs[i..] && cs[i..] == [FORWARD] + cs[i + 1..];
    RunsInTurn(cs[..i], cs[i..], stack, p, natOpen);
    InterfacesStay(cs[..i], stack, p, natOpen);
    var r := RunChains(cs[..i], stack, p, natOpen);
    if r.Pass? {
      ForwardDecides(r.packet);
      assert RunChain(FORWARD, stack, r.packet, r.natOpen) == Gone;
      assert cs[i..][0] == FORWARD;
    }
  }

  /** A packet from the namespace is never forwarded, next to any other chains: any rules,
      any translation, in any order. */
  lemma NothingEscapes(fw: Firewall, stack: Stack, p: Packet, natOpen: bool)
    requires FORWARD in fw.forward && p.iif == VETH_HOST
    ensures !Journey(fw, stack, p, natOpen).Forwarded?
  {
    InterfacesStay(fw.prerouting, stack, p, natOpen);
    var r := RunChains(fw.prerouting, stack, p, natOpen);
    if r.Pass? {
      ForwardDrops(fw.forward, stack, r.packet.(oif := stack.route(r.packet)), r.natOpen);
    }
  }

  /** Nor does anything reach the namespace by being forwarded. */
  lemma NothingIsForwardedIn(fw: Firewall, stack: Stack, p: Packet, natOpen: bool)
    requires FORWARD in fw.forward
    ensures var f := Journey(fw, stack, p, natOpen); f.Forwarded? ==> f.packet.oif != VETH_HOST
  {
    var r := RunChains(fw.prerouting, stack, p, natOpen);
    if r.Pass? {
      var q := r.packet.(oif := stack.route(r.packet));
      InterfacesStay(fw.forward, stack, q, r.natOpen);
      if q.oif == VETH_HOST {
        ForwardDrops(fw.forward, stack, q, r.natOpen);
      }
    }
  }

  /** What the input chain of tort looks at. */
  predicate SameHeader(p: Packet, q: Packet) {
    p.iif == q.iif && p.proto == q.proto && p.dport == q.dport && p.ct == q.ct
  }

  /** A chain that drops packets or lets them by, but rewrites none of that. */
  ghost predicate KeepsHeader(c: Chain, stack: Stack) {
    forall p, natOpen :: RunChain(c, stack, p, natOpen).Pass? ==>
      SameHeader(p, RunChain(c, stack, p, natOpen).packet)
  }

  lemma InputKeepsHeader(stack: Stack)
    ensures KeepsHeader(INPUT, stack)
  {
    forall p, natOpen | RunChain(INPUT, stack, p, natOpen).Pass?
      ensures SameHeader(p, RunChain(INPUT, stack, p, natOpen).packet)
    {
      if p.iif == VETH_HOST { InputDecidesInside(p); } else { InputDecidesOutside(p); }
    }
  }

  lemma {:induction false} HeaderStays(cs: seq<Chain>, stack: Stack, p: Packet, natOpen: bool)
    requires forall i :: 0 <= i < |cs| ==> KeepsHeader(cs[i], stack)
    ensures var r := RunChains(cs, stack, p, natOpen); r.Pass? ==> SameHeader(p, r.packet)
  {
    if cs != [] {
      var r := RunChain(cs[0], stack, p, natOpen);
      assert KeepsHeader(cs[0], stack);
      if r.Pass? {
        HeaderStays(cs[1..], stack, r.packet, r.natOpen);
      }
    }
  }

  /** Whatever these chains rewrite, they turn no admitted packet into one that is not. */
  ghost predicate AdmittedStay(cs: seq<Chain>, stack: Stack) {
    forall p: Packet, natOpen: bool :: p.iif == VETH_HOST && Admitted(p) && RunChains(cs, stack, p, natOpen).Pass? ==>
      Admitted(RunChains(cs, stack, p, natOpen).packet)
  }

  lemma HeadersSettleIt(cs: seq<Chain>, stack: Stack)
    requires forall i :: 0 <= i < |cs| ==> KeepsHeader(cs[i], stack)
    ensures AdmittedStay(cs, stack)
  {
    forall p: Packet, natOpen: bool | p.iif == VETH_HOST && Admitted(p) && RunChains(cs, stack, p, natOpen).Pass?
      ensures Admitted(RunChains(cs, stack, p, natOpen).packet)
    {
      HeaderStays(cs, stack, p, natOpen);
    }
  }

  /** The chains that run after tort's on the input hook leave admission be. */
  ghost predicate AdmissionLasts(cs: seq<Chain>, stack: Stack) {
    exists i :: 0 <= i < |cs| && cs[i] == INPUT && AdmittedStay(cs[i + 1..], stack)
  }

  lemma InputFirst(after: seq<Chain>, stack: Stack, p: Packet, natOpen: bool)
    requires p.iif == VETH_HOST
    ensures RunChains([INPUT] + after, stack, p, natOpen)
            == if Admitted(p) then RunChains(after, stack, p, natOpen) else Gone
  {
    InputDecidesInside(p);
    assert ([INPUT] + after)[1..] == after;
  }

  /** Whatever these chains let by from the veth is admitted. */
  ghost predicate OnlyAdmitted(cs: seq<Chain>, stack: Stack) {
    forall p: Packet, natOpen: bool :: p.iif == VETH_HOST && RunChains(cs, stack, p, natOpen).Pass? ==>
      Admitted(RunChains(cs, stack, p, natOpen).packet)
  }

  /** What tort's input chain promises survives the chains after it exactly when they leave
      admission be. */
  lemma AdmissionExactly(after: seq<Chain>, stack: Stack)
    ensures AdmittedStay(after, stack) <==> OnlyAdmitted([INPUT] + after, stack)
  {
    var all := [INPUT] + after;
    if AdmittedStay(after, stack) {
      forall p: Packet, natOpen: bool | p.iif == VETH_HOST && RunChains(all, stack, p, natOpen).Pass?
        ensures Admitted(RunChains(all, stack, p, natOpen).packet)
      {
        InputFirst(after, stack, p, natOpen);
      }
    }
    if OnlyAdmitted(all, stack) {
      forall p: Packet, natOpen: bool | p.iif == VETH_HOST && Admitted(p) && RunChains(after, stack, p, natOpen).Pass?
        ensures Admitted(RunChains(after, stack, p, natOpen).packet)
      {
        InputFirst(after, stack, p, natOpen);
        assert RunChains(all, stack, p, natOpen).Pass?;
      }
    }
  }

  lemma InputAdmits(cs: seq<Chain>, i: nat, stack: Stack, p: Packet, natOpen: bool)
    requires i < |cs| && cs[i] == INPUT && p.iif == VETH_HOST && AdmittedStay(cs[i + 1..], stack)
    ensures var r := RunChains(cs, stack, p, natOpen); r.Pass? ==> Admitted(r.packet)
  {
    var after := cs[i + 1..];
    assert cs == cs[..i] + cs[i..] && cs[i..] == [INPUT] + after;
    RunsInTurn(cs[..i], cs[i..], stack, p, natOpen);
    InterfacesStay(cs[..i], stack, p, natOpen);
    var r := RunChains(cs[..i], stack, p, natOpen);
    if r.Pass? {
      InputFirst(after, stack, r.packet, r.natOpen);
    }
  }

  /** What the namespace gets delivered on the host is bound for tor's two ports or belongs
      to a flow already known, next to any other chains, as long as those after tort's on the
      input hook leave admission be. */
  lemma OnlyTorIsReached(fw: Firewall, stack: Stack, p: Packet, natOpen: bool)
    requires p.iif == VETH_HOST && AdmissionLasts(fw.input, stack)
    ensures var f := Journey(fw, stack, p, natOpen); f.Delivered? ==> Admitted(f.packet)
  {
    InterfacesStay(fw.prerouting, stack, p, natOpen);
    var r := RunChains(fw.prerouting, stack, p, natOpen);
    if r.Pass? {
      var i :| 0 <= i < |fw.input| && fw.input[i] == INPUT && AdmittedStay(fw.input[i + 1..], stack);
      InputAdmits(fw.input, i, stack, r.packet, r.natOpen);
    }
  }

  /** That is needed: one chain after tort's that sends everything to some port, and a packet
      tort admitted is delivered there. */
  lemma LaterRewritesGoAnywhere(stack: Stack, p: Packet, port: nat, later: Chain)
    requires p.iif == VETH_HOST && p.ct == New && p.proto == Tcp && !SUBNET.Has(p.dst)
    requires stack.primary(VETH_HOST) == HOST_ADDR && stack.isLocal(HOST_ADDR)
    requires port != TRANS_PORT
    requires later == Foreign(Input, 100, (q: Packet, natOpen) => Effect(false, q.(dport := port), natOpen))
    ensures var f := Journey(Firewall([PREROUTING], [INPUT, later], [FORWARD]), stack, p, true);
            f.Delivered? && f.packet.dport == port && !Admitted(f.packet)
  {
    PreroutingDecides(p);
    RunsOne(PREROUTING, stack, p, true);
    var q := RunChain(PREROUTING, stack, p, true).packet;
    InputDecidesInside(q);
    RunsInTurn([INPUT], [later], stack, q, false);
    RunsOne(INPUT, stack, q, false);
    RunsOne(later, stack, q, false);
    assert [INPUT] + [later] == [INPUT, later];
  }

  // --------------------------------------------------------- tort's table alone

  const ALONE := Firewall([PREROUTING], [INPUT], [FORWARD])

  lemma RunsOne(c: Chain, stack: Stack, p: Packet, natOpen: bool)
    ensures RunChains([c], stack, p, natOpen) == RunChain(c, stack, p, natOpen)
  {
    assert [c][1..] == [];
  }

  /** Exactly what becomes of the first packet of a flow from the namespace when no other
      table has a say: DNS and TCP go to tor, and everything else is dropped. */
  lemma FateAlone(stack: Stack, p: Packet)
    requires p.iif == VETH_HOST && p.ct == New
    requires stack.primary(VETH_HOST) == HOST_ADDR && stack.isLocal(HOST_ADDR)
    ensures Journey(ALONE, stack, p, true) ==
      if p.proto == Udp && p.dport == 53 then Delivered(p.(dst := HOST_ADDR, dport := DNS_PORT))
      else if p.proto == Tcp && !SUBNET.Has(p.dst) then Delivered(p.(dst := HOST_ADDR, dport := TRANS_PORT))
      else if stack.isLocal(p.dst) && Admitted(p) then Delivered(p)
      else Dropped
  {
    PreroutingDecides(p);
    RunsOne(PREROUTING, stack, p, true);
    var r := RunChain(PREROUTING, stack, p, true);
    RouteAlone(stack, r.packet, r.natOpen);
  }

  /** Past the redirect, a packet from the namespace is delivered exactly when it is for
      the host and admitted. */
  lemma RouteAlone(stack: Stack, q: Packet, natOpen: bool)
    requires q.iif == VETH_HOST
    ensures Route(ALONE, stack, q, natOpen) == if stack.isLocal(q.dst) && Admitted(q) then Delivered(q) else Dropped
  {
    InputDecidesInside(q);
    RunsOne(INPUT, stack, q, natOpen);
    var out := q.(oif := stack.route(q));
    ForwardDecides(out);
    RunsOne(FORWARD, stack, out, natOpen);
  }

  /** Addresses tor hands out for onion services are not excluded from the redirect. */
  lemma OnionAddressesAreRedirected(stack: Stack, p: Packet)
    requires p.iif == VETH_HOST && p.ct == New && p.proto == Tcp && ONION_RANGE.Has(p.dst)
    requires stack.primary(VETH_HOST) == HOST_ADDR && stack.isLocal(HOST_ADDR)
    ensures Journey(ALONE, stack, p, true) == Delivered(p.(dst := HOST_ADDR, dport := TRANS_PORT))
  {
    assert !SUBNET.Has(p.dst);
    FateAlone(stack, p);
  }

  // ------------------------------------------------ the rest of the host is left alone

  /** Traffic that tort's chains do not match: not to or from the veth, and not for one of
      the two ports when it is for this host. */
  ghost predicate Unrelated(c: Chain, p: Packet) {
    && p.iif != VETH_HOST && p.oif != VETH_HOST
    && (c == INPUT ==> !(p.proto == Tcp && p.dport == TRANS_PORT) && !(p.proto == Udp && p.dport == DNS_PORT))
  }

  lemma TortPassesBy(c: Chain, stack: Stack, p: Packet, natOpen: bool)
    requires c in TORT_TABLE && Unrelated(c, p)
    ensures RunChain(c, stack, p, natOpen) == Pass(p, natOpen)
  {
    PreroutingDecides(p);
    ForwardDecides(p);
    InputDecidesOutside(p);
  }

  /** Registering one of tort's chains among any others, at any place, changes nothing for
      traffic that is unrelated when it gets there. */
  lemma RestIsLeftAlone(a: seq<Chain>, b: seq<Chain>, c: Chain, stack: Stack, p: Packet, natOpen: bool)
    requires c in TORT_TABLE
    requires var r := RunChains(a, stack, p, natOpen); r.Pass? ==> Unrelated(c, r.packet)
    ensures RunChains(a + [c] + b, stack, p, natOpen) == RunChains(a + b, stack, p, natOpen)
  {
    assert a + [c] + b == a + ([c] + b);
    RunsInTurn(a, [c] + b, stack, p, natOpen);
    RunsInTurn(a, b, stack, p, natOpen);
    var r := RunChains(a, stack, p, natOpen);
    if r.Pass? {
      TortPassesBy(c, stack, r.packet, r.natOpen);
      assert ([c] + b)[1..] == b;
    }
  }
}
