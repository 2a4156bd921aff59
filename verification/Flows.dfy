/** Connection tracking over packet sequences: where flows opened by the namespace end.

    Translation is chosen on a flow's first packet and kept for the rest of it; a flow is
    remembered once its first packet gets through. Other tables may filter but not
    translate or rewrite. */
module Flows {
  import opened Config
  import opened Packets

  datatype Tuple = Tuple(proto: Proto, src: Addr, sport: nat, dst: Addr, dport: nat)

  /** A remembered flow, kept under the addresses of its first packet: the interface that
      packet came in on, whether the flow is related to an earlier one, where its packets
      are sent, and whether the other end has answered. */
  datatype Flow = Flow(opener: string, related: bool, dst: Addr, dport: nat, answered: bool)

  type Table = map<Tuple, Flow>

  datatype Event =
    | Opens(p: Packet, related: bool)
    | Continues(p: Packet)
    | Replies(p: Packet, t: Tuple)
    | Answers(t: Tuple)
    | Expires(t: Tuple)
    | StartsElsewhere(t: Tuple, f: Flow)

  function TupleOf(p: Packet): Tuple { Tuple(p.proto, p.src, p.sport, p.dst, p.dport) }

  /** What conntrack says of a packet in the direction its flow was opened. */
  function StateOf(f: Flow): CtState {
    if f.answered then Established else if f.related then Related else New
  }

  /** Events the tracker can see: its own classification of each packet is right. */
  predicate Possible(table: Table, ev: Event) {
    match ev
    case Opens(p, related) => TupleOf(p) !in table && p.ct == (if related then Related else New)
    case Continues(p) => TupleOf(p) in table && p.ct == StateOf(table[TupleOf(p)])
    case Replies(p, t) => t in table && p.ct == Established && p.proto == t.proto
                          && p.src == table[t].dst && p.sport == table[t].dport
                          && p.dst == t.src && p.dport == t.sport
    case Answers(t) => t in table
    case Expires(t) => t in table
    case StartsElsewhere(t, f) => t !in table && f.opener != VETH_HOST
  }

  /** The packet an event puts through the hooks, translated as its flow was, and whether
      translation is still to be chosen. */
  function Sent(table: Table, ev: Event): (Packet, bool)
    requires Possible(table, ev) && (ev.Opens? || ev.Continues? || ev.Replies?)
  {
    match ev
    case Opens(p, _) => (p, true)
    case Continues(p) => (p.(dst := table[TupleOf(p)].dst, dport := table[TupleOf(p)].dport), false)
    case Replies(p, t) => (p, false)
  }

  function FateOf(fw: Firewall, stack: Stack, table: Table, ev: Event): Fate
    requires Possible(table, ev) && (ev.Opens? || ev.Continues? || ev.Replies?)
  {
    var (q, natOpen) := Sent(table, ev);
    Journey(fw, stack, q, natOpen)
  }

  function Step(fw: Firewall, stack: Stack, table: Table, ev: Event): Table
    requires Possible(table, ev)
  {
    match ev
    case Opens(p, related) =>
      (match FateOf(fw, stack, table, ev)
       case Dropped => table
       case Delivered(q) => table[TupleOf(p) := Flow(p.iif, related, q.dst, q.dport, false)]
       case Forwarded(q) => table[TupleOf(p) := Flow(p.iif, related, q.dst, q.dport, false)])
    case Continues(_) => table
    case Replies(_, t) => table[t := table[t].(answered := true)]
    case Answers(t) => table[t := table[t].(answered := true)]
    case Expires(t) => table - {t}
    case StartsElsewhere(t, f) => table[t := f]
  }

  /** An event, under the firewall and the addresses of the moment. */
  datatype Moment = Moment(fw: Firewall, stack: Stack, ev: Event)

  function After(table: Table, m: Moment): Table
    requires Possible(table, m.ev)
  {
    Step(m.fw, m.stack, table, m.ev)
  }

  predicate PossibleRun(table: Table, ms: seq<Moment>)
    decreases |ms|
  {
    |ms| == 0 || (Possible(table, ms[0].ev) && PossibleRun(After(table, ms[0]), ms[1..]))
  }

  function Run(table: Table, ms: seq<Moment>): Table
    requires PossibleRun(table, ms)
    decreases |ms|
  {
    if |ms| == 0 then table else Run(After(table, ms[0]), ms[1..])
  }

  // ------------------------------------------------------------- hypotheses

  /** A chain of another table that filters and does nothing else. */
  ghost predicate OnlyFilters(c: Chain) {
    c.Foreign? && forall p, natOpen :: !c.run(p, natOpen).drop ==>
      c.run(p, natOpen).packet == p && c.run(p, natOpen).natOpen
  }

  /** tort's table is loaded, and no other table translates or rewrites. */
  ghost predicate NoOtherNat(fw: Firewall) {
    && PREROUTING in fw.prerouting && INPUT in fw.input && FORWARD in fw.forward
    && (forall i :: 0 <= i < |fw.prerouting| ==> fw.prerouting[i] == PREROUTING || OnlyFilters(fw.prerouting[i]))
    && (forall i :: 0 <= i < |fw.input| ==> fw.input[i] == INPUT || OnlyFilters(fw.input[i]))
  }

  /** The veth carries the gateway address, and no other address of its subnet is local. */
  ghost predicate GatewayOnly(stack: Stack) {
    && stack.primary(VETH_HOST) == HOST_ADDR
    && forall a: Addr :: SUBNET.Has(a) && stack.isLocal(a) ==> a == HOST_ADDR
  }

  // -------------------------------------------------------------- translation

  function Translated(stack: Stack, p: Packet): Packet {
    match Decide(PREROUTING.rules, p)
    case Redirect(port) => p.(dst := stack.primary(p.iif), dport := port)
    case _ => p
  }

  /** Whatever filters around it, the nat chain translates a first packet once, and leaves
      a packet of a translated flow alone. */
  lemma {:induction false} TranslatesOnce(cs: seq<Chain>, stack: Stack, p: Packet, natOpen: bool)
    requires forall i :: 0 <= i < |cs| ==> cs[i] == PREROUTING || OnlyFilters(cs[i])
    ensures var r := RunChains(cs, stack, p, natOpen);
            r.Pass? ==>
              if natOpen && PREROUTING in cs then r.packet == Translated(stack, p)
              else r == Pass(p, natOpen)
  {
    if cs != [] {
      var r := RunChain(cs[0], stack, p, natOpen);
      PreroutingDecides(p);
      if r.Pass? {
        TranslatesOnce(cs[1..], stack, r.packet, r.natOpen);
        assert cs == [cs[0]] + cs[1..];
      }
    }
  }

  lemma {:induction false} InputRewritesNothing(cs: seq<Chain>, stack: Stack, p: Packet, natOpen: bool)
    requires forall i :: 0 <= i < |cs| ==> cs[i] == INPUT || OnlyFilters(cs[i])
    ensures var r := RunChains(cs, stack, p, natOpen); r.Pass? ==> r.packet == p
  {
    if cs != [] {
      var r := RunChain(cs[0], stack, p, natOpen);
      if p.iif == VETH_HOST { InputDecidesInside(p); } else { InputDecidesOutside(p); }
      if r.Pass? {
        InputRewritesNothing(cs[1..], stack, r.packet, r.natOpen);
      }
    }
  }

  lemma FiltersKeepHeader(cs: seq<Chain>, stack: Stack)
    requires INPUT in cs && forall i :: 0 <= i < |cs| ==> cs[i] == INPUT || OnlyFilters(cs[i])
    ensures AdmissionLasts(cs, stack)
  {
    InputKeepsHeader(stack);
    var i :| 0 <= i < |cs| && cs[i] == INPUT;
    HeadersSettleIt(cs[i + 1..], stack);
  }

  /** A packet from the namespace that gets anywhere is delivered here, as translated, and
      admitted by the input chain. */
  lemma WhereItEnds(fw: Firewall, stack: Stack, p: Packet, natOpen: bool)
    requires NoOtherNat(fw) && p.iif == VETH_HOST
    ensures var f := Journey(fw, stack, p, natOpen);
            || f.Dropped?
            || (f.Delivered? && f.packet == (if natOpen then Translated(stack, p) else p)
                && stack.isLocal(f.packet.dst) && Admitted(f.packet))
  {
    NothingEscapes(fw, stack, p, natOpen);
    FiltersKeepHeader(fw.input, stack);
    OnlyTorIsReached(fw, stack, p, natOpen);
    TranslatesOnce(fw.prerouting, stack, p, natOpen);
    var r := RunChains(fw.prerouting, stack, p, natOpen);
    if r.Pass? {
      InputRewritesNothing(fw.input, stack, r.packet, r.natOpen);
    }
  }

  // ------------------------------------------------------------ the invariant

  /** Where a flow opened by the namespace ends: TCP at tor's transparent port, having
      either been meant for somewhere outside the veth's subnet or named that very port at
      the gateway; UDP at tor's resolver port; nothing else at all. */
  predicate EndsAtTor(t: Tuple, f: Flow) {
    match t.proto
    case Tcp => f.dst == HOST_ADDR && f.dport == TRANS_PORT
                && (SUBNET.Has(t.dst) ==> t.dst == HOST_ADDR && t.dport == TRANS_PORT)
    case Udp => f.dport == DNS_PORT
    case OtherProto(_) => false
  }

  ghost predicate AllEndAtTor(table: Table) {
    forall t :: t in table && table[t].opener == VETH_HOST && !table[t].related ==> EndsAtTor(t, table[t])
  }

  lemma FirstPacketEndsAtTor(fw: Firewall, stack: Stack, p: Packet)
    requires NoOtherNat(fw) && GatewayOnly(stack) && p.iif == VETH_HOST && p.ct == New
    ensures var f := Journey(fw, stack, p, true);
            f.Delivered? ==> EndsAtTor(TupleOf(p), Flow(p.iif, false, f.packet.dst, f.packet.dport, false))
  {
    WhereItEnds(fw, stack, p, true);
    PreroutingDecides(p);
  }

  lemma StepKeeps(fw: Firewall, stack: Stack, table: Table, ev: Event)
    requires NoOtherNat(fw) && GatewayOnly(stack)
    requires Possible(table, ev) && AllEndAtTor(table)
    ensures AllEndAtTor(Step(fw, stack, table, ev))
  {
    if ev.Opens? && ev.p.iif == VETH_HOST {
      NothingEscapes(fw, stack, ev.p, true);
      if !ev.related {
        FirstPacketEndsAtTor(fw, stack, ev.p);
      }
    }
  }

  /** Over every packet sequence, with flows expiring and starting anew in between, and with
      other tables' filters and the host's addresses changing from one moment to the next:
      every remembered flow the namespace opened ends at tor. */
  lemma {:induction false} FlowsEndAtTor(table: Table, ms: seq<Moment>)
    requires forall i :: 0 <= i < |ms| ==> NoOtherNat(ms[i].fw) && GatewayOnly(ms[i].stack)
    requires AllEndAtTor(table) && PossibleRun(table, ms)
    ensures AllEndAtTor(Run(table, ms))
    decreases |ms|
  {
    if |ms| != 0 {
      StepKeeps(ms[0].fw, ms[0].stack, table, ms[0].ev);
      FlowsEndAtTor(After(table, ms[0]), ms[1..]);
    }
  }

  /** And so does every packet of theirs, the first and the later ones, at any point of any
      such sequence: none is forwarded, and one delivered reaches tor. */
  lemma PacketsReachOnlyTor(table: Table, ms: seq<Moment>, fw: Firewall, stack: Stack, p: Packet)
    requires forall i :: 0 <= i < |ms| ==> NoOtherNat(ms[i].fw) && GatewayOnly(ms[i].stack)
    requires AllEndAtTor(table) && PossibleRun(table, ms)
    requires NoOtherNat(fw) && GatewayOnly(stack) && p.iif == VETH_HOST
    ensures var end := Run(table, ms);
            var t := TupleOf(p);
            var ev := if t in end then Continues(p) else Opens(p, false);
            Possible(end, ev) && (t in end ==> end[t].opener == VETH_HOST && !end[t].related) ==>
              var f := FateOf(fw, stack, end, ev);
              || f.Dropped?
              || (f.Delivered? && EndsAtTor(t, Flow(VETH_HOST, false, f.packet.dst, f.packet.dport, false)))
  {
    FlowsEndAtTor(table, ms);
    var end := Run(table, ms);
    var t := TupleOf(p);
    var ev := if t in end then Continues(p) else Opens(p, false);
    if Possible(end, ev) {
      var (q, natOpen) := Sent(end, ev);
      WhereItEnds(fw, stack, q, natOpen);
      if t !in end {
        FirstPacketEndsAtTor(fw, stack, p);
      }
    }
  }

  /** Flows related to earlier ones have to be set apart: the input chain admits their first
      packet to any port of the gateway. */
  lemma RelatedFlowsGoAnywhere(stack: Stack, p: Packet)
    requires p.iif == VETH_HOST && p.ct == Related && p.proto == Udp && p.dport != 53
    requires p.dst == HOST_ADDR && stack.isLocal(HOST_ADDR)
    ensures Journey(ALONE, stack, p, true) == Delivered(p)
  {
    PreroutingDecides(p);
    RunsOne(PREROUTING, stack, p, true);
    RouteAlone(stack, p, true);
  }
}
