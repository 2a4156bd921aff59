/** Packets and the tunnel's life together: over every interleaving of what the daemon and
    the host do with the packets of a namespace, each flow opened while a program is inside
    ends at tor. */
module EndToEnd {
  import opened Options
  import opened Config
  import opened Packets
  import opened Lifecycle
  import opened FailClosed
  import Flows

  /** The system, the flows its kernel remembers, and which of them are ours: opened from the
      namespace, by themselves, while a program was in it. */
  datatype World = World(sys: State, flows: Flows.Table, ours: set<Flows.Tuple>)

  /** Something happens to the system, or to a packet under the firewall and the addresses of
      the moment. */
  datatype Step = System(l: Label, t: State) | Traffic(fw: Firewall, stack: Stack, ev: Flows.Event)

  ghost predicate ProgramInside(h: Host) {
    exists pid :: pid in h.procs && h.procs[pid].kind == Program && h.procs[pid].Inside?
  }

  /** Chains of other tables may filter, and do nothing else. Nothing is said of tort's own:
      they are loaded when its table is. */
  ghost predicate OthersFilter(fw: Firewall) {
    && (forall i :: 0 <= i < |fw.prerouting| ==> fw.prerouting[i] == PREROUTING || Flows.OnlyFilters(fw.prerouting[i]))
    && (forall i :: 0 <= i < |fw.input| ==> fw.input[i] == INPUT || Flows.OnlyFilters(fw.input[i]))
  }

  ghost function Ours(w: World, ev: Flows.Event): set<Flows.Tuple> {
    match ev
    case Opens(p, related) =>
      if p.iif == VETH_HOST && !related && ProgramInside(w.sys.host) then w.ours + {Flows.TupleOf(p)}
      else w.ours - {Flows.TupleOf(p)}
    case Expires(t) => w.ours - {t}
    case StartsElsewhere(t, _) => w.ours - {t}
    case _ => w.ours
  }

  /** A firewall that can be there in this world. */
  ghost predicate Stands(w: World, fw: Firewall, stack: Stack) {
    Loaded(fw, w.sys.host.tables) && OthersFilter(fw) && Flows.GatewayOnly(stack)
  }

  ghost predicate Follows(w: World, s: Step, w': World) {
    match s
    case System(l, t) => Next(true, w.sys, l, t) && w' == w.(sys := t)
    case Traffic(fw, stack, ev) =>
      && Stands(w, fw, stack) && Flows.Possible(w.flows, ev)
      && w' == World(w.sys, Flows.Step(fw, stack, w.flows, ev), Ours(w, ev))
  }

  ghost predicate IsHistory(ws: seq<World>, ss: seq<Step>) {
    && |ws| == |ss| + 1
    && forall i {:trigger ss[i]} :: 0 <= i < |ss| ==> Follows(ws[i], ss[i], ws[i + 1])
  }

  ghost predicate OursEndAtTor(w: World) {
    forall t :: t in w.ours && t in w.flows ==>
      w.flows[t].opener == VETH_HOST && !w.flows[t].related && Flows.EndsAtTor(t, w.flows[t])
  }

  ghost predicate Sound(w: World) { Inv(w.sys) && Settled(w.sys) && OursEndAtTor(w) }

  /** With a program inside, tort's table is there, and so the hypotheses of the flows hold. */
  lemma InsideMeansLoaded(w: World, fw: Firewall, stack: Stack)
    requires Inv(w.sys) && Stands(w, fw, stack) && ProgramInside(w.sys.host)
    ensures Flows.NoOtherNat(fw)
  {
    TortIsLoaded(fw, w.sys.host.tables);
  }

  lemma OpeningKeeps(w: World, fw: Firewall, stack: Stack, p: Packet, related: bool)
    requires Sound(w) && Stands(w, fw, stack) && Flows.Possible(w.flows, Flows.Opens(p, related))
    ensures var ev := Flows.Opens(p, related);
            OursEndAtTor(World(w.sys, Flows.Step(fw, stack, w.flows, ev), Ours(w, ev)))
  {
    if p.iif == VETH_HOST && !related && ProgramInside(w.sys.host) {
      InsideMeansLoaded(w, fw, stack);
      NothingEscapes(fw, stack, p, true);
      Flows.FirstPacketEndsAtTor(fw, stack, p);
    }
  }

  lemma TrafficKeeps(w: World, fw: Firewall, stack: Stack, ev: Flows.Event)
    requires Sound(w) && Stands(w, fw, stack) && Flows.Possible(w.flows, ev)
    ensures OursEndAtTor(World(w.sys, Flows.Step(fw, stack, w.flows, ev), Ours(w, ev)))
  {
    if ev.Opens? {
      OpeningKeeps(w, fw, stack, ev.p, ev.related);
    }
  }

  lemma StepKeepsSound(w: World, s: Step, w': World)
    requires Sound(w) && Follows(w, s, w')
    ensures Sound(w')
  {
    match s
    case System(l, t) => StepKeeps(w.sys, l, t);
    case Traffic(fw, stack, ev) => TrafficKeeps(w, fw, stack, ev);
  }

  /** From any kernel the daemon may be started on, with whatever flows it remembers: at every
      point of every history, each remembered flow that was opened while a program was inside
      ends at tor. */
  lemma {:induction false} ProgramsFlowsEndAtTor(ws: seq<World>, ss: seq<Step>, i: nat)
    requires IsHistory(ws, ss) && i < |ws|
    requires Init(ws[0].sys) && ws[0].ours == {}
    ensures Sound(ws[i])
  {
    if i == 0 {
      InitInv(ws[0].sys);
    } else {
      ProgramsFlowsEndAtTor(ws, ss, i - 1);
      StepKeepsSound(ws[i - 1], ss[i - 1], ws[i]);
    }
  }

  /** And while one is inside, what it sends is dropped or reaches tor: the first packet of a
      flow of its own, and every later packet of a flow of ours. */
  lemma ProgramsPacketsReachTor(ws: seq<World>, ss: seq<Step>, i: nat, fw: Firewall, stack: Stack, p: Packet)
    requires IsHistory(ws, ss) && i < |ws|
    requires Init(ws[0].sys) && ws[0].ours == {}
    requires ProgramInside(ws[i].sys.host) && Stands(ws[i], fw, stack) && p.iif == VETH_HOST
    ensures var t := Flows.TupleOf(p);
            var ev := if t in ws[i].flows then Flows.Continues(p) else Flows.Opens(p, false);
            Flows.Possible(ws[i].flows, ev) && (t in ws[i].flows ==> t in ws[i].ours) ==>
              var f := Flows.FateOf(fw, stack, ws[i].flows, ev);
              || f.Dropped?
              || (f.Delivered?
                  && Flows.EndsAtTor(t, Flows.Flow(VETH_HOST, false, f.packet.dst, f.packet.dport, false)))
  {
    ProgramsFlowsEndAtTor(ws, ss, i);
    InsideMeansLoaded(ws[i], fw, stack);
    var w, t := ws[i], Flows.TupleOf(p);
    var ev := if t in w.flows then Flows.Continues(p) else Flows.Opens(p, false);
    if Flows.Possible(w.flows, ev) {
      var (q, natOpen) := Flows.Sent(w.flows, ev);
      Flows.WhereItEnds(fw, stack, q, natOpen);
      if t !in w.flows {
        Flows.FirstPacketEndsAtTor(fw, stack, p);
      }
    }
  }
}
