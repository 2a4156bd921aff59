/** "Fails closed", from the program in the tunnel to the packet on the wire, over whole runs
    of the tunnel's life. */
module FailClosed {
  import opened Options
  import opened Config
  import opened Packets
  import opened Network
  import opened Tables
  import opened Lifecycle
  import opened Kernel

  /** Every base chain of every table is registered on its hook. */
  ghost predicate Loaded(fw: Firewall, rs: Ruleset) {
    forall name, i :: name in rs && 0 <= i < |rs[name]| ==>
      var c := rs[name][i];
      && (c.hook == Prerouting ==> c in fw.prerouting)
      && (c.hook == Input ==> c in fw.input)
      && (c.hook == Forward ==> c in fw.forward)
  }

  lemma TortIsLoaded(fw: Firewall, rs: Ruleset)
    requires Loaded(fw, rs) && NFT_TABLE in rs && rs[NFT_TABLE] == TORT_TABLE
    ensures PREROUTING in fw.prerouting && FORWARD in fw.forward && INPUT in fw.input
  {
    var chains := rs[NFT_TABLE];
    assert chains[0] == PREROUTING && chains[1] == FORWARD && chains[2] == INPUT;
  }

  /** Out of the space a process is in, a packet goes nowhere but the loopback, or the veth
      whose other end is `tort0`. */
  ghost predicate Sealed(h: Host, id: nat) {
    && id in h.net.spaces
    && forall a, dev :: h.net.spaces[id].MayLeave(a, dev) ==>
         || (dev == LO && LOOPBACK.Has(a))
         || (dev == VETH_NS && h.net.peer == Some(InSpace(id)) && VETH_HOST in h.net.root.links)
  }

  /** No packet that arrives on `tort0` is forwarded; one that is delivered on the host is for
      tor's two ports or belongs to a flow the kernel knows, as long as the
      chains after tort's on the input hook leave admission be. */
  ghost predicate Filtered(fw: Firewall, stack: Stack) {
    forall p: Packet, natOpen: bool :: p.iif == VETH_HOST ==>
      var fate := Journey(fw, stack, p, natOpen);
      && !fate.Forwarded?
      && (fate.Delivered? && AdmissionLasts(fw.input, stack) ==> Admitted(fate.packet))
  }

  lemma TortFilters(fw: Firewall, stack: Stack)
    requires INPUT in fw.input && FORWARD in fw.forward
    ensures Filtered(fw, stack)
  {
    forall p: Packet, natOpen: bool | p.iif == VETH_HOST
      ensures var fate := Journey(fw, stack, p, natOpen);
              && !fate.Forwarded?
              && (fate.Delivered? && AdmissionLasts(fw.input, stack) ==> Admitted(fate.packet))
    {
      NothingEscapes(fw, stack, p, natOpen);
      if AdmissionLasts(fw.input, stack) {
        OnlyTorIsReached(fw, stack, p, natOpen);
      }
    }
  }

  lemma SpaceIsSealed(h: Host, id: nat)
    requires NetInv(h.net) && id in h.net.spaces
    ensures Sealed(h, id)
  {
    forall a, dev | h.net.spaces[id].MayLeave(a, dev)
      ensures (dev == LO && LOOPBACK.Has(a)) || (dev == VETH_NS && VETH_NS in h.net.spaces[id].links)
    {
      ContainedLeavesOverVeth(h.net.spaces[id], a, dev);
    }
  }

  /** In every reachable state, whatever failed, died or was restarted on the way, and
      whatever other tables are loaded: what a program in the tunnel sends stays on the
      loopback or arrives on `tort0`, and nothing that arrives there gets past tor. */
  lemma FailsClosed(start: State, s: State, pid: nat, fw: Firewall, stack: Stack)
    requires Init(start) && Reaches(true, start, s)
    requires pid in s.host.procs && s.host.procs[pid].kind == Program && s.host.procs[pid].Inside?
    requires Loaded(fw, s.host.tables)
    ensures Sealed(s.host, s.host.procs[pid].id) && Filtered(fw, stack)
  {
    RunKeeps(start, s);
    TortIsLoaded(fw, s.host.tables);
    TortFilters(fw, stack);
    SpaceIsSealed(s.host, s.host.procs[pid].id);
  }

  /** And so wherever the daemon's own code leaves the kernel: a machine it has driven is
      always in such a state. */
  lemma DaemonFailsClosed(k: Machine, pid: nat, fw: Firewall, stack: Stack)
    requires k.Valid() && Loaded(fw, k.host.tables)
    requires pid in k.host.procs && k.host.procs[pid].kind == Program && k.host.procs[pid].Inside?
    ensures Sealed(k.host, k.host.procs[pid].id) && Filtered(fw, stack)
    ensures SameHost(k.origin.host, k.host)
  {
    FailsClosed(k.origin, k.Here(), pid, fw, stack);
    HostIsConserved(true, k.origin, k.Here());
  }

  // ------------------------------------------------------------ conservation

  /** Nothing on the host but what bears tort's names is different. */
  ghost predicate SameHost(g: Host, h: Host) {
    SameRest(g.net, h.net) && g.tables - {NFT_TABLE} == h.tables - {NFT_TABLE}
  }

  lemma NftConserves(rs: Ruleset)
    ensures Transaction(rs, APPLY).Some? && Transaction(rs, APPLY).value - {NFT_TABLE} == rs - {NFT_TABLE}
    ensures Transaction(rs, REMOVE).Some? && Transaction(rs, REMOVE).value - {NFT_TABLE} == rs - {NFT_TABLE}
  {
    ApplyFromAnyState(rs);
    RemoveFromAnyState(rs);
  }

  lemma StepConserves(patient: bool, s: State, l: Label, t: State)
    requires Next(patient, s, l, t)
    ensures SameHost(s.host, t.host)
  {
    match l
    case Daemon(Ip(cmd, ok)) => if ok { ExecKeepsRest(s.host.net, cmd); }
    case Daemon(Applied(_)) => NftConserves(s.host.tables);
    case Daemon(Removed(_)) => NftConserves(s.host.tables);
    case Other(Reaped(id)) => ReapKeepsRest(s.host.net, id);
    case _ =>
  }

  /** After any run of ups, downs, failures and crashes, every other table and the rest of the
      host's network are what they were. */
  least lemma HostIsConserved[nat](patient: bool, s: State, t: State)
    requires Reaches(patient, s, t)
    ensures SameHost(s.host, t.host)
  {
    if s != t {
      var r, l :| Reaches#[_k - 1](patient, s, r) && Next(patient, r, l, t);
      HostIsConserved#[_k - 1](patient, s, r);
      StepConserves(patient, r, l, t);
    }
  }
}
