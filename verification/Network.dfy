/** The part of the kernel's network state that `src/netns.rs` works on, and what each `ip`
    command does to it. Deleting a namespace takes its name away; the space behind it, and a
    veth with an end inside, go when nothing runs in it any more (`Reap`). */
module Network {
  import opened Options
  import opened Config

  datatype Cidr = Cidr(addr: Addr, size: nat) {
    predicate Has(a: Addr) { Block(addr, size).Has(a) }
  }

  const HOST_CIDR := Cidr(HOST_ADDR, 0x100)
  const NS_CIDR := Cidr(NS_ADDR, 0x100)
  const LOOPBACK := Cidr(Quad(127, 0, 0, 1), 0x100_0000)
  const LO := "lo"

  datatype Link = Link(up: bool, addrs: set<Cidr>)

  datatype Default = Default(via: Addr, dev: string)

  /** A network namespace's own links and default routes. */
  datatype Space = Space(links: map<string, Link>, defaults: set<Default>) {
    /** An interface that is up and has `a` on its link. */
    predicate OnLink(dev: string, a: Addr) {
      dev in links && links[dev].up && exists c :: c in links[dev].addrs && c.Has(a)
    }

    /** An interface a packet for `a` may be sent out of: one with `a` on its link, or the
        interface of a default route when no link has it. */
    ghost predicate MayLeave(a: Addr, dev: string) {
      OnLink(dev, a) || ((forall d :: !OnLink(d, a)) && exists r :: r in defaults && r.dev == dev)
    }
  }

  const EMPTY_SPACE := Space(map[LO := Link(false, {})], {})

  /** Where the namespace end of tort's veth pair is. */
  datatype Place = InRoot | InSpace(id: nat)

  /** The host's own space, the spaces of namespaces, which of them is named `tort`, the next
      unused identity, and the far end of `tort0` when that exists. */
  datatype Net = Net(root: Space, spaces: map<nat, Space>, named: Option<nat>, next: nat, peer: Option<Place>)

  datatype Cmd =
    | NetnsAdd | VethAdd | VethMove | HostAddress | HostUp
    | NsAddress | NsUp | LoUp | DefaultRoute
    | NetnsDelete | VethDelete

  /** The commands of `create_inner`, in order. */
  const SCRIPT := [NetnsAdd, VethAdd, VethMove, HostAddress, HostUp, NsAddress, NsUp, LoUp, DefaultRoute]

  function WithLink(s: Space, dev: string, link: Link): Space { s.(links := s.links[dev := link]) }

  function WithoutLink(s: Space, dev: string): Space {
    Space(s.links - {dev}, set r | r in s.defaults && r.dev != dev)
  }

  function AddAddress(s: Space, dev: string, c: Cidr): Option<Space> {
    if dev !in s.links || c in s.links[dev].addrs then None
    else Some(WithLink(s, dev, s.links[dev].(addrs := s.links[dev].addrs + {c})))
  }

  function SetUp(s: Space, dev: string): Option<Space> {
    if dev !in s.links then None else Some(WithLink(s, dev, s.links[dev].(up := true)))
  }

  /** Bringing the loopback up gives it its address. */
  function LoopbackUp(s: Space): Option<Space> {
    if LO !in s.links then None else Some(WithLink(s, LO, Link(true, s.links[LO].addrs + {LOOPBACK})))
  }

  /** A default route needs its gateway on link, and no default route before it. */
  function AddDefault(s: Space, via: Addr, dev: string): Option<Space> {
    if !s.OnLink(dev, via) || s.defaults != {} then None else Some(s.(defaults := {Default(via, dev)}))
  }

  function InNamed(n: Net, s: Option<Space>): Option<Net> {
    if n.named.None? || s.None? then None else Some(n.(spaces := n.spaces[n.named.value := s.value]))
  }

  function OnHost(n: Net, s: Option<Space>): Option<Net> {
    match s case None => None case Some(root) => Some(n.(root := root))
  }

  /** The space named `tort`. */
  function Named(n: Net): Space {
    if n.named.Some? && n.named.value in n.spaces then n.spaces[n.named.value] else Space(map[], {})
  }

  /** What a command does; `None` when the kernel refuses it. */
  function Exec(n: Net, c: Cmd): Option<Net> {
    match c
    case NetnsAdd =>
      if n.named.Some? then None
      else Some(n.(named := Some(n.next), next := n.next + 1, spaces := n.spaces[n.next := EMPTY_SPACE]))
    case VethAdd =>
      if VETH_HOST in n.root.links || VETH_NS in n.root.links then None
      else Some(n.(root := WithLink(WithLink(n.root, VETH_HOST, Link(false, {})), VETH_NS, Link(false, {})),
                   peer := Some(InRoot)))
    case VethMove =>
      if n.named.None? || n.peer != Some(InRoot) || VETH_NS in Named(n).links then None
      else Some(n.(root := WithoutLink(n.root, VETH_NS),
                   spaces := n.spaces[n.named.value := WithLink(Named(n), VETH_NS, Link(false, {}))],
                   peer := Some(InSpace(n.named.value))))
    case HostAddress => OnHost(n, AddAddress(n.root, VETH_HOST, HOST_CIDR))
    case HostUp => OnHost(n, SetUp(n.root, VETH_HOST))
    case NsAddress => InNamed(n, AddAddress(Named(n), VETH_NS, NS_CIDR))
    case NsUp => InNamed(n, SetUp(Named(n), VETH_NS))
    case LoUp => InNamed(n, LoopbackUp(Named(n)))
    case DefaultRoute => InNamed(n, AddDefault(Named(n), HOST_ADDR, VETH_NS))
    case NetnsDelete => if n.named.None? then None else Some(n.(named := None))
    case VethDelete => if VETH_HOST !in n.root.links then None else Some(WithoutVeth(n))
  }

  /** Both ends of the veth go together, wherever they are. */
  function WithoutVeth(n: Net): Net {
    match n.peer
    case None => n.(root := WithoutLink(n.root, VETH_HOST))
    case Some(InRoot) => n.(root := WithoutLink(WithoutLink(n.root, VETH_HOST), VETH_NS), peer := None)
    case Some(InSpace(id)) =>
      n.(root := WithoutLink(n.root, VETH_HOST), peer := None,
         spaces := if id in n.spaces then n.spaces[id := WithoutLink(n.spaces[id], VETH_NS)] else n.spaces)
  }

  /** An unnamed space with nothing running in it goes, and its links with it. */
  function Reap(n: Net, id: nat): Net {
    var m := if n.peer == Some(InSpace(id)) then WithoutVeth(n) else n;
    m.(spaces := m.spaces - {id})
  }

  // -------------------------------------------------------------- invariant

  /** The only ways out of the space are its loopback and tort's veth. */
  predicate Contained(s: Space) {
    && s.links.Keys <= {LO, VETH_NS}
    && (LO in s.links ==> s.links[LO].addrs <= {LOOPBACK})
    && (forall r :: r in s.defaults ==> r.dev == VETH_NS && VETH_NS in s.links)
  }

  ghost predicate NetInv(n: Net) {
    && (n.named.Some? ==> n.named.value in n.spaces)
    && (forall id :: id in n.spaces ==> id < n.next)
    && (VETH_HOST in n.root.links <==> n.peer.Some?)
    && (VETH_NS in n.root.links <==> n.peer == Some(InRoot))
    && (n.peer.Some? && n.peer.value.InSpace? ==> n.peer.value.id in n.spaces)
    && (forall id :: id in n.spaces ==>
          Contained(n.spaces[id]) && (VETH_NS in n.spaces[id].links <==> n.peer == Some(InSpace(id))))
  }

  lemma WithoutVethKeepsNetInv(n: Net)
    requires NetInv(n)
    ensures NetInv(WithoutVeth(n))
  {
  }

  lemma ExecKeepsNetInv(n: Net, c: Cmd)
    requires NetInv(n) && Exec(n, c).Some?
    ensures NetInv(Exec(n, c).value)
  {
    match c
    case VethDelete => WithoutVethKeepsNetInv(n);
    case VethMove => MoveKeepsNetInv(n);
    case NsAddress => InsideKeepsNetInv(n, AddAddress(Named(n), VETH_NS, NS_CIDR).value);
    case NsUp => InsideKeepsNetInv(n, SetUp(Named(n), VETH_NS).value);
    case LoUp => InsideKeepsNetInv(n, LoopbackUp(Named(n)).value);
    case DefaultRoute => InsideKeepsNetInv(n, AddDefault(Named(n), HOST_ADDR, VETH_NS).value);
    case _ =>
  }

  /** A change inside the named space that keeps it contained, and its links. */
  lemma InsideKeepsNetInv(n: Net, s: Space)
    requires NetInv(n) && n.named.Some? && Contained(s) && s.links.Keys == Named(n).links.Keys
    ensures NetInv(n.(spaces := n.spaces[n.named.value := s]))
  {
    assert VETH_NS in s.links.Keys <==> VETH_NS in Named(n).links.Keys;
  }

  lemma MoveKeepsNetInv(n: Net)
    requires NetInv(n) && Exec(n, VethMove).Some?
    ensures NetInv(Exec(n, VethMove).value)
  {
  }

  lemma ReapKeepsNetInv(n: Net, id: nat)
    requires NetInv(n) && n.named != Some(id)
    ensures NetInv(Reap(n, id))
  {
    WithoutVethKeepsNetInv(n);
  }

  /** The host's own network, tort's two names aside, is the same. */
  ghost predicate SameRest(n: Net, m: Net) {
    && (forall dev :: dev != VETH_HOST && dev != VETH_NS ==>
          (dev in n.root.links <==> dev in m.root.links)
          && (dev in n.root.links ==> n.root.links[dev] == m.root.links[dev]))
    && (forall r: Default :: r.dev != VETH_HOST && r.dev != VETH_NS ==>
          (r in n.root.defaults <==> r in m.root.defaults))
  }

  lemma ExecKeepsRest(n: Net, c: Cmd)
    requires Exec(n, c).Some?
    ensures SameRest(n, Exec(n, c).value)
  {
  }

  lemma ReapKeepsRest(n: Net, id: nat)
    ensures SameRest(n, Reap(n, id))
  {
  }

  /** A packet leaves a contained space over the veth, or stays on the loopback. */
  lemma ContainedLeavesOverVeth(s: Space, a: Addr, dev: string)
    requires Contained(s) && s.MayLeave(a, dev)
    ensures (dev == VETH_NS && VETH_NS in s.links) || (dev == LO && LOOPBACK.Has(a))
  {
  }

  // ------------------------------------------------------- the build, step by step

  /** The state after the first `i` commands of the script. */
  ghost predicate Built(n: Net, i: nat) {
    && n.named.Some? && n.named.value in n.spaces
    && 1 <= i <= |SCRIPT|
    && var id := n.named.value;
       var s := n.spaces[id];
    && s.links.Keys == (if i < 3 then {LO} else {LO, VETH_NS})
    && s.links[LO] == (if i < 8 then Link(false, {}) else Link(true, {LOOPBACK}))
    && s.defaults == (if i < 9 then {} else {Default(HOST_ADDR, VETH_NS)})
    && (i == 1 ==> n.peer != Some(InSpace(id)))
    && (i == 2 ==> n.peer == Some(InRoot))
    && (i >= 2 ==> VETH_HOST in n.root.links
                   && n.root.links[VETH_HOST] == Link(i >= 5, if i < 4 then {} else {HOST_CIDR}))
    && (i >= 3 ==> n.peer == Some(InSpace(id))
                   && s.links[VETH_NS] == Link(i >= 7, if i < 6 then {} else {NS_CIDR}))
  }

  lemma BuildStarts(n: Net)
    requires NetInv(n) && n.named == None
    ensures Exec(n, NetnsAdd).Some? && Built(Exec(n, NetnsAdd).value, 1)
  {
  }

  lemma HostSideProceeds(n: Net, i: nat)
    requires NetInv(n) && Built(n, i) && i in {1, 3, 4} && Exec(n, SCRIPT[i]).Some?
    ensures Built(Exec(n, SCRIPT[i]).value, i + 1)
  {
  }

  lemma MoveProceeds(n: Net)
    requires NetInv(n) && Built(n, 2) && Exec(n, SCRIPT[2]).Some?
    ensures Built(Exec(n, SCRIPT[2]).value, 3)
  {
  }

  /** A stage inside the named space, which is all that the stage changes. */
  lemma InsideProceeds(n: Net, i: nat, s: Space)
    requires Built(n, i) && 5 <= i < 9 && s.links.Keys == {LO, VETH_NS}
    requires s.links[LO] == (if i < 7 then Link(false, {}) else Link(true, {LOOPBACK}))
    requires s.links[VETH_NS] == Link(i >= 6, {NS_CIDR})
    requires s.defaults == (if i < 8 then {} else {Default(HOST_ADDR, VETH_NS)})
    ensures Built(n.(spaces := n.spaces[n.named.value := s]), i + 1)
  {
  }

  lemma NamespaceSideProceeds(n: Net, i: nat)
    requires NetInv(n) && Built(n, i) && 5 <= i < 9 && Exec(n, SCRIPT[i]).Some?
    ensures Built(Exec(n, SCRIPT[i]).value, i + 1)
  {
    var s := n.spaces[n.named.value];
    assert Named(n) == s && LO in s.links && VETH_NS in s.links;
    InsideProceeds(n, i, Exec(n, SCRIPT[i]).value.spaces[n.named.value]);
  }

  lemma BuildProceeds(n: Net, i: nat)
    requires NetInv(n) && Built(n, i) && i < |SCRIPT| && Exec(n, SCRIPT[i]).Some?
    ensures Built(Exec(n, SCRIPT[i]).value, i + 1)
  {
    if i == 2 {
      MoveProceeds(n);
    } else if i < 5 {
      HostSideProceeds(n, i);
    } else {
      NamespaceSideProceeds(n, i);
    }
  }

  /** The kernel refuses nothing in the script, unless a veth was left behind. */
  lemma BuildIsAccepted(n: Net, i: nat)
    requires NetInv(n) && Built(n, i) && i < |SCRIPT| && (i == 1 ==> n.peer == None)
    ensures Exec(n, SCRIPT[i]).Some?
  {
    if i == 8 {
      var s := n.spaces[n.named.value];
      assert NS_CIDR in s.links[VETH_NS].addrs && NS_CIDR.Has(HOST_ADDR);
    }
  }

  lemma ReapKeepsBuild(n: Net, i: nat, id: nat)
    requires NetInv(n) && Built(n, i) && n.named != Some(id)
    ensures Built(Reap(n, id), i)
  {
  }

  /** Once built, every destination off the link is routed, and over the veth only. */
  lemma BuiltRoutesOverVeth(n: Net, a: Addr, dev: string)
    requires Built(n, |SCRIPT|) && !NS_CIDR.Has(a) && !LOOPBACK.Has(a)
    ensures n.spaces[n.named.value].MayLeave(a, dev) <==> dev == VETH_NS
  {
    var s := n.spaces[n.named.value];
    forall d ensures !s.OnLink(d, a) {
      if d in s.links {
        assert d == LO || d == VETH_NS;
      }
    }
    assert Default(HOST_ADDR, VETH_NS) in s.defaults;
  }
}
