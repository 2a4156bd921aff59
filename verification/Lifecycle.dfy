/** The tunnel's whole life as a state machine: the daemon's steps through `up`, `down`,
    `run` and start-up, each `ip`, `nft` and `tor` call able to fail; and, at any moment, tor
    dying, programs coming and going, and the daemon being killed and started again.

    `Control` says where an event takes the daemon, `Effect` what it does to the kernel. */
module Lifecycle {
  import opened Options
  import opened Verdicts
  import opened Config
  import opened Packets
  import opened Network
  import opened Tables

  // ---------------------------------------------------------------- the host

  datatype Kind = Program | Probe

  /** A child is forked first and enters the namespace by itself. */
  datatype Process = Waiting(kind: Kind) | Inside(kind: Kind, id: nat)

  datatype Host = Host(net: Net, tables: Ruleset, tor: bool, procs: map<nat, Process>)

  predicate IsUp(h: Host) { h.net.named.Some? && NFT_TABLE in h.tables && h.tor }

  /** What `ip netns pids` lists. */
  function PidsInside(h: Host): set<nat> {
    set pid | pid in h.procs && h.procs[pid].Inside? && h.net.named == Some(h.procs[pid].id)
  }

  ghost predicate NoneWaiting(h: Host) {
    forall pid :: pid in h.procs ==> h.procs[pid] != Waiting(Program)
  }

  ghost predicate NoPrograms(h: Host) {
    forall pid :: pid in h.procs ==> h.procs[pid].kind != Program
  }

  // -------------------------------------------------------------- the daemon

  /** Who called `down`. */
  datatype Why = Cleanup | Asked | NotVerified

  datatype Pc =
    | Dead | Starting | Idle
    | UpAsked | UpWanted | CreateCheck
    | Creating(done: nat) | RollbackNs | RollbackLink
    | StartTor | UndoTor | UndoNs | Applying | Verifying
    | Stopping(why: Why, empty: bool)
    | DownRules(why: Why) | DownTor(why: Why) | DownNs(why: Why)
    | RunAsked | RunReady

  /** What tor's log says so far. */
  datatype Progress = Silent | Bootstrapped | Fatal

  datatype Signal = SigTerm | SigKill

  /** What the daemon does or sees; some with the time on its clock, in nanoseconds. */
  datatype Event =
    | Restarted
    | SawLeftovers(partial: bool)
    | AskedUp
    | AskedDown
    | AskedRun
    | SawUp(up: bool)
    | SawTorInstalled(installed: bool)
    | SawNamespace(present: bool)
    | Ip(cmd: Cmd, ok: bool)
    | DisabledIpv6(ok: bool)
    | WroteResolvConf(ok: bool)
    | SawTor(running: bool)
    | SpawnedTor(ok: bool, at: nat)
    | StartedTor(ok: bool, at: nat)
    | SawTorLog(progress: Progress)
    | AskedTor
    | StoppedTor(asked: bool, killed: bool, gone: bool)
    | Applied(ok: bool)
    | Removed(ok: bool)
    | Destroyed(ok: bool)
    | Probed(outcome: Option<Verdict>)
    | Listed(pids: Option<set<nat>>)
    | Signalled(sig: Signal, whom: set<nat>, at: nat)
    | Stopped
    | GaveUp(at: nat)
    | Forked(pid: Option<nat>)

  /** Where an event takes the daemon; `None` when the code cannot do that there. */
  function Control(pc: Pc, ev: Event): Option<Pc> {
    match pc
    case Dead => if ev.Restarted? then Some(Starting) else None
    case Starting => if ev.SawLeftovers? then Some(if ev.partial then Stopping(Cleanup, false) else Idle) else None
    case Idle => Take(ev)
    case RunAsked => if ev.SawUp? then Some(if ev.up then RunReady else Idle) else None
    case RunReady => if ev.Forked? then Some(Idle) else None
    case UpAsked => if ev.SawUp? then Some(if ev.up then Idle else UpWanted) else None
    case UpWanted => if ev.SawTorInstalled? then Some(if ev.installed then CreateCheck else Idle) else None
    case CreateCheck => if ev.SawNamespace? then Some(if ev.present then Idle else Creating(0)) else None
    case Creating(i) => Build(i, ev)
    case RollbackNs => if ev.Ip? && ev.cmd == NetnsDelete then Some(RollbackLink) else None
    case RollbackLink => if ev.Ip? && ev.cmd == VethDelete then Some(Idle) else None
    case StartTor => Launch(ev)
    case UndoTor => if ev.AskedTor? then Some(UndoTor) else if ev.StoppedTor? then Some(UndoNs) else None
    case UndoNs => if ev.Destroyed? then Some(Idle) else None
    case Applying => if ev.Applied? then Some(if ev.ok then Verifying else UndoTor) else None
    case Verifying => if ev.Probed? then Some(Judge(ev.outcome)) else None
    case Stopping(why, empty) => Stop(why, empty, ev)
    case DownRules(why) => if ev.Removed? then Some(DownTor(why)) else None
    case DownTor(why) => if ev.AskedTor? then Some(pc) else if ev.StoppedTor? then Some(DownNs(why)) else None
    case DownNs(_) => if ev.Destroyed? then Some(Idle) else None
  }

  function Take(ev: Event): Option<Pc> {
    match ev
    case AskedUp => Some(UpAsked)
    case AskedDown => Some(Stopping(Asked, false))
    case AskedRun => Some(RunAsked)
    case _ => None
  }

  /** The script, a command at a time; then IPv6 is turned off, if it can be, and the resolver
      written. */
  function Build(i: nat, ev: Event): Option<Pc> {
    match ev
    case Ip(cmd, ok) =>
      if i < |SCRIPT| && cmd == SCRIPT[i] then Some(if ok then Creating(i + 1) else RollbackNs) else None
    case DisabledIpv6(_) => if i == |SCRIPT| then Some(Creating(i)) else None
    case WroteResolvConf(ok) => if i == |SCRIPT| then Some(if ok then StartTor else RollbackNs) else None
    case _ => None
  }

  /** Orphans are cleared away and tor is spawned before it is known to be serving or not. */
  function Launch(ev: Event): Option<Pc> {
    match ev
    case SawTor(_) => Some(StartTor)
    case AskedTor => Some(StartTor)
    case StoppedTor(_, _, _) => Some(StartTor)
    case SpawnedTor(_, _) => Some(StartTor)
    case SawTorLog(_) => Some(StartTor)
    case StartedTor(ok, _) => Some(if ok then Applying else UndoTor)
    case _ => None
  }

  /** A check that could not be run ends the request; one that failed begins a teardown. */
  function Judge(outcome: Option<Verdict>): Pc {
    if outcome.None? || outcome.value == ThroughTor then Idle else Stopping(NotVerified, false)
  }

  /** Only an empty listing lets the teardown proceed. */
  function Stop(why: Why, empty: bool, ev: Event): Option<Pc> {
    match ev
    case Listed(pids) => Some(if pids.None? then Idle else Stopping(why, pids.value == {}))
    case Signalled(_, _, _) => Some(Stopping(why, empty))
    case Stopped => if empty then Some(DownRules(why)) else None
    case GaveUp(_) => Some(Idle)
    case _ => None
  }

  /** Where the daemon turns back: to a rollback, or to a teardown. */
  predicate TurnsBack(from: Pc, to: Pc) {
    to.RollbackNs? || (to.UndoTor? && !from.UndoTor?) || (to.Stopping? && !from.Stopping?)
  }

  /** Events by which the daemon changes the host, rather than looks at it or signals. */
  predicate Acts(ev: Event) {
    || ev.Ip? || ev.DisabledIpv6? || ev.WroteResolvConf? || ev.SpawnedTor? || ev.AskedTor? || ev.StoppedTor?
    || ev.Applied? || ev.Removed? || ev.Destroyed? || ev.Forked?
  }

  ghost predicate Committed(h: Host, script: seq<Statement>, h': Host) {
    Transaction(h.tables, script).Some? && h' == h.(tables := Transaction(h.tables, script).value)
  }

  /** What an event of the daemon does to the host. A call that fails changes nothing; one
      that the kernel would refuse cannot succeed. */
  ghost predicate Effect(h: Host, ev: Event, h': Host) {
    match ev
    case SawLeftovers(partial) => h' == h && (partial ==> h.net.named.Some? || NFT_TABLE in h.tables)
    case SawUp(up) => h' == h && (up ==> IsUp(h))
    case SawNamespace(present) => h' == h && (present <==> h.net.named.Some?)
    case Ip(cmd, ok) => if ok then Exec(h.net, cmd).Some? && h' == h.(net := Exec(h.net, cmd).value) else h' == h
    case SawTor(running) => h' == h && (running <==> h.tor)
    case SpawnedTor(_, _) => h' == h.(tor := h'.tor)
    case StoppedTor(_, killed, gone) =>
      h' == h.(tor := h'.tor) && (h'.tor ==> h.tor) && (killed <==> h.tor) && (gone <==> !h'.tor)
    case Applied(ok) => if ok then Committed(h, APPLY, h') else h' == h
    case Removed(ok) => if ok then Committed(h, REMOVE, h') else h' == h
    case Destroyed(ok) => if ok then h' == h.(net := h.net.(named := None)) else h' == h
    case Listed(Some(pids)) => h' == h && pids == PidsInside(h)
    case Signalled(_, whom, _) => h' == h && whom == PidsInside(h)
    case Forked(Some(pid)) => pid !in h.procs && h' == h.(procs := h.procs[pid := Waiting(Program)])
    case _ => h' == h
  }

  // ------------------------------------------------------- everything else

  datatype Happening =
    | TorDies
    | Exits(pid: nat)
    | Enters(pid: nat)
    | Forks(pid: nat, child: nat)
    | ProbeStarts(pid: nat)
    | Reaped(id: nat)

  predicate CanHappen(h: Host, o: Happening) {
    match o
    case TorDies => true
    case Exits(pid) => pid in h.procs
    case Enters(pid) => pid in h.procs && h.procs[pid].Waiting?
    case Forks(pid, child) => pid in h.procs && h.procs[pid].Inside? && child !in h.procs
    case ProbeStarts(pid) => pid !in h.procs
    case Reaped(id) => id in h.net.spaces && h.net.named != Some(id)
                       && forall pid :: pid in h.procs && h.procs[pid].Inside? ==> h.procs[pid].id != id
  }

  function Happen(h: Host, o: Happening): Host
    requires CanHappen(h, o)
  {
    match o
    case TorDies => h.(tor := false)
    case Exits(pid) => h.(procs := h.procs - {pid})
    case Enters(pid) =>
      (match h.net.named
       case None => h.(procs := h.procs - {pid})
       case Some(id) => h.(procs := h.procs[pid := Inside(h.procs[pid].kind, id)]))
    case Forks(pid, child) => h.(procs := h.procs[child := h.procs[pid]])
    case ProbeStarts(pid) => h.(procs := h.procs[pid := Waiting(Probe)])
    case Reaped(id) => h.(net := Reap(h.net, id))
  }

  datatype State = State(pc: Pc, host: Host)

  datatype Label = Daemon(ev: Event) | Other(o: Happening) | Killed(survivors: set<nat>, tor: bool)

  /** The events that lead into `down` with programs possibly about to enter. */
  predicate BeginsDown(ev: Event) { ev == AskedDown || ev == SawLeftovers(true) }

  /** One step. `patient` is the hypothesis that a forked child has entered the namespace by
      the time a later Down, or the clean-up of a restarted daemon, begins. */
  ghost predicate Next(patient: bool, s: State, l: Label, t: State) {
    match l
    case Daemon(ev) =>
      && Control(s.pc, ev) == Some(t.pc) && Effect(s.host, ev, t.host)
      && (patient && BeginsDown(ev) ==> NoneWaiting(s.host))
    case Other(o) => CanHappen(s.host, o) && t == State(s.pc, Happen(s.host, o))
    case Killed(survivors, tor) =>
      && t.pc == Dead
      && t.host == s.host.(tor := s.host.tor && tor,
                           procs := map pid | pid in s.host.procs && pid in survivors :: s.host.procs[pid])
  }

  /** Some run, of any number of steps, leads from `s` to `t`. */
  least predicate Reaches[nat](patient: bool, s: State, t: State) {
    s == t || exists r, l :: Reaches(patient, s, r) && Next(patient, r, l, t)
  }

  lemma ReachesNext(patient: bool, s: State, r: State, l: Label, t: State)
    requires Reaches(patient, s, r) && Next(patient, r, l, t)
    ensures Reaches(patient, s, t)
  {
  }

  // -------------------------------------------------------------- invariant

  /** Any state of the kernel a daemon may be started in: with no program in the tunnel, and
      nobody else's table under tort's name. */
  ghost predicate Init(s: State) {
    && s.pc == Dead && NetInv(s.host.net) && NoPrograms(s.host)
    && (NFT_TABLE in s.host.tables ==> s.host.tables[NFT_TABLE] == TORT_TABLE)
    && ProcsExist(s.host)
  }

  ghost predicate ProcsExist(h: Host) {
    forall pid :: pid in h.procs && h.procs[pid].Inside? ==> h.procs[pid].id in h.net.spaces
  }

  /** The claim: a program in the tunnel has tort's table between it and the world. */
  ghost predicate Guarded(h: Host) {
    forall pid :: pid in h.procs && h.procs[pid].kind == Program ==>
      && h.net.named.Some? && NFT_TABLE in h.tables
      && (h.procs[pid].Inside? ==> h.procs[pid].id == h.net.named.value)
  }

  /** The stretches of code during which no program can be in the tunnel. */
  predicate Quiet(pc: Pc) {
    || pc.Creating? || pc.RollbackNs? || pc.RollbackLink? || pc.StartTor? || pc.UndoTor? || pc.UndoNs?
    || pc.Applying? || pc.Verifying? || (pc.Stopping? && (pc.why == NotVerified || pc.empty))
    || pc.DownRules? || pc.DownTor? || pc.DownNs?
  }

  /** How far the namespace has been built, by where the daemon is. */
  ghost predicate BuiltAsFar(pc: Pc, n: Net) {
    match pc
    case Creating(i) => if i == 0 then n.named == None else Built(n, i)
    case StartTor => Built(n, |SCRIPT|)
    case Applying => Built(n, |SCRIPT|)
    case Verifying => Built(n, |SCRIPT|)
    case _ => true
  }

  ghost predicate Inv(s: State) {
    && NetInv(s.host.net) && ProcsExist(s.host) && Guarded(s.host)
    && (NFT_TABLE in s.host.tables ==> s.host.tables[NFT_TABLE] == TORT_TABLE)
    && (Quiet(s.pc) ==> NoPrograms(s.host))
    && (s.pc.RunReady? || s.pc.Verifying? ==> s.host.net.named.Some? && NFT_TABLE in s.host.tables)
    && BuiltAsFar(s.pc, s.host.net)
  }

  /** What holds besides when children enter before a Down begins. */
  ghost predicate Settled(s: State) { s.pc.Stopping? ==> NoneWaiting(s.host) }

  lemma InitInv(s: State)
    requires Init(s)
    ensures Inv(s) && Settled(s)
  {
  }

  lemma ReapKeepsBuiltAsFar(pc: Pc, n: Net, id: nat)
    requires NetInv(n) && BuiltAsFar(pc, n) && n.named != Some(id)
    ensures BuiltAsFar(pc, Reap(n, id))
  {
    match pc
    case Creating(i) => if i > 0 { ReapKeepsBuild(n, i, id); }
    case StartTor => ReapKeepsBuild(n, |SCRIPT|, id);
    case Applying => ReapKeepsBuild(n, |SCRIPT|, id);
    case Verifying => ReapKeepsBuild(n, |SCRIPT|, id);
    case _ =>
  }

  lemma ReapedKeeps(s: State, id: nat)
    requires Inv(s) && Settled(s) && CanHappen(s.host, Reaped(id))
    ensures var t := State(s.pc, Happen(s.host, Reaped(id))); Inv(t) && Settled(t)
  {
    var n := Reap(s.host.net, id);
    ReapKeepsNetInv(s.host.net, id);
    ReapKeepsBuiltAsFar(s.pc, s.host.net, id);
    assert n.named == s.host.net.named && n.spaces.Keys == s.host.net.spaces.Keys - {id};
  }

  lemma HappeningKeeps(s: State, o: Happening)
    requires Inv(s) && Settled(s) && CanHappen(s.host, o)
    ensures Inv(State(s.pc, Happen(s.host, o))) && Settled(State(s.pc, Happen(s.host, o)))
  {
    match o
    case Reaped(id) => ReapedKeeps(s, id);
    case Enters(pid) => EntryKeeps(s, pid);
    case Forks(_, _) => ForkingKeeps(s, o);
    case _ =>
  }

  lemma EntryKeeps(s: State, pid: nat)
    requires Inv(s) && Settled(s) && CanHappen(s.host, Enters(pid))
    ensures var t := State(s.pc, Happen(s.host, Enters(pid))); Inv(t) && Settled(t)
  {
  }

  lemma ForkingKeeps(s: State, o: Happening)
    requires Inv(s) && Settled(s) && o.Forks? && CanHappen(s.host, o)
    ensures var t := State(s.pc, Happen(s.host, o)); Inv(t) && Settled(t)
  {
  }

  /** A change to the network during a quiet stretch. */
  lemma NetChangeKeeps(s: State, n: Net, pc: Pc)
    requires Inv(s) && Quiet(s.pc) && !pc.RunReady? && !pc.Verifying? && !pc.Stopping?
    requires NetInv(n) && BuiltAsFar(pc, n) && s.host.net.spaces.Keys <= n.spaces.Keys
    ensures Inv(State(pc, s.host.(net := n))) && Settled(State(pc, s.host.(net := n)))
  {
  }

  lemma ExecKeepsSpaces(n: Net, c: Cmd)
    requires Exec(n, c).Some?
    ensures n.spaces.Keys <= Exec(n, c).value.spaces.Keys
  {
  }

  /** A command that was accepted, where the code issues it. */
  lemma AcceptedKeepsBuild(n: Net, cmd: Cmd, pc: Pc, pc': Pc)
    requires NetInv(n) && BuiltAsFar(pc, n) && Exec(n, cmd).Some? && Control(pc, Ip(cmd, true)) == Some(pc')
    ensures BuiltAsFar(pc', Exec(n, cmd).value)
  {
    if pc.Creating? {
      ScriptedKeepsBuild(n, cmd, pc.done);
    } else {
      assert pc' == RollbackLink || pc' == Idle;
    }
  }

  lemma IpIsQuiet(cmd: Cmd, pc: Pc, pc': Pc)
    requires Control(pc, Ip(cmd, true)) == Some(pc')
    ensures Quiet(pc) && !pc'.RunReady? && !pc'.Verifying? && !pc'.Stopping?
  {
  }

  lemma ScriptedKeepsBuild(n: Net, cmd: Cmd, i: nat)
    requires NetInv(n) && BuiltAsFar(Creating(i), n) && Exec(n, cmd).Some? && i < |SCRIPT| && cmd == SCRIPT[i]
    ensures Built(Exec(n, cmd).value, i + 1)
  {
    if i == 0 { BuildStarts(n); } else { BuildProceeds(n, i); }
  }

  lemma IpKeeps(s: State, cmd: Cmd, pc: Pc)
    requires Inv(s) && Exec(s.host.net, cmd).Some? && Control(s.pc, Ip(cmd, true)) == Some(pc)
    ensures var t := State(pc, s.host.(net := Exec(s.host.net, cmd).value)); Inv(t) && Settled(t)
  {
    ExecKeepsNetInv(s.host.net, cmd);
    ExecKeepsSpaces(s.host.net, cmd);
    AcceptedKeepsBuild(s.host.net, cmd, s.pc, pc);
    IpIsQuiet(cmd, s.pc, pc);
    NetChangeKeeps(s, Exec(s.host.net, cmd).value, pc);
  }

  lemma DestroyKeeps(s: State, pc: Pc)
    requires Inv(s) && Control(s.pc, Destroyed(true)) == Some(pc)
    ensures var t := State(pc, s.host.(net := s.host.net.(named := None))); Inv(t) && Settled(t)
  {
    NetChangeKeeps(s, s.host.net.(named := None), pc);
  }

  /** Nothing listed means no program anywhere, since none is on its way in. */
  lemma EmptyListing(h: Host)
    requires Guarded(h) && NoneWaiting(h) && PidsInside(h) == {}
    ensures NoPrograms(h)
  {
    forall pid | pid in h.procs ensures h.procs[pid].kind != Program {
      assert pid !in PidsInside(h);
    }
  }

  lemma TablesChangeKeep(s: State, rs: Ruleset, pc: Pc)
    requires Inv(s) && Quiet(s.pc) && !pc.RunReady? && (pc.Stopping? ==> NoneWaiting(s.host))
    requires NFT_TABLE in rs ==> rs[NFT_TABLE] == TORT_TABLE
    requires pc.Verifying? ==> NFT_TABLE in rs && s.host.net.named.Some?
    requires BuiltAsFar(pc, s.host.net)
    ensures var t := State(pc, s.host.(tables := rs)); Inv(t) && Settled(t)
  {
  }

  lemma NftKeeps(s: State, ev: Event, t: State)
    requires Inv(s) && (ev == Applied(true) || ev == Removed(true))
    requires Control(s.pc, ev) == Some(t.pc) && Effect(s.host, ev, t.host)
    ensures Inv(t) && Settled(t)
  {
    ApplyFromAnyState(s.host.tables);
    RemoveFromAnyState(s.host.tables);
    TablesChangeKeep(s, t.host.tables, t.pc);
  }

  /** Events that move the daemon and leave network, tables and processes alone. */
  predicate OnlyMoves(ev: Event) {
    match ev
    case Ip(_, ok) => !ok
    case Applied(ok) => !ok
    case Removed(ok) => !ok
    case Destroyed(ok) => !ok
    case Forked(pid) => pid.None?
    case _ => true
  }

  /** What a host must be like for the daemon to be at a place. */
  ghost predicate Allows(h: Host, pc: Pc) {
    && (Quiet(pc) ==> NoPrograms(h))
    && (pc.RunReady? || pc.Verifying? ==> h.net.named.Some? && NFT_TABLE in h.tables)
    && BuiltAsFar(pc, h.net)
    && (pc.Stopping? ==> NoneWaiting(h))
  }

  lemma MoveKeeps(s: State, tor: bool, pc: Pc)
    requires Inv(s) && Allows(s.host, pc)
    ensures Inv(State(pc, s.host.(tor := tor))) && Settled(State(pc, s.host.(tor := tor)))
  {
  }

  lemma NoProgramsNoneWaiting(h: Host)
    requires NoPrograms(h)
    ensures NoneWaiting(h)
  {
  }

  lemma MovesBuilt(h: Host, pc: Pc, ev: Event, pc': Pc)
    requires NetInv(h.net) && BuiltAsFar(pc, h.net) && OnlyMoves(ev) && Control(pc, ev) == Some(pc')
    requires ev.SawNamespace? ==> (ev.present <==> h.net.named.Some?)
    ensures BuiltAsFar(pc', h.net)
  {
  }

  /** A quiet stretch is entered where no program can be in the tunnel, and a Down where none
      is on its way in. */
  lemma MovesQuiet(h: Host, pc: Pc, ev: Event, pc': Pc)
    requires Guarded(h) && (Quiet(pc) ==> NoPrograms(h)) && (pc.Stopping? ==> NoneWaiting(h))
    requires OnlyMoves(ev) && Control(pc, ev) == Some(pc') && (BeginsDown(ev) ==> NoneWaiting(h))
    requires ev.SawNamespace? ==> (ev.present <==> h.net.named.Some?)
    requires ev.Listed? && ev.pids.Some? ==> ev.pids.value == PidsInside(h)
    ensures (Quiet(pc') ==> NoPrograms(h)) && (pc'.Stopping? ==> NoneWaiting(h))
  {
    if ev == Listed(Some({})) {
      EmptyListing(h);
    }
    if NoPrograms(h) {
      NoProgramsNoneWaiting(h);
    }
  }

  /** What looking at the host tells the daemon is so. */
  lemma LooksAreTrue(h: Host, ev: Event, h': Host)
    requires Effect(h, ev, h')
    ensures ev.SawNamespace? ==> (ev.present <==> h.net.named.Some?)
    ensures ev.Listed? && ev.pids.Some? ==> ev.pids.value == PidsInside(h)
  {
  }

  lemma MovesAllow(s: State, ev: Event, t: State)
    requires Inv(s) && Settled(s) && OnlyMoves(ev) && Next(true, s, Daemon(ev), t)
    ensures Allows(s.host, t.pc)
  {
    LooksAreTrue(s.host, ev, t.host);
    MovesBuilt(s.host, s.pc, ev, t.pc);
    MovesQuiet(s.host, s.pc, ev, t.pc);
  }

  lemma MovesKeep(s: State, ev: Event, t: State)
    requires Inv(s) && Settled(s) && OnlyMoves(ev) && Next(true, s, Daemon(ev), t)
    ensures Inv(t) && Settled(t)
  {
    MovesAllow(s, ev, t);
    MoveKeeps(s, t.host.tor, t.pc);
  }

  lemma ForkKeeps(h: Host, pid: nat)
    requires Inv(State(RunReady, h)) && pid !in h.procs
    ensures var t := State(Idle, h.(procs := h.procs[pid := Waiting(Program)])); Inv(t) && Settled(t)
  {
  }

  lemma DaemonKeeps(s: State, ev: Event, t: State)
    requires Inv(s) && Settled(s) && Next(true, s, Daemon(ev), t)
    ensures Inv(t) && Settled(t)
  {
    if OnlyMoves(ev) {
      MovesKeep(s, ev, t);
    } else {
      match ev
      case Ip(cmd, _) => IpKeeps(s, cmd, t.pc);
      case Destroyed(_) => DestroyKeeps(s, t.pc);
      case Applied(_) => NftKeeps(s, ev, t);
      case Removed(_) => NftKeeps(s, ev, t);
      case Forked(pid) => ForkKeeps(s.host, pid.value);
    }
  }

  lemma StepKeeps(s: State, l: Label, t: State)
    requires Inv(s) && Settled(s) && Next(true, s, l, t)
    ensures Inv(t) && Settled(t)
  {
    match l
    case Daemon(ev) => DaemonKeeps(s, ev, t);
    case Other(o) => HappeningKeeps(s, o);
    case Killed(_, _) =>
  }

  /** The invariant holds from any state where it does. */
  least lemma RunKeepsFrom[nat](s: State, t: State)
    requires Reaches(true, s, t)
    requires Inv(s) && Settled(s)
    ensures Inv(t) && Settled(t)
  {
    if s != t {
      var r, l :| Reaches#[_k - 1](true, s, r) && Next(true, r, l, t);
      RunKeepsFrom#[_k - 1](s, r);
      StepKeeps(r, l, t);
    }
  }

  /** The invariant holds in every state of every run. */
  lemma RunKeeps(s: State, t: State)
    requires Reaches(true, s, t) && Init(s)
    ensures Inv(t) && Settled(t)
  {
    InitInv(s);
    RunKeepsFrom(s, t);
  }
}
