/** The kernel as the daemon drives it: one method a command, each able to fail, with
    everything else on the host let in before it takes effect. Every method moves the state
    machine of `Lifecycle` along, so whatever the daemon's code does is one of its runs. */
module Kernel {
  import opened Options
  import opened Verdicts
  import opened Config
  import opened Network
  import opened Tables
  import opened Lifecycle

  datatype Failure =
    | NotInstalled | AlreadyExists | CommandFailed | TorFailed | RulesRejected | RulesStay | NamespaceStays
    | ListingFailed | StillRunning | NoProbe | NotSafe(verdict: Verdict)

  datatype Outcome = Pass | Fail(why: Failure)

  /** What others can have done to a host behind the daemon's back. */
  ghost predicate Undisturbed(h: Host, h': Host) {
    && h'.tables == h.tables && (h'.tor ==> h.tor)
    && h'.net.named == h.net.named && (h'.net.peer == h.net.peer || h'.net.peer == None)
  }

  lemma HappeningDisturbsNothing(h: Host, o: Happening)
    requires CanHappen(h, o)
    ensures Undisturbed(h, Happen(h, o)) && (NoneWaiting(h) ==> NoneWaiting(Happen(h, o)))
  {
  }

  /** How far the daemon has come with a host, and how often it has acted on it. */
  datatype Point = Point(host: Host, log: seq<Event>, acts: nat)

  /** Others have had their way, and the daemon has not acted. */
  ghost predicate OnlyLooked(a: Point, b: Point) {
    Undisturbed(a.host, b.host) && b.acts == a.acts && a.log <= b.log
  }

  /** Since then the daemon has done something, and this last. */
  ghost predicate JustDid(before: seq<Event>, after: seq<Event>, ev: Event) {
    before <= after && |before| < |after| && after[|after| - 1] == ev
  }

  /** It did this at some time since then. */
  ghost predicate Since(before: seq<Event>, after: seq<Event>, ev: Event) {
    exists i :: |before| <= i < |after| && after[i] == ev
  }

  /** The fault count when the daemon last turned back, after one more step. */
  ghost function Mark(from: Pc, to: Pc, faults: nat, back: nat): nat { if TurnsBack(from, to) then faults else back }

  /** Where stopping tor leads on to. */
  function PastTor(pc: Pc): Pc {
    match pc
    case UndoTor => UndoNs
    case DownTor(why) => DownNs(why)
    case _ => pc
  }

  class Machine {
    var host: Host
    var now: nat
    /** Whether the namespace's resolver file is there. */
    var resolver: bool
    ghost var pc: Pc
    ghost var log: seq<Event>
    /** How many of those changed the host. */
    ghost var acts: nat
    /** How often a command failed that the kernel had not refused. */
    ghost var faults: nat
    /** How often a clean-up failed that the code does not ask about. */
    ghost var ignored: nat
    /** What the count of faults was when the daemon last turned back. */
    ghost var back: nat
    /** The host as the last command found it. */
    ghost var seen: Host
    ghost const origin: State

    constructor (h: Host)
      requires Init(State(Dead, h))
      ensures Valid() && host == h && pc == Dead && log == [] && faults == 0
    {
      host, now, pc, log, acts, faults, back, seen := h, 0, Dead, [], 0, 0, 0, h;
      resolver, ignored := false, 0;
      origin := State(Dead, h);
    }

    ghost function Here(): State
      reads this
    {
      State(pc, host)
    }

    ghost function Now(): Point
      reads this`host, this`log, this`acts
    {
      Point(host, log, acts)
    }

    /** The machine has come here from an initial state, step by step. */
    ghost predicate Valid()
      reads this
    {
      Init(origin) && Reaches(true, origin, Here())
    }

    lemma Invariant()
      requires Valid()
      ensures Inv(Here()) && Settled(Here())
    {
      RunKeeps(origin, Here());
    }

    lemma VerifyingStands()
      requires Valid() && pc == Verifying
      ensures host.net.named.Some? && NFT_TABLE in host.tables
    {
      Invariant();
    }

    lemma ReadyStands()
      requires Valid() && pc == RunReady
      ensures host.net.named.Some? && NFT_TABLE in host.tables
    {
      Invariant();
    }

    lemma ServingIsBuilt()
      requires Valid() && pc == StartTor
      ensures Built(host.net, |SCRIPT|)
    {
      Invariant();
    }

    ghost predicate Can(ev: Event)
      reads this
    {
      Control(pc, ev).Some?
    }

    /** Count an event of the daemon that has just taken effect. */
    ghost method Did(ev: Event, before: Host)
      requires Init(origin) && Reaches(true, origin, State(pc, before))
      requires Can(ev) && Effect(before, ev, host) && (BeginsDown(ev) ==> NoneWaiting(before))
      modifies this`pc, this`log, this`acts, this`back
      ensures Valid() && Control(old(pc), ev) == Some(pc) && log == old(log) + [ev]
      ensures acts == old(acts) + (if Acts(ev) then 1 else 0) && back == Mark(old(pc), pc, faults, old(back))
    {
      var s, t := State(pc, before), State(Control(pc, ev).value, host);
      ReachesNext(true, origin, s, Daemon(ev), t);
      back := Mark(pc, t.pc, faults, back);
      pc := t.pc;
      log := log + [ev];
      acts := acts + (if Acts(ev) then 1 else 0);
    }

    /** One thing happens that is not the daemon's doing. */
    method Happens(o: Happening)
      requires Valid() && CanHappen(host, o)
      modifies this`host
      ensures Valid() && host == Happen(old(host), o)
    {
      ReachesNext(true, origin, Here(), Other(o), State(pc, Happen(host, o)));
      host := Happen(host, o);
    }

    /** Time passes, and programs, probes, tor and the kernel do what they do. */
    method Meanwhile()
      requires Valid()
      modifies this`host, this`now
      ensures Valid() && Undisturbed(old(host), host) && old(now) <= now
      ensures NoneWaiting(old(host)) ==> NoneWaiting(host)
    {
      var n: int := *;
      while n > 0
        invariant Valid() && Undisturbed(old(host), host) && old(now) <= now
        invariant NoneWaiting(old(host)) ==> NoneWaiting(host)
      {
        var o: Happening := *;
        var d: int := *;
        now := if d > 0 then now + d else now;
        if CanHappen(host, o) {
          HappeningDisturbsNothing(host, o);
          Happens(o);
        }
        n := n - 1;
      }
    }

    /** The same, where it does not matter who is on the way in. */
    method Others()
      requires Valid()
      modifies this`host, this`now
      ensures Valid() && Undisturbed(old(host), host) && old(now) <= now
    {
      Meanwhile();
    }

    /** Killed, and started again by the service manager. */
    method Restart(survivors: set<nat>, tor: bool)
      requires Valid()
      modifies this
      ensures Valid() && pc == Starting && host.net == old(host.net) && host.tables == old(host.tables)
      ensures host.procs == map pid | pid in old(host.procs) && pid in survivors :: old(host.procs)[pid]
      ensures now == old(now)
      ensures faults == old(faults) && log == old(log) + [Restarted]
    {
      var h := host.(tor := host.tor && tor,
                     procs := map pid | pid in host.procs && pid in survivors :: host.procs[pid]);
      ReachesNext(true, origin, Here(), Killed(survivors, tor), State(Dead, h));
      host := h;
      pc := Dead;
      Did(Restarted, host);
    }

    /** An `ip` command of the creation or its rollback. */
    method RunIp(cmd: Cmd) returns (r: Outcome)
      requires Valid() && Can(Ip(cmd, true)) && Can(Ip(cmd, false))
      modifies this
      ensures Valid() && Control(old(pc), Ip(cmd, r.Pass?)) == Some(pc) && log == old(log) + [Ip(cmd, r.Pass?)]
      ensures Undisturbed(old(host), seen) && old(faults) <= faults
      ensures NetInv(seen.net) && BuiltAsFar(old(pc), seen.net)
      ensures r.Pass? ==> Exec(seen.net, cmd).Some? && host == seen.(net := Exec(seen.net, cmd).value)
      ensures r.Fail? ==> host == seen && (faults == old(faults) ==> Exec(seen.net, cmd) == None)
      ensures r.Pass? ==> faults == old(faults)
      ensures back == Mark(old(pc), pc, faults, old(back))
    {
      Look();
      var fault: bool := *;
      var result := Exec(host.net, cmd);
      if fault || result.None? {
        faults := if result.Some? then faults + 1 else faults;
        Refuse(cmd);
        return Fail(CommandFailed);
      }
      Accept(cmd, result.value);
      return Pass;
    }

    /** The host as a command is about to find it. */
    method Look()
      requires Valid()
      modifies this`host, this`now, this`seen
      ensures Valid() && Undisturbed(old(host), host) && seen == host
      ensures NetInv(seen.net) && BuiltAsFar(pc, seen.net)
    {
      Others();
      seen := host;
      Invariant();
    }

    /** An `ip` command fails, and changes nothing. */
    method Refuse(cmd: Cmd)
      requires Valid() && Can(Ip(cmd, false))
      modifies this`pc, this`log, this`acts, this`back
      ensures Valid() && Control(old(pc), Ip(cmd, false)) == Some(pc) && log == old(log) + [Ip(cmd, false)]
      ensures back == Mark(old(pc), pc, faults, old(back))
    {
      Did(Ip(cmd, false), host);
    }

    /** The kernel does what an `ip` command asks. */
    method Accept(cmd: Cmd, n: Net)
      requires Valid() && Can(Ip(cmd, true)) && Exec(host.net, cmd) == Some(n)
      modifies this`host, this`pc, this`log, this`acts, this`back
      ensures Valid() && host == old(host).(net := n)
      ensures Control(old(pc), Ip(cmd, true)) == Some(pc) && log == old(log) + [Ip(cmd, true)]
      ensures back == Mark(old(pc), pc, faults, old(back))
    {
      ghost var before := host;
      host := host.(net := n);
      Did(Ip(cmd, true), before);
    }

    /** Whether the namespace's name is there. */
    method NamespaceExists() returns (present: bool)
      requires Valid() && pc == CreateCheck
      modifies this
      ensures Valid() && Undisturbed(old(host), host) && faults == old(faults)
      ensures present <==> host.net.named.Some?
      ensures pc == (if present then Idle else Creating(0)) && acts == old(acts) && back == old(back)
      ensures log == old(log) + [SawNamespace(present)]
    {
      Others();
      present := host.net.named.Some?;
      Did(SawNamespace(present), host);
    }

    /** The sysctl in the namespace, which may fail and is not asked. IPv4 sees nothing of it. */
    method DisableIpv6() returns (ghost ok: bool)
      requires Valid() && pc == Creating(|SCRIPT|)
      modifies this
      ensures Valid() && Undisturbed(old(host), host) && faults == old(faults) && pc == old(pc) && back == old(back)
      ensures log == old(log) + [DisabledIpv6(ok)]
    {
      Others();
      var works: bool := *;
      ok := works;
      Did(DisabledIpv6(works), host);
    }

    method WriteResolvConf() returns (r: Outcome)
      requires Valid() && pc == Creating(|SCRIPT|)
      modifies this
      ensures Valid() && Undisturbed(old(host), host) && old(faults) <= faults
      ensures pc == (if r.Pass? then StartTor else RollbackNs) && back == (if r.Pass? then old(back) else faults)
      ensures log == old(log) + [WroteResolvConf(r.Pass?)]
      ensures r.Pass? ==> resolver
      ensures r.Fail? <==> old(faults) < faults
    {
      Others();
      var fault: bool := *;
      faults := if fault then faults + 1 else faults;
      resolver := resolver || !fault;
      ReportResolver(!fault);
      r := if fault then Fail(CommandFailed) else Pass;
    }

    method ReportResolver(ok: bool)
      requires Valid() && pc == Creating(|SCRIPT|)
      modifies this`pc, this`log, this`acts, this`back
      ensures Valid() && pc == (if ok then StartTor else RollbackNs) && log == old(log) + [WroteResolvConf(ok)]
      ensures back == if ok then old(back) else faults
    {
      Did(WroteResolvConf(ok), host);
    }

    /** `ip netns delete`, when the name is there. */
    method DeleteNamespace() returns (r: Outcome)
      requires Valid() && (pc == UndoNs || pc.DownNs?)
      modifies this
      ensures Valid() && pc == Idle && back == old(back) && log == old(log) + [Destroyed(r.Pass?)]
      ensures resolver == old(resolver) && ignored == old(ignored)
      ensures host.tables == old(host.tables) && (host.tor ==> old(host.tor))
      ensures r.Pass? ==> host.net.named == None && faults == old(faults)
      ensures r.Fail? ==> Undisturbed(old(host), host) && old(host.net.named).Some? && old(faults) < faults
                          && r.why == NamespaceStays
    {
      Others();
      var fault: bool := *;
      if host.net.named.Some? && fault {
        faults := faults + 1;
        NameStays();
        return Fail(NamespaceStays);
      }
      NameGoes();
      return Pass;
    }

    /** Remove the resolver file and its directory; that this fails is not asked. */
    method RemoveResolver()
      requires Valid()
      modifies this`resolver, this`ignored
      ensures Valid() && old(ignored) <= ignored && (ignored == old(ignored) ==> !resolver)
    {
      var fault: bool := *;
      ignored := if resolver && fault then ignored + 1 else ignored;
      resolver := resolver && fault;
    }

    method NameStays()
      requires Valid() && (pc == UndoNs || pc.DownNs?)
      modifies this`pc, this`log, this`acts, this`back
      ensures Valid() && pc == Idle && log == old(log) + [Destroyed(false)] && back == old(back)
    {
      Did(Destroyed(false), host);
    }

    method NameGoes()
      requires Valid() && (pc == UndoNs || pc.DownNs?)
      modifies this`host, this`pc, this`log, this`acts, this`back
      ensures Valid() && pc == Idle && log == old(log) + [Destroyed(true)] && back == old(back)
      ensures host == old(host).(net := old(host.net).(named := None))
    {
      ghost var before := host;
      host := host.(net := host.net.(named := None));
      Did(Destroyed(true), before);
    }

    /** `nft -f -` with one of the two scripts. */
    method RunNft(apply: bool) returns (r: Outcome)
      requires Valid() && if apply then pc == Applying else pc.DownRules?
      modifies this
      ensures Valid() && host.net.named == old(host.net.named)
      ensures log == old(log) + [if apply then Applied(r.Pass?) else Removed(r.Pass?)]
      ensures pc == if !apply then DownTor(old(pc).why) else if r.Pass? then Verifying else UndoTor
      ensures back == if apply && r.Fail? then faults else old(back)
      ensures r.Pass? ==> faults == old(faults)
                          && Transaction(old(host.tables), if apply then APPLY else REMOVE) == Some(host.tables)
      ensures r.Fail? ==> Undisturbed(old(host), host) && old(faults) < faults
                          && r.why == (if apply then RulesRejected else RulesStay)
      ensures (host.tor ==> old(host.tor))
    {
      Others();
      var fault: bool := *;
      if fault {
        faults := faults + 1;
        if apply { NotApplied(); } else { NotRemoved(); }
        return Fail(if apply then RulesRejected else RulesStay);
      }
      if apply { Apply(); } else { Remove(); }
      return Pass;
    }

    method NotApplied()
      requires Valid() && pc == Applying
      modifies this`pc, this`log, this`acts, this`back
      ensures Valid() && pc == UndoTor && log == old(log) + [Applied(false)] && back == faults
    {
      Did(Applied(false), host);
    }

    method NotRemoved()
      requires Valid() && pc.DownRules?
      modifies this`pc, this`log, this`acts, this`back
      ensures Valid() && pc == DownTor(old(pc).why) && log == old(log) + [Removed(false)] && back == old(back)
    {
      Did(Removed(false), host);
    }

    method Apply()
      requires Valid() && pc == Applying
      modifies this`host, this`pc, this`log, this`acts, this`back
      ensures Valid() && pc == Verifying && log == old(log) + [Applied(true)] && back == old(back)
      ensures Transaction(old(host.tables), APPLY).Some?
      ensures host == old(host).(tables := Transaction(old(host.tables), APPLY).value)
    {
      ghost var before := host;
      ApplyFromAnyState(host.tables);
      host := host.(tables := Transaction(host.tables, APPLY).value);
      Did(Applied(true), before);
    }

    method Remove()
      requires Valid() && pc.DownRules?
      modifies this`host, this`pc, this`log, this`acts, this`back
      ensures Valid() && pc == DownTor(old(pc).why) && log == old(log) + [Removed(true)] && back == old(back)
      ensures Transaction(old(host.tables), REMOVE).Some?
      ensures host == old(host).(tables := Transaction(old(host.tables), REMOVE).value)
    {
      ghost var before := host;
      RemoveFromAnyState(host.tables);
      host := host.(tables := Transaction(host.tables, REMOVE).value);
      Did(Removed(true), before);
    }

    method TorInstalled() returns (installed: bool)
      requires Valid() && pc == UpWanted
      modifies this
      ensures Valid() && Undisturbed(old(host), host) && faults == old(faults)
      ensures pc == (if installed then CreateCheck else Idle) && back == old(back)
      ensures log == old(log) + [SawTorInstalled(installed)]
      ensures acts == old(acts)
    {
      Others();
      installed := *;
      SawWhetherInstalled(installed);
    }

    method SawWhetherInstalled(installed: bool)
      requires Valid() && pc == UpWanted
      modifies this`pc, this`log, this`acts, this`back
      ensures Valid() && pc == (if installed then CreateCheck else Idle) && back == old(back) && acts == old(acts)
      ensures log == old(log) + [SawTorInstalled(installed)]
    {
      Did(SawTorInstalled(installed), host);
    }

    /** Whether a process of tort's tor is listed. */
    method ListTor() returns (running: bool)
      requires Valid() && pc == StartTor
      modifies this`host, this`now, this`pc, this`log, this`acts, this`back
      ensures Valid() && pc == StartTor && Undisturbed(old(host), host) && old(now) <= now && back == old(back)
      ensures running == host.tor && log == old(log) + [SawTor(running)]
    {
      Others();
      running := host.tor;
      Did(SawTor(running), host);
    }

    /** Prepare tor's files and spawn it. It may be left running by a failure. */
    method SpawnTor() returns (ok: bool, ghost at: nat)
      requires Valid() && pc == StartTor
      modifies this`host, this`now, this`pc, this`log, this`acts, this`back
      ensures Valid() && pc == StartTor && log == old(log) + [SpawnedTor(ok, at)] && at == now && old(now) <= now
      ensures host.tables == old(host.tables) && host.net.named == old(host.net.named) && back == old(back)
    {
      Others();
      ghost var before := host;
      ok := *;
      at := now;
      var running: bool := *;
      host := host.(tor := running);
      Did(SpawnedTor(ok, now), before);
    }

    /** Say how the start went; a failure is a fault. */
    method ReportTor(ok: bool) returns (ghost at: nat)
      requires Valid() && pc == StartTor
      modifies this`pc, this`log, this`acts, this`back, this`faults
      ensures Valid() && pc == (if ok then Applying else UndoTor) && log == old(log) + [StartedTor(ok, at)] && at == now
      ensures faults == old(faults) + (if ok then 0 else 1) && back == (if ok then old(back) else faults)
    {
      faults := if ok then faults else faults + 1;
      at := now;
      SayTorStarted(ok);
    }

    method SayTorStarted(ok: bool)
      requires Valid() && pc == StartTor
      modifies this`pc, this`log, this`acts, this`back
      ensures Valid() && pc == (if ok then Applying else UndoTor) && log == old(log) + [StartedTor(ok, now)]
      ensures back == if ok then old(back) else faults
    {
      Did(StartedTor(ok, now), host);
    }

    /** Read tor's log. */
    method ReadTorLog() returns (progress: Progress)
      requires Valid() && pc == StartTor
      modifies this`pc, this`log, this`acts, this`back
      ensures Valid() && pc == StartTor && log == old(log) + [SawTorLog(progress)] && back == old(back)
    {
      progress := *;
      Did(SawTorLog(progress), host);
    }

    /** Send tor's processes SIGTERM; they end in their own time. */
    method AskTor()
      requires Valid() && (pc == StartTor || pc == UndoTor || pc.DownTor?)
      modifies this`pc, this`log, this`acts, this`back
      ensures Valid() && pc == old(pc) && log == old(log) + [AskedTor] && back == old(back)
    {
      Did(AskedTor, host);
    }

    /** Send what is left of tor SIGKILL, if it was asked to end. Nothing is reported; `killed`
        says whether anything was left, and `gone` what came of it. */
    method KillTor(asked: bool) returns (ghost killed: bool, ghost gone: bool)
      requires Valid() && (pc == StartTor || pc == UndoTor || pc.DownTor?) && (!asked ==> !host.tor)
      modifies this`host, this`now, this`pc, this`log, this`acts, this`back, this`faults
      ensures Valid() && Undisturbed(old(host), host) && old(faults) <= faults && old(now) <= now
      ensures pc == PastTor(old(pc)) && log == old(log) + [StoppedTor(asked, killed, gone)]
      ensures (gone <==> faults == old(faults)) && (gone <==> !host.tor)
      ensures (killed ==> old(host.tor)) && (!killed ==> gone)
      ensures back == old(back)
    {
      Others();
      var fault: bool := *;
      killed := host.tor;
      gone := !(host.tor && fault);
      if host.tor && fault {
        faults := faults + 1;
        TorStays(asked);
      } else {
        TorGoes(asked);
      }
    }

    method TorStays(asked: bool)
      requires Valid() && (pc == StartTor || pc == UndoTor || pc.DownTor?) && host.tor
      modifies this`pc, this`log, this`acts, this`back
      ensures Valid() && pc == PastTor(old(pc)) && back == old(back)
      ensures log == old(log) + [StoppedTor(asked, true, false)]
    {
      Did(StoppedTor(asked, true, false), host);
    }

    method TorGoes(asked: bool)
      requires Valid() && (pc == StartTor || pc == UndoTor || pc.DownTor?)
      modifies this`host, this`pc, this`log, this`acts, this`back
      ensures Valid() && pc == PastTor(old(pc)) && back == old(back)
      ensures log == old(log) + [StoppedTor(asked, old(host.tor), true)] && host == old(host).(tor := false)
    {
      ghost var before := host;
      host := host.(tor := false);
      Did(StoppedTor(asked, before.tor, true), before);
    }

    /** Take up a request. */
    method Ask(ev: Event)
      requires Valid() && pc == Idle && ev in {AskedUp, AskedDown, AskedRun} && (ev == AskedDown ==> NoneWaiting(host))
      modifies this`pc, this`log, this`acts, this`back
      ensures Valid() && Take(ev) == Some(pc) && log == old(log) + [ev] && acts == old(acts)
      ensures back == if ev == AskedDown then faults else old(back)
    {
      Did(ev, host);
    }

    /** Go on from what `is_up` said. */
    method SawWhetherUp(up: bool)
      requires Valid() && (pc == UpAsked || pc == RunAsked) && (up ==> IsUp(host))
      modifies this`pc, this`log, this`acts, this`back
      ensures Valid() && log == old(log) + [SawUp(up)] && acts == old(acts) && back == old(back)
      ensures pc == if old(pc) == RunAsked then (if up then RunReady else Idle) else if up then Idle else UpWanted
    {
      Did(SawUp(up), host);
    }

    /** Go on from what start-up found. */
    method SawWhetherPartial(partial: bool)
      requires Valid() && pc == Starting
      requires partial ==> NoneWaiting(host) && (host.net.named.Some? || NFT_TABLE in host.tables)
      modifies this`pc, this`log, this`acts, this`back
      ensures Valid() && pc == (if partial then Stopping(Cleanup, false) else Idle) && acts == old(acts)
      ensures log == old(log) + [SawLeftovers(partial)]
      ensures back == if partial then faults else old(back)
    {
      Did(SawLeftovers(partial), host);
    }

    /** Fork nothing for a request that cannot be served. */
    method ForkNothing()
      requires Valid() && pc == RunReady
      modifies this`pc, this`log, this`acts, this`back
      ensures Valid() && pc == Idle && log == old(log) + [Forked(None)]
    {
      Did(Forked(None), host);
    }

    /** The three parts of `is_up`, read one after the other. A table that cannot be listed
        and processes that cannot be read count as absent. */
    method ReadUp() returns (up: bool)
      requires Valid()
      modifies this`host, this`now, this`faults
      ensures Valid() && Undisturbed(old(host), host) && old(faults) <= faults
      ensures old(now) <= now
      ensures NoneWaiting(old(host)) ==> NoneWaiting(host)
      ensures up ==> IsUp(host)
      ensures !up && faults == old(faults) ==> !IsUp(host)
    {
      Meanwhile();
      up := host.net.named.Some?;
      if up {
        up := ReadTable();
      }
      if up {
        Meanwhile();
        var fault: bool := *;
        up := host.tor && !fault;
        faults := if host.tor && fault then faults + 1 else faults;
      }
    }

    /** Whether `nft list table` finds tort's table. */
    method ReadTable() returns (installed: bool)
      requires Valid()
      modifies this`host, this`now, this`faults
      ensures Valid() && Undisturbed(old(host), host) && old(faults) <= faults
      ensures old(now) <= now
      ensures NoneWaiting(old(host)) ==> NoneWaiting(host)
      ensures installed ==> NFT_TABLE in host.tables
      ensures faults == old(faults) ==> (installed <==> NFT_TABLE in host.tables)
    {
      Meanwhile();
      var fault: bool := *;
      installed := NFT_TABLE in host.tables && !fault;
      faults := if NFT_TABLE in host.tables && fault then faults + 1 else faults;
    }

    /** `ip netns pids`, when the name is there. */
    method ListPids() returns (pids: Option<set<nat>>)
      requires Valid() && pc.Stopping?
      modifies this`host, this`now, this`pc, this`log, this`acts, this`back, this`faults
      ensures Valid() && Undisturbed(old(host), host) && old(now) <= now
      ensures pc == (if pids.None? then Idle else Stopping(old(pc).why, pids.value == {}))
      ensures log == old(log) + [Listed(pids)] && acts == old(acts) && back == old(back)
      ensures pids.Some? ==> pids.value == PidsInside(host)
      ensures old(faults) <= faults && (pids.None? <==> old(faults) < faults)
    {
      Others();
      var fault: bool := *;
      pids := if host.net.named.Some? && fault then None else Some(PidsInside(host));
      faults := if pids.None? then faults + 1 else faults;
      SawListing(pids);
    }

    method SawListing(pids: Option<set<nat>>)
      requires Valid() && pc.Stopping? && (pids.Some? ==> pids.value == PidsInside(host))
      modifies this`pc, this`log, this`acts, this`back
      ensures Valid() && pc == (if pids.None? then Idle else Stopping(old(pc).why, pids.value == {}))
      ensures log == old(log) + [Listed(pids)] && acts == old(acts) && back == old(back)
    {
      Did(Listed(pids), host);
    }

    /** Send a signal to each; a process ends in its own time. */
    method SendSignal(sig: Signal, pids: set<nat>)
      requires Valid() && pc.Stopping? && pids == PidsInside(host)
      modifies this`pc, this`log, this`acts, this`back
      ensures Valid() && pc == old(pc) && acts == old(acts) && back == old(back)
      ensures log == old(log) + [Signalled(sig, pids, now)]
    {
      Did(Signalled(sig, pids, now), host);
    }

    /** Proceed with the teardown. */
    method Proceed()
      requires Valid() && pc.Stopping? && pc.empty
      modifies this`pc, this`log, this`acts, this`back
      ensures Valid() && pc == DownRules(old(pc).why) && acts == old(acts) && back == old(back)
      ensures log == old(log) + [Stopped]
    {
      Did(Stopped, host);
    }

    /** Give up on the teardown. */
    method GiveUp()
      requires Valid() && pc.Stopping?
      modifies this`pc, this`log, this`acts, this`back
      ensures Valid() && pc == Idle && acts == old(acts) && back == old(back)
      ensures log == old(log) + [GaveUp(now)]
    {
      Did(GaveUp(now), host);
    }

    /** Sleep for at least `d`. */
    method Sleep(d: nat)
      requires Valid()
      modifies this`host, this`now
      ensures Valid() && Undisturbed(old(host), host) && old(now) + d <= now
    {
      now := now + d;
      Others();
    }

    /** Fork a child that will enter the namespace; `None` when it could not be forked. */
    method Fork() returns (child: Option<nat>)
      requires Valid() && pc == RunReady
      modifies this
      ensures Valid() && pc == Idle && host.net.named.Some? && NFT_TABLE in host.tables
      ensures old(faults) <= faults && (child.None? ==> old(faults) < faults)
      ensures child.Some? ==> child.value in host.procs && host.procs[child.value] == Waiting(Program)
      ensures log == old(log) + [Forked(child)]
    {
      Others();
      ReadyStands();
      ghost var before := host;
      var pid: int := *;
      if pid < 0 || pid in host.procs {
        faults := faults + 1;
        Did(Forked(None), before);
        return None;
      }
      host := host.(procs := host.procs[pid := Waiting(Program)]);
      Did(Forked(Some(pid)), before);
      return Some(pid);
    }

    /** Run the check inside the namespace; `None` when its process could not be run. */
    method RunProbe() returns (outcome: Option<Verdict>)
      requires Valid() && pc == Verifying
      modifies this
      ensures Valid() && Undisturbed(old(host), host) && faults == old(faults)
      ensures pc == Judge(outcome) && log == old(log) + [Probed(outcome)]
      ensures back == if pc == Idle then old(back) else faults
    {
      Others();
      outcome := *;
      Did(Probed(outcome), host);
    }
  }
}
