/** Where the promises end: when exactly a Down can leave a program without rules, and how a
    tunnel can be left standing that nobody verified. */
module Limits {
  import opened Options
  import opened Config
  import opened Network
  import opened Packets
  import opened Tables
  import opened Lifecycle

  /** The daemon does something that does not change the host. */
  lemma DaemonMoves(patient: bool, s0: State, h: Host, pc: Pc, ev: Event, pc': Pc)
    requires Reaches(patient, s0, State(pc, h)) && Control(pc, ev) == Some(pc') && Lifecycle.Effect(h, ev, h)
    requires patient && BeginsDown(ev) ==> NoneWaiting(h)
    ensures Reaches(patient, s0, State(pc', h))
  {
    ReachesNext(patient, s0, State(pc, h), Daemon(ev), State(pc', h));
  }

  // ------------------------------------------------------------ without patience

  /** A program is in a tunnel without rules. */
  ghost predicate Bare(h: Host) {
    NFT_TABLE !in h.tables && exists pid :: pid in h.procs && h.procs[pid].kind == Program && h.procs[pid].Inside?
  }

  /** From the moment a Down begins on this host, things can go so that one is: even with
      every other Down as patient as can be. */
  ghost predicate CanBare(h: Host, why: Why) {
    exists t :: Reaches(true, State(Stopping(why, false), h), t) && Bare(t.host)
  }

  /** Just when a Down, or the clean-up of a restarted daemon, leaves a program without rules:
      exactly when it begins while a forked child has yet to enter. */
  lemma LeaksExactly(h: Host, why: Why)
    requires Inv(State(Idle, h)) && why != NotVerified
    ensures CanBare(h, why) <==> !NoneWaiting(h)
  {
    if NoneWaiting(h) {
      forall t | Reaches(true, State(Stopping(why, false), h), t) ensures !Bare(t.host) {
        RunKeepsFrom(State(Stopping(why, false), h), t);
      }
    } else {
      var pid :| pid in h.procs && h.procs[pid] == Waiting(Program);
      var bare := Leak(State(Stopping(why, false), h), h, why, pid);
    }
  }

  /** The run that does it: what is inside ends, nothing is listed, the rules go, and the
      child enters. */
  lemma Leak(s0: State, h: Host, why: Why, pid: nat) returns (t: State)
    requires Reaches(true, s0, State(Stopping(why, false), h))
    requires pid in h.procs && h.procs[pid] == Waiting(Program) && h.net.named.Some?
    ensures Reaches(true, s0, t) && Bare(t.host)
  {
    var empty := AllExit(true, s0, State(Stopping(why, false), h), pid);
    ListsNothing(true, s0, empty, Stopping(why, false), Stopping(why, true));
    Proceeds(true, s0, empty, Stopping(why, true));
    var bare := RulesGo(true, s0, empty, why);
    t := LetIn(true, s0, bare, why, pid);
    assert t.host.procs[pid].Inside? && t.host.procs[pid].kind == Program;
  }

  /** Everything inside may end by itself while a child is still on its way. */
  lemma AllExit(patient: bool, s0: State, s: State, pid: nat) returns (h: Host)
    requires Reaches(patient, s0, s) && pid in s.host.procs && s.host.procs[pid] == Waiting(Program)
    ensures Reaches(patient, s0, State(s.pc, h)) && PidsInside(h) == {}
    ensures h.net == s.host.net && h.tables == s.host.tables
    ensures pid in h.procs && h.procs[pid] == Waiting(Program)
    decreases |PidsInside(s.host)|
  {
    h := s.host;
    if PidsInside(h) != {} {
      var one :| one in PidsInside(h);
      var next := State(s.pc, Happen(h, Exits(one)));
      ReachesNext(patient, s0, s, Other(Exits(one)), next);
      assert PidsInside(next.host) == PidsInside(h) - {one};
      h := AllExit(patient, s0, next, pid);
    }
  }

  lemma ListsNothing(patient: bool, s0: State, h: Host, pc: Pc, pc': Pc)
    requires Reaches(patient, s0, State(pc, h)) && PidsInside(h) == {}
    requires pc.Stopping? && pc' == Stopping(pc.why, true)
    ensures Reaches(patient, s0, State(pc', h))
  {
    DaemonMoves(patient, s0, h, pc, Listed(Some(PidsInside(h))), pc');
  }

  lemma Proceeds(patient: bool, s0: State, h: Host, pc: Pc)
    requires Reaches(patient, s0, State(pc, h)) && pc.Stopping? && pc.empty
    ensures Reaches(patient, s0, State(DownRules(pc.why), h))
  {
    DaemonMoves(patient, s0, h, pc, Stopped, DownRules(pc.why));
  }

  lemma RulesGo(patient: bool, s0: State, h: Host, why: Why) returns (bare: Host)
    requires Reaches(patient, s0, State(DownRules(why), h))
    ensures bare == h.(tables := h.tables - {NFT_TABLE}) && Reaches(patient, s0, State(DownTor(why), bare))
  {
    bare := h.(tables := h.tables - {NFT_TABLE});
    RemoveFromAnyState(h.tables);
    ReachesNext(patient, s0, State(DownRules(why), h), Daemon(Removed(true)), State(DownTor(why), bare));
  }

  lemma LetIn(patient: bool, s0: State, h: Host, why: Why, pid: nat) returns (leak: State)
    requires Reaches(patient, s0, State(DownTor(why), h)) && h.net.named.Some?
    requires pid in h.procs && h.procs[pid] == Waiting(Program)
    ensures leak == State(DownTor(why), h.(procs := h.procs[pid := Inside(Program, h.net.named.value)]))
    ensures Reaches(patient, s0, leak)
  {
    leak := State(DownTor(why), Happen(h, Enters(pid)));
    ReachesNext(patient, s0, State(DownTor(why), h), Other(Enters(pid)), leak);
  }

  // ----------------------------------------------- from any tunnel that is up

  /** A tunnel that is up, with no program in it. */
  ghost predicate UpAndEmpty(h: Host) {
    && NetInv(h.net) && NoPrograms(h) && ProcsExist(h)
    && h.net.named.Some? && h.tor && NFT_TABLE in h.tables && h.tables[NFT_TABLE] == TORT_TABLE
  }

  /** So fail-closed does not hold without patience: fork a program, and serve a Down before
      it has entered. */
  lemma ImpatienceLeaks(h: Host, pid: nat)
    requires UpAndEmpty(h) && pid !in h.procs
    ensures Init(State(Dead, h))
    ensures exists t :: Reaches(false, State(Dead, h), t) && Bare(t.host)
  {
    var s0 := State(Dead, h);
    Idles(h);
    Serves(s0, h);
    var forked := Forks(s0, h, pid);
    DaemonMoves(false, s0, forked, Idle, AskedDown, Stopping(Asked, false));
    var empty := AllExit(false, s0, State(Stopping(Asked, false), forked), pid);
    ListsNothing(false, s0, empty, Stopping(Asked, false), Stopping(Asked, true));
    Proceeds(false, s0, empty, Stopping(Asked, true));
    var bare := RulesGo(false, s0, empty, Asked);
    var leak := LetIn(false, s0, bare, Asked, pid);
    assert leak.host.procs[pid].Inside? && leak.host.procs[pid].kind == Program;
  }

  lemma Forks(s0: State, h: Host, pid: nat) returns (forked: Host)
    requires Reaches(false, s0, State(RunReady, h)) && pid !in h.procs
    ensures forked == h.(procs := h.procs[pid := Waiting(Program)]) && Reaches(false, s0, State(Idle, forked))
  {
    forked := h.(procs := h.procs[pid := Waiting(Program)]);
    ReachesNext(false, s0, State(RunReady, h), Daemon(Forked(Some(pid))), State(Idle, forked));
  }

  lemma Idles(h: Host)
    ensures Reaches(false, State(Dead, h), State(Idle, h)) && Reaches(true, State(Dead, h), State(Idle, h))
  {
    var s0 := State(Dead, h);
    forall patient: bool ensures Reaches(patient, s0, State(Idle, h)) {
      DaemonMoves(patient, s0, h, Dead, Restarted, Starting);
      DaemonMoves(patient, s0, h, Starting, SawLeftovers(false), Idle);
    }
  }

  lemma Serves(s0: State, h: Host)
    requires Reaches(false, s0, State(Idle, h)) && IsUp(h)
    ensures Reaches(false, s0, State(RunReady, h))
  {
    DaemonMoves(false, s0, h, Idle, AskedRun, RunAsked);
    DaemonMoves(false, s0, h, RunAsked, SawUp(true), RunReady);
  }

  // ------------------------------------------------------ standing unverified

  /** From any host with nothing of tort's in the way there is a run in which everything works
      until the check, whose process cannot be run: the daemon is done with the request, and
      namespace, table and tor stand. */
  lemma StandsUnverified(h: Host) returns (t: Host)
    requires Init(State(Dead, h)) && h.net.named == None && h.net.peer == None
    ensures Reaches(true, State(Dead, h), State(Verifying, t))
    ensures Next(true, State(Verifying, t), Daemon(Probed(None)), State(Idle, t))
    ensures Reaches(true, State(Dead, h), State(Idle, t)) && IsUp(t)
  {
    var s0 := State(Dead, h);
    Idles(h);
    Wanted(s0, h);
    var built := Builds(s0, h, 0);
    var running := Spawns(s0, built);
    t := Applies(s0, running);
    NoProbeEnds(s0, t);
  }

  lemma NoProbeEnds(s0: State, h: Host)
    requires Reaches(true, s0, State(Verifying, h))
    ensures Next(true, State(Verifying, h), Daemon(Probed(None)), State(Idle, h))
    ensures Reaches(true, s0, State(Idle, h))
  {
    ReachesNext(true, s0, State(Verifying, h), Daemon(Probed(None)), State(Idle, h));
  }

  lemma Wanted(s0: State, h: Host)
    requires Reaches(true, s0, State(Idle, h)) && h.net.named == None
    ensures Reaches(true, s0, State(Creating(0), h))
  {
    DaemonMoves(true, s0, h, Idle, AskedUp, UpAsked);
    DaemonMoves(true, s0, h, UpAsked, SawUp(false), UpWanted);
    DaemonMoves(true, s0, h, UpWanted, SawTorInstalled(true), CreateCheck);
    DaemonMoves(true, s0, h, CreateCheck, SawNamespace(false), Creating(0));
  }

  /** So far the script has got, with nothing in the way. */
  ghost predicate AtStage(n: Net, i: nat) {
    NetInv(n) && (i <= 1 ==> n.peer == None) && if i == 0 then n.named == None else Built(n, i)
  }

  lemma NextStage(n: Net, i: nat) returns (m: Net)
    requires AtStage(n, i) && i < |SCRIPT|
    ensures Exec(n, SCRIPT[i]) == Some(m) && AtStage(m, i + 1)
  {
    if i == 0 { BuildStarts(n); } else { BuildIsAccepted(n, i); BuildProceeds(n, i); }
    m := Exec(n, SCRIPT[i]).value;
    ExecKeepsNetInv(n, SCRIPT[i]);
  }

  lemma ScriptStep(s0: State, h: Host, i: nat, m: Net)
    requires Reaches(true, s0, State(Creating(i), h)) && i < |SCRIPT| && Exec(h.net, SCRIPT[i]) == Some(m)
    ensures Reaches(true, s0, State(Creating(i + 1), h.(net := m)))
  {
    ReachesNext(true, s0, State(Creating(i), h), Daemon(Ip(SCRIPT[i], true)), State(Creating(i + 1), h.(net := m)));
  }

  /** No command of the script is refused. */
  lemma {:induction false} Builds(s0: State, h: Host, i: nat) returns (built: Host)
    requires Reaches(true, s0, State(Creating(i), h)) && AtStage(h.net, i) && i <= |SCRIPT|
    ensures Reaches(true, s0, State(Creating(|SCRIPT|), built)) && AtStage(built.net, |SCRIPT|)
    decreases |SCRIPT| - i
  {
    built := h;
    if i < |SCRIPT| {
      var m := NextStage(h.net, i);
      ScriptStep(s0, h, i, m);
      built := Builds(s0, h.(net := m), i + 1);
    }
  }

  lemma Spawns(s0: State, h: Host) returns (running: Host)
    requires Reaches(true, s0, State(Creating(|SCRIPT|), h))
    ensures running == h.(tor := true) && Reaches(true, s0, State(StartTor, running))
  {
    running := h.(tor := true);
    DaemonMoves(true, s0, h, Creating(|SCRIPT|), WroteResolvConf(true), StartTor);
    ReachesNext(true, s0, State(StartTor, h), Daemon(SpawnedTor(true, 0)), State(StartTor, running));
  }

  lemma Applies(s0: State, h: Host) returns (t: Host)
    requires Reaches(true, s0, State(StartTor, h)) && h.tor && h.net.named.Some?
    ensures Reaches(true, s0, State(Verifying, t)) && IsUp(t)
  {
    DaemonMoves(true, s0, h, StartTor, StartedTor(true, 0), Applying);
    ApplyFromAnyState(h.tables);
    t := h.(tables := WithTort(h.tables));
    ReachesNext(true, s0, State(Applying, h), Daemon(Applied(true)), State(Verifying, t));
  }
}
