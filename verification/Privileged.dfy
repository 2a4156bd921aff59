/** `src/privileged.rs`: bringing the tunnel up and verifying it, and taking it down. */
module Privileged {
  import opened Options
  import opened Verdicts
  import opened Config
  import opened Tables
  import opened Lifecycle
  import opened Kernel
  import opened Netns
  import Tor

  method ReportUp(k: Machine) returns (up: bool)
    requires k.Valid() && (k.pc == UpAsked || k.pc == RunAsked)
    modifies k
    ensures k.Valid() && OnlyLooked(old(k.Now()), k.Now()) && old(k.faults) <= k.faults
    ensures Control(old(k.pc), SawUp(up)) == Some(k.pc) && (up ==> IsUp(k.host))
    ensures !up && k.faults == old(k.faults) ==> !IsUp(k.host)
    ensures k.log == old(k.log) + [SawUp(up)]
  {
    up := k.ReadUp();
    k.SawWhetherUp(up);
  }

  /** After `c`, and to the end of the run: tor was asked to end if any was found, and stopped,
      and the name was deleted, with these results. */
  ghost predicate TornDown(log: seq<Event>, c: int, tor: bool, space: bool) {
    && 0 <= c < |log| - 2
    && log[|log| - 2].StoppedTor? && log[|log| - 2].gone == tor && log[|log| - 1] == Destroyed(space)
    && if log[|log| - 2].asked then |log| == c + 4 && log[c + 1] == AskedTor else |log| == c + 3
  }

  lemma TearsDown(log: seq<Event>, after: seq<Event>, asked: bool, killed: bool, tor: bool, space: bool)
    requires log != [] && after == log + Tor.StopEvents(asked, killed, tor) + [Destroyed(space)]
    ensures log <= after && TornDown(after, |log| - 1, tor, space)
  {
  }

  /** Stop tor and give up the namespace's name, whatever either says. */
  method Undo(k: Machine) returns (ghost asked: bool, ghost killed: bool, ghost gone: bool, ghost deleted: bool)
    requires k.Valid() && k.pc == UndoTor
    modifies k
    ensures k.Valid() && k.pc == Idle && k.host.tables == old(k.host.tables) && old(k.faults) <= k.faults
    ensures k.log == old(k.log) + Tor.StopEvents(asked, killed, gone) + [Destroyed(deleted)] && k.back == old(k.back)
    ensures gone && deleted ==> k.host.net.named == None && !k.host.tor
    ensures gone && deleted <==> k.faults == old(k.faults)
  {
    var polls;
    asked, killed, gone, polls := Tor.Stop(k);
    var r := Destroy(k);
    deleted := r.Pass?;
  }

  /** Since then tor came to serve, by its own log, and right after it the rules went in, or
      were refused, at `c`. */
  ghost predicate AppliedAt(before: seq<Event>, log: seq<Event>, c: int, ok: bool) {
    && before <= log && 0 <= c < |log| && log[c] == Applied(ok)
    && exists s, i, e :: |before| <= s && e == c - 1 && Tor.StartedAt(log, s, i, e, true)
  }

  /** What the daemon turned back from: a tor that was not served by, or rules that were refused. */
  ghost predicate BrokeAt(before: seq<Event>, log: seq<Event>, c: int, why: Failure) {
    && before <= log
    && match why
       case TorFailed => exists s, i :: |before| <= s && Tor.StartedAt(log, s, i, c, false)
       case RulesRejected => AppliedAt(before, log, c, false)
       case _ => false
  }

  /** Since then that broke, and both parts of the way back were tried; `undone` is that both
      worked. */
  ghost predicate Undid(before: seq<Event>, after: seq<Event>, why: Failure, undone: bool) {
    exists c, tor, space :: BrokeAt(before, after, c, why) && TornDown(after, c, tor, space)
                            && (undone <==> tor && space)
  }

  lemma StartedStays(a: seq<Event>, b: seq<Event>, s: int, i: int, e: int, ok: bool)
    requires a <= b && Tor.StartedAt(a, s, i, e, ok)
    ensures Tor.StartedAt(b, s, i, e, ok)
  {
    if a[i].ok {
      Tor.AwaitedStays(a, b, i + 1, e, ok, a[i].at + 120_000_000_000 <= a[e].at);
    }
  }

  lemma AppliedStays(before: seq<Event>, a: seq<Event>, b: seq<Event>, c: int, ok: bool)
    requires a <= b && AppliedAt(before, a, c, ok)
    ensures AppliedAt(before, b, c, ok)
  {
    var s, i, e :| |before| <= s && e == c - 1 && Tor.StartedAt(a, s, i, e, true);
    StartedStays(a, b, s, i, e, true);
  }

  lemma BrokeStays(before: seq<Event>, a: seq<Event>, b: seq<Event>, c: int, why: Failure)
    requires a <= b && BrokeAt(before, a, c, why)
    ensures BrokeAt(before, b, c, why)
  {
    if why == TorFailed {
      var s, i :| |before| <= s && Tor.StartedAt(a, s, i, c, false);
      StartedStays(a, b, s, i, c, false);
    } else {
      AppliedStays(before, a, b, c, false);
    }
  }

  /** That broke, and it was the last thing done. */
  ghost predicate Broke(before: seq<Event>, log: seq<Event>, why: Failure) {
    log != [] && BrokeAt(before, log, |log| - 1, why)
  }

  lemma Undoes(before: seq<Event>, log: seq<Event>, after: seq<Event>, why: Failure, asked: bool, killed: bool,
               tor: bool, space: bool)
    requires Broke(before, log, why) && after == log + Tor.StopEvents(asked, killed, tor) + [Destroyed(space)]
    ensures Undid(before, after, why, tor && space)
  {
    TearsDown(log, after, asked, killed, tor, space);
    BrokeStays(before, log, after, |log| - 1, why);
  }

  /** The way back from what broke last. */
  method UndoAfter(k: Machine, ghost before: seq<Event>, ghost why: Failure) returns (ghost undone: bool)
    requires k.Valid() && k.pc == UndoTor && Broke(before, k.log, why) && k.back == k.faults
    modifies k
    ensures k.Valid() && k.pc == Idle && k.host.tables == old(k.host.tables) && old(k.faults) <= k.faults
    ensures Undid(before, k.log, why, undone) && k.back == old(k.back)
    ensures undone ==> k.host.net.named == None && !k.host.tor
    ensures undone <==> k.faults == k.back
  {
    ghost var asked, killed, gone, deleted;
    asked, killed, gone, deleted := Undo(k);
    undone := gone && deleted;
    Undoes(before, old(k.log), k.log, why, asked, killed, gone, deleted);
  }

  /** The rules go in as one transaction, or not at all. */
  method ApplyRules(k: Machine) returns (r: Outcome)
    requires k.Valid() && k.pc == Applying
    modifies k
    ensures k.Valid() && k.pc == (if r.Pass? then Verifying else UndoTor) && old(k.faults) <= k.faults
    ensures r.Fail? ==> r.why == RulesRejected && k.back == k.faults
    ensures k.host.tables == if r.Pass? then WithTort(old(k.host.tables)) else old(k.host.tables)
    ensures k.log == old(k.log) + [Applied(r.Pass?)]
    ensures k.faults == old(k.faults) <==> r.Pass?
  {
    r := k.RunNft(true);
    ApplyFromAnyState(old(k.host.tables));
  }

  /** Since then tor came to serve, and the rules went in right after it, and that was last. */
  ghost predicate Served(before: seq<Event>, after: seq<Event>) {
    after != [] && AppliedAt(before, after, |after| - 1, true)
  }

  lemma StartBroke(before: seq<Event>, after: seq<Event>)
    requires Tor.Tried(before, after, false)
    ensures Broke(before, after, TorFailed)
  {
  }

  lemma RulesFollow(before: seq<Event>, started: seq<Event>, after: seq<Event>, ok: bool)
    requires Tor.Tried(before, started, true) && after == started + [Applied(ok)]
    ensures AppliedAt(before, after, |after| - 1, ok)
  {
    var s, i, e :| s == |before| && e == |started| - 1 && Tor.StartedAt(started, s, i, e, true);
    StartedStays(started, after, s, i, e, true);
  }

  /** With the namespace built: tor, then the rules, each undoing everything when it fails.
      `undone` is exactly that the way back met no fault of its own. */
  method Serve(k: Machine) returns (r: Outcome, ghost undone: bool)
    requires k.Valid() && k.pc == StartTor
    modifies k
    ensures k.Valid() && k.pc == (if r.Pass? then Verifying else Idle) && old(k.faults) <= k.faults
    ensures k.host.tables == if r.Pass? then WithTort(old(k.host.tables)) else old(k.host.tables)
    ensures match r
            case Pass => undone && Served(old(k.log), k.log)
            case Fail(why) => (why == TorFailed || why == RulesRejected) && Undid(old(k.log), k.log, why, undone)
    ensures r.Fail? && undone ==> k.host.net.named == None && !k.host.tor
    ensures r.Fail? ==> old(k.faults) < k.back <= k.faults && (undone <==> k.faults == k.back)
  {
    var polls;
    r, polls := Tor.Start(k);
    if r.Fail? {
      StartBroke(old(k.log), k.log);
      undone := UndoAfter(k, old(k.log), TorFailed);
    } else {
      r, undone := ServeStarted(k, old(k.log));
    }
  }

  /** With tor serving: the rules, or everything undone. */
  method ServeStarted(k: Machine, ghost before: seq<Event>) returns (r: Outcome, ghost undone: bool)
    requires k.Valid() && k.pc == Applying && Tor.Tried(before, k.log, true)
    modifies k
    ensures k.Valid() && k.pc == (if r.Pass? then Verifying else Idle) && old(k.faults) <= k.faults
    ensures k.host.tables == if r.Pass? then WithTort(old(k.host.tables)) else old(k.host.tables)
    ensures match r
            case Pass => undone && Served(before, k.log)
            case Fail(why) => why == RulesRejected && Undid(before, k.log, why, undone)
    ensures r.Fail? && undone ==> k.host.net.named == None && !k.host.tor
    ensures r.Fail? ==> old(k.faults) < k.back <= k.faults && (undone <==> k.faults == k.back)
  {
    undone := true;
    r := ApplyRules(k);
    RulesFollow(before, old(k.log), k.log, r.Pass?);
    if r.Fail? {
      undone := UndoAfter(k, before, RulesRejected);
    }
  }

  predicate BeforeCheck(why: Failure) { !why.NoProbe? && !why.NotSafe? }

  /** Each error that ends an attempt before the check is what it is for a reason in the run,
      and after each the way back, where there is one, was tried last. */
  ghost predicate UpFailed(before: seq<Event>, after: seq<Event>, why: Failure, undone: bool) {
    match why
    case NotInstalled => undone && JustDid(before, after, SawTorInstalled(false))
    case AlreadyExists => undone && JustDid(before, after, SawNamespace(true))
    case CommandFailed => RolledBack(before, after)
    case TorFailed => Undid(before, after, why, undone)
    case RulesRejected => Undid(before, after, why, undone)
    case _ => false
  }

  /** Since then the namespace was created, and then tor came to serve and the rules went in,
      and that was last. */
  ghost predicate Raised(before: seq<Event>, after: seq<Event>) {
    Served(before, after) && exists s, e :: |before| <= s && Completed(after, s, e)
  }

  lemma ThenServed(before: seq<Event>, built: seq<Event>, after: seq<Event>)
    requires CameAbout(before, built) && Served(built, after)
    ensures Raised(before, after)
  {
    var s, e :| |before| <= s && e == |built| - 1 && Completed(built, s, e);
    CompletedStays(built, after, s, e);
    assert AppliedAt(before, after, |after| - 1, true);
  }

  lemma EarlierFailure(a: seq<Event>, b: seq<Event>, c: seq<Event>, why: Failure, undone: bool)
    requires a <= b && UpFailed(b, c, why, undone)
    ensures UpFailed(a, c, why, undone)
  {
    if why == TorFailed || why == RulesRejected {
      var at, tor, space :| BrokeAt(b, c, at, why) && TornDown(c, at, tor, space) && (undone <==> tor && space);
      assert BrokeAt(a, c, at, why);
    }
  }

  lemma EarlierRaised(a: seq<Event>, b: seq<Event>, c: seq<Event>)
    requires a <= b && Raised(b, c)
    ensures Raised(a, c)
  {
    assert AppliedAt(a, c, |c| - 1, true);
  }

  /** Whether the daemon turned back for this error. */
  predicate TurnedBack(why: Failure) { why.CommandFailed? || why.TorFailed? || why.RulesRejected? }

  /** The namespace, and then what runs on it. A namespace that was there is not touched. One
      that was made is gone again after a failure, and so is any veth when it was the namespace
      that failed, unless the way back met a fault of its own: `undone` is exactly that there
      was none since the daemon turned back. */
  method Raise(k: Machine) returns (r: Outcome, ghost undone: bool)
    requires k.Valid() && k.pc == CreateCheck
    modifies k
    ensures k.Valid() && k.pc == (if r.Pass? then Verifying else Idle)
    ensures k.host.tables == if r.Pass? then WithTort(old(k.host.tables)) else old(k.host.tables)
    ensures if r.Pass? then undone && Raised(old(k.log), k.log) else UpFailed(old(k.log), k.log, r.why, undone)
    ensures r.Fail? ==> BeforeCheck(r.why) && r.why != NotInstalled
    ensures r == Fail(AlreadyExists) <==> old(k.host.net.named).Some?
    ensures r == Fail(AlreadyExists) ==> OnlyLooked(old(k.Now()), k.Now())
    ensures r.Fail? && undone && old(k.host.net.named) == None ==> k.host.net.named == None
    ensures r == Fail(CommandFailed) && undone ==> VethGone(k.host.net)
    ensures r.Fail? && TurnedBack(r.why) ==> old(k.faults) <= k.back <= k.faults && (undone <==> k.faults == k.back)
    ensures old(k.faults) <= k.faults && (k.faults <= old(k.faults) + 1 && old(k.host.net.peer) == None ==> undone)
    ensures r.Fail? && k.faults == old(k.faults)
            ==> undone && (r.why == AlreadyExists || (r.why == CommandFailed && old(k.host.net.peer).Some?))
  {
    r, undone := Create(k);
    if r.Pass? {
      ghost var built := k.log;
      r, undone := Serve(k);
      if r.Pass? {
        ThenServed(old(k.log), built, k.log);
      } else {
        EarlierFailure(old(k.log), built, k.log, r.why, undone);
      }
    }
  }

  /** Bring the tunnel up, tor first and the rules last. On success tor came to serve and the
      table has just gone in; on failure the tables are what they were and, when the way back
      met no fault (`undone`), no namespace this made is left. Without a fault it can fail only
      for want of tor, or for a namespace or a veth that was in the way; and the veth is gone
      then. With one fault, and no veth in the way, everything is undone. */
  method Up(k: Machine) returns (r: Outcome, ghost undone: bool)
    requires k.Valid() && k.pc == UpWanted
    modifies k
    ensures k.Valid() && k.pc == (if r.Pass? then Verifying else Idle)
    ensures k.host.tables == if r.Pass? then WithTort(old(k.host.tables)) else old(k.host.tables)
    ensures if r.Pass? then undone && Raised(old(k.log), k.log) else UpFailed(old(k.log), k.log, r.why, undone)
    ensures r.Fail? ==> BeforeCheck(r.why)
    ensures old(k.host.net.named).Some? ==> r.Fail? && OnlyLooked(old(k.Now()), k.Now())
    ensures r.Fail? && undone && old(k.host.net.named) == None ==> k.host.net.named == None
    ensures r == Fail(CommandFailed) && undone ==> VethGone(k.host.net)
    ensures r.Fail? && TurnedBack(r.why) ==> old(k.faults) <= k.back <= k.faults && (undone <==> k.faults == k.back)
    ensures old(k.faults) <= k.faults && (k.faults <= old(k.faults) + 1 && old(k.host.net.peer) == None ==> undone)
    ensures r.Fail? && k.faults == old(k.faults)
            ==> undone && (r.why == NotInstalled || old(k.host.net.named).Some?
                           || (r.why == CommandFailed && old(k.host.net.peer).Some?))
  {
    var installed := k.TorInstalled();
    if !installed {
      return Fail(NotInstalled), true;
    }
    ghost var wanted := k.log;
    r, undone := Raise(k);
    if r.Pass? {
      EarlierRaised(old(k.log), wanted, k.log);
    } else {
      EarlierFailure(old(k.log), wanted, k.log, r.why, undone);
    }
  }

  /** The first of two errors. */
  function FirstError(a: Outcome, b: Outcome): Outcome { if a.Fail? then a else b }

  method RemoveRules(k: Machine) returns (r: Outcome)
    requires k.Valid() && k.pc.DownRules?
    modifies k
    ensures k.Valid() && k.pc == DownTor(old(k.pc).why) && k.log == old(k.log) + [Removed(r.Pass?)]
    ensures k.back == old(k.back)
    ensures old(k.faults) <= k.faults && (r.Pass? <==> k.faults == old(k.faults))
    ensures r == if r.Pass? then Pass else Fail(RulesStay)
    ensures k.host.tables == if r.Pass? then old(k.host.tables) - {NFT_TABLE} else old(k.host.tables)
  {
    r := k.RunNft(false);
    RemoveFromAnyState(old(k.host.tables));
  }

  /** Since then the programs stopped, and all three removals were tried, in this order and with
      these results, and they were the last things done. */
  ghost predicate Removals(before: seq<Event>, after: seq<Event>, rules: bool, tor: bool, space: bool) {
    exists e, c :: ProgramsStopped(before, after, e) && c == e + 1 && c < |after| && after[c] == Removed(rules)
                   && TornDown(after, c, tor, space)
  }

  /** Remove rules, tor and namespace, each whatever the others said; the answer is the first
      error. Stopping tor never reports one. */
  method RemoveAll(k: Machine)
    returns (r: Outcome, ghost rules: bool, ghost asked: bool, ghost killed: bool, ghost tor: bool, ghost space: bool)
    requires k.Valid() && k.pc.DownRules?
    modifies k
    ensures k.Valid() && k.pc == Idle && old(k.faults) <= k.faults && k.back == old(k.back)
    ensures k.log == old(k.log) + [Removed(rules)] + Tor.StopEvents(asked, killed, tor) + [Destroyed(space)]
    ensures (rules ==> NFT_TABLE !in k.host.tables) && (tor ==> !k.host.tor) && (space ==> k.host.net.named == None)
    ensures r == FirstError(if rules then Pass else Fail(RulesStay), if space then Pass else Fail(NamespaceStays))
    ensures k.faults == old(k.faults) <==> rules && tor && space
  {
    var first := RemoveRules(k);
    rules := first.Pass?;
    var last;
    asked, killed, tor, last := RemoveRest(k);
    space := last.Pass?;
    r := FirstError(first, last);
  }

  lemma AllRemoved(before: seq<Event>, stopped: seq<Event>, after: seq<Event>, rules: bool,
                   asked: bool, killed: bool, tor: bool, space: bool)
    requires ProgramsStopped(before, stopped, |stopped| - 1)
    requires after == stopped + [Removed(rules)] + Tor.StopEvents(asked, killed, tor) + [Destroyed(space)]
    ensures Removals(before, after, rules, tor, space)
  {
    var removed := stopped + [Removed(rules)];
    var e, c := |stopped| - 1, |removed| - 1;
    TearsDown(removed, after, asked, killed, tor, space);
    ApproachedStays(stopped, after, |before|, e);
    assert after[e] == stopped[e] && after[c] == removed[c];
    assert ProgramsStopped(before, after, e);
  }

  /** With the rules dealt with: tor, and the namespace. */
  method RemoveRest(k: Machine) returns (ghost asked: bool, ghost killed: bool, ghost tor: bool, r: Outcome)
    requires k.Valid() && k.pc.DownTor?
    modifies k
    ensures k.Valid() && k.pc == Idle && old(k.faults) <= k.faults && k.back == old(k.back)
    ensures k.host.tables == old(k.host.tables)
    ensures k.log == old(k.log) + Tor.StopEvents(asked, killed, tor) + [Destroyed(r.Pass?)]
    ensures (tor ==> !k.host.tor) && (r.Pass? ==> k.host.net.named == None)
    ensures r == if r.Pass? then Pass else Fail(NamespaceStays)
    ensures k.faults == old(k.faults) <==> tor && r.Pass?
  {
    var polls;
    asked, killed, tor, polls := Tor.Stop(k);
    r := Destroy(k);
  }

  /** How a teardown ended, by what the daemon did: without a removal, when the programs inside
      would not stop; or, once they had, with all three tried, and the answer the first error
      among them. */
  ghost predicate TookDown(before: seq<Event>, after: seq<Event>, r: Outcome, gone: bool) {
    match r
    case Pass => Removals(before, after, true, gone, true)
    case Fail(RulesStay) => !gone && exists tor, space :: Removals(before, after, false, tor, space)
    case Fail(NamespaceStays) => !gone && exists tor :: Removals(before, after, true, tor, false)
    case Fail(why) => !gone && NotStopped(before, after, why)
  }

  /** The programs have stopped: everything goes, as far as it will. */
  method RemoveStopped(k: Machine, ghost before: seq<Event>) returns (r: Outcome, ghost gone: bool)
    requires k.Valid() && k.pc.DownRules? && ProgramsStopped(before, k.log, |k.log| - 1)
    modifies k
    ensures k.Valid() && k.pc == Idle && old(k.faults) <= k.faults && k.back == old(k.back)
    ensures TookDown(before, k.log, r, gone)
    ensures r.Fail? ==> r.why == RulesStay || r.why == NamespaceStays
    ensures r.Pass? ==> NFT_TABLE !in k.host.tables && k.host.net.named == None
    ensures r == Fail(NamespaceStays) ==> NFT_TABLE !in k.host.tables
    ensures (gone ==> Gone(k.host)) && (k.faults == old(k.faults) <==> gone)
  {
    ghost var rules, asked, killed, tor, space;
    r, rules, asked, killed, tor, space := RemoveAll(k);
    AllRemoved(before, old(k.log), k.log, rules, asked, killed, tor, space);
    gone := rules && tor && space;
  }

  /** Take the tunnel down. When the programs inside cannot be stopped the daemon does
      nothing else; otherwise all three removals are attempted whatever each says, and the
      first error is the answer. */
  method Down(k: Machine) returns (r: Outcome, ghost gone: bool)
    requires k.Valid() && k.pc.Stopping?
    modifies k
    ensures k.Valid() && k.pc == Idle && k.back == old(k.back)
    ensures TookDown(old(k.log), k.log, r, gone)
    ensures r.Fail? && r.why in {ListingFailed, StillRunning} ==> OnlyLooked(old(k.Now()), k.Now())
    ensures r.Fail? ==> r.why in {ListingFailed, StillRunning, RulesStay, NamespaceStays}
    ensures r == Fail(StillRunning) ==> old(k.now) + 7_000_000_000 <= k.now
    ensures r.Pass? ==> NFT_TABLE !in k.host.tables && k.host.net.named == None
    ensures r == Fail(NamespaceStays) ==> NFT_TABLE !in k.host.tables
    ensures gone ==> Gone(k.host)
    ensures old(k.faults) <= k.faults && (k.faults == old(k.faults) ==> gone || r == Fail(StillRunning))
  {
    gone := false;
    var termPolls, killPolls;
    r, termPolls, killPolls := StopProcesses(k);
    if r.Pass? {
      r, gone := RemoveStopped(k, old(k.log));
    }
  }

  /** Namespace and rules are in place. */
  ghost predicate Standing(h: Host) { h.net.named.Some? && NFT_TABLE in h.tables }

  /** All three pieces are gone. */
  ghost predicate Gone(h: Host) { h.net.named == None && NFT_TABLE !in h.tables && !h.tor }

  datatype UpResult = AlreadyUp | CameUp | Failed(why: Failure)

  /** What the check adds to what the daemon did: itself; and, when it said no, a teardown. */
  ghost predicate Checked(before: seq<Event>, after: seq<Event>, r: UpResult, gone: bool) {
    match r
    case AlreadyUp => false
    case CameUp => after == before + [Probed(Some(ThroughTor))]
    case Failed(NoProbe) => after == before + [Probed(None)]
    case Failed(NotSafe(verdict)) => exists down :: TookDown(before + [Probed(Some(verdict))], after, down, gone)
    case Failed(_) => false
  }

  /** The daemon gave up on a program, last of all. */
  predicate GaveUpLast(log: seq<Event>) { log != [] && log[|log| - 1].GaveUp? }

  /** Check from inside that traffic goes through Tor, or take everything down again. */
  method Prove(k: Machine) returns (r: UpResult, ghost gone: bool)
    requires k.Valid() && k.pc == Verifying
    modifies k
    ensures k.Valid() && k.pc == Idle && old(k.faults) <= k.faults
    ensures Checked(old(k.log), k.log, r, gone)
    ensures r.CameUp? || r == Failed(NoProbe) ==> Undisturbed(old(k.host), k.host) && Standing(k.host)
    ensures r.Failed? && r.why != NoProbe ==> r.why.NotSafe? && r.why.verdict != ThroughTor && (gone ==> Gone(k.host))
    ensures r.Failed? && r.why != NoProbe ==> old(k.faults) <= k.back <= k.faults
    ensures r.Failed? && r.why != NoProbe && k.faults == k.back ==> gone || GaveUpLast(k.log)
  {
    k.VerifyingStands();
    var outcome := k.RunProbe();
    match outcome
    case None => return Failed(NoProbe), false;
    case Some(ThroughTor) => return CameUp, false;
    case Some(verdict) =>
      gone := TearDown(k, old(k.log), verdict);
      return Failed(NotSafe(verdict)), gone;
  }

  /** A check said no. */
  method TearDown(k: Machine, ghost before: seq<Event>, verdict: Verdict) returns (ghost gone: bool)
    requires k.Valid() && k.pc.Stopping? && k.log == before + [Probed(Some(verdict))] && k.back == k.faults
    modifies k
    ensures k.Valid() && k.pc == Idle && old(k.faults) <= k.faults && k.back == old(k.back)
    ensures Checked(before, k.log, Failed(NotSafe(verdict)), gone)
    ensures gone ==> Gone(k.host)
    ensures k.faults == k.back ==> gone || GaveUpLast(k.log)
  {
    var down;
    down, gone := Down(k);
  }

  /** What is promised of a tunnel that was not up. On success the namespace and the table are
      there. A check that said no leads to an error, with all three pieces gone when every step
      of the teardown worked (`clean`). A failure before the check leaves the tables as they
      were and, when the way back worked (`clean`), no new namespace. The one error that leaves
      a tunnel standing unverified is a check that could not be run. */
  ghost predicate ProvedOrGone(g: Host, h: Host, r: UpResult, clean: bool) {
    match r
    case AlreadyUp => IsUp(h)
    case CameUp => Standing(h) && h.tables == WithTort(g.tables)
    case Failed(NoProbe) => Standing(h) && h.tables == WithTort(g.tables)
    case Failed(NotSafe(verdict)) => verdict != ThroughTor && (clean ==> Gone(h))
    case Failed(_) => h.tables == g.tables && (clean && g.net.named == None ==> h.net.named == None)
  }

  /** What the daemon did meanwhile. On success tor came to serve, the rules went in, and the
      check said that traffic goes through Tor, one right after the other and last of all.
      Each error has its reason in the run, and the way back was taken after it. */
  ghost predicate ProvedLast(before: seq<Event>, after: seq<Event>, r: UpResult, clean: bool) {
    match r
    case AlreadyUp => after == before + [SawUp(true)]
    case Failed(why) =>
      if BeforeCheck(why) then UpFailed(before, after, why, clean)
      else exists served :: Raised(before, served) && Checked(served, after, r, clean)
    case CameUp => exists served :: Raised(before, served) && Checked(served, after, r, clean)
  }

  lemma CheckComesNext(before: seq<Event>, served: seq<Event>, after: seq<Event>, r: UpResult, clean: bool)
    requires Raised(before, served) && Checked(served, after, r, clean)
    ensures ProvedLast(before, after, r, clean)
  {
  }

  /** When the way back worked. Before the check, exactly when it met no fault of its own, that
      is, none since the daemon turned back; so at any rate when there was one fault in all,
      and no veth in the way. After a check that said no, when it met none, unless the daemon
      gave up on a program. */
  ghost predicate CleanWhen(g: Host, before: nat, back: nat, faults: nat, log: seq<Event>, r: UpResult,
                            clean: bool) {
    match r
    case AlreadyUp => true
    case CameUp => true
    case Failed(NoProbe) => true
    case Failed(NotSafe(_)) => before <= back <= faults && (faults == back ==> clean || GaveUpLast(log))
    case Failed(why) =>
      && (TurnedBack(why) ==> before <= back <= faults && (clean <==> faults == back))
      && (faults <= before + 1 && g.net.peer == None ==> clean)
  }

  lemma EarlierCount(g: Host, h: Host, f: nat, f': nat, back: nat, faults: nat, log: seq<Event>, r: UpResult,
                     clean: bool)
    requires Undisturbed(g, h) && f <= f' && CleanWhen(h, f', back, faults, log, r, clean)
    ensures CleanWhen(g, f, back, faults, log, r, clean)
  {
  }

  lemma EarlierStanding(g: Host, h: Host, end: Host, r: UpResult, clean: bool)
    requires Undisturbed(g, h) && ProvedOrGone(h, end, r, clean)
    ensures ProvedOrGone(g, end, r, clean)
  {
  }

  method UpAndProve(k: Machine) returns (r: UpResult, ghost clean: bool)
    requires k.Valid() && k.pc == UpWanted
    modifies k
    ensures k.Valid() && k.pc == Idle && !r.AlreadyUp? && old(k.faults) <= k.faults
    ensures ProvedOrGone(old(k.host), k.host, r, clean)
    ensures ProvedLast(old(k.log), k.log, r, clean)
    ensures CleanWhen(old(k.host), old(k.faults), k.back, k.faults, k.log, r, clean)
  {
    var raised;
    raised, clean := Up(k);
    if raised.Fail? {
      return Failed(raised.why), clean;
    }
    ghost var served := k.log;
    r, clean := Prove(k);
    CheckComesNext(old(k.log), served, k.log, r, clean);
  }

  /** A tunnel seen up is left alone; one that was not is proved, or undone, or (when the check
      itself could not be made) left standing with an error. */
  method UpAndVerify(k: Machine) returns (r: UpResult, ghost clean: bool)
    requires k.Valid() && k.pc == UpAsked
    modifies k
    ensures k.Valid() && k.pc == Idle && old(k.faults) <= k.faults
    ensures r.AlreadyUp? ==> OnlyLooked(old(k.Now()), k.Now())
    ensures ProvedOrGone(old(k.host), k.host, r, clean)
    ensures ProvedLast(old(k.log), k.log, r, clean)
    ensures CleanWhen(old(k.host), old(k.faults), k.back, k.faults, k.log, r, clean)
  {
    var up := ReportUp(k);
    if up {
      return AlreadyUp, true;
    }
    ghost var wanted, host, faults := k.log, k.host, k.faults;
    r, clean := UpAndProve(k);
    EarlierProof(old(k.log), wanted, k.log, r, clean);
    EarlierCount(old(k.host), host, old(k.faults), faults, k.back, k.faults, k.log, r, clean);
    EarlierStanding(old(k.host), host, k.host, r, clean);
  }

  lemma EarlierProof(a: seq<Event>, b: seq<Event>, c: seq<Event>, r: UpResult, clean: bool)
    requires a <= b && ProvedLast(b, c, r, clean) && !r.AlreadyUp?
    ensures ProvedLast(a, c, r, clean)
  {
    if r.Failed? && BeforeCheck(r.why) {
      EarlierFailure(a, b, c, r.why, clean);
    } else {
      var served :| Raised(b, served) && Checked(served, c, r, clean);
      EarlierRaised(a, b, served);
      CheckComesNext(a, served, c, r, clean);
    }
  }
}
