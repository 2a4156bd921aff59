/** `src/daemon.rs` where it drives the tunnel: cleaning up at start-up, and starting programs. */
module Server {
  import opened Options
  import opened Config
  import opened Lifecycle
  import opened Kernel
  import opened Privileged

  datatype Found = Nothing | FullTunnel | Cleaned | CouldNotClean(why: Failure)

  /** Whether there is a tunnel that is not fully up. */
  method SawPartial(k: Machine) returns (there: bool, partial: bool)
    requires k.Valid() && k.pc == Starting
    modifies k`host, k`now, k`faults
    ensures k.Valid() && Undisturbed(old(k.host), k.host) && old(k.faults) <= k.faults
    ensures old(k.now) <= k.now
    ensures NoneWaiting(old(k.host)) ==> NoneWaiting(k.host)
    ensures partial ==> there
    ensures there ==> k.host.net.named.Some? || NFT_TABLE in k.host.tables
    ensures !there && k.faults == old(k.faults) ==> k.host.net.named == None && NFT_TABLE !in k.host.tables
    ensures there && !partial ==> IsUp(k.host)
    ensures partial && k.faults == old(k.faults) ==> !IsUp(k.host)
  {
    k.Meanwhile();
    there := k.host.net.named.Some?;
    if !there {
      there := k.ReadTable();
    }
    partial := there;
    if there {
      var up := k.ReadUp();
      partial := !up;
    }
  }

  /** What start-up did for its answer: it took down what was partial, and nothing else, and
      each error has its reason in that teardown. */
  ghost predicate Tidied(before: seq<Event>, after: seq<Event>, found: Found) {
    && |before| < |after| && before <= after
    && match found
       case Nothing => after == before + [SawLeftovers(false)]
       case FullTunnel => after == before + [SawLeftovers(false)]
       case Cleaned => exists gone :: TookDown(before + [SawLeftovers(true)], after, Pass, gone)
       case CouldNotClean(why) => TookDown(before + [SawLeftovers(true)], after, Fail(why), false)
  }

  /** Leave nothing or everything of a tunnel alone, and take down what is in between. */
  method StartUp(k: Machine) returns (found: Found)
    requires k.Valid() && k.pc == Starting && NoneWaiting(k.host)
    modifies k
    ensures k.Valid() && k.pc == Idle && old(k.faults) <= k.faults
    ensures Tidied(old(k.log), k.log, found)
    ensures found.FullTunnel? ==> OnlyLooked(old(k.Now()), k.Now()) && IsUp(k.host)
    ensures found.Nothing? ==> OnlyLooked(old(k.Now()), k.Now())
    ensures found.Nothing? && k.faults == old(k.faults) ==> k.host.net.named == None && NFT_TABLE !in k.host.tables
    ensures found.Cleaned? ==> k.host.net.named == None && NFT_TABLE !in k.host.tables
    ensures found.CouldNotClean? && k.faults == old(k.faults) ==> found.why == StillRunning
    ensures found == CouldNotClean(StillRunning) ==> old(k.now) + 7_000_000_000 <= k.now
  {
    var there, partial := SawPartial(k);
    k.SawWhetherPartial(partial);
    if !there {
      return Nothing;
    }
    if !partial {
      return FullTunnel;
    }
    found := CleanUp(k, old(k.log));
  }

  /** Take a partial tunnel down. */
  method CleanUp(k: Machine, ghost before: seq<Event>) returns (found: Found)
    requires k.Valid() && k.pc.Stopping? && k.log == before + [SawLeftovers(true)]
    modifies k
    ensures k.Valid() && k.pc == Idle && old(k.faults) <= k.faults
    ensures Tidied(before, k.log, found) && (found.Cleaned? || found.CouldNotClean?)
    ensures found.Cleaned? ==> k.host.net.named == None && NFT_TABLE !in k.host.tables
    ensures found.CouldNotClean? && k.faults == old(k.faults) ==> found.why == StillRunning
    ensures found == CouldNotClean(StillRunning) ==> old(k.now) + 7_000_000_000 <= k.now
  {
    var r;
    ghost var gone;
    r, gone := Down(k);
    return if r.Pass? then Cleaned else CouldNotClean(r.why);
  }

  /** Crash recovery: whatever the daemon was doing when it was killed, its successor ends
      with the tunnel fully up; or with neither namespace nor table; or with an error from a
      teardown it attempted, which without a fault means that it signalled what was inside,
      waited and gave up. A table or processes that could not be read (a fault) count as
      absent. */
  method Recover(k: Machine, survivors: set<nat>, tor: bool) returns (found: Found)
    requires k.Valid()
    requires forall pid :: pid in survivors && pid in k.host.procs ==> k.host.procs[pid] != Waiting(Program)
    modifies k
    ensures k.Valid() && k.pc == Idle && old(k.faults) <= k.faults
    ensures Tidied(old(k.log) + [Restarted], k.log, found)
    ensures found.FullTunnel? ==> IsUp(k.host)
    ensures found.Nothing? ==> k.host.tables == old(k.host.tables) && k.host.net.named == old(k.host.net.named)
    ensures found.Nothing? && k.faults == old(k.faults) ==> k.host.net.named == None && NFT_TABLE !in k.host.tables
    ensures found.Cleaned? ==> k.host.net.named == None && NFT_TABLE !in k.host.tables
    ensures found.CouldNotClean? && k.faults == old(k.faults) ==> found.why == StillRunning
    ensures found == CouldNotClean(StillRunning) ==> old(k.now) + 7_000_000_000 <= k.now
  {
    k.Restart(survivors, tor);
    found := StartUp(k);
  }

  /** Without a namespace the tunnel is not up, and so it is wanted. */
  method WantUp(k: Machine)
    requires k.Valid() && k.pc == Idle && k.host.net.named == None
    modifies k
    ensures k.Valid() && k.pc == UpWanted && Undisturbed(old(k.host), k.host)
    ensures old(k.faults) <= k.faults && old(k.log) <= k.log
  {
    k.Ask(AskedUp);
    var up := ReportUp(k);
  }

  /** One request to bring the tunnel up, as far as the rules. */
  method Attempt(k: Machine) returns (r: Outcome)
    requires k.Valid() && k.pc == Idle && k.host.net.named == None
    modifies k
    ensures k.Valid() && k.pc == (if r.Pass? then Verifying else Idle) && old(k.faults) <= k.faults
    ensures old(k.log) <= k.log
    ensures r == Fail(NotInstalled) ==> JustDid(old(k.log), k.log, SawTorInstalled(false))
    ensures r.Fail? && r.why != NotInstalled && k.faults == old(k.faults)
            ==> old(k.host.net.peer).Some? && k.host.net.named == None && k.host.net.peer == None
  {
    WantUp(k);
    ghost var undone;
    r, undone := Up(k);
  }

  /** With tor found installed and no command failing by itself, a veth that a crash left
      behind costs one failed attempt, and no more: the second comes up. */
  method AttemptTwice(k: Machine) returns (first: Outcome, second: Outcome)
    requires k.Valid() && k.pc == Idle && k.host.net.named == None
    modifies k
    ensures k.Valid() && old(k.faults) <= k.faults
    ensures second == Fail(NotInstalled) ==> JustDid(old(k.log), k.log, SawTorInstalled(false))
    ensures k.faults == old(k.faults) ==> second == Fail(NotInstalled) || (second.Pass? && k.pc == Verifying)
    ensures first == Fail(NotInstalled) ==> second == first
    ensures k.faults == old(k.faults) && old(k.host.net.peer) == None ==> first.Pass? || first == Fail(NotInstalled)
  {
    first := Attempt(k);
    if first.Pass? || first.why == NotInstalled || k.host.net.named.Some? {
      return first, first;
    }
    second := Attempt(k);
  }

  /** A request to take the tunnel down, once every child forked for an earlier request has
      entered the namespace. */
  method ServeDown(k: Machine) returns (r: Outcome, ghost gone: bool)
    requires k.Valid() && k.pc == Idle && NoneWaiting(k.host)
    modifies k
    ensures k.Valid() && k.pc == Idle
    ensures TookDown(old(k.log) + [AskedDown], k.log, r, gone)
    ensures r.Pass? ==> NFT_TABLE !in k.host.tables && k.host.net.named == None
    ensures gone ==> Gone(k.host)
    ensures k.faults == old(k.faults) ==> gone || r == Fail(StillRunning)
    ensures r == Fail(StillRunning) ==> old(k.now) + 7_000_000_000 <= k.now
  {
    k.Ask(AskedDown);
    r, gone := Down(k);
  }

  datatype RunAnswer = NotUp | WrongDescriptors | ForkFailed | Running(child: nat)

  /** With the tunnel seen up: fork, for a caller who sent the three descriptors. */
  method ForkFor(k: Machine, descriptors: nat) returns (answer: RunAnswer)
    requires k.Valid() && k.pc == RunReady
    modifies k
    ensures k.Valid() && k.pc == Idle && !answer.NotUp?
    ensures answer.WrongDescriptors? <==> descriptors != 3
    ensures answer.Running? ==> descriptors == 3 && Standing(k.host)
                                && answer.child in k.host.procs && k.host.procs[answer.child] == Waiting(Program)
    ensures old(k.faults) <= k.faults && (answer.ForkFailed? ==> old(k.faults) < k.faults)
    ensures k.log == old(k.log) + [Forked(if answer.Running? then Some(answer.child) else None)]
  {
    if descriptors != 3 {
      k.ForkNothing();
      return WrongDescriptors;
    }
    var child := k.Fork();
    return if child.Some? then Running(child.value) else ForkFailed;
  }

  /** Start a program. It is forked only after the tunnel was seen up, and into a tunnel whose
      namespace and table are there. */
  method StartRun(k: Machine, descriptors: nat) returns (answer: RunAnswer)
    requires k.Valid() && k.pc == Idle
    modifies k
    ensures k.Valid() && k.pc == Idle
    ensures answer.Running? ==> descriptors == 3 && Standing(k.host)
                                && answer.child in k.host.procs && k.host.procs[answer.child] == Waiting(Program)
    ensures answer.WrongDescriptors? ==> descriptors != 3
    ensures !answer.NotUp? && descriptors != 3 ==> answer.WrongDescriptors?
    ensures old(k.faults) <= k.faults && (answer.ForkFailed? ==> old(k.faults) < k.faults)
    ensures if answer.NotUp? then k.log == old(k.log) + [AskedRun] + [SawUp(false)]
            else k.log == old(k.log) + [AskedRun] + [SawUp(true)]
                          + [Forked(if answer.Running? then Some(answer.child) else None)]
    ensures answer.NotUp? ==> OnlyLooked(old(k.Now()), k.Now()) && (k.faults == old(k.faults) ==> !IsUp(k.host))
  {
    k.Ask(AskedRun);
    var up := ReportUp(k);
    if up {
      answer := ForkFor(k, descriptors);
    } else {
      answer := NotUp;
    }
  }
}
