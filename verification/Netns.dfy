/** `src/netns.rs`: creating the namespace or nothing, and emptying it of programs. */
module Netns {
  import opened Options
  import opened Config
  import opened Network
  import opened Lifecycle
  import opened Kernel

  // ------------------------------------------------------------------ creating

  /** From `s` on the first `i` commands of the script were run, in order, and all worked. */
  ghost predicate Ran(log: seq<Event>, s: nat, i: nat) {
    && s + i <= |log| && i <= |SCRIPT|
    && (i > 0 ==> log[s + i - 1] == Ip(SCRIPT[i - 1], true) && Ran(log, s, i - 1))
  }

  lemma {:induction false} RanStays(a: seq<Event>, b: seq<Event>, s: nat, i: nat)
    requires a <= b && Ran(a, s, i)
    ensures Ran(b, s, i)
  {
    if i > 0 {
      RanStays(a, b, s, i - 1);
    }
  }

  /** From `s` to `e`: the whole script, IPv6 turned off if it could be, and the resolver
      written. */
  ghost predicate Completed(log: seq<Event>, s: nat, e: nat) {
    && Ran(log, s, |SCRIPT|) && e == s + |SCRIPT| + 1 && e < |log|
    && log[e - 1].DisabledIpv6? && log[e] == WroteResolvConf(true)
  }

  /** The same, but for a failure at `c`: of a command, or of writing the resolver. */
  ghost predicate BrokeOff(log: seq<Event>, s: nat, c: nat) {
    && s <= c < |log|
    && if log[c].Ip? then c < s + |SCRIPT| && Ran(log, s, c - s) && log[c] == Ip(SCRIPT[c - s], false)
       else
         && Ran(log, s, |SCRIPT|) && c == s + |SCRIPT| + 1
         && log[c - 1].DisabledIpv6? && log[c] == WroteResolvConf(false)
  }

  lemma BrokeOffStays(a: seq<Event>, b: seq<Event>, s: nat, c: nat)
    requires a <= b && BrokeOff(a, s, c)
    ensures BrokeOff(b, s, c)
  {
    RanStays(a, b, s, if a[c].Ip? then c - s else |SCRIPT|);
  }

  lemma CompletedStays(a: seq<Event>, b: seq<Event>, s: nat, e: nat)
    requires a <= b && Completed(a, s, e)
    ensures Completed(b, s, e)
  {
    RanStays(a, b, s, |SCRIPT|);
  }

  /** What one more command shows. */
  ghost predicate Step(before: seq<Event>, log: seq<Event>, i: nat, ok: bool) {
    before <= log && if ok then |log| == |before| + i && Ran(log, |before|, i) else Ended(before, log, false)
  }

  /** How the creation ended: completed, or broken off there. */
  ghost predicate Ended(before: seq<Event>, log: seq<Event>, ok: bool) {
    before <= log && log != []
    && if ok then Completed(log, |before|, |log| - 1) else BrokeOff(log, |before|, |log| - 1)
  }

  lemma StepFollows(before: seq<Event>, log: seq<Event>, after: seq<Event>, i: nat, ok: bool)
    requires i < |SCRIPT| && Step(before, log, i, true) && after == log + [Ip(SCRIPT[i], ok)]
    ensures Step(before, after, i + 1, ok)
  {
    RanStays(log, after, |before|, i);
  }

  /** One command of the script. Without a fault it can fail only where a veth was in the way. */
  method BuildStep(k: Machine, cmd: Cmd, ghost before: seq<Event>, ghost i: nat) returns (r: Outcome)
    requires k.Valid() && k.pc == Creating(i) && Step(before, k.log, i, true) && i < |SCRIPT| && cmd == SCRIPT[i]
    modifies k
    ensures k.Valid() && k.pc == (if r.Pass? then Creating(i + 1) else RollbackNs)
    ensures Step(before, k.log, i + 1, r.Pass?)
    ensures old(k.faults) <= k.faults && (r.Pass? ==> k.faults == old(k.faults))
    ensures r.Fail? && k.faults == old(k.faults) ==> i == 1 && old(k.host.net.peer) != None
    ensures i == 0 && r.Pass? && old(k.host.net.peer) == None ==> k.host.net.peer == None
    ensures r.Fail? ==> k.back == k.faults
    ensures k.host.tables == old(k.host.tables)
  {
    r := k.RunIp(cmd);
    StepFollows(before, old(k.log), k.log, i, r.Pass?);
    if i == 0 {
      BuildStarts(k.seen.net);
    } else if i != 1 || k.seen.net.peer == None {
      BuildIsAccepted(k.seen.net, i);
    }
  }

  /** The veth pair, with one end inside. */
  method CreateVeth(k: Machine, ghost before: seq<Event>) returns (r: Outcome)
    requires k.Valid() && k.pc == Creating(1) && Step(before, k.log, 1, true)
    modifies k
    ensures k.Valid() && k.pc == (if r.Pass? then Creating(3) else RollbackNs)
    ensures Step(before, k.log, 3, r.Pass?)
    ensures old(k.faults) <= k.faults && (r.Pass? ==> k.faults == old(k.faults))
    ensures k.faults == old(k.faults) && old(k.host.net.peer) == None ==> r.Pass?
    ensures r.Fail? ==> k.back == k.faults
    ensures k.host.tables == old(k.host.tables)
  {
    r := BuildStep(k, VethAdd, before, 1);
    if r.Fail? {
      return;
    }
    r := BuildStep(k, VethMove, before, 2);
  }

  /** The namespace, and the veth pair with one end inside. */
  method CreateLinks(k: Machine, ghost before: seq<Event>) returns (r: Outcome)
    requires k.Valid() && k.pc == Creating(0) && Step(before, k.log, 0, true)
    modifies k
    ensures k.Valid() && k.pc == (if r.Pass? then Creating(3) else RollbackNs)
    ensures Step(before, k.log, 3, r.Pass?)
    ensures old(k.faults) <= k.faults && (r.Pass? ==> k.faults == old(k.faults))
    ensures k.faults == old(k.faults) && old(k.host.net.peer) == None ==> r.Pass?
    ensures r.Fail? ==> k.back == k.faults
    ensures k.host.tables == old(k.host.tables)
  {
    r := BuildStep(k, NetnsAdd, before, 0);
    if r.Fail? {
      return;
    }
    r := CreateVeth(k, before);
  }

  /** The host side. */
  method ConfigureHost(k: Machine, ghost before: seq<Event>) returns (r: Outcome)
    requires k.Valid() && k.pc == Creating(3) && Step(before, k.log, 3, true)
    modifies k
    ensures k.Valid() && k.pc == (if r.Pass? then Creating(5) else RollbackNs)
    ensures Step(before, k.log, 5, r.Pass?)
    ensures old(k.faults) <= k.faults && (r.Pass? <==> k.faults == old(k.faults))
    ensures r.Fail? ==> k.back == k.faults
    ensures k.host.tables == old(k.host.tables)
  {
    r := BuildStep(k, HostAddress, before, 3);
    if r.Fail? {
      return;
    }
    r := BuildStep(k, HostUp, before, 4);
  }

  /** The namespace side: one address, and the interface up. */
  method ConfigureNamespace(k: Machine, ghost before: seq<Event>) returns (r: Outcome)
    requires k.Valid() && k.pc == Creating(5) && Step(before, k.log, 5, true)
    modifies k
    ensures k.Valid() && k.pc == (if r.Pass? then Creating(7) else RollbackNs)
    ensures Step(before, k.log, 7, r.Pass?)
    ensures old(k.faults) <= k.faults && (r.Pass? <==> k.faults == old(k.faults))
    ensures r.Fail? ==> k.back == k.faults
    ensures k.host.tables == old(k.host.tables)
  {
    r := BuildStep(k, NsAddress, before, 5);
    if r.Fail? {
      return;
    }
    r := BuildStep(k, NsUp, before, 6);
  }

  /** The loopback, and the one default route. */
  method ConfigureRoute(k: Machine, ghost before: seq<Event>) returns (r: Outcome)
    requires k.Valid() && k.pc == Creating(7) && Step(before, k.log, 7, true)
    modifies k
    ensures k.Valid() && k.pc == (if r.Pass? then Creating(9) else RollbackNs)
    ensures Step(before, k.log, 9, r.Pass?)
    ensures old(k.faults) <= k.faults && (r.Pass? <==> k.faults == old(k.faults))
    ensures r.Fail? ==> k.back == k.faults
    ensures k.host.tables == old(k.host.tables)
  {
    r := BuildStep(k, LoUp, before, 7);
    if r.Fail? {
      return;
    }
    r := BuildStep(k, DefaultRoute, before, 8);
  }

  /** The namespace's side of the link, and its routes. */
  method ConfigureInside(k: Machine, ghost before: seq<Event>) returns (r: Outcome)
    requires k.Valid() && k.pc == Creating(5) && Step(before, k.log, 5, true)
    modifies k
    ensures k.Valid() && k.pc == (if r.Pass? then Creating(9) else RollbackNs)
    ensures Step(before, k.log, 9, r.Pass?)
    ensures old(k.faults) <= k.faults && (r.Pass? <==> k.faults == old(k.faults))
    ensures r.Fail? ==> k.back == k.faults
    ensures k.host.tables == old(k.host.tables)
  {
    r := ConfigureNamespace(k, before);
    if r.Fail? {
      return;
    }
    r := ConfigureRoute(k, before);
  }

  /** Both ends of the link, in order. */
  method Configure(k: Machine, ghost before: seq<Event>) returns (r: Outcome)
    requires k.Valid() && k.pc == Creating(3) && Step(before, k.log, 3, true)
    modifies k
    ensures k.Valid() && k.pc == (if r.Pass? then Creating(9) else RollbackNs)
    ensures Step(before, k.log, 9, r.Pass?)
    ensures old(k.faults) <= k.faults && (r.Pass? <==> k.faults == old(k.faults))
    ensures r.Fail? ==> k.back == k.faults
    ensures k.host.tables == old(k.host.tables)
  {
    r := ConfigureHost(k, before);
    if r.Fail? {
      return;
    }
    r := ConfigureInside(k, before);
  }

  lemma Furnished(before: seq<Event>, log: seq<Event>, after: seq<Event>, off: bool, ok: bool)
    requires Step(before, log, |SCRIPT|, true) && after == log + [DisabledIpv6(off)] + [WroteResolvConf(ok)]
    ensures Ended(before, after, ok)
  {
    RanStays(log, after, |before|, |SCRIPT|);
  }

  /** No IPv6 inside, if that can be had, and a resolver. */
  method Furnish(k: Machine, ghost before: seq<Event>) returns (r: Outcome)
    requires k.Valid() && k.pc == Creating(9) && Step(before, k.log, 9, true)
    modifies k
    ensures k.Valid() && k.pc == (if r.Pass? then StartTor else RollbackNs)
    ensures Ended(before, k.log, r.Pass?) && (r.Pass? ==> k.resolver)
    ensures old(k.faults) <= k.faults && (r.Pass? <==> k.faults == old(k.faults))
    ensures r.Fail? ==> k.back == k.faults
    ensures k.host.tables == old(k.host.tables)
  {
    ghost var ok := k.DisableIpv6();
    r := k.WriteResolvConf();
    Furnished(before, old(k.log), k.log, ok, r.Pass?);
  }

  /** The commands in their order, each ending the creation when it fails, but for the sysctl
      that turns IPv6 off. */
  method CreateInner(k: Machine) returns (r: Outcome)
    requires k.Valid() && k.pc == Creating(0)
    modifies k
    ensures k.Valid() && k.pc == (if r.Pass? then StartTor else RollbackNs)
    ensures Ended(old(k.log), k.log, r.Pass?) && (r.Pass? ==> k.resolver)
    ensures old(k.faults) <= k.faults && (r.Pass? ==> k.faults == old(k.faults))
    ensures k.faults == old(k.faults) && old(k.host.net.peer) == None ==> r.Pass?
    ensures r.Fail? ==> k.back == k.faults
    ensures k.host.tables == old(k.host.tables)
  {
    ghost var before := k.log;
    r := CreateLinks(k, before);
    if r.Fail? {
      return;
    }
    r := Configure(k, before);
    if r.Fail? {
      return;
    }
    r := Furnish(k, before);
  }

  /** Neither end of the veth is left. */
  predicate VethGone(n: Net) {
    n.peer == None && VETH_HOST !in n.root.links && VETH_NS !in n.root.links
  }

  lemma VethGoes(n: Net)
    requires NetInv(n)
    ensures match Exec(n, VethDelete)
            case None => VethGone(n)
            case Some(m) => VethGone(m) && m.named == n.named
  {
  }

  lemma NameGoes(n: Net)
    ensures match Exec(n, NetnsDelete) case None => n.named == None case Some(m) => m.named == None
  {
  }

  method DeleteName(k: Machine)
    requires k.Valid() && k.pc == RollbackNs
    modifies k
    ensures k.Valid() && k.pc == RollbackLink && old(k.faults) <= k.faults && k.host.tables == old(k.host.tables)
    ensures exists ok :: k.log == old(k.log) + [Ip(NetnsDelete, ok)]
    ensures k.back == old(k.back)
    ensures k.faults == old(k.faults) ==> k.host.net.named == None
  {
    var r := k.RunIp(NetnsDelete);
    NameGoes(k.seen.net);
  }

  method DeleteVeth(k: Machine)
    requires k.Valid() && k.pc == RollbackLink
    modifies k
    ensures k.Valid() && k.pc == Idle && old(k.faults) <= k.faults && k.host.tables == old(k.host.tables)
    ensures k.host.net.named == old(k.host.net.named)
    ensures exists ok :: k.log == old(k.log) + [Ip(VethDelete, ok)]
    ensures k.back == old(k.back)
    ensures k.faults == old(k.faults) ==> VethGone(k.host.net)
  {
    var r := k.RunIp(VethDelete);
    VethGoes(k.seen.net);
  }

  /** Both deletions were tried, and they were the last things done. */
  ghost predicate Deleted(log: seq<Event>) {
    && |log| >= 2
    && log[|log| - 2].Ip? && log[|log| - 2].cmd == NetnsDelete
    && log[|log| - 1].Ip? && log[|log| - 1].cmd == VethDelete
  }

  /** Since then the creation broke off, and right after that both deletions were tried. */
  ghost predicate RolledBack(before: seq<Event>, after: seq<Event>) {
    && before <= after && Deleted(after)
    && exists s, c :: |before| <= s && c == |after| - 3 && BrokeOff(after, s, c)
  }

  lemma RollsBack(before: seq<Event>, broken: seq<Event>, after: seq<Event>)
    requires Ended(before, broken, false) && broken <= after
    requires |after| == |broken| + 2 && Deleted(after)
    ensures RolledBack(before, after)
  {
    BrokeOffStays(broken, after, |before|, |broken| - 1);
  }

  /** Undo what succeeded: the name, and the veth in case it never got inside. */
  method Rollback(k: Machine) returns (ghost undone: bool)
    requires k.Valid() && k.pc == RollbackNs
    modifies k
    ensures k.Valid() && k.pc == Idle && old(k.faults) <= k.faults && k.back == old(k.back)
    ensures undone <==> k.faults == old(k.faults)
    ensures undone ==> k.host.net.named == None && VethGone(k.host.net)
    ensures k.host.tables == old(k.host.tables)
    ensures old(k.log) <= k.log && |k.log| == |old(k.log)| + 2 && Deleted(k.log)
  {
    DeleteName(k);
    DeleteVeth(k);
    undone := k.faults == old(k.faults);
  }

  /** Since then the namespace was created, and that was last. */
  ghost predicate CameAbout(before: seq<Event>, after: seq<Event>) {
    before <= after && exists s, e :: |before| <= s && e == |after| - 1 && Completed(after, s, e)
  }

  method CreateOrRollBack(k: Machine) returns (r: Outcome, ghost undone: bool)
    requires k.Valid() && k.pc == Creating(0)
    modifies k
    ensures k.Valid() && k.pc == (if r.Pass? then StartTor else Idle)
    ensures k.host.tables == old(k.host.tables) && old(k.log) <= k.log
    ensures r.Pass? ==> Built(k.host.net, |SCRIPT|) && k.faults == old(k.faults) && undone && k.resolver
    ensures r.Pass? ==> Ended(old(k.log), k.log, true)
    ensures r.Fail? ==> r.why == CommandFailed && RolledBack(old(k.log), k.log) && (undone <==> k.faults == k.back)
    ensures r.Fail? && undone ==> k.host.net.named == None && VethGone(k.host.net)
    ensures r.Fail?
            ==> old(k.faults) <= k.back <= k.faults && (k.back == old(k.faults) ==> old(k.host.net.peer).Some?)
  {
    r := CreateInner(k);
    undone := true;
    if r.Fail? {
      ghost var broken := k.log;
      undone := Rollback(k);
      RollsBack(old(k.log), broken, k.log);
      r := Fail(CommandFailed);
    } else {
      k.ServingIsBuilt();
    }
  }

  /** All or nothing. On success the namespace is fully built. On failure both deletions were
      tried, and unless one of them met a fault of its own, neither the namespace's name nor
      either end of the veth is left: `undone` is exactly that there was no fault since the
      daemon turned back. A namespace that was there is not touched. And where nothing was in
      the way and no command met a fault, it succeeds: a veth left behind by a crash costs
      the one attempt that clears it away. */
  method Create(k: Machine) returns (r: Outcome, ghost undone: bool)
    requires k.Valid() && k.pc == CreateCheck
    modifies k
    ensures k.Valid() && k.pc == (if r.Pass? then StartTor else Idle)
    ensures old(k.faults) <= k.faults && k.host.tables == old(k.host.tables) && old(k.log) <= k.log
    ensures r.Pass? ==> Built(k.host.net, |SCRIPT|) && k.faults == old(k.faults) && k.resolver
    ensures r.Pass? ==> CameAbout(old(k.log), k.log)
    ensures old(k.host.net.named).Some? ==> r == Fail(AlreadyExists) && OnlyLooked(old(k.Now()), k.Now())
    ensures r.Fail? ==> r.why == if old(k.host.net.named).Some? then AlreadyExists else CommandFailed
    ensures r == Fail(AlreadyExists) ==> undone && JustDid(old(k.log), k.log, SawNamespace(true))
    ensures r == Fail(CommandFailed) ==> RolledBack(old(k.log), k.log) && (undone <==> k.faults == k.back)
    ensures r == Fail(CommandFailed) && undone ==> k.host.net.named == None && VethGone(k.host.net)
    ensures r == Fail(CommandFailed)
            ==> old(k.faults) <= k.back <= k.faults && (k.back == old(k.faults) ==> old(k.host.net.peer).Some?)
    ensures k.faults == old(k.faults) ==> undone
    ensures k.faults == old(k.faults) && old(k.host.net.named) == None && old(k.host.net.peer) == None ==> r.Pass?
  {
    var present := k.NamespaceExists();
    if present {
      return Fail(AlreadyExists), true;
    }
    r, undone := CreateOrRollBack(k);
  }

  /** Delete the namespace's name, if it is there; and then, asking no questions, its resolver
      file. */
  method Destroy(k: Machine) returns (r: Outcome)
    requires k.Valid() && (k.pc == UndoNs || k.pc.DownNs?)
    modifies k
    ensures k.Valid() && k.pc == Idle
    ensures k.log == old(k.log) + [Destroyed(r.Pass?)]
    ensures k.back == old(k.back)
    ensures k.host.tables == old(k.host.tables) && (k.host.tor ==> old(k.host.tor))
    ensures r.Pass? ==> k.host.net.named == None && k.faults == old(k.faults)
    ensures r.Fail? ==> Undisturbed(old(k.host), k.host) && old(k.host.net.named).Some? && old(k.faults) < k.faults
                        && r.why == NamespaceStays
    ensures r.Pass? && k.ignored == old(k.ignored) ==> !k.resolver
    ensures r.Fail? ==> k.resolver == old(k.resolver)
  {
    r := k.DeleteNamespace();
    if r.Pass? {
      k.RemoveResolver();
    }
  }

  // -------------------------------------------------------- stopping programs

  const TERM_GRACE: nat := 5_000_000_000
  const KILL_GRACE: nat := 2_000_000_000

  /** From `n` up to `end` nothing but listings, of some program each. */
  ghost predicate Inhabited(log: seq<Event>, n: int, end: int) {
    && 0 <= n <= end <= |log|
    && (n < end ==> log[end - 1].Listed? && log[end - 1].pids.Some? && log[end - 1].pids != Some({})
                    && Inhabited(log, n, end - 1))
  }

  lemma {:induction false} InhabitedStays(a: seq<Event>, b: seq<Event>, n: int, end: int)
    requires a <= b && Inhabited(a, n, end)
    ensures Inhabited(b, n, end)
    decreases end
  {
    if n < end {
      InhabitedStays(a, b, n, end - 1);
    }
  }

  /** The daemon's place and what it knows after a listing: over with it when it failed. */
  ghost predicate Knows(k: Machine, why: Why, r: Option<bool>)
    reads k
  {
    match r
    case None => k.pc == Idle
    case Some(empty) => k.pc == Stopping(why, empty) && (empty ==> PidsInside(k.host) == {})
  }

  /** The last listing said so. */
  ghost predicate LastListing(before: seq<Event>, after: seq<Event>, r: Option<bool>) {
    && before <= after && |before| < |after| && after[|after| - 1].Listed?
    && (r.None? <==> after[|after| - 1].pids == None)
    && (r.Some? ==> (r.value <==> after[|after| - 1].pids == Some({})))
  }

  /** Since then nothing but listings, of which only the last was not of some program, if that. */
  ghost predicate Polled(before: seq<Event>, after: seq<Event>, r: Option<bool>) {
    LastListing(before, after, r) && Inhabited(after, |before|, |after| - 1)
  }

  lemma OneMoreListing(before: seq<Event>, mid: seq<Event>, after: seq<Event>, r: Option<bool>)
    requires before <= mid && Inhabited(mid, |before|, |mid|) && LastListing(mid, after, r) && |after| == |mid| + 1
    ensures Polled(before, after, r) && (r == Some(false) ==> Inhabited(after, |before|, |after|))
  {
    InhabitedStays(mid, after, |before|, |mid|);
  }

  /** Whether nothing is listed, or `None` when the listing failed. */
  method Poll(k: Machine) returns (r: Option<bool>)
    requires k.Valid() && k.pc.Stopping?
    modifies k`host, k`now, k`pc, k`log, k`acts, k`back, k`faults
    ensures k.back == old(k.back) && old(k.now) <= k.now
    ensures k.Valid() && OnlyLooked(old(k.Now()), k.Now()) && Knows(k, old(k.pc).why, r)
    ensures |k.log| == |old(k.log)| + 1 && LastListing(old(k.log), k.log, r)
    ensures old(k.faults) <= k.faults && (r.None? <==> old(k.faults) < k.faults)
  {
    var pids := k.ListPids();
    match pids
    case None => return None;
    case Some(listed) => return Some(listed == {});
  }

  /** Poll until nothing is listed or the time is up, in nanoseconds. However long a poll
      takes, there is at most one for each 100 milliseconds, and one more. */
  method WaitUntilEmpty(k: Machine, timeout: nat) returns (r: Option<bool>, polls: nat)
    requires k.Valid() && k.pc.Stopping?
    modifies k`host, k`now, k`pc, k`log, k`acts, k`back, k`faults
    ensures k.back == old(k.back) && old(k.now) <= k.now
    ensures k.Valid() && OnlyLooked(old(k.Now()), k.Now()) && Knows(k, old(k.pc).why, r)
    ensures Polled(old(k.log), k.log, r)
    ensures (polls - 1) * 100_000_000 < timeout + 100_000_000
    ensures old(k.faults) <= k.faults && (r.None? <==> old(k.faults) < k.faults)
    ensures r == Some(false) ==> old(k.now) + timeout <= k.now
  {
    var deadline := k.now + timeout;
    polls := 0;
    while true
      invariant k.Valid() && OnlyLooked(old(k.Now()), k.Now()) && k.faults == old(k.faults)
      invariant k.pc.Stopping? && k.pc.why == old(k.pc).why && k.back == old(k.back)
      invariant old(k.log) <= k.log && Inhabited(k.log, |old(k.log)|, |k.log|)
      invariant deadline - timeout + polls * 100_000_000 <= k.now
      invariant polls * 100_000_000 < timeout + 100_000_000
      decreases deadline + 100_000_000 - polls * 100_000_000
    {
      ghost var listed := k.log;
      r := Poll(k);
      OneMoreListing(old(k.log), listed, k.log, r);
      polls := polls + 1;
      if r != Some(false) || k.now >= deadline {
        return;
      }
      k.Sleep(100_000_000);
    }
  }

  /** A stage of stopping, as the run shows it from `n` up to `end`: what was inside was
      listed, all of it was sent the signal, and from then on there were only listings, until
      one was not of some program. */
  ghost predicate Stage(log: seq<Event>, n: int, end: int, sig: Signal) {
    && 0 <= n && n + 2 <= end <= |log|
    && log[n + 1].Signalled? && log[n + 1].sig == sig && log[n] == Listed(Some(log[n + 1].whom))
    && (n + 2 < end ==> log[end - 1].Listed? && Inhabited(log, n + 2, end - 1))
  }

  /** Signal every process inside; whether there was any, or `None` when they could not be
      listed. */
  method SignalAll(k: Machine, sig: Signal) returns (r: Option<bool>)
    requires k.Valid() && k.pc.Stopping?
    modifies k`host, k`now, k`pc, k`log, k`acts, k`back, k`faults
    ensures k.back == old(k.back) && old(k.now) <= k.now
    ensures k.Valid() && OnlyLooked(old(k.Now()), k.Now())
    ensures old(k.faults) <= k.faults && (r.None? <==> old(k.faults) < k.faults)
    ensures match r
            case None => k.pc == Idle && k.log == old(k.log) + [Listed(None)]
            case Some(any) =>
              && k.pc == Stopping(old(k.pc).why, !any) && (!any ==> PidsInside(k.host) == {})
              && Stage(k.log, |old(k.log)|, |k.log|, sig) && |k.log| == |old(k.log)| + 2
              && k.log[|k.log| - 1].at == k.now && (any <==> k.log[|k.log| - 1].whom != {})
  {
    var pids := k.ListPids();
    match pids
    case None => return None;
    case Some(listed) =>
      k.SendSignal(sig, listed);
      return Some(listed != {});
  }

  /** A stage that ended so: with a listing that failed, or that was empty, or not empty
      though the time had passed. */
  ghost predicate StageEnds(before: seq<Event>, after: seq<Event>, sig: Signal, r: Option<bool>, grace: nat, now: nat) {
    && before <= after && |before| < |after|
    && if |after| == |before| + 1 then r.None? && after[|before|] == Listed(None)
       else
         && Stage(after, |before|, |after|, sig)
         && (r.None? ==> after[|after| - 1] == Listed(None))
         && (r == Some(false) ==> after[|before| + 1].at + grace <= now
                                  && after[|after| - 1].Listed? && after[|after| - 1].pids != Some({}))
  }

  lemma StageWaited(before: seq<Event>, asked: seq<Event>, after: seq<Event>, sig: Signal, r: Option<bool>,
                    grace: nat, now: nat)
    requires before <= asked && |asked| == |before| + 2 && Stage(asked, |before|, |asked|, sig)
    requires Polled(asked, after, r)
    requires r == Some(false) ==> asked[|asked| - 1].at + grace <= now
    ensures StageEnds(before, after, sig, r, grace, now)
  {
    assert after[|before|] == asked[|before|] && after[|before| + 1] == asked[|before| + 1];
  }

  /** With the signal sent: wait until nothing is listed, or the grace is over. */
  method AwaitStage(k: Machine, ghost before: seq<Event>, ghost sig: Signal, grace: nat)
    returns (r: Option<bool>, polls: nat)
    requires k.Valid() && k.pc.Stopping? && before <= k.log && |k.log| == |before| + 2
    requires Stage(k.log, |before|, |k.log|, sig) && k.log[|k.log| - 1].at == k.now
    modifies k`host, k`now, k`pc, k`log, k`acts, k`back, k`faults
    ensures k.back == old(k.back) && old(k.now) <= k.now && (polls - 1) * 100_000_000 < grace + 100_000_000
    ensures k.Valid() && OnlyLooked(old(k.Now()), k.Now()) && Knows(k, old(k.pc).why, r)
    ensures old(k.faults) <= k.faults && (r.None? <==> old(k.faults) < k.faults)
    ensures StageEnds(before, k.log, sig, r, grace, k.now)
    ensures r == Some(false) ==> old(k.now) + grace <= k.now
  {
    ghost var asked := k.log;
    r, polls := WaitUntilEmpty(k, grace);
    StageWaited(before, asked, k.log, sig, r, grace, k.now);
  }

  /** Ask what is inside to end, and give it five seconds. */
  method Terminate(k: Machine) returns (r: Option<bool>, polls: nat)
    requires k.Valid() && k.pc.Stopping?
    modifies k`host, k`now, k`pc, k`log, k`acts, k`back, k`faults
    ensures k.back == old(k.back) && old(k.now) <= k.now && polls <= 51
    ensures k.Valid() && OnlyLooked(old(k.Now()), k.Now()) && Knows(k, old(k.pc).why, r)
    ensures old(k.faults) <= k.faults && (r.None? <==> old(k.faults) < k.faults)
    ensures StageEnds(old(k.log), k.log, SigTerm, r, TERM_GRACE, k.now)
    ensures r == Some(false) ==> Resisted(old(k.log), k.log, k.now) && old(k.now) + TERM_GRACE <= k.now
  {
    polls := 0;
    var any := SignalAll(k, SigTerm);
    match any
    case None => return None, polls;
    case Some(some) =>
      if !some {
        return Some(true), polls;
      }
      r, polls := AwaitStage(k, old(k.log), SigTerm, TERM_GRACE);
  }

  /** Kill what is left, and give it two seconds to go. */
  method Kill(k: Machine) returns (r: Option<bool>, polls: nat)
    requires k.Valid() && k.pc.Stopping?
    modifies k`host, k`now, k`pc, k`log, k`acts, k`back, k`faults
    ensures k.back == old(k.back) && old(k.now) <= k.now && polls <= 21
    ensures k.Valid() && OnlyLooked(old(k.Now()), k.Now()) && Knows(k, old(k.pc).why, r)
    ensures old(k.faults) <= k.faults && (r.None? <==> old(k.faults) < k.faults)
    ensures StageEnds(old(k.log), k.log, SigKill, r, KILL_GRACE, k.now)
    ensures |old(k.log)| + 1 < |k.log| ==> old(k.now) <= k.log[|old(k.log)| + 1].at
    ensures r == Some(false) ==> old(k.now) + KILL_GRACE <= k.now
  {
    polls := 0;
    var any := SignalAll(k, SigKill);
    if any.None? {
      return None, polls;
    }
    r, polls := AwaitStage(k, old(k.log), SigKill, KILL_GRACE);
  }

  /** Both stages: SIGTERM to something, and SIGKILL at `m`, when five seconds had passed. */
  ghost predicate Forced(log: seq<Event>, n: int, m: int, end: int) {
    && Stage(log, n, m, SigTerm) && Stage(log, m, end, SigKill)
    && log[n + 1].whom != {} && log[n + 1].at + 5_000_000_000 <= log[m + 1].at
  }

  /** How far the stopping had got at `end`: nowhere, to SIGTERM, or to SIGKILL. */
  ghost predicate Approached(log: seq<Event>, n: int, end: int) {
    || (0 <= n == end <= |log|)
    || Stage(log, n, end, SigTerm)
    || exists m :: Forced(log, n, m, end)
  }

  /** The last thing since then was a listing that failed. */
  ghost predicate ListingBroke(before: seq<Event>, after: seq<Event>) {
    |before| < |after| && after[|after| - 1] == Listed(None) && Approached(after, |before|, |after| - 1)
  }

  /** What emptying the namespace shows in the run: it was approached in that way, and the last
      listing was the end of it. Giving up takes both stages, and the grace of both. */
  ghost predicate Emptying(before: seq<Event>, after: seq<Event>, r: Option<bool>, now: nat) {
    && before <= after && |before| < |after|
    && match r
       case None => ListingBroke(before, after)
       case Some(true) => Approached(after, |before|, |after|)
       case Some(false) => exists m :: Forced(after, |before|, m, |after|) && after[m + 1].at + KILL_GRACE <= now
  }

  /** What was asked to end had not, five seconds later. */
  ghost predicate Resisted(before: seq<Event>, after: seq<Event>, now: nat) {
    StageEnds(before, after, SigTerm, Some(false), TERM_GRACE, now) && after[|before| + 1].whom != {}
  }

  lemma FirstStage(before: seq<Event>, after: seq<Event>, r: Option<bool>, now: nat)
    requires StageEnds(before, after, SigTerm, r, TERM_GRACE, now) && r != Some(false)
    ensures Emptying(before, after, r, now)
  {
    if r.None? && |after| > |before| + 1 {
      assert after[|before| + 1].Signalled?;
      assert Stage(after, |before|, |after| - 1, SigTerm);
    }
  }

  lemma SecondStage(before: seq<Event>, termed: seq<Event>, after: seq<Event>, r: Option<bool>, since: nat, now: nat)
    requires Resisted(before, termed, since)
    requires StageEnds(termed, after, SigKill, r, KILL_GRACE, now)
    requires |termed| + 1 < |after| ==> since <= after[|termed| + 1].at
    ensures Emptying(before, after, r, now)
  {
    var n, m := |before|, |termed|;
    assert after[n + 1] == termed[n + 1];
    StageStays(termed, after, n, m, SigTerm);
    if |after| > m + 1 {
      if r.None? {
        assert after[m + 1].Signalled?;
        assert Forced(after, n, m, |after| - 1);
      } else {
        assert Forced(after, n, m, |after|);
      }
    }
  }

  /** Terminate, and then kill, as far as that is needed. */
  method Empty(k: Machine) returns (r: Option<bool>, termPolls: nat, killPolls: nat)
    requires k.Valid() && k.pc.Stopping?
    modifies k`host, k`now, k`pc, k`log, k`acts, k`back, k`faults
    ensures k.back == old(k.back) && old(k.now) <= k.now && termPolls <= 51 && killPolls <= 21
    ensures k.Valid() && OnlyLooked(old(k.Now()), k.Now()) && Knows(k, old(k.pc).why, r)
    ensures old(k.faults) <= k.faults && (r.None? <==> old(k.faults) < k.faults)
    ensures Emptying(old(k.log), k.log, r, k.now)
    ensures r == Some(false) ==> old(k.now) + TERM_GRACE + KILL_GRACE <= k.now
  {
    killPolls := 0;
    r, termPolls := Terminate(k);
    if r != Some(false) {
      FirstStage(old(k.log), k.log, r, k.now);
      return;
    }
    r, killPolls := KillAfter(k, old(k.log));
  }

  /** What would not end in time is killed. */
  method KillAfter(k: Machine, ghost before: seq<Event>) returns (r: Option<bool>, polls: nat)
    requires k.Valid() && k.pc.Stopping? && Resisted(before, k.log, k.now)
    modifies k`host, k`now, k`pc, k`log, k`acts, k`back, k`faults
    ensures k.back == old(k.back) && old(k.now) <= k.now && polls <= 21
    ensures k.Valid() && OnlyLooked(old(k.Now()), k.Now()) && Knows(k, old(k.pc).why, r)
    ensures old(k.faults) <= k.faults && (r.None? <==> old(k.faults) < k.faults)
    ensures Emptying(before, k.log, r, k.now)
    ensures r == Some(false) ==> old(k.now) + KILL_GRACE <= k.now
  {
    ghost var termed, since := k.log, k.now;
    r, polls := Kill(k);
    SecondStage(before, termed, k.log, r, since, k.now);
  }

  /** The last listing was empty: no program is in the tunnel, nor will one enter. */
  method Emptied(k: Machine)
    requires k.Valid() && k.pc.Stopping? && k.pc.empty
    modifies k`host, k`now, k`pc, k`log, k`acts, k`back, k`faults
    ensures k.Valid() && OnlyLooked(old(k.Now()), k.Now()) && k.pc == DownRules(old(k.pc).why)
    ensures k.back == old(k.back) && k.now == old(k.now) && k.log == old(k.log) + [Stopped]
    ensures k.host == old(k.host) && NoPrograms(k.host) && k.faults == old(k.faults)
  {
    k.Proceed();
    assert NoPrograms(k.host) by { k.Invariant(); }
  }

  /** Since then one last listing, and the end of it. */
  ghost predicate GaveUpAfterListing(before: seq<Event>, after: seq<Event>, now: nat) {
    && before <= after && |after| == |before| + 2
    && after[|after| - 2].Listed? && after[|after| - 1] == Event.GaveUp(now)
  }

  /** Say what is still running, and give up. */
  method GiveUp(k: Machine) returns (r: Outcome)
    requires k.Valid() && k.pc.Stopping?
    modifies k`host, k`now, k`pc, k`log, k`acts, k`back, k`faults
    ensures k.Valid() && OnlyLooked(old(k.Now()), k.Now()) && k.pc == Idle
    ensures k.back == old(k.back) && old(k.now) <= k.now && old(k.faults) <= k.faults
    ensures match r
            case Fail(ListingFailed) => k.log == old(k.log) + [Listed(None)] && old(k.faults) < k.faults
            case Fail(StillRunning) => GaveUpAfterListing(old(k.log), k.log, k.now) && k.faults == old(k.faults)
            case _ => false
  {
    var listed := Poll(k);
    if listed.None? {
      return Fail(ListingFailed);
    }
    k.GiveUp();
    return Fail(StillRunning);
  }

  /** The programs inside had stopped: the namespace was approached, and then found empty. */
  ghost predicate ProgramsStopped(before: seq<Event>, log: seq<Event>, e: int) {
    before <= log && |before| < e < |log| && log[e] == Stopped && Approached(log, |before|, e)
  }

  /** Why they were not: a listing failed, and that was the end of it; or SIGTERM was sent, and
      five seconds later SIGKILL, and after two more the daemon gave up. */
  ghost predicate NotStopped(before: seq<Event>, after: seq<Event>, why: Failure) {
    && before <= after && |before| < |after|
    && match why
       case ListingFailed => ListingBroke(before, after)
       case StillRunning =>
         && |before| + 2 <= |after| && after[|after| - 1].GaveUp? && after[|after| - 2].Listed?
         && exists m, e :: e == |after| - 2 && Forced(after, |before|, m, e)
                           && after[m + 1].at + 2_000_000_000 <= after[e + 1].at
       case _ => false
  }

  lemma ApproachedStays(a: seq<Event>, b: seq<Event>, n: int, end: int)
    requires a <= b && end <= |a| && Approached(a, n, end)
    ensures Approached(b, n, end)
  {
    if Stage(a, n, end, SigTerm) {
      StageStays(a, b, n, end, SigTerm);
    } else if m :| Forced(a, n, m, end) {
      ForcedStays(a, b, n, m, end);
    }
  }

  lemma StageStays(a: seq<Event>, b: seq<Event>, n: int, end: int, sig: Signal)
    requires a <= b && Stage(a, n, end, sig)
    ensures Stage(b, n, end, sig)
  {
    assert b[n] == a[n] && b[n + 1] == a[n + 1];
    if n + 2 < end {
      InhabitedStays(a, b, n + 2, end - 1);
    }
  }

  lemma ForcedStays(a: seq<Event>, b: seq<Event>, n: int, m: int, end: int)
    requires a <= b && Forced(a, n, m, end)
    ensures Forced(b, n, m, end) && b[m + 1] == a[m + 1]
  {
    StageStays(a, b, n, m, SigTerm);
    StageStays(a, b, m, end, SigKill);
    assert b[n + 1] == a[n + 1];
  }

  lemma StoppedNext(before: seq<Event>, emptied: seq<Event>, after: seq<Event>, now: nat)
    requires Emptying(before, emptied, Some(true), now) && after == emptied + [Stopped]
    ensures ProgramsStopped(before, after, |after| - 1)
  {
    ApproachedStays(emptied, after, |before|, |emptied|);
  }

  lemma GaveUpNext(before: seq<Event>, emptied: seq<Event>, after: seq<Event>, r: Outcome, since: nat, now: nat)
    requires Emptying(before, emptied, Some(false), since) && since <= now
    requires match r
             case Fail(ListingFailed) => after == emptied + [Listed(None)]
             case Fail(StillRunning) => GaveUpAfterListing(emptied, after, now)
             case _ => false
    ensures NotStopped(before, after, r.why)
  {
    var m :| Forced(emptied, |before|, m, |emptied|) && emptied[m + 1].at + KILL_GRACE <= since;
    ForcedStays(emptied, after, |before|, m, |emptied|);
  }

  /** Nothing is left inside: the teardown can proceed. */
  method EndEmpty(k: Machine, ghost before: seq<Event>)
    requires k.Valid() && k.pc.Stopping? && k.pc.empty && Emptying(before, k.log, Some(true), k.now)
    modifies k`host, k`now, k`pc, k`log, k`acts, k`back, k`faults
    ensures k.Valid() && OnlyLooked(old(k.Now()), k.Now()) && k.pc == DownRules(old(k.pc).why)
    ensures k.back == old(k.back) && k.now == old(k.now)
    ensures k.host == old(k.host) && NoPrograms(k.host) && k.faults == old(k.faults)
    ensures ProgramsStopped(before, k.log, |old(k.log)|) && |k.log| == |old(k.log)| + 1
  {
    ghost var log := k.log;
    assert ProgramsStopped(before, log + [Stopped], |log|) by { StoppedNext(before, log, log + [Stopped], k.now); }
    Emptied(k);
    assert k.log == log + [Stopped];
  }

  /** Something is still inside: say so, and give up. */
  method EndInhabited(k: Machine, ghost before: seq<Event>) returns (r: Outcome)
    requires k.Valid() && k.pc.Stopping? && Emptying(before, k.log, Some(false), k.now)
    modifies k`host, k`now, k`pc, k`log, k`acts, k`back, k`faults
    ensures k.Valid() && OnlyLooked(old(k.Now()), k.Now()) && k.pc == Idle
    ensures k.back == old(k.back) && old(k.now) <= k.now && old(k.faults) <= k.faults
    ensures r.Fail? && (r.why == ListingFailed || r.why == StillRunning)
    ensures NotStopped(before, k.log, r.why) && (r.why == ListingFailed <==> old(k.faults) < k.faults)
  {
    r := GiveUp(k);
    GaveUpNext(before, old(k.log), k.log, r, old(k.now), k.now);
  }

  lemma BrokeThere(before: seq<Event>, after: seq<Event>, now: nat)
    requires Emptying(before, after, None, now)
    ensures NotStopped(before, after, ListingFailed)
  {
  }

  /** Proceed, or stop there, as emptying the namespace went. */
  method End(k: Machine, ghost before: seq<Event>, empty: Option<bool>) returns (r: Outcome)
    requires k.Valid() && Emptying(before, k.log, empty, k.now)
    requires match empty case None => k.pc == Idle case Some(e) => k.pc.Stopping? && k.pc.empty == e
    modifies k`host, k`now, k`pc, k`log, k`acts, k`back, k`faults
    ensures k.Valid() && OnlyLooked(old(k.Now()), k.Now()) && k.back == old(k.back) && old(k.now) <= k.now
    ensures r.Pass? <==> empty == Some(true)
    ensures r.Pass? ==> k.pc == DownRules(old(k.pc).why) && NoPrograms(k.host) && k.host == old(k.host)
    ensures r.Pass? ==> ProgramsStopped(before, k.log, |k.log| - 1)
    ensures r.Fail? ==> k.pc == Idle && NotStopped(before, k.log, r.why)
    ensures r == Fail(StillRunning) ==> empty == Some(false)
    ensures old(k.faults) <= k.faults && (r == Fail(ListingFailed) <==> empty.None? || old(k.faults) < k.faults)
  {
    if empty == Some(false) {
      r := EndInhabited(k, before);
    } else if empty == Some(true) {
      EndEmpty(k, before);
      r := Pass;
    } else {
      BrokeThere(before, k.log, k.now);
      r := Fail(ListingFailed);
    }
  }

  /** Empty the namespace. It succeeds only when its last listing was empty, and then no
      program is left in the tunnel; otherwise the daemon has done nothing to the host but
      signal, and a listing failed, or it asked, killed, waited and gave up. */
  method StopProcesses(k: Machine) returns (r: Outcome, termPolls: nat, killPolls: nat)
    requires k.Valid() && k.pc.Stopping?
    modifies k`host, k`now, k`pc, k`log, k`acts, k`back, k`faults
    ensures k.back == old(k.back) && old(k.now) <= k.now && termPolls <= 51 && killPolls <= 21
    ensures k.Valid() && OnlyLooked(old(k.Now()), k.Now())
    ensures r.Pass? ==> k.pc == DownRules(old(k.pc).why) && PidsInside(k.host) == {} && NoPrograms(k.host)
    ensures r.Pass? ==> ProgramsStopped(old(k.log), k.log, |k.log| - 1)
    ensures r.Fail? ==> k.pc == Idle && (r.why == ListingFailed || r.why == StillRunning)
    ensures r.Fail? ==> NotStopped(old(k.log), k.log, r.why)
    ensures r == Fail(StillRunning) ==> old(k.now) + TERM_GRACE + KILL_GRACE <= k.now
    ensures old(k.faults) <= k.faults && (r == Fail(ListingFailed) <==> old(k.faults) < k.faults)
  {
    var empty;
    empty, termPolls, killPolls := Empty(k);
    r := End(k, old(k.log), empty);
  }
}
