/** `src/tor.rs`: starting tort's own tor and waiting until it serves, and stopping it. */
module Tor {
  import opened Options
  import opened Lifecycle
  import opened Kernel

  const GRACE: nat := 10_000_000_000
  const PATIENCE: nat := 120_000_000_000

  // ---------------------------------------------------------------- stopping

  /** What stopping tor adds to the run. */
  function StopEvents(asked: bool, killed: bool, gone: bool): seq<Event> {
    (if asked then [AskedTor] else []) + [StoppedTor(asked, killed, gone)]
  }

  /** Whether any process of tort's tor is listed. */
  method Listed(k: Machine) returns (running: bool)
    requires k.Valid()
    modifies k`host, k`now
    ensures k.Valid() && Undisturbed(old(k.host), k.host) && old(k.now) <= k.now
    ensures running == k.host.tor
  {
    k.Others();
    running := k.host.tor;
  }

  /** Ask tor to end, give it ten seconds, and kill what is left then: at most 50 polls. No
      error is reported; `gone` says whether it is. Nothing is asked to end when neither a
      process nor a pidfile is found. */
  method Stop(k: Machine) returns (ghost asked: bool, ghost killed: bool, ghost gone: bool, polls: nat)
    requires k.Valid() && (k.pc == StartTor || k.pc == UndoTor || k.pc.DownTor?)
    modifies k`host, k`now, k`pc, k`log, k`acts, k`back, k`faults
    ensures k.Valid() && Undisturbed(old(k.host), k.host) && old(k.faults) <= k.faults && old(k.now) <= k.now
    ensures k.pc == PastTor(old(k.pc)) && k.log == old(k.log) + StopEvents(asked, killed, gone)
    ensures polls <= 50 && (!asked ==> !killed && polls == 0) && (!old(k.host.tor) ==> polls <= 1)
    ensures killed ==> asked && old(k.now) + 10_000_000_000 <= k.now
    ensures (gone <==> k.faults == old(k.faults)) && (gone <==> !k.host.tor) && (!killed ==> gone)
    ensures k.back == old(k.back)
  {
    polls := 0;
    var running := Listed(k);
    var pidfile: bool := *;
    asked := running || pidfile;
    if running || pidfile {
      k.AskTor();
      polls := AwaitEnd(k);
    }
    killed, gone := k.KillTor(running || pidfile);
  }

  /** Poll until no process is listed or ten seconds have passed. */
  method AwaitEnd(k: Machine) returns (polls: nat)
    requires k.Valid()
    modifies k`host, k`now
    ensures k.Valid() && Undisturbed(old(k.host), k.host) && polls <= 50 && old(k.now) <= k.now
    ensures (!k.host.tor || old(k.now) + GRACE <= k.now) && (!old(k.host.tor) ==> polls <= 1)
  {
    var deadline := k.now + GRACE;
    polls := 0;
    while k.now < deadline
      invariant k.Valid() && Undisturbed(old(k.host), k.host)
      invariant polls <= 50 && deadline + polls * 200_000_000 <= k.now + GRACE
      invariant !old(k.host.tor) ==> polls == 0
      decreases 50 - polls
    {
      var running := Listed(k);
      polls := polls + 1;
      if !running {
        return;
      }
      k.Sleep(200_000_000);
    }
  }

  // ---------------------------------------------------------------- starting

  /** What one look shows in the run. */
  ghost predicate Looked(before: seq<Event>, after: seq<Event>, seen: Option<bool>) {
    match seen
    case Some(true) => after == before + [SawTorLog(Bootstrapped)]
    case Some(false) => || after == before + [SawTorLog(Fatal)]
                        || after == before + [SawTorLog(Silent)] + [SawTor(false)]
    case None => after == before + [SawTorLog(Silent)] + [SawTor(true)]
  }

  /** One look at tor's log and its processes: whether it serves, or will not, or `None` while
      it is on its way. */
  method Glance(k: Machine) returns (served: Option<bool>)
    requires k.Valid() && k.pc == StartTor
    modifies k`host, k`now, k`pc, k`log, k`acts, k`back
    ensures k.Valid() && k.pc == StartTor && Undisturbed(old(k.host), k.host) && old(k.now) <= k.now
    ensures k.back == old(k.back)
    ensures Looked(old(k.log), k.log, served)
  {
    var progress := k.ReadTorLog();
    if progress != Silent {
      return Some(progress == Bootstrapped);
    }
    var running := k.ListTor();
    return if running then None else Some(false);
  }

  /** From `n` up to `end` nothing but looks that told nothing: the log was silent, and tor was
      running. */
  ghost predicate Quiet(log: seq<Event>, n: int, end: int) {
    && 0 <= n <= end <= |log|
    && (n < end ==> n + 2 <= end && log[end - 2] == SawTorLog(Silent) && log[end - 1] == SawTor(true)
                    && Quiet(log, n, end - 2))
  }

  lemma {:induction false} QuietStays(a: seq<Event>, b: seq<Event>, n: int, end: int)
    requires a <= b && Quiet(a, n, end)
    ensures Quiet(b, n, end)
    decreases end
  {
    if n < end {
      QuietStays(a, b, n, end - 2);
    }
  }

  /** Why waiting for tor, from `n` up to `end`, ended so. After looks that told nothing, its log
      said that it serves; or that it cannot; or it was not among the processes; or the time had
      passed. */
  ghost predicate WaitedAt(log: seq<Event>, n: int, end: int, served: bool, late: bool) {
    && 0 <= n < end <= |log|
    && match log[end - 1]
       case SawTorLog(Bootstrapped) => served && Quiet(log, n, end - 1)
       case SawTorLog(Fatal) => !served && Quiet(log, n, end - 1)
       case SawTor(false) => !served && n + 2 <= end && log[end - 2] == SawTorLog(Silent) && Quiet(log, n, end - 2)
       case SawTor(true) => !served && late && Quiet(log, n, end)
       case _ => false
  }

  /** The same, up to the end of the run. */
  ghost predicate Waited(before: seq<Event>, after: seq<Event>, served: bool, late: bool) {
    before <= after && WaitedAt(after, |before|, |after|, served, late)
  }

  /** Waiting is over when a look told something. */
  lemma ToldEnds(before: seq<Event>, mid: seq<Event>, after: seq<Event>, served: bool, late: bool)
    requires before <= mid && Quiet(mid, |before|, |mid|) && Looked(mid, after, Some(served))
    ensures Waited(before, after, served, late)
  {
    QuietStays(mid, after, |before|, |mid|);
    if after == mid + [SawTorLog(Silent)] + [SawTor(false)] {
      assert after[|after| - 1] == SawTor(false) && after[|after| - 2] == SawTorLog(Silent);
    } else {
      assert after[|after| - 1] == SawTorLog(if served then Bootstrapped else Fatal);
    }
  }

  /** Otherwise it has stayed quiet, and waiting is over when it is late. */
  lemma QuietGoesOn(before: seq<Event>, mid: seq<Event>, after: seq<Event>)
    requires before <= mid && Quiet(mid, |before|, |mid|) && Looked(mid, after, None)
    ensures before <= after && Quiet(after, |before|, |after|) && Waited(before, after, false, true)
  {
    QuietStays(mid, after, |before|, |mid|);
    assert after[|after| - 1] == SawTor(true) && after[|after| - 2] == SawTorLog(Silent);
  }

  /** Poll tor's log until it says that tor is serving, or that it cannot, or until tor is
      gone or the time is up: one poll for each half second, and one more. */
  method WaitForBootstrap(k: Machine, timeout: nat) returns (served: bool, polls: nat)
    requires k.Valid() && k.pc == StartTor
    modifies k`host, k`now, k`pc, k`log, k`acts, k`back
    ensures k.Valid() && k.pc == StartTor && Undisturbed(old(k.host), k.host) && old(k.now) <= k.now
    ensures k.back == old(k.back)
    ensures (polls - 1) * 500_000_000 < timeout + 500_000_000
    ensures Waited(old(k.log), k.log, served, old(k.now) + timeout <= k.now)
  {
    var deadline := k.now + timeout;
    polls := 0;
    while true
      invariant k.Valid() && k.pc == StartTor && Undisturbed(old(k.host), k.host)
      invariant k.back == old(k.back) && old(k.log) <= k.log && Quiet(k.log, |old(k.log)|, |k.log|)
      invariant deadline - timeout + polls * 500_000_000 <= k.now
      invariant polls * 500_000_000 < timeout + 500_000_000
      decreases deadline + 500_000_000 - polls * 500_000_000
    {
      ghost var quiet := k.log;
      var seen := Glance(k);
      if seen.Some? {
        ToldEnds(old(k.log), quiet, k.log, seen.value, k.now >= deadline);
      } else {
        QuietGoesOn(old(k.log), quiet, k.log);
      }
      polls := polls + 1;
      if seen.Some? || k.now >= deadline {
        return seen == Some(true), polls;
      }
      k.Sleep(500_000_000);
    }
  }

  /** Stop any orphan of an earlier run. */
  method ClearOrphans(k: Machine)
    requires k.Valid() && k.pc == StartTor
    modifies k`host, k`now, k`pc, k`log, k`acts, k`back, k`faults
    ensures k.Valid() && k.pc == StartTor && old(k.faults) <= k.faults && old(k.now) <= k.now
    ensures k.host.tables == old(k.host.tables) && k.host.net.named == old(k.host.net.named)
    ensures Cleared(old(k.log), k.log)
  {
    var running := k.ListTor();
    if running {
      ghost var asked, killed, gone;
      var polls;
      asked, killed, gone, polls := Stop(k);
    }
  }

  /** Since then tor's processes were listed, and stopped if there were any. */
  ghost predicate Cleared(before: seq<Event>, after: seq<Event>) {
    && before <= after && |before| < |after| && after[|before|].SawTor?
    && if after[|before|].running then |before| + 1 < |after| && after[|after| - 1].StoppedTor?
       else |after| == |before| + 1
  }

  /** With tor spawned: whether it comes to serve, within two minutes. One that is not there
      is not waited for. */
  method Await(k: Machine) returns (served: bool, polls: nat)
    requires k.Valid() && k.pc == StartTor
    modifies k`host, k`now, k`pc, k`log, k`acts, k`back
    ensures k.Valid() && k.pc == StartTor && Undisturbed(old(k.host), k.host) && polls <= 241 && old(k.now) <= k.now
    ensures k.back == old(k.back)
    ensures Awaited(old(k.log), k.log, served, old(k.now) + PATIENCE <= k.now)
  {
    var running := k.ListTor();
    if !running {
      return false, 0;
    }
    served, polls := WaitForBootstrap(k, PATIENCE);
  }

  ghost predicate Awaited(before: seq<Event>, after: seq<Event>, served: bool, late: bool) {
    before <= after && AwaitedAt(after, |before|, |after|, served, late)
  }

  /** From `n` up to `end`: tor was looked for, and waited for if it was there. */
  ghost predicate AwaitedAt(log: seq<Event>, n: int, end: int, served: bool, late: bool) {
    && 0 <= n < end <= |log| && log[n].SawTor?
    && if log[n].running then WaitedAt(log, n + 1, end, served, late) else !served && end == n + 1
  }

  lemma AwaitedStays(a: seq<Event>, b: seq<Event>, n: int, end: int, served: bool, late: bool)
    requires a <= b && AwaitedAt(a, n, end, served, late)
    ensures AwaitedAt(b, n, end, served, late)
  {
    if a[n].running {
      match a[end - 1]
      case SawTorLog(_) => QuietStays(a, b, n + 1, end - 1);
      case SawTor(running) => QuietStays(a, b, n + 1, if running then end else end - 2);
    }
  }

  /** A start as the run shows it: begun at `s`, tor spawned at `i`, and reported on at `e`.
      Orphans listed first were stopped before the spawn. A spawn that failed ended it; after
      one that did not, success is exactly that tor was there and then its log said that it
      serves, and failure that tor was not there, that its log said it cannot, that it was gone
      from the processes, or that two minutes had passed; and until then nothing was told. */
  ghost predicate StartedAt(log: seq<Event>, s: int, i: int, e: int, ok: bool) {
    && 0 <= s < i < e < |log| && log[s].SawTor? && log[i].SpawnedTor? && log[e].StartedTor? && log[e].ok == ok
    && (if log[s].running then s + 1 < i && log[i - 1].StoppedTor? else i == s + 1)
    && if !log[i].ok then !ok && e == i + 1
       else AwaitedAt(log, i + 1, e, ok, log[i].at + 120_000_000_000 <= log[e].at)
  }

  /** Since then tor was spawned, or not, and waited for if it was. */
  ghost predicate Spawned(before: seq<Event>, after: seq<Event>, ok: bool, now: nat) {
    && before <= after && |before| < |after| && after[|before|].SpawnedTor?
    && if !after[|before|].ok then !ok && |after| == |before| + 1
       else AwaitedAt(after, |before| + 1, |after|, ok, after[|before|].at + PATIENCE <= now)
  }

  lemma SpawnFailed(before: seq<Event>, after: seq<Event>, at: nat, now: nat)
    requires after == before + [SpawnedTor(false, at)]
    ensures Spawned(before, after, false, now)
  {
  }

  lemma SpawnAwaited(before: seq<Event>, spawned: seq<Event>, after: seq<Event>, at: nat, now: nat, ok: bool)
    requires spawned == before + [SpawnedTor(true, at)]
    requires Awaited(spawned, after, ok, at + PATIENCE <= now)
    ensures Spawned(before, after, ok, now)
  {
  }

  /** Spawn tor, and wait until it serves. */
  method SpawnAndAwait(k: Machine) returns (ok: bool, polls: nat)
    requires k.Valid() && k.pc == StartTor
    modifies k`host, k`now, k`pc, k`log, k`acts, k`back
    ensures k.Valid() && k.pc == StartTor && polls <= 241 && old(k.now) <= k.now && k.back == old(k.back)
    ensures Spawned(old(k.log), k.log, ok, k.now)
    ensures k.host.tables == old(k.host.tables) && k.host.net.named == old(k.host.net.named)
  {
    ghost var at;
    ok, at := k.SpawnTor();
    if !ok {
      SpawnFailed(old(k.log), k.log, at, k.now);
      return false, 0;
    }
    ghost var spawned := k.log;
    ok, polls := Await(k);
    SpawnAwaited(old(k.log), spawned, k.log, at, k.now, ok);
  }

  /** Spawn tor, wait until it serves, and say how that went. */
  method Launch(k: Machine, ghost before: seq<Event>) returns (ok: bool, polls: nat)
    requires k.Valid() && k.pc == StartTor && Cleared(before, k.log)
    modifies k`host, k`now, k`pc, k`log, k`acts, k`back, k`faults
    ensures k.Valid() && k.pc == (if ok then Applying else UndoTor) && polls <= 241 && old(k.now) <= k.now
    ensures Tried(before, k.log, ok)
    ensures k.host.tables == old(k.host.tables) && k.host.net.named == old(k.host.net.named)
    ensures k.faults == old(k.faults) + (if ok then 0 else 1) && (!ok ==> k.back == k.faults)
  {
    ok, polls := SpawnAndAwait(k);
    ghost var waited := k.log;
    ghost var at := k.ReportTor(ok);
    Composes(before, old(k.log), waited, k.log, at, ok);
  }

  lemma Composes(before: seq<Event>, cleared: seq<Event>, waited: seq<Event>, log: seq<Event>, at: nat, ok: bool)
    requires Cleared(before, cleared) && Spawned(cleared, waited, ok, at) && log == waited + [StartedTor(ok, at)]
    ensures Tried(before, log, ok)
  {
    assert log[|before|] == cleared[|before|] && log[|cleared| - 1] == cleared[|cleared| - 1];
    assert log[|cleared|] == waited[|cleared|];
    if log[|cleared|].ok {
      AwaitedStays(waited, log, |cleared| + 1, |waited|, ok, log[|cleared|].at + PATIENCE <= at);
    }
    assert StartedAt(log, |before|, |cleared|, |log| - 1, ok);
  }

  /** Since then tor was started, or tried to be, which was the last thing done. */
  ghost predicate Tried(before: seq<Event>, after: seq<Event>, ok: bool) {
    before <= after && exists s, i, e :: s == |before| && e == |after| - 1 && StartedAt(after, s, i, e, ok)
  }

  /** Clear orphans away, spawn tor, and have it serving, by its own log, or say that it is
      not. Whatever goes wrong, the daemon turns back there, and tables and namespace are
      untouched. */
  method Start(k: Machine) returns (r: Outcome, polls: nat)
    requires k.Valid() && k.pc == StartTor
    modifies k`host, k`now, k`pc, k`log, k`acts, k`back, k`faults
    ensures k.Valid() && k.pc == (if r.Pass? then Applying else UndoTor) && polls <= 241
    ensures Tried(old(k.log), k.log, r.Pass?)
    ensures k.host.tables == old(k.host.tables) && k.host.net.named == old(k.host.net.named)
    ensures old(k.faults) <= k.faults
    ensures r.Fail? ==> old(k.faults) < k.faults && r.why == TorFailed && k.back == k.faults
  {
    ClearOrphans(k);
    var ok;
    ok, polls := Launch(k, old(k.log));
    r := if ok then Pass else Fail(TorFailed);
  }
}
