/** The cache functions of `src/daemon.rs`, step by step, with refreshers let in between any
    two accesses. Each method is a run of the actions of `StatusCache`. */
module StatusDaemon {
  import opened Options
  import opened Verdicts
  import opened StatusCache

  /** The action at `n` of a run was to look at the cache, and this is what it found. */
  ghost predicate FoundAt(origin: StatusCache.State, run: seq<Action>, n: nat, found: Option<Cached>) {
    && n < |run| && run[n] == Read
    && match Exec(origin, run[..n]) case None => false case Some(at) => at.cache == found
  }

  lemma FoundStays(origin: StatusCache.State, a: seq<Action>, b: seq<Action>, n: nat, found: Option<Cached>)
    requires a <= b && FoundAt(origin, a, n, found)
    ensures FoundAt(origin, b, n, found)
  {
    assert b[..n] == a[..n];
  }

  class Daemon {
    var lastCheck: Option<Cached>
    var refreshing: bool
    var threads: seq<Refresher>
    var time: nat
    ghost var loop: Loop
    var clock: nat
    ghost var measured: set<Check>
    ghost var done: seq<Action>
    ghost const origin: State

    constructor ()
      ensures Valid() && Started(State()) && loop == Idle && done == []
    {
      lastCheck, refreshing, threads, time := None, false, [], 0;
      loop, clock, measured, done := Idle, 0, {}, [];
      origin := StatusCache.State(None, false, [], 0, Idle, 0, {});
    }

    ghost function State(): StatusCache.State
      reads this
    {
      StatusCache.State(lastCheck, refreshing, threads, time, loop, clock, measured)
    }

    /** What was done so far is a run from the start. */
    ghost predicate Valid()
      reads this
    {
      Started(origin) && origin.clock == 0 && Exec(origin, done) == Some(State()) && clock == |done|
    }

    /** The refresh protocol holds wherever the daemon is. */
    lemma Protocol()
      requires Valid()
      ensures Inv(State())
    {
      RefreshProtocol(origin, done);
    }

    /** How many measurements the accept loop has begun. */
    ghost function Begun(): nat
      reads this`done
    {
      Times(done, Begin)
    }

    /** How often the accept loop has asked for a refresh. */
    ghost function Swapped(): nat
      reads this`done
    {
      Times(done, Swap)
    }

    static ghost function Times(run: seq<Action>, a: Action): nat {
      if run == [] then 0 else Times(run[..|run| - 1], a) + (if run[|run| - 1] == a then 1 else 0)
    }

    /** This was done, after so many actions. */
    ghost predicate DidSince(n: nat, a: Action)
      reads this`done
    {
      exists i :: n <= i < |done| && done[i] == a
    }

    /** Count an action that has just changed the fields it changes. */
    method Did(ghost a: Action, ghost before: StatusCache.State)
      requires Started(origin) && origin.clock == 0 && Exec(origin, done) == Some(before) && clock == |done|
      requires before.loop == loop && before.clock == clock && before.measured == measured
      requires match Next(before, a)
               case None => false
               case Some(t) => t.cache == lastCheck && t.refreshing == refreshing
                               && t.threads == threads && t.time == time
      modifies this`loop, this`clock, this`measured, this`done
      ensures Valid() && clock == old(clock) + 1 && done == old(done) + [a] && Next(before, a) == Some(State())
      ensures Begun() == old(Begun()) + (if a == Begin then 1 else 0)
      ensures Swapped() == old(Swapped()) + (if a == Swap then 1 else 0)
    {
      ghost var t := Next(before, a).value;
      clock := clock + 1;
      loop, measured, done := t.loop, t.measured, done + [a];
      ExecAppend(origin, old(done), [a]);
      ExecOne(before, a);
      assert done[..|done| - 1] == old(done);
    }

    /** One thing a refresher, or time, might do. */
    method OtherStep(i: int, d: nat, outcome: Option<Verdict>)
      requires Valid()
      modifies this
      ensures Valid() && loop == old(loop) && old(done) <= done && Begun() == old(Begun())
      ensures Swapped() == old(Swapped()) && old(time) <= time && (old(lastCheck).Some? ==> lastCheck.Some?)
    {
      ghost var before := State();
      if !(0 <= i < |threads|) {
        time := time + d;
        Did(TimePasses(d), before);
      } else if threads[i].Spawned? {
        threads := threads[i := Refreshing(clock)];
        Did(ThreadBegins(i), before);
      } else if threads[i].Refreshing? {
        Measured(i, outcome);
      } else {
        Concludes(i);
      }
    }

    /** A refresher's measurement ends. */
    method Measured(i: nat, outcome: Option<Verdict>)
      requires Valid() && i < |threads| && threads[i].Refreshing?
      modifies this
      ensures Valid() && loop == old(loop) && old(done) <= done && Begun() == old(Begun())
      ensures Swapped() == old(Swapped()) && old(time) <= time && (old(lastCheck).Some? ==> lastCheck.Some?)
      ensures lastCheck == old(lastCheck) && refreshing == old(refreshing) && |threads| == |old(threads)|
      ensures threads[i] == if outcome.None? then Clearing
                            else Holding(Check(old(threads[i].begun), outcome.value))
    {
      ghost var before := State();
      var next := if outcome.Some? then Holding(Check(threads[i].begun, outcome.value)) else Clearing;
      threads := threads[i := next];
      Did(ThreadEnds(i, outcome), before);
    }

    /** A refresher stores what it measured, or says that it is done. */
    method Concludes(i: nat)
      requires Valid() && i < |threads| && (threads[i].Holding? || threads[i].Clearing?)
      modifies this
      ensures Valid() && loop == old(loop) && old(done) <= done && Begun() == old(Begun())
      ensures Swapped() == old(Swapped()) && old(time) <= time && (old(lastCheck).Some? ==> lastCheck.Some?)
      ensures old(threads[i].Holding?)
              ==> lastCheck == Some(Cached(time, old(threads[i].check))) && refreshing == old(refreshing)
      ensures old(threads[i].Clearing?)
              ==> lastCheck == old(lastCheck) && !refreshing && |threads| == |old(threads)| - 1
    {
      ghost var before := State();
      match threads[i]
      case Holding(check) =>
        lastCheck := Some(Cached(time, check));
        threads := threads[i := Clearing];
        Did(ThreadStores(i), before);
      case Clearing =>
        refreshing := false;
        threads := Remove(threads, i);
        Did(ThreadClears(i), before);
    }

    /** Refreshers run for a while; the accept loop does not. */
    method Others()
      requires Valid()
      modifies this
      ensures Valid() && loop == old(loop) && old(done) <= done && Begun() == old(Begun())
      ensures Swapped() == old(Swapped()) && old(time) <= time && (old(lastCheck).Some? ==> lastCheck.Some?)
    {
      var n: int := *;
      while n > 0
        invariant Valid() && loop == old(loop) && old(done) <= done && Begun() == old(Begun())
        invariant Swapped() == old(Swapped()) && old(time) <= time && (old(lastCheck).Some? ==> lastCheck.Some?)
      {
        var i: int := *;
        var d: int := *;
        var outcome: Option<Verdict> := *;
        OtherStep(i, if d < 0 then 0 else d, outcome);
        n := n - 1;
      }
    }

    /** Empty the cache, as one action of the run. */
    method InvalidateCheck()
      requires Valid() && loop.Invalidating?
      modifies this
      ensures Valid() && lastCheck == None && loop == Working(old(loop.req)) && done == old(done) + [Invalidate]
      ensures old(done) <= done && Begun() == old(Begun())
    {
      ghost var before := State();
      lastCheck := None;
      Did(Invalidate, before);
    }

    /** Cache a check of the loop's own, with the time, as one action of the run. */
    method RememberCheck(check: Check)
      requires Valid() && loop.Storing? && loop.check == check
      modifies this
      ensures Valid() && lastCheck == Some(Cached(time, check)) && time == old(time) && done == old(done) + [Store]
      ensures loop == if old(loop.req) == Status then Answering(Some(check)) else Working(Down)
      ensures old(done) <= done && Begun() == old(Begun()) && Swapped() == old(Swapped())
    {
      ghost var before := State();
      lastCheck := Some(Cached(time, check));
      Did(Store, before);
    }

    /** The outcome of the measurement the accept loop is waiting for. */
    method Outcome(ghost req: Request, begun: nat) returns (r: Option<Check>)
      requires Valid() && loop == Measuring(req, begun)
      modifies this
      ensures Valid() && done == old(done) + [End(VerdictOf(r))] && (r.Some? ==> r.value.begun == begun)
      ensures loop == AfterMeasuring(req, r) && Begun() == old(Begun()) && Swapped() == old(Swapped())
    {
      var outcome: Option<Verdict> := *;
      Did(End(outcome), State());
      match outcome
      case Some(verdict) => r := Some(Check(begun, verdict));
      case None => r := None;
    }

    static function VerdictOf(r: Option<Check>): Option<Verdict> {
      match r case None => None case Some(check) => Some(check.verdict)
    }

    static ghost function AfterMeasuring(req: Request, r: Option<Check>): Loop {
      match r
      case None => if req == Status then Answering(None) else Working(Down)
      case Some(check) => if req == Verify then Answering(r) else StatusCache.Storing(req, check)
    }

    /** Measure on the accept loop, which is blocked meanwhile. */
    method VerifyInNamespace(ghost req: Request) returns (r: Option<Check>)
      requires Valid() && ((loop == Working(req) && req in {Up, Verify}) || (loop == Deciding(None) && req == Status))
      modifies this
      ensures Valid() && old(done) <= done && (r.Some? ==> old(clock) <= r.value.begun)
      ensures |old(done)| < |done| && done[|done| - 1] == End(VerdictOf(r))
      ensures loop == AfterMeasuring(req, r) && Begun() == old(Begun()) + 1 && Swapped() == old(Swapped())
    {
      var begun := clock;
      Did(Begin, State());
      assert loop == Measuring(req, begun);
      Others();
      r := Outcome(req, begun);
    }

    /** Answer with the stale check, and have a refresher spawned when the flag was down. */
    method StartRefresh()
      requires Valid() && loop.Swapping?
      modifies this
      ensures Valid() && old(done) <= done && loop == Answering(Some(old(loop.stale)))
      ensures Begun() == old(Begun()) && Swapped() == old(Swapped()) + 1 && old(time) <= time
      ensures refreshing && |threads| == 1
    {
      var was := SwapRefreshing();
      if !was {
        Others();
        SpawnRefresher();
      }
      Protocol();
    }

    /** Set the flag, and say what it was. */
    method SwapRefreshing() returns (was: bool)
      requires Valid() && loop.Swapping?
      modifies this
      ensures Valid() && old(done) <= done && Begun() == old(Begun()) && was == old(refreshing) && refreshing
      ensures Swapped() == old(Swapped()) + 1 && time == old(time)
      ensures loop == if was then Answering(Some(old(loop.stale))) else Spawning(old(loop.stale))
    {
      ghost var before := State();
      was := refreshing;
      refreshing := true;
      Did(Swap, before);
    }

    method SpawnRefresher()
      requires Valid() && loop.Spawning?
      modifies this
      ensures Valid() && old(done) <= done && time == old(time)
      ensures Begun() == old(Begun()) && Swapped() == old(Swapped())
      ensures threads == old(threads) + [Spawned] && loop == Answering(Some(old(loop.stale)))
    {
      ghost var before := State();
      threads := threads + [Spawned];
      Did(Spawn, before);
    }

    /** A cached check is the answer, whatever its age, and nothing is measured on the loop; one
        of sixty seconds or more has a refresher at work behind it. Without one the answer is
        measured now. `found` is what the lock guarded when this looked, which was `at` actions
        into the run. */
    method CachedCheck() returns (r: Option<Check>, ghost found: Option<Cached>, ghost at: nat)
      requires Valid() && loop == Reading
      modifies this
      ensures Valid() && old(done) <= done && loop == Answering(r)
      ensures old(lastCheck).Some? ==> found.Some?
      ensures Provided(r, found, at, |old(done)|, old(Begun()), old(Swapped()), old(time))
    {
      Others();
      var cached := lastCheck;
      found, at := lastCheck, |done|;
      Look();
      ghost var looked := done;
      Others();
      r := AnswerFrom(cached);
      FoundStays(origin, looked, done, at, found);
    }

    /** Take what the lock guards. */
    method Look()
      requires Valid() && loop == Reading
      modifies this`loop, this`clock, this`measured, this`done
      ensures Valid() && loop == Deciding(lastCheck) && done == old(done) + [Read]
      ensures Begun() == old(Begun()) && Swapped() == old(Swapped())
      ensures FoundAt(origin, done, |old(done)|, lastCheck)
    {
      Did(Read, State());
      assert done[..|old(done)|] == old(done);
    }

    method AnswerFrom(cached: Option<Cached>) returns (r: Option<Check>)
      requires Valid() && loop == Deciding(cached)
      modifies this
      ensures Valid() && old(done) <= done && loop == Answering(r)
      ensures cached.Some? ==> Behind(r, cached.value, old(Begun()), old(Swapped()), old(time))
      ensures cached.None? ==> Afresh(r, |old(done)|, old(Begun()), old(Swapped()))
    {
      match cached
      case Some(Cached(made, result)) =>
        AnswerCached(made, result);
        r := Some(result);
      case None =>
        r := AnswerAfresh();
    }

    /** A young answer is given as it is, and so is a stale one, with a refresh behind it. */
    method AnswerCached(made: nat, result: Check)
      requires Valid() && loop == Deciding(Some(Cached(made, result)))
      modifies this
      ensures Valid() && old(done) <= done && loop == Answering(Some(result))
      ensures Behind(Some(result), Cached(made, result), old(Begun()), old(Swapped()), old(time)) && old(time) <= time
    {
      var young := time - made < CHECK_TTL;
      Did(Decide, State());
      if !young {
        Others();
        StartRefresh();
      }
    }

    /** The answer is this cached check, with nothing measured on the loop since so many
        measurements: a stale one has a refresher at work, and for a young one none was asked
        for. */
    ghost predicate Behind(r: Option<Check>, found: Cached, begun: nat, swapped: nat, since: nat)
      reads this
    {
      && r == Some(found.check) && Begun() == begun
      && (found.made + 60_000_000_000 <= since ==> refreshing && |threads| == 1)
      && (time < found.made + 60_000_000_000 ==> Swapped() == swapped)
    }

    /** The answer was measured on the loop, after so many actions, and is cached now if there
        is one. */
    ghost predicate Afresh(r: Option<Check>, n: nat, begun: nat, swapped: nat)
      reads this
    {
      && Begun() == begun + 1 && Swapped() == swapped && DidSince(n, End(VerdictOf(r)))
      && (r.Some? ==> n <= r.value.begun && lastCheck == Some(Cached(time, r.value)))
    }

    /** With nothing cached, measure on the loop; a check that succeeded is cached. */
    method AnswerAfresh() returns (r: Option<Check>)
      requires Valid() && loop == Deciding(None)
      modifies this
      ensures Valid() && old(done) <= done && loop == Answering(r)
      ensures Afresh(r, |old(done)|, old(Begun()), old(Swapped()))
    {
      r := VerifyInNamespace(Status);
      ghost var ended := |done| - 1;
      assert done[ended] == End(VerdictOf(r));
      if r.Some? {
        Others();
        RememberCheck(r.value);
      }
    }

    /** The answer is what was found in the cache at `at`, which is after so many actions, or, when
        that was nothing, a measurement made since. */
    ghost predicate Provided(r: Option<Check>, found: Option<Cached>, at: nat, n: nat, begun: nat, swapped: nat,
                             since: nat)
      reads this
    {
      && n <= at && FoundAt(origin, done, at, found)
      && match found
         case Some(cached) => Behind(r, cached, begun, swapped, since)
         case None => Afresh(r, n, begun, swapped)
    }

    /** Take up a request that changes the tunnel or wants a fresh answer: nothing is done for
        it before the cached check is dropped, which was `since` actions into the run. */
    method BeginAfresh(req: Request) returns (ghost since: nat)
      requires Valid() && loop == Idle && req != Status
      modifies this
      ensures Valid() && old(done) <= done && loop == Working(req)
      ensures |old(done)| < since && DroppedAt(since)
    {
      TakeUp(req);
      Others();
      InvalidateCheck();
      since := clock;
      Others();
    }

    method TakeUp(req: Request)
      requires Valid() && loop == Idle && req != Status
      modifies this
      ensures Valid() && old(done) <= done && loop == Invalidating(req)
    {
      Did(Accept(req, false), State());
    }

    /** The cached check was dropped by the action that makes so many of the run. */
    ghost predicate DroppedAt(n: nat)
      reads this`done
    {
      0 < n <= |done| && done[n - 1] == Invalidate
    }

    /** What was fresh at an earlier point of the run still is. */
    lemma StillFresh(n: nat, at: StatusCache.State, since: nat)
      requires Valid() && n <= |done| && Exec(origin, done[..n]) == Some(at) && Fresh(at, since)
      ensures Fresh(State(), since)
    {
      assert done == done[..n] + done[n..];
      ExecAppend(origin, done[..n], done[n..]);
      StaysFresh(at, done[n..], since);
    }

    /** Whatever the code did since a check was dropped: when no refresher was in
        mid-measurement then, whatever is cached or about to be answered now was measured
        since. */
    lemma FreshSince(n: nat)
      requires Valid() && DroppedAt(n)
      requires var at := Exec(origin, done[..n]);
               at.Some? ==> forall i :: 0 <= i < |at.value.threads| ==> !InFlight(at.value.threads[i])
      ensures Fresh(State(), n)
    {
      var at := Dropped(n);
      StillFresh(n, at, n);
    }

    lemma Dropped(n: nat) returns (at: StatusCache.State)
      requires Valid() && DroppedAt(n)
      ensures Exec(origin, done[..n]) == Some(at) && Inv(at) && JustInvalidated(at) && at.clock == n
    {
      assert done == done[..n] + done[n..] && done[..n] == done[..n - 1] + [Invalidate];
      ExecAppend(origin, done[..n], done[n..]);
      ExecAppend(origin, done[..n - 1], [Invalidate]);
      ExecOne(Exec(origin, done[..n - 1]).value, Invalidate);
      at := Exec(origin, done[..n]).value;
      ExecCounts(origin, done[..n]);
      RefreshProtocol(origin, done[..n]);
    }

    /** Serve a status request: nothing is verified when the tunnel is not up. When it is, the
        answer is what was found in the cache when this looked (`found`, at `at`), and there is
        something to find if there was before; or else a measurement made now. What is answered
        is no older than anything that could have been answered before. */
    method StatusReport(namespace: bool, rules: bool, tor: bool, ghost since: nat)
      returns (check: Option<Check>, ghost found: Option<Cached>, ghost at: nat)
      requires Valid() && loop == Idle
      modifies this
      ensures Valid() && old(done) <= done && loop == Idle
      ensures !(namespace && rules && tor)
              ==> check == None && lastCheck == old(lastCheck) && done == old(done) + [Accept(Status, false)] + [Finish]
      ensures namespace && rules && tor
              ==> && (old(lastCheck).Some? ==> found.Some?)
                  && Provided(check, found, at, |old(done)|, old(Begun()), old(Swapped()), old(time))
      ensures Fresh(old(State()), since) && check.Some? ==> since <= check.value.begun
    {
      var up := namespace && rules && tor;
      TakeUpStatus(up);
      check, found, at := None, None, 0;
      if up {
        check, found, at := AnswerUp(old(done), old(State()), since);
      } else {
        FinishStatus();
      }
    }

    method TakeUpStatus(up: bool)
      requires Valid() && loop == Idle
      modifies this`loop, this`clock, this`measured, this`done
      ensures Valid() && loop == (if up then Reading else Answering(None)) && done == old(done) + [Accept(Status, up)]
      ensures Begun() == old(Begun()) && Swapped() == old(Swapped())
    {
      Did(Accept(Status, up), State());
    }

    method FinishStatus()
      requires Valid() && loop.Answering?
      modifies this`loop, this`clock, this`measured, this`done
      ensures Valid() && loop == Idle && done == old(done) + [Finish]
    {
      Did(Finish, State());
    }

    lemma AnswersFresh(before: seq<Action>, was: StatusCache.State, since: nat, check: Option<Check>)
      requires Valid() && before <= done && Exec(origin, before) == Some(was) && loop == Answering(check)
      ensures Fresh(was, since) && check.Some? ==> since <= check.value.begun
    {
      if Fresh(was, since) {
        assert done[..|before|] == before;
        StillFresh(|before|, was, since);
      }
    }

    /** Serve a status request with the tunnel up. */
    method AnswerUp(ghost before: seq<Action>, ghost was: StatusCache.State, ghost since: nat)
      returns (check: Option<Check>, ghost found: Option<Cached>, ghost at: nat)
      requires Valid() && loop == Reading && before <= done && Exec(origin, before) == Some(was)
      modifies this
      ensures Valid() && old(done) <= done && loop == Idle
      ensures old(lastCheck).Some? ==> found.Some?
      ensures Provided(check, found, at, |before|, old(Begun()), old(Swapped()), old(time))
      ensures Fresh(was, since) && check.Some? ==> since <= check.value.begun
    {
      check, found, at := CachedCheck();
      AnswersFresh(before, was, since, check);
      ghost var answered := done;
      Did(Finish, State());
      FoundStays(origin, answered, done, at, found);
    }

    /** The reply is sent. */
    method Finished()
      requires Valid() && (loop.Working? || loop.Answering?)
      modifies this
      ensures Valid() && old(done) <= done && loop == Idle
    {
      Others();
      Did(Finish, State());
    }

    /** Serve Up as far as the cache goes: drop the old check, bring the tunnel up unless it
        is or cannot be, measure, and remember what was measured. */
    method ServeUp(alreadyUp: bool, cameUp: bool) returns (check: Option<Check>, ghost since: nat)
      requires Valid() && loop == Idle
      modifies this
      ensures Valid() && loop == Idle && old(done) <= done
      ensures |old(done)| < since && DroppedAt(since)
      ensures check.Some? ==> !alreadyUp && cameUp && since <= check.value.begun && DidSince(since, Store)
      ensures !alreadyUp && cameUp ==> DidSince(since, End(VerdictOf(check)))
    {
      since := BeginAfresh(Up);
      check := None;
      if !alreadyUp && cameUp {
        check := VerifyInNamespace(Up);
        ghost var ended := |done| - 1;
        assert done[ended] == End(VerdictOf(check));
        if check.Some? {
          RememberCheck(check.value);
          assert done[|done| - 1] == Store;
        }
      }
      Finished();
    }

    /** Serve Down as far as the cache goes. */
    method ServeDown() returns (ghost since: nat)
      requires Valid() && loop == Idle
      modifies this
      ensures Valid() && loop == Idle && old(done) <= done
      ensures |old(done)| < since && DroppedAt(since)
    {
      since := BeginAfresh(Down);
      Finished();
    }

    /** Serve Verify: always measure afresh, and remember nothing. */
    method ServeVerify() returns (check: Option<Check>, ghost since: nat)
      requires Valid() && loop == Idle
      modifies this
      ensures Valid() && loop == Idle && old(done) <= done
      ensures |old(done)| < since && DroppedAt(since)
      ensures DidSince(since, End(VerdictOf(check))) && (check.Some? ==> since <= check.value.begun)
    {
      since := BeginAfresh(Verify);
      check := VerifyInNamespace(Verify);
      ghost var ended := |done| - 1;
      assert done[ended] == End(VerdictOf(check));
      Finished();
    }
  }
}
