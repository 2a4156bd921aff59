/** The status cache of `src/daemon.rs` under every interleaving of the accept loop with
    background refreshers. Each action is one access to `LAST_CHECK` or `REFRESHING`, the
    start or end of a measurement, or a step between them. */
module StatusCache {
  import opened Options
  import opened Verdicts

  /** A verification: when it was begun, on the clock that counts actions, and its outcome. */
  datatype Check = Check(begun: nat, verdict: Verdict)

  /** A cache entry: the check and the time it was stored, in nanoseconds. */
  datatype Cached = Cached(made: nat, check: Check)

  const CHECK_TTL: nat := 60_000_000_000

  datatype Request = Up | Down | Verify | Status

  /** Where the accept loop is. */
  datatype Loop =
    | Idle
    | Invalidating(req: Request)
    | Working(req: Request)
    | Reading
    | Deciding(cached: Option<Cached>)
    | Swapping(stale: Check)
    | Spawning(stale: Check)
    | Measuring(req: Request, begun: nat)
    | Storing(req: Request, check: Check)
    | Answering(answer: Option<Check>)

  /** Where a background refresher is. */
  datatype Refresher = Spawned | Refreshing(begun: nat) | Holding(check: Check) | Clearing

  datatype State = State(cache: Option<Cached>, refreshing: bool, threads: seq<Refresher>, time: nat,
                         loop: Loop, clock: nat, measured: set<Check>)

  datatype Action =
    | Accept(req: Request, tunnelUp: bool)
    | Invalidate
    | Begin
    | End(outcome: Option<Verdict>)
    | Store
    | Finish
    | Read
    | Decide
    | Swap
    | Spawn
    | ThreadBegins(i: nat)
    | ThreadEnds(i: nat, outcome: Option<Verdict>)
    | ThreadStores(i: nat)
    | ThreadClears(i: nat)
    | TimePasses(d: nat)

  function Remove<T>(xs: seq<T>, i: nat): seq<T>
    requires i < |xs|
  {
    xs[..i] + xs[i + 1..]
  }

  /** What an action of the accept loop does, the clock aside. */
  function LoopAction(s: State, a: Action): Option<State> {
    match s.loop
    case Idle => if a.Accept? then Some(s.(loop := Accepted(a.req, a.tunnelUp))) else None
    case Invalidating(req) => if a.Invalidate? then Some(s.(cache := None, loop := Working(req))) else None
    case Working(req) =>
      if a.Finish? then Some(s.(loop := Idle))
      else if a.Begin? && (req == Up || req == Verify) then Some(s.(loop := Measuring(req, s.clock)))
      else None
    case Measuring(req, begun) => if a.End? then Some(Measured(s, req, begun, a.outcome)) else None
    case Storing(req, check) =>
      if a.Store? then
        Some(s.(cache := Some(Cached(s.time, check)),
                loop := if req == Status then Answering(Some(check)) else Working(Down)))
      else None
    case Answering(_) => if a.Finish? then Some(s.(loop := Idle)) else None
    case Reading => if a.Read? then Some(s.(loop := Deciding(s.cache))) else None
    case Deciding(None) => if a.Begin? then Some(s.(loop := Measuring(Status, s.clock))) else None
    case Deciding(Some(c)) =>
      if a.Decide? then
        Some(s.(loop := if s.time - c.made < CHECK_TTL then Answering(Some(c.check)) else Swapping(c.check)))
      else None
    case Swapping(stale) =>
      if !a.Swap? then None
      else if s.refreshing then Some(s.(loop := Answering(Some(stale))))
      else Some(s.(refreshing := true, loop := Spawning(stale)))
    case Spawning(stale) =>
      if a.Spawn? then Some(s.(threads := s.threads + [Spawned], loop := Answering(Some(stale)))) else None
  }

  /** Where a request is begun. */
  function Accepted(req: Request, tunnelUp: bool): Loop {
    if req != Status then Invalidating(req) else if tunnelUp then Reading else Answering(None)
  }

  /** The loop's measurement ends. */
  function Measured(s: State, req: Request, begun: nat, outcome: Option<Verdict>): State {
    match outcome
    case None => s.(loop := if req == Status then Answering(None) else Working(Down))
    case Some(verdict) =>
      var check := Check(begun, verdict);
      s.(measured := s.measured + {check},
         loop := if req == Verify then Answering(Some(check)) else Storing(req, check))
  }

  /** What a refresher, or the passing of time, does. */
  function OtherAction(s: State, a: Action): Option<State> {
    match a
    case ThreadBegins(i) =>
      if i < |s.threads| && s.threads[i].Spawned?
      then Some(s.(threads := s.threads[i := Refreshing(s.clock)])) else None
    case ThreadEnds(i, outcome) =>
      if i < |s.threads| && s.threads[i].Refreshing? then
        (match outcome
         case None => Some(s.(threads := s.threads[i := Clearing]))
         case Some(verdict) =>
           var check := Check(s.threads[i].begun, verdict);
           Some(s.(threads := s.threads[i := Holding(check)], measured := s.measured + {check})))
      else None
    case ThreadStores(i) =>
      if i < |s.threads| && s.threads[i].Holding?
      then Some(s.(cache := Some(Cached(s.time, s.threads[i].check)), threads := s.threads[i := Clearing])) else None
    case ThreadClears(i) =>
      if i < |s.threads| && s.threads[i].Clearing?
      then Some(s.(refreshing := false, threads := Remove(s.threads, i))) else None
    case TimePasses(d) => Some(s.(time := s.time + d))
    case _ => None
  }

  predicate OfLoop(a: Action) {
    !a.ThreadBegins? && !a.ThreadEnds? && !a.ThreadStores? && !a.ThreadClears? && !a.TimePasses?
  }

  function Next(s: State, a: Action): Option<State> {
    match if OfLoop(a) then LoopAction(s, a) else OtherAction(s, a)
    case None => None
    case Some(t) => Some(t.(clock := s.clock + 1))
  }

  function Exec(s: State, run: seq<Action>): Option<State>
    decreases |run|
  {
    if run == [] then Some(s) else
      match Next(s, run[0])
      case None => None
      case Some(t) => Exec(t, run[1..])
  }

  lemma {:induction false} ExecAppend(s: State, a: seq<Action>, b: seq<Action>)
    ensures Exec(s, a + b) == match Exec(s, a) case None => None case Some(t) => Exec(t, b)
    decreases |a|
  {
    if a == [] {
      assert a + b == b;
    } else {
      assert (a + b)[1..] == a[1..] + b;
      var t := Next(s, a[0]);
      if t.Some? {
        ExecAppend(t.value, a[1..], b);
      }
    }
  }

  lemma ExecOne(s: State, a: Action)
    ensures Exec(s, [a]) == Next(s, a)
  {
    assert [a][1..] == [];
  }

  /** The clock counts actions. */
  lemma {:induction false} ExecCounts(s: State, run: seq<Action>)
    requires Exec(s, run).Some?
    ensures Exec(s, run).value.clock == s.clock + |run|
    decreases |run|
  {
    if run != [] {
      ExecCounts(Next(s, run[0]).value, run[1..]);
    }
  }

  // -------------------------------------------------------- refresh protocol

  predicate Started(s: State) {
    s.cache == None && !s.refreshing && s.threads == [] && s.loop == Idle && s.measured == {}
  }

  /** Checks that the loop carries. */
  predicate Carries(l: Loop, check: Check) {
    match l
    case Deciding(Some(c)) => check == c.check
    case Swapping(stale) => check == stale
    case Spawning(stale) => check == stale
    case Storing(_, c) => check == c
    case Answering(Some(c)) => check == c
    case _ => false
  }

  ghost predicate Inv(s: State) {
    && |s.threads| <= 1
    && (s.refreshing <==> |s.threads| == 1 || s.loop.Spawning?)
    && (s.loop.Spawning? ==> s.threads == [])
    && (s.cache.Some? ==> s.cache.value.check in s.measured && s.cache.value.made <= s.time)
    && (forall c :: Carries(s.loop, c) ==> c in s.measured)
    && (s.loop.Deciding? && s.loop.cached.Some? ==> s.loop.cached.value.made <= s.time)
    && (forall c :: c in s.measured ==> c.begun < s.clock)
    && (s.loop.Measuring? ==> s.loop.begun < s.clock)
    && (forall i :: 0 <= i < |s.threads| && s.threads[i].Refreshing? ==> s.threads[i].begun < s.clock)
    && (forall i :: 0 <= i < |s.threads| && s.threads[i].Holding? ==> s.threads[i].check in s.measured)
  }

  lemma EndKeepsInv(s: State, a: Action)
    requires Inv(s) && a.End? && Next(s, a).Some?
    ensures Inv(Next(s, a).value)
  {
  }

  lemma RefreshKeepsInv(s: State, a: Action)
    requires Inv(s) && (a.Swap? || a.Spawn?) && Next(s, a).Some?
    ensures Inv(Next(s, a).value)
  {
  }

  lemma LoopKeepsInv(s: State, a: Action)
    requires Inv(s) && OfLoop(a) && Next(s, a).Some?
    ensures Inv(Next(s, a).value)
  {
    if a.End? {
      EndKeepsInv(s, a);
    } else if a.Swap? || a.Spawn? {
      RefreshKeepsInv(s, a);
    }
  }

  lemma OthersKeepInv(s: State, a: Action)
    requires Inv(s) && !OfLoop(a) && Next(s, a).Some?
    ensures Inv(Next(s, a).value)
  {
  }

  lemma NextKeepsInv(s: State, a: Action)
    requires Inv(s) && Next(s, a).Some?
    ensures Inv(Next(s, a).value)
  {
    if OfLoop(a) { LoopKeepsInv(s, a); } else { OthersKeepInv(s, a); }
  }

  /** In every interleaving there is at most one refresher; the flag is up exactly from the
      swap to the final store; and what is cached, held or answered was measured. */
  lemma {:induction false} RefreshProtocol(s: State, run: seq<Action>)
    requires Inv(s) && Exec(s, run).Some?
    ensures Inv(Exec(s, run).value)
    decreases |run|
  {
    if run != [] {
      NextKeepsInv(s, run[0]);
      RefreshProtocol(Next(s, run[0]).value, run[1..]);
    }
  }

  /** The stages of serving a status from a cached check. */
  predicate ServingCached(l: Loop, check: Check) {
    match l
    case Deciding(Some(c)) => c.check == check
    case Swapping(stale) => stale == check
    case Spawning(stale) => stale == check
    case Answering(answer) => answer == Some(check)
    case Idle => true
    case _ => false
  }

  /** A status request that finds a cached check never measures on the accept loop, however
      refreshers interleave, and answers with that check. */
  lemma {:induction false} NeverWaitsForTor(s: State, run: seq<Action>, check: Check)
    requires ServingCached(s.loop, check) && Exec(s, run).Some?
    requires forall i :: 0 <= i < |run| ==> !run[i].Accept?
    ensures ServingCached(Exec(s, run).value.loop, check)
    ensures forall i :: 0 <= i < |run| ==> run[i] != Begin
    decreases |run|
  {
    if run != [] {
      NeverWaitsForTor(Next(s, run[0]).value, run[1..], check);
      assert forall i :: 1 <= i < |run| ==> run[i] == run[1..][i - 1];
    }
  }

  // ---------------------------------------------------------------- freshness

  /** A measurement begun and not yet in the cache. */
  predicate InFlight(r: Refresher) { r.Refreshing? || r.Holding? }

  predicate BegunSince(r: Refresher, since: nat) {
    (r.Refreshing? ==> since <= r.begun) && (r.Holding? ==> since <= r.check.begun)
  }

  /** Everything that could still be answered was measured since then. */
  ghost predicate Fresh(s: State, since: nat) {
    && since <= s.clock
    && (s.cache.Some? ==> since <= s.cache.value.check.begun)
    && (forall c :: Carries(s.loop, c) ==> since <= c.begun)
    && (s.loop.Measuring? ==> since <= s.loop.begun)
    && (forall i :: 0 <= i < |s.threads| ==> BegunSince(s.threads[i], since))
  }

  lemma LoopKeepsFresh(s: State, a: Action, since: nat)
    requires Fresh(s, since) && OfLoop(a) && Next(s, a).Some?
    ensures Fresh(Next(s, a).value, since)
  {
  }

  lemma OthersKeepFresh(s: State, a: Action, since: nat)
    requires Fresh(s, since) && !OfLoop(a) && Next(s, a).Some?
    ensures Fresh(Next(s, a).value, since)
  {
  }

  lemma NextKeepsFresh(s: State, a: Action, since: nat)
    requires Fresh(s, since) && Next(s, a).Some?
    ensures Fresh(Next(s, a).value, since)
  {
    if OfLoop(a) { LoopKeepsFresh(s, a, since); } else { OthersKeepFresh(s, a, since); }
  }

  lemma {:induction false} StaysFresh(s: State, run: seq<Action>, since: nat)
    requires Fresh(s, since) && Exec(s, run).Some?
    ensures Fresh(Exec(s, run).value, since)
    decreases |run|
  {
    if run != [] {
      NextKeepsFresh(s, run[0], since);
      StaysFresh(Next(s, run[0]).value, run[1..], since);
    }
  }

  /** Some continuation gives a status answer that was measured before. */
  ghost predicate CanAnswerStale(s: State, since: nat) {
    exists run :: StaleAnswer(s, run, since)
  }

  ghost predicate StaleAnswer(s: State, run: seq<Action>, since: nat) {
    && Exec(s, run).Some?
    && Exec(s, run).value.loop.Answering?
    && Exec(s, run).value.loop.answer.Some?
    && Exec(s, run).value.loop.answer.value.begun < since
  }

  /** Just after the loop dropped the cached check to serve a request. */
  predicate JustInvalidated(s: State) { s.cache == None && s.loop.Working? }

  lemma StaleLater(s: State, a: Action, since: nat)
    requires Next(s, a).Some? && CanAnswerStale(Next(s, a).value, since)
    ensures CanAnswerStale(s, since)
  {
    var run :| StaleAnswer(Next(s, a).value, run, since);
    assert ([a] + run)[1..] == run;
    assert StaleAnswer(s, [a] + run, since);
  }

  /** A stale check in the cache is what the next status answers. */
  lemma StaleStatus(s: State, since: nat)
    requires s.loop.Working? && s.cache.Some?
    requires s.cache.value.check.begun < since && s.cache.value.made == s.time
    ensures CanAnswerStale(s, since)
  {
    var s1 := Next(s, Finish).value;
    var s2 := Next(s1, Accept(Status, true)).value;
    var s3 := Next(s2, Read).value;
    var s4 := Next(s3, Decide).value;
    assert s4.loop == Answering(Some(s.cache.value.check));
    assert StaleAnswer(s4, [], since);
    StaleLater(s3, Decide, since);
    StaleLater(s2, Read, since);
    StaleLater(s1, Accept(Status, true), since);
    StaleLater(s, Finish, since);
  }

  /** A refresher in mid-measurement puts a check from before back into the cache. */
  lemma LateStore(s: State, i: nat, since: nat)
    requires JustInvalidated(s) && i < |s.threads| && InFlight(s.threads[i])
    requires !BegunSince(s.threads[i], since)
    ensures CanAnswerStale(s, since)
    decreases s.threads[i].Refreshing?
  {
    if s.threads[i].Refreshing? {
      var a := ThreadEnds(i, Some(Unverified));
      LateStore(Next(s, a).value, i, since);
      StaleLater(s, a, since);
    } else {
      StaleStatus(Next(s, ThreadStores(i)).value, since);
      StaleLater(s, ThreadStores(i), since);
    }
  }

  /** When exactly invalidating is enough: no answer given after it, in any interleaving,
      predates it if and only if no refresher was in mid-measurement. */
  lemma FreshnessExactly(s: State)
    requires Inv(s) && JustInvalidated(s)
    ensures !CanAnswerStale(s, s.clock) <==> forall i :: 0 <= i < |s.threads| ==> !InFlight(s.threads[i])
  {
    if forall i :: 0 <= i < |s.threads| ==> !InFlight(s.threads[i]) {
      forall run | Exec(s, run).Some? ensures !StaleAnswer(s, run, s.clock) {
        StaysFresh(s, run, s.clock);
        var end := Exec(s, run).value;
        if end.loop.Answering? && end.loop.answer.Some? {
          assert Carries(end.loop, end.loop.answer.value);
        }
      }
    } else {
      var i :| 0 <= i < |s.threads| && InFlight(s.threads[i]);
      LateStore(s, i, s.clock);
    }
  }
}
