# tort, verified

tort runs programs in a network namespace of their own, out of which a veth pair leads and
nothing else, and hands what arrives on the host's end of the pair to a tor process that it
started itself. This project models the parts of tort on which its promises rest and proves those
promises, in Dafny 4.11. `dafny verify dfyconfig.toml` checks all of it.

## The parts

**The tunnel's life.** `Network.dfy` is the kernel's network state and what each `ip` command
does to it, `Tables.dfy` nftables transactions, `Lifecycle.dfy` the whole system as a state
machine: the daemon moves through `up`, `down`, `run` and start-up one command at a time;
every command may fail; at any moment tor may die, programs and probes come and go, an unnamed
namespace with nothing in it be reaped, and the daemon be killed and started again. An
inductive invariant over every run gives `FailClosed.dfy`: a program in the tunnel always has
tort's table between it and the world. `Kernel.dfy`, `Netns.dfy`, `Tor.dfy`, `Privileged.dfy`
and `Server.dfy` are the daemon's code itself, statement by statement. Each command is a method of
`Kernel.Machine` that lets everything else on the host happen first and then moves the state
machine along, so whatever the code does is a run of the machine, and the code's own promises
(all or nothing, verify or tear down, stop before removing, crash recovery) are the contracts
of its methods: a clause about a failure is tied to what the run shows, which error was met and
how the way back went. `Child.dfy` is the forked child from the fork to the program, and
`Programs.dfy` puts that child on the machine. `Limits.dfy` says where the promises end.

**The packet program.** `Packets.dfy` gives chains, rules, verdicts, the redirect and the hooks
a meaning (a drop in any base chain is final; an accept or return ends its own chain only) and
decides the fate of every packet next to arbitrary other chains. `Flows.dfy` adds connection
tracking over packet sequences, and `EndToEnd.dfy` interleaves those with the tunnel's life.

**The status cache.** `StatusCache.dfy` is the accept loop and its background refreshers as
atomic steps on `LAST_CHECK` and `REFRESHING`; `StatusDaemon.dfy` is the code, with refreshers
let in between any two of its accesses.

**The map.** `Geometry.dfy` is framing, padding, wrapping and fitting, over the reals.

**The parsers.** `Control.dfy` and `Circuits.dfy` read Tor's control protocol (section 2.3 of
Tor's control-spec) and `Lookups.dfy` holds the whole conversation that lists circuits;
`Stat.dfy` reads the line of proc(5)'s `/proc/<pid>/stat`. Each is proved to invert a printer.
`Text.dfy` has the string functions of the standard library that they use.

## Where the code and its comments differ

- `Bounds::around` promises the smallest window. It is, when the points fit an arc narrower
  than half the circle; at any width it is exactly when they fit an arc that the antimeridian
  or the prime meridian does not cut (`Geometry.FramingExactly`), longitudes 180 and -180
  being the two edges of the map (`Geometry.EdgesAreToldApart`); and four points show it is
  not otherwise (`Geometry.WideFramingIsNotShortest`).
- The filter of `circuits` takes a circuit whose id begins with 250 for protocol
  scaffolding, dot-stuffing is left in place, and `parse_circuit` takes a dollar sign in a
  `key=value` part for a path. `Circuits.CircuitsComeBackExactly` says that nothing else is
  lost or invented.
- Dropping the cached check makes later answers fresh, except when a refresher is in the
  middle of a measurement (`StatusCache.FreshnessExactly`).
- `up_and_verify` promises a proven tunnel or nothing. When the check itself cannot be run
  (`src/privileged.rs:38`) it returns an error and leaves the tunnel standing
  (`Limits.StandsUnverified`).
- `tor::stop` never returns an error, so `down`'s first error is from the rules or from the
  namespace. `tor::start` succeeds on what tor's log says, which is not that tor still runs.
- `ip netns delete` takes the name away; the veth goes with the space, when the kernel reaps
  it. A veth left behind costs at most one failed attempt (`Server.AttemptTwice`).
- A control connection that closes in the middle of a reply is an error, but not when it closes
  within the last line: what has come of that line is taken for all of it (`Control.CutShort`).
- The input chain admits flows related to others, so those are set apart
  (`Flows.RelatedFlowsGoAnywhere`).

## Hypotheses

- A child forked for `run` has entered the namespace by the time a later Down, or the
  clean-up of a restarted daemon, begins: the fork returns before the child enters. A Down can
  leave a program in a tunnel without rules exactly when that is not so
  (`Limits.LeaksExactly`), and it can be not so (`Limits.ImpatienceLeaks`).
- Nobody but the daemon writes under tort's own names, the table, the namespace and the veth;
  in particular root does not run `tort up`, `tort down` or `tort run` beside it
  (`src/main.rs:155-199`).
- A program that is run as root (user id 0 stays root) neither leaves its namespace nor
  changes it.
- `ip netns pids` lists all processes of the namespace at one instant.
- Chains of other tables drop, rewrite and translate as they like, but do not hand a packet to
  another interface or socket.
- In `FailClosed.Filtered`, for what is delivered on the host only: the chains that run after
  tort's on the input hook turn no admitted packet into one that is not. That is exactly what
  tort's promise there needs of them (`Packets.AdmissionExactly`), and one chain that rewrites
  can break it (`Packets.LaterRewritesGoAnywhere`).
- In `Flows`: tort's table is loaded, no other table translates or rewrites, and the veth carries the gateway address,
  no other address of its subnet being one of the host's. Everything else about the firewall
  and the host's addresses may change from packet to packet.
- The clock advances at least by what a sleep asks for.

## Model

| member | source | states |
|---|---|---|
| FailClosed.FailsClosed | src/privileged.rs:104-133 | in every reachable state, under any failures, tor deaths, crashes and restarts, next to any other tables: what a program in the tunnel sends stays on the loopback or arrives on tort0, and nothing arriving there is forwarded; what is delivered on the host is for tor's two ports or of an established or related flow, unless a chain after tort's on the input hook rewrites it |
| FailClosed.DaemonFailsClosed | src/privileged.rs:77-133 | the same of every state the modelled code can bring the kernel to, with the rest of the host as it was at the start |
| FailClosed.HostIsConserved | src/nft.rs:109-117 | after any run of ups, downs, failures and crashes every other table, and the host's network but tort's own links, equal their initial values |
| FailClosed.StepConserves | src/nft.rs:109-117 | the same of one step of anything on the host |
| Limits.LeaksExactly | src/daemon.rs:199-225 | a Down, or a restarted daemon's clean-up, can lead to a program inside without the table if and only if it begins while a forked child has yet to enter |
| Limits.ImpatienceLeaks | src/daemon.rs:199-225 | and that happens: from every tunnel that is up and empty, forking a program and serving a Down before it enters |
| Limits.StandsUnverified | src/privileged.rs:36-38 | a run from any host with nothing in the way on which everything works until the check cannot be run, and the tunnel stands |
| EndToEnd.ProgramsFlowsEndAtTor | src/nft.rs:34-92 | over every interleaving of daemon, host and packets, each remembered unrelated flow opened while a program was inside ends at tor |
| EndToEnd.ProgramsPacketsReachTor | src/nft.rs:34-92 | and while one is inside, its packets are dropped or reach tor |
| FailClosed.TortFilters | src/nft.rs:67-93 | with tort's chains on their hooks nothing from the veth is forwarded, and what is delivered is admitted unless a later input chain rewrites it |
| FailClosed.SpaceIsSealed | src/netns.rs:83-93 | the only interfaces a packet can leave the space over are its loopback and the veth to tort0 |
| Lifecycle.RunKeeps | src/privileged.rs:77-133 | the invariant (a program in the tunnel implies name and table; no program during creation and teardown; the namespace built as far as the script has got) holds in every state of every run |
| Lifecycle.StepKeeps | src/privileged.rs:77-133 | every step of the daemon, of anything else, or a crash keeps the invariant |
| Lifecycle.DaemonKeeps | src/privileged.rs:77-133 | every event of the daemon keeps the invariant |
| Lifecycle.HappeningKeeps | src/run.rs:147-157 | programs entering, forking and exiting, probes, tor dying and reaping keep it |
| Lifecycle.IpKeeps | src/netns.rs:72-93 | an accepted `ip` command keeps it, wherever the code issues one |
| Lifecycle.NftKeeps | src/nft.rs:105-117 | a transaction that took effect keeps it |
| Lifecycle.ForkKeeps | src/run.rs:147-190 | so does forking a child once the tunnel was seen up |
| Lifecycle.MovesQuiet | src/netns.rs:144-174 | no program can be in the tunnel once a listing is empty with none on its way in, and teardown proceeds only then |
| Lifecycle.EmptyListing | src/netns.rs:190-213 | an empty listing means no program anywhere when none is waiting to enter |
| Network.BuildStarts | src/netns.rs:73 | the first command of the script, from any state without the name, leaves a bare namespace |
| Network.BuildProceeds | src/netns.rs:73-93 | each accepted command of the script takes the namespace one stage further, whatever else is there |
| Network.BuildIsAccepted | src/netns.rs:73-93 | the kernel refuses no command of the script unless a veth was in the way |
| Network.BuiltRoutesOverVeth | src/netns.rs:83-93 | once built, a destination off the link is routed, and over the veth only |
| Network.ContainedLeavesOverVeth | src/netns.rs:83-93 | at every stage a packet can leave only over the veth or stay on the loopback |
| Network.ExecKeepsNetInv | src/netns.rs:72-93 | every command keeps the kernel's own consistency and the containment of every namespace |
| Network.ReapKeepsNetInv | src/netns.rs:123-136 | so does the kernel's reaping of an unnamed namespace |
| Network.ExecKeepsRest | src/netns.rs:72-93 | no command touches another link or route of the host |
| Tables.ApplyFromAnyState | src/nft.rs:19-30 | from any prior tables the script succeeds and leaves exactly tort's table in place of whatever bore its name, the others unchanged |
| Tables.RemoveFromAnyState | src/nft.rs:114-117 | from any prior tables the script removes tort's table and nothing else |
| Tables.ApplyIsIdempotent | src/nft.rs:19-30 | applying twice is applying once, and removing undoes applying |
| Tables.DeletionIsNeeded | src/nft.rs:19-30 | without the deletion in the script a second application would double every chain |
| Kernel.Machine.Invariant | src/privileged.rs:77-133 | a machine driven by the modelled code satisfies the invariant at all times |
| Kernel.Machine.Meanwhile | src/privileged.rs:135-137 | whatever happens behind the daemon's back leaves tables and name alone and can only end tor and the veth |
| Kernel.Machine.Restart | src/daemon.rs:50-53 | a kill at any point leaves network and tables to the next daemon |
| Kernel.Machine.RunIp | src/netns.rs:22-35 | a command takes effect as the kernel does it, or fails and changes nothing; without a fault it fails only when refused |
| Kernel.Machine.RunNft | src/nft.rs:105-117 | a transaction takes effect as a whole or fails and changes nothing |
| Kernel.Machine.SpawnTor | src/tor.rs:133-191 | the spawn shows in the run, as does its failing; tor may be running after either; tables and namespace are untouched |
| Kernel.Machine.KillTor | src/tor.rs:378-388 | tor is gone unless it survived a kill, whether anything was left to kill shows in the run, and no error is reported either way |
| Tor.Start | src/tor.rs:125-206 | orphans are listed, and stopped if there were any, before tor is spawned; after that success is exactly that tor was there and its log, read last, said that it serves, and failure that the spawn failed, that tor was not there, that the log said it cannot, that tor was gone or that two minutes had passed, every look before that having told nothing; any failure makes the daemon turn back; at most 241 polls |
| Tor.WaitForBootstrap | src/tor.rs:219-274 | every look but the last found a silent log and a running tor; the last found a log that says tor serves, or one that says it cannot, or a silent one with tor gone, or with the time up; one poll for each half second of the timeout and one more |
| Tor.Stop | src/tor.rs:346-389 | asks tor to end unless neither process nor pidfile is found; kills what is left, which takes that it was asked and ten seconds have passed; at most 50 polls, and no second one when tor is gone; reports nothing |
| Kernel.Machine.ReadUp | src/privileged.rs:138-140 | true only when namespace, table and tor are all there; false without a fault only when one is not |
| Kernel.Machine.Fork | src/run.rs:147-190 | a child waits to enter, and namespace and table are there when it is forked |
| Netns.BuildStep | src/netns.rs:73-93 | the run is one command of the script longer, or broken off there; without a fault a command fails only where a veth was in the way |
| Netns.CreateInner | src/netns.rs:72-99 | the run shows the script in order, then the sysctl, its outcome ignored, and the resolver, or the first failure and nothing after it; it succeeds when nothing was in the way and there was no fault |
| Netns.Rollback | src/netns.rs:63-67 | both deletions are tried, and neither name nor either end of the veth is left unless one of them met a fault |
| Netns.Create | src/netns.rs:52-70 | all or nothing, for every failure position: the whole script was run and the namespace is fully built, with its resolver; or the run shows where it broke off and both deletions right after, last, and unless one met a fault of its own, neither name nor veth is left; an existing namespace is not touched; and success whenever nothing was in the way and there was no fault |
| Netns.Destroy | src/netns.rs:129-136 | the name is gone, and with it the resolver file unless removing that failed unasked; or the delete failed on a name that was there and nothing changed |
| Netns.SignalAll | src/netns.rs:148-156 | all that is listed is sent the signal, and whether that was anything is the answer; the request ends when the listing failed |
| Netns.WaitUntilEmpty | src/netns.rs:177-188 | every listing but the last was of some program; true only when the last was empty, false only when it was not and the timeout has passed; at most one poll for each 100 ms of it and one more |
| Netns.Terminate | src/netns.rs:158-163 | SIGTERM to all that is listed, and listings until one is empty or five seconds have passed; a false answer only when SIGTERM was sent to some program and five seconds later something was still listed; at most 51 polls |
| Netns.Kill | src/netns.rs:165-168 | SIGKILL to all that is listed, and listings until one is empty or two seconds have passed; a false answer only two seconds after SIGKILL; at most 21 polls |
| Netns.StopProcesses | src/netns.rs:144-174 | success only when the last listing was empty, and then no program is left in the tunnel; a failure is a listing that failed, or that SIGTERM was sent to some program, five seconds later SIGKILL, and the daemon gave up two seconds after that; SIGKILL never comes without those five seconds; on failure the daemon has changed nothing |
| Privileged.Undo | src/privileged.rs:86-99 | the run shows both steps, whatever either came to; tor and namespace are gone if both worked, the tables unchanged |
| Privileged.ApplyRules | src/privileged.rs:95-99 | the table in place of whatever bore its name, or the tables as they were |
| Privileged.Serve | src/privileged.rs:86-99 | tor spawned and serving, by its log, and right after it the rules; a start or a transaction that failed shows in the run with its reason, and after it tor stopped and the name deleted; the tables are unchanged then, and tor and namespace gone unless the way back met a fault of its own |
| Privileged.Raise | src/privileged.rs:82-101 | namespace, tor and rules in order, each in full in the run on success; each error shows in the run with its reason and the way back tried after it; no namespace of its making is left unless the way back met a fault of its own; an existing namespace is not touched |
| Privileged.Up | src/privileged.rs:77-102 | on success the namespace was created, tor was spawned and serves by its log, and the rules went in, as the last things done; on failure the tables are as they were, each error has its reason in the run, and no namespace of its making is left unless the way back met a fault of its own, so at any rate none after a single fault with no veth in the way; no fault and nothing in the way means success |
| Privileged.RemoveAll | src/privileged.rs:117-132 | all three removals are attempted in every failure pattern, exactly these and in order, and the first error is the answer |
| Privileged.Down | src/privileged.rs:114-133 | programs that cannot be stopped, though asked and then killed, leave everything untouched; otherwise the run shows how they stopped and then all three removals, and the answer is the first error among them; success means namespace and table are gone |
| Privileged.Prove | src/privileged.rs:38-64 | what it adds to the run is one check; success only on a ThroughTor verdict; any other verdict takes everything down; a check that could not be run changes nothing |
| Privileged.UpAndProve | src/privileged.rs:36-64 | of a tunnel that was not up: success means that, in this call, the namespace was created, tor was spawned and said it serves, and right after that the rules went in and a check said ThroughTor; an error before the check leaves the tables as they were and, unless the way back met a fault of its own, no new namespace; a check that said no is followed by a teardown that, without a fault of its own, leaves nothing, unless the daemon gave up on a program; or the check could not be run and the tunnel stands |
| Privileged.UpAndVerify | src/privileged.rs:31-64 | already up, and untouched; or all of the above |
| Privileged.ReportUp | src/privileged.rs:138-140 | the daemon only looked, and saw what was there |
| Server.SawPartial | src/daemon.rs:54 | what start-up concludes from namespace, table and tor |
| Server.StartUp | src/daemon.rs:50-59 | nothing there or fully up, and untouched; cleaned away; or an error that shows in the teardown that was tried |
| Server.Recover | src/daemon.rs:50-59 | from every state a kill at any step of anything leaves, whatever died with the daemon, start-up ends fully up, with namespace and table absent, or with the error of a teardown it tried; without a fault that is only that programs were signalled and did not end |
| Server.AttemptTwice | src/netns.rs:60-68 | unless tor was just found missing, and without faults, a veth left behind costs at most one failed attempt |
| Server.ServeDown | src/daemon.rs:164-170 | an Ok means namespace and table are gone; an error shows in the run |
| Server.StartRun | src/daemon.rs:204-225 | a child is forked only after the tunnel was seen up, and with namespace and table there; descriptors are refused if and only if there are not three; any other refusal has its reason in the run |
| Child.Process.DropToUser | src/run.rs:220-235 | groups, group and user are given up in that order and the way back is tried; success means nothing but the caller's user, group and groups is left, root staying root |
| Child.NoWayBack | src/run.rs:229-234 | from there no sequence of set*id calls gets any privilege back |
| Child.UidFirstKeepsGroups | src/run.rs:217-219 | with the user identity gone first, groups and group identities could not be dropped any more |
| Child.Process.EnterWithResolver | src/netns.rs:243-271 | in the namespace with its resolver, the mounts private before anything is bound, the host's tree untouched |
| Child.Process.SetEnvironment | src/run.rs:159-171 | the caller's variables, then who the system says it is |
| Child.SystemDecidesWho | src/run.rs:163-171 | HOME, USER and LOGNAME are the system's whenever it knows the user, every other variable is the last value the caller gave |
| Child.LastWins | src/run.rs:159-161 | setting variables in turn leaves each with its last value |
| Child.PasswdRoundTrip | src/run.rs:203-213 | of any printed passwd database the first account with the user id is found, with its home and name |
| Child.Process.Run | src/run.rs:136-188 | a program is executed only inside the namespace, with the namespace's resolver if it has one, under its caller's identity and in that environment; any failure before that ends in 127, or in a panic over a variable that cannot be set; and it is executed when nothing fails |
| Programs.Become | src/run.rs:147-190 | on the machine, a child that becomes its program is a process inside the namespace named tort, and fails closed; one that does not is gone |
| Packets.PreroutingDecides | src/nft.rs:34-55 | what the prerouting chain decides, for every packet |
| Packets.ForwardDecides | src/nft.rs:67-72 | what the forward chain decides, for every packet |
| Packets.InputDecidesInside | src/nft.rs:77-93 | what the input chain decides of packets from the namespace |
| Packets.InputDecidesOutside | src/nft.rs:77-93 | what it decides of all others: only tor's two ports are closed to them |
| Packets.NothingEscapes | src/nft.rs:67-72 | next to any other chains, with any rules and any translation, no packet from the veth is forwarded |
| Packets.NothingIsForwardedIn | src/nft.rs:71 | nor is any packet forwarded to it |
| Packets.OnlyTorIsReached | src/nft.rs:86-92 | what is delivered from the veth is TCP to 9140, UDP to 9153 or on a known flow, next to any chains of which those after tort's leave admission be |
| Packets.AdmissionExactly | src/nft.rs:89-92 | that the chains after tort's leave admission be is exactly what keeps its promise on the input hook |
| Packets.LaterRewritesGoAnywhere | src/nft.rs:86-92 | one chain after tort's that rewrites delivers an admitted packet to any port |
| Packets.FateAlone | src/nft.rs:34-93 | exactly what becomes of the first packet of any flow from the namespace with no other table |
| Packets.OnionAddressesAreRedirected | src/nft.rs:48-54 | the addresses tor hands out for onion services (src/tor.rs:57) reach tor |
| Packets.RestIsLeftAlone | src/nft.rs:62-66 | registering a chain of tort's among any others, anywhere, changes nothing for unrelated traffic |
| Packets.RunsInTurn | src/nft.rs:62-66 | chains on a hook run one after the other, a drop in any of them final |
| Flows.TranslatesOnce | src/nft.rs:34-55 | among filters the nat chain translates a first packet once and later packets not at all |
| Flows.WhereItEnds | src/nft.rs:34-93 | a packet from the namespace is dropped, or delivered as translated and admitted |
| Flows.FlowsEndAtTor | src/nft.rs:34-92 | over every packet sequence, with other filters and addresses changing along it, every unrelated flow the namespace opened ends at tor: TCP at 9140, meant for outside 10.66.0.0/24 or for that port of the gateway; UDP at 9153; nothing else |
| Flows.PacketsReachOnlyTor | src/nft.rs:34-92 | and so does every packet of theirs, first or later, at any point of any sequence |
| Flows.RelatedFlowsGoAnywhere | src/nft.rs:89 | the first packet of a related flow may reach any port of the gateway |
| StatusCache.RefreshProtocol | src/daemon.rs:276-334 | in every interleaving at most one refresher, the flag up exactly from its swap to its final store, and every cached or answered check measured |
| StatusCache.NeverWaitsForTor | src/daemon.rs:280-302 | a status request that finds a cached check never measures on the accept loop and answers with that check |
| StatusCache.StaysFresh | src/daemon.rs:336-342 | once everything that could be answered was measured after a moment, everything answered later was |
| StatusCache.FreshnessExactly | src/daemon.rs:336-342 | after an invalidation no later answer predates it if and only if no refresher was in mid-measurement |
| StatusCache.LateStore | src/daemon.rs:328-333 | one that was puts an old check back |
| StatusDaemon.Daemon.Protocol | src/daemon.rs:276-334 | the refresh protocol holds of the code |
| StatusDaemon.Daemon.CachedCheck | src/daemon.rs:291-312 | what was found in the cache is the answer, without a measurement on the loop; one of 60 seconds or more has a refresher at work behind it, for a younger one none is asked for; when nothing was found, and only then, the answer is measured now and cached |
| StatusDaemon.Daemon.StartRefresh | src/daemon.rs:324-334 | the stale check is the answer, nothing is measured on the loop, and exactly one refresher is at work |
| StatusDaemon.Daemon.RememberCheck | src/daemon.rs:315-317 | the check is cached with the current time |
| StatusDaemon.Daemon.Concludes | src/daemon.rs:328-333 | a refresher with a check stores it with the current time, and one that is done lowers the flag and is gone |
| StatusDaemon.Daemon.InvalidateCheck | src/daemon.rs:340-342 | nothing is cached |
| StatusDaemon.Daemon.StatusReport | src/daemon.rs:345-359 | without all three pieces nothing is looked at and the cache is left alone; with them the answer is what the cache held when the request looked, and it holds something if it did before; a stale answer has a refresher at work; with nothing found the answer is what a measurement made now said, even when that is nothing; and it is as fresh as all that could be answered before |
| StatusDaemon.Daemon.FreshSince | src/daemon.rs:336-342 | wherever the code has got to since a check was dropped with no refresher in mid-measurement, all that can be answered was measured since |
| StatusDaemon.Daemon.ServeUp | src/daemon.rs:153-163 | the cached check is dropped during the request; a tunnel that came up is measured after that, and what was measured is stored |
| StatusDaemon.Daemon.ServeVerify | src/daemon.rs:172-180 | an explicit verify drops the cached check and answers with what a measurement begun and ended after that said, even when that is nothing |
| Geometry.FramesEveryPoint | src/map.rs:65-87 | the window holds every point's latitude and some copy of its longitude |
| Geometry.TightestLatitudes | src/map.rs:70-71 | no band that holds every latitude is tighter |
| Geometry.NarrowerIsTaken | src/map.rs:73-86 | the narrower of the two readings of the longitudes is the window, and the one as given when neither is, its edges being given longitudes |
| Geometry.ShortestFraming | src/map.rs:58-87 | points that fit, modulo 360, an arc narrower than 180 get a window no wider |
| Geometry.WideFramingIsNotShortest | src/map.rs:58-87 | at 180 and more they may not |
| Geometry.FramingExactly | src/map.rs:65-87 | for longitudes in [-180,180], the window is at most so wide if and only if the points fit such an arc not cut by one of the two meridians |
| Geometry.EdgesAreToldApart | src/map.rs:65-87 | with a point at 180 an arc from the other edge does not do |
| Geometry.PaddingKeeps | src/map.rs:94-105 | padding keeps the centre, adds the margin asked for or reaches the least span, and adds no more |
| Geometry.Wrap | src/map.rs:153-162 | both loops end, and the result is the copy of the angle smallest in magnitude |
| Geometry.WrappedIsShortest | src/map.rs:149-162 | no congruent angle is smaller in magnitude |
| Geometry.WrappedIsCongruent | src/map.rs:153-162 | the result is congruent modulo 360 and within [-180,180] |
| Geometry.FitScale | src/map.rs:128-139 | the tighter axis decides, so neither overflows |
| Geometry.OneAxisIsFilled | src/map.rs:130-139 | unzoomed, one of the two axes is filled exactly |
| Geometry.EdgesMeetEdges | src/map.rs:130-147 | so west and east are drawn at the left and right edges of the widget, or north and south at its top and bottom |
| Geometry.ZoomMagnifies | src/map.rs:126-139 | zooming magnifies about the middle of the widget and moves nothing else |
| Geometry.NorthIsUp | src/map.rs:141-147 | what lies farther north is drawn higher |
| Geometry.EastIsRight | src/map.rs:141-162 | what lies farther east of the centre, the short way round and in whatever turn it is given, is drawn farther right |
| Geometry.CentreIsInTheMiddle | src/map.rs:141-147 | the centre is drawn in the middle of the widget |
| Geometry.DegreesAreAlike | src/map.rs:128-147 | a degree is as long northwards as eastwards: the world is not stretched |
| Geometry.EverythingFramedIsOnScreen | src/bin/tortunnel.rs:961-967 | every point sent through around, padded, new and project lands inside the widget, and would do so farther from the middle by the margin asked for |
| Control.Connection.Command | src/control.rs:85-138 | the loop returns the reply and leaves the stream as the specification reads them, or reports the connection closed |
| Control.ReadsBlock | src/control.rs:99-113 | a data block is consumed whole, whatever its lines look like |
| Control.ReadsOneReply | src/control.rs:85-138 | a printed reply is consumed exactly, its payload dot-stuffed as sent |
| Control.ReadsEveryReply | src/control.rs:85-138 | successive commands on any conversation consume one reply each |
| Control.CutShort | src/control.rs:92-138 | a printed reply cut anywhere is reported as a closed connection if and only if fewer than four characters of its last line have come |
| Circuits.PushHops | src/control.rs:191-198 | the loop pushes each entry's hop in order |
| Circuits.ParseCircuit | src/control.rs:179-203 | the loop computes the specification of a circuit line |
| Circuits.FilterLines | src/control.rs:146-156 | the loop collects the circuits of a reply in order |
| Circuits.ReadCircuits | src/control.rs:144-156 | the exchange gives the circuits of exactly one reply |
| Circuits.LastPurposeCounts | src/control.rs:185-189 | of several purposes the last one counts |
| Circuits.DollarsGo | src/control.rs:191-196 | no dollar sign before a fingerprint is part of it, however many there are |
| Circuits.PaddingIsIgnored | src/control.rs:147-155 | white space around a circuit line makes no difference |
| Lookups.ListCircuits | src/control.rs:142-171 | the whole conversation, on both sides of it: what is listed is what the stream holds, and what is sent is the cookie, the request for the circuits, each hop's fingerprint and the address it has, in order, and the farewell |
| Lookups.RelayAddress | src/control.rs:206-214 | one question, about that fingerprint, and what its one reply holds |
| Lookups.QuestionsAreTold | src/control.rs:207-221 | each relay and each address has a question of its own, told from every other |
| Lookups.RelayCountry | src/control.rs:220-227 | one question, about that address, and what its one reply holds |
| Lookups.CircuitsAreKept | src/control.rs:158-167 | whatever tor answers to the look-ups, or if it hangs up, no circuit and no hop is lost, added or moved |
| Lookups.ConversationRoundTrip | src/control.rs:142-171 | with a tor that accepts the cookie, reports circuits and answers each question, the circuits listed are those of its report, as their round trip has it, and the address and country of each hop are what tor answers about that very hop, and absent exactly when it tells none |
| Lookups.ReportIsListed | src/control.rs:142-171 | whatever tor says after its report, the circuits listed are those of the report |
| Lookups.HopIsLocated | src/control.rs:160-166 | a router line and then a country give a hop exactly that address and that country, each in its own field |
| Lookups.Authenticate | src/control.rs:67-78 | accepted exactly when a reply came and begins with 250; what is sent is the cookie, or nothing when it could not be read |
| Lookups.AddressExactly | src/control.rs:206-214 | an address is read exactly when the first router line goes as far as its seventh word, and is that word |
| Lookups.CountryExactly | src/control.rs:220-227 | a country is read exactly when the first line that names a value names one that tor knows, and is that in capitals |
| Lookups.UpperByAlphabet | src/control.rs:226 | capitals, letter by letter of the alphabet |
| Lookups.AddressComesBack | src/control.rs:206-214 | the address of a printed router line comes back |
| Lookups.CountryComesBack | src/control.rs:220-227 | a country comes back in capitals, unless tor does not know it |
| Circuits.EntryRoundTrip | src/control.rs:179-203 | a printed circuit comes back with id, state and purpose, and with its hops if and only if no other part holds a dollar sign |
| Circuits.HopsExactly | src/control.rs:190-199 | when exactly the hops come back |
| Circuits.CircuitStatusRoundTrip | src/control.rs:142-156 | of any list of circuits those whose id does not begin with 250 come back, parsed and in order, an id that begins with a dot having one more |
| Circuits.CircuitsComeBackExactly | src/control.rs:142-156 | the very list comes back if and only if no id begins with 250 or a dot and no dollar sign is astray |
| Stat.FieldsAfterName | src/polkit.rs:57-74 | whatever the executable is called, the fields after it are seen exactly |
| Stat.StartTimeIsField22 | src/polkit.rs:55-79 | field 22 of proc(5)'s line comes back |
| Stat.StartTimeExactly | src/polkit.rs:61-79 | on any printed line the reader succeeds exactly when field 22 exists and is a 64-bit number |
| Stat.StartTimePinsTheProcess | src/polkit.rs:55-60 | two processes read as the same start time if and only if they have it |

## Left out

- Recover: a child that survives the daemon is assumed to have entered; and, like `is_up`, start-up takes a table or processes that could not be read for absent.
- StartUp: assumes that forked children have entered.
- ServeDown: assumes the same.
- Start: the files it prepares are one step that may fail; that the log it reads is of this start rests on removing the old one, which the source does not check.
- Stop: the process named by the pidfile, which the source signals without checking that it is tor.
- EverythingFramedIsOnScreen: over the reals; rounding in `f64` is not modelled.
- WaitUntilEmpty: processes that end or appear between two listings are there, those that come and go during one listing are not.
- CachedCheck: reading the time and storing a check are one step; panics of a refresher, which would leave the flag up, are not modelled.
- Flows: a clash of source ports after a redirect, and packets of one flow racing each other before it is confirmed.
- DropToUser: capabilities, and processes with privilege by other means than a user id of 0.
- Run: the handling of signals and terminals, and what execvp looks for; `wait_for` only maps a wait status to a number.
- IPv6, flowtable offload, and bridge and ingress hooks, which `table ip tort` does not see.
- Counters of rules, and the text of the ruleset: the model begins with its parsed form.
- The HTTP checks of `src/verify.rs`: a verification is any verdict or an error.
- The socket, descriptor passing, JSON, authorization by polkit beyond the start time, and the progress output.
- Time-outs of the control connection, reading the cookie file, and capitals beyond ASCII in the name of a country.
- The contents of the namespace's resolver configuration.
- The user interface, terminal discovery, the world map's data, status texts, packaging.
