/** The forked child on the machine it runs on: where a program that is executed ends up. */
module Programs {
  import opened Options
  import opened Packets
  import opened Lifecycle
  import opened Kernel
  import opened FailClosed
  import Child

  /** A child that waits to enter becomes its program, or ends. Becoming it, it is a process
      inside the namespace named `tort`, under no identity but its caller's; and so what it
      sends gets nowhere but to tor, next to any other tables. */
  method Become(k: Machine, pid: nat, c: Child.Process, argv: seq<string>, uid: nat, gid: nat, descriptors: nat,
                pairs: seq<(string, string)>, passwd: Option<string>, hasResolver: bool, executable: bool,
                ghost fw: Firewall, ghost stack: Stack) returns (ending: Child.Ending)
    requires k.Valid() && pid in k.host.procs && k.host.procs[pid] == Waiting(Program)
    requires !c.inside && !c.ownResolver && argv != []
    modifies k`host, c
    ensures k.Valid() && k.host.tables == old(k.host.tables) && k.host.net == old(k.host.net)
    ensures if ending.Executed?
            then k.host.net.named.Some? && pid in k.host.procs
                 && k.host.procs[pid] == Inside(Program, k.host.net.named.value)
            else pid !in k.host.procs
    ensures ending.Executed? ==> c.inside && (c.ownResolver <==> hasResolver)
    ensures ending.Executed? ==> if uid == 0 then c.creds == old(c.creds) else Child.Dropped(c.creds, uid, gid)
    ensures ending.Executed? && Loaded(fw, k.host.tables)
            ==> Sealed(k.host, k.host.net.named.value) && Filtered(fw, stack)
  {
    var named := k.host.net.named.Some?;
    ending := c.Run(argv, uid, gid, descriptors, pairs, passwd, named, hasResolver, executable);
    if ending.Executed? {
      k.Happens(Enters(pid));
      if Loaded(fw, k.host.tables) {
        DaemonFailsClosed(k, pid, fw, stack);
      }
    } else {
      k.Happens(Exits(pid));
    }
  }
}
