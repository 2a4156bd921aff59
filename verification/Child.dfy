/** The child of `src/run.rs`, from the fork to the program: it enters the namespace, takes
    on the caller's identity and only then becomes the program. */
module Child {
  import opened Options
  import opened Text

  // ------------------------------------------------------------ credentials

  datatype Ids = Ids(own: nat, effective: nat, saved: nat) {
    predicate Has(id: nat) { own == id || effective == id || saved == id }
  }

  function All(id: nat): Ids { Ids(id, id, id) }

  datatype Creds = Creds(uids: Ids, gids: Ids, groups: set<nat>)

  datatype Call = SetGroups(groups: set<nat>) | SetGid(gid: nat) | SetUid(uid: nat)

  /** With privilege every identity of its kind changes; without, only the effective one, and
      only to its own (the real one) or the saved. */
  function Assume(ids: Ids, privileged: bool, id: nat): Option<Ids> {
    if privileged then Some(All(id))
    else if id == ids.own || id == ids.saved then Some(ids.(effective := id))
    else None
  }

  /** setgroups(2), setgid(2) and setuid(2); `None` when the kernel refuses. */
  function Perform(c: Creds, call: Call): Option<Creds> {
    var privileged := c.uids.effective == 0;
    match call
    case SetGroups(groups) => if privileged then Some(c.(groups := groups)) else None
    case SetGid(gid) =>
      (match Assume(c.gids, privileged, gid) case None => None case Some(ids) => Some(c.(gids := ids)))
    case SetUid(uid) =>
      (match Assume(c.uids, privileged, uid) case None => None case Some(ids) => Some(c.(uids := ids)))
  }

  /** One call after another, those that are refused changing nothing. */
  function PerformAll(c: Creds, calls: seq<Call>): Creds
    decreases calls
  {
    if calls == [] then c else
      match Perform(c, calls[0])
      case None => PerformAll(c, calls[1..])
      case Some(c') => PerformAll(c', calls[1..])
  }

  /** Nothing but the caller's identity is left. */
  predicate Dropped(c: Creds, uid: nat, gid: nat) { c == Creds(All(uid), All(gid), {gid}) }

  /** No sequence of calls gets any privilege back. */
  lemma {:induction false} NoWayBack(c: Creds, uid: nat, gid: nat, calls: seq<Call>)
    requires uid != 0 && Dropped(c, uid, gid)
    ensures PerformAll(c, calls) == c
  {
    if calls != [] {
      NoWayBack(c, uid, gid, calls[1..]);
    }
  }

  /** Why the order matters: with the user identity gone first, the groups stay for good, and
      no group identity can come in that was not there. */
  lemma {:induction false} UidFirstKeepsGroups(c: Creds, uid: nat, calls: seq<Call>, gid: nat)
    requires uid != 0 && c.uids == All(uid)
    ensures PerformAll(c, calls).groups == c.groups
    ensures PerformAll(c, calls).gids.Has(gid) ==> c.gids.Has(gid)
    decreases calls
  {
    if calls != [] {
      match Perform(c, calls[0])
      case None => UidFirstKeepsGroups(c, uid, calls[1..], gid);
      case Some(c') => UidFirstKeepsGroups(c', uid, calls[1..], gid);
    }
  }

  // ------------------------------------------------------------ environment

  const HOME := "HOME"
  const USER := "USER"
  const LOGNAME := "LOGNAME"

  type Env = map<string, string>

  predicate Settable(name: string, value: string) {
    name != "" && '=' !in name && '\0' !in name && '\0' !in value
  }

  /** The variables set in turn. */
  function SetAll(env: Env, pairs: seq<(string, string)>): Env
    decreases pairs
  {
    if pairs == [] then env else SetAll(env[pairs[0].0 := pairs[0].1], pairs[1..])
  }

  /** The last value given to a variable. */
  function LastGiven(pairs: seq<(string, string)>, name: string): Option<string> {
    if pairs == [] then None else
      match LastGiven(pairs[1..], name)
      case Some(value) => Some(value)
      case None => if pairs[0].0 == name then Some(pairs[0].1) else None
  }

  function Lookup(env: Env, name: string): Option<string> { if name in env then Some(env[name]) else None }

  lemma {:induction false} LastWins(env: Env, pairs: seq<(string, string)>, name: string)
    ensures Lookup(SetAll(env, pairs), name)
            == match LastGiven(pairs, name) case Some(value) => Some(value) case None => Lookup(env, name)
    decreases pairs
  {
    if pairs != [] {
      LastWins(env[pairs[0].0 := pairs[0].1], pairs[1..], name);
    }
  }

  lemma SetThree(env: Env, a: (string, string), b: (string, string), c: (string, string))
    ensures SetAll(env, [a, b, c]) == env[a.0 := a.1][b.0 := b.1][c.0 := c.1]
  {
    assert [a, b, c][1..] == [b, c] && [b, c][1..] == [c] && [c][1..] == [];
    var env1 := env[a.0 := a.1];
    var env2 := env1[b.0 := b.1];
    assert SetAll(env, [a, b, c]) == SetAll(env1, [b, c]) == SetAll(env2, [c]) == SetAll(env2[c.0 := c.1], []);
  }

  datatype Entry = Entry(home: string, name: string)

  function Identified(env: Env, who: Option<Entry>): Env {
    match who
    case None => env
    case Some(Entry(home, name)) => env[HOME := home][USER := name][LOGNAME := name]
  }

  /** What the caller says about who it is goes unheard when the system knows; everything
      else it says is heard. */
  lemma SystemDecidesWho(env: Env, pairs: seq<(string, string)>, who: Option<Entry>, name: string)
    ensures var final := Identified(SetAll(env, pairs), who);
            Lookup(final, name) ==
              if who.Some? && name == HOME then Some(who.value.home)
              else if who.Some? && (name == USER || name == LOGNAME) then Some(who.value.name)
              else match LastGiven(pairs, name) case Some(value) => Some(value) case None => Lookup(env, name)
  {
    LastWins(env, pairs, name);
    assert HOME != USER && HOME != LOGNAME && USER != LOGNAME by {
      assert |HOME| == 4 && |USER| == 4 && |LOGNAME| == 7 && HOME[0] != USER[0];
    }
  }

  // ----------------------------------------------------- the passwd database

  function EntryOn(line: string, uid: nat): Option<Entry> {
    var fields := Split(line, ':');
    if |fields| >= 6 && fields[2] == PrintNat(uid) then Some(Entry(fields[5], fields[0])) else None
  }

  function FirstEntry(lines: seq<string>, uid: nat): Option<Entry> {
    if lines == [] then None else
      match EntryOn(lines[0], uid) case Some(e) => Some(e) case None => FirstEntry(lines[1..], uid)
  }

  function PasswdEntry(passwd: string, uid: nat): Option<Entry> { FirstEntry(Lines(passwd), uid) }

  datatype Account =
    Account(name: string, password: string, uid: nat, gid: nat, gecos: string, home: string, shell: string)

  ghost predicate IsText(s: string) { IsLine(s) && ':' !in s }

  ghost predicate IsAccount(a: Account) {
    IsText(a.name) && IsText(a.password) && IsText(a.gecos) && IsText(a.home) && IsText(a.shell)
  }

  function FieldsOf(a: Account): seq<string> {
    [a.name, a.password, PrintNat(a.uid), PrintNat(a.gid), a.gecos, a.home, a.shell]
  }

  function PrintAccounts(accounts: seq<Account>): (r: seq<string>)
    ensures |r| == |accounts|
    ensures forall i :: 0 <= i < |r| ==> r[i] == JoinBy(FieldsOf(accounts[i]), ':')
  {
    if accounts == [] then [] else [JoinBy(FieldsOf(accounts[0]), ':')] + PrintAccounts(accounts[1..])
  }

  /** The entry of the first account with a user id. */
  function FirstWith(accounts: seq<Account>, uid: nat): Option<Entry> {
    if accounts == [] then None
    else if accounts[0].uid == uid then Some(Entry(accounts[0].home, accounts[0].name))
    else FirstWith(accounts[1..], uid)
  }

  lemma NumberIsText(n: nat)
    ensures IsText(PrintNat(n))
  {
    var s := PrintNat(n);
    forall i | 0 <= i < |s| ensures s[i] != ':' && s[i] != '\r' && s[i] != '\n' {
      assert IsDigit(s[i]);
    }
  }

  lemma FieldsAreText(a: Account)
    requires IsAccount(a)
    ensures forall i :: 0 <= i < 7 ==> IsText(FieldsOf(a)[i])
  {
    NumberIsText(a.uid);
    NumberIsText(a.gid);
  }

  lemma SameNumber(m: nat, n: nat)
    ensures PrintNat(m) == PrintNat(n) <==> m == n
  {
    PrintedValue(m);
    PrintedValue(n);
  }

  lemma EntryOfAccount(a: Account, uid: nat)
    requires IsAccount(a)
    ensures EntryOn(JoinBy(FieldsOf(a), ':'), uid) == if a.uid == uid then Some(Entry(a.home, a.name)) else None
  {
    FieldsAreText(a);
    SplitOfJoinBy(FieldsOf(a), ':');
    SameNumber(a.uid, uid);
  }

  lemma {:induction false} JoinIsLine(pieces: seq<string>)
    requires pieces != [] && forall i :: 0 <= i < |pieces| ==> IsText(pieces[i])
    ensures IsLine(JoinBy(pieces, ':'))
  {
    if |pieces| > 1 {
      JoinIsLine(pieces[1..]);
    }
  }

  lemma {:induction false} FindsFirst(accounts: seq<Account>, uid: nat)
    requires forall i :: 0 <= i < |accounts| ==> IsAccount(accounts[i])
    ensures FirstEntry(PrintAccounts(accounts), uid) == FirstWith(accounts, uid)
  {
    if accounts != [] {
      EntryOfAccount(accounts[0], uid);
      FindsFirst(accounts[1..], uid);
      assert PrintAccounts(accounts)[1..] == PrintAccounts(accounts[1..]);
    }
  }

  /** Reading a passwd database back finds the first account with the user id, in full. */
  lemma PasswdRoundTrip(accounts: seq<Account>, uid: nat)
    requires forall i :: 0 <= i < |accounts| ==> IsAccount(accounts[i])
    ensures PasswdEntry(Unlines(PrintAccounts(accounts)), uid) == FirstWith(accounts, uid)
  {
    var lines := PrintAccounts(accounts);
    forall i | 0 <= i < |lines| ensures IsLine(lines[i]) {
      FieldsAreText(accounts[i]);
      JoinIsLine(FieldsOf(accounts[i]));
    }
    LinesBack(lines);
    FindsFirst(accounts, uid);
  }

  // -------------------------------------------------------------- the child

  /** Who the system says a user id is, when the database can be read and knows. */
  function Known(passwd: Option<string>, uid: nat): Option<Entry> {
    match passwd case None => None case Some(text) => PasswdEntry(text, uid)
  }

  datatype Mounts = Shared | Copied | Private

  datatype Ending = NotForked | Executed(argv: seq<string>) | Exited(code: nat) | Panicked

  /** Arguments that can be handed to execvp(3). */
  predicate NoNul(argv: seq<string>) { forall i :: 0 <= i < |argv| ==> '\0' !in argv[i] }

  predicate AllSettable(pairs: seq<(string, string)>) {
    forall i :: 0 <= i < |pairs| ==> Settable(pairs[i].0, pairs[i].1)
  }

  predicate Nameable(who: Option<Entry>) {
    who.None? || ('\0' !in who.value.home && '\0' !in who.value.name)
  }

  class Process {
    var stdio: bool
    var inside: bool
    var mounts: Mounts
    var ownResolver: bool
    /** Whether a mount of this process reached the host's own tree. */
    var hostTouched: bool
    var env: Env
    var creds: Creds
    /** The identity calls made so far, whether they went through or not. */
    ghost var attempted: seq<Call>
    /** How many calls failed that the kernel would have allowed. */
    ghost var faults: nat

    /** As the fork leaves it: a copy of the daemon. */
    constructor (env: Env, creds: Creds)
      ensures !stdio && !inside && mounts == Shared && !ownResolver && !hostTouched && faults == 0
      ensures this.env == env && this.creds == creds && attempted == []
    {
      attempted := [];
      stdio, inside, mounts, ownResolver, hostTouched := false, false, Shared, false, false;
      this.env, this.creds, faults := env, creds, 0;
    }

    predicate IsRoot()
      reads this`creds
    {
      creds.uids.effective == 0
    }

    /** Whether a call that the kernel allows, or does not, goes through. */
    method Tries(allowed: bool) returns (ok: bool)
      modifies this`faults
      ensures ok ==> allowed
      ensures old(faults) <= faults && (faults == old(faults) ==> ok == allowed)
    {
      var fault: bool := *;
      ok := allowed && !fault;
      faults := if allowed && fault then faults + 1 else faults;
    }

    /** A call that changes the identity. */
    method Call(call: Call) returns (ok: bool)
      modifies this`creds, this`faults, this`attempted
      ensures attempted == old(attempted) + [call]
      ensures if ok then Perform(old(creds), call) == Some(creds) else creds == old(creds)
      ensures old(faults) <= faults && (faults == old(faults) ==> ok == Perform(old(creds), call).Some?)
    {
      attempted := attempted + [call];
      var changed := Perform(creds, call);
      ok := Tries(changed.Some?);
      if ok {
        creds := changed.value;
      }
    }

    /** Become the caller, or fail: groups, group and user in that order, and then the way back
        tried, to see it refused. Root stays root. */
    method DropToUser(uid: nat, gid: nat) returns (ok: bool)
      modifies this`creds, this`faults, this`attempted
      ensures ok && uid != 0
              ==> attempted == old(attempted) + [SetGroups({gid})] + [SetGid(gid)] + [SetUid(uid)] + [SetUid(0)]
      ensures uid == 0 ==> ok && creds == old(creds)
      ensures ok && uid != 0 ==> Dropped(creds, uid, gid)
      ensures old(faults) <= faults && (faults == old(faults) && old(IsRoot()) ==> ok)
    {
      if uid == 0 {
        return true;
      }
      ok := Call(SetGroups({gid}));
      if ok {
        ok := Call(SetGid(gid));
      }
      if ok {
        ok := Call(SetUid(uid));
      }
      if ok {
        var back := Call(SetUid(0));
        ok := !back;
      }
    }

    /** setns(2) into the namespace named `tort`, if there is one. */
    method SetNs(named: bool) returns (ok: bool)
      modifies this`inside, this`faults
      ensures (ok ==> named && inside) && (!ok ==> inside == old(inside))
      ensures old(faults) <= faults && (faults == old(faults) && named && IsRoot() ==> ok)
    {
      ok := Tries(named && IsRoot());
      inside := inside || ok;
    }

    /** unshare(2): a copy of the mounts, still propagating to the host's. */
    method Unshare() returns (ok: bool)
      modifies this`mounts, this`faults
      ensures mounts == if ok then Copied else old(mounts)
      ensures old(faults) <= faults && (faults == old(faults) && IsRoot() ==> ok)
    {
      ok := Tries(IsRoot());
      mounts := if ok then Copied else mounts;
    }

    /** Make the mounts private; without a copy that would be the host's own. */
    method MakePrivate() returns (ok: bool)
      modifies this`mounts, this`hostTouched, this`faults
      ensures mounts == if ok then Private else old(mounts)
      ensures hostTouched == (old(hostTouched) || (ok && old(mounts) == Shared))
      ensures old(faults) <= faults && (faults == old(faults) && IsRoot() ==> ok)
    {
      ok := Tries(IsRoot());
      if ok {
        hostTouched := hostTouched || mounts == Shared;
        mounts := Private;
      }
    }

    /** Bind the namespace's resolver over /etc/resolv.conf; one that is not there cannot be. */
    method Bind(there: bool) returns (ok: bool)
      modifies this`ownResolver, this`hostTouched, this`faults
      ensures hostTouched == (old(hostTouched) || (ok && mounts != Private))
      ensures ownResolver == (old(ownResolver) || ok) && (ok ==> there)
      ensures old(faults) <= faults && (faults == old(faults) && there && IsRoot() ==> ok)
    {
      ok := Tries(there && IsRoot());
      if ok {
        ownResolver := true;
        hostTouched := hostTouched || mounts != Private;
      }
    }

    /** Enter the namespace named `tort`, with its resolver if it has one, which takes
        privilege. The host's tree is not touched: the mounts are copied before they are made
        private, and private before anything is bound. */
    method EnterWithResolver(named: bool, hasResolver: bool) returns (ok: bool)
      modifies this`inside, this`mounts, this`ownResolver, this`hostTouched, this`faults
      ensures ok ==> named && inside && mounts == Private && ownResolver == (old(ownResolver) || hasResolver)
      ensures hostTouched == old(hostTouched)
      ensures old(faults) <= faults && (faults == old(faults) && named && IsRoot() ==> ok)
    {
      ok := SetNs(named);
      if ok {
        ok := Unshare();
      }
      if ok {
        ok := MakePrivate();
      }
      if ok && hasResolver {
        ok := Bind(hasResolver);
      }
    }

    /** Set the variables in turn; the standard library panics over one it cannot set. */
    method SetVars(pairs: seq<(string, string)>) returns (ok: bool)
      modifies this`env
      ensures ok <==> AllSettable(pairs)
      ensures ok ==> env == SetAll(old(env), pairs)
    {
      var i := 0;
      while i < |pairs|
        invariant 0 <= i <= |pairs|
        invariant AllSettable(pairs[..i])
        invariant SetAll(env, pairs[i..]) == SetAll(old(env), pairs)
      {
        assert pairs[..i + 1] == pairs[..i] + [pairs[i]];
        if !Settable(pairs[i].0, pairs[i].1) {
          return false;
        }
        env := env[pairs[i].0 := pairs[i].1];
        i := i + 1;
      }
      assert pairs[..i] == pairs;
      ok := true;
    }

    /** The caller's variables, and then who the system says it is. */
    method SetEnvironment(pairs: seq<(string, string)>, who: Option<Entry>) returns (ok: bool)
      modifies this`env
      ensures ok ==> env == Identified(SetAll(old(env), pairs), who)
      ensures AllSettable(pairs) && Nameable(who) ==> ok
    {
      ok := SetVars(pairs);
      if ok {
        match who
        case None =>
        case Some(Entry(home, name)) =>
          SetThree(env, (HOME, home), (USER, name), (LOGNAME, name));
          ok := SetVars([(HOME, home), (USER, name), (LOGNAME, name)]);
      }
    }

    /** Attach the caller's three descriptors. */
    method AttachStdio() returns (ok: bool)
      modifies this`stdio, this`faults
      ensures ok ==> stdio
      ensures old(faults) <= faults && (faults == old(faults) ==> ok)
    {
      ok := Tries(true);
      stdio := ok;
    }

    /** Everything between the fork and the program. A program is only ever executed inside
        the namespace, under no identity but its caller's, and where the system's own account
        of who that is holds; whatever fails on the way, it is not executed. And a daemon
        that is root gets it executed when nothing fails. */
    method Run(argv: seq<string>, uid: nat, gid: nat, descriptors: nat, pairs: seq<(string, string)>,
               passwd: Option<string>, named: bool, hasResolver: bool, executable: bool) returns (ending: Ending)
      modifies this
      ensures ending.NotForked? <==> argv == []
      ensures ending.Executed? ==> ending.argv == argv && executable && NoNul(argv)
      ensures ending.Executed? ==> inside && named && ownResolver == (old(ownResolver) || hasResolver)
      ensures ending.Executed? ==> stdio == (old(stdio) || descriptors == 3)
      ensures ending.Executed? ==> if uid == 0 then creds == old(creds) else Dropped(creds, uid, gid)
      ensures ending.Executed? ==> env == Identified(SetAll(old(env), pairs), Known(passwd, uid))
      ensures ending.Exited? ==> ending.code == 127
      ensures ending.Panicked? ==> !AllSettable(pairs) || !Nameable(Known(passwd, uid))
      ensures hostTouched == old(hostTouched)
      ensures faults == old(faults) && old(IsRoot()) && named && executable && argv != [] && NoNul(argv)
              && AllSettable(pairs) && Nameable(Known(passwd, uid))
              ==> ending.Executed?
    {
      if argv == [] {
        return NotForked;
      }
      var ok := true;
      if descriptors == 3 {
        ok := AttachStdio();
      }
      if ok {
        ok := EnterWithResolver(named, hasResolver);
      }
      if !ok {
        return Exited(127);
      }
      ok := SetEnvironment(pairs, Known(passwd, uid));
      if !ok {
        return Panicked;
      }
      ok := DropToUser(uid, gid);
      return if ok && NoNul(argv) && executable then Executed(argv) else Exited(127);
    }
  }
}
