/** nftables transactions as `src/nft.rs` uses them: a script is evaluated as a whole, and
    either all of it takes effect or none. */
module Tables {
  import opened Options
  import opened Config
  import opened Packets

  /** The tables of the host by name, each with its base chains. */
  type Ruleset = map<string, seq<Chain>>

  datatype Statement =
    | AddTable(name: string)
    | DeleteTable(name: string)
    | Define(name: string, chains: seq<Chain>)

  /** Adding a table that exists changes nothing; deleting one that does not is an error; a
      definition adds its chains to those the table has. */
  function Evaluate(rs: Ruleset, st: Statement): Option<Ruleset> {
    match st
    case AddTable(name) => Some(if name in rs then rs else rs[name := []])
    case DeleteTable(name) => if name in rs then Some(rs - {name}) else None
    case Define(name, chains) => Some(rs[name := (if name in rs then rs[name] else []) + chains])
  }

  function Transaction(rs: Ruleset, script: seq<Statement>): Option<Ruleset>
    decreases |script|
  {
    if script == [] then Some(rs) else
      match Evaluate(rs, script[0])
      case None => None
      case Some(rs') => Transaction(rs', script[1..])
  }

  const APPLY := [AddTable(NFT_TABLE), DeleteTable(NFT_TABLE), Define(NFT_TABLE, TORT_TABLE)]
  const REMOVE := [AddTable(NFT_TABLE), DeleteTable(NFT_TABLE)]

  /** The tables with tort's in place of whatever bore its name. */
  function WithTort(rs: Ruleset): Ruleset { rs[NFT_TABLE := TORT_TABLE] }

  lemma InTurn(rs: Ruleset, st: Statement, rest: seq<Statement>)
    requires Evaluate(rs, st).Some?
    ensures Transaction(rs, [st] + rest) == Transaction(Evaluate(rs, st).value, rest)
  {
    assert ([st] + rest)[1..] == rest;
  }

  /** From any prior state the script removes tort's table and nothing else. */
  lemma RemoveFromAnyState(rs: Ruleset)
    ensures Transaction(rs, REMOVE) == Some(rs - {NFT_TABLE})
  {
    var rs1 := Evaluate(rs, REMOVE[0]).value;
    assert rs1 - {NFT_TABLE} == rs - {NFT_TABLE};
    assert REMOVE == [REMOVE[0]] + [REMOVE[1]] && [REMOVE[1]] == [REMOVE[1]] + [];
    InTurn(rs, REMOVE[0], [REMOVE[1]]);
    InTurn(rs1, REMOVE[1], []);
  }

  /** From any prior state the script leaves exactly tort's table in place of whatever bore
      its name, and every other table as it was. */
  lemma ApplyFromAnyState(rs: Ruleset)
    ensures Transaction(rs, APPLY) == Some(WithTort(rs))
  {
    var rs1 := Evaluate(rs, APPLY[0]).value;
    var rs2 := rs1 - {NFT_TABLE};
    assert [] + TORT_TABLE == TORT_TABLE;
    assert rs2[NFT_TABLE := TORT_TABLE] == rs[NFT_TABLE := TORT_TABLE];
    assert APPLY == [APPLY[0]] + [APPLY[1], APPLY[2]] && [APPLY[1], APPLY[2]] == [APPLY[1]] + [APPLY[2]];
    assert [APPLY[2]] == [APPLY[2]] + [];
    InTurn(rs, APPLY[0], [APPLY[1], APPLY[2]]);
    InTurn(rs1, APPLY[1], [APPLY[2]]);
    InTurn(rs2, APPLY[2], []);
  }

  /** Applying twice is applying once; and removing undoes applying. */
  lemma ApplyIsIdempotent(rs: Ruleset)
    ensures Transaction(rs, APPLY).Some?
    ensures Transaction(Transaction(rs, APPLY).value, APPLY) == Transaction(rs, APPLY)
    ensures Transaction(Transaction(rs, APPLY).value, REMOVE) == Transaction(rs, REMOVE)
  {
    ApplyFromAnyState(rs);
    var rs' := rs[NFT_TABLE := TORT_TABLE];
    ApplyFromAnyState(rs');
    RemoveFromAnyState(rs);
    RemoveFromAnyState(rs');
    assert rs'[NFT_TABLE := TORT_TABLE] == rs' && rs' - {NFT_TABLE} == rs - {NFT_TABLE};
  }

  /** Without the deletion in between, a second definition would double every chain. */
  lemma DeletionIsNeeded(rs: Ruleset)
    requires NFT_TABLE in rs && rs[NFT_TABLE] == TORT_TABLE
    ensures Transaction(rs, [AddTable(NFT_TABLE), Define(NFT_TABLE, TORT_TABLE)])
            == Some(rs[NFT_TABLE := TORT_TABLE + TORT_TABLE])
  {
    var add, define := AddTable(NFT_TABLE), Define(NFT_TABLE, TORT_TABLE);
    assert [add, define] == [add] + [define] && [define] == [define] + [];
    InTurn(rs, add, [define]);
    InTurn(rs, define, []);
  }
}
