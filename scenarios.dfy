/**
 The contract's test scenarios, replayed against the model: what the
 specifications of the operations let a client prove.
 */
module Scenarios {
  import opened Ledger
  import opened LedgerProperties
  import opened Contract

  /** Greetings: the default, a change by the owner, a refused change. */
  method GreetingScenario()
  {
    var c := new Collectible("morgan");
    assert c.GetGreeting() == "hi";
    var accepted := c.SetGreeting("morgan", "welcome");
    assert accepted.Ok? && c.GetGreeting() == "welcome";
    var refused := c.SetGreeting("paul", "bye");
    assert refused == Err(NotContractOwner) && c.GetGreeting() == "welcome";
  }

  /** Tokens: two collects, an approval, a transfer, and the queries after each. */
  method TokenScenario()
  {
    var c := new Collectible("morgan");
    CollectTwo(c);
    ApproveStep(c);
    TransferStep(c);
  }

  /** morgan collects token 0, then token 1. */
  method CollectTwo(c: Collectible)
    requires c.Valid() && c.tokensById == map[] && c.tokensPerOwner == map[]
    modifies c
    ensures c.Valid()
    ensures c.tokensById == map[(0, "morgan") := NewToken("morgan", 0), (1, "morgan") := NewToken("morgan", 1)]
    ensures c.tokensPerOwner == map["morgan" := 2]
  {
    ghost var m0 := c.tokensById;
    var ok := c.NftCollect("morgan", 0);
    assert ok;
    assert c.tokensById == map[(0, "morgan") := NewToken("morgan", 0)];
    CollectSupply(m0, 0, "morgan");
    var supply := c.NftTotalSupply();
    assert supply == 1;

    ghost var m1 := c.tokensById;
    ok := c.NftCollect("morgan", 1);
    assert ok;
    CollectSupply(m1, 1, "morgan");
    assert c.CollectionBalance("morgan") == Some(2);
    supply := c.NftTotalSupply();
    assert supply == 2;
  }

  /** morgan approves paul on token 0; paul is then approved. */
  method ApproveStep(c: Collectible)
    requires c.Valid()
    requires c.tokensById == map[(0, "morgan") := NewToken("morgan", 0), (1, "morgan") := NewToken("morgan", 1)]
    requires c.tokensPerOwner == map["morgan" := 2]
    modifies c
    ensures c.Valid()
    ensures c.tokensById == map[(0, "morgan") := Token("morgan", 0, map["paul" := 0], 1, 1),
                                (1, "morgan") := NewToken("morgan", 1)]
    ensures c.tokensPerOwner == map["morgan" := 2]
  {
    var approve := c.NftApprove("morgan", 0, "paul");
    assert approve == Ok(true);
    var approved := c.NftIsApproved("paul", 0, "morgan");
    assert approved == Ok(true);
  }

  /** morgan transfers a unit of token 1 to paul; supply stays at 2. */
  method TransferStep(c: Collectible)
    requires c.Valid()
    requires c.tokensById == map[(0, "morgan") := Token("morgan", 0, map["paul" := 0], 1, 1),
                                 (1, "morgan") := NewToken("morgan", 1)]
    requires c.tokensPerOwner == map["morgan" := 2]
    modifies c
  {
    ghost var m := c.tokensById;
    CollectSupply(map[(0, "morgan") := Token("morgan", 0, map["paul" := 0], 1, 1)], 1, "morgan");
    CollectSupply(map[], 0, "morgan");
    assert Supply(m) == 2 by {
      SupplyAfterSet(map[], (0, "morgan"), Token("morgan", 0, map["paul" := 0], 1, 1));
      assert Collected(map[(0, "morgan") := Token("morgan", 0, map["paul" := 0], 1, 1)], 1, "morgan") == m;
    }
    TransferCheckWellFormed(m, 1, "morgan");
    var transfer := c.NftTransfer("morgan", 1, "paul", "morgan");
    assert transfer == Ok(true);
    assert c.NftBalance("paul", 1) == 1;
    assert c.NftBalance("morgan", 1) == 0;
    assert c.NftBalance("morgan", 0) == 1;
    TransferSupply(m, 1, "morgan", "paul");
    var supply := c.NftTotalSupply();
    assert supply == 2;
    assert c.CollectionBalance("paul") == Some(1);
    assert c.CollectionBalance("morgan") == Some(1);
  }
}
