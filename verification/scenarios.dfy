/** The module's test scenarios, replayed against the object: a cap of 10000,
    two accounts that each receive 1000 units, then equalizing updates to
    1500, 500 and 1000. */
module Scenarios {
  import opened UInt64
  import opened Ledger
  import opened Runtime

  const Token: TokenId := 0
  const Alice: Address := 1
  const Pool: Address := 2

  /** Minting 1000 units to a fresh account under a cap of 10000 succeeds and
      leaves both the account and the supply at 1000. */
  method AddBalanceTest() returns (r: Outcome, balance: Balance, supply: Balance)
    ensures r == Success && balance == 1000 && supply == 1000
  {
    var ledger := new Balances(10000);
    r := ledger.AddBalance(Token, Alice, 1000);
    balance := ledger.GetBalance(Token, Alice);
    supply := ledger.circulatingSupply;
  }

  /** The equalizing-update test against the runtime code as written: the
      top-up to 1500 and the withdrawal to 500 both abort, leaving the account
      at 1000, and only the update to the unchanged value 1000 succeeds. */
  method UpdateBalanceTestAsWritten() returns (topUp: Outcome, withdraw: Outcome, same: Outcome,
                                               alice: Balance, pool: Balance)
    ensures topUp == Failure(ArithmeticOverflow) && withdraw == Failure(ArithmeticOverflow)
    ensures same == Success
    ensures alice == 1000 && pool == 1000
  {
    var ledger := new Balances(10000);
    var r1 := ledger.AddBalance(Token, Alice, 1000);
    var r2 := ledger.AddBalance(Token, Pool, 1000);
    topUp := ledger.UpdateBalanceAsWritten(Token, Alice, Pool, 1500);
    withdraw := ledger.UpdateBalanceAsWritten(Token, Alice, Pool, 500);
    same := ledger.UpdateBalanceAsWritten(Token, Alice, Pool, 1000);
    alice := ledger.GetBalance(Token, Alice);
    pool := ledger.GetBalance(Token, Pool);
  }

  /** The same test against the intended selection: every update succeeds,
      1000/1000 becomes 1500/500, then 500/1500, then 1000/1000 again, and
      the supply stays at the 2000 units minted. */
  method UpdateBalanceTest() returns (topUp: Outcome, withdraw: Outcome, same: Outcome,
                                      alice: Balance, pool: Balance, supply: Balance)
    ensures topUp == Success && withdraw == Success && same == Success
    ensures alice == 1000 && pool == 1000 && supply == 2000
  {
    var ledger := new Balances(10000);
    var r1 := ledger.AddBalance(Token, Alice, 1000);
    var r2 := ledger.AddBalance(Token, Pool, 1000);
    topUp := ledger.UpdateBalance(Token, Alice, Pool, 1500);
    var a1 := ledger.GetBalance(Token, Alice);
    var p1 := ledger.GetBalance(Token, Pool);
    assert a1 == 1500 && p1 == 500;
    withdraw := ledger.UpdateBalance(Token, Alice, Pool, 500);
    var a2 := ledger.GetBalance(Token, Alice);
    var p2 := ledger.GetBalance(Token, Pool);
    assert a2 == 500 && p2 == 1500;
    same := ledger.UpdateBalance(Token, Alice, Pool, 1000);
    alice := ledger.GetBalance(Token, Alice);
    pool := ledger.GetBalance(Token, Pool);
    supply := ledger.circulatingSupply;
  }

  /** A target of zero aborts before anything is read or written. */
  method ZeroTargetTest() returns (r: Outcome, alice: Balance, supply: Balance)
    ensures r == Failure(InvalidAmount) && alice == 1000 && supply == 1000
  {
    var ledger := new Balances(10000);
    var r1 := ledger.AddBalance(Token, Alice, 1000);
    r := ledger.UpdateBalance(Token, Alice, Pool, 0);
    alice := ledger.GetBalance(Token, Alice);
    supply := ledger.circulatingSupply;
  }

  /** Two token identifiers draw on one cap: after 6000 units of token 0,
      5000 units of token 1 abort with the supply-cap error even though no
      unit of token 1 exists yet; the aborted call changes nothing. */
  method SharedCapTest() returns (first: Outcome, second: Outcome, supply: Balance, other: Balance)
    ensures first == Success && second == Failure(SupplyCapExceeded)
    ensures supply == 6000 && other == 0
  {
    var ledger := new Balances(10000);
    first := ledger.AddBalance(0, Alice, 6000);
    second := ledger.AddBalance(1, Alice, 5000);
    supply := ledger.circulatingSupply;
    other := ledger.GetBalance(1, Alice);
  }
}
