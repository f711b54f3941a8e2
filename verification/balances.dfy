/** The balances runtime module as an object: the configured total supply,
    the circulating-supply state variable and the balances store are fields,
    and each runtime method reads them, checks, and overwrites them in order.
    A failed check aborts the transition and every write it made is undone,
    so a method that reports a failure leaves the object as it found it. */
module Runtime {
  import opened UInt64
  import opened Ledger

  /** What a transition reports to the caller. */
  datatype Outcome = Success | Failure(error: Error)

  function OutcomeOf<T>(r: Result<T>): (o: Outcome)
    ensures o.Success? <==> r.Ok?
    ensures o.Failure? ==> o.error == r.error
  {
    match r
    case Ok(_) => Success
    case Fail(e) => Failure(e)
  }

  class Balances {
    /** The cap fixed when the module is configured. */
    const totalSupply: Balance
    /** Units issued so far, over all token identifiers together. */
    var circulatingSupply: Balance
    /** The persistent balances store; a missing key reads as zero. */
    var balances: map<Key, Balance>

    ghost predicate Valid()
      reads this
    {
      circulatingSupply <= totalSupply
    }

    /** The object's state as a ledger value. */
    ghost function AsState(): State
      reads this
    {
      State(circulatingSupply, balances)
    }

    constructor (totalSupply: Balance)
      ensures Valid()
      ensures this.totalSupply == totalSupply
      ensures AsState() == Initial()
    {
      this.totalSupply := totalSupply;
      circulatingSupply := 0;
      balances := map[];
    }

    /** The inherited `getBalance`: zero for a key never written. */
    method GetBalance(tokenId: TokenId, address: Address) returns (b: Balance)
      ensures b == BalanceOf(balances, Key(tokenId, address))
    {
      b := BalanceOf(balances, Key(tokenId, address));
    }

    /** The inherited `mint`: credits one key, aborting on overflow. */
    method Mint(tokenId: TokenId, address: Address, amount: Balance) returns (r: Outcome)
      modifies this
      ensures circulatingSupply == old(circulatingSupply)
      ensures var spec := Ledger.Mint(old(balances), Key(tokenId, address), amount);
        r == OutcomeOf(spec) && balances == (if spec.Ok? then spec.value else old(balances))
    {
      var balance := GetBalance(tokenId, address);
      var newBalance := CheckedAdd(balance, amount);
      if newBalance.None? {
        return Failure(ArithmeticOverflow);
      }
      balances := balances[Key(tokenId, address) := newBalance.value];
      r := Success;
    }

    /** The inherited `transfer` between two distinct accounts. */
    method Transfer(tokenId: TokenId, from: Address, to: Address, amount: Balance) returns (r: Outcome)
      requires from != to
      modifies this
      ensures circulatingSupply == old(circulatingSupply)
      ensures var spec := Ledger.Transfer(old(balances), tokenId, from, to, amount);
        r == OutcomeOf(spec) && balances == (if spec.Ok? then spec.value else old(balances))
    {
      var fromBalance := GetBalance(tokenId, from);
      var toBalance := GetBalance(tokenId, to);
      if !(fromBalance >= amount) {
        return Failure(InsufficientFunds);
      }
      var newFromBalance := fromBalance - amount;
      var newToBalance := CheckedAdd(toBalance, amount);
      if newToBalance.None? {
        return Failure(ArithmeticOverflow);
      }
      balances := balances[Key(tokenId, from) := newFromBalance];
      balances := balances[Key(tokenId, to) := newToBalance.value];
      r := Success;
    }

    /** `addBalance`: raise the supply, check it against the cap, store it,
        then mint. A mint that aborts also discards the supply write. */
    method AddBalance(tokenId: TokenId, address: Address, amount: Balance) returns (r: Outcome)
      requires Valid()
      modifies this
      ensures Valid()
      ensures var spec := Ledger.AddBalance(totalSupply, old(AsState()), tokenId, address, amount);
        r == OutcomeOf(spec) && AsState() == (if spec.Ok? then spec.value else old(AsState()))
    {
      var supply := circulatingSupply;
      var newSupply := CheckedAdd(supply, amount);
      if newSupply.None? {
        return Failure(ArithmeticOverflow);
      }
      if !(newSupply.value <= totalSupply) {
        return Failure(SupplyCapExceeded);
      }
      circulatingSupply := newSupply.value;
      r := Mint(tokenId, address, amount);
      if r.Failure? {
        circulatingSupply := supply;
      }
    }

    /** `updateBalance` with the intended selection: only the difference of
        the chosen direction is computed, and the account ends at `amount`. */
    method UpdateBalance(tokenId: TokenId, address: Address, addressPool: Address, amount: Balance)
      returns (r: Outcome)
      requires Valid()
      requires address != addressPool
      modifies this
      ensures Valid()
      ensures var spec := Ledger.UpdateBalance(old(AsState()), tokenId, address, addressPool, amount);
        r == OutcomeOf(spec) && AsState() == (if spec.Ok? then spec.value else old(AsState()))
    {
      if !(amount > 0) {
        return Failure(InvalidAmount);
      }
      var currBalance := GetBalance(tokenId, address);
      var plan := Select(amount, currBalance, address, addressPool);
      r := Transfer(tokenId, plan.from, plan.to, plan.diff);
    }

    /** `updateBalance` as the runtime code is written: both checked
        differences are computed before one is selected, so the transition
        aborts unless `amount` already equals the current balance. */
    method UpdateBalanceAsWritten(tokenId: TokenId, address: Address, addressPool: Address, amount: Balance)
      returns (r: Outcome)
      requires Valid()
      requires address != addressPool
      modifies this
      ensures Valid()
      ensures var spec := Ledger.UpdateBalanceAsWritten(old(AsState()), tokenId, address, addressPool, amount);
        r == OutcomeOf(spec) && AsState() == (if spec.Ok? then spec.value else old(AsState()))
    {
      if !(amount > 0) {
        return Failure(InvalidAmount);
      }
      var currBalance := GetBalance(tokenId, address);
      var condition := amount > currBalance;
      var up := CheckedSub(amount, currBalance);
      if up.None? {
        return Failure(ArithmeticOverflow);
      }
      var down := CheckedSub(currBalance, amount);
      if down.None? {
        return Failure(ArithmeticOverflow);
      }
      var upDiff, downDiff := up.value, down.value;
      var diff := if condition then upDiff else downDiff;
      var to := if condition then address else addressPool;
      var from := if condition then addressPool else address;
      r := Transfer(tokenId, from, to, diff);
    }
  }
}
