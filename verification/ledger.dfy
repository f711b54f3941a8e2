/** The token ledger as values: the state of the balances runtime module and
    each of its state transitions as a function from the old state to either
    the new state or the reason the transition aborts. An aborted transition
    carries no state: whatever it wrote is discarded, so the ledger keeps the
    state it had before the call. */
module Ledger {
  import opened UInt64

  /** A token identifier (a field element in the runtime). */
  type TokenId = nat

  /** An account's public identity, not interpreted by the ledger. */
  type Address = nat

  /** Balances are stored under the pair (token, account). */
  datatype Key = Key(tokenId: TokenId, address: Address)

  /** The module's persistent state: one supply counter shared by every
      token identifier, and the balances store. */
  datatype State = State(circulatingSupply: Balance, balances: map<Key, Balance>)

  /** The reasons a transition aborts. */
  datatype Error =
    | SupplyCapExceeded   // the new circulating supply would pass the total supply
    | InvalidAmount       // an equalizing update was asked for a target of zero
    | InsufficientFunds   // a transfer would take more than the sender holds
    | ArithmeticOverflow  // a checked addition or subtraction left the 64-bit range

  datatype Result<+T> = Ok(value: T) | Fail(error: Error)

  /** The state every deployment starts from. */
  function Initial(): State {
    State(0, map[])
  }

  /** A key never written reads as zero. */
  function BalanceOf(balances: map<Key, Balance>, k: Key): Balance {
    if k in balances then balances[k] else 0
  }

  /** Two stores that read the same under every key. */
  ghost predicate SameBalances(b: map<Key, Balance>, b': map<Key, Balance>) {
    forall k :: BalanceOf(b', k) == BalanceOf(b, k)
  }

  /** The inherited `mint`: credits `amount` to one key with a checked add. */
  function Mint(balances: map<Key, Balance>, k: Key, amount: Balance): (r: Result<map<Key, Balance>>)
    ensures r.Ok? <==> BalanceOf(balances, k) + amount <= MAX
    ensures r.Fail? ==> r.error == ArithmeticOverflow
    ensures r.Ok? ==> BalanceOf(r.value, k) == BalanceOf(balances, k) + amount
    ensures r.Ok? ==> forall k' :: k' != k ==> BalanceOf(r.value, k') == BalanceOf(balances, k')
  {
    match CheckedAdd(BalanceOf(balances, k), amount)
    case None => Fail(ArithmeticOverflow)
    case Some(v) => Ok(balances[k := v])
  }

  /** The inherited `transfer` of `amount` units of `tokenId` from one account
      to another: it aborts unless the sender holds at least `amount`, and
      aborts if the receiver's balance would overflow. */
  function Transfer(balances: map<Key, Balance>, tokenId: TokenId, from: Address, to: Address,
                    amount: Balance): (r: Result<map<Key, Balance>>)
    requires from != to
    ensures r.Ok? <==>
      amount <= BalanceOf(balances, Key(tokenId, from)) &&
      BalanceOf(balances, Key(tokenId, to)) + amount <= MAX
    ensures r.Fail? ==>
      (r.error == InsufficientFunds <==> BalanceOf(balances, Key(tokenId, from)) < amount)
    ensures r.Fail? ==> r.error in {InsufficientFunds, ArithmeticOverflow}
    ensures r.Ok? ==> BalanceOf(r.value, Key(tokenId, from)) + amount == BalanceOf(balances, Key(tokenId, from))
    ensures r.Ok? ==> BalanceOf(r.value, Key(tokenId, to)) == BalanceOf(balances, Key(tokenId, to)) + amount
    ensures r.Ok? ==> forall k :: k != Key(tokenId, from) && k != Key(tokenId, to) ==>
      BalanceOf(r.value, k) == BalanceOf(balances, k)
  {
    var fromKey, toKey := Key(tokenId, from), Key(tokenId, to);
    var fromBalance, toBalance := BalanceOf(balances, fromKey), BalanceOf(balances, toKey);
    if fromBalance < amount then Fail(InsufficientFunds)
    else
      match CheckedAdd(toBalance, amount)
      case None => Fail(ArithmeticOverflow)
      case Some(newTo) => Ok(balances[fromKey := fromBalance - amount][toKey := newTo])
  }

  /** `addBalance`: mint `amount` to one account as long as the shared
      circulating supply stays within `totalSupply`. The supply check ignores
      `tokenId`: one counter caps the issuance of every token. */
  function AddBalance(totalSupply: Balance, s: State, tokenId: TokenId, address: Address,
                      amount: Balance): (r: Result<State>)
    ensures r.Ok? <==>
      s.circulatingSupply + amount <= totalSupply &&
      BalanceOf(s.balances, Key(tokenId, address)) + amount <= MAX
    ensures r.Fail? && s.circulatingSupply + amount <= totalSupply ==> r.error == ArithmeticOverflow
    ensures r.Fail? && totalSupply < s.circulatingSupply + amount <= MAX ==> r.error == SupplyCapExceeded
    ensures r.Fail? && s.circulatingSupply + amount > MAX ==> r.error == ArithmeticOverflow
    ensures r.Ok? ==> r.value.circulatingSupply == s.circulatingSupply + amount <= totalSupply
    ensures r.Ok? ==>
      BalanceOf(r.value.balances, Key(tokenId, address)) == BalanceOf(s.balances, Key(tokenId, address)) + amount
    ensures r.Ok? ==> forall k :: k != Key(tokenId, address) ==>
      BalanceOf(r.value.balances, k) == BalanceOf(s.balances, k)
  {
    match CheckedAdd(s.circulatingSupply, amount)
    case None => Fail(ArithmeticOverflow)
    case Some(newSupply) =>
      if !(newSupply <= totalSupply) then Fail(SupplyCapExceeded)
      else
        match Mint(s.balances, Key(tokenId, address), amount)
        case Fail(e) => Fail(e)
        case Ok(balances) => Ok(State(newSupply, balances))
  }

  /** What an equalizing update moves: `diff` units from `from` to `to`. */
  datatype Plan = Plan(diff: Balance, from: Address, to: Address)

  /** The direction and size of an equalizing update, chosen the intended way:
      a top-up draws the shortfall from the pool, otherwise the excess goes
      back to the pool. Either way moving `diff` lands the account on `amount`. */
  function Select(amount: Balance, current: Balance, address: Address, addressPool: Address): (p: Plan)
    ensures amount > current ==> p.from == addressPool && p.to == address && current + p.diff == amount
    ensures amount <= current ==> p.from == address && p.to == addressPool && current - p.diff == amount
  {
    if amount > current then Plan(amount - current, addressPool, address)
    else Plan(current - amount, address, addressPool)
  }

  /** The same choice as the runtime code spells it: both checked differences
      are computed before one is picked, so the one that goes below zero
      aborts the update. Only when `amount == current` do both exist. */
  function SelectAsWritten(amount: Balance, current: Balance, address: Address,
                           addressPool: Address): (r: Option<Plan>)
    ensures r.Some? <==> amount == current
    ensures r.Some? ==> r.value == Select(amount, current, address, addressPool) && r.value.diff == 0
  {
    var condition := amount > current;
    match (CheckedSub(amount, current), CheckedSub(current, amount))
    case (Some(up), Some(down)) =>
      Some(Plan(if condition then up else down,
                if condition then addressPool else address,
                if condition then address else addressPool))
    case _ => None
  }

  /** Runs the transfer a plan describes, leaving the supply as it was. */
  function Settle(s: State, tokenId: TokenId, p: Plan): (r: Result<State>)
    requires p.from != p.to
    ensures r.Ok? ==> r.value.circulatingSupply == s.circulatingSupply
  {
    match Transfer(s.balances, tokenId, p.from, p.to, p.diff)
    case Fail(e) => Fail(e)
    case Ok(balances) => Ok(State(s.circulatingSupply, balances))
  }

  /** `updateBalance` with the intended selection: the account ends at exactly
      `amount`, the pool absorbs the opposite change, their sum is conserved,
      and neither the supply nor any other key changes. */
  function UpdateBalance(s: State, tokenId: TokenId, address: Address, addressPool: Address,
                         amount: Balance): (r: Result<State>)
    requires address != addressPool
    ensures amount == 0 ==> r == Fail(InvalidAmount)
    ensures r.Ok? <==>
      var current := BalanceOf(s.balances, Key(tokenId, address));
      var pool := BalanceOf(s.balances, Key(tokenId, addressPool));
      amount > 0 &&
      (if amount > current then amount - current <= pool else pool + (current - amount) <= MAX)
    ensures r.Fail? && amount > 0 ==>
      (r.error == InsufficientFunds <==> amount > BalanceOf(s.balances, Key(tokenId, address)))
    ensures r.Fail? && amount > 0 ==>
      (r.error == ArithmeticOverflow <==> amount <= BalanceOf(s.balances, Key(tokenId, address)))
    ensures r.Ok? ==> r.value.circulatingSupply == s.circulatingSupply
    ensures r.Ok? ==> BalanceOf(r.value.balances, Key(tokenId, address)) == amount
    ensures r.Ok? ==>
      BalanceOf(r.value.balances, Key(tokenId, addressPool)) + amount ==
      BalanceOf(s.balances, Key(tokenId, addressPool)) + BalanceOf(s.balances, Key(tokenId, address))
    ensures r.Ok? ==> forall k :: k != Key(tokenId, address) && k != Key(tokenId, addressPool) ==>
      BalanceOf(r.value.balances, k) == BalanceOf(s.balances, k)
  {
    if !(amount > 0) then Fail(InvalidAmount)
    else
      var current := BalanceOf(s.balances, Key(tokenId, address));
      Settle(s, tokenId, Select(amount, current, address, addressPool))
  }

  /** `updateBalance` as the runtime code is written, with both differences
      evaluated eagerly: it succeeds exactly when the target is positive and
      already equals the current balance, and then nothing changes. */
  function UpdateBalanceAsWritten(s: State, tokenId: TokenId, address: Address, addressPool: Address,
                                  amount: Balance): (r: Result<State>)
    requires address != addressPool
    ensures amount == 0 ==> r == Fail(InvalidAmount)
    ensures r.Ok? <==> amount > 0 && amount == BalanceOf(s.balances, Key(tokenId, address))
    ensures r.Fail? && amount > 0 ==> r.error == ArithmeticOverflow
    ensures r.Ok? ==> r.value.circulatingSupply == s.circulatingSupply
    ensures r.Ok? ==> SameBalances(s.balances, r.value.balances)
  {
    if !(amount > 0) then Fail(InvalidAmount)
    else
      var current := BalanceOf(s.balances, Key(tokenId, address));
      match SelectAsWritten(amount, current, address, addressPool)
      case None => Fail(ArithmeticOverflow)
      case Some(p) => Settle(s, tokenId, p)
  }

  /** A call a client can submit to the module. An equalizing update is
      either the runtime code as written or its intended reading, so the
      lemmas about runs cover both. */
  datatype Call =
    | AddBalanceCall(tokenId: TokenId, address: Address, amount: Balance)
    | UpdateBalanceCall(tokenId: TokenId, address: Address, addressPool: Address, amount: Balance)
    | UpdateBalanceAsWrittenCall(tokenId: TokenId, address: Address, addressPool: Address, amount: Balance)

  /** Equalizing updates are only considered between two distinct accounts. */
  predicate WellFormed(c: Call) {
    !c.AddBalanceCall? ==> c.address != c.addressPool
  }

  /** One transition: the new state on success, the old state on abort. */
  function Step(totalSupply: Balance, s: State, c: Call): (s': State)
    requires WellFormed(c)
    ensures s.circulatingSupply <= totalSupply ==> s'.circulatingSupply <= totalSupply
    ensures !c.AddBalanceCall? ==> s'.circulatingSupply == s.circulatingSupply
  {
    var r := match c
      case AddBalanceCall(t, a, n) => AddBalance(totalSupply, s, t, a, n)
      case UpdateBalanceCall(t, a, p, n) => UpdateBalance(s, t, a, p, n)
      case UpdateBalanceAsWrittenCall(t, a, p, n) => UpdateBalanceAsWritten(s, t, a, p, n);
    if r.Ok? then r.value else s
  }

  /** A sequence of transitions applied in order. */
  function Run(totalSupply: Balance, s: State, calls: seq<Call>): State
    requires forall i :: 0 <= i < |calls| ==> WellFormed(calls[i])
    decreases |calls|
  {
    if calls == [] then s else Run(totalSupply, Step(totalSupply, s, calls[0]), calls[1..])
  }

  /** No sequence of calls drives the supply past the cap. */
  lemma {:induction false} RunKeepsSupplyBound(totalSupply: Balance, s: State, calls: seq<Call>)
    requires forall i :: 0 <= i < |calls| ==> WellFormed(calls[i])
    requires s.circulatingSupply <= totalSupply
    ensures Run(totalSupply, s, calls).circulatingSupply <= totalSupply
    decreases |calls|
  {
    if calls != [] {
      RunKeepsSupplyBound(totalSupply, Step(totalSupply, s, calls[0]), calls[1..]);
    }
  }

  /** The supply only grows along a run. */
  lemma {:induction false} RunSupplyMonotone(totalSupply: Balance, s: State, calls: seq<Call>)
    requires forall i :: 0 <= i < |calls| ==> WellFormed(calls[i])
    ensures Run(totalSupply, s, calls).circulatingSupply >= s.circulatingSupply
    decreases |calls|
  {
    if calls != [] {
      RunSupplyMonotone(totalSupply, Step(totalSupply, s, calls[0]), calls[1..]);
    }
  }

  /** Every state reachable from the initial one respects the cap. */
  lemma ReachableSupplyBounded(totalSupply: Balance, calls: seq<Call>)
    requires forall i :: 0 <= i < |calls| ==> WellFormed(calls[i])
    ensures Run(totalSupply, Initial(), calls).circulatingSupply <= totalSupply
  {
    RunKeepsSupplyBound(totalSupply, Initial(), calls);
  }

  /** Minting exactly up to the cap succeeds; below the 64-bit limit, one unit
      more aborts with the supply-cap error. */
  lemma AddBalanceAtCap(totalSupply: Balance, s: State, tokenId: TokenId, address: Address, amount: Balance)
    requires s.circulatingSupply + amount == totalSupply
    requires BalanceOf(s.balances, Key(tokenId, address)) + amount <= MAX
    ensures AddBalance(totalSupply, s, tokenId, address, amount).Ok?
    ensures totalSupply < MAX ==>
      AddBalance(totalSupply, s, tokenId, address, amount + 1) == Fail(SupplyCapExceeded)
  {
  }

  /** Minting under one token identifier uses up the cap for every other one:
      after `x` units of `t1`, minting `y` units of a different `t2` aborts as
      soon as the two together pass the cap, and with the supply-cap error
      whenever the sum still fits in 64 bits. */
  lemma SupplySharedAcrossTokens(totalSupply: Balance, s: State, t1: TokenId, t2: TokenId,
                                 a1: Address, a2: Address, x: Balance, y: Balance)
    requires t1 != t2
    requires AddBalance(totalSupply, s, t1, a1, x).Ok?
    requires s.circulatingSupply + x + y > totalSupply
    ensures AddBalance(totalSupply, AddBalance(totalSupply, s, t1, a1, x).value, t2, a2, y).Fail?
    ensures s.circulatingSupply + x + y <= MAX ==>
      AddBalance(totalSupply, AddBalance(totalSupply, s, t1, a1, x).value, t2, a2, y) == Fail(SupplyCapExceeded)
  {
  }

  /** An equalizing update to the balance the account already has moves
      nothing and always succeeds, under either reading of the selection. */
  lemma UpdateToCurrentIsNoOp(s: State, tokenId: TokenId, address: Address, addressPool: Address)
    requires address != addressPool
    requires BalanceOf(s.balances, Key(tokenId, address)) > 0
    ensures var amount := BalanceOf(s.balances, Key(tokenId, address));
      && UpdateBalance(s, tokenId, address, addressPool, amount).Ok?
      && UpdateBalanceAsWritten(s, tokenId, address, addressPool, amount)
         == UpdateBalance(s, tokenId, address, addressPool, amount)
      && SameBalances(s.balances, UpdateBalance(s, tokenId, address, addressPool, amount).value.balances)
  {
  }

  /** Wherever the runtime code succeeds, the intended version succeeds with
      the same result; the runtime code only loses the cases with a move. */
  lemma AsWrittenRefinesIntended(s: State, tokenId: TokenId, address: Address, addressPool: Address,
                                 amount: Balance)
    requires address != addressPool
    ensures UpdateBalanceAsWritten(s, tokenId, address, addressPool, amount).Ok? ==>
      UpdateBalanceAsWritten(s, tokenId, address, addressPool, amount)
      == UpdateBalance(s, tokenId, address, addressPool, amount)
  {
  }
}
