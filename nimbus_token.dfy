/** NimbusToken: an ERC-20 token whose owner may mint to any account and
    whose holders may burn from their own balance. */
module NimbusTokenContract {
  import opened Results
  import opened Ledger

  /** Why a NimbusToken call reverts. */
  datatype Error =
    | NotOwner             // a caller other than the owner asked to mint
    | InvalidReceiver      // the recipient is the zero address
    | InsufficientBalance  // the caller's balance does not cover the amount

  class NimbusToken {
    /** The account allowed to mint. */
    const owner: Address
    var balances: map<Address, nat>
    var totalSupply: nat

    /** Every token in existence sits on some account. */
    ghost predicate Valid()
      reads this
    {
      totalSupply == Sum(balances)
    }

    /** The balance of `a`. */
    function BalanceOf(a: Address): (r: nat)
      reads this
      requires Valid()
      ensures a !in balances ==> r == 0
      ensures r <= totalSupply
    {
      Ledger.BalanceOf(balances, a)
    }

    /** Deploys the token: `initialOwner` becomes the owner and holds the
        whole `initialSupply` (already in the smallest unit). */
    constructor (initialSupply: nat, initialOwner: Address)
      ensures Valid()
      ensures owner == initialOwner
      ensures balances == map[initialOwner := initialSupply]
      ensures totalSupply == initialSupply
    {
      owner := initialOwner;
      balances := map[initialOwner := initialSupply];
      totalSupply := initialSupply;
      SumSingleton(initialOwner, initialSupply);
    }

    /** `caller` sends `amount` to `to`. */
    method Transfer(caller: Address, to: Address, amount: nat) returns (r: Outcome<Error>)
      requires Valid()
      modifies this
      ensures Valid()
      ensures r == if to == ZeroAddress then Fail(InvalidReceiver)
                   else if amount > old(BalanceOf(caller)) then Fail(InsufficientBalance)
                   else Pass
      ensures r.Pass? ==> balances == Credit(Debit(old(balances), caller, amount), to, amount)
      ensures r.Fail? ==> balances == old(balances)
      ensures totalSupply == old(totalSupply)
    {
      if to == ZeroAddress {
        return Fail(InvalidReceiver);
      }
      if amount > BalanceOf(caller) {
        return Fail(InsufficientBalance);
      }
      balances := Credit(Debit(balances, caller, amount), to, amount);
      r := Pass;
    }

    /** The owner creates `amount` new tokens on `to`. */
    method Mint(caller: Address, to: Address, amount: nat) returns (r: Outcome<Error>)
      requires Valid()
      modifies this
      ensures Valid()
      ensures r == if caller != owner then Fail(NotOwner)
                   else if to == ZeroAddress then Fail(InvalidReceiver)
                   else Pass
      ensures r.Pass? ==> (balances == Credit(old(balances), to, amount)
                           && totalSupply == old(totalSupply) + amount)
      ensures r.Fail? ==> balances == old(balances) && totalSupply == old(totalSupply)
    {
      if caller != owner {
        return Fail(NotOwner);
      }
      if to == ZeroAddress {
        return Fail(InvalidReceiver);
      }
      balances := Credit(balances, to, amount);
      totalSupply := totalSupply + amount;
      r := Pass;
    }

    /** `caller` destroys `amount` of its own tokens. */
    method Burn(caller: Address, amount: nat) returns (r: Outcome<Error>)
      requires Valid()
      modifies this
      ensures Valid()
      ensures r == if amount > old(BalanceOf(caller)) then Fail(InsufficientBalance) else Pass
      ensures r.Pass? ==> (balances == Debit(old(balances), caller, amount)
                           && totalSupply + amount == old(totalSupply))
      ensures r.Fail? ==> balances == old(balances) && totalSupply == old(totalSupply)
    {
      if amount > BalanceOf(caller) {
        return Fail(InsufficientBalance);
      }
      balances := Debit(balances, caller, amount);
      totalSupply := totalSupply - amount;
      r := Pass;
    }
  }

  // The scenarios below follow the test suite: each deploys a fresh token
  // with 1000 ether worth of units held by `owner`, then makes its calls.

  /** Deployment sets the owner and gives it the whole supply. */
  method DeploymentScenario(owner: Address) returns (tokenOwner: Address, supply: nat, ownerBalance: nat)
    ensures tokenOwner == owner
    ensures supply == ownerBalance == 1000 * OneEther
  {
    var token := new NimbusToken(1000 * OneEther, owner);
    tokenOwner, supply, ownerBalance := token.owner, token.totalSupply, token.BalanceOf(owner);
  }

  /** 50 units go from the owner to `addr1`, then from `addr1` to `addr2`. */
  method ChainedTransferScenario(owner: Address, addr1: Address, addr2: Address)
    returns (balance1: nat, balance2: nat)
    requires owner != addr1 && addr1 != addr2 && owner != addr2
    requires addr1 != ZeroAddress && addr2 != ZeroAddress
    ensures balance1 == 50 * OneEther
    ensures balance2 == 50 * OneEther
  {
    var token := new NimbusToken(1000 * OneEther, owner);
    var r1 := token.Transfer(owner, addr1, 50 * OneEther);
    balance1 := token.BalanceOf(addr1);
    var r2 := token.Transfer(addr1, addr2, 50 * OneEther);
    balance2 := token.BalanceOf(addr2);
  }

  /** `addr1` holds nothing, so its transfer to the owner reverts and the
      owner's balance stays as it was. */
  method InsufficientBalanceScenario(owner: Address, addr1: Address)
    returns (r: Outcome<Error>, ownerBalance: nat)
    requires owner != addr1 && owner != ZeroAddress
    ensures r == Fail(InsufficientBalance)
    ensures ownerBalance == 1000 * OneEther
  {
    var token := new NimbusToken(1000 * OneEther, owner);
    r := token.Transfer(addr1, owner, OneEther);
    ownerBalance := token.BalanceOf(owner);
  }

  /** Two transfers out of the owner: 1000 becomes 850 + 100 + 50. */
  method TwoTransfersScenario(owner: Address, addr1: Address, addr2: Address)
    returns (ownerBalance: nat, balance1: nat, balance2: nat, supply: nat)
    requires owner != addr1 && addr1 != addr2 && owner != addr2
    requires addr1 != ZeroAddress && addr2 != ZeroAddress
    ensures ownerBalance == 850 * OneEther
    ensures balance1 == 100 * OneEther
    ensures balance2 == 50 * OneEther
    ensures supply == ownerBalance + balance1 + balance2
  {
    var token := new NimbusToken(1000 * OneEther, owner);
    var r1 := token.Transfer(owner, addr1, 100 * OneEther);
    var r2 := token.Transfer(owner, addr2, 50 * OneEther);
    ownerBalance, balance1, balance2 := token.BalanceOf(owner), token.BalanceOf(addr1), token.BalanceOf(addr2);
    supply := token.totalSupply;
  }

  /** The owner mints 100 units to `addr1`. */
  method OwnerMintScenario(owner: Address, addr1: Address) returns (balance1: nat, supply: nat)
    requires owner != addr1 && addr1 != ZeroAddress
    ensures balance1 == 100 * OneEther
    ensures supply == 1100 * OneEther
  {
    var token := new NimbusToken(1000 * OneEther, owner);
    var r := token.Mint(owner, addr1, 100 * OneEther);
    balance1, supply := token.BalanceOf(addr1), token.totalSupply;
  }

  /** A mint by anyone but the owner reverts and creates nothing. */
  method NonOwnerMintScenario(owner: Address, addr1: Address) returns (r: Outcome<Error>, supply: nat)
    requires owner != addr1
    ensures r == Fail(NotOwner)
    ensures supply == 1000 * OneEther
  {
    var token := new NimbusToken(1000 * OneEther, owner);
    r := token.Mint(addr1, addr1, 100 * OneEther);
    supply := token.totalSupply;
  }

  /** The owner burns 100 of its 1000 units. */
  method BurnScenario(owner: Address) returns (ownerBalance: nat, supply: nat)
    ensures ownerBalance == 900 * OneEther
    ensures supply == 900 * OneEther
  {
    var token := new NimbusToken(1000 * OneEther, owner);
    var r := token.Burn(owner, 100 * OneEther);
    ownerBalance, supply := token.BalanceOf(owner), token.totalSupply;
  }
}
