/** NIOVToken: an ERC-20 token that sells newly minted units for ether while
    its owner keeps a sale open, never beyond a fixed maximum supply, and
    lets the owner withdraw the ether it collected. */
module NiovTokenContract {
  import opened Results
  import opened Ledger

  /** The token's decimals, as ERC-20 reports them. */
  const Decimals: nat := 18

  /** The number of smallest units in one whole token: 10^Decimals. */
  const Scale: nat := Pow10(Decimals)

  /** Why a NIOVToken call reverts. */
  datatype Error =
    | NotOwner               // a caller other than the owner asked for an owner-only call
    | FundraisingNotActive   // "Fundraising is not active"
    | DivisionByZero         // the price is zero, so the token amount cannot be computed
    | ExceedsMaxSupply       // "Purchase would exceed max supply"

  /** The revert reason of each error, where the contract gives one. */
  function Reason(e: Error): (r: string)
    ensures r != "" <==> e.FundraisingNotActive? || e.ExceedsMaxSupply?
  {
    match e
    case NotOwner => ""
    case FundraisingNotActive => "Fundraising is not active"
    case DivisionByZero => ""
    case ExceedsMaxSupply => "Purchase would exceed max supply"
  }

  /** The smallest units bought by `value` wei at `price` wei per whole
      token, by integer division: never more than the payment covers. */
  function TokensFor(value: nat, price: nat): (r: nat)
    requires price > 0
    ensures r * price <= value * Scale
  {
    DivBelow(value * Scale, price);
    value * Scale / price
  }

  /** The integer quotient times the divisor never exceeds the dividend. */
  lemma DivBelow(a: nat, b: nat)
    requires b > 0
    ensures (a / b) * b <= a
  {
    assert a == b * (a / b) + a % b;
  }

  /** Integer division recovers an exact quotient. */
  lemma DivExact(a: int, b: int, k: int)
    requires b > 0 && a == k * b
    ensures a / b == k
  {
    var q, rem := a / b, a % b;
    var d := k - q;
    assert b * d == rem by {
      assert a == b * q + rem;
      assert b * d == b * k - b * q;
    }
    assert d >= 1 ==> b * d >= b by {
      assert b * d - b == b * (d - 1);
    }
    assert d <= -1 ==> b * d <= -b by {
      assert b * d + b == b * (d + 1);
    }
  }

  /** When `value` pays for exactly `k` smallest units, it buys exactly `k`. */
  lemma TokensForExact(value: nat, price: nat, k: nat)
    requires price > 0 && value * Scale == k * price
    ensures TokensFor(value, price) == k
  {
    DivExact(value * Scale, price, k);
  }

  class NiovToken {
    /** The deployer, the only account allowed the owner-only calls. */
    const owner: Address
    /** MAX_SUPPLY, in smallest units. */
    const maxSupply: nat
    var balances: map<Address, nat>
    var totalSupply: nat
    /** s_tokenPrice: wei per whole token. */
    var tokenPrice: nat
    /** s_fundraisingActive. */
    var fundraisingActive: bool
    /** The ether, in wei, that the contract holds. */
    var custody: nat

    /** Every token in existence sits on some account. */
    ghost predicate Valid()
      reads this
    {
      totalSupply == Sum(balances)
    }

    /** The balance of `a`. */
    function BalanceOf(a: Address): (r: nat)
      reads this
      requires Valid()
      ensures a !in balances ==> r == 0
      ensures r <= totalSupply
    {
      Ledger.BalanceOf(balances, a)
    }

    /** Deployed by `deployer` with supplies in whole tokens and a price in
        wei per whole token; the initial supply is minted to the deployer. */
    constructor (deployer: Address, initialSupply: nat, maxSupplyTokens: nat, price: nat)
      ensures Valid()
      ensures owner == deployer
      ensures maxSupply == maxSupplyTokens * Scale
      ensures totalSupply == initialSupply * Scale
      ensures balances == map[deployer := initialSupply * Scale]
      ensures tokenPrice == price
      ensures !fundraisingActive
      ensures custody == 0
    {
      owner := deployer;
      maxSupply := maxSupplyTokens * Scale;
      balances := map[deployer := initialSupply * Scale];
      totalSupply := initialSupply * Scale;
      tokenPrice := price;
      fundraisingActive := false;
      custody := 0;
      SumSingleton(deployer, initialSupply * Scale);
    }

    /** The owner opens the sale. */
    method StartFundraising(caller: Address) returns (r: Outcome<Error>)
      requires Valid()
      modifies this
      ensures Valid()
      ensures r == if caller == owner then Pass else Fail(NotOwner)
      ensures fundraisingActive == (r.Pass? || old(fundraisingActive))
      ensures balances == old(balances) && totalSupply == old(totalSupply)
      ensures tokenPrice == old(tokenPrice) && custody == old(custody)
    {
      if caller != owner {
        return Fail(NotOwner);
      }
      fundraisingActive := true;
      r := Pass;
    }

    /** The owner closes the sale. */
    method StopFundraising(caller: Address) returns (r: Outcome<Error>)
      requires Valid()
      modifies this
      ensures Valid()
      ensures r == if caller == owner then Pass else Fail(NotOwner)
      ensures fundraisingActive == (r.Fail? && old(fundraisingActive))
      ensures balances == old(balances) && totalSupply == old(totalSupply)
      ensures tokenPrice == old(tokenPrice) && custody == old(custody)
    {
      if caller != owner {
        return Fail(NotOwner);
      }
      fundraisingActive := false;
      r := Pass;
    }

    /** The owner sets the price to `newPrice` wei per whole token. */
    method ChangeTokenPrice(caller: Address, newPrice: nat) returns (r: Outcome<Error>)
      requires Valid()
      modifies this
      ensures Valid()
      ensures r == if caller == owner then Pass else Fail(NotOwner)
      ensures tokenPrice == if r.Pass? then newPrice else old(tokenPrice)
      ensures balances == old(balances) && totalSupply == old(totalSupply)
      ensures fundraisingActive == old(fundraisingActive) && custody == old(custody)
    {
      if caller != owner {
        return Fail(NotOwner);
      }
      tokenPrice := newPrice;
      r := Pass;
    }

    /** `caller` pays `value` wei and receives newly minted tokens at the
        current price; the whole purchase reverts if it would take the
        supply past the maximum. */
    method BuyTokens(caller: Address, value: nat) returns (r: Outcome<Error>)
      requires Valid()
      modifies this
      ensures Valid()
      ensures r == if !old(fundraisingActive) then Fail(FundraisingNotActive)
                   else if old(tokenPrice) == 0 then Fail(DivisionByZero)
                   else if old(totalSupply) + TokensFor(value, old(tokenPrice)) > maxSupply then Fail(ExceedsMaxSupply)
                   else Pass
      ensures r.Pass? ==> (balances == Credit(old(balances), caller, TokensFor(value, old(tokenPrice)))
                           && totalSupply == old(totalSupply) + TokensFor(value, old(tokenPrice))
                           && custody == old(custody) + value)
      ensures r.Pass? ==> totalSupply <= maxSupply
      ensures r.Fail? ==> (balances == old(balances) && totalSupply == old(totalSupply)
                           && custody == old(custody))
      ensures tokenPrice == old(tokenPrice) && fundraisingActive == old(fundraisingActive)
    {
      if !fundraisingActive {
        return Fail(FundraisingNotActive);
      }
      if tokenPrice == 0 {
        return Fail(DivisionByZero);
      }
      var tokens := TokensFor(value, tokenPrice);
      if totalSupply + tokens > maxSupply {
        return Fail(ExceedsMaxSupply);
      }
      custody := custody + value;
      balances := Credit(balances, caller, tokens);
      totalSupply := totalSupply + tokens;
      r := Pass;
    }

    /** The owner takes all the ether the contract holds; on success the
        result is the amount of wei sent to the owner. */
    method WithdrawFunds(caller: Address) returns (r: Result<nat, Error>)
      requires Valid()
      modifies this
      ensures Valid()
      ensures r == if caller == owner then Ok(old(custody)) else Err(NotOwner)
      ensures custody == if r.Ok? then 0 else old(custody)
      ensures balances == old(balances) && totalSupply == old(totalSupply)
      ensures tokenPrice == old(tokenPrice) && fundraisingActive == old(fundraisingActive)
    {
      if caller != owner {
        return Err(NotOwner);
      }
      r := Ok(custody);
      custody := 0;
    }
  }

  // The scenarios below follow the test suite: each deploys a fresh token
  // from `deployer` with 1000 whole tokens, a maximum of 10000 and a price of
  // 0.01 ether, then makes its calls.

  /** 0.01 ether, in wei. */
  const TestPrice: nat := OneEther / 100

  /** Deployment stores the scaled supplies, the price and the deployer. */
  method DeploymentScenario(deployer: Address)
    returns (supply: nat, max: nat, price: nat, tokenOwner: Address, active: bool, held: nat)
    ensures supply == 1000 * Scale && max == 10000 * Scale
    ensures price == TestPrice && tokenOwner == deployer
    ensures !active && held == 0
  {
    var token := new NiovToken(deployer, 1000, 10000, TestPrice);
    supply, max, price, tokenOwner := token.totalSupply, token.maxSupply, token.tokenPrice, token.owner;
    active, held := token.fundraisingActive, token.custody;
  }

  /** The owner opens and closes the sale. */
  method StartStopScenario(deployer: Address) returns (before: bool, during: bool, after: bool)
    ensures !before && during && !after
  {
    var token := new NiovToken(deployer, 1000, 10000, TestPrice);
    before := token.fundraisingActive;
    var r1 := token.StartFundraising(deployer);
    during := token.fundraisingActive;
    var r2 := token.StopFundraising(deployer);
    after := token.fundraisingActive;
  }

  /** The owner raises the price to 0.02 ether. */
  method ChangePriceScenario(deployer: Address) returns (price: nat)
    ensures price == 2 * TestPrice
  {
    var token := new NiovToken(deployer, 1000, 10000, TestPrice);
    var r := token.ChangeTokenPrice(deployer, 2 * TestPrice);
    price := token.tokenPrice;
  }

  /** During the sale, 1 ether buys 100 whole tokens: the buyer's balance
      and the supply grow by 100 tokens and the contract holds the ether. */
  method BuyScenario(deployer: Address, client: Address)
    returns (r: Outcome<Error>, clientBalance: nat, supply: nat, held: nat)
    requires client != deployer
    ensures r == Pass
    ensures clientBalance == 100 * Scale
    ensures supply == 1100 * Scale
    ensures held == OneEther
  {
    var token := new NiovToken(deployer, 1000, 10000, TestPrice);
    var r1 := token.StartFundraising(deployer);
    TokensForExact(OneEther, TestPrice, 100 * Scale);
    r := token.BuyTokens(client, OneEther);
    clientBalance, supply, held := token.BalanceOf(client), token.totalSupply, token.custody;
  }

  /** Before the sale opens, a purchase reverts. */
  method InactiveBuyScenario(deployer: Address, client: Address) returns (r: Outcome<Error>, supply: nat)
    ensures r == Fail(FundraisingNotActive)
    ensures Reason(r.error) == "Fundraising is not active"
    ensures supply == 1000 * Scale
  {
    var token := new NiovToken(deployer, 1000, 10000, TestPrice);
    r := token.BuyTokens(client, OneEther);
    supply := token.totalSupply;
  }

  /** 1000 ether would buy 100000 tokens, past the maximum of 10000, so the
      whole purchase reverts and nothing is minted or taken. */
  method OverCapBuyScenario(deployer: Address, client: Address)
    returns (r: Outcome<Error>, supply: nat, held: nat)
    ensures r == Fail(ExceedsMaxSupply)
    ensures Reason(r.error) == "Purchase would exceed max supply"
    ensures supply == 1000 * Scale && held == 0
  {
    var token := new NiovToken(deployer, 1000, 10000, TestPrice);
    var r1 := token.StartFundraising(deployer);
    TokensForExact(1000 * OneEther, TestPrice, 100000 * Scale);
    r := token.BuyTokens(client, 1000 * OneEther);
    supply, held := token.totalSupply, token.custody;
  }

  /** After a 1 ether purchase, the owner withdraws exactly 1 ether and the
      contract holds nothing. */
  method WithdrawScenario(deployer: Address, client: Address) returns (r: Result<nat, Error>, held: nat)
    requires client != deployer
    ensures r == Ok(OneEther)
    ensures held == 0
  {
    var token := new NiovToken(deployer, 1000, 10000, TestPrice);
    var r1 := token.StartFundraising(deployer);
    TokensForExact(OneEther, TestPrice, 100 * Scale);
    var r2 := token.BuyTokens(client, OneEther);
    r := token.WithdrawFunds(deployer);
    held := token.custody;
  }

  /** After a 1 ether purchase, a withdrawal by the buyer reverts and the
      ether stays in the contract. */
  method NonOwnerWithdrawScenario(deployer: Address, client: Address) returns (r: Result<nat, Error>, held: nat)
    requires client != deployer
    ensures r == Err(NotOwner)
    ensures held == OneEther
  {
    var token := new NiovToken(deployer, 1000, 10000, TestPrice);
    var r1 := token.StartFundraising(deployer);
    TokensForExact(OneEther, TestPrice, 100 * Scale);
    var r2 := token.BuyTokens(client, OneEther);
    r := token.WithdrawFunds(client);
    held := token.custody;
  }
}
