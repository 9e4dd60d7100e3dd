# Token contracts: a Dafny model

This project models three small Solidity contracts of a tokenized-asset
repository, as their Hardhat test suites pin them down:

- **NIOVToken**: an ERC-20 token that sells itself for ether. The owner opens
  and closes a sale (`s_fundraisingActive`) and sets a price (`s_tokenPrice`,
  wei per whole token). While the sale is open, `buyTokens` mints
  `value * 10^decimals / price` smallest units to the buyer. It reverts as a
  whole if that would take `totalSupply` past `MAX_SUPPLY`. The contract keeps
  the ether until the owner calls `withdrawFunds`.
- **NimbusToken**: an ERC-20 token (the Methods section of EIP-20) with
  `transfer`, `mint` restricted to the owner, and self-service `burn`.
- **DIDNFT**: an ERC-721 identity token. Each account may mint one token
  (`mintDID(uuid)`), bound to a UUID that no other token carries. Ids are
  1, 2, 3, ... in call order. `ownerOf` and `getUUID` read the stored data.

Each contract is a Dafny class. Its fields are the contract's storage, and
each external function is a method that takes the caller (`msg.sender`) as a
parameter. A call that reverts returns `Fail`/`Err` with the reason and leaves
every field as it was, like a reverted transaction. A call that succeeds
returns `Pass`/`Ok`, and its postcondition states the whole new state.

Files:
- `results.dfy`: the `Result` and `Outcome` datatypes.
- `ledger.dfy`: the ERC-20 balance book both fungible tokens update. It holds
  the sum of all balances, the credit and debit steps, and the lemmas showing
  that these steps move the sum by exactly the amount.
- `nimbus_token.dfy`, `niov_token.dfy`, `did_nft.dfy`: one module per contract.

Each `Valid()` is the contract's invariant, and every method preserves it:
- For the fungible tokens, `totalSupply` equals the sum of all balances.
- For DIDNFT, tokens `1..tokenIdCounter` exist and no others. The guard sets
  (`hasMinted`, `usedUuids`) are exactly the holders and the UUIDs in use. No
  account mints two tokens, and no UUID sits on two tokens. Since no ERC-721
  transfer is modelled, a minter is also the token's holder.

Each test case becomes a `...Scenario` method. The method deploys a fresh
contract, makes the test's calls with the test's constants (`parseEther`
values in wei, 18 decimals) and states the test's expectations as
postconditions. The most general form of each test is used: any addresses
and UUIDs the test leaves free.

The contract sources are not part of this model; only their test suites are.
No test exercises a zero price, a zero-amount mint, or a call by a non-owner
to `startFundraising`, `stopFundraising` or `changeTokenPrice`. For these the
model takes Solidity's own semantics and the contracts' visible pattern:
- A zero price makes `buyTokens` revert with a division by zero.
- A zero-amount mint succeeds.
- `changeTokenPrice` accepts any price.
- The three setters are owner-only, like `withdrawFunds` and `mint`.

## Model

| member | source | states |
|---|---|---|
| Ledger.BalanceOf | test/NimbusToken.js:31 | an account never credited holds zero, and no balance exceeds the sum of all balances |
| Ledger.SumRemove | test/NimbusToken.js:58-76 | the sum of all balances is any one account's balance plus the sum of the others |
| Ledger.SumUpdate | test/NimbusToken.js:58-76 | setting one balance to v changes the sum of balances by v minus that account's old balance |
| Ledger.BalanceAtMostSum | test/NimbusToken.js:42-56 | no account's balance exceeds the total of all balances, so a covered debit never takes the supply below zero |
| Ledger.SumSingleton | test/NimbusToken.js:21-24 | a book with one funded account sums to that account's balance |
| Ledger.Credit | test/NimbusToken.js:80-84 | crediting raises exactly one account's balance by the amount, leaves every other account alone, and raises the sum by the amount |
| Ledger.Debit | test/NimbusToken.js:92-96 | debiting a covered amount lowers exactly one account's balance by it, leaves every other account alone, and lowers the sum by it |
| Ledger.TransferPreservesSum | test/NimbusToken.js:58-76 | moving tokens between accounts leaves the sum unchanged, and a transfer to oneself leaves the balance unchanged |
| NimbusTokenContract.NimbusToken.BalanceOf | test/NimbusToken.js:22 | balanceOf reads zero for an account never credited and never exceeds totalSupply |
| NimbusTokenContract.NimbusToken.constructor | test/NimbusToken.js:7-24 | the given owner is the owner and holds the whole initial supply, which is the total supply |
| NimbusTokenContract.NimbusToken.Transfer | test/NimbusToken.js:28-56 | reverts for the zero recipient or an uncovered amount and then changes nothing; otherwise debits the caller and credits the recipient by the amount; total supply never changes |
| NimbusTokenContract.NimbusToken.Mint | test/NimbusToken.js:80-90 | reverts for any caller but the owner (and for the zero recipient) and changes nothing; otherwise raises the recipient's balance and the total supply by exactly the amount |
| NimbusTokenContract.NimbusToken.Burn | test/NimbusToken.js:92-96 | reverts when the caller's balance does not cover the amount; otherwise lowers the caller's own balance and the total supply by exactly the amount |
| NimbusTokenContract.DeploymentScenario | test/NimbusToken.js:16-25 | after deployment the owner is the given account and the total supply equals the owner's balance |
| NimbusTokenContract.ChainedTransferScenario | test/NimbusToken.js:28-40 | 50 units sent owner to addr1, then addr1 to addr2, arrive in full at each step |
| NimbusTokenContract.InsufficientBalanceScenario | test/NimbusToken.js:42-56 | a transfer from an empty account reverts with an insufficient balance and the owner's balance is unchanged |
| NimbusTokenContract.TwoTransfersScenario | test/NimbusToken.js:58-76 | after sending 100 and 50 out of 1000 the balances are 850, 100 and 50, which add up to the total supply |
| NimbusTokenContract.OwnerMintScenario | test/NimbusToken.js:80-84 | the owner's mint of 100 gives addr1 exactly 100 and raises the supply to 1100 |
| NimbusTokenContract.NonOwnerMintScenario | test/NimbusToken.js:86-90 | a mint by a non-owner reverts and the supply stays at 1000 |
| NimbusTokenContract.BurnScenario | test/NimbusToken.js:92-96 | the owner burning 100 of 1000 leaves it, and the supply, at 900 |
| NiovTokenContract.TokensFor | test/NiovToken.js:58-60 | the purchase formula value*10^decimals/price never credits more units than the payment covers at the price |
| NiovTokenContract.Reason | test/NiovToken.js:79 | the contract's own checks carry a revert string ("Fundraising is not active"; "Purchase would exceed max supply", line 88) and the inherited owner check and the division by zero carry none |
| NiovTokenContract.NiovToken.BalanceOf | test/NiovToken.js:66-68 | balanceOf reads zero for an account never credited and never exceeds totalSupply |
| NiovTokenContract.TokensForExact | test/NiovToken.js:57-60 | when value times 10^decimals is exactly k times the price, the purchase buys exactly k smallest units |
| NiovTokenContract.NiovToken.constructor | test/NiovToken.js:12-34 | the supplies are the arguments times 10^decimals, the price is the argument, the deployer is the owner and holds the initial supply, the sale is closed and no ether is held |
| NiovTokenContract.NiovToken.StartFundraising | test/NiovToken.js:38-42 | the owner's call opens the sale and changes nothing else; another caller's call reverts and changes nothing |
| NiovTokenContract.NiovToken.StopFundraising | test/NiovToken.js:43-46 | the owner's call closes the sale and changes nothing else; another caller's call reverts and changes nothing |
| NiovTokenContract.NiovToken.ChangeTokenPrice | test/NiovToken.js:48-52 | the owner's call sets the price to exactly the new price and changes nothing else |
| NiovTokenContract.NiovToken.BuyTokens | test/NiovToken.js:54-89 | reverts while the sale is closed, or when the purchase would take the supply past MAX_SUPPLY, and then changes nothing; otherwise credits the buyer and the supply with value*10^decimals/price, adds exactly value to the held ether, and leaves the supply within MAX_SUPPLY |
| NiovTokenContract.NiovToken.WithdrawFunds | test/NiovToken.js:93-117 | the owner receives the whole held balance and the contract then holds zero; for any other caller it reverts and the ether stays |
| NiovTokenContract.DeploymentScenario | test/NiovToken.js:22-35 | deployment with 1000 and 10000 tokens at 0.01 ether stores 1000*10^18, 10000*10^18, the price and the deployer, with the sale closed |
| NiovTokenContract.StartStopScenario | test/NiovToken.js:38-46 | the sale flag reads false, then true after the start, then false after the stop |
| NiovTokenContract.ChangePriceScenario | test/NiovToken.js:48-52 | after the owner sets 0.02 ether the price reads 0.02 ether |
| NiovTokenContract.BuyScenario | test/NiovToken.js:54-72 | 1 ether buys 100 whole tokens: the buyer holds 100*10^18, the supply is 1100*10^18 and the contract holds 1 ether |
| NiovTokenContract.InactiveBuyScenario | test/NiovToken.js:74-80 | a purchase before the sale opens reverts with "Fundraising is not active" and mints nothing |
| NiovTokenContract.OverCapBuyScenario | test/NiovToken.js:82-89 | a 1000 ether purchase reverts with "Purchase would exceed max supply"; nothing is minted and no ether is kept |
| NiovTokenContract.WithdrawScenario | test/NiovToken.js:93-108 | after a 1 ether purchase the owner withdraws exactly 1 ether and the contract holds none |
| NiovTokenContract.NonOwnerWithdrawScenario | test/NiovToken.js:110-117 | a withdrawal by the buyer reverts and the 1 ether stays in the contract |
| DidNftContract.Reason | test/DIDNft.js:41 | every DIDNFT revert except ERC-721's ownerOf of a missing token carries a string: "User has already minted a DID NFT", "UUID already in use" (line 78) and "Token doesn't exist!" (line 68) |
| DidNftContract.DidNft.constructor | test/DIDNft.js:8-23 | the deployer is the owner and no token exists |
| DidNftContract.DidNft.MintDid | test/DIDNft.js:26-80 | reverts with "User has already minted a DID NFT" if the caller has minted, else with "UUID already in use" if the UUID is taken, changing nothing; otherwise the next id (one past the last) goes to the caller with the UUID, and both guards record the mint |
| DidNftContract.DidNft.GetUuid | test/DIDNft.js:57-70 | succeeds exactly for the ids minted so far, returning a UUID in use, and otherwise reverts with "Token doesn't exist!" |
| DidNftContract.DidNft.OwnerOf | test/DIDNft.js:44-54 | succeeds exactly for the ids minted so far, returning an account that has minted, and otherwise reverts |
| DidNftContract.OneTokenPerHolder | test/DIDNft.js:36-42 | two existing tokens have the same holder, or the same UUID, only when they are the same token (no ERC-721 transfer is modelled, so a holder is the account that minted) |
| DidNftContract.DeploymentScenario | test/DIDNft.js:21-23 | after deployment the owner is the deployer and no id has been given out |
| DidNftContract.FirstMintScenario | test/DIDNft.js:27-34 | ownerOf(1) is the caller and getUUID(1) is exactly its UUID; that the mint itself returns id 1 is the model's addition, since no test reads mintDID's return value |
| DidNftContract.SecondMintScenario | test/DIDNft.js:36-42 | a second mint by the same account reverts with "User has already minted a DID NFT" whatever UUID it passes, and no id is given out |
| DidNftContract.IncrementScenario | test/DIDNft.js:44-54 | two accounts minting in turn own ids 1 and 2 |
| DidNftContract.MissingTokenScenario | test/DIDNft.js:66-70 | getUUID(999) on a fresh contract reverts with "Token doesn't exist!" |
| DidNftContract.ReusedUuidScenario | test/DIDNft.js:74-80 | a second account minting with the first account's UUID reverts with "UUID already in use" |

## Left out

- Gas, and the ether balances of accounts: the contract's ether is the `custody` counter. `WithdrawFunds` returns the amount paid to the owner rather than updating the owner's account (test/NiovToken.js:99-106 subtracts gas from that account).
- The 256-bit width of Solidity integers: amounts are unbounded `nat`, so a multiplication or addition that would overflow and revert is not modelled.
- NiovTokenContract.TokensFor: it is Solidity's truncating integer division, but the model proves the purchase amount only when the payment divides exactly (TokensForExact). It claims nothing about the remainder of a payment that does not divide evenly, beyond the whole payment staying in custody.
- NiovTokenContract.NiovToken.StartFundraising: a repeated start (or a repeated StopFundraising) is not exercised. The model simply sets the flag, so a repeated call succeeds. Whether the contract instead reverts is not captured; either way the flag and every other field end up the same.
- NiovTokenContract.NiovToken.ChangeTokenPrice: no test calls it, or the start and stop calls, as a non-owner. The model makes all three owner-only, like `withdrawFunds`, so a non-owner call reverts with `NotOwner`.
- NiovTokenContract.NiovToken.constructor: no test checks which account receives NIOVToken's initial supply; the model credits the deployer.
- NimbusTokenContract.NimbusToken.constructor: the tests deploy from the same account they pass as the owner (test/NimbusToken.js:9-13), so they cannot tell whether the initial supply goes to the deployer or to the owner argument. The model credits the owner argument and takes no deployer.
- DidNftContract.DidNft.MintDid: it returns the new id. No test reads mintDID's return value, so the returned id is the model's addition; the tests read it back through `ownerOf`.
- Revert reasons of the inherited ownership and token libraries (custom errors) are modelled as bare error values; only the contracts' own `require` strings are spelled out, in `Reason`.
- The zero address: the model checks it only as a recipient of transfers and mints. It does not model a zero owner passed to a constructor, or the zero address as a caller (`msg.sender` is never zero).
- `_safeMint`'s callback to contract recipients: callers are taken to be ordinary accounts.
- The `name`, `symbol` and `decimals` strings and getters, events, ERC-20 allowances and `transferFrom`, ERC-721 transfers, approvals and `balanceOf`, and ownership transfer: none is exercised by the tests.
- Transfers and burns of NIOVToken: it is an ERC-20 token too, but its tests exercise only minting through `buyTokens`. The ledger steps NimbusToken uses would apply unchanged.
- Addresses are natural numbers; their 160-bit range is not modelled.
