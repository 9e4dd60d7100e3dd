/** DIDNFT: an ERC-721 identity token. Each account may mint one token,
    bound to a UUID that no other token carries; token ids are handed out
    1, 2, 3, ... in the order of the mints. */
module DidNftContract {
  import opened Results
  import opened Ledger

  /** Why a DIDNFT call reverts. */
  datatype Error =
    | AlreadyMinted      // "User has already minted a DID NFT"
    | UuidInUse          // "UUID already in use"
    | TokenDoesNotExist  // "Token doesn't exist!", from getUUID
    | NonexistentToken   // ERC-721 ownerOf of an id that was never minted

  /** The revert reason of each error, where the contract gives one. */
  function Reason(e: Error): (r: string)
    ensures r != "" <==> !e.NonexistentToken?
  {
    match e
    case AlreadyMinted => "User has already minted a DID NFT"
    case UuidInUse => "UUID already in use"
    case TokenDoesNotExist => "Token doesn't exist!"
    case NonexistentToken => ""
  }

  /** Adding a fresh key adds its value to the map's values. */
  lemma ValuesAfterInsert<K, V>(m: map<K, V>, k: K, v: V)
    requires k !in m
    ensures m[k := v].Values == m.Values + {v}
  {
    forall x | x in m.Values + {v} ensures x in m[k := v].Values {
      if x == v {
        assert m[k := v][k] == x;
      } else {
        var j :| j in m && m[j] == x;
        assert m[k := v][j] == x;
      }
    }
  }

  class DidNft {
    /** The deployer. */
    const owner: Address
    /** The id of the token minted last; 0 before the first mint. */
    var tokenIdCounter: nat
    /** The holder of each token (ERC-721 ownerOf). */
    var holders: map<nat, Address>
    /** The UUID each token was minted with. */
    var tokenUuids: map<nat, string>
    /** The accounts that have minted. */
    var hasMinted: set<Address>
    /** The UUIDs already bound to a token. */
    var usedUuids: set<string>

    /** Tokens 1..tokenIdCounter exist and no other; each has a UUID; the
        guard sets are exactly the holders and the UUIDs in use; no account
        mints two tokens and no UUID is on two tokens (no ERC-721 transfer
        is modelled, so the holders are exactly the minters). */
    ghost predicate Valid()
      reads this
    {
      (forall id :: id in holders <==> 1 <= id <= tokenIdCounter)
      && tokenUuids.Keys == holders.Keys
      && hasMinted == holders.Values
      && usedUuids == tokenUuids.Values
      && (forall i, j :: i in holders && j in holders && holders[i] == holders[j] ==> i == j)
      && (forall i, j :: i in tokenUuids && j in tokenUuids && tokenUuids[i] == tokenUuids[j] ==> i == j)
    }

    /** Deployed by `deployer`, with no token yet. */
    constructor (deployer: Address)
      ensures Valid()
      ensures owner == deployer
      ensures tokenIdCounter == 0
      ensures holders == map[] && tokenUuids == map[]
      ensures hasMinted == {} && usedUuids == {}
    {
      owner := deployer;
      tokenIdCounter := 0;
      holders := map[];
      tokenUuids := map[];
      hasMinted := {};
      usedUuids := {};
    }

    /** `caller` mints its identity token bound to `uuid`; on success the
        result is the new token's id. */
    method MintDid(caller: Address, uuid: string) returns (r: Result<nat, Error>)
      requires Valid()
      modifies this
      ensures Valid()
      ensures r == if caller in old(hasMinted) then Err(AlreadyMinted)
                   else if uuid in old(usedUuids) then Err(UuidInUse)
                   else Ok(old(tokenIdCounter) + 1)
      ensures r.Ok? ==> (tokenIdCounter == r.value
                         && holders == old(holders)[r.value := caller]
                         && tokenUuids == old(tokenUuids)[r.value := uuid]
                         && hasMinted == old(hasMinted) + {caller}
                         && usedUuids == old(usedUuids) + {uuid})
      ensures r.Err? ==> (tokenIdCounter == old(tokenIdCounter)
                          && holders == old(holders) && tokenUuids == old(tokenUuids)
                          && hasMinted == old(hasMinted) && usedUuids == old(usedUuids))
    {
      if caller in hasMinted {
        return Err(AlreadyMinted);
      }
      if uuid in usedUuids {
        return Err(UuidInUse);
      }
      var id := tokenIdCounter + 1;
      assert id !in holders;
      ValuesAfterInsert(holders, id, caller);
      ValuesAfterInsert(tokenUuids, id, uuid);
      holders := holders[id := caller];
      tokenUuids := tokenUuids[id := uuid];
      hasMinted := hasMinted + {caller};
      usedUuids := usedUuids + {uuid};
      tokenIdCounter := id;
      r := Ok(id);
    }

    /** The UUID of token `id`; reverts for an id never minted. */
    function GetUuid(id: nat): (r: Result<string, Error>)
      reads this
      requires Valid()
      ensures r.Ok? <==> 1 <= id <= tokenIdCounter
      ensures r.Err? ==> r.error == TokenDoesNotExist
      ensures r.Ok? ==> r.value in usedUuids
    {
      if id in holders then Ok(tokenUuids[id]) else Err(TokenDoesNotExist)
    }

    /** The holder of token `id`; reverts for an id never minted. */
    function OwnerOf(id: nat): (r: Result<Address, Error>)
      reads this
      requires Valid()
      ensures r.Ok? <==> 1 <= id <= tokenIdCounter
      ensures r.Err? ==> r.error == NonexistentToken
      ensures r.Ok? ==> r.value in hasMinted
    {
      if id in holders then Ok(holders[id]) else Err(NonexistentToken)
    }
  }

  /** An account that minted a token holds no other, and a UUID is on at
      most one token, whatever sequence of mints produced the state (no
      ERC-721 transfer is modelled, so holders are exactly the minters). */
  lemma OneTokenPerHolder(nft: DidNft, i: nat, j: nat)
    requires nft.Valid()
    requires nft.OwnerOf(i).Ok? && nft.OwnerOf(j).Ok?
    ensures nft.OwnerOf(i) == nft.OwnerOf(j) <==> i == j
    ensures nft.GetUuid(i) == nft.GetUuid(j) <==> i == j
  {
  }

  // The scenarios below follow the test suite: each deploys a fresh token
  // from `deployer`, then makes its calls.

  /** Deployment records the deployer and mints nothing. */
  method DeploymentScenario(deployer: Address) returns (nftOwner: Address, minted: nat)
    ensures nftOwner == deployer && minted == 0
  {
    var nft := new DidNft(deployer);
    nftOwner, minted := nft.owner, nft.tokenIdCounter;
  }

  /** The first mint gives token 1 to its caller, bound to its UUID. */
  method FirstMintScenario(deployer: Address, user1: Address, uuid: string)
    returns (r: Result<nat, Error>, holder: Result<Address, Error>, stored: Result<string, Error>)
    ensures r == Ok(1)
    ensures holder == Ok(user1)
    ensures stored == Ok(uuid)
  {
    var nft := new DidNft(deployer);
    r := nft.MintDid(user1, uuid);
    holder, stored := nft.OwnerOf(1), nft.GetUuid(1);
  }

  /** A second mint by the same account reverts, whatever UUID it passes. */
  method SecondMintScenario(deployer: Address, user1: Address, uuid: string, another: string)
    returns (r: Result<nat, Error>, minted: nat)
    ensures r == Err(AlreadyMinted)
    ensures Reason(r.error) == "User has already minted a DID NFT"
    ensures minted == 1
  {
    var nft := new DidNft(deployer);
    var r1 := nft.MintDid(user1, uuid);
    r := nft.MintDid(user1, another);
    minted := nft.tokenIdCounter;
  }

  /** Two accounts minting with different UUIDs get ids 1 and 2, in order. */
  method IncrementScenario(deployer: Address, user1: Address, user2: Address, uuid1: string, uuid2: string)
    returns (holder1: Result<Address, Error>, holder2: Result<Address, Error>)
    requires user1 != user2 && uuid1 != uuid2
    ensures holder1 == Ok(user1)
    ensures holder2 == Ok(user2)
  {
    var nft := new DidNft(deployer);
    var r1 := nft.MintDid(user1, uuid1);
    var r2 := nft.MintDid(user2, uuid2);
    holder1, holder2 := nft.OwnerOf(1), nft.OwnerOf(2);
  }

  /** Asking for the UUID of a token never minted reverts. */
  method MissingTokenScenario(deployer: Address) returns (stored: Result<string, Error>)
    ensures stored == Err(TokenDoesNotExist)
    ensures Reason(stored.error) == "Token doesn't exist!"
  {
    var nft := new DidNft(deployer);
    stored := nft.GetUuid(999);
  }

  /** A second account cannot mint with a UUID already in use. */
  method ReusedUuidScenario(deployer: Address, user1: Address, user2: Address, uuid: string)
    returns (r: Result<nat, Error>, minted: nat)
    requires user1 != user2
    ensures r == Err(UuidInUse)
    ensures Reason(r.error) == "UUID already in use"
    ensures minted == 1
  {
    var nft := new DidNft(deployer);
    var r1 := nft.MintDid(user1, uuid);
    r := nft.MintDid(user2, uuid);
    minted := nft.tokenIdCounter;
  }
}
