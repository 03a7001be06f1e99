/**
 * NFTCollection: a creator's own collection, where each token is minted
 * by the creator for a content id (CID) that no existing token has, and
 * whose URI is the base URI followed by that CID.
 */
module NFTCollections {
  import opened Types
  import opened SequentialMint
  import Royalties

  /** The base URI used while none is set. */
  const DEFAULT_BASE_URI: string := "ipfs://"

  /**
   * The CID bookkeeping: `minted` holds exactly the CIDs of the existing
   * tokens, none of them empty, and no two tokens share a CID.
   */
  ghost predicate CIDIndex(tokenCIDs: map<nat, string>, minted: set<string>)
  {
    && minted == tokenCIDs.Values
    && "" !in minted
    && (forall i, j :: i in tokenCIDs && j in tokenCIDs && i != j ==> tokenCIDs[i] != tokenCIDs[j])
  }

  /** Minting a new id for a fresh, non-empty CID keeps the bookkeeping. */
  lemma CIDIndexAdd(tokenCIDs: map<nat, string>, minted: set<string>, id: nat, cid: string)
    requires CIDIndex(tokenCIDs, minted)
    requires id !in tokenCIDs && cid != "" && cid !in minted
    ensures CIDIndex(tokenCIDs[id := cid], minted + {cid})
  {
    var m := tokenCIDs[id := cid];
    forall c | c in minted + {cid} ensures c in m.Values {
      if c != cid {
        var i :| i in tokenCIDs && tokenCIDs[i] == c;
        assert m[i] == c;
      } else {
        assert m[id] == cid;
      }
    }
  }

  /** Burning a token keeps the bookkeeping, with the token's CID released. */
  lemma CIDIndexRemove(tokenCIDs: map<nat, string>, minted: set<string>, id: nat)
    requires CIDIndex(tokenCIDs, minted)
    requires id in tokenCIDs
    ensures CIDIndex(tokenCIDs - {id}, minted - {tokenCIDs[id]})
  {
    var rest := tokenCIDs - {id};
    forall c | c in minted - {tokenCIDs[id]} ensures c in rest.Values {
      var i :| i in tokenCIDs && tokenCIDs[i] == c;
      assert rest[i] == c;
    }
  }

  /**
   * The token bookkeeping of a collection: ids issued in order, the
   * supply equal to ids issued minus tokens burned, one CID per token.
   */
  ghost predicate Tokens(owners: Owners, tokenCIDs: map<nat, string>, minted: set<string>,
                         latestTokenId: nat, burnCounter: nat)
  {
    && IdsIssued(owners, latestTokenId)
    && latestTokenId == burnCounter + |owners|
    && tokenCIDs.Keys == owners.Keys
    && CIDIndex(tokenCIDs, minted)
  }

  /** Minting the next id to `to` for a fresh, non-empty CID keeps the bookkeeping. */
  lemma TokensAdd(owners: Owners, tokenCIDs: map<nat, string>, minted: set<string>,
                  latestTokenId: nat, burnCounter: nat, to: Address, cid: string)
    requires Tokens(owners, tokenCIDs, minted, latestTokenId, burnCounter)
    requires cid != "" && cid !in minted
    ensures Tokens(owners[latestTokenId + 1 := to], tokenCIDs[latestTokenId + 1 := cid],
                   minted + {cid}, latestTokenId + 1, burnCounter)
  {
    var id := latestTokenId + 1;
    MintKeepsIds(owners, latestTokenId, 1, to);
    assert MintRange(owners, id, 1, to) == owners[id := to];
    CIDIndexAdd(tokenCIDs, minted, id, cid);
    assert tokenCIDs[id := cid].Keys == owners[id := to].Keys;
  }

  /** Burning an existing token keeps the bookkeeping, with its CID released. */
  lemma TokensRemove(owners: Owners, tokenCIDs: map<nat, string>, minted: set<string>,
                     latestTokenId: nat, burnCounter: nat, tokenId: nat)
    requires Tokens(owners, tokenCIDs, minted, latestTokenId, burnCounter)
    requires tokenId in owners
    ensures Tokens(owners - {tokenId}, tokenCIDs - {tokenId},
                   minted - {tokenCIDs[tokenId]}, latestTokenId, burnCounter + 1)
  {
    BurnKeepsIds(owners, latestTokenId, tokenId);
    CIDIndexRemove(tokenCIDs, minted, tokenId);
    assert (tokenCIDs - {tokenId}).Keys == (owners - {tokenId}).Keys;
  }

  class NFTCollection {
    const address: Address
    /** The factory, the only account allowed to initialize the collection. */
    const contractFactory: Address

    var initialized: bool
    /** Set by `selfDestruct`: the code at `address` is gone. */
    var destroyed: bool
    var creator: Address
    var name: string
    var symbol: string
    var latestTokenId: nat
    /** The ceiling on token ids; 0 means unlimited. */
    var maxTokenId: nat
    var burnCounter: nat
    var owners: Owners
    /** The CID of each existing token. */
    var tokenCIDs: map<nat, string>
    /** `cidToMinted`: the CIDs of the existing tokens. */
    var mintedCIDs: set<string>
    /** The base URI as last set; "" means the default. */
    var baseURISetting: string

    ghost predicate Valid()
      reads this
    {
      && Tokens(owners, tokenCIDs, mintedCIDs, latestTokenId, burnCounter)
      && (maxTokenId == 0 || latestTokenId <= maxTokenId)
      && (!initialized ==> latestTokenId == 0 && creator == Zero)
    }

    /** `totalSupply`: ids issued minus tokens burned, which is the number of tokens in existence. */
    function TotalSupply(): (supply: nat)
      reads this
      requires Valid()
      ensures supply == |owners|
    {
      latestTokenId - burnCounter
    }

    /** `getHasMintedCID`: whether an existing token carries `cid`. */
    function GetHasMintedCID(cid: string): (minted: bool)
      reads this
      requires Valid()
      ensures minted <==> exists id :: id in owners && tokenCIDs[id] == cid
    {
      cid in mintedCIDs
    }

    /** `baseURI`: the base URI set by the creator, or "ipfs://" while none is set. */
    function BaseURI(): (uri: string)
      reads this
      ensures uri != ""
      ensures baseURISetting != "" ==> uri == baseURISetting
    {
      if baseURISetting == "" then DEFAULT_BASE_URI else baseURISetting
    }

    /** `tokenURI`: the base URI followed by the token's CID; refused for a token that does not exist. */
    function TokenURI(tokenId: nat): (r: Result<string>)
      reads this
      requires Valid()
      ensures r.Ok? <==> tokenId in owners
      ensures r.Err? ==> r.error == URIQueryForNonexistentToken
      ensures r.Ok? ==> r.value == BaseURI() + tokenCIDs[tokenId]
    {
      if tokenId in owners then Ok(BaseURI() + tokenCIDs[tokenId]) else Err(URIQueryForNonexistentToken)
    }

    /** What the royalty getters read: all royalties go to the creator. */
    function RoyaltyConfig(): (c: Royalties.RoyaltyConfig)
      reads this
      ensures Royalties.PaymentRecipient(c) == creator
    {
      Royalties.RoyaltyConfig(creator, Zero)
    }

    /** A freshly deployed clone: nothing set until `initialize`. */
    constructor (address: Address, contractFactory: Address)
      ensures Valid()
      ensures this.address == address && this.contractFactory == contractFactory
      ensures !initialized && !destroyed && creator == Zero && name == "" && symbol == ""
      ensures latestTokenId == 0 && maxTokenId == 0 && burnCounter == 0
      ensures owners == map[] && tokenCIDs == map[] && mintedCIDs == {} && baseURISetting == ""
    {
      this.address := address;
      this.contractFactory := contractFactory;
      initialized := false;
      destroyed := false;
      creator := Zero;
      name := "";
      symbol := "";
      latestTokenId := 0;
      maxTokenId := 0;
      burnCounter := 0;
      owners := map[];
      tokenCIDs := map[];
      mintedCIDs := {};
      baseURISetting := "";
    }

    /** `initialize`: only the factory, only once, for a non-zero creator; no ceiling is set. */
    method Initialize(caller: Address, creator: Address, name: string, symbol: string)
      returns (r: Result<seq<Event>>)
      requires Valid() && !destroyed
      modifies this`initialized, this`creator, this`name, this`symbol, this`maxTokenId
      ensures Valid() && !destroyed
      ensures r == if caller != contractFactory then Err(CallerNotFactory)
                   else if old(initialized) then Err(AlreadyInitialized)
                   else if creator == Zero then Err(CreatorIsZeroAddress)
                   else Ok([Initialized(1)])
      ensures r.Err? ==> unchanged(this)
      ensures r.Ok? ==>
                && initialized && this.creator == creator && this.name == name && this.symbol == symbol
                && latestTokenId == 0 && maxTokenId == 0 && burnCounter == 0 && owners == map[]
                && mintedCIDs == {}
    {
      if caller != contractFactory {
        return Err(CallerNotFactory);
      }
      if initialized {
        return Err(AlreadyInitialized);
      }
      var mixin := InitializeMixin(true, creator, 0);
      if mixin.Err? {
        return Err(mixin.error);
      }
      initialized := true;
      this.creator := creator;
      this.name := name;
      this.symbol := symbol;
      maxTokenId := 0;
      r := Ok([Initialized(1)]);
    }

    /**
     * `mint`: the creator mints the next id to itself for a CID that is
     * not empty and not carried by an existing token, within the ceiling
     * when one is set.
     */
    method Mint(caller: Address, cid: string) returns (r: Result<(nat, seq<Event>)>)
      requires Valid() && !destroyed
      requires caller != Zero // no transaction is sent from the zero address
      modifies this`owners, this`tokenCIDs, this`mintedCIDs, this`latestTokenId
      ensures Valid()
      ensures r == if caller != creator then Err(CallerNotCreator)
                   else if cid == "" then Err(TokenCIDRequired)
                   else if cid in old(mintedCIDs) then Err(CIDAlreadyMinted)
                   else if maxTokenId != 0 && old(latestTokenId) + 1 > maxTokenId then Err(MaxTokenCountMinted)
                   else var id := old(latestTokenId) + 1;
                        Ok((id, [Transfer(Zero, creator, id), Minted(creator, id, cid)]))
      ensures r.Err? ==> unchanged(this)
      ensures r.Ok? ==>
                && latestTokenId == old(latestTokenId) + 1
                && owners == old(owners)[latestTokenId := creator]
                && tokenCIDs == old(tokenCIDs)[latestTokenId := cid]
                && mintedCIDs == old(mintedCIDs) + {cid}
                && TokenURI(latestTokenId) == Ok(BaseURI() + cid)
    {
      if caller != creator {
        return Err(CallerNotCreator);
      }
      if cid == "" {
        return Err(TokenCIDRequired);
      }
      if cid in mintedCIDs {
        return Err(CIDAlreadyMinted);
      }
      var id := latestTokenId + 1;
      if maxTokenId != 0 && id > maxTokenId {
        return Err(MaxTokenCountMinted);
      }
      assert initialized;
      AddToken(cid);
      r := Ok((id, [Transfer(Zero, creator, id), Minted(creator, id, cid)]));
    }

    /**
     * `burn`: the creator destroys a token it owns (or is approved for);
     * its CID becomes available again, its id never does.
     */
    method Burn(caller: Address, tokenId: nat) returns (r: Result<seq<Event>>)
      requires Valid() && !destroyed
      modifies this`owners, this`tokenCIDs, this`mintedCIDs, this`burnCounter
      ensures Valid()
      ensures r == if caller != creator then Err(CallerNotCreator)
                   else if tokenId !in old(owners) then Err(InvalidTokenId)
                   else if old(owners[tokenId]) != caller then Err(NotOwnerNorApproved)
                   else Ok([Transfer(caller, Zero, tokenId)])
      ensures r.Err? ==> unchanged(this)
      ensures r.Ok? ==>
                && owners == old(owners) - {tokenId}
                && tokenCIDs == old(tokenCIDs) - {tokenId}
                && mintedCIDs == old(mintedCIDs) - {old(tokenCIDs[tokenId])}
                && burnCounter == old(burnCounter) + 1
                && TotalSupply() == old(TotalSupply()) - 1
    {
      if caller != creator {
        return Err(CallerNotCreator);
      }
      if tokenId !in owners {
        return Err(InvalidTokenId);
      }
      if owners[tokenId] != caller {
        return Err(NotOwnerNorApproved);
      }
      RemoveToken(tokenId);
      r := Ok([Transfer(caller, Zero, tokenId)]);
    }

    /** The state change of a successful `mint`: the next id goes to the creator with `cid`. */
    method AddToken(cid: string)
      requires Valid() && initialized && cid != "" && cid !in mintedCIDs
      requires maxTokenId == 0 || latestTokenId + 1 <= maxTokenId
      modifies this`owners, this`tokenCIDs, this`mintedCIDs, this`latestTokenId
      ensures Valid()
      ensures latestTokenId == old(latestTokenId) + 1
      ensures owners == old(owners)[latestTokenId := creator]
      ensures tokenCIDs == old(tokenCIDs)[latestTokenId := cid]
      ensures mintedCIDs == old(mintedCIDs) + {cid}
      ensures TokenURI(latestTokenId) == Ok(BaseURI() + cid)
    {
      var id := latestTokenId + 1;
      TokensAdd(owners, tokenCIDs, mintedCIDs, latestTokenId, burnCounter, creator, cid);
      owners := owners[id := creator];
      tokenCIDs := tokenCIDs[id := cid];
      mintedCIDs := mintedCIDs + {cid};
      latestTokenId := id;
    }

    /** The state change of a successful `burn`: the token and its CID are gone. */
    method RemoveToken(tokenId: nat)
      requires Valid() && tokenId in owners
      modifies this`owners, this`tokenCIDs, this`mintedCIDs, this`burnCounter
      ensures Valid()
      ensures owners == old(owners) - {tokenId}
      ensures tokenCIDs == old(tokenCIDs) - {tokenId}
      ensures mintedCIDs == old(mintedCIDs) - {old(tokenCIDs[tokenId])}
      ensures burnCounter == old(burnCounter) + 1
    {
      TokensRemove(owners, tokenCIDs, mintedCIDs, latestTokenId, burnCounter, tokenId);
      var cid := tokenCIDs[tokenId];
      owners := owners - {tokenId};
      tokenCIDs := tokenCIDs - {tokenId};
      mintedCIDs := mintedCIDs - {cid};
      burnCounter := burnCounter + 1;
    }

    /** `updateBaseURI`: the creator sets the base URI; "" restores the default. */
    method UpdateBaseURI(caller: Address, uri: string) returns (r: Result<seq<Event>>)
      requires Valid() && !destroyed
      modifies this`baseURISetting
      ensures Valid()
      ensures r == if caller != creator then Err(CallerNotCreator) else Ok([BaseURIUpdated(uri)])
      ensures baseURISetting == if r.Ok? then uri else old(baseURISetting)
      ensures r.Ok? ==> BaseURI() == if uri == "" then DEFAULT_BASE_URI else uri
    {
      if caller != creator {
        return Err(CallerNotCreator);
      }
      baseURISetting := uri;
      r := Ok([BaseURIUpdated(uri)]);
    }

    /** `updateMaxTokenId` by the creator, under the shrink-only rule. */
    method UpdateMaxTokenId(caller: Address, newMax: nat) returns (r: Result<seq<Event>>)
      requires Valid() && !destroyed
      modifies this`maxTokenId
      ensures Valid()
      ensures caller != creator ==> r == Err(CallerNotCreator)
      ensures caller == creator ==>
                r == match SequentialMint.UpdateMaxTokenId(old(maxTokenId), latestTokenId, newMax)
                     case Ok(m) => Ok([MaxTokenIdUpdated(m)])
                     case Err(e) => Err(e)
      ensures maxTokenId == if r.Ok? then newMax else old(maxTokenId)
    {
      if caller != creator {
        return Err(CallerNotCreator);
      }
      var u := SequentialMint.UpdateMaxTokenId(maxTokenId, latestTokenId, newMax);
      if u.Err? {
        return Err(u.error);
      }
      maxTokenId := newMax;
      r := Ok([MaxTokenIdUpdated(newMax)]);
    }

    /** `selfDestruct`: the creator removes the contract, only once no token exists. */
    method SelfDestruct(caller: Address) returns (r: Result<seq<Event>>)
      requires Valid() && !destroyed
      modifies this`destroyed
      ensures Valid()
      ensures r == if caller != creator then Err(CallerNotCreator)
                   else if TotalSupply() != 0 then Err(TokensMustBeBurnedFirst)
                   else Ok([Event.SelfDestruct(caller)])
      ensures destroyed <==> r.Ok?
      ensures r.Ok? ==> owners == map[]
    {
      if caller != creator {
        return Err(CallerNotCreator);
      }
      if latestTokenId - burnCounter != 0 {
        return Err(TokensMustBeBurnedFirst);
      }
      destroyed := true;
      r := Ok([Event.SelfDestruct(caller)]);
    }
  }
}
