/**
 * NFTDropCollection: a collection whose tokens are minted in batches by
 * an approved minter (the market) or an admin, shown through a pre-reveal
 * URI until the admin reveals the final content once and for all.
 */
module DropCollections {
  import opened Types
  import opened SequentialMint
  import opened Decimal
  import Royalties

  /** `tokenURI` of a drop: the current base URI, the decimal id, then ".json". */
  function DropTokenURI(baseURI: string, tokenId: nat): string
  {
    baseURI + ToDecimal(tokenId) + ".json"
  }

  /** Under one base URI, distinct token ids have distinct URIs. */
  lemma DropTokenURIInjective(baseURI: string, a: nat, b: nat)
    ensures DropTokenURI(baseURI, a) == DropTokenURI(baseURI, b) <==> a == b
  {
    if DropTokenURI(baseURI, a) == DropTokenURI(baseURI, b) {
      var ua, ub := DropTokenURI(baseURI, a), DropTokenURI(baseURI, b);
      assert |ToDecimal(a)| == |ToDecimal(b)|;
      assert ToDecimal(a) == ua[|baseURI|..|ua| - 5];
      assert ToDecimal(b) == ub[|baseURI|..|ub| - 5];
      ToDecimalInjective(a, b);
    }
  }

  /** The Transfer events of minting ids first..first + count - 1 to `to`, in id order. */
  function MintEvents(to: Address, first: nat, count: nat): (events: seq<Event>)
    ensures |events| == count
    ensures forall i :: 0 <= i < count ==> events[i] == Transfer(Zero, to, first + i)
    decreases count
  {
    if count == 0 then [] else MintEvents(to, first, count - 1) + [Transfer(Zero, to, first + count - 1)]
  }

  /**
   * The minting loop of `mintCountTo`: ids first, first + 1, ... are given
   * to `to` one at a time, each announced by a Transfer from the zero address.
   */
  method MintBatch(owners: Owners, first: nat, count: nat, to: Address) returns (minted: Owners, events: seq<Event>)
    ensures minted == MintRange(owners, first, count, to)
    ensures events == MintEvents(to, first, count)
  {
    minted, events := owners, [];
    var i := 0;
    while i < count
      invariant 0 <= i <= count
      invariant minted == MintRange(owners, first, i, to)
      invariant events == MintEvents(to, first, i)
    {
      minted := minted[first + i := to];
      events := events + [Transfer(Zero, to, first + i)];
      i := i + 1;
    }
  }

  /**
   * The token bookkeeping of a drop: ids issued in order, the supply equal
   * to ids issued minus tokens burned, approvals only for existing tokens.
   */
  ghost predicate DropTokens(owners: Owners, tokenApprovals: map<nat, Address>, latestTokenId: nat, burnCounter: nat)
  {
    && IdsIssued(owners, latestTokenId)
    && latestTokenId == burnCounter + |owners|
    && tokenApprovals.Keys <= owners.Keys
  }

  /** Minting the next `count` ids keeps the bookkeeping. */
  lemma DropTokensMint(owners: Owners, tokenApprovals: map<nat, Address>, latestTokenId: nat, burnCounter: nat,
                       count: nat, to: Address)
    requires DropTokens(owners, tokenApprovals, latestTokenId, burnCounter)
    ensures DropTokens(MintRange(owners, latestTokenId + 1, count, to), tokenApprovals, latestTokenId + count,
                       burnCounter)
  {
    MintKeepsIds(owners, latestTokenId, count, to);
  }

  class NFTDropCollection {
    /** The collection's own address. */
    const address: Address
    /** The factory, the only account allowed to initialize the collection. */
    const contractFactory: Address

    var initialized: bool
    /** Set by `selfDestruct`: the code at `address` is gone. */
    var destroyed: bool
    var creator: Address
    var name: string
    var symbol: string
    var latestTokenId: nat
    var maxTokenId: nat
    var burnCounter: nat
    var owners: Owners
    var tokenApprovals: map<nat, Address>
    var admins: set<Address>
    var minters: set<Address>
    var baseURI: string
    var postRevealBaseURIHash: Bytes32
    var isRevealed: bool
    /** Where revenue and royalties go; Zero means the creator. */
    var paymentAddress: Address

    ghost predicate Valid()
      reads this`owners, this`latestTokenId, this`burnCounter, this`maxTokenId, this`tokenApprovals,
            this`isRevealed, this`postRevealBaseURIHash, this`initialized, this`admins, this`minters
    {
      && DropTokens(owners, tokenApprovals, latestTokenId, burnCounter)
      && latestTokenId <= maxTokenId
      && (isRevealed ==> postRevealBaseURIHash == 0)
      && (!initialized ==> latestTokenId == 0 && admins == {} && minters == {})
    }

    /** `totalSupply`: ids issued minus tokens burned, which is the number of tokens in existence. */
    function TotalSupply(): (supply: nat)
      reads this
      requires Valid()
      ensures supply == |owners|
    {
      latestTokenId - burnCounter
    }

    /** `numberOfTokensAvailableToMint`: the ids still below the ceiling. */
    function NumberOfTokensAvailableToMint(): (available: nat)
      reads this
      requires Valid()
      ensures latestTokenId + available == maxTokenId
      ensures available == 0 <==> latestTokenId == maxTokenId
    {
      maxTokenId - latestTokenId
    }

    /** `ownerOf`: refused for a token that does not exist. */
    function OwnerOf(tokenId: nat): (r: Result<Address>)
      reads this
      ensures r.Ok? <==> tokenId in owners
      ensures r.Err? ==> r.error == InvalidTokenId
      ensures r.Ok? ==> r.value == owners[tokenId]
    {
      if tokenId in owners then Ok(owners[tokenId]) else Err(InvalidTokenId)
    }

    /** `balanceOf`. */
    function BalanceOf(holder: Address): nat
      reads this
    {
      SequentialMint.BalanceOf(owners, holder)
    }

    /** `hasRole`. */
    predicate HasRole(role: Role, account: Address)
      reads this
    {
      match role
      case AdminRole => account in admins
      case MinterRole => account in minters
    }

    /** ERC721 `_isApprovedOrOwner` (operator approvals are not modelled). */
    predicate IsApprovedOrOwner(spender: Address, tokenId: nat)
      reads this
      requires tokenId in owners
    {
      owners[tokenId] == spender || (tokenId in tokenApprovals && tokenApprovals[tokenId] == spender)
    }

    /**
     * `tokenURI`: the base URI (pre-reveal or final, whichever is current)
     * followed by the id and ".json"; refused for a token that does not exist.
     */
    function TokenURI(tokenId: nat): (r: Result<string>)
      reads this
      ensures r.Ok? <==> tokenId in owners
      ensures r.Err? ==> r.error == InvalidTokenId
      ensures r.Ok? ==> r.value == DropTokenURI(baseURI, tokenId)
    {
      if tokenId in owners then Ok(DropTokenURI(baseURI, tokenId)) else Err(InvalidTokenId)
    }

    /** What the royalty getters read. */
    function RoyaltyConfig(): (c: Royalties.RoyaltyConfig)
      reads this
      ensures c.creator == creator && c.paymentAddress == paymentAddress
    {
      Royalties.RoyaltyConfig(creator, paymentAddress)
    }

    /** `owner()`: the creator. */
    function Owner(): Address
      reads this
    {
      creator
    }

    /** A freshly deployed clone: nothing set until `initialize`. */
    constructor (address: Address, contractFactory: Address)
      ensures Valid()
      ensures this.address == address && this.contractFactory == contractFactory
      ensures !initialized && !destroyed && creator == Zero && name == "" && symbol == ""
      ensures latestTokenId == 0 && maxTokenId == 0 && burnCounter == 0
      ensures owners == map[] && tokenApprovals == map[] && admins == {} && minters == {}
      ensures baseURI == "" && postRevealBaseURIHash == 0 && !isRevealed && paymentAddress == Zero
    {
      this.address := address;
      this.contractFactory := contractFactory;
      initialized := false;
      destroyed := false;
      creator := Zero;
      name := "";
      symbol := "";
      latestTokenId := 0;
      maxTokenId := 0;
      burnCounter := 0;
      owners := map[];
      tokenApprovals := map[];
      admins := {};
      minters := {};
      baseURI := "";
      postRevealBaseURIHash := 0;
      isRevealed := false;
      paymentAddress := Zero;
    }

    /**
     * `initialize`: only the factory, only once; the creator becomes admin,
     * an approved minter (if any) minter, and a payment address equal to
     * the creator is stored as none.
     */
    method Initialize(caller: Address, creator: Address, name: string, symbol: string, baseURI: string,
                      postRevealBaseURIHash: Bytes32, maxTokenId: nat, approvedMinter: Address,
                      paymentAddress: Address)
      returns (r: Result<seq<Event>>)
      requires Valid() && !destroyed
      modifies this`initialized, this`creator, this`name, this`symbol, this`baseURI, this`postRevealBaseURIHash,
               this`maxTokenId, this`isRevealed, this`admins, this`minters, this`paymentAddress
      ensures Valid() && !destroyed
      ensures r == InitializeOutcome(old(initialized), contractFactory, caller, creator, symbol, baseURI, maxTokenId,
                                     approvedMinter)
      ensures r.Err? ==> unchanged(this)
      ensures r.Ok? ==>
                && initialized && this.creator == creator && this.name == name && this.symbol == symbol
                && this.baseURI == baseURI && this.postRevealBaseURIHash == postRevealBaseURIHash
                && this.maxTokenId == maxTokenId && !isRevealed
                && latestTokenId == 0 && burnCounter == 0 && owners == map[] && tokenApprovals == map[]
                && admins == {creator}
                && minters == (if approvedMinter == Zero then {} else {approvedMinter})
                && this.paymentAddress == (if paymentAddress == creator then Zero else paymentAddress)
    {
      r := InitializeOutcome(initialized, contractFactory, caller, creator, symbol, baseURI, maxTokenId, approvedMinter);
      if r.Ok? {
        GrantInitialRoles(creator, approvedMinter);
        StoreIdentity(creator, name, symbol, paymentAddress);
        StoreContent(baseURI, postRevealBaseURIHash, maxTokenId);
      }
    }

    /** The roles granted by a successful `initialize`: admin to the creator, minter to the approved minter. */
    method GrantInitialRoles(creator: Address, approvedMinter: Address)
      requires Valid() && !initialized
      modifies this`initialized, this`admins, this`minters
      ensures Valid() && initialized
      ensures latestTokenId == 0 && burnCounter == 0 && owners == map[] && tokenApprovals == map[]
      ensures admins == {creator} && minters == (if approvedMinter == Zero then {} else {approvedMinter})
    {
      assert latestTokenId == 0 && burnCounter == 0 && owners == map[];
      assert tokenApprovals == map[] by { assert tokenApprovals.Keys == {}; }
      initialized := true;
      admins := {creator};
      minters := if approvedMinter == Zero then {} else {approvedMinter};
    }

    /** The identity stored by a successful `initialize`; a payment address equal to the creator is stored as none. */
    method StoreIdentity(creator: Address, name: string, symbol: string, paymentAddress: Address)
      requires Valid()
      modifies this`creator, this`name, this`symbol, this`paymentAddress
      ensures Valid()
      ensures this.creator == creator && this.name == name && this.symbol == symbol
      ensures this.paymentAddress == (if paymentAddress == creator then Zero else paymentAddress)
    {
      this.creator := creator;
      this.name := name;
      this.symbol := symbol;
      this.paymentAddress := if paymentAddress == creator then Zero else paymentAddress;
    }

    /** The content stored by a successful `initialize`, into a collection with no tokens yet. */
    method StoreContent(baseURI: string, postRevealBaseURIHash: Bytes32, maxTokenId: nat)
      requires Valid() && latestTokenId == 0
      modifies this`baseURI, this`postRevealBaseURIHash, this`maxTokenId, this`isRevealed
      ensures Valid()
      ensures this.baseURI == baseURI && this.postRevealBaseURIHash == postRevealBaseURIHash
      ensures this.maxTokenId == maxTokenId && !isRevealed
    {
      this.baseURI := baseURI;
      this.postRevealBaseURIHash := postRevealBaseURIHash;
      this.maxTokenId := maxTokenId;
      isRevealed := false;
    }

    /**
     * `mintCountTo`: an admin or minter mints the next `count` ids to `to`
     * and learns the first of them; the batch may not pass the ceiling.
     */
    method MintCountTo(caller: Address, count: nat, to: Address) returns (r: Result<(nat, seq<Event>)>)
      requires Valid() && !destroyed
      modifies this`owners, this`latestTokenId
      ensures Valid()
      ensures r.Err? ==> r.error == if !(caller in admins || caller in minters) then MissingRole
                                   else if count == 0 then CountMustBePositive
                                   else if old(latestTokenId) + count > maxTokenId then ExceedsMaxTokenId
                                   else MintToZeroAddress
      ensures r.Ok? <==> (caller in admins || caller in minters) && count > 0
                         && old(latestTokenId) + count <= maxTokenId && to != Zero
      ensures r.Err? ==> unchanged(this)
      ensures r.Ok? ==>
                && r.value == (old(latestTokenId) + 1, MintEvents(to, old(latestTokenId) + 1, count))
                && latestTokenId == old(latestTokenId) + count
                && owners == MintRange(old(owners), old(latestTokenId) + 1, count, to)
    {
      if !(caller in admins || caller in minters) {
        return Err(MissingRole);
      }
      if count == 0 {
        return Err(CountMustBePositive);
      }
      if latestTokenId + count > maxTokenId {
        return Err(ExceedsMaxTokenId);
      }
      if to == Zero {
        return Err(MintToZeroAddress);
      }
      var first := latestTokenId + 1;
      assert initialized;
      var events := MintNext(count, to);
      r := Ok((first, events));
    }

    /** The state change of a successful `mintCountTo`: the next `count` ids go to `to`. */
    method MintNext(count: nat, to: Address) returns (events: seq<Event>)
      requires Valid() && initialized && latestTokenId + count <= maxTokenId
      modifies this`owners, this`latestTokenId
      ensures Valid()
      ensures latestTokenId == old(latestTokenId) + count
      ensures owners == MintRange(old(owners), old(latestTokenId) + 1, count, to)
      ensures events == MintEvents(to, old(latestTokenId) + 1, count)
    {
      var minted, batch := MintBatch(owners, latestTokenId + 1, count, to);
      DropTokensMint(owners, tokenApprovals, latestTokenId, burnCounter, count, to);
      owners := minted;
      latestTokenId := latestTokenId + count;
      events := batch;
    }

    /** `burn`: an admin destroys a token it owns or is approved for; its id is never issued again. */
    method Burn(caller: Address, tokenId: nat) returns (r: Result<seq<Event>>)
      requires Valid() && !destroyed
      modifies this`owners, this`tokenApprovals, this`burnCounter
      ensures Valid()
      ensures r == if caller !in admins then Err(MissingRole)
                   else if tokenId !in old(owners) then Err(InvalidTokenId)
                   else if !old(IsApprovedOrOwner(caller, tokenId)) then Err(NotOwnerNorApproved)
                   else Ok([Transfer(old(owners[tokenId]), Zero, tokenId)])
      ensures r.Err? ==> unchanged(this)
      ensures r.Ok? ==>
                && owners == old(owners) - {tokenId}
                && tokenApprovals == old(tokenApprovals) - {tokenId}
                && burnCounter == old(burnCounter) + 1
                && TotalSupply() == old(TotalSupply()) - 1
    {
      if caller !in admins {
        return Err(MissingRole);
      }
      if tokenId !in owners {
        return Err(InvalidTokenId);
      }
      if !IsApprovedOrOwner(caller, tokenId) {
        return Err(NotOwnerNorApproved);
      }
      var holder := owners[tokenId];
      BurnKeepsIds(owners, latestTokenId, tokenId);
      owners := owners - {tokenId};
      tokenApprovals := tokenApprovals - {tokenId};
      burnCounter := burnCounter + 1;
      r := Ok([Transfer(holder, Zero, tokenId)]);
    }

    /** `approve`: the owner lets `to` transfer or burn one token. */
    method Approve(caller: Address, to: Address, tokenId: nat) returns (r: Result<seq<Event>>)
      requires Valid() && !destroyed
      modifies this`tokenApprovals
      ensures Valid()
      ensures r == if tokenId !in owners then Err(InvalidTokenId)
                   else if owners[tokenId] != caller then Err(ApproveCallerNotOwner)
                   else Ok([Approval(caller, to, tokenId)])
      ensures r.Err? ==> unchanged(this)
      ensures r.Ok? ==> tokenApprovals == old(tokenApprovals)[tokenId := to]
    {
      if tokenId !in owners {
        return Err(InvalidTokenId);
      }
      if owners[tokenId] != caller {
        return Err(ApproveCallerNotOwner);
      }
      tokenApprovals := tokenApprovals[tokenId := to];
      r := Ok([Approval(caller, to, tokenId)]);
    }

    /** `transferFrom`: the owner or an approved account moves a token; its approval is cleared. */
    method TransferFrom(caller: Address, from: Address, to: Address, tokenId: nat) returns (r: Result<seq<Event>>)
      requires Valid() && !destroyed
      modifies this`owners, this`tokenApprovals
      ensures Valid()
      ensures r == if tokenId !in old(owners) then Err(InvalidTokenId)
                   else if !old(IsApprovedOrOwner(caller, tokenId)) then Err(NotOwnerNorApproved)
                   else if old(owners[tokenId]) != from then Err(TransferFromIncorrectOwner)
                   else if to == Zero then Err(TransferToZeroAddress)
                   else Ok([Transfer(from, to, tokenId)])
      ensures r.Err? ==> unchanged(this)
      ensures r.Ok? ==> owners == old(owners)[tokenId := to] && tokenApprovals == old(tokenApprovals) - {tokenId}
    {
      if tokenId !in owners {
        return Err(InvalidTokenId);
      }
      if !IsApprovedOrOwner(caller, tokenId) {
        return Err(NotOwnerNorApproved);
      }
      if owners[tokenId] != from {
        return Err(TransferFromIncorrectOwner);
      }
      if to == Zero {
        return Err(TransferToZeroAddress);
      }
      owners := owners[tokenId := to];
      tokenApprovals := tokenApprovals - {tokenId};
      r := Ok([Transfer(from, to, tokenId)]);
    }

    /** `revokeMinter(account)` by an admin. */
    method RevokeMinter(caller: Address, account: Address) returns (r: Result<seq<Event>>)
      requires Valid() && !destroyed
      modifies this`minters
      ensures Valid()
      ensures r == if caller !in admins then Err(MissingRole)
                   else if account !in old(minters) then Ok([])
                   else Ok([RoleRevoked(MinterRole, account, caller)])
      ensures minters == if r.Ok? then old(minters) - {account} else old(minters)
    {
      if caller !in admins {
        return Err(MissingRole);
      }
      if account !in minters {
        return Ok([]);
      }
      minters := minters - {account};
      r := Ok([RoleRevoked(MinterRole, account, caller)]);
    }

    /** `updateMaxTokenId` by an admin, under the shrink-only rule. */
    method UpdateMaxTokenId(caller: Address, newMax: nat) returns (r: Result<seq<Event>>)
      requires Valid() && !destroyed
      modifies this`maxTokenId
      ensures Valid()
      ensures caller !in admins ==> r == Err(MissingRole)
      ensures caller in admins ==>
                r == match SequentialMint.UpdateMaxTokenId(old(maxTokenId), latestTokenId, newMax)
                     case Ok(m) => Ok([MaxTokenIdUpdated(m)])
                     case Err(e) => Err(e)
      ensures maxTokenId == if r.Ok? then newMax else old(maxTokenId)
    {
      if caller !in admins {
        return Err(MissingRole);
      }
      var u := SequentialMint.UpdateMaxTokenId(maxTokenId, latestTokenId, newMax);
      if u.Err? {
        return Err(u.error);
      }
      maxTokenId := newMax;
      r := Ok([MaxTokenIdUpdated(newMax)]);
    }

    /**
     * `reveal`: the admin publishes the final base URI, once; the commitment
     * hash is cleared and is not checked against the URI.
     */
    method Reveal(caller: Address, newBaseURI: string) returns (r: Result<seq<Event>>)
      requires Valid() && !destroyed
      modifies this`baseURI, this`postRevealBaseURIHash, this`isRevealed
      ensures Valid()
      ensures r == if caller !in admins then Err(MissingRole)
                   else if newBaseURI == "" then Err(BaseURIMustBeSet)
                   else if old(isRevealed) then Err(AlreadyRevealed)
                   else Ok([URIUpdated(newBaseURI, 0)])
      ensures r.Err? ==> unchanged(this)
      ensures r.Ok? ==> isRevealed && baseURI == newBaseURI && postRevealBaseURIHash == 0
    {
      if caller !in admins {
        return Err(MissingRole);
      }
      if newBaseURI == "" {
        return Err(BaseURIMustBeSet);
      }
      if isRevealed {
        return Err(AlreadyRevealed);
      }
      isRevealed := true;
      postRevealBaseURIHash := 0;
      baseURI := newBaseURI;
      r := Ok([URIUpdated(newBaseURI, 0)]);
    }

    /**
     * `updatePreRevealContent`: before the reveal, the admin replaces the
     * pre-reveal URI and the commitment hash, which may not be zero.
     */
    method UpdatePreRevealContent(caller: Address, newBaseURI: string, newHash: Bytes32)
      returns (r: Result<seq<Event>>)
      requires Valid() && !destroyed
      modifies this`baseURI, this`postRevealBaseURIHash
      ensures Valid()
      ensures r == if caller !in admins then Err(MissingRole)
                   else if newBaseURI == "" then Err(BaseURIMustBeSet)
                   else if isRevealed then Err(AlreadyRevealed)
                   else if newHash == 0 then Err(UseRevealInstead)
                   else Ok([URIUpdated(newBaseURI, newHash)])
      ensures r.Err? ==> unchanged(this)
      ensures r.Ok? ==> baseURI == newBaseURI && postRevealBaseURIHash == newHash && !isRevealed
    {
      if caller !in admins {
        return Err(MissingRole);
      }
      if newBaseURI == "" {
        return Err(BaseURIMustBeSet);
      }
      if isRevealed {
        return Err(AlreadyRevealed);
      }
      if newHash == 0 {
        return Err(UseRevealInstead);
      }
      baseURI := newBaseURI;
      postRevealBaseURIHash := newHash;
      r := Ok([URIUpdated(newBaseURI, newHash)]);
    }

    /** `selfDestruct`: an admin removes the contract, only once no token exists. */
    method SelfDestruct(caller: Address) returns (r: Result<seq<Event>>)
      requires Valid() && !destroyed
      modifies this`destroyed
      ensures Valid()
      ensures r == if caller !in admins then Err(MissingRole)
                   else if TotalSupply() != 0 then Err(TokensMustBeBurnedFirst)
                   else Ok([Event.SelfDestruct(caller)])
      ensures destroyed <==> r.Ok?
      ensures r.Ok? ==> owners == map[]
    {
      if caller !in admins {
        return Err(MissingRole);
      }
      if latestTokenId - burnCounter != 0 {
        return Err(TokensMustBeBurnedFirst);
      }
      destroyed := true;
      r := Ok([Event.SelfDestruct(caller)]);
    }
  }

  /**
   * The outcome of `initialize`, checks in order: the factory as caller,
   * not yet initialized, a non-zero creator (the mixin's rule), a symbol,
   * a ceiling and a pre-reveal URI; then the role grants and the
   * initialization event.
   */
  function InitializeOutcome(initialized: bool, contractFactory: Address, caller: Address, creator: Address,
                             symbol: string, baseURI: string, maxTokenId: nat, approvedMinter: Address)
    : (r: Result<seq<Event>>)
    ensures r.Ok? ==> |r.value| >= 2
    ensures r.Ok? ==> r.value[0] == RoleGranted(AdminRole, creator, caller)
    ensures r.Ok? ==> r.value[|r.value| - 1] == Initialized(1)
    ensures r.Ok? ==> (|r.value| == 3 <==> approvedMinter != Zero)
    ensures caller != contractFactory ==> r == Err(CallerNotFactory)
    ensures r.Ok? <==> caller == contractFactory && !initialized && creator != Zero && symbol != ""
                       && maxTokenId != 0 && baseURI != ""
  {
    if caller != contractFactory then Err(CallerNotFactory)
    else if initialized then Err(AlreadyInitialized)
    else
      match InitializeMixin(true, creator, maxTokenId)
      case Err(e) => Err(e)
      case Ok(_) =>
        if symbol == "" then Err(SymbolMustBeSet)
        else if maxTokenId == 0 then Err(MaxTokenIdMustBeSet)
        else if baseURI == "" then Err(BaseURIMustBeSet)
        else
          Ok([RoleGranted(AdminRole, creator, caller)]
             + (if approvedMinter == Zero then [] else [RoleGranted(MinterRole, approvedMinter, caller)])
             + [Initialized(1)])
  }
}
