/**
 * Vocabulary shared by every contract of the drop system: addresses,
 * the fixed-width integers of the ABI, the revert reasons, the events
 * and the result of a transaction.
 */
module Types {
  /** 2^256, one past the largest `uint256`. */
  const UINT256_BOUND: nat := 0x1_0000_0000_0000_0000_0000_0000_0000_0000_0000_0000_0000_0000_0000_0000_0000_0000
  /** 2^80, one past the largest `uint80` (a sale price). */
  const UINT80_BOUND: nat := 0x1_0000_0000_0000_0000_0000
  /** 2^16, one past the largest `uint16` (a purchase count or a per-account limit). */
  const UINT16_BOUND: nat := 0x1_0000

  type Uint256 = x: nat | x < UINT256_BOUND
  type Uint80 = x: nat | x < UINT80_BOUND
  type Uint16 = x: nat | x < UINT16_BOUND

  /** A `bytes32` value; 0 stands for the all-zero word. */
  type Bytes32 = Uint256

  /** Denominator of every fee and royalty rate. */
  const BASIS_POINTS: nat := 10000

  /**
   * An account. `Clone` is the EIP-1014 (CREATE2) address of an EIP-1167
   * clone of `template` deployed by `deployer` with `salt`: being a
   * constructor it is injective in all three, which is all the system
   * relies on (the keccak-256 computation itself is not modelled).
   */
  datatype Address =
    | Zero
    | Account(id: nat)
    | Clone(deployer: Address, template: Address, salt: Salt)

  /** The salt of a CREATE2 deployment: a collection's (creator, nonce) or a split's shares. */
  datatype Salt =
    | CreatorNonce(creator: Address, nonce: Uint256)
    | SplitShares(shares: seq<Share>)

  /** One recipient of a payment split and its share in basis points. */
  datatype Share = Share(recipient: Address, basisPoints: nat)

  /** The two `AccessControl` roles a drop collection uses. */
  datatype Role = AdminRole | MinterRole

  /** Revert reasons and custom errors, named after the source's messages. */
  datatype Error =
    // Initializable and ContractFactory
    | AlreadyInitialized          // "Initializable: contract is already initialized"
    | NotInitializing             // "Initializable: contract is not initializing"
    | CallerNotFactory            // "ContractFactory: Caller is not the factory"
    // SequentialMintCollection
    | CreatorIsZeroAddress        // "Creator cannot be the zero address"
    | CallerNotCreator            // "Caller is not creator"
    | MaxTokenIdMayNotBeCleared   // "Max token ID may not be cleared"
    | MaxTokenIdMayNotIncrease    // "Max token ID may not increase"
    | MaxTokenIdBelowLastMint     // "Max token ID must be >= last mint"
    | TokensMustBeBurnedFirst     // "Any NFTs minted must be burned first"
    // ERC721 and AccessControl
    | MissingRole                 // AccessControl revert
    | InvalidTokenId              // "ERC721: invalid token ID"
    | NotOwnerNorApproved         // "ERC721: caller is not token owner nor approved"
    | TransferFromIncorrectOwner  // "ERC721: transfer from incorrect owner"
    | TransferToZeroAddress       // "ERC721: transfer to the zero address"
    | MintToZeroAddress           // "ERC721: mint to the zero address"
    | ApproveCallerNotOwner       // "ERC721: approve caller is not token owner nor approved for all"
    // NFTCollection
    | TokenCIDRequired            // "NFTCollection: tokenCID is required"
    | CIDAlreadyMinted            // "NFTCollection: NFT was already minted"
    | MaxTokenCountMinted         // "NFTCollection: Max token count has already been minted"
    | URIQueryForNonexistentToken // "NFTCollection: URI query for nonexistent token"
    // NFTDropCollection
    | CountMustBePositive         // "NFTDropCollection: `count` must be greater than 0"
    | ExceedsMaxTokenId           // "NFTDropCollection: Exceeds max tokenId"
    | BaseURIMustBeSet            // "NFTDropCollection: `_baseURI` must be set"
    | SymbolMustBeSet             // "NFTDropCollection: `_symbol` must be set"
    | MaxTokenIdMustBeSet         // "NFTDropCollection: `_maxTokenId` must be set"
    | AlreadyRevealed             // "NFTDropCollection: Already revealed"
    | UseRevealInstead            // "NFTDropCollection: use `reveal` instead"
    // NFTCollectionFactory and the clone library
    | SymbolRequired              // "NFTCollectionFactory: Symbol is required"
    | CallerNotAdmin              // "NFTCollectionFactory: Caller does not have the Admin role"
    | ImplementationNotContract   // "NFTCollectionFactory: Implementation is not a contract"
    | Create2Failed               // "ERC1167: create2 failed"
    | RevertedWithoutReason       // a call into code that does not implement the interface
    | InvalidSplitShares          // the split contract refuses shares that do not sum to 10000
    // NFTDropMarketFixedPriceSale
    | OnlyCallableByCollectionOwner
    | MustSupportCollectionMintInterface
    | MintPermissionRequired
    | MustNotBeSoldOut
    | LimitPerAccountMustBeSet
    | MustNotHavePendingSale
    | MustHaveSaleInProgress
    | MustBuyAtLeastOneToken
    | CannotBuyMoreThanLimit(limitPerAccount: nat)
    | TooMuchValueProvided(mintCost: nat)
    | NFTAlreadyMinted
    // FETH
    | InsufficientAvailableFunds(amount: nat)
    | InsufficientAllowance(amount: nat)
    | NoFundsToWithdraw
    | OnlyMarketAllowed

  /** Events, in the order a transaction emits them. */
  datatype Event =
    // ERC721 and the collections
    | Transfer(from: Address, to: Address, tokenId: nat)
    | Approval(owner: Address, approved: Address, tokenId: nat)
    | Minted(creator: Address, tokenId: nat, tokenCID: string)
    | BaseURIUpdated(baseURI: string)
    | MaxTokenIdUpdated(maxTokenId: nat)
    | SelfDestruct(admin: Address)
    | URIUpdated(baseURI: string, postRevealBaseURIHash: Bytes32)
    | RoleGranted(role: Role, account: Address, sender: Address)
    | RoleRevoked(role: Role, account: Address, sender: Address)
    | Initialized(version: nat)
    // the factory and the split contracts
    | NFTCollectionCreated(collection: Address, creator: Address, version: nat,
                           name: string, symbol: string, nonce: Uint256)
    | NFTDropCollectionCreated(collection: Address, creator: Address, approvedMinter: Address,
                               name: string, symbol: string, baseURI: string,
                               postRevealBaseURIHash: Bytes32, maxTokenId: nat,
                               paymentAddress: Address, version: nat, nonce: Uint256)
    | ImplementationNFTCollectionUpdated(implementation: Address, version: nat)
    | ImplementationNFTDropCollectionUpdated(implementation: Address, version: nat)
    | PercentSplitCreated(split: Address)
    | PercentSplitShare(recipient: Address, basisPoints: nat)
    // the market
    | CreateFixedPriceSale(collection: Address, seller: Address, price: nat, limitPerAccount: nat)
    | MintFromFixedPriceDrop(collection: Address, buyer: Address, firstTokenId: nat,
                             count: nat, totalFees: nat, creatorRev: nat)
    // FETH (its ERC-20 style events)
    | BalanceTransfer(from: Address, to: Address, amount: nat)
    | BalanceApproval(owner: Address, spender: Address, amount: nat)
    | ETHWithdrawn(from: Address, to: Address, amount: nat)

  /** The outcome of a call: its value, or the reason it reverted. */
  datatype Result<T> = Ok(value: T) | Err(error: Error)
}
