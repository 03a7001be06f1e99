# Foundation NFT drops, modelled in Dafny

This project models the core of Foundation's drop system (the 2022-08
contracts). The behaviour is taken from the repository's Hardhat test
suite, which pins it exactly: revert reasons, event arguments, balance
changes and token ids. The model covers five parts.

- **Sequential-mint collections.**
  - Modules: `SequentialMint`, `NFTCollections`, `DropCollections`.
  - Token ids are issued one after another and never reused.
  - `maxTokenId` can only shrink.
  - `selfDestruct` is allowed only at zero supply.
  - An `NFTCollection` mints one token per IPFS CID, and each CID only once.
  - An `NFTDropCollection` mints in batches by role. It also has the pre-reveal / reveal state machine.
  - Both pay a 10% royalty, rounded down (`Royalties`).
- **The fixed-price sale engine** (`DropMarket`).
  - Listing and its preconditions.
  - Purchase checks in their order.
  - The per-account cap, checked against what the buyer currently holds.
  - Payment in ETH, from the FETH balance, or from both.
  - Minting to the buyer.
  - Delisting once the drop is sold out.
  - The view functions.
- **Revenue distribution** (`MarketFees`, `Splits`).
  - A 5% fee, of which a buy referrer takes 1% of the price. The creator gets the remaining 95%.
  - The creator's part goes to one recipient or is divided among a split's shares.
  - A recipient that cannot receive ETH is credited in FETH instead.
- **The FETH escrow** (`Escrow`, `Ledger`): deposits, withdrawals, allowance-gated withdrawals and the market's shortfall debit.
- **The collection factory** (`CollectionFactory`).
  - Clones are deployed at addresses fixed by (creator, nonce).
  - An address is refused while code lives there, and can be reused after self-destruct.
  - Each kind of collection has a versioned implementation.
  - A drop paid through a split gets its split created lazily.

## How things are modelled

- **Addresses** are a datatype. `Clone(deployer, template, salt)` stands for the CREATE2 address of a clone. Being a constructor, it is injective, which is all the system relies on; keccak-256 is not modelled.
- **Money** is `nat`.
- **Contracts** are classes whose fields the methods update.
- **Callers** are explicit parameters.
- **A call's result** is a `Result` carrying its events or its revert reason.
- **Reverts.** Every guard is checked before any state changes, so a failed call leaves everything as it was (`r.Err? ==> unchanged(...)`).
- **Receiving ETH.** Whether an address accepts ETH is the parameter `canReceive`.
- **Code at an address** is a parameter:
  - a drop collection, or another contract, for the market (`Target`);
  - an instance, another contract, or no code, for an implementation update (`Candidate`).
- **The purchase** is proved against the two-state predicate `NFTDropMarket.Settled`. That predicate ties the new state to these specification functions:
  - `MintRange` for the mint;
  - `Distribution` for the payouts;
  - `Debited` and `ApplyCredits` for the FETH ledger;
  - `CreditEvents` for the events.

  Their properties are proved as lemmas.

The model follows the test suite on two points where other readings are possible:

- The per-account limit counts the tokens the buyer currently holds, not cumulative purchases. A buyer who transfers tokens away may buy again (test/NFTDropMarket/fixedPrice/getSaleDetails.ts:85-117).
- Creating at an address that holds a live clone fails with the clone library's "create2 failed" (`Create2Failed`). A direct `initialize` fails with "Caller is not the factory" (`CallerNotFactory`).

## Model

| member | source | states |
|---|---|---|
| Decimal.ToDecimal | test/collections/NFTDropCollection/reveal.ts:53-56 | a token id renders as a non-empty string of decimal digits with no leading zero |
| Decimal.FromToDecimal | test/collections/NFTDropCollection/reveal.ts:118-121 | reading the rendering back gives the number, so token URIs and template names carry the exact id or version |
| Decimal.ToDecimalInjective | test/collections/NFTCollectionFactory/CollectionDropFactory.ts:334-374 | two numbers render the same exactly when they are equal |
| Ledger.TotalRemove | test/feth/withdraw.ts:32-39 | the sum of all FETH balances splits into one holder's balance plus everyone else's |
| Ledger.TotalUpdate | test/feth/deposit.ts:42-47 | changing one balance moves the sum of all balances by exactly the difference |
| Ledger.TotalCovers | test/feth/withdraw.ts:62-69 | no holder's balance exceeds the sum of all balances, so the contract's ETH always covers a withdrawal |
| Escrow.FETH.Deposit | test/feth/deposit.ts:50-76 | the sender's available balance and the contract's ETH both grow by exactly the value; it emits Transfer(0, sender, value) |
| Escrow.FETH.Receive | test/feth/deposit.ts:21-47 | a plain ETH transfer acts exactly as `deposit` by the sender |
| Escrow.FETH.DepositFor | test/feth/deposit.ts:79-105 | the holder, not the payer, is credited with the value, and no other balance moves |
| Escrow.FETH.WithdrawAvailableBalance | test/feth/withdraw.ts:23-46 | the whole balance is paid out and left at 0, emitting ETHWithdrawn(holder, holder, amount); it fails with NoFundsToWithdraw on a zero balance and changes nothing |
| Escrow.FETH.Approve | test/feth/withdraw.ts:49-57 | the allowance of (holder, spender) becomes the amount, with the approval event |
| Escrow.FETH.WithdrawFrom | test/feth/withdraw.ts:49-69 | succeeds iff the caller is the holder or has enough allowance and the balance covers the amount; the balance drops by exactly the amount, which is sent to the recipient; each failure has its own error and changes nothing |
| Escrow.FETH.MarketWithdrawFrom | test/NFTDropMarket/fixedPrice/mintWithFETH.ts:72-118 | only the market may debit; with no allowance needed it takes exactly the amount, failing with InsufficientAvailableFunds(balance) when the balance is short |
| SequentialMint.RangeSpec | test/NFTDropMarket/fixedPrice/drop.ts:149-206 | a batch of count ids starting at first is exactly the consecutive ids first .. first+count-1 |
| SequentialMint.MintRangeSpec | test/NFTDropMarket/fixedPrice/mintFromFixedPriceSale.ts:41-55 | a batch mint gives every new id to the recipient and leaves every earlier token's owner unchanged |
| SequentialMint.BalanceAfterMint | test/NFTDropMarket/fixedPrice/drop.ts:218-234 | after a batch of fresh ids the recipient holds count more tokens and nobody else's holding changes |
| SequentialMint.MintKeepsIds | test/collections/NFTCollection/totalSupply.ts:53-79 | minting after the last id issued keeps every live id within the ids issued and grows the supply by count; ids are never reused |
| SequentialMint.BurnKeepsIds | test/collections/NFTCollection/totalSupply.ts:43-82 | burning removes one live token, lowering the supply by exactly 1, and does not lower the last id issued |
| SequentialMint.UpdateMaxTokenId | test/collections/NFTDropCollection/update.ts:48-110 | a new ceiling is accepted only when non-zero, at least the last id minted and (once set) strictly below the old ceiling; every refusal is one of these three |
| SequentialMint.MaxTokenIdOnlyShrinks | test/collections/NFTDropCollection/update.ts:113-126 | over any sequence of updates, with any burns, the ceiling never rises, never clears, and never drops below the last id minted |
| SequentialMint.UnlimitedMayBeCapped | test/collections/NFTCollection/CollectionContract.ts:139-160 | an unlimited collection accepts any ceiling that is at least the last id minted |
| SequentialMint.InitializeMixin | test/collections/mixins/SequentialMintCollectionInitialize.ts:19-41 | the mixin initializes only inside a top-level initializer (NotInitializing otherwise) and refuses a zero creator |
| Royalties.RoyaltyAmount | test/collections/NFTCollection/royaltyInfo.ts:31-47 | the royalty is 10% of the price rounded down, that is salePrice / 10 (0 for 0 and 1, 99 for 999) |
| Splits.SplitAmounts | test/NFTDropMarket/fixedPrice/funds.ts:225-272 | a split divides an amount into one part per share |
| Splits.SplitAmountsSpec | test/NFTDropMarket/fixedPrice/funds.ts:225-272 | a split forwards exactly what it receives; each share after the first gets its basis points rounded down and the first at least its own share |
| Splits.CutsBound | test/NFTDropMarket/fixedPrice/funds.ts:262-272 | rounding each share down never hands out more than the shares' part of the amount |
| Splits.ShareEvents | test/collections/NFTCollectionFactory/createNFTDropEvents.ts:240-247 | one PercentSplitShare event per share, in order, with its recipient and basis points |
| Splits.PercentSplitFactory.CreateSplit | test/collections/NFTCollectionFactory/createNFTDropEvents.ts:225-258 | valid shares give the predicted split address; a new split is recorded and announces creation, shares and initialization, while an existing one is reused with no events and no change |
| MarketFees.PrimarySaleRevenue | test/NFTDropMarket/fixedPrice/mintFromFixedPriceSale.ts:69-72 | fee plus creator revenue is the price; the fee is 5% rounded down; the referrer fee is 1% rounded down with a referrer and 0 without, and is taken out of the fee |
| MarketFees.ReferrerTakesOneFifthOfFees | test/NFTDropMarket/fixedPrice/funds.ts:88-99 | with a referrer, referrer / treasury / creator get 100 / 400 / 9500 basis points: the referrer 20% and the treasury 80% of the fee |
| MarketFees.CreatorRevenueIs95Percent | test/NFTDropMarket/fixedPrice/funds.ts:67-75 | the creator gets at least 95% and exactly 95% on round prices, with or without a referrer |
| MarketFees.Pay | test/NFTDropMarket/fixedPrice/funds.ts:163-185 | a zero amount makes no payout; any other is sent as ETH or, to a recipient that cannot receive ETH, credited in FETH |
| MarketFees.PaySpec | test/NFTDropMarket/fixedPrice/funds.ts:163-185 | one payout pays its amount to its recipient only, as FETH credit exactly when the recipient cannot receive ETH |
| MarketFees.PaySharesSpec | test/NFTDropMarket/fixedPrice/funds.ts:225-272 | paying a split's shares pays their total; each address gets what its shares add up to, credited in FETH exactly when it cannot receive ETH |
| MarketFees.SingleRecipientShare | test/NFTDropMarket/fixedPrice/funds.ts:188-222 | a plain payment recipient is a single 100% share that receives the whole creator revenue |
| MarketFees.SumsAppend | test/NFTDropMarket/fixedPrice/funds.ts:276-298 | totals, amounts per address and credits per address add up over consecutive payouts |
| MarketFees.DistributionSpec | test/NFTDropMarket/fixedPrice/funds.ts:276-298 | the market keeps nothing: the payouts add up to the price; each address gets its creator shares plus the treasury and referrer fees it plays; it is credited in FETH exactly when it cannot receive ETH |
| DropCollections.DropTokenURIInjective | test/collections/NFTDropCollection/reveal.ts:118-121 | under one base URI, distinct token ids have distinct `base + id + ".json"` URIs |
| DropCollections.MintEvents | test/NFTDropMarket/fixedPrice/mintFromFixedPriceSale.ts:38-55 | a batch emits one Transfer(0, to, id) per id, in id order |
| DropCollections.MintBatch | test/collections/NFTDropCollection/admin.ts:42-49 | the loop's owners and events are the batch mint and its events |
| DropCollections.InitializeOutcome | test/collections/NFTCollectionFactory/createNFTDropEvents.ts:260-306 | initialize succeeds iff called by the factory, once, with a creator, symbol, ceiling and pre-reveal URI; it grants admin to the creator, then minter to the approved minter only when non-zero, then emits Initialized(1) |
| DropCollections.NFTDropCollection.TotalSupply | test/collections/NFTDropCollection/admin.ts:93-103 | the supply is the number of live tokens |
| DropCollections.NFTDropCollection.NumberOfTokensAvailableToMint | test/collections/NFTDropCollection/update.ts:96-110 | available + latestTokenId == maxTokenId, and it is 0 exactly when the ceiling is reached |
| DropCollections.NFTDropCollection.OwnerOf | test/collections/NFTDropCollection/admin.ts:42-49 | the owner of a live token, InvalidTokenId otherwise |
| DropCollections.NFTDropCollection.TokenURI | test/collections/NFTDropCollection/reveal.ts:53-56 | for a live token the base URI followed by the id and ".json", before and after reveal; InvalidTokenId for others |
| DropCollections.NFTDropCollection.RoyaltyConfig | test/collections/NFTDropCollection/royaltyInterfaces.ts:31-75 | royalties use the collection's creator and stored payment address |
| DropCollections.NFTDropCollection.Initialize | test/collections/NFTCollectionFactory/CollectionDropFactory.ts:199-240 | outcome per InitializeOutcome; on success stores the fields, makes the creator the only admin and the approved minter the only minter, and stores a payment address equal to the creator as none; a failure changes nothing |
| DropCollections.NFTDropCollection.MintCountTo | test/collections/NFTDropCollection/admin.ts:28-49 | only an admin or minter, count > 0, and latestTokenId + count <= maxTokenId; the next count ids go to `to` and the first is returned |
| DropCollections.NFTDropCollection.Burn | test/collections/NFTDropCollection/admin.ts:51-59 | only an admin who owns or is approved for the token, even as admin; the token and its approval go, and the supply drops by 1 |
| DropCollections.NFTDropCollection.Approve | test/collections/NFTDropCollection/admin.ts:51-59 | only the owner approves one account for one live token |
| DropCollections.NFTDropCollection.TransferFrom | test/NFTDropMarket/fixedPrice/getSaleDetails.ts:88-108 | the owner or an approved account moves a token from its owner to a non-zero address, clearing the approval |
| DropCollections.NFTDropCollection.RevokeMinter | test/NFTDropMarket/fixedPrice/create.ts:63-73 | an admin removes the minter role, after which the market may not list the drop |
| DropCollections.NFTDropCollection.UpdateMaxTokenId | test/collections/NFTDropCollection/update.ts:44-126 | only an admin, under the shrink-only rule of SequentialMint.UpdateMaxTokenId, emitting MaxTokenIdUpdated |
| DropCollections.NFTDropCollection.Reveal | test/collections/NFTDropCollection/reveal.ts:58-140 | an admin, before reveal, with a non-empty URI: sets the URI, clears the hash, marks revealed and emits URIUpdated(uri, 0); the URI is not checked against the hash |
| DropCollections.NFTDropCollection.UpdatePreRevealContent | test/collections/NFTDropCollection/reveal.ts:76-95 | an admin, before reveal, with a non-empty URI and a non-zero hash (UseRevealInstead otherwise) replaces the pre-reveal content |
| DropCollections.NFTDropCollection.SelfDestruct | test/collections/NFTDropCollection/admin.ts:62-110 | only an admin, only at zero supply; the collection is destroyed and emits SelfDestruct(admin) |
| NFTCollections.CIDIndexAdd | test/collections/NFTCollection/CollectionContract.ts:56-68 | recording a new, non-empty CID keeps the set of minted CIDs equal to the CIDs of the live tokens, one token per CID |
| NFTCollections.CIDIndexRemove | test/collections/NFTCollection/totalSupply.ts:43-52 | removing a token removes its CID from the minted set and keeps the index exact |
| NFTCollections.TokensAdd | test/collections/NFTCollection/totalSupply.ts:33-42 | minting id latestTokenId+1 keeps ids sequential, supply = minted - burned, and the CID index |
| NFTCollections.TokensRemove | test/collections/NFTCollection/totalSupply.ts:43-82 | burning keeps ids sequential, supply = minted - burned, and the CID index |
| NFTCollections.NFTCollection.TotalSupply | test/collections/NFTCollection/totalSupply.ts:28-82 | the supply is the number of live tokens |
| NFTCollections.NFTCollection.GetHasMintedCID | test/collections/NFTCollection/CollectionContract.ts:56-63 | true exactly when some live token has that CID |
| NFTCollections.NFTCollection.BaseURI | test/collections/NFTCollection/CollectionContract.ts:78-81 | the stored base URI, or "ipfs://" when none is set |
| NFTCollections.NFTCollection.TokenURI | test/collections/NFTCollection/CollectionContract.ts:87-136 | base URI followed by the token's CID for a live token; URIQueryForNonexistentToken otherwise |
| NFTCollections.NFTCollection.RoyaltyConfig | test/collections/NFTCollection/royaltyInfo.ts:31-47 | the creator receives the royalties; there is no payment address |
| NFTCollections.NFTCollection.Initialize | test/collections/NFTCollection/CollectionContract.ts:48-54 | only the factory, only once, with a non-zero creator; the collection starts empty and unlimited, and only the initialization fields change (the base URI setting stays unset) |
| NFTCollections.NFTCollection.Mint | test/collections/NFTCollection/CollectionContract.ts:56-275 | only the creator, with a non-empty CID not minted before, below a set ceiling (none when 0); mints id latestTokenId+1 to the creator, marks the CID minted and emits Transfer and Minted |
| NFTCollections.NFTCollection.Burn | test/collections/NFTCollection/totalSupply.ts:43-82 | the creator burns a token it owns; the supply drops by 1, the CID is freed, and the id is not issued again |
| NFTCollections.NFTCollection.UpdateBaseURI | test/collections/NFTCollection/CollectionContract.ts:101-136 | only the creator sets the base URI, emitting BaseURIUpdated; "" restores the default |
| NFTCollections.NFTCollection.UpdateMaxTokenId | test/collections/NFTCollection/CollectionContract.ts:146-199 | only the creator, under the shrink-only rule |
| NFTCollections.NFTCollection.SelfDestruct | test/collections/NFTCollection/selfDestruct.ts:30-137 | only the creator, only at zero supply, emitting SelfDestruct(creator) |
| DropMarket.Debited | test/NFTDropMarket/fixedPrice/mintWithFETH.ts:122-160 | the buyer's FETH balance drops by exactly the shortfall and nobody else's moves |
| DropMarket.CreatorShares | test/NFTDropMarket/fixedPrice/funds.ts:225-272 | the creator revenue goes to the split's shares when the payment recipient is a split, otherwise to the recipient alone |
| DropMarket.CheckPurchase | test/NFTDropMarket/fixedPrice/drop.ts:60-136 | a purchase passes iff listed, count > 0, holding + count within the cap, value <= cost, the shortfall covered by FETH, the market may mint and enough remain; each failure has its own error, in this order |
| DropMarket.PurchaseWithinLimit | test/NFTDropMarket/fixedPrice/drop.ts:218-234 | after any accepted purchase the buyer holds at most limitPerAccount tokens |
| DropMarket.ApplyCreditsSpec | test/NFTDropMarket/fixedPrice/funds.ts:163-222 | each holder's FETH balance grows by exactly what the payouts credited to it |
| DropMarket.SaleEscrowEffect | test/NFTDropMarket/fixedPrice/funds.ts:188-222 | after a sale the buyer's FETH balance loses the shortfall, each party that cannot receive ETH gains exactly its share, and nobody else's balance moves |
| DropMarket.CreditFallbacks | test/NFTDropMarket/fixedPrice/funds.ts:163-185 | the loop's FETH ledger and events are ApplyCredits and CreditEvents of the payouts |
| DropMarket.NFTDropMarket.ConfigOf | test/NFTDropMarket/fixedPrice/create.ts:84-95 | an unlisted drop has the empty terms |
| DropMarket.NFTDropMarket.GetFixedPriceSale | test/NFTDropMarket/fixedPrice/create.ts:84-104 | zeros and false for a non-drop or a sold-out drop; otherwise the terms (empty when unlisted), the count remaining and whether the market is a minter |
| DropMarket.NFTDropMarket.GetAvailableCountFromFixedPriceSale | test/NFTDropMarket/fixedPrice/getSaleDetails.ts:64-117 | 0 unless the market may mint; otherwise what the cap leaves the buyer, capped by the tokens remaining |
| DropMarket.NFTDropMarket.AvailableCountIsPurchasable | test/NFTDropMarket/fixedPrice/getSaleDetails.ts:85-117 | a buyer can buy exactly the available count at once, paying in ETH |
| DropMarket.NFTDropMarket.GetSellerOf | test/NFTDropMarket/fixedPrice/getSellerOf.ts:20-75 | the seller exactly when the drop is listed and latestTokenId < id <= maxTokenId; such a token is not minted; zero otherwise |
| DropMarket.NFTDropMarket.GetFeesAndRecipients | test/NFTDropMarket/fixedPrice/getSaleDetails.ts:336-346 | NFTAlreadyMinted for a live token; otherwise a 5% fee, the rest as one share to the payment recipient, seller revenue 0 and the listed seller |
| DropMarket.NFTDropMarket.CreateFixedPriceSale | test/NFTDropMarket/fixedPrice/create.ts:45-153 | listing checks in order (a drop whose code is live, the owner, not sold out, mint permission, a cap, not listed); stores (seller, price, cap), emits CreateFixedPriceSale, and getFixedPriceSale then reports it |
| DropMarket.NFTDropMarket.MintFromFixedPriceSale | test/NFTDropMarket/fixedPrice/drop.ts:138-216 | fails exactly as CheckPurchase says and then changes nothing; otherwise the state is Settled: mint to the buyer after the last id, shortfall from FETH, payouts by Distribution with FETH credits, delist when sold out, events in order |
| DropMarket.NFTDropMarket.Settle | test/NFTDropMarket/fixedPrice/mintFromFixedPriceSale.ts:38-75 | a checked purchase ends in the Settled state |
| DropMarket.NFTDropMarket.CollectAndMint | test/NFTDropMarket/fixedPrice/mintWithFETH.ts:85-141 | the FETH shortfall is taken before the tokens are minted, and the events come in that order |
| DropMarket.NFTDropMarket.PayOut | test/NFTDropMarket/fixedPrice/funds.ts:56-99 | payouts per Distribution, and the FETH credits per ApplyCredits |
| CollectionFactory.PredictedAddressInjective | test/collections/NFTCollectionFactory/CollectionDropFactory.ts:151-197 | the same factory and template give the same address only for the same creator and nonce, never a split's address |
| CollectionFactory.TemplateSymbolsDistinct | test/collections/NFTCollectionFactory/CollectionDropFactory.ts:343-375 | each version installs under its own template symbol |
| CollectionFactory.CreatedDropRoyalties | test/collections/NFTDropCollection/royaltyInterfaces.ts:30-75 | for a drop created without a payment address, with one, or with a split, getFeeRecipients, getRoyalties and royaltyInfo all name the creator, that address or the split respectively, at 1000 basis points (salePrice / 10), and tokenCreator stays the creator |
| CollectionFactory.CreateDropCheck | test/collections/NFTCollectionFactory/CollectionDropFactory.ts:85-165 | a drop creation passes iff the split shares are valid, an implementation exists, the address holds no live clone, and the creator, symbol, ceiling and pre-reveal URI are set; the errors come in that order |
| CollectionFactory.NFTCollectionFactory.PredictNFTDropCollectionAddress | test/collections/NFTCollectionFactory/predictNFTDropCollectionAddress.ts:22-68 | the predicted address is the clone address of the current drop implementation for (creator, nonce) |
| CollectionFactory.NFTCollectionFactory.PredictNFTCollectionAddress | test/collections/NFTCollectionFactory/CollectionDropFactory.ts:378-392 | the same for the NFTCollection implementation |
| CollectionFactory.NFTCollectionFactory.Initialize | test/collections/NFTCollectionFactory/initializer.ts:12-16 | the factory initializes once; a second call fails with AlreadyInitialized |
| CollectionFactory.NFTCollectionFactory.AdminUpdateNFTDropCollectionImplementation | test/collections/NFTCollectionFactory/CollectionDropFactory.ts:252-375 | admin only; refuses no code, a contract that is not a drop and an initialized instance; on success the implementation is the new one, the version is one higher and emitted, and the template is initialized as "NFT Drop Collection Implementation v<version>" / "NFTDropV<version>" |
| CollectionFactory.NFTCollectionFactory.AdminUpdateNFTCollectionImplementation | test/collections/NFTCollectionFactory/CollectionDropFactory.ts:420-480 | the same for NFTCollection, with "NFT Collection Implementation v<version>" / "NFTv<version>" |
| CollectionFactory.NFTCollectionFactory.CreateNFTCollection | test/collections/NFTCollection/selfDestruct.ts:44-155 | symbol required; fails with Create2Failed while a live clone holds the predicted address; otherwise a fresh collection at the predicted address, owned by the caller, starting from token id 1 with the default base URI "ipfs://", with Initialized then NFTCollectionCreated(version) |
| CollectionFactory.NFTCollectionFactory.CreateNFTDropCollection | test/collections/NFTCollectionFactory/createNFTDropEvents.ts:217-306 | outcome per CreateDropCheck; on success a fresh drop at the predicted address with the caller as admin and the approved minter as minter; the drop's royalty recipient is the payment address it was given, or the caller when none; the split is created only when new; events: split events, role grants, Initialized, then NFTDropCollectionCreated with the current version |

## Left out

- keccak-256, CREATE2 byte layout and ERC-165 interface ids: addresses and interfaces are datatypes.
- Upgradeable proxies, reentrancy guards, gas and the transaction sender's ETH balance: not part of the sequential logic.
- Operator approvals (`setApprovalForAll`) and safe transfers: no test of the core uses them.
- NFTCollection approvals and transfers: `burn` and `mint` are modelled. An NFTCollection token is burned only by its owner, the creator.
- The NFTCollection mint variants (`mintAndApprove`, `mintWithCreatorPaymentAddress`, `mintWithCreatorPaymentFactory` and their combinations): they share `mint`'s checks, and only the plain `mint` is modelled.
- General `grantRole` / `revokeRole` on drops: only `revokeMinter` is modelled.
- `getFeesAndRecipients` on an address without code (an EOA): it reverts, and the model's `Target` has no such case.
- The drop market's other sale types and the royalty registry lookups: not part of the fixed-price sale.
- Mock contracts used by the tests (drops without access control, drops whose `ownerOf` does not revert).
- CollectionFactory.NFTCollectionFactory.AdminUpdateNFTDropCollectionImplementation: the URI, hash and ceiling a template is initialized with are placeholders. Only the versioned name and symbol are stated.
- CollectionFactory.NFTCollectionFactory.constructor: the check that the roles contract holds code is not modelled.
- CollectionFactory.NFTCollectionFactory.CreateNFTDropCollection: the payment factory call is modelled as `createSplit` on the split factory. A call to an arbitrary target with arbitrary calldata is not.
- CollectionFactory.NFTCollectionFactory.CreateNFTCollection and CollectionFactory.CreateDropCheck: a creation without an implementation fails with `RevertedWithoutReason`. This is a conservative choice; the deployment always installs implementations before use.
- DropMarket.NFTDropMarket.MintFromFixedPriceSale: the method's contract states the Settled state. Two properties are proved as separate lemmas rather than in that contract: that the payouts add up to the cost (DistributionSpec), and that the buyer ends within the cap (PurchaseWithinLimit).
- Escrow.FETH: lockups (time-limited FETH balances) are not modelled; they are not part of the drop flow.
- Within one payout list, only the amounts and credits per address are stated, not the order of the individual ETH transfers.
- Calls to a collection after its `selfDestruct` are not modelled: the methods of `NFTDropCollection` and `NFTCollection`, and `NFTDropMarket.MintFromFixedPriceSale`, `Settle` and `CollectAndMint`, require a live collection. Only `NFTDropMarket.CreateFixedPriceSale` handles a destroyed drop, refusing it like a contract without the mint interface.
- DropMarket.NFTDropMarket.MintFromFixedPriceSale: `count` is a `uint16` as in the source, but the amounts derived from it (price times count) are unbounded integers; overflow of the cost is not modelled.
