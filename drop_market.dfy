/**
 * The drop market's fixed-price sale: a collection's admin lists the
 * drop at a price per token and a cap per buyer; buyers then mint from it,
 * paying with ETH, with their FETH balance, or with both, and the proceeds
 * are divided at once among the creator, the treasury and a buy referrer.
 */
module DropMarket {
  import opened Types
  import opened SequentialMint
  import opened MarketFees
  import opened Splits
  import opened Escrow
  import opened DropCollections
  import Royalties

  /** The terms of a listed drop. */
  datatype SaleConfig = SaleConfig(seller: Address, price: Uint80, limitPerAccount: Uint16)

  /** What the getters report for a drop that is not listed. */
  const NO_SALE: SaleConfig := SaleConfig(Zero, 0, 0)

  /**
   * The contract a caller names as the collection: a drop collection, or
   * any other contract, which lacks the drop minting interface.
   */
  datatype Target = Drop(c: NFTDropCollection) | NotADrop(addr: Address)

  /** `getFixedPriceSale`'s answer. */
  datatype SaleDetails = SaleDetails(seller: Address, price: nat, limitPerAccount: nat,
                                     numberOfTokensAvailableToMint: nat, marketCanMint: bool)

  /** `getFeesAndRecipients`'s answer. */
  datatype FeeDetails = FeeDetails(totalFees: nat, creatorRev: nat, creatorRecipients: seq<Address>,
                                   creatorShares: seq<nat>, sellerRev: nat, seller: Address)

  /** A completed purchase: the first token id minted, the payouts made and the events emitted. */
  datatype Purchase = Purchase(firstTokenId: nat, payouts: seq<Payout>, events: seq<Event>)

  /** A holder's entry in an escrow ledger. */
  function Owed(m: map<Address, nat>, a: Address): nat
  {
    if a in m then m[a] else 0
  }

  /** The escrow after the market takes `shortfall` from the buyer's balance (nothing when it is 0). */
  function Debited(m: map<Address, nat>, buyer: Address, shortfall: nat): (d: map<Address, nat>)
    requires shortfall <= Owed(m, buyer)
    ensures Owed(d, buyer) == Owed(m, buyer) - shortfall
    ensures forall a :: a != buyer ==> Owed(d, a) == Owed(m, a)
  {
    if shortfall == 0 then m else m[buyer := Owed(m, buyer) - shortfall]
  }

  /**
   * Who receives the creator revenue: the shares of the split when the
   * payment recipient is a split, the recipient alone otherwise.
   */
  function CreatorShares(recipient: Address, splits: map<Address, seq<Share>>): (shares: seq<Share>)
    requires forall a :: a in splits ==> ValidShares(splits[a])
    ensures ValidShares(shares)
    ensures recipient !in splits ==> shares == [Share(recipient, BASIS_POINTS)]
  {
    SingleRecipientShare(recipient, 0, recipient);
    if recipient in splits then splits[recipient] else [Share(recipient, BASIS_POINTS)]
  }

  /**
   * The checks of `mintFromFixedPriceSale`, in the order the market makes
   * them: a sale must be in progress, at least one token bought, the
   * buyer's holding after the purchase within the cap, no more ETH sent
   * than the cost, the rest covered by the buyer's FETH balance, and the
   * collection must let the market mint `count` more tokens. The answer
   * is the cost.
   */
  function CheckPurchase(listed: bool, config: SaleConfig, count: nat, holding: nat, value: nat, escrow: nat,
                         marketCanMint: bool, available: nat): (r: Result<nat>)
    ensures r.Ok? <==> listed && count > 0 && holding + count <= config.limitPerAccount
                       && value <= config.price * count && config.price * count - value <= escrow
                       && marketCanMint && count <= available
    ensures r.Ok? ==> r.value == config.price * count
    ensures !listed ==> r == Err(MustHaveSaleInProgress)
    ensures listed && holding + count > config.limitPerAccount && count > 0 ==>
              r == Err(CannotBuyMoreThanLimit(config.limitPerAccount))
    ensures r.Err? && r.error.TooMuchValueProvided? ==> r.error.mintCost == config.price * count < value
  {
    var cost := config.price * count;
    if !listed then Err(MustHaveSaleInProgress)
    else if count == 0 then Err(MustBuyAtLeastOneToken)
    else if holding + count > config.limitPerAccount then Err(CannotBuyMoreThanLimit(config.limitPerAccount))
    else if value > cost then Err(TooMuchValueProvided(cost))
    else if cost - value > escrow then Err(InsufficientAvailableFunds(escrow))
    else if !marketCanMint then Err(MissingRole)
    else if count > available then Err(ExceedsMaxTokenId)
    else Ok(cost)
  }

  /**
   * The cap per account holds after every purchase: a buyer whose
   * purchase passes the checks ends up holding at most the cap.
   */
  lemma PurchaseWithinLimit(owners: Owners, latestTokenId: nat, buyer: Address, listed: bool, config: SaleConfig,
                            count: nat, value: nat, escrow: nat, marketCanMint: bool, available: nat)
    requires IdsIssued(owners, latestTokenId)
    requires CheckPurchase(listed, config, count, SequentialMint.BalanceOf(owners, buyer), value, escrow,
                           marketCanMint, available).Ok?
    ensures SequentialMint.BalanceOf(MintRange(owners, latestTokenId + 1, count, buyer), buyer)
            == SequentialMint.BalanceOf(owners, buyer) + count <= config.limitPerAccount
  {
    BalanceAfterMint(owners, latestTokenId + 1, count, buyer, buyer);
  }

  /** The escrow after the fallback credits of `ps`: each payout not sent as ETH is credited to its recipient. */
  function ApplyCredits(m: map<Address, nat>, ps: seq<Payout>): map<Address, nat>
    decreases |ps|
  {
    if ps == [] then m
    else
      var before := ApplyCredits(m, ps[..|ps| - 1]);
      var p := ps[|ps| - 1];
      if p.sentAsEth then before else before[p.recipient := Owed(before, p.recipient) + p.amount]
  }

  /** The events of those credits: one FETH deposit for each. */
  function CreditEvents(ps: seq<Payout>): seq<Event>
    decreases |ps|
  {
    if ps == [] then []
    else
      var p := ps[|ps| - 1];
      CreditEvents(ps[..|ps| - 1]) + (if p.sentAsEth then [] else [BalanceTransfer(Zero, p.recipient, p.amount)])
  }

  /** Each holder's FETH balance grows by exactly what was credited to it. */
  lemma {:induction false} ApplyCreditsSpec(m: map<Address, nat>, ps: seq<Payout>, a: Address)
    ensures Owed(ApplyCredits(m, ps), a) == Owed(m, a) + CreditTo(ps, a)
    decreases |ps|
  {
    if ps != [] {
      var init, last := ps[..|ps| - 1], ps[|ps| - 1];
      ApplyCreditsSpec(m, init, a);
      assert ps == init + [last];
      SumsAppend(init, [last], a);
      assert CreditTo([last], a) == (if last.recipient == a && !last.sentAsEth then last.amount else 0) + CreditTo([], a);
    }
  }

  /**
   * The FETH balances after a sale: the buyer's loses the shortfall the
   * ETH sent left, and each party to the sale that cannot receive ETH
   * gains exactly what the sale pays it; nobody else's changes.
   */
  lemma SaleEscrowEffect(m: map<Address, nat>, buyer: Address, shortfall: nat, price: nat, treasury: Address,
                         creatorShares: seq<Share>, referrer: Address, canReceive: Address -> bool, a: Address)
    requires shortfall <= Owed(m, buyer) && ValidShares(creatorShares)
    ensures var ps := Distribution(PrimarySaleRevenue(price, referrer), treasury, creatorShares, referrer, canReceive);
            Owed(ApplyCredits(Debited(m, buyer, shortfall), ps), a)
            == Owed(m, a) - (if a == buyer then shortfall else 0) + (if canReceive(a) then 0 else AmountTo(ps, a))
  {
    var ps := Distribution(PrimarySaleRevenue(price, referrer), treasury, creatorShares, referrer, canReceive);
    ApplyCreditsSpec(Debited(m, buyer, shortfall), ps, a);
    DistributionSpec(price, treasury, creatorShares, referrer, canReceive, a);
  }

  /**
   * Credits to FETH each payout that could not be sent as ETH, with the
   * market as the depositor.
   */
  method CreditFallbacks(feth: FETH, market: Address, ps: seq<Payout>) returns (events: seq<Event>)
    requires feth.Valid()
    modifies feth`available, feth`ethBalance
    ensures feth.Valid()
    ensures feth.available == ApplyCredits(old(feth.available), ps)
    ensures events == CreditEvents(ps)
  {
    events := [];
    var i := 0;
    while i < |ps|
      invariant 0 <= i <= |ps| && feth.Valid()
      invariant feth.available == ApplyCredits(old(feth.available), ps[..i])
      invariant events == CreditEvents(ps[..i])
    {
      assert ps[..i + 1][..i] == ps[..i];
      var p := ps[i];
      if !p.sentAsEth {
        var deposited := feth.DepositFor(market, p.recipient, p.amount);
        events := events + deposited;
      }
      i := i + 1;
    }
    assert ps[..|ps|] == ps;
  }

  /**
   * NFTDropMarket's fixed-price sale: the listings, the FETH contract it
   * draws buyers' balances from and credits failed payouts to, and the
   * split factory whose splits it pays share by share.
   */
  class NFTDropMarket {
    const address: Address
    const treasury: Address
    const feth: FETH
    const splitFactory: PercentSplitFactory
    /** The listing of each drop collection, by the collection's address. */
    var saleConfigs: map<Address, SaleConfig>

    ghost predicate Valid()
      reads this, feth, splitFactory
    {
      && feth.Valid() && feth.market == address
      && splitFactory.Valid()
      && forall a :: a in saleConfigs ==> saleConfigs[a].seller != Zero && saleConfigs[a].limitPerAccount > 0
    }

    constructor (address: Address, treasury: Address, feth: FETH, splitFactory: PercentSplitFactory)
      requires feth.Valid() && feth.market == address && splitFactory.Valid()
      ensures Valid()
      ensures this.address == address && this.treasury == treasury
      ensures this.feth == feth && this.splitFactory == splitFactory && saleConfigs == map[]
    {
      this.address := address;
      this.treasury := treasury;
      this.feth := feth;
      this.splitFactory := splitFactory;
      saleConfigs := map[];
    }

    /** Whether the market may mint on `c`: it holds the minter (or admin) role there. */
    predicate CanMint(c: NFTDropCollection)
      reads c
    {
      address in c.admins || address in c.minters
    }

    /** The listing of `c`, or the empty terms when it is not listed. */
    function ConfigOf(c: NFTDropCollection): (config: SaleConfig)
      reads this
      ensures c.address !in saleConfigs ==> config == NO_SALE
    {
      if c.address in saleConfigs then saleConfigs[c.address] else NO_SALE
    }

    /** The checks of a purchase of `count` tokens of `c` by `buyer` sending `value`, on the current state. */
    function Check(c: NFTDropCollection, buyer: Address, count: nat, value: nat): Result<nat>
      reads this, c, feth
      requires c.Valid()
    {
      CheckPurchase(c.address in saleConfigs, ConfigOf(c), count, c.BalanceOf(buyer), value, feth.BalanceOf(buyer),
                    CanMint(c), c.NumberOfTokensAvailableToMint())
    }

    /**
     * `getFixedPriceSale`: empty terms, nothing available and no mint
     * permission for a contract that is not a drop or a drop that is sold
     * out; otherwise the listing (empty when unlisted), how many tokens
     * remain, and whether the market holds the minter role.
     */
    function GetFixedPriceSale(t: Target): (d: SaleDetails)
      reads this, if t.Drop? then {t.c} else {}
      requires t.Drop? ==> t.c.Valid()
      ensures t.NotADrop? ==> d == SaleDetails(Zero, 0, 0, 0, false)
      ensures d.numberOfTokensAvailableToMint == 0 ==> d == SaleDetails(Zero, 0, 0, 0, false)
      ensures t.Drop? ==> d.numberOfTokensAvailableToMint == t.c.NumberOfTokensAvailableToMint()
      ensures t.Drop? && d.numberOfTokensAvailableToMint != 0 ==>
                && d.marketCanMint == (address in t.c.minters)
                && d.seller == ConfigOf(t.c).seller && d.price == ConfigOf(t.c).price
                && d.limitPerAccount == ConfigOf(t.c).limitPerAccount
    {
      match t
      case NotADrop(_) => SaleDetails(Zero, 0, 0, 0, false)
      case Drop(c) =>
        var available := c.NumberOfTokensAvailableToMint();
        if available == 0 then SaleDetails(Zero, 0, 0, 0, false)
        else
          var config := ConfigOf(c);
          SaleDetails(config.seller, config.price, config.limitPerAccount, available, address in c.minters)
    }

    /**
     * `getAvailableCountFromFixedPriceSale`: how many tokens `buyer` may
     * still buy: nothing without mint permission, otherwise what the cap
     * leaves the buyer, but no more than remain.
     */
    function GetAvailableCountFromFixedPriceSale(t: Target, buyer: Address): (n: nat)
      reads this, if t.Drop? then {t.c} else {}
      requires t.Drop? ==> t.c.Valid()
      ensures t.NotADrop? ==> n == 0
      ensures t.Drop? ==> n <= t.c.NumberOfTokensAvailableToMint()
      ensures t.Drop? ==> t.c.BalanceOf(buyer) + n <= ConfigOf(t.c).limitPerAccount || n == 0
      ensures t.Drop? && t.c.address !in saleConfigs ==> n == 0
      ensures t.Drop? && n > 0 ==>
                && t.c.BalanceOf(buyer) + n <= ConfigOf(t.c).limitPerAccount
                && (n == ConfigOf(t.c).limitPerAccount - t.c.BalanceOf(buyer)
                    || n == t.c.NumberOfTokensAvailableToMint())
    {
      var d := GetFixedPriceSale(t);
      if !d.marketCanMint then 0
      else
        var holding := t.c.BalanceOf(buyer);
        if holding >= d.limitPerAccount then 0
        else if d.limitPerAccount - holding > d.numberOfTokensAvailableToMint then d.numberOfTokensAvailableToMint
        else d.limitPerAccount - holding
    }

    /**
     * What the available count promises: a buyer may buy that many tokens
     * at once, paying their full price in ETH.
     */
    lemma AvailableCountIsPurchasable(c: NFTDropCollection, buyer: Address)
      requires Valid() && c.Valid()
      requires GetAvailableCountFromFixedPriceSale(Drop(c), buyer) > 0
      ensures var n := GetAvailableCountFromFixedPriceSale(Drop(c), buyer);
              Check(c, buyer, n, ConfigOf(c).price * n).Ok?
    {
    }

    /**
     * `getSellerOf`: the seller of a listed drop for a token id not yet
     * minted and within the ceiling; the zero address otherwise.
     */
    function GetSellerOf(t: Target, tokenId: nat): (seller: Address)
      reads this, feth, splitFactory, if t.Drop? then {t.c} else {}
      requires Valid()
      requires t.Drop? ==> t.c.Valid()
      ensures t.NotADrop? ==> seller == Zero
      ensures t.Drop? ==>
                (seller != Zero <==> t.c.address in saleConfigs && t.c.latestTokenId < tokenId <= t.c.maxTokenId)
      ensures seller != Zero ==> t.Drop? && tokenId !in t.c.owners && seller == saleConfigs[t.c.address].seller
    {
      match t
      case NotADrop(_) => Zero
      case Drop(c) =>
        if c.address in saleConfigs && c.latestTokenId < tokenId <= c.maxTokenId then saleConfigs[c.address].seller
        else Zero
    }

    /**
     * `getFeesAndRecipients`: what a sale of one token at `price` would
     * pay, before it is minted: the fee, the creator revenue, which goes to
     * the collection's payment recipient (unknown, so the zero address, for
     * a contract that is not a drop), and the listed seller. Refused for a
     * token that exists.
     */
    function GetFeesAndRecipients(t: Target, tokenId: nat, price: nat): (r: Result<FeeDetails>)
      reads this, if t.Drop? then {t.c} else {}
      ensures r.Err? <==> t.Drop? && tokenId in t.c.owners
      ensures r.Err? ==> r.error == NFTAlreadyMinted
      ensures r.Ok? ==>
                && r.value.totalFees + r.value.creatorRev == price
                && r.value.totalFees == PrimarySaleRevenue(price, Zero).totalFees
                && r.value.creatorShares == [r.value.creatorRev] && r.value.sellerRev == 0
                && r.value.creatorRecipients
                   == [if t.Drop? then Royalties.PaymentRecipient(t.c.RoyaltyConfig()) else Zero]
                && r.value.seller == (if t.Drop? then ConfigOf(t.c).seller else Zero)
    {
      var rev := PrimarySaleRevenue(price, Zero);
      match t
      case NotADrop(_) => Ok(FeeDetails(rev.totalFees, rev.creatorRev, [Zero], [rev.creatorRev], 0, Zero))
      case Drop(c) =>
        if tokenId in c.owners then Err(NFTAlreadyMinted)
        else
          Ok(FeeDetails(rev.totalFees, rev.creatorRev, [Royalties.PaymentRecipient(c.RoyaltyConfig())],
                        [rev.creatorRev], 0, ConfigOf(c).seller))
    }

    /**
     * `createFixedPriceSale`: lists a drop collection, by one of its
     * admins, while tokens remain, once the market may mint, with a cap
     * per account, and only when it is not listed already.
     */
    method CreateFixedPriceSale(caller: Address, t: Target, price: Uint80, limitPerAccount: Uint16)
      returns (r: Result<seq<Event>>)
      requires Valid() && caller != Zero
      requires t.Drop? ==> t.c.Valid()
      modifies this`saleConfigs
      ensures Valid()
      ensures r == if t.NotADrop? || t.c.destroyed then Err(MustSupportCollectionMintInterface)
                   else if caller !in t.c.admins then Err(OnlyCallableByCollectionOwner)
                   else if t.c.NumberOfTokensAvailableToMint() == 0 then Err(MustNotBeSoldOut)
                   else if address !in t.c.minters then Err(MintPermissionRequired)
                   else if limitPerAccount == 0 then Err(LimitPerAccountMustBeSet)
                   else if t.c.address in old(saleConfigs) then Err(MustNotHavePendingSale)
                   else Ok([Event.CreateFixedPriceSale(t.c.address, caller, price, limitPerAccount)])
      ensures r.Err? ==> saleConfigs == old(saleConfigs)
      ensures r.Ok? ==> saleConfigs == old(saleConfigs)[t.c.address := SaleConfig(caller, price, limitPerAccount)]
      ensures r.Ok? ==> GetFixedPriceSale(t) == SaleDetails(caller, price, limitPerAccount,
                                                            t.c.NumberOfTokensAvailableToMint(), true)
    {
      if t.NotADrop? || t.c.destroyed {
        return Err(MustSupportCollectionMintInterface);
      }
      var c := t.c;
      if caller !in c.admins {
        return Err(OnlyCallableByCollectionOwner);
      }
      if c.NumberOfTokensAvailableToMint() == 0 {
        return Err(MustNotBeSoldOut);
      }
      if address !in c.minters {
        return Err(MintPermissionRequired);
      }
      if limitPerAccount == 0 {
        return Err(LimitPerAccountMustBeSet);
      }
      if c.address in saleConfigs {
        return Err(MustNotHavePendingSale);
      }
      saleConfigs := saleConfigs[c.address := SaleConfig(caller, price, limitPerAccount)];
      r := Ok([Event.CreateFixedPriceSale(c.address, caller, price, limitPerAccount)]);
    }
    /**
     * What a purchase of `count` tokens of `c` at `cost` does: the tokens
     * are minted to the buyer after the last id issued; the payouts are the
     * division of the cost among the creator's recipients, the treasury and
     * the referrer; the shortfall left by `value` is taken from the buyer's
     * FETH balance and the payouts that could not be sent are credited
     * there; the listing goes once nothing is left to mint; and the events
     * come in that order, ending with the sale's record.
     */
    twostate predicate Settled(buyer: Address, c: NFTDropCollection, count: nat, referrer: Address, value: nat,
                               canReceive: Address -> bool, cost: nat, p: Purchase)
      reads this, c, feth, splitFactory
    {
      var rev := PrimarySaleRevenue(cost, referrer);
      var shares := if splitFactory.Valid() then
                      CreatorShares(Royalties.PaymentRecipient(c.RoyaltyConfig()), splitFactory.splits)
                    else [];
      && splitFactory.Valid()
      && p.firstTokenId == old(c.latestTokenId) + 1
      && c.owners == MintRange(old(c.owners), old(c.latestTokenId) + 1, count, buyer)
      && c.latestTokenId == old(c.latestTokenId) + count
      && p.payouts == Distribution(rev, treasury, shares, referrer, canReceive)
      && value <= cost && cost - value <= Owed(old(feth.available), buyer)
      && feth.available == ApplyCredits(Debited(old(feth.available), buyer, cost - value), p.payouts)
      && saleConfigs == (if c.maxTokenId == c.latestTokenId then old(saleConfigs) - {c.address}
                         else old(saleConfigs))
      && p.events
         == (if cost > value then [ETHWithdrawn(buyer, address, cost - value)] else [])
            + MintEvents(buyer, old(c.latestTokenId) + 1, count)
            + CreditEvents(p.payouts)
            + [MintFromFixedPriceDrop(c.address, buyer, old(c.latestTokenId) + 1, count,
                                      rev.totalFees, rev.creatorRev)]
    }

    /**
     * `mintFromFixedPriceSale`: `buyer` buys `count` tokens of `c`,
     * sending `value` ETH and covering the rest of the cost from its FETH
     * balance. The tokens are minted to the buyer, the cost divided among
     * the creator's recipients, the treasury and the buy referrer, each
     * payout sent as ETH when `canReceive` says the recipient accepts it and
     * credited in FETH otherwise, and the listing removed once the drop is
     * sold out. Any failed check leaves everything as it was.
     */
    method MintFromFixedPriceSale(buyer: Address, c: NFTDropCollection, count: Uint16, referrer: Address, value: nat,
                                  canReceive: Address -> bool)
      returns (r: Result<Purchase>)
      requires Valid() && c.Valid() && !c.destroyed
      requires buyer != Zero // no transaction is sent from the zero address
      modifies this`saleConfigs, feth`available, feth`ethBalance, c`owners, c`latestTokenId
      ensures Valid() && c.Valid()
      ensures r.Err? <==> old(Check(c, buyer, count, value)).Err?
      ensures r.Err? ==> r.error == old(Check(c, buyer, count, value)).error
      ensures r.Err? ==> unchanged(this, feth, c)
      ensures r.Ok? ==> Settled(buyer, c, count, referrer, value, canReceive, old(Check(c, buyer, count, value)).value, r.value)
    {
      var check := Check(c, buyer, count, value);
      if check.Err? {
        return Err(check.error);
      }
      var cost := check.value;
      assert count > 0 && CanMint(c) && c.latestTokenId + count <= c.maxTokenId;
      assert value <= cost && cost - value <= feth.BalanceOf(buyer);
      var purchase := Settle(buyer, c, count, referrer, value, canReceive, cost);
      r := Ok(purchase);
    }

    /** A purchase that passed its checks, at `cost`: the payment, the mint, the payouts and the delisting. */
    method Settle(buyer: Address, c: NFTDropCollection, count: nat, referrer: Address, value: nat,
                  canReceive: Address -> bool, cost: nat)
      returns (p: Purchase)
      requires Valid() && c.Valid() && !c.destroyed && buyer != Zero
      requires count > 0 && CanMint(c) && c.latestTokenId + count <= c.maxTokenId
      requires value <= cost && cost - value <= feth.BalanceOf(buyer)
      modifies this`saleConfigs, feth`available, feth`ethBalance, c`owners, c`latestTokenId
      ensures Valid() && c.Valid()
      ensures Settled(buyer, c, count, referrer, value, canReceive, cost, p)
    {
      var first, taken := CollectAndMint(buyer, c, count, value, cost);
      var rev := PrimarySaleRevenue(cost, referrer);
      var payouts, credited := PayOut(c, referrer, canReceive, cost);
      Delist(c);
      p := Purchase(first, payouts, taken + credited
                                    + [MintFromFixedPriceDrop(c.address, buyer, first, count,
                                                              rev.totalFees, rev.creatorRev)]);
    }

    /** The end of a sale: the listing is removed once the drop is sold out. */
    method Delist(c: NFTDropCollection)
      requires Valid()
      modifies this`saleConfigs
      ensures Valid()
      ensures saleConfigs == if c.maxTokenId == c.latestTokenId then old(saleConfigs) - {c.address} else old(saleConfigs)
    {
      if c.maxTokenId == c.latestTokenId {
        saleConfigs := saleConfigs - {c.address};
      }
    }

    /** The payment and the mint: the shortfall taken from the buyer's FETH balance, then the tokens minted. */
    method CollectAndMint(buyer: Address, c: NFTDropCollection, count: nat, value: nat, cost: nat)
      returns (first: nat, events: seq<Event>)
      requires Valid() && c.Valid() && !c.destroyed && buyer != Zero
      requires count > 0 && CanMint(c) && c.latestTokenId + count <= c.maxTokenId
      requires value <= cost && cost - value <= feth.BalanceOf(buyer)
      modifies feth`available, feth`ethBalance, c`owners, c`latestTokenId
      ensures Valid() && c.Valid()
      ensures first == old(c.latestTokenId) + 1
      ensures c.owners == MintRange(old(c.owners), first, count, buyer)
      ensures c.latestTokenId == old(c.latestTokenId) + count
      ensures feth.available == Debited(old(feth.available), buyer, cost - value)
      ensures events == (if cost > value then [ETHWithdrawn(buyer, address, cost - value)] else [])
                        + MintEvents(buyer, first, count)
    {
      var withdrawn: seq<Event> := [];
      if cost > value {
        var w := feth.MarketWithdrawFrom(address, buyer, cost - value);
        withdrawn := w.value;
      }
      var minted := c.MintCountTo(address, count, buyer);
      first := minted.value.0;
      events := withdrawn + minted.value.1;
    }

    /** The payouts of a sale of `c` at `cost`, with the fallback credits made in FETH. */
    method PayOut(c: NFTDropCollection, referrer: Address, canReceive: Address -> bool, cost: nat)
      returns (payouts: seq<Payout>, events: seq<Event>)
      requires Valid()
      modifies feth`available, feth`ethBalance
      ensures Valid()
      ensures payouts == Distribution(PrimarySaleRevenue(cost, referrer), treasury,
                                      CreatorShares(Royalties.PaymentRecipient(c.RoyaltyConfig()), splitFactory.splits),
                                      referrer, canReceive)
      ensures feth.available == ApplyCredits(old(feth.available), payouts)
      ensures events == CreditEvents(payouts)
    {
      var rev := PrimarySaleRevenue(cost, referrer);
      var shares := CreatorShares(Royalties.PaymentRecipient(c.RoyaltyConfig()), splitFactory.splits);
      payouts := Distribution(rev, treasury, shares, referrer, canReceive);
      events := CreditFallbacks(feth, address, payouts);
    }
  }
}
