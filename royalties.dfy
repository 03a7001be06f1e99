/**
 * The royalty getters a drop collection (and an NFTCollection) answers:
 * EIP-2981 `royaltyInfo`, Rarible's `getFeeRecipients`/`getFeeBps`,
 * Manifold's `getRoyalties`, and Foundation's `tokenCreator` and
 * `getTokenCreatorPaymentAddress`. They are functions of the collection's
 * fixed configuration only, not of the token id.
 */
module Royalties {
  import opened Types

  /** The royalty rate: 10%. */
  const ROYALTY_BASIS_POINTS: nat := 1000

  /** What every getter reads: the creator and the payment address (Zero when none is set). */
  datatype RoyaltyConfig = RoyaltyConfig(creator: Address, paymentAddress: Address)

  /** `getTokenCreatorPaymentAddress`: the payment address when one is set, otherwise the creator. */
  function PaymentRecipient(c: RoyaltyConfig): Address
  {
    if c.paymentAddress == Zero then c.creator else c.paymentAddress
  }

  /** The royalty on `salePrice`: 10% of it, rounded down. */
  function RoyaltyAmount(salePrice: nat): (amount: nat)
    ensures amount * BASIS_POINTS <= salePrice * ROYALTY_BASIS_POINTS < (amount + 1) * BASIS_POINTS
    ensures amount == salePrice / 10
  {
    salePrice * ROYALTY_BASIS_POINTS / BASIS_POINTS
  }

  /** EIP-2981 `royaltyInfo(tokenId, salePrice)`: (receiver, royalty amount). */
  function RoyaltyInfo(c: RoyaltyConfig, salePrice: nat): (Address, nat)
  {
    (PaymentRecipient(c), RoyaltyAmount(salePrice))
  }

  /** `getFeeRecipients(tokenId)`. */
  function GetFeeRecipients(c: RoyaltyConfig): seq<Address>
  {
    [PaymentRecipient(c)]
  }

  /** `getFeeBps(tokenId)`. */
  function GetFeeBps(c: RoyaltyConfig): seq<nat>
  {
    [ROYALTY_BASIS_POINTS]
  }

  /** `getRoyalties(tokenId)`: recipients and their basis points. */
  function GetRoyalties(c: RoyaltyConfig): (seq<Address>, seq<nat>)
  {
    (GetFeeRecipients(c), GetFeeBps(c))
  }

  /** `tokenCreator(tokenId)`: always the creator, whatever the payment address. */
  function TokenCreator(c: RoyaltyConfig): Address
  {
    c.creator
  }
}
