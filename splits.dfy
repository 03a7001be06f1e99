/**
 * Payment splits: a split is a contract, deployed once per list of shares
 * by the split factory, that forwards the ETH it receives to its
 * recipients by basis-point share. A collection created with a payment
 * factory has the split as its payment address.
 */
module Splits {
  import opened Types

  /** The total of the shares' basis points. */
  function SumBasisPoints(shares: seq<Share>): nat
  {
    if shares == [] then 0 else shares[0].basisPoints + SumBasisPoints(shares[1..])
  }

  /** Shares a split accepts: at least one, adding up to 100%. */
  predicate ValidShares(shares: seq<Share>)
  {
    |shares| >= 1 && SumBasisPoints(shares) == BASIS_POINTS
  }

  /** Each share's cut of `amount`, rounded down. */
  function Cuts(amount: nat, shares: seq<Share>): seq<nat>
  {
    if shares == [] then [] else [amount * shares[0].basisPoints / BASIS_POINTS] + Cuts(amount, shares[1..])
  }

  function Sum(xs: seq<nat>): nat
  {
    if xs == [] then 0 else xs[0] + Sum(xs[1..])
  }

  /** Rounding each cut down never hands out more than the shares' part of the amount. */
  lemma {:induction false} CutsBound(amount: nat, shares: seq<Share>)
    ensures |Cuts(amount, shares)| == |shares|
    ensures Sum(Cuts(amount, shares)) * BASIS_POINTS <= amount * SumBasisPoints(shares)
    decreases |shares|
  {
    if shares != [] {
      CutsBound(amount, shares[1..]);
      var b, rest := shares[0].basisPoints, SumBasisPoints(shares[1..]);
      var c := amount * b / BASIS_POINTS;
      assert c * BASIS_POINTS <= amount * b;
      assert amount * (b + rest) == amount * b + amount * rest;
    }
  }

  /**
   * What each recipient of a split receives out of `amount`: every share
   * but the first its cut rounded down, and the first share the remainder.
   */
  function SplitAmounts(amount: nat, shares: seq<Share>): (amounts: seq<nat>)
    requires ValidShares(shares)
    ensures |amounts| == |shares|
  {
    CutsBound(amount, shares[1..]);
    assert SumBasisPoints(shares[1..]) <= BASIS_POINTS;
    assert amount * SumBasisPoints(shares[1..]) <= amount * BASIS_POINTS;
    [amount - Sum(Cuts(amount, shares[1..]))] + Cuts(amount, shares[1..])
  }

  /**
   * A split forwards exactly what it receives, and every recipient gets at
   * least its share rounded down; the first gets what rounding leaves over.
   */
  lemma SplitAmountsSpec(amount: nat, shares: seq<Share>)
    requires ValidShares(shares)
    ensures Sum(SplitAmounts(amount, shares)) == amount
    ensures forall i :: 1 <= i < |shares| ==> SplitAmounts(amount, shares)[i] == amount * shares[i].basisPoints / BASIS_POINTS
    ensures SplitAmounts(amount, shares)[0] * BASIS_POINTS >= amount * shares[0].basisPoints
  {
    var rest := shares[1..];
    CutsBound(amount, rest);
    CutsAt(amount, rest);
    var amounts := SplitAmounts(amount, shares);
    assert amounts[1..] == Cuts(amount, rest);
    assert amount * BASIS_POINTS == amount * shares[0].basisPoints + amount * SumBasisPoints(rest);
  }

  lemma {:induction false} CutsAt(amount: nat, shares: seq<Share>)
    ensures |Cuts(amount, shares)| == |shares|
    ensures forall i :: 0 <= i < |shares| ==> Cuts(amount, shares)[i] == amount * shares[i].basisPoints / BASIS_POINTS
    decreases |shares|
  {
    if shares != [] {
      CutsAt(amount, shares[1..]);
    }
  }

  /** The events of a split's creation: the split, each share in order, then its initialization. */
  function ShareEvents(shares: seq<Share>): (events: seq<Event>)
    ensures |events| == |shares|
    ensures forall i :: 0 <= i < |shares| ==>
              events[i] == PercentSplitShare(shares[i].recipient, shares[i].basisPoints)
  {
    if shares == [] then [] else [PercentSplitShare(shares[0].recipient, shares[0].basisPoints)] + ShareEvents(shares[1..])
  }

  /**
   * The split factory: `createSplit` deploys a split for a list of shares
   * at a deterministic address unless one already exists there, and in
   * either case answers that address.
   */
  class PercentSplitFactory {
    const address: Address
    /** The split contract the clones delegate to. */
    const template: Address
    /** The splits deployed so far, with their shares. */
    var splits: map<Address, seq<Share>>

    ghost predicate Valid()
      reads this
    {
      forall a :: a in splits ==> a == SplitAddress(splits[a]) && ValidShares(splits[a])
    }

    /** `getPredictedSplitAddress`: where the split for `shares` is, or will be, deployed. */
    function SplitAddress(shares: seq<Share>): (a: Address)
    {
      Clone(address, template, SplitShares(shares))
    }

    constructor (address: Address, template: Address)
      ensures Valid() && this.address == address && this.template == template && splits == map[]
    {
      this.address := address;
      this.template := template;
      splits := map[];
    }

    /**
     * `createSplit`: an existing split is reused with no effect; otherwise
     * the split is deployed and its shares recorded, announcing the
     * creation, each share, and the initialization.
     */
    method CreateSplit(shares: seq<Share>) returns (r: Result<(Address, seq<Event>)>)
      requires Valid()
      modifies this
      ensures Valid()
      ensures !ValidShares(shares) ==> r == Err(InvalidSplitShares) && unchanged(this)
      ensures r.Ok? <==> ValidShares(shares)
      ensures r.Ok? ==> r.value.0 == SplitAddress(shares) && splits == old(splits)[r.value.0 := shares]
      ensures r.Ok? && SplitAddress(shares) in old(splits) ==> r.value.1 == [] && unchanged(this)
      ensures r.Ok? && SplitAddress(shares) !in old(splits) ==>
                r.value.1 == [PercentSplitCreated(SplitAddress(shares))] + ShareEvents(shares) + [Initialized(1)]
    {
      if !ValidShares(shares) {
        return Err(InvalidSplitShares);
      }
      var split := SplitAddress(shares);
      if split in splits {
        return Ok((split, []));
      }
      splits := splits[split := shares];
      r := Ok((split, [PercentSplitCreated(split)] + ShareEvents(shares) + [Initialized(1)]));
    }
  }
}
