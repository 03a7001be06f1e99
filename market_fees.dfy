/**
 * How the proceeds of a primary sale are divided: a 5% fee, of which a
 * buy referrer (when there is one) takes 1% of the price and the treasury
 * the rest, and the creator revenue, which is everything else. Each share
 * is sent as ETH, or, when its recipient cannot receive ETH, credited to
 * the recipient's FETH balance instead.
 */
module MarketFees {
  import opened Types
  import opened Splits

  /** The fee on a primary sale: 5%. */
  const PRIMARY_FEE_BASIS_POINTS: nat := 500
  /** A buy referrer's cut: 1% of the price, taken out of the fee. */
  const BUY_REFERRER_FEE_BASIS_POINTS: nat := 100

  /** The four amounts of one sale. */
  datatype Revenue = Revenue(totalFees: nat, treasuryFee: nat, referrerFee: nat, creatorRev: nat)

  /**
   * The division of `price`: fees rounded down, the referrer's cut only
   * when a referrer is named, and the creator receives the remainder, so
   * that nothing is lost to rounding.
   */
  function PrimarySaleRevenue(price: nat, referrer: Address): (r: Revenue)
    ensures r.treasuryFee + r.referrerFee == r.totalFees
    ensures r.totalFees + r.creatorRev == price
    ensures r.totalFees * BASIS_POINTS <= price * PRIMARY_FEE_BASIS_POINTS < (r.totalFees + 1) * BASIS_POINTS
    ensures referrer == Zero ==> r.referrerFee == 0
    ensures referrer != Zero ==>
              r.referrerFee * BASIS_POINTS <= price * BUY_REFERRER_FEE_BASIS_POINTS < (r.referrerFee + 1) * BASIS_POINTS
  {
    var totalFees := price * PRIMARY_FEE_BASIS_POINTS / BASIS_POINTS;
    var referrerFee := if referrer == Zero then 0 else price * BUY_REFERRER_FEE_BASIS_POINTS / BASIS_POINTS;
    assert referrerFee <= totalFees;
    Revenue(totalFees, totalFees - referrerFee, referrerFee, price - totalFees)
  }

  /** On a price that is a whole number of percent, the referrer takes 20% of the fee and the treasury 80%. */
  lemma ReferrerTakesOneFifthOfFees(price: nat, referrer: Address)
    requires referrer != Zero && price % 100 == 0
    ensures var r := PrimarySaleRevenue(price, referrer);
            r.referrerFee * 5 == r.totalFees && r.treasuryFee * 5 == r.totalFees * 4
            && r.referrerFee * 100 == price && r.treasuryFee * 25 == price
  {
  }

  /**
   * The creator's 95%: exact on prices divisible by 20, and rounding never
   * goes against the creator.
   */
  lemma CreatorRevenueIs95Percent(price: nat, referrer: Address)
    ensures var r := PrimarySaleRevenue(price, referrer);
            r.creatorRev * BASIS_POINTS >= price * (BASIS_POINTS - PRIMARY_FEE_BASIS_POINTS)
            && (price % 20 == 0 ==> r.creatorRev * BASIS_POINTS == price * 9500 && r.totalFees * 20 == price)
  {
    var r := PrimarySaleRevenue(price, referrer);
    assert r.creatorRev * BASIS_POINTS == price * BASIS_POINTS - r.totalFees * BASIS_POINTS;
    if price % 20 == 0 {
      var k := price / 20;
      assert price * PRIMARY_FEE_BASIS_POINTS == k * BASIS_POINTS;
      assert r.totalFees == k;
    }
  }

  /** One transfer out of the market: sent as ETH, or credited to the recipient's FETH balance. */
  datatype Payout = Payout(recipient: Address, amount: nat, sentAsEth: bool)

  /**
   * `_sendValueWithFallbackWithdraw`: nothing for a zero amount; otherwise
   * ETH to a recipient that accepts it, and an escrow credit to one that does not.
   */
  function Pay(recipient: Address, amount: nat, canReceive: Address -> bool): (ps: seq<Payout>)
    ensures amount == 0 <==> ps == []
  {
    if amount == 0 then [] else [Payout(recipient, amount, canReceive(recipient))]
  }

  /** The creator's part: each share's amount to that share's recipient. */
  function PayShares(shares: seq<Share>, amounts: seq<nat>, canReceive: Address -> bool): seq<Payout>
    requires |amounts| == |shares|
    decreases |shares|
  {
    if shares == [] then []
    else Pay(shares[0].recipient, amounts[0], canReceive) + PayShares(shares[1..], amounts[1..], canReceive)
  }

  /** What the shares held by `a` add up to. */
  function ShareTo(shares: seq<Share>, amounts: seq<nat>, a: Address): nat
    requires |amounts| == |shares|
    decreases |shares|
  {
    if shares == [] then 0
    else (if shares[0].recipient == a then amounts[0] else 0) + ShareTo(shares[1..], amounts[1..], a)
  }

  /**
   * The payouts of one sale, in the order the market makes them: the
   * creator revenue divided among `creatorShares` (a single share of 100%
   * for a plain recipient, the split's shares for a split), then the
   * treasury, then the buy referrer.
   */
  function Distribution(r: Revenue, treasury: Address, creatorShares: seq<Share>, referrer: Address,
                        canReceive: Address -> bool): seq<Payout>
    requires ValidShares(creatorShares)
  {
    PayShares(creatorShares, SplitAmounts(r.creatorRev, creatorShares), canReceive)
      + Pay(treasury, r.treasuryFee, canReceive) + Pay(referrer, r.referrerFee, canReceive)
  }

  /** Everything paid out. */
  function SumPaid(ps: seq<Payout>): nat
  {
    if ps == [] then 0 else ps[0].amount + SumPaid(ps[1..])
  }

  /** Everything `a` receives, as ETH or as escrow credit. */
  function AmountTo(ps: seq<Payout>, a: Address): nat
  {
    if ps == [] then 0 else (if ps[0].recipient == a then ps[0].amount else 0) + AmountTo(ps[1..], a)
  }

  /** What `a` receives as escrow credit. */
  function CreditTo(ps: seq<Payout>, a: Address): nat
  {
    if ps == [] then 0
    else (if ps[0].recipient == a && !ps[0].sentAsEth then ps[0].amount else 0) + CreditTo(ps[1..], a)
  }

  lemma {:induction false} SumsAppend(a: seq<Payout>, b: seq<Payout>, x: Address)
    ensures SumPaid(a + b) == SumPaid(a) + SumPaid(b)
    ensures AmountTo(a + b, x) == AmountTo(a, x) + AmountTo(b, x)
    ensures CreditTo(a + b, x) == CreditTo(a, x) + CreditTo(b, x)
    decreases |a|
  {
    if a == [] {
      assert a + b == b;
    } else {
      assert (a + b)[1..] == a[1..] + b;
      SumsAppend(a[1..], b, x);
    }
  }

  lemma PaySpec(recipient: Address, amount: nat, canReceive: Address -> bool, x: Address)
    ensures SumPaid(Pay(recipient, amount, canReceive)) == amount
    ensures AmountTo(Pay(recipient, amount, canReceive), x) == if x == recipient then amount else 0
    ensures CreditTo(Pay(recipient, amount, canReceive), x)
            == if canReceive(x) then 0 else AmountTo(Pay(recipient, amount, canReceive), x)
  {
  }

  /**
   * Paying a list of shares pays out their total, gives each address what
   * its shares add up to, and credits it in escrow exactly when it cannot
   * receive ETH.
   */
  lemma {:induction false} PaySharesSpec(shares: seq<Share>, amounts: seq<nat>, canReceive: Address -> bool, x: Address)
    requires |amounts| == |shares|
    ensures SumPaid(PayShares(shares, amounts, canReceive)) == Sum(amounts)
    ensures AmountTo(PayShares(shares, amounts, canReceive), x) == ShareTo(shares, amounts, x)
    ensures CreditTo(PayShares(shares, amounts, canReceive), x)
            == if canReceive(x) then 0 else ShareTo(shares, amounts, x)
    decreases |shares|
  {
    if shares != [] {
      var head := Pay(shares[0].recipient, amounts[0], canReceive);
      PaySpec(shares[0].recipient, amounts[0], canReceive, x);
      PaySharesSpec(shares[1..], amounts[1..], canReceive, x);
      SumsAppend(head, PayShares(shares[1..], amounts[1..], canReceive), x);
    }
  }

  /** A single recipient of 100% receives the whole creator revenue. */
  lemma SingleRecipientShare(recipient: Address, amount: nat, x: Address)
    ensures ValidShares([Share(recipient, BASIS_POINTS)])
    ensures SplitAmounts(amount, [Share(recipient, BASIS_POINTS)]) == [amount]
    ensures ShareTo([Share(recipient, BASIS_POINTS)], [amount], x) == if x == recipient then amount else 0
  {
    var shares := [Share(recipient, BASIS_POINTS)];
    assert SumBasisPoints(shares) == BASIS_POINTS + SumBasisPoints([]);
    assert Cuts(amount, shares[1..]) == [];
  }

  /**
   * The market keeps nothing: the payouts of a sale add up to its price,
   * and each party gets its share (summed when one address plays several
   * parts), credited in escrow rather than sent when it cannot receive ETH.
   */
  lemma DistributionSpec(price: nat, treasury: Address, creatorShares: seq<Share>, referrer: Address,
                         canReceive: Address -> bool, a: Address)
    requires ValidShares(creatorShares)
    ensures var r := PrimarySaleRevenue(price, referrer);
            var ps := Distribution(r, treasury, creatorShares, referrer, canReceive);
            && SumPaid(ps) == price
            && AmountTo(ps, a) == ShareTo(creatorShares, SplitAmounts(r.creatorRev, creatorShares), a)
                                  + (if a == treasury then r.treasuryFee else 0)
                                  + (if a == referrer then r.referrerFee else 0)
            && CreditTo(ps, a) == (if canReceive(a) then 0 else AmountTo(ps, a))
  {
    var r := PrimarySaleRevenue(price, referrer);
    var amounts := SplitAmounts(r.creatorRev, creatorShares);
    SplitAmountsSpec(r.creatorRev, creatorShares);
    var p1, p2, p3 := PayShares(creatorShares, amounts, canReceive), Pay(treasury, r.treasuryFee, canReceive),
                      Pay(referrer, r.referrerFee, canReceive);
    PaySharesSpec(creatorShares, amounts, canReceive, a);
    PaySpec(treasury, r.treasuryFee, canReceive, a);
    PaySpec(referrer, r.referrerFee, canReceive, a);
    SumsAppend(p1, p2, a);
    SumsAppend(p1 + p2, p3, a);
  }
}
