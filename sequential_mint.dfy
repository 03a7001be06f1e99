/**
 * The rules both collection kinds inherit from `SequentialMintCollection`:
 * token ids are issued one after another from 1, a burn removes a token
 * for good, `totalSupply` is minted minus burned, and `maxTokenId` is a
 * ceiling that may only come down.
 */
module SequentialMint {
  import opened Types

  /** Token id to owner; an id is present exactly while its token exists. */
  type Owners = map<nat, Address>

  /** Every existing token carries an id already issued, i.e. in 1..latestTokenId. */
  predicate IdsIssued(owners: Owners, latestTokenId: nat)
  {
    forall id :: id in owners ==> 1 <= id <= latestTokenId
  }

  /** The ids first, first + 1, ..., first + count - 1. */
  function Range(first: nat, count: nat): set<nat>
    decreases count
  {
    if count == 0 then {} else Range(first, count - 1) + {first + count - 1}
  }

  lemma {:induction false} RangeSpec(first: nat, count: nat)
    ensures forall id :: id in Range(first, count) <==> first <= id < first + count
    ensures |Range(first, count)| == count
    decreases count
  {
    if count > 0 {
      RangeSpec(first, count - 1);
    }
  }

  /** The owner map after minting ids first..first + count - 1 to `to`, one id at a time. */
  function MintRange(owners: Owners, first: nat, count: nat, to: Address): Owners
    decreases count
  {
    if count == 0 then owners else MintRange(owners, first, count - 1, to)[first + count - 1 := to]
  }

  /** Minting a range gives every new id to `to` and leaves every other id as it was. */
  lemma {:induction false} MintRangeSpec(owners: Owners, first: nat, count: nat, to: Address)
    ensures MintRange(owners, first, count, to).Keys == owners.Keys + Range(first, count)
    ensures forall id :: id in Range(first, count) ==> MintRange(owners, first, count, to)[id] == to
    ensures forall id :: id in owners && id !in Range(first, count) ==>
              MintRange(owners, first, count, to)[id] == owners[id]
    decreases count
  {
    if count > 0 {
      var prev := MintRange(owners, first, count - 1, to);
      MintRangeSpec(owners, first, count - 1, to);
      assert MintRange(owners, first, count, to) == prev[first + count - 1 := to];
      assert Range(first, count) == Range(first, count - 1) + {first + count - 1};
    }
  }

  /** The tokens `holder` owns. */
  function TokensOf(owners: Owners, holder: Address): set<nat>
  {
    set id | id in owners && owners[id] == holder
  }

  /** ERC-721 `balanceOf`: how many tokens `holder` owns. */
  function BalanceOf(owners: Owners, holder: Address): nat
  {
    |TokensOf(owners, holder)|
  }

  /**
   * Minting ids above every existing one adds `count` tokens to the
   * recipient's balance and changes no other balance.
   */
  lemma {:induction false} BalanceAfterMint(owners: Owners, first: nat, count: nat, to: Address, holder: Address)
    requires forall id :: id in owners ==> id < first
    ensures forall id :: id in MintRange(owners, first, count, to) ==> id < first + count
    ensures BalanceOf(MintRange(owners, first, count, to), holder)
            == BalanceOf(owners, holder) + (if holder == to then count else 0)
    decreases count
  {
    if count > 0 {
      var prev := MintRange(owners, first, count - 1, to);
      BalanceAfterMint(owners, first, count - 1, to, holder);
      TokensOfInsert(prev, first + count - 1, to, holder);
    }
  }

  /** Giving a new id to `to` adds that id to `to`'s tokens and to nobody else's. */
  lemma TokensOfInsert(owners: Owners, id: nat, to: Address, holder: Address)
    requires id !in owners
    ensures TokensOf(owners[id := to], holder)
            == if holder == to then TokensOf(owners, holder) + {id} else TokensOf(owners, holder)
    ensures id !in TokensOf(owners, holder)
  {
  }

  /**
   * Minting `count` fresh ids after `latestTokenId` keeps the ids issued and
   * adds exactly `count` existing tokens.
   */
  lemma {:induction false} MintKeepsIds(owners: Owners, latestTokenId: nat, count: nat, to: Address)
    requires IdsIssued(owners, latestTokenId)
    ensures IdsIssued(MintRange(owners, latestTokenId + 1, count, to), latestTokenId + count)
    ensures |MintRange(owners, latestTokenId + 1, count, to)| == |owners| + count
    ensures owners.Keys <= MintRange(owners, latestTokenId + 1, count, to).Keys
    decreases count
  {
    if count > 0 {
      var prev := MintRange(owners, latestTokenId + 1, count - 1, to);
      MintKeepsIds(owners, latestTokenId, count - 1, to);
      assert latestTokenId + count !in prev;
    }
  }

  /** Burning an existing token removes one token and keeps the ids issued. */
  lemma BurnKeepsIds(owners: Owners, latestTokenId: nat, tokenId: nat)
    requires IdsIssued(owners, latestTokenId) && tokenId in owners
    ensures IdsIssued(owners - {tokenId}, latestTokenId)
    ensures |owners - {tokenId}| == |owners| - 1
  {
  }

  /**
   * The checks of `_updateMaxTokenId`, in the source's order: the new
   * ceiling may not be 0, may not be at or above a ceiling already set,
   * and may not be below the last id minted.
   */
  function UpdateMaxTokenId(maxTokenId: nat, latestTokenId: nat, newMax: nat): (r: Result<nat>)
    ensures r.Ok? ==> r.value == newMax
    ensures r.Ok? ==> 0 < r.value && latestTokenId <= r.value
    ensures r.Ok? && maxTokenId != 0 ==> r.value < maxTokenId
    ensures r.Err? ==> newMax == 0 || (maxTokenId != 0 && maxTokenId <= newMax) || newMax < latestTokenId
  {
    if newMax == 0 then Err(MaxTokenIdMayNotBeCleared)
    else if maxTokenId != 0 && newMax >= maxTokenId then Err(MaxTokenIdMayNotIncrease)
    else if newMax < latestTokenId then Err(MaxTokenIdBelowLastMint)
    else Ok(newMax)
  }

  /** The ceiling after a series of update attempts, each failed one leaving it as it was. */
  function ApplyMaxUpdates(maxTokenId: nat, latestTokenId: nat, updates: seq<nat>): nat
    decreases |updates|
  {
    if updates == [] then maxTokenId
    else
      var r := UpdateMaxTokenId(maxTokenId, latestTokenId, updates[0]);
      ApplyMaxUpdates(if r.Ok? then r.value else maxTokenId, latestTokenId, updates[1..])
  }

  /**
   * Whatever updates are attempted, a ceiling that is set never rises and
   * is never cleared, and it never falls below the last mint.
   */
  lemma {:induction false} MaxTokenIdOnlyShrinks(maxTokenId: nat, latestTokenId: nat, updates: seq<nat>)
    requires maxTokenId == 0 || latestTokenId <= maxTokenId
    ensures var m := ApplyMaxUpdates(maxTokenId, latestTokenId, updates);
            maxTokenId != 0 ==> 0 < m <= maxTokenId && latestTokenId <= m
    decreases |updates|
  {
    if updates != [] {
      var r := UpdateMaxTokenId(maxTokenId, latestTokenId, updates[0]);
      MaxTokenIdOnlyShrinks(if r.Ok? then r.value else maxTokenId, latestTokenId, updates[1..]);
    }
  }

  /** An unset ceiling (0 means unlimited) may be set once to any value at or above the last mint. */
  lemma UnlimitedMayBeCapped(latestTokenId: nat, newMax: nat)
    requires 0 < newMax && latestTokenId <= newMax
    ensures UpdateMaxTokenId(0, latestTokenId, newMax) == Ok(newMax)
  {
  }

  /**
   * `_initializeSequentialMintCollection`: it runs only inside a top-level
   * initializer and refuses the zero address as creator; on success it
   * records the creator and the ceiling.
   */
  function InitializeMixin(initializing: bool, creator: Address, maxTokenId: nat): (r: Result<(Address, nat)>)
    ensures !initializing ==> r == Err(NotInitializing)
    ensures initializing && creator == Zero ==> r == Err(CreatorIsZeroAddress)
    ensures r.Ok? <==> initializing && creator != Zero
    ensures r.Ok? ==> r.value == (creator, maxTokenId)
  {
    if !initializing then Err(NotInitializing)
    else if creator == Zero then Err(CreatorIsZeroAddress)
    else Ok((creator, maxTokenId))
  }
}
