/**
 * FETH, the escrow ledger: each holder has an available ETH balance that
 * deposits raise and withdrawals lower. A holder may let another account
 * withdraw through an allowance; the market may debit any holder without
 * one, to cover what a buyer did not send with the purchase.
 */
module Escrow {
  import opened Types
  import opened Ledger

  class FETH {
    /** The escrow's own address. */
    const address: Address
    /** The market allowed to spend holders' balances without an allowance. */
    const market: Address
    /** Available balance per holder (absent means 0). */
    var available: map<Address, nat>
    /** Allowance per (holder, spender). */
    var allowance: map<(Address, Address), nat>
    /** The ETH the contract holds. */
    var ethBalance: nat

    /** The escrow holds exactly the ETH it owes. */
    ghost predicate Valid()
      reads this
    {
      ethBalance == Total(available)
    }

    /** `balanceOf`: the holder's available balance. */
    function BalanceOf(holder: Address): nat
      reads this
    {
      if holder in available then available[holder] else 0
    }

    /** `totalBalanceOf`: equal to the available balance, since lockups are not modelled. */
    function TotalBalanceOf(holder: Address): nat
      reads this
    {
      BalanceOf(holder)
    }

    function Allowance(holder: Address, spender: Address): nat
      reads this
    {
      if (holder, spender) in allowance then allowance[(holder, spender)] else 0
    }

    constructor (address: Address, market: Address)
      ensures Valid()
      ensures this.address == address && this.market == market
      ensures available == map[] && allowance == map[] && ethBalance == 0
    {
      this.address := address;
      this.market := market;
      available := map[];
      allowance := map[];
      ethBalance := 0;
    }

    /** Sets one holder's balance, keeping the ETH held equal to the sum owed. */
    method SetBalance(holder: Address, amount: nat, newEthBalance: nat)
      requires Valid()
      requires newEthBalance + BalanceOf(holder) == ethBalance + amount
      modifies this`available, this`ethBalance
      ensures Valid()
      ensures available == old(available)[holder := amount]
      ensures ethBalance == newEthBalance
    {
      TotalUpdate(available, holder, amount);
      available := available[holder := amount];
      ethBalance := newEthBalance;
    }

    /**
     * `depositFor`: `value` ETH sent by `sender` is credited to `holder`.
     * The contract's ETH grows by the value and only `holder`'s balance moves.
     */
    method DepositFor(sender: Address, holder: Address, value: nat) returns (events: seq<Event>)
      requires Valid()
      modifies this`available, this`ethBalance
      ensures Valid()
      ensures BalanceOf(holder) == old(BalanceOf(holder)) + value
      ensures available == old(available)[holder := old(BalanceOf(holder)) + value]
      ensures ethBalance == old(ethBalance) + value
      ensures events == [BalanceTransfer(Zero, holder, value)]
    {
      SetBalance(holder, BalanceOf(holder) + value, ethBalance + value);
      events := [BalanceTransfer(Zero, holder, value)];
    }

    /** `deposit`: the sender credits itself. */
    method Deposit(sender: Address, value: nat) returns (events: seq<Event>)
      requires Valid()
      modifies this`available, this`ethBalance
      ensures Valid()
      ensures available == old(available)[sender := old(BalanceOf(sender)) + value]
      ensures ethBalance == old(ethBalance) + value
      ensures events == [BalanceTransfer(Zero, sender, value)]
    {
      events := DepositFor(sender, sender, value);
    }

    /** A plain ETH transfer to the contract is a deposit by the sender. */
    method Receive(sender: Address, value: nat) returns (events: seq<Event>)
      requires Valid()
      modifies this`available, this`ethBalance
      ensures Valid()
      ensures available == old(available)[sender := old(BalanceOf(sender)) + value]
      ensures ethBalance == old(ethBalance) + value
      ensures events == [BalanceTransfer(Zero, sender, value)]
    {
      events := Deposit(sender, value);
    }

    /**
     * `withdrawAvailableBalance`: pays the caller its whole balance and
     * leaves it at 0; refused when there is nothing to withdraw.
     */
    method WithdrawAvailableBalance(caller: Address) returns (r: Result<(nat, seq<Event>)>)
      requires Valid()
      modifies this`available, this`ethBalance
      ensures Valid()
      ensures old(BalanceOf(caller)) == 0 ==> r == Err(NoFundsToWithdraw) && unchanged(this)
      ensures old(BalanceOf(caller)) != 0 ==>
                var amount := old(BalanceOf(caller));
                && r == Ok((amount, [ETHWithdrawn(caller, caller, amount)]))
                && available == old(available)[caller := 0]
                && ethBalance == old(ethBalance) - amount
    {
      var amount := BalanceOf(caller);
      if amount == 0 {
        return Err(NoFundsToWithdraw);
      }
      TotalCovers(available, caller);
      SetBalance(caller, 0, ethBalance - amount);
      r := Ok((amount, [ETHWithdrawn(caller, caller, amount)]));
    }

    /** `approve`: lets `spender` withdraw up to `amount` of the caller's balance. */
    method Approve(caller: Address, spender: Address, amount: nat) returns (events: seq<Event>)
      modifies this`allowance
      ensures allowance == old(allowance)[(caller, spender) := amount]
      ensures events == [BalanceApproval(caller, spender, amount)]
    {
      allowance := allowance[(caller, spender) := amount];
      events := [BalanceApproval(caller, spender, amount)];
    }

    /**
     * `withdrawFrom`: moves `amount` of `from`'s balance out to `to`. A
     * caller other than `from` needs an allowance, which the withdrawal
     * uses up; the balance must cover the amount.
     */
    method WithdrawFrom(caller: Address, from: Address, to: Address, amount: nat)
      returns (r: Result<seq<Event>>)
      requires Valid()
      modifies this
      ensures Valid()
      ensures caller != from && old(Allowance(from, caller)) < amount ==>
                r == Err(InsufficientAllowance(old(Allowance(from, caller)))) && unchanged(this)
      ensures (caller == from || amount <= old(Allowance(from, caller))) && old(BalanceOf(from)) < amount ==>
                r == Err(InsufficientAvailableFunds(old(BalanceOf(from)))) && unchanged(this)
      ensures r.Ok? <==> (caller == from || amount <= old(Allowance(from, caller))) && amount <= old(BalanceOf(from))
      ensures r.Ok? ==>
                && r.value == [ETHWithdrawn(from, to, amount)]
                && available == old(available)[from := old(BalanceOf(from)) - amount]
                && ethBalance == old(ethBalance) - amount
                && allowance == (if caller == from then old(allowance)
                                 else old(allowance)[(from, caller) := old(Allowance(from, caller)) - amount])
    {
      if caller != from {
        var granted := Allowance(from, caller);
        if granted < amount {
          return Err(InsufficientAllowance(granted));
        }
      }
      var balance := BalanceOf(from);
      if balance < amount {
        return Err(InsufficientAvailableFunds(balance));
      }
      if caller != from {
        allowance := allowance[(from, caller) := Allowance(from, caller) - amount];
      }
      TotalCovers(available, from);
      SetBalance(from, balance - amount, ethBalance - amount);
      r := Ok([ETHWithdrawn(from, to, amount)]);
    }

    /**
     * `marketWithdrawFrom`: the market takes `amount` of `from`'s balance,
     * with no allowance needed.
     */
    method MarketWithdrawFrom(caller: Address, from: Address, amount: nat) returns (r: Result<seq<Event>>)
      requires Valid()
      modifies this`available, this`ethBalance
      ensures Valid()
      ensures caller != market ==> r == Err(OnlyMarketAllowed) && unchanged(this)
      ensures caller == market && old(BalanceOf(from)) < amount ==>
                r == Err(InsufficientAvailableFunds(old(BalanceOf(from)))) && unchanged(this)
      ensures r.Ok? <==> caller == market && amount <= old(BalanceOf(from))
      ensures r.Ok? ==>
                && r.value == [ETHWithdrawn(from, market, amount)]
                && available == old(available)[from := old(BalanceOf(from)) - amount]
                && ethBalance == old(ethBalance) - amount
    {
      if caller != market {
        return Err(OnlyMarketAllowed);
      }
      var balance := BalanceOf(from);
      if balance < amount {
        return Err(InsufficientAvailableFunds(balance));
      }
      TotalCovers(available, from);
      SetBalance(from, balance - amount, ethBalance - amount);
      r := Ok([ETHWithdrawn(from, market, amount)]);
    }
  }
}
