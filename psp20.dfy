/**
 * The PSP-20 (ERC-20 style) fixed-supply token ledger of the ink! contract `Psp20`.
 *
 * The contract's storage becomes the fields of class `Psp20`; the identity the host
 * reports as the caller is an explicit parameter of each operation, and published
 * events are appended to the field `events` in the order the contract emits them.
 */
module Psp20 {
  import opened BalanceMap

  /** An account identifier; the ledger only compares it and uses it as a key. */
  type AccountId(==, !new)

  datatype Option<T> = None | Some(value: T)

  /** The two events the contract emits. `from == None` marks the creation of the supply. */
  datatype Event =
    | Transfer(from: Option<AccountId>, to: Option<AccountId>, value: Balance)
    | Approval(owner: AccountId, spender: AccountId, value: Balance)

  /**
   * The balance table after `value` tokens move from `from` to `to`, written in the
   * contract's order: the sender's entry is written first and the receiver's entry is
   * read afterwards, so a self-transfer writes back the amount it started with.
   * A table whose total fits a `Balance` cannot overflow the receiver.  Only the two
   * accounts involved can gain a key or change their amount.
   */
  function Moved(b: map<AccountId, Balance>, from: AccountId, to: AccountId, value: Balance): (r: map<AccountId, Balance>)
    requires value <= Get(b, from) && Sum(b) <= BALANCE_MAX
    ensures r.Keys == b.Keys + {from, to}
    ensures forall k :: k != from && k != to ==> Get(r, k) == Get(b, k)
  {
    ReceiverCannotOverflow(b, from, to, value);
    var debited := b[from := Get(b, from) - value];
    debited[to := Get(debited, to) + value]
  }

  /** Once the sender is debited, the receiver's amount plus `value` is at most the old total. */
  lemma ReceiverCannotOverflow(b: map<AccountId, Balance>, from: AccountId, to: AccountId, value: Balance)
    requires value <= Get(b, from)
    ensures Get(b[from := Get(b, from) - value], to) as int + value as int <= Sum(b)
  {
    var debited := b[from := Get(b, from) - value];
    SumUpdate(b, from, Get(b, from) - value);
    EntryAtMostSum(debited, to);
  }

  /** A transfer moves tokens and creates or destroys none. */
  lemma MovedConserves(b: map<AccountId, Balance>, from: AccountId, to: AccountId, value: Balance)
    requires value <= Get(b, from) && Sum(b) <= BALANCE_MAX
    ensures Sum(Moved(b, from, to, value)) == Sum(b)
  {
    var debited := b[from := Get(b, from) - value];
    SumUpdate(b, from, Get(b, from) - value);
    ReceiverCannotOverflow(b, from, to, value);
    SumUpdate(debited, to, Get(debited, to) + value);
  }

  /**
   * Account by account: the sender loses `value`, the receiver gains `value` (both at
   * once, a net zero, when they are the same account) and every other account keeps
   * its amount.
   */
  lemma MovedBalances(b: map<AccountId, Balance>, from: AccountId, to: AccountId, value: Balance, k: AccountId)
    requires value <= Get(b, from) && Sum(b) <= BALANCE_MAX
    ensures Get(Moved(b, from, to, value), k) as int
         == Get(b, k) as int - (if k == from then value as int else 0) + (if k == to then value as int else 0)
  {
  }

  /** The contract's storage, with the host's event log as one more field. */
  class Psp20 {
    var totalSupply: Balance
    var balances: map<AccountId, Balance>
    var allowances: map<(AccountId, AccountId), Balance>
    var events: seq<Event>

    /** Conservation: the balances add up to the total supply. */
    ghost predicate Valid()
      reads this
    {
      Sum(balances) == totalSupply as int
    }

    /** Creates the token, giving the whole initial supply to the creating account. */
    constructor (caller: AccountId, initialSupply: Balance)
      ensures Valid()
      ensures totalSupply == initialSupply
      ensures balances == map[caller := initialSupply] && allowances == map[]
      ensures events == [Event.Transfer(None, Some(caller), initialSupply)]
    {
      totalSupply := initialSupply;
      balances := map[caller := initialSupply];
      allowances := map[];
      events := [Event.Transfer(None, Some(caller), initialSupply)];
      SumEmpty<AccountId>();
      SumUpdate(map[], caller, initialSupply);
    }

    /** The number of tokens in existence: on a valid ledger, the sum of all balances. */
    function TotalSupply(): (r: Balance)
      reads this
      ensures Valid() ==> r as int == Sum(balances)
    {
      totalSupply
    }

    /** The amount `owner` holds; zero for an account never written, never more than the supply. */
    function BalanceOf(owner: AccountId): (r: Balance)
      reads this
      ensures owner in balances ==> r == balances[owner]
      ensures owner !in balances ==> r == 0
      ensures Valid() ==> r <= totalSupply
    {
      EntryAtMostSum(balances, owner);
      Get(balances, owner)
    }

    /** The amount `spender` may still take from `owner`; zero when `owner` never approved `spender`. */
    function Allowance(owner: AccountId, spender: AccountId): (r: Balance)
      reads this
      ensures (owner, spender) in allowances ==> r == allowances[(owner, spender)]
      ensures (owner, spender) !in allowances ==> r == 0
    {
      Get(allowances, (owner, spender))
    }

    /**
     * The shared transfer primitive.  Fails, changing nothing, when `from` holds less
     * than `value`; otherwise moves the tokens and appends one Transfer event.
     */
    method TransferFromTo(from: AccountId, to: AccountId, value: Balance) returns (ok: bool)
      requires Valid()
      modifies this
      ensures Valid()
      ensures ok <==> value <= old(BalanceOf(from))
      ensures totalSupply == old(totalSupply) && allowances == old(allowances)
      ensures ok ==> balances == Moved(old(balances), from, to, value)
      ensures ok ==> events == old(events) + [Event.Transfer(Some(from), Some(to), value)]
      ensures !ok ==> balances == old(balances) && events == old(events)
    {
      var fromBalance := BalanceOf(from);
      if fromBalance < value {
        return false;
      }
      ghost var before := balances;
      MovedConserves(before, from, to, value);
      ReceiverCannotOverflow(before, from, to, value);
      balances := balances[from := fromBalance - value];
      var toBalance := BalanceOf(to);
      balances := balances[to := toBalance + value];
      events := events + [Event.Transfer(Some(from), Some(to), value)];
      ok := true;
    }

    /** `caller` sends `value` of its own tokens to `to`. */
    method Transfer(caller: AccountId, to: AccountId, value: Balance) returns (ok: bool)
      requires Valid()
      modifies this
      ensures Valid()
      ensures ok <==> value <= old(BalanceOf(caller))
      ensures totalSupply == old(totalSupply) && allowances == old(allowances)
      ensures ok ==> balances == Moved(old(balances), caller, to, value)
      ensures ok ==> events == old(events) + [Event.Transfer(Some(caller), Some(to), value)]
      ensures !ok ==> balances == old(balances) && events == old(events)
    {
      ok := TransferFromTo(caller, to, value);
    }

    /**
     * `caller` allows `spender` to take up to `value` of its tokens.  The new amount
     * replaces any earlier one; nothing is checked against `caller`'s balance.
     */
    method Approve(caller: AccountId, spender: AccountId, value: Balance) returns (ok: bool)
      requires Valid()
      modifies this
      ensures Valid() && ok
      ensures allowances == old(allowances)[(caller, spender) := value]
      ensures totalSupply == old(totalSupply) && balances == old(balances)
      ensures events == old(events) + [Event.Approval(caller, spender, value)]
    {
      allowances := allowances[(caller, spender) := value];
      events := events + [Event.Approval(caller, spender, value)];
      ok := true;
    }

    /**
     * `caller` spends `value` of the allowance `from` gave it, sending the tokens to `to`.
     * With too small an allowance nothing changes.  Otherwise the allowance is reduced
     * BEFORE the balance check, and stays reduced when `from` then holds too little.
     */
    method TransferFrom(caller: AccountId, from: AccountId, to: AccountId, value: Balance) returns (ok: bool)
      requires Valid()
      modifies this
      ensures Valid() && totalSupply == old(totalSupply)
      ensures ok <==> value <= old(Allowance(from, caller)) && value <= old(BalanceOf(from))
      ensures old(Allowance(from, caller)) < value ==> allowances == old(allowances)
      ensures value <= old(Allowance(from, caller)) ==>
                allowances == old(allowances)[(from, caller) := old(Allowance(from, caller)) - value]
      ensures ok ==> balances == Moved(old(balances), from, to, value)
      ensures ok ==> events == old(events) + [Event.Transfer(Some(from), Some(to), value)]
      ensures !ok ==> balances == old(balances) && events == old(events)
    {
      var allowance := Allowance(from, caller);
      if allowance < value {
        return false;
      }
      allowances := allowances[(from, caller) := allowance - value];
      ok := TransferFromTo(from, to, value);
    }
  }
}
