/**
 * The contract's unit tests, and the remaining end-to-end behaviours of the ledger,
 * as client methods.  Each one drives a fresh ledger through the calls of one test
 * and returns what that test observes; its postcondition states the outcomes that test
 * asserts after its calls, and further outcomes of the same calls.
 * The tests' default accounts are parameters (`alice` is the deploying caller).
 */
module Psp20Tests {
  import opened BalanceMap
  import opened Psp20

  /** Construction emits exactly one event, the creation Transfer of 100 tokens to the creator. */
  method NewWorks(alice: AccountId) returns (emitted: seq<Event>)
    ensures |emitted| == 1
    ensures emitted[0] == Event.Transfer(None, Some(alice), 100)
  {
    var token := new Psp20(alice, 100);
    emitted := token.events;
  }

  /** The initial supply is the total supply. */
  method TotalSupplyWorks(alice: AccountId) returns (supply: Balance)
    ensures supply == 100
  {
    var token := new Psp20(alice, 100);
    supply := token.TotalSupply();
  }

  /** The creator owns every token; any other account owns none. */
  method BalanceOfWorks(alice: AccountId, bob: AccountId) returns (aliceBalance: Balance, bobBalance: Balance)
    requires alice != bob
    ensures aliceBalance == 100 && bobBalance == 0
  {
    var token := new Psp20(alice, 100);
    aliceBalance := token.BalanceOf(alice);
    bobBalance := token.BalanceOf(bob);
  }

  /** Alice sends Bob 10: it succeeds, a second Transfer event appears, Alice has 90 and Bob 10. */
  method TransferWorks(alice: AccountId, bob: AccountId)
    returns (ok: bool, emitted: seq<Event>, aliceBalance: Balance, bobBalance: Balance)
    requires alice != bob
    ensures ok
    ensures |emitted| == 2 && emitted[1] == Event.Transfer(Some(alice), Some(bob), 10)
    ensures aliceBalance == 90 && bobBalance == 10
  {
    var token := new Psp20(alice, 100);
    ok := token.Transfer(alice, bob, 10);
    emitted := token.events;
    aliceBalance := token.BalanceOf(alice);
    bobBalance := token.BalanceOf(bob);
  }

  /** Bob, who owns nothing, fails to send Eve 10; no balance changes and no event is added. */
  method InvalidTransferShouldFail(alice: AccountId, bob: AccountId, eve: AccountId)
    returns (ok: bool, emitted: nat, aliceBalance: Balance, bobBalance: Balance, eveBalance: Balance)
    requires alice != bob && alice != eve && bob != eve
    ensures !ok && emitted == 1
    ensures aliceBalance == 100 && bobBalance == 0 && eveBalance == 0
  {
    var token := new Psp20(alice, 100);
    ok := token.Transfer(bob, eve, 10);
    emitted := |token.events|;
    aliceBalance := token.BalanceOf(alice);
    bobBalance := token.BalanceOf(bob);
    eveBalance := token.BalanceOf(eve);
  }

  /**
   * Alice, still the caller, cannot move her own tokens through the allowance path,
   * because she never approved herself.  After Alice approves Bob for 10 (the second
   * event), Bob sends 10 of Alice's tokens to Eve (the third event), which uses up the
   * allowance.
   */
  method TransferFromWorks(alice: AccountId, bob: AccountId, eve: AccountId)
    returns (unapproved: bool, approved: bool, afterApprove: nat, spent: bool, emitted: seq<Event>,
             aliceBalance: Balance, eveBalance: Balance, allowanceLeft: Balance)
    requires alice != bob && alice != eve && bob != eve
    ensures !unapproved && approved && afterApprove == 2 && spent
    ensures |emitted| == 3 && emitted[2] == Event.Transfer(Some(alice), Some(eve), 10)
    ensures aliceBalance == 90 && eveBalance == 10 && allowanceLeft == 0
  {
    var token := new Psp20(alice, 100);
    unapproved := token.TransferFrom(alice, alice, eve, 10);
    approved := token.Approve(alice, bob, 10);
    afterApprove := |token.events|;
    spent := token.TransferFrom(bob, alice, eve, 10);
    emitted := token.events;
    aliceBalance := token.BalanceOf(alice);
    eveBalance := token.BalanceOf(eve);
    allowanceLeft := token.Allowance(alice, bob);
  }

  /** A second approval replaces the first: 10 then 5 leaves 5, not 15. */
  method ApproveOverwrites(alice: AccountId, bob: AccountId) returns (allowance: Balance, emitted: seq<Event>)
    ensures allowance == 5
    ensures |emitted| == 3
    ensures emitted[1] == Event.Approval(alice, bob, 10) && emitted[2] == Event.Approval(alice, bob, 5)
  {
    var token := new Psp20(alice, 100);
    var _ := token.Approve(alice, bob, 10);
    var _ := token.Approve(alice, bob, 5);
    allowance := token.Allowance(alice, bob);
    emitted := token.events;
  }

  /** Approving more than one owns succeeds; the check waits until the allowance is spent. */
  method ApproveBeyondBalance(alice: AccountId, bob: AccountId) returns (ok: bool, allowance: Balance, bobBalance: Balance)
    requires alice != bob
    ensures ok && allowance == 500 && bobBalance == 0
  {
    var token := new Psp20(alice, 100);
    ok := token.Approve(bob, alice, 500);
    allowance := token.Allowance(bob, alice);
    bobBalance := token.BalanceOf(bob);
  }

  /** Spending 11 of an allowance of 10 fails and changes nothing. */
  method TransferFromOverAllowance(alice: AccountId, bob: AccountId, eve: AccountId)
    returns (ok: bool, emitted: nat, aliceBalance: Balance, eveBalance: Balance, allowance: Balance)
    requires alice != bob && alice != eve && bob != eve
    ensures !ok && emitted == 2
    ensures aliceBalance == 100 && eveBalance == 0 && allowance == 10
  {
    var token := new Psp20(alice, 100);
    var _ := token.Approve(alice, bob, 10);
    ok := token.TransferFrom(bob, alice, eve, 11);
    emitted := |token.events|;
    aliceBalance := token.BalanceOf(alice);
    eveBalance := token.BalanceOf(eve);
    allowance := token.Allowance(alice, bob);
  }

  /**
   * Bob (who owns nothing) approves Alice for 10; Alice's attempt to move those 10 to
   * Eve fails for lack of funds, yet the allowance is gone: the reduction is written
   * before the balance check and is not undone.
   */
  method FailedTransferFromSpendsAllowance(alice: AccountId, bob: AccountId, eve: AccountId)
    returns (ok: bool, emitted: nat, bobBalance: Balance, eveBalance: Balance, allowance: Balance)
    requires alice != bob && alice != eve && bob != eve
    ensures !ok && emitted == 2
    ensures bobBalance == 0 && eveBalance == 0 && allowance == 0
  {
    var token := new Psp20(alice, 100);
    var _ := token.Approve(bob, alice, 10);
    ok := token.TransferFrom(alice, bob, eve, 10);
    emitted := |token.events|;
    bobBalance := token.BalanceOf(bob);
    eveBalance := token.BalanceOf(eve);
    allowance := token.Allowance(bob, alice);
  }

  /** Sending tokens to oneself succeeds, keeps the balance and still emits a Transfer. */
  method SelfTransfer(alice: AccountId) returns (ok: bool, emitted: seq<Event>, aliceBalance: Balance)
    ensures ok && aliceBalance == 100
    ensures |emitted| == 2 && emitted[1] == Event.Transfer(Some(alice), Some(alice), 10)
  {
    var token := new Psp20(alice, 100);
    ok := token.Transfer(alice, alice, 10);
    emitted := token.events;
    aliceBalance := token.BalanceOf(alice);
  }
}
