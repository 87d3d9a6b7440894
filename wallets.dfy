/**
 * The per-user wallet: a balance in cents with one unguarded and one
 * guarded update, and a lock flag that neither update looks at.
 */
module Wallets {
  import opened Records

  /** The balance after `deposit(amount)`: the amount is added whatever its sign. */
  function Deposited(balance: Cents, amount: Cents): Cents {
    balance + amount
  }

  /** What `withdraw(amount)` reports and the balance it leaves. */
  datatype Withdrawal = Withdrawal(ok: bool, balance: Cents)

  /**
   * `withdraw(amount)` subtracts only when the balance covers the amount;
   * otherwise it reports failure and leaves the balance as it was.
   */
  function Withdrawn(balance: Cents, amount: Cents): (w: Withdrawal)
    ensures w.ok ==> w.balance >= 0
    ensures w.balance != balance ==> w.ok
  {
    if balance >= amount then Withdrawal(true, balance - amount)
    else Withdrawal(false, balance)
  }

  /**
   * Depositing an amount and withdrawing it again succeeds exactly when the
   * starting balance is non-negative, and then gives that balance back.
   */
  lemma DepositThenWithdraw(balance: Cents, amount: Cents)
    ensures Withdrawn(Deposited(balance, amount), amount).ok <==> balance >= 0
    ensures balance >= 0 ==> Withdrawn(Deposited(balance, amount), amount).balance == balance
  {
  }

  /** A successful withdrawal is undone by depositing the same amount. */
  lemma WithdrawThenDeposit(balance: Cents, amount: Cents)
    requires Withdrawn(balance, amount).ok
    ensures Deposited(Withdrawn(balance, amount).balance, amount) == balance
  {
  }

  /**
   * Withdrawing a non-negative amount from a balance that fits the column
   * gives a balance that still fits it.
   */
  lemma WithdrawStaysInColumn(balance: Cents, amount: Cents)
    requires FitsDecimal(balance) && amount >= 0
    ensures FitsDecimal(Withdrawn(balance, amount).balance)
  {
  }

  class Wallet {
    const user: UserId
    var balance: Cents
    var isLocked: bool

    /** A wallet starts empty and unlocked. */
    constructor (user: UserId)
      ensures this.user == user && balance == 0 && !isLocked
    {
      this.user := user;
      balance := 0;
      isLocked := false;
    }

    // Each method's first ensures ties it to its specification function, which
    // the lemmas above reason about; the ones after it state the same new state
    // directly, for callers.
    method Deposit(amount: Cents)
      modifies this`balance
      ensures balance == Deposited(old(balance), amount)
      ensures balance == old(balance) + amount
      ensures isLocked == old(isLocked)
    {
      balance := balance + amount;
    }

    method Withdraw(amount: Cents) returns (ok: bool)
      modifies this`balance
      ensures Withdrawal(ok, balance) == Withdrawn(old(balance), amount)
      ensures ok <==> old(balance) >= amount
      ensures ok ==> balance == old(balance) - amount && balance >= 0
      ensures !ok ==> balance == old(balance)
      ensures isLocked == old(isLocked)
    {
      if balance >= amount {
        balance := balance - amount;
        ok := true;
      } else {
        ok := false;
      }
    }
  }
}
