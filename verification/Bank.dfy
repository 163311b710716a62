module Bank {
  // The bank objects: an array of balances in 32-bit integers, withdrawals that
  // take their turn in one common order, and deposits that travel freely.

  const INT_MAX: int := 0x7fff_ffff

  /** What a 32-bit integer holds after an addition. */
  function Wrap(x: int): (w: int)
    ensures -0x8000_0000 <= w <= INT_MAX
    ensures -0x8000_0000 <= x <= INT_MAX ==> w == x
  {
    (x + 0x8000_0000) % 0x1_0000_0000 - 0x8000_0000
  }

  lemma WrapAdds(x: int, y: int)
    ensures Wrap(Wrap(x) + y) == Wrap(x + y)
  {
  }

  datatype Call = Withdraw(account: nat, amount: int) | Deposit(account: nat, amount: int) | Query(account: nat)

  function Execute(balances: seq<int>, call: Call): (b: seq<int>)
    requires call.account < |balances|
    ensures |b| == |balances|
  {
    match call
    case Withdraw(a, v) => balances[a := Wrap(balances[a] - v)]
    case Deposit(a, v) => balances[a := Wrap(balances[a] + v)]
    case Query(a) => balances
  }

  /** What a call brings to an account. */
  function Brings(call: Call, account: nat): int {
    if call.account != account || call.Query? then 0 else if call.Deposit? then call.amount else -call.amount
  }

  /** A call moves its own account by its amount, in 32-bit arithmetic, and nothing else;
      where the sum fits there is no wrap-around, and a query moves nothing at all. */
  lemma MovesItsAccount(balances: seq<int>, call: Call, k: nat)
    requires call.account < |balances| && k < |balances|
    requires forall i :: 0 <= i < |balances| ==> -0x8000_0000 <= balances[i] <= INT_MAX
    ensures var sum := balances[k] + Brings(call, k);
            && -0x8000_0000 <= Execute(balances, call)[k] <= INT_MAX
            && (Execute(balances, call)[k] - sum) % 0x1_0000_0000 == 0
            && (-0x8000_0000 <= sum <= INT_MAX ==> Execute(balances, call)[k] == sum)
  {
  }

  predicate Permissible(balances: seq<int>, call: Call)
    requires call.account < |balances|
  {
    call.Withdraw? ==> call.amount <= balances[call.account]
  }

  /** A withdrawal is let through exactly if it leaves the account nonnegative; other
      calls always are. */
  lemma PermissibleIff(balances: seq<int>, call: Call)
    requires call.account < |balances|
    ensures Permissible(balances, call) <==>
              !call.Withdraw? || balances[call.account] + Brings(call, call.account) >= 0
  {
  }

  class SmallBank {
    const accounts: array<int>

    constructor (b: int, accountNumber: nat)
      ensures fresh(accounts) && accounts[..] == seq(accountNumber, _ => b)
    {
      accounts := new int[accountNumber](_ => b);
    }

    method WithdrawFrom(aid: nat, v: int)
      requires aid < accounts.Length
      modifies accounts
      ensures accounts[..] == Execute(old(accounts[..]), Withdraw(aid, v))
    {
      accounts[aid] := Wrap(accounts[aid] - v);
    }

    method DepositTo(aid: nat, v: int)
      requires aid < accounts.Length
      modifies accounts
      ensures accounts[..] == Execute(old(accounts[..]), Deposit(aid, v))
    {
      accounts[aid] := Wrap(accounts[aid] + v);
    }

    method Dispatch(call: Call)
      requires call.account < accounts.Length
      modifies accounts
      ensures accounts[..] == Execute(old(accounts[..]), call)
    {
      match call {
        case Withdraw(aid, v) => WithdrawFrom(aid, v);
        case Deposit(aid, v) => DepositTo(aid, v);
        case Query(aid) =>
      }
    }

    method IsPermissible(call: Call) returns (ok: bool)
      requires call.account < accounts.Length
      ensures ok == Permissible(accounts[..], call)
    {
      if !call.Withdraw? {
        return true;
      }
      ok := !(call.amount > accounts[call.account]);
    }
  }

  // ---------------------------------------------------------------------
  // Which calls need coordination
  // ---------------------------------------------------------------------

  /** Any two calls commute, wrap-around or not: replicas converge however calls
      are ordered. */
  lemma CallsCommute(balances: seq<int>, a: Call, b: Call)
    requires a.account < |balances| && b.account < |balances|
    ensures Execute(Execute(balances, a), b) == Execute(Execute(balances, b), a)
  {
    var x, y := Execute(Execute(balances, a), b), Execute(Execute(balances, b), a);
    forall i | 0 <= i < |balances|
      ensures x[i] == y[i]
    {
      if i == a.account == b.account && !a.Query? && !b.Query? {
        var da := if a.Deposit? then a.amount else -a.amount;
        var db := if b.Deposit? then b.amount else -b.amount;
        WrapAdds(balances[i] + da, db);
        WrapAdds(balances[i] + db, da);
      }
    }
  }

  /** Withdrawals are in a synchronization group because one can take away what
      another was permitted to: of two permissible ones, the second stays so
      exactly if both are covered, or they concern different accounts. */
  lemma WithdrawalsConflict(balances: seq<int>, a: Call, b: Call)
    requires a.Withdraw? && b.Withdraw? && a.account < |balances| && b.account < |balances|
    requires 0 <= a.amount && 0 <= balances[a.account] <= INT_MAX
    requires Permissible(balances, a) && Permissible(balances, b)
    ensures Permissible(Execute(balances, a), b)
       <==> a.account != b.account || a.amount + b.amount <= balances[a.account]
  {
  }

  /** Deposits are in none: a deposit of money leaves a withdrawal permissible,
      unless the balance overflows. */
  lemma DepositIsFree(balances: seq<int>, a: Call, b: Call)
    requires a.Deposit? && b.Withdraw? && a.account < |balances| && b.account < |balances|
    requires 0 <= a.amount && 0 <= balances[a.account] && balances[a.account] + a.amount <= INT_MAX
    requires Permissible(balances, b)
    ensures Permissible(Execute(balances, a), b)
  {
  }
}
