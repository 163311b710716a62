module BankRuns {
  // The bank replicated: no overdraft at any replica, though each withdrawal is
  // checked only where it is issued.

  import opened Bank

  /** A withdrawal in the common order, with the deposits its issuer had applied. */
  datatype Ordered = Ordered(account: nat, amount: int, deps: set<nat>)

  datatype Paid = Paid(account: nat, amount: int)

  datatype Replica = Replica(balances: seq<int>, pos: nat, paid: set<nat>)

  datatype System = System(initial: int, accounts: nat, reps: seq<Replica>, order: seq<Ordered>, deposits: seq<Paid>)

  datatype Event =
    | Issue(r: nat, account: nat, amount: int)   // a withdrawal, by the leader of the group
    | ApplyNext(r: nat)
    | Pay(r: nat, account: nat, amount: int)
    | Deliver(r: nat, k: nat)

  predicate Init(s: System) {
    && s.order == [] && s.deposits == [] && 0 <= s.initial <= INT_MAX
    && forall r :: 0 <= r < |s.reps| ==> s.reps[r] == Replica(seq(s.accounts, _ => s.initial), 0, {})
  }

  predicate Shape(s: System) {
    && (forall r :: 0 <= r < |s.reps| ==> |s.reps[r].balances| == s.accounts)
    && (forall i :: 0 <= i < |s.order| ==> s.order[i].account < s.accounts)
    && (forall k :: 0 <= k < |s.deposits| ==> s.deposits[k].account < s.accounts)
  }

  /** Amounts are ints. */
  predicate IsInt(v: int) {
    -0x8000_0000 <= v <= INT_MAX
  }

  predicate Enabled(s: System, ev: Event) {
    Shape(s) && ev.r < |s.reps| &&
    var rep := s.reps[ev.r];
    match ev
    case Issue(r, a, v) => a < s.accounts && IsInt(v) && rep.pos == |s.order|
        && Permissible(rep.balances, Withdraw(a, v))
    case ApplyNext(r) => rep.pos < |s.order| && s.order[rep.pos].deps <= rep.paid
    case Pay(r, a, v) => a < s.accounts && IsInt(v)
    case Deliver(r, k) => k < |s.deposits| && k !in rep.paid
  }

  function Next(s: System, ev: Event): System
    requires Enabled(s, ev)
  {
    var rep := s.reps[ev.r];
    match ev
    case Issue(r, a, v) =>
      s.(order := s.order + [Ordered(a, v, rep.paid)],
         reps := s.reps[r := rep.(balances := Execute(rep.balances, Withdraw(a, v)), pos := rep.pos + 1)])
    case ApplyNext(r) =>
      var o := s.order[rep.pos];
      s.(reps := s.reps[r := rep.(balances := Execute(rep.balances, Withdraw(o.account, o.amount)), pos := rep.pos
          + 1)])
    case Pay(r, a, v) =>
      s.(deposits := s.deposits + [Paid(a, v)],
         reps := s.reps[r := rep.(balances := Execute(rep.balances, Deposit(a, v)), paid := rep.paid + {|s.deposits|})])
    case Deliver(r, k) =>
      var p := s.deposits[k];
      s.(reps := s.reps[r := rep.(balances := Execute(rep.balances, Deposit(p.account, p.amount)),
                                  paid := rep.paid + {k})])
  }

  predicate StepAt(states: seq<System>, events: seq<Event>, i: nat)
    requires i < |events| && i + 1 < |states|
  {
    Enabled(states[i], events[i]) && states[i + 1] == Next(states[i], events[i])
  }

  predicate IsRun(states: seq<System>, events: seq<Event>) {
    && |states| == |events| + 1 && Init(states[0])
    && forall i: nat :: i < |events| ==> StepAt(states, events, i)
  }

  // ---------------------------------------------------------------------
  // Ideal balances
  // ---------------------------------------------------------------------

  /** What the deposits ks bring to an account. */
  function PaidIn(deposits: seq<Paid>, ks: set<nat>, a: nat): int {
    if deposits == [] then 0
    else
      var n := |deposits| - 1;
      PaidIn(deposits[..n], ks, a) + if n in ks && deposits[n].account == a then deposits[n].amount else 0
  }

  /** What the first p withdrawals take from it. */
  function Taken(order: seq<Ordered>, p: nat, a: nat): int
    requires p <= |order|
  {
    if p == 0 then 0
    else Taken(order, p - 1, a) + if order[p - 1].account == a then order[p - 1].amount else 0
  }

  function Ideal(s: System, p: nat, ks: set<nat>, a: nat): int
    requires p <= |s.order|
  {
    s.initial + PaidIn(s.deposits, ks, a) - Taken(s.order, p, a)
  }

  /** All the money that ever came into an account; withdrawing a negative amount
      brings some too. */
  function BroughtBack(order: seq<Ordered>, p: nat, a: nat): int
    requires p <= |order|
  {
    if p == 0 then 0
    else
      BroughtBack(order, p - 1, a)
      + if order[p - 1].account == a && order[p - 1].amount < 0 then -order[p - 1].amount else 0
  }

  function PaidTotal(deposits: seq<Paid>, a: nat): int {
    if deposits == [] then 0
    else
      var n := |deposits| - 1;
      PaidTotal(deposits[..n], a) + if deposits[n].account == a then deposits[n].amount else 0
  }

  function Money(s: System, a: nat): int {
    s.initial + PaidTotal(s.deposits, a) + BroughtBack(s.order, |s.order|, a)
  }

  /** What the callers have to see to: no deposit is negative, and no account ever
      gets more money than an int holds. */
  predicate Sound(s: System) {
    && (forall k :: 0 <= k < |s.deposits| ==> s.deposits[k].amount >= 0)
    && (forall a: nat :: a < s.accounts ==> Money(s, a) <= INT_MAX)
  }

  lemma {:induction false} PaidInFewer(deposits: seq<Paid>, ks: set<nat>, ls: set<nat>, a: nat)
    requires forall k :: 0 <= k < |deposits| ==> deposits[k].amount >= 0
    requires forall k: nat :: k < |deposits| && k in ks ==> k in ls
    ensures PaidIn(deposits, ks, a) <= PaidIn(deposits, ls, a)
  {
    if deposits != [] {
      PaidInFewer(deposits[..|deposits| - 1], ks, ls, a);
    }
  }

  lemma {:induction false} PaidInBounded(deposits: seq<Paid>, ks: set<nat>, a: nat)
    requires forall k :: 0 <= k < |deposits| ==> deposits[k].amount >= 0
    ensures 0 <= PaidIn(deposits, ks, a) <= PaidTotal(deposits, a)
  {
    if deposits != [] {
      PaidInBounded(deposits[..|deposits| - 1], ks, a);
    }
  }

  lemma {:induction false} PaidInSame(deposits: seq<Paid>, ks: set<nat>, ls: set<nat>, a: nat)
    requires forall k: nat :: k < |deposits| ==> (k in ks <==> k in ls)
    ensures PaidIn(deposits, ks, a) == PaidIn(deposits, ls, a)
  {
    if deposits != [] {
      PaidInSame(deposits[..|deposits| - 1], ks, ls, a);
    }
  }

  lemma {:induction false} PaidInOne(deposits: seq<Paid>, ks: set<nat>, k: nat, a: nat)
    requires k < |deposits| && k !in ks
    ensures PaidIn(deposits, ks + {k}, a)
         == PaidIn(deposits, ks, a) + if deposits[k].account == a then deposits[k].amount else 0
  {
    var n := |deposits| - 1;
    if k < n {
      PaidInOne(deposits[..n], ks, k, a);
    } else {
      PaidInSame(deposits[..n], ks + {k}, ks, a);
    }
  }

  lemma PaidInMore(deposits: seq<Paid>, p: Paid, ks: set<nat>, a: nat)
    requires forall k :: k in ks ==> k < |deposits|
    ensures PaidIn(deposits + [p], ks, a) == PaidIn(deposits, ks, a)
    ensures PaidIn(deposits + [p], ks + {|deposits|}, a) == PaidIn(deposits, ks, a) + if p.account
        == a then p.amount else 0
  {
    assert (deposits + [p])[..|deposits|] == deposits;
    PaidInSame(deposits, ks + {|deposits|}, ks, a);
  }

  lemma {:induction false} TakenSame(order: seq<Ordered>, o: Ordered, p: nat, a: nat)
    requires p <= |order|
    ensures Taken(order + [o], p, a) == Taken(order, p, a)
    ensures BroughtBack(order + [o], p, a) == BroughtBack(order, p, a)
  {
    if p > 0 {
      TakenSame(order, o, p - 1, a);
      assert (order + [o])[p - 1] == order[p - 1];
    }
  }

  lemma {:induction false} TakenBounded(order: seq<Ordered>, p: nat, a: nat)
    requires p <= |order|
    ensures -Taken(order, p, a) <= BroughtBack(order, p, a) <= BroughtBack(order, |order|, a)
    decreases |order| - p, p
  {
    BroughtBackGrows(order, p, |order|, a);
    TakenBelow(order, p, a);
  }

  lemma {:induction false} TakenBelow(order: seq<Ordered>, p: nat, a: nat)
    requires p <= |order|
    ensures -Taken(order, p, a) <= BroughtBack(order, p, a)
  {
    if p > 0 {
      TakenBelow(order, p - 1, a);
    }
  }

  lemma {:induction false} BroughtBackGrows(order: seq<Ordered>, p: nat, q: nat, a: nat)
    requires p <= q <= |order|
    ensures BroughtBack(order, p, a) <= BroughtBack(order, q, a)
  {
    if p < q {
      BroughtBackGrows(order, p, q - 1, a);
    }
  }

  // ---------------------------------------------------------------------
  // Invariant
  // ---------------------------------------------------------------------

  /** Each withdrawal fitted the balance its issuer held, who had applied all the
      withdrawals before it and so all the deposits those depend on. */
  ghost predicate OrderedOk(s: System, i: nat)
    requires i < |s.order|
  {
    var o := s.order[i];
    && o.amount <= Wrap(Ideal(s, i, o.deps, o.account))
    && (forall k :: k in o.deps ==> k < |s.deposits|)
    && (forall l :: 0 <= l < i ==> s.order[l].deps <= o.deps)
  }

  ghost predicate ReplicaOk(s: System, r: nat)
    requires r < |s.reps|
  {
    var rep := s.reps[r];
    && rep.pos <= |s.order| && |rep.balances| == s.accounts
    && (forall k :: k in rep.paid ==> k < |s.deposits|)
    && (forall l :: 0 <= l < rep.pos ==> s.order[l].deps <= rep.paid)
    && (forall a: nat :: a < s.accounts ==> rep.balances[a] == Wrap(Ideal(s, rep.pos, rep.paid, a)))
  }

  ghost predicate Inv(s: System) {
    && Shape(s) && 0 <= s.initial
    && (forall i: nat :: i < |s.order| ==> OrderedOk(s, i))
    && (forall r: nat :: r < |s.reps| ==> ReplicaOk(s, r))
  }

  lemma IssueKeepsInv(s: System, ev: Event)
    requires Inv(s) && Enabled(s, ev) && ev.Issue?
    ensures Inv(Next(s, ev))
  {
    hide Wrap, PaidIn;
    var rep, s', n := s.reps[ev.r], Next(s, ev), |s.order|;
    var o := Ordered(ev.account, ev.amount, rep.paid);
    assert ReplicaOk(s, ev.r);
    forall i: nat | i < |s'.order|
      ensures OrderedOk(s', i)
    {
      TakenSame(s.order, o, i, s'.order[i].account);
      if i < n {
        assert OrderedOk(s, i);
      }
    }
    forall q: nat | q < |s'.reps|
      ensures ReplicaOk(s', q)
    {
      assert ReplicaOk(s, q);
      forall a: nat | a < s.accounts
        ensures s'.reps[q].balances[a] == Wrap(Ideal(s', s'.reps[q].pos, s'.reps[q].paid, a))
      {
        TakenSame(s.order, o, s.reps[q].pos, a);
        if q == ev.r && a == ev.account {
          WrapAdds(Ideal(s, n, rep.paid, a), -ev.amount);
        }
      }
    }
  }

  lemma ApplyKeepsInv(s: System, r: nat)
    requires Inv(s) && Enabled(s, ApplyNext(r))
    ensures Inv(Next(s, ApplyNext(r)))
  {
    hide Wrap, PaidIn;
    var rep, s' := s.reps[r], Next(s, ApplyNext(r));
    var o := s.order[rep.pos];
    assert ReplicaOk(s, r);
    forall i: nat | i < |s'.order|
      ensures OrderedOk(s', i)
    {
      assert OrderedOk(s, i);
    }
    forall q: nat | q < |s'.reps|
      ensures ReplicaOk(s', q)
    {
      assert ReplicaOk(s, q);
      if q == r {
        WrapAdds(Ideal(s, rep.pos, rep.paid, o.account), -o.amount);
      }
    }
  }

  lemma DepositKeepsInv(s: System, ev: Event)
    requires Inv(s) && Enabled(s, ev) && (ev.Pay? || ev.Deliver?)
    ensures Inv(Next(s, ev))
  {
    hide Wrap, PaidIn;
    var rep, s' := s.reps[ev.r], Next(s, ev);
    var k := if ev.Pay? then |s.deposits| else ev.k;
    var p := if ev.Pay? then Paid(ev.account, ev.amount) else s.deposits[k];
    forall i: nat | i < |s'.order|
      ensures OrderedOk(s', i)
    {
      assert OrderedOk(s, i);
      PaidInMore(s.deposits, p, s.order[i].deps, s.order[i].account);
    }
    forall q: nat | q < |s'.reps|
      ensures ReplicaOk(s', q)
    {
      assert ReplicaOk(s, q);
      forall a: nat | a < s.accounts
        ensures s'.reps[q].balances[a] == Wrap(Ideal(s', s'.reps[q].pos, s'.reps[q].paid, a))
      {
        PaidInMore(s.deposits, p, s.reps[q].paid, a);
        if q == ev.r {
          if ev.Deliver? {
            PaidInOne(s.deposits, rep.paid, k, a);
          }
          WrapAdds(Ideal(s, rep.pos, rep.paid, a), p.amount);
        }
      }
    }
  }

  lemma {:induction false} RunInv(states: seq<System>, events: seq<Event>, i: nat)
    requires IsRun(states, events) && i <= |events|
    ensures Inv(states[i])
  {
    if i > 0 {
      RunInv(states, events, i - 1);
      assert StepAt(states, events, i - 1);
      match events[i - 1]
      case Issue(r, a, v) => IssueKeepsInv(states[i - 1], events[i - 1]);
      case ApplyNext(r) => ApplyKeepsInv(states[i - 1], r);
      case _ => DepositKeepsInv(states[i - 1], events[i - 1]);
    }
  }

  // ---------------------------------------------------------------------
  // No overdraft
  // ---------------------------------------------------------------------

  /** The first p withdrawals, together with any deposits that include those they
      depend on, leave no account below zero, nor above what an int holds. */
  lemma {:induction false} IdealInRange(s: System, p: nat, ks: set<nat>, a: nat)
    requires Inv(s) && Sound(s) && p <= |s.order| && a < s.accounts
    requires forall l :: 0 <= l < p ==> s.order[l].deps <= ks
    ensures 0 <= Ideal(s, p, ks, a) <= INT_MAX
  {
    hide Wrap;
    assert Money(s, a) <= INT_MAX;
    PaidInBounded(s.deposits, ks, a);
    TakenBounded(s.order, p, a);
    if p > 0 {
      var o := s.order[p - 1];
      assert OrderedOk(s, p - 1);
      IdealInRange(s, p - 1, ks, a);
      if o.account == a {
        IdealInRange(s, p - 1, o.deps, a);
        PaidInFewer(s.deposits, o.deps, ks, a);
        assert Wrap(Ideal(s, p - 1, o.deps, a)) == Ideal(s, p - 1, o.deps, a);
      }
    }
  }

  /** No account is overdrawn at any replica at any moment, whatever further
      deposits have or have not arrived there. */
  lemma NoOverdraft(states: seq<System>, events: seq<Event>, i: nat, r: nat, a: nat)
    requires IsRun(states, events) && i <= |events| && r < |states[i].reps| && a < states[i].accounts
    requires Sound(states[i])
    ensures a < |states[i].reps[r].balances| && states[i].reps[r].balances[a] >= 0
  {
    RunInv(states, events, i);
    assert ReplicaOk(states[i], r);
    IdealInRange(states[i], states[i].reps[r].pos, states[i].reps[r].paid, a);
  }

  /** Replicas that applied the same calls hold the same balances, even when sums
      overflow. */
  lemma SameCallsSameBalances(states: seq<System>, events: seq<Event>, i: nat, q: nat, r: nat)
    requires IsRun(states, events) && i <= |events|
    requires q < |states[i].reps| && r < |states[i].reps|
    requires states[i].reps[q].pos == states[i].reps[r].pos && states[i].reps[q].paid == states[i].reps[r].paid
    ensures states[i].reps[q].balances == states[i].reps[r].balances
  {
    RunInv(states, events, i);
    assert ReplicaOk(states[i], q) && ReplicaOk(states[i], r);
  }

  /** Deposits are never refused, so a deposit keeps an account from overdraft if
      and only if it does not take more than is there, nor overflow it. */
  lemma DepositOverdraws(balances: seq<int>, a: nat, v: int)
    requires a < |balances| && 0 <= balances[a] <= INT_MAX && IsInt(v)
    ensures Permissible(balances, Deposit(a, v))
    ensures Execute(balances, Deposit(a, v))[a] >= 0 <==> 0 <= balances[a] + v <= INT_MAX
  {
  }

  // ---------------------------------------------------------------------
  // Exactly which calls are safe
  // ---------------------------------------------------------------------

  /** What the callers plan: deposits, in this order, and for each account how much
      money negative withdrawals may bring back. */
  datatype Plan = Plan(deposits: seq<Paid>, back: seq<nat>)

  /** So far the callers have kept to the plan. */
  predicate Follows(s: System, plan: Plan) {
    && s.deposits <= plan.deposits && |plan.back| == s.accounts
    && forall a: nat :: a < s.accounts ==> BroughtBack(s.order, |s.order|, a) <= plan.back[a]
  }

  predicate Overdrawn(s: System) {
    exists r, a :: 0 <= r < |s.reps| && 0 <= a < |s.reps[r].balances| && s.reps[r].balances[a] < 0
  }

  predicate StartsWith(s: System, initial: int, accounts: nat) {
    s.initial == initial && s.accounts == accounts
  }

  /** However many replicas there are, whatever is withdrawn where it is permissible,
      and wherever calls have or have not arrived: no account is overdrawn. */
  ghost predicate SafePlan(initial: int, accounts: nat, plan: Plan) {
    forall states: seq<System>, events: seq<Event> ::
      IsRun(states, events) && StartsWith(states[0], initial, accounts) && Follows(states[|events|], plan)
      ==> !Overdrawn(states[|events|])
  }

  /** No deposit is negative, and all of them together fit. */
  predicate DepositsFit(initial: int, accounts: nat, ds: seq<Paid>) {
    && (forall k :: 0 <= k < |ds| ==> ds[k].amount >= 0)
    && (forall a: nat :: a < accounts ==> initial + PaidTotal(ds, a) <= INT_MAX)
  }

  /** Nor do they with what may be brought back. */
  predicate PlanFits(initial: int, accounts: nat, plan: Plan)
    requires |plan.back| == accounts
  {
    && DepositsFit(initial, accounts, plan.deposits)
    && forall a: nat :: a < accounts ==> initial + PaidTotal(plan.deposits, a) + plan.back[a] <= INT_MAX
  }

  predicate AreDeposits(accounts: nat, ds: seq<Paid>) {
    forall k :: 0 <= k < |ds| ==> ds[k].account < accounts && IsInt(ds[k].amount)
  }

  lemma {:induction false} SumsStay(states: seq<System>, events: seq<Event>, i: nat)
    requires IsRun(states, events) && i <= |events|
    ensures states[i].initial == states[0].initial && states[i].accounts == states[0].accounts
  {
    if i > 0 {
      SumsStay(states, events, i - 1);
      assert StepAt(states, events, i - 1);
    }
  }

  lemma {:induction false} PaidTotalGrows(ds: seq<Paid>, plan: seq<Paid>, a: nat)
    requires ds <= plan && forall k :: 0 <= k < |plan| ==> plan[k].amount >= 0
    ensures PaidTotal(ds, a) <= PaidTotal(plan, a)
    decreases |plan|
  {
    if |ds| < |plan| {
      PaidTotalGrows(ds, plan[..|plan| - 1], a);
    } else {
      assert ds == plan;
    }
  }

  lemma FittingPlanIsSound(s: System, plan: Plan)
    requires Follows(s, plan) && PlanFits(s.initial, s.accounts, plan)
    ensures Sound(s)
  {
    forall a: nat | a < s.accounts ensures Money(s, a) <= INT_MAX {
      PaidTotalGrows(s.deposits, plan.deposits, a);
    }
    assert forall k :: 0 <= k < |s.deposits| ==> s.deposits[k] == plan.deposits[k];
  }

  lemma FittingPlanIsSafe(initial: int, accounts: nat, plan: Plan)
    requires |plan.back| == accounts && PlanFits(initial, accounts, plan)
    ensures SafePlan(initial, accounts, plan)
  {
    forall states: seq<System>, events: seq<Event> |
      IsRun(states, events) && StartsWith(states[0], initial, accounts) && Follows(states[|events|], plan)
      ensures !Overdrawn(states[|events|])
    {
      var s := states[|events|];
      SumsStay(states, events, |events|);
      FittingPlanIsSound(s, plan);
      RunInv(states, events, |events|);
      forall r: nat, a: nat | r < |s.reps| && a < |s.reps[r].balances| ensures s.reps[r].balances[a] >= 0 {
        assert ReplicaOk(s, r);
        NoOverdraft(states, events, |events|, r, a);
      }
    }
  }

  // ---------------------------------------------------------------------
  // A plan that does not fit: a run of one replica that overdraws
  // ---------------------------------------------------------------------

  /** One replica has made these deposits and holds their sums. */
  ghost predicate PaidUp(s: System, initial: int, accounts: nat, ds: seq<Paid>) {
    && Shape(s) && StartsWith(s, initial, accounts) && |s.reps| == 1 && s.reps[0].pos == |s.order|
    && s.deposits == ds && s.order == []
    && forall a: nat :: a < accounts ==> s.reps[0].balances[a] == initial + PaidTotal(ds, a)
  }

  lemma OneMoreStep(states: seq<System>, events: seq<Event>, ev: Event)
    requires IsRun(states, events) && Enabled(states[|events|], ev)
    ensures IsRun(states + [Next(states[|events|], ev)], events + [ev])
  {
    var states', events' := states + [Next(states[|events|], ev)], events + [ev];
    forall i: nat | i < |events'| ensures StepAt(states', events', i) {
      if i < |events| { assert StepAt(states, events, i); }
    }
  }

  lemma {:induction false} FitsBefore(initial: int, accounts: nat, plan: seq<Paid>, k: nat)
    requires k <= |plan| && DepositsFit(initial, accounts, plan)
    ensures DepositsFit(initial, accounts, plan[..k])
  {
    forall a: nat | a < accounts ensures initial + PaidTotal(plan[..k], a) <= INT_MAX {
      PaidTotalGrows(plan[..k], plan, a);
    }
  }

  lemma PaidTotalAdds(ds: seq<Paid>, p: Paid, a: nat)
    ensures PaidTotal(ds + [p], a) == PaidTotal(ds, a) + if p.account == a then p.amount else 0
  {
    assert (ds + [p])[..|ds|] == ds;
  }

  lemma {:induction false} PaidTotalNonnegative(ds: seq<Paid>, a: nat)
    requires forall k :: 0 <= k < |ds| ==> ds[k].amount >= 0
    ensures PaidTotal(ds, a) >= 0
  {
    if ds != [] { PaidTotalNonnegative(ds[..|ds| - 1], a); }
  }

  /** As long as the deposits fit they can be made one after the other. */
  lemma {:induction false} PaysUp(initial: int, accounts: nat, ds: seq<Paid>)
      returns (states: seq<System>, events: seq<Event>)
    requires 0 <= initial <= INT_MAX && AreDeposits(accounts, ds) && DepositsFit(initial, accounts, ds)
    ensures IsRun(states, events) && StartsWith(states[0], initial, accounts)
        && PaidUp(states[|events|], initial, accounts, ds)
    decreases |ds|
  {
    if ds == [] {
      var s := System(initial, accounts, [Replica(seq(accounts, _ => initial), 0, {})], [], []);
      assert s.reps[0] == Replica(seq(s.accounts, _ => s.initial), 0, {});
      states, events := [s], [];
    } else {
      var n := |ds| - 1;
      assert ds == ds[..n] + [ds[n]];
      FitsBefore(initial, accounts, ds, n);
      states, events := PaysUp(initial, accounts, ds[..n]);
      var s, ev := states[|events|], Pay(0, ds[n].account, ds[n].amount);
      OneMoreStep(states, events, ev);
      PaysOn(s, initial, accounts, ds[..n], ds[n]);
      states, events := states + [Next(s, ev)], events + [ev];
    }
  }

  lemma PaysOn(s: System, initial: int, accounts: nat, ds: seq<Paid>, p: Paid)
    requires PaidUp(s, initial, accounts, ds) && AreDeposits(accounts, ds + [p])
        && DepositsFit(initial, accounts, ds + [p])
    requires 0 <= initial && p.account < accounts && IsInt(p.amount)
    ensures Enabled(s, Pay(0, p.account, p.amount))
        && PaidUp(Next(s, Pay(0, p.account, p.amount)), initial, accounts, ds + [p])
  {
    var s' := Next(s, Pay(0, p.account, p.amount));
    forall a: nat | a < accounts ensures s'.reps[0].balances[a] == initial + PaidTotal(ds + [p], a) {
      PaidTotalAdds(ds, p, a);
      PaidTotalNonnegative(ds + [p], a);
      assert initial + PaidTotal(ds + [p], a) <= INT_MAX;
    }
  }

  /** The next deposit is negative, and the account is emptied before it; or it takes
      the balance past what an int holds. */
  lemma Overdraws(s: System, initial: int, accounts: nat, ds: seq<Paid>, p: Paid)
      returns (more: seq<Event>, s': System, s'': System)
    requires 0 <= initial <= INT_MAX && PaidUp(s, initial, accounts, ds) && DepositsFit(initial, accounts, ds)
    requires p.account < accounts && IsInt(p.amount)
    requires p.amount < 0 || initial + PaidTotal(ds + [p], p.account) > INT_MAX
    ensures |more| == 2 && Enabled(s, more[0]) && s' == Next(s, more[0]) && Enabled(s', more[1])
        && s'' == Next(s', more[1])
    ensures s''.deposits == ds + [p] && s''.accounts == accounts && Overdrawn(s'')
    ensures forall b: nat :: BroughtBack(s''.order, |s''.order|, b) == 0
  {
    var a := p.account;
    PaidTotalAdds(ds, p, a);
    PaidTotalNonnegative(ds, a);
    var amount := if p.amount < 0 then s.reps[0].balances[a] else 0;
    assert initial + PaidTotal(ds, a) <= INT_MAX;
    more := [Issue(0, a, amount), Pay(0, a, p.amount)];
    s' := Next(s, more[0]);
    s'' := Next(s', more[1]);
    assert s''.reps[0].balances[a] < 0;
    forall b: nat ensures BroughtBack(s''.order, |s''.order|, b) == 0 {
      assert BroughtBack(s''.order, 0, b) == 0;
    }
  }

  /** The first deposit at which a plan stops fitting. */
  lemma {:induction false} FirstBad(initial: int, accounts: nat, plan: seq<Paid>) returns (k: nat)
    requires 0 <= initial <= INT_MAX && AreDeposits(accounts, plan) && !DepositsFit(initial, accounts, plan)
    ensures k < |plan| && DepositsFit(initial, accounts, plan[..k])
    ensures plan[k].amount < 0 || initial + PaidTotal(plan[..k] + [plan[k]], plan[k].account) > INT_MAX
    decreases |plan|
  {
    var n := |plan| - 1;
    assert plan != [];
    assert plan == plan[..n] + [plan[n]];
    if DepositsFit(initial, accounts, plan[..n]) {
      k := n;
      if plan[n].amount >= 0 {
        var a: nat :| a < accounts && initial + PaidTotal(plan, a) > INT_MAX;
        PaidTotalAdds(plan[..n], plan[n], a);
      }
    } else {
      k := FirstBad(initial, accounts, plan[..n]);
      assert plan[..n][..k] == plan[..k];
    }
  }

  /** Followed by a step that overdraws, a run that keeps to the plan is unsafe. */
  lemma NotSafe(initial: int, accounts: nat, plan: Plan, states: seq<System>, events: seq<Event>)
    requires IsRun(states, events) && StartsWith(states[0], initial, accounts)
    requires Follows(states[|events|], plan) && Overdrawn(states[|events|])
    ensures !SafePlan(initial, accounts, plan)
  {}

  /** The deposits alone do not fit. */
  lemma DepositsOverdraw(initial: int, accounts: nat, plan: Plan)
    requires 0 <= initial <= INT_MAX && AreDeposits(accounts, plan.deposits) && |plan.back| == accounts
    requires !DepositsFit(initial, accounts, plan.deposits)
    ensures !SafePlan(initial, accounts, plan)
  {
    var ds := plan.deposits;
    var k := FirstBad(initial, accounts, ds);
    var states, events := PaysUp(initial, accounts, ds[..k]);
    var more, s', s'' := Overdraws(states[|events|], initial, accounts, ds[..k], ds[k]);
    OneMoreStep(states, events, more[0]);
    OneMoreStep(states + [s'], events + [more[0]], more[1]);
    assert ds[..k] + [ds[k]] == ds[..k + 1];
    NotSafe(initial, accounts, plan, states + [s'] + [s''], events + [more[0]] + [more[1]]);
  }

  /** They fit, but not with what may be brought back: after all of them one negative
      withdrawal takes an account past what an int holds. */
  lemma BringingBackOverdraws(initial: int, accounts: nat, plan: Plan, a: nat)
    requires 0 <= initial <= INT_MAX && AreDeposits(accounts, plan.deposits) && |plan.back| == accounts
    requires DepositsFit(initial, accounts, plan.deposits)
    requires a < accounts && initial + PaidTotal(plan.deposits, a) + plan.back[a] > INT_MAX
    ensures !SafePlan(initial, accounts, plan)
  {
    var states, events := PaysUp(initial, accounts, plan.deposits);
    var s := states[|events|];
    var balance := s.reps[0].balances[a];
    PaidTotalNonnegative(plan.deposits, a);
    assert balance == initial + PaidTotal(plan.deposits, a) <= INT_MAX;
    var ev := Issue(0, a, balance - INT_MAX - 1);
    OneMoreStep(states, events, ev);
    var s' := Next(s, ev);
    forall b: nat | b < accounts ensures BroughtBack(s'.order, |s'.order|, b) <= plan.back[b] {
      assert BroughtBack(s'.order, 0, b) == 0;
    }
    assert s'.reps[0].balances[a] < 0;
    NotSafe(initial, accounts, plan, states + [s'], events + [ev]);
  }

  /** EXACTLY THE SAFE PLANS.  No run that keeps to a plan, or to the first few of its
      deposits, overdraws an account, if and only if no deposit is negative and all
      the money the plan brings in fits. */
  lemma SafePlanIff(initial: int, accounts: nat, plan: Plan)
    requires 0 <= initial <= INT_MAX && AreDeposits(accounts, plan.deposits) && |plan.back| == accounts
    ensures SafePlan(initial, accounts, plan) <==> PlanFits(initial, accounts, plan)
  {
    if PlanFits(initial, accounts, plan) {
      FittingPlanIsSafe(initial, accounts, plan);
    } else if !DepositsFit(initial, accounts, plan.deposits) {
      DepositsOverdraw(initial, accounts, plan);
    } else {
      var a: nat :| a < accounts && initial + PaidTotal(plan.deposits, a) + plan.back[a] > INT_MAX;
      BringingBackOverdraws(initial, accounts, plan, a);
    }
  }

  // ---------------------------------------------------------------------
  // Nothing stands in the way of agreement
  // ---------------------------------------------------------------------

  /** The run goes on by what is under way alone. */
  predicate GoesOnTo(states: seq<System>, events: seq<Event>, states': seq<System>, events': seq<Event>) {
    && IsRun(states, events) && IsRun(states', events') && states <= states' && events <= events'
    && forall i :: |events| <= i < |events'| ==> events'[i].Deliver? || events'[i].ApplyNext?
  }

  lemma GoesOneOn(states: seq<System>, events: seq<Event>, states1: seq<System>, events1: seq<Event>, ev: Event)
    requires GoesOnTo(states, events, states1, events1) && Enabled(states1[|events1|], ev)
    requires ev.Deliver? || ev.ApplyNext?
    ensures GoesOnTo(states, events, states1 + [Next(states1[|events1|], ev)], events1 + [ev])
  {
    OneMoreStep(states1, events1, ev);
  }

  lemma GoesOnJoin(x: seq<System>, e: seq<Event>, x1: seq<System>, e1: seq<Event>, x2: seq<System>, e2: seq<Event>)
    requires GoesOnTo(x, e, x1, e1) && GoesOnTo(x1, e1, x2, e2)
    ensures GoesOnTo(x, e, x2, e2)
  {
    hide IsRun;
  }

  /** Nothing new is issued, and only replica r moves. */
  predicate OnlyMoves(s: System, s': System, r: nat) {
    && s'.order == s.order && s'.deposits == s.deposits && |s'.reps| == |s.reps|
    && forall q :: 0 <= q < |s.reps| && q != r ==> s'.reps[q] == s.reps[q]
  }

  lemma ShapeThere(s: System)
    requires Inv(s)
    ensures Shape(s)
  {}

  /** Replica r receives the first n deposits. */
  lemma {:induction false} ReceivesUpTo(states: seq<System>, events: seq<Event>, r: nat, n: nat)
    returns (states': seq<System>, events': seq<Event>)
    requires IsRun(states, events) && r < |states[|events|].reps| && n <= |states[|events|].deposits|
    ensures GoesOnTo(states, events, states', events') && OnlyMoves(states[|events|], states'[|events'|], r)
    ensures forall k :: 0 <= k < n ==> k in states'[|events'|].reps[r].paid
  {
    if n == 0 {
      states', events' := states, events;
    } else {
      var states1, events1 := ReceivesUpTo(states, events, r, n - 1);
      var s1 := states1[|events1|];
      RunInv(states1, events1, |events1|);
      hide Inv, Execute, Permissible;
      if n - 1 in s1.reps[r].paid {
        states', events' := states1, events1;
      } else {
        var ev := Deliver(r, n - 1);
        assert Enabled(s1, ev) by { ShapeThere(s1); }
        GoesOneOn(states, events, states1, events1, ev);
        states', events' := states1 + [Next(s1, ev)], events1 + [ev];
      }
    }
  }

  /** Once it has received everything it can apply the whole common order. */
  lemma {:induction false} AppliesOrder(states: seq<System>, events: seq<Event>, r: nat)
    returns (states': seq<System>, events': seq<Event>)
    requires IsRun(states, events) && r < |states[|events|].reps|
    requires forall k :: 0 <= k < |states[|events|].deposits| ==> k in states[|events|].reps[r].paid
    ensures GoesOnTo(states, events, states', events') && OnlyMoves(states[|events|], states'[|events'|], r)
    ensures states'[|events'|].reps[r].paid == states[|events|].reps[r].paid
    ensures states'[|events'|].reps[r].pos == |states[|events|].order|
    decreases |states[|events|].order| - states[|events|].reps[r].pos
  {
    var s := states[|events|];
    RunInv(states, events, |events|);
    assert ReplicaOk(s, r);
    if s.reps[r].pos == |s.order| {
      states', events' := states, events;
    } else {
      var ev := ApplyNext(r);
      assert OrderedOk(s, s.reps[r].pos);
      assert Enabled(s, ev);
      hide Inv, Execute, Permissible, ReplicaOk, OrderedOk;
      GoesOneOn(states, events, states, events, ev);
      var states1, events1 := states + [Next(s, ev)], events + [ev];
      states', events' := AppliesOrder(states1, events1, r);
      GoesOnJoin(states, events, states1, events1, states', events');
    }
  }

  /** Replica r has received and applied everything. */
  predicate UpToDate(s: System, r: nat)
    requires r < |s.reps|
  {
    s.reps[r].pos == |s.order| && forall k :: 0 <= k < |s.deposits| ==> k in s.reps[r].paid
  }

  /** The first m replicas catch up. */
  lemma {:induction false} AllCatchUp(states: seq<System>, events: seq<Event>, m: nat)
    returns (states': seq<System>, events': seq<Event>)
    requires IsRun(states, events) && m <= |states[|events|].reps|
    ensures GoesOnTo(states, events, states', events')
    ensures var s, s' := states[|events|], states'[|events'|];
            && s'.order == s.order && s'.deposits == s.deposits && |s'.reps| == |s.reps|
            && forall r :: 0 <= r < m ==> UpToDate(s', r)
  {
    if m == 0 {
      states', events' := states, events;
    } else {
      hide IsRun;
      var states1, events1 := AllCatchUp(states, events, m - 1);
      assert IsRun(states1, events1);
      var states2, events2 := ReceivesUpTo(states1, events1, m - 1, |states[|events|].deposits|);
      GoesOnJoin(states, events, states1, events1, states2, events2);
      states', events' := AppliesOrder(states2, events2, m - 1);
      GoesOnJoin(states, events, states2, events2, states', events');
      var s1, s' := states1[|events1|], states'[|events'|];
      forall r | 0 <= r < m ensures UpToDate(s', r) {
        if r < m - 1 {
          assert UpToDate(s1, r) && s'.reps[r] == s1.reps[r];
        }
      }
    }
  }

  /** AGREEMENT IS ALWAYS POSSIBLE.  Every run can go on, by what is under way alone, until
      all replicas have applied everything, and then they hold the same balances. */
  lemma CanAgree(states: seq<System>, events: seq<Event>) returns (states': seq<System>, events': seq<Event>)
    requires IsRun(states, events)
    ensures GoesOnTo(states, events, states', events')
    ensures var s, s' := states[|events|], states'[|events'|];
            && s'.order == s.order && s'.deposits == s.deposits && |s'.reps| == |s.reps|
            && (forall r :: 0 <= r < |s'.reps| ==> UpToDate(s', r))
            && (forall q, r :: 0 <= q < |s'.reps| && 0 <= r < |s'.reps| ==> s'.reps[q].balances == s'.reps[r].balances)
  {
    states', events' := AllCatchUp(states, events, |states[|events|].reps|);
    var s' := states'[|events'|];
    RunInv(states', events', |events'|);
    forall q, r | 0 <= q < |s'.reps| && 0 <= r < |s'.reps| ensures s'.reps[q].balances == s'.reps[r].balances {
      assert ReplicaOk(s', q) && ReplicaOk(s', r) && UpToDate(s', q) && UpToDate(s', r);
      assert s'.reps[q].paid == s'.reps[r].paid;
      SameCallsSameBalances(states', events', |events'|, q, r);
    }
  }

  // ---------------------------------------------------------------------
  // A call takes effect everywhere
  // ---------------------------------------------------------------------

  /** The run goes on by this event, and then by what is under way. */
  predicate GoesOnBy(states: seq<System>, events: seq<Event>, ev: Event, states': seq<System>, events': seq<Event>) {
    && IsRun(states, events) && Enabled(states[|events|], ev)
    && GoesOnTo(states + [Next(states[|events|], ev)], events + [ev], states', events')
  }

  /** What the replicas hold depends on nothing but what they have applied. */
  lemma SameApplied(s: System, s': System, r: nat, q: nat)
    requires Inv(s) && Inv(s') && s'.order == s.order && s'.deposits == s.deposits
    requires s'.initial == s.initial && s'.accounts == s.accounts
    requires r < |s.reps| && q < |s'.reps| && UpToDate(s, r) && UpToDate(s', q)
    ensures s'.reps[q].balances == s.reps[r].balances
  {
    assert ReplicaOk(s, r) && ReplicaOk(s', q);
    assert s'.reps[q].paid == s.reps[r].paid;
  }

  /** A CALL TAKES EFFECT EVERYWHERE.  Where all replicas are up to date, any of them can
      take any deposit, and any withdrawal that leaves the account nonnegative, and
      then, by what is under way alone, all come to hold what that call makes of the
      balances they held. */
  lemma CallTakesEffect(states: seq<System>, events: seq<Event>, r: nat, call: Call)
    returns (ev: Event, states': seq<System>, events': seq<Event>)
    requires IsRun(states, events) && r < |states[|events|].reps| && !call.Query?
    requires forall q :: 0 <= q < |states[|events|].reps| ==> UpToDate(states[|events|], q)
    requires call.account < states[|events|].accounts && call.account < |states[|events|].reps[r].balances|
    requires IsInt(call.amount)
    requires call.Withdraw? ==> states[|events|].reps[r].balances[call.account] - call.amount >= 0
    ensures ev.r == r && GoesOnBy(states, events, ev, states', events')
    ensures var s, s' := states[|events|], states'[|events'|];
            && |s'.reps| == |s.reps|
            && forall q :: 0 <= q < |s'.reps| ==> s'.reps[q].balances == Execute(s.reps[r].balances, call)
  {
    var s := states[|events|];
    RunInv(states, events, |events|);
    assert ReplicaOk(s, r) && UpToDate(s, r);
    PermissibleIff(s.reps[r].balances, call);
    ev := if call.Deposit? then Pay(r, call.account, call.amount) else Issue(r, call.account, call.amount);
    assert Enabled(s, ev) by { ShapeThere(s); }
    hide Inv, Permissible, Execute;
    OneMoreStep(states, events, ev);
    var s1 := Next(s, ev);
    states', events' := CanAgree(states + [s1], events + [ev]);
    var s' := states'[|events'|];
    RunInv(states + [s1], events + [ev], |events| + 1);
    RunInv(states', events', |events'|);
    SumsStay(states', events', |events| + 1);
    SumsStay(states', events', |events'|);
    assert UpToDate(s1, r);
    forall q | 0 <= q < |s'.reps| ensures s'.reps[q].balances == s1.reps[r].balances {
      SameApplied(s1, s', r, q);
    }
  }
}
