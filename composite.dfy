/** The account hierarchy: individual accounts (leaves holding a balance)
    and account groups (composites whose balance is the sum of their
    children's balances, recursively). */
module Composite {

  /** A child of a group or a top-level account of a user: either kind of component. */
  datatype Component = Single(account: IndividualAccount) | Group(group: AccountGroup)

  function Name(c: Component): string
  {
    match c
    case Single(a) => a.name
    case Group(g) => g.name
  }

  class IndividualAccount {
    const name: string
    var balance: real
    const accountType: string

    constructor (name: string, initialBalance: real, accountType: string)
      ensures this.name == name && balance == initialBalance && this.accountType == accountType
    {
      this.name := name;
      balance := initialBalance;
      this.accountType := accountType;
    }

    method Deposit(amount: real)
      modifies this`balance
      ensures balance == old(balance) + amount
    {
      balance := balance + amount;
    }

    /** Withdraws only when the balance covers the amount. */
    method Withdraw(amount: real) returns (ok: bool)
      modifies this`balance
      ensures ok <==> amount <= old(balance)
      ensures balance == if ok then old(balance) - amount else old(balance)
    {
      if amount <= balance {
        balance := balance - amount;
        ok := true;
      } else {
        ok := false;
      }
    }
  }

  /** `c` is well formed inside a group whose proper descendants are `bound` and whose accounts are `leaves`. */
  ghost predicate ComponentValid(c: Component, bound: set<AccountGroup>, leaves: set<IndividualAccount>)
    reads bound
    decreases bound, 2, 0
  {
    match c
    case Single(a) => a in leaves
    case Group(g) => g in bound && g.Groups <= bound && g.Leaves <= leaves && g.Valid()
  }

  ghost predicate ComponentsValid(cs: seq<Component>, bound: set<AccountGroup>, leaves: set<IndividualAccount>)
    reads bound
    decreases bound, 2, 1
  {
    forall i :: 0 <= i < |cs| ==> ComponentValid(cs[i], bound, leaves)
  }

  /** The balance of one component. */
  function BalanceOf(c: Component, ghost bound: set<AccountGroup>, ghost leaves: set<IndividualAccount>): real
    requires ComponentValid(c, bound, leaves)
    reads bound, leaves
    decreases bound, 2, 0
  {
    match c
    case Single(a) => a.balance
    case Group(g) => g.GetBalance()
  }

  /** `cs.reduce((total, c) => total + c.getBalance(), 0)`. */
  function SumBalances(cs: seq<Component>, ghost bound: set<AccountGroup>, ghost leaves: set<IndividualAccount>): real
    requires ComponentsValid(cs, bound, leaves)
    reads bound, leaves
    decreases bound, 2, |cs| + 1
  {
    if cs == [] then 0.0
    else SumBalances(cs[..|cs| - 1], bound, leaves) + BalanceOf(cs[|cs| - 1], bound, leaves)
  }

  /** The footprint parameters only frame the computation: the sum does not depend on them. */
  lemma {:induction false} SumBalancesAnyBound(cs: seq<Component>, b1: set<AccountGroup>, l1: set<IndividualAccount>,
                                               b2: set<AccountGroup>, l2: set<IndividualAccount>)
    requires ComponentsValid(cs, b1, l1) && ComponentsValid(cs, b2, l2)
    ensures SumBalances(cs, b1, l1) == SumBalances(cs, b2, l2)
  {
    if cs != [] {
      SumBalancesAnyBound(cs[..|cs| - 1], b1, l1, b2, l2);
    }
  }

  /** Sums over a concatenation add up. */
  lemma {:induction false} SumBalancesAppend(xs: seq<Component>, ys: seq<Component>,
                                             bound: set<AccountGroup>, leaves: set<IndividualAccount>)
    requires ComponentsValid(xs + ys, bound, leaves)
    ensures ComponentsValid(xs, bound, leaves) && ComponentsValid(ys, bound, leaves)
    ensures SumBalances(xs + ys, bound, leaves) == SumBalances(xs, bound, leaves) + SumBalances(ys, bound, leaves)
  {
    assert forall i :: 0 <= i < |xs| ==> (xs + ys)[i] == xs[i];
    assert forall i :: 0 <= i < |ys| ==> (xs + ys)[|xs| + i] == ys[i];
    if ys != [] {
      var init := ys[..|ys| - 1];
      assert (xs + ys)[..|xs + ys| - 1] == xs + init;
      assert (xs + ys)[|xs + ys| - 1] == ys[|ys| - 1];
      SumBalancesAppend(xs, init, bound, leaves);
    } else {
      assert xs + ys == xs;
    }
  }

  /** `cs` without its first occurrence of `c` (`indexOf` and `splice`); unchanged when absent. */
  function RemoveFirst(cs: seq<Component>, c: Component): (r: seq<Component>)
    ensures c !in cs ==> r == cs
    ensures c in cs ==> |r| == |cs| - 1
  {
    if cs == [] then []
    else if cs[0] == c then cs[1..]
    else [cs[0]] + RemoveFirst(cs[1..], c)
  }

  /** Removing a child takes away exactly one occurrence of it. */
  lemma {:induction false} RemoveFirstRemovesOne(cs: seq<Component>, c: Component)
    requires c in cs
    ensures multiset(RemoveFirst(cs, c)) == multiset(cs) - multiset{c}
  {
    assert cs == [cs[0]] + cs[1..];
    if cs[0] != c {
      RemoveFirstRemovesOne(cs[1..], c);
    }
  }

  /** The first occurrence of `c` is at `i`: what precedes it stays in front, what follows closes up. */
  lemma {:induction false} RemoveFirstAt(cs: seq<Component>, c: Component, i: nat)
    requires i < |cs| && cs[i] == c && c !in cs[..i]
    ensures RemoveFirst(cs, c) == cs[..i] + cs[i + 1..]
  {
    if i > 0 {
      var tail := cs[1..];
      assert cs[0] == cs[..i][0] != c;
      assert tail[..i - 1] == cs[1..i];
      assert c !in tail[..i - 1];
      RemoveFirstAt(tail, c, i - 1);
      assert tail[i..] == cs[i + 1..];
      assert cs[..i] == [cs[0]] + cs[1..i];
    }
  }

  /** `cs.indexOf(c)`, with `|cs|` standing for -1: the first position holding `c`. */
  method IndexOf(cs: seq<Component>, c: Component) returns (i: nat)
    ensures i <= |cs| && c !in cs[..i]
    ensures i < |cs| ==> cs[i] == c
    ensures i == |cs| <==> c !in cs
  {
    i := 0;
    while i < |cs| && cs[i] != c
      invariant i <= |cs| && c !in cs[..i]
    {
      i := i + 1;
    }
    if i == |cs| {
      assert cs[..i] == cs;
    }
  }

  /** Closing up the gap at `i` keeps the rest well formed and takes exactly that child's balance off the sum. */
  lemma RemoveAtSum(cs: seq<Component>, i: nat, bound: set<AccountGroup>, leaves: set<IndividualAccount>)
    requires ComponentsValid(cs, bound, leaves) && i < |cs|
    ensures ComponentValid(cs[i], bound, leaves)
    ensures ComponentsValid(cs[..i] + cs[i + 1..], bound, leaves)
    ensures SumBalances(cs[..i] + cs[i + 1..], bound, leaves)
         == SumBalances(cs, bound, leaves) - BalanceOf(cs[i], bound, leaves)
  {
    var before, after := cs[..i], cs[i + 1..];
    assert cs == before + [cs[i]] + after;
    SumBalancesAppend(before + [cs[i]], after, bound, leaves);
    SumBalancesAppend(before, [cs[i]], bound, leaves);
    assert [cs[i]][..0] == [];
    assert forall k :: 0 <= k < |before + after| ==>
      (before + after)[k] == if k < |before| then cs[k] else cs[k + 1];
    SumBalancesAppend(before, after, bound, leaves);
  }

  class AccountGroup {
    const name: string
    var accounts: seq<Component>
    /** This group and every group below it. */
    ghost var Groups: set<AccountGroup>
    /** Every individual account below this group. */
    ghost var Leaves: set<IndividualAccount>

    /** The children form a finite, acyclic hierarchy inside the footprint. */
    ghost predicate Valid()
      reads this, Groups
      decreases Groups, 1
    {
      this in Groups && ComponentsValid(accounts, Groups - {this}, Leaves)
    }

    constructor (name: string)
      ensures Valid() && fresh(this)
      ensures this.name == name && accounts == [] && Groups == {this} && Leaves == {}
      ensures GetBalance() == 0.0
    {
      this.name := name;
      accounts := [];
      Groups := {this};
      Leaves := {};
    }

    /** The sum of the children's balances. */
    function GetBalance(): real
      requires Valid()
      reads this, Groups, Leaves
      decreases Groups, 1
    {
      SumBalances(accounts, Groups - {this}, Leaves)
    }

    /** A copy of the children. */
    method GetAccounts() returns (r: seq<Component>)
      ensures r == accounts
    {
      r := accounts;
    }

    /** Appends one child; a group may be added only where it creates no cycle. */
    method AddAccount(c: Component)
      requires Valid()
      requires c.Group? ==> c.group.Valid() && this !in c.group.Groups
      modifies this
      ensures Valid()
      ensures accounts == old(accounts) + [c]
      ensures Groups >= old(Groups) && Leaves >= old(Leaves)
      ensures ComponentValid(c, Groups - {this}, Leaves)
      ensures GetBalance() == old(GetBalance()) + BalanceOf(c, Groups - {this}, Leaves)
    {
      ghost var oldBound, oldLeaves := Groups - {this}, Leaves;
      ghost var oldAccounts := accounts;
      assert ComponentsValid(oldAccounts, oldBound, oldLeaves);
      ghost var sum := SumBalances(oldAccounts, oldBound, oldLeaves);
      match c {
        case Single(a) =>
          Leaves := Leaves + {a};
        case Group(g) =>
          Groups := Groups + g.Groups;
          Leaves := Leaves + g.Leaves;
      }
      accounts := accounts + [c];
      assert ComponentsValid(oldAccounts, oldBound, oldLeaves);
      assert SumBalances(oldAccounts, oldBound, oldLeaves) == sum;
      assert ComponentValid(c, Groups - {this}, Leaves);
      assert ComponentsValid(accounts, Groups - {this}, Leaves);
      SumBalancesAppend(oldAccounts, [c], Groups - {this}, Leaves);
      SumBalancesAnyBound(oldAccounts, oldBound, oldLeaves, Groups - {this}, Leaves);
    }

    /** Removes the first occurrence of `c`; no effect when `c` is not a child. */
    method RemoveAccount(c: Component)
      requires Valid()
      modifies this`accounts
      ensures Valid()
      ensures accounts == RemoveFirst(old(accounts), c)
      ensures c !in old(accounts) ==> GetBalance() == old(GetBalance())
      ensures c in old(accounts) ==>
        ComponentValid(c, Groups - {this}, Leaves) &&
        GetBalance() == old(GetBalance()) - BalanceOf(c, Groups - {this}, Leaves)
    {
      var i := IndexOf(accounts, c);
      if i < |accounts| {
        RemoveFirstAt(accounts, c, i);
        RemoveAtSum(accounts, i, Groups - {this}, Leaves);
        accounts := accounts[..i] + accounts[i + 1..];
      }
    }
  }

  /** `cs` without the components named `n`, the others in order. */
  function WithoutNamed(cs: seq<Component>, n: string): (r: seq<Component>)
    ensures forall c :: c in r ==> c in cs && Name(c) != n
    ensures forall i :: 0 <= i < |cs| && Name(cs[i]) != n ==> cs[i] in r
    ensures multiset(r) <= multiset(cs)
  {
    if cs == [] then []
    else
      assert cs == [cs[0]] + cs[1..];
      (if Name(cs[0]) != n then [cs[0]] else []) + WithoutNamed(cs[1..], n)
  }

  /** Removal by name works component by component: a single component stays exactly
      when it has another name, and a concatenation is filtered part by part, so the
      remaining components keep their order and their repetitions. */
  lemma {:induction false} WithoutNamedAppend(xs: seq<Component>, ys: seq<Component>, n: string)
    ensures WithoutNamed(xs + ys, n) == WithoutNamed(xs, n) + WithoutNamed(ys, n)
  {
    if xs == [] {
      assert xs + ys == ys;
    } else {
      assert (xs + ys)[0] == xs[0] && (xs + ys)[1..] == xs[1..] + ys;
      WithoutNamedAppend(xs[1..], ys, n);
    }
  }

  /** With no component named `n` there is nothing to remove. */
  lemma {:induction false} WithoutNamedUnchanged(cs: seq<Component>, n: string)
    requires forall i :: 0 <= i < |cs| ==> Name(cs[i]) != n
    ensures WithoutNamed(cs, n) == cs
  {
    if cs != [] {
      WithoutNamedUnchanged(cs[1..], n);
    }
  }

  lemma WithoutNamedSingle(c: Component, n: string)
    ensures WithoutNamed([c], n) == if Name(c) != n then [c] else []
  {
    assert [c][1..] == [];
  }

  /** Removing by name twice is removing once, and what is left carries no such name. */
  lemma WithoutNamedIdempotent(cs: seq<Component>, n: string)
    ensures WithoutNamed(WithoutNamed(cs, n), n) == WithoutNamed(cs, n)
  {
    var r := WithoutNamed(cs, n);
    assert forall i :: 0 <= i < |r| ==> Name(r[i]) != n;
    WithoutNamedUnchanged(r, n);
  }
}
