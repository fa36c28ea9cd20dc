/** The goal-tracking service: creating a goal for a user, contributing to and
    withdrawing from it, filtering the user's goals, and estimating when a
    goal completes at a fixed monthly contribution. The service keeps no
    state of its own. Goal ids (a timestamp and random characters in the
    ledger) and the current instant are parameters. */
module GoalTracking {
  import opened Types
  import opened Goals
  import opened Finance

  method CreateGoal(user: User, id: string, name: string, targetAmount: real, category: string,
                    deadline: Option<int>, description: Option<string>, now: int) returns (goal: Goal)
    modifies user`goals
    ensures fresh(goal) && user.goals == old(user.goals) + [goal]
    ensures goal.id == id && goal.name == name && goal.targetAmount == targetAmount && goal.category == category
    ensures goal.deadline == deadline && goal.createdAt == now
    ensures goal.currentAmount == 0.0 && goal.status == NotStarted
  {
    goal := new Goal(id, name, targetAmount, category, deadline, description, now);
    user.AddGoal(goal);
  }

  /** Exactly a contribution to the goal. */
  method UpdateGoalProgress(goal: Goal, contributionAmount: real, now: int)
    modifies goal`currentAmount, goal`status
    ensures goal.currentAmount == old(goal.currentAmount) + contributionAmount
    ensures goal.status == StatusOf(goal.currentAmount, goal.targetAmount, goal.deadline, goal.createdAt, now)
  {
    goal.AddContribution(contributionAmount, now);
  }

  /** Exactly a withdrawal from the goal, passing its outcome through. */
  method WithdrawFromGoal(goal: Goal, withdrawalAmount: real, now: int) returns (ok: bool)
    modifies goal`currentAmount, goal`status
    ensures ok <==> withdrawalAmount <= old(goal.currentAmount)
    ensures ok ==> goal.currentAmount == old(goal.currentAmount) - withdrawalAmount
    ensures ok ==> goal.status == StatusOf(goal.currentAmount, goal.targetAmount, goal.deadline, goal.createdAt, now)
    ensures !ok ==> goal.currentAmount == old(goal.currentAmount) && goal.status == old(goal.status)
  {
    ok := goal.WithdrawFunds(withdrawalAmount, now);
  }

  /** The goals whose status is `status`, in their original order. */
  function GoalsByStatus(goals: seq<Goal>, status: GoalStatus): (r: seq<Goal>)
    reads goals
    ensures forall g :: g in r ==> g in goals && g.status == status
    ensures forall i :: 0 <= i < |goals| && goals[i].status == status ==> goals[i] in r
    ensures multiset(r) <= multiset(goals)
  {
    if goals == [] then []
    else
      assert goals == [goals[0]] + goals[1..];
      (if goals[0].status == status then [goals[0]] else []) + GoalsByStatus(goals[1..], status)
  }

  /** The status filter works goal by goal: it keeps a single goal exactly when its
      status matches, and filters a concatenation part by part, so the kept goals
      stay in their original order and every copy of a kept goal stays. */
  lemma {:induction false} GoalsByStatusAppend(xs: seq<Goal>, ys: seq<Goal>, status: GoalStatus)
    ensures GoalsByStatus(xs + ys, status) == GoalsByStatus(xs, status) + GoalsByStatus(ys, status)
  {
    if xs == [] {
      assert xs + ys == ys;
    } else {
      assert (xs + ys)[0] == xs[0] && (xs + ys)[1..] == xs[1..] + ys;
      GoalsByStatusAppend(xs[1..], ys, status);
    }
  }

  lemma GoalsByStatusSingle(g: Goal, status: GoalStatus)
    ensures GoalsByStatus([g], status) == if g.status == status then [g] else []
  {
    assert [g][1..] == [];
  }

  /** Every goal has exactly one status, so the five status filters split the list between them. */
  lemma {:induction false} StatusFiltersPartition(goals: seq<Goal>)
    ensures |GoalsByStatus(goals, NotStarted)| + |GoalsByStatus(goals, InProgress)| + |GoalsByStatus(goals, OnTrack)|
          + |GoalsByStatus(goals, FallingBehind)| + |GoalsByStatus(goals, Achieved)| == |goals|
  {
    if goals != [] {
      StatusFiltersPartition(goals[1..]);
    }
  }

  /** The index of the first goal with id `goalId`, or the length of the list when there is none. */
  function IndexOfGoal(goals: seq<Goal>, goalId: string): (k: nat)
    ensures k <= |goals|
    ensures forall j :: 0 <= j < k ==> goals[j].id != goalId
    ensures k < |goals| ==> goals[k].id == goalId
  {
    if goals == [] then 0
    else if goals[0].id == goalId then 0
    else 1 + IndexOfGoal(goals[1..], goalId)
  }

  /** `goals.find(g => g.getId() === goalId)`: the first goal with that id, if any. */
  function GoalById(goals: seq<Goal>, goalId: string): (r: Option<Goal>)
    ensures r.None? <==> forall j :: 0 <= j < |goals| ==> goals[j].id != goalId
    ensures r.Some? ==> r.value.id == goalId && r.value == goals[IndexOfGoal(goals, goalId)]
  {
    var k := IndexOfGoal(goals, goalId);
    if k < |goals| then Some(goals[k]) else None
  }

  /** `Math.ceil(x)`. */
  function Ceil(x: real): (c: int)
    ensures (c - 1) as real < x <= c as real
  {
    -((-x).Floor)
  }

  /** Months until a goal is complete at `monthlyContribution` a month: none
      for a goal already complete, no estimate for a contribution that is not
      positive, and otherwise the fewest whole months whose contributions
      cover what remains. */
  function MonthsToCompletion(currentAmount: real, targetAmount: real, monthlyContribution: real): (r: Option<int>)
    ensures currentAmount >= targetAmount ==> r == Some(0)
    ensures currentAmount < targetAmount && monthlyContribution <= 0.0 ==> r == None
    ensures currentAmount < targetAmount && monthlyContribution > 0.0 ==>
      && r.Some? && r.value >= 1
      && (r.value - 1) as real * monthlyContribution < targetAmount - currentAmount
      && targetAmount - currentAmount <= r.value as real * monthlyContribution
  {
    if currentAmount >= targetAmount then Some(0)
    else if monthlyContribution <= 0.0 then None
    else
      var remaining := targetAmount - currentAmount;
      var k := Ceil(remaining / monthlyContribution);
      MonthsBound(remaining, monthlyContribution, k);
      Some(k)
  }

  lemma MonthsBound(remaining: real, monthly: real, k: int)
    requires remaining > 0.0 && monthly > 0.0
    requires (k - 1) as real < remaining / monthly <= k as real
    ensures k >= 1
    ensures (k - 1) as real * monthly < remaining <= k as real * monthly
  {
    var q := remaining / monthly;
    assert q * monthly == remaining;
    assert (k - 1) as real * monthly < q * monthly;
    assert q * monthly <= k as real * monthly;
  }

  /** The calendar month `months` after `d`. */
  function AddMonths(d: Date, months: int): (r: Date)
    requires 0 <= d.monthIndex < 12
    ensures 0 <= r.monthIndex < 12
    ensures r.year * 12 + r.monthIndex == d.year * 12 + d.monthIndex + months
  {
    var m := d.monthIndex + months;
    Date(d.year + m / 12, m % 12)
  }

  /** The estimated completion month of `goal`, counted from `today`. */
  function EstimatedCompletionDate(goal: Goal, monthlyContribution: real, today: Date): (r: Option<Date>)
    requires 0 <= today.monthIndex < 12
    reads goal
    ensures goal.currentAmount >= goal.targetAmount ==> r == Some(today)
    ensures r.None? <==> goal.currentAmount < goal.targetAmount && monthlyContribution <= 0.0
    ensures r.Some? ==>
      var months := MonthsToCompletion(goal.currentAmount, goal.targetAmount, monthlyContribution).value;
      r.value.year * 12 + r.value.monthIndex == today.year * 12 + today.monthIndex + months
  {
    match MonthsToCompletion(goal.currentAmount, goal.targetAmount, monthlyContribution)
    case None => None
    case Some(months) => if months == 0 then Some(today) else Some(AddMonths(today, months))
  }
}
