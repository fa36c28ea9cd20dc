/** A savings or spending target, with guarded withdrawals and a status
    recomputed after every change of the saved amount. Instants are
    milliseconds since the epoch; "now" is a parameter. */
module Goals {
  import opened Types
  import opened JsNumber

  datatype GoalStatus = NotStarted | InProgress | OnTrack | FallingBehind | Achieved

  const MillisPerDay: real := 86400000.0

  /** `currentAmount / targetAmount * 100`, not clamped. */
  function Progress(current: real, target: real): (p: Num)
    ensures target != 0.0 ==> p == Finite(current / target * 100.0)
    ensures target == 0.0 ==> !p.Finite?
  {
    Scale(Div(current, target), 100.0)
  }

  /** The share of the time between creation and deadline that has elapsed, in percent. */
  function ElapsedPercent(createdAt: int, deadline: int, now: int): (e: Num)
    ensures deadline != createdAt ==> e == Finite((now - createdAt) as real / (deadline - createdAt) as real * 100.0)
  {
    var totalDays := (deadline - createdAt) as real / MillisPerDay;
    var daysElapsed := (now - createdAt) as real / MillisPerDay;
    assert deadline != createdAt ==> daysElapsed / totalDays == (now - createdAt) as real / (deadline - createdAt) as real;
    Scale(Div(daysElapsed, totalDays), 100.0)
  }

  /** The status a goal takes after a change, in the precedence order of the
      ledger: nothing saved, target reached, deadline passed, no deadline,
      then progress against elapsed time. */
  function StatusOf(current: real, target: real, deadline: Option<int>, createdAt: int, now: int): (s: GoalStatus)
    ensures s == NotStarted <==> current == 0.0
    ensures s == Achieved <==> current != 0.0 && current >= target
    ensures s == InProgress <==> current != 0.0 && current < target && deadline.None?
    ensures s == OnTrack <==>
      current != 0.0 && current < target && deadline.Some? && now <= deadline.value &&
      Ge(Progress(current, target), ElapsedPercent(createdAt, deadline.value, now))
  {
    if current == 0.0 then NotStarted
    else if current >= target then Achieved
    else if deadline.Some? && deadline.value < now then FallingBehind
    else if deadline.None? then InProgress
    else if Ge(Progress(current, target), ElapsedPercent(createdAt, deadline.value, now)) then OnTrack
    else FallingBehind
  }

  /** For a positive target and a deadline after creation, a partly funded goal
      is on track exactly when the funded fraction is at least the elapsed
      fraction of its time, and falling behind otherwise. */
  lemma OnTrackMeansFundedAhead(current: real, target: real, deadline: int, createdAt: int, now: int)
    requires 0.0 < target && createdAt < deadline
    requires current != 0.0 && current < target && now <= deadline
    ensures StatusOf(current, target, Some(deadline), createdAt, now) == OnTrack <==>
            current / target >= (now - createdAt) as real / (deadline - createdAt) as real
    ensures StatusOf(current, target, Some(deadline), createdAt, now) != OnTrack ==>
            StatusOf(current, target, Some(deadline), createdAt, now) == FallingBehind
  {
    var st := StatusOf(current, target, Some(deadline), createdAt, now);
    var g := Ge(Progress(current, target), ElapsedPercent(createdAt, deadline, now));
    assert st == OnTrack <==> g;
    PercentOrder(current / target, (now - createdAt) as real / (deadline - createdAt) as real);
  }

  lemma PercentOrder(f: real, e: real)
    ensures Ge(Finite(f * 100.0), Finite(e * 100.0)) <==> f >= e
  {
  }

  /** A goal with a deadline is never merely "in progress": it is on track or falling behind. */
  lemma DeadlineDecidesPace(current: real, target: real, deadline: int, createdAt: int, now: int)
    requires current != 0.0 && current < target
    ensures StatusOf(current, target, Some(deadline), createdAt, now) in {OnTrack, FallingBehind}
  {
  }

  /** A status that agrees with the amounts it was computed from. */
  ghost predicate Consistent(status: GoalStatus, current: real, target: real)
  {
    && (status == NotStarted ==> current == 0.0)
    && (status == Achieved ==> current != 0.0 && current >= target)
  }

  class Goal {
    const id: string
    const name: string
    const targetAmount: real
    var currentAmount: real
    const deadline: Option<int>
    var status: GoalStatus
    const description: Option<string>
    const category: string
    const createdAt: int

    /** The status never contradicts the amounts: it is only replaced together with them. */
    ghost predicate Valid()
      reads this
    {
      Consistent(status, currentAmount, targetAmount)
    }

    constructor (id: string, name: string, targetAmount: real, category: string,
                 deadline: Option<int>, description: Option<string>, now: int)
      ensures Valid()
      ensures this.id == id && this.name == name && this.targetAmount == targetAmount
      ensures this.category == category && this.deadline == deadline && this.description == description
      ensures currentAmount == 0.0 && status == NotStarted && createdAt == now
    {
      this.id := id;
      this.name := name;
      this.targetAmount := targetAmount;
      currentAmount := 0.0;
      this.deadline := deadline;
      status := NotStarted;
      this.description := description;
      this.category := category;
      createdAt := now;
    }

    function GetProgress(): (p: Num)
      reads this
      ensures p == Progress(currentAmount, targetAmount)
    {
      Progress(currentAmount, targetAmount)
    }

    method UpdateStatus(now: int)
      modifies this`status
      ensures status == StatusOf(currentAmount, targetAmount, deadline, createdAt, now)
      ensures Valid()
    {
      if currentAmount == 0.0 {
        status := NotStarted;
      } else if currentAmount >= targetAmount {
        status := Achieved;
      } else {
        if deadline.Some? && deadline.value < now {
          status := FallingBehind;
        } else {
          status := InProgress;
          if deadline.Some? {
            if Ge(GetProgress(), ElapsedPercent(createdAt, deadline.value, now)) {
              status := OnTrack;
            } else {
              status := FallingBehind;
            }
          }
        }
      }
    }

    method AddContribution(amount: real, now: int)
      modifies this`currentAmount, this`status
      ensures currentAmount == old(currentAmount) + amount
      ensures status == StatusOf(currentAmount, targetAmount, deadline, createdAt, now)
      ensures Valid()
      ensures old(currentAmount) >= 0.0 && amount >= 0.0 ==> currentAmount >= 0.0
    {
      currentAmount := currentAmount + amount;
      UpdateStatus(now);
    }

    /** Succeeds exactly when the saved amount covers `amount`; a refused
        withdrawal changes neither the amount nor the status. */
    method WithdrawFunds(amount: real, now: int) returns (ok: bool)
      modifies this`currentAmount, this`status
      ensures ok <==> amount <= old(currentAmount)
      ensures ok ==> currentAmount == old(currentAmount) - amount &&
                     status == StatusOf(currentAmount, targetAmount, deadline, createdAt, now)
      ensures !ok ==> currentAmount == old(currentAmount) && status == old(status)
      ensures old(Valid()) ==> Valid()
      ensures ok ==> currentAmount >= 0.0
    {
      if amount <= currentAmount {
        currentAmount := currentAmount - amount;
        UpdateStatus(now);
        return true;
      }
      return false;
    }
  }

  /** `gs` without the goals whose id is `id`, the others in order. */
  function WithoutGoal(gs: seq<Goal>, id: string): (r: seq<Goal>)
    ensures forall g :: g in r ==> g in gs && g.id != id
    ensures forall i :: 0 <= i < |gs| && gs[i].id != id ==> gs[i] in r
    ensures multiset(r) <= multiset(gs)
  {
    if gs == [] then []
    else
      assert gs == [gs[0]] + gs[1..];
      (if gs[0].id != id then [gs[0]] else []) + WithoutGoal(gs[1..], id)
  }

  /** Removal by goal id works goal by goal, in the same way. */
  lemma {:induction false} WithoutGoalAppend(xs: seq<Goal>, ys: seq<Goal>, id: string)
    ensures WithoutGoal(xs + ys, id) == WithoutGoal(xs, id) + WithoutGoal(ys, id)
  {
    if xs == [] {
      assert xs + ys == ys;
    } else {
      assert (xs + ys)[0] == xs[0] && (xs + ys)[1..] == xs[1..] + ys;
      WithoutGoalAppend(xs[1..], ys, id);
    }
  }

  /** With no goal whose id is `id` there is nothing to remove. */
  lemma {:induction false} WithoutGoalUnchanged(gs: seq<Goal>, id: string)
    requires forall i :: 0 <= i < |gs| ==> gs[i].id != id
    ensures WithoutGoal(gs, id) == gs
  {
    if gs != [] {
      WithoutGoalUnchanged(gs[1..], id);
    }
  }

  lemma WithoutGoalSingle(g: Goal, id: string)
    ensures WithoutGoal([g], id) == if g.id != id then [g] else []
  {
    assert [g][1..] == [];
  }
}
