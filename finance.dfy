/** The user and the financial-mode state machine: a context holds the active
    mode object, forwards every transaction to it, and installs the mode a
    transaction hands over to, re-pointing that mode's back-reference and the
    owning user's current mode. The user, the context and the modes refer to
    each other, so they share this module. */
module Finance {
  import opened Types
  import OrderedMaps
  import opened ModeRules
  import opened Composite
  import opened Goals

  /** The active mode object, whichever class it has. */
  datatype Mode = BudgetingMode(b: BudgetingState) | SavingsMode(s: SavingsState) | InvestmentMode(i: InvestmentState)

  function ModeObject(m: Mode): object
  {
    match m
    case BudgetingMode(b) => b
    case SavingsMode(s) => s
    case InvestmentMode(i) => i
  }

  function KindOf(m: Mode): ModeKind
  {
    match m
    case BudgetingMode(_) => BudgetingKind
    case SavingsMode(_) => SavingsKind
    case InvestmentMode(_) => InvestmentKind
  }

  /** The mode's back-reference to its context; null until a context adopts it. */
  function ContextOf(m: Mode): FinancialStateContext?
    reads ModeObject(m)
  {
    match m
    case BudgetingMode(b) => b.context
    case SavingsMode(s) => s.context
    case InvestmentMode(i) => i.context
  }

  /** The running totals held by the mode object. */
  function TotalsOf(m: Mode): (t: Totals)
    reads ModeObject(m)
    ensures KindOfTotals(t) == KindOf(m)
  {
    match m
    case BudgetingMode(b) => OfBudgeting(b.Totals())
    case SavingsMode(s) => OfSavings(s.Totals())
    case InvestmentMode(i) => OfInvestment(i.Totals())
  }

  /** What a hand-over may change: the context (its active mode) and its user (the user's current mode). */
  function ContextFrame(c: FinancialStateContext?): set<object>
  {
    if c == null then {} else {c, c.user}
  }

  /** After a transaction handled by a mode whose context is `c`: with no
      hand-over the context and its user keep their mode; with a hand-over to
      `k` the context holds a fresh mode of kind `k` with empty totals, bound
      to `c`, and the user's current mode is that new mode. */
  twostate predicate Switched(c: FinancialStateContext?, next: Option<ModeKind>)
    reads ContextFrame(c), if c == null then {} else {ModeObject(c.state)}
  {
    c != null ==>
      && c.user.accounts == old(c.user.accounts)
      && c.user.goals == old(c.user.goals)
      && c.user.Groups == old(c.user.Groups)
      && c.user.Leaves == old(c.user.Leaves)
      && match next
      case None => c.state == old(c.state) && c.user.financialState == old(c.user.financialState)
      case Some(k) =>
        && KindOf(c.state) == k
        && fresh(ModeObject(c.state))
        && TotalsOf(c.state) == EmptyTotals(k)
        && ContextOf(c.state) == c
        && c.user.financialState == c.state
  }

  class BudgetingState {
    var overBudgetCategories: OrderedMaps.OrderedMap<CategoryType, real>
    var transactionCount: int
    var context: FinancialStateContext?

    ghost predicate WellFormed()
      reads this
    {
      OrderedMaps.Valid(overBudgetCategories)
    }

    function Totals(): BudgetingTotals
      reads this
    {
      BudgetingTotals(overBudgetCategories, transactionCount)
    }

    constructor ()
      ensures WellFormed() && Totals() == EmptyBudgeting && context == null
    {
      overBudgetCategories := OrderedMaps.Empty();
      transactionCount := 0;
      context := null;
    }

    method SetContext(c: FinancialStateContext)
      modifies this`context
      ensures context == c
    {
      context := c;
    }

    /** Counts the transaction and totals expenses per category; the hand-over to
        savings mode is disabled, and the random consistency check only decides a
        log line, so the context is never touched. */
    method HandleTransaction(t: Tx)
      requires WellFormed()
      modifies this`overBudgetCategories, this`transactionCount
      ensures WellFormed()
      ensures Totals() == BudgetingStep(old(Totals()), t)
    {
      transactionCount := transactionCount + 1;
      if t.kind == Expense {
        overBudgetCategories := OrderedMaps.AddTo(overBudgetCategories, t.category, t.amount);
      }
    }

    function GenerateRecommendations(user: User): seq<Recommendation>
      reads this
    {
      BudgetingAdvice(Totals())
    }

    function GetStateSpecificReports(): seq<Report>
      reads this
    {
      BudgetingReports(Totals())
    }
  }

  class SavingsState {
    var savingsGoals: OrderedMaps.OrderedMap<CategoryType, real>
    var totalSaved: real
    var savingsStreak: int
    var context: FinancialStateContext?

    ghost predicate WellFormed()
      reads this
    {
      OrderedMaps.Valid(savingsGoals)
    }

    /** The totals agree with each other and the streak is not negative. */
    ghost predicate Valid()
      reads this
    {
      SavingsInvariant(Totals())
    }

    function Totals(): SavingsTotals
      reads this
    {
      SavingsTotals(savingsGoals, totalSaved, savingsStreak)
    }

    constructor ()
      ensures WellFormed() && Valid() && Totals() == EmptySavings && context == null
    {
      savingsGoals := OrderedMaps.Empty();
      totalSaved := 0.0;
      savingsStreak := 0;
      context := null;
    }

    method SetContext(c: FinancialStateContext)
      modifies this`context
      ensures context == c
    {
      context := c;
    }

    /** Records savings contributions and the streak, then runs the two hand-over
        checks in turn; each needs a context. */
    method HandleTransaction(t: Tx)
      requires WellFormed()
      modifies this`savingsGoals, this`totalSaved, this`savingsStreak
      modifies ContextFrame(context)
      ensures WellFormed()
      ensures old(Valid()) ==> Valid()
      ensures Totals() == SavingsStep(old(Totals()), t)
      ensures context == old(context)
      ensures Switched(context, HandOver(OfSavings(old(Totals())), t))
    {
      Record(t);
      CheckHandOvers(t);
    }

    /** A savings-category expense adds to its category, to the total saved and
        to the streak; any other expense breaks the streak. */
    method Record(t: Tx)
      requires WellFormed()
      modifies this`savingsGoals, this`totalSaved, this`savingsStreak
      ensures WellFormed()
      ensures old(Valid()) ==> Valid()
      ensures Totals() == SavingsStep(old(Totals()), t)
    {
      ghost var before := Totals();
      if t.kind == Expense {
        if IsSavingsCategory(t.category) {
          savingsGoals := OrderedMaps.AddTo(savingsGoals, t.category, t.amount);
          totalSaved := totalSaved + t.amount;
          savingsStreak := savingsStreak + 1;
        } else {
          savingsStreak := 0;
        }
      }
      if SavingsInvariant(before) {
        SavingsStepPreserves(before, t);
      }
    }

    /** A negative streak hands over to budgeting mode; afterwards an investment
        above 1000 hands over to investment mode, so that one wins when both fire. */
    method CheckHandOvers(t: Tx)
      modifies ContextFrame(context)
      ensures context == old(context)
      ensures Switched(context,
        if LeavesSavingsForInvestment(t) then Some(InvestmentKind)
        else if LeavesSavingsForBudgeting(Totals()) then Some(BudgetingKind)
        else None)
    {
      ghost var handed: Option<ModeKind> := None;
      if savingsStreak < 0 && context != null {
        var next := new BudgetingState();
        assert ModeObject(BudgetingMode(next)) == next;
        context.TransitionTo(BudgetingMode(next));
        handed := Some(BudgetingKind);
        assert Switched(context, handed);
      }
      if t.kind == Investment && t.amount > 1000.0 && context != null {
        var next := new InvestmentState();
        assert ModeObject(InvestmentMode(next)) == next;
        context.TransitionTo(InvestmentMode(next));
        handed := Some(InvestmentKind);
        assert Switched(context, handed);
      }
    }

    function GenerateRecommendations(user: User): seq<Recommendation>
      requires user.Valid()
      reads this, user, user.Groups, user.Leaves
    {
      SavingsAdvice(Totals(), user.GetTotalBalance())
    }

    function GetStateSpecificReports(): seq<Report>
      reads this
    {
      SavingsReports(Totals())
    }
  }

  class InvestmentState {
    var investmentsByType: OrderedMaps.OrderedMap<CategoryType, real>
    var totalInvested: real
    var riskProfile: RiskProfile
    var context: FinancialStateContext?

    ghost predicate WellFormed()
      reads this
    {
      OrderedMaps.Valid(investmentsByType)
    }

    /** The total is the sum of the per-category amounts and the profile is medium. */
    ghost predicate Valid()
      reads this
    {
      InvestmentInvariant(Totals())
    }

    function Totals(): InvestmentTotals
      reads this
    {
      InvestmentTotals(investmentsByType, totalInvested, riskProfile)
    }

    constructor ()
      ensures WellFormed() && Valid() && Totals() == EmptyInvestment && context == null
    {
      investmentsByType := OrderedMaps.Empty();
      totalInvested := 0.0;
      riskProfile := RiskMedium;
      context := null;
    }

    method SetContext(c: FinancialStateContext)
      modifies this`context
      ensures context == c
    {
      context := c;
    }

    /** Totals investments per category, then hands over to savings mode on a
        large emergency-fund or retirement expense when there is a context. */
    method HandleTransaction(t: Tx)
      requires WellFormed()
      modifies this`investmentsByType, this`totalInvested
      modifies ContextFrame(context)
      ensures WellFormed()
      ensures old(Valid()) ==> Valid()
      ensures Totals() == InvestmentStep(old(Totals()), t)
      ensures context == old(context)
      ensures Switched(context, HandOver(OfInvestment(old(Totals())), t))
    {
      Record(t);
      CheckHandOver(t);
    }

    /** An investment adds to its category and to the total invested. */
    method Record(t: Tx)
      requires WellFormed()
      modifies this`investmentsByType, this`totalInvested
      ensures WellFormed()
      ensures old(Valid()) ==> Valid()
      ensures Totals() == InvestmentStep(old(Totals()), t)
    {
      ghost var before := Totals();
      if t.kind == Investment {
        investmentsByType := OrderedMaps.AddTo(investmentsByType, t.category, t.amount);
        totalInvested := totalInvested + t.amount;
      }
      if InvestmentInvariant(before) {
        InvestmentStepPreserves(before, t);
      }
    }

    /** A large emergency-fund or retirement expense hands over to a fresh savings mode. */
    method CheckHandOver(t: Tx)
      modifies ContextFrame(context)
      ensures context == old(context)
      ensures Switched(context, if LeavesInvestmentForSavings(t) then Some(SavingsKind) else None)
    {
      if t.kind == Expense && (t.category == EmergencyFund || t.category == Retirement) && t.amount > 1000.0 &&
         context != null {
        var next := new SavingsState();
        assert ModeObject(SavingsMode(next)) == next;
        context.TransitionTo(SavingsMode(next));
      }
    }

    function GenerateRecommendations(user: User): seq<Recommendation>
      reads this
    {
      InvestmentAdvice(Totals())
    }

    function GetStateSpecificReports(): seq<Report>
      reads this
    {
      InvestmentReports(Totals())
    }
  }

  /** Holds the active mode and lets modes replace themselves. */
  class FinancialStateContext {
    const user: User
    var state: Mode

    /** The active mode points back to this context. */
    ghost predicate Valid()
      reads this, ModeObject(state)
    {
      ContextOf(state) == this
    }

    /** Adopts the initial mode exactly as a later transition would. */
    constructor (user: User, initialState: Mode)
      modifies user`financialState, ModeObject(initialState)
      ensures this.user == user && state == initialState && Valid()
      ensures user.financialState == initialState
      ensures TotalsOf(initialState) == old(TotalsOf(initialState))
    {
      this.user := user;
      state := initialState;
      new;
      TransitionTo(initialState);
    }

    /** Makes `s` the active mode, binds it to this context and makes it the user's current mode. */
    method TransitionTo(s: Mode)
      modifies this`state, user`financialState, ModeObject(s)
      ensures state == s && ContextOf(s) == this && user.financialState == s
      ensures TotalsOf(s) == old(TotalsOf(s))
    {
      state := s;
      match s {
        case BudgetingMode(b) => b.SetContext(this);
        case SavingsMode(sv) => sv.SetContext(this);
        case InvestmentMode(i) => i.SetContext(this);
      }
      user.SetFinancialState(s);
    }

    method GetState() returns (s: Mode)
      ensures s == state
    {
      s := state;
    }

    /** Forwards to the active mode; the context changes only through that mode's hand-over. */
    method HandleTransaction(t: Tx)
      requires Valid() && TotalsWellFormed(TotalsOf(state))
      modifies this, user, ModeObject(state)
      ensures TotalsOf(old(state)) == Step(old(TotalsOf(state)), t)
      ensures Switched(this, HandOver(old(TotalsOf(state)), t))
      ensures Valid()
    {
      match state {
        case BudgetingMode(b) => b.HandleTransaction(t);
        case SavingsMode(s) => s.HandleTransaction(t);
        case InvestmentMode(i) => i.HandleTransaction(t);
      }
    }

    /** The active mode's recommendations for this context's own user. */
    function GenerateRecommendations(): (r: seq<Recommendation>)
      requires user.Valid()
      reads this, ModeObject(state), user, user.Groups, user.Leaves
      ensures r == Advise(TotalsOf(state), user.GetTotalBalance())
    {
      match state
      case BudgetingMode(b) => b.GenerateRecommendations(user)
      case SavingsMode(s) => s.GenerateRecommendations(user)
      case InvestmentMode(i) => i.GenerateRecommendations(user)
    }

    /** The active mode's reports. */
    function GetStateSpecificReports(): (r: seq<Report>)
      reads this, ModeObject(state)
      ensures r == Reports(TotalsOf(state))
    {
      match state
      case BudgetingMode(b) => b.GetStateSpecificReports()
      case SavingsMode(s) => s.GetStateSpecificReports()
      case InvestmentMode(i) => i.GetStateSpecificReports()
    }
  }

  class User {
    const id: string
    const name: string
    const email: string
    var accounts: seq<Component>
    var goals: seq<Goal>
    var financialState: Mode
    /** Every account group reachable from the top-level accounts. */
    ghost var Groups: set<AccountGroup>
    /** Every individual account reachable from the top-level accounts. */
    ghost var Leaves: set<IndividualAccount>

    /** The top-level accounts form a well-formed hierarchy. */
    ghost predicate Valid()
      reads this, Groups
    {
      ComponentsValid(accounts, Groups, Leaves)
    }

    constructor (id: string, name: string, email: string, initialState: Mode)
      ensures this.id == id && this.name == name && this.email == email
      ensures accounts == [] && goals == [] && financialState == initialState
      ensures Valid() && GetTotalBalance() == 0.0
    {
      this.id := id;
      this.name := name;
      this.email := email;
      accounts := [];
      goals := [];
      financialState := initialState;
      Groups := {};
      Leaves := {};
    }

    /** The sum of the top-level components' balances. */
    function GetTotalBalance(): real
      requires Valid()
      reads this, Groups, Leaves
    {
      SumBalances(accounts, Groups, Leaves)
    }

    /** Appends one component; the total balance grows by its balance. */
    method AddAccount(c: Component)
      requires Valid()
      requires c.Group? ==> c.group.Valid()
      modifies this`accounts, this`Groups, this`Leaves
      ensures accounts == old(accounts) + [c]
      ensures Valid() && ComponentValid(c, Groups, Leaves)
      ensures GetTotalBalance() == old(GetTotalBalance()) + BalanceOf(c, Groups, Leaves)
    {
      ghost var oldGroups, oldLeaves, oldAccounts := Groups, Leaves, accounts;
      match c {
        case Single(a) =>
          Leaves := Leaves + {a};
        case Group(g) =>
          Groups := Groups + g.Groups;
          Leaves := Leaves + g.Leaves;
      }
      accounts := accounts + [c];
      forall i | 0 <= i < |accounts| ensures ComponentValid(accounts[i], Groups, Leaves) {
        if i < |oldAccounts| {
          assert ComponentValid(oldAccounts[i], oldGroups, oldLeaves);
        }
      }
      SumBalancesAppend(oldAccounts, [c], Groups, Leaves);
      SumBalancesAnyBound(oldAccounts, oldGroups, oldLeaves, Groups, Leaves);
    }

    /** Removes every component named `n`, keeping the others in order. */
    method RemoveAccount(n: string)
      requires Valid()
      modifies this`accounts
      ensures accounts == WithoutNamed(old(accounts), n)
      ensures Valid()
    {
      accounts := WithoutNamed(accounts, n);
      forall i | 0 <= i < |accounts| ensures ComponentValid(accounts[i], Groups, Leaves) {
        assert accounts[i] in old(accounts);
      }
    }

    method GetAccounts() returns (r: seq<Component>)
      ensures r == accounts
    {
      r := accounts;
    }

    method AddGoal(g: Goal)
      modifies this`goals
      ensures goals == old(goals) + [g]
    {
      goals := goals + [g];
    }

    /** Removes every goal with id `goalId`, keeping the others in order. */
    method RemoveGoal(goalId: string)
      modifies this`goals
      ensures goals == WithoutGoal(old(goals), goalId)
    {
      goals := WithoutGoal(goals, goalId);
    }

    method GetGoals() returns (r: seq<Goal>)
      ensures r == goals
    {
      r := goals;
    }

    method SetFinancialState(s: Mode)
      modifies this`financialState
      ensures financialState == s
    {
      financialState := s;
    }

    /** Forwards to the current mode. A mode never adopted by a context (as the
        web server and the command line build it) cannot hand over, so the user
        keeps it. */
    method HandleTransaction(t: Tx)
      requires TotalsWellFormed(TotalsOf(financialState))
      modifies ModeObject(financialState), ContextFrame(ContextOf(financialState))
      ensures TotalsOf(old(financialState)) == Step(old(TotalsOf(financialState)), t)
      ensures Switched(old(ContextOf(financialState)), HandOver(old(TotalsOf(financialState)), t))
      ensures old(ContextOf(financialState)) == null ==> financialState == old(financialState)
    {
      match financialState {
        case BudgetingMode(b) => b.HandleTransaction(t);
        case SavingsMode(s) => s.HandleTransaction(t);
        case InvestmentMode(i) => i.HandleTransaction(t);
      }
    }
  }
}
