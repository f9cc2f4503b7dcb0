/** The savings-goal page: a list of monthly plans with delete, edit and
    submit handlers, and the progress of each plan computed from the
    transactions dated in its month. */
module Plan {
  import opened Common

  /** A saved plan. Guest plans carry no `created_at`; `notes` and `user_id`
      may be absent on rows of the backend. */
  datatype PlanRec = PlanRec(
    id: Option<int>,
    month: string,
    budgetTarget: real,
    notes: Option<string>,
    userId: Option<string>,
    createdAt: Option<int>)

  function PlanId(p: PlanRec): Option<int> { p.id }

  /** An id is truthy when present and non-zero. */
  predicate Truthy(id: Option<int>)
  {
    id.Some? && id.value != 0
  }

  /** `{ ...p, ...planData, id }`: the form's month, goal, notes and user
      overwrite the plan's, the id is the one being edited, and every other
      field of the plan (its `created_at`) is kept. */
  function Merged(p: PlanRec, month: string, goal: real, notes: string, userId: Option<string>, id: Option<int>): (r: PlanRec)
    ensures r.month == month && r.budgetTarget == goal && r.notes == Some(notes) && r.userId == userId
    ensures r.id == id
    ensures r.createdAt == p.createdAt
  {
    PlanRec(id, month, goal, Some(notes), userId, p.createdAt)
  }

  /** A goal the submit handler accepts: present and strictly positive. */
  predicate AcceptedGoal(goal: NumField)
    ensures AcceptedGoal(goal) <==> goal.Num? && goal.value > 0.0
    // an empty, zero or negative goal is refused
    ensures goal == Blank || (goal.Num? && goal.value <= 0.0) ==> !AcceptedGoal(goal)
  {
    goal.Num? && goal.value > 0.0
  }

  class PlanPage {
    const isGuest: bool
    const hasUser: bool             // `session?.user` is present
    const userId: Option<string>    // `session?.user?.id`
    var selectedMonth: string
    var goalAmount: NumField
    var notes: string
    var savedPlans: seq<PlanRec>
    var editingPlanId: Option<int>

    constructor (isGuest: bool, hasUser: bool, userId: Option<string>)
      ensures this.isGuest == isGuest && this.hasUser == hasUser && this.userId == userId
      ensures selectedMonth == "January" && goalAmount == Blank && notes == ""
      ensures savedPlans == [] && editingPlanId == None
    {
      this.isGuest := isGuest;
      this.hasUser := hasUser;
      this.userId := userId;
      selectedMonth := "January";
      goalAmount := Blank;
      notes := "";
      savedPlans := [];
      editingPlanId := None;
    }

    /** `fetchPlans` with the query's outcome: the rows (or none when the
        data is null) replace the list; an error, or a session without a
        user, keeps it. */
    method FetchPlans(result: Fetch<seq<PlanRec>>)
      modifies this`savedPlans
      ensures hasUser && result.Fetched? ==> savedPlans == OrEmpty(result.data)
      ensures !(hasUser && result.Fetched?) ==> savedPlans == old(savedPlans)
    {
      if hasUser && result.Fetched? {
        savedPlans := OrEmpty(result.data);
      }
    }

    /** `handleDeletePlan(id)`: declined, nothing changes; a guest removes
        the plans with that id at once; a signed-in user removes them only
        when the backend delete succeeded. */
    method HandleDeletePlan(id: Option<int>, confirmed: bool, deleteOk: bool)
      modifies this`savedPlans
      ensures confirmed && (isGuest || deleteOk) ==>
        savedPlans == RemoveId(old(savedPlans), PlanId, id)
        && (forall p :: p in savedPlans ==> p.id != id)
        && (forall p :: p in old(savedPlans) && p.id != id ==> p in savedPlans)
      ensures !confirmed || (!isGuest && !deleteOk) ==> savedPlans == old(savedPlans)
    {
      if !confirmed {
        return;
      }
      if isGuest || deleteOk {
        savedPlans := RemoveId(savedPlans, PlanId, id);
      }
    }

    /** `startEditPlan(plan)`: the form takes the plan's month, goal and
        notes (empty when absent) and remembers which plan is edited. */
    method StartEditPlan(plan: PlanRec)
      modifies this`selectedMonth, this`goalAmount, this`notes, this`editingPlanId
      ensures selectedMonth == plan.month && goalAmount == Num(plan.budgetTarget)
      ensures notes == (if plan.notes.Some? then plan.notes.value else "")
      ensures editingPlanId == plan.id
    {
      selectedMonth := plan.month;
      goalAmount := Num(plan.budgetTarget);
      notes := if plan.notes.Some? then plan.notes.value else "";
      editingPlanId := plan.id;
    }

    /** `handleSubmitPlan`, with `freshId` the value of `Date.now()`. A goal
        that is blank or not positive is refused and nothing changes. A guest
        edit merges the form into the plans with the edited id, in place; a
        guest insert prepends one new plan; a signed-in submit leaves the
        list to the refresh that follows it. Every accepted submit clears
        the goal, the notes and the edited id, and keeps the month. */
    method HandleSubmitPlan(freshId: int) returns (accepted: bool)
      modifies this`savedPlans, this`goalAmount, this`notes, this`editingPlanId
      ensures accepted <==> AcceptedGoal(old(goalAmount))
      ensures !accepted ==>
        savedPlans == old(savedPlans) && goalAmount == old(goalAmount)
        && notes == old(notes) && editingPlanId == old(editingPlanId)
      ensures accepted ==> goalAmount == Blank && notes == "" && editingPlanId == None
      // guest edit: same length, the edited plans merged, the others untouched
      ensures accepted && isGuest && Truthy(old(editingPlanId)) ==>
        |savedPlans| == |old(savedPlans)|
        && (forall i :: 0 <= i < |savedPlans| && old(savedPlans)[i].id == old(editingPlanId) ==>
              savedPlans[i] == Merged(old(savedPlans)[i], selectedMonth, old(goalAmount).value,
                                      old(notes), userId, old(editingPlanId)))
        && (forall i :: 0 <= i < |savedPlans| && old(savedPlans)[i].id != old(editingPlanId) ==>
              savedPlans[i] == old(savedPlans)[i])
      // guest insert: one new plan in front of the old list
      ensures accepted && isGuest && !Truthy(old(editingPlanId)) ==>
        savedPlans == [PlanRec(Some(freshId), selectedMonth, old(goalAmount).value,
                               Some(old(notes)), userId, None)] + old(savedPlans)
      ensures accepted && !isGuest ==> savedPlans == old(savedPlans)
    {
      if !AcceptedGoal(goalAmount) {
        return false;
      }
      var goal := goalAmount.value;
      if isGuest {
        if Truthy(editingPlanId) {
          var month, text, id := selectedMonth, notes, editingPlanId;
          savedPlans := ReplaceId(savedPlans, PlanId, id,
            (p: PlanRec) => Merged(p, month, goal, text, userId, id));
        } else {
          savedPlans := [PlanRec(Some(freshId), selectedMonth, goal, Some(notes), userId, None)] + savedPlans;
        }
      }
      goalAmount := Blank;
      notes := "";
      editingPlanId := None;
      return true;
    }
  }

  // ---------------------------------------------------------------------
  // Progress of a plan (`calculateProgress`).
  // ---------------------------------------------------------------------

  const Red: string := "#dc3545"
  const Amber: string := "#ffc107"
  const Green: string := "#28a745"

  datatype Progress = Progress(
    income: real,
    expense: real,
    netBalance: real,
    percentage: int,
    displayPercentage: int,
    color: string,
    remaining: real)

  /** `Math.round`: the nearest integer, halves rounded up. */
  function Round(x: real): (r: int)
    ensures x - 0.5 < r as real <= x + 0.5
  {
    (x + 0.5).Floor
  }

  /** `Math.max(0, Math.min(100, n))`. */
  function Clamp(n: int): (r: int)
    ensures 0 <= r <= 100
    ensures 0 <= n <= 100 ==> r == n
    ensures n < 0 ==> r == 0
    ensures n > 100 ==> r == 100
  {
    if n < 0 then 0 else if n > 100 then 100 else n
  }

  /** `plan.budget_target || 1`: a zero target counts as 1. */
  function TargetGoal(plan: PlanRec): (r: real)
    ensures r != 0.0
    ensures plan.budgetTarget == 0.0 ==> r == 1.0
    ensures plan.budgetTarget != 0.0 ==> r == plan.budgetTarget
  {
    if plan.budgetTarget != 0.0 then plan.budgetTarget else 1.0
  }

  /** The transactions that carry a `transaction_date` whose month name,
      as given by `monthOf`, is `month`. */
  function InMonth(txs: seq<Tx>, month: string, monthOf: int -> string): (r: seq<Tx>)
    ensures forall t :: t in r <==> t in txs && t.transactionDate.Some? && monthOf(t.transactionDate.value) == month
  {
    if txs == [] then []
    else (if txs[0].transactionDate.Some? && monthOf(txs[0].transactionDate.value) == month
          then [txs[0]] else [])
         + InMonth(txs[1..], month, monthOf)
  }

  /** The bar colour: red below 50, amber from 50, green at 100. */
  function ColorFor(display: int): (c: string)
    ensures c == Red <==> display < 50
    ensures c == Amber <==> 50 <= display < 100
    ensures c == Green <==> display >= 100
  {
    assert Red[1] != Amber[1] && Red[1] != Green[1] && Amber[1] != Green[1];
    if display >= 100 then Green else if display >= 50 then Amber else Red
  }

  function CalculateProgress(plan: PlanRec, txs: seq<Tx>, monthOf: int -> string): (p: Progress)
    ensures 0 <= p.displayPercentage <= 100
    ensures p.percentage == Round(p.netBalance / TargetGoal(plan) * 100.0)
    ensures p.displayPercentage == Clamp(p.percentage)
    ensures p.color == ColorFor(p.displayPercentage)
    ensures p.netBalance == p.income - p.expense
    ensures p.remaining == TargetGoal(plan) - p.netBalance
    ensures p.income == SumOfType(InMonth(txs, plan.month, monthOf), "Income")
    ensures p.expense == SumOfType(InMonth(txs, plan.month, monthOf), "Expense")
  {
    var monthly := InMonth(txs, plan.month, monthOf);
    var income := SumOfType(monthly, "Income");
    var expense := SumOfType(monthly, "Expense");
    var net := income - expense;
    var target := TargetGoal(plan);
    var percentage := Round(net / target * 100.0);
    var display := Clamp(percentage);
    Progress(income, expense, net, percentage, display, ColorFor(display), target - net)
  }

  /** The colour bands: red exactly below 50, amber exactly from 50 to below
      100, green exactly at 100; and in terms of the unclamped percentage, a
      goal reached or passed is green and a negative balance is red. */
  lemma ProgressColorBands(plan: PlanRec, txs: seq<Tx>, monthOf: int -> string)
    ensures var p := CalculateProgress(plan, txs, monthOf);
      (p.color == Red <==> p.displayPercentage < 50)
      && (p.color == Amber <==> 50 <= p.displayPercentage < 100)
      && (p.color == Green <==> p.displayPercentage == 100)
      && (p.percentage >= 100 ==> p.color == Green)
      && (p.percentage < 50 ==> p.color == Red)
  {
    assert Red[1] != Amber[1] && Red[1] != Green[1] && Amber[1] != Green[1];
  }

  /** A positive target is reached (the bar is green) exactly when the net
      balance of the month is at least 99.5% of it. */
  lemma GreenIffGoalReached(plan: PlanRec, txs: seq<Tx>, monthOf: int -> string)
    requires plan.budgetTarget > 0.0
    ensures var p := CalculateProgress(plan, txs, monthOf);
      p.color == Green <==> p.netBalance * 200.0 >= plan.budgetTarget * 199.0
  {
    var p := CalculateProgress(plan, txs, monthOf);
    var x := p.netBalance / plan.budgetTarget * 100.0;
    assert Green != Amber && Green != Red by {
      assert Red[1] != Green[1] && Amber[1] != Green[1];
    }
    RoundReaches(x, 100);
    ShareReaches(p.netBalance, plan.budgetTarget);
  }

  /** `Math.round(x)` reaches `n` exactly when x + 0.5 does. */
  lemma RoundReaches(x: real, n: int)
    ensures Round(x) >= n <==> x + 0.5 >= n as real
  {
  }

  /** The percentage of a positive target reaches 99.5 exactly when the
      balance reaches 199/200 of the target. */
  lemma ShareReaches(net: real, target: real)
    requires target > 0.0
    ensures net / target * 100.0 >= 99.5 <==> net * 200.0 >= target * 199.0
  {
    var q := net / target;
    assert q * target == net;
    if q * 100.0 >= 99.5 {
      assert q * 200.0 >= 199.0;
      assert q * target * 200.0 >= target * 199.0;
    } else {
      assert q * 200.0 < 199.0;
      assert q * target * 200.0 < target * 199.0;
    }
  }

  /** Filtering a list with one more transaction in front. */
  lemma InMonthPrepend(t: Tx, txs: seq<Tx>, month: string, monthOf: int -> string)
    ensures t.transactionDate.Some? && monthOf(t.transactionDate.value) == month ==>
      InMonth([t] + txs, month, monthOf) == [t] + InMonth(txs, month, monthOf)
    ensures !(t.transactionDate.Some? && monthOf(t.transactionDate.value) == month) ==>
      InMonth([t] + txs, month, monthOf) == InMonth(txs, month, monthOf)
  {
    assert ([t] + txs)[1..] == txs;
  }

  /** The sums of one type over the month, with one more transaction in
      front: it adds its amount when it is dated in the month and of that
      type, and nothing otherwise. */
  lemma MonthSumPrepend(t: Tx, txs: seq<Tx>, month: string, monthOf: int -> string, ty: string)
    ensures SumOfType(InMonth([t] + txs, month, monthOf), ty)
         == SumOfType(InMonth(txs, month, monthOf), ty)
            + (if t.transactionDate.Some? && monthOf(t.transactionDate.value) == month
                  && t.transactionType == ty then t.amount else 0.0)
  {
    InMonthPrepend(t, txs, month, monthOf);
    var tail := InMonth(txs, month, monthOf);
    assert ([t] + tail)[1..] == tail;
  }

  /** A transaction dated in the plan's month moves the net balance by its
      amount, up for "Income" and down for "Expense", and the remainder the
      other way; a transaction dated in another month, or undated, moves
      nothing. */
  lemma NetBalanceOfPrepended(plan: PlanRec, t: Tx, txs: seq<Tx>, monthOf: int -> string)
    ensures var inMonth := t.transactionDate.Some? && monthOf(t.transactionDate.value) == plan.month;
      var before := CalculateProgress(plan, txs, monthOf);
      var after := CalculateProgress(plan, [t] + txs, monthOf);
      (inMonth && t.transactionType == "Income" ==>
        after.netBalance == before.netBalance + t.amount
        && after.remaining == before.remaining - t.amount)
      && (inMonth && t.transactionType == "Expense" ==>
        after.netBalance == before.netBalance - t.amount
        && after.remaining == before.remaining + t.amount)
  {
    MonthSumPrepend(t, txs, plan.month, monthOf, "Income");
    MonthSumPrepend(t, txs, plan.month, monthOf, "Expense");
  }

  /** A transaction dated in another month, or undated, changes no figure
      of the plan's progress. */
  lemma OtherMonthIgnored(plan: PlanRec, t: Tx, txs: seq<Tx>, monthOf: int -> string)
    requires !(t.transactionDate.Some? && monthOf(t.transactionDate.value) == plan.month)
    ensures CalculateProgress(plan, [t] + txs, monthOf) == CalculateProgress(plan, txs, monthOf)
  {
    InMonthPrepend(t, txs, plan.month, monthOf);
  }
}
