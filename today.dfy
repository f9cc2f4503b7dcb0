/** The "today" page: the day's expense list with its running total, the
    quick-add modal, and the icon shown for each entry's category. */
module Today {
  import opened Common

  datatype Category = Category(name: string, icon: string)

  /** The quick-add categories, in the order the modal offers them. */
  const Categories: seq<Category> := [
    Category("Food", "🍔"),
    Category("Transport", "🚗"),
    Category("Shopping", "🛍️"),
    Category("Bills", "🧾"),
    Category("Health", "💊"),
    Category("Fun", "🎮"),
    Category("Other", "📦")]

  const FallbackIcon: string := "💰"

  /** `cats.find(c => c.name === name)`: the first category with that name. */
  function Find(cats: seq<Category>, name: string): (r: Option<Category>)
    ensures r.None? <==> forall i :: 0 <= i < |cats| ==> cats[i].name != name
    ensures r.Some? ==> exists i :: 0 <= i < |cats| && cats[i] == r.value
                          && cats[i].name == name
                          && forall j :: 0 <= j < i ==> cats[j].name != name
  {
    if cats == [] then None
    else if cats[0].name == name then Some(cats[0])
    else
      var r := Find(cats[1..], name);
      assert r.Some? ==> exists i :: 0 <= i < |cats[1..]| && cats[1..][i] == r.value
                          && cats[1..][i].name == name
                          && forall j :: 0 <= j < i ==> cats[1..][j].name != name;
      if r.Some? then
        var i :| 0 <= i < |cats[1..]| && cats[1..][i] == r.value
                 && cats[1..][i].name == name
                 && forall j :: 0 <= j < i ==> cats[1..][j].name != name;
        assert cats[i + 1] == r.value && forall j :: 0 <= j < i + 1 ==> cats[j].name != name;
        r
      else r
  }

  /** The icon of an entry: its category's icon, or the fallback. */
  function CategoryIcon(description: string): (icon: string)
    ensures (forall i :: 0 <= i < |Categories| ==> Categories[i].name != description) ==>
      icon == FallbackIcon
  {
    match Find(Categories, description)
    case Some(c) => if c.icon != "" then c.icon else FallbackIcon
    case None => FallbackIcon
  }

  /** Every offered category shows its own icon. */
  lemma CategoriesShowTheirIcons()
    ensures forall i :: 0 <= i < |Categories| ==> CategoryIcon(Categories[i].name) == Categories[i].icon
  {
    forall i | 0 <= i < |Categories|
      ensures CategoryIcon(Categories[i].name) == Categories[i].icon
    {
      var r := Find(Categories, Categories[i].name);
      var k :| 0 <= k < |Categories| && Categories[k] == r.value
               && Categories[k].name == Categories[i].name
               && forall j :: 0 <= j < k ==> Categories[j].name != Categories[i].name;
      NamesDistinct(k, i);
    }
  }

  lemma NamesDistinct(k: int, i: int)
    requires 0 <= k < |Categories| && 0 <= i < |Categories|
    requires Categories[k].name == Categories[i].name
    ensures k == i
  {
    var names := seq(|Categories|, j requires 0 <= j < |Categories| => Categories[j].name);
    assert names[k] == names[i];
    assert names == ["Food", "Transport", "Shopping", "Bills", "Health", "Fun", "Other"];
    assert forall a, b :: 0 <= a < b < |names| ==> names[a][0] != names[b][0] || |names[a]| != |names[b]|;
  }

  /** The record a save creates, dated `day` and stamped at `now`. */
  function ExpenseRecord(amount: real, category: string, day: int, now: int): (t: Tx)
    // an "Expense" row, so the page's expense total counts it
    ensures t.transactionType == "Expense" && AllExpenses([t])
    ensures t.amount == amount && t.description == category && t.transactionDate == Some(day)
    ensures t.createdAt == Some(now) && t.id.None?
  {
    Tx(None, amount, "Expense", "", "", category, Some(now), Some(day))
  }

  predicate AllExpenses(txs: seq<Tx>)
  {
    forall i :: 0 <= i < |txs| ==> txs[i].transactionType == "Expense"
  }

  /** On a list of expenses only, the expense total is the sum of every
      amount. A guest page starts empty with total 0 and its saves keep
      `TotalMatchesList` and `AllExpenses`, so its total is always the sum
      of the amounts it lists. */
  lemma {:induction false} ExpenseTotalOfExpenses(txs: seq<Tx>)
    requires AllExpenses(txs)
    ensures SumOfType(txs, "Expense") == SumAmounts(txs)
  {
    if txs != [] {
      ExpenseTotalOfExpenses(txs[1..]);
    }
  }

  class TodayPage {
    const isGuest: bool
    var todayTotal: real
    var transactions: seq<Tx>
    var showModal: bool
    var amount: NumField
    var category: string

    /** The shown total is the total of the shown list's expenses. */
    ghost predicate TotalMatchesList()
      reads this
    {
      todayTotal == SumOfType(transactions, "Expense")
    }

    constructor (isGuest: bool)
      ensures this.isGuest == isGuest
      ensures todayTotal == 0.0 && transactions == [] && !showModal
      ensures amount == Blank && category == "Food"
      ensures TotalMatchesList() && AllExpenses(transactions)
    {
      this.isGuest := isGuest;
      todayTotal := 0.0;
      transactions := [];
      showModal := false;
      amount := Blank;
      category := "Food";
    }

    /** `fetchTodayData` with the query's outcome. A guest fetches nothing.
        Otherwise the list and its expense total are replaced only when the
        query succeeded with data. */
    method FetchTodayData(result: Fetch<seq<Tx>>)
      modifies this`transactions, this`todayTotal
      ensures !isGuest && result.Fetched? && result.data.Some? ==>
        transactions == result.data.value
        && todayTotal == SumOfType(result.data.value, "Expense")
      ensures isGuest || !(result.Fetched? && result.data.Some?) ==>
        transactions == old(transactions) && todayTotal == old(todayTotal)
      ensures old(TotalMatchesList()) ==> TotalMatchesList()
      ensures !isGuest && result.Fetched? && result.data.Some? ==> TotalMatchesList()
    {
      if isGuest {
        return;
      }
      if result.Fetched? && result.data.Some? {
        transactions := result.data.value;
        todayTotal := SumOfType(result.data.value, "Expense");
      }
    }

    /** `handleSave` on day `day` at instant `now`. A blank amount changes
        nothing. A guest's save prepends one expense record, described by
        the chosen category, and adds its amount to the total. A signed-in
        save leaves list and total to the refresh that follows it. Every
        accepted save clears the amount and closes the modal. */
    method HandleSave(day: int, now: int) returns (saved: bool)
      modifies this`transactions, this`todayTotal, this`amount, this`showModal
      ensures saved <==> old(amount).Num?
      ensures !saved ==>
        transactions == old(transactions) && todayTotal == old(todayTotal)
        && amount == old(amount) && showModal == old(showModal)
      ensures saved ==> amount == Blank && !showModal
      ensures saved && isGuest ==>
        transactions == [ExpenseRecord(old(amount).value, category, day, now)] + old(transactions)
        && todayTotal == old(todayTotal) + old(amount).value
      ensures saved && !isGuest ==>
        transactions == old(transactions) && todayTotal == old(todayTotal)
      ensures old(TotalMatchesList()) ==> TotalMatchesList()
      ensures old(AllExpenses(transactions)) ==> AllExpenses(transactions)
    {
      if amount.Blank? {
        return false;
      }
      if isGuest {
        var record := ExpenseRecord(amount.value, category, day, now);
        transactions := [record] + transactions;
        todayTotal := todayTotal + amount.value;
        assert transactions[1..] == old(transactions);
      }
      amount := Blank;
      showModal := false;
      return true;
    }
  }
}
