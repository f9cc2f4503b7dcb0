/** The tracker context: the one place that decides which transaction list the
    pages see. With a session it exposes the hook's remote rows and their
    "spent today" total; without one it exposes the guest list and the sum of
    all guest amounts. It also holds the challenge configuration and the
    display currency. */
module TrackerContext {
  import opened Common
  import opened UseTracker
  import FormatCurrency

  /** `activeChallenge` when not null: '7day' or '30day'. */
  datatype Variant = SevenDay | ThirtyDay

  /** The step of one challenge card: 'start', 'input' or 'active'. */
  datatype Step = Start | Input | Active

  /** The initial currency: the stored code, or "USD" when storage holds
      nothing, holds the empty string, or cannot be read (None). */
  function InitialCurrency(stored: Option<string>): (r: string)
    ensures stored.Some? && stored.value != "" ==> r == stored.value
    ensures stored.None? || stored.value == "" ==> r == "USD"
  {
    match stored
    case Some(code) => if code != "" then code else "USD"
    case None => "USD"
  }

  /** The record a guest `addExpense(amount, category)` creates at instant `now`. */
  function GuestRecord(amount: real, category: string, now: int): (t: Tx)
    // carries the amount and the category, and no id
    ensures t.amount == amount && t.category == category && t.description == category && t.id.None?
    // stamped at `now`, so it falls in the window of the day of `now`
    ensures t.createdAt == Some(now) && StampedIn(t, DayStart(DayOf(now)), DayEnd(DayOf(now)))
    // typed by the lowercase `type` only: it is neither an "Income" nor an "Expense" row
    ensures t.kind == "expense" && t.transactionType != "Income" && t.transactionType != "Expense"
  {
    InDayIsDayOf(now, DayOf(now));
    Tx(None, amount, "", "expense", category, category, Some(now), None)
  }

  /** A list whose every entry was created on day `d` totals the same with
      or without the day filter. */
  lemma {:induction false} SameDayTotalIsSum(txs: seq<Tx>, d: int)
    requires forall i :: 0 <= i < |txs| ==> StampedIn(txs[i], DayStart(d), DayEnd(d))
    ensures DayTotal(txs, d) == SumAmounts(txs)
  {
    if txs != [] {
      SameDayTotalIsSum(txs[1..], d);
    }
  }

  lemma SameDaySumsAgree(txs: seq<Tx>)
    ensures forall d :: (forall i :: 0 <= i < |txs| ==> StampedIn(txs[i], DayStart(d), DayEnd(d))) ==>
      DayTotal(txs, d) == SumAmounts(txs)
  {
    forall d | forall i :: 0 <= i < |txs| ==> StampedIn(txs[i], DayStart(d), DayEnd(d))
      ensures DayTotal(txs, d) == SumAmounts(txs)
    {
      SameDayTotalIsSum(txs, d);
    }
  }

  class TrackerProvider {
    const db: Tracker
    var session: Option<Session>
    var guestTransactions: seq<Tx>
    var activeChallenge: Option<Variant>
    var sevenDayLimit: NumField
    var step7: Step
    var thirtyDayGoal: NumField
    var step30: Step
    var currency: string

    constructor (session: Option<Session>, storedCurrency: Option<string>)
      ensures fresh(db) && db.transactions == [] && db.dailyLimit == 0.0 && db.loading
      ensures this.session == session && guestTransactions == []
      ensures activeChallenge == None && sevenDayLimit == Blank && step7 == Start
      ensures thirtyDayGoal == Blank && step30 == Start
      ensures currency == InitialCurrency(storedCurrency)
    {
      db := new Tracker();
      this.session := session;
      guestTransactions := [];
      activeChallenge := None;
      sevenDayLimit := Blank;
      step7 := Start;
      thirtyDayGoal := Blank;
      step30 := Start;
      currency := InitialCurrency(storedCurrency);
    }

    /** The `session` prop changes and the effect on it runs: a session that
        appears empties the guest list, so guest history never reaches the
        signed-in view. */
    method SetSession(s: Option<Session>)
      modifies this`session, this`guestTransactions
      ensures session == s
      ensures s.Some? ==> guestTransactions == [] && ActiveTransactions() == db.transactions
      ensures s.None? ==> guestTransactions == old(guestTransactions)
    {
      session := s;
      if s.Some? {
        guestTransactions := [];
      }
    }

    method SetCurrency(code: string)
      modifies this`currency
      ensures currency == code
    {
      currency := code;
    }

    /** `guestTotal`: the sum of every guest amount, whatever its day. */
    function GuestTotal(): (r: real)
      reads this
      ensures r == SumAmounts(guestTransactions)
      // it agrees with a day's window total whenever every guest entry was created that day
      ensures forall d :: (forall i :: 0 <= i < |guestTransactions| ==>
                             StampedIn(guestTransactions[i], DayStart(d), DayEnd(d))) ==>
                r == DayTotal(guestTransactions, d)
    {
      SameDaySumsAgree(guestTransactions);
      SumAmounts(guestTransactions)
    }

    /** The exposed `transactions`: exactly the remote list with a session,
        exactly the guest list without one, never a combination. */
    function ActiveTransactions(): (r: seq<Tx>)
      reads this, db
      ensures session.Some? ==> r == db.transactions
      ensures session.None? ==> r == guestTransactions
    {
      if session.Some? then db.transactions else guestTransactions
    }

    /** The exposed `totalSpentToday`: the hook's day-filtered total with a
        session, the unfiltered guest total without one. */
    function ActiveTotal(today: int): (r: real)
      reads this, db
      ensures session.Some? ==> r == DayTotal(db.transactions, today)
      ensures session.None? ==> r == SumAmounts(guestTransactions)
    {
      if session.Some? then db.TotalSpentToday(today) else GuestTotal()
    }

    /** `addExpense(amount, category)` at instant `now`. With a session it
        delegates to the hook, whose insert produced `inserted`, and leaves the
        guest list alone; without one it prepends exactly one guest record and
        the guest total grows by exactly `amount`. */
    method AddExpense(amount: real, category: string, now: int, inserted: Fetch<Tx>)
      modifies this`guestTransactions, db`transactions
      ensures session.Some? ==> guestTransactions == old(guestTransactions)
      ensures session.Some? && HasUser(session) && inserted.Fetched? && inserted.data.Some? ==>
        db.transactions == [inserted.data.value] + old(db.transactions)
      ensures session.Some? && !(HasUser(session) && inserted.Fetched? && inserted.data.Some?) ==>
        db.transactions == old(db.transactions)
      ensures session.None? ==>
        guestTransactions == [GuestRecord(amount, category, now)] + old(guestTransactions)
        && db.transactions == old(db.transactions)
      ensures session.None? ==> GuestTotal() == old(GuestTotal()) + amount
    {
      if session.Some? {
        db.AddExpense(session, amount, category, inserted);
      } else {
        guestTransactions := [GuestRecord(amount, category, now)] + guestTransactions;
        assert guestTransactions[1..] == old(guestTransactions);
      }
    }

    /** `formatAmount(amount, opts)`: the formatter applied with the current currency. */
    function FormatAmount(amount: Option<real>, opts: FormatCurrency.Options, localize: FormatCurrency.Localize): (r: string)
      reads this
      ensures r == FormatCurrency.FormatCurrency(amount, currency, opts, localize)
      // the same string as the code as written for every code that is not an inherited key
      ensures currency !in FormatCurrency.ObjectPrototypeKeys ==>
        r == FormatCurrency.FormatCurrencyAsWritten(amount, currency, opts, localize)
    {
      FormatCurrency.FormatCurrency(amount, currency, opts, localize)
    }
  }

  /** `useTrackerContext`: the provider's value, or the error it throws when
      used outside a provider. */
  function UseTrackerContext(ctx: Option<TrackerProvider>): (r: Result<TrackerProvider, string>)
    ensures ctx.None? <==> r.Err?
    ensures ctx.Some? ==> r == Ok(ctx.value)
    ensures r.Err? ==> r.error == "useTrackerContext must be used inside TrackerProvider"
  {
    match ctx
    case Some(p) => Ok(p)
    case None => Err("useTrackerContext must be used inside TrackerProvider")
  }

  /** A guest adds 12 for Food to an empty provider: one transaction is
      exposed and the exposed total is 12. */
  method GuestAddThenQuery(now: int) returns (count: nat, total: real)
    ensures count == 1 && total == 12.0
  {
    var p := new TrackerProvider(None, None);
    p.AddExpense(12.0, "Food", now, Failed);
    count := |p.ActiveTransactions()|;
    total := p.ActiveTotal(DayOf(now));
  }
}
