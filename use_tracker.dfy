/** The `useTracker` hook: the signed-in user's recent expense rows, the
    active plan's daily limit and a loading flag, with the remote insert of an
    expense and the "spent today" total. The backend queries are parameters:
    each call receives the outcome its query produced. */
module UseTracker {
  import opened Common

  datatype User = User(id: string)

  /** A session object; `user` may be missing from it. */
  datatype Session = Session(user: Option<User>)

  /** `session?.user` is truthy. */
  predicate HasUser(session: Option<Session>)
    ensures HasUser(session) ==> session.Some? && session.value.user.Some?
    // no session, or a session without a user, counts as no user
    ensures session.None? || session.value.user.None? ==> !HasUser(session)
  {
    session.Some? && session.value.user.Some?
  }

  /** `plan?.daily_limit` is truthy: a plan was found and its limit is not 0. */
  predicate LimitFound(planDailyLimit: Option<real>)
    ensures LimitFound(planDailyLimit) ==> planDailyLimit.Some? && planDailyLimit.value != 0.0
    // no plan, or a plan whose limit is 0, is not a limit
    ensures planDailyLimit.None? || planDailyLimit == Some(0.0) ==> !LimitFound(planDailyLimit)
  {
    planDailyLimit.Some? && planDailyLimit.value != 0.0
  }

  /** "Spent today": the amounts created between today's 00:00:00.000 and
      23:59:59.999, and nothing else. */
  lemma {:induction false} SpentTodayPrepend(t: Tx, txs: seq<Tx>, today: int)
    ensures DayTotal([t] + txs, today)
         == DayTotal(txs, today) + (if StampedIn(t, DayStart(today), DayEnd(today)) then t.amount else 0.0)
  {
    assert ([t] + txs)[1..] == txs;
  }

  /** A list with nothing created today has spent nothing today. */
  lemma {:induction false} NothingTodaySpendsNothing(txs: seq<Tx>, today: int)
    requires forall i :: 0 <= i < |txs| ==> !StampedIn(txs[i], DayStart(today), DayEnd(today))
    ensures DayTotal(txs, today) == 0.0
  {
    if txs != [] {
      NothingTodaySpendsNothing(txs[1..], today);
    }
  }

  class Tracker {
    var transactions: seq<Tx>
    var dailyLimit: real
    var loading: bool

    constructor ()
      ensures transactions == [] && dailyLimit == 0.0 && loading
    {
      transactions := [];
      dailyLimit := 0.0;
      loading := true;
    }

    /** `fetchData`. Without a user only `loading` is cleared. With one, the
        rows replace the list wholesale unless the query failed, the daily
        limit is overwritten only by a truthy plan limit, and `loading` ends
        false. */
    method FetchData(session: Option<Session>, rows: Fetch<seq<Tx>>, planDailyLimit: Option<real>)
      modifies this
      ensures !loading
      ensures !HasUser(session) ==> transactions == old(transactions) && dailyLimit == old(dailyLimit)
      ensures HasUser(session) && rows.Failed? ==> transactions == old(transactions)
      ensures HasUser(session) && rows.Fetched? ==> transactions == OrEmpty(rows.data)
      ensures HasUser(session) ==>
        dailyLimit == if LimitFound(planDailyLimit) then planDailyLimit.value else old(dailyLimit)
    {
      if !HasUser(session) {
        loading := false;
        return;
      }
      loading := true;
      if rows.Fetched? {
        transactions := OrEmpty(rows.data);
      }
      if LimitFound(planDailyLimit) {
        dailyLimit := planDailyLimit.value;
      }
      loading := false;
    }

    /** `addExpense`: the insert's confirmed row is prepended; without a user,
        on an error or with no row returned, nothing changes. */
    method AddExpense(session: Option<Session>, amount: real, category: string, inserted: Fetch<Tx>)
      modifies this`transactions
      ensures HasUser(session) && inserted.Fetched? && inserted.data.Some? ==>
        transactions == [inserted.data.value] + old(transactions)
      ensures !(HasUser(session) && inserted.Fetched? && inserted.data.Some?) ==>
        transactions == old(transactions)
    {
      if !HasUser(session) {
        return;
      }
      if inserted.Fetched? && inserted.data.Some? {
        transactions := [inserted.data.value] + transactions;
      }
    }

    /** `totalSpentToday` for the day index `today` of the clock. */
    function TotalSpentToday(today: int): (r: real)
      reads this
      ensures r == SumAmounts(CreatedOnDay(transactions, today))
    {
      FilteredSumIsDayTotal(transactions, today);
      DayTotal(transactions, today)
    }
  }
}
