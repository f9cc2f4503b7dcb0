/** Values shared by every part of the tracker: optional values, backend
    outcomes, number-input fields, the local-time axis, the transaction
    record, the sums taken over transaction lists, and the list edits
    (filter by id, replace by id) the pages apply to their state. */
module Common {

  datatype Option<T> = None | Some(value: T)

  datatype Result<T, E> = Ok(value: T) | Err(error: E)

  /** The outcome of one backend query: an error, or data that may be null. */
  datatype Fetch<T> = Failed | Fetched(data: Option<T>)

  /** The text of an `<input type="number">`: the empty string, or a string
      that reads as the number `value`. Any non-empty string is truthy in
      JavaScript, so `Num(0.0)` ("0") is truthy while `Blank` is not. */
  datatype NumField = Blank | Num(value: real)

  /** `data || []`: the rows of a query, or no rows when its data is null. */
  function OrEmpty<T>(data: Option<seq<T>>): seq<T>
  {
    match data
    case Some(rows) => rows
    case None => []
  }

  // ---------------------------------------------------------------------
  // Time: an instant is a count of milliseconds on the local-time axis, and
  // day `d` covers the instants DayStart(d) .. DayEnd(d), that is from
  // 00:00:00.000 to 23:59:59.999 of that day.
  // ---------------------------------------------------------------------

  const DayMs: int := 86400000

  function DayOf(t: int): int { t / DayMs }

  function DayStart(d: int): int { d * DayMs }

  function DayEnd(d: int): int { d * DayMs + DayMs - 1 }

  predicate InDay(t: int, d: int) { DayStart(d) <= t <= DayEnd(d) }

  /** The day window of `d` holds exactly the instants whose day is `d`, so
      the windows of two different days never overlap. */
  lemma InDayIsDayOf(t: int, d: int)
    ensures InDay(t, d) <==> DayOf(t) == d
    ensures InDay(t, DayOf(t))
  {
  }

  lemma DayOfMonotone(a: int, b: int)
    requires a <= b
    ensures DayOf(a) <= DayOf(b)
  {
  }

  // ---------------------------------------------------------------------
  // The transaction record. The source uses one duck-typed object with
  // whichever fields a flow sets; an absent string field is "" here (it is
  // falsy and equals no label the code compares with), an absent timestamp
  // is None.
  // ---------------------------------------------------------------------

  datatype Tx = Tx(
    id: Option<int>,              // `id`; guest records of the context carry none
    amount: real,                 // `amount`
    transactionType: string,      // `transaction_type`: "Income" or "Expense"
    kind: string,                 // `type`: "expense" on context and hook rows
    category: string,             // `category`
    description: string,          // `description`
    createdAt: Option<int>,       // `created_at`, an instant
    transactionDate: Option<int>) // `transaction_date`, a day index

  function TxId(t: Tx): Option<int> { t.id }

  predicate StampedIn(t: Tx, lo: int, hi: int)
  {
    t.createdAt.Some? && lo <= t.createdAt.value <= hi
  }

  /** Sum of every amount, with no filter (the context's guest total). */
  function SumAmounts(txs: seq<Tx>): real
  {
    if txs == [] then 0.0 else txs[0].amount + SumAmounts(txs[1..])
  }

  /** Sum of the amounts whose `created_at` lies in [lo, hi]. */
  function StampedTotal(txs: seq<Tx>, lo: int, hi: int): real
  {
    if txs == [] then 0.0
    else (if StampedIn(txs[0], lo, hi) then txs[0].amount else 0.0) + StampedTotal(txs[1..], lo, hi)
  }

  /** Sum of the amounts created on day `d`, between its 00:00:00.000 and its
      23:59:59.999 inclusive. */
  function DayTotal(txs: seq<Tx>, d: int): real
  {
    StampedTotal(txs, DayStart(d), DayEnd(d))
  }

  /** `txs.filter(t => start <= created_at <= end)` for the window of day `d`. */
  function CreatedOnDay(txs: seq<Tx>, d: int): (r: seq<Tx>)
    ensures forall t :: t in r ==> t in txs && StampedIn(t, DayStart(d), DayEnd(d))
    ensures forall t :: t in txs && StampedIn(t, DayStart(d), DayEnd(d)) ==> t in r
  {
    if txs == [] then []
    else (if StampedIn(txs[0], DayStart(d), DayEnd(d)) then [txs[0]] else []) + CreatedOnDay(txs[1..], d)
  }

  /** Filtering to a day and then summing (the challenge slots) gives the same
      number as summing with the day test inside the fold (the hook's
      "spent today"). */
  lemma {:induction false} FilteredSumIsDayTotal(txs: seq<Tx>, d: int)
    ensures SumAmounts(CreatedOnDay(txs, d)) == DayTotal(txs, d)
  {
    if txs != [] {
      FilteredSumIsDayTotal(txs[1..], d);
      var head := if StampedIn(txs[0], DayStart(d), DayEnd(d)) then [txs[0]] else [];
      SumAmountsConcat(head, CreatedOnDay(txs[1..], d));
    }
  }

  lemma {:induction false} SumAmountsConcat(a: seq<Tx>, b: seq<Tx>)
    ensures SumAmounts(a + b) == SumAmounts(a) + SumAmounts(b)
  {
    if a != [] {
      assert (a + b)[1..] == a[1..] + b;
      SumAmountsConcat(a[1..], b);
    } else {
      assert a + b == b;
    }
  }

  /** Sum of the amounts whose `transaction_type` is exactly `ty`. */
  function SumOfType(txs: seq<Tx>, ty: string): real
  {
    if txs == [] then 0.0
    else (if txs[0].transactionType == ty then txs[0].amount else 0.0) + SumOfType(txs[1..], ty)
  }

  lemma {:induction false} StampedTotalConcat(a: seq<Tx>, b: seq<Tx>, lo: int, hi: int)
    ensures StampedTotal(a + b, lo, hi) == StampedTotal(a, lo, hi) + StampedTotal(b, lo, hi)
  {
    if a != [] {
      assert (a + b)[1..] == a[1..] + b;
      StampedTotalConcat(a[1..], b, lo, hi);
    } else {
      assert a + b == b;
    }
  }

  /** A span that starts at midnight of day `d` splits into day `d` and the
      rest of the span: the two parts are disjoint and cover the whole. */
  lemma {:induction false} SplitFirstDay(txs: seq<Tx>, d: int, hi: int)
    requires hi >= DayEnd(d)
    ensures StampedTotal(txs, DayStart(d), hi)
         == DayTotal(txs, d) + StampedTotal(txs, DayStart(d + 1), hi)
  {
    if txs != [] {
      SplitFirstDay(txs[1..], d, hi);
      assert DayStart(d + 1) == DayEnd(d) + 1;
    }
  }

  lemma {:induction false} SumOfTypeConcat(a: seq<Tx>, b: seq<Tx>, ty: string)
    ensures SumOfType(a + b, ty) == SumOfType(a, ty) + SumOfType(b, ty)
  {
    if a != [] {
      assert (a + b)[1..] == a[1..] + b;
      SumOfTypeConcat(a[1..], b, ty);
    } else {
      assert a + b == b;
    }
  }

  // ---------------------------------------------------------------------
  // List edits: `list.filter(x => x.id !== id)` and
  // `list.map(x => x.id === id ? f(x) : x)`.
  // ---------------------------------------------------------------------

  /** Keeps, in order, the elements whose id differs from `id`. */
  function RemoveId<T>(s: seq<T>, idOf: T -> Option<int>, id: Option<int>): (r: seq<T>)
    ensures |r| <= |s|
    ensures forall x :: x in r ==> x in s && idOf(x) != id
    ensures forall x :: x in s && idOf(x) != id ==> x in r
  {
    if s == [] then []
    else (if idOf(s[0]) != id then [s[0]] else []) + RemoveId(s[1..], idOf, id)
  }

  /** Filtering distributes over concatenation: the survivors keep their
      relative order. */
  lemma {:induction false} RemoveIdConcat<T>(a: seq<T>, b: seq<T>, idOf: T -> Option<int>, id: Option<int>)
    ensures RemoveId(a + b, idOf, id) == RemoveId(a, idOf, id) + RemoveId(b, idOf, id)
  {
    if a == [] {
      assert a + b == b;
    } else {
      assert (a + b)[1..] == a[1..] + b;
      RemoveIdConcat(a[1..], b, idOf, id);
    }
  }

  /** When no element carries `id`, filtering changes nothing. */
  lemma {:induction false} RemoveIdAbsent<T>(s: seq<T>, idOf: T -> Option<int>, id: Option<int>)
    requires forall i :: 0 <= i < |s| ==> idOf(s[i]) != id
    ensures RemoveId(s, idOf, id) == s
  {
    if s != [] {
      RemoveIdAbsent(s[1..], idOf, id);
      assert [s[0]] + s[1..] == s;
    }
  }

  /** Replaces each element whose id equals `id` by `f` of it, in place. */
  function ReplaceId<T>(s: seq<T>, idOf: T -> Option<int>, id: Option<int>, f: T -> T): (r: seq<T>)
    ensures |r| == |s|
    ensures forall i :: 0 <= i < |s| && idOf(s[i]) == id ==> r[i] == f(s[i])
    ensures forall i :: 0 <= i < |s| && idOf(s[i]) != id ==> r[i] == s[i]
  {
    if s == [] then []
    else [if idOf(s[0]) == id then f(s[0]) else s[0]] + ReplaceId(s[1..], idOf, id, f)
  }
}
