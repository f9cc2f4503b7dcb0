/** The challenge page: the progress engine of the 7-day and 30-day spending
    challenges, and the handlers that move each challenge card through its
    steps 'start' -> 'input' -> 'active' -> 'start'. The challenge state lives
    in the tracker context; the handlers update its fields.

    The clock is the parameter `now`, an instant; today is its day. */
module Challenge {
  import opened Common
  import opened UseTracker
  import opened TrackerContext

  /** The status of one day slot. */
  datatype Status = Over | Under | Today | Future

  /** One entry of `dayTotals`: the slot's day, what was spent on it, its status. */
  datatype Slot = Slot(day: int, total: real, status: Status)

  /** What `sevenData` / `thirtyData` hold. */
  datatype Progress = Progress(dayTotals: seq<Slot>, limit: real, dayNumber: int)

  // ---------------------------------------------------------------------
  // Smart start
  // ---------------------------------------------------------------------

  /** The earliest `created_at` in [lo, hi], if any: the first element of the
      timestamps in that range sorted ascending. */
  function Earliest(txs: seq<Tx>, lo: int, hi: int): (r: Option<int>)
    ensures r.None? <==> forall t :: t in txs ==> !StampedIn(t, lo, hi)
    ensures r.Some? ==> exists t :: t in txs && StampedIn(t, lo, hi) && t.createdAt.value == r.value
    ensures r.Some? ==> forall t :: t in txs && StampedIn(t, lo, hi) ==> r.value <= t.createdAt.value
  {
    if txs == [] then None
    else
      var rest := Earliest(txs[1..], lo, hi);
      assert forall t :: t in txs ==> t == txs[0] || t in txs[1..];
      if !StampedIn(txs[0], lo, hi) then rest
      else if rest.Some? && rest.value < txs[0].createdAt.value then rest
      else Some(txs[0].createdAt.value)
  }

  /** The first day of an `n`-day challenge: midnight of the earliest
      transaction stamped between midnight `n - 1` days ago and now, or today
      when there is none. It always lies in that trailing window. */
  function SmartStart(txs: seq<Tx>, n: nat, now: int): (start: int)
    requires n >= 1
    ensures DayOf(now) - (n - 1) <= start <= DayOf(now)
  {
    var today := DayOf(now);
    var lo := DayStart(today - (n - 1));
    match Earliest(txs, lo, now)
    case None => today
    case Some(t) =>
      DayOfMonotone(lo, t);
      DayOfMonotone(t, now);
      DayOf(t)
  }

  /** The smart start is today when nothing is stamped in the trailing
      window, and otherwise the day of an in-window transaction that no
      in-window transaction precedes. */
  lemma SmartStartIsEarliestDay(txs: seq<Tx>, n: nat, now: int)
    requires n >= 1
    ensures var lo := DayStart(DayOf(now) - (n - 1));
      (forall t :: t in txs ==> !StampedIn(t, lo, now)) ==> SmartStart(txs, n, now) == DayOf(now)
    ensures var lo := DayStart(DayOf(now) - (n - 1));
      (exists t :: t in txs && StampedIn(t, lo, now)) ==>
        (exists t :: t in txs && StampedIn(t, lo, now) && SmartStart(txs, n, now) == DayOf(t.createdAt.value))
        && (forall t :: t in txs && StampedIn(t, lo, now) ==> SmartStart(txs, n, now) <= DayOf(t.createdAt.value))
  {
    var lo := DayStart(DayOf(now) - (n - 1));
    var e := Earliest(txs, lo, now);
    if e.Some? {
      forall t | t in txs && StampedIn(t, lo, now)
        ensures SmartStart(txs, n, now) <= DayOf(t.createdAt.value)
      {
        DayOfMonotone(e.value, t.createdAt.value);
      }
    }
  }

  // ---------------------------------------------------------------------
  // Day slots
  // ---------------------------------------------------------------------

  /** The status of the slot for `day`: a past day is 'over' when strictly
      more than the limit was spent and 'under' otherwise, today is 'today',
      a later day is 'future'. */
  function Classify(day: int, today: int, total: real, limit: real): (st: Status)
    ensures st == Over <==> day < today && total > limit
    ensures st == Under <==> day < today && total <= limit
    ensures st == Today <==> day == today
    ensures st == Future <==> day > today
  {
    if day < today then (if total > limit then Over else Under)
    else if day == today then Today
    else Future
  }

  /** The `n` slots from `start`: slot i is day start + i, and its total is the
      filtered sum of the amounts stamped within that day. */
  function DayTotals(txs: seq<Tx>, start: int, n: nat, today: int, limit: real): (r: seq<Slot>)
    ensures |r| == n
    ensures forall i :: 0 <= i < n ==> r[i].day == start + i
    ensures forall i :: 0 <= i < n ==> r[i].total == DayTotal(txs, start + i)
    ensures forall i :: 0 <= i < n ==> r[i].status == Classify(start + i, today, r[i].total, limit)
    decreases n
  {
    if n == 0 then []
    else
      var total := SumAmounts(CreatedOnDay(txs, start));
      FilteredSumIsDayTotal(txs, start);
      [Slot(start, total, Classify(start, today, total, limit))] + DayTotals(txs, start + 1, n - 1, today, limit)
  }

  /** `findIndex(d => d.status === 'today')`: the first 'today' slot, or -1. */
  function TodayIndex(slots: seq<Slot>): (r: int)
    ensures -1 <= r < |slots|
    ensures r == -1 <==> forall i :: 0 <= i < |slots| ==> slots[i].status != Today
    ensures r >= 0 ==> slots[r].status == Today && forall i :: 0 <= i < r ==> slots[i].status != Today
  {
    if slots == [] then -1
    else if slots[0].status == Today then 0
    else
      var k := TodayIndex(slots[1..]);
      if k == -1 then -1 else k + 1
  }

  /** The progress of an `n`-day challenge with the given daily limit. */
  function ChallengeProgress(txs: seq<Tx>, n: nat, limit: real, now: int): (p: Progress)
    requires n >= 1
    ensures |p.dayTotals| == n && p.limit == limit
    // slot i is day start + i of the smart start, with that day's window total
    ensures forall i :: 0 <= i < n ==>
      p.dayTotals[i].day == SmartStart(txs, n, now) + i
      && p.dayTotals[i].total == DayTotal(txs, SmartStart(txs, n, now) + i)
    ensures 1 <= p.dayNumber <= n
    ensures p.dayTotals[p.dayNumber - 1].day == DayOf(now)
    ensures p.dayTotals[p.dayNumber - 1].status == Today
  {
    var slots := DayTotals(txs, SmartStart(txs, n, now), n, DayOf(now), limit);
    var k := TodayIndex(slots);
    assert slots[DayOf(now) - SmartStart(txs, n, now)].status == Today;
    Progress(slots, limit, if k != -1 then k + 1 else 1)
  }

  /** The slots are the n consecutive days from the smart start; past days are
      classified against the limit with a strict comparison, the rest by
      their position relative to today. */
  lemma SlotsAreClassified(txs: seq<Tx>, n: nat, limit: real, now: int)
    requires n >= 1
    ensures var p := ChallengeProgress(txs, n, limit, now);
      var start := SmartStart(txs, n, now);
      |p.dayTotals| == n && p.limit == limit
      && (forall i :: 0 <= i < n ==> p.dayTotals[i].day == start + i)
      && (forall i :: 0 <= i < n && p.dayTotals[i].day < DayOf(now) ==>
            (p.dayTotals[i].status == Over <==> p.dayTotals[i].total > limit)
            && (p.dayTotals[i].status == Under <==> p.dayTotals[i].total <= limit))
      && (forall i :: 0 <= i < n && p.dayTotals[i].day > DayOf(now) ==> p.dayTotals[i].status == Future)
  {
  }

  /** Exactly one slot is today's, at the offset of today from the smart
      start; so the day number is that offset plus one, between 1 and n, and
      the fallback to 1 never fires. */
  lemma TodaySlotIsUnique(txs: seq<Tx>, n: nat, limit: real, now: int)
    requires n >= 1
    ensures var p := ChallengeProgress(txs, n, limit, now);
      var k := DayOf(now) - SmartStart(txs, n, now);
      0 <= k < n
      && p.dayTotals[k].status == Today
      && (forall i :: 0 <= i < n && i != k ==> p.dayTotals[i].status != Today)
      && TodayIndex(p.dayTotals) == k
      && p.dayNumber == k + 1
      && 1 <= p.dayNumber <= n
  {
    var start := SmartStart(txs, n, now);
    var slots := DayTotals(txs, start, n, DayOf(now), limit);
    var k := DayOf(now) - start;
    assert slots[k].status == Today;
    var j := TodayIndex(slots);
    assert j != -1;
  }

  /** Sum of the slot totals. */
  function SlotsSum(slots: seq<Slot>): real
  {
    if slots == [] then 0.0 else slots[0].total + SlotsSum(slots[1..])
  }

  lemma {:induction false} DayTotalsCoverSpan(txs: seq<Tx>, start: int, n: nat, today: int, limit: real)
    requires n >= 1
    ensures SlotsSum(DayTotals(txs, start, n, today, limit))
         == StampedTotal(txs, DayStart(start), DayEnd(start + n - 1))
    decreases n
  {
    var r := DayTotals(txs, start, n, today, limit);
    if n == 1 {
      assert r[1..] == [];
    } else {
      DayTotalsCoverSpan(txs, start + 1, n - 1, today, limit);
      assert r[1..] == DayTotals(txs, start + 1, n - 1, today, limit);
      SplitFirstDay(txs, start, DayEnd(start + n - 1));
    }
  }

  /** The day slots partition the challenge span: their totals add up to the
      amounts stamped anywhere from the first slot's 00:00:00.000 to the last
      slot's 23:59:59.999. */
  lemma BucketsCoverSpan(txs: seq<Tx>, n: nat, limit: real, now: int)
    requires n >= 1
    ensures var start := SmartStart(txs, n, now);
      SlotsSum(ChallengeProgress(txs, n, limit, now).dayTotals)
        == StampedTotal(txs, DayStart(start), DayEnd(start + n - 1))
  {
    DayTotalsCoverSpan(txs, SmartStart(txs, n, now), n, DayOf(now), limit);
  }

  /** No instant falls in two slots. */
  lemma SlotsAreDisjoint(t: int, start: int, i: int, j: int)
    requires InDay(t, start + i) && InDay(t, start + j)
    ensures i == j
  {
    InDayIsDayOf(t, start + i);
    InDayIsDayOf(t, start + j);
  }

  // ---------------------------------------------------------------------
  // Limits and today's budget
  // ---------------------------------------------------------------------

  /** `Number(sevenDayLimit || dailyLimit || 0)`: the entered limit, else the
      plan's daily limit (0 when there is none). */
  function SevenDayLimitOf(sevenDayLimit: NumField, dailyLimit: real): (r: real)
    ensures sevenDayLimit.Num? ==> r == sevenDayLimit.value
    ensures sevenDayLimit.Blank? ==> r == dailyLimit
  {
    match sevenDayLimit
    case Num(v) => v
    case Blank => dailyLimit  // `dailyLimit || 0` is `dailyLimit` itself
  }

  /** The 30-day daily limit: the total budget divided by 30 when positive,
      else 0. */
  function ThirtyDayLimitOf(thirtyDayGoal: NumField): (r: real)
    ensures r >= 0.0
    ensures thirtyDayGoal.Num? && thirtyDayGoal.value > 0.0 ==> r * 30.0 == thirtyDayGoal.value
    ensures !(thirtyDayGoal.Num? && thirtyDayGoal.value > 0.0) ==> r == 0.0
  {
    var totalBudget := match thirtyDayGoal case Num(v) => v case Blank => 0.0;
    if totalBudget > 0.0 then totalBudget / 30.0 else 0.0
  }

  /** The 7-day challenge's progress: seven slots, the entered limit or else
      the plan's, and a day number pointing at today's slot. */
  function SevenData(txs: seq<Tx>, sevenDayLimit: NumField, dailyLimit: real, now: int): (p: Progress)
    ensures |p.dayTotals| == 7 && 1 <= p.dayNumber <= 7
    ensures p.limit == if sevenDayLimit.Num? then sevenDayLimit.value else dailyLimit
    ensures p.dayTotals[p.dayNumber - 1].day == DayOf(now)
  {
    ChallengeProgress(txs, 7, SevenDayLimitOf(sevenDayLimit, dailyLimit), now)
  }

  /** The 30-day challenge's progress: thirty slots, a thirtieth of a
      positive budget as the daily limit, and a day number pointing at
      today's slot. */
  function ThirtyData(txs: seq<Tx>, thirtyDayGoal: NumField, now: int): (p: Progress)
    ensures |p.dayTotals| == 30 && 1 <= p.dayNumber <= 30
    ensures p.limit >= 0.0
    ensures thirtyDayGoal.Num? && thirtyDayGoal.value > 0.0 ==> p.limit * 30.0 == thirtyDayGoal.value
    ensures p.dayTotals[p.dayNumber - 1].day == DayOf(now)
  {
    ChallengeProgress(txs, 30, ThirtyDayLimitOf(thirtyDayGoal), now)
  }

  /** `currentLimit`: the active challenge's limit, 0 when none is active. */
  function CurrentLimit(active: Option<Variant>, seven: Progress, thirty: Progress): (r: real)
    ensures active == Some(SevenDay) ==> r == seven.limit
    ensures active == Some(ThirtyDay) ==> r == thirty.limit
    ensures active.None? ==> r == 0.0
  {
    if active == Some(SevenDay) then seven.limit
    else if active == Some(ThirtyDay) then thirty.limit
    else 0.0
  }

  /** `remainingToday` and `isOverToday` for what was spent today. */
  function RemainingToday(active: Option<Variant>, seven: Progress, thirty: Progress, spentToday: real): (r: real)
    ensures r + spentToday == CurrentLimit(active, seven, thirty)
  {
    CurrentLimit(active, seven, thirty) - spentToday
  }

  predicate IsOverToday(active: Option<Variant>, seven: Progress, thirty: Progress, spentToday: real)
    ensures IsOverToday(active, seven, thirty, spentToday) ==> spentToday > CurrentLimit(active, seven, thirty)
  {
    RemainingToday(active, seven, thirty, spentToday) < 0.0
  }

  /** Today is over budget exactly when more than the active limit was spent. */
  lemma OverTodayIffSpentAboveLimit(active: Option<Variant>, seven: Progress, thirty: Progress, spentToday: real)
    ensures IsOverToday(active, seven, thirty, spentToday) <==> spentToday > CurrentLimit(active, seven, thirty)
    ensures active.None? ==> (IsOverToday(active, seven, thirty, spentToday) <==> spentToday > 0.0)
  {
  }

  /** The progress the challenge page shows for the context's current state. */
  function SevenDataOf(ctx: TrackerProvider, now: int): Progress
    reads ctx, ctx.db
  {
    SevenData(ctx.ActiveTransactions(), ctx.sevenDayLimit, ctx.db.dailyLimit, now)
  }

  function ThirtyDataOf(ctx: TrackerProvider, now: int): Progress
    reads ctx, ctx.db
  {
    ThirtyData(ctx.ActiveTransactions(), ctx.thirtyDayGoal, now)
  }

  /** With a session, today's slot of the active challenge holds exactly the
      "spent today" total the context exposes, so the bar and the figure
      agree. */
  lemma TodaySlotMatchesSpentToday(ctx: TrackerProvider, now: int)
    requires ctx.session.Some?
    ensures var p := SevenDataOf(ctx, now);
      p.dayTotals[p.dayNumber - 1].total == ctx.ActiveTotal(DayOf(now))
    ensures var p := ThirtyDataOf(ctx, now);
      p.dayTotals[p.dayNumber - 1].total == ctx.ActiveTotal(DayOf(now))
  {
    TodaySlotIsUnique(ctx.ActiveTransactions(), 7, SevenDayLimitOf(ctx.sevenDayLimit, ctx.db.dailyLimit), now);
    TodaySlotIsUnique(ctx.ActiveTransactions(), 30, ThirtyDayLimitOf(ctx.thirtyDayGoal), now);
  }

  // ---------------------------------------------------------------------
  // The step machine of the two cards
  // ---------------------------------------------------------------------

  predicate Positive(f: NumField)
  {
    f.Num? && f.value > 0.0
  }

  /** The state pointer input keeps: a card's step is 'active' exactly when its
      challenge is the active one (so at most one is), and an active
      challenge has a positive limit or budget. */
  ghost predicate Consistent(ctx: TrackerProvider)
    reads ctx
  {
    && (ctx.step7 == Active <==> ctx.activeChallenge == Some(SevenDay))
    && (ctx.step30 == Active <==> ctx.activeChallenge == Some(ThirtyDay))
    && (ctx.activeChallenge == Some(SevenDay) ==> Positive(ctx.sevenDayLimit))
    && (ctx.activeChallenge == Some(ThirtyDay) ==> Positive(ctx.thirtyDayGoal))
  }

  /** The 7-day card takes pointer input unless the 30-day challenge is
      active (`pointerEvents: 'none'`), and the other way round. The buttons
      carry no `disabled`, so the keyboard still reaches a faded card. */
  predicate SevenCardEnabled(ctx: TrackerProvider)
    reads ctx
    ensures SevenCardEnabled(ctx) <==> ctx.activeChallenge != Some(ThirtyDay)
    // in a consistent state: exactly when the 30-day card is not active
    ensures Consistent(ctx) ==> (SevenCardEnabled(ctx) <==> ctx.step30 != Active)
  {
    ctx.activeChallenge != Some(ThirtyDay)
  }

  predicate ThirtyCardEnabled(ctx: TrackerProvider)
    reads ctx
    ensures ThirtyCardEnabled(ctx) <==> ctx.activeChallenge != Some(SevenDay)
    ensures Consistent(ctx) ==> (ThirtyCardEnabled(ctx) <==> ctx.step7 != Active)
  {
    ctx.activeChallenge != Some(SevenDay)
  }

  /** An active challenge always has a positive daily limit. */
  lemma ActiveChallengeHasPositiveLimit(ctx: TrackerProvider, now: int)
    requires Consistent(ctx)
    ensures ctx.activeChallenge == Some(SevenDay) ==> SevenDataOf(ctx, now).limit > 0.0
    ensures ctx.activeChallenge == Some(ThirtyDay) ==> ThirtyDataOf(ctx, now).limit > 0.0
    ensures !(ctx.step7 == Active && ctx.step30 == Active)
  {
  }

  /** `handleStart7Click`, offered in step 'start'. */
  method HandleStart7Click(ctx: TrackerProvider)
    modifies ctx`step7
    ensures ctx.step7 == Input
    ensures old(Consistent(ctx)) && old(ctx.step7) == Start ==> Consistent(ctx)
  {
    ctx.step7 := Input;
  }

  /** The limit input's `onChange`, offered in step 'input'. */
  method SetSevenDayLimit(ctx: TrackerProvider, value: NumField)
    modifies ctx`sevenDayLimit
    ensures ctx.sevenDayLimit == value
    ensures old(Consistent(ctx)) && old(ctx.step7) == Input ==> Consistent(ctx)
  {
    ctx.sevenDayLimit := value;
  }

  /** `confirmStart7`, offered in step 'input': a missing, zero or negative
      limit is rejected and changes nothing; a positive one activates the
      7-day challenge. */
  method ConfirmStart7(ctx: TrackerProvider) returns (accepted: bool)
    modifies ctx`activeChallenge, ctx`step7
    ensures accepted <==> Positive(ctx.sevenDayLimit)
    ensures !accepted ==> ctx.activeChallenge == old(ctx.activeChallenge) && ctx.step7 == old(ctx.step7)
    ensures accepted ==> ctx.activeChallenge == Some(SevenDay) && ctx.step7 == Active
    ensures old(Consistent(ctx)) && old(ctx.step7) == Input && old(SevenCardEnabled(ctx)) ==> Consistent(ctx)
  {
    if ctx.sevenDayLimit.Blank? || ctx.sevenDayLimit.value <= 0.0 {
      return false;
    }
    ctx.activeChallenge := Some(SevenDay);
    ctx.step7 := Active;
    return true;
  }

  /** `stop7`, offered in step 'active': a confirmed stop clears the active
      challenge, the step and the limit; a declined one changes nothing. */
  method Stop7(ctx: TrackerProvider, confirmed: bool)
    modifies ctx`activeChallenge, ctx`step7, ctx`sevenDayLimit
    ensures confirmed ==> ctx.activeChallenge == None && ctx.step7 == Start && ctx.sevenDayLimit == Blank
    ensures !confirmed ==>
      ctx.activeChallenge == old(ctx.activeChallenge) && ctx.step7 == old(ctx.step7) && ctx.sevenDayLimit == old(ctx.sevenDayLimit)
    ensures old(Consistent(ctx)) && old(ctx.step7) == Active ==> Consistent(ctx)
  {
    if confirmed {
      ctx.activeChallenge := None;
      ctx.step7 := Start;
      ctx.sevenDayLimit := Blank;
    }
  }

  /** `handleStart30Click`, offered in step 'start'. */
  method HandleStart30Click(ctx: TrackerProvider)
    modifies ctx`step30
    ensures ctx.step30 == Input
    ensures old(Consistent(ctx)) && old(ctx.step30) == Start ==> Consistent(ctx)
  {
    ctx.step30 := Input;
  }

  /** The budget input's `onChange`, offered in step 'input'. */
  method SetThirtyDayGoal(ctx: TrackerProvider, value: NumField)
    modifies ctx`thirtyDayGoal
    ensures ctx.thirtyDayGoal == value
    ensures old(Consistent(ctx)) && old(ctx.step30) == Input ==> Consistent(ctx)
  {
    ctx.thirtyDayGoal := value;
  }

  /** `confirmStart30`: as `confirmStart7`, for the total budget. */
  method ConfirmStart30(ctx: TrackerProvider) returns (accepted: bool)
    modifies ctx`activeChallenge, ctx`step30
    ensures accepted <==> Positive(ctx.thirtyDayGoal)
    ensures !accepted ==> ctx.activeChallenge == old(ctx.activeChallenge) && ctx.step30 == old(ctx.step30)
    ensures accepted ==> ctx.activeChallenge == Some(ThirtyDay) && ctx.step30 == Active
    ensures old(Consistent(ctx)) && old(ctx.step30) == Input && old(ThirtyCardEnabled(ctx)) ==> Consistent(ctx)
  {
    if ctx.thirtyDayGoal.Blank? || ctx.thirtyDayGoal.value <= 0.0 {
      return false;
    }
    ctx.activeChallenge := Some(ThirtyDay);
    ctx.step30 := Active;
    return true;
  }

  /** `stop30`: as `stop7`, clearing the budget. */
  method Stop30(ctx: TrackerProvider, confirmed: bool)
    modifies ctx`activeChallenge, ctx`step30, ctx`thirtyDayGoal
    ensures confirmed ==> ctx.activeChallenge == None && ctx.step30 == Start && ctx.thirtyDayGoal == Blank
    ensures !confirmed ==>
      ctx.activeChallenge == old(ctx.activeChallenge) && ctx.step30 == old(ctx.step30) && ctx.thirtyDayGoal == old(ctx.thirtyDayGoal)
    ensures old(Consistent(ctx)) && old(ctx.step30) == Active ==> Consistent(ctx)
  {
    if confirmed {
      ctx.activeChallenge := None;
      ctx.step30 := Start;
      ctx.thirtyDayGoal := Blank;
    }
  }

  /** Starting the 7-day challenge: a limit of 0 is refused and leaves no
      challenge active; a limit of 30 then activates it. */
  method StartSevenDayScenario() returns (afterZero: Option<Variant>, afterThirty: Option<Variant>, step: Step)
    ensures afterZero == None
    ensures afterThirty == Some(SevenDay) && step == Active
  {
    var ctx := new TrackerProvider(None, None);
    HandleStart7Click(ctx);
    SetSevenDayLimit(ctx, Num(0.0));
    var ok := ConfirmStart7(ctx);
    afterZero := ctx.activeChallenge;
    SetSevenDayLimit(ctx, Num(30.0));
    ok := ConfirmStart7(ctx);
    afterThirty := ctx.activeChallenge;
    step := ctx.step7;
  }

  /** The faded 7-day card is still reachable from the keyboard: with its
      limit typed in the input step, starting the 30-day challenge and then
      confirming the 7-day card leaves both cards in their active step, with
      the 7-day challenge the active one. */
  method KeyboardStartsBothChallenges() returns (active: Option<Variant>, step7: Step, step30: Step)
    ensures active == Some(SevenDay) && step7 == Active && step30 == Active
  {
    var ctx := new TrackerProvider(None, None);
    HandleStart7Click(ctx);
    SetSevenDayLimit(ctx, Num(30.0));
    HandleStart30Click(ctx);
    SetThirtyDayGoal(ctx, Num(900.0));
    var ok30 := ConfirmStart30(ctx);
    var ok7 := ConfirmStart7(ctx);
    active, step7, step30 := ctx.activeChallenge, ctx.step7, ctx.step30;
  }

  /** A 30-day budget of 1500 gives a daily limit of 50, and spending 40
      against a 7-day limit of 30 leaves -10: over budget. */
  lemma LimitScenarios(txs: seq<Tx>, now: int, seven: Progress)
    requires seven.limit == 30.0
    ensures ThirtyData(txs, Num(1500.0), now).limit == 50.0
    ensures RemainingToday(Some(SevenDay), seven, ThirtyData(txs, Num(1500.0), now), 40.0) == -10.0
    ensures IsOverToday(Some(SevenDay), seven, ThirtyData(txs, Num(1500.0), now), 40.0)
  {
  }
}
