/** The monthly calendar projector: the subscription window widened to whole
    Monday-to-Sunday weeks, one summary per day (rotation slot, subscription and
    future flags, the day's nutrition, workout and habit completion read from the
    log map), chunked into weeks and indexed by date. Days are day numbers and the
    log map is keyed by day. */
module Calendar {
  import opened Wrappers
  import opened Domain

  // ---------------------------------------------------------------- lookups

  /** The map a `forEach` of `lookup.set(key(x), val(x))` leaves: later entries
      overwrite earlier ones with the same key. */
  function Index<T, K(==), V>(s: seq<T>, key: T -> K, val: T -> V): (m: map<K, V>)
    ensures forall i :: 0 <= i < |s| ==> key(s[i]) in m
    ensures forall k :: k in m ==> exists i :: 0 <= i < |s| && key(s[i]) == k
  {
    if s == [] then map[]
    else
      var m := Index(s[..|s| - 1], key, val);
      assert forall i :: 0 <= i < |s| - 1 ==> s[..|s| - 1][i] == s[i];
      m[key(s[|s| - 1]) := val(s[|s| - 1])]
  }

  /** The entry stored under a key is the value of its last occurrence. */
  lemma {:induction false} IndexLastWins<T, K, V>(s: seq<T>, key: T -> K, val: T -> V, i: int)
    requires 0 <= i < |s|
    requires forall j :: i < j < |s| ==> key(s[j]) != key(s[i])
    ensures Index(s, key, val)[key(s[i])] == val(s[i])
  {
    if i < |s| - 1 {
      var init := s[..|s| - 1];
      assert init[i] == s[i];
      assert forall j :: i < j < |init| ==> init[j] == s[j];
      IndexLastWins(init, key, val, i);
    }
  }

  /** With distinct keys every element is found under its own key. */
  lemma IndexDistinct<T, K, V>(s: seq<T>, key: T -> K, val: T -> V, i: int)
    requires 0 <= i < |s|
    requires forall a, b :: 0 <= a < b < |s| ==> key(s[a]) != key(s[b])
    ensures Index(s, key, val)[key(s[i])] == val(s[i])
  {
    IndexLastWins(s, key, val, i);
  }

  /** The `forEach` that fills a lookup map. */
  method BuildIndex<T, K(==), V>(s: seq<T>, key: T -> K, val: T -> V) returns (m: map<K, V>)
    ensures m == Index(s, key, val)
  {
    m := map[];
    for n := 0 to |s|
      invariant m == Index(s[..n], key, val)
    {
      assert s[..n + 1][..n] == s[..n];
      m := m[key(s[n]) := val(s[n])];
    }
    assert s[..|s|] == s;
  }

  function EntryDay(e: ScheduleEntry): int { e.day }
  function EntrySession(e: ScheduleEntry): Option<string> { e.sessionId }
  function SessionKey(s: WorkoutSession): string { s.id }
  function SessionSelf(s: WorkoutSession): WorkoutSession { s }
  function PlanDayKey(d: DailyNutritionPlan): int { d.dayIndex.GetOr(0) }
  function PlanDaySelf(d: DailyNutritionPlan): DailyNutritionPlan { d }

  // ---------------------------------------------------------------- window

  /** Start of the subscription, as a day; plans without one start on their creation day. */
  function StartDay(plan: GeneratedPlan): Day {
    DayOf(plan.subscriptionStart.GetOr(plan.createdAt))
  }

  /** End of the subscription, as a day; by default 29 days after the start. */
  function EndDay(plan: GeneratedPlan): Day {
    if plan.subscriptionEnd.Some? then DayOf(plan.subscriptionEnd.value) else StartDay(plan) + 29
  }

  /** The Monday of the week `start` falls in. */
  function CalendarStart(start: Day): (d: Day)
    ensures Weekday(d) == 0 && d <= start <= d + 6
  {
    start - Weekday(start)
  }

  /** The Sunday of the week `end` falls in. */
  function CalendarEnd(end: Day): (d: Day)
    ensures end <= d <= end + 6 && Weekday(d) == 6
  {
    end + (6 - Weekday(end))
  }

  /** The grid begins on the Monday on or before the start, at most six days
      earlier, and ends on the Sunday on or after the end. */
  lemma WindowIsWholeWeeks(start: Day, end: Day)
    ensures Weekday(CalendarStart(start)) == 0 && CalendarStart(start) <= start <= CalendarStart(start) + 6
    ensures Weekday(CalendarEnd(end)) == 6 && end <= CalendarEnd(end) <= end + 6
    ensures (CalendarEnd(end) + 1 - CalendarStart(start)) % 7 == 0
  {
  }

  /** `rotationIndex`: the start's weekday advanced by the days elapsed since the start. */
  function RotationIndex(start: Day, d: Day): (r: int)
    ensures 0 <= r < 7
  {
    var diff := if d - start > 0 then d - start else 0;
    ((Weekday(start) + diff) % 7 + 7) % 7
  }

  /** From the start on, the rotation slot of a day is the day's own weekday. */
  lemma RotationIndexIsWeekday(start: Day, d: Day)
    requires start <= d
    ensures RotationIndex(start, d) == Weekday(d)
  {
    var q := (start + 3) / 7;
    assert Weekday(start) == start + 3 - 7 * q;
    assert Weekday(start) + (d - start) == (d + 3) - 7 * q;
  }

  /** Before the start, every day has the start's slot. */
  lemma RotationIndexBeforeStart(start: Day, d: Day)
    requires d < start
    ensures RotationIndex(start, d) == Weekday(start)
  {
  }

  // ---------------------------------------------------------------- day summaries

  const DayLabels: seq<string> := ["Pon", "Uto", "Sre", "\U{010C}et", "Pet", "Sub", "Ned"]

  /** `cursor.getDate()`: the day of the month of a day number, by the proleptic
      Gregorian calendar. */
  function DayOfMonth(d: Day): int {
    var z := d + 719468;
    var era := z / 146097;
    var doe := z - era * 146097;
    var yoe := (doe - doe / 1460 + doe / 36524 - doe / 146096) / 365;
    var doy := doe - (365 * yoe + yoe / 4 - yoe / 100);
    var mp := (5 * doy + 2) / 153;
    doy - (153 * mp + 2) / 5 + 1
  }

  /** 1970-01-01 is the first of its month. */
  lemma DayOfMonthEpoch()
    ensures DayOfMonth(0) == 1
  {
    assert 719468 / 146097 == 4;
    assert 135080 / 1460 == 92 && 135080 / 36524 == 3 && 135080 / 146096 == 0;
    assert 134991 / 365 == 369;
    assert 369 / 4 == 92 && 369 / 100 == 3;
    assert 1532 / 153 == 10 && 1532 / 5 == 306;
  }

  datatype WorkoutSummary = WorkoutSummary(id: string, title: string, focus: Focus, completed: bool)
  datatype ItemStatus = ItemStatus(id: string, title: string, completed: bool)

  datatype CalendarDay = CalendarDay(
    date: Day,
    dayNumber: int,
    dayLabel: string,
    inSubscription: bool,
    isToday: bool,
    isFuture: bool,
    dayType: Option<DayIntensity>,
    workout: Option<WorkoutSummary>,
    meals: seq<ItemStatus>,
    habits: seq<ItemStatus>)

  datatype CalendarData = CalendarData(start: Day, end: Day, weeks: seq<seq<CalendarDay>>, daysByDate: map<Day, CalendarDay>)

  /** Everything the loop reads that does not change from day to day. */
  datatype CalendarContext = CalendarContext(
    start: Day,
    end: Day,
    scheduleLookup: map<int, Option<string>>,
    sessionLookup: map<string, WorkoutSession>,
    nutritionLookup: map<int, DailyNutritionPlan>,
    rotation: seq<DayIntensity>,
    planByDayType: ByDayType,
    habits: seq<Habit>,
    logs: map<Day, DailyLog>,
    today: Day)

  function ContextOf(plan: GeneratedPlan, logs: map<Day, DailyLog>, today: Day): CalendarContext {
    CalendarContext(
      StartDay(plan), EndDay(plan),
      Index(plan.training.schedule, EntryDay, EntrySession),
      Index(plan.training.sessions, SessionKey, SessionSelf),
      Index(plan.nutrition.weeklyPlan, PlanDayKey, PlanDaySelf),
      plan.nutrition.rotation, plan.nutrition.planByDayType, plan.habits.dailyHabits, logs, today)
  }

  /** `getNutritionForDay`: the weekly entry for the slot, else the tier plan of the
      slot's rotation tier (none when the rotation has no such slot). */
  function NutritionForDay(slot: int, lookup: map<int, DailyNutritionPlan>, rotation: seq<DayIntensity>,
                           byType: ByDayType): (r: Option<DailyNutritionPlan>)
    ensures slot in lookup ==> r == Some(lookup[slot])
    ensures slot !in lookup && 0 <= slot < |rotation| ==> r == Some(byType.Get(rotation[slot]))
    ensures slot !in lookup && !(0 <= slot < |rotation|) ==> r.None?
  {
    if slot in lookup then Some(lookup[slot])
    else if 0 <= slot < |rotation| then Some(byType.Get(rotation[slot]))
    else None
  }

  /** `buildWorkoutSummary`: nothing for a rest slot or an unknown session;
      otherwise the session, completed iff its id was logged. */
  function BuildWorkoutSummary(sessionId: Option<string>, lookup: map<string, WorkoutSession>,
                               completedIds: seq<string>): (r: Option<WorkoutSummary>)
    ensures r.None? <==> sessionId.None? || sessionId.value == "" || sessionId.value !in lookup
    ensures r.Some? ==> r.value.id == lookup[sessionId.value].id
    ensures r.Some? ==> (r.value.completed <==> lookup[sessionId.value].id in completedIds)
  {
    if sessionId.None? || sessionId.value == "" then None
    else if sessionId.value !in lookup then None
    else
      var session := lookup[sessionId.value];
      Some(WorkoutSummary(session.id, session.title, session.focus, session.id in completedIds))
  }

  function MealStatuses(meals: seq<MealRecipe>, completed: seq<string>): (r: seq<ItemStatus>) {
    seq(|meals|, k requires 0 <= k < |meals| => ItemStatus(meals[k].id, meals[k].title, meals[k].id in completed))
  }

  function HabitStatuses(habits: seq<Habit>, completed: seq<string>): (r: seq<ItemStatus>) {
    seq(|habits|, k requires 0 <= k < |habits| => ItemStatus(habits[k].id, habits[k].title, habits[k].id in completed))
  }

  /** The log shown for day `d`: the stored one, but never for a day after today. */
  function LogFor(ctx: CalendarContext, d: Day): (r: Option<DailyLog>)
    ensures r.Some? <==> d <= ctx.today && d in ctx.logs
    ensures r.Some? ==> r.value == ctx.logs[d]
  {
    if d > ctx.today then None else if d in ctx.logs then Some(ctx.logs[d]) else None
  }

  /** The summary the loop body builds for day `d`. */
  function DaySummary(ctx: CalendarContext, d: Day): (r: CalendarDay)
    ensures r.date == d
  {
    var inSubscription := ctx.start <= d <= ctx.end;
    var log := LogFor(ctx, d);
    var completedWorkouts := if log.Some? then log.value.workoutsCompleted else [];
    var completedMeals := if log.Some? then log.value.mealsCompleted else [];
    var completedHabits := if log.Some? then log.value.habitsCompleted else [];
    var slot := RotationIndex(ctx.start, d);
    var nutrition := if inSubscription then NutritionForDay(slot, ctx.nutritionLookup, ctx.rotation, ctx.planByDayType) else None;
    var scheduled := if slot in ctx.scheduleLookup then ctx.scheduleLookup[slot] else None;
    CalendarDay(
      d, DayOfMonth(d), DayLabels[Weekday(d)], inSubscription, d == ctx.today, d > ctx.today,
      if nutrition.Some? then Some(nutrition.value.dayType) else None,
      if inSubscription then BuildWorkoutSummary(scheduled, ctx.sessionLookup, completedWorkouts) else None,
      MealStatuses(if nutrition.Some? then nutrition.value.meals else [], completedMeals),
      HabitStatuses(ctx.habits, completedHabits))
  }

  // ---------------------------------------------------------------- properties of a day

  /** Days outside the subscription carry no workout, no tier and no meals. */
  lemma OutsideSubscriptionIsEmpty(ctx: CalendarContext, d: Day)
    requires d < ctx.start || d > ctx.end
    ensures !DaySummary(ctx, d).inSubscription
    ensures DaySummary(ctx, d).workout.None? && DaySummary(ctx, d).dayType.None? && DaySummary(ctx, d).meals == []
  {
  }

  /** Nothing on a future day is marked completed. */
  lemma FutureDaysNotCompleted(ctx: CalendarContext, d: Day)
    requires d > ctx.today
    ensures DaySummary(ctx, d).isFuture && !DaySummary(ctx, d).isToday
    ensures forall k :: 0 <= k < |DaySummary(ctx, d).habits| ==> !DaySummary(ctx, d).habits[k].completed
    ensures forall k :: 0 <= k < |DaySummary(ctx, d).meals| ==> !DaySummary(ctx, d).meals[k].completed
    ensures DaySummary(ctx, d).workout.Some? ==> !DaySummary(ctx, d).workout.value.completed
  {
  }

  /** Every day lists the plan's habits in order, each completed iff the day's log
      (when it is read) has its id. */
  lemma HabitsFollowPlan(ctx: CalendarContext, d: Day)
    ensures |DaySummary(ctx, d).habits| == |ctx.habits|
    ensures forall k :: 0 <= k < |ctx.habits| ==>
              DaySummary(ctx, d).habits[k].id == ctx.habits[k].id &&
              (DaySummary(ctx, d).habits[k].completed <==>
                 LogFor(ctx, d).Some? && ctx.habits[k].id in LogFor(ctx, d).value.habitsCompleted)
  {
  }

  /** Every day lists the meals of its nutrition entry in order, each completed iff
      the day's log (when it is read) has its id. */
  lemma MealsFollowLog(ctx: CalendarContext, d: Day)
    ensures var nutrition := if ctx.start <= d <= ctx.end
                             then NutritionForDay(RotationIndex(ctx.start, d), ctx.nutritionLookup, ctx.rotation, ctx.planByDayType)
                             else None;
            var meals := if nutrition.Some? then nutrition.value.meals else [];
            |DaySummary(ctx, d).meals| == |meals| &&
            forall k :: 0 <= k < |meals| ==>
              DaySummary(ctx, d).meals[k].id == meals[k].id &&
              (DaySummary(ctx, d).meals[k].completed <==>
                 LogFor(ctx, d).Some? && meals[k].id in LogFor(ctx, d).value.mealsCompleted)
  {
  }

  /** On a generated plan (seven weekly entries indexed 0..6), a subscription day
      on or after the start shows the weekly entry of its own weekday. */
  lemma SubscriptionDayMeals(plan: GeneratedPlan, logs: map<Day, DailyLog>, today: Day, d: Day)
    requires |plan.nutrition.weeklyPlan| == 7
    requires forall i :: 0 <= i < 7 ==> plan.nutrition.weeklyPlan[i].dayIndex == Some(i)
    requires StartDay(plan) <= d <= EndDay(plan)
    ensures var summary := DaySummary(ContextOf(plan, logs, today), d);
            var entry := plan.nutrition.weeklyPlan[Weekday(d)];
            summary.inSubscription &&
            summary.dayType == Some(entry.dayType) &&
            |summary.meals| == |entry.meals| &&
            forall k :: 0 <= k < |entry.meals| ==> summary.meals[k].id == entry.meals[k].id
  {
    var weekly := plan.nutrition.weeklyPlan;
    RotationIndexIsWeekday(StartDay(plan), d);
    IndexDistinct(weekly, PlanDayKey, PlanDaySelf, Weekday(d));
  }

  /** On a generated schedule (slot `i` is weekday `i`, session ids distinct), a
      subscription day on or after the start has a workout iff its weekday's slot
      names a known session, and that workout is completed iff it was logged. */
  lemma SubscriptionDayWorkout(plan: GeneratedPlan, logs: map<Day, DailyLog>, today: Day, d: Day)
    requires |plan.training.schedule| == 7
    requires forall i :: 0 <= i < 7 ==> plan.training.schedule[i].day == i
    requires forall a, b :: 0 <= a < b < |plan.training.sessions| ==>
               plan.training.sessions[a].id != plan.training.sessions[b].id
    requires StartDay(plan) <= d <= EndDay(plan)
    ensures var summary := DaySummary(ContextOf(plan, logs, today), d);
            var slot := plan.training.schedule[Weekday(d)];
            var ctx := ContextOf(plan, logs, today);
            (summary.workout.Some? <==>
               HasSession(slot) && exists k :: 0 <= k < |plan.training.sessions| && plan.training.sessions[k].id == slot.sessionId.value) &&
            (summary.workout.Some? ==>
               summary.workout.value.id == slot.sessionId.value &&
               (summary.workout.value.completed <==>
                  LogFor(ctx, d).Some? && slot.sessionId.value in LogFor(ctx, d).value.workoutsCompleted))
  {
    var ctx := ContextOf(plan, logs, today);
    var schedule := plan.training.schedule;
    var w := Weekday(d);
    RotationIndexIsWeekday(StartDay(plan), d);
    IndexDistinct(schedule, EntryDay, EntrySession, w);
    assert ctx.scheduleLookup[w] == schedule[w].sessionId;
    var log := LogFor(ctx, d);
    var completed := if log.Some? then log.value.workoutsCompleted else [];
    assert DaySummary(ctx, d).workout == BuildWorkoutSummary(schedule[w].sessionId, ctx.sessionLookup, completed);
    WorkoutOfKnownSessions(plan.training.sessions, schedule[w].sessionId, completed);
  }

  /** Looking a slot up among sessions with distinct ids finds a workout iff the
      slot names one of them, and reports that session. */
  lemma WorkoutOfKnownSessions(sessions: seq<WorkoutSession>, sessionId: Option<string>, completed: seq<string>)
    requires forall a, b :: 0 <= a < b < |sessions| ==> sessions[a].id != sessions[b].id
    ensures var r := BuildWorkoutSummary(sessionId, Index(sessions, SessionKey, SessionSelf), completed);
            (r.Some? <==> sessionId.Some? && sessionId.value != "" &&
                          exists k :: 0 <= k < |sessions| && sessions[k].id == sessionId.value) &&
            (r.Some? ==> r.value.id == sessionId.value && (r.value.completed <==> sessionId.value in completed))
  {
    var lookup := Index(sessions, SessionKey, SessionSelf);
    if sessionId.Some? && sessionId.value in lookup {
      var k :| 0 <= k < |sessions| && SessionKey(sessions[k]) == sessionId.value;
      IndexDistinct(sessions, SessionKey, SessionSelf, k);
    }
    if sessionId.Some? && exists k :: 0 <= k < |sessions| && sessions[k].id == sessionId.value {
      var k :| 0 <= k < |sessions| && sessions[k].id == sessionId.value;
      assert SessionKey(sessions[k]) in lookup;
    }
  }

  // ---------------------------------------------------------------- the month

  /** Weeks `0 .. |weeks|` hold the summaries of consecutive days from `first`. */
  predicate WeeksFrom(weeks: seq<seq<CalendarDay>>, summarize: Day -> CalendarDay, first: Day) {
    && (forall w :: 0 <= w < |weeks| ==> |weeks[w]| == 7)
    && (forall w, j :: 0 <= w < |weeks| && 0 <= j < 7 ==> weeks[w][j] == summarize(first + 7 * w + j))
  }

  lemma WeeksExtend(weeks: seq<seq<CalendarDay>>, week: seq<CalendarDay>, summarize: Day -> CalendarDay, first: Day)
    requires WeeksFrom(weeks, summarize, first)
    requires |week| == 7 && forall j :: 0 <= j < 7 ==> week[j] == summarize(first + 7 * |weeks| + j)
    ensures WeeksFrom(weeks + [week], summarize, first)
  {
    var ws := weeks + [week];
    forall w, j | 0 <= w < |ws| && 0 <= j < 7 ensures ws[w][j] == summarize(first + 7 * w + j) {
      if w < |weeks| {
        assert ws[w] == weeks[w];
      } else {
        assert ws[w] == week;
      }
    }
  }

  /** The `for` loop of `createMonthlyCalendar`: walk every day from `first` to
      `last`, push each day's summary into the current week, close a week every
      seven days, index every summary by its date, and push a trailing partial week. */
  method WalkDays(summarize: Day -> CalendarDay, first: Day, last: Day)
    returns (weeks: seq<seq<CalendarDay>>, daysByDate: map<Day, CalendarDay>)
    requires (last + 1 - first) % 7 == 0
    ensures 7 * |weeks| == (if first <= last then last + 1 - first else 0)
    ensures WeeksFrom(weeks, summarize, first)
    ensures forall d :: d in daysByDate <==> first <= d <= last
    ensures forall d :: d in daysByDate ==> daysByDate[d] == summarize(d)
  {
    weeks, daysByDate := [], map[];
    var currentWeek: seq<CalendarDay> := [];
    var cursor := first;
    while cursor <= last
      invariant first <= cursor && (cursor > first ==> cursor <= last + 1)
      invariant cursor - first == 7 * |weeks| + |currentWeek| && |currentWeek| < 7
      invariant WeeksFrom(weeks, summarize, first)
      invariant forall j :: 0 <= j < |currentWeek| ==> currentWeek[j] == summarize(first + 7 * |weeks| + j)
      invariant forall d :: d in daysByDate <==> first <= d < cursor
      invariant forall d :: d in daysByDate ==> daysByDate[d] == summarize(d)
      decreases last - cursor
    {
      var summary := summarize(cursor);
      currentWeek := currentWeek + [summary];
      daysByDate := daysByDate[cursor := summary];
      if |currentWeek| == 7 {
        WeeksExtend(weeks, currentWeek, summarize, first);
        weeks := weeks + [currentWeek];
        currentWeek := [];
      }
      cursor := cursor + 1;
    }
    if |currentWeek| > 0 {
      weeks := weeks + [currentWeek];
    }
  }

  /** The lookups `createMonthlyCalendar` fills before its loop, with the window
      and the other per-plan inputs. */
  method BuildContext(plan: GeneratedPlan, logs: map<Day, DailyLog>, today: Day) returns (ctx: CalendarContext)
    ensures ctx == ContextOf(plan, logs, today)
  {
    var scheduleLookup := BuildIndex(plan.training.schedule, EntryDay, EntrySession);
    var sessionLookup := BuildIndex(plan.training.sessions, SessionKey, SessionSelf);
    var nutritionLookup := BuildIndex(plan.nutrition.weeklyPlan, PlanDayKey, PlanDaySelf);
    ctx := CalendarContext(StartDay(plan), EndDay(plan), scheduleLookup, sessionLookup, nutritionLookup,
                           plan.nutrition.rotation, plan.nutrition.planByDayType, plan.habits.dailyHabits, logs, today);
  }

  /** What `WalkDays` returns for the summaries of one context, read per day. */
  lemma WalkedSummaries(weeks: seq<seq<CalendarDay>>, daysByDate: map<Day, CalendarDay>, ctx: CalendarContext, first: Day)
    requires WeeksFrom(weeks, d => DaySummary(ctx, d), first)
    requires forall d :: d in daysByDate ==> daysByDate[d] == (d => DaySummary(ctx, d))(d)
    ensures WeeksShow(weeks, ctx, first)
    ensures forall d :: d in daysByDate ==> daysByDate[d] == DaySummary(ctx, d)
  {
    WalkedWeeks(weeks, ctx, first);
  }

  /** The weeks the walk built, read per cell as the summary of that cell's day. */
  lemma WalkedWeeks(weeks: seq<seq<CalendarDay>>, ctx: CalendarContext, first: Day)
    requires WeeksFrom(weeks, d => DaySummary(ctx, d), first)
    ensures WeeksShow(weeks, ctx, first)
  {
    forall w, j | 0 <= w < |weeks| && 0 <= j < 7
      ensures weeks[w][j] == DaySummary(ctx, first + 7 * w + j)
    {
      assert weeks[w][j] == (d => DaySummary(ctx, d))(first + 7 * w + j);
    }
  }

  /** Week `w` position `j` is the summary of day `first + 7 * w + j`. */
  predicate WeeksShow(weeks: seq<seq<CalendarDay>>, ctx: CalendarContext, first: Day) {
    && (forall w :: 0 <= w < |weeks| ==> |weeks[w]| == 7)
    && (forall w, j :: 0 <= w < |weeks| && 0 <= j < 7 ==> weeks[w][j] == DaySummary(ctx, first + 7 * w + j))
  }

  /** `createMonthlyCalendar`. */
  method CreateMonthlyCalendar(plan: GeneratedPlan, logs: map<Day, DailyLog>, today: Day)
    returns (cal: CalendarData)
    ensures cal.start == StartDay(plan) && cal.end == EndDay(plan)
    ensures var first, last := CalendarStart(StartDay(plan)), CalendarEnd(EndDay(plan));
            7 * |cal.weeks| == (if first <= last then last + 1 - first else 0)
    ensures forall w :: 0 <= w < |cal.weeks| ==> |cal.weeks[w]| == 7
    ensures WeeksShow(cal.weeks, ContextOf(plan, logs, today), CalendarStart(StartDay(plan)))
    ensures forall d :: d in cal.daysByDate <==> CalendarStart(StartDay(plan)) <= d <= CalendarEnd(EndDay(plan))
    ensures forall d :: d in cal.daysByDate ==> cal.daysByDate[d] == DaySummary(ContextOf(plan, logs, today), d)
  {
    var start, end := StartDay(plan), EndDay(plan);
    WindowIsWholeWeeks(start, end);
    var ctx := BuildContext(plan, logs, today);
    var first, last := CalendarStart(start), CalendarEnd(end);
    var weeks, daysByDate := WalkDays(d => DaySummary(ctx, d), first, last);
    WalkedSummaries(weeks, daysByDate, ctx, first);
    cal := CalendarData(start, end, weeks, daysByDate);
  }
}
