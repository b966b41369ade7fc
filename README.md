# Fitkofer: a verified model of the plan, calendar, state and webhook logic

Fitkofer is a women's fitness app. A profile (body measurements, goal, activity
level, equipment, training days, diet, allergies, sleep, stress, health
conditions and cycle data) goes through the onboarding wizard. It is turned into
a 30-day plan with three parts:
- a training split with a weekday schedule;
- a low/mid/high energy rotation that drives a weekly meal plan;
- a list of daily habits.

The app projects the plan onto a month calendar and merges in what the user
ticked off per day. It keeps plan and logs behind an active membership. A
server-side webhook turns membership events from the payment provider into
stored membership rows.

This project models that logic in Dafny and proves what each part promises.
- **PlanGenerator** (`generator.dfy`), **Training** (`training.dfy`) and
  **Nutrition** (`nutrition.dfy`) model `generatePlan` and its helpers:
  - the split table and the exercise filters;
  - the exercise pick with its dedup loop;
  - the session list, the schedule and the rotation;
  - calories and macros;
  - the meal pools and the scored meal pick, threading the set of used meals;
  - daily totals and the weekly plan with its per-tier representatives;
  - history, tier and habits.
- **Calendar** (`calendar.dfy`) models `createMonthlyCalendar`:
  - the window widened to whole Monday–Sunday weeks;
  - the rotation index;
  - the per-day summary;
  - the day walk that chunks days into weeks and indexes them by date.
- **AppStore** (`app_state.dfy`) models:
  - the reducer;
  - `ensureLog`, the completion toggles and the energy entry;
  - `normalizePlan` and `isMembershipActive`;
  - the provider as a class whose methods change its state. They guard plan and log changes behind the membership.
- **Onboarding** (`onboarding.dfy`) models:
  - the four-step navigation;
  - `validateStep`, which writes an error record field by field;
  - the tag lists and the pill handlers;
  - the wizard screen as a class.
- **ProfileEdit** (`profile_edit.dfy`) models `handleSave`. Its checks run in order and stop at the first failure. A successful save replaces six fields.
- **Webhook** (`webhook.dfy`) models:
  - `extractMembership` and `getString`;
  - `normalizeStatus` and the mapping from event name to status;
  - the handler that resolves each column from the event, else the stored row.
- **Domain**, **Text**, **Lists** and **Wrappers** hold the shared records, the
  JavaScript string built-ins the code relies on (`toLowerCase`, `trim`,
  `includes`, `replace` with a character class, `Number`, the date regex),
  list helpers (filter, remove-all, toggle, dedup) and `Option`.

Days are whole numbers counted from 1970-01-01 (a Thursday). The weekday with
Monday = 0 is `(d + 3) % 7`. Instants are milliseconds. Arithmetic on
calories and macros is exact (`real`), and `Math.round` is `floor(x + 0.5)`.
The clock, the exercise and meal catalogues, the user lookup by e-mail, the
`parseIso` date normaliser and the random event id are parameters.

Two facts about the generator shape what is proved:
- Mifflin-St Jeor gives a BMR of 1429 for the 28-year-old, 168 cm, 68 kg profile, so its daily target is 1699 kcal (`Nutrition.TargetCaloriesExample`).
- `pickExercises` caps the focus part at five and cannot top up from an empty complementary pool. So a session does not always have six exercises, and `Training.PickExercises` proves the bound and that a short list means a pool ran out.

## Model

| member | source | states |
|---|---|---|
| Domain.Weekday | fitkofer-app/lib/calendar/month.ts:21-23 | The weekday index is always in 0..6. |
| Domain.WeekdayAnchors | fitkofer-app/lib/calendar/month.ts:21-23 | 1970-01-01 (a Thursday) is 3, the following Monday is 0 and the following Sunday is 6. |
| Domain.WeekdayNext | fitkofer-app/lib/calendar/month.ts:21-23 | Each next day is the next weekday; Sunday wraps to Monday. |
| Domain.FocusName | fitkofer-app/lib/plan/generator.ts:220 | A focus name is non-empty and has no hyphen, so it cannot swallow the `-index` part of a session id. |
| Training.Split | fitkofer-app/lib/plan/generator.ts:24-41 | The split for 2..5 days lists one focus per training day. |
| Training.ExerciseMatchesProfileCases | fitkofer-app/lib/plan/generator.ts:99-133 | A kept advanced exercise implies a highly active profile. A kept intermediate one implies a profile that is not sedentary. An exercise tied to another location is never kept. An exercise with no location, tags or intensity is always kept. |
| Training.StartingDays | fitkofer-app/lib/plan/generator.ts:592-599 | One weekday per session, strictly increasing, all Monday..Friday. |
| Training.TailoredOrBase | fitkofer-app/lib/plan/generator.ts:143-190 | The list is exactly the profile-matching base exercises that satisfy the predicate, in base order, when there is one; otherwise it is every base exercise that satisfies the predicate (the fallback to the unfiltered pool). So it is empty only when no base exercise satisfies the predicate, and it holds only profile-matching exercises whenever one qualifies. |
| Training.PickFromList | fitkofer-app/lib/plan/generator.ts:195-203 | The result is exactly the in-order walk: each list exercise whose id is not yet used is appended until the target is reached. The loop only appends, never beyond the target. Ids stay distinct and the used set is exactly the selected ids. Stopping short of the target means every list id is used. |
| Training.AppendFresh | fitkofer-app/lib/plan/generator.ts:198-201 | Appending an exercise with an unused id keeps the ids distinct and adds exactly its id. |
| Training.PickFromLists | fitkofer-app/lib/plan/generator.ts:195-211 | The two walks: up to `count - 1` unused exercises of the primary list in list order, then unused exercises of the complementary list up to `count`. It returns exactly that pick, with distinct ids. Each list is exhausted whenever its part stops short. |
| Training.TopUp | fitkofer-app/lib/plan/generator.ts:205-211 | The top-up keeps the primary part as a prefix and appends only complementary exercises. It returns exactly the walk over the complementary list, cut to `count`, with distinct ids. |
| Training.PartsCombine | fitkofer-app/lib/plan/generator.ts:205-211 | The primary part followed by the top-up is the whole pick. The primary exercises come first, and a short primary part means every primary id is taken. |
| Training.PickExercises | fitkofer-app/lib/plan/generator.ts:136-211 | The result is exactly the pick over the tailored focus list and the tailored core/mobility list: at most `count - 1` from the first, topped up from the second, cut to `count`. The ids are pairwise distinct and every exercise is in the base pool. A short focus part means that list was exhausted. A short result means the complementary list was exhausted too. |
| Training.SessionId | fitkofer-app/lib/plan/generator.ts:220 | A session id is never empty. |
| Training.SessionIdsDistinct | fitkofer-app/lib/plan/generator.ts:215-220 | `${focus}-${index + 1}` differs for different positions of a split. |
| Training.BuildSession | fitkofer-app/lib/plan/generator.ts:215-230 | The session has the id, title, focus, difficulty, 45 minutes and notes of its position. Its exercises are exactly the six-exercise pick for its focus: distinct, from the base pool. |
| Training.BuildSessions | fitkofer-app/lib/plan/generator.ts:213-232 | One session per focus of the split, in order, each built for its position. Ids are distinct and non-empty. |
| Training.BuiltExtend | fitkofer-app/lib/plan/generator.ts:215-231 | Appending the session built for the next position keeps every position built for its own focus. |
| Training.SessionsFor | fitkofer-app/lib/plan/generator.ts:215-231 | The `map` over the focuses yields one session per focus, built for its position, with distinct non-empty ids. |
| Training.FillSchedule | fitkofer-app/lib/plan/generator.ts:585-604 | Seven slots, slot `i` is weekday `i`. A slot has a session iff its weekday is a starting day, and slot `days[k]` names `ids[k]`. Every named id is one of the ids. |
| Training.IdsOf | fitkofer-app/lib/plan/generator.ts:601-604 | The session ids in order; every listed id is a session's. |
| Training.BuildTrainingPlan | fitkofer-app/lib/plan/generator.ts:583-611 | The split name and one session per training day with distinct ids. A 7-slot weekday schedule that has sessions exactly on the starting days, session `k` on starting day `k`. Every scheduled id names a session. |
| Training.CountSessions | fitkofer-app/lib/plan/generator.ts:615-617 | No more session slots than slots. |
| Training.SessionDays | fitkofer-app/lib/plan/generator.ts:615-617 | One day per slot that carries a session. |
| Training.SessionDaysOfSlots | fitkofer-app/lib/plan/generator.ts:615-617 | On a weekday-indexed schedule the session days increase and are exactly the session slots. Slot `d` sits at position "session slots before `d`". |
| Training.CountSessionsStep | fitkofer-app/lib/plan/generator.ts:615-617 | Each further slot adds one to the count of session slots iff it carries a session. |
| Training.CreateRotation | fitkofer-app/lib/plan/generator.ts:613-624 | Seven tiers: low on rest days, high on the first two session days of the week, mid on later session days. |
| Training.RotationTable | fitkofer-app/lib/plan/generator.ts:613-624 | The rotation each split yields has seven entries. |
| Training.RotationMatchesTable | fitkofer-app/lib/plan/generator.ts:592-624 | A schedule with sessions on exactly the split's starting days rotates as the written-out table for 2, 3, 4 and 5 days. |
| Nutrition.Round | fitkofer-app/lib/plan/generator.ts:633 | `Math.round` gives the integer within half a unit, halves rounding up. |
| Nutrition.RoundMonotone | fitkofer-app/lib/plan/generator.ts:633 | Rounding preserves order. |
| Nutrition.BmrSensitivity | fitkofer-app/lib/plan/generator.ts:234-237 | Between any two profiles the estimate differs by 10 per kilogram, 6.25 per centimetre and -5 per year of age. So it rises with weight and height and falls with age. |
| Nutrition.TargetCalories | fitkofer-app/lib/plan/generator.ts:630-633 | The daily target is within half a calorie of BMR × activity multiplier × (1 + goal adjustment). |
| Nutrition.TargetCaloriesExample | fitkofer-app/lib/plan/generator.ts:630-633 | The 28-year-old, 168 cm, 68 kg, lightly active profile that wants to lose weight has BMR 1429 and a daily target of 1699 kcal. Its low day is 1461 kcal and its high day 1869. |
| Nutrition.AdjustForConditions | fitkofer-app/lib/plan/generator.ts:239-247 | Five percent off exactly when the profile has insulin resistance or PCOS. |
| Nutrition.BaseCarbs | fitkofer-app/lib/plan/generator.ts:440-448 | The carbohydrate base never drops below the 120 kcal floor, counted after the condition adjustment. |
| Nutrition.TargetsOrdered | fitkofer-app/lib/plan/generator.ts:450-471 | Low days have the fewest calories and carbs and the most fat; high days the reverse. Protein is equal on low and mid days and highest on high days. |
| Nutrition.TargetsScaled | fitkofer-app/lib/plan/generator.ts:450-471 | A mid day keeps the weekly calories. A low day's calories are within one half of 86 %, and a high day's within one half of 110 %. Low and mid days share a protein within one half of the base protein, and a high day's protein is within one half of 105 % of it. |
| Nutrition.NoBannedIngredient | fitkofer-app/lib/plan/generator.ts:326-337 | A meal passing the restrictions has no allergy or disliked-food term, lower-cased, in its lower-cased ingredient text. |
| Nutrition.MatchesRestrictionsExactly | fitkofer-app/lib/plan/generator.ts:326-337 | A meal passes iff no allergy and no disliked food, lower-cased, occurs in its lower-cased ingredient text. |
| Nutrition.AcceptedDiets | fitkofer-app/lib/plan/generator.ts:249-291 | Every preference accepts its own diet type. |
| Nutrition.FilterMealsByPreference | fitkofer-app/lib/plan/generator.ts:249-291 | A meal is kept iff it is a candidate and some diet tag of it is accepted by the preference. |
| Nutrition.VegetarianGetsNoMeatOnlyMeals | fitkofer-app/lib/plan/generator.ts:249-291 | Vegetarian and pescatarian profiles only get meals tagged vegetarian, pescatarian or mixed. |
| Nutrition.FilterMealsByHealth | fitkofer-app/lib/plan/generator.ts:293-324 | With no conditions, the input. Otherwise: the meals tagged for every condition when there are at least six of them; else the meals tagged for some condition when there are at least six; else the input. The result is always a subset of the input. |
| Nutrition.BuildPools | fitkofer-app/lib/plan/generator.ts:474-479 | The pools form the chain health ⊆ diet ⊆ base. Base is exactly the catalogue meals passing the restrictions. Diet is exactly the base meals the preference accepts. |
| Nutrition.ScoreBounds | fitkofer-app/lib/plan/generator.ts:339-381 | Tags move a meal's score at most 90 below and 25 above its calorie distance. |
| Nutrition.CloserCaloriesScoreLower | fitkofer-app/lib/plan/generator.ts:339-381 | Changing only a meal's calories changes its score by exactly the change in calorie distance. So, all else equal, the meal closer to the target scores lower. |
| Nutrition.HealthTagsLowerScore | fitkofer-app/lib/plan/generator.ts:339-381 | Two meals are otherwise equal. The one tagged for every condition scores strictly lower than the one tagged for none. |
| Nutrition.PickMealForType | fitkofer-app/lib/plan/generator.ts:383-410 | Nothing is picked iff the pool has no meal of the type. The pick has the type, is unused whenever an unused candidate exists, and joins the used set. It has the least score in the scanned list and no earlier element ties it, as a stable sort would. |
| Nutrition.BestIndex | fitkofer-app/lib/plan/generator.ts:398-405 | Over a non-empty scanned list, the index it returns is the first one of least score. |
| Nutrition.ScanListMembers | fitkofer-app/lib/plan/generator.ts:391-397 | The scanned list holds only pool meals of the type. It is empty iff the pool has none. |
| Nutrition.FirstMinimalUnique | fitkofer-app/lib/plan/generator.ts:398-405 | At most one index is the first of least score, so the stable sort's head is determined. |
| Nutrition.MealFor | fitkofer-app/lib/plan/generator.ts:383-410 | `pickMealForType` as a value: nothing iff the pool has no meal of the type, else a pool meal of that type. |
| Nutrition.MealForFacts | fitkofer-app/lib/plan/generator.ts:396-405 | The value pick is unused whenever an unused candidate exists. It is the first least-scored element of the scanned list, which is the unused candidates when there are any, else all candidates. |
| Nutrition.SumMealsAppend | fitkofer-app/lib/plan/generator.ts:412-423 | Totals add up over concatenation. |
| Nutrition.SumMealsOrderFree | fitkofer-app/lib/plan/generator.ts:412-423 | Totals do not depend on the order in which two groups of meals are listed. |
| Nutrition.MealDistribution | fitkofer-app/lib/plan/generator.ts:66-91 | Every tier plans at least three meals. |
| Nutrition.DistributionSumsToOne | fitkofer-app/lib/plan/generator.ts:66-91 | Each tier's ratios add up to the whole day. |
| Nutrition.Take | fitkofer-app/lib/plan/generator.ts:518-521 | `slice(0, n)` is the prefix of length min(n, length). |
| Nutrition.PickForSlot | fitkofer-app/lib/plan/generator.ts:486-511 | The pick is exactly the value `??` chain: the first of the health, diet and base picks that finds a meal. It therefore comes from the health pool whenever that has a meal of the slot's type, else from the diet pool whenever that has one, else from the base pool. Nothing is found iff no pool has a meal of that type. The pick is unused when that pool has an unused candidate. It is the first least-scored meal of the scanned list for the slot's calorie share, and it joins the used set. |
| Nutrition.SlotPickFromPool | fitkofer-app/lib/plan/generator.ts:486-511 | The chain of three picks equals the one pick over the first pool that has a meal of the slot's type. |
| Nutrition.SlotPickFacts | fitkofer-app/lib/plan/generator.ts:486-511 | The value chain has the health→diet→base order, the unused preference, the first-least-score choice and the none-iff-no-meal-of-the-type property. |
| Nutrition.DayPicksBounds | fitkofer-app/lib/plan/generator.ts:484-516 | The slot fold finds at most one meal per slot. Its used set keeps the ids it was given and gains the id of every meal found. |
| Nutrition.DayPicksStep | fitkofer-app/lib/plan/generator.ts:485-516 | Folding one more slot appends that slot's chain pick, made with the used set the earlier slots left, and marks its id. |
| Nutrition.SlotAppended | fitkofer-app/lib/plan/generator.ts:485-516 | Appending slot `k`'s chain pick to the first `k` slots' meals gives the first `k + 1` slots' meals and used set, and the pick is a base meal of a slot's type. |
| Nutrition.PickSlots | fitkofer-app/lib/plan/generator.ts:484-516 | The `specs.forEach` loop returns exactly the slot fold: each slot's chain pick in distribution order, with the used set threaded from slot to slot. Every meal is a base-pool meal of a slot's type. |
| Nutrition.DayPlan | fitkofer-app/lib/plan/generator.ts:482-535 | A day as a value has its tier, index, label and swaps, macros that are its meals' rounded totals, and at most one meal per slot. |
| Nutrition.BuildDay | fitkofer-app/lib/plan/generator.ts:482-535 | The day's meals are exactly the slot picks in distribution order, and the used set it hands on is the one those picks leave. Only when no slot found a meal are the meals the first three health-pool meals. The day has its tier, index and label, and its macros are the rounded totals of its meals. All meals come from the base pool. |
| Nutrition.FindDayType | fitkofer-app/lib/plan/generator.ts:539-563 | `find` returns the first day of the tier, and nothing iff the week has none. |
| Nutrition.SyntheticDay | fitkofer-app/lib/plan/generator.ts:539-573 | The stand-in day has the tier, index 0, the first label, and exactly the tier's calorie, protein, carb and fat targets. Its meals are exactly the first three non-dessert health-pool meals for low, the first four for mid, and the first five for high. |
| Nutrition.PlanFor | fitkofer-app/lib/plan/generator.ts:538-574 | The representative of a tier is its first day in the week when there is one. Otherwise it is exactly that tier's stand-in day. Its meals come from the week or the health pool. |
| Nutrition.WeekPlan | fitkofer-app/lib/plan/generator.ts:480-536 | The `rotation.map` as a value has one day per rotation slot, with the used set threaded from day to day. |
| Nutrition.WeekPlanDay | fitkofer-app/lib/plan/generator.ts:480-536 | Day `i` of the week is exactly the day plan for slot `i`, picked with the used set the first `i` days leave. |
| Nutrition.WeekPlanDays | fitkofer-app/lib/plan/generator.ts:480-536 | Every day of the week is its day plan with the set the earlier days left, and is shaped for its tier and index. |
| Nutrition.UsedBeforePrefix | fitkofer-app/lib/plan/generator.ts:480-536 | The used set after the first `i` days does not depend on the days that follow. |
| Nutrition.WeekPlanFront | fitkofer-app/lib/plan/generator.ts:480-536 | A day before the last is unchanged by dropping the last day. |
| Nutrition.UsedBeforeStep | fitkofer-app/lib/plan/generator.ts:480-516 | The week starts with no meal used. Day `i` hands on exactly the used set its slot fold leaves. |
| Nutrition.WeekPlanUsed | fitkofer-app/lib/plan/generator.ts:480-536 | The used set after a week is the one its last day's slots leave. |
| Nutrition.WeekPlanStep | fitkofer-app/lib/plan/generator.ts:480-536 | The week's first `i + 1` days are its first `i` days followed by day `i`'s plan. |
| Nutrition.PlanNextDay | fitkofer-app/lib/plan/generator.ts:482-536 | One step of the week appends exactly day `index`'s plan and hands on its used set. The days planned so far keep respecting the restrictions. |
| Nutrition.BuildWeek | fitkofer-app/lib/plan/generator.ts:480-536 | The week is exactly the value week: one day per rotation slot, each the day plan picked with the used set all earlier days left. So one used set runs across the whole week. Each day is shaped for its tier and index, and no meal breaks the restrictions. |
| Nutrition.PlanByDayType | fitkofer-app/lib/plan/generator.ts:538-574 | Each tier's plan has that tier. It is the tier's first day in the week when one exists, else exactly the tier's stand-in day. No meal breaks the restrictions. |
| Nutrition.BuildNutrition | fitkofer-app/lib/plan/generator.ts:425-581 | The rotation is kept. The weekly plan is exactly the value week over the built pools. Each day has its tier, index, label, rounded totals and bounded meal count. Each tier plan is the tier's first day, else exactly its stand-in day over the health pool. No meal anywhere, fallbacks included, contains an allergy or a disliked food. |
| PlanGenerator.FindHabit | fitkofer-app/lib/plan/generator.ts:655-661 | `find` by id returns a listed habit with that id, and nothing iff none has it. |
| PlanGenerator.ExtrasNotCore | fitkofer-app/data/habits.ts:3-56 | Gratitude and mobility reset are not core habits. |
| PlanGenerator.ExtraHabits | fitkofer-app/lib/plan/generator.ts:653-663 | Exactly gratitude when stress ≥ 4, then mobility reset when sleep < 7, in that order, both taken from the optional habits. |
| PlanGenerator.BuildHabits | fitkofer-app/lib/plan/generator.ts:653-668 | The weekly challenge, and the daily habits are exactly the core habits, then gratitude when stress ≥ 4, then mobility reset when sleep < 7. |
| PlanGenerator.HabitsForUnique | fitkofer-app/lib/plan/generator.ts:653-668 | The habit plan a profile gets is unique. |
| PlanGenerator.PreviousHistory | fitkofer-app/lib/plan/generator.ts:648-650 | The previous history, else the previous snapshot alone, else nothing. |
| PlanGenerator.CarriedTier | fitkofer-app/lib/plan/generator.ts:670-671 | The previous plan's tier, else unselected. |
| PlanGenerator.StartOfDay | fitkofer-app/lib/plan/generator.ts:93-96 | The start of a day is a whole day count, at most the given instant and less than one day before it, on the same day. |
| PlanGenerator.SubscriptionEndFrom | fitkofer-app/lib/plan/generator.ts:639-641 | The subscription ends exactly 29 days after it starts. |
| PlanGenerator.PlanNutrition | fitkofer-app/lib/plan/generator.ts:636-637 | The rotation is the split's table and has seven days. The weekly plan is exactly the value week for the profile's target calories. Missing tiers get their stand-in days, and no meal breaks the restrictions. |
| PlanGenerator.GeneratePlan | fitkofer-app/lib/plan/generator.ts:626-685 | The plan whole: id and creation time; a subscription starting at the start of the current day and ending 29 days later; the carried tier; the new snapshot; and the history as the previous history plus exactly that snapshot. Each session is built for its focus and position, and the training plan has its schedule invariants. The rotation matches the split's table. The weekly plan is exactly the value week: per-slot health→diet→base picks with one used set across the week. Missing tiers get exactly their stand-in days. The habits are exactly the core habits, then gratitude and mobility reset as stress and sleep ask, in that order. |
| PlanGenerator.HistoryOnlyGrows | fitkofer-app/lib/plan/generator.ts:648-651 | Regenerating keeps the previous history as a prefix and adds one entry. |
| Calendar.Index | fitkofer-app/lib/calendar/month.ts:64-76 | A lookup filled by `forEach` has exactly the keys of the list. |
| Calendar.IndexLastWins | fitkofer-app/lib/calendar/month.ts:64-76 | A key maps to the value of its last occurrence. |
| Calendar.IndexDistinct | fitkofer-app/lib/calendar/month.ts:64-76 | With distinct keys every element is found under its own key. |
| Calendar.BuildIndex | fitkofer-app/lib/calendar/month.ts:64-76 | The `forEach` loop builds that lookup. |
| Calendar.WindowIsWholeWeeks | fitkofer-app/lib/calendar/month.ts:59-62 | The grid starts on the Monday at most six days before the start. It ends on the Sunday at most six days after the end, and spans whole weeks. |
| Calendar.CalendarStart | fitkofer-app/lib/calendar/month.ts:59-60 | The grid starts on a Monday, at most six days before the subscription start. |
| Calendar.CalendarEnd | fitkofer-app/lib/calendar/month.ts:61-62 | The grid ends on a Sunday, at most six days after the subscription end. |
| Calendar.RotationIndex | fitkofer-app/lib/calendar/month.ts:100-101 | The rotation index is in 0..6. |
| Calendar.RotationIndexIsWeekday | fitkofer-app/lib/calendar/month.ts:100-101 | On or after the start, a day's rotation index is its own weekday. |
| Calendar.RotationIndexBeforeStart | fitkofer-app/lib/calendar/month.ts:100-101 | Before the start, every day has the start's weekday. |
| Calendar.DayOfMonthEpoch | fitkofer-app/lib/calendar/month.ts:120 | 1970-01-01 is the first of its month. |
| Calendar.NutritionForDay | fitkofer-app/lib/calendar/month.ts:25-37 | The weekly entry of the slot, else the tier plan of the slot's rotation tier, else nothing. |
| Calendar.BuildWorkoutSummary | fitkofer-app/lib/calendar/month.ts:39-53 | No workout for a missing or empty id or an unknown session. Otherwise the session's, completed iff its id was logged. |
| Calendar.DaySummary | fitkofer-app/lib/calendar/month.ts:86-137 | The summary carries the day it was built for. |
| Calendar.LogFor | fitkofer-app/lib/calendar/month.ts:91-92 | A day shows a log iff it is not after today and a log is stored for it, and then it shows that log. |
| Calendar.OutsideSubscriptionIsEmpty | fitkofer-app/lib/calendar/month.ts:89-116 | Outside the subscription a day has no workout, no tier and no meals. |
| Calendar.FutureDaysNotCompleted | fitkofer-app/lib/calendar/month.ts:91-136 | A future day is not today, and nothing on it is marked completed. |
| Calendar.HabitsFollowPlan | fitkofer-app/lib/calendar/month.ts:132-136 | Every day lists the plan's habits in order, each completed iff the day's log has its id. |
| Calendar.MealsFollowLog | fitkofer-app/lib/calendar/month.ts:103-131 | Every day lists the meals of its nutrition entry (none outside the subscription) in order, each completed iff the day's log lists its id. |
| Calendar.SubscriptionDayMeals | fitkofer-app/lib/calendar/month.ts:73-112 | On a generated week, a subscription day shows the tier and meals of its own weekday's entry. |
| Calendar.SubscriptionDayWorkout | fitkofer-app/lib/calendar/month.ts:114-116 | On a generated schedule, a subscription day has a workout iff its weekday's slot names a known session. That workout is completed iff its id was logged that day. |
| Calendar.WorkoutOfKnownSessions | fitkofer-app/lib/calendar/month.ts:39-71 | With distinct session ids the lookup finds a workout iff the id names a session, and reports that session. |
| Calendar.WeeksExtend | fitkofer-app/lib/calendar/month.ts:139-145 | Pushing the next seven summaries keeps the weeks consecutive. |
| Calendar.WalkDays | fitkofer-app/lib/calendar/month.ts:82-150 | Every week has seven days, and the weeks hold the summaries of consecutive days from the first, so no partial week is left over. A day is indexed iff it is in the range, under its own summary. |
| Calendar.BuildContext | fitkofer-app/lib/calendar/month.ts:56-78 | The three lookups and window the loop reads. |
| Calendar.WalkedSummaries | fitkofer-app/lib/calendar/month.ts:118-140 | The walk's results read per day as that day's summary. |
| Calendar.WalkedWeeks | fitkofer-app/lib/calendar/month.ts:139-145 | Each cell of the walked weeks is the summary of its own day. |
| Calendar.CreateMonthlyCalendar | fitkofer-app/lib/calendar/month.ts:55-158 | The plan's window, widened to whole weeks. Week `w` position `j` is the summary of day start + 7w + j. `daysByDate` holds exactly the grid's days, each under its own summary. |
| AppStore.Reduce | fitkofer-app/state/AppStateContext.tsx:75-104 | Each action replaces only its own part. Upserting a log writes its date's key and keeps every other key. Reset gives the initial state and hydrate gives the payload. |
| AppStore.ReducePreservesWellKeyed | fitkofer-app/state/AppStateContext.tsx:83-91 | No action stores a log under another date's key. |
| AppStore.UpsertLastWins | fitkofer-app/state/AppStateContext.tsx:83-91 | Two writes of the same day keep only the second. |
| AppStore.EnsureLog | fitkofer-app/state/AppStateContext.tsx:106-115 | The stored log of the date, else an empty log for that date. |
| Lists.Toggle | fitkofer-app/state/AppStateContext.tsx:441-443 | A present id is filtered out and an absent one appended at the end. The toggled id is listed afterwards iff it was not before, and every other id keeps its membership. |
| AppStore.ToggleIn | fitkofer-app/state/AppStateContext.tsx:417-468 | An absent id is appended at the end of its list, and a present id is filtered out with the rest kept in order. The other two lists, the date and the energy are untouched. |
| AppStore.ToggleInCounts | fitkofer-app/state/AppStateContext.tsx:417-422 | A toggle keeps every other id exactly as often as it was listed. |
| AppStore.EnergyLog | fitkofer-app/state/AppStateContext.tsx:484-487 | Only the energy changes; date and completion lists are kept. |
| AppStore.ToggleInTwice | fitkofer-app/state/AppStateContext.tsx:417-422 | Toggling an absent id twice gives back the log. |
| AppStore.ToggleTwiceRestores | fitkofer-app/state/AppStateContext.tsx:415-483 | Toggling on then off through the reducer leaves the day as an untouched day. |
| AppStore.FallbackProfile | fitkofer-app/state/AppStateContext.tsx:132-137 | The user's profile, else the snapshot's, else the last history entry's. |
| AppStore.InitialHistory | fitkofer-app/state/AppStateContext.tsx:145-150 | A non-empty stored history is kept. The result is empty only with no history and no fallback. |
| AppStore.MergeHistory | fitkofer-app/state/AppStateContext.tsx:152-156 | The history is a prefix of the result, which records the snapshot's capture time. The snapshot is appended iff no entry has that time. |
| AppStore.NormalizePlan | fitkofer-app/state/AppStateContext.tsx:117-166 | No plan stays none. The subscription fields default to a 30-day window from creation and tier unselected, and present values are kept. The snapshot is present. The history is never lost and records the snapshot. Everything else is the stored plan's. |
| AppStore.NormalizeIdempotent | fitkofer-app/state/AppStateContext.tsx:117-166 | Repairing a repaired plan changes nothing. |
| AppStore.ActiveStatusesExactly | fitkofer-app/state/AppStateContext.tsx:57-65 | Active iff the status is active, trialing or grace. |
| AppStore.StatusOf | fitkofer-app/state/AppStateContext.tsx:191 | A missing summary is inactive, which is not active. |
| AppStore.FetchedMembership | fitkofer-app/state/AppStateContext.tsx:235-245 | The fetched membership, else an inactive one. |
| AppStore.HydratedState | fitkofer-app/state/AppStateContext.tsx:246-276 | Without an active membership no plan and no logs are loaded. With one, the plan is the repaired stored plan. |
| AppStore.Provider.constructor | fitkofer-app/state/AppStateContext.tsx:167-182 | The initial state, unknown membership, no error and no onboarding flag. |
| AppStore.Provider.UpdateMembership | fitkofer-app/state/AppStateContext.tsx:189-198 | The status is the summary's, else inactive, and the reducer stores the summary. |
| AppStore.Provider.MembershipGuard | fitkofer-app/state/AppStateContext.tsx:356-362 | The guard returns whether the membership is active. When it is not, it sets the guard error, and it changes nothing else. |
| AppStore.Provider.HydrateSignedOut | fitkofer-app/state/AppStateContext.tsx:208-214 | The state is reset, membership inactive and onboarding not completed. |
| AppStore.Provider.HydrateSignedIn | fitkofer-app/state/AppStateContext.tsx:215-296 | The hydrated state and membership are installed and the error cleared. Onboarding counts as completed iff the membership is active and there is a plan or a stored flag. |
| AppStore.Provider.SetProfile | fitkofer-app/state/AppStateContext.tsx:366-377 | Only the profile changes. |
| AppStore.Provider.SetPlan | fitkofer-app/state/AppStateContext.tsx:378-392 | Unguarded it stores the plan; guarded it changes nothing but the error. |
| AppStore.Provider.ResetPlan | fitkofer-app/state/AppStateContext.tsx:393-414 | Unguarded it resets state and flag; guarded it changes nothing but the error. |
| AppStore.Provider.ToggleCompletion | fitkofer-app/state/AppStateContext.tsx:415-483 | Unguarded it upserts the day's log toggled in one list; guarded it changes nothing but the error. |
| AppStore.Provider.SetDailyEnergy | fitkofer-app/state/AppStateContext.tsx:484-501 | Unguarded it upserts the day's log with the new energy; guarded it changes nothing but the error. |
| AppStore.Provider.MarkOnboardingComplete | fitkofer-app/state/AppStateContext.tsx:502-514 | Only the onboarding flag is set. |
| AppStore.Provider.SignOut | fitkofer-app/state/AppStateContext.tsx:516-534 | The state is reset and the onboarding flag cleared. |
| Onboarding.NextStep | fitkofer-app/app/onboarding/index.tsx:179-185 | One step forward within 0..3, nothing on the last step. |
| Onboarding.PrevStep | fitkofer-app/app/onboarding/index.tsx:187-193 | One step back within 0..3, nothing on the first step. |
| Onboarding.PrevUndoesNext | fitkofer-app/app/onboarding/index.tsx:179-193 | Away from the last step, back undoes forward. |
| Onboarding.CheckBody | fitkofer-app/app/onboarding/index.tsx:223-238 | The body checks record exactly the errors `BodyErrors` describes: each field iff out of range, with its message. |
| Onboarding.CheckCycle | fitkofer-app/app/onboarding/index.tsx:240-268 | The cycle checks record exactly the errors `CycleErrors` describes: each filled-in field that fails, with its message. |
| Onboarding.CheckLogistics | fitkofer-app/app/onboarding/index.tsx:285-299 | The logistics checks record exactly the errors `LogisticsErrors` describes: home without equipment, and no training days. |
| Onboarding.BodyErrors | fitkofer-app/app/onboarding/index.tsx:223-238 | Age outside 13..100, height outside 120..220, weight outside 35..200, sleep outside 3..12 and unset stress each give their own error, with that field's message. No other field is set. |
| Onboarding.CycleErrors | fitkofer-app/app/onboarding/index.tsx:240-268 | A filled cycle length outside 15..60, a filled period length outside 1..15, or a non-empty date not shaped YYYY-MM-DD each give their own error, with that field's message. No other field is set. |
| Onboarding.LogisticsErrors | fitkofer-app/app/onboarding/index.tsx:285-299 | Home with no equipment gives the items error and no training days the days error, each with its message. No other field is set. |
| Onboarding.StepErrors | fitkofer-app/app/onboarding/index.tsx:220-310 | Every recorded error carries its field's message. |
| Onboarding.StepErrorsBody | fitkofer-app/app/onboarding/index.tsx:220-238 | Each body, sleep and stress field has an error iff the step is "O tebi" and the value is out of range. |
| Onboarding.StepErrorsCycle | fitkofer-app/app/onboarding/index.tsx:240-268 | Each cycle field has an error iff the step is "O tebi" and the filled-in value fails its check. |
| Onboarding.StepErrorsLogistics | fitkofer-app/app/onboarding/index.tsx:285-299 | The equipment and training-day fields have an error iff the step is "Logistika" and the check fails. |
| Onboarding.ValidateStep | fitkofer-app/app/onboarding/index.tsx:220-310 | The error record is exactly the step's `StepErrors`: each field has an error iff the current step checks it and it fails. The step passes iff there is no error. |
| Onboarding.DecimalField | fitkofer-app/app/onboarding/index.tsx:414-447 | The weight and sleep fields are never negative, and an unreadable entry is 0. |
| Onboarding.OptionalWholeField | fitkofer-app/app/onboarding/index.tsx:503-538 | The cycle and period fields are empty iff no digit was typed, else the digits' value. |
| Onboarding.DateInput | fitkofer-app/app/onboarding/index.tsx:561-564 | The date field is the trimmed entry, empty iff the entry is blank. |
| Onboarding.WholeFieldOfDigits | fitkofer-app/app/onboarding/index.tsx:368-372 | An all-digit entry reads as its own value. |
| Onboarding.KeepDigits | fitkofer-app/app/onboarding/index.tsx:368-372 | Stripping non-digits leaves an all-digit entry unchanged. |
| Onboarding.AddItem | fitkofer-app/app/onboarding/index.tsx:195-208 | A blank entry changes nothing. Otherwise the trimmed entry is in the list exactly once, the list has no duplicates and loses no element, and the box is cleared. |
| Onboarding.AddItemAppends | fitkofer-app/app/onboarding/index.tsx:195-208 | On a duplicate-free list a new entry is appended and a known one leaves the list as it was. |
| Onboarding.RemoveItem | fitkofer-app/app/onboarding/index.tsx:210-218 | Every occurrence goes, and every other value keeps its count. |
| Onboarding.RemoveAllCounts | fitkofer-app/app/onboarding/index.tsx:210-218 | Removing a value leaves the count of every other value unchanged. |
| Onboarding.RemoveItemKeepsOrder | fitkofer-app/app/onboarding/index.tsx:210-218 | Removal splits over concatenation, so the rest keeps its order. |
| Onboarding.ToggleCondition | fitkofer-app/app/onboarding/index.tsx:641-657 | The pill flips its condition only and changes nothing else of the form. |
| Onboarding.ChooseLocation | fitkofer-app/app/onboarding/index.tsx:767-796 | Choosing a location empties the equipment list and changes nothing else. |
| Onboarding.ToggleEquipmentItem | fitkofer-app/app/onboarding/index.tsx:814-837 | The tag flips its item only; the location and the rest of the form are kept. |
| Onboarding.HomeNeedsAnItem | fitkofer-app/app/onboarding/index.tsx:767-780 | Right after choosing home the equipment list is empty. The last step then records an error on the items field, so it cannot pass yet. |
| Onboarding.Screen.constructor | fitkofer-app/app/onboarding/index.tsx:149-154 | The first step, the initial profile, empty boxes and no errors. |
| Onboarding.Screen.Continue | fitkofer-app/app/onboarding/index.tsx:313-317 | The step passes iff the current step's error record is empty. A passing step moves forward and clears the errors. A failing one stays, shows the banner and records exactly that step's field errors. The form and boxes are kept. |
| Onboarding.Screen.Back | fitkofer-app/app/onboarding/index.tsx:187-193 | Going back moves one step and clears the errors, except on the first step, where nothing changes. |
| Onboarding.Screen.AddTag | fitkofer-app/app/onboarding/index.tsx:195-208 | Only the chosen list and its box change, as `AddItem` says. |
| Onboarding.Screen.RemoveTag | fitkofer-app/app/onboarding/index.tsx:210-218 | Only the chosen list changes, as `RemoveItem` says. |
| ProfileEdit.DecimalInput | fitkofer-app/app/profile-edit.tsx:41-42 | A blank entry keeps the current value; otherwise the number its digits and dots form (none for NaN). |
| ProfileEdit.WholeInput | fitkofer-app/app/profile-edit.tsx:53-54 | A blank entry is no value; otherwise a non-negative number, 0 when there are no digits. |
| ProfileEdit.DateInput | fitkofer-app/app/profile-edit.tsx:55 | A blank entry is no value; otherwise the trimmed entry. |
| ProfileEdit.HandleSave | fitkofer-app/app/profile-edit.tsx:39-80 | Each error is reported iff its check fails and every earlier check passed. The save happens iff all five checks pass. A saved profile is the old one with exactly the six edited fields replaced. |
| ProfileEdit.BlankKeepsWeightAndSleep | fitkofer-app/app/profile-edit.tsx:41-42 | Blank weight and sleep keep the stored values. |
| ProfileEdit.SavedProfileIsValid | fitkofer-app/app/profile-edit.tsx:44-80 | A saved profile passes every check of the screen. |
| ProfileEdit.SaveIsStable | fitkofer-app/app/profile-edit.tsx:39-80 | Saving the same filled-in inputs again saves the same profile. |
| ProfileEdit.NoDigitsCycleRejected | fitkofer-app/app/profile-edit.tsx:53-60 | A non-blank cycle entry without digits reads as 0, so it is rejected as a cycle length rather than ignored. |
| Webhook.Get | supabase/functions/whop-webhook/index.ts:125-131 | Only an object has keys; a found value is the key's. |
| Webhook.FirstTruthy | supabase/functions/whop-webhook/index.ts:127-131 | The first truthy value among the keys, and none iff every key's value is falsy. |
| Webhook.ExtractMembership | supabase/functions/whop-webhook/index.ts:123-135 | The precedence is `membership`, then the nested keys of `data` in order, then `data`, then the payload. A falsy payload has none. |
| Webhook.MembershipOf | supabase/functions/whop-webhook/index.ts:155 | A falsy payload gives the empty object. Any other payload gives the truthy record the extraction finds. |
| Webhook.StringAt | supabase/functions/whop-webhook/index.ts:139-142 | A found value is a non-empty string stored at the key. |
| Webhook.FirstString | supabase/functions/whop-webhook/index.ts:137-145 | Nothing is found iff no key holds a non-empty string; a found value is non-empty. |
| Webhook.FirstStringIsFirst | supabase/functions/whop-webhook/index.ts:137-145 | The found string belongs to some key, and no earlier key holds one. |
| Webhook.GetString | supabase/functions/whop-webhook/index.ts:137-145 | The key loop with its early return finds the first non-empty string. |
| Webhook.StatusOfName | supabase/functions/whop-webhook/index.ts:38-44 | No spelling maps to inactive. |
| Webhook.NormalizeStatus | supabase/functions/whop-webhook/index.ts:35-45 | A missing or empty status is unknown. Otherwise the lower-cased spelling decides, and the result is never inactive. |
| Webhook.NormalizeStatusName | supabase/functions/whop-webhook/index.ts:35-45 | Every status it can produce reads back as itself. |
| Webhook.StatusNameIsLower | supabase/functions/whop-webhook/index.ts:37 | Status names are already lower case. |
| Webhook.StatusOfNameOfName | supabase/functions/whop-webhook/index.ts:38-44 | Each produced status's name maps back to it. |
| Webhook.NormalizeIdempotent | supabase/functions/whop-webhook/index.ts:35-45 | Normalising a normalised status changes nothing. |
| Webhook.NormalizeIgnoresCase | supabase/functions/whop-webhook/index.ts:37 | Case does not matter. |
| Webhook.ActionStatus | supabase/functions/whop-webhook/index.ts:202-244 | Each event-name list maps to its status, earlier lists first. Any other name maps to unknown. |
| Webhook.ResolveStatus | supabase/functions/whop-webhook/index.ts:191-261 | The status field when it says something, else the event name's status, else the stored status, else unknown. |
| Webhook.KeepOrParse | supabase/functions/whop-webhook/index.ts:282-312 | A present raw date is replaced by its parse, which may be null; an absent one keeps the stored value. |
| Webhook.ResolveEmail | supabase/functions/whop-webhook/index.ts:169-180 | The membership's e-mail keys, else `user.email`, else the stored e-mail, else empty. |
| Webhook.ResolveUser | supabase/functions/whop-webhook/index.ts:265-271 | The user found by a non-empty e-mail, else the stored user. |
| Webhook.EventOutcome | supabase/functions/whop-webhook/index.ts:155-340 | Skipped iff there is no membership id. Otherwise every column of the row resolves from the event, else the stored row: status chain, e-mail, user, plan and entitlement fields, dates, event id, payload and time. |
| Webhook.ReadStatus | supabase/functions/whop-webhook/index.ts:182-261 | The step-by-step `let status` assignments compute the status chain. |
| Webhook.ReadEmailAndUser | supabase/functions/whop-webhook/index.ts:169-271 | The e-mail and user assignments compute the resolved e-mail and user. |
| Webhook.ReadDate | supabase/functions/whop-webhook/index.ts:282-312 | Each date column's assignments keep or replace it as `KeepOrParse` says. |
| Webhook.ReadKept | supabase/functions/whop-webhook/index.ts:273-331 | A plan or entitlement column is new, else stored, else null. |
| Webhook.HandleEvent | supabase/functions/whop-webhook/index.ts:154-340 | The handler's assignments produce exactly the outcome `EventOutcome` describes. |
| Webhook.ReplayIsStable | supabase/functions/whop-webhook/index.ts:191-340 | Delivering the same event again, onto the row it produced, writes the same row. |
| Webhook.BareEventKeepsStatus | supabase/functions/whop-webhook/index.ts:259-261 | An event with no status and no event name keeps the stored status. |
| Webhook.NoActionNoStatus | supabase/functions/whop-webhook/index.ts:203 | A missing event name implies no status. |
| Webhook.BareEventKeepsColumns | supabase/functions/whop-webhook/index.ts:263-327 | An event without e-mail, user, plan id or period end keeps those stored columns. |

## Left out

- Rendering, styles, navigation, alerts and redirects of every screen are user interface only.
- Persistence and network calls are remote I/O with no logic of their own to model: Supabase reads and writes, AsyncStorage, the auth listener, `withSync`, claiming a membership, the analytics events, and the `try`/`catch` around them.
- AppStore.Provider.HydrateSignedIn: the model starts once the fetches have returned, and a failed fetch of the profile, plan or logs (the `catch` that keeps the old state) is not modelled. It likewise leaves out the onboarding key and the setting of `isHydrated`/`syncStatus`.
- `refreshMembership` is a re-run of `hydrate` and has no model of its own.
- The webhook's signature check, header scan, `JSON.parse`, the database select and upsert, and the HTTP responses are crypto and I/O. The user lookup, `parseIso`, the random event id and the current time are parameters of `Webhook.Environment`.
- A stored status is typed: a stored status string outside the known names is not modelled.
- JavaScript `Date` is not modelled: local time, daylight saving, `setDate` arithmetic, ISO strings, `formatLocalISODate` and the legacy UTC log key. A day is a number, a log is keyed by its day, and adding 29 days is adding 29 × 86 400 000 ms.
- Calendar.CreateMonthlyCalendar: it returns the start and end as day numbers, not ISO strings; today is a parameter.
- PlanGenerator.StartOfDay: midnight is the start of the day count of the millisecond timestamp. The local-time `setHours(0, 0, 0, 0)` is not modelled.
- The clock reads of `generatePlan` (`Date.now()`, `new Date()`) are one parameter `now`.
- IEEE-754 floating point is not modelled. Calories, macros, ratios and scores are exact reals, and `Math.round` is `floor(x + 0.5)`.
- The exercise and meal catalogues and the meal swaps are parameters; their contents are not part of this model.
- `Text.ToLower` folds only ASCII capitals; JavaScript's full Unicode case mapping is not modelled.
- Onboarding.ValidateStep: the goal, activity level, diet and location checks cannot fire, because those fields always hold one of their values here. The submit after the last step (`handleSubmit`) is persistence and navigation.
- ProfileEdit.HandleSave: the initial texts of the inputs, the `saving` flag, the alert and the failure of `setProfile` are not modelled; the function returns the outcome instead of setting an error.
- Training.FillSchedule: `startingDays[idx] ?? idx` falls back to `idx` only past the last starting day, which the supported 2..5 training days never reach. The model requires 2..5 training days.
- Training.PickExercises: it states exactly which exercises are picked, but not "exactly six exercises". That count holds only when the catalogue is large enough, and the catalogue is a parameter.
- Training.SessionIdsDistinct: it covers splits of at most nine sessions, which includes every split of the table.
- Calendar.SubscriptionDayMeals and Calendar.SubscriptionDayWorkout are stated for the plans `generatePlan` produces: seven weekday-indexed entries and distinct session ids. For other stored plans, `Calendar.DaySummary` describes each day.
