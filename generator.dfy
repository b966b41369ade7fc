/** `generatePlan`: the calorie target, the training plan, the rotation and the
    nutrition plan built from it, the 30-day subscription window, the append-only
    profile history, the carried-over subscription tier and the habit list. */
module PlanGenerator {
  import opened Wrappers
  import opened Domain
  import opened Training
  import opened Nutrition
  import Text

  // ---------------------------------------------------------------- habits

  const Hydration := Habit("hydration", "Voda 2L",
    "Popij najmanje 8 \U{010D}a\U{0161}a vode raspore\U{0111}eno tokom dana.", HabitCategory.Hydration)
  const SleepHygiene := Habit("sleep-hygiene", "San 7+ h",
    "Fiksiraj vreme spavanja i bu\U{0111}enja, minimum 7 sati sna.", Sleep)
  const Walk := Habit("walk", "\U{0160}etnja 6k koraka",
    "Planiraj 2 kra\U{0107}e \U{0161}etnje po 15 minuta.", HabitCategory.Mobility)
  const Nsdr := Habit("nsdr", "NSDR/Disanje",
    "Izaberi vo\U{0111}enu NSDR audio (.5, 10 ili 20 min) prema energiji.", Mindfulness)
  const ProteinHabit := Habit("protein", "Protein u svakom obroku",
    "Uklju\U{010D}i kvalitetan izvor proteina u sva tri glavna obroka.", HabitCategory.Nutrition)
  const Fiber := Habit("fiber", "Povr\U{0107}e 2x",
    "Dodaj povr\U{0107}e u minimum dva obroka danas.", HabitCategory.Nutrition)
  const Gratitude := Habit("gratitude", "Kratka zahvalnost",
    "Upi\U{0161}i 3 stvari na kojima si zahvalna pre spavanja.", Mindfulness)
  const MobilityReset := Habit("mobility-reset", "Mobilnost 10 min",
    "Krug mobilnosti za kukove i torakalnu ki\U{010D}mu (10 minuta).", HabitCategory.Mobility)

  /** `coreHabits` and `optionalHabits` of the habit catalogue. */
  const CoreHabits: seq<Habit> := [Hydration, SleepHygiene, Walk, Nsdr, ProteinHabit]
  const OptionalHabits: seq<Habit> := [Fiber, Gratitude, MobilityReset]

  const WeeklyChallenge := "35k koraka + 3 treninga ove nedelje"

  /** `habits.find((habit) => habit.id === id)`. */
  function FindHabit(habits: seq<Habit>, id: string): (r: Option<Habit>)
    ensures r.Some? ==> r.value in habits && r.value.id == id
    ensures r.None? <==> forall h :: h in habits ==> h.id != id
  {
    if habits == [] then None
    else if habits[0].id == id then Some(habits[0])
    else FindHabit(habits[1..], id)
  }

  /** The two optional habits the generator adds are not core habits: their ids
      start with letters no core id starts with. */
  lemma ExtrasNotCore()
    ensures Gratitude !in CoreHabits && MobilityReset !in CoreHabits
  {
    var firsts := seq(|CoreHabits|, k requires 0 <= k < |CoreHabits| => CoreHabits[k].id[0]);
    assert firsts == ['h', 's', 'w', 'n', 'p'];
    assert Gratitude.id[0] == 'g' && MobilityReset.id[0] == 'm';
  }

  /** The optional habits the profile asks for, in catalogue order. */
  method ExtraHabits(p: UserProfile) returns (extra: seq<Habit>)
    ensures |extra| == (if p.stressLevel >= 4 then 1 else 0) + (if p.sleepHours < 7.0 then 1 else 0)
    ensures Gratitude in extra <==> p.stressLevel >= 4
    ensures MobilityReset in extra <==> p.sleepHours < 7.0
    ensures p.stressLevel >= 4 ==> extra[0] == Gratitude
    ensures forall h :: h in extra ==> h in OptionalHabits
    ensures extra == (if p.stressLevel >= 4 then [Gratitude] else []) + (if p.sleepHours < 7.0 then [MobilityReset] else [])
  {
    extra := [];
    if p.stressLevel >= 4 {
      var gratitude := FindHabit(OptionalHabits, "gratitude");
      if gratitude.Some? {
        extra := extra + [gratitude.value];
      }
    }
    if p.sleepHours < 7.0 {
      var mobility := FindHabit(OptionalHabits, "mobility-reset");
      if mobility.Some? {
        extra := extra + [mobility.value];
      }
    }
  }

  /** The habit plan a profile gets: the weekly challenge, and the core habits
      followed by the optional ones its stress and sleep ask for, gratitude first. */
  predicate HabitsFor(p: UserProfile, h: HabitPlan) {
    && h.weeklyChallenge == WeeklyChallenge
    && h.dailyHabits == CoreHabits + (if p.stressLevel >= 4 then [Gratitude] else [])
                                    + (if p.sleepHours < 7.0 then [MobilityReset] else [])
    && |h.dailyHabits| == |CoreHabits| + (if p.stressLevel >= 4 then 1 else 0) + (if p.sleepHours < 7.0 then 1 else 0)
    && h.dailyHabits[..|CoreHabits|] == CoreHabits
    && (Gratitude in h.dailyHabits <==> p.stressLevel >= 4)
    && (MobilityReset in h.dailyHabits <==> p.sleepHours < 7.0)
  }

  /** The profile fixes the habit plan: two plans that both fit it are the same. */
  lemma HabitsForUnique(p: UserProfile, h1: HabitPlan, h2: HabitPlan)
    requires HabitsFor(p, h1) && HabitsFor(p, h2)
    ensures h1 == h2
  {
  }

  /** The `habits` part of `generatePlan`. */
  method BuildHabits(p: UserProfile) returns (h: HabitPlan)
    ensures HabitsFor(p, h)
  {
    var extra := ExtraHabits(p);
    var daily := CoreHabits + extra;
    assert daily[..|CoreHabits|] == CoreHabits;
    ExtrasNotCore();
    h := HabitPlan(daily, WeeklyChallenge);
  }

  // ---------------------------------------------------------------- history and tier

  /** `previousPlan?.profileHistory ?? (previousPlan?.profileSnapshot ? [snapshot] : [])`. */
  function PreviousHistory(previous: Option<GeneratedPlan>): (h: seq<ProfileSnapshot>)
    ensures previous.Some? && previous.value.profileHistory.Some? ==> h == previous.value.profileHistory.value
    ensures previous.None? ==> h == []
    ensures |h| <= 1 || (previous.Some? && previous.value.profileHistory.Some?)
  {
    match previous
    case None => []
    case Some(plan) =>
      match plan.profileHistory
      case Some(history) => history
      case None => if plan.profileSnapshot.Some? then [plan.profileSnapshot.value] else []
  }

  /** `previousPlan?.subscriptionTier ?? "unselected"`. */
  function CarriedTier(previous: Option<GeneratedPlan>): (t: SubscriptionTier)
    ensures previous.Some? && previous.value.subscriptionTier.Some? ==> t == previous.value.subscriptionTier.value
    ensures (previous.None? || previous.value.subscriptionTier.None?) ==> t == Unselected
  {
    if previous.Some? then previous.value.subscriptionTier.GetOr(Unselected) else Unselected
  }

  // ---------------------------------------------------------------- the plan

  /** The catalogues the generator draws from. */
  datatype Catalogs = Catalogs(exercises: ExerciseCatalog, meals: seq<MealRecipe>, swaps: seq<MealSuggestion>)

  /** `startOfDay`: midnight of the (UTC) day that `t` falls in. */
  function StartOfDay(t: Timestamp): (start: int)
    ensures start % MsInDay == 0 && start <= t < start + MsInDay
    ensures DayOf(start) == DayOf(t)
  {
    DayOf(t) * MsInDay
  }

  /** The subscription's last day: 29 days after the day it starts, at the same time of day. */
  function SubscriptionEndFrom(start: Timestamp): (end: Timestamp)
    ensures DayOf(end) == DayOf(start) + 29 && end - start == 29 * MsInDay
  {
    start + 29 * MsInDay
  }

  /** The nutrition half of `generatePlan`: the rotation read off the training
      schedule, and the plan built from it at the profile's target calories. */
  method PlanNutrition(p: UserProfile, schedule: seq<ScheduleEntry>, catalogs: Catalogs)
    returns (nutrition: NutritionPlan)
    requires SupportedDays(p.daysPerWeek) && WeekSlots(schedule)
    requires forall d :: 0 <= d < 7 ==> (HasSession(schedule[d]) <==> d in StartingDays(p.daysPerWeek))
    ensures nutrition.rotation == RotationTable(p.daysPerWeek)
    ensures |nutrition.weeklyPlan| == 7
    ensures forall i :: 0 <= i < 7 ==> DayShaped(nutrition.weeklyPlan[i], nutrition.rotation[i], i, catalogs.swaps)
    ensures PlanRespectsRestrictions(p, nutrition)
    ensures nutrition.weeklyPlan ==
              WeekPlan(p, TargetCalories(p), nutrition.rotation, BuildPools(p, catalogs.meals), catalogs.swaps).0
    ensures forall t :: (forall i :: 0 <= i < 7 ==> nutrition.weeklyPlan[i].dayType != t) ==>
              nutrition.planByDayType.Get(t) ==
                SyntheticDay(p, TargetCalories(p), t, BuildPools(p, catalogs.meals).health, catalogs.swaps)
  {
    var rotation := CreateRotation(schedule);
    RotationMatchesTable(p.daysPerWeek, schedule);
    assert rotation == RotationTable(p.daysPerWeek);
    nutrition := BuildNutrition(p, TargetCalories(p), rotation, catalogs.meals, catalogs.swaps);
  }

  /** `generatePlan`. The clock reads are one instant `now`. */
  method GeneratePlan(p: UserProfile, previous: Option<GeneratedPlan>, now: nat, catalogs: Catalogs)
    returns (plan: GeneratedPlan)
    requires SupportedDays(p.daysPerWeek)
    ensures plan.id == "plan-" + Text.NatToString(now) && plan.createdAt == now
    ensures plan.subscriptionStart == Some(StartOfDay(now))
    ensures plan.subscriptionStart.value <= now < plan.subscriptionStart.value + MsInDay
    ensures plan.subscriptionEnd == Some(SubscriptionEndFrom(plan.subscriptionStart.value))
    ensures plan.subscriptionTier == Some(CarriedTier(previous))
    ensures plan.profileSnapshot == Some(ProfileSnapshot(now, Some(p)))
    ensures plan.profileHistory.Some?
    ensures plan.profileHistory.value == PreviousHistory(previous) + [plan.profileSnapshot.value]
    // training
    ensures plan.training.split == Split(p.daysPerWeek).name && |plan.training.sessions| == p.daysPerWeek
    ensures WeekSlots(plan.training.schedule) && ScheduleReferencesSessions(plan.training)
    ensures forall d :: 0 <= d < 7 ==>
              (HasSession(plan.training.schedule[d]) <==> d in StartingDays(p.daysPerWeek))
    ensures forall i :: 0 <= i < |plan.training.sessions| ==>
              SessionBuiltFor(plan.training.sessions[i], Split(p.daysPerWeek).focuses[i], i, p, catalogs.exercises)
    // nutrition
    ensures plan.nutrition.rotation == RotationTable(p.daysPerWeek)
    ensures |plan.nutrition.weeklyPlan| == 7
    ensures forall i :: 0 <= i < 7 ==>
              DayShaped(plan.nutrition.weeklyPlan[i], plan.nutrition.rotation[i], i, catalogs.swaps)
    ensures PlanRespectsRestrictions(p, plan.nutrition)
    ensures plan.nutrition.weeklyPlan ==
              WeekPlan(p, TargetCalories(p), plan.nutrition.rotation, BuildPools(p, catalogs.meals), catalogs.swaps).0
    ensures forall t :: (forall i :: 0 <= i < 7 ==> plan.nutrition.weeklyPlan[i].dayType != t) ==>
              plan.nutrition.planByDayType.Get(t) ==
                SyntheticDay(p, TargetCalories(p), t, BuildPools(p, catalogs.meals).health, catalogs.swaps)
    // habits
    ensures HabitsFor(p, plan.habits)
  {
    var training := BuildTrainingPlan(p, catalogs.exercises);
    var nutrition := PlanNutrition(p, training.schedule, catalogs);

    var start := StartOfDay(now);
    var snapshot := ProfileSnapshot(now, Some(p));
    var history := PreviousHistory(previous) + [snapshot];

    var habits := BuildHabits(p);

    plan := GeneratedPlan(
      "plan-" + Text.NatToString(now), now, Some(start), Some(SubscriptionEndFrom(start)),
      Some(CarriedTier(previous)), Some(snapshot), Some(history),
      training, nutrition, habits);
  }

  /** Regenerating never loses history: the previous plan's history is a prefix of
      the new one, which is exactly one entry longer. */
  lemma HistoryOnlyGrows(previousPlan: GeneratedPlan, snapshot: ProfileSnapshot)
    requires previousPlan.profileHistory.Some?
    ensures var h := PreviousHistory(Some(previousPlan)) + [snapshot];
            |h| == |previousPlan.profileHistory.value| + 1 &&
            h[..|previousPlan.profileHistory.value|] == previousPlan.profileHistory.value &&
            h[|h| - 1] == snapshot
  {
    var h := PreviousHistory(Some(previousPlan)) + [snapshot];
    assert h[..|previousPlan.profileHistory.value|] == previousPlan.profileHistory.value;
  }
}
