/** The records the plan generator, the calendar and the app state share, with the
    shapes the code reads (profile, catalogue entries, the generated plan, daily logs).
    Dates are whole days counted from 1970-01-01 and instants are milliseconds. */
module Domain {
  import opened Wrappers

  // ---------------------------------------------------------------- time

  /** A calendar day: days since 1970-01-01, which was a Thursday. */
  type Day = int
  /** An instant, in milliseconds since 1970-01-01T00:00. */
  type Timestamp = int

  const MsInDay: int := 86400000

  /** `startOfDay`, as a day number. */
  function DayOf(t: Timestamp): Day {
    t / MsInDay
  }

  /** `getDayOfWeek`: `(getDay() + 6) % 7`, so Monday is 0 and Sunday is 6. */
  function Weekday(d: Day): (w: int)
    ensures 0 <= w < 7
  {
    (d + 3) % 7
  }

  /** Day 0 (a Thursday) has weekday 3 and day 4 (a Monday) has weekday 0. */
  lemma WeekdayAnchors()
    ensures Weekday(0) == 3 && Weekday(4) == 0 && Weekday(10) == 6
  {
  }

  /** One day later is one weekday later, Sunday wrapping to Monday. */
  lemma WeekdayNext(d: Day)
    ensures Weekday(d + 1) == if Weekday(d) == 6 then 0 else Weekday(d) + 1
  {
  }

  // ---------------------------------------------------------------- profile

  datatype Goal = Lose | Maintain | Gain
  datatype ActivityLevel = Sedentary | Light | Moderate | High
  datatype Location = Home | Gym
  /** Diet preferences and the diet types a meal is tagged with share one vocabulary. */
  datatype Diet = Omnivore | Mixed | Pescatarian | Vegetarian | Keto | Carnivore
  datatype HealthCondition = IR | Hashimoto | PCOS

  function ConditionName(c: HealthCondition): string {
    match c
    case IR => "IR"
    case Hashimoto => "Hashimoto"
    case PCOS => "PCOS"
  }

  datatype Equipment = Equipment(location: Location, items: seq<string>)

  datatype UserProfile = UserProfile(
    age: int,
    heightCm: int,
    weightKg: real,
    goal: Goal,
    activityLevel: ActivityLevel,
    equipment: Equipment,
    daysPerWeek: int,
    dietPreference: Diet,
    allergies: seq<string>,
    dislikedFoods: seq<string>,
    sleepHours: real,
    stressLevel: int,
    healthConditions: seq<HealthCondition>,
    cycleLengthDays: Option<int>,
    periodLengthDays: Option<int>,
    lastPeriodDate: Option<string>)

  // ---------------------------------------------------------------- training

  datatype Focus = Upper | Lower | Full | Core | Cardio | Push | Pull | Mobility

  function FocusName(f: Focus): (s: string)
    ensures |s| > 0 && '-' !in s
  {
    match f
    case Upper => "upper"
    case Lower => "lower"
    case Full => "full"
    case Core => "core"
    case Cardio => "cardio"
    case Push => "push"
    case Pull => "pull"
    case Mobility => "mobility"
  }

  datatype Intensity = Beginner | Intermediate | Advanced

  /** A catalogue exercise. Absent tag lists are empty lists. */
  datatype WorkoutExercise = WorkoutExercise(
    id: string,
    name: string,
    focus: Focus,
    goalTags: seq<Goal>,
    healthTags: seq<HealthCondition>,
    intensity: Option<Intensity>,
    preferredLocation: Option<Location>)

  datatype Difficulty = BeginnerSession | IntermediateSession

  datatype WorkoutSession = WorkoutSession(
    id: string,
    title: string,
    focus: Focus,
    difficulty: Difficulty,
    durationMinutes: int,
    notes: string,
    exercises: seq<WorkoutExercise>)

  datatype ScheduleEntry = ScheduleEntry(day: int, sessionId: Option<string>)

  /** `entry.sessionId` is truthy. */
  predicate HasSession(e: ScheduleEntry) {
    e.sessionId.Some? && e.sessionId.value != ""
  }

  datatype TrainingPlan = TrainingPlan(
    split: string,
    sessions: seq<WorkoutSession>,
    schedule: seq<ScheduleEntry>)

  // ---------------------------------------------------------------- nutrition

  datatype MealType = Breakfast | Lunch | Dinner | Snack | Dessert

  datatype Ingredient = Ingredient(name: string)

  datatype MealRecipe = MealRecipe(
    id: string,
    title: string,
    mealType: MealType,
    dietTypes: seq<Diet>,
    calories: real,
    protein: real,
    carbs: real,
    fats: real,
    tags: seq<string>,
    ingredients: seq<Ingredient>)

  datatype MealSuggestion = MealSuggestion(id: string, title: string, icon: string)

  datatype DayIntensity = Low | Mid | High

  datatype DailyNutritionPlan = DailyNutritionPlan(
    dayType: DayIntensity,
    dayIndex: Option<int>,
    dayName: Option<string>,
    calories: int,
    protein: int,
    carbs: int,
    fats: int,
    meals: seq<MealRecipe>,
    swaps: seq<MealSuggestion>)

  /** `Record<DayIntensity, DailyNutritionPlan>`. */
  datatype ByDayType = ByDayType(low: DailyNutritionPlan, mid: DailyNutritionPlan, high: DailyNutritionPlan) {
    function Get(t: DayIntensity): DailyNutritionPlan {
      match t
      case Low => low
      case Mid => mid
      case High => high
    }
  }

  datatype NutritionPlan = NutritionPlan(
    rotation: seq<DayIntensity>,
    planByDayType: ByDayType,
    weeklyPlan: seq<DailyNutritionPlan>)

  // ---------------------------------------------------------------- habits and plan

  datatype HabitCategory = Hydration | Sleep | Mobility | Mindfulness | Nutrition

  datatype Habit = Habit(id: string, title: string, description: string, category: HabitCategory)

  datatype HabitPlan = HabitPlan(dailyHabits: seq<Habit>, weeklyChallenge: string)

  datatype SubscriptionTier = Unselected | NutritionTier | TrainingTier | HabitsTier | FullTier

  /** A dated copy of the profile. A plan stored without any profile can carry a
      snapshot whose profile is null, so the profile is optional here. */
  datatype ProfileSnapshot = ProfileSnapshot(capturedAt: Timestamp, profile: Option<UserProfile>)

  /** The persisted plan. Plans written by older versions may lack the subscription
      fields and the profile history, so those are optional. */
  datatype GeneratedPlan = GeneratedPlan(
    id: string,
    createdAt: Timestamp,
    subscriptionStart: Option<Timestamp>,
    subscriptionEnd: Option<Timestamp>,
    subscriptionTier: Option<SubscriptionTier>,
    profileSnapshot: Option<ProfileSnapshot>,
    profileHistory: Option<seq<ProfileSnapshot>>,
    training: TrainingPlan,
    nutrition: NutritionPlan,
    habits: HabitPlan)

  // ---------------------------------------------------------------- membership

  /** The membership statuses the app and the webhook use; `Inactive` is the app's
      default when no membership record is known. */
  datatype MembershipStatus = Active | Trialing | Grace | PastDue | Canceled | Expired | Inactive | Unknown

  datatype MembershipSummary = MembershipSummary(
    status: MembershipStatus,
    currentPeriodEnd: Option<Timestamp>,
    updatedAt: Option<Timestamp>)

  // ---------------------------------------------------------------- logs

  /** One day's completion record; `date` is also its key in the log map. */
  datatype DailyLog = DailyLog(
    date: Day,
    energy: Option<int>,
    workoutsCompleted: seq<string>,
    mealsCompleted: seq<string>,
    habitsCompleted: seq<string>)
}
