/** The nutrition half of the plan generator: calorie and macro targets, the chain of
    meal pools (restrictions, diet, health conditions), the per-slot meal pick that
    steers away from meals already used in the week, daily totals, and the weekly
    plan with its per-intensity representatives. Arithmetic is exact (`real`);
    `Math.round` is `floor(x + 0.5)`. */
module Nutrition {
  import opened Wrappers
  import opened Domain
  import opened Lists
  import opened Text

  // ---------------------------------------------------------------- energy targets

  function ActivityMultiplier(a: ActivityLevel): real {
    match a
    case Sedentary => 1.35
    case Light => 1.45
    case Moderate => 1.55
    case High => 1.7
  }

  function GoalAdjustment(g: Goal): real {
    match g
    case Lose => -0.18
    case Maintain => 0.0
    case Gain => 0.12
  }

  /** `estimateBmr`: the Mifflin-St Jeor estimate for women. */
  function EstimateBmr(p: UserProfile): real {
    10.0 * p.weightKg + 6.25 * p.heightCm as real - 5.0 * p.age as real - 161.0
  }

  /** The estimate rises by 10 per kilogram and 6.25 per centimetre and falls by 5
      per year of age, whatever else the profile holds. */
  lemma BmrSensitivity(p: UserProfile, q: UserProfile)
    ensures EstimateBmr(q) - EstimateBmr(p) ==
              10.0 * (q.weightKg - p.weightKg) + 6.25 * (q.heightCm - p.heightCm) as real - 5.0 * (q.age - p.age) as real
    ensures q.weightKg >= p.weightKg && q.heightCm >= p.heightCm && q.age <= p.age ==> EstimateBmr(q) >= EstimateBmr(p)
  {
  }

  /** `Math.round`: the nearest integer, halves rounded up. */
  function Round(x: real): (r: int)
    ensures r as real - 0.5 <= x < r as real + 0.5
  {
    (x + 0.5).Floor
  }

  lemma RoundMonotone(x: real, y: real)
    requires x <= y
    ensures Round(x) <= Round(y)
  {
  }

  /** The daily calorie target of `generatePlan`: BMR times the activity multiplier,
      adjusted by the goal, rounded. */
  function TargetCalories(p: UserProfile): (kcal: int)
    ensures kcal as real - 0.5 <= EstimateBmr(p) * ActivityMultiplier(p.activityLevel) * (1.0 + GoalAdjustment(p.goal))
    ensures EstimateBmr(p) * ActivityMultiplier(p.activityLevel) * (1.0 + GoalAdjustment(p.goal)) < kcal as real + 0.5
  {
    Round(EstimateBmr(p) * ActivityMultiplier(p.activityLevel) * (1.0 + GoalAdjustment(p.goal)))
  }

  /** `adjustForConditions`: five percent off for insulin resistance or PCOS. */
  function AdjustForConditions(value: real, p: UserProfile): (r: real)
    ensures (IR in p.healthConditions || PCOS in p.healthConditions) ==> r == value * 0.95
    ensures !(IR in p.healthConditions || PCOS in p.healthConditions) ==> r == value
  {
    if IR in p.healthConditions || PCOS in p.healthConditions then value * 0.95 else value
  }

  datatype Macros = Macros(calories: int, protein: int, carbs: int, fats: int)

  function BaseProtein(p: UserProfile): real {
    (if p.goal == Gain then 2.0 else 1.8) * p.weightKg
  }

  function BaseFats(p: UserProfile): real {
    (if p.goal == Lose then 0.9 else if p.goal == Gain then 1.1 else 1.0) * p.weightKg
    + (if Hashimoto in p.healthConditions then 5.0 else 0.0)
  }

  /** The carbohydrate grams left after protein and fat, never below 120 kcal worth. */
  function BaseCarbs(p: UserProfile, weeklyCalories: int): (c: real)
    ensures c >= 28.5
  {
    var caloriesLeft := weeklyCalories as real - (BaseProtein(p) * 4.0 + BaseFats(p) * 9.0);
    var remaining := if caloriesLeft > 120.0 then caloriesLeft else 120.0;
    AdjustForConditions(remaining / 4.0, p)
  }

  /** `targets[dayType]` in `buildNutrition`. */
  function Targets(p: UserProfile, weeklyCalories: int, t: DayIntensity): Macros {
    var protein, fats, carbs := BaseProtein(p), BaseFats(p), BaseCarbs(p, weeklyCalories);
    match t
    case Low => Macros(Round(weeklyCalories as real * 0.86), Round(protein), Round(carbs * 0.82), Round(fats * 1.05))
    case Mid => Macros(weeklyCalories, Round(protein), Round(carbs), Round(fats))
    case High => Macros(Round(weeklyCalories as real * 1.1), Round(protein * 1.05), Round(carbs * 1.1), Round(fats * 0.95))
  }

  /** A mid day keeps the weekly calories; a low day has the nearest integer to 86
      percent of them and a high day to 110 percent; protein is the nearest integer
      to the base on low and mid days and to 105 percent of it on high days. */
  lemma TargetsScaled(p: UserProfile, weeklyCalories: int)
    ensures Targets(p, weeklyCalories, Mid).calories == weeklyCalories
    ensures var c := Targets(p, weeklyCalories, Low).calories as real;
            c - 0.5 <= weeklyCalories as real * 0.86 < c + 0.5
    ensures var c := Targets(p, weeklyCalories, DayIntensity.High).calories as real;
            c - 0.5 <= weeklyCalories as real * 1.1 < c + 0.5
    ensures Targets(p, weeklyCalories, Low).protein == Targets(p, weeklyCalories, Mid).protein
    ensures var q := Targets(p, weeklyCalories, Mid).protein as real;
            q - 0.5 <= BaseProtein(p) < q + 0.5
    ensures var q := Targets(p, weeklyCalories, DayIntensity.High).protein as real;
            q - 0.5 <= BaseProtein(p) * 1.05 < q + 0.5
  {
  }

  /** The three tiers are ordered: low days have the fewest
      calories and carbohydrates and the most fat, high days the reverse. */
  lemma TargetsOrdered(p: UserProfile, weeklyCalories: int)
    requires weeklyCalories >= 0 && p.weightKg >= 0.0
    ensures Targets(p, weeklyCalories, Low).calories <= Targets(p, weeklyCalories, Mid).calories
    ensures Targets(p, weeklyCalories, Mid).calories <= Targets(p, weeklyCalories, DayIntensity.High).calories
    ensures Targets(p, weeklyCalories, Low).carbs <= Targets(p, weeklyCalories, Mid).carbs
    ensures Targets(p, weeklyCalories, Mid).carbs <= Targets(p, weeklyCalories, DayIntensity.High).carbs
    ensures Targets(p, weeklyCalories, Low).protein == Targets(p, weeklyCalories, Mid).protein
    ensures Targets(p, weeklyCalories, Mid).protein <= Targets(p, weeklyCalories, DayIntensity.High).protein
    ensures Targets(p, weeklyCalories, DayIntensity.High).fats <= Targets(p, weeklyCalories, Mid).fats
    ensures Targets(p, weeklyCalories, Mid).fats <= Targets(p, weeklyCalories, Low).fats
  {
    var w := weeklyCalories as real;
    var protein, fats, carbs := BaseProtein(p), BaseFats(p), BaseCarbs(p, weeklyCalories);
    RoundMonotone(w * 0.86, w);
    RoundMonotone(w, w * 1.1);
    assert Round(w) == weeklyCalories;
    RoundMonotone(carbs * 0.82, carbs);
    RoundMonotone(carbs, carbs * 1.1);
    RoundMonotone(protein, protein * 1.05);
    RoundMonotone(fats * 0.95, fats);
    RoundMonotone(fats, fats * 1.05);
  }

  /** A 28-year-old, 168 cm, 68 kg, lightly active woman who wants to lose weight:
      BMR 1429, daily target 1699 kcal, low days 1461 and high days 1869. */
  lemma TargetCaloriesExample(p: UserProfile)
    requires p.weightKg == 68.0 && p.heightCm == 168 && p.age == 28
    requires p.goal == Lose && p.activityLevel == Light
    ensures EstimateBmr(p) == 1429.0
    ensures TargetCalories(p) == 1699
    ensures Targets(p, 1699, Low).calories == 1461 && Targets(p, 1699, DayIntensity.High).calories == 1869
  {
    assert EstimateBmr(p) * 1.45 * 0.82 == 1699.0810;
    assert 1699.0 * 0.86 == 1461.14;
    assert 1699.0 * 1.1 == 1868.9;
  }

  // ---------------------------------------------------------------- meal pools

  /** The ingredient names of a meal, lower-cased and joined with single spaces. */
  function IngredientText(ingredients: seq<Ingredient>): string {
    if ingredients == [] then ""
    else if |ingredients| == 1 then ToLower(ingredients[0].name)
    else ToLower(ingredients[0].name) + " " + IngredientText(ingredients[1..])
  }

  /** Some term, lower-cased, occurs in `text`. */
  predicate MentionsAny(text: string, terms: seq<string>) {
    exists t :: t in terms && Contains(text, ToLower(t))
  }

  /** `matchesRestrictions`: no allergy and no disliked food occurs in the meal's
      ingredient text. */
  predicate MatchesRestrictions(p: UserProfile, meal: MealRecipe) {
    var text := IngredientText(meal.ingredients);
    !MentionsAny(text, p.allergies) && !MentionsAny(text, p.dislikedFoods)
  }

  /** A meal that passes the restrictions mentions none of the banned terms. */
  lemma NoBannedIngredient(p: UserProfile, meal: MealRecipe, term: string)
    requires MatchesRestrictions(p, meal)
    requires term in p.allergies || term in p.dislikedFoods
    ensures !Contains(IngredientText(meal.ingredients), ToLower(term))
  {
  }

  /** A meal passes the restrictions exactly when no allergy and no disliked food,
      lower-cased, occurs in its ingredient text. */
  lemma MatchesRestrictionsExactly(p: UserProfile, meal: MealRecipe)
    ensures MatchesRestrictions(p, meal) <==>
              forall term :: term in p.allergies + p.dislikedFoods ==>
                !Contains(IngredientText(meal.ingredients), ToLower(term))
  {
    var text := IngredientText(meal.ingredients);
    if !MatchesRestrictions(p, meal) {
      var term :| (term in p.allergies || term in p.dislikedFoods) && Contains(text, ToLower(term));
      assert term in p.allergies + p.dislikedFoods;
    }
  }

  /** The diet types each preference accepts in `filterMealsByPreference`. */
  function AcceptedDiets(pref: Diet): (ds: set<Diet>)
    ensures pref in ds
  {
    match pref
    case Vegetarian => {Vegetarian, Mixed}
    case Pescatarian => {Pescatarian, Mixed, Vegetarian}
    case Keto => {Keto, Carnivore}
    case Carnivore => {Carnivore}
    case Mixed => {Mixed, Omnivore, Pescatarian, Vegetarian}
    case Omnivore => {Omnivore, Mixed}
  }

  predicate DietAccepts(pref: Diet, meal: MealRecipe) {
    exists d :: d in meal.dietTypes && d in AcceptedDiets(pref)
  }

  /** `filterMealsByPreference`. */
  function FilterMealsByPreference(pref: Diet, candidates: seq<MealRecipe>): (r: seq<MealRecipe>)
    ensures forall m :: m in r <==> m in candidates && DietAccepts(pref, m)
    ensures |r| <= |candidates|
  {
    Filter(candidates, m => DietAccepts(pref, m))
  }

  /** Vegetarian and pescatarian profiles never get a meal tagged only as keto,
      carnivore or omnivore. */
  lemma VegetarianGetsNoMeatOnlyMeals(pref: Diet, candidates: seq<MealRecipe>, m: MealRecipe)
    requires pref == Vegetarian || pref == Pescatarian
    requires m in FilterMealsByPreference(pref, candidates)
    ensures exists d :: d in m.dietTypes && d in {Vegetarian, Pescatarian, Mixed}
  {
  }

  /** Some tag of the meal, lower-cased, includes the lower-cased condition name. */
  predicate TagMatches(meal: MealRecipe, c: HealthCondition) {
    exists tag :: tag in meal.tags && Contains(ToLower(tag), ToLower(ConditionName(c)))
  }

  predicate ContainsAll(p: UserProfile, meal: MealRecipe) {
    forall c :: c in p.healthConditions ==> TagMatches(meal, c)
  }

  predicate ContainsAny(p: UserProfile, meal: MealRecipe) {
    exists c :: c in p.healthConditions && TagMatches(meal, c)
  }

  /** `strictMatches`: the candidates tagged for every condition. */
  function StrictMatches(p: UserProfile, candidates: seq<MealRecipe>): seq<MealRecipe> {
    Filter(candidates, m => ContainsAll(p, m))
  }

  /** `partialMatches`: the candidates tagged for some condition. */
  function PartialMatches(p: UserProfile, candidates: seq<MealRecipe>): seq<MealRecipe> {
    Filter(candidates, m => ContainsAny(p, m))
  }

  /** `filterMealsByHealth`: the meals tagged for every condition if there are at
      least six, else those tagged for some condition if there are at least six,
      else the input. */
  function FilterMealsByHealth(p: UserProfile, candidates: seq<MealRecipe>): (r: seq<MealRecipe>)
    ensures forall m :: m in r ==> m in candidates
    ensures p.healthConditions == [] ==> r == candidates
    ensures r == candidates || |r| >= 6
    ensures r != candidates ==> forall m :: m in r ==> ContainsAny(p, m)
    ensures p.healthConditions != [] && |StrictMatches(p, candidates)| >= 6 ==>
              r == StrictMatches(p, candidates) &&
              forall m :: m in r <==> m in candidates && ContainsAll(p, m)
    ensures p.healthConditions != [] && |StrictMatches(p, candidates)| < 6 && |PartialMatches(p, candidates)| >= 6 ==>
              r == PartialMatches(p, candidates) &&
              forall m :: m in r <==> m in candidates && ContainsAny(p, m)
    ensures p.healthConditions != [] && |StrictMatches(p, candidates)| < 6 && |PartialMatches(p, candidates)| < 6 ==>
              r == candidates
  {
    if p.healthConditions == [] then candidates
    else
      var strict := StrictMatches(p, candidates);
      if |strict| >= 6 then
        assert forall m :: m in strict ==> ContainsAny(p, m) by {
          assert p.healthConditions[0] in p.healthConditions;
        }
        strict
      else
        var partial := PartialMatches(p, candidates);
        if |partial| >= 6 then partial else candidates
  }

  /** The chain of pools `buildNutrition` draws from. */
  datatype MealPools = MealPools(base: seq<MealRecipe>, diet: seq<MealRecipe>, health: seq<MealRecipe>)

  /** `health ⊆ diet ⊆ base`, and every meal of `base` passes the restrictions. */
  predicate PoolChain(p: UserProfile, pools: MealPools) {
    && (forall m :: m in pools.health ==> m in pools.diet)
    && (forall m :: m in pools.diet ==> m in pools.base)
    && (forall m :: m in pools.base ==> MatchesRestrictions(p, m))
  }

  function BuildPools(p: UserProfile, catalog: seq<MealRecipe>): (pools: MealPools)
    ensures PoolChain(p, pools)
    ensures forall m :: m in pools.base <==> m in catalog && MatchesRestrictions(p, m)
    ensures forall m :: m in pools.diet <==> m in pools.base && DietAccepts(p.dietPreference, m)
  {
    var base := Filter(catalog, m => MatchesRestrictions(p, m));
    var diet := FilterMealsByPreference(p.dietPreference, base);
    MealPools(base, diet, FilterMealsByHealth(p, diet))
  }

  // ---------------------------------------------------------------- scoring and picking

  function Abs(x: real): real {
    if x < 0.0 then -x else x
  }

  /** The tag bonus for the day's intensity. */
  function TagBoost(meal: MealRecipe, dayType: DayIntensity): real {
    match dayType
    case High => if "high-calorie" in meal.tags then -40.0 else 0.0
    case Low => if "low-calorie" in meal.tags then -30.0 else 0.0
    case Mid => if "mid-calorie" in meal.tags then -20.0 else 0.0
  }

  function HealthScore(meal: MealRecipe, p: UserProfile): real {
    if p.healthConditions == [] then 0.0
    else if ContainsAll(p, meal) then -40.0
    else if ContainsAny(p, meal) then -15.0
    else 25.0
  }

  /** `scoreMealForDay`: distance from the calorie target, lowered by matching tags
      and raised for a profile with conditions none of which the meal is tagged for. */
  function ScoreMealForDay(meal: MealRecipe, targetCalories: real, dayType: DayIntensity, p: UserProfile): real {
    Abs(meal.calories - targetCalories)
    + TagBoost(meal, dayType)
    + (if "high-protein" in meal.tags then -10.0 else 0.0)
    + HealthScore(meal, p)
  }

  /** Tags move the score at most 90 below and 25 above the calorie distance. */
  lemma ScoreBounds(meal: MealRecipe, targetCalories: real, dayType: DayIntensity, p: UserProfile)
    ensures Abs(meal.calories - targetCalories) - 90.0 <= ScoreMealForDay(meal, targetCalories, dayType, p)
    ensures ScoreMealForDay(meal, targetCalories, dayType, p) <= Abs(meal.calories - targetCalories) + 25.0
  {
  }

  /** Between two meals that differ only in calories, the one closer to the target
      scores lower, by exactly the difference of their distances. */
  lemma CloserCaloriesScoreLower(a: MealRecipe, calories: real, targetCalories: real, dayType: DayIntensity,
                                 p: UserProfile)
    ensures var b := a.(calories := calories);
            ScoreMealForDay(b, targetCalories, dayType, p) - ScoreMealForDay(a, targetCalories, dayType, p) ==
              Abs(calories - targetCalories) - Abs(a.calories - targetCalories)
    ensures Abs(a.calories - targetCalories) < Abs(calories - targetCalories) ==>
              ScoreMealForDay(a, targetCalories, dayType, p) < ScoreMealForDay(a.(calories := calories), targetCalories, dayType, p)
  {
    var b := a.(calories := calories);
    assert TagBoost(b, dayType) == TagBoost(a, dayType);
    assert HealthScore(b, p) == HealthScore(a, p) by {
      assert forall c :: TagMatches(b, c) == TagMatches(a, c);
    }
  }

  /** A meal tagged for every condition of the profile beats an otherwise equal
      meal tagged for none. */
  lemma HealthTagsLowerScore(a: MealRecipe, b: MealRecipe, targetCalories: real, dayType: DayIntensity, p: UserProfile)
    requires p.healthConditions != []
    requires a.calories == b.calories
    requires TagBoost(a, dayType) == TagBoost(b, dayType)
    requires ("high-protein" in a.tags) == ("high-protein" in b.tags)
    requires ContainsAll(p, a) && !ContainsAny(p, b)
    ensures ScoreMealForDay(a, targetCalories, dayType, p) < ScoreMealForDay(b, targetCalories, dayType, p)
  {
    assert !ContainsAll(p, b) by {
      assert p.healthConditions[0] in p.healthConditions;
    }
  }

  /** The meals of `pool` of the requested type. */
  function Candidates(pool: seq<MealRecipe>, mealType: MealType): seq<MealRecipe> {
    Filter(pool, (m: MealRecipe) => m.mealType == mealType)
  }

  /** The list `pickMealForType` sorts: the unused candidates, or all candidates
      when every one of them has been used. */
  function ScanList(pool: seq<MealRecipe>, mealType: MealType, used: set<string>): seq<MealRecipe> {
    var candidates := Candidates(pool, mealType);
    var unused := Filter(candidates, (m: MealRecipe) => m.id !in used);
    if |unused| > 0 then unused else candidates
  }

  /** The scanned list holds only pool meals of the type, and is empty only when
      the pool has no meal of the type. */
  lemma ScanListMembers(pool: seq<MealRecipe>, mealType: MealType, used: set<string>)
    ensures ScanList(pool, mealType, used) == [] <==> forall m :: m in pool ==> m.mealType != mealType
    ensures forall m :: m in ScanList(pool, mealType, used) ==> m in pool && m.mealType == mealType
  {
    var candidates := Candidates(pool, mealType);
    if candidates != [] {
      assert candidates[0] in candidates;
    }
  }

  /** `s[i]` has the least score of `s`, and no earlier element ties with it:
      the head of a stable sort by score. */
  predicate FirstMinimal(s: seq<MealRecipe>, i: int, targetCalories: real, dayType: DayIntensity, p: UserProfile) {
    && 0 <= i < |s|
    && (forall j :: 0 <= j < |s| ==>
          ScoreMealForDay(s[i], targetCalories, dayType, p) <= ScoreMealForDay(s[j], targetCalories, dayType, p))
    && (forall j :: 0 <= j < i ==>
          ScoreMealForDay(s[j], targetCalories, dayType, p) > ScoreMealForDay(s[i], targetCalories, dayType, p))
  }

  /** The index a stable sort by score puts first: the earliest least-scored meal. */
  function BestIndex(s: seq<MealRecipe>, targetCalories: real, dayType: DayIntensity, p: UserProfile): (i: nat)
    requires s != []
    ensures FirstMinimal(s, i, targetCalories, dayType, p)
    decreases |s|
  {
    if |s| == 1 then 0
    else
      var i := BestIndex(s[..|s| - 1], targetCalories, dayType, p);
      assert forall j :: 0 <= j < |s| - 1 ==> s[..|s| - 1][j] == s[j];
      if ScoreMealForDay(s[|s| - 1], targetCalories, dayType, p) < ScoreMealForDay(s[i], targetCalories, dayType, p)
      then |s| - 1 else i
  }

  /** `pickMealForType` as a value: the first best-scored meal of the scanned list,
      none when the pool has no meal of the type. */
  function MealFor(pool: seq<MealRecipe>, mealType: MealType, dayType: DayIntensity, targetCalories: real,
                   used: set<string>, p: UserProfile): (r: Option<MealRecipe>)
    ensures r.None? <==> forall m :: m in pool ==> m.mealType != mealType
    ensures r.Some? ==> r.value in pool && r.value.mealType == mealType
  {
    ScanListMembers(pool, mealType, used);
    var scan := ScanList(pool, mealType, used);
    if scan == [] then None else Some(scan[BestIndex(scan, targetCalories, dayType, p)])
  }

  /** A pick prefers unused meals, and is the first least-scored meal of the scanned list. */
  lemma MealForFacts(pool: seq<MealRecipe>, mealType: MealType, dayType: DayIntensity, targetCalories: real,
                     used: set<string>, p: UserProfile)
    ensures var r := MealFor(pool, mealType, dayType, targetCalories, used, p);
            r.Some? && (exists m :: m in pool && m.mealType == mealType && m.id !in used) ==> r.value.id !in used
    ensures var r := MealFor(pool, mealType, dayType, targetCalories, used, p);
            r.Some? ==> exists i :: FirstMinimal(ScanList(pool, mealType, used), i, targetCalories, dayType, p)
                                    && ScanList(pool, mealType, used)[i] == r.value
  {
    var scan := ScanList(pool, mealType, used);
    if scan != [] {
      var i := BestIndex(scan, targetCalories, dayType, p);
      assert scan[i] in scan;
      if m :| m in pool && m.mealType == mealType && m.id !in used {
        var candidates := Candidates(pool, mealType);
        assert m in candidates;
        assert m in Filter(candidates, (m: MealRecipe) => m.id !in used);
      }
    }
  }

  /** The used set after a pick: the chosen id added, if there was a choice. */
  function Marked(used: set<string>, chosen: Option<MealRecipe>): set<string> {
    if chosen.Some? then used + {chosen.value.id} else used
  }

  /** `pickMealForType`: the best-scoring candidate of the type, preferring meals
      not yet used; its id is added to the used set. */
  method PickMealForType(pool: seq<MealRecipe>, mealType: MealType, dayType: DayIntensity,
                         targetCalories: real, used: set<string>, p: UserProfile)
    returns (chosen: Option<MealRecipe>, usedAfter: set<string>)
    ensures chosen.None? <==> forall m :: m in pool ==> m.mealType != mealType
    ensures chosen.None? ==> usedAfter == used
    ensures chosen.Some? ==> usedAfter == used + {chosen.value.id}
    ensures chosen.Some? ==> chosen.value in pool && chosen.value.mealType == mealType
    ensures chosen.Some? && (exists m :: m in pool && m.mealType == mealType && m.id !in used) ==>
              chosen.value.id !in used
    ensures chosen.Some? ==> exists i :: FirstMinimal(ScanList(pool, mealType, used), i, targetCalories, dayType, p)
                                          && ScanList(pool, mealType, used)[i] == chosen.value
    ensures chosen == MealFor(pool, mealType, dayType, targetCalories, used, p)
  {
    var candidates := Candidates(pool, mealType);
    if |candidates| == 0 {
      return None, used;
    }
    assert candidates[0] in candidates;
    var scan := ScanList(pool, mealType, used);
    var best := 0;
    for k := 1 to |scan|
      invariant 0 <= best < k
      invariant forall j :: 0 <= j < k ==>
                  ScoreMealForDay(scan[best], targetCalories, dayType, p) <= ScoreMealForDay(scan[j], targetCalories, dayType, p)
      invariant forall j :: 0 <= j < best ==>
                  ScoreMealForDay(scan[j], targetCalories, dayType, p) > ScoreMealForDay(scan[best], targetCalories, dayType, p)
    {
      if ScoreMealForDay(scan[k], targetCalories, dayType, p) < ScoreMealForDay(scan[best], targetCalories, dayType, p) {
        best := k;
      }
    }
    assert scan[best] in scan;
    chosen := Some(scan[best]);
    usedAfter := used + {scan[best].id};
    assert FirstMinimal(scan, best, targetCalories, dayType, p);
    FirstMinimalUnique(scan, best, BestIndex(scan, targetCalories, dayType, p), targetCalories, dayType, p);
  }

  /** A list has one first least-scored element. */
  lemma FirstMinimalUnique(s: seq<MealRecipe>, i: int, j: int, targetCalories: real, dayType: DayIntensity, p: UserProfile)
    requires FirstMinimal(s, i, targetCalories, dayType, p) && FirstMinimal(s, j, targetCalories, dayType, p)
    ensures i == j
  {
    var si, sj := ScoreMealForDay(s[i], targetCalories, dayType, p), ScoreMealForDay(s[j], targetCalories, dayType, p);
    if i < j {
      assert false;
    } else if j < i {
      assert false;
    }
  }

  // ---------------------------------------------------------------- daily totals

  datatype Totals = Totals(calories: real, protein: real, carbs: real, fats: real) {
    function Plus(o: Totals): Totals {
      Totals(calories + o.calories, protein + o.protein, carbs + o.carbs, fats + o.fats)
    }
  }

  /** `sumMeals`: the macro totals of a list of meals. */
  function SumMeals(meals: seq<MealRecipe>): Totals {
    if meals == [] then Totals(0.0, 0.0, 0.0, 0.0)
    else Totals(meals[0].calories, meals[0].protein, meals[0].carbs, meals[0].fats).Plus(SumMeals(meals[1..]))
  }

  /** Totals add up over concatenation, so the order of the meals does not matter
      to the day's totals. */
  lemma {:induction false} SumMealsAppend(a: seq<MealRecipe>, b: seq<MealRecipe>)
    ensures SumMeals(a + b) == SumMeals(a).Plus(SumMeals(b))
  {
    if a == [] {
      assert a + b == b;
    } else {
      assert (a + b)[1..] == a[1..] + b;
      SumMealsAppend(a[1..], b);
    }
  }

  /** Swapping two runs of meals leaves the day's totals unchanged. */
  lemma SumMealsOrderFree(a: seq<MealRecipe>, b: seq<MealRecipe>)
    ensures SumMeals(a + b) == SumMeals(b + a)
  {
    SumMealsAppend(a, b);
    SumMealsAppend(b, a);
  }

  // ---------------------------------------------------------------- distribution and days

  datatype MealSpec = MealSpec(mealType: MealType, ratio: real)

  /** `mealDistribution[dayType]`. */
  function MealDistribution(t: DayIntensity): (specs: seq<MealSpec>)
    ensures |specs| >= 3
  {
    match t
    case Low => [MealSpec(Breakfast, 0.3), MealSpec(Lunch, 0.4), MealSpec(Dinner, 0.3)]
    case Mid => [MealSpec(Breakfast, 0.28), MealSpec(Lunch, 0.34), MealSpec(Dinner, 0.28), MealSpec(Snack, 0.1)]
    case High => [MealSpec(Breakfast, 0.27), MealSpec(Lunch, 0.33), MealSpec(Dinner, 0.25),
                  MealSpec(Snack, 0.08), MealSpec(Dessert, 0.07)]
  }

  /** Each tier's ratios share out the whole day's target. */
  lemma DistributionSumsToOne(t: DayIntensity)
    ensures RatioSum(MealDistribution(t)) == 1.0
  {
    var specs := MealDistribution(t);
    assert RatioSum(specs[|specs| - 1..]) == specs[|specs| - 1].ratio;
    assert RatioSum(specs[|specs| - 2..]) == specs[|specs| - 2].ratio + specs[|specs| - 1].ratio;
    assert RatioSum(specs[|specs| - 3..]) == specs[|specs| - 3].ratio + RatioSum(specs[|specs| - 2..]);
    if t == Mid || t == DayIntensity.High {
      assert RatioSum(specs[|specs| - 4..]) == specs[|specs| - 4].ratio + RatioSum(specs[|specs| - 3..]);
    }
    if t == DayIntensity.High {
      assert RatioSum(specs[|specs| - 5..]) == specs[|specs| - 5].ratio + RatioSum(specs[|specs| - 4..]);
    }
    assert specs[|specs| - |specs|..] == specs;
  }

  function RatioSum(specs: seq<MealSpec>): real {
    if specs == [] then 0.0 else specs[0].ratio + RatioSum(specs[1..])
  }

  function MealTypes(specs: seq<MealSpec>): set<MealType> {
    set s | s in specs :: s.mealType
  }

  /** `dayLabels[index]`; beyond the seventh day the label is absent. */
  function DayLabel(index: int): Option<string> {
    if index == 0 then Some("Ponedeljak")
    else if index == 1 then Some("Utorak")
    else if index == 2 then Some("Sreda")
    else if index == 3 then Some("\U{010C}etvrtak")
    else if index == 4 then Some("Petak")
    else if index == 5 then Some("Subota")
    else if index == 6 then Some("Nedelja")
    else None
  }

  function Min(a: int, b: int): int {
    if a < b then a else b
  }

  /** The first `n` meals of `s`, or all of them: `s.slice(0, n)`. */
  function Take(s: seq<MealRecipe>, n: nat): (r: seq<MealRecipe>)
    ensures |r| == Min(n, |s|) && r == s[..|r|]
  {
    s[..Min(n, |s|)]
  }

  /** A day plan whose macros are the rounded totals of its meals. */
  predicate TotalsMatchMeals(day: DailyNutritionPlan) {
    var totals := SumMeals(day.meals);
    && day.calories == Round(totals.calories)
    && day.protein == Round(totals.protein)
    && day.carbs == Round(totals.carbs)
    && day.fats == Round(totals.fats)
  }

  /** Everything `buildNutrition` promises about the entry for position `index`. */
  predicate DayShaped(day: DailyNutritionPlan, dayType: DayIntensity, index: nat, swaps: seq<MealSuggestion>) {
    && day.dayType == dayType
    && day.dayIndex == Some(index)
    && day.dayName == DayLabel(index)
    && TotalsMatchMeals(day)
    && |day.meals| <= |MealDistribution(dayType)|
    && day.swaps == swaps
  }

  /** Some meal of `pool` has type `t`. */
  predicate HasMealOfType(pool: seq<MealRecipe>, t: MealType) {
    exists m :: m in pool && m.mealType == t
  }

  /** The pool the `??` chain of a slot draws from: the first of health, diet and
      base that has a meal of the slot's type (base when none has). */
  function SlotPool(pools: MealPools, t: MealType): seq<MealRecipe> {
    if HasMealOfType(pools.health, t) then pools.health
    else if HasMealOfType(pools.diet, t) then pools.diet
    else pools.base
  }

  /** The calories a slot aims at: its share of the day's calories. */
  function SlotTarget(dayCalories: int, spec: MealSpec): real {
    dayCalories as real * spec.ratio
  }

  /** One slot of the day as a value: the `??` chain of three `pickMealForType`
      calls over the health, diet and base pools, all given the same used set. */
  function SlotPick(pools: MealPools, spec: MealSpec, dayType: DayIntensity, dayCalories: int,
                    used: set<string>, p: UserProfile): Option<MealRecipe>
  {
    var target := SlotTarget(dayCalories, spec);
    OrElse(OrElse(MealFor(pools.health, spec.mealType, dayType, target, used, p),
                  MealFor(pools.diet, spec.mealType, dayType, target, used, p)),
           MealFor(pools.base, spec.mealType, dayType, target, used, p))
  }

  /** A slot takes from health, then diet, then base, whichever first has a meal of
      its type; it prefers unused meals of that pool and takes the first least-scored
      one; it finds nothing exactly when no pool has a meal of its type. */
  lemma SlotPickFacts(pools: MealPools, spec: MealSpec, dayType: DayIntensity, dayCalories: int,
                      used: set<string>, p: UserProfile)
    ensures var c := SlotPick(pools, spec, dayType, dayCalories, used, p);
            HasMealOfType(pools.health, spec.mealType) ==> c.Some? && c.value in pools.health
    ensures var c := SlotPick(pools, spec, dayType, dayCalories, used, p);
            !HasMealOfType(pools.health, spec.mealType) && HasMealOfType(pools.diet, spec.mealType) ==>
              c.Some? && c.value in pools.diet
    ensures var c := SlotPick(pools, spec, dayType, dayCalories, used, p);
            !HasMealOfType(pools.health, spec.mealType) && !HasMealOfType(pools.diet, spec.mealType) ==>
              (c.Some? <==> HasMealOfType(pools.base, spec.mealType)) && (c.Some? ==> c.value in pools.base)
    ensures var c := SlotPick(pools, spec, dayType, dayCalories, used, p);
            c.Some? && (exists m :: m in SlotPool(pools, spec.mealType) && m.mealType == spec.mealType && m.id !in used) ==>
              c.value.id !in used
    ensures var c := SlotPick(pools, spec, dayType, dayCalories, used, p);
            c.Some? ==> exists i :: FirstMinimal(ScanList(SlotPool(pools, spec.mealType), spec.mealType, used), i,
                                                 SlotTarget(dayCalories, spec), dayType, p)
                                    && ScanList(SlotPool(pools, spec.mealType), spec.mealType, used)[i] == c.value
    ensures var c := SlotPick(pools, spec, dayType, dayCalories, used, p);
            c.Some? ==> c.value.mealType == spec.mealType &&
                        (c.value in pools.health || c.value in pools.diet || c.value in pools.base)
    ensures var c := SlotPick(pools, spec, dayType, dayCalories, used, p);
            c.None? <==> forall m :: m in pools.health + pools.diet + pools.base ==> m.mealType != spec.mealType
  {
    var target := SlotTarget(dayCalories, spec);
    var t := spec.mealType;
    var c := SlotPick(pools, spec, dayType, dayCalories, used, p);
    SlotPickFromPool(pools, spec, dayType, dayCalories, used, p);
    MealForFacts(SlotPool(pools, t), t, dayType, target, used, p);
    if HasMealOfType(pools.health, t) {
      assert SlotPool(pools, t) == pools.health;
    } else if HasMealOfType(pools.diet, t) {
      assert SlotPool(pools, t) == pools.diet;
    } else {
      assert SlotPool(pools, t) == pools.base;
      assert forall m :: m in pools.health + pools.diet + pools.base ==> m in pools.health || m in pools.diet || m in pools.base;
    }
  }

  /** The `??` chain lands on the pick from the slot's pool. */
  lemma SlotPickFromPool(pools: MealPools, spec: MealSpec, dayType: DayIntensity, dayCalories: int,
                         used: set<string>, p: UserProfile)
    ensures SlotPick(pools, spec, dayType, dayCalories, used, p) ==
              MealFor(SlotPool(pools, spec.mealType), spec.mealType, dayType, SlotTarget(dayCalories, spec), used, p)
  {
    var target := SlotTarget(dayCalories, spec);
    var t := spec.mealType;
    var fromHealth := MealFor(pools.health, t, dayType, target, used, p);
    var fromDiet := MealFor(pools.diet, t, dayType, target, used, p);
    var fromBase := MealFor(pools.base, t, dayType, target, used, p);
    var c := SlotPick(pools, spec, dayType, dayCalories, used, p);
    assert c == OrElse(OrElse(fromHealth, fromDiet), fromBase);
    if HasMealOfType(pools.health, t) {
      assert fromHealth.Some? by {
        var m :| m in pools.health && m.mealType == t;
      }
      assert SlotPool(pools, t) == pools.health;
    } else if HasMealOfType(pools.diet, t) {
      assert fromHealth.None? && fromDiet.Some? by {
        var m :| m in pools.diet && m.mealType == t;
      }
      assert SlotPool(pools, t) == pools.diet;
    } else {
      assert fromHealth.None? && fromDiet.None?;
      assert SlotPool(pools, t) == pools.base;
    }
  }

  /** The meal for one distribution slot: the health pool first, then the diet pool,
      then the restriction-only pool. */
  method PickForSlot(pools: MealPools, spec: MealSpec, dayType: DayIntensity, dayCalories: int,
                     used: set<string>, p: UserProfile)
    returns (chosen: Option<MealRecipe>, usedAfter: set<string>)
    ensures HasMealOfType(pools.health, spec.mealType) ==> chosen.Some? && chosen.value in pools.health
    ensures !HasMealOfType(pools.health, spec.mealType) && HasMealOfType(pools.diet, spec.mealType) ==>
              chosen.Some? && chosen.value in pools.diet
    ensures !HasMealOfType(pools.health, spec.mealType) && !HasMealOfType(pools.diet, spec.mealType) ==>
              (chosen.Some? <==> HasMealOfType(pools.base, spec.mealType)) &&
              (chosen.Some? ==> chosen.value in pools.base)
    ensures chosen.Some? && (exists m :: m in SlotPool(pools, spec.mealType) && m.mealType == spec.mealType && m.id !in used) ==>
              chosen.value.id !in used
    ensures chosen.Some? ==>
              exists i :: FirstMinimal(ScanList(SlotPool(pools, spec.mealType), spec.mealType, used), i,
                                       SlotTarget(dayCalories, spec), dayType, p)
                          && ScanList(SlotPool(pools, spec.mealType), spec.mealType, used)[i] == chosen.value
    ensures chosen.Some? ==> chosen.value.mealType == spec.mealType && chosen.value.id in usedAfter
    ensures chosen.Some? ==> chosen.value in pools.health || chosen.value in pools.diet || chosen.value in pools.base
    ensures chosen.None? <==> forall m :: m in pools.health + pools.diet + pools.base ==> m.mealType != spec.mealType
    ensures chosen.Some? ==> usedAfter == used + {chosen.value.id}
    ensures chosen.None? ==> usedAfter == used
    ensures chosen == SlotPick(pools, spec, dayType, dayCalories, used, p)
  {
    var target := SlotTarget(dayCalories, spec);
    ghost var fromHealth := MealFor(pools.health, spec.mealType, dayType, target, used, p);
    ghost var fromDiet := MealFor(pools.diet, spec.mealType, dayType, target, used, p);
    ghost var fromBase := MealFor(pools.base, spec.mealType, dayType, target, used, p);
    assert SlotPick(pools, spec, dayType, dayCalories, used, p) == OrElse(OrElse(fromHealth, fromDiet), fromBase);
    chosen, usedAfter := PickMealForType(pools.health, spec.mealType, dayType, target, used, p);
    if chosen.Some? {
      assert chosen == fromHealth;
    } else {
      chosen, usedAfter := PickMealForType(pools.diet, spec.mealType, dayType, target, used, p);
      if chosen.Some? {
        assert chosen == fromDiet;
      } else {
        chosen, usedAfter := PickMealForType(pools.base, spec.mealType, dayType, target, used, p);
        assert chosen == fromBase;
      }
    }
    SlotPickFacts(pools, spec, dayType, dayCalories, used, p);
  }

  /** The slots of `specs` in order, as a value: the meals they find, and the used
      set each slot hands on to the next. */
  function DayPicks(pools: MealPools, specs: seq<MealSpec>, dayType: DayIntensity, dayCalories: int,
                    used: set<string>, p: UserProfile): (seq<MealRecipe>, set<string>)
    decreases |specs|
  {
    if specs == [] then ([], used)
    else
      var before := DayPicks(pools, specs[..|specs| - 1], dayType, dayCalories, used, p);
      var chosen := SlotPick(pools, specs[|specs| - 1], dayType, dayCalories, before.1, p);
      (before.0 + (if chosen.Some? then [chosen.value] else []), Marked(before.1, chosen))
  }

  /** A day finds at most one meal per slot, and the used set it hands on keeps
      the ids it was given and holds the id of every meal it found. */
  lemma {:induction false} DayPicksBounds(pools: MealPools, specs: seq<MealSpec>, dayType: DayIntensity,
                                          dayCalories: int, used: set<string>, p: UserProfile)
    ensures var r := DayPicks(pools, specs, dayType, dayCalories, used, p);
            used <= r.1 && |r.0| <= |specs| && forall m :: m in r.0 ==> m.id in r.1
    decreases |specs|
  {
    if specs != [] {
      DayPicksBounds(pools, specs[..|specs| - 1], dayType, dayCalories, used, p);
    }
  }

  /** The fold over the first `k + 1` slots is the fold over the first `k` and one more slot. */
  lemma DayPicksStep(pools: MealPools, specs: seq<MealSpec>, k: nat, dayType: DayIntensity, dayCalories: int,
                     used: set<string>, p: UserProfile)
    requires k < |specs|
    ensures var before := DayPicks(pools, specs[..k], dayType, dayCalories, used, p);
            var chosen := SlotPick(pools, specs[k], dayType, dayCalories, before.1, p);
            DayPicks(pools, specs[..k + 1], dayType, dayCalories, used, p) ==
              (before.0 + (if chosen.Some? then [chosen.value] else []), Marked(before.1, chosen))
  {
    assert specs[..k + 1][..k] == specs[..k];
  }

  /** One entry of `rotation.map` as a value: the slot picks in distribution order,
      or the first three health meals when no slot found one, with their totals. */
  function DayPlan(p: UserProfile, pools: MealPools, dayType: DayIntensity, index: nat, dayCalories: int,
                   swaps: seq<MealSuggestion>, used: set<string>): (day: DailyNutritionPlan)
    ensures DayShaped(day, dayType, index, swaps)
  {
    DayPicksBounds(pools, MealDistribution(dayType), dayType, dayCalories, used, p);
    var picks := DayPicks(pools, MealDistribution(dayType), dayType, dayCalories, used, p).0;
    var meals := if picks == [] then Take(pools.health, 3) else picks;
    var totals := SumMeals(meals);
    DailyNutritionPlan(dayType, Some(index), DayLabel(index), Round(totals.calories), Round(totals.protein),
                       Round(totals.carbs), Round(totals.fats), meals, swaps)
  }

  /** The `specs.forEach` of one day: each slot's pick, in order, threading the used set. */
  method PickSlots(p: UserProfile, pools: MealPools, specs: seq<MealSpec>, dayType: DayIntensity, dayCalories: int,
                   used: set<string>)
    returns (meals: seq<MealRecipe>, usedAfter: set<string>)
    requires PoolChain(p, pools)
    ensures meals == DayPicks(pools, specs, dayType, dayCalories, used, p).0
    ensures usedAfter == DayPicks(pools, specs, dayType, dayCalories, used, p).1
    ensures forall m :: m in meals ==> m in pools.base && m.mealType in MealTypes(specs)
  {
    meals := [];
    usedAfter := used;
    assert specs[..0] == [];
    for k := 0 to |specs|
      invariant meals == DayPicks(pools, specs[..k], dayType, dayCalories, used, p).0
      invariant usedAfter == DayPicks(pools, specs[..k], dayType, dayCalories, used, p).1
      invariant forall m :: m in meals ==> m in pools.base && m.mealType in MealTypes(specs)
    {
      meals, usedAfter := PickNextSlot(p, pools, specs, k, dayType, dayCalories, used, meals, usedAfter);
    }
    assert specs[..|specs|] == specs;
  }

  /** Appending slot `k`'s pick to the first `k` slots' meals gives the first `k + 1`
      slots' meals and used set, and keeps every meal a base meal of a slot's type. */
  lemma SlotAppended(p: UserProfile, pools: MealPools, specs: seq<MealSpec>, k: nat, dayType: DayIntensity,
                     dayCalories: int, used: set<string>, meals: seq<MealRecipe>)
    requires PoolChain(p, pools)
    requires k < |specs|
    requires meals == DayPicks(pools, specs[..k], dayType, dayCalories, used, p).0
    requires forall m :: m in meals ==> m in pools.base && m.mealType in MealTypes(specs)
    ensures var usedSoFar := DayPicks(pools, specs[..k], dayType, dayCalories, used, p).1;
            var chosen := SlotPick(pools, specs[k], dayType, dayCalories, usedSoFar, p);
            && DayPicks(pools, specs[..k + 1], dayType, dayCalories, used, p) ==
                 (meals + (if chosen.Some? then [chosen.value] else []), Marked(usedSoFar, chosen))
            && (chosen.Some? ==> chosen.value in pools.base && chosen.value.mealType in MealTypes(specs))
  {
    assert specs[k] in specs;
    DayPicksStep(pools, specs, k, dayType, dayCalories, used, p);
    SlotPickFacts(pools, specs[k], dayType, dayCalories, DayPicks(pools, specs[..k], dayType, dayCalories, used, p).1, p);
  }

  /** One step of the day: picks slot `k` and appends what it finds. */
  method PickNextSlot(p: UserProfile, pools: MealPools, specs: seq<MealSpec>, k: nat, dayType: DayIntensity,
                      dayCalories: int, used: set<string>, meals: seq<MealRecipe>, usedSoFar: set<string>)
    returns (mealsAfter: seq<MealRecipe>, usedAfter: set<string>)
    requires PoolChain(p, pools)
    requires k < |specs|
    requires meals == DayPicks(pools, specs[..k], dayType, dayCalories, used, p).0
    requires usedSoFar == DayPicks(pools, specs[..k], dayType, dayCalories, used, p).1
    requires forall m :: m in meals ==> m in pools.base && m.mealType in MealTypes(specs)
    ensures mealsAfter == DayPicks(pools, specs[..k + 1], dayType, dayCalories, used, p).0
    ensures usedAfter == DayPicks(pools, specs[..k + 1], dayType, dayCalories, used, p).1
    ensures forall m :: m in mealsAfter ==> m in pools.base && m.mealType in MealTypes(specs)
  {
    var chosen;
    chosen, usedAfter := PickForSlot(pools, specs[k], dayType, dayCalories, usedSoFar, p);
    SlotAppended(p, pools, specs, k, dayType, dayCalories, used, meals);
    mealsAfter := meals;
    if chosen.Some? {
      mealsAfter := meals + [chosen.value];
    }
  }

  /** One entry of `rotation.map` in `buildNutrition`: a meal per distribution slot
      that has one, or the first three health-pool meals if no slot has any. */
  method BuildDay(p: UserProfile, pools: MealPools, dayType: DayIntensity, index: nat, dayCalories: int,
                  swaps: seq<MealSuggestion>, used: set<string>)
    returns (day: DailyNutritionPlan, usedAfter: set<string>)
    requires PoolChain(p, pools)
    ensures DayShaped(day, dayType, index, swaps)
    ensures forall m :: m in day.meals ==> m in pools.base
    ensures forall m :: m in day.meals ==>
              (m.mealType in MealTypes(MealDistribution(dayType)) && m.id in usedAfter) || m in Take(pools.health, 3)
    ensures used <= usedAfter
    ensures var picks := DayPicks(pools, MealDistribution(dayType), dayType, dayCalories, used, p);
            day.meals == (if picks.0 == [] then Take(pools.health, 3) else picks.0) && usedAfter == picks.1
    ensures day == DayPlan(p, pools, dayType, index, dayCalories, swaps, used)
  {
    var meals;
    meals, usedAfter := PickSlots(p, pools, MealDistribution(dayType), dayType, dayCalories, used);
    DayPicksBounds(pools, MealDistribution(dayType), dayType, dayCalories, used, p);
    if |meals| == 0 {
      meals := Take(pools.health, 3);
    }
    var totals := SumMeals(meals);
    day := DailyNutritionPlan(dayType, Some(index), DayLabel(index), Round(totals.calories), Round(totals.protein),
                              Round(totals.carbs), Round(totals.fats), meals, swaps);
  }

  /** `weeklyPlan.find((plan) => plan.dayType === t)`. */
  function FindDayType(weekly: seq<DailyNutritionPlan>, t: DayIntensity): (r: Option<DailyNutritionPlan>)
    ensures r.None? <==> forall i :: 0 <= i < |weekly| ==> weekly[i].dayType != t
    ensures r.Some? ==> exists i :: 0 <= i < |weekly| && weekly[i] == r.value && r.value.dayType == t &&
                                   forall j :: 0 <= j < i ==> weekly[j].dayType != t
  {
    if weekly == [] then None
    else if weekly[0].dayType == t then Some(weekly[0])
    else
      var r := FindDayType(weekly[1..], t);
      if r.Some? then
        var i :| 0 <= i < |weekly[1..]| && weekly[1..][i] == r.value && r.value.dayType == t &&
                 forall j :: 0 <= j < i ==> weekly[1..][j].dayType != t;
        assert weekly[i + 1] == r.value;
        r
      else r
  }

  predicate NotDessert(m: MealRecipe) {
    m.mealType != Dessert
  }

  /** The stand-in plan for a tier no day of the week has. */
  function SyntheticDay(p: UserProfile, weeklyCalories: int, t: DayIntensity, health: seq<MealRecipe>,
                        swaps: seq<MealSuggestion>): (day: DailyNutritionPlan)
    ensures day.dayType == t && day.dayIndex == Some(0) && day.dayName == DayLabel(0)
    ensures day.calories == Targets(p, weeklyCalories, t).calories
    ensures day.protein == Targets(p, weeklyCalories, t).protein
    ensures day.carbs == Targets(p, weeklyCalories, t).carbs
    ensures day.fats == Targets(p, weeklyCalories, t).fats
    ensures day.meals == match t
                         case Low => Take(Filter(health, NotDessert), 3)
                         case Mid => Take(health, 4)
                         case High => Take(health, 5)
    ensures day.swaps == swaps
    ensures forall m :: m in day.meals ==> m in health
    ensures t == Low ==> forall m :: m in day.meals ==> m.mealType != Dessert
  {
    var m := Targets(p, weeklyCalories, t);
    var meals := match t
      case Low => Take(Filter(health, NotDessert), 3)
      case Mid => Take(health, 4)
      case High => Take(health, 5);
    assert forall meal :: meal in meals ==> meal in health by {
      forall meal | meal in meals ensures meal in health {
        if t == Low {
          assert meal in Filter(health, NotDessert);
        }
      }
    }
    DailyNutritionPlan(t, Some(0), DayLabel(0), m.calories, m.protein, m.carbs, m.fats, meals, swaps)
  }

  /** `planByDayType[t]`: the first day of the week with tier `t`, else the stand-in. */
  function PlanFor(p: UserProfile, weeklyCalories: int, t: DayIntensity, weekly: seq<DailyNutritionPlan>,
                   health: seq<MealRecipe>, swaps: seq<MealSuggestion>): (day: DailyNutritionPlan)
    ensures day.dayType == t
    ensures (exists i :: 0 <= i < |weekly| && weekly[i].dayType == t) ==>
              exists i :: 0 <= i < |weekly| && day == weekly[i] && forall j :: 0 <= j < i ==> weekly[j].dayType != t
    ensures (forall i :: 0 <= i < |weekly| ==> weekly[i].dayType != t) ==>
              day.calories == Targets(p, weeklyCalories, t).calories && forall m :: m in day.meals ==> m in health
    ensures (forall i :: 0 <= i < |weekly| ==> weekly[i].dayType != t) ==>
              day == SyntheticDay(p, weeklyCalories, t, health, swaps)
    ensures forall m :: m in day.meals ==> m in health || exists i :: 0 <= i < |weekly| && m in weekly[i].meals
  {
    FindDayType(weekly, t).GetOr(SyntheticDay(p, weeklyCalories, t, health, swaps))
  }

  /** No meal anywhere in the plan contains an allergy or a disliked food. */
  predicate PlanRespectsRestrictions(p: UserProfile, n: NutritionPlan) {
    && (forall i, m :: 0 <= i < |n.weeklyPlan| && m in n.weeklyPlan[i].meals ==> MatchesRestrictions(p, m))
    && (forall t: DayIntensity, m :: m in n.planByDayType.Get(t).meals ==> MatchesRestrictions(p, m))
  }

  /** Every meal of every day passes the restrictions. */
  predicate DaysRespectRestrictions(p: UserProfile, weekly: seq<DailyNutritionPlan>) {
    forall i, m :: 0 <= i < |weekly| && m in weekly[i].meals ==> MatchesRestrictions(p, m)
  }

  /** The `rotation.map` of `buildNutrition` as a value: the days in order, each
      picking with the used set the days before it left, and the set after them. */
  function WeekPlan(p: UserProfile, weeklyCalories: int, rotation: seq<DayIntensity>, pools: MealPools,
                    swaps: seq<MealSuggestion>): (r: (seq<DailyNutritionPlan>, set<string>))
    ensures |r.0| == |rotation|
    decreases |rotation|
  {
    if rotation == [] then ([], {})
    else
      var before := WeekPlan(p, weeklyCalories, rotation[..|rotation| - 1], pools, swaps);
      var index := |rotation| - 1;
      var dayCalories := Targets(p, weeklyCalories, rotation[index]).calories;
      (before.0 + [DayPlan(p, pools, rotation[index], index, dayCalories, swaps, before.1)],
       DayPicks(pools, MealDistribution(rotation[index]), rotation[index], dayCalories, before.1, p).1)
  }

  /** The used-meal set the first `i` days of the week leave behind. */
  function UsedBefore(p: UserProfile, weeklyCalories: int, rotation: seq<DayIntensity>, pools: MealPools,
                      swaps: seq<MealSuggestion>, i: nat): set<string>
    requires i <= |rotation|
  {
    WeekPlan(p, weeklyCalories, rotation[..i], pools, swaps).1
  }

  /** Cutting the week after day `n` keeps the sets its first `i <= n` days leave. */
  lemma UsedBeforePrefix(p: UserProfile, weeklyCalories: int, rotation: seq<DayIntensity>,
                         pools: MealPools, swaps: seq<MealSuggestion>, n: nat, i: nat)
    requires i <= n <= |rotation|
    ensures UsedBefore(p, weeklyCalories, rotation[..n], pools, swaps, i) ==
              UsedBefore(p, weeklyCalories, rotation, pools, swaps, i)
  {
    assert rotation[..n][..i] == rotation[..i];
  }

  /** A day before the last is the same day of the week without its last day. */
  lemma WeekPlanFront(p: UserProfile, weeklyCalories: int, rotation: seq<DayIntensity>,
                      pools: MealPools, swaps: seq<MealSuggestion>, i: nat)
    requires i + 1 < |rotation|
    ensures WeekPlan(p, weeklyCalories, rotation, pools, swaps).0[i] ==
              WeekPlan(p, weeklyCalories, rotation[..|rotation| - 1], pools, swaps).0[i]
  {
  }

  /** Day `i` of the week is its day plan picked with the set the days before it left. */
  lemma {:induction false} WeekPlanDay(p: UserProfile, weeklyCalories: int, rotation: seq<DayIntensity>,
                                       pools: MealPools, swaps: seq<MealSuggestion>, i: nat)
    requires i < |rotation|
    ensures WeekPlan(p, weeklyCalories, rotation, pools, swaps).0[i] ==
              DayPlan(p, pools, rotation[i], i, Targets(p, weeklyCalories, rotation[i]).calories, swaps,
                      UsedBefore(p, weeklyCalories, rotation, pools, swaps, i))
    decreases |rotation|
  {
    var n := |rotation| - 1;
    if i < n {
      var front := rotation[..n];
      WeekPlanFront(p, weeklyCalories, rotation, pools, swaps, i);
      WeekPlanDay(p, weeklyCalories, front, pools, swaps, i);
      UsedBeforePrefix(p, weeklyCalories, rotation, pools, swaps, n, i);
      assert front[i] == rotation[i];
    } else {
      assert UsedBefore(p, weeklyCalories, rotation, pools, swaps, n) ==
               WeekPlan(p, weeklyCalories, rotation[..n], pools, swaps).1;
    }
  }

  /** Every day of the week is its day plan, picked with the set the days before it left. */
  lemma WeekPlanDays(p: UserProfile, weeklyCalories: int, rotation: seq<DayIntensity>,
                     pools: MealPools, swaps: seq<MealSuggestion>)
    ensures var weekly := WeekPlan(p, weeklyCalories, rotation, pools, swaps).0;
            forall i :: 0 <= i < |rotation| ==>
              weekly[i] == DayPlan(p, pools, rotation[i], i, Targets(p, weeklyCalories, rotation[i]).calories, swaps,
                                   UsedBefore(p, weeklyCalories, rotation, pools, swaps, i)) &&
              DayShaped(weekly[i], rotation[i], i, swaps)
  {
    forall i | 0 <= i < |rotation|
      ensures WeekPlan(p, weeklyCalories, rotation, pools, swaps).0[i] ==
                DayPlan(p, pools, rotation[i], i, Targets(p, weeklyCalories, rotation[i]).calories, swaps,
                        UsedBefore(p, weeklyCalories, rotation, pools, swaps, i))
    {
      WeekPlanDay(p, weeklyCalories, rotation, pools, swaps, i);
    }
  }

  /** The week starts with nothing used, and day `i` hands on the set its own
      slots leave when started from the set the days before it left. */
  lemma UsedBeforeStep(p: UserProfile, weeklyCalories: int, rotation: seq<DayIntensity>,
                       pools: MealPools, swaps: seq<MealSuggestion>, i: nat)
    requires i < |rotation|
    ensures UsedBefore(p, weeklyCalories, rotation, pools, swaps, 0) == {}
    ensures UsedBefore(p, weeklyCalories, rotation, pools, swaps, i + 1) ==
              DayPicks(pools, MealDistribution(rotation[i]), rotation[i], Targets(p, weeklyCalories, rotation[i]).calories,
                       UsedBefore(p, weeklyCalories, rotation, pools, swaps, i), p).1
  {
    assert rotation[..0] == [];
    var front := rotation[..i + 1];
    assert front[..|front| - 1] == rotation[..i] && front[|front| - 1] == rotation[i];
    WeekPlanUsed(p, weeklyCalories, front, pools, swaps);
  }

  /** The used set after a non-empty week is the one its last day's slots leave. */
  lemma WeekPlanUsed(p: UserProfile, weeklyCalories: int, rotation: seq<DayIntensity>,
                     pools: MealPools, swaps: seq<MealSuggestion>)
    requires rotation != []
    ensures var last := rotation[|rotation| - 1];
            WeekPlan(p, weeklyCalories, rotation, pools, swaps).1 ==
              DayPicks(pools, MealDistribution(last), last, Targets(p, weeklyCalories, last).calories,
                       WeekPlan(p, weeklyCalories, rotation[..|rotation| - 1], pools, swaps).1, p).1
  {
  }

  /** The week's first `i + 1` days are its first `i` days followed by day `i`. */
  lemma WeekPlanStep(p: UserProfile, weeklyCalories: int, rotation: seq<DayIntensity>,
                     pools: MealPools, swaps: seq<MealSuggestion>, i: nat)
    requires i < |rotation|
    ensures WeekPlan(p, weeklyCalories, rotation[..0], pools, swaps).0 == []
    ensures WeekPlan(p, weeklyCalories, rotation[..i + 1], pools, swaps).0 ==
              WeekPlan(p, weeklyCalories, rotation[..i], pools, swaps).0 +
              [DayPlan(p, pools, rotation[i], i, Targets(p, weeklyCalories, rotation[i]).calories, swaps,
                       UsedBefore(p, weeklyCalories, rotation, pools, swaps, i))]
  {
    assert rotation[..0] == [];
    assert rotation[..i + 1][..i] == rotation[..i];
  }

  /** One step of the week: plans day `index` and appends it. */
  method PlanNextDay(p: UserProfile, weeklyCalories: int, rotation: seq<DayIntensity>, pools: MealPools,
                     swaps: seq<MealSuggestion>, index: nat, weekly: seq<DailyNutritionPlan>, used: set<string>)
    returns (weeklyAfter: seq<DailyNutritionPlan>, usedAfter: set<string>)
    requires PoolChain(p, pools)
    requires index < |rotation|
    requires weekly == WeekPlan(p, weeklyCalories, rotation[..index], pools, swaps).0
    requires used == UsedBefore(p, weeklyCalories, rotation, pools, swaps, index)
    requires DaysRespectRestrictions(p, weekly)
    ensures weeklyAfter == WeekPlan(p, weeklyCalories, rotation[..index + 1], pools, swaps).0
    ensures usedAfter == UsedBefore(p, weeklyCalories, rotation, pools, swaps, index + 1)
    ensures DaysRespectRestrictions(p, weeklyAfter)
  {
    var dayType := rotation[index];
    var day;
    UsedBeforeStep(p, weeklyCalories, rotation, pools, swaps, index);
    WeekPlanStep(p, weeklyCalories, rotation, pools, swaps, index);
    day, usedAfter := BuildDay(p, pools, dayType, index, Targets(p, weeklyCalories, dayType).calories, swaps, used);
    weeklyAfter := weekly + [day];
  }

  /** The `rotation.map` of `buildNutrition`, threading one used-meal set through
      the whole week. */
  method BuildWeek(p: UserProfile, weeklyCalories: int, rotation: seq<DayIntensity>, pools: MealPools,
                   swaps: seq<MealSuggestion>)
    returns (weekly: seq<DailyNutritionPlan>)
    requires PoolChain(p, pools)
    ensures |weekly| == |rotation|
    ensures forall i :: 0 <= i < |rotation| ==> DayShaped(weekly[i], rotation[i], i, swaps)
    ensures DaysRespectRestrictions(p, weekly)
    ensures weekly == WeekPlan(p, weeklyCalories, rotation, pools, swaps).0
    ensures forall i :: 0 <= i < |rotation| ==>
              weekly[i] == DayPlan(p, pools, rotation[i], i, Targets(p, weeklyCalories, rotation[i]).calories, swaps,
                                   UsedBefore(p, weeklyCalories, rotation, pools, swaps, i))
  {
    var used: set<string> := {};
    weekly := [];
    if rotation != [] {
      UsedBeforeStep(p, weeklyCalories, rotation, pools, swaps, 0);
      WeekPlanStep(p, weeklyCalories, rotation, pools, swaps, 0);
    } else {
      assert rotation[..0] == [];
    }
    for index := 0 to |rotation|
      invariant weekly == WeekPlan(p, weeklyCalories, rotation[..index], pools, swaps).0
      invariant used == UsedBefore(p, weeklyCalories, rotation, pools, swaps, index)
      invariant DaysRespectRestrictions(p, weekly)
    {
      weekly, used := PlanNextDay(p, weeklyCalories, rotation, pools, swaps, index, weekly, used);
    }
    assert rotation[..|rotation|] == rotation;
    WeekPlanDays(p, weeklyCalories, rotation, pools, swaps);
  }

  /** Every tier that occurs in the week is planned as its first day of that tier. */
  predicate TierPlansFromWeek(b: ByDayType, weekly: seq<DailyNutritionPlan>) {
    forall t :: (exists i :: 0 <= i < |weekly| && weekly[i].dayType == t) ==>
      exists i :: 0 <= i < |weekly| && b.Get(t) == weekly[i] && forall j :: 0 <= j < i ==> weekly[j].dayType != t
  }

  /** `planByDayType`: per tier, the first day of the week with that tier, else the stand-in. */
  function PlanByDayType(p: UserProfile, weeklyCalories: int, weekly: seq<DailyNutritionPlan>,
                         health: seq<MealRecipe>, swaps: seq<MealSuggestion>): (b: ByDayType)
    requires forall m :: m in health ==> MatchesRestrictions(p, m)
    requires DaysRespectRestrictions(p, weekly)
    ensures forall t :: b.Get(t).dayType == t
    ensures TierPlansFromWeek(b, weekly)
    ensures forall t :: (forall i :: 0 <= i < |weekly| ==> weekly[i].dayType != t) ==>
              b.Get(t).calories == Targets(p, weeklyCalories, t).calories
    ensures forall t :: (forall i :: 0 <= i < |weekly| ==> weekly[i].dayType != t) ==>
              b.Get(t) == SyntheticDay(p, weeklyCalories, t, health, swaps)
    ensures forall t, m :: m in b.Get(t).meals ==> MatchesRestrictions(p, m)
  {
    var b := ByDayType(PlanFor(p, weeklyCalories, Low, weekly, health, swaps),
                       PlanFor(p, weeklyCalories, Mid, weekly, health, swaps),
                       PlanFor(p, weeklyCalories, DayIntensity.High, weekly, health, swaps));
    assert forall t :: b.Get(t) == PlanFor(p, weeklyCalories, t, weekly, health, swaps);
    b
  }

  /** `buildNutrition`. */
  method BuildNutrition(p: UserProfile, weeklyCalories: int, rotation: seq<DayIntensity>,
                        catalog: seq<MealRecipe>, swaps: seq<MealSuggestion>)
    returns (n: NutritionPlan)
    ensures n.rotation == rotation
    ensures |n.weeklyPlan| == |rotation|
    ensures forall i :: 0 <= i < |rotation| ==> DayShaped(n.weeklyPlan[i], rotation[i], i, swaps)
    ensures forall t :: n.planByDayType.Get(t).dayType == t
    ensures TierPlansFromWeek(n.planByDayType, n.weeklyPlan)
    ensures forall t :: (forall i :: 0 <= i < |n.weeklyPlan| ==> n.weeklyPlan[i].dayType != t) ==>
              n.planByDayType.Get(t).calories == Targets(p, weeklyCalories, t).calories
    ensures PlanRespectsRestrictions(p, n)
    ensures n.weeklyPlan == WeekPlan(p, weeklyCalories, rotation, BuildPools(p, catalog), swaps).0
    ensures forall t :: (forall i :: 0 <= i < |n.weeklyPlan| ==> n.weeklyPlan[i].dayType != t) ==>
              n.planByDayType.Get(t) == SyntheticDay(p, weeklyCalories, t, BuildPools(p, catalog).health, swaps)
  {
    var pools := BuildPools(p, catalog);
    var weekly := BuildWeek(p, weeklyCalories, rotation, pools, swaps);
    n := NutritionPlan(rotation, PlanByDayType(p, weeklyCalories, weekly, pools.health, swaps), weekly);
  }
}
