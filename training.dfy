/** The training half of the plan generator: the split table, the exercise filters,
    the per-session exercise pick, the session list, the weekday schedule and the
    low/mid/high energy rotation derived from it. */
module Training {
  import opened Wrappers
  import opened Domain
  import opened Lists
  import Text

  /** The two exercise catalogues, which the app ships as data. */
  datatype ExerciseCatalog = ExerciseCatalog(home: seq<WorkoutExercise>, gym: seq<WorkoutExercise>)

  predicate SupportedDays(daysPerWeek: int) {
    2 <= daysPerWeek <= 5
  }

  // ---------------------------------------------------------------- splits

  datatype SplitConfig = SplitConfig(name: string, focuses: seq<Focus>)

  /** `splits[daysPerWeek]`. */
  function Split(daysPerWeek: int): (c: SplitConfig)
    requires SupportedDays(daysPerWeek)
    ensures |c.focuses| == daysPerWeek
  {
    if daysPerWeek == 2 then SplitConfig("Full Body A/B", [Full, Full])
    else if daysPerWeek == 3 then SplitConfig("Upper / Lower / Full", [Upper, Lower, Full])
    else if daysPerWeek == 4 then SplitConfig("Upper / Lower x2", [Upper, Lower, Upper, Lower])
    else SplitConfig("Push / Pull / Legs / Upper / Lower", [Push, Pull, Lower, Upper, Lower])
  }

  /** The weekday (Monday = 0) each session of the split lands on. */
  function StartingDays(daysPerWeek: int): (days: seq<int>)
    requires SupportedDays(daysPerWeek)
    ensures |days| == daysPerWeek
    ensures forall k :: 0 <= k < |days| ==> 0 <= days[k] < 5
    ensures forall j, k :: 0 <= j < k < |days| ==> days[j] < days[k]
  {
    if daysPerWeek == 5 then [0, 1, 2, 3, 4]
    else if daysPerWeek == 4 then [0, 1, 3, 4]
    else if daysPerWeek == 3 then [0, 2, 4]
    else [1, 4]
  }

  // ---------------------------------------------------------------- exercise filters

  /** `exerciseMatchesProfile`. */
  predicate ExerciseMatchesProfile(e: WorkoutExercise, p: UserProfile) {
    && (e.preferredLocation.None? || e.preferredLocation.value == p.equipment.location)
    && (|e.goalTags| == 0 || p.goal in e.goalTags)
    && (|e.healthTags| == 0 || exists c :: c in p.healthConditions && c in e.healthTags)
    && !(e.intensity == Some(Advanced) && p.activityLevel != ActivityLevel.High)
    && !(e.intensity == Some(Intermediate) && p.activityLevel == Sedentary)
  }

  /** Advanced exercises are kept only for highly active profiles and intermediate
      ones are never kept for sedentary profiles; an exercise tied to another place
      is dropped; one with no place, goal, health or level tag suits every profile. */
  lemma ExerciseMatchesProfileCases(e: WorkoutExercise, p: UserProfile)
    ensures ExerciseMatchesProfile(e, p) && e.intensity == Some(Advanced) ==> p.activityLevel == ActivityLevel.High
    ensures ExerciseMatchesProfile(e, p) && e.intensity == Some(Intermediate) ==> p.activityLevel != Sedentary
    ensures e.preferredLocation.Some? && e.preferredLocation.value != p.equipment.location ==>
              !ExerciseMatchesProfile(e, p)
    ensures e.preferredLocation.None? && e.goalTags == [] && e.healthTags == [] && e.intensity.None? ==>
              ExerciseMatchesProfile(e, p)
  {
  }

  /** The focus-compatibility relation used to fill a session of focus `focus`. */
  predicate FocusMatches(focus: Focus, e: WorkoutExercise) {
    match focus
    case Full => e.focus == Full || e.focus == Lower || e.focus == Upper
    case Upper => e.focus == Upper || e.focus == Push || e.focus == Pull
    case Lower => e.focus == Lower
    case Push => e.focus == Push || e.focus == Upper
    case Pull => e.focus == Pull || e.focus == Upper
    case _ => e.focus == focus
  }

  predicate IsComplementary(e: WorkoutExercise) {
    e.focus == Core || e.focus == Focus.Mobility
  }

  function BasePool(catalog: ExerciseCatalog, p: UserProfile): seq<WorkoutExercise> {
    if p.equipment.location == Home then catalog.home else catalog.gym
  }

  /** `tailoredPool`: the base pool narrowed to the exercises that fit the profile. */
  function Tailored(basePool: seq<WorkoutExercise>, p: UserProfile): seq<WorkoutExercise> {
    Filter(basePool, e => ExerciseMatchesProfile(e, p))
  }

  /** `basePool.filter(pred)` narrowed to the profile, falling back to the whole
      base pool when the narrowed list is empty. */
  function TailoredOrBase(basePool: seq<WorkoutExercise>, p: UserProfile, pred: WorkoutExercise -> bool): (r: seq<WorkoutExercise>)
    ensures forall e :: e in r ==> e in basePool && pred(e)
    ensures (exists e :: e in basePool && ExerciseMatchesProfile(e, p) && pred(e)) ==>
              forall e :: e in r ==> ExerciseMatchesProfile(e, p)
    ensures r == [] <==> forall e :: e in basePool ==> !pred(e)
    ensures Filter(Tailored(basePool, p), pred) != [] ==> r == Filter(Tailored(basePool, p), pred)
    ensures Filter(Tailored(basePool, p), pred) == [] ==> r == Filter(basePool, pred)
  {
    var tailored := Tailored(basePool, p);
    var narrowed := Filter(tailored, pred);
    if |narrowed| == 0 then
      var wide := Filter(basePool, pred);
      assert wide == [] <==> forall e :: e in basePool ==> !pred(e) by {
        if wide != [] { assert wide[0] in wide; }
      }
      wide
    else
      assert narrowed[0] in narrowed;
      narrowed
  }

  function PrimaryPool(focus: Focus, basePool: seq<WorkoutExercise>, p: UserProfile): seq<WorkoutExercise> {
    TailoredOrBase(basePool, p, e => FocusMatches(focus, e))
  }

  function ComplementaryPool(basePool: seq<WorkoutExercise>, p: UserProfile): seq<WorkoutExercise> {
    TailoredOrBase(basePool, p, IsComplementary)
  }

  // ---------------------------------------------------------------- exercise pick

  function Ids(s: seq<WorkoutExercise>): set<string> {
    set e | e in s :: e.id
  }

  predicate DistinctIds(s: seq<WorkoutExercise>) {
    forall i, j :: 0 <= i < j < |s| ==> s[i].id != s[j].id
  }

  /** The walk of `pickFromList` as a value: from the exercises already `selected`,
      go through `list` in order, stop once `target` are selected, and append each
      exercise whose id is not yet used (including the ids just appended). */
  function WalkList(selected: seq<WorkoutExercise>, list: seq<WorkoutExercise>, used: set<string>, target: int)
    : (r: seq<WorkoutExercise>)
    decreases |list|
  {
    if list == [] || |selected| >= target then selected
    else if list[0].id in used then WalkList(selected, list[1..], used, target)
    else WalkList(selected + [list[0]], list[1..], used + {list[0].id}, target)
  }

  /** One step of the walk, at position `k` of `list`. */
  lemma WalkListStep(selected: seq<WorkoutExercise>, list: seq<WorkoutExercise>, k: nat, used: set<string>, target: int)
    requires k < |list| && |selected| < target
    ensures WalkList(selected, list[k..], used, target) ==
            if list[k].id in used then WalkList(selected, list[k + 1..], used, target)
            else WalkList(selected + [list[k]], list[k + 1..], used + {list[k].id}, target)
  {
    assert list[k..][1..] == list[k + 1..];
  }

  /** The inner `pickFromList`: walk `list`, stop once `selected` holds `target`
      exercises, and append each exercise whose id is not yet used. */
  method PickFromList(list: seq<WorkoutExercise>, target: int, selected: seq<WorkoutExercise>, used: set<string>)
    returns (picked: seq<WorkoutExercise>, usedAfter: set<string>)
    requires used == Ids(selected) && DistinctIds(selected)
    ensures |selected| <= |picked| && picked[..|selected|] == selected
    ensures |picked| <= if |selected| < target then target else |selected|
    ensures usedAfter == Ids(picked) && DistinctIds(picked)
    ensures forall i :: |selected| <= i < |picked| ==> picked[i] in list
    ensures |picked| < target ==> forall e :: e in list ==> e.id in usedAfter
    ensures picked == WalkList(selected, list, used, target)
  {
    picked, usedAfter := selected, used;
    var k := 0;
    while k < |list|
      invariant 0 <= k <= |list|
      invariant WalkList(picked, list[k..], usedAfter, target) == WalkList(selected, list, used, target)
      invariant |selected| <= |picked| && picked[..|selected|] == selected
      invariant |picked| <= if |selected| < target then target else |selected|
      invariant usedAfter == Ids(picked) && DistinctIds(picked)
      invariant forall i :: |selected| <= i < |picked| ==> picked[i] in list
      invariant forall j :: 0 <= j < k ==> list[j].id in usedAfter
    {
      if |picked| >= target {
        break;
      }
      WalkListStep(picked, list, k, usedAfter, target);
      if list[k].id !in usedAfter {
        AppendFresh(picked, list[k], |selected|);
        picked := picked + [list[k]];
        usedAfter := usedAfter + {list[k].id};
      }
      k := k + 1;
    }
    assert k < |list| || list[k..] == [];
  }

  /** Appending an exercise with an unused id keeps the ids distinct, adds exactly
      its id and keeps the first `n` exercises. */
  lemma AppendFresh(picked: seq<WorkoutExercise>, e: WorkoutExercise, n: nat)
    requires DistinctIds(picked) && e.id !in Ids(picked) && n <= |picked|
    ensures Ids(picked + [e]) == Ids(picked) + {e.id}
    ensures DistinctIds(picked + [e])
    ensures (picked + [e])[..n] == picked[..n]
  {
    forall i | 0 <= i < |picked|
      ensures (picked + [e])[i].id != e.id
    {
      assert picked[i] in picked;
    }
  }

  /** What `pickExercises` returns: up to `count - 1` unused primary exercises in
      list order, topped up in order from the complementary pool to `count`. */
  function ExercisePick(focus: Focus, p: UserProfile, catalog: ExerciseCatalog, count: nat): seq<WorkoutExercise> {
    PickOfLists(PrimaryPool(focus, BasePool(catalog, p), p), ComplementaryPool(BasePool(catalog, p), p), count)
  }

  /** The two walks of `pickExercises` over a primary and a complementary list, and
      the final `slice(0, count)`. */
  function PickOfLists(primary: seq<WorkoutExercise>, complementary: seq<WorkoutExercise>, count: nat)
    : seq<WorkoutExercise>
  {
    var first := WalkList([], primary, {}, count - 1);
    TopUpOf(first, complementary, count)
  }

  /** The complementary walk when the primary part is short, then `slice(0, count)`. */
  function TopUpOf(first: seq<WorkoutExercise>, complementary: seq<WorkoutExercise>, count: nat): seq<WorkoutExercise> {
    var both := if |first| < count then WalkList(first, complementary, Ids(first), count) else first;
    both[..if count < |both| then count else |both|]
  }

  /** The picking half of `pickExercises`, once the two lists are known. The
      out-parameter `split` marks where the primary part ends. */
  method PickFromLists(primary: seq<WorkoutExercise>, complementary: seq<WorkoutExercise>, count: nat)
    returns (selected: seq<WorkoutExercise>, ghost split: nat)
    ensures selected == PickOfLists(primary, complementary, count)
    ensures |selected| <= count && DistinctIds(selected)
    ensures split <= |selected| && (count > 0 ==> split <= count - 1)
    ensures forall i :: 0 <= i < split ==> selected[i] in primary
    ensures forall i :: split <= i < |selected| ==> selected[i] in complementary
    ensures count > 0 && split < count - 1 ==> forall e :: e in primary ==> e.id in Ids(selected)
    ensures |selected| < count ==> forall e :: e in complementary ==> e.id in Ids(selected)
  {
    var first, used;
    assert Ids([]) == {};
    first, used := PickFromList(primary, count - 1, [], {});
    split := |first|;
    selected := TopUp(first, used, complementary, count);
    PartsCombine(primary, complementary, count, first, selected);
  }

  /** The primary part followed by the top-up has the properties of the whole pick. */
  lemma PartsCombine(primary: seq<WorkoutExercise>, complementary: seq<WorkoutExercise>, count: nat,
                     first: seq<WorkoutExercise>, selected: seq<WorkoutExercise>)
    requires first == WalkList([], primary, {}, count - 1) && selected == TopUpOf(first, complementary, count)
    requires |first| <= (if 0 < count - 1 then count - 1 else 0)
    requires forall i :: 0 <= i < |first| ==> first[i] in primary
    requires |first| < count - 1 ==> forall e :: e in primary ==> e.id in Ids(first)
    requires |first| <= |selected| || count == 0
    requires count > 0 ==> selected[..|first|] == first
    requires count > 0 ==> Ids(first) <= Ids(selected)
    ensures selected == PickOfLists(primary, complementary, count)
    ensures |first| <= |selected| && (count > 0 ==> |first| <= count - 1)
    ensures forall i :: 0 <= i < |first| ==> selected[i] in primary
    ensures count > 0 && |first| < count - 1 ==> forall e :: e in primary ==> e.id in Ids(selected)
  {
    if count > 0 {
      forall i | 0 <= i < |first|
        ensures selected[i] in primary
      {
        assert selected[i] == selected[..|first|][i];
      }
    }
  }

  /** The `if (selected.length < count)` top-up and the final slice. */
  method TopUp(first: seq<WorkoutExercise>, used: set<string>, complementary: seq<WorkoutExercise>, count: nat)
    returns (selected: seq<WorkoutExercise>)
    requires used == Ids(first) && DistinctIds(first)
    requires count > 0 ==> |first| <= count - 1
    ensures selected == TopUpOf(first, complementary, count)
    ensures |selected| <= count && DistinctIds(selected)
    ensures |first| <= |selected| || count == 0
    ensures count > 0 ==> selected[..|first|] == first
    ensures forall i :: |first| <= i < |selected| ==> selected[i] in complementary
    ensures count > 0 ==> Ids(first) <= Ids(selected)
    ensures |selected| < count ==> forall e :: e in complementary ==> e.id in Ids(selected)
  {
    selected := first;
    if |first| < count {
      var usedAfter;
      selected, usedAfter := PickFromList(complementary, count, first, used);
    }
    selected := selected[..if count < |selected| then count else |selected|];
  }

  /** `pickExercises(focus, profile, count)`. The out-parameter `split` marks where
      the primary (focus-matching) part ends and the complementary top-up begins. */
  method PickExercises(focus: Focus, p: UserProfile, catalog: ExerciseCatalog, count: nat)
    returns (selected: seq<WorkoutExercise>, ghost split: nat)
    ensures |selected| <= count && DistinctIds(selected)
    ensures split <= |selected| && (count > 0 ==> split <= count - 1)
    ensures forall i :: 0 <= i < split ==> selected[i] in PrimaryPool(focus, BasePool(catalog, p), p)
    ensures forall i :: split <= i < |selected| ==> selected[i] in ComplementaryPool(BasePool(catalog, p), p)
    ensures forall e :: e in selected ==> e in BasePool(catalog, p)
    ensures count > 0 && split < count - 1 ==>
              forall e :: e in PrimaryPool(focus, BasePool(catalog, p), p) ==> e.id in Ids(selected)
    ensures |selected| < count ==>
              forall e :: e in ComplementaryPool(BasePool(catalog, p), p) ==> e.id in Ids(selected)
    ensures selected == ExercisePick(focus, p, catalog, count)
  {
    var basePool := BasePool(catalog, p);
    selected, split := PickFromLists(PrimaryPool(focus, basePool, p), ComplementaryPool(basePool, p), count);
  }

  // ---------------------------------------------------------------- sessions

  /** `${focus}-${index + 1}`. */
  function SessionId(focus: Focus, index: nat): (id: string)
    ensures id != ""
  {
    FocusName(focus) + "-" + Text.NatToString(index + 1)
  }

  /** Sessions at different positions of a split (at most nine) get different ids:
      the ids end in different digits. */
  lemma SessionIdsDistinct(f: Focus, i: nat, g: Focus, j: nat)
    requires i != j && i < 9 && j < 9
    ensures SessionId(f, i) != SessionId(g, j)
  {
    var a, b := SessionId(f, i), SessionId(g, j);
    assert a[|a| - 1] == Text.DigitChar(i + 1);
    assert b[|b| - 1] == Text.DigitChar(j + 1);
  }

  function SessionTitle(focus: Focus, index: nat): string {
    Text.Capitalize(FocusName(focus)) + " " + Text.NatToString(index + 1)
  }

  function SessionNotes(focus: Focus): string {
    if focus == Full then
      "Postepeno pove\U{0107}avaj te\U{017E}inu kada odradi\U{0161} gornji broj ponavljanja dve nedelje zaredom."
    else
      "Prati tehniku, disanje i kontroli\U{0161}i tempo 2-1-1."
  }

  function SessionDifficulty(p: UserProfile): Difficulty {
    if p.activityLevel == Sedentary then BeginnerSession else IntermediateSession
  }

  /** What `buildSessions` promises about one session built for position `index` of the split. */
  predicate SessionBuiltFor(s: WorkoutSession, focus: Focus, index: nat, p: UserProfile, catalog: ExerciseCatalog) {
    && s.id == SessionId(focus, index)
    && s.title == SessionTitle(focus, index)
    && s.focus == focus
    && s.difficulty == SessionDifficulty(p)
    && s.durationMinutes == 45
    && s.notes == SessionNotes(focus)
    && |s.exercises| <= 6
    && s.exercises == ExercisePick(focus, p, catalog, 6)
    && DistinctIds(s.exercises)
    && (forall e :: e in s.exercises ==> e in BasePool(catalog, p))
  }

  /** The body of the `map` in `buildSessions`: up to six exercises for `focus`. */
  method BuildSession(focus: Focus, index: nat, p: UserProfile, catalog: ExerciseCatalog) returns (s: WorkoutSession)
    ensures SessionBuiltFor(s, focus, index, p, catalog)
  {
    var exercises, _ := PickExercises(focus, p, catalog, 6);
    s := WorkoutSession(SessionId(focus, index), SessionTitle(focus, index), focus,
                        SessionDifficulty(p), 45, SessionNotes(focus), exercises);
  }

  /** `buildSessions`: one session per focus of the split, in order. */
  method BuildSessions(p: UserProfile, catalog: ExerciseCatalog) returns (sessions: seq<WorkoutSession>)
    requires SupportedDays(p.daysPerWeek)
    ensures |sessions| == p.daysPerWeek
    ensures forall i :: 0 <= i < |sessions| ==>
              SessionBuiltFor(sessions[i], Split(p.daysPerWeek).focuses[i], i, p, catalog)
    ensures forall i, j :: 0 <= i < j < |sessions| ==> sessions[i].id != sessions[j].id
    ensures forall i :: 0 <= i < |sessions| ==> sessions[i].id != ""
  {
    sessions := SessionsFor(Split(p.daysPerWeek).focuses, p, catalog);
  }

  lemma BuiltExtend(sessions: seq<WorkoutSession>, session: WorkoutSession, focuses: seq<Focus>,
                    p: UserProfile, catalog: ExerciseCatalog)
    requires |sessions| < |focuses|
    requires forall i :: 0 <= i < |sessions| ==> SessionBuiltFor(sessions[i], focuses[i], i, p, catalog)
    requires SessionBuiltFor(session, focuses[|sessions|], |sessions|, p, catalog)
    ensures forall i :: 0 <= i <= |sessions| ==> SessionBuiltFor((sessions + [session])[i], focuses[i], i, p, catalog)
  {
    var next := sessions + [session];
    forall i | 0 <= i <= |sessions| ensures SessionBuiltFor(next[i], focuses[i], i, p, catalog) {
      if i < |sessions| {
        assert next[i] == sessions[i];
      }
    }
  }

  /** The `map` over the split's focuses. */
  method SessionsFor(focuses: seq<Focus>, p: UserProfile, catalog: ExerciseCatalog) returns (sessions: seq<WorkoutSession>)
    requires |focuses| < 9
    ensures |sessions| == |focuses|
    ensures forall i :: 0 <= i < |sessions| ==> SessionBuiltFor(sessions[i], focuses[i], i, p, catalog)
    ensures forall i, j :: 0 <= i < j < |sessions| ==> sessions[i].id != sessions[j].id
    ensures forall i :: 0 <= i < |sessions| ==> sessions[i].id != ""
  {
    sessions := [];
    for index := 0 to |focuses|
      invariant |sessions| == index
      invariant forall i :: 0 <= i < index ==> SessionBuiltFor(sessions[i], focuses[i], i, p, catalog)
    {
      var session := BuildSession(focuses[index], index, p, catalog);
      BuiltExtend(sessions, session, focuses, p, catalog);
      sessions := sessions + [session];
    }
    forall i, j | 0 <= i < j < |sessions| ensures sessions[i].id != sessions[j].id {
      SessionIdsDistinct(focuses[i], i, focuses[j], j);
    }
  }

  // ---------------------------------------------------------------- schedule

  /** The schedule invariant: seven slots, slot `i` describes weekday `i`. */
  predicate WeekSlots(schedule: seq<ScheduleEntry>) {
    |schedule| == 7 && forall i :: 0 <= i < 7 ==> schedule[i].day == i
  }

  /** Every scheduled session id names one of the sessions. */
  predicate ScheduleReferencesSessions(t: TrainingPlan) {
    forall i :: 0 <= i < |t.schedule| && t.schedule[i].sessionId.Some? ==>
      exists k :: 0 <= k < |t.sessions| && t.sessions[k].id == t.schedule[i].sessionId.value
  }

  /** The schedule loop of `buildTrainingPlan`: seven rest slots, then slot
      `days[k]` given the session id `ids[k]`. */
  method FillSchedule(days: seq<int>, ids: seq<string>) returns (schedule: seq<ScheduleEntry>)
    requires |days| == |ids|
    requires forall k :: 0 <= k < |days| ==> 0 <= days[k] < 7
    requires forall j, k :: 0 <= j < k < |days| ==> days[j] < days[k]
    requires forall k :: 0 <= k < |ids| ==> ids[k] != ""
    ensures WeekSlots(schedule)
    ensures forall d :: 0 <= d < 7 ==> (schedule[d].sessionId.Some? <==> d in days)
    ensures forall k :: 0 <= k < |days| ==> schedule[days[k]].sessionId == Some(ids[k])
    ensures forall d :: 0 <= d < 7 ==> (HasSession(schedule[d]) <==> schedule[d].sessionId.Some?)
    ensures forall d :: 0 <= d < 7 && schedule[d].sessionId.Some? ==> schedule[d].sessionId.value in ids
  {
    var slots := new ScheduleEntry[7](i => ScheduleEntry(i, None));
    for idx := 0 to |ids|
      invariant forall d :: 0 <= d < 7 ==> slots[d].day == d
      invariant forall d :: 0 <= d < 7 ==> (slots[d].sessionId.Some? <==> d in days[..idx])
      invariant forall k :: 0 <= k < idx ==> slots[days[k]].sessionId == Some(ids[k])
      invariant forall d :: 0 <= d < 7 && slots[d].sessionId.Some? ==> slots[d].sessionId.value in ids[..idx]
    {
      var dayIndex := days[idx];
      slots[dayIndex] := ScheduleEntry(dayIndex, Some(ids[idx]));
      assert days[..idx + 1] == days[..idx] + [dayIndex];
      assert ids[..idx + 1] == ids[..idx] + [ids[idx]];
    }
    assert days[..|ids|] == days;
    assert ids[..|ids|] == ids;
    schedule := slots[..];
  }

  /** `buildTrainingPlan`: the sessions, and a seven-slot schedule whose slot
      `startingDays[k]` names session `k` and whose other slots are rest days. */
  method BuildTrainingPlan(p: UserProfile, catalog: ExerciseCatalog) returns (t: TrainingPlan)
    requires SupportedDays(p.daysPerWeek)
    ensures t.split == Split(p.daysPerWeek).name
    ensures |t.sessions| == p.daysPerWeek
    ensures forall i :: 0 <= i < |t.sessions| ==>
              SessionBuiltFor(t.sessions[i], Split(p.daysPerWeek).focuses[i], i, p, catalog)
    ensures forall i, j :: 0 <= i < j < |t.sessions| ==> t.sessions[i].id != t.sessions[j].id
    ensures WeekSlots(t.schedule)
    ensures forall d :: 0 <= d < 7 ==> (t.schedule[d].sessionId.Some? <==> d in StartingDays(p.daysPerWeek))
    ensures forall k :: 0 <= k < |t.sessions| ==>
              t.schedule[StartingDays(p.daysPerWeek)[k]].sessionId == Some(t.sessions[k].id)
    ensures forall d :: 0 <= d < 7 ==> (HasSession(t.schedule[d]) <==> t.schedule[d].sessionId.Some?)
    ensures ScheduleReferencesSessions(t)
  {
    var sessions := BuildSessions(p, catalog);
    var ids := IdsOf(sessions);
    var schedule := FillSchedule(StartingDays(p.daysPerWeek), ids);
    t := TrainingPlan(Split(p.daysPerWeek).name, sessions, schedule);
  }

  /** The session ids, in order; none is empty. */
  function IdsOf(sessions: seq<WorkoutSession>): (ids: seq<string>)
    requires forall k :: 0 <= k < |sessions| ==> sessions[k].id != ""
    ensures |ids| == |sessions|
    ensures forall k :: 0 <= k < |ids| ==> ids[k] == sessions[k].id && ids[k] != ""
    ensures forall x :: x in ids ==> exists k :: 0 <= k < |sessions| && sessions[k].id == x
  {
    seq(|sessions|, k requires 0 <= k < |sessions| => sessions[k].id)
  }

  // ---------------------------------------------------------------- rotation

  /** Number of slots of `s` that carry a session. */
  function CountSessions(s: seq<ScheduleEntry>): (n: nat)
    ensures n <= |s|
  {
    if s == [] then 0 else CountSessions(s[..|s| - 1]) + (if HasSession(s[|s| - 1]) then 1 else 0)
  }

  /** `schedule.filter((day) => day.sessionId).map((day) => day.day)`. */
  function SessionDays(s: seq<ScheduleEntry>): (days: seq<int>)
    ensures |days| == CountSessions(s)
  {
    if s == [] then []
    else SessionDays(s[..|s| - 1]) + (if HasSession(s[|s| - 1]) then [s[|s| - 1].day] else [])
  }

  /** On a schedule whose slot `i` is weekday `i`, the session days are increasing,
      are exactly the slots with a session, and the slot `d` sits at position
      "number of session slots before `d`". */
  lemma {:induction false} SessionDaysOfSlots(s: seq<ScheduleEntry>)
    requires forall i :: 0 <= i < |s| ==> s[i].day == i
    ensures forall j, k :: 0 <= j < k < |SessionDays(s)| ==> SessionDays(s)[j] < SessionDays(s)[k]
    ensures forall k :: 0 <= k < |SessionDays(s)| ==>
              0 <= SessionDays(s)[k] < |s| && HasSession(s[SessionDays(s)[k]])
    ensures forall d :: 0 <= d < |s| && HasSession(s[d]) ==>
              CountSessions(s[..d]) < |SessionDays(s)| && SessionDays(s)[CountSessions(s[..d])] == d
  {
    if s != [] {
      var init := s[..|s| - 1];
      SessionDaysOfSlots(init);
      var before := SessionDays(init);
      var last := s[|s| - 1];
      assert SessionDays(s) == before + (if HasSession(last) then [last.day] else []);
      assert |before| == CountSessions(init);
      forall d | 0 <= d < |s| - 1
        ensures s[..d] == init[..d]
      {
      }
    }
  }

  /** The energy tier of weekday `d`: low on rest days, high on the first two
      session days of the week, mid on the later ones. */
  function RotationSlot(schedule: seq<ScheduleEntry>, d: int): DayIntensity
    requires 0 <= d < |schedule|
  {
    if !HasSession(schedule[d]) then Low
    else if CountSessions(schedule[..d]) < 2 then DayIntensity.High
    else Mid
  }

  /** `createRotation`: fill seven `low` slots, then overwrite every session day
      with `high` for the first two and `mid` for the rest. */
  method CreateRotation(schedule: seq<ScheduleEntry>) returns (rotation: seq<DayIntensity>)
    requires WeekSlots(schedule)
    ensures |rotation| == 7
    ensures forall d :: 0 <= d < 7 ==> rotation[d] == RotationSlot(schedule, d)
  {
    var slots := new DayIntensity[7](_ => Low);
    var sessionDays := SessionDays(schedule);
    SessionDaysOfSlots(schedule);
    for index := 0 to |sessionDays|
      invariant forall k :: 0 <= k < index ==> slots[sessionDays[k]] == if k < 2 then DayIntensity.High else Mid
      invariant forall d :: 0 <= d < 7 && (forall k :: 0 <= k < index ==> sessionDays[k] != d) ==> slots[d] == Low
    {
      slots[sessionDays[index]] := if index < 2 then DayIntensity.High else Mid;
    }
    rotation := slots[..];
    forall d | 0 <= d < 7 ensures rotation[d] == RotationSlot(schedule, d) {
      if HasSession(schedule[d]) {
        assert sessionDays[CountSessions(schedule[..d])] == d;
      }
    }
  }

  /** The energy rotation each split yields, written out weekday by weekday. */
  function RotationTable(daysPerWeek: int): (r: seq<DayIntensity>)
    requires SupportedDays(daysPerWeek)
    ensures |r| == 7
  {
    if daysPerWeek == 5 then [DayIntensity.High, DayIntensity.High, Mid, Mid, Mid, Low, Low]
    else if daysPerWeek == 4 then [DayIntensity.High, DayIntensity.High, Low, Mid, Mid, Low, Low]
    else if daysPerWeek == 3 then [DayIntensity.High, Low, DayIntensity.High, Low, Mid, Low, Low]
    else [Low, DayIntensity.High, Low, Low, DayIntensity.High, Low, Low]
  }

  lemma CountSessionsStep(s: seq<ScheduleEntry>, d: int)
    requires 0 <= d < |s|
    ensures CountSessions(s[..d + 1]) == CountSessions(s[..d]) + if HasSession(s[d]) then 1 else 0
  {
    assert s[..d + 1][..d] == s[..d];
  }

  /** A schedule with sessions exactly on the split's starting days rotates as the table says. */
  lemma RotationMatchesTable(daysPerWeek: int, s: seq<ScheduleEntry>)
    requires SupportedDays(daysPerWeek) && WeekSlots(s)
    requires forall d :: 0 <= d < 7 ==> (HasSession(s[d]) <==> d in StartingDays(daysPerWeek))
    ensures forall d :: 0 <= d < 7 ==> RotationSlot(s, d) == RotationTable(daysPerWeek)[d]
  {
    assert s[..0] == [];
    CountSessionsStep(s, 0);
    CountSessionsStep(s, 1);
    CountSessionsStep(s, 2);
    CountSessionsStep(s, 3);
    CountSessionsStep(s, 4);
    CountSessionsStep(s, 5);
    var days := StartingDays(daysPerWeek);
    if daysPerWeek == 5 {
      assert days == [0, 1, 2, 3, 4];
      assert HasSession(s[0]) && HasSession(s[1]) && HasSession(s[2]) && HasSession(s[3]) && HasSession(s[4]) && !HasSession(s[5]) && !HasSession(s[6]);
    } else if daysPerWeek == 4 {
      assert days == [0, 1, 3, 4];
      assert HasSession(s[0]) && HasSession(s[1]) && !HasSession(s[2]) && HasSession(s[3]) && HasSession(s[4]) && !HasSession(s[5]) && !HasSession(s[6]);
    } else if daysPerWeek == 3 {
      assert days == [0, 2, 4];
      assert HasSession(s[0]) && !HasSession(s[1]) && HasSession(s[2]) && !HasSession(s[3]) && HasSession(s[4]) && !HasSession(s[5]) && !HasSession(s[6]);
    } else {
      assert days == [1, 4];
      assert !HasSession(s[0]) && HasSession(s[1]) && !HasSession(s[2]) && !HasSession(s[3]) && HasSession(s[4]) && !HasSession(s[5]) && !HasSession(s[6]);
    }
  }
}
