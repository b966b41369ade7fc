/** The app's state container: the reducer over profile, plan, logs and membership,
    the default log for a day, the completion toggles and the energy entry, the
    repair of plans stored by older versions, and the provider that guards plan
    and log changes behind an active membership. */
module AppStore {
  import opened Wrappers
  import opened Domain
  import opened Lists

  // ---------------------------------------------------------------- state and actions

  /** `logs` maps each day to its log; every log is stored under its own date
      (see `WellKeyed`). */
  datatype AppState = AppState(
    profile: Option<UserProfile>,
    plan: Option<GeneratedPlan>,
    logs: map<Day, DailyLog>,
    membership: Option<MembershipSummary>)

  const InitialState := AppState(None, None, map[], None)

  datatype Action =
    | SetProfile(profile: UserProfile)
    | SetPlan(plan: GeneratedPlan)
    | Reset
    | UpsertLog(log: DailyLog)
    | Hydrate(payload: AppState)
    | SetMembership(summary: Option<MembershipSummary>)

  /** Every log sits under the key of its own date. */
  predicate WellKeyed(logs: map<Day, DailyLog>) {
    forall d :: d in logs ==> logs[d].date == d
  }

  /** The reducer. Each action replaces one part of the state and keeps the rest;
      `Reset` forgets everything and `Hydrate` replaces everything. */
  function Reduce(state: AppState, action: Action): (r: AppState)
    ensures action.SetProfile? ==>
              r.profile == Some(action.profile) && r.plan == state.plan &&
              r.logs == state.logs && r.membership == state.membership
    ensures action.SetPlan? ==>
              r.plan == Some(action.plan) && r.profile == state.profile &&
              r.logs == state.logs && r.membership == state.membership
    ensures action.Reset? ==> r == InitialState
    ensures action.UpsertLog? ==>
              r.logs.Keys == state.logs.Keys + {action.log.date} &&
              r.logs[action.log.date] == action.log &&
              (forall d :: d in state.logs && d != action.log.date ==> r.logs[d] == state.logs[d]) &&
              r.profile == state.profile && r.plan == state.plan && r.membership == state.membership
    ensures action.Hydrate? ==> r == action.payload
    ensures action.SetMembership? ==>
              r.membership == action.summary && r.profile == state.profile &&
              r.plan == state.plan && r.logs == state.logs
  {
    match action
    case SetProfile(p) => state.(profile := Some(p))
    case SetPlan(plan) => state.(plan := Some(plan))
    case Reset => InitialState
    case UpsertLog(log) => state.(logs := state.logs[log.date := log])
    case Hydrate(payload) => payload
    case SetMembership(summary) => state.(membership := summary)
  }

  /** No action can break the keying of the logs, provided a hydrated state is
      keyed itself. */
  lemma ReducePreservesWellKeyed(state: AppState, action: Action)
    requires WellKeyed(state.logs)
    requires action.Hydrate? ==> WellKeyed(action.payload.logs)
    ensures WellKeyed(Reduce(state, action).logs)
  {
    if action.UpsertLog? {
      var r := Reduce(state, action);
      forall d | d in r.logs ensures r.logs[d].date == d {
        if d != action.log.date {
          assert d in state.logs;
        }
      }
    }
  }

  /** Writing the same day twice keeps only the second log. */
  lemma UpsertLastWins(state: AppState, first: DailyLog, second: DailyLog)
    requires first.date == second.date
    ensures Reduce(Reduce(state, UpsertLog(first)), UpsertLog(second)) == Reduce(state, UpsertLog(second))
  {
    assert Reduce(Reduce(state, UpsertLog(first)), UpsertLog(second)).logs ==
           Reduce(state, UpsertLog(second)).logs;
  }

  // ---------------------------------------------------------------- logs

  /** The stored log of `date`, or an empty one for that date. */
  function EnsureLog(logs: map<Day, DailyLog>, date: Day): (log: DailyLog)
    ensures date in logs ==> log == logs[date]
    ensures date !in logs ==>
              log.date == date && log.energy.None? &&
              log.workoutsCompleted == [] && log.mealsCompleted == [] && log.habitsCompleted == []
    ensures WellKeyed(logs) ==> log.date == date
  {
    if date in logs then logs[date] else DailyLog(date, None, [], [], [])
  }

  /** Which of a log's three completion lists a toggle works on. */
  datatype CompletionList = Workouts | Meals | Habits

  function Completed(log: DailyLog, which: CompletionList): seq<string> {
    match which
    case Workouts => log.workoutsCompleted
    case Meals => log.mealsCompleted
    case Habits => log.habitsCompleted
  }

  /** `id` added to or removed from one of the log's lists, and nothing else changed. */
  function ToggleIn(log: DailyLog, which: CompletionList, id: string): (r: DailyLog)
    ensures r.date == log.date && r.energy == log.energy
    ensures id in Completed(r, which) <==> id !in Completed(log, which)
    ensures forall other :: other != id ==> (other in Completed(r, which) <==> other in Completed(log, which))
    ensures forall w :: w != which ==> Completed(r, w) == Completed(log, w)
    ensures id !in Completed(log, which) ==> Completed(r, which) == Completed(log, which) + [id]
    ensures id in Completed(log, which) ==> Completed(r, which) == RemoveAll(Completed(log, which), id)
  {
    match which
    case Workouts => log.(workoutsCompleted := Toggle(log.workoutsCompleted, id))
    case Meals => log.(mealsCompleted := Toggle(log.mealsCompleted, id))
    case Habits => log.(habitsCompleted := Toggle(log.habitsCompleted, id))
  }

  /** A toggle keeps every other id exactly as often as it was listed. */
  lemma ToggleInCounts(log: DailyLog, which: CompletionList, id: string)
    ensures forall other :: other != id ==>
              Count(Completed(ToggleIn(log, which, id), which), other) == Count(Completed(log, which), other)
  {
    forall other | other != id
      ensures Count(Completed(ToggleIn(log, which, id), which), other) == Count(Completed(log, which), other)
    {
      ToggleCountOthers(Completed(log, which), id, other);
    }
  }

  /** The log `toggleWorkoutCompletion`, `toggleMealCompletion` and
      `toggleHabitCompletion` write: the day's log, toggled in one list. */
  function ToggledLog(logs: map<Day, DailyLog>, date: Day, which: CompletionList, id: string): DailyLog {
    ToggleIn(EnsureLog(logs, date), which, id)
  }

  /** The log `setDailyEnergy` writes: the day's log with only the energy replaced. */
  function EnergyLog(logs: map<Day, DailyLog>, date: Day, level: int): (r: DailyLog)
    ensures var log := EnsureLog(logs, date);
            r.energy == Some(level) && r.date == log.date &&
            (forall w :: Completed(r, w) == Completed(log, w))
  {
    EnsureLog(logs, date).(energy := Some(level))
  }

  /** Toggling an absent item twice gives back the log. */
  lemma ToggleInTwice(log: DailyLog, which: CompletionList, id: string)
    requires id !in Completed(log, which)
    ensures ToggleIn(ToggleIn(log, which, id), which, id) == log
  {
    ToggleTwiceAbsent(Completed(log, which), id);
  }

  /** Toggling an item on and then off again leaves the day as an untouched day:
      the original log, or the empty log of that date when there was none. */
  lemma ToggleTwiceRestores(state: AppState, date: Day, which: CompletionList, id: string)
    requires WellKeyed(state.logs)
    requires id !in Completed(EnsureLog(state.logs, date), which)
    ensures var s1 := Reduce(state, UpsertLog(ToggledLog(state.logs, date, which, id)));
            var s2 := Reduce(s1, UpsertLog(ToggledLog(s1.logs, date, which, id)));
            s2.logs == state.logs[date := EnsureLog(state.logs, date)]
  {
    var log := EnsureLog(state.logs, date);
    var once := ToggleIn(log, which, id);
    var s1 := Reduce(state, UpsertLog(once));
    assert s1.logs == state.logs[date := once];
    assert EnsureLog(s1.logs, date) == once;
    ToggleInTwice(log, which, id);
    assert ToggledLog(s1.logs, date, which, id) == log;
  }

  // ---------------------------------------------------------------- repairing stored plans

  /** The profile a stored plan is repaired with: the signed-in user's, else the
      plan's own snapshot's, else the last history entry's. */
  function FallbackProfile(plan: GeneratedPlan, profile: Option<UserProfile>): (r: Option<UserProfile>)
    ensures profile.Some? ==> r == profile
    ensures profile.None? && plan.profileSnapshot.Some? && plan.profileSnapshot.value.profile.Some? ==>
              r == plan.profileSnapshot.value.profile
    ensures r.Some? ==>
              r == profile ||
              (plan.profileSnapshot.Some? && r == plan.profileSnapshot.value.profile) ||
              (plan.profileHistory.Some? && |plan.profileHistory.value| > 0 &&
               r == plan.profileHistory.value[|plan.profileHistory.value| - 1].profile)
  {
    var fromSnapshot := if plan.profileSnapshot.Some? then plan.profileSnapshot.value.profile else None;
    var fromHistory :=
      if plan.profileHistory.Some? && |plan.profileHistory.value| > 0
      then plan.profileHistory.value[|plan.profileHistory.value| - 1].profile
      else None;
    OrElse(profile, OrElse(fromSnapshot, fromHistory))
  }

  /** The history kept before the current snapshot is merged in: the stored one
      when it has entries, else one entry for the fallback profile, else none. */
  function InitialHistory(plan: GeneratedPlan, fallback: Option<UserProfile>): (r: seq<ProfileSnapshot>)
    ensures plan.profileHistory.Some? && |plan.profileHistory.value| > 0 ==> r == plan.profileHistory.value
    ensures r == [] <==> (plan.profileHistory.None? || plan.profileHistory.value == []) && fallback.None?
  {
    if plan.profileHistory.Some? && |plan.profileHistory.value| > 0 then plan.profileHistory.value
    else if fallback.Some? then [ProfileSnapshot(plan.createdAt, fallback)]
    else []
  }

  /** Some entry of `history` was captured at `t`. */
  predicate HasCapture(history: seq<ProfileSnapshot>, t: Timestamp) {
    exists i :: 0 <= i < |history| && history[i].capturedAt == t
  }

  /** The snapshot is appended unless an entry with the same capture time exists. */
  function MergeHistory(history: seq<ProfileSnapshot>, snapshot: ProfileSnapshot): (r: seq<ProfileSnapshot>)
    ensures |history| <= |r| <= |history| + 1 && r[..|history|] == history
    ensures HasCapture(r, snapshot.capturedAt)
    ensures r == history <==> HasCapture(history, snapshot.capturedAt)
    ensures r != history ==> r[|history|] == snapshot
  {
    if HasCapture(history, snapshot.capturedAt) then history
    else
      var r := history + [snapshot];
      assert r[|history|].capturedAt == snapshot.capturedAt;
      assert r[..|history|] == history;
      r
  }

  /** `normalizePlan`: fills in what plans stored by older versions lack. */
  function NormalizePlan(stored: Option<GeneratedPlan>, profile: Option<UserProfile>): (r: Option<GeneratedPlan>)
    ensures stored.None? <==> r.None?
    ensures stored.Some? ==>
              var plan, n := stored.value, r.value;
              var start := plan.subscriptionStart.GetOr(plan.createdAt);
              // the subscription fields default to a 30-day window from creation
              n.subscriptionStart == Some(start) &&
              n.subscriptionEnd == Some(plan.subscriptionEnd.GetOr(start + 29 * MsInDay)) &&
              n.subscriptionTier == Some(plan.subscriptionTier.GetOr(Unselected)) &&
              // a present snapshot is kept, a missing one is taken at creation time
              n.profileSnapshot.Some? &&
              (plan.profileSnapshot.Some? ==> n.profileSnapshot == plan.profileSnapshot) &&
              (plan.profileSnapshot.None? ==>
                 n.profileSnapshot == Some(ProfileSnapshot(plan.createdAt, FallbackProfile(plan, profile)))) &&
              // the history is never lost, and records the snapshot
              n.profileHistory.Some? && |n.profileHistory.value| > 0 &&
              HasCapture(n.profileHistory.value, n.profileSnapshot.value.capturedAt) &&
              (plan.profileHistory.Some? ==>
                 |plan.profileHistory.value| <= |n.profileHistory.value| &&
                 n.profileHistory.value[..|plan.profileHistory.value|] == plan.profileHistory.value) &&
              // everything else is the stored plan's
              n.id == plan.id && n.createdAt == plan.createdAt && n.training == plan.training &&
              n.nutrition == plan.nutrition && n.habits == plan.habits
  {
    match stored
    case None => None
    case Some(plan) =>
      var start := plan.subscriptionStart.GetOr(plan.createdAt);
      var fallback := FallbackProfile(plan, profile);
      var snapshot :=
        if plan.profileSnapshot.Some? then plan.profileSnapshot.value
        else if fallback.Some? then ProfileSnapshot(plan.createdAt, fallback)
        else ProfileSnapshot(plan.createdAt, profile);
      var initial := InitialHistory(plan, fallback);
      var merged := MergeHistory(initial, snapshot);
      assert plan.profileHistory.Some? && plan.profileHistory.value == [] ==>
               merged[..|plan.profileHistory.value|] == plan.profileHistory.value;
      Some(plan.(
        subscriptionStart := Some(start),
        subscriptionEnd := Some(plan.subscriptionEnd.GetOr(start + 29 * MsInDay)),
        subscriptionTier := Some(plan.subscriptionTier.GetOr(Unselected)),
        profileSnapshot := Some(snapshot),
        profileHistory := Some(merged)))
  }

  /** Repairing a repaired plan changes nothing. */
  lemma NormalizeIdempotent(stored: Option<GeneratedPlan>, profile: Option<UserProfile>)
    ensures NormalizePlan(NormalizePlan(stored, profile), profile) == NormalizePlan(stored, profile)
  {
    if stored.Some? {
      var n := NormalizePlan(stored, profile).value;
      var fallback := FallbackProfile(n, profile);
      assert InitialHistory(n, fallback) == n.profileHistory.value;
      assert MergeHistory(n.profileHistory.value, n.profileSnapshot.value) == n.profileHistory.value;
    }
  }

  // ---------------------------------------------------------------- membership

  const ActiveStatuses: seq<MembershipStatus> := [Active, Trialing, Grace]

  /** `isMembershipActive`. */
  predicate IsMembershipActive(status: MembershipStatus) {
    status in ActiveStatuses
  }

  /** Only an active, trialing or grace-period membership unlocks the plan. */
  lemma ActiveStatusesExactly(status: MembershipStatus)
    ensures IsMembershipActive(status) <==> status == Active || status == Trialing || status == Grace
    ensures !IsMembershipActive(Inactive) && !IsMembershipActive(Unknown) && !IsMembershipActive(PastDue)
  {
  }

  /** `summary?.status ?? "inactive"`. */
  function StatusOf(summary: Option<MembershipSummary>): (s: MembershipStatus)
    ensures summary.Some? ==> s == summary.value.status
    ensures summary.None? ==> s == Inactive && !IsMembershipActive(s)
  {
    if summary.Some? then summary.value.status else Inactive
  }

  const GuardMessage := "Potrebna je aktivna Whop pretplata za ovu akciju."

  /** What a signed-in hydration fetched. `membership` is `None` when the
      membership fetch failed; `storedFlag` is the persisted onboarding flag. */
  datatype Fetched = Fetched(
    profile: Option<UserProfile>,
    plan: Option<GeneratedPlan>,
    logs: map<Day, DailyLog>,
    membership: Option<MembershipSummary>,
    storedFlag: bool)

  /** The membership a hydration works with: the fetched one, or an inactive one. */
  function FetchedMembership(f: Fetched): (m: MembershipSummary)
    ensures f.membership.Some? ==> m == f.membership.value
    ensures f.membership.None? ==> m.status == Inactive
  {
    f.membership.GetOr(MembershipSummary(Inactive, None, None))
  }

  /** The state a signed-in hydration installs: without an active membership no
      plan and no logs are loaded. */
  function HydratedState(f: Fetched): (s: AppState)
    ensures s.profile == f.profile && s.membership == Some(FetchedMembership(f))
    ensures IsMembershipActive(FetchedMembership(f).status) ==>
              s.plan == NormalizePlan(f.plan, f.profile) && s.logs == f.logs
    ensures !IsMembershipActive(FetchedMembership(f).status) ==> s.plan.None? && s.logs == map[]
  {
    var m := FetchedMembership(f);
    var active := IsMembershipActive(m.status);
    AppState(
      f.profile,
      if active then NormalizePlan(f.plan, f.profile) else None,
      if active then f.logs else map[],
      Some(m))
  }

  // ---------------------------------------------------------------- the provider

  /** The provider's mutable part: the reducer state, the membership status it
      checks before plan and log changes, the last error it reports and the
      onboarding flag. */
  class Provider {
    var state: AppState
    var membershipStatus: MembershipStatus
    var lastError: Option<string>
    var hasCompletedOnboarding: bool

    constructor()
      ensures state == InitialState && membershipStatus == Unknown
      ensures lastError.None? && !hasCompletedOnboarding
    {
      state := InitialState;
      membershipStatus := Unknown;
      lastError := None;
      hasCompletedOnboarding := false;
    }

    /** `updateMembership`. */
    method UpdateMembership(summary: Option<MembershipSummary>)
      modifies this
      ensures membershipStatus == StatusOf(summary)
      ensures state == Reduce(old(state), Action.SetMembership(summary))
      ensures lastError == old(lastError) && hasCompletedOnboarding == old(hasCompletedOnboarding)
    {
      membershipStatus := StatusOf(summary);
      state := Reduce(state, Action.SetMembership(summary));
    }

    /** `membershipGuard`: reports an error unless the membership is active. */
    method MembershipGuard() returns (active: bool)
      modifies this
      ensures active == IsMembershipActive(membershipStatus)
      ensures lastError == (if active then old(lastError) else Some(GuardMessage))
      ensures state == old(state) && membershipStatus == old(membershipStatus)
      ensures hasCompletedOnboarding == old(hasCompletedOnboarding)
    {
      active := IsMembershipActive(membershipStatus);
      if !active {
        lastError := Some(GuardMessage);
      }
    }

    /** `hydrate` without a signed-in user. */
    method HydrateSignedOut()
      modifies this
      ensures state == InitialState && membershipStatus == Inactive
      ensures !hasCompletedOnboarding && lastError == old(lastError)
    {
      state := Reduce(state, Action.Reset);
      hasCompletedOnboarding := false;
      UpdateMembership(None);
    }

    /** `hydrate` for a signed-in user, once the fetches have returned. */
    method HydrateSignedIn(f: Fetched)
      modifies this
      ensures membershipStatus == FetchedMembership(f).status
      ensures state == HydratedState(f)
      ensures lastError.None?
      ensures hasCompletedOnboarding ==
                (IsMembershipActive(membershipStatus) && (state.plan.Some? || f.storedFlag))
    {
      hasCompletedOnboarding := f.storedFlag;
      var summary := FetchedMembership(f);
      UpdateMembership(Some(summary));
      var active := IsMembershipActive(summary.status);
      var normalized := if active then NormalizePlan(f.plan, f.profile) else None;
      state := Reduce(state, Action.Hydrate(AppState(f.profile, normalized, if active then f.logs else map[], Some(summary))));
      lastError := None;
      hasCompletedOnboarding := active && (normalized.Some? || f.storedFlag);
    }

    method SetProfile(p: UserProfile)
      modifies this
      ensures state == Reduce(old(state), Action.SetProfile(p))
      ensures membershipStatus == old(membershipStatus) && lastError == old(lastError)
      ensures hasCompletedOnboarding == old(hasCompletedOnboarding)
    {
      state := Reduce(state, Action.SetProfile(p));
    }

    method SetPlan(plan: GeneratedPlan)
      modifies this
      ensures IsMembershipActive(old(membershipStatus)) ==>
                state == Reduce(old(state), Action.SetPlan(plan)) && lastError == old(lastError)
      ensures !IsMembershipActive(old(membershipStatus)) ==>
                state == old(state) && lastError == Some(GuardMessage)
      ensures membershipStatus == old(membershipStatus) && hasCompletedOnboarding == old(hasCompletedOnboarding)
    {
      var active := MembershipGuard();
      if !active {
        return;
      }
      state := Reduce(state, Action.SetPlan(plan));
    }

    method ResetPlan()
      modifies this
      ensures IsMembershipActive(old(membershipStatus)) ==>
                state == InitialState && !hasCompletedOnboarding && lastError == old(lastError)
      ensures !IsMembershipActive(old(membershipStatus)) ==>
                state == old(state) && hasCompletedOnboarding == old(hasCompletedOnboarding) &&
                lastError == Some(GuardMessage)
      ensures membershipStatus == old(membershipStatus)
    {
      var active := MembershipGuard();
      if !active {
        return;
      }
      state := Reduce(state, Action.Reset);
      hasCompletedOnboarding := false;
    }

    /** The three completion toggles. */
    method ToggleCompletion(date: Day, which: CompletionList, id: string)
      modifies this
      ensures IsMembershipActive(old(membershipStatus)) ==>
                state == Reduce(old(state), Action.UpsertLog(ToggledLog(old(state).logs, date, which, id))) &&
                lastError == old(lastError)
      ensures !IsMembershipActive(old(membershipStatus)) ==>
                state == old(state) && lastError == Some(GuardMessage)
      ensures membershipStatus == old(membershipStatus) && hasCompletedOnboarding == old(hasCompletedOnboarding)
    {
      var active := MembershipGuard();
      if !active {
        return;
      }
      var next := ToggledLog(state.logs, date, which, id);
      state := Reduce(state, Action.UpsertLog(next));
    }

    method SetDailyEnergy(date: Day, level: int)
      modifies this
      ensures IsMembershipActive(old(membershipStatus)) ==>
                state == Reduce(old(state), Action.UpsertLog(EnergyLog(old(state).logs, date, level))) &&
                lastError == old(lastError)
      ensures !IsMembershipActive(old(membershipStatus)) ==>
                state == old(state) && lastError == Some(GuardMessage)
      ensures membershipStatus == old(membershipStatus) && hasCompletedOnboarding == old(hasCompletedOnboarding)
    {
      var active := MembershipGuard();
      if !active {
        return;
      }
      var next := EnergyLog(state.logs, date, level);
      state := Reduce(state, Action.UpsertLog(next));
    }

    method MarkOnboardingComplete()
      modifies this
      ensures hasCompletedOnboarding
      ensures state == old(state) && membershipStatus == old(membershipStatus) && lastError == old(lastError)
    {
      hasCompletedOnboarding := true;
    }

    method SignOut()
      modifies this
      ensures state == InitialState && !hasCompletedOnboarding
      ensures membershipStatus == old(membershipStatus) && lastError == old(lastError)
    {
      state := Reduce(state, Action.Reset);
      hasCompletedOnboarding := false;
    }
  }
}
