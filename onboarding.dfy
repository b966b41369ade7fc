/** The onboarding wizard's form logic: four steps walked one at a time, the
    per-step validation that records one error per offending field, the tag lists
    of allergies and disliked foods, and the health-condition and equipment
    handlers. */
module Onboarding {
  import opened Wrappers
  import opened Domain
  import opened Lists
  import Text

  // ---------------------------------------------------------------- steps

  /** "O tebi", "Ciljevi", "Ishrana", "Logistika". */
  const StepCount := 4
  const AboutYou := 0
  const Goals := 1
  const Eating := 2
  const Logistics := 3

  /** `nextStep`: one step forward, nothing on the last step. */
  function NextStep(step: nat): (r: nat)
    requires step < StepCount
    ensures r < StepCount
    ensures step < StepCount - 1 ==> r == step + 1
    ensures step == StepCount - 1 ==> r == step
  {
    if step < StepCount - 1 then step + 1 else step
  }

  /** `prevStep`: one step back, nothing on the first step. */
  function PrevStep(step: nat): (r: nat)
    requires step < StepCount
    ensures r < StepCount
    ensures step > 0 ==> r == step - 1
    ensures step == 0 ==> r == 0
  {
    if step > 0 then step - 1 else step
  }

  /** Away from the last step, going back undoes going forward. */
  lemma PrevUndoesNext(step: nat)
    requires step < StepCount - 1
    ensures PrevStep(NextStep(step)) == step
  {
  }

  // ---------------------------------------------------------------- validation

  const AgeMessage := "Unesi godine (13-100)."
  const HeightMessage := "Unesi visinu u centimetrima."
  const WeightMessage := "Unesi tezinu u kilogramima."
  const SleepMessage := "Unesi sati sna (3-12)."
  const StressMessage := "Oznaci nivo stresa."
  const CycleMessage := "Duzina ciklusa treba da bude izmedju 15 i 60 dana."
  const PeriodMessage := "Trajanje menstruacije treba da bude izmedju 1 i 15 dana."
  const DateMessage := "Koristi format YYYY-MM-DD ili ostavi prazno."
  const ItemsMessage := "Dodaj barem jednu stavku opreme ili oznaci 'Bez opreme'."
  const DaysMessage := "Izaberi broj trening dana."
  const FixFieldsMessage := "Ispravi obelezena polja pre nastavka."

  /** Some cycle field is filled in. */
  predicate HasCycleData(p: UserProfile) {
    p.cycleLengthDays.Some? || p.periodLengthDays.Some? || p.lastPeriodDate.GetOr("") != ""
  }

  /** The keys of `validateStep`'s error record. */
  datatype Field =
    | AgeField | HeightField | WeightField | SleepField | StressField
    | CycleField | PeriodField | LastPeriodField
    | ItemsField | DaysField

  /** The message `validateStep` records for a field. */
  function FieldMessage(f: Field): string {
    match f
    case AgeField => AgeMessage
    case HeightField => HeightMessage
    case WeightField => WeightMessage
    case SleepField => SleepMessage
    case StressField => StressMessage
    case CycleField => CycleMessage
    case PeriodField => PeriodMessage
    case LastPeriodField => DateMessage
    case ItemsField => ItemsMessage
    case DaysField => DaysMessage
  }

  /** The errors of the body, sleep and stress checks; each field with its message. */
  function BodyErrors(form: UserProfile): (e: map<Field, string>)
    ensures AgeField in e <==> !(13 <= form.age <= 100)
    ensures HeightField in e <==> !(120 <= form.heightCm <= 220)
    ensures WeightField in e <==> !(35.0 <= form.weightKg <= 200.0)
    ensures SleepField in e <==> !(3.0 <= form.sleepHours <= 12.0)
    ensures StressField in e <==> form.stressLevel == 0
    ensures e.Keys <= {AgeField, HeightField, WeightField, SleepField, StressField}
    ensures forall f :: f in e ==> e[f] == FieldMessage(f)
  {
    var e0: map<Field, string> := map[];
    var e1 := if form.age == 0 || form.age < 13 || form.age > 100 then e0[AgeField := AgeMessage] else e0;
    var e2 := if form.heightCm == 0 || form.heightCm < 120 || form.heightCm > 220 then e1[HeightField := HeightMessage] else e1;
    var e3 := if form.weightKg == 0.0 || form.weightKg < 35.0 || form.weightKg > 200.0 then e2[WeightField := WeightMessage] else e2;
    var e4 := if form.sleepHours == 0.0 || form.sleepHours < 3.0 || form.sleepHours > 12.0 then e3[SleepField := SleepMessage] else e3;
    if form.stressLevel == 0 then e4[StressField := StressMessage] else e4
  }

  /** The errors of the cycle checks, which run only when some cycle field is filled in. */
  function CycleErrors(form: UserProfile): (e: map<Field, string>)
    ensures CycleField in e <==> form.cycleLengthDays.Some? && !(15 <= form.cycleLengthDays.value <= 60)
    ensures PeriodField in e <==> form.periodLengthDays.Some? && !(1 <= form.periodLengthDays.value <= 15)
    ensures LastPeriodField in e <==>
              form.lastPeriodDate.Some? && form.lastPeriodDate.value != "" &&
              !Text.IsIsoDateShape(form.lastPeriodDate.value)
    ensures e.Keys <= {CycleField, PeriodField, LastPeriodField}
    ensures forall f :: f in e ==> e[f] == FieldMessage(f)
  {
    var e0: map<Field, string> := map[];
    if !HasCycleData(form) then e0
    else
      var e1 := if form.cycleLengthDays.Some? && (form.cycleLengthDays.value < 15 || form.cycleLengthDays.value > 60)
                then e0[CycleField := CycleMessage] else e0;
      var e2 := if form.periodLengthDays.Some? && (form.periodLengthDays.value < 1 || form.periodLengthDays.value > 15)
                then e1[PeriodField := PeriodMessage] else e1;
      if form.lastPeriodDate.Some? && form.lastPeriodDate.value != "" && !Text.IsIsoDateShape(form.lastPeriodDate.value)
      then e2[LastPeriodField := DateMessage] else e2
  }

  /** The errors of the equipment and training-day checks. */
  function LogisticsErrors(form: UserProfile): (e: map<Field, string>)
    ensures ItemsField in e <==> form.equipment.location == Home && form.equipment.items == []
    ensures DaysField in e <==> form.daysPerWeek == 0
    ensures e.Keys <= {ItemsField, DaysField}
    ensures forall f :: f in e ==> e[f] == FieldMessage(f)
  {
    var e0: map<Field, string> := map[];
    var e1 := if form.equipment.location == Home && |form.equipment.items| == 0 then e0[ItemsField := ItemsMessage] else e0;
    if form.daysPerWeek == 0 then e1[DaysField := DaysMessage] else e1
  }

  /** The error record a step should show: the failing fields of the checks that
      step runs, each with its message. Only "O tebi" and "Logistika" check fields. */
  function StepErrors(step: nat, form: UserProfile): (r: map<Field, string>)
    ensures forall f :: f in r ==> r[f] == FieldMessage(f)
  {
    if step == AboutYou then BodyErrors(form) + CycleErrors(form)
    else if step == Logistics then LogisticsErrors(form)
    else map[]
  }

  /** The body, sleep and stress fields are in a step's error record iff the step
      is "O tebi" and the value is out of range. */
  lemma StepErrorsBody(step: nat, form: UserProfile)
    ensures var e := StepErrors(step, form);
            && (AgeField in e <==> step == AboutYou && !(13 <= form.age <= 100))
            && (HeightField in e <==> step == AboutYou && !(120 <= form.heightCm <= 220))
            && (WeightField in e <==> step == AboutYou && !(35.0 <= form.weightKg <= 200.0))
            && (SleepField in e <==> step == AboutYou && !(3.0 <= form.sleepHours <= 12.0))
            && (StressField in e <==> step == AboutYou && form.stressLevel == 0)
  {
    var cycle := CycleErrors(form);
    assert AgeField !in cycle && HeightField !in cycle && WeightField !in cycle;
    assert SleepField !in cycle && StressField !in cycle;
  }

  /** The cycle fields are in a step's error record iff the step is "O tebi" and
      the filled-in value fails its check. */
  lemma StepErrorsCycle(step: nat, form: UserProfile)
    ensures var e := StepErrors(step, form);
            && (CycleField in e <==>
                  step == AboutYou && form.cycleLengthDays.Some? && !(15 <= form.cycleLengthDays.value <= 60))
            && (PeriodField in e <==>
                  step == AboutYou && form.periodLengthDays.Some? && !(1 <= form.periodLengthDays.value <= 15))
            && (LastPeriodField in e <==>
                  step == AboutYou && form.lastPeriodDate.Some? && form.lastPeriodDate.value != "" &&
                  !Text.IsIsoDateShape(form.lastPeriodDate.value))
  {
    var body := BodyErrors(form);
    assert CycleField !in body && PeriodField !in body && LastPeriodField !in body;
  }

  /** The equipment and training-day fields are in a step's error record iff the
      step is "Logistika" and the check fails. */
  lemma StepErrorsLogistics(step: nat, form: UserProfile)
    ensures var e := StepErrors(step, form);
            && (ItemsField in e <==> step == Logistics && form.equipment.location == Home && form.equipment.items == [])
            && (DaysField in e <==> step == Logistics && form.daysPerWeek == 0)
  {
    var body, cycle := BodyErrors(form), CycleErrors(form);
    assert ItemsField !in body && ItemsField !in cycle;
    assert DaysField !in body && DaysField !in cycle;
  }

  /** The checks of the "O tebi" step on body measurements, sleep and stress. */
  method CheckBody(form: UserProfile) returns (errors: map<Field, string>)
    ensures errors == BodyErrors(form)
  {
    errors := map[];
    if form.age == 0 || form.age < 13 || form.age > 100 {
      errors := errors[AgeField := AgeMessage];
    }
    if form.heightCm == 0 || form.heightCm < 120 || form.heightCm > 220 {
      errors := errors[HeightField := HeightMessage];
    }
    if form.weightKg == 0.0 || form.weightKg < 35.0 || form.weightKg > 200.0 {
      errors := errors[WeightField := WeightMessage];
    }
    if form.sleepHours == 0.0 || form.sleepHours < 3.0 || form.sleepHours > 12.0 {
      errors := errors[SleepField := SleepMessage];
    }
    if form.stressLevel == 0 {
      errors := errors[StressField := StressMessage];
    }
  }

  /** The cycle checks of the "O tebi" step; they run only when some cycle field is
      filled in, and a filled-in field is checked on its own. */
  method CheckCycle(form: UserProfile) returns (errors: map<Field, string>)
    ensures errors == CycleErrors(form)
  {
    errors := map[];
    if HasCycleData(form) {
      if form.cycleLengthDays.Some? && (form.cycleLengthDays.value < 15 || form.cycleLengthDays.value > 60) {
        errors := errors[CycleField := CycleMessage];
      }
      if form.periodLengthDays.Some? && (form.periodLengthDays.value < 1 || form.periodLengthDays.value > 15) {
        errors := errors[PeriodField := PeriodMessage];
      }
      if form.lastPeriodDate.Some? && form.lastPeriodDate.value != "" &&
         !Text.IsIsoDateShape(form.lastPeriodDate.value) {
        errors := errors[LastPeriodField := DateMessage];
      }
    }
  }

  /** The checks of the "Logistika" step. */
  method CheckLogistics(form: UserProfile) returns (errors: map<Field, string>)
    ensures errors == LogisticsErrors(form)
  {
    errors := map[];
    if form.equipment.location == Home && |form.equipment.items| == 0 {
      errors := errors[ItemsField := ItemsMessage];
    }
    if form.daysPerWeek == 0 {
      errors := errors[DaysField := DaysMessage];
    }
  }

  /** `validateStep`'s error record: the fields of the current step that are
      missing or out of range, and whether there are none. Goal, activity level,
      diet and location always hold one of their values here, so their checks
      never fire. */
  method ValidateStep(step: nat, form: UserProfile) returns (ok: bool, errors: map<Field, string>)
    requires step < StepCount
    ensures ok <==> errors == map[]
    ensures errors == StepErrors(step, form)
    ensures AgeField in errors <==> step == AboutYou && !(13 <= form.age <= 100)
    ensures HeightField in errors <==> step == AboutYou && !(120 <= form.heightCm <= 220)
    ensures WeightField in errors <==> step == AboutYou && !(35.0 <= form.weightKg <= 200.0)
    ensures SleepField in errors <==> step == AboutYou && !(3.0 <= form.sleepHours <= 12.0)
    ensures StressField in errors <==> step == AboutYou && form.stressLevel == 0
    ensures CycleField in errors <==>
              step == AboutYou && form.cycleLengthDays.Some? && !(15 <= form.cycleLengthDays.value <= 60)
    ensures PeriodField in errors <==>
              step == AboutYou && form.periodLengthDays.Some? && !(1 <= form.periodLengthDays.value <= 15)
    ensures LastPeriodField in errors <==>
              step == AboutYou && form.lastPeriodDate.Some? && form.lastPeriodDate.value != "" &&
              !Text.IsIsoDateShape(form.lastPeriodDate.value)
    ensures ItemsField in errors <==>
              step == Logistics && form.equipment.location == Home && form.equipment.items == []
    ensures DaysField in errors <==> step == Logistics && form.daysPerWeek == 0
  {
    errors := map[];
    if step == AboutYou {
      var body := CheckBody(form);
      var cycle := CheckCycle(form);
      errors := body + cycle;
    } else if step == Logistics {
      errors := CheckLogistics(form);
    }
    StepErrorsBody(step, form);
    StepErrorsCycle(step, form);
    StepErrorsLogistics(step, form);
    ok := errors.Keys == {};
    assert ok <==> errors == map[] by {
      if !ok {
        var k :| k in errors.Keys;
      }
    }
  }

  // ---------------------------------------------------------------- form fields

  /** `Number(text.replace(/[^0-9]/g, "")) || 0`. */
  function WholeField(text: string): (n: nat) {
    Text.DigitsValue(Text.KeepChars(text, false))
  }

  /** `Number(text.replace(/[^0-9.]/g, "")) || 0`: NaN becomes 0. */
  function DecimalField(text: string): (x: real)
    ensures x >= 0.0
    ensures Text.NumberOf(Text.KeepChars(text, true)).None? ==> x == 0.0
  {
    Text.NumberOf(Text.KeepChars(text, true)).GetOr(0.0)
  }

  /** The cycle and period inputs: no digits at all leaves the field empty. */
  function OptionalWholeField(text: string): (r: Option<int>)
    ensures r.None? <==> Text.KeepChars(text, false) == []
    ensures r.Some? ==> r.value == WholeField(text)
  {
    var cleaned := Text.KeepChars(text, false);
    if cleaned != [] then Some(Text.DigitsValue(cleaned)) else None
  }

  /** The last-period date input: kept trimmed, blank leaves it empty. */
  function DateInput(text: string): (r: Option<string>)
    ensures r.None? <==> Text.Trim(text) == []
    ensures r.Some? ==> r.value == Text.Trim(text) && r.value != ""
  {
    if Text.Trim(text) != [] then Some(Text.Trim(text)) else None
  }

  /** A number typed with other characters around it reads as its digits. */
  lemma WholeFieldOfDigits(text: string)
    requires forall k :: 0 <= k < |text| ==> Text.IsDigit(text[k])
    ensures WholeField(text) == Text.DigitsValue(text)
  {
    KeepDigits(text);
  }

  lemma {:induction false} KeepDigits(text: string)
    requires forall k :: 0 <= k < |text| ==> Text.IsDigit(text[k])
    ensures Text.KeepChars(text, false) == text
  {
    if text != [] {
      KeepDigits(text[1..]);
    }
  }

  // ---------------------------------------------------------------- tag lists

  /** `handleAddItem` on one list and its input box: a blank entry changes
      nothing (the box keeps its text); otherwise the trimmed entry joins the
      list, duplicates are dropped and the box is cleared. */
  function AddItem(list: seq<string>, input: string): (r: (seq<string>, string))
    ensures Text.Trim(input) == [] ==> r == (list, input)
    ensures Text.Trim(input) != [] ==>
              r.1 == "" && NoDups(r.0) && Count(r.0, Text.Trim(input)) == 1 &&
              (forall x :: x in r.0 <==> x in list || x == Text.Trim(input))
  {
    var value := Text.Trim(input);
    if value == [] then (list, input)
    else
      var next := Dedup(list + [value]);
      NoDupsCountOne(next, value);
      (next, "")
  }

  /** On a list without duplicates (every list `AddItem` builds) a new entry is
      appended at the end and a known one leaves the list as it was. */
  lemma AddItemAppends(list: seq<string>, input: string)
    requires NoDups(list) && Text.Trim(input) != []
    ensures Text.Trim(input) in list ==> AddItem(list, input).0 == list
    ensures Text.Trim(input) !in list ==> AddItem(list, input).0 == list + [Text.Trim(input)]
  {
    var s := list + [Text.Trim(input)];
    assert s[..|s| - 1] == list;
    DedupNoDups(list);
  }

  /** `handleRemoveItem`: every occurrence removed, the rest kept in order. */
  function RemoveItem(list: seq<string>, value: string): (r: seq<string>)
    ensures value !in r
    ensures forall x :: x != value ==> Count(r, x) == Count(list, x)
    ensures value !in list ==> r == list
  {
    RemoveAllCounts(list, value);
    if value !in list then
      RemoveAllAbsent(list, value);
      RemoveAll(list, value)
    else
      RemoveAll(list, value)
  }

  lemma RemoveAllCounts(list: seq<string>, value: string)
    ensures forall x :: x != value ==> Count(RemoveAll(list, value), x) == Count(list, x)
  {
    forall x | x != value ensures Count(RemoveAll(list, value), x) == Count(list, x) {
      RemoveAllCount(list, value, x);
    }
  }

  /** Removing splits over concatenation, so the kept elements stay in order. */
  lemma RemoveItemKeepsOrder(a: seq<string>, b: seq<string>, value: string)
    ensures RemoveItem(a + b, value) == RemoveItem(a, value) + RemoveItem(b, value)
  {
    RemoveAllAppend(a, b, value);
  }

  // ---------------------------------------------------------------- pills

  /** The health-condition pill: a selected condition is removed, another one added. */
  function ToggleCondition(form: UserProfile, c: HealthCondition): (r: UserProfile)
    ensures c in r.healthConditions <==> c !in form.healthConditions
    ensures forall o :: o != c ==> (o in r.healthConditions <==> o in form.healthConditions)
    ensures r == form.(healthConditions := r.healthConditions)
  {
    form.(healthConditions := Toggle(form.healthConditions, c))
  }

  /** The location pills: choosing a location empties the equipment list. */
  function ChooseLocation(form: UserProfile, location: Location): (r: UserProfile)
    ensures r.equipment.location == location && r.equipment.items == []
    ensures r == form.(equipment := r.equipment)
  {
    form.(equipment := Equipment(location, []))
  }

  /** An equipment tag: a selected item is removed, another one added. */
  function ToggleEquipmentItem(form: UserProfile, item: string): (r: UserProfile)
    ensures r.equipment.location == form.equipment.location
    ensures item in r.equipment.items <==> item !in form.equipment.items
    ensures forall o :: o != item ==> (o in r.equipment.items <==> o in form.equipment.items)
    ensures r == form.(equipment := r.equipment)
  {
    form.(equipment := form.equipment.(items := Toggle(form.equipment.items, item)))
  }

  /** Just after choosing "home" the last step cannot pass: an item must be picked first. */
  lemma HomeNeedsAnItem(form: UserProfile)
    ensures var f := ChooseLocation(form, Home);
            f.equipment.location == Home && f.equipment.items == []
    ensures ItemsField in StepErrors(Logistics, ChooseLocation(form, Home))
    ensures StepErrors(Logistics, ChooseLocation(form, Home)) != map[]
  {
    StepErrorsLogistics(Logistics, ChooseLocation(form, Home));
  }

  // ---------------------------------------------------------------- the screen

  const InitialProfile := UserProfile(
    28, 168, 68.0, Lose, Light, Equipment(Home, []), 3, Omnivore, [], [], 7.0, 3, [], None, None, None)

  /** Which tag list an entry goes to. */
  datatype TagList = Allergies | DislikedFoods

  /** The wizard's state: the current step, the form, the two tag input boxes,
      the banner error and the per-field errors. */
  class Screen {
    var step: nat
    var form: UserProfile
    var allergyInput: string
    var dislikeInput: string
    var error: Option<string>
    var fieldErrors: map<Field, string>

    predicate Valid()
      reads this
    {
      step < StepCount
    }

    constructor()
      ensures Valid() && step == AboutYou && form == InitialProfile
      ensures allergyInput == "" && dislikeInput == "" && error.None? && fieldErrors == map[]
    {
      step := AboutYou;
      form := InitialProfile;
      allergyInput := "";
      dislikeInput := "";
      error := None;
      fieldErrors := map[];
    }

    /** `handleContinue`: validate, then either show the errors or move on. */
    method Continue() returns (ok: bool)
      requires Valid()
      modifies this
      ensures Valid()
      ensures ok ==> step == NextStep(old(step)) && error.None? && fieldErrors == map[]
      ensures ok <==> StepErrors(old(step), old(form)) == map[]
      ensures !ok ==> step == old(step) && error == Some(FixFieldsMessage) && fieldErrors == StepErrors(old(step), old(form))
      ensures !ok ==> fieldErrors != map[]
      ensures form == old(form) && allergyInput == old(allergyInput) && dislikeInput == old(dislikeInput)
    {
      var errors;
      ok, errors := ValidateStep(step, form);
      if !ok {
        fieldErrors := errors;
        error := Some(FixFieldsMessage);
        return;
      }
      fieldErrors := map[];
      error := None;
      if step < StepCount - 1 {
        step := step + 1;
        error := None;
        fieldErrors := map[];
      }
    }

    /** `prevStep`. */
    method Back()
      requires Valid()
      modifies this
      ensures Valid() && step == PrevStep(old(step))
      ensures old(step) > 0 ==> error.None? && fieldErrors == map[]
      ensures old(step) == 0 ==> error == old(error) && fieldErrors == old(fieldErrors)
      ensures form == old(form) && allergyInput == old(allergyInput) && dislikeInput == old(dislikeInput)
    {
      if step > 0 {
        step := step - 1;
        error := None;
        fieldErrors := map[];
      }
    }

    /** `handleAddItem`. */
    method AddTag(list: TagList)
      requires Valid()
      modifies this
      ensures Valid() && step == old(step) && error == old(error) && fieldErrors == old(fieldErrors)
      ensures list == Allergies ==>
                (form.allergies, allergyInput) == AddItem(old(form).allergies, old(allergyInput)) &&
                form == old(form).(allergies := form.allergies) && dislikeInput == old(dislikeInput)
      ensures list == DislikedFoods ==>
                (form.dislikedFoods, dislikeInput) == AddItem(old(form).dislikedFoods, old(dislikeInput)) &&
                form == old(form).(dislikedFoods := form.dislikedFoods) && allergyInput == old(allergyInput)
    {
      if list == Allergies {
        var r := AddItem(form.allergies, allergyInput);
        form := form.(allergies := r.0);
        allergyInput := r.1;
      } else {
        var r := AddItem(form.dislikedFoods, dislikeInput);
        form := form.(dislikedFoods := r.0);
        dislikeInput := r.1;
      }
    }

    /** `handleRemoveItem`. */
    method RemoveTag(list: TagList, value: string)
      requires Valid()
      modifies this
      ensures Valid() && step == old(step) && error == old(error) && fieldErrors == old(fieldErrors)
      ensures allergyInput == old(allergyInput) && dislikeInput == old(dislikeInput)
      ensures list == Allergies ==> form == old(form).(allergies := RemoveItem(old(form).allergies, value))
      ensures list == DislikedFoods ==>
                form == old(form).(dislikedFoods := RemoveItem(old(form).dislikedFoods, value))
    {
      if list == Allergies {
        form := form.(allergies := RemoveItem(form.allergies, value));
      } else {
        form := form.(dislikedFoods := RemoveItem(form.dislikedFoods, value));
      }
    }
  }
}
