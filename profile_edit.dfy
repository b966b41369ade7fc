/** The profile-edit screen's save: the text inputs are read as numbers, checked in
    a fixed order with the first failure reported alone, and on success six
    fields of the stored profile are replaced. */
module ProfileEdit {
  import opened Wrappers
  import opened Domain
  import Text

  /** What the screen's inputs hold when the user presses save. */
  datatype EditInputs = EditInputs(
    weight: string,
    sleep: string,
    stress: int,
    cycleLength: string,
    periodLength: string,
    lastPeriod: string)

  /** The check that stopped a save; `Message` is the alert it shows. */
  datatype SaveError = WeightError | SleepError | CycleError | PeriodError | DateError

  datatype SaveOutcome = Saved(profile: UserProfile) | Rejected(error: SaveError)

  function Message(e: SaveError): string {
    match e
    case WeightError => "Unesi validnu te\U{017E}inu."
    case SleepError => "Unesi validan broj sati sna."
    case CycleError => "Du\U{017E}ina ciklusa treba da bude izme\U{0111}u 15 i 60 dana."
    case PeriodError => "Trajanje menstruacije treba da bude izme\U{0111}u 1 i 15 dana."
    case DateError => "Unesi datum poslednje menstruacije u formatu YYYY-MM-DD ili ostavi prazno."
  }

  /** A decimal input: blank keeps `current`; otherwise `Number` of its digits
      and dots, where `None` is NaN. */
  function DecimalInput(text: string, current: real): (r: Option<real>)
    ensures Text.Trim(text) == [] ==> r == Some(current)
    ensures Text.Trim(text) != [] ==> r == Text.NumberOf(Text.KeepChars(text, true))
  {
    if Text.Trim(text) != [] then Text.NumberOf(Text.KeepChars(text, true)) else Some(current)
  }

  /** A whole-number input: blank is no value; otherwise `Number` of its digits,
      which is 0 when it has none. */
  function WholeInput(text: string): (r: Option<int>)
    ensures Text.Trim(text) == [] <==> r.None?
    ensures r.Some? ==> r.value >= 0
    ensures r.Some? && Text.KeepChars(text, false) == [] ==> r.value == 0
  {
    if Text.Trim(text) != [] then Some(Text.DigitsValue(Text.KeepChars(text, false))) else None
  }

  /** The date input: trimmed, blank is no value. */
  function DateInput(text: string): (r: Option<string>)
    ensures Text.Trim(text) == [] <==> r.None?
    ensures r.Some? ==> r.value == Text.Trim(text)
  {
    if Text.Trim(text) != [] then Some(Text.Trim(text)) else None
  }

  /** `Number.isNaN(weight) || weight <= 0` fails. */
  predicate WeightOk(w: Option<real>) {
    w.Some? && w.value > 0.0
  }

  /** `Number.isNaN(sleep) || sleep <= 0 || sleep > 24` fails. */
  predicate SleepOk(s: Option<real>) {
    s.Some? && 0.0 < s.value <= 24.0
  }

  /** A filled-in cycle length outside 15..60 fails. */
  predicate CycleOk(c: Option<int>) {
    c.None? || 15 <= c.value <= 60
  }

  /** A filled-in period length outside 1..15 fails. */
  predicate PeriodOk(p: Option<int>) {
    p.None? || 1 <= p.value <= 15
  }

  /** A filled-in date that is not `YYYY-MM-DD` fails. */
  predicate DateOk(d: Option<string>) {
    d.None? || d.value == "" || Text.IsIsoDateShape(d.value)
  }

  /** The five values the save reads from the inputs. */
  datatype ParsedInputs = ParsedInputs(weight: Option<real>, sleep: Option<real>, cycle: Option<int>,
                                       period: Option<int>, lastPeriod: Option<string>)

  function Parse(profile: UserProfile, inputs: EditInputs): ParsedInputs {
    ParsedInputs(DecimalInput(inputs.weight, profile.weightKg), DecimalInput(inputs.sleep, profile.sleepHours),
                 WholeInput(inputs.cycleLength), WholeInput(inputs.periodLength), DateInput(inputs.lastPeriod))
  }

  /** `handleSave`. The checks run in order and the first one that fails is the
      only error reported; after all pass, exactly the six edited fields change. */
  function HandleSave(profile: UserProfile, inputs: EditInputs): (r: SaveOutcome)
    ensures var q := Parse(profile, inputs);
            r == Rejected(WeightError) <==> !WeightOk(q.weight)
    ensures var q := Parse(profile, inputs);
            r == Rejected(SleepError) <==> WeightOk(q.weight) && !SleepOk(q.sleep)
    ensures var q := Parse(profile, inputs);
            r == Rejected(CycleError) <==> WeightOk(q.weight) && SleepOk(q.sleep) && !CycleOk(q.cycle)
    ensures var q := Parse(profile, inputs);
            r == Rejected(PeriodError) <==>
              WeightOk(q.weight) && SleepOk(q.sleep) && CycleOk(q.cycle) && !PeriodOk(q.period)
    ensures var q := Parse(profile, inputs);
            r == Rejected(DateError) <==>
              WeightOk(q.weight) && SleepOk(q.sleep) && CycleOk(q.cycle) && PeriodOk(q.period) && !DateOk(q.lastPeriod)
    ensures var q := Parse(profile, inputs);
            r.Saved? <==>
              WeightOk(q.weight) && SleepOk(q.sleep) && CycleOk(q.cycle) && PeriodOk(q.period) && DateOk(q.lastPeriod)
    ensures var q := Parse(profile, inputs);
            r.Saved? ==>
              WeightOk(q.weight) && SleepOk(q.sleep) &&
              r.profile == profile.(weightKg := q.weight.value, sleepHours := q.sleep.value, stressLevel := inputs.stress,
                                    cycleLengthDays := q.cycle, periodLengthDays := q.period, lastPeriodDate := q.lastPeriod)
  {
    var w := DecimalInput(inputs.weight, profile.weightKg);
    var s := DecimalInput(inputs.sleep, profile.sleepHours);
    if !WeightOk(w) then Rejected(WeightError)
    else if !SleepOk(s) then Rejected(SleepError)
    else
      var c := WholeInput(inputs.cycleLength);
      var p := WholeInput(inputs.periodLength);
      var d := DateInput(inputs.lastPeriod);
      if !CycleOk(c) then Rejected(CycleError)
      else if !PeriodOk(p) then Rejected(PeriodError)
      else if !DateOk(d) then Rejected(DateError)
      else
        Saved(profile.(weightKg := w.value, sleepHours := s.value, stressLevel := inputs.stress,
                       cycleLengthDays := c, periodLengthDays := p, lastPeriodDate := d))
  }

  /** Leaving weight and sleep blank keeps the stored values, as long as those are
      valid themselves. */
  lemma BlankKeepsWeightAndSleep(profile: UserProfile, inputs: EditInputs)
    requires Text.Trim(inputs.weight) == [] && Text.Trim(inputs.sleep) == []
    requires profile.weightKg > 0.0 && 0.0 < profile.sleepHours <= 24.0
    requires HandleSave(profile, inputs).Saved?
    ensures HandleSave(profile, inputs).profile.weightKg == profile.weightKg
    ensures HandleSave(profile, inputs).profile.sleepHours == profile.sleepHours
  {
  }

  /** A saved profile always satisfies every check the screen makes. */
  lemma SavedProfileIsValid(profile: UserProfile, inputs: EditInputs)
    requires HandleSave(profile, inputs).Saved?
    ensures var q := HandleSave(profile, inputs).profile;
            q.weightKg > 0.0 && 0.0 < q.sleepHours <= 24.0 && CycleOk(q.cycleLengthDays) &&
            PeriodOk(q.periodLengthDays) && DateOk(q.lastPeriodDate)
  {
  }

  /** Saving twice with the same inputs saves the same profile: the edited fields
      are taken from the inputs, not from the profile, once they are filled in. */
  lemma SaveIsStable(profile: UserProfile, inputs: EditInputs)
    requires Text.Trim(inputs.weight) != [] && Text.Trim(inputs.sleep) != []
    requires HandleSave(profile, inputs).Saved?
    ensures HandleSave(HandleSave(profile, inputs).profile, inputs) == HandleSave(profile, inputs)
  {
  }

  /** A cycle entry that is not blank but holds no digit is read as 0 and so
      rejected as a cycle length, not ignored. */
  lemma NoDigitsCycleRejected(profile: UserProfile, inputs: EditInputs)
    requires Text.Trim(inputs.cycleLength) != [] && Text.KeepChars(inputs.cycleLength, false) == []
    requires WeightOk(DecimalInput(inputs.weight, profile.weightKg))
    requires SleepOk(DecimalInput(inputs.sleep, profile.sleepHours))
    ensures HandleSave(profile, inputs) == Rejected(CycleError)
  {
  }
}
