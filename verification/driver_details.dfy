/**
 * Step 4 of the wizard (src/components/quote-steps/DriverDetailsStep.tsx): the main driver's
 * gender, age, age when licensed and accident history, and the driving-experience panel.
 */
module DriverDetails {
  import opened Wrappers
  import opened QuoteData
  import JsText

  /** The age and licence-age options: 16 up to 99. */
  function AgeOptions(): (ages: seq<int>)
    ensures |ages| == 84
    ensures forall i :: 0 <= i < 84 ==> ages[i] == i + 16
  {
    seq(84, i => i + 16)
  }

  /** The options are exactly the whole numbers from 16 to 99. */
  lemma AgeOptionsAreSixteenToNinetyNine(a: int)
    ensures a in AgeOptions() <==> 16 <= a <= 99
  {
    if 16 <= a <= 99 {
      assert AgeOptions()[a - 16] == a;
    }
  }

  /** The values of the gender select's items. */
  const GenderValues: seq<string> := ["male", "female", "other", "prefer-not-to-say"]

  /** `isValid`: a gender, a non-zero age and licence age, and an accident answer. */
  predicate IsValid(data: Record) {
    Holds(data, Gender) && Holds(data, Age) && Holds(data, LicenseAge) && Defined(data, HasAccidents)
  }

  function GenderPatch(value: string): (patch: Record)
    ensures patch.Keys == {Gender} && patch[Gender] == Str(value)
  {
    Set(Gender, Str(value))
  }

  /** The age select: `parseInt(value)`. */
  function AgePatch(value: string): (patch: Record)
    ensures patch.Keys == {Age} && patch[Age] == NumberValue(JsText.ParseInt(value))
  {
    Set(Age, NumberValue(JsText.ParseInt(value)))
  }

  /** The licence-age select: `parseInt(value)`. */
  function LicenseAgePatch(value: string): (patch: Record)
    ensures patch.Keys == {LicenseAge} && patch[LicenseAge] == NumberValue(JsText.ParseInt(value))
  {
    Set(LicenseAge, NumberValue(JsText.ParseInt(value)))
  }

  /** The accident radio group: `value === "yes"`. */
  function AccidentsPatch(value: string): (patch: Record)
    ensures patch.Keys == {HasAccidents} && patch[HasAccidents].Bool?
    ensures patch[HasAccidents].b <==> value == "yes"
  {
    Set(HasAccidents, Bool(value == "yes"))
  }

  /** Picking an age option, or any other whole number's text, stores that number. */
  lemma AgeOptionStoresItsNumber(a: nat)
    ensures AgePatch(JsText.NatToString(a)) == Set(Age, Num(a))
    ensures LicenseAgePatch(JsText.NatToString(a)) == Set(LicenseAge, Num(a))
  {
    JsText.ParseIntOfNatToString(a);
  }

  /** A gender, two non-zero ages and any accident answer make the step valid. */
  lemma AnsweredValuesMakeValid(data: Record, gender: string, age: int, licenseAge: int, accidents: string)
    requires gender != "" && age != 0 && licenseAge != 0
    ensures IsValid(Merge(Merge(Merge(Merge(data, GenderPatch(gender)), Set(Age, Num(age))),
                                Set(LicenseAge, Num(licenseAge))), AccidentsPatch(accidents)))
  {
  }

  /** Answering the four inputs from the option lists makes the step valid. */
  lemma AnsweringAllMakesValid(data: Record, gender: string, age: int, licenseAge: int, accidents: string)
    requires gender in GenderValues && age in AgeOptions() && licenseAge in AgeOptions()
    ensures IsValid(Merge(Merge(Merge(Merge(data, GenderPatch(gender)), AgePatch(JsText.NatToString(age))),
                                LicenseAgePatch(JsText.NatToString(licenseAge))), AccidentsPatch(accidents)))
  {
    AgeOptionsAreSixteenToNinetyNine(age);
    AgeOptionsAreSixteenToNinetyNine(licenseAge);
    AgeOptionStoresItsNumber(age);
    AgeOptionStoresItsNumber(licenseAge);
    AnsweredValuesMakeValid(data, gender, age, licenseAge, accidents);
  }

  /** The step does not require the licence age to be at most the age. */
  lemma LicenceAfterAgeStillValid(gender: string, age: int, licenseAge: int, accidents: bool)
    requires gender != "" && 0 < age < licenseAge
    ensures IsValid(map[Gender := Str(gender), Age := Num(age), LicenseAge := Num(licenseAge), HasAccidents := Bool(accidents)])
  {
  }

  /** The experience panel shows when both ages are stored numbers of at least 16. */
  predicate ShowsExperience(data: Record) {
    && NumberIn(data, Age).Some? && NumberIn(data, LicenseAge).Some?
    && NumberIn(data, Age).value >= 16 && NumberIn(data, LicenseAge).value >= 16
  }

  /** The experience the panel displays: `Math.max(0, age - licenseAge)`. */
  function ExperienceShown(data: Record): (years: Option<int>)
    ensures years.Some? <==> ShowsExperience(data)
    ensures years.Some? ==> years.value >= 0
    ensures years.Some? ==> years.value >= NumberIn(data, Age).value - NumberIn(data, LicenseAge).value
    ensures years.Some? && years.value > 0 ==> years.value == NumberIn(data, Age).value - NumberIn(data, LicenseAge).value
  {
    if ShowsExperience(data) then
      var gap := NumberIn(data, Age).value - NumberIn(data, LicenseAge).value;
      Some(if gap > 0 then gap else 0)
    else None
  }

  /** The inexperience note: the raw difference of the two ages is below 2. */
  predicate ShowsInexperienceWarning(data: Record) {
    ShowsExperience(data) && NumberIn(data, Age).value - NumberIn(data, LicenseAge).value < 2
  }

  /** The note shows exactly when the displayed experience is below two years. */
  lemma WarningIffShownExperienceBelowTwo(data: Record)
    ensures ShowsInexperienceWarning(data) <==> ExperienceShown(data).Some? && ExperienceShown(data).value < 2
  {
  }

  /** A licence age above the age displays 0 years and the note. */
  lemma LicenceAfterAgeShowsZero()
    ensures var data := map[Age := Num(20), LicenseAge := Num(30)];
            ExperienceShown(data) == Some(0) && ShowsInexperienceWarning(data)
  {
  }
}
