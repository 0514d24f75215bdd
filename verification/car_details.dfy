/**
 * Step 1 of the wizard (src/components/quote-steps/CarDetailsStep.tsx): the car is described
 * either by year, make, model and body type, or by its registration number. Which of the two
 * is on screen is state local to the step.
 */
module CarDetails {
  import opened Wrappers
  import opened QuoteData
  import JsText

  /** `carYears`: "2025" down to "2000". */
  function CarYears(): (years: seq<string>)
    ensures |years| == 26
    ensures forall i :: 0 <= i < 26 ==> years[i] == JsText.NatToString(2025 - i)
  {
    seq(26, i requires 0 <= i < 26 => JsText.NatToString(2025 - i))
  }

  /** The year options start at "2025" and end at "2000". */
  lemma CarYearsRange()
    ensures CarYears()[0] == "2025" && CarYears()[25] == "2000"
  {
    assert JsText.NatToString(20) == "20" && JsText.NatToString(202) == "202";
    assert JsText.NatToString(200) == "200";
  }

  /** Every year option parses back to its year, and no year is offered twice. */
  lemma CarYearsParse()
    ensures forall i :: 0 <= i < 26 ==> JsText.ParseInt(CarYears()[i]) == Some(2025 - i)
    ensures forall i, j :: 0 <= i < j < 26 ==> CarYears()[i] != CarYears()[j]
  {
    forall i | 0 <= i < 26
      ensures JsText.ParseInt(CarYears()[i]) == Some(2025 - i)
    {
      JsText.ParseIntOfNatToString(2025 - i);
    }
  }

  /** `isValid`: the fields of the mode on screen are filled in. */
  predicate IsValid(data: Record, useRegistration: bool) {
    if useRegistration then Holds(data, Registration)
    else Holds(data, CarYear) && Holds(data, CarMake) && Holds(data, CarModel) && Holds(data, BodyType)
  }

  /**
   * `handleNext`: when the fields of the mode on screen are filled in, the update to send
   * (the mode, recorded as `useRegistration`) before moving on; otherwise nothing happens.
   */
  function HandleNext(data: Record, useRegistration: bool): (patch: Option<Record>)
    ensures patch.Some? <==> IsValid(data, useRegistration)
    ensures patch.Some? ==> patch.value == Set(UseRegistration, Bool(useRegistration))
  {
    if useRegistration && Holds(data, Registration) then
      Some(Set(UseRegistration, Bool(true)))
    else if !useRegistration && Holds(data, CarYear) && Holds(data, CarMake)
            && Holds(data, CarModel) && Holds(data, BodyType) then
      Some(Set(UseRegistration, Bool(false)))
    else
      None
  }

  /** The registration input's update: the typed text, upper-cased. */
  function RegistrationPatch(typed: string): (patch: Record)
    ensures patch.Keys == {Registration}
    ensures patch[Registration].Str? && patch[Registration].s == JsText.ToUpper(typed)
  {
    Set(Registration, Str(JsText.ToUpper(typed)))
  }

  /**
   * Typing the stored registration back in leaves the record as it is: the stored text is
   * already upper case.
   */
  lemma RegistrationReentryIsStable(data: Record, typed: string)
    ensures var once := Merge(data, RegistrationPatch(typed));
            Merge(once, RegistrationPatch(once[Registration].s)) == once
  {
    JsText.ToUpperIdempotent(typed);
  }

  /** The manual mode is satisfied by the four answers, whatever else the record holds. */
  lemma ManualModeNeedsAllFour(data: Record, year: string, make: string, model: string, body: string)
    requires year != "" && make != "" && model != "" && body != ""
    ensures IsValid(Merge(data, map[CarYear := Str(year), CarMake := Str(make), CarModel := Str(model), BodyType := Str(body)]), false)
  {
  }

  /**
   * A registration does not stand in for a missing manual answer: with any one of the four
   * unanswered, storing any registration leaves the manual mode invalid, while the
   * registration mode accepts exactly a non-empty registration.
   */
  lemma RegistrationDoesNotReplaceManualFields(data: Record, registration: string)
    requires !Holds(data, CarYear) || !Holds(data, CarMake) || !Holds(data, CarModel) || !Holds(data, BodyType)
    ensures !IsValid(data[Registration := Str(registration)], false)
    ensures IsValid(data[Registration := Str(registration)], true) <==> registration != ""
  {
  }

  /** The local state of the step: which of the two modes is on screen. */
  class CarDetailsForm {
    var useRegistration: bool

    /** `useState(data.useRegistration || false)` */
    constructor (data: Record)
      ensures useRegistration == Holds(data, UseRegistration)
    {
      useRegistration := Holds(data, UseRegistration);
    }

    /**
     * The mode radio group: only the local flag changes. The record, and in it the other
     * mode's answers and `useRegistration`, is not touched, because nothing is sent.
     */
    method SelectMode(value: string)
      modifies this
      ensures useRegistration == (value == "registration")
    {
      useRegistration := value == "registration";
    }
  }
}
