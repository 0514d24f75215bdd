/**
 * Step 5 of the wizard (src/components/quote-steps/AdditionalDriversStep.tsx): whether other
 * people drive the car and, if so, a list of them. The list is state local to the step; every
 * change to it is also sent to the record as `additionalDrivers`.
 */
module AdditionalDrivers {
  import opened Wrappers
  import opened QuoteData
  import JsText

  /** The entry `addDriver` appends. */
  const NewDriver: Driver := Driver("", 16, 0)

  /** A call `updateDriver(index, field, value)` names one field and its new value. */
  datatype DriverEdit = SetName(name: string) | SetAge(age: int) | SetExperience(years: int)

  /** `{ ...driver, [field]: value }` */
  function Edited(d: Driver, edit: DriverEdit): Driver {
    match edit
    case SetName(name) => d.(name := name)
    case SetAge(age) => d.(age := age)
    case SetExperience(years) => d.(experience := years)
  }

  /** An edit changes its own field of the entry and leaves the other two as they were. */
  lemma EditChangesOneField(d: Driver, edit: DriverEdit)
    ensures edit.SetName? ==> Edited(d, edit).name == edit.name
    ensures edit.SetAge? ==> Edited(d, edit).age == edit.age
    ensures edit.SetExperience? ==> Edited(d, edit).experience == edit.years
    ensures !edit.SetName? ==> Edited(d, edit).name == d.name
    ensures !edit.SetAge? ==> Edited(d, edit).age == d.age
    ensures !edit.SetExperience? ==> Edited(d, edit).experience == d.experience
  {
  }

  /**
   * `drivers.filter((_, i) => i !== index)`, walking the list with `position` the index of
   * its first entry.
   */
  function FilterOutIndex(s: seq<Driver>, index: int, position: int): seq<Driver>
    decreases |s|
  {
    if s == [] then []
    else (if position != index then [s[0]] else []) + FilterOutIndex(s[1..], index, position + 1)
  }

  /**
   * Filtering out an index in range drops exactly that entry and keeps the others in order;
   * an index out of range leaves the list as it is.
   */
  lemma {:induction false} FilterOutIndexRemovesOne(s: seq<Driver>, index: int, position: int)
    ensures position <= index < position + |s| ==>
      FilterOutIndex(s, index, position) == s[..index - position] + s[index - position + 1..]
    ensures !(position <= index < position + |s|) ==> FilterOutIndex(s, index, position) == s
    decreases |s|
  {
    if s != [] {
      FilterOutIndexRemovesOne(s[1..], index, position + 1);
      if position == index {
        assert s[..0] + s[1..] == s[1..];
      } else if position < index < position + |s| {
        assert s[..index - position] == [s[0]] + s[1..][..index - position - 1];
        assert s[index - position + 1..] == s[1..][index - position..];
      } else {
        assert s == [s[0]] + s[1..];
      }
    }
  }

  /** The age input: `parseInt(text) || 16`, so NaN and 0 both fall back to 16. */
  function AgeInput(typed: string): (age: int)
    ensures age != 0
    ensures JsText.ParseInt(typed).Some? && JsText.ParseInt(typed).value != 0 ==> age == JsText.ParseInt(typed).value
    ensures JsText.ParseInt(typed).None? || JsText.ParseInt(typed).value == 0 ==> age == 16
  {
    match JsText.ParseInt(typed)
    case Some(n) => if n != 0 then n else 16
    case None => 16
  }

  /** The experience input: `parseInt(text) || 0`, so NaN falls back to 0. */
  function ExperienceInput(typed: string): (years: int)
    ensures JsText.ParseInt(typed).Some? ==> years == JsText.ParseInt(typed).value
    ensures JsText.ParseInt(typed).None? ==> years == 0
  {
    match JsText.ParseInt(typed)
    case Some(n) => n
    case None => 0
  }

  /** Typed text without digits, and "0", give age 16; any whole number gives itself. */
  lemma AgeInputFallbacks(typed: string, n: nat)
    requires forall i :: 0 <= i < |typed| ==> !JsText.IsDecimalDigit(typed[i])
    ensures AgeInput(typed) == 16 && AgeInput("0") == 16
    ensures ExperienceInput(typed) == 0
    ensures n != 0 ==> AgeInput(JsText.NatToString(n)) == n
    ensures ExperienceInput(JsText.NatToString(n)) == n
  {
    JsText.ParseIntWithoutDigits(typed);
    JsText.ParseIntOfNatToString(0);
    JsText.ParseIntOfNatToString(n);
  }

  /** Every entry has a name and is at least 16. */
  predicate AllComplete(drivers: seq<Driver>) {
    forall i :: 0 <= i < |drivers| ==> drivers[i].name != "" && drivers[i].age >= 16
  }

  /**
   * `isValid`: the yes/no question is answered, and after "yes" there is at least one entry
   * and every entry is complete.
   */
  predicate IsValid(data: Record, drivers: seq<Driver>) {
    Defined(data, HasAdditionalDrivers)
    && (!Holds(data, HasAdditionalDrivers) || (|drivers| > 0 && AllComplete(drivers)))
  }

  /** The young-driver notice: "yes" was answered and some entry is under 25. */
  predicate ShowsYoungNotice(data: Record, drivers: seq<Driver>) {
    Holds(data, HasAdditionalDrivers) && exists i :: 0 <= i < |drivers| && drivers[i].age < 25
  }

  /** After "yes", an empty list blocks the step and one named adult unblocks it. */
  lemma YesNeedsACompleteEntry(data: Record)
    requires HasAdditionalDrivers in data && data[HasAdditionalDrivers] == Bool(true)
    ensures !IsValid(data, [])
    ensures IsValid(data, [Driver("Jane", 30, 0)])
  {
  }

  /** A freshly added entry has no name, so it blocks the step until it is named. */
  lemma NewEntryBlocksUntilNamed(data: Record, drivers: seq<Driver>, name: string)
    requires Holds(data, HasAdditionalDrivers) && AllComplete(drivers) && name != ""
    ensures !IsValid(data, drivers + [NewDriver])
    ensures IsValid(data, (drivers + [NewDriver])[|drivers| := Edited(NewDriver, SetName(name))])
  {
    assert (drivers + [NewDriver])[|drivers|].name == "";
    var ds := (drivers + [NewDriver])[|drivers| := Edited(NewDriver, SetName(name))];
    assert ds[|drivers|].name == name && ds[|drivers|].age == 16;
    assert forall i :: 0 <= i < |drivers| ==> ds[i] == drivers[i];
  }

  /** After "no", the step is valid whatever the list holds. */
  lemma NoIsAlwaysValid(data: Record, drivers: seq<Driver>)
    requires HasAdditionalDrivers in data && data[HasAdditionalDrivers] == Bool(false)
    ensures IsValid(data, drivers)
    ensures !ShowsYoungNotice(data, drivers)
  {
  }

  /** The local list of the step, kept equal to what it last sent as `additionalDrivers`. */
  class AdditionalDriversForm {
    var drivers: seq<Driver>

    /** `useState(data.additionalDrivers || [])` */
    constructor (data: Record)
      ensures drivers == DriversIn(data)
    {
      drivers := DriversIn(data);
    }

    /** `addDriver`: append one blank entry; the new list is also the update sent. */
    method AddDriver() returns (patch: Record)
      modifies this
      ensures drivers == old(drivers) + [NewDriver]
      ensures patch == Set(AdditionalDrivers, Drivers(drivers))
    {
      drivers := drivers + [NewDriver];
      patch := Set(AdditionalDrivers, Drivers(drivers));
    }

    /** `removeDriver(index)`: drop entry `index`, keeping the others in order. */
    method RemoveDriver(index: int) returns (patch: Record)
      modifies this
      ensures 0 <= index < |old(drivers)| ==>
        |drivers| == |old(drivers)| - 1 && drivers == old(drivers)[..index] + old(drivers)[index + 1..]
      ensures !(0 <= index < |old(drivers)|) ==> drivers == old(drivers)
      ensures patch == Set(AdditionalDrivers, Drivers(drivers))
    {
      FilterOutIndexRemovesOne(drivers, index, 0);
      drivers := FilterOutIndex(drivers, index, 0);
      patch := Set(AdditionalDrivers, Drivers(drivers));
    }

    /** `updateDriver(index, field, value)`: one field of one entry changes. */
    method UpdateDriver(index: int, edit: DriverEdit) returns (patch: Record)
      requires 0 <= index < |drivers|
      modifies this
      ensures |drivers| == |old(drivers)|
      ensures drivers[index] == Edited(old(drivers)[index], edit)
      ensures forall i :: 0 <= i < |drivers| && i != index ==> drivers[i] == old(drivers)[i]
      ensures patch == Set(AdditionalDrivers, Drivers(drivers))
    {
      drivers := drivers[index := Edited(drivers[index], edit)];
      patch := Set(AdditionalDrivers, Drivers(drivers));
    }

    /**
     * `handleHasDriversChange`: record the answer; on "no" also empty the list, locally and in
     * the record. The two updates the source sends in a row are returned as one (see
     * `QuoteData.MergeTwice`).
     */
    method HandleHasDriversChange(hasDrivers: bool) returns (patch: Record)
      modifies this
      ensures hasDrivers ==> drivers == old(drivers) && patch == Set(HasAdditionalDrivers, Bool(true))
      ensures !hasDrivers ==> drivers == []
                              && patch == Merge(Set(HasAdditionalDrivers, Bool(false)), Set(AdditionalDrivers, Drivers([])))
    {
      patch := Set(HasAdditionalDrivers, Bool(hasDrivers));
      if !hasDrivers {
        drivers := [];
        patch := Merge(patch, Set(AdditionalDrivers, Drivers([])));
      }
    }
  }
}
