/**
 * Step 6 of the wizard (src/components/quote-steps/ExcessInfoStep.tsx): an informational page
 * that estimates the main driver's excess from the answers given so far and shows warning
 * cards. It asks for nothing, so its Next button is never disabled.
 */
module ExcessInfo {
  import opened Wrappers
  import opened QuoteData

  const BasicExcess: int := 500
  const YoungDriverExcess: int := 400
  const InexperiencedDriverExcess: int := 400
  const UnlistedDriverExcess: int := 1600

  /** `data.age || 25`: the stored age, or 25 when it is missing, zero or NaN. */
  function MainDriverAge(data: Record): (age: int)
    ensures age != 0
    ensures NumberIn(data, Age).Some? && NumberIn(data, Age).value != 0 ==> age == NumberIn(data, Age).value
    ensures NumberIn(data, Age).None? || NumberIn(data, Age).value == 0 ==> age == 25
  {
    match NumberIn(data, Age)
    case Some(n) => if n != 0 then n else 25
    case None => 25
  }

  /** Both ages stored as non-zero numbers. */
  predicate BothAgesKnown(data: Record) {
    && NumberIn(data, Age).Some? && NumberIn(data, Age).value != 0
    && NumberIn(data, LicenseAge).Some? && NumberIn(data, LicenseAge).value != 0
  }

  /** `age && licenseAge ? age - licenseAge : 5` */
  function DrivingExperience(data: Record): (years: int)
    ensures BothAgesKnown(data) ==> years == NumberIn(data, Age).value - NumberIn(data, LicenseAge).value
    ensures !BothAgesKnown(data) ==> years == 5
  {
    if BothAgesKnown(data) then NumberIn(data, Age).value - NumberIn(data, LicenseAge).value else 5
  }

  /** Some listed additional driver is under 25. */
  predicate HasYoungDrivers(data: Record) {
    exists i :: 0 <= i < |DriversIn(data)| && DriversIn(data)[i].age < 25
  }

  /** Some listed additional driver has under 2 years of experience, or the main driver has. */
  predicate HasInexperiencedDrivers(data: Record) {
    (exists i :: 0 <= i < |DriversIn(data)| && DriversIn(data)[i].experience < 2)
    || DrivingExperience(data) < 2
  }

  /** The young-driver card. */
  predicate ShowsYoungCard(data: Record) {
    MainDriverAge(data) < 25 || HasYoungDrivers(data)
  }

  /** The inexperienced-driver card. */
  predicate ShowsInexperiencedCard(data: Record) {
    HasInexperiencedDrivers(data)
  }

  /**
   * The main driver's total: the basic excess plus 400 when the main driver is under 25 plus
   * 400 when the main driver has under two years of experience. The surcharges add up
   * independently and the unlisted-driver excess is never part of it.
   */
  function TotalExcess(data: Record): (total: int)
    ensures total == 500 || total == 900 || total == 1300
    ensures total >= BasicExcess && total < UnlistedDriverExcess
    ensures total == 1300 <==> MainDriverAge(data) < 25 && DrivingExperience(data) < 2
    ensures total == 500 <==> MainDriverAge(data) >= 25 && DrivingExperience(data) >= 2
  {
    BasicExcess
    + (if MainDriverAge(data) < 25 then YoungDriverExcess else 0)
    + (if DrivingExperience(data) < 2 then InexperiencedDriverExcess else 0)
  }

  /** Age 22 licensed at 21 gives 1300; age 30 licensed at 20 gives 500; no answers give 500. */
  lemma TotalExamples()
    ensures TotalExcess(map[Age := Num(22), LicenseAge := Num(21)]) == 1300
    ensures TotalExcess(map[Age := Num(30), LicenseAge := Num(20)]) == 500
    ensures TotalExcess(map[]) == 500
  {
  }

  /** The additional-driver list never changes the total. */
  lemma TotalIgnoresAdditionalDrivers(data: Record, drivers: seq<Driver>)
    ensures TotalExcess(Merge(data, Set(AdditionalDrivers, Drivers(drivers)))) == TotalExcess(data)
  {
    var d := Merge(data, Set(AdditionalDrivers, Drivers(drivers)));
    assert NumberIn(d, Age) == NumberIn(data, Age);
    assert NumberIn(d, LicenseAge) == NumberIn(data, LicenseAge);
  }

  /** The young card shows exactly when the main driver or some listed driver is under 25. */
  lemma YoungCardIff(data: Record)
    ensures ShowsYoungCard(data) <==>
      MainDriverAge(data) < 25 || exists d :: d in DriversIn(data) && d.age < 25
  {
    if exists d :: d in DriversIn(data) && d.age < 25 {
      var d :| d in DriversIn(data) && d.age < 25;
      var i :| 0 <= i < |DriversIn(data)| && DriversIn(data)[i] == d;
    }
  }

  /** The inexperienced card shows exactly when the main driver or some listed driver has under 2 years. */
  lemma InexperiencedCardIff(data: Record)
    ensures ShowsInexperiencedCard(data) <==>
      DrivingExperience(data) < 2 || exists d :: d in DriversIn(data) && d.experience < 2
  {
    if exists d :: d in DriversIn(data) && d.experience < 2 {
      var d :| d in DriversIn(data) && d.experience < 2;
      var i :| 0 <= i < |DriversIn(data)| && DriversIn(data)[i] == d;
    }
  }

  /** A young additional driver shows the card without changing the total. */
  lemma YoungAdditionalDriverOnlyShowsCard(data: Record)
    requires MainDriverAge(data) >= 25
    ensures var d := Merge(data, Set(AdditionalDrivers, Drivers([Driver("Sam", 19, 3)])));
            ShowsYoungCard(d) && !ShowsYoungCard(Merge(data, Set(AdditionalDrivers, Drivers([]))))
            && TotalExcess(d) == TotalExcess(data)
  {
    var d := Merge(data, Set(AdditionalDrivers, Drivers([Driver("Sam", 19, 3)])));
    assert DriversIn(d)[0].age < 25;
    TotalIgnoresAdditionalDrivers(data, [Driver("Sam", 19, 3)]);
    TotalIgnoresAdditionalDrivers(data, []);
    var e := Merge(data, Set(AdditionalDrivers, Drivers([])));
    assert NumberIn(e, Age) == NumberIn(data, Age);
  }
}
