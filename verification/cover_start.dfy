/**
 * Step 3 of the wizard (src/components/quote-steps/CoverStartStep.tsx): the start date of the
 * cover, picked from a calendar that offers today up to 42 days ahead. Instants are
 * millisecond timestamps; `today` is the clock reading taken when the step renders.
 */
module CoverStart {
  import opened QuoteData

  const MsPerDay: int := 86_400_000
  const WindowDays: int := 42

  /** `maxDate`: today plus 42 days. */
  function MaxDate(today: int): (max: int)
    ensures max - today == WindowDays * MsPerDay
  {
    today + WindowDays * MsPerDay
  }

  /** The calendar's `disabled` test. */
  predicate Disabled(date: int, today: int) {
    date < today || date > MaxDate(today)
  }

  /** The selectable instants are exactly the closed interval from today to today + 42 days. */
  lemma SelectableWindow(date: int, today: int)
    ensures !Disabled(date, today) <==> today <= date <= today + 42 * MsPerDay
  {
  }

  /** Day 42 after today is still offered; day 43 is not, and neither is yesterday. */
  lemma WindowBoundaries(today: int)
    ensures !Disabled(today, today) && !Disabled(today + 42 * MsPerDay, today)
    ensures Disabled(today + 43 * MsPerDay, today) && Disabled(today - MsPerDay, today)
  {
  }

  /** `isValid`: some date is stored. The window is not checked again here. */
  predicate IsValid(data: Record) {
    Holds(data, CoverStartDate)
  }

  /** Selecting a date stores it as given. */
  function SelectPatch(date: int): (patch: Record)
    ensures patch.Keys == {CoverStartDate} && patch[CoverStartDate] == Date(date)
  {
    Set(CoverStartDate, Date(date))
  }

  /**
   * Any stored date makes the step valid, including one outside today's window (a date
   * picked on an earlier day, say), and selecting leaves every other answer alone.
   */
  lemma AnyStoredDateIsValid(data: Record, date: int, today: int)
    ensures IsValid(Merge(data, SelectPatch(date)))
    ensures Disabled(today + 43 * MsPerDay, today) && IsValid(Merge(data, SelectPatch(today + 43 * MsPerDay)))
    ensures forall f :: f in data && f != CoverStartDate ==> Merge(data, SelectPatch(date))[f] == data[f]
  {
  }
}
