/**
 * The step-by-step quote form (src/components/InsuranceQuote.tsx): seven steps shown one at a
 * time, an answer record the steps add to, and a summary shown after the last step.
 *
 * `WizardState` and the functions on it are the specification; the class `InsuranceQuote`
 * holds the component's three pieces of state and each of its methods is proved to move that
 * state as the matching function does.
 */
module Wizard {
  import opened Wrappers
  import opened QuoteData
  import CarDetails
  import LocationUsage
  import CoverStart
  import DriverDetails
  import AdditionalDrivers
  import CoverType

  /** An entry of the `steps` table; its icon is left out. */
  datatype StepInfo = StepInfo(id: int, title: string)

  const Steps: seq<StepInfo> := [
    StepInfo(1, "Car Details"),
    StepInfo(2, "Location & Usage"),
    StepInfo(3, "Cover Start"),
    StepInfo(4, "Driver Details"),
    StepInfo(5, "Additional Drivers"),
    StepInfo(6, "Excess Options"),
    StepInfo(7, "Choose Cover")
  ]

  /** `steps.length` */
  const StepCount: int := |Steps|

  /** Seven steps whose ids count from 1, so `steps[currentStep - 1]` is the current step. */
  lemma StepIdsCountFromOne()
    ensures StepCount == 7
    ensures forall i :: 0 <= i < |Steps| ==> Steps[i].id == i + 1
  {
  }

  /** The component's state: `currentStep`, `quoteData` and `showSummary`. */
  datatype WizardState = WizardState(step: int, data: Record, showSummary: bool)

  /** `useState(1)`, `useState({})`, `useState(false)` */
  const Initial: WizardState := WizardState(1, map[], false)

  predicate InRange(s: WizardState) {
    1 <= s.step <= StepCount
  }

  /** `updateQuoteData(patch)`: `{ ...prev, ...patch }`. */
  function Update(s: WizardState, patch: Record): (t: WizardState)
    ensures t.step == s.step && t.showSummary == s.showSummary
    ensures t.data.Keys == s.data.Keys + patch.Keys
    ensures forall f :: f in patch ==> t.data[f] == patch[f]
    ensures forall f :: f in s.data && f !in patch ==> t.data[f] == s.data[f]
  {
    s.(data := Merge(s.data, patch))
  }

  /** `nextStep`: the following step, or the summary after the last step. */
  function Next(s: WizardState): (t: WizardState)
    ensures t.data == s.data
    ensures t.step == s.step || t.step == s.step + 1
  {
    if s.step < StepCount then s.(step := s.step + 1) else s.(showSummary := true)
  }

  /** `prevStep`: the preceding step; nothing happens on the first. */
  function Prev(s: WizardState): (t: WizardState)
    ensures t.data == s.data && t.showSummary == s.showSummary
    ensures t.step == s.step || t.step == s.step - 1
  {
    if s.step > 1 then s.(step := s.step - 1) else s
  }

  /** The summary's back button: `setShowSummary(false)`. */
  function LeaveSummary(s: WizardState): (t: WizardState)
    ensures !t.showSummary
    ensures t.step == s.step && t.data == s.data
  {
    s.(showSummary := false)
  }

  /** The step starts at 1 and no operation takes it outside 1..7. */
  lemma StepStaysInRange(s: WizardState, patch: Record)
    requires InRange(s)
    ensures InRange(Initial)
    ensures InRange(Next(s)) && InRange(Prev(s)) && InRange(Update(s, patch)) && InRange(LeaveSummary(s))
  {
  }

  /** Before the last step Next moves on by one; on the last it opens the summary and stays. */
  lemma NextMovesOnOrOpensSummary(s: WizardState)
    requires InRange(s)
    ensures s.step < 7 ==> Next(s) == s.(step := s.step + 1)
    ensures s.step == 7 ==> Next(s).step == 7 && Next(s).showSummary
  {
  }

  /** Prev moves back by one, except on the first step where nothing changes. */
  lemma PrevMovesBackOrStays(s: WizardState)
    requires InRange(s)
    ensures s.step > 1 ==> Prev(s) == s.(step := s.step - 1)
    ensures s.step == 1 ==> Prev(s) == s
  {
  }

  /** From steps 1 to 6, Next then Prev returns to the same state. */
  lemma PrevAfterNext(s: WizardState)
    requires 1 <= s.step <= 6
    ensures Prev(Next(s)) == s
  {
  }

  /** Leaving the summary after the last step returns to step 7 with every answer kept. */
  lemma LeaveSummaryReturnsToLastStep(s: WizardState)
    requires s.step == 7
    ensures LeaveSummary(Next(s)) == s.(showSummary := false)
  {
  }

  /**
   * A user action on the form: Back, Next whether or not the step is complete (`PressNext` is
   * the button gated by the step's test), or an answer.
   */
  datatype Action = Back | Forward | Answer(patch: Record)

  function Apply(s: WizardState, a: Action): WizardState {
    match a
    case Back => Prev(s)
    case Forward => Next(s)
    case Answer(patch) => Update(s, patch)
  }

  /** The state after a run of actions. */
  function Run(s: WizardState, actions: seq<Action>): WizardState
    decreases |actions|
  {
    if actions == [] then s else Run(Apply(s, actions[0]), actions[1..])
  }

  /** Only answers touch the record. */
  predicate NoAnswers(actions: seq<Action>) {
    forall i :: 0 <= i < |actions| ==> !actions[i].Answer?
  }

  /**
   * Any run of actions keeps the step within 1..7, never closes the summary, and a run of
   * Back and Next alone keeps every answer.
   */
  lemma {:induction false} RunStaysInRange(s: WizardState, actions: seq<Action>)
    requires InRange(s)
    ensures InRange(Run(s, actions))
    ensures s.showSummary ==> Run(s, actions).showSummary
    ensures NoAnswers(actions) ==> Run(s, actions).data == s.data
    decreases |actions|
  {
    if actions != [] {
      var t := Apply(s, actions[0]);
      StepStaysInRange(s, if actions[0].Answer? then actions[0].patch else map[]);
      assert NoAnswers(actions) ==> NoAnswers(actions[1..]) && t.data == s.data by {
        if NoAnswers(actions) {
          assert !actions[0].Answer?;
          forall i | 0 <= i < |actions[1..]|
            ensures !actions[1..][i].Answer?
          {
            assert actions[1..][i] == actions[i + 1];
          }
        }
      }
      RunStaysInRange(t, actions[1..]);
    }
  }

  /** `n` presses of Next. */
  function Forwards(n: nat): (actions: seq<Action>)
    ensures |actions| == n && NoAnswers(actions)
  {
    if n == 0 then [] else [Forward] + Forwards(n - 1)
  }

  /** `n` presses of Next move on `n` steps, stopping at step 7 and opening the summary there. */
  lemma {:induction false} ForwardsReachSummary(s: WizardState, n: nat)
    requires InRange(s)
    ensures Run(s, Forwards(n)).step == if s.step + n <= 7 then s.step + n else 7
    ensures Run(s, Forwards(n)).showSummary == (s.showSummary || s.step + n > 7)
    ensures Run(s, Forwards(n)).data == s.data
    decreases n
  {
    if n > 0 {
      assert Forwards(n)[0] == Forward && Forwards(n)[1..] == Forwards(n - 1);
      ForwardsReachSummary(Next(s), n - 1);
    }
  }

  /** From the start, six presses of Next reach step 7 and a seventh opens the summary. */
  lemma SevenNextsReachSummary()
    ensures Run(Initial, Forwards(6)) == WizardState(7, map[], false)
    ensures Run(Initial, Forwards(7)) == WizardState(7, map[], true)
  {
    ForwardsReachSummary(Initial, 6);
    ForwardsReachSummary(Initial, 7);
  }

  /** How a step indicator is drawn. */
  datatype StepStatus = Completed | Current | Upcoming

  /** `isCompleted = step.id < currentStep`, `isCurrent = step.id === currentStep` */
  function StatusOf(id: int, currentStep: int): (st: StepStatus)
    ensures st == Completed <==> id < currentStep
    ensures st == Current <==> id == currentStep
    ensures st == Upcoming <==> id > currentStep
  {
    if id < currentStep then Completed else if id == currentStep then Current else Upcoming
  }

  /** Exactly one indicator is current, and the completed ones are the steps before it. */
  lemma ExactlyOneCurrent(currentStep: int)
    requires 1 <= currentStep <= StepCount
    ensures exists i :: 0 <= i < |Steps| && StatusOf(Steps[i].id, currentStep) == Current
    ensures forall i, j ::
      (0 <= i < |Steps| && 0 <= j < |Steps| && StatusOf(Steps[i].id, currentStep) == Current
       && StatusOf(Steps[j].id, currentStep) == Current) ==> i == j
    ensures forall i, j :: 0 <= i < j < |Steps| && StatusOf(Steps[j].id, currentStep) == Completed ==>
      StatusOf(Steps[i].id, currentStep) == Completed
  {
    StepIdsCountFromOne();
    assert StatusOf(Steps[currentStep - 1].id, currentStep) == Current;
  }

  /**
   * Whether the current step's Next button is enabled. The car step's entry mode and the
   * additional-driver list are state local to those steps and are passed in.
   */
  predicate StepReady(step: int, data: Record, useRegistration: bool, drivers: seq<Driver>) {
    if step == 1 then CarDetails.IsValid(data, useRegistration)
    else if step == 2 then LocationUsage.IsValid(data)
    else if step == 3 then CoverStart.IsValid(data)
    else if step == 4 then DriverDetails.IsValid(data)
    else if step == 5 then AdditionalDrivers.IsValid(data, drivers)
    else if step == 6 then true
    else if step == 7 then CoverType.IsValid(data)
    else false
  }

  /**
   * Pressing the current step's Next button. A disabled button does nothing; the car step
   * first records its entry mode; every step then calls `nextStep`.
   */
  function PressNext(s: WizardState, useRegistration: bool, drivers: seq<Driver>): (t: WizardState)
    ensures t.showSummary == s.showSummary || (s.step == 7 && t.showSummary)
  {
    if s.showSummary || !StepReady(s.step, s.data, useRegistration, drivers) then s
    else if s.step == 1 then
      match CarDetails.HandleNext(s.data, useRegistration)
      case Some(patch) => Next(Update(s, patch))
      case None => s
    else Next(s)
  }

  /** On a step, Next moves on exactly when the step's requirements are met. */
  lemma PressNextAdvancesIffReady(s: WizardState, useRegistration: bool, drivers: seq<Driver>)
    requires InRange(s) && !s.showSummary
    ensures var t := PressNext(s, useRegistration, drivers);
            (t.step == s.step + 1 || t.showSummary) <==> StepReady(s.step, s.data, useRegistration, drivers)
  {
  }

  /** The summary opens only from step 7 with a cover type chosen. */
  lemma SummaryNeedsCoverType(s: WizardState, useRegistration: bool, drivers: seq<Driver>)
    requires InRange(s) && !s.showSummary
    requires PressNext(s, useRegistration, drivers).showSummary
    ensures s.step == 7 && CoverType.IsValid(s.data)
  {
  }

  /** Next keeps every answer; the car step adds only its entry mode. */
  lemma PressNextKeepsAnswers(s: WizardState, useRegistration: bool, drivers: seq<Driver>)
    requires InRange(s)
    ensures var t := PressNext(s, useRegistration, drivers);
            s.step != 1 ==> t.data == s.data
    ensures var t := PressNext(s, useRegistration, drivers);
            forall f :: f != UseRegistration ==> (f in t.data <==> f in s.data) && (f in s.data ==> t.data[f] == s.data[f])
  {
  }

  /** The wizard component. */
  class InsuranceQuote {
    var currentStep: int
    var quoteData: Record
    var showSummary: bool

    function State(): WizardState
      reads this
    {
      WizardState(currentStep, quoteData, showSummary)
    }

    predicate Valid()
      reads this
    {
      InRange(State())
    }

    constructor ()
      ensures State() == Initial && Valid()
    {
      currentStep := 1;
      quoteData := map[];
      showSummary := false;
    }

    /** `updateQuoteData` */
    method UpdateQuoteData(patch: Record)
      requires Valid()
      modifies this
      ensures Valid() && State() == Update(old(State()), patch)
    {
      quoteData := Merge(quoteData, patch);
    }

    /** `nextStep` */
    method NextStep()
      requires Valid()
      modifies this
      ensures Valid() && State() == Next(old(State()))
    {
      if currentStep < |Steps| {
        currentStep := currentStep + 1;
      } else {
        showSummary := true;
      }
    }

    /** `prevStep` */
    method PrevStep()
      requires Valid()
      modifies this
      ensures Valid() && State() == Prev(old(State()))
    {
      if currentStep > 1 {
        currentStep := currentStep - 1;
      }
    }

    /** The summary's `onBack` */
    method BackFromSummary()
      requires Valid()
      modifies this
      ensures Valid() && State() == LeaveSummary(old(State()))
    {
      showSummary := false;
    }

    /**
     * The rendered step's Next button, wired to `updateData` and `nextStep` as `renderStep`
     * does; nothing happens while the summary is shown or the button is disabled.
     */
    method ClickNext(useRegistration: bool, drivers: seq<Driver>)
      requires Valid()
      modifies this
      ensures Valid() && State() == PressNext(old(State()), useRegistration, drivers)
    {
      if showSummary || !StepReady(currentStep, quoteData, useRegistration, drivers) {
        return;
      }
      if currentStep == 1 {
        var patch := CarDetails.HandleNext(quoteData, useRegistration);
        if patch.Some? {
          UpdateQuoteData(patch.value);
          NextStep();
        }
      } else {
        NextStep();
      }
    }
  }
}
