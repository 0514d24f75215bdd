/**
 * Step 2 of the wizard (src/components/quote-steps/LocationUsageStep.tsx): where the car is
 * kept overnight, whether it is under finance, its main purpose and whether it is registered
 * to a business. Each input sends a one-field update.
 */
module LocationUsage {
  import opened QuoteData

  /** The values of the purpose radio group's two items. */
  const PurposeValues: seq<string> := ["private", "business"]

  /**
   * `isValid`: a non-empty address, a purpose, and an answer to both yes/no questions;
   * for the yes/no questions any stored answer counts, `false` included.
   */
  predicate IsValid(data: Record) {
    Holds(data, Address) && Defined(data, UnderFinance) && Holds(data, MainPurpose)
    && Defined(data, BusinessRegistered)
  }

  /** The address input: the typed text, stored as it is (no trimming). */
  function AddressPatch(typed: string): (patch: Record)
    ensures patch.Keys == {Address} && patch[Address] == Str(typed)
  {
    Set(Address, Str(typed))
  }

  /** The finance radio group: `value === "yes"`. */
  function FinancePatch(value: string): (patch: Record)
    ensures patch.Keys == {UnderFinance} && patch[UnderFinance].Bool?
    ensures patch[UnderFinance].b <==> value == "yes"
  {
    Set(UnderFinance, Bool(value == "yes"))
  }

  /** The purpose radio group stores the chosen item's value. */
  function PurposePatch(value: string): (patch: Record)
    requires value in PurposeValues
    ensures patch.Keys == {MainPurpose} && patch[MainPurpose] == Str(value)
    ensures patch[MainPurpose] == Str("private") || patch[MainPurpose] == Str("business")
  {
    Set(MainPurpose, Str(value))
  }

  /** The business-registration radio group: `value === "yes"`. */
  function BusinessPatch(value: string): (patch: Record)
    ensures patch.Keys == {BusinessRegistered} && patch[BusinessRegistered].Bool?
    ensures patch[BusinessRegistered].b <==> value == "yes"
  {
    Set(BusinessRegistered, Bool(value == "yes"))
  }

  /**
   * Answering the four inputs, in any earlier state, makes the step valid as soon as the
   * address is non-empty: "no" to either yes/no question counts as an answer.
   */
  lemma AnsweringAllMakesValid(data: Record, address: string, finance: string, purpose: string, business: string)
    requires address != "" && purpose in PurposeValues
    ensures IsValid(Merge(Merge(Merge(Merge(data, AddressPatch(address)), FinancePatch(finance)),
                                PurposePatch(purpose)), BusinessPatch(business)))
  {
  }

  /** Each missing answer on its own keeps the step invalid. */
  lemma EachAnswerIsNeeded(data: Record)
    requires IsValid(data)
    ensures !IsValid(data - {Address}) && !IsValid(data - {UnderFinance})
    ensures !IsValid(data - {MainPurpose}) && !IsValid(data - {BusinessRegistered})
    ensures !IsValid(Merge(data, AddressPatch("")))
  {
  }

  /** An address of white space only is stored unchanged and passes the check. */
  lemma BlankAddressPasses(data: Record)
    requires IsValid(data)
    ensures IsValid(Merge(data, AddressPatch(" ")))
    ensures Merge(data, AddressPatch(" "))[Address] == Str(" ")
  {
  }
}
