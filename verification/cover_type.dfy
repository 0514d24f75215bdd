/**
 * Step 7 of the wizard (src/components/quote-steps/CoverTypeStep.tsx): a choice among four
 * cover levels, each identified by an id that is stored as `coverType`.
 */
module CoverType {
  import opened QuoteData

  /** The `id`s of `coverOptions`, in display order. */
  const OptionIds: seq<string> := ["comprehensive", "third-party-fire", "third-party", "complete-care"]

  /** There are four options and no two share an id. */
  lemma OptionIdsDistinct()
    ensures |OptionIds| == 4
    ensures forall i, j :: 0 <= i < j < |OptionIds| ==> OptionIds[i] != OptionIds[j]
  {
  }

  /** `isValid`: a cover type is stored. */
  predicate IsValid(data: Record) {
    Holds(data, CoverType)
  }

  /** Selecting an option stores its id and nothing else. */
  function SelectPatch(id: string): (patch: Record)
    requires id in OptionIds
    ensures patch.Keys == {CoverType} && patch[CoverType] == Str(id)
  {
    Set(CoverType, Str(id))
  }

  /** `isSelected` of an option card. */
  predicate IsSelected(data: Record, id: string) {
    CoverType in data && data[CoverType] == Str(id)
  }

  /** At most one card is marked selected. */
  lemma AtMostOneSelected(data: Record, i: int, j: int)
    requires 0 <= i < |OptionIds| && 0 <= j < |OptionIds|
    requires IsSelected(data, OptionIds[i]) && IsSelected(data, OptionIds[j])
    ensures i == j
  {
    OptionIdsDistinct();
  }

  /** After selecting option `k` the step is valid and exactly card `k` is marked. */
  lemma SelectingMarksExactlyThatOption(data: Record, k: int)
    requires 0 <= k < |OptionIds|
    ensures IsValid(Merge(data, SelectPatch(OptionIds[k])))
    ensures forall i :: 0 <= i < |OptionIds| ==>
      (IsSelected(Merge(data, SelectPatch(OptionIds[k])), OptionIds[i]) <==> i == k)
  {
    OptionIdsDistinct();
  }
}
