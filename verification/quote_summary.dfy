/**
 * The summary shown when either front end finishes (src/components/quote-steps/QuoteSummary.jsx):
 * a review of the answers, a fixed price table keyed by cover type, and a simulated quote
 * generation that switches the page to the generated quote.
 */
module QuoteSummary {
  import opened Wrappers
  import opened QuoteData
  import JsText
  import CoverType

  /** A weekly and an annual premium, in whole dollars. */
  datatype Price = Price(weekly: int, annual: int)

  /** `getQuotePrice`: the row of the price table; anything else gets the comprehensive row. */
  function QuotePrice(coverType: string): Price {
    if coverType == "comprehensive" then Price(89, 4628)
    else if coverType == "third-party" then Price(42, 2184)
    else if coverType == "third-party-fire" then Price(58, 3016)
    else if coverType == "complete-care" then Price(105, 5460)
    else Price(89, 4628)
  }

  /** The four rows of the table. */
  lemma PriceTable()
    ensures QuotePrice("comprehensive") == Price(89, 4628)
    ensures QuotePrice("third-party") == Price(42, 2184)
    ensures QuotePrice("third-party-fire") == Price(58, 3016)
    ensures QuotePrice("complete-care") == Price(105, 5460)
  {
  }

  /** A cover type outside the four ids is priced as comprehensive. */
  lemma UnknownTypeIsComprehensive(coverType: string)
    requires coverType !in CoverType.OptionIds
    ensures QuotePrice(coverType) == QuotePrice("comprehensive")
  {
  }

  /** Every row's annual premium is exactly 52 weekly premiums, and the four rows differ. */
  lemma AnnualIsFiftyTwoWeeks(coverType: string)
    ensures QuotePrice(coverType).annual == 52 * QuotePrice(coverType).weekly
    ensures forall i, j :: 0 <= i < j < |CoverType.OptionIds| ==>
      QuotePrice(CoverType.OptionIds[i]) != QuotePrice(CoverType.OptionIds[j])
  {
  }

  /** `value || fallback` on the stored cover type. */
  function CoverTypeOr(data: Record, fallback: string): (t: string)
    ensures TextIn(data, CoverType).Some? && TextIn(data, CoverType).value != "" ==> t == TextIn(data, CoverType).value
    ensures TextIn(data, CoverType).None? || TextIn(data, CoverType).value == "" ==> t == fallback
  {
    match TextIn(data, CoverType)
    case Some(s) => if s != "" then s else fallback
    case None => fallback
  }

  /** `getQuotePrice(quoteData.coverType || "comprehensive")` */
  function PriceFor(data: Record): Price {
    QuotePrice(CoverTypeOr(data, "comprehensive"))
  }

  /** Without a cover type the comprehensive row is quoted. */
  lemma MissingTypeIsComprehensive(data: Record)
    requires CoverType !in data
    ensures PriceFor(data) == Price(89, 4628)
  {
  }

  const CompleteCareName: string := "Complete Care\U{AE}"

  /** `getCoverTypeName`: the display name of the four ids; any other text is shown as it is. */
  function CoverTypeName(coverType: string): string {
    if coverType == "comprehensive" then "Comprehensive"
    else if coverType == "third-party" then "Third Party Property"
    else if coverType == "third-party-fire" then "Third Party Fire & Theft"
    else if coverType == "complete-care" then CompleteCareName
    else coverType
  }

  /** The name differs from the input exactly for the four ids. */
  lemma CoverTypeNameChangesOnlyIds(coverType: string)
    ensures CoverTypeName(coverType) != coverType <==> coverType in CoverType.OptionIds
    ensures coverType == "complete-care" ==> CoverTypeName(coverType)[|CoverTypeName(coverType)| - 1] == '\U{AE}'
  {
  }

  /** The name on the page: `getCoverTypeName(quoteData.coverType || "")`. */
  function CoverTypeLabel(data: Record): string {
    CoverTypeName(CoverTypeOr(data, ""))
  }

  /** `mainPurpose === 'private' ? 'Private use' : 'Business use'` */
  function PurposeLabel(data: Record): (text: string)
    ensures text == "Private use" <==> MainPurpose in data && data[MainPurpose] == Str("private")
    ensures text == "Private use" || text == "Business use"
  {
    if MainPurpose in data && data[MainPurpose] == Str("private") then "Private use" else "Business use"
  }

  /** A missing purpose is shown as business use. */
  lemma MissingPurposeShowsBusiness(data: Record)
    requires MainPurpose !in data
    ensures PurposeLabel(data) == "Business use"
  {
  }

  /** "Garaged at": `quoteData.address?.split(',')[0]`, nothing when there is no address. */
  function GaragedAt(data: Record): (shown: Option<string>)
    ensures shown.Some? <==> TextIn(data, Address).Some?
    ensures shown.Some? ==> var a := TextIn(data, Address).value;
                            |shown.value| <= |a| && shown.value == a[..|shown.value|] && ',' !in shown.value
                            && (|shown.value| < |a| ==> a[|shown.value|] == ',')
  {
    match TextIn(data, Address)
    case Some(a) => Some(JsText.BeforeFirst(a, ','))
    case None => None
  }

  /** An address without a comma is shown whole. */
  lemma GaragedAtWithoutComma(data: Record)
    requires TextIn(data, Address).Some? && ',' !in TextIn(data, Address).value
    ensures GaragedAt(data) == TextIn(data, Address)
  {
    JsText.BeforeFirstWithoutSep(TextIn(data, Address).value, ',');
  }

  /** The vehicle line shows the registration exactly when `useRegistration` is true. */
  predicate ShowsRegistration(data: Record) {
    Holds(data, UseRegistration)
  }

  /** The additional-driver count, shown when the answer is yes and a list is stored. */
  function AdditionalDriverCount(data: Record): (count: Option<nat>)
    ensures count.Some? <==> Holds(data, HasAdditionalDrivers) && AdditionalDrivers in data && data[AdditionalDrivers].Drivers?
    ensures count.Some? ==> count.value == |DriversIn(data)|
  {
    if Holds(data, HasAdditionalDrivers) && AdditionalDrivers in data && data[AdditionalDrivers].Drivers? then
      Some(|data[AdditionalDrivers].list|)
    else None
  }

  /** The page state of the summary: whether a quote is being, or has been, generated. */
  class SummaryView {
    var isGenerating: bool
    var quoteGenerated: bool

    /** Generating and generated never hold together. */
    predicate Valid()
      reads this
    {
      !(isGenerating && quoteGenerated)
    }

    constructor ()
      ensures Valid() && !isGenerating && !quoteGenerated
    {
      isGenerating := false;
      quoteGenerated := false;
    }

    /** The review page, with its Generate button, shows until the quote is generated. */
    predicate ShowsReview()
      reads this
    {
      !quoteGenerated
    }

    /** `generateQuote` up to its await: the button on the review page starts generating. */
    method StartGenerating()
      requires Valid() && ShowsReview()
      modifies this
      ensures Valid() && isGenerating && !quoteGenerated && ShowsReview()
    {
      isGenerating := true;
    }

    /** `generateQuote` after its await: the quote is generated and the review page goes away. */
    method FinishGenerating()
      requires Valid() && isGenerating
      modifies this
      ensures Valid() && !isGenerating && quoteGenerated && !ShowsReview()
    {
      isGenerating := false;
      quoteGenerated := true;
    }
  }
}
