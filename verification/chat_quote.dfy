/**
 * The page that hosts the chatbot (src/components/InsuranceQuote.jsx): it shows the chatbot
 * until the chatbot hands over a completed record, then the summary of that record.
 */
module ChatQuote {
  import opened Wrappers
  import opened QuoteData
  import Chatbot
  import CoverType
  import QuoteSummary

  class InsuranceQuote {
    var quoteData: Record
    var showSummary: bool
    /** The chatbot the page renders while the summary is not shown. */
    var bot: Chatbot.ChatSession

    /** The page's chatbot is in a valid state. */
    predicate Valid()
      reads this, bot
    {
      bot.Valid()
    }

    /** `useState({})`, `useState(false)`, and a newly mounted chatbot. */
    constructor ()
      ensures quoteData == map[] && !showSummary && ChatbotShown()
      ensures fresh(bot) && bot.State() == Chatbot.InitialChat && Valid()
    {
      quoteData := map[];
      showSummary := false;
      bot := new Chatbot.ChatSession();
    }

    /** The chatbot is on the page exactly when the summary is not. */
    predicate ChatbotShown()
      reads this
    {
      !showSummary
    }

    /** `handleQuoteComplete(data)`: keep the received record as it is and show the summary. */
    method HandleQuoteComplete(data: Record)
      modifies this
      ensures quoteData == data && showSummary && !ChatbotShown() && bot == old(bot)
    {
      quoteData := data;
      showSummary := true;
    }

    /**
     * The summary's `onBack`: the record is kept, and the chatbot is rendered again. It was
     * unmounted while the summary showed, so it starts a new conversation from the greeting.
     */
    method BackFromSummary()
      modifies this
      ensures !showSummary && ChatbotShown() && quoteData == old(quoteData)
      ensures fresh(bot) && bot.State() == Chatbot.InitialChat && Valid()
    {
      showSummary := false;
      bot := new Chatbot.ChatSession();
    }

    /**
     * An option clicked in the page's chatbot, whose `onQuoteComplete` is `HandleQuoteComplete`:
     * the chatbot moves as `OptionClick` says; the page changes only when the chatbot hands a
     * record over, and then holds exactly that record with the summary shown.
     */
    method ClickOption(option: string)
      requires Valid() && ChatbotShown()
      modifies this, bot
      ensures bot == old(bot) && Valid()
      ensures var o := Chatbot.OptionClick(old(bot.State()), option);
              && bot.State() == o.state
              && (o.completed.Some? ==> showSummary && quoteData == o.completed.value)
              && (o.completed.None? ==> ChatbotShown() && quoteData == old(quoteData))
    {
      var completed := bot.HandleOptionClick(option);
      if completed.Some? {
        HandleQuoteComplete(completed.value);
      }
    }
  }

  /**
   * A record the chatbot completes after a cover button is pressed is priced by that cover's
   * row: only the "Comprehensive" button gets the comprehensive price.
   */
  lemma ChatbotCoverChoiceIsPriced(data: Record, i: int)
    requires 0 <= i < |Chatbot.CoverLabels|
    ensures var d := data[CoverType := Chatbot.OptionValue(CoverType, Chatbot.CoverLabels[i])];
            QuoteSummary.PriceFor(d) == QuoteSummary.QuotePrice(Chatbot.CoverIds[i])
            && (QuoteSummary.PriceFor(d) == QuoteSummary.QuotePrice("comprehensive") <==> i == 0)
  {
    Chatbot.CoverOptionConverts(i);
    var id := Chatbot.CoverIds[i];
    assert QuoteSummary.CoverTypeOr(data[CoverType := Str(id)], "comprehensive") == id;
  }
}
