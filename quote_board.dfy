/**
  The page state of the dynamic quote generator (dom-manipulation/script.js):
  the module-level quotes array, the two input fields and the quote display,
  held as fields of one object, with addQuote and showRandomQuote as methods
  that update them in place.
 */
module QuoteBoard {
  import opened JsString
  import opened Quotes

  /** What addQuote did: appended a quote, or refused the inputs with an alert. */
  datatype AddOutcome = Added(quote: Quote) | Rejected(alert: string)

  class Board {
    /** The module-level quotes array. */
    var quotes: seq<Quote>
    /** The value of the quote text input. */
    var newQuoteText: string
    /** The value of the category input. */
    var newQuoteCategory: string
    /** The text content of the quote display. */
    var quoteDisplay: string

    /** Every stored quote has a non-empty, trimmed text and category. */
    ghost predicate Valid()
      reads this
    {
      AllWellFormed(quotes)
    }

    /**
      Loading the script: the seed collection, empty input fields, and the
      initial showRandomQuote call with the given Math.random draw.
     */
    constructor (draw: real)
      requires 0.0 <= draw < 1.0
      ensures Valid()
      ensures quotes == Seed() && newQuoteText == "" && newQuoteCategory == ""
      ensures quoteDisplay == ShowText(Seed(), draw)
    {
      SeedWellFormed();
      quotes := Seed();
      newQuoteText, newQuoteCategory := "", "";
      quoteDisplay := ShowText(Seed(), draw);
    }

    /**
      showRandomQuote with the given Math.random draw: writes the display and
      nothing else.
     */
    method ShowRandomQuote(draw: real)
      requires 0.0 <= draw < 1.0
      modifies this`quoteDisplay
      ensures quoteDisplay == ShowText(quotes, draw)
      ensures quotes == [] ==> quoteDisplay == NoQuotesMessage
      ensures quotes != [] ==> quoteDisplay == Render(quotes[RandomIndex(|quotes|, draw)])
    {
      if |quotes| == 0 {
        quoteDisplay := NoQuotesMessage;
        return;
      }
      var randomIndex := RandomIndex(|quotes|, draw);
      var quote := quotes[randomIndex];
      quoteDisplay := Render(quote);
    }

    /**
      addQuote: trims both inputs; if either is empty, alerts and changes
      nothing; otherwise appends the quote, shows it and clears both inputs.
     */
    method AddQuote() returns (outcome: AddOutcome)
      requires Valid()
      modifies this
      ensures Valid()
      ensures outcome.Rejected? <==> AllWhitespace(old(newQuoteText)) || AllWhitespace(old(newQuoteCategory))
      ensures outcome.Rejected? ==>
        && outcome.alert == MissingFieldsMessage
        && quotes == old(quotes)
        && newQuoteText == old(newQuoteText) && newQuoteCategory == old(newQuoteCategory)
        && quoteDisplay == old(quoteDisplay)
      ensures outcome.Added? ==>
        && outcome.quote == Quote(Trim(old(newQuoteText)), Trim(old(newQuoteCategory)))
        && WellFormed(outcome.quote)
        && quotes == old(quotes) + [outcome.quote]
        && quoteDisplay == Render(outcome.quote)
        && newQuoteText == "" && newQuoteCategory == ""
    {
      var validated := NewQuote(newQuoteText, newQuoteCategory);
      if validated.None? {
        return Rejected(MissingFieldsMessage);
      }

      var quote := validated.value;
      AppendKeepsWellFormed(quotes, quote);
      quotes := quotes + [quote];
      quoteDisplay := Render(quote);
      newQuoteText, newQuoteCategory := "", "";
      outcome := Added(quote);
    }
  }

  /**
    A session on the page: after a successful add the new quote is the last
    one in the collection, a later showRandomQuote can draw it, and what it
    then shows is exactly what the add showed.
   */
  method AddThenShow(board: Board) returns (shownByAdd: string, shownByShow: string)
    requires board.Valid()
    requires !AllWhitespace(board.newQuoteText) && !AllWhitespace(board.newQuoteCategory)
    modifies board
    ensures board.Valid() && |board.quotes| == old(|board.quotes|) + 1
    ensures shownByShow == shownByAdd
    ensures ParseDisplay(shownByShow) == Some(board.quotes[|board.quotes| - 1])
            <==> '"' !in board.quotes[|board.quotes| - 1].text
  {
    var outcome := board.AddQuote();
    shownByAdd := board.quoteDisplay;
    var n := |board.quotes|;
    RandomIndexReaches(n, n - 1);
    board.ShowRandomQuote((n - 1) as real / n as real);
    shownByShow := board.quoteDisplay;
    ParseDisplayIff(shownByShow, board.quotes[n - 1]);
  }
}
