/**
  The values behind the dynamic quote generator (dom-manipulation/script.js):
  a quote, the seed collection, the text shown for a quote, the index that a
  random draw selects, and the validation that addQuote applies to its inputs.
 */
module Quotes {
  import opened JsString

  datatype Option<T> = None | Some(value: T)

  /** One entry of the collection. */
  datatype Quote = Quote(text: string, category: string)

  /** What the display shows when the collection is empty. */
  const NoQuotesMessage: string := "No quotes available."

  /** What the alert says when addQuote rejects its inputs. */
  const MissingFieldsMessage: string := "Please enter both quote text and category."

  /** The characters between the text and the category: closing quote mark, space, em dash, space. */
  const Separator: string := "\" \U{2014} "

  /** A quote as the collection keeps it: both fields non-empty and trimmed. */
  predicate WellFormed(q: Quote) {
    q.text != [] && q.category != [] && IsTrimmed(q.text) && IsTrimmed(q.category)
  }

  predicate AllWellFormed(qs: seq<Quote>) {
    forall k :: 0 <= k < |qs| ==> WellFormed(qs[k])
  }

  /** The three quotes the page starts with, in order. */
  const Seed0: Quote := Quote("The best way " + "to get started is to quit talking and begin doing.", "Motivation")
  const Seed1: Quote := Quote("Don't let " + "yesterday take up too much of today.", "Motivation")
  const Seed2: Quote := Quote("Life is what " + "happens when you're busy making other plans.", "Life")
  // (each text is split in two literals only so that the verifier can read its first character)

  function Seed(): (qs: seq<Quote>)
    ensures |qs| == 3
  {
    [Seed0, Seed1, Seed2]
  }

  /** The seed collection already keeps the invariant that addQuote maintains. */
  lemma SeedWellFormed()
    ensures AllWellFormed(Seed())
  {
    assert WellFormed(Seed0);
    assert WellFormed(Seed1);
    assert WellFormed(Seed2);
  }

  /** The display text for a quote: the text in double quotes, an em dash, the category. */
  function Render(q: Quote): (r: string)
    ensures |r| == |q.text| + |q.category| + 5
    ensures r[0] == '"' && r != NoQuotesMessage
  {
    "\"" + q.text + Separator + q.category
  }

  /** The first index at or after i where s holds a double quote mark, or |s| if there is none. */
  function FindQuoteMark(s: string, i: nat): (k: nat)
    requires i <= |s|
    ensures i <= k <= |s| && (k < |s| ==> s[k] == '"')
    ensures forall j :: i <= j < k ==> s[j] != '"'
    decreases |s| - i
  {
    if i == |s| || s[i] == '"' then i else FindQuoteMark(s, i + 1)
  }

  /**
    Reads a quote back from display text: the text runs from the opening
    quote mark to the next one, the separator follows, and the rest is the
    category.
   */
  function ParseDisplay(s: string): (r: Option<Quote>)
  {
    if |s| == 0 || s[0] != '"' then None
    else
      var k := FindQuoteMark(s, 1);
      if k + 4 <= |s| && s[k..k + 4] == Separator then Some(Quote(s[1..k], s[k + 4..]))
      else None
  }

  /** Parsing the display text of a quote whose text holds no double quote mark gives the quote back. */
  lemma ParseRender(q: Quote)
    requires '"' !in q.text
    ensures ParseDisplay(Render(q)) == Some(q)
  {
    var s, n := Render(q), |q.text|;
    assert s == "\"" + q.text + Separator + q.category;
    forall j | 1 <= j < n + 1 ensures s[j] != '"' {
      assert s[j] == q.text[j - 1];
    }
    assert s[n + 1] == '"';
    assert FindQuoteMark(s, 1) == n + 1;
    assert s[1..n + 1] == q.text;
    assert s[n + 1..n + 5] == Separator;
    assert s[n + 5..] == q.category;
  }

  /** Whatever ParseDisplay accepts is the display text of the quote it returns. */
  lemma ParseSound(s: string, q: Quote)
    requires ParseDisplay(s) == Some(q)
    ensures s == Render(q) && '"' !in q.text
  {
    var k := FindQuoteMark(s, 1);
    assert q.text == s[1..k] && q.category == s[k + 4..] && s[k..k + 4] == Separator;
    assert s[..1] == "\"";
    assert s == s[..1] + s[1..k] + s[k..k + 4] + s[k + 4..];
    forall j | 0 <= j < |q.text| ensures q.text[j] != '"' {
      assert q.text[j] == s[j + 1];
    }
  }

  /**
    The display text identifies the quote it shows: ParseDisplay recovers q
    from s exactly when s is q's display text and q's text holds no double
    quote mark.
   */
  lemma ParseDisplayIff(s: string, q: Quote)
    ensures ParseDisplay(s) == Some(q) <==> (s == Render(q) && '"' !in q.text)
  {
    if s == Render(q) && '"' !in q.text {
      ParseRender(q);
    }
    if ParseDisplay(s) == Some(q) {
      ParseSound(s, q);
    }
  }

  /**
    The index Math.floor(draw * n) that a draw from Math.random selects in a
    collection of n quotes; draw is in [0, 1), as Math.random promises.
   */
  function RandomIndex(n: nat, draw: real): (i: nat)
    requires n > 0 && 0.0 <= draw < 1.0
    ensures i < n
  {
    var x := draw * n as real;
    assert n as real - x == (1.0 - draw) * n as real > 0.0;
    x.Floor
  }

  /** Every index of the collection is selected by some draw. */
  lemma RandomIndexReaches(n: nat, k: nat)
    requires k < n
    ensures 0.0 <= k as real / n as real < 1.0
    ensures RandomIndex(n, k as real / n as real) == k
  {
    var d := k as real / n as real;
    assert d * n as real == k as real;
  }

  /**
    What showRandomQuote writes to the display: the fixed message for an
    empty collection, otherwise the display text of the quote at the drawn
    index.
   */
  function ShowText(qs: seq<Quote>, draw: real): (r: string)
    requires 0.0 <= draw < 1.0
    ensures r == NoQuotesMessage <==> qs == []
    ensures qs != [] ==> exists k :: 0 <= k < |qs| && r == Render(qs[k])
  {
    if qs == [] then NoQuotesMessage
    else
      var i := RandomIndex(|qs|, draw);
      assert Render(qs[i]) != NoQuotesMessage;
      Render(qs[i])
  }

  /**
    The quote addQuote would append for the raw field values, or None when
    either value is empty after trimming.
   */
  function NewQuote(text: string, category: string): (r: Option<Quote>)
    ensures r.Some? <==> !AllWhitespace(text) && !AllWhitespace(category)
    ensures r.Some? ==> WellFormed(r.value)
    ensures r.Some? ==> r.value == Quote(Trim(text), Trim(category))
  {
    TrimEmptyIff(text);
    TrimEmptyIff(category);
    var t, c := Trim(text), Trim(category);
    if t == [] || c == [] then None else Some(Quote(t, c))
  }

  /**
    Examples of NewQuote's contract: inputs that are empty or only white
    space are refused, whichever field holds them.
   */
  lemma BlankInputsRejected(x: string)
    ensures NewQuote("", x) == None && NewQuote(x, "") == None
    ensures NewQuote("  ", "  ") == None && NewQuote("\t\n", x) == None
  {
    assert AllWhitespace("  ") && AllWhitespace("\t\n");
  }

  /** Appending a well-formed quote keeps every quote well formed. */
  lemma AppendKeepsWellFormed(qs: seq<Quote>, q: Quote)
    requires AllWellFormed(qs) && WellFormed(q)
    ensures AllWellFormed(qs + [q])
  {
  }
}
