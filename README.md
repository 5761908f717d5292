# Dynamic quote generator: a Dafny model

This project models the logic of the dynamic quote generator page in
`dom-manipulation/script.js`. The page keeps an in-memory collection of quotes.
Each quote is a text and a category. The page offers two actions:

- **Show new quote** (`showRandomQuote`). It writes a fixed message when the
  collection is empty. Otherwise it draws an index with `Math.random` and
  shows that quote as `"text" — category`.
- **Add quote** (`addQuote`). It trims the two input fields. It refuses the
  input with an alert when either trimmed value is empty. Otherwise it appends
  the quote, shows it in the same format, and clears both fields.

The model has three modules:

- `JsString` (`js_string.dfy`): `String.prototype.trim` as a function over the
  characters ECMAScript's trim removes. These are the WhiteSpace and
  LineTerminator code points of sections 12.2 and 12.3 of ECMA-262. `Trim`
  scans forward past the leading white space, scans backward past the
  trailing white space, and returns the slice in between. The module
  proves the properties the page relies on: the result has no white space at
  either end, it is the input with only white space cut from each side, it is
  empty exactly when the input is all white space, and trimming is idempotent.
- `Quotes` (`quotes.dfy`): the values. This covers the `Quote` record, the seed
  collection, the display format (`Render`) and a parser that inverts it, the
  index `Math.floor(Math.random() * n)` for a given draw, the text
  `showRandomQuote` writes, and the validation `addQuote` applies.
- `QuoteBoard` (`quote_board.dfy`): the page state, as a class `Board`. Its
  fields are the module-level `quotes` array, the two input fields' values and
  the display's text. `AddQuote` and `ShowRandomQuote` update these fields in
  place. The object invariant `Valid()` says every stored quote has a
  non-empty, trimmed text and category. The constructor establishes it and
  `AddQuote` preserves it.

The source calls `Math.random`. In the model the draw is a parameter `draw`
with `0 <= draw < 1`, which is what `Math.random` promises. The index is the
exact floor of `draw * n`.

## Model

| member | source | states |
|---|---|---|
| `JsString.SkipForward` | dom-manipulation/script.js:28-29 | the scan for the start of the trimmed value passes only white space and stops at the first character that is not white space, or at the end |
| `JsString.SkipBackward` | dom-manipulation/script.js:28-29 | the scan for the end of the trimmed value passes only white space and stops just after the last character that is not white space, or at the start |
| `JsString.Trim` | dom-manipulation/script.js:28-29 | `trim()` returns a value with no white space at either end, never longer than its input |
| `JsString.TrimIsSlice` | dom-manipulation/script.js:28-29 | `trim()` returns a contiguous slice of its input, and everything it cuts off on either side is white space |
| `JsString.TrimEmptyIff` | dom-manipulation/script.js:28-31 | a trimmed value is empty (falsy) exactly when the raw input is all white space |
| `JsString.TrimOfTrimmed` | dom-manipulation/script.js:28-29 | trimming a value with no white space at its ends leaves it unchanged |
| `JsString.TrimIdempotent` | dom-manipulation/script.js:28-29 | trimming twice gives the same result as trimming once |
| `Quotes.Seed` | dom-manipulation/script.js:2-6 | the page's three seed quotes, in source order |
| `Quotes.SeedWellFormed` | dom-manipulation/script.js:2-6 | the three seed quotes all have a non-empty, trimmed text and category, so the collection starts out satisfying the invariant |
| `Quotes.Render` | dom-manipulation/script.js:23 | the display text of a quote starts with a double quote mark, has the two fields plus five format characters, and never equals the empty-collection message |
| `Quotes.ParseRender` | dom-manipulation/script.js:23 | parsing the display text of a quote whose text holds no double quote mark gives that quote back |
| `Quotes.ParseSound` | dom-manipulation/script.js:23 | any text the parser accepts is exactly the display text of the quote it returns |
| `Quotes.ParseDisplayIff` | dom-manipulation/script.js:23 | the display text determines its quote: parsing it gives back `q` exactly when it is `q`'s display text and `q`'s text holds no double quote mark |
| `Quotes.RandomIndex` | dom-manipulation/script.js:21 | `Math.floor(draw * n)` for a draw in [0, 1) and `n > 0` is an index in `[0, n)`, so the read never goes out of range |
| `Quotes.RandomIndexReaches` | dom-manipulation/script.js:21 | every index in `[0, n)` is selected by some draw in [0, 1) |
| `Quotes.ShowText` | dom-manipulation/script.js:16-24 | the shown text is the "No quotes available." message exactly when the collection is empty; otherwise it is the display text of some element of the collection |
| `Quotes.NewQuote` | dom-manipulation/script.js:28-34 | a quote is produced exactly when neither input is all white space; the quote holds the trimmed inputs and is well formed |
| `Quotes.BlankInputsRejected` | dom-manipulation/script.js:28-34 | examples of `NewQuote`'s contract: an empty or whitespace-only text or category, in either field, is refused |
| `Quotes.AppendKeepsWellFormed` | dom-manipulation/script.js:37 | appending a well-formed quote keeps every quote well formed |
| `QuoteBoard.Board.constructor` | dom-manipulation/script.js:2-6 | the page starts with the seed collection, empty inputs, the invariant established, and the display set as `showRandomQuote` sets it |
| `QuoteBoard.Board.ShowRandomQuote` | dom-manipulation/script.js:16-24 | writes only the display: the message for an empty collection, otherwise the display text of the quote at the drawn index; the collection and the inputs are unchanged |
| `QuoteBoard.Board.AddQuote` | dom-manipulation/script.js:27-45 | on blank input, alerts and changes nothing at all; otherwise the collection becomes the old one plus the trimmed quote at the end, the display shows it, both inputs become empty, and the invariant is kept |
| `QuoteBoard.AddThenShow` | dom-manipulation/script.js:37-40 | after a successful add, a `showRandomQuote` that draws the new last quote shows exactly what the add showed |

## Left out

- DOM element lookup and event wiring (`dom-manipulation/script.js:9-13`, `48-49`). The inputs and the display are plain string fields of `Board`. The initial `showRandomQuote()` call (line 52) is part of the constructor.
- The initial values of the two input fields come from the page's HTML, which is not part of this model. The constructor starts them empty.
- The `alert` dialog (line 32). It is the `Rejected` outcome of `AddQuote`, which carries the alert's text.
- `Math.random` and the floating-point product in line 21. The draw is a parameter, and the model computes `draw * n` in exact real arithmetic. IEEE rounding of that product is not modelled.
- `JsString.IsWhitespace` fixes the set of code points that `trim` removes to the WhiteSpace and LineTerminator code points, with the Zs category as of current Unicode. Other Unicode versions are not modelled.
- Strings in the model are sequences of Unicode scalar values, while JavaScript strings are sequences of UTF-16 code units. No operation modelled here (trim, the emptiness test, concatenation) depends on that difference.
- Persistence to browser storage, category lists and filtering, case-insensitive matching, JSON import and export, and reset. These belong to other versions of the exercise. This source file has none of them, so the model follows the code here. For the same reason `addQuote` takes no arguments and returns nothing: it reads the input fields and signals a refusal only through the alert.
