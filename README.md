# blocknav.io request decisions, in Dafny

blocknav.io is a small Flask web application that shows Bitcoin blocks,
addresses and transactions fetched from a blockchain data provider's API.
Almost all of it passes a request straight to the provider's client library
and the result straight to a page template. This project models the few parts
of `app.py` that decide something:

- `/results/<query>`: the search heuristic. A query longer than 63 characters
  is looked up as a block hash, one of 34 to 63 characters as an address, and
  anything shorter is parsed with Python's `int()` and looked up as a block
  height. A height query that does not parse flashes an error and redirects to
  the index. A lookup that fails with the provider's `APIException` is
  printed, and the results page is still rendered, without results. A
  `ValueError` or `TypeError` raised by the client is caught only around the
  height lookup, where it flashes and redirects like an unparsable height; on
  a block or address lookup it escapes the view.
- `/address`: the address form. On a POST, the posted address is stripped and
  looked up only when exactly 34 characters remain. Otherwise the form
  flashes a "malformed" message.
- `/search`: strips the query and redirects to `/results`, or redirects to
  the index when the form does not validate.
- `/pools`: the cleanup loop over the rows of the mining-pool share table. It
  skips the header row, strips every cell and drops the empty ones.

`/results` and `/address` are functions from the request to a `Response`
value; `/search`, which only ever redirects, returns where to. A `Response`
lists the provider lookups the handler asked for, the messages it
flashed, the lines it printed, and what the view returned: a rendered page, a
redirect, a 400, a 500 for an exception the view does not catch, or
nothing. The provider is a parameter
`api: Call -> ApiReply<R>`. Its payloads are a type parameter `R`, so handing
a payload on unmodified is stated as equality. `str.strip()` uses Python's
full set of whitespace code points. `int()` is modelled over a decimal subset
of its grammar (see below). The pool cleanup is a method with a loop, like the
source's `for idx, row in enumerate(rows)` loop.

Files: `wrappers.dfy` (Option), `text.dfy` (whitespace, `strip`),
`pyint.dfy` (`int()` and its inverse `str()`), `api.dfy` (provider calls and
replies), `views.dfy` (the three handlers), `pools.dfy` (the row cleanup).

Three points where the code behaves differently from what one might expect:
- `results` classifies by `len(query)` without trimming (app.py:268,
  app.py:274). Only `/search` strips, before it redirects.
- Heights are not restricted to non-negative numbers. `int()` accepts a
  sign, so `-5` is looked up as height -5.
- `/results` calls the address lookup without the API key (app.py:276). Every
  other lookup sends the key. `Call.GetAddress` records which of the two
  happens.

## Model

| member | source | states |
|---|---|---|
| `Text.IsSpace` | app.py:130 | Python's whitespace as `str.strip()` and `int()` skip it: the ASCII space, tab, line feed, carriage return, vertical tab and form feed are whitespace, and no other printable ASCII character (so no digit or sign) is |
| `Text.Strip` | app.py:130 | the result is the slice of the input that has only whitespace before and after it and starts and ends with a non-whitespace character (empty when the input is all whitespace) |
| `Text.StripUnique` | app.py:130 | that slice is unique: any slice with those properties is what `strip()` returns |
| `Text.StrippedAtUnique` | app.py:130 | two slices that both have only whitespace around them and non-whitespace at their ends are equal |
| `Text.StripIdempotent` | app.py:257 | stripping an already stripped string changes nothing |
| `Text.StripSurrounding` | app.py:130 | whitespace added before and after a string never survives `strip()` |
| `Text.StrippedAtSurrounded` | app.py:130 | padding a string with whitespace shifts its stripped slice by the padding and leaves it the same text |
| `Text.StripBoundaries` | app.py:194-195 | a stripped string neither starts nor ends with whitespace, and it is empty exactly when the input is all whitespace |
| `PyInt.ParseInt` | app.py:284-286 | `int(s)` succeeds exactly when `s`, once stripped, is one or more digits, or a `+` or `-` followed by one or more digits; the value is those digits in base 10, leading zeros included, negated after a `-`; it raises `ValueError` on a string that is all whitespace or holds any character other than whitespace, a digit or a sign |
| `PyInt.ParseSigned` | app.py:284 | the same language and value on the stripped text, which then ends with a digit |
| `PyInt.ParseIntDecimal` | app.py:284 | round trip: `int()` of `str(n)`, with any whitespace around it, is `n`, negative numbers included |
| `PyInt.ParseSignedDecimal` | app.py:284 | `str(n)` parses back to `n` after the sign and digits are read |
| `PyInt.DecimalStripped` | app.py:284 | `str(n)` has no whitespace to strip |
| `PyInt.DigitsValueOfNatDecimal` | app.py:284 | the decimal digits of `n` read back as `n` |
| `PyInt.ParseIntOfHeightQuery` | app.py:284 | `int("600000")` is 600000 |
| `PyInt.ParseIntOfInvalidQueries` | app.py:284-286 | `int("600000x")` and `int("")` raise `ValueError` |
| `PyInt.ParseIntOfNoncanonical` | app.py:284 | `int("007")` is 7, `int(" +5\n")` is 5 and `int("-5")` is -5 |
| `PyInt.ParseIntOfMisplacedSigns` | app.py:284-286 | `int("1 2")`, `int("--5")`, `int("- 5")` and `int("+")` raise `ValueError` |
| `PyInt.DigitsValueLeadingZeros` | app.py:284 | zeros written before a run of digits do not change its value |
| `PyInt.ParseIntLeadingZeros` | app.py:284 | `int()` of `str(n)` with any number of zeros before it is `n` |
| `PyInt.InvalidLiteral` | app.py:286-288 | the `ValueError` text of `int(s)`: `invalid literal for int() with base 10: ` followed by `s` between single quotes |
| `PyInt.InvalidLiteralInjective` | app.py:286-288 | the flashed message names the query: two queries with the same message are the same query |
| `Views.Classify` | app.py:268-281 | the three length ranges (over 63, 34 to 63, at most 33) are disjoint and cover every length; the kind depends on the length alone |
| `Views.Results` | app.py:263-299 | at most one lookup, none exactly when a height query does not parse; block and address queries are looked up verbatim, heights at `int(query)`; an unparsable height flashes `'Invalid query expression. '` plus the `ValueError` text as `danger` and redirects to the index; after a lookup, a payload is shown on the results page as it is; an `APIException` is printed and the page shows `None`, with `type` `None` after a block or address lookup but `'Block Height Info'` after a height lookup; a client `ValueError`/`TypeError` flashes the invalid-query message with its text and redirects to the index after a height lookup, and is a 500 after a block or address lookup |
| `Views.ResultsHeightLookup` | app.py:280-285 | every number of at most 33 characters, with whitespace around it, is looked up as the height it spells |
| `Views.ResultsAddressScenario` | app.py:274-277 | a 34-character address is looked up as exactly that string, without the API key |
| `Views.ResultsBlockScenario` | app.py:268-271 | a 64-character upper-case block hash is looked up without case change |
| `Views.ResultsHeightScenario` | app.py:280-285 | `"600000"` is looked up as height 600000 |
| `Views.ResultsInvalidScenario` | app.py:283-289 | `"600000x"` makes no lookup, flashes the invalid-query message and redirects to the index |
| `Views.ResultsEmptyScenario` | app.py:280-289 | the empty query is a height query that fails to parse and redirects to the index |
| `Views.AddressForm` | app.py:125-160 | GET renders the form with no lookup; a POST without the field is a 400; a lookup happens exactly when the stripped address has 34 characters, and uses that stripped address with the API key; success renders the address page with the payload and the stripped address; an API error flashes `'API Error'` as `warning` and redirects to the form; a client `ValueError`/`TypeError` flashes `'An error has occurred: '` with its text as `danger` and redirects to the form; any other length flashes the malformed message as `danger`, makes no lookup and returns nothing |
| `Views.AddressFormIgnoresPadding` | app.py:130-133 | whitespace around the posted address changes nothing in the outcome |
| `Views.AddressFormLookupIsClean` | app.py:130-135 | the form only ever looks up a 34-character address that has no whitespace around it |
| `Views.AddressFormMalformedReturnsNothing` | app.py:147-150 | a posted 33-character address makes the view return nothing |
| `Views.AddressFormIntended` | app.py:144-150 | with the redirect returned, every POST carrying the field ends in a page or a redirect; a malformed address redirects to the form after the flash, and the lookups are those of the code as written |
| `Views.Search` | app.py:252-260 | only ever redirects, with no flash and no lookup: to the index exactly when the form does not validate, a 400 for a validated form without the field, otherwise to `results` with the stripped query, which has no whitespace left around it |
| `Views.SearchThenResults` | app.py:257-258 | a block hash or an address typed with any whitespace around it reaches `results` as exactly that text and is looked up verbatim |
| `Pools.StripCells` | app.py:194 | one cell out per cell in, each the stripped cell |
| `Pools.NonEmpty` | app.py:195 | no empty string is left, and a string is kept exactly when it is in the input and not empty |
| `Pools.NonEmptyAppend` | app.py:195 | filtering distributes over concatenation, so the kept cells keep their order |
| `Pools.NonEmptySingle` | app.py:195 | one cell is kept exactly when it is not empty |
| `Pools.NonEmptyIdentity` | app.py:195 | a row without empty cells is left as it is |
| `Pools.CleanRowCells` | app.py:193-195 | every cell of a cleaned row is non-empty with no whitespace around it |
| `Pools.CleanRowIdempotent` | app.py:193-195 | cleaning a cleaned row again changes nothing |
| `Pools.PoolRows` | app.py:183-195 | one output row per input row except the header row 0, in input order, each the stripped non-empty cells of that row; no output cell is empty or padded with whitespace |

## Left out

- Flask itself is not part of this model: routing, templates, `flash`,
  sessions and `url_for`. Outcomes are plain values. Routing means the empty
  query and queries containing `/` never reach `results` through a URL. The
  model still defines `Results` for every string.
- The blockchain data provider's client library is not part of this model.
  Its calls are the `api` parameter, and the value of the API key is not
  modelled, only whether it is sent.
- The HTTP fetch and the HTML parsing in `pools` (app.py:184-189) are I/O and
  a library that is not part of this model. `Pools.PoolRows` starts from the
  texts of the `td` cells of each table row.
- PyInt.ParseInt: accepts only optional whitespace, an optional sign and ASCII
  digits. Python's `int()` also accepts underscores between digits and
  non-ASCII decimal digits, and the model rejects both.
- PyInt.InvalidLiteral: puts the query between single quotes as it is. Python
  uses `repr`, which escapes quotes and non-printable characters.
- Template rendering is not part of this model, so neither is a `ValueError`
  or `TypeError` raised while `address` renders its page (caught at
  app.py:151). The same `except` also guards `str(addr)` (app.py:132), which
  cannot raise on a string.
- Exceptions of the client other than `APIException`, `ValueError` and
  `TypeError` (a network error, say) are not modelled. No handler catches
  them, so Flask would answer 500.
- The search form's validation rules (`SearchForm.validate`) are in a file
  that is not part of this model. They are the boolean `valid` passed to
  `Views.Search`. The route accepts POST only, so the handler's test of the
  method always holds and is not a parameter.
- What Flask does with a view that returns nothing (an internal server error)
  is not modelled. `NoReturn` is the value the view returns.
- The printed diagnostics are modelled as strings, with the exception's text
  standing for `str(e)`.
- Pass-through routes with no decision logic are not modelled: `index`,
  `blocks`, `block`, `get_block_height`, `get_address`, `tx`, `pool`,
  `api_docs`, `login`, `register`, `get_stats` and the error handlers. So are
  `convert_unixtime`, the `datetime.now()` timestamps, configuration loading
  and the Flask extensions.

## Findings

| source | as written | input that shows it | evidently intended | confidence | as-written member | corrected member |
|---|---|---|---|---|---|---|
| app.py:147-150 | on a malformed address the handler flashes and calls `redirect(url_for('address'))` but does not return it, so the view returns `None` | a POST with `addr` = `1A1zP1eP5QGefi2DMPTfTL5SLmv7DivfN` (33 characters) | `return redirect(url_for('address'))`, as the API-error branch at app.py:146 does | high, not executed | `Views.AddressFormMalformedReturnsNothing` | `Views.AddressFormIntended` |

