# Boardcamp query helpers and request schemas

A Dafny model of the two small pieces of logic in the Boardcamp game-rental REST backend that
can be stated without a database or an HTTP server:

- **Query-clause builders.** `getQueryOffsetAndLimit` extends a listing query with `offset $1` /
  `limit $n` clauses and passes the offset and limit as statement parameters.
  `getQueryOrderByAndDesc` extends it with `order by <column>` and an optional `desc`. The column
  is written into the text and no parameters are passed. Each helper is a total function
  `(defaultQuery, optional parameters) -> Option<Statement>`. A `Statement` is the text and the
  values handed to `connection.query`. `None` means nothing was emitted and the caller falls back
  to its own query. JavaScript truthiness of a query-string value is `RequestParams.Present`: the
  value was given and is not the empty string.
- **Request-body schemas.** `customersSchema`, `gamesSchema` and `rentalsSchema` are joi object
  schemas. Each is a function from a record of optional JSON values to `Valid | Invalid(key)`.
  `key` names the first failing key in declaration order, as joi reports by default.

The statement text is modelled character for character. Each template line starts with a line
break and 16 spaces, and the template ends with a line break and 12 spaces. Two readings of the
text carry the properties:

- `SqlText.Words` gives the whitespace-separated words, which shows which clauses appear and in
  what order.
- `SqlText.Placeholders` gives the numbers of the `$n` placeholders, which shows how values are
  bound. It reads the digit strings first (`PlaceholderDigits`) and then their values
  (`Numbers`).

The lemmas `WordsConcat` and `PlaceholdersConcat` show that laying lines out in the template
neither merges nor splits words or placeholders.

The regular expressions of the customer schema are written as terms of a small regex language
(`Pattern`), transcribed from the source. Lemmas prove what they accept in plain terms: digit
strings, months 01–12 and days 01–31.

Layout: `Wrappers.dfy` (Option), `Chars.dfy` (digits), `RequestParams.dfy`, `SqlText.dfy`, `OffsetAndLimit.dfy`,
`OrderByAndDesc.dfy`, `Pattern.dfy`, `Joi.dfy`, `CustomersSchema.dfy`, `GamesSchema.dfy`,
`RentalsSchema.dfy`.

Three points where the model follows the code as written:

- Offset and limit are not checked to be numeric. Any truthy value is passed through as a
  parameter.
- `stockTotal`, `categoryId` and `daysRented` are `number().greater(0)` with no integer rule, so
  fractions are accepted.
- The helpers build and run a statement and return its rows. The model stops at the statement.

## Model

| member | source | states |
|---|---|---|
| RequestParams.Present | src/utils/getQueryOffsetAndLimit.js:5 | JavaScript truthiness of a query-string parameter, as in `offset && limit`, `if (offset)` and `if (orderBy)`: it was given and is not the empty string |
| SqlText.Template | src/utils/getQueryOffsetAndLimit.js:6-10 | The multi-line template literal: a line break and 16 spaces before each line, a line break and 12 spaces before the closing backquote, so the text starts with a line break |
| QueryOffsetAndLimit.PresentValues | src/utils/getQueryOffsetAndLimit.js:11-31 | The value arrays `[offset, limit]`, `[offset]` and `[limit]`: the truthy parameters in that order; there are at most two and none is empty |
| QueryOffsetAndLimit.GetQueryOffsetAndLimit | src/utils/getQueryOffsetAndLimit.js:3-35 | A statement is emitted exactly when offset or limit is truthy; its values are the truthy ones among offset and limit, offset first, and nothing else |
| QueryOffsetAndLimit.ClauseTexts | src/utils/getQueryOffsetAndLimit.js:8-29 | The clause lines are the texts `offset $1`, `limit $2` (after OFFSET) and `limit $1` (alone) |
| QueryOffsetAndLimit.ClauseWords | src/utils/getQueryOffsetAndLimit.js:5-34 | The statement reads as the default query's words followed by `offset $1 limit $2` (both present), `offset $1` (only offset) or `limit $1` (only limit): OFFSET always before LIMIT, no clause for an absent parameter |
| QueryOffsetAndLimit.BothClauses | src/utils/getQueryOffsetAndLimit.js:5-13 | The both-present template reads as the default query, `offset $1`, `limit $2`, and adds placeholders 1 and 2 |
| QueryOffsetAndLimit.OffsetClauseOnly | src/utils/getQueryOffsetAndLimit.js:16-24 | The offset-only template reads as the default query then `offset $1`, and adds placeholder 1 |
| QueryOffsetAndLimit.LimitClauseOnly | src/utils/getQueryOffsetAndLimit.js:26-34 | The limit-only template reads as the default query then `limit $1`, and adds placeholder 1 |
| QueryOffsetAndLimit.PlaceholdersMatchValues | src/utils/getQueryOffsetAndLimit.js:6-31 | The placeholders of the statement are those of the default query followed by exactly $1..$n for its n values: the count of added placeholders equals the number of values, each bound once |
| QueryOffsetAndLimit.DefaultQueryKept | src/utils/getQueryOffsetAndLimit.js:6-28 | The default query stands unchanged at the start of every emitted statement, right after the template's opening line break and indentation |
| QueryOffsetAndLimit.TextIgnoresValues | src/utils/getQueryOffsetAndLimit.js:6-31 | The statement text depends only on which parameters are present, never on their values: values reach the database only as parameters |
| QueryOrderByAndDesc.OrderByClause | src/utils/getQueryOrderByAndDesc.js:8-19 | The line `order by ${orderBy}`: the keywords, then the column text interpolated unchecked |
| QueryOrderByAndDesc.GetQueryOrderByAndDesc | src/utils/getQueryOrderByAndDesc.js:3-25 | A statement is emitted exactly when orderBy is truthy, whatever desc is (even 'true'), and it carries no values |
| QueryOrderByAndDesc.OrderByClauseText | src/utils/getQueryOrderByAndDesc.js:8-19 | The ORDER BY line is the text `order by ` followed by the column exactly as given |
| QueryOrderByAndDesc.ClauseWords | src/utils/getQueryOrderByAndDesc.js:5-24 | The statement reads as the default query, `order by`, the column text's own words, then `desc` exactly when desc is the string 'true'; `desc` only ever follows the ORDER BY clause |
| QueryOrderByAndDesc.StatementPlaceholders | src/utils/getQueryOrderByAndDesc.js:11-21 | With no values passed, the statement's placeholders are those of the default query followed by those inside the column text |
| QueryOrderByAndDesc.TextKeepsQueryAndColumn | src/utils/getQueryOrderByAndDesc.js:6-20 | The default query stands verbatim after the opening indentation, and the column stands verbatim after `order by ` on the next line |
| QueryOrderByAndDesc.IdentifierColumnIsOneWord | src/utils/getQueryOrderByAndDesc.js:8-19 | With a plain identifier as column, the column is exactly one word of the statement and adds no placeholder |
| QueryOrderByAndDesc.ColumnCanCarryDesc | src/utils/getQueryOrderByAndDesc.js:16-21 | The column is not checked: for any word w, column text `w desc` with desc absent yields a statement ending `order by w desc`, so the desc parameter alone does not decide the direction |
| SqlText.TemplateWords | src/utils/getQueryOffsetAndLimit.js:6-10 | The words of a template literal are the words of its lines, line after line: the line breaks and indentation neither add, drop nor merge words |
| SqlText.TemplatePlaceholders | src/utils/getQueryOffsetAndLimit.js:6-10 | The placeholders of a template literal are those of its lines, line after line |
| SqlText.TemplateFirstLine | src/utils/getQueryOrderByAndDesc.js:6-7 | The first line of a template (the default query) stands verbatim right after the opening line break and indentation |
| Joi.IsRequiredString | src/schemas/customersSchema.js:4-6 | `joi.string().required()`: the key is present and holds a string, and the string is not empty (joi refuses `""` by default) |
| Joi.IsRequiredNumberGreater | src/schemas/rentalsSchema.js:4-7 | `joi.number().greater(0).required()`: the key is present and holds a number strictly above the limit |
| Joi.FirstFailure | src/schemas/customersSchema.js:3-23 | A schema's object is valid iff every key's rule passes; otherwise the reported key is the first failing one in declaration order |
| CustomersSchema.NameRule | src/schemas/customersSchema.js:4-6 | The name is a required non-empty string |
| CustomersSchema.PhoneRule | src/schemas/customersSchema.js:7-12 | The phone is a required string of length 10 to 11 that the digits pattern matches |
| CustomersSchema.CpfRule | src/schemas/customersSchema.js:13-17 | The cpf is a required string of length 11 that the digits pattern matches |
| CustomersSchema.BirthdayRule | src/schemas/customersSchema.js:18-22 | The birthday is a required string of length 10 that the date pattern matches |
| CustomersSchema.DigitsOnly | src/schemas/customersSchema.js:11 | The pattern `/^[0-9]+$/` as a regex term: one or more digits |
| CustomersSchema.MonthPattern | src/schemas/customersSchema.js:21 | The group `(0[1-9]\|1[012])` as a regex term |
| CustomersSchema.DayPattern | src/schemas/customersSchema.js:21 | The group `(0[1-9]\|[12][0-9]\|3[01])` as a regex term |
| CustomersSchema.BirthdayPattern | src/schemas/customersSchema.js:21 | The pattern `/^\d{4}\-MM\-DD$/` as a regex term: four digits, `-`, the month group, `-`, the day group |
| CustomersSchema.Validate | src/schemas/customersSchema.js:3-23 | A customer is valid iff the name, phone, cpf and birthday rules all hold; a missing key makes it invalid; the first failing key is the one reported |
| CustomersSchema.PhoneRuleMeaning | src/schemas/customersSchema.js:7-12 | A phone is accepted iff it is a string of 10 or 11 characters, all decimal digits |
| CustomersSchema.CpfRuleMeaning | src/schemas/customersSchema.js:13-17 | A cpf is accepted iff it is a string of exactly 11 decimal digits |
| CustomersSchema.MonthMeaning | src/schemas/customersSchema.js:21 | The month group, `0[1-9]` or `1[012]`, matches exactly the two-digit numbers 01 to 12 |
| CustomersSchema.DayMeaning | src/schemas/customersSchema.js:21 | The day group, `0[1-9]` or `[12][0-9]` or `3[01]`, matches exactly the two-digit numbers 01 to 31 |
| CustomersSchema.BirthdayPatternMeaning | src/schemas/customersSchema.js:21 | The birthday pattern matches exactly four digits, `-`, a month 01–12, `-`, a day 01–31 |
| CustomersSchema.BirthdayPatternFixesLength | src/schemas/customersSchema.js:20-21 | Every string the birthday pattern matches has length 10, so `.length(10)` is implied by the pattern |
| CustomersSchema.BirthdayRuleMeaning | src/schemas/customersSchema.js:18-22 | A birthday is accepted iff it is a string of the shape YYYY-MM-DD with month 01–12 and day 01–31 |
| CustomersSchema.ImpossibleBirthdayAccepted | src/schemas/customersSchema.js:21 | The pattern does not relate day to month: `2023-02-31` is accepted although it is no calendar date |
| CustomersSchema.ImpossibleBirthdayCustomerValid | src/schemas/customersSchema.js:3-23 | A complete customer born on `2023-02-31` validates |
| Pattern.Matches | src/schemas/customersSchema.js:11 | Anchored matching of a JavaScript regular expression without flags, as `.pattern()` applies it: the whole string is in the language of the term |
| Pattern.MatchLength | src/schemas/customersSchema.js:20-21 | Every match of a pattern whose parts all have fixed lengths has that length |
| Pattern.PlusRange | src/schemas/customersSchema.js:11 | `[0-9]+` (any `[lo-hi]+`) matches exactly the non-empty strings of characters in the range |
| Pattern.TimesRange | src/schemas/customersSchema.js:21 | `\d{4}` (any `[lo-hi]{n}`) matches exactly the strings of n characters in the range |
| GamesSchema.ImageRule | src/schemas/gamesSchema.js:7-10 | The image is a required non-empty string that the URI check accepts |
| GamesSchema.Validate | src/schemas/gamesSchema.js:3-23 | A game is valid iff name is a non-empty string, image a string the URI check accepts, and stockTotal, categoryId and pricePerDay numbers strictly above 0; a missing key is invalid and the first failing key is reported |
| GamesSchema.ValidNumbers | src/schemas/gamesSchema.js:11-22 | With a good name and image, a game is valid exactly when its three numbers are all strictly positive: 0 is rejected, no integrality is required |
| RentalsSchema.Validate | src/schemas/rentalsSchema.js:3-16 | A rental is valid iff customerId, gameId and daysRented are all numbers strictly above 0; a missing key is invalid and the first failing key is reported |
| RentalsSchema.ValidNumbers | src/schemas/rentalsSchema.js:4-15 | A rental of three numbers is valid exactly when all three are strictly positive: daysRented 0 is rejected, fractions are accepted |

## Left out

- src/app.js is not modelled. It holds Express routing, the pooled connection, logging and
  `app.listen`, which are all I/O. Its category check-then-insert compares the rows array with
  `0` and so always answers 409; that handler is outside the modelled core.
- `src/schemas/categorySchema.js` and `src/database/database.js` are not part of this model.
- The database call is modelled as the emitted `Statement`. The rows it returns, the SQL meaning
  of OFFSET/LIMIT/ORDER BY, `async`/`await` and database errors are not modelled. For the ORDER BY
  helper, which calls `connection.query` without a parameter list, the statement's value list is
  empty.
- `SqlText.Words` splits on whitespace only, and `SqlText.Placeholders` scans for `$` followed by
  digits. Neither knows SQL string literals, comments or dollar quoting.
- Query parameters that are arrays or other non-string values are not modelled. A parameter is
  either absent or a string.
- joi's URI grammar behind `.uri()` is not modelled. `GamesSchema.Validate` takes it as a
  parameter `isUri`.
- GamesSchema.Validate: rejects a numeric string such as `"5"` for a number key, although joi's
  default conversion would accept it. It also accepts numbers beyond ±(2^53−1), which joi's
  `number()` refuses by default as unsafe.
- RentalsSchema.Validate: rejects a numeric string such as `"5"` for a number key, although joi's
  default conversion would accept it. It also accepts numbers beyond ±(2^53−1), such as a
  `customerId` of 1e16, which joi's `number()` refuses by default as unsafe.
- Unknown keys are not modelled: the records have exactly the schema's keys. joi refuses unknown
  keys by default.
- JavaScript numbers are modelled as `real`. IEEE rounding, NaN, Infinity and joi's
  safe-integer range check are not modelled.
- Rental pricing, late fees, stock counting and the return/delete rules are not implemented in
  any of the modelled files, so they are not modelled.
- Concurrency between requests is not modelled.
