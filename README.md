# Feedback list query builder

A Dafny model of the list query behind `GET /feedback` in the feedback
service (`getFeedbacks`, controllers.js). The handler reads the optional
`category` and `status` filters and the `sortBy`, `order`, `page` and `limit`
query parameters. It then builds a PostgreSQL statement text with positional
parameters `$1 .. $n` and the list of values bound to them:

- each truthy filter pushes an equality predicate numbered one past the values
  pushed so far, then pushes its value;
- the predicates are joined by `AND` under a single `WHERE`;
- `ORDER BY <sortBy> <order>` is appended with both parts copied in verbatim;
- `LIMIT` and `OFFSET` parameters come next, bound to `limit` and
  `(page - 1) * limit`.

Files:

- `wrappers.dfy`: `Option`, used for query parameters that may be absent.
- `decimal.dfy`: decimal rendering of a parameter number (`NatToString`), as
  JavaScript does when it concatenates a number to a string, and its inverse.
- `sql_text.dfy`: scanning a statement text character by character.
  `Placeholders` lists, in textual order, every `$` directly followed by
  digits. `Count` counts the occurrences of a word, with the letters matched
  exactly. Both are shown to split over concatenation when the join cannot
  glue two tokens together. Neither one lexes SQL: comments, quoted text and
  keyword case are not taken into account.
- `feedback_query.dfy`: the request, value and query datatypes. It has the
  declarative `BuildFeedbackQuery`, clause by clause, and the method
  `GetFeedbacksQuery`, which builds the query step by step as the handler
  does (push onto `filters` and `values`, `+=` onto the text, numbering from
  `values.length`). The method is proved equal to `BuildFeedbackQuery`.
- `feedback_query_properties.dfy`: what the builder guarantees, stated about
  the text and value list of `BuildFeedbackQuery`.

Modelling choices:

- A query parameter missing from the URL is `None`. The destructuring
  defaults (`created_at`, `desc`, page 1, limit 10) apply only then, as in
  JavaScript. An empty `sortBy` stays empty.
- Filters follow JavaScript truthiness: an absent or empty-string filter is
  off, and any other string is on.
- `page` and `limit` are integers. The offset is `(page - 1) * limit`, with
  no bound check.
- A bound value is `Text` (a filter value) or `Num` (limit and offset).

Nothing checks `sortBy` or `order` against an allow-list before they are
interpolated, and the model follows the code. `PlaceholderLayout`, `WhereCount`
and `UncheckedSortByAddsParameter` state what unchecked text in those two
parameters adds to the statement when the text is scanned character by
character: which `$k` it contains, and how many WHERE words.

## Model

| member | source | states |
|---|---|---|
| FeedbackQuery.GetFeedbacksQuery | controllers.js:111-130 | The step-by-step construction yields the same text and value list as the declarative definition: each parameter is numbered from the count of values pushed before it, the WHERE clause is added only when a filter was pushed, and limit and offset are pushed last. |
| FeedbackQuery.BuildFeedbackQuery | controllers.js:111-130 | The query getFeedbacks sends, built clause by clause: `SELECT * FROM feedback`, then `WhereClause` (lines 125-127: the `Predicates` of lines 118 and 122, joined with AND by `Join` at line 126), then `OrderClause` (line 129, `sortBy` and `order` copied in raw), then `PageClause` (line 129). The values are the filter values, then `limit`, then `Offset` (line 130). Its own ensures state that the text starts with `SELECT * FROM feedback`, that there are `f + 2` values for the `f` filters, and that the last two are `limit` and `(page - 1) * limit`. The rest of what it promises is in the FeedbackQueryProperties lemmas below. |
| FeedbackQuery.ActiveFilters | controllers.js:117-124 | At most two filters are switched on, and only on the `category` and `status` columns. |
| Decimal.NatToStringRoundTrip | controllers.js:118 | The number appended after `$` is a non-empty run of digits with no leading zero that reads back as the same number. |
| FeedbackQueryProperties.JoinedPredicatePlaceholders | controllers.js:117-126 | The predicates joined with AND carry the parameters `$k, $(k+1), ...`, one per filter, in filter order. |
| FeedbackQueryProperties.PlaceholderLayout | controllers.js:117-129 | For every request, the `$k` parameters found by scanning the text, in order, are `$1 .. $f` for the `f` filters, then whatever `sortBy` and `order` contain, then `$(f+1)` for LIMIT and `$(f+2)` for OFFSET. |
| FeedbackQueryProperties.PlaceholdersAligned | controllers.js:115-130 | When `sortBy` and `order` contain no `$`, the value list has `f + 2` entries and the parameters in the text are exactly `$1 .. $n` in increasing order, with `n` the number of values. So, scanned character by character, the text names one parameter per value, in order. |
| FeedbackQueryProperties.UncheckedSortByAddsParameter | controllers.js:129 | A `sortBy` equal to `$k` becomes a parameter of the statement, between the filter parameters and LIMIT's, while the value list still has only `f + 2` entries. Nothing rejects it. |
| FeedbackQueryProperties.WhereClauseCount | controllers.js:125-127 | The WHERE clause contains the word WHERE once when there is a filter and not at all when there is none. |
| FeedbackQueryProperties.WhereCount | controllers.js:113-129 | The number of WHERE occurrences in the statement is 1 if a filter is present and 0 otherwise, plus whatever the unchecked `sortBy` and `order` contain. |
| FeedbackQueryProperties.UnfilteredShape | controllers.js:113-130 | With no truthy filter, the text is `SELECT * FROM feedback ORDER BY <sortBy> <order> LIMIT $1 OFFSET $2` and the values are `[limit, offset]`. |
| FeedbackQueryProperties.CategoryShape | controllers.js:117-120 | With only a category, the text is `... WHERE category = $1 ORDER BY ... LIMIT $2 OFFSET $3` and the category value comes first. |
| FeedbackQueryProperties.StatusShape | controllers.js:121-124 | With only a status, the status predicate gets `$1`: `... WHERE status = $1 ORDER BY ... LIMIT $2 OFFSET $3`, and the status value comes first. |
| FeedbackQueryProperties.BothFiltersShape | controllers.js:117-126 | With both filters, the text is `... WHERE category = $1 AND status = $2 ORDER BY ... LIMIT $3 OFFSET $4` and the values are `[category, status, limit, offset]`. |
| FeedbackQueryProperties.QueryShape | controllers.js:113-130 | The four cases together. The value list is always `[category?] ++ [status?] ++ [limit, (page-1)*limit]`, and the ORDER BY clause is `sortBy`, a space, then `order`, as given. |
| FeedbackQueryProperties.DefaultQuery | controllers.js:111-130 | With no query parameters, the statement is `SELECT * FROM feedback ORDER BY created_at desc LIMIT $1 OFFSET $2` with values `[10, 0]`. |
| FeedbackQueryProperties.CategoryFilterOnlyWhenTruthy | controllers.js:117-120 | An absent or empty category gives the same query as no category at all. A truthy one adds exactly one value, its own, at the front. Both directions are proved. |
| FeedbackQueryProperties.StatusFilterOnlyWhenTruthy | controllers.js:121-124 | An absent or empty status gives the same query as no status. A truthy one adds exactly one value, its own, after the category's and before limit and offset. Both directions are proved. |
| FeedbackQueryProperties.Paging | controllers.js:129-130 | The last two values are `limit` and `(page - 1) * limit`. Page 1 gives offset 0. Moving to the next page leaves the text and all other values unchanged and advances the offset by `limit`. A page below 1 with a positive limit gives a negative offset, because nothing checks it. |

## Left out
- PlaceholdersAligned, PlaceholderLayout, WhereCount, UncheckedSortByAddsParameter: these read the text character by character, not as PostgreSQL lexes it. SQL comments, quoted literals and identifiers, and case-insensitive keywords are not modelled. For example, `order = "desc --"` meets PlaceholdersAligned's precondition, and the lemma still lists `$1` and `$2`. PostgreSQL, though, reads `... desc -- LIMIT $1 OFFSET $2` as a comment after `desc`, with no parameter. Likewise, `sortBy = "x where"` adds a lower-case keyword that WhereCount does not count.
- Running the statement (`query(...)`) and sending the rows or the HTTP 500 error response (controllers.js:132-136): database and HTTP I/O.
- JavaScript coercion of query-string values: `page` and `limit` arrive as strings. The model takes them as integers, so it binds `limit` as a number and does not model `NaN` from non-numeric input. JavaScript also computes `(page - 1) * limit` in floating point, which is exact only up to 2^53. The model's `int` is unbounded, so rounding of larger offsets is not modelled.
- A repeated query parameter (`?category=a&category=b`) arrives as an array in Express. The model takes every parameter as a single string.
- `Array.prototype.join` is modelled by the function `Join`, not by the library's own loop.
- `register`, `login`, `getUserById`, `updateAvatar`, `createFeedback`, `upvoteFeedback`, `getCategoriesAndStatuses`, `authMiddleware` and `registerRoutes` (controllers.js:8-106, 140-173), and the server bootstrap in index.js. Each is one database statement, a call into bcrypt, jsonwebtoken or multer, or routing, with no logic of its own to state.
