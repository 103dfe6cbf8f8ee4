# DPR member directory: query builder, pagination, statistics classifiers and CSV export

This project is a Dafny model of the logic in `server.js`, the Express/SQLite back end of a
directory of members of the Indonesian House of Representatives (DPR RI). It covers four pieces
of that file:

- **The two statement builders** of `DPRDatabase`. `search` and `getSearchCount` grow a SQL
  string and a list of bound values step by step.
  - A non-empty free-text query adds a six-column OR group.
  - Each truthy filter value (`fraksi`, `partai`, `agama`, `pendidikan`, `minUsia`, `maxUsia`)
    adds one condition.
  - `search` then appends an ORDER BY clause, built from an allow-listed sort field and an
    ASC/DESC direction, and ` LIMIT ? OFFSET ?`.
- **The pagination arithmetic** of `GET /api/members` and `POST /api/search`: the row offset of
  a page, `Math.ceil(total / limit)`, and the `hasNext` and `hasPrev` flags.
- **The two `CASE` classifiers** of the statistics query: the age band of `byUsia` and the
  name-pattern gender guess of `byGender`, with the counts their `GROUP BY` reports.
- **The CSV rendering** of `GET /api/export?format=csv`: a header line, then one line per row.
  Text cells are quoted but not escaped.

Modules:

| file | module | what it holds |
|---|---|---|
| `wrappers.dfy` | `Wrappers` | `Option`, used for nullable columns and for omitted request keys |
| `strings.dfy` | `Strings` | character counting, `join`/`split`, decimal numerals and how they parse back |
| `js.dfy` | `Js` | JSON-shaped request values, JavaScript truthiness, template-literal text |
| `sql.dfy` | `Sql` | SQLite's ASCII `lower()`, `LIKE` without ESCAPE, `LIMIT`/`OFFSET` on a result |
| `members.dfy` | `Members` | one `anggota_dpr` row |
| `query_builder.dfy` | `QueryBuilder` | the statement text as pieces and the two builder methods, proved against the functions `SelectSql`, `CountSql` and `WhereParams` |
| `search_semantics.dfy` | `SearchSemantics` | what the built WHERE clause accepts on a row, and which conditions and values a request adds |
| `pagination.dfy` | `Pagination` | offset, page count and flags |
| `handlers.dfy` | `Handlers` | the three endpoints, from request values to the statements they run |
| `stats.dfy` | `Stats` | the age-band and gender classifiers and their tallies |
| `export.dfy` | `Export` | the CSV document, the export loop, and reading a line back |

Statement text is modelled as a list of pieces: literal fragments, none containing `?`, and
placeholder marks. This lets the placeholder count be proved without evaluating long string
literals. The line breaks inside the source's multi-line template literal are LF: a template
literal holds LF even where the file has CRLF line ends.

## Model

| member | source | states |
|---|---|---|
| Js.Truthy | server.js:130-164 | the `if (x)` test: false exactly for `undefined`, `null`, `false`, `0` and `''` |
| Js.ToText | server.js:145-157 | the text `${x}` inserts: `undefined`, `null`, `true`/`false`, the decimal numeral of a number, a string unchanged |
| QueryBuilder.FragmentText | server.js:126-177 | the literal text of each fragment the builders append: the two statement heads, the lines of the OR group, ` AND `, `LOWER(col) LIKE LOWER(`, ` AND agama = `, ` AND usia >= `, ` AND usia <= `, ` ORDER BY field dir`, ` LIMIT `, ` OFFSET ` |
| QueryBuilder.CondPieces | server.js:131-166 | the fragment each condition appends, with one placeholder mark per `?` |
| QueryBuilder.CondParams | server.js:140-166 | the values each condition pushes: six copies of `%query%`; `%v%` for `fraksi`, `partai` and `pendidikan`; the raw value for `agama`, `minUsia` and `maxUsia` |
| QueryBuilder.Holds | server.js:130-164 | the guard of each step: a non-empty query, or a truthy filter value |
| QueryBuilder.Conds | server.js:130-167 | the conditions a request adds, in source order: each one whose guard holds |
| QueryBuilder.SelectSql | server.js:126-177 | the row statement: its head, the WHERE conditions, ` ORDER BY field dir` and ` LIMIT ? OFFSET ?` |
| QueryBuilder.CountSql | server.js:193-233 | the count statement: its head and the WHERE conditions, with no ORDER BY and no LIMIT |
| QueryBuilder.Search | server.js:116-178 | the row statement is `SelectSql` of the chosen conditions under the normalised sort field and direction; the bound values are the WHERE values followed by `limit` then `offset` (defaults 25 and 0); and the text has exactly one `?` per bound value |
| QueryBuilder.GetSearchCount | server.js:191-233 | the count statement is `CountSql` of the same chosen conditions, its values are the same WHERE values, and it has one `?` per value |
| QueryBuilder.AddConditions | server.js:130-167 | the shared `if (...) { sql += ...; params.push(...) }` sequence appends exactly the pieces and values of `Conds(query, filters)`, in source order, after what was already there |
| QueryBuilder.AddIf | server.js:144-147 | one step: when its test holds, it appends the condition's fragment and values; either way the accumulated state equals the first `k+1` steps of the specification `Chosen` |
| QueryBuilder.AddPartyFilters | server.js:144-151 | the `fraksi` and `partai` steps take the state from the first step of `Chosen` to the first three |
| QueryBuilder.AddProfileFilters | server.js:152-159 | the `agama` and `pendidikan` steps take the state from three steps of `Chosen` to five |
| QueryBuilder.AddRangeFilters | server.js:160-167 | the `minUsia` and `maxUsia` steps take the state from five steps of `Chosen` to all seven |
| QueryBuilder.ChosenNone | server.js:130-167 | when no test among the first `k` holds, no condition is chosen |
| QueryBuilder.WhereShape | server.js:130-167 | the WHERE pieces contain no literal `?`, and they hold as many marks as there are WHERE values |
| QueryBuilder.CondShape | server.js:131-166 | each condition's fragment has one mark per value it binds: six for the OR group, one for each filter |
| QueryBuilder.RenderCount | server.js:126-177 | in a list of pieces with no literal `?`, the `?` characters of the rendered text are exactly the marks |
| QueryBuilder.SafeText | server.js:126-177 | no literal fragment of either statement contains `?`, once the interpolated sort field and direction contain none |
| QueryBuilder.SortField | server.js:170-171 | the sort field is always one of `nama`, `fraksi`, `partai`, `usia`, `created_at`; it is `sortBy` when `sortBy` is one of them, else `nama` |
| QueryBuilder.SortFieldSafe | server.js:170-174 | an allow-listed sort field contains no `?`, so interpolating it into ORDER BY adds no placeholder |
| QueryBuilder.SortDir | server.js:172 | the direction is `ASC` or `DESC`, and it is `DESC` exactly when `sortOrder.toUpperCase()` is `DESC` |
| QueryBuilder.SortDirDescending | server.js:172 | `DESC` is chosen exactly for four-character values whose upper-cased characters spell D, E, S, C |
| QueryBuilder.SortDirExamples | server.js:172 | `desc`, `Desc` and `DESC` give DESC; `ASC`, `asc`, `descending` and the empty string give ASC |
| QueryBuilder.CountPlaceholders | server.js:193-233 | the count statement has one `?` per WHERE value |
| QueryBuilder.SelectPlaceholders | server.js:126-178 | the row statement has one `?` per WHERE value, plus two for LIMIT and OFFSET |
| QueryBuilder.LimitOffsetText | server.js:177 | the pagination suffix reads ` LIMIT ? OFFSET ?` |
| QueryBuilder.StatementsShareWhere | server.js:126-177 | both statements carry the same WHERE text after their own head; only the row statement then adds ORDER BY and ` LIMIT ? OFFSET ?` |
| SearchSemantics.BoundText | server.js:131-153 | how SQLite reads a bound value against a TEXT column: a string as itself, a number as its numeral, a boolean as 1 or 0, `undefined` and `null` as NULL |
| SearchSemantics.BoundNumber | server.js:160-166 | how SQLite reads a bound value against the INTEGER `usia` column: an integer numeral string as its number, other text as text (after every number), a boolean as 1 or 0, `undefined` and `null` as NULL |
| SearchSemantics.Eval | server.js:131-166 | whether one condition, given its values, accepts a row: the OR group when one of its six LIKE tests holds, and each filter by its own LIKE, `=`, `>=` or `<=` test, a NULL failing every test |
| SearchSemantics.Accepts | server.js:126-167 | `1=1 AND c1 AND c2 ...`: every condition accepts the row, each taking its values from the front of what is left of the value list |
| SearchSemantics.CondsOccurrence | server.js:130-167 | each condition occurs at most once among those added, and it occurs exactly when its test holds (a non-empty query, or a truthy filter value), so `minUsia: 0` or `fraksi: ""` adds nothing |
| SearchSemantics.ChosenOccurrence | server.js:130-167 | among the first `k` steps, a condition is added as often as it appears in those steps when its test holds, and never otherwise |
| SearchSemantics.OrderOnce | server.js:130-167 | the builders test each of the seven conditions once |
| SearchSemantics.ParamCount | server.js:130-167 | the WHERE values number six for a non-empty query, plus one per truthy filter value |
| SearchSemantics.ChosenArity | server.js:130-167 | the number of WHERE values of the first `k` steps is the sum of the arities of the tests that hold |
| SearchSemantics.QueryParams | server.js:130-141 | a non-empty query binds the same `%query%` text to the first six placeholders; an empty query adds no OR group |
| SearchSemantics.ChosenSplit | server.js:130-167 | the conditions chosen in the first `k` steps are those of the first `j` steps, followed by those of the next `k-j` |
| SearchSemantics.WhereMeansMatches | server.js:126-167 | with the values both builders bind, the WHERE clause accepts a row exactly when the row matches the request: the query occurs in one of the six columns, and each truthy filter's test holds on its own column |
| SearchSemantics.AcceptsChosen | server.js:130-167 | the clause of the first `k` steps accepts a row exactly when every condition whose test holds among them is met |
| SearchSemantics.AcceptsConcat | server.js:130-167 | a clause made of two clauses accepts a row exactly when each part accepts it with its own values |
| SearchSemantics.QueryGroup | server.js:131-139 | the OR group is met exactly when `%query%` matches one of `nama`, `fraksi`, `partai`, `dapil`, `kota_lahir`, `pendidikan_terakhir` |
| SearchSemantics.AllMetOrder | server.js:130-167 | all chosen conditions are met exactly when each of the seven tests that holds has its condition met |
| SearchSemantics.FilterMeaning | server.js:144-167 | `fraksi`, `partai` and `pendidikan` match the `%value%` pattern on their column; `agama` compares equal as text; the age bounds compare `usia` with the raw value |
| SearchSemantics.MetAll | server.js:130-167 | meeting every chosen condition is the same as matching the request |
| SearchSemantics.NoFiltersMatchAll | server.js:388-389 | with no query and no filters, every row matches |
| SearchSemantics.ContainsLikeMeaning | server.js:144-147 | for a value with no `%` or `_`, a filter is case-insensitive (ASCII) substring containment |
| SearchSemantics.AgeRange | server.js:160-167 | numeric, non-zero `minUsia` and `maxUsia` select, among the rows the query and the other filters select, exactly those with an age between them, inclusive |
| SearchSemantics.WildcardInFilter | server.js:144-147 | a `_` inside a filter value keeps its wildcard meaning: it matches every non-empty column value |
| Sql.LikeContains | server.js:131-139 | `s LIKE '%v%'` holds exactly when `v` occurs in `s` up to ASCII case, for a wildcard-free `v` |
| Sql.LikePrefix | server.js:287-288 | `s LIKE 'v%'` holds exactly when `v` is a prefix of `s` up to ASCII case, for a wildcard-free `v` |
| Sql.LowerLikeContains | server.js:144-147 | `LOWER(x) LIKE LOWER('%v%')` is containment up to ASCII case |
| Sql.LowerLikePrefix | server.js:287-288 | `LOWER(nama) LIKE 'hj.%'` and `'h.%'` are prefix tests up to ASCII case |
| Sql.LowerLikeInfix | server.js:287-288 | `LOWER(nama) LIKE '%siti%'` and the other infix patterns are containment tests up to ASCII case |
| Sql.UnderscoreMatchesAnyChar | server.js:144-147 | the pattern `%_%` matches every non-empty string |
| Sql.Window | server.js:177-178 | `LIMIT n OFFSET o` on a result: a negative offset counts as zero, a negative limit as no limit, and the result is the contiguous run of rows from the clamped offset |
| Pagination.Offset | server.js:380 | the rows skipped before a page: `(page-1)*limit`, with no clamping of the page number |
| Pagination.TotalPages | server.js:390 | for a positive page size, the page count is the least that holds the total: `(pages-1)*limit < total <= pages*limit` |
| Pagination.Paginate | server.js:390-401 | the `pagination` object: the current page, item count and page size as given, `totalPages` as above, `hasNext` exactly when the page is before the last, `hasPrev` exactly when it is after the first |
| Pagination.HasNextMeaning | server.js:380-400 | there is a next page exactly when the rows up to the end of this page are fewer than the total |
| Pagination.HasNextWindow | server.js:380-400 | there is a next page exactly when the window the next page fetches is non-empty, for any page when there are rows and from page 0 on when there are none |
| Pagination.EmptyTotal | server.js:437-450 | no rows give zero pages, and a next page only for a negative page number |
| Pagination.FirstPage | server.js:426-451 | page 1 starts at row 0 and has no previous page |
| Pagination.FirstOfTwoPages | server.js:437-451 | page 1 of 30 rows at 25 per page gives 2 pages, a next page and no previous one |
| Pagination.PagesPrefix | server.js:380-390 | the windows of pages 1 to `n` together are the first `n*limit` rows |
| Pagination.PagesCoverRows | server.js:380-390 | walking pages 1 to `totalPages` returns every row once, in order |
| Handlers.RunPage | server.js:380-390 | the steps both paginated endpoints share: the offset `(page-1)*limit`, the row statement with its values, the count statement under the same conditions with the same WHERE values, and the pagination object |
| Handlers.MembersPage | server.js:372-401 | `GET /api/members` with the defaults page 1, limit 25, `nama`, `ASC`: no query, no filters, and LIMIT/OFFSET values `limit` and `(page-1)*limit` |
| Handlers.SearchPage | server.js:417-451 | `POST /api/search`: the same steps under the request's query and filters, with the same defaults and the query and filters defaulting to `''` and `{}` |
| Handlers.ExportRows | server.js:532 | the export fetch: every row ordered by `nama ASC`, at most 10000, from the first |
| Handlers.NoConditions | server.js:388-389 | with no query and no filters, no condition is added and no WHERE value is bound |
| Js.FalsyValues | server.js:130-167 | the values that add nothing are exactly `undefined`, `null`, `false`, `0` and `''` |
| Stats.AgeLabel | server.js:271-276 | the `kategori_usia` text of each band |
| Stats.AgeBandOf | server.js:270-276 | for whole ages: only a NULL age is unknown, and every known age lands in a band whose range holds it (below 30, 30 to 40, 41 to 50, 51 to 60, above 60) |
| Stats.BandsDisjoint | server.js:270-276 | no age lies in two bands |
| Stats.AgeLabelRoundTrip | server.js:270-277 | each `kategori_usia` label reads back as its band, so grouping by label is grouping by band |
| Stats.AgeBands | server.js:268-282 | the band of each row, in table order |
| Stats.AgeCountsTotal | server.js:268-282 | the six counts of `byUsia` add up to the number of rows |
| Stats.Tally | server.js:279-281 | a group count is at most the number of rows, and it is positive exactly when the group occurs |
| Stats.GenderLabel | server.js:287-289 | the `gender` text of each guess |
| Stats.GenderLabelRoundTrip | server.js:286-290 | each `gender` label reads back as its guess, so grouping by label is grouping by guess |
| Stats.GenderOf | server.js:286-290 | the `CASE` on `LOWER(nama)`: `Perempuan` when one of the four female patterns matches, else `Laki-laki` when one of the three male patterns does, else `Tidak diketahui` |
| Stats.FemalePatterns | server.js:287 | the female arm holds exactly when the name starts with `hj.` or contains `siti`, `dewi` or `sri`, up to ASCII case |
| Stats.MalePatterns | server.js:288 | the male arm holds exactly when the name starts with `h.` or contains `ahmad` or `muhammad`, up to ASCII case |
| Stats.GenderMeaning | server.js:286-290 | the guess, in terms of those markers: female when a female marker is present; male when none is but a male marker is; unknown otherwise |
| Stats.FemaleFirstExample | server.js:286-290 | `Hj. Ahmad` carries markers of both kinds and is counted as female |
| Stats.Genders | server.js:284-294 | the guess for each row, in table order |
| Stats.GenderCountsTotal | server.js:284-294 | the three counts of `byGender` add up to the number of rows |
| Export.TextOf | server.js:545-553 | `x || ''` on a text column: NULL becomes the empty text |
| Export.Quoted | server.js:545-553 | `"${v}"`: the text between two double quotes, nothing escaped |
| Export.UsiaCell | server.js:552 | `member.usia || ''`: empty for NULL and for 0, else the decimal numeral |
| Export.FlagCell | server.js:554-555 | `Ya` exactly when the value is the text `'1'`, else `Tidak` |
| Export.CsvRow | server.js:543-556 | the twelve cells of a member's line, in header order |
| Export.CsvDocument | server.js:540-557 | the header line and a newline, then each member's line followed by a newline |
| Export.ExportCsv | server.js:540-558 | the `forEach` loop builds exactly `CsvDocument`: the header line and a newline, then each member's line and a newline, in input order |
| Export.DocumentLines | server.js:540-557 | when no text field contains a newline, the document splits at newlines into the header, one line per member in order, and an empty remainder |
| Export.HeaderCells | server.js:535-540 | the header line splits back into the twelve column names |
| Export.RowCells | server.js:543-556 | cell by cell: the id, the seven quoted texts, the age cell, the quoted education and the two flag cells |
| Export.RowRoundTrip | server.js:543-557 | with no comma in any text field, splitting a line and unquoting gives back the id, the texts (NULL read as empty), the age unless it is 0 or NULL, and whether each flag is `'1'` |
| Export.RowSplit | server.js:543-557 | with no comma in any text field, a line splits at its commas into exactly its twelve cells |
| Export.CellCount | server.js:543-557 | a line has twelve cells plus one more per comma inside a text field: the quotes are not escapes |
| Export.RowCommas | server.js:543-557 | the commas of a line are exactly those of its text fields |
| Export.UnquoteQuoted | server.js:545-553 | a quoted cell unquotes to the value unchanged |
| Export.RowAvoids | server.js:543-557 | a character that is not in any text field, not a quote, digit or `-`, and not in `Ya`/`Tidak`, is not in any cell of the line |
| Export.QuotedAll | server.js:545-553 | each text becomes `"` + text + `"`, in order |
| Export.RowLines | server.js:542-557 | one line per member, in input order |
| Strings.IntToStringRoundTrip | server.js:544 | the decimal text of an integer parses back to it |
| Strings.ParseNatToString | server.js:544 | the decimal numeral of a natural number parses back to it |
| Strings.SplitJoin | server.js:540 | splitting at a separator undoes joining with it, when no element contains the separator |
| Strings.CountJoin | server.js:557 | the separators in a joined line are those in the elements, plus one fewer than there are elements |

## Left out

- Express wiring, CORS, static files, error middleware and shutdown are I/O and are not modelled.
- Opening the database and creating the schema and indexes are I/O and are not modelled.
- Running the statements (`db.all`, `db.get`), the promise plumbing and the error-to-500 responses are not modelled. The handlers take the count the count statement returns as a parameter. `SearchSemantics` states what the WHERE clause accepts on a single row.
- ORDER BY's effect on row order is not modelled; only the clause text of the row statement is.
- The `ORDER BY count DESC` of the `byUsia` and `byGender` queries and their `(label, count)` result rows are not modelled, neither as text nor as order; Stats models the classifier of each row and the count of each group (Stats.Tally).
- The callback fan-out of `getStats` and `getFilterOptions`, with its shared completion counter and per-key "error gives an empty list" rule, is concurrency plumbing and is not modelled.
- The other `getStats` queries (`total`, `byFraksi`, `byPartai`, `byPendidikan`, `byAgama`, `avgAge`, `recentMembers`), `getFilterOptions` and `getMemberById` are not part of this model.
- `AVG(usia)` in `byUsia` is a floating-point value and is not modelled; only the band and the count of each group are.
- Pagination.TotalPages: `Math.ceil(total / limit)` is modelled as integer ceiling division for a positive limit. A zero limit (Infinity in JavaScript), a negative limit and NaN are not modelled.
- Handlers.RunPage, Handlers.MembersPage, Handlers.SearchPage: these require `limit > 0` for the same reason, because their pagination object is built with Pagination.TotalPages. A request with a zero or negative limit is not modelled.
- Handlers.MembersPage, Handlers.SearchPage: a page and limit are taken as the integers `parseInt` produced; reading the query string is not modelled. Non-integer numbers and NaN are not modelled.
- Handlers.SearchPage: the query is taken after `query.trim()`; trimming itself is not modelled.
- QueryBuilder.SortDir: `toUpperCase` is modelled on ASCII letters and on U+017F (the one other character JavaScript upper-cases to a letter of `DESC`). A `sortOrder` that is not a string is not modelled.
- Js values: arrays and objects as filter values, and non-integer numbers, are not modelled; Js.ToText gives the text of the other values.
- SearchSemantics.AtLeastHolds and SearchSemantics.AtMostHolds: SQLite's type affinity is modelled only for integer numerals against the INTEGER `usia` column. Other numeric text stays text, which SQLite orders after every number.
- Js.ToText, Strings.IntToString: JavaScript numbers are doubles, but the model's are exact integers. The decimal text is right only for magnitudes below 2^53 written without exponent form: JavaScript writes `1e+21` from 10^21 on. Above 2^53, `parseInt` and `(page-1)*limit` also stop being exact. This reaches the `%v%` filter patterns, the CSV id and age cells, and the row offset.
- Stats.AgeBandOf: ages are whole numbers (`Members.usia` is `Option<int>`). The INTEGER-affinity column can still hold a REAL such as 40.5. Such an age fails every arm of the CASE when it lies strictly between 40 and 41, 50 and 51, or 60 and 61, and so comes out `Tidak diketahui`; the model does not capture this.
- Timestamps and database defaults are not modelled.
- The JSON export format of `GET /api/export` is not modelled; only the CSV form is.
- Pagination.HasNextWindow: requires `page >= 0` or at least one row. Below page 0, `hasNext` is always true and the next window starts at row 0 (SQLite treats a negative offset as 0), so that window is empty only when there are no rows. That case is stated by Pagination.EmptyTotal.
- Export.DocumentLines, Export.RowSplit, Export.RowRoundTrip: these are stated for text fields without newlines or commas. The export does not escape either, so other values do not read back (Export.CellCount states by how much a line then grows).
- Page numbers are not clamped: the source does no clamping, so the model does none either, even where an informal description of the API says a non-positive page is treated as page 1.
