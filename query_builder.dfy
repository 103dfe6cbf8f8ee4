/** `DPRDatabase.search` and `DPRDatabase.getSearchCount`: a free-text query and a filter object
    become a parameterised SQL statement (the text, with `?` placeholders) and the list of values
    bound to those placeholders, in order. */
module QueryBuilder {
  import opened Wrappers
  import opened Strings
  import opened Js

  /** The `filters` object of a search request; a key that is absent is `Undefined`. */
  datatype Filters = Filters(
    fraksi: JsValue,
    partai: JsValue,
    agama: JsValue,
    pendidikan: JsValue,
    minUsia: JsValue,
    maxUsia: JsValue)

  /** `filters = {}`. */
  const NoFilters := Filters(Undefined, Undefined, Undefined, Undefined, Undefined, Undefined)

  /** The `options` object; an absent key takes the destructuring default. */
  datatype SearchOptions = SearchOptions(
    limit: Option<int>,
    offset: Option<int>,
    sortBy: Option<string>,
    sortOrder: Option<string>,
    filters: Option<Filters>)

  function LimitOf(o: SearchOptions): int { o.limit.GetOr(25) }
  function OffsetOf(o: SearchOptions): int { o.offset.GetOr(0) }
  function SortByOf(o: SearchOptions): string { o.sortBy.GetOr("nama") }
  function SortOrderOf(o: SearchOptions): string { o.sortOrder.GetOr("ASC") }
  function FiltersOf(o: SearchOptions): Filters { o.filters.GetOr(NoFilters) }

  // ---------------------------------------------------------------------------------------
  // SQL text. A statement is built as a list of pieces: fragments of literal text, none of which
  // contains `?`, and placeholder marks, each rendered as `?`.

  /** The columns the LIKE tests read. */
  datatype Column = Nama | Fraksi | Partai | Dapil | KotaLahir | PendidikanTerakhir

  function ColumnName(col: Column): string {
    match col
    case Nama => "nama"
    case Fraksi => "fraksi"
    case Partai => "partai"
    case Dapil => "dapil"
    case KotaLahir => "kota_lahir"
    case PendidikanTerakhir => "pendidikan_terakhir"
  }

  /** The literal texts the builders append. */
  datatype Fragment =
    | SelectFrom                      // the start of the row statement
    | CountFrom                       // the start of the count statement
    | GroupOpen                       // ` AND (` and the line break before the first test
    | OrLead(blank: bool)             // the line break and `OR ` before a later test
    | GroupClose                      // the line break and `)` closing the OR group
    | And                             // ` AND `
    | LowerLike(col: Column)          // `LOWER(col) LIKE LOWER(`
    | Close                           // `)`
    | AgamaEquals                     // ` AND agama = `
    | UsiaFrom                        // ` AND usia >= `
    | UsiaTo                          // ` AND usia <= `
    | OrderBy(field: string, dir: string)
    | LimitWord                       // ` LIMIT `
    | OffsetWord                      // ` OFFSET `

  /** The table and the always-true condition both statements start from. */
  const FromTable := " FROM anggota_dpr WHERE 1=1"

  /** The template literals of server.js:126-177, with the CRLF line ends of the file read as the
      LF a template literal holds, and the blank after the first two tests of the OR group kept. */
  function FragmentText(fr: Fragment): string {
    match fr
    case SelectFrom => "SELECT *" + FromTable
    case CountFrom => "SELECT COUNT(*) as count" + FromTable
    case GroupOpen => " AND (\n          "
    case OrLead(blank) => (if blank then " " else "") + "\n          OR "
    case GroupClose => "\n        )"
    case And => " AND "
    case LowerLike(col) => "LOWER(" + ColumnName(col) + ") LIKE LOWER("
    case Close => ")"
    case AgamaEquals => " AND agama = "
    case UsiaFrom => " AND usia >= "
    case UsiaTo => " AND usia <= "
    case OrderBy(field, dir) => " ORDER BY " + field + " " + dir
    case LimitWord => " LIMIT "
    case OffsetWord => " OFFSET "
  }

  /** A fragment whose text has no `?`: all of them, once the interpolated sort field and
      direction have none. */
  predicate Safe(fr: Fragment) {
    fr.OrderBy? ==> '?' !in fr.field && '?' !in fr.dir
  }

  lemma ColumnNameSafe(col: Column)
    ensures '?' !in ColumnName(col)
  {
    match col
    case Nama => assert '?' !in "nama";
    case Fraksi => assert '?' !in "fraksi";
    case Partai => assert '?' !in "partai";
    case Dapil => assert '?' !in "dapil";
    case KotaLahir => assert '?' !in "kota_lahir";
    case PendidikanTerakhir => assert '?' !in "pendidikan_terakhir";
  }

  lemma FromTableSafe()
    ensures '?' !in FromTable
  {
  }

  lemma SafeText(fr: Fragment)
    requires Safe(fr)
    ensures '?' !in FragmentText(fr)
  {
    match fr
    case SelectFrom => FromTableSafe(); assert '?' !in "SELECT *";
    case CountFrom => FromTableSafe(); assert '?' !in "SELECT COUNT(*) as count";
    case GroupOpen => assert '?' !in " AND (\n          ";
    case OrLead(blank) => assert '?' !in " " && '?' !in "" && '?' !in "\n          OR ";
    case GroupClose => assert '?' !in "\n        )";
    case And => assert '?' !in " AND ";
    case LowerLike(col) =>
      ColumnNameSafe(col);
      assert '?' !in "LOWER(" && '?' !in ") LIKE LOWER(";
    case Close => assert '?' !in ")";
    case AgamaEquals => assert '?' !in " AND agama = ";
    case UsiaFrom => assert '?' !in " AND usia >= ";
    case UsiaTo => assert '?' !in " AND usia <= ";
    case OrderBy(field, dir) => assert '?' !in " ORDER BY " && '?' !in " ";
    case LimitWord => assert '?' !in " LIMIT ";
    case OffsetWord => assert '?' !in " OFFSET ";
  }

  datatype Piece = Text(fr: Fragment) | Mark

  function Render(ps: seq<Piece>): string {
    if ps == [] then "" else (if ps[0].Mark? then "?" else FragmentText(ps[0].fr)) + Render(ps[1..])
  }

  function Marks(ps: seq<Piece>): nat {
    if ps == [] then 0 else (if ps[0].Mark? then 1 else 0) + Marks(ps[1..])
  }

  predicate Clean(ps: seq<Piece>) {
    forall i :: 0 <= i < |ps| ==> ps[i].Text? ==> Safe(ps[i].fr)
  }

  lemma {:induction false} RenderAppend(a: seq<Piece>, b: seq<Piece>)
    ensures Render(a + b) == Render(a) + Render(b)
    ensures Marks(a + b) == Marks(a) + Marks(b)
  {
    if a == [] {
      assert a + b == b;
    } else {
      assert (a + b)[1..] == a[1..] + b;
      RenderAppend(a[1..], b);
    }
  }

  /** In a clean list of pieces the `?` characters of the text are exactly the placeholder marks. */
  lemma {:induction false} RenderCount(ps: seq<Piece>)
    requires Clean(ps)
    ensures Count('?', Render(ps)) == Marks(ps)
  {
    if ps != [] {
      assert Clean(ps[1..]) by {
        forall i | 0 <= i < |ps[1..]| ensures ps[1..][i].Text? ==> Safe(ps[1..][i].fr) {
          assert ps[1..][i] == ps[i + 1];
        }
      }
      RenderCount(ps[1..]);
      if ps[0].Text? {
        SafeText(ps[0].fr);
      }
      CountAppend('?', if ps[0].Mark? then "?" else FragmentText(ps[0].fr), Render(ps[1..]));
    }
  }

  lemma CleanAppend(a: seq<Piece>, b: seq<Piece>)
    requires Clean(a) && Clean(b)
    ensures Clean(a + b)
  {
    forall i | 0 <= i < |a + b| ensures (a + b)[i].Text? ==> Safe((a + b)[i].fr) {
      if i >= |a| {
        assert (a + b)[i] == b[i - |a|];
      }
    }
  }

  /** `LOWER(col) LIKE LOWER(?)`. */
  function LikeLower(col: Column): seq<Piece> {
    [Text(LowerLike(col)), Mark, Text(Close)]
  }

  /** The columns a non-empty query is matched against, in the order of the OR group. */
  const SearchColumns: seq<Column> := [Nama, Fraksi, Partai, Dapil, KotaLahir, PendidikanTerakhir]

  /** The text before each column's test in the OR group (server.js:132-139): the lines of the
      first two tests end in a blank. */
  const SearchLeads: seq<Fragment> :=
    [GroupOpen, OrLead(true), OrLead(true), OrLead(false), OrLead(false), OrLead(false)]

  function Alternatives(leads: seq<Fragment>, cols: seq<Column>): seq<Piece>
    requires |leads| == |cols|
  {
    if cols == [] then [] else [Text(leads[0])] + LikeLower(cols[0]) + Alternatives(leads[1..], cols[1..])
  }

  /** The six-column OR group added for a non-empty query. */
  function SearchClause(): seq<Piece> {
    Alternatives(SearchLeads, SearchColumns) + [Text(GroupClose)]
  }

  /** The conditions the builders can add, in the order the source tests them. */
  datatype Cond = QueryMatch | FraksiLike | PartaiLike | AgamaIs | PendidikanLike | UsiaAtLeast | UsiaAtMost

  function CondPieces(c: Cond): seq<Piece> {
    match c
    case QueryMatch => SearchClause()
    case FraksiLike => [Text(And)] + LikeLower(Fraksi)
    case PartaiLike => [Text(And)] + LikeLower(Partai)
    case AgamaIs => [Text(AgamaEquals), Mark]
    case PendidikanLike => [Text(And)] + LikeLower(PendidikanTerakhir)
    case UsiaAtLeast => [Text(UsiaFrom), Mark]
    case UsiaAtMost => [Text(UsiaTo), Mark]
  }

  /** How many values a condition binds: six for the query group, one for each filter. */
  function Arity(c: Cond): nat {
    if c == QueryMatch then 6 else 1
  }

  /** `[Text(lead)] + LikeLower(col)` carries exactly one mark. */
  lemma LeadLikeShape(lead: Fragment, col: Column)
    requires Safe(lead)
    ensures Clean([Text(lead)] + LikeLower(col)) && Marks([Text(lead)] + LikeLower(col)) == 1
  {
    var ps := [Text(lead)] + LikeLower(col);
    assert ps == [Text(lead), Text(LowerLike(col)), Mark, Text(Close)];
    assert ps[1..][1..] == [Mark, Text(Close)] && ps[1..][1..][1..] == [Text(Close)];
  }

  lemma {:induction false} AlternativesShape(leads: seq<Fragment>, cols: seq<Column>)
    requires |leads| == |cols|
    requires forall i :: 0 <= i < |leads| ==> Safe(leads[i])
    ensures Clean(Alternatives(leads, cols)) && Marks(Alternatives(leads, cols)) == |cols|
  {
    if cols != [] {
      LeadLikeShape(leads[0], cols[0]);
      AlternativesShape(leads[1..], cols[1..]);
      CleanAppend([Text(leads[0])] + LikeLower(cols[0]), Alternatives(leads[1..], cols[1..]));
      RenderAppend([Text(leads[0])] + LikeLower(cols[0]), Alternatives(leads[1..], cols[1..]));
    }
  }

  lemma SearchClauseShape()
    ensures Clean(SearchClause()) && Marks(SearchClause()) == 6
  {
    AlternativesShape(SearchLeads, SearchColumns);
    CleanAppend(Alternatives(SearchLeads, SearchColumns), [Text(GroupClose)]);
    RenderAppend(Alternatives(SearchLeads, SearchColumns), [Text(GroupClose)]);
  }

  lemma TextMarkShape(fr: Fragment)
    requires Safe(fr)
    ensures Clean([Text(fr), Mark]) && Marks([Text(fr), Mark]) == 1
  {
    var ps := [Text(fr), Mark];
    assert ps[1..] == [Mark] && ps[1..][1..] == [];
    assert Marks(ps[1..]) == 1;
  }

  lemma {:induction false} CondShape(c: Cond)
    ensures Clean(CondPieces(c)) && Marks(CondPieces(c)) == Arity(c)
  {
    match c
    case QueryMatch => SearchClauseShape();
    case FraksiLike => LeadLikeShape(And, Fraksi);
    case PartaiLike => LeadLikeShape(And, Partai);
    case PendidikanLike => LeadLikeShape(And, PendidikanTerakhir);
    case AgamaIs => TextMarkShape(AgamaEquals);
    case UsiaAtLeast => TextMarkShape(UsiaFrom);
    case UsiaAtMost => TextMarkShape(UsiaTo);
  }

  // ---------------------------------------------------------------------------------------
  // Which conditions a request adds, and the values they bind.

  function When<T>(b: bool, x: T): seq<T> {
    if b then [x] else []
  }

  /** The conditions in the order the builders test them. */
  const Order: seq<Cond> := [QueryMatch, FraksiLike, PartaiLike, AgamaIs, PendidikanLike, UsiaAtLeast, UsiaAtMost]

  /** The test guarding each condition: a non-empty query, a truthy filter value. */
  predicate Holds(c: Cond, query: string, f: Filters) {
    match c
    case QueryMatch => query != ""
    case FraksiLike => Truthy(f.fraksi)
    case PartaiLike => Truthy(f.partai)
    case AgamaIs => Truthy(f.agama)
    case PendidikanLike => Truthy(f.pendidikan)
    case UsiaAtLeast => Truthy(f.minUsia)
    case UsiaAtMost => Truthy(f.maxUsia)
  }

  /** The conditions, among the first `k` of `order`, whose test holds, in order. */
  function Chosen(order: seq<Cond>, k: nat, query: string, f: Filters): seq<Cond>
    requires k <= |order|
  {
    if k == 0 then [] else Chosen(order, k - 1, query, f) + When(Holds(order[k - 1], query, f), order[k - 1])
  }

  /** Nothing is chosen when no test among the first `k` holds. */
  lemma {:induction false} ChosenNone(order: seq<Cond>, k: nat, query: string, f: Filters)
    requires k <= |order|
    requires forall i :: 0 <= i < k ==> !Holds(order[i], query, f)
    ensures Chosen(order, k, query, f) == []
  {
    if k > 0 {
      ChosenNone(order, k - 1, query, f);
    }
  }

  /** The conditions `search` and `getSearchCount` add: the OR group for a non-empty query, then
      one condition per truthy filter, in source order. */
  function Conds(query: string, f: Filters): seq<Cond> {
    Chosen(Order, |Order|, query, f)
  }

  /** The template literal `%${v}%`. */
  function Pattern(v: string): string {
    "%" + v + "%"
  }

  /** The values one condition pushes: six copies of the query pattern, a `%v%` pattern for the
      three LIKE filters, and the raw filter value for `agama` and the two age bounds. */
  function CondParams(c: Cond, query: string, f: Filters): seq<JsValue> {
    match c
    case QueryMatch =>
      var p := Str(Pattern(query));
      [p, p, p, p, p, p]
    case FraksiLike => [Str(Pattern(ToText(f.fraksi)))]
    case PartaiLike => [Str(Pattern(ToText(f.partai)))]
    case AgamaIs => [f.agama]
    case PendidikanLike => [Str(Pattern(ToText(f.pendidikan)))]
    case UsiaAtLeast => [f.minUsia]
    case UsiaAtMost => [f.maxUsia]
  }

  function WherePieces(cs: seq<Cond>): seq<Piece> {
    if cs == [] then [] else CondPieces(cs[0]) + WherePieces(cs[1..])
  }

  function WhereParams(cs: seq<Cond>, query: string, f: Filters): seq<JsValue> {
    if cs == [] then [] else CondParams(cs[0], query, f) + WhereParams(cs[1..], query, f)
  }

  /** The WHERE text after `1=1`. */
  function WhereSql(cs: seq<Cond>): string {
    Render(WherePieces(cs))
  }

  lemma {:induction false} WherePiecesAppend(cs: seq<Cond>, c: Cond)
    ensures WherePieces(cs + [c]) == WherePieces(cs) + CondPieces(c)
  {
    if cs == [] {
      assert cs + [c] == [c];
      assert [c][1..] == [];
      assert CondPieces(c) + [] == CondPieces(c);
    } else {
      assert (cs + [c])[1..] == cs[1..] + [c];
      WherePiecesAppend(cs[1..], c);
    }
  }

  lemma {:induction false} WhereParamsAppend(cs: seq<Cond>, c: Cond, query: string, f: Filters)
    ensures WhereParams(cs + [c], query, f) == WhereParams(cs, query, f) + CondParams(c, query, f)
  {
    if cs == [] {
      assert cs + [c] == [c];
      assert [c][1..] == [];
      assert CondParams(c, query, f) + [] == CondParams(c, query, f);
    } else {
      assert (cs + [c])[1..] == cs[1..] + [c];
      WhereParamsAppend(cs[1..], c, query, f);
    }
  }

  /** Every condition's text carries as many placeholders as the condition binds values. */
  lemma {:induction false} WhereShape(cs: seq<Cond>, query: string, f: Filters)
    ensures Clean(WherePieces(cs))
    ensures Marks(WherePieces(cs)) == |WhereParams(cs, query, f)|
  {
    if cs != [] {
      CondShape(cs[0]);
      WhereShape(cs[1..], query, f);
      CleanAppend(CondPieces(cs[0]), WherePieces(cs[1..]));
      RenderAppend(CondPieces(cs[0]), WherePieces(cs[1..]));
    }
  }

  // ---------------------------------------------------------------------------------------
  // Sorting and pagination clauses.

  const ValidSortFields: seq<string> := ["nama", "fraksi", "partai", "usia", "created_at"]

  /** `validSortFields.includes(sortBy) ? sortBy : 'nama'`. */
  function SortField(sortBy: string): (field: string)
    ensures field in ValidSortFields
    ensures sortBy in ValidSortFields ==> field == sortBy
    ensures sortBy !in ValidSortFields ==> field == "nama"
  {
    if sortBy in ValidSortFields then sortBy else "nama"
  }

  /** `String.prototype.toUpperCase` on the characters that can spell `DESC`: the ASCII letters and
      U+017F LATIN SMALL LETTER LONG S, which JavaScript upper-cases to `S`. */
  function UpperChar(c: char): char {
    if 'a' <= c <= 'z' then ((c as int) - 32) as char
    else if c == '\U{017F}' then 'S'
    else c
  }

  function Upper(s: string): string {
    seq(|s|, i requires 0 <= i < |s| => UpperChar(s[i]))
  }

  /** `sortOrder.toUpperCase() === 'DESC' ? 'DESC' : 'ASC'`. */
  function SortDir(sortOrder: string): (dir: string)
    ensures dir == "ASC" || dir == "DESC"
    ensures dir == "DESC" <==> Upper(sortOrder) == "DESC"
  {
    if Upper(sortOrder) == "DESC" then "DESC" else "ASC"
  }

  /** DESC is chosen exactly for the four-letter spellings of `desc` in any letter case. */
  lemma SortDirDescending(sortOrder: string)
    ensures SortDir(sortOrder) == "DESC" <==>
      |sortOrder| == 4 &&
      UpperChar(sortOrder[0]) == 'D' && UpperChar(sortOrder[1]) == 'E' &&
      UpperChar(sortOrder[2]) == 'S' && UpperChar(sortOrder[3]) == 'C'
  {
    if |sortOrder| == 4 {
      var u := Upper(sortOrder);
      assert u == [u[0], u[1], u[2], u[3]];
      assert "DESC" == ['D', 'E', 'S', 'C'];
    }
  }

  lemma SortDirExamples()
    ensures SortDir("desc") == "DESC" && SortDir("Desc") == "DESC" && SortDir("DESC") == "DESC"
    ensures SortDir("ASC") == "ASC" && SortDir("asc") == "ASC" && SortDir("descending") == "ASC"
    ensures SortDir("") == "ASC"
  {
    SortDirDescending("desc");
    SortDirDescending("Desc");
    SortDirDescending("DESC");
    SortDirDescending("ASC");
    SortDirDescending("asc");
    SortDirDescending("descending");
    SortDirDescending("");
  }

  /** ` LIMIT ? OFFSET ?`. */
  const LimitOffset: seq<Piece> := [Text(LimitWord), Mark, Text(OffsetWord), Mark]

  /** The pieces of the statement `search` runs. */
  function SelectPieces(cs: seq<Cond>, field: string, dir: string): seq<Piece> {
    [Text(SelectFrom)] + WherePieces(cs) + [Text(OrderBy(field, dir))] + LimitOffset
  }

  /** The statement `search` runs. */
  function SelectSql(cs: seq<Cond>, field: string, dir: string): string {
    Render(SelectPieces(cs, field, dir))
  }

  /** The statement `getSearchCount` runs. */
  function CountSql(cs: seq<Cond>): string {
    Render([Text(CountFrom)] + WherePieces(cs))
  }

  lemma SortFieldSafe(field: string)
    requires field in ValidSortFields
    ensures '?' !in field
  {
    assert '?' !in "nama" && '?' !in "fraksi" && '?' !in "partai";
    assert '?' !in "usia" && '?' !in "created_at";
  }

  lemma LimitOffsetShape()
    ensures Clean(LimitOffset) && Marks(LimitOffset) == 2
  {
    assert LimitOffset[1..] == [Mark, Text(OffsetWord), Mark];
    assert LimitOffset[1..][1..] == [Text(OffsetWord), Mark];
    assert LimitOffset[1..][1..][1..] == [Mark];
  }

  /** The count statement has one `?` per bound value. */
  lemma CountPlaceholders(cs: seq<Cond>, query: string, f: Filters)
    ensures Count('?', CountSql(cs)) == |WhereParams(cs, query, f)|
  {
    WhereShape(cs, query, f);
    CleanAppend([Text(CountFrom)], WherePieces(cs));
    RenderAppend([Text(CountFrom)], WherePieces(cs));
    RenderCount([Text(CountFrom)] + WherePieces(cs));
  }

  /** The row statement has one `?` per WHERE value plus the two of LIMIT and OFFSET. */
  lemma SelectPlaceholders(cs: seq<Cond>, query: string, f: Filters, field: string, dir: string)
    requires field in ValidSortFields && (dir == "ASC" || dir == "DESC")
    ensures Count('?', SelectSql(cs, field, dir)) == |WhereParams(cs, query, f)| + 2
  {
    SortFieldSafe(field);
    assert '?' !in "ASC" && '?' !in "DESC";
    var w := WherePieces(cs);
    WhereShape(cs, query, f);
    LimitOffsetShape();
    CleanAppend([Text(SelectFrom)], w);
    CleanAppend([Text(SelectFrom)] + w, [Text(OrderBy(field, dir))]);
    CleanAppend([Text(SelectFrom)] + w + [Text(OrderBy(field, dir))], LimitOffset);
    RenderAppend([Text(SelectFrom)], w);
    RenderAppend([Text(SelectFrom)] + w, [Text(OrderBy(field, dir))]);
    RenderAppend([Text(SelectFrom)] + w + [Text(OrderBy(field, dir))], LimitOffset);
    RenderCount(SelectPieces(cs, field, dir));
  }

  /** The text of `LimitOffset`. */
  lemma LimitOffsetText()
    ensures Render(LimitOffset) == FragmentText(LimitWord) + "?" + FragmentText(OffsetWord) + "?"
  {
    assert LimitOffset[1..][1..][1..][1..] == [];
  }

  /** Both statements carry the same WHERE text after their own head; the row statement then
      adds the ORDER BY clause and ` LIMIT ? OFFSET ?`. */
  lemma StatementsShareWhere(cs: seq<Cond>, field: string, dir: string)
    ensures SelectSql(cs, field, dir) ==
      FragmentText(SelectFrom) + WhereSql(cs) + FragmentText(OrderBy(field, dir)) + Render(LimitOffset)
    ensures CountSql(cs) == FragmentText(CountFrom) + WhereSql(cs)
  {
    var w := WherePieces(cs);
    var head, order := [Text(SelectFrom)], [Text(OrderBy(field, dir))];
    RenderAppend(head, w);
    RenderAppend(head + w, order);
    RenderAppend(head + w + order, LimitOffset);
    RenderAppend([Text(CountFrom)], w);
    RenderText(SelectFrom);
    RenderText(OrderBy(field, dir));
    RenderText(CountFrom);
  }

  lemma RenderText(fr: Fragment)
    ensures Render([Text(fr)]) == FragmentText(fr)
  {
    assert [Text(fr)][1..] == [];
  }

  // ---------------------------------------------------------------------------------------
  // The two builders, step by step as the source appends to `sql` and pushes to `params`.

  /** `DPRDatabase.search` up to the `db.all` call: the statement and its bound values. */
  method Search(query: string, options: SearchOptions) returns (sql: string, params: seq<JsValue>)
    ensures sql == SelectSql(Conds(query, FiltersOf(options)),
                             SortField(SortByOf(options)), SortDir(SortOrderOf(options)))
    ensures params == WhereParams(Conds(query, FiltersOf(options)), query, FiltersOf(options)) +
                      [Num(LimitOf(options)), Num(OffsetOf(options))]
    ensures Count('?', sql) == |params|
  {
    var limit, offset := LimitOf(options), OffsetOf(options);
    var sortBy, sortOrder, filters := SortByOf(options), SortOrderOf(options), FiltersOf(options);
    var pieces;
    pieces, params := AddConditions([Text(SelectFrom)], [], query, filters);
    var sortField := SortField(sortBy);
    var sortDir := SortDir(sortOrder);
    pieces := pieces + [Text(OrderBy(sortField, sortDir))];
    pieces := pieces + LimitOffset;
    params := params + [Num(limit), Num(offset)];
    sql := Render(pieces);
    SelectPlaceholders(Conds(query, filters), query, filters, sortField, sortDir);
  }

  /** `DPRDatabase.getSearchCount` up to the `db.get` call. */
  method GetSearchCount(query: string, filters: Option<Filters>) returns (sql: string, params: seq<JsValue>)
    ensures sql == CountSql(Conds(query, filters.GetOr(NoFilters)))
    ensures params == WhereParams(Conds(query, filters.GetOr(NoFilters)), query, filters.GetOr(NoFilters))
    ensures Count('?', sql) == |params|
  {
    var f := filters.GetOr(NoFilters);
    var pieces;
    pieces, params := AddConditions([Text(CountFrom)], [], query, f);
    sql := Render(pieces);
    CountPlaceholders(Conds(query, f), query, f);
  }

  lemma AppendAssoc<T>(a: seq<T>, b: seq<T>, c: seq<T>)
    ensures (a + b) + c == a + (b + c)
  {
  }

  /** Adding the optional condition `When(b, c)` after the conditions `cs`, behind the fragments
      `sql0` and values `params0` already accumulated. */
  lemma Step(sql0: seq<Piece>, params0: seq<JsValue>, cs: seq<Cond>, c: Cond, b: bool, query: string, f: Filters)
    ensures sql0 + WherePieces(cs + When(b, c)) ==
            (sql0 + WherePieces(cs)) + (if b then CondPieces(c) else [])
    ensures params0 + WhereParams(cs + When(b, c), query, f) ==
            (params0 + WhereParams(cs, query, f)) + (if b then CondParams(c, query, f) else [])
  {
    if b {
      WherePiecesAppend(cs, c);
      WhereParamsAppend(cs, c, query, f);
      AppendAssoc(sql0, WherePieces(cs), CondPieces(c));
      AppendAssoc(params0, WhereParams(cs, query, f), CondParams(c, query, f));
    } else {
      assert cs + When(b, c) == cs;
      assert sql0 + WherePieces(cs) + [] == sql0 + WherePieces(cs);
      assert params0 + WhereParams(cs, query, f) + [] == params0 + WhereParams(cs, query, f);
    }
  }

  lemma {:induction false} WhereConcat(a: seq<Cond>, b: seq<Cond>, query: string, f: Filters)
    ensures WherePieces(a + b) == WherePieces(a) + WherePieces(b)
    ensures WhereParams(a + b, query, f) == WhereParams(a, query, f) + WhereParams(b, query, f)
  {
    if a == [] {
      assert a + b == b;
    } else {
      assert (a + b)[0] == a[0] && (a + b)[1..] == a[1..] + b;
      WhereConcat(a[1..], b, query, f);
      AppendAssoc(CondPieces(a[0]), WherePieces(a[1..]), WherePieces(b));
      AppendAssoc(CondParams(a[0], query, f), WhereParams(a[1..], query, f), WhereParams(b, query, f));
    }
  }

  /** One `if (test) { sql += fragment; params.push(...values); }` step of the builders: when
      `test` holds, the fragment and the values of condition `c`, the `k`-th of `order`, are
      appended after the prefix `sql0` / `params0` and the conditions of `order` added so far. */
  method AddIf(test: bool, c: Cond, ghost order: seq<Cond>, ghost k: nat, query: string, f: Filters,
               ghost sql0: seq<Piece>, ghost params0: seq<JsValue>, sql: seq<Piece>, params: seq<JsValue>)
    returns (sql': seq<Piece>, params': seq<JsValue>)
    requires k < |order| && order[k] == c && test == Holds(c, query, f)
    requires sql == sql0 + WherePieces(Chosen(order, k, query, f))
    requires params == params0 + WhereParams(Chosen(order, k, query, f), query, f)
    ensures sql' == sql0 + WherePieces(Chosen(order, k + 1, query, f))
    ensures params' == params0 + WhereParams(Chosen(order, k + 1, query, f), query, f)
  {
    sql', params' := sql, params;
    if test {
      sql' := sql' + CondPieces(c);
      params' := params' + CondParams(c, query, f);
    }
    Step(sql0, params0, Chosen(order, k, query, f), c, test, query, f);
  }

  /** The `fraksi` and `partai` steps (server.js:144-151). */
  method AddPartyFilters(query: string, f: Filters, ghost sql0: seq<Piece>, ghost params0: seq<JsValue>,
                         sql: seq<Piece>, params: seq<JsValue>)
    returns (sql': seq<Piece>, params': seq<JsValue>)
    requires sql == sql0 + WherePieces(Chosen(Order, 1, query, f))
    requires params == params0 + WhereParams(Chosen(Order, 1, query, f), query, f)
    ensures sql' == sql0 + WherePieces(Chosen(Order, 3, query, f))
    ensures params' == params0 + WhereParams(Chosen(Order, 3, query, f), query, f)
  {
    sql', params' := AddIf(Truthy(f.fraksi), FraksiLike, Order, 1, query, f, sql0, params0, sql, params);
    sql', params' := AddIf(Truthy(f.partai), PartaiLike, Order, 2, query, f, sql0, params0, sql', params');
  }

  /** The `agama` and `pendidikan` steps (server.js:152-159). */
  method AddProfileFilters(query: string, f: Filters, ghost sql0: seq<Piece>, ghost params0: seq<JsValue>,
                           sql: seq<Piece>, params: seq<JsValue>)
    returns (sql': seq<Piece>, params': seq<JsValue>)
    requires sql == sql0 + WherePieces(Chosen(Order, 3, query, f))
    requires params == params0 + WhereParams(Chosen(Order, 3, query, f), query, f)
    ensures sql' == sql0 + WherePieces(Chosen(Order, 5, query, f))
    ensures params' == params0 + WhereParams(Chosen(Order, 5, query, f), query, f)
  {
    sql', params' := AddIf(Truthy(f.agama), AgamaIs, Order, 3, query, f, sql0, params0, sql, params);
    sql', params' := AddIf(Truthy(f.pendidikan), PendidikanLike, Order, 4, query, f, sql0, params0, sql', params');
  }

  /** The `minUsia` and `maxUsia` steps (server.js:160-167). */
  method AddRangeFilters(query: string, f: Filters, ghost sql0: seq<Piece>, ghost params0: seq<JsValue>,
                         sql: seq<Piece>, params: seq<JsValue>)
    returns (sql': seq<Piece>, params': seq<JsValue>)
    requires sql == sql0 + WherePieces(Chosen(Order, 5, query, f))
    requires params == params0 + WhereParams(Chosen(Order, 5, query, f), query, f)
    ensures sql' == sql0 + WherePieces(Chosen(Order, 7, query, f))
    ensures params' == params0 + WhereParams(Chosen(Order, 7, query, f), query, f)
  {
    sql', params' := AddIf(Truthy(f.minUsia), UsiaAtLeast, Order, 5, query, f, sql0, params0, sql, params);
    sql', params' := AddIf(Truthy(f.maxUsia), UsiaAtMost, Order, 6, query, f, sql0, params0, sql', params');
  }

  /** The shared sequence of `if (...) { sql += ...; params.push(...) }` steps of both builders
      (server.js:130-167 and 196-233, which are identical). The statement text is accumulated as
      its list of pieces; `Render` concatenates them. */
  method AddConditions(sql0: seq<Piece>, params0: seq<JsValue>, query: string, filters: Filters)
    returns (sql: seq<Piece>, params: seq<JsValue>)
    ensures sql == sql0 + WherePieces(Conds(query, filters))
    ensures params == params0 + WhereParams(Conds(query, filters), query, filters)
  {
    var f := filters;
    assert sql0 == sql0 + WherePieces([]) && params0 == params0 + WhereParams([], query, f);
    sql, params := AddIf(query != "", QueryMatch, Order, 0, query, f, sql0, params0, sql0, params0);
    sql, params := AddPartyFilters(query, f, sql0, params0, sql, params);
    sql, params := AddProfileFilters(query, f, sql0, params0, sql, params);
    sql, params := AddRangeFilters(query, f, sql0, params0, sql, params);
  }
}
