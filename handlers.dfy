/** The two paginated endpoints, `GET /api/members` and `POST /api/search`, from the request
    values (after their defaults are applied and `parseInt` has read them) to the two statements
    they have the database run and the `pagination` object they answer with. The number of
    matching rows that the count statement returns is a parameter. */
module Handlers {
  import opened Wrappers
  import opened Strings
  import opened Js
  import opened QueryBuilder
  import opened Pagination

  /** A statement and the values bound to its placeholders, in order. */
  datatype Statement = Statement(sql: string, params: seq<JsValue>)

  /** The query-string values of `GET /api/members`; absent ones take the defaults
      page 1, limit 25, sortBy 'nama' and sortOrder 'ASC'. */
  datatype MembersRequest = MembersRequest(
    page: Option<int>,
    limit: Option<int>,
    sortBy: Option<string>,
    sortOrder: Option<string>)

  /** The body of `POST /api/search`: the members-page values plus the query (already trimmed)
      and the filters object, defaulting to '' and to an object with no keys. */
  datatype SearchRequest = SearchRequest(
    query: Option<string>,
    page: Option<int>,
    limit: Option<int>,
    sortBy: Option<string>,
    sortOrder: Option<string>,
    filters: Option<Filters>)

  /** What either endpoint has the database run, and the pagination it reports. */
  datatype Outcome = Outcome(rows: Statement, count: Statement, pagination: PageInfo)

  /** The steps both endpoints take: the row offset of the page, the row statement under the
      query and the filters, the count statement under the same conditions, and the pagination.
      Each statement has one `?` per bound value. */
  method RunPage(query: string, filters: Option<Filters>, page: int, limit: int, sortBy: string,
                 sortOrder: string, total: nat) returns (out: Outcome)
    requires limit > 0
    ensures var f := filters.GetOr(NoFilters);
      out.rows.sql == SelectSql(Conds(query, f), SortField(sortBy), SortDir(sortOrder)) &&
      out.count.sql == CountSql(Conds(query, f)) &&
      out.count.params == WhereParams(Conds(query, f), query, f) &&
      out.rows.params == out.count.params + [Num(limit), Num(Offset(page, limit))] &&
      out.pagination == Paginate(page, limit, total)
    ensures Count('?', out.rows.sql) == |out.rows.params| && Count('?', out.count.sql) == |out.count.params|
  {
    var offset := (page - 1) * limit;
    var options := SearchOptions(Some(limit), Some(offset), Some(sortBy), Some(sortOrder), filters);
    var sql, params := Search(query, options);
    var countSql, countParams := GetSearchCount(query, filters);
    out := Outcome(Statement(sql, params), Statement(countSql, countParams), Paginate(page, limit, total));
  }

  /** `GET /api/members`: every row, one page of them, sorted as asked. */
  method MembersPage(req: MembersRequest, total: nat) returns (out: Outcome)
    requires req.limit.GetOr(25) > 0
    ensures var page, limit := req.page.GetOr(1), req.limit.GetOr(25);
      out.rows.sql == SelectSql(Conds("", NoFilters), SortField(req.sortBy.GetOr("nama")), SortDir(req.sortOrder.GetOr("ASC"))) &&
      out.count.sql == CountSql(Conds("", NoFilters)) &&
      out.count.params == WhereParams(Conds("", NoFilters), "", NoFilters) &&
      out.rows.params == out.count.params + [Num(limit), Num(Offset(page, limit))] &&
      out.pagination == Paginate(page, limit, total)
    ensures Count('?', out.rows.sql) == |out.rows.params| && Count('?', out.count.sql) == |out.count.params|
  {
    out := RunPage("", None, req.page.GetOr(1), req.limit.GetOr(25), req.sortBy.GetOr("nama"),
                   req.sortOrder.GetOr("ASC"), total);
  }

  /** `POST /api/search`: the rows matching the query and the filters, one page of them, sorted as asked. */
  method SearchPage(req: SearchRequest, total: nat) returns (out: Outcome)
    requires req.limit.GetOr(25) > 0
    ensures var query, page, limit := req.query.GetOr(""), req.page.GetOr(1), req.limit.GetOr(25);
      var f := req.filters.GetOr(NoFilters);
      out.rows.sql == SelectSql(Conds(query, f), SortField(req.sortBy.GetOr("nama")), SortDir(req.sortOrder.GetOr("ASC"))) &&
      out.count.sql == CountSql(Conds(query, f)) &&
      out.count.params == WhereParams(Conds(query, f), query, f) &&
      out.rows.params == out.count.params + [Num(limit), Num(Offset(page, limit))] &&
      out.pagination == Paginate(page, limit, total)
    ensures Count('?', out.rows.sql) == |out.rows.params| && Count('?', out.count.sql) == |out.count.params|
  {
    out := RunPage(req.query.GetOr(""), Some(req.filters.GetOr(NoFilters)), req.page.GetOr(1),
                   req.limit.GetOr(25), req.sortBy.GetOr("nama"), req.sortOrder.GetOr("ASC"), total);
  }

  /** The fetch of `GET /api/export`: every row, at most 10000 of them, by name ascending, from the
      first. */
  method ExportRows() returns (stmt: Statement)
    ensures stmt.sql == SelectSql(Conds("", NoFilters), "nama", "ASC")
    ensures stmt.params == WhereParams(Conds("", NoFilters), "", NoFilters) + [Num(10000), Num(0)]
    ensures Count('?', stmt.sql) == |stmt.params|
  {
    var sql, params := Search("", SearchOptions(Some(10000), None, None, None, None));
    stmt := Statement(sql, params);
  }

  /** With no query and no filters no condition is added: `GET /api/members` binds nothing but
      LIMIT and OFFSET, and counts every row. */
  lemma NoConditions()
    ensures Conds("", NoFilters) == []
    ensures WhereParams(Conds("", NoFilters), "", NoFilters) == []
  {
    ChosenNone(Order, |Order|, "", NoFilters);
  }
}
