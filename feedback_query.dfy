/**
 * The list query of GET /feedback (`getFeedbacks` in controllers.js): from the
 * optional `category` and `status` filters, `sortBy`, `order`, `page` and
 * `limit` it builds a PostgreSQL text with positional parameters `$1 .. $n`
 * and the list of values bound to them.
 *
 * `BuildFeedbackQuery` states the result declaratively, clause by clause;
 * `GetFeedbacksQuery` builds it the way the handler does, pushing onto a
 * filter list and a value list and numbering each parameter from the number
 * of values pushed so far, and is proved to agree with it.
 */
module FeedbackQuery {
  import opened Wrappers
  import opened Decimal
  import opened SqlText

  /** The query-string parameters of the request; a parameter left out of the URL is `None`. */
  datatype ListRequest = ListRequest(
    category: Option<string>,
    status: Option<string>,
    sortBy: Option<string>,
    order: Option<string>,
    page: Option<int>,
    limit: Option<int>)

  /** A value bound to a positional parameter. */
  datatype Value = Text(text: string) | Num(num: int)

  /** What is handed to the database driver: the text and its bound values. */
  datatype Query = Query(text: string, values: seq<Value>)

  /** An equality predicate `column = $k` together with the value it compares against. */
  datatype Filter = Filter(column: string, value: string)

  const SelectAll: string := "SELECT * FROM feedback"

  // Defaults of the destructuring in getFeedbacks; they apply only to a parameter that is absent.
  const DefaultSortBy: string := "created_at"
  const DefaultOrder: string := "desc"
  const DefaultPage: int := 1
  const DefaultLimit: int := 10

  /** JavaScript truthiness of an optional string: absent and empty are both false. */
  predicate Truthy(v: Option<string>) {
    v.Some? && v.value != ""
  }

  /** The filters the request switches on, category first. */
  function ActiveFilters(req: ListRequest): (fs: seq<Filter>)
    ensures |fs| <= 2
    ensures forall i :: 0 <= i < |fs| ==> fs[i].column in {"category", "status"}
  {
    (if Truthy(req.category) then [Filter("category", req.category.value)] else [])
    + (if Truthy(req.status) then [Filter("status", req.status.value)] else [])
  }

  /** The equality predicates of `fs`, numbered from `first`. */
  function Predicates(fs: seq<Filter>, first: nat): (ps: seq<string>)
    ensures |ps| == |fs|
    decreases |fs|
  {
    if fs == [] then [] else [fs[0].column + " = " + Placeholder(first)] + Predicates(fs[1..], first + 1)
  }

  /** `Array.prototype.join`: the parts with `sep` between consecutive ones. */
  function Join(parts: seq<string>, sep: string): string
    decreases |parts|
  {
    if parts == [] then "" else if |parts| == 1 then parts[0] else parts[0] + sep + Join(parts[1..], sep)
  }

  /** The WHERE clause: empty without filters, otherwise the predicates joined by AND. */
  function WhereClause(fs: seq<Filter>): string {
    if fs == [] then "" else " WHERE " + Join(Predicates(fs, 1), " AND ")
  }

  /** The values the filters bind, in filter order. */
  function FilterValues(fs: seq<Filter>): (vs: seq<Value>)
    ensures |vs| == |fs|
    ensures forall i :: 0 <= i < |fs| ==> vs[i] == Text(fs[i].value)
    decreases |fs|
  {
    if fs == [] then [] else [Text(fs[0].value)] + FilterValues(fs[1..])
  }

  /** Rows skipped before the requested page. */
  function Offset(page: int, limit: int): int {
    (page - 1) * limit
  }

  function SortBy(req: ListRequest): string { req.sortBy.GetOr(DefaultSortBy) }
  function Order(req: ListRequest): string { req.order.GetOr(DefaultOrder) }
  function Page(req: ListRequest): int { req.page.GetOr(DefaultPage) }
  function Limit(req: ListRequest): int { req.limit.GetOr(DefaultLimit) }

  /** The ORDER BY clause: the sort column and direction, copied in as given. */
  function OrderClause(sortBy: string, order: string): string {
    " ORDER BY " + sortBy + " " + order
  }

  /** The paging clause for a query with `f` filter parameters. */
  function PageClause(f: nat): string {
    " LIMIT " + Placeholder(f + 1) + " OFFSET " + Placeholder(f + 2)
  }

  /** The query getFeedbacks sends for `req`. */
  function BuildFeedbackQuery(req: ListRequest): (q: Query)
    ensures |q.values| == |ActiveFilters(req)| + 2
    ensures SelectAll <= q.text
    ensures q.values[|q.values| - 2..] == [Num(Limit(req)), Num(Offset(Page(req), Limit(req)))]
  {
    var fs := ActiveFilters(req);
    Query(SelectAll + WhereClause(fs) + OrderClause(SortBy(req), Order(req)) + PageClause(|fs|),
          FilterValues(fs) + [Num(Limit(req)), Num(Offset(Page(req), Limit(req)))])
  }

  /**
   * The construction of getFeedbacks step by step: each present filter pushes
   * a predicate numbered one past the values pushed so far and then its
   * value; the predicates are joined under WHERE; ORDER BY, LIMIT and OFFSET
   * are appended; limit and offset are pushed last.
   */
  method GetFeedbacksQuery(req: ListRequest) returns (queryText: string, values: seq<Value>)
    ensures Query(queryText, values) == BuildFeedbackQuery(req)
  {
    var sortBy := req.sortBy.GetOr(DefaultSortBy);
    var order := req.order.GetOr(DefaultOrder);
    var page := req.page.GetOr(DefaultPage);
    var limit := req.limit.GetOr(DefaultLimit);

    queryText := SelectAll;
    var filters: seq<string> := [];
    values := [];

    if Truthy(req.category) {
      filters := filters + ["category = $" + NatToString(|values| + 1)];
      values := values + [Text(req.category.value)];
    }
    if Truthy(req.status) {
      filters := filters + ["status = $" + NatToString(|values| + 1)];
      values := values + [Text(req.status.value)];
    }
    ghost var fs := ActiveFilters(req);
    FiltersPushed(req, filters, values);

    if |filters| > 0 {
      queryText := queryText + " WHERE " + Join(filters, " AND ");
    }
    assert queryText == SelectAll + WhereClause(fs);

    ghost var head := queryText;
    queryText := queryText + " ORDER BY " + sortBy + " " + order
      + " LIMIT $" + NatToString(|values| + 1) + " OFFSET $" + NatToString(|values| + 2);
    TailText(head, sortBy, order, |fs|);
    values := values + [Num(limit), Num((page - 1) * limit)];
  }

  /** The filter pushes of GetFeedbacksQuery, case by case, against the declarative clauses. */
  lemma FiltersPushed(req: ListRequest, filters: seq<string>, values: seq<Value>)
    requires filters == (if Truthy(req.category) then ["category = $" + NatToString(1)] else [])
      + (if Truthy(req.status)
         then ["status = $" + NatToString(if Truthy(req.category) then 2 else 1)] else [])
    requires values == (if Truthy(req.category) then [Text(req.category.value)] else [])
      + (if Truthy(req.status) then [Text(req.status.value)] else [])
    ensures filters == Predicates(ActiveFilters(req), 1)
    ensures values == FilterValues(ActiveFilters(req))
  {
    var fs := ActiveFilters(req);
    forall k: nat
      ensures "category = $" + NatToString(k) == "category" + " = " + Placeholder(k)
      ensures "status = $" + NatToString(k) == "status" + " = " + Placeholder(k)
    {
      assert "category = $" == "category" + " = " + "$";
      assert "status = $" == "status" + " = " + "$";
    }
    if Truthy(req.category) && Truthy(req.status) {
      assert fs[1..] == [Filter("status", req.status.value)];
    }
  }

  /** The text appended after the WHERE clause is the ORDER BY clause and then the paging clause. */
  lemma TailText(head: string, sortBy: string, order: string, f: nat)
    ensures head + " ORDER BY " + sortBy + " " + order
      + " LIMIT $" + NatToString(f + 1) + " OFFSET $" + NatToString(f + 2)
      == head + OrderClause(sortBy, order) + PageClause(f)
  {
    assert " LIMIT $" == " LIMIT " + "$";
    assert " OFFSET $" == " OFFSET " + "$";
  }
}
