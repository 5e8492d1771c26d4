/**
 * What the GET /feedback list query promises: which filters appear and in
 * what order, where WHERE appears, how the positional parameters `$k` in
 * the text line up with the bound values, the defaults, and the paging
 * arithmetic. The text is read back with `SqlText.Placeholders` and
 * `SqlText.Count`, so the statements are about the text itself.
 */
module FeedbackQueryProperties {
  import opened Wrappers
  import opened Decimal
  import opened SqlText
  import opened FeedbackQuery

  /** `lo, lo + 1, ..., lo + n - 1`. */
  function Range(lo: nat, n: nat): (r: seq<nat>)
    ensures |r| == n
    ensures forall i :: 0 <= i < n ==> r[i] == lo + i
    decreases n
  {
    if n == 0 then [] else [lo] + Range(lo + 1, n - 1)
  }

  lemma RangeExtend(lo: nat, n: nat)
    ensures Range(lo, n) + [lo + n, lo + n + 1] == Range(lo, n + 2)
  {
    var r := Range(lo, n) + [lo + n, lo + n + 1];
    assert forall i :: 0 <= i < n + 2 ==> r[i] == lo + i;
  }

  /** Number of filters the request switches on. */
  function FilterCount(req: ListRequest): nat {
    |ActiveFilters(req)|
  }

  // ---------------------------------------------------------------------------
  // Positional parameters in the text
  // ---------------------------------------------------------------------------

  /** A piece starting with a space cannot glue onto a parameter before it. */
  lemma PlaceholdersBeforeSpace(a: string, b: string)
    requires b != [] && b[0] == ' '
    ensures Placeholders(a + b) == Placeholders(a) + Placeholders(b)
  {
    PlaceholdersConcat(a, b);
  }

  /** A piece ending with a space cannot glue onto digits after it. */
  lemma PlaceholdersAfterSpace(a: string, b: string)
    requires a != [] && a[|a| - 1] == ' '
    ensures Placeholders(a + b) == Placeholders(a) + Placeholders(b)
  {
    PlaceholdersConcat(a, b);
  }

  /** A keyword without `$`, ending in a space, adds no parameter in front of `s`. */
  lemma PlaceholdersAfterKeyword(keyword: string, s: string)
    requires keyword != [] && keyword[|keyword| - 1] == ' ' && '$' !in keyword
    ensures Placeholders(keyword + s) == Placeholders(s)
  {
    NoDollarNoPlaceholders(keyword);
    PlaceholdersConcat(keyword, s);
  }

  /** A text without `$` adds no parameter in front of a piece that cannot extend it. */
  lemma PlaceholdersAfterText(prefix: string, s: string)
    requires '$' !in prefix && (s == [] || s[0] == ' ')
    ensures Placeholders(prefix + s) == Placeholders(s)
  {
    NoDollarNoPlaceholders(prefix);
    PlaceholdersConcat(prefix, s);
  }

  /** A keyword without `$`, starting with a space, adds no parameter after `s`. */
  lemma PlaceholdersBeforeKeyword(s: string, keyword: string)
    requires keyword != [] && keyword[0] == ' ' && '$' !in keyword
    ensures Placeholders(s + keyword) == Placeholders(s)
  {
    NoDollarNoPlaceholders(keyword);
    PlaceholdersConcat(s, keyword);
  }

  lemma PredicatePlaceholders(column: string, k: nat)
    requires '$' !in column
    ensures Placeholders(column + " = " + Placeholder(k)) == [k]
  {
    var lhs := column + " = ";
    assert '$' !in lhs;
    PlaceholdersAfterKeyword(lhs, Placeholder(k));
    PlaceholderReadsBack(k);
  }

  /** The joined predicates carry the parameters `k .. k + |fs| - 1`, in order. */
  lemma {:induction false} JoinedPredicatePlaceholders(fs: seq<Filter>, k: nat)
    requires forall i :: 0 <= i < |fs| ==> '$' !in fs[i].column
    ensures Placeholders(Join(Predicates(fs, k), " AND ")) == Range(k, |fs|)
    decreases |fs|
  {
    var ps := Predicates(fs, k);
    if |fs| == 1 {
      PredicatePlaceholders(fs[0].column, k);
    } else if |fs| > 1 {
      var head := ps[0];
      var rest := Join(ps[1..], " AND ");
      assert ps[1..] == Predicates(fs[1..], k + 1);
      JoinedPredicatePlaceholders(fs[1..], k + 1);
      PredicatePlaceholders(fs[0].column, k);
      PlaceholdersBeforeKeyword(head, " AND ");
      PlaceholdersAfterSpace(head + " AND ", rest);
    }
  }

  lemma WhereKeywordPlaceholders(conditions: string)
    ensures Placeholders(" WHERE " + conditions) == Placeholders(conditions)
  {
    PlaceholdersAfterKeyword(" WHERE ", conditions);
  }

  lemma WhereClausePlaceholders(fs: seq<Filter>)
    requires forall i :: 0 <= i < |fs| ==> '$' !in fs[i].column
    ensures Placeholders(WhereClause(fs)) == Range(1, |fs|)
  {
    if fs != [] {
      JoinedPredicatePlaceholders(fs, 1);
      WhereKeywordPlaceholders(Join(Predicates(fs, 1), " AND "));
    }
  }

  lemma OrderClausePlaceholders(sortBy: string, order: string)
    ensures Placeholders(OrderClause(sortBy, order)) == Placeholders(sortBy) + Placeholders(order)
  {
    var head := " ORDER BY " + sortBy;
    PlaceholdersAfterKeyword(" ORDER BY ", sortBy);
    PlaceholdersBeforeKeyword(head, " ");
    PlaceholdersAfterSpace(head + " ", order);
  }

  lemma PageClausePlaceholders(f: nat)
    ensures Placeholders(PageClause(f)) == [f + 1, f + 2]
  {
    var limit := " LIMIT " + Placeholder(f + 1);
    PlaceholderReadsBack(f + 1);
    PlaceholderReadsBack(f + 2);
    PlaceholdersAfterKeyword(" LIMIT ", Placeholder(f + 1));
    PlaceholdersBeforeKeyword(limit, " OFFSET ");
    PlaceholdersAfterSpace(limit + " OFFSET ", Placeholder(f + 2));
  }

  /** Every clause after the SELECT starts with a space. */
  lemma ClausesStartWithSpace(fs: seq<Filter>, sortBy: string, order: string, f: nat)
    ensures WhereClause(fs) == [] || WhereClause(fs)[0] == ' '
    ensures OrderClause(sortBy, order) != [] && OrderClause(sortBy, order)[0] == ' '
    ensures PageClause(f) != [] && PageClause(f)[0] == ' '
  {
  }

  lemma TextPlaceholders(w: string, oc: string, pc: string)
    requires w == [] || w[0] == ' '
    requires oc != [] && oc[0] == ' '
    requires pc != [] && pc[0] == ' '
    ensures Placeholders(SelectAll + w + oc + pc) == Placeholders(w) + Placeholders(oc) + Placeholders(pc)
  {
    PlaceholdersAfterText(SelectAll, w);
    PlaceholdersBeforeSpace(SelectAll + w, oc);
    PlaceholdersBeforeSpace(SelectAll + w + oc, pc);
  }

  /**
   * The parameters in the text, in textual order: `$1 .. $f` from the
   * filters, whatever `sortBy` and `order` happen to contain (they are
   * copied in unchecked), then `$(f+1)` for LIMIT and `$(f+2)` for OFFSET.
   */
  lemma PlaceholderLayout(req: ListRequest)
    ensures var f := FilterCount(req);
      Placeholders(BuildFeedbackQuery(req).text)
      == Range(1, f) + Placeholders(SortBy(req)) + Placeholders(Order(req)) + [f + 1, f + 2]
  {
    var fs := ActiveFilters(req);
    var f := FilterCount(req);
    var w := WhereClause(fs);
    var oc := OrderClause(SortBy(req), Order(req));
    var pc := PageClause(f);
    TextParts(req, w, pc);
    WhereClausePlaceholders(fs);
    OrderClausePlaceholders(SortBy(req), Order(req));
    PageClausePlaceholders(f);
    ClausesStartWithSpace(fs, SortBy(req), Order(req), f);
    TextPlaceholders(w, oc, pc);
  }

  /**
   * When the sort column and direction hold no `$`, the parameters found by
   * scanning the text character by character are exactly `$1 .. $n` in
   * order, with `n` the number of bound values.
   */
  lemma PlaceholdersAligned(req: ListRequest)
    requires '$' !in SortBy(req) && '$' !in Order(req)
    ensures var q := BuildFeedbackQuery(req);
      |q.values| == FilterCount(req) + 2 && Placeholders(q.text) == Range(1, |q.values|)
  {
    var f := FilterCount(req);
    PlaceholderLayout(req);
    NoDollarNoPlaceholders(SortBy(req));
    NoDollarNoPlaceholders(Order(req));
    assert Range(1, f) + [] + [] + [f + 1, f + 2] == Range(1, f) + [f + 1, f + 2];
    RangeExtend(1, f);
  }

  /**
   * The sort column is not validated: a parameter text `$k` passed as
   * `sortBy` becomes a parameter of the query, between the filters' and
   * LIMIT's, although no value is pushed for it; with `k` above the number
   * of values the statement names a parameter nothing binds.
   */
  lemma UncheckedSortByAddsParameter(req: ListRequest, k: nat)
    requires req.sortBy == Some(Placeholder(k)) && '$' !in Order(req)
    ensures var q := BuildFeedbackQuery(req);
      var f := FilterCount(req);
      |q.values| == f + 2 && Placeholders(q.text) == Range(1, f) + [k] + [f + 1, f + 2]
  {
    PlaceholderLayout(req);
    PlaceholderReadsBack(k);
    NoDollarNoPlaceholders(Order(req));
  }

  // ---------------------------------------------------------------------------
  // The WHERE keyword
  // ---------------------------------------------------------------------------

  /** A letter absent from every piece is absent from the joined predicates. */
  lemma {:induction false} JoinedPredicatesAvoid(fs: seq<Filter>, k: nat, c: char)
    requires !IsDigit(c) && c != '$' && c !in " = " && c !in " AND "
    requires forall i :: 0 <= i < |fs| ==> c !in fs[i].column
    ensures c !in Join(Predicates(fs, k), " AND ")
    decreases |fs|
  {
    var ps := Predicates(fs, k);
    if fs != [] {
      NatToStringRoundTrip(k);
      assert c !in ps[0];
      if |fs| > 1 {
        assert ps[1..] == Predicates(fs[1..], k + 1);
        JoinedPredicatesAvoid(fs[1..], k + 1, c);
      }
    }
  }

  /** A space on either side of the join keeps WHERE from straddling it. */
  lemma WhereCountConcat(a: string, b: string)
    requires a == [] || b == [] || a[|a| - 1] == ' ' || b[0] == ' '
    ensures Count(a + b, "WHERE") == Count(a, "WHERE") + Count(b, "WHERE")
  {
    CountConcat(a, b, "WHERE");
  }

  /** A text without the letter W adds no WHERE in front of `s`. */
  lemma WhereCountAfterText(prefix: string, s: string)
    requires 'W' !in prefix && (prefix == [] || s == [] || prefix[|prefix| - 1] == ' ' || s[0] == ' ')
    ensures Count(prefix + s, "WHERE") == Count(s, "WHERE")
  {
    CountAbsent(prefix, "WHERE");
    CountConcat(prefix, s, "WHERE");
  }

  /** A text without the letter W adds no WHERE after `s`. */
  lemma WhereCountBeforeText(s: string, suffix: string)
    requires 'W' !in suffix && (s == [] || suffix == [] || s[|s| - 1] == ' ' || suffix[0] == ' ')
    ensures Count(s + suffix, "WHERE") == Count(s, "WHERE")
  {
    CountAbsent(suffix, "WHERE");
    CountConcat(s, suffix, "WHERE");
  }

  /** The keyword itself, in front of conditions free of the letter W. */
  lemma WhereKeywordCount(conditions: string)
    requires 'W' !in conditions
    ensures Count(" WHERE " + conditions, "WHERE") == 1
  {
    var keyword := " WHERE ";
    assert Count("WHERE", "WHERE") == 1;
    WhereCountAfterText(" ", "WHERE");
    assert " " + "WHERE" == " WHERE";
    WhereCountBeforeText(" WHERE", " ");
    assert " WHERE" + " " == keyword;
    WhereCountBeforeText(keyword, conditions);
  }

  lemma WhereClauseCount(fs: seq<Filter>)
    requires forall i :: 0 <= i < |fs| ==> 'W' !in fs[i].column
    ensures Count(WhereClause(fs), "WHERE") == if fs == [] then 0 else 1
  {
    if fs != [] {
      JoinedPredicatesAvoid(fs, 1, 'W');
      WhereKeywordCount(Join(Predicates(fs, 1), " AND "));
    }
  }

  lemma OrderClauseCount(sortBy: string, order: string)
    ensures Count(OrderClause(sortBy, order), "WHERE") == Count(sortBy, "WHERE") + Count(order, "WHERE")
  {
    var head := " ORDER BY " + sortBy;
    WhereCountAfterText(" ORDER BY ", sortBy);
    WhereCountBeforeText(head, " ");
    WhereCountConcat(head + " ", order);
  }

  lemma PageClauseCount(f: nat)
    ensures Count(PageClause(f), "WHERE") == 0
  {
    NatToStringRoundTrip(f + 1);
    NatToStringRoundTrip(f + 2);
    assert 'W' !in PageClause(f);
    CountAbsent(PageClause(f), "WHERE");
  }

  lemma TextCount(w: string, oc: string, pc: string)
    requires w == [] || w[0] == ' '
    requires oc != [] && oc[0] == ' '
    requires pc != [] && pc[0] == ' '
    ensures Count(SelectAll + w + oc + pc, "WHERE")
      == Count(w, "WHERE") + Count(oc, "WHERE") + Count(pc, "WHERE")
  {
    WhereCountAfterText(SelectAll, w);
    WhereCountConcat(SelectAll + w, oc);
    WhereCountConcat(SelectAll + w + oc, pc);
  }

  /**
   * WHERE appears once when a filter is present and not at all otherwise,
   * besides any occurrence the unchecked sort column or direction brings in.
   */
  lemma WhereCount(req: ListRequest)
    ensures Count(BuildFeedbackQuery(req).text, "WHERE")
      == (if Truthy(req.category) || Truthy(req.status) then 1 else 0)
         + Count(SortBy(req), "WHERE") + Count(Order(req), "WHERE")
  {
    var fs := ActiveFilters(req);
    assert forall i :: 0 <= i < |fs| ==> 'W' !in fs[i].column;
    WhereClauseCount(fs);
    OrderClauseCount(SortBy(req), Order(req));
    PageClauseCount(|fs|);
    ClausesStartWithSpace(fs, SortBy(req), Order(req), |fs|);
    TextCount(WhereClause(fs), OrderClause(SortBy(req), Order(req)), PageClause(|fs|));
  }

  // ---------------------------------------------------------------------------
  // Shape of the query for each combination of filters
  // ---------------------------------------------------------------------------

  lemma SmallNumerals()
    ensures Placeholder(1) == "$1" && Placeholder(2) == "$2"
    ensures Placeholder(3) == "$3" && Placeholder(4) == "$4"
  {
  }

  lemma PageClauseShapes()
    ensures PageClause(0) == " LIMIT $1 OFFSET $2"
    ensures PageClause(1) == " LIMIT $2 OFFSET $3"
    ensures PageClause(2) == " LIMIT $3 OFFSET $4"
  {
    SmallNumerals();
  }

  lemma CategoryWhereClause(category: string)
    ensures WhereClause([Filter("category", category)]) == " WHERE category = $1"
  {
    SmallNumerals();
    assert Predicates([Filter("category", category)], 1) == ["category = $1"] by {
      assert "category" + " = " + "$1" == "category = $1";
    }
  }

  lemma StatusWhereClause(status: string)
    ensures WhereClause([Filter("status", status)]) == " WHERE status = $1"
  {
    SmallNumerals();
    assert Predicates([Filter("status", status)], 1) == ["status = $1"] by {
      assert "status" + " = " + "$1" == "status = $1";
    }
  }

  lemma BothPredicates(category: string, status: string)
    ensures Predicates([Filter("category", category), Filter("status", status)], 1)
      == ["category = $1", "status = $2"]
  {
    SmallNumerals();
    var both := [Filter("category", category), Filter("status", status)];
    assert both[1..] == [Filter("status", status)];
    assert "category" + " = " + "$1" == "category = $1";
    assert Predicates([Filter("status", status)], 2) == ["status = $2"] by {
      assert "status" + " = " + "$2" == "status = $2";
    }
  }

  lemma BothWhereClause(category: string, status: string)
    ensures WhereClause([Filter("category", category), Filter("status", status)])
      == " WHERE category = $1 AND status = $2"
  {
    var both := [Filter("category", category), Filter("status", status)];
    BothPredicates(category, status);
    WhereOfPredicates(both, ["category = $1", "status = $2"]);
    BothJoined();
    assert " WHERE " + "category = $1 AND status = $2" == " WHERE category = $1 AND status = $2";
  }

  lemma WhereOfPredicates(fs: seq<Filter>, ps: seq<string>)
    requires fs != [] && Predicates(fs, 1) == ps
    ensures WhereClause(fs) == " WHERE " + Join(ps, " AND ")
  {
  }

  lemma BothJoined()
    ensures Join(["category = $1", "status = $2"], " AND ") == "category = $1 AND status = $2"
  {
    var ps := ["category = $1", "status = $2"];
    assert ps[1..] == ["status = $2"];
  }

  /** The text is the SELECT with its WHERE clause, then ORDER BY, then the paging clause. */
  lemma TextParts(req: ListRequest, where: string, paging: string)
    requires WhereClause(ActiveFilters(req)) == where && PageClause(FilterCount(req)) == paging
    ensures BuildFeedbackQuery(req).text == SelectAll + where + OrderClause(SortBy(req), Order(req)) + paging
  {
  }

  /** The value list is the filter values, then limit and offset. */
  lemma ValueParts(req: ListRequest, filterValues: seq<Value>)
    requires FilterValues(ActiveFilters(req)) == filterValues
    ensures BuildFeedbackQuery(req).values
      == filterValues + [Num(Limit(req)), Num(Offset(Page(req), Limit(req)))]
  {
  }

  lemma UnfilteredShape(req: ListRequest)
    requires !Truthy(req.category) && !Truthy(req.status)
    ensures var q := BuildFeedbackQuery(req);
      q.text == "SELECT * FROM feedback" + OrderClause(SortBy(req), Order(req)) + " LIMIT $1 OFFSET $2"
      && q.values == [Num(Limit(req)), Num(Offset(Page(req), Limit(req)))]
  {
    PageClauseShapes();
    TextParts(req, "", " LIMIT $1 OFFSET $2");
    ValueParts(req, []);
  }

  lemma CategoryShape(req: ListRequest)
    requires Truthy(req.category) && !Truthy(req.status)
    ensures var q := BuildFeedbackQuery(req);
      q.text == "SELECT * FROM feedback WHERE category = $1" + OrderClause(SortBy(req), Order(req))
                + " LIMIT $2 OFFSET $3"
      && q.values == [Text(req.category.value), Num(Limit(req)), Num(Offset(Page(req), Limit(req)))]
  {
    PageClauseShapes();
    CategoryWhereClause(req.category.value);
    TextParts(req, " WHERE category = $1", " LIMIT $2 OFFSET $3");
    assert SelectAll + " WHERE category = $1" == "SELECT * FROM feedback WHERE category = $1";
    ValueParts(req, [Text(req.category.value)]);
  }

  lemma StatusShape(req: ListRequest)
    requires !Truthy(req.category) && Truthy(req.status)
    ensures var q := BuildFeedbackQuery(req);
      q.text == "SELECT * FROM feedback WHERE status = $1" + OrderClause(SortBy(req), Order(req))
                + " LIMIT $2 OFFSET $3"
      && q.values == [Text(req.status.value), Num(Limit(req)), Num(Offset(Page(req), Limit(req)))]
  {
    PageClauseShapes();
    StatusWhereClause(req.status.value);
    TextParts(req, " WHERE status = $1", " LIMIT $2 OFFSET $3");
    assert SelectAll + " WHERE status = $1" == "SELECT * FROM feedback WHERE status = $1";
    ValueParts(req, [Text(req.status.value)]);
  }

  lemma BothValues(category: string, status: string)
    ensures FilterValues([Filter("category", category), Filter("status", status)])
      == [Text(category), Text(status)]
  {
    var both := [Filter("category", category), Filter("status", status)];
    assert both[1..] == [Filter("status", status)];
  }

  lemma BothHead()
    ensures SelectAll + " WHERE category = $1 AND status = $2"
      == "SELECT * FROM feedback WHERE category = $1 AND status = $2"
  {
    assert " WHERE category = $1 AND status = $2" == " WHERE category = $1" + " AND status = $2";
    assert SelectAll + " WHERE category = $1" == "SELECT * FROM feedback WHERE category = $1";
    assert "SELECT * FROM feedback WHERE category = $1" + " AND status = $2"
      == "SELECT * FROM feedback WHERE category = $1 AND status = $2";
  }

  lemma BothFiltersShape(req: ListRequest)
    requires Truthy(req.category) && Truthy(req.status)
    ensures var q := BuildFeedbackQuery(req);
      q.text == "SELECT * FROM feedback WHERE category = $1 AND status = $2"
                + OrderClause(SortBy(req), Order(req)) + " LIMIT $3 OFFSET $4"
      && q.values == [Text(req.category.value), Text(req.status.value),
                      Num(Limit(req)), Num(Offset(Page(req), Limit(req)))]
  {
    PageClauseShapes();
    BothWhereClause(req.category.value, req.status.value);
    TextParts(req, " WHERE category = $1 AND status = $2", " LIMIT $3 OFFSET $4");
    BothHead();
    BothValues(req.category.value, req.status.value);
    ValueParts(req, [Text(req.category.value), Text(req.status.value)]);
  }

  /** Whichever combination of filters `req` switches on, its shape lemma. */
  lemma QueryShape(req: ListRequest)
    ensures !Truthy(req.category) && !Truthy(req.status) ==>
      BuildFeedbackQuery(req).text
        == "SELECT * FROM feedback" + OrderClause(SortBy(req), Order(req)) + " LIMIT $1 OFFSET $2"
    ensures Truthy(req.category) && !Truthy(req.status) ==>
      BuildFeedbackQuery(req).text
        == "SELECT * FROM feedback WHERE category = $1" + OrderClause(SortBy(req), Order(req))
           + " LIMIT $2 OFFSET $3"
    ensures !Truthy(req.category) && Truthy(req.status) ==>
      BuildFeedbackQuery(req).text
        == "SELECT * FROM feedback WHERE status = $1" + OrderClause(SortBy(req), Order(req))
           + " LIMIT $2 OFFSET $3"
    ensures Truthy(req.category) && Truthy(req.status) ==>
      BuildFeedbackQuery(req).text
        == "SELECT * FROM feedback WHERE category = $1 AND status = $2"
           + OrderClause(SortBy(req), Order(req)) + " LIMIT $3 OFFSET $4"
    ensures BuildFeedbackQuery(req).values
      == (if Truthy(req.category) then [Text(req.category.value)] else [])
         + (if Truthy(req.status) then [Text(req.status.value)] else [])
         + [Num(Limit(req)), Num(Offset(Page(req), Limit(req)))]
  {
    if Truthy(req.category) && Truthy(req.status) {
      BothFiltersShape(req);
    } else if Truthy(req.category) {
      CategoryShape(req);
    } else if Truthy(req.status) {
      StatusShape(req);
    } else {
      UnfilteredShape(req);
    }
  }

  /** With no query parameters: newest first, ten rows, first page. */
  lemma DefaultQuery(req: ListRequest)
    requires req.category.None? && req.status.None? && req.sortBy.None?
    requires req.order.None? && req.page.None? && req.limit.None?
    ensures BuildFeedbackQuery(req)
      == Query("SELECT * FROM feedback ORDER BY created_at desc LIMIT $1 OFFSET $2", [Num(10), Num(0)])
  {
    UnfilteredShape(req);
    assert OrderClause(SortBy(req), Order(req)) == " ORDER BY created_at desc";
    assert Offset(Page(req), Limit(req)) == 0;
    DefaultText();
  }

  lemma DefaultText()
    ensures "SELECT * FROM feedback" + " ORDER BY created_at desc" + " LIMIT $1 OFFSET $2"
      == "SELECT * FROM feedback ORDER BY created_at desc LIMIT $1 OFFSET $2"
  {
    assert "SELECT * FROM feedback" + " ORDER BY created_at desc"
      == "SELECT * FROM feedback ORDER BY created_at desc";
    assert "SELECT * FROM feedback ORDER BY created_at desc" + " LIMIT $1 OFFSET $2"
      == "SELECT * FROM feedback ORDER BY created_at desc LIMIT $1 OFFSET $2";
  }

  // ---------------------------------------------------------------------------
  // Filters present only when truthy
  // ---------------------------------------------------------------------------

  /**
   * A category filter takes part exactly when it is truthy: an absent or
   * empty one builds the same query as no category at all, and a truthy one
   * adds one bound value, its own, in front of everything else.
   */
  lemma CategoryFilterOnlyWhenTruthy(req: ListRequest)
    ensures var q := BuildFeedbackQuery(req);
      var without := BuildFeedbackQuery(req.(category := None));
      (!Truthy(req.category) ==> q == without)
      && (Truthy(req.category) <==> |q.values| == |without.values| + 1)
      && (Truthy(req.category) ==> q.values == [Text(req.category.value)] + without.values)
  {
    QueryShape(req);
    QueryShape(req.(category := None));
  }

  /**
   * Likewise for status; a truthy status value comes after the category's,
   * if any, and before LIMIT and OFFSET.
   */
  lemma StatusFilterOnlyWhenTruthy(req: ListRequest)
    ensures var q := BuildFeedbackQuery(req);
      var without := BuildFeedbackQuery(req.(status := None));
      var f := FilterCount(req);
      (!Truthy(req.status) ==> q == without)
      && (Truthy(req.status) <==> |q.values| == |without.values| + 1)
      && (Truthy(req.status) ==>
            q.values[f - 1] == Text(req.status.value)
            && q.values == without.values[..f - 1] + [Text(req.status.value)] + without.values[f - 1..])
  {
    QueryShape(req);
    QueryShape(req.(status := None));
  }

  // ---------------------------------------------------------------------------
  // Paging
  // ---------------------------------------------------------------------------

  /**
   * The last two values are the limit and `(page - 1) * limit`: the first
   * page starts at offset 0, the next page moves the offset on by `limit`
   * and leaves the text and every other value alone, and nothing stops a
   * page below 1 from giving a negative offset.
   */
  lemma Paging(req: ListRequest, page: int)
    ensures var q := BuildFeedbackQuery(req.(page := Some(page)));
      var next := BuildFeedbackQuery(req.(page := Some(page + 1)));
      var f := FilterCount(req);
      |q.values| == f + 2 && |next.values| == f + 2
      && q.values[f] == Num(Limit(req))
      && q.values[f + 1] == Num((page - 1) * Limit(req))
      && (page == 1 ==> q.values[f + 1] == Num(0))
      && next.text == q.text && next.values[..f + 1] == q.values[..f + 1]
      && next.values[f + 1].num == q.values[f + 1].num + Limit(req)
      && (page < 1 && Limit(req) > 0 ==> q.values[f + 1].num < 0)
  {
    var l := Limit(req);
    assert (page + 1 - 1) * l == (page - 1) * l + l;
    if page < 1 && l > 0 {
      assert (page - 1) * l <= -l;
    }
  }
}
