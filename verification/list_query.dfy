/**
 The statement behind `GET /songs`: optional search, language and category filters
 become `?` placeholders with bound values, followed by newest-first ordering and
 paging. Executing the statement against the table is not modelled.
 */
module ListQuery {
  import opened Wrappers
  import opened Strings

  /** The query-string values of `GET /songs`; `None` is an absent parameter. */
  datatype ListParams = ListParams(
    search: Option<string>,
    language: Option<string>,
    category: Option<string>,
    limit: Option<string>,
    offset: Option<string>)

  /** A bound statement parameter: a string, an integer, or `NaN` from `parseInt`. */
  datatype Param = Str(s: string) | Number(n: int) | NaN

  /** A statement as prepared: its text with `?` placeholders, and the bound values. */
  datatype SqlQuery = SqlQuery(text: string, params: seq<Param>)

  /** A query value is used as a filter only when it is present and non-empty. */
  predicate Given(v: Option<string>) {
    v.Some? && v.value != ""
  }

  /** `parseInt(s, 10)` as a bound value. */
  function IntParam(s: string): Param {
    match ParseInt(s)
    case Some(n) => Number(n)
    case None => NaN
  }

  /** The texts that stand in for absent paging parameters. */
  const DefaultLimit := "9"
  const DefaultOffset := "0"

  /** The bound limit: `'9'` stands in only when the parameter is absent. */
  function LimitParam(q: ListParams): Param {
    IntParam(q.limit.GetOr(DefaultLimit))
  }

  /** The bound offset: `'0'` stands in only when the parameter is absent. */
  function OffsetParam(q: ListParams): Param {
    IntParam(q.offset.GetOr(DefaultOffset))
  }

  /** A placeholder for one bound value. */
  const Hole := "?"
  const SelectAll := "SELECT * FROM songs"
  const Where := " WHERE "
  const And := " AND "
  const SearchClause := "(title LIKE " + Hole + " OR artist LIKE " + Hole + ")"
  const LanguageClause := "language = " + Hole
  const CategoryClause := "category = " + Hole
  const OrderBy := " ORDER BY created_at DESC LIMIT "
  const Offset := " OFFSET "
  const OrderAndPage := OrderBy + Hole + Offset + Hole

  /** The filter conditions, in the order they are appended. */
  function Conditions(q: ListParams): seq<string> {
    (if Given(q.search) then [SearchClause] else [])
    + (if Given(q.language) then [LanguageClause] else [])
    + (if Given(q.category) then [CategoryClause] else [])
  }

  /** The values bound to the filter conditions, in the same order. The search value is
      wrapped in `%` wildcards as it is: `%` and `_` inside it are not escaped. */
  function FilterParams(q: ListParams): seq<Param> {
    (if Given(q.search) then [Str("%" + q.search.value + "%"), Str("%" + q.search.value + "%")] else [])
    + (if Given(q.language) then [Str(q.language.value)] else [])
    + (if Given(q.category) then [Str(q.category.value)] else [])
  }

  /** The statement `GET /songs` prepares: the fixed SELECT, the WHERE part, then
      ordering and paging. Placeholders and bound values correspond one to one; the
      filter values come first in the order of their clauses; the paging values default
      to `'9'` and `'0'` and go through `parseInt`. */
  function BuildListQuery(q: ListParams): (r: SqlQuery)
    ensures Count(r.text, '?') == |r.params|
    ensures |r.params| == (if Given(q.search) then 2 else 0) + (if Given(q.language) then 1 else 0)
      + (if Given(q.category) then 1 else 0) + 2
    ensures Given(q.search) ==> r.params[0] == r.params[1] == Str("%" + q.search.value + "%")
    ensures Given(q.language) ==> r.params[if Given(q.search) then 2 else 0] == Str(q.language.value)
    ensures Given(q.category) ==> r.params[|r.params| - 3] == Str(q.category.value)
    ensures r.params[|r.params| - 2] == LimitParam(q) && r.params[|r.params| - 1] == OffsetParam(q)
  {
    var filter := WhereClause(Conditions(q));
    GlueIsHoleFree();
    StatementCount(SelectAll, filter, OrderBy, Offset);
    ConditionsCount(q);
    FilterParamsOrder(q);
    SqlQuery(SelectAll + filter + OrderAndPage,
             FilterParams(q) + [LimitParam(q), OffsetParam(q)])
  }

  /** The filter values in order: the search pattern twice, then the language, then the
      category, each only when given. */
  lemma FilterParamsOrder(q: ListParams)
    ensures var ps := FilterParams(q);
      && (Given(q.search) ==> ps[0] == ps[1] == Str("%" + q.search.value + "%"))
      && (Given(q.language) ==> ps[if Given(q.search) then 2 else 0] == Str(q.language.value))
      && (Given(q.category) ==> ps[|ps| - 1] == Str(q.category.value))
  {
  }

  /** The conditions in order: the search clause, then the language, then the category,
      each only when given. */
  lemma ConditionsOrder(q: ListParams)
    ensures var cs := Conditions(q);
      && |cs| == (if Given(q.search) then 1 else 0) + (if Given(q.language) then 1 else 0)
        + (if Given(q.category) then 1 else 0)
      && (Given(q.search) ==> cs[0] == SearchClause)
      && (Given(q.language) ==> cs[if Given(q.search) then 1 else 0] == LanguageClause)
      && (Given(q.category) ==> cs[|cs| - 1] == CategoryClause)
  {
  }

  /** The statement text starts with the SELECT and ends with ordering and paging. */
  lemma ListTextFrame(q: ListParams)
    ensures var text := BuildListQuery(q).text;
      && StartsWith(text, SelectAll)
      && |OrderAndPage| <= |text| && text[|text| - |OrderAndPage|..] == OrderAndPage
  {
    var filter := WhereClause(Conditions(q));
    assert BuildListQuery(q).text == SelectAll + filter + OrderAndPage;
    Framed(SelectAll, filter, OrderAndPage);
  }

  /** A head and a tail around any text are its prefix and its suffix. */
  lemma Framed(a: string, m: string, b: string)
    ensures StartsWith(a + m + b, a)
    ensures |b| <= |a + m + b| && (a + m + b)[|a + m + b| - |b|..] == b
  {
    assert (a + m + b)[..|a|] == a;
    assert (a + m + b)[|a + m|..] == b;
  }

  /** The text has a WHERE part exactly when some filter is given. */
  lemma ListTextWhere(q: ListParams)
    ensures var text := BuildListQuery(q).text;
      && (text == SelectAll + OrderAndPage <==> !Given(q.search) && !Given(q.language) && !Given(q.category))
      && (Given(q.search) || Given(q.language) || Given(q.category) ==> StartsWith(text, SelectAll + Where))
  {
    var filter := WhereClause(Conditions(q));
    assert BuildListQuery(q).text == SelectAll + filter + OrderAndPage;
    MiddleEmpty(SelectAll, filter, OrderAndPage);
    if filter != "" {
      MiddleStarts(SelectAll, filter, OrderAndPage, Where);
    }
  }

  /** Text between a fixed head and tail disappears exactly when it is empty. */
  lemma MiddleEmpty(a: string, m: string, b: string)
    ensures a + m + b == a + b <==> m == ""
  {
    if a + m + b == a + b {
      assert |a + m + b| == |a| + |m| + |b|;
    }
  }

  /** The text after a fixed head starts the whole. */
  lemma MiddleStarts(a: string, m: string, b: string, w: string)
    requires StartsWith(m, w)
    ensures StartsWith(a + m + b, a + w)
  {
    assert (a + m + b)[..|a + w|] == a + m[..|w|];
  }

  /** The WHERE part of the statement: nothing without conditions, otherwise `" WHERE "`
      and the conditions joined by `" AND "`. It adds exactly the conditions'
      placeholders. */
  function WhereClause(conds: seq<string>): (r: string)
    ensures Count(r, '?') == TotalCount(conds)
    ensures r == "" <==> |conds| == 0
    ensures |conds| > 0 ==> StartsWith(r, Where)
  {
    if |conds| == 0 then ""
    else
      GlueIsHoleFree();
      LeadJoinCount(Where, conds, And);
      Where + Join(conds, And)
  }

  /** Conditions without a capital `A` come back from the WHERE part by splitting what
      follows `" WHERE "` at `" AND "`: every `" AND "` there is one of the joins. */
  lemma WhereSplitsBack(conds: seq<string>)
    requires |conds| > 0 && forall i :: 0 <= i < |conds| ==> 'A' !in conds[i]
    ensures StartsWith(WhereClause(conds), Where)
    ensures Split(WhereClause(conds)[|Where|..], And) == conds
  {
    assert WhereClause(conds)[|Where|..] == Join(conds, And);
    assert And[1] == 'A' != And[0];
    SplitJoinMarked(conds, And);
  }

  /** None of the three clauses holds a capital `A`. */
  lemma ConditionsUnmarked(q: ListParams)
    ensures forall i :: 0 <= i < |Conditions(q)| ==> 'A' !in Conditions(q)[i]
  {
    assert 'A' !in SearchClause && 'A' !in LanguageClause && 'A' !in CategoryClause;
  }

  /** Between the `SELECT … WHERE ` head and the ordering tail, the statement holds the
      given conditions joined with `" AND "`, in their order. */
  lemma ListTextConditions(q: ListParams)
    requires Given(q.search) || Given(q.language) || Given(q.category)
    ensures var text := BuildListQuery(q).text;
      && |SelectAll + Where| + |OrderAndPage| <= |text|
      && Split(text[|SelectAll + Where|..|text| - |OrderAndPage|], And) == Conditions(q)
  {
    var conds := Conditions(q);
    var filter := WhereClause(conds);
    assert BuildListQuery(q).text == SelectAll + filter + OrderAndPage;
    ConditionsOrder(q);
    ConditionsUnmarked(q);
    WhereSplitsBack(conds);
    InnerPart(SelectAll, filter, OrderAndPage, Where);
  }

  /** What lies between a head followed by the start `w` of the middle, and a tail, is
      the rest of the middle. */
  lemma InnerPart(a: string, m: string, b: string, w: string)
    requires StartsWith(m, w)
    ensures |a + w| + |b| <= |a + m + b|
    ensures (a + m + b)[|a + w|..|a + m + b| - |b|] == m[|w|..]
  {
    assert (a + m + b)[|a|..|a + m|] == m;
  }

  /** The conditions carry one placeholder per filter value. */
  lemma ConditionsCount(q: ListParams)
    ensures TotalCount(Conditions(q)) == |FilterParams(q)|
  {
    SearchHoles();
    LanguageHoles();
    CategoryHoles();
    var s := if Given(q.search) then [SearchClause] else [];
    var l := if Given(q.language) then [LanguageClause] else [];
    var c := if Given(q.category) then [CategoryClause] else [];
    TotalCountAppend(s + l, c);
    TotalCountAppend(s, l);
  }

  lemma SearchHoles()
    ensures Count(SearchClause, '?') == 2
  {
    OneHole(" OR artist LIKE ", ")");
    OneHole("(title LIKE ", " OR artist LIKE " + Hole + ")");
    assert SearchClause == "(title LIKE " + Hole + (" OR artist LIKE " + Hole + ")");
  }

  lemma LanguageHoles()
    ensures Count(LanguageClause, '?') == 1
  {
    OneHole("language = ", "");
    assert LanguageClause == "language = " + Hole + "";
  }

  lemma CategoryHoles()
    ensures Count(CategoryClause, '?') == 1
  {
    OneHole("category = ", "");
    assert CategoryClause == "category = " + Hole + "";
  }

  /** The fixed text around the conditions holds no placeholder. */
  lemma GlueIsHoleFree()
    ensures '?' !in SelectAll && '?' !in Where && '?' !in And && '?' !in OrderBy && '?' !in Offset
  {
    HoleFreeSelect();
    HoleFreeOrderBy();
  }

  lemma HoleFreeSelect()
    ensures '?' !in SelectAll && '?' !in Where && '?' !in And
  {
  }

  lemma HoleFreeOrderBy()
    ensures '?' !in OrderBy && '?' !in Offset
  {
  }

  /** A statement of placeholder-free head, a filter, and a paging tail with two
      placeholders holds the filter's placeholders plus two. */
  lemma StatementCount(head: string, filter: string, a: string, b: string)
    requires '?' !in head && '?' !in a && '?' !in b
    ensures Count(head + filter + (a + Hole + b + Hole), '?') == Count(filter, '?') + 2
  {
    CountAbsent(head, '?');
    OneHole(a, b + Hole);
    CountAppend(a + Hole, b + Hole, '?');
    CountAppend(a, Hole, '?');
    assert a + Hole + b + Hole == (a + Hole) + (b + Hole);
    OneHole(b, "");
    assert b + Hole + "" == b + Hole;
    CountAppend(head, filter, '?');
    CountAppend(head + filter, a + Hole + b + Hole, '?');
  }

  /** A lead and separator free of placeholders add none to the joined conditions. */
  lemma LeadJoinCount(lead: string, conds: seq<string>, sep: string)
    requires '?' !in lead && '?' !in sep
    ensures Count(lead + Join(conds, sep), '?') == TotalCount(conds)
  {
    CountAbsent(lead, '?');
    CountAbsent(sep, '?');
    CountJoin(conds, sep);
    CountAppend(lead, Join(conds, sep), '?');
  }

  /** One placeholder between two placeholder-free pieces. */
  lemma OneHole(a: string, b: string)
    requires '?' !in a
    ensures Count(a + Hole + b, '?') == 1 + Count(b, '?')
  {
    CountAbsent(a, '?');
    CountAppend(a, Hole, '?');
    CountAppend(a + Hole, b, '?');
  }

  /** The placeholders of a list of clauses. */
  function TotalCount(parts: seq<string>): nat
    decreases |parts|
  {
    if |parts| == 0 then 0 else Count(parts[0], '?') + TotalCount(parts[1..])
  }

  lemma {:induction false} TotalCountAppend(a: seq<string>, b: seq<string>)
    ensures TotalCount(a + b) == TotalCount(a) + TotalCount(b)
    decreases |a|
  {
    if |a| == 0 {
      assert a + b == b;
    } else {
      assert (a + b)[1..] == a[1..] + b;
      TotalCountAppend(a[1..], b);
    }
  }

  /** Joining with a placeholder-free separator adds no placeholder. */
  lemma {:induction false} CountJoin(parts: seq<string>, sep: string)
    requires Count(sep, '?') == 0
    ensures Count(Join(parts, sep), '?') == TotalCount(parts)
    decreases |parts|
  {
    if |parts| > 1 {
      CountJoin(parts[1..], sep);
      CountAppend(parts[0], sep, '?');
      CountAppend(parts[0] + sep, Join(parts[1..], sep), '?');
    }
  }

  /** Which filters are given: all the statement text depends on. */
  function Shape(q: ListParams): (bool, bool, bool) {
    (Given(q.search), Given(q.language), Given(q.category))
  }

  /** No request value is spliced into the statement text: two requests with the same
      filters given get the same text, whatever the values. */
  lemma TextDependsOnlyOnShape(q1: ListParams, q2: ListParams)
    requires Shape(q1) == Shape(q2)
    ensures BuildListQuery(q1).text == BuildListQuery(q2).text
  {
    assert Conditions(q1) == Conditions(q2);
  }

  /** Paging values are bound as `parseInt` reads them, never clamped: any run of
      digits binds its full value as the limit ... */
  lemma LimitNotClamped(q: ListParams, ds: string)
    requires |ds| > 0 && AllDigits(ds)
    requires q.limit == Some(ds)
    ensures LimitParam(q) == Number(DigitsValue(ds))
  {
    ParseDigits(ds);
  }

  /** ... and a minus sign before digits is bound through `parseInt` as it stands,
      which reads it as the negated value: a negative offset is kept. */
  lemma NegativeOffsetKept(q: ListParams, ds: string)
    requires |ds| > 0 && AllDigits(ds)
    requires q.offset == Some("-" + ds)
    ensures OffsetParam(q) == IntParam("-" + ds)
    ensures ParseInt("-" + ds) == Some(-(DigitsValue(ds) as int))
  {
    ParseNegative(ds);
    assert q.offset.GetOr(DefaultOffset) == "-" + ds;
  }

  /** Absent paging values bind 9 and 0; an empty one binds NaN. */
  lemma PagingDefaults(q: ListParams)
    ensures q.limit.None? ==> LimitParam(q) == Number(9)
    ensures q.offset.None? ==> OffsetParam(q) == Number(0)
    ensures q.limit == Some("") ==> LimitParam(q) == NaN
  {
    ParseDigit('9');
    ParseDigit('0');
  }
}
