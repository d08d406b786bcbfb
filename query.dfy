/** The listing query of get_all_transactions: the filters a caller passes,
    the WHERE conditions and parameters the builder makes of them, and what
    SQLite does with the finished statement (filter, ORDER BY date DESC,
    timestamp DESC, then LIMIT and OFFSET). */
module Query {
  import opened Wrappers
  import opened Text
  import opened Dates
  import opened Transactions
  import opened Ordering

  /** The filters dictionary: each key absent (None) or given. */
  datatype Filters = Filters(
    kind: Option<string>,
    category: Option<string>,
    month: Option<string>,
    startDate: Option<string>,
    endDate: Option<string>,
    minAmount: Option<AmountValue>,
    maxAmount: Option<AmountValue>,
    search: Option<string>)

  const NoFilters := Filters(None, None, None, None, None, None, None, None)

  /** `filters.get(key)` is truthy. */
  predicate Given(v: Option<string>) {
    v.Some? && v.value != ""
  }

  predicate GivenAmount(v: Option<AmountValue>) {
    v.Some? && v.value.Truthy()
  }

  /** Given, and not the catch-all "all" that type and category accept. */
  predicate Selects(v: Option<string>) {
    Given(v) && v.value != "all"
  }

  /** float() reads each amount bound that is given. */
  predicate AmountsReadable(f: Filters) {
    && (GivenAmount(f.minAmount) ==> f.minAmount.value.ToCents().Some?)
    && (GivenAmount(f.maxAmount) ==> f.maxAmount.value.ToCents().Some?)
  }

  /** The LIKE pattern built from a search term. */
  function Pattern(term: string): (p: string)
    ensures |p| == |term| + 2 && p[0] == '%' && p[|p| - 1] == '%' && p[1..|p| - 1] == term
  {
    "%" + term + "%"
  }

  // The eight filters, numbered in the order both builders visit them:
  // type, category, month, start_date, end_date, min_amount, max_amount,
  // search. stop.py knows the first five.

  /** Filter `i` adds a condition. */
  predicate Active(f: Filters, i: nat) {
    match i
    case 0 => Selects(f.kind)
    case 1 => Selects(f.category)
    case 2 => Given(f.month)
    case 3 => Given(f.startDate)
    case 4 => Given(f.endDate)
    case 5 => GivenAmount(f.minAmount)
    case 6 => GivenAmount(f.maxAmount)
    case 7 => Given(f.search)
    case _ => false
  }

  /** What filter `i` demands of row `t`, stated on the row. */
  predicate FilterOk(f: Filters, i: nat, t: Transaction) {
    Active(f, i) ==>
      match i
      case 0 => t.kind.Name() == f.kind.value
      case 1 => t.category == f.category.value
      case 2 => SqliteMonth(t.date) == Some(f.month.value)
      case 3 => TextLe(f.startDate.value, t.date)
      case 4 => TextLe(t.date, f.endDate.value)
      case 5 => f.minAmount.value.ToCents().Some? && f.minAmount.value.ToCents().value <= t.amount
      case 6 => f.maxAmount.value.ToCents().Some? && t.amount <= f.maxAmount.value.ToCents().value
      case _ => Like(t.description, Pattern(f.search.value)) || Like(t.category, Pattern(f.search.value))
  }

  /** `t` passes the first `k` filters. */
  predicate UpTo(f: Filters, k: nat, t: Transaction) {
    k == 0 || (UpTo(f, k - 1, t) && FilterOk(f, k - 1, t))
  }

  /** `t` passes every filter of app_enhanced.py. */
  predicate Satisfies(f: Filters, t: Transaction) {
    UpTo(f, 8, t)
  }

  /** `t` passes every filter stop.py knows. */
  predicate SatisfiesBasic(f: Filters, t: Transaction) {
    UpTo(f, 5, t)
  }

  /** One WHERE condition of the builder. */
  datatype Condition = TypeIs | CategoryIs | MonthIs | DateFrom | DateTo | AmountFrom | AmountTo | SearchMatches {
    /** Its SQL text. */
    function Sql(): string {
      match this
      case TypeIs => "type = " + "?"
      case CategoryIs => "category = " + "?"
      case MonthIs => "strftime('%Y-%m', date) = " + "?"
      case DateFrom => "date >= " + "?"
      case DateTo => "date <= " + "?"
      case AmountFrom => "amount >= " + "?"
      case AmountTo => "amount <= " + "?"
      case SearchMatches => "(description LIKE " + "?" + " OR category LIKE " + "?" + ")"
    }

    /** The number of parameters it binds. */
    function Arity(): nat {
      if this == SearchMatches then 2 else 1
    }
  }

  /** A value bound to a `?`: text, a float (in cents) or an integer. */
  datatype SqlParam = SqlText(text: string) | SqlReal(cents: int) | SqlInteger(n: int)

  /** What SQLite makes of condition `c` on row `t`, its parameters `ps`
      bound. */
  predicate Holds(c: Condition, ps: seq<SqlParam>, t: Transaction)
    requires |ps| == c.Arity()
  {
    match c
    case TypeIs => ps[0].SqlText? && t.kind.Name() == ps[0].text
    case CategoryIs => ps[0].SqlText? && t.category == ps[0].text
    case MonthIs => ps[0].SqlText? && SqliteMonth(t.date) == Some(ps[0].text)
    case DateFrom => ps[0].SqlText? && TextLe(ps[0].text, t.date)
    case DateTo => ps[0].SqlText? && TextLe(t.date, ps[0].text)
    case AmountFrom => ps[0].SqlReal? && ps[0].cents <= t.amount
    case AmountTo => ps[0].SqlReal? && t.amount <= ps[0].cents
    case SearchMatches =>
      ps[0].SqlText? && ps[1].SqlText? && (Like(t.description, ps[0].text) || Like(t.category, ps[1].text))
  }

  /** The condition filter `i` adds. */
  function ConditionOf(i: nat): Condition {
    match i
    case 0 => TypeIs
    case 1 => CategoryIs
    case 2 => MonthIs
    case 3 => DateFrom
    case 4 => DateTo
    case 5 => AmountFrom
    case 6 => AmountTo
    case _ => SearchMatches
  }

  /** The conditions of the active filters among the first `k`, in order. */
  function ActiveConditions(f: Filters, k: nat): seq<Condition> {
    if k == 0 then []
    else ActiveConditions(f, k - 1) + (if Active(f, k - 1) then [ConditionOf(k - 1)] else [])
  }

  /** Each active filter adds its own condition, and no other filter adds
      one: "all" and an absent or empty key add nothing. */
  lemma {:induction false} ConditionsPerFilter(f: Filters, k: nat)
    requires k <= 8
    ensures forall i :: 0 <= i < 8 ==> (ConditionOf(i) in ActiveConditions(f, k) <==> i < k && Active(f, i))
    ensures |ActiveConditions(f, k)| <= k
    ensures forall a, b :: 0 <= a < b < |ActiveConditions(f, k)| ==> ActiveConditions(f, k)[a] != ActiveConditions(f, k)[b]
  {
    if k > 0 {
      ConditionsPerFilter(f, k - 1);
    }
  }

  /** Each condition binds one parameter except the search, which binds
      two: the parameters number the conditions plus one for a search. */
  lemma {:induction false} ParametersPerFilter(f: Filters, k: nat)
    requires k <= 8
    ensures Arities(ActiveConditions(f, k)) ==
      |ActiveConditions(f, k)| + (if k == 8 && Given(f.search) then 1 else 0)
  {
    if k > 0 {
      ParametersPerFilter(f, k - 1);
      var prior := ActiveConditions(f, k - 1);
      assert k == 8 ==> Active(f, k - 1) == Given(f.search);
      if Active(f, k - 1) {
        var c := ConditionOf(k - 1);
        assert (prior + [c])[..|prior|] == prior;
        assert Arities(prior + [c]) == Arities(prior) + c.Arity();
        assert c.Arity() == if k == 8 then 2 else 1;
      } else {
        assert ActiveConditions(f, k) == prior;
      }
    }
  }

  /** The number of parameters the conditions bind together. */
  function Arities(conds: seq<Condition>): nat {
    if conds == [] then 0 else Arities(conds[..|conds| - 1]) + conds[|conds| - 1].Arity()
  }

  /** Every condition holds on `t`, the parameters bound in order: the
      last condition takes the last parameters. */
  predicate AllHold(conds: seq<Condition>, ps: seq<SqlParam>, t: Transaction)
    decreases |conds|
  {
    if conds == [] then true
    else
      var c := conds[|conds| - 1];
      && |ps| >= c.Arity()
      && AllHold(conds[..|conds| - 1], ps[..|ps| - c.Arity()], t)
      && Holds(c, ps[|ps| - c.Arity()..], t)
  }

  /** Appending a condition with its parameters adds one conjunct. */
  lemma AllHoldAppend(conds: seq<Condition>, ps: seq<SqlParam>, c: Condition, qs: seq<SqlParam>)
    requires |qs| == c.Arity()
    ensures Arities(conds + [c]) == Arities(conds) + c.Arity()
    ensures forall t :: AllHold(conds + [c], ps + qs, t) <==> AllHold(conds, ps, t) && Holds(c, qs, t)
  {
    assert (conds + [c])[..|conds|] == conds;
    assert (ps + qs)[..|ps|] == ps;
    assert (ps + qs)[|ps|..] == qs;
  }

  /** float() reads amount bound `i`, when `i` is one. */
  predicate Readable(f: Filters, i: nat) {
    && (i == 5 ==> f.minAmount.Some? && f.minAmount.value.ToCents().Some?)
    && (i == 6 ==> f.maxAmount.Some? && f.maxAmount.value.ToCents().Some?)
  }

  /** float() reads each active amount bound among the first `k` filters. */
  predicate ReadableUpTo(f: Filters, k: nat) {
    && (k > 5 && Active(f, 5) ==> Readable(f, 5))
    && (k > 6 && Active(f, 6) ==> Readable(f, 6))
  }

  /** The parameters filter `i` binds: the given text, float() of an
      amount bound, or the search pattern once for each LIKE. */
  function ParamsOf(f: Filters, i: nat): (ps: seq<SqlParam>)
    requires Active(f, i) && Readable(f, i)
    ensures |ps| == ConditionOf(i).Arity()
  {
    match i
    case 0 => [SqlText(f.kind.value)]
    case 1 => [SqlText(f.category.value)]
    case 2 => [SqlText(f.month.value)]
    case 3 => [SqlText(f.startDate.value)]
    case 4 => [SqlText(f.endDate.value)]
    case 5 => [SqlReal(f.minAmount.value.ToCents().value)]
    case 6 => [SqlReal(f.maxAmount.value.ToCents().value)]
    case _ => [SqlText(Pattern(f.search.value)), SqlText(Pattern(f.search.value))]
  }

  /** The parameters of the active filters among the first `k`, in order. */
  function ActiveParams(f: Filters, k: nat): seq<SqlParam>
    requires ReadableUpTo(f, k)
  {
    if k == 0 then []
    else ActiveParams(f, k - 1) + (if Active(f, k - 1) then ParamsOf(f, k - 1) else [])
  }

  /** The condition of an active filter, its parameters bound, holds on
      exactly the rows that pass the filter. */
  lemma ConditionMeansFilter(f: Filters, i: nat)
    requires Active(f, i) && Readable(f, i)
    ensures forall t :: Holds(ConditionOf(i), ParamsOf(f, i), t) == FilterOk(f, i, t)
  {
  }

  /** The conditions and parameters of the first `k` filters fit together,
      and the rows on which every condition holds are exactly the rows
      that pass those filters. */
  lemma {:induction false} ActiveMeaning(f: Filters, k: nat)
    requires ReadableUpTo(f, k)
    ensures Arities(ActiveConditions(f, k)) == |ActiveParams(f, k)|
    ensures forall t :: AllHold(ActiveConditions(f, k), ActiveParams(f, k), t) == UpTo(f, k, t)
  {
    if k > 0 {
      ActiveMeaning(f, k - 1);
      if Active(f, k - 1) {
        ActiveStep(f, k - 1, k);
      } else {
        var conds, ps := ActiveConditions(f, k - 1), ActiveParams(f, k - 1);
        assert ActiveConditions(f, k) == conds;
        assert ActiveParams(f, k) == ps;
        forall t ensures AllHold(conds, ps, t) == UpTo(f, k, t) {
          assert UpTo(f, k, t) == UpTo(f, k - 1, t);
        }
      }
    }
  }

  /** An active filter `j` adds its condition and parameters, and its
      conjunct, to those of the filters before it. */
  lemma ActiveStep(f: Filters, j: nat, k: nat)
    requires k == j + 1 && ReadableUpTo(f, k) && Active(f, j)
    requires Arities(ActiveConditions(f, j)) == |ActiveParams(f, j)|
    requires forall t :: AllHold(ActiveConditions(f, j), ActiveParams(f, j), t) == UpTo(f, j, t)
    ensures Arities(ActiveConditions(f, k)) == |ActiveParams(f, k)|
    ensures forall t :: AllHold(ActiveConditions(f, k), ActiveParams(f, k), t) == UpTo(f, k, t)
  {
    var conds, ps := ActiveConditions(f, j), ActiveParams(f, j);
    var c, qs := ConditionOf(j), ParamsOf(f, j);
    assert ActiveConditions(f, k) == conds + [c];
    assert ActiveParams(f, k) == ps + qs;
    AllHoldAppend(conds, ps, c, qs);
    ConditionMeansFilter(f, j);
    forall t ensures AllHold(conds + [c], ps + qs, t) == UpTo(f, k, t) {
      assert AllHold(conds + [c], ps + qs, t) == (AllHold(conds, ps, t) && Holds(c, qs, t));
      assert UpTo(f, k, t) == (UpTo(f, j, t) && FilterOk(f, j, t));
    }
  }

  /** The part of the query builder both trackers share: type, category,
      month, start date and end date, each given one appending its
      condition and its text parameter; "all" for type or category appends
      nothing. */
  method BasicConditions(filters: Filters) returns (conditions: seq<Condition>, params: seq<SqlParam>)
    ensures ReadableUpTo(filters, 5)
    ensures conditions == ActiveConditions(filters, 5) && params == ActiveParams(filters, 5)
  {
    conditions, params := [], [];
    ghost var k := 0;
    if Selects(filters.kind) {
      conditions := conditions + [TypeIs];
      params := params + [SqlText(filters.kind.value)];
    }
    k := k + 1;
    assert conditions == ActiveConditions(filters, k) && params == ActiveParams(filters, k);
    if Selects(filters.category) {
      conditions := conditions + [CategoryIs];
      params := params + [SqlText(filters.category.value)];
    }
    k := k + 1;
    assert conditions == ActiveConditions(filters, k) && params == ActiveParams(filters, k);
    if Given(filters.month) {
      conditions := conditions + [MonthIs];
      params := params + [SqlText(filters.month.value)];
    }
    k := k + 1;
    assert conditions == ActiveConditions(filters, k) && params == ActiveParams(filters, k);
    if Given(filters.startDate) {
      conditions := conditions + [DateFrom];
      params := params + [SqlText(filters.startDate.value)];
    }
    k := k + 1;
    assert conditions == ActiveConditions(filters, k) && params == ActiveParams(filters, k);
    if Given(filters.endDate) {
      conditions := conditions + [DateTo];
      params := params + [SqlText(filters.endDate.value)];
    }
    k := k + 1;
    assert conditions == ActiveConditions(filters, k) && params == ActiveParams(filters, k);
  }

  /** The SQL texts of the conditions, in order. */
  function Sqls(conds: seq<Condition>): (r: seq<string>)
    ensures |r| == |conds|
    ensures forall i :: 0 <= i < |conds| ==> r[i] == conds[i].Sql()
  {
    if conds == [] then []
    else
      var init := conds[..|conds| - 1];
      assert forall i :: 0 <= i < |init| ==> init[i] == conds[i];
      Sqls(init) + [conds[|conds| - 1].Sql()]
  }

  /** `' WHERE ' + ' AND '.join(conditions)`, or nothing without conditions. */
  function WhereClause(conds: seq<Condition>): string {
    if conds == [] then "" else " WHERE " + Join(" AND ", Sqls(conds))
  }

  const OrderClause := " ORDER BY date DESC, timestamp DESC"
  const LimitClause := " LIMIT " + "?"
  const OffsetClause := " OFFSET " + "?"

  /** A text free of `?` followed by one `?` holds exactly one. */
  lemma Marked(a: string)
    requires '?' !in a
    ensures Occurrences('?', a + "?") == 1
  {
    assert (a + "?")[..|a|] == a;
  }

  /** The search condition holds two `?`, one per LIKE. */
  lemma SearchMarks()
    ensures Occurrences('?', SearchMatches.Sql()) == 2
  {
    var a, b := "(description LIKE ", " OR category LIKE ";
    Marked(a);
    Marked(b);
    OccurrencesConcat('?', a + "?", b);
    OccurrencesConcat('?', a + "?" + b, "?");
    OccurrencesConcat('?', a + "?" + b + "?", ")");
  }

  /** Each condition's text holds one `?` per parameter it binds. */
  lemma ConditionMarks(c: Condition)
    ensures Occurrences('?', c.Sql()) == c.Arity()
  {
    match c
    case TypeIs => Marked("type = ");
    case CategoryIs => Marked("category = ");
    case MonthIs => Marked("strftime('%Y-%m', date) = ");
    case DateFrom => Marked("date >= ");
    case DateTo => Marked("date <= ");
    case AmountFrom => Marked("amount >= ");
    case AmountTo => Marked("amount <= ");
    case SearchMatches => SearchMarks();
  }

  lemma {:induction false} SqlsMarks(conds: seq<Condition>)
    ensures OccurrencesIn('?', Sqls(conds)) == Arities(conds)
  {
    if conds != [] {
      var init := conds[..|conds| - 1];
      SqlsMarks(init);
      ConditionMarks(conds[|conds| - 1]);
      assert Sqls(conds)[..|conds| - 1] == Sqls(init);
    }
  }

  /** The WHERE clause holds exactly as many `?` as its conditions bind
      parameters, and the fixed clauses one per parameter they add. */
  lemma ClauseMarks(conds: seq<Condition>)
    ensures Occurrences('?', WhereClause(conds)) == Arities(conds)
  {
    if conds != [] {
      var joined := Join(" AND ", Sqls(conds));
      SqlsMarks(conds);
      KeywordsUnmarked();
      OccurrencesJoin('?', " AND ", Sqls(conds));
      OccurrencesConcat('?', " WHERE ", joined);
    }
  }

  /** The keywords the WHERE clause adds hold no `?`. */
  lemma KeywordsUnmarked()
    ensures '?' !in " AND " && Occurrences('?', " WHERE ") == 0
  {
  }

  lemma OrderMarks()
    ensures Occurrences('?', OrderClause) == 0
  {
    assert '?' !in OrderClause;
  }

  lemma LimitMarks()
    ensures Occurrences('?', LimitClause) == 1
    ensures Occurrences('?', OffsetClause) == 1
  {
    Marked(" LIMIT ");
    Marked(" OFFSET ");
  }

  /** The text of a listing statement: the SELECT, the conditions joined
      with AND after WHERE, the fixed order, then `LIMIT ?` and `OFFSET ?`
      when the statement is paged. */
  function StatementText(select: string, conds: seq<Condition>, limited: bool, offsetted: bool): string {
    select + WhereClause(conds) + OrderClause
      + (if limited then LimitClause else "")
      + (if offsetted then OffsetClause else "")
  }

  /** Over a SELECT free of `?`, the statement text holds one `?` per
      parameter: those of the conditions, then one for LIMIT and one for
      OFFSET when present. */
  lemma StatementMarks(select: string, conds: seq<Condition>, limited: bool, offsetted: bool)
    requires '?' !in select
    ensures Occurrences('?', StatementText(select, conds, limited, offsetted))
      == Arities(conds) + (if limited then 1 else 0) + (if offsetted then 1 else 0)
  {
    var a := select + WhereClause(conds);
    var b := a + OrderClause;
    var c := b + (if limited then LimitClause else "");
    ClauseMarks(conds);
    OrderMarks();
    LimitMarks();
    OccurrencesConcat('?', select, WhereClause(conds));
    OccurrencesConcat('?', a, OrderClause);
    OccurrencesConcat('?', b, if limited then LimitClause else "");
    OccurrencesConcat('?', c, if offsetted then OffsetClause else "");
  }

  /** A statement as cursor.execute receives it: the SQL text, the
      conditions its WHERE clause joins, whether it ends in LIMIT ? and
      OFFSET ?, and the parameters in order. */
  datatype Statement = Statement(
    sql: string,
    conditions: seq<Condition>,
    limited: bool,
    offsetted: bool,
    params: seq<SqlParam>)

  /** The rows of `s` that satisfy `p`, in their order. */
  function Keep(s: seq<Transaction>, p: Transaction -> bool): (r: seq<Transaction>)
    ensures forall t :: t in r <==> t in s && p(t)
    ensures |r| <= |s|
    ensures (forall t :: t in s ==> p(t)) ==> r == s
  {
    if s == [] then []
    else
      assert s == s[..|s| - 1] + [s[|s| - 1]];
      Keep(s[..|s| - 1], p) + (if p(s[|s| - 1]) then [s[|s| - 1]] else [])
  }

  lemma {:induction false} KeepSame(s: seq<Transaction>, p: Transaction -> bool, q: Transaction -> bool)
    requires forall t :: p(t) == q(t)
    ensures Keep(s, p) == Keep(s, q)
  {
    if s != [] {
      KeepSame(s[..|s| - 1], p, q);
    }
  }

  /** Where `LIMIT limit OFFSET offset` starts: a negative offset counts as
      none, and an offset past the end leaves nothing. */
  function Start(offset: int, n: nat): (k: nat)
    ensures k <= n
    ensures 0 <= offset <= n ==> k == offset
  {
    if offset <= 0 then 0 else if offset >= n then n else offset
  }

  /** `LIMIT limit OFFSET offset` as SQLite applies it: skip `offset` rows,
      then keep at most `limit`, where a negative limit keeps them all. */
  function Window(s: seq<Transaction>, limit: int, offset: int): (r: seq<Transaction>)
    ensures var k := Start(offset, |s|);
      && (if 0 <= limit <= |s| - k then |r| == limit else |r| == |s| - k)
      && r == s[k..k + |r|]
  {
    var k := Start(offset, |s|);
    if 0 <= limit <= |s| - k then s[k..k + limit] else s[k..]
  }

  /** Python truthiness of an optional integer. */
  predicate Truthy(n: Option<int>) {
    n.Some? && n.value != 0
  }

  /** The page get_all_transactions returns of the ordered matches: LIMIT
      only for a truthy limit, OFFSET only for a truthy offset after one.
      The page is a run of consecutive rows, from `Start`. */
  function Paged(s: seq<Transaction>, limit: Option<int>, offset: Option<int>): (r: seq<Transaction>)
    ensures !Truthy(limit) ==> r == s
    ensures Truthy(limit) && limit.value > 0 ==> |r| <= limit.value
    ensures var k := if Truthy(limit) && Truthy(offset) then Start(offset.value, |s|) else 0;
      k + |r| <= |s| && r == s[k..k + |r|]
    ensures forall t :: t in r ==> t in s
    ensures SortedByRecency(s) ==> SortedByRecency(r)
  {
    if Truthy(limit) then
      var w := Window(s, limit.value, if Truthy(offset) then offset.value else 0);
      SliceOf(s, Start(if Truthy(offset) then offset.value else 0, |s|), |w|);
      w
    else
      assert s == s[0..|s|];
      s
  }

  /** A run of consecutive rows holds rows of `s` only, and is ordered
      when `s` is. */
  lemma SliceOf(s: seq<Transaction>, k: nat, m: nat)
    requires k + m <= |s|
    ensures forall t :: t in s[k..k + m] ==> t in s
    ensures SortedByRecency(s) ==> SortedByRecency(s[k..k + m])
  {
    forall t | t in s[k..k + m] ensures t in s {
      var i :| 0 <= i < m && s[k..k + m][i] == t;
      assert s[k + i] == t;
    }
    if SortedByRecency(s) {
      var w := s[k..k + m];
      forall a, b | 0 <= a < b < m ensures ComesFirst(w[a], w[b]) {
        assert w[a] == s[k + a] && w[b] == s[k + b];
      }
    }
  }

  /** Sequences with the same multiset have the same members. */
  lemma SameMembers(a: seq<Transaction>, b: seq<Transaction>)
    requires multiset(a) == multiset(b)
    ensures forall t :: t in a <==> t in b
  {
    forall t ensures t in a <==> t in b {
      assert t in a <==> t in multiset(a);
      assert t in b <==> t in multiset(b);
    }
  }

  /** What SQLite returns for a statement over the rows of a table (in
      scan order): a binding error when the text's `?` count, the
      conditions and the trailing LIMIT/OFFSET do not account for the
      parameters; otherwise the matching rows, latest first, windowed. */
  function Execute(table: seq<Transaction>, q: Statement): (r: Result<seq<Transaction>, Error>)
    ensures r.Ok? ==> SortedByRecency(r.value)
    ensures r.Ok? ==> |q.params| >= Arities(q.conditions)
    ensures r.Ok? ==> forall t :: t in r.value ==>
      t in table && AllHold(q.conditions, q.params[..Arities(q.conditions)], t)
    ensures r.Ok? && !q.limited ==> forall t :: t in table && AllHold(q.conditions, q.params[..Arities(q.conditions)], t) ==> t in r.value
  {
    var n := Arities(q.conditions);
    var slots := n + (if q.limited then 1 else 0) + (if q.offsetted then 1 else 0);
    if Occurrences('?', q.sql) != |q.params| || |q.params| != slots || (q.offsetted && !q.limited) then
      Err(StorageError)
    else
      var kept := Keep(table, t => AllHold(q.conditions, q.params[..n], t));
      var ordered := SortByRecency(kept);
      SameMembers(ordered, kept);
      if !q.limited then Ok(ordered)
      else
        var off := if q.offsetted then q.params[n + 1] else SqlInteger(0);
        if q.params[n].SqlInteger? && off.SqlInteger? then
          var k := Start(off.n, |ordered|);
          var w := Window(ordered, q.params[n].n, off.n);
          SliceOf(ordered, k, |w|);
          Ok(w)
        else Err(StorageError)
  }

  /** `q` is a statement over `select` for the rows satisfying `p`, paged
      by `limit` and `offset`: its text is the SELECT, the conditions joined
      with AND, the fixed order and the paging clauses, one `?` per
      parameter, the conditions' parameters first and meaning `p`, then
      LIMIT and OFFSET exactly when Python calls them truthy. */
  ghost predicate Describes(q: Statement, select: string, p: Transaction -> bool, limit: Option<int>, offset: Option<int>) {
    var n := Arities(q.conditions);
    && q.sql == StatementText(select, q.conditions, q.limited, q.offsetted)
    && Occurrences('?', q.sql) == |q.params|
    && q.limited == Truthy(limit)
    && q.offsetted == (Truthy(limit) && Truthy(offset))
    && |q.params| == n + (if q.limited then 1 else 0) + (if q.offsetted then 1 else 0)
    && (forall t :: AllHold(q.conditions, q.params[..n], t) == p(t))
    && (q.limited ==> q.params[n] == SqlInteger(limit.value))
    && (q.offsetted ==> q.params[n + 1] == SqlInteger(offset.value))
  }

  /** A statement that describes `p` returns the rows satisfying `p`,
      latest first, paged. */
  lemma ExecuteDescribed(table: seq<Transaction>, q: Statement, select: string, p: Transaction -> bool, limit: Option<int>, offset: Option<int>)
    requires Describes(q, select, p, limit, offset)
    ensures Execute(table, q) == Ok(Paged(SortByRecency(Keep(table, p)), limit, offset))
  {
    KeepSame(table, t => AllHold(q.conditions, q.params[..Arities(q.conditions)], t), p);
  }

  /** The listing get_all_transactions (app_enhanced.py) promises. */
  function Listing(table: seq<Transaction>, f: Filters, limit: Option<int>, offset: Option<int>): seq<Transaction> {
    Paged(SortByRecency(Keep(table, t => Satisfies(f, t))), limit, offset)
  }

  /** The listing get_all_transactions (stop.py) promises. */
  function BasicListing(table: seq<Transaction>, f: Filters): seq<Transaction> {
    SortByRecency(Keep(table, t => SatisfiesBasic(f, t)))
  }

  /** Every row listed is a row of the table that passes every filter, and
      the page is ordered latest first. */
  lemma ListingSound(table: seq<Transaction>, f: Filters, limit: Option<int>, offset: Option<int>)
    ensures var r := Listing(table, f, limit, offset);
      && SortedByRecency(r)
      && forall t :: t in r ==> t in table && Satisfies(f, t)
  {
    var kept := Keep(table, t => Satisfies(f, t));
    SameMembers(SortByRecency(kept), kept);
  }

  /** Without a truthy limit every row that passes the filters is listed,
      whatever the offset. */
  lemma ListingComplete(table: seq<Transaction>, f: Filters, limit: Option<int>, offset: Option<int>)
    requires !Truthy(limit)
    ensures forall t :: t in table && Satisfies(f, t) ==> t in Listing(table, f, limit, offset)
  {
    var kept := Keep(table, t => Satisfies(f, t));
    SameMembers(SortByRecency(kept), kept);
  }

  /** With no filters and no limit the listing is the whole table, every
      row as often as it is stored, latest first. */
  lemma UnfilteredListing(table: seq<Transaction>)
    ensures multiset(Listing(table, NoFilters, None, None)) == multiset(table)
    ensures multiset(BasicListing(table, NoFilters)) == multiset(table)
  {
    forall t ensures Satisfies(NoFilters, t) && SatisfiesBasic(NoFilters, t) {
      NothingFilters(8, t);
      NothingFilters(5, t);
    }
  }

  /** Without filters every row passes. */
  lemma {:induction false} NothingFilters(k: nat, t: Transaction)
    ensures UpTo(NoFilters, k, t)
  {
    if k > 0 {
      NothingFilters(k - 1, t);
    }
  }

  /** "all" for the type or the category filters nothing, exactly like
      leaving the key out. */
  lemma AllIsNoFilter(f: Filters, t: Transaction)
    ensures Satisfies(f.(kind := Some("all")), t) <==> Satisfies(f.(kind := None), t)
    ensures Satisfies(f.(category := Some("all")), t) <==> Satisfies(f.(category := None), t)
  {
    var a, b := f.(kind := Some("all")), f.(kind := None);
    forall i: nat | i < 8 ensures FilterOk(a, i, t) == FilterOk(b, i, t) {
    }
    UpToAgree(a, b, 8, t);
    var c, d := f.(category := Some("all")), f.(category := None);
    forall i: nat | i < 8 ensures FilterOk(c, i, t) == FilterOk(d, i, t) {
    }
    UpToAgree(c, d, 8, t);
  }

  /** Two filter sets that agree on each of the first `k` filters pass the
      same rows through them. */
  lemma {:induction false} UpToAgree(f: Filters, g: Filters, k: nat, t: Transaction)
    requires forall i: nat :: i < k ==> FilterOk(f, i, t) == FilterOk(g, i, t)
    ensures UpTo(f, k, t) == UpTo(g, k, t)
  {
    if k > 0 {
      UpToAgree(f, g, k - 1, t);
    }
  }

  /** The same amount as both bounds, a number or a numeral float() reads,
      selects exactly the rows of that amount: both bounds are inclusive. */
  lemma AmountBoundsMeet(f: Filters, t: Transaction, x: int)
    requires GivenAmount(f.minAmount) && f.minAmount == f.maxAmount && f.minAmount.value.ToCents() == Some(x)
    ensures FilterOk(f, 5, t) && FilterOk(f, 6, t) <==> t.amount == x
  {
  }

  /** On a stored row the month filter compares the year-month prefix of
      its date with the given month. */
  lemma MonthFilterIsPrefix(f: Filters, t: Transaction)
    requires Stored(t) && Given(f.month)
    ensures FilterOk(f, 2, t) <==> t.date[..7] == f.month.value
  {
  }

  /** On a stored row and a well-formed bound, start_date and end_date
      compare calendar days, both ends included. */
  lemma DateRangeIsChronological(f: Filters, t: Transaction)
    requires Stored(t)
    requires Given(f.startDate) && IsIsoDate(f.startDate.value)
    requires Given(f.endDate) && IsIsoDate(f.endDate.value)
    ensures FilterOk(f, 3, t) <==> ChronologicallyLe(f.startDate.value, t.date)
    ensures FilterOk(f, 4, t) <==> ChronologicallyLe(t.date, f.endDate.value)
  {
    IsoTextOrderIsChronological(f.startDate.value, t.date);
    IsoTextOrderIsChronological(t.date, f.endDate.value);
  }

  /** A search term without wildcards selects the rows whose description
      or category contains it, ignoring ASCII case. */
  lemma SearchIsSubstring(f: Filters, t: Transaction)
    requires Given(f.search) && NoWildcards(f.search.value)
    ensures FilterOk(f, 7, t) <==>
      ContainsIgnoringCase(t.description, f.search.value) || ContainsIgnoringCase(t.category, f.search.value)
  {
    LikeContains(t.description, f.search.value);
    LikeContains(t.category, f.search.value);
  }

  /** limit=2, offset=1 over five ordered rows gives the second and third. */
  lemma SecondPage(s: seq<Transaction>)
    requires |s| == 5
    ensures Paged(s, Some(2), Some(1)) == [s[1], s[2]]
  {
  }
}
