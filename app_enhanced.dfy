/** EnhancedExpenseTracker of app_enhanced.py: the transactions table held
    in memory, add_transaction, get_all_transactions with its eight filters
    and pagination, get_statistics and delete_transaction. */
module AppEnhanced {
  import opened Wrappers
  import opened Text
  import opened Transactions
  import opened Ordering
  import opened Query
  import opened Statistics
  import opened Table

  /** The SELECT get_all_transactions starts from (whitespace condensed). */
  const SelectSql := "SELECT id, type, amount, category, " + "description, date, timestamp, "
    + "created_at, updated_at FROM transactions"

  lemma SelectMarks()
    ensures '?' !in SelectSql && Occurrences('?', SelectSql) == 0
  {
    var a, b, c := "SELECT id, type, amount, category, ", "description, date, timestamp, ",
      "created_at, updated_at FROM transactions";
    assert '?' !in a && '?' !in b && '?' !in c;
    assert SelectSql == a + b + c;
  }

  /** The filter part of the query builder of get_all_transactions: the
      five filters stop.py shares, then the amount bounds and the search,
      each given filter appending its condition and its parameters, the
      search two of them. float() of an amount bound that is not a number
      raises. */
  method BuildConditions(filters: Filters) returns (r: Result<(seq<Condition>, seq<SqlParam>), Error>)
    ensures r.Ok? <==> AmountsReadable(filters)
    ensures r.Err? ==> r.error == NotANumber
    ensures r.Ok? ==> ReadableUpTo(filters, 8)
    ensures r.Ok? ==> r.value.0 == ActiveConditions(filters, 8) && r.value.1 == ActiveParams(filters, 8)
  {
    var conditions, params := BasicConditions(filters);
    ghost var k := 5;
    if GivenAmount(filters.minAmount) {
      var amount := filters.minAmount.value.ToCents();
      if amount.None? {
        return Err(NotANumber);
      }
      conditions := conditions + [AmountFrom];
      params := params + [SqlReal(amount.value)];
    }
    k := k + 1;
    assert conditions == ActiveConditions(filters, k) && params == ActiveParams(filters, k);
    if GivenAmount(filters.maxAmount) {
      var amount := filters.maxAmount.value.ToCents();
      if amount.None? {
        return Err(NotANumber);
      }
      conditions := conditions + [AmountTo];
      params := params + [SqlReal(amount.value)];
    }
    k := k + 1;
    assert conditions == ActiveConditions(filters, k) && params == ActiveParams(filters, k);
    if Given(filters.search) {
      var term := Pattern(filters.search.value);
      conditions := conditions + [SearchMatches];
      params := params + [SqlText(term), SqlText(term)];
    }
    k := k + 1;
    assert conditions == ActiveConditions(filters, k) && params == ActiveParams(filters, k);
    r := Ok((conditions, params));
  }

  /** The statement text before paging: the SELECT, the conditions joined
      with AND after WHERE, then the fixed order; it holds one `?` per
      parameter the conditions bind. */
  method OrderedSelect(conditions: seq<Condition>) returns (sql: string)
    ensures sql == SelectSql + WhereClause(conditions) + OrderClause
    ensures Occurrences('?', sql) == Arities(conditions)
  {
    sql := SelectSql;
    SelectMarks();
    if |conditions| > 0 {
      ClauseMarks(conditions);
      OccurrencesConcat('?', sql, WhereClause(conditions));
      sql := sql + WhereClause(conditions);
    }
    OrderMarks();
    OccurrencesConcat('?', sql, OrderClause);
    sql := sql + OrderClause;
  }

  /** The paging of get_all_transactions: `LIMIT ?` with the limit for a
      truthy limit, then `OFFSET ?` with the offset for a truthy offset;
      without a limit the offset is ignored. */
  method Page(sql: string, params: seq<SqlParam>, limit: Option<int>, offset: Option<int>)
    returns (paged: string, all: seq<SqlParam>, limited: bool, offsetted: bool)
    ensures limited == Truthy(limit) && offsetted == (Truthy(limit) && Truthy(offset))
    ensures paged == sql + (if limited then LimitClause else "") + (if offsetted then OffsetClause else "")
    ensures all == params
      + (if limited then [SqlInteger(limit.value)] else [])
      + (if offsetted then [SqlInteger(offset.value)] else [])
  {
    paged, all := sql, params;
    limited, offsetted := false, false;
    if Truthy(limit) {
      paged := paged + LimitClause;
      all := all + [SqlInteger(limit.value)];
      limited := true;
      if Truthy(offset) {
        paged := paged + OffsetClause;
        all := all + [SqlInteger(offset.value)];
        offsetted := true;
      }
    }
  }

  /** The rest of the query builder of get_all_transactions, once the
      conditions and their parameters are made: the ordered SELECT, then
      LIMIT ? (and OFFSET ?) for a truthy limit (and offset), each with its
      parameter. */
  method Assemble(conditions: seq<Condition>, params: seq<SqlParam>, limit: Option<int>, offset: Option<int>)
    returns (q: Statement)
    requires Arities(conditions) == |params|
    ensures q.conditions == conditions
    ensures q.sql == StatementText(SelectSql, conditions, q.limited, q.offsetted)
    ensures Occurrences('?', q.sql) == |q.params|
    ensures q.limited == Truthy(limit) && q.offsetted == (Truthy(limit) && Truthy(offset))
    ensures q.params == params
      + (if q.limited then [SqlInteger(limit.value)] else [])
      + (if q.offsetted then [SqlInteger(offset.value)] else [])
    ensures q.params[..Arities(conditions)] == params
  {
    var sql := OrderedSelect(conditions);
    var paged, all, limited, offsetted := Page(sql, params, limit, offset);
    q := Statement(paged, conditions, limited, offsetted, all);
    SelectMarks();
    StatementMarks(SelectSql, conditions, limited, offsetted);
    assert all[..|params|] == params;
  }

  /** The query builder of get_all_transactions: the statement it hands to
      SQLite means the eight filters, paged by limit and offset; an amount
      bound float() cannot read raises. */
  method BuildQuery(filters: Filters, limit: Option<int>, offset: Option<int>) returns (r: Result<Statement, Error>)
    ensures r.Ok? <==> AmountsReadable(filters)
    ensures r.Err? ==> r.error == NotANumber
    ensures r.Ok? ==> r.value.conditions == ActiveConditions(filters, 8)
    ensures r.Ok? ==> Describes(r.value, SelectSql, t => Satisfies(filters, t), limit, offset)
  {
    var built := BuildConditions(filters);
    if built.Err? {
      return Err(built.error);
    }
    var (conditions, params) := built.value;
    ActiveMeaning(filters, 8);
    var q := Assemble(conditions, params, limit, offset);
    r := Ok(q);
  }

  class EnhancedExpenseTracker {
    /** The transactions table, by id. */
    var rows: map<int, Transaction>
    /** The id the next INSERT receives (AUTOINCREMENT never reuses one). */
    var nextId: int

    predicate Valid()
      reads this
    {
      WellFormed(rows, nextId)
    }

    /** A tracker over a new, empty table. */
    constructor ()
      ensures Valid() && rows == map[] && nextId == 1
    {
      rows := map[];
      nextId := 1;
    }

    /** add_transaction: the checks of CheckSubmission, then an INSERT of
        the checked row with a fresh id and the clock reading `now`; the
        new id is returned. A rejected submission writes nothing. */
    method AddTransaction(data: Submission, now: string) returns (r: Result<int, Error>)
      requires Valid()
      modifies this
      ensures Valid()
      ensures r.Ok? <==> Acceptable(data)
      ensures r.Err? ==> r.error == CheckSubmission(data).error && rows == old(rows) && nextId == old(nextId)
      ensures r.Ok? ==>
        && r.value == old(nextId) && r.value !in old(rows)
        && rows == old(rows)[r.value := Row(CheckSubmission(data).value, r.value, now)]
        && nextId == old(nextId) + 1
    {
      var checked := CheckSubmission(data);
      if checked.Err? {
        return Err(checked.error);
      }
      AcceptedRowIsStored(data, nextId, now);
      var id := Insert(checked.value, now);
      r := Ok(id);
    }

    /** The INSERT of a checked draft: the row takes the next id, and
        AUTOINCREMENT moves past it. */
    method Insert(d: Draft, now: string) returns (id: int)
      requires Valid() && Stored(Row(d, nextId, now))
      modifies this
      ensures Valid()
      ensures id == old(nextId) && id !in old(rows)
      ensures rows == old(rows)[id := Row(d, id, now)] && nextId == old(nextId) + 1
    {
      id := nextId;
      InsertKeepsWellFormed(rows, id, Row(d, id, now));
      rows := rows[id := Row(d, id, now)];
      nextId := nextId + 1;
    }

    /** get_all_transactions: the built statement run over the table. The
        result is the listing of the rows that pass every filter, latest
        first, paged; an amount bound float() cannot read raises. */
    method GetAllTransactions(filters: Filters, limit: Option<int>, offset: Option<int>) returns (r: Result<seq<Transaction>, Error>)
      requires Valid()
      ensures r.Ok? <==> AmountsReadable(filters)
      ensures r.Err? ==> r.error == NotANumber
      ensures r.Ok? ==> r.value == Listing(Scan(rows, nextId), filters, limit, offset)
    {
      var built := BuildQuery(filters, limit, offset);
      if built.Err? {
        return Err(built.error);
      }
      var table := Scan(rows, nextId);
      ExecuteDescribed(table, built.value, SelectSql, t => Satisfies(filters, t), limit, offset);
      KeepSame(table, t => Satisfies(filters, t), t => Satisfies(filters, t));
      r := Execute(table, built.value);
    }

    /** get_statistics: the aggregates of the unpaged listing. */
    method GetStatistics(filters: Filters) returns (r: Result<Statistics, Error>)
      requires Valid()
      ensures r.Ok? <==> AmountsReadable(filters)
      ensures r.Err? ==> r.error == NotANumber
      ensures r.Ok? ==> r.value == StatisticsOf(Listing(Scan(rows, nextId), filters, None, None))
    {
      var listed := GetAllTransactions(filters, None, None);
      if listed.Err? {
        return Err(listed.error);
      }
      var s := ComputeStatistics(listed.value);
      r := Ok(s);
    }

    /** delete_transaction: DELETE by id; no row deleted raises "not
        found". Only that row goes. */
    method DeleteTransaction(id: int) returns (r: Result<bool, Error>)
      requires Valid()
      modifies this
      ensures Valid()
      ensures r.Ok? <==> id in old(rows)
      ensures r.Ok? ==> r.value && rows == old(rows) - {id}
      ensures r.Err? ==> r.error == NotFound && rows == old(rows)
      ensures nextId == old(nextId)
    {
      DeleteKeepsWellFormed(rows, nextId, id);
      var rowcount := if id in rows then 1 else 0;
      rows := rows - {id};
      if rowcount == 0 {
        return Err(NotFound);
      }
      r := Ok(true);
    }
  }

  /** A row just added is listed by every filter it passes, unless a
      limit cuts the page short. */
  lemma AddedRowIsListed(rows: map<int, Transaction>, nextId: int, t: Transaction, f: Filters, limit: Option<int>, offset: Option<int>)
    requires WellFormed(rows, nextId) && t.id == nextId && Stored(t)
    requires Satisfies(f, t) && !Truthy(limit)
    ensures t in Listing(Scan(rows[nextId := t], nextId + 1), f, limit, offset)
  {
    var after := rows[nextId := t];
    InsertKeepsWellFormed(rows, nextId, t);
    ScanIsTable(after, nextId + 1);
    assert t in after.Values by { assert after[nextId] == t; }
    ListingComplete(Scan(after, nextId + 1), f, limit, offset);
  }

  /** After a delete the row is never listed, whatever the filters and
      paging. */
  lemma DeletedRowIsGone(rows: map<int, Transaction>, nextId: int, id: int, f: Filters, limit: Option<int>, offset: Option<int>)
    requires WellFormed(rows, nextId)
    ensures forall t :: t in Listing(Scan(rows - {id}, nextId), f, limit, offset) ==> t.id != id
  {
    var after := rows - {id};
    ListingSound(Scan(after, nextId), f, limit, offset);
  }

  /** After a delete every other row is still listed when nothing filters
      it out. */
  lemma OthersStayListed(rows: map<int, Transaction>, nextId: int, id: int)
    requires WellFormed(rows, nextId)
    ensures forall k :: k in rows && k != id ==> rows[k] in Listing(Scan(rows - {id}, nextId), NoFilters, None, None)
  {
    var after := rows - {id};
    DeleteKeepsWellFormed(rows, nextId, id);
    ScanIsTable(after, nextId);
    ListingComplete(Scan(after, nextId), NoFilters, None, None);
    forall k | k in rows && k != id ensures rows[k] in Listing(Scan(after, nextId), NoFilters, None, None) {
      assert after[k] == rows[k];
      assert rows[k] in after.Values;
      NothingFilters(8, rows[k]);
    }
  }
}
