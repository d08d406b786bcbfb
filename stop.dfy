/** ExpenseTracker of stop.py: the transactions table held in memory,
    add_transaction, get_all_transactions with its five filters,
    get_transaction_by_id, update_transaction with the UPDATE it builds,
    delete_transaction, get_summary and the import loop of import_data. */
module Stop {
  import opened Wrappers
  import opened Text
  import opened Dates
  import opened Transactions
  import opened Ordering
  import opened Query
  import opened Statistics
  import opened Table

  /** The SELECT get_all_transactions starts from (whitespace condensed). */
  const SelectSql := "SELECT id, type, amount, category, " + "description, date, timestamp " + "FROM transactions"

  lemma SelectMarks()
    ensures '?' !in SelectSql && Occurrences('?', SelectSql) == 0
  {
    var a, b, c := "SELECT id, type, amount, category, ", "description, date, timestamp ", "FROM transactions";
    assert '?' !in a && '?' !in b && '?' !in c;
    assert SelectSql == a + b + c;
  }

  /** The rest of the query builder of get_all_transactions once the
      conditions are made: the SELECT, the conditions joined with AND
      after WHERE, then the fixed order; no LIMIT or OFFSET. */
  method Assemble(conditions: seq<Condition>, params: seq<SqlParam>) returns (q: Statement)
    requires Arities(conditions) == |params|
    ensures q.conditions == conditions && q.params == params
    ensures q.sql == StatementText(SelectSql, conditions, false, false)
    ensures Occurrences('?', q.sql) == |q.params|
    ensures !q.limited && !q.offsetted
  {
    var sql := SelectSql;
    SelectMarks();
    if |conditions| > 0 {
      ClauseMarks(conditions);
      OccurrencesConcat('?', sql, WhereClause(conditions));
      sql := sql + WhereClause(conditions);
    }
    OrderMarks();
    OccurrencesConcat('?', sql, OrderClause);
    sql := sql + OrderClause;
    q := Statement(sql, conditions, false, false, params);
  }

  /** The query builder of get_all_transactions: type, category, month,
      start date and end date; the statement means exactly those filters. */
  method BuildQuery(filters: Filters) returns (q: Statement)
    ensures q.conditions == ActiveConditions(filters, 5)
    ensures Describes(q, SelectSql, t => SatisfiesBasic(filters, t), None, None)
  {
    var conditions, params := BasicConditions(filters);
    ActiveMeaning(filters, 5);
    q := Assemble(conditions, params);
    assert q.params[..Arities(conditions)] == params;
  }

  /** A column an UPDATE sets: one of the five fields, or the timestamp. */
  datatype Column = FieldColumn(field: Field) | TimestampColumn

  /** `UPDATE transactions SET <columns> WHERE id = ?`: the columns in
      order, and the parameters, one per column and then the id. */
  datatype UpdateStatement = UpdateStatement(columns: seq<Column>, params: seq<SqlParam>)

  /** What SQLite does to row `t` for `column = ?` with `p` bound: the
      CHECK constraints refuse a type other than income or expense and an
      amount that is not above zero. */
  function Assign(t: Transaction, column: Column, p: SqlParam): (r: Result<Transaction, Error>)
    ensures r.Ok? ==> r.value.id == t.id
    ensures r.Ok? && column == FieldColumn(TypeField) ==> p.SqlText? && r.value.kind.Name() == p.text
    ensures r.Ok? && column == FieldColumn(AmountField) ==> p.SqlReal? && r.value.amount == p.cents > 0
  {
    match column
    case TimestampColumn => if p.SqlText? then Ok(t.(timestamp := p.text)) else Err(StorageError)
    case FieldColumn(TypeField) =>
      if p.SqlText? && KindNamed(p.text).Some? then Ok(t.(kind := KindNamed(p.text).value)) else Err(StorageError)
    case FieldColumn(AmountField) =>
      if p.SqlReal? && p.cents > 0 then Ok(t.(amount := p.cents)) else Err(StorageError)
    case FieldColumn(CategoryField) => if p.SqlText? then Ok(t.(category := p.text)) else Err(StorageError)
    case FieldColumn(DescriptionField) => if p.SqlText? then Ok(t.(description := p.text)) else Err(StorageError)
    case FieldColumn(DateField) => if p.SqlText? then Ok(t.(date := p.text)) else Err(StorageError)
  }

  /** Every assignment of the SET list, in order. */
  function AssignAll(t: Transaction, columns: seq<Column>, ps: seq<SqlParam>): (r: Result<Transaction, Error>)
    requires |columns| == |ps|
    ensures r.Ok? ==> r.value.id == t.id
  {
    if columns == [] then Ok(t)
    else
      match AssignAll(t, columns[..|columns| - 1], ps[..|ps| - 1])
      case Err(e) => Err(e)
      case Ok(u) => Assign(u, columns[|columns| - 1], ps[|ps| - 1])
  }

  /** What SQLite does with an UPDATE over the table: the changed table and
      the row count. A parameter list that does not fit the columns fails;
      an id that names no row changes nothing and counts 0. */
  function ExecuteUpdate(rows: map<int, Transaction>, s: UpdateStatement): (r: Result<(map<int, Transaction>, nat), Error>)
    ensures r.Ok? ==> |s.params| == |s.columns| + 1 && s.params[|s.columns|].SqlInteger?
    ensures r.Ok? ==> var id := s.params[|s.columns|].n;
      && r.value.0.Keys == rows.Keys
      && (r.value.1 == 1 <==> id in rows) && r.value.1 <= 1
      && (forall k :: k in rows && k != id ==> r.value.0[k] == rows[k])
      && (id in rows ==> r.value.0[id].id == rows[id].id)
  {
    if |s.params| != |s.columns| + 1 || !s.params[|s.columns|].SqlInteger? then Err(StorageError)
    else
      var id := s.params[|s.columns|].n;
      if id !in rows then Ok((rows, 0))
      else
        match AssignAll(rows[id], s.columns, s.params[..|s.columns|])
        case Err(e) => Err(e)
        case Ok(u) => Ok((rows[id := u], 1))
  }

  /** The order in which update_transaction visits the fields. */
  const UpdateOrder := [TypeField, AmountField, CategoryField, DescriptionField, DateField]

  lemma UpdateOrderRanks()
    ensures forall i :: 0 <= i < |UpdateOrder| ==> UpdateOrder[i].Rank() == i
  {
  }

  /** `field in updated_data`: presence, whatever the value. */
  predicate Carries(c: Changes, f: Field) {
    match f
    case TypeField => c.kind.Some?
    case AmountField => c.amount.Some?
    case CategoryField => c.category.Some?
    case DescriptionField => c.description.Some?
    case DateField => c.date.Some?
  }

  /** float() reads the amount, when there is one. */
  predicate AmountReadable(c: Changes) {
    c.amount.Some? ==> c.amount.value.ToCents().Some?
  }

  /** The parameter bound for a carried field: the value as given, the
      amount as the REAL the column stores. */
  function Bound(c: Changes, f: Field): (p: SqlParam)
    requires Carries(c, f) && AmountReadable(c)
  {
    match f
    case TypeField => SqlText(c.kind.value)
    case AmountField => SqlReal(c.amount.value.ToCents().value)
    case CategoryField => SqlText(c.category.value)
    case DescriptionField => SqlText(c.description.value)
    case DateField => SqlText(c.date.value)
  }

  /** The columns the loop of update_transaction sets for the first `k`
      fields, in order. */
  function SetColumns(c: Changes, k: nat): seq<Column>
    requires k <= |UpdateOrder|
  {
    if k == 0 then []
    else SetColumns(c, k - 1) + (if Carries(c, UpdateOrder[k - 1]) then [FieldColumn(UpdateOrder[k - 1])] else [])
  }

  /** Their parameters, in the same order. */
  function SetParams(c: Changes, k: nat): (ps: seq<SqlParam>)
    requires k <= |UpdateOrder| && AmountReadable(c)
    ensures |ps| == |SetColumns(c, k)|
  {
    if k == 0 then []
    else SetParams(c, k - 1) + (if Carries(c, UpdateOrder[k - 1]) then [Bound(c, UpdateOrder[k - 1])] else [])
  }

  /** A field is set exactly when the payload carries it, and no column
      is set twice; with none of the five keys, nothing is set. */
  lemma {:induction false} ColumnsPerField(c: Changes, k: nat)
    requires k <= |UpdateOrder|
    ensures forall f: Field :: FieldColumn(f) in SetColumns(c, k) <==> f.Rank() < k && Carries(c, f)
    ensures TimestampColumn !in SetColumns(c, k)
    ensures |SetColumns(c, k)| <= k
    ensures k == |UpdateOrder| ==> (SetColumns(c, k) == [] <==> NoKnownKey(c))
  {
    if k > 0 {
      ColumnsPerField(c, k - 1);
      UpdateOrderRanks();
    }
    if k == |UpdateOrder| && SetColumns(c, k) == [] {
      assert !Carries(c, TypeField) && !Carries(c, AmountField) && !Carries(c, CategoryField);
      assert !Carries(c, DescriptionField) && !Carries(c, DateField);
    } else if k == |UpdateOrder| {
      var column := SetColumns(c, k)[0];
      assert column in SetColumns(c, k);
      assert Carries(c, column.field);
    }
  }

  /** The patch cut down to its first `k` fields. */
  function Truncated(p: Patch, k: nat): (q: Patch)
    ensures k >= 5 ==> q == p
    ensures k == 0 ==> q == Patch(None, None, None, None, None)
  {
    Patch(
      if k > 0 then p.kind else None,
      if k > 1 then p.amount else None,
      if k > 2 then p.category else None,
      if k > 3 then p.description else None,
      if k > 4 then p.date else None)
  }

  /** The assignments of the first `k` fields apply the first `k` fields
      of the checked patch, and nothing else. */
  lemma {:induction false} AssignFields(t: Transaction, c: Changes, k: nat)
    requires k <= |UpdateOrder| && CheckValues(c).Ok?
    ensures AssignAll(t, SetColumns(c, k), SetParams(c, k)) == Ok(Patched(t, Truncated(CheckValues(c).value, k), t.timestamp))
  {
    var p := CheckValues(c).value;
    if k == 0 {
      assert Patched(t, Truncated(p, 0), t.timestamp) == t;
    } else {
      AssignFields(t, c, k - 1);
      var cols, ps := SetColumns(c, k - 1), SetParams(c, k - 1);
      var before := Patched(t, Truncated(p, k - 1), t.timestamp);
      var f := UpdateOrder[k - 1];
      if Carries(c, f) {
        assert SetColumns(c, k) == cols + [FieldColumn(f)];
        assert SetParams(c, k) == ps + [Bound(c, f)];
        assert SetColumns(c, k)[..|cols|] == cols;
        assert SetParams(c, k)[..|ps|] == ps;
        if f == TypeField {
          assert KindNamed(c.kind.value) == p.kind;
        }
        assert Assign(before, FieldColumn(f), Bound(c, f)) == Ok(Patched(t, Truncated(p, k), t.timestamp));
      } else {
        assert SetColumns(c, k) == cols;
        assert SetParams(c, k) == ps;
        assert Truncated(p, k) == Truncated(p, k - 1);
      }
    }
  }

  /** The statement update_transaction builds for accepted changes. */
  function UpdateOf(c: Changes, id: int, now: string): UpdateStatement
    requires AmountReadable(c)
  {
    UpdateStatement(SetColumns(c, |UpdateOrder|) + [TimestampColumn], SetParams(c, |UpdateOrder|) + [SqlText(now), SqlInteger(id)])
  }

  /** Run on a table holding the id, that statement changes exactly the
      row with the id, to the patched row with the new timestamp, and
      counts one row. */
  lemma UpdateApplies(rows: map<int, Transaction>, id: int, c: Changes, now: string)
    requires id in rows && CheckValues(c).Ok?
    ensures ExecuteUpdate(rows, UpdateOf(c, id, now)) == Ok((rows[id := Patched(rows[id], CheckValues(c).value, now)], 1))
  {
    var s := UpdateOf(c, id, now);
    var t, p := rows[id], CheckValues(c).value;
    var cols, ps := SetColumns(c, |UpdateOrder|), SetParams(c, |UpdateOrder|);
    var n := |cols|;
    AssignFields(t, c, |UpdateOrder|);
    var bound := ps + [SqlText(now)];
    assert s.params[..n + 1] == bound;
    assert s.columns[..n] == cols && bound[..n] == ps;
    assert AssignAll(t, s.columns, bound) == Assign(Patched(t, p, t.timestamp), TimestampColumn, SqlText(now));
  }

  /** The payload of one import item: a JSON object, or any other value. */
  datatype Item = Object(data: Submission) | OtherValue

  /** What json.loads made of the input: a list of items, or anything else. */
  datatype Json = JsonList(items: seq<Item>) | OtherJson

  /** "Transaction {i+1}: {e}". */
  datatype ImportError = ImportError(position: nat, error: Error)

  /** The dictionary import_data returns. */
  datatype ImportReport = ImportReport(importedCount: nat, errors: seq<ImportError>, success: bool)

  /** The object with its "id" key deleted. */
  function WithoutId(data: Submission): (d: Submission)
    ensures "id" !in d.otherKeys
  {
    data.(otherKeys := data.otherKeys - {"id"})
  }

  /** What add_transaction makes of an item: any value other than an
      object fails when it is looked into. */
  function Outcome(item: Item): Result<Draft, Error> {
    match item
    case Object(data) => CheckSubmission(WithoutId(data))
    case OtherValue => Err(NotAnObject)
  }

  /** Deleting the id key changes nothing the checks look at. */
  lemma IdKeyIgnored(data: Submission)
    ensures Outcome(Object(data)) == CheckSubmission(data)
  {
    var d := WithoutId(data);
    assert d.kind == data.kind && d.amount == data.amount && d.category == data.category;
    assert d.description == data.description && d.date == data.date;
    forall f: Field ensures Present(d, f) == Present(data, f) {}
    assert Acceptable(d) == Acceptable(data);
  }

  /** What add_transaction makes of each item, in order. */
  function Outcomes(items: seq<Item>): (os: seq<Result<Draft, Error>>)
    ensures |os| == |items| && forall i :: 0 <= i < |items| ==> os[i] == Outcome(items[i])
  {
    seq(|items|, i requires 0 <= i < |items| => Outcome(items[i]))
  }

  /** Every draft add_transaction accepts makes a row the table takes. */
  lemma OutcomesStorable(items: seq<Item>)
    ensures forall o :: o in Outcomes(items) && o.Ok? ==> o.value.amount > 0 && IsIsoDate(o.value.date)
  {
    forall o | o in Outcomes(items) && o.Ok? ensures o.value.amount > 0 && IsIsoDate(o.value.date) {
      var i :| 0 <= i < |items| && Outcomes(items)[i] == o;
      assert items[i].Object?;
    }
  }

  /** The state the import loop carries: the table, the counter and the
      error list. */
  datatype ImportState = ImportState(rows: map<int, Transaction>, nextId: int, imported: nat, errors: seq<ImportError>)

  /** The import loop from state `s`, given what add_transaction makes of
      each item: each accepted draft inserted with the clock reading
      `now`, each rejection logged with its 1-based position. */
  function ImportAll(s: ImportState, os: seq<Result<Draft, Error>>, now: string): (r: ImportState)
    ensures r.imported + |r.errors| == s.imported + |s.errors| + |os|
    ensures r.imported >= s.imported && r.nextId == s.nextId + (r.imported - s.imported)
    ensures |r.errors| >= |s.errors| && r.errors[..|s.errors|] == s.errors
  {
    if os == [] then s
    else
      var before := ImportAll(s, os[..|os| - 1], now);
      var r := ImportStep(before, |os|, os[|os| - 1], now);
      assert r.errors[..|s.errors|] == before.errors[..|s.errors|];
      r
  }

  /** One turn of the import loop, on the item at 1-based `position`: an
      accepted draft is inserted under the next id and counted, a
      rejection is logged. */
  function ImportStep(s: ImportState, position: nat, o: Result<Draft, Error>, now: string): (r: ImportState)
    ensures r.imported + |r.errors| == s.imported + |s.errors| + 1
    ensures |r.errors| >= |s.errors| && r.errors[..|s.errors|] == s.errors
  {
    match o
    case Err(e) => s.(errors := s.errors + [ImportError(position, e)])
    case Ok(d) => ImportState(s.rows[s.nextId := Row(d, s.nextId, now)], s.nextId + 1, s.imported + 1, s.errors)
  }

  /** Running the loop one item further is one more turn on that item. */
  lemma ImportAllPrefix(s: ImportState, os: seq<Result<Draft, Error>>, i: nat, now: string)
    requires i < |os|
    ensures ImportAll(s, os[..i + 1], now) == ImportStep(ImportAll(s, os[..i], now), i + 1, os[i], now)
  {
    assert os[..i + 1][..i] == os[..i];
  }

  /** Every logged error carries the 1-based position of an item that was
      rejected and the reason it was rejected. */
  lemma {:induction false} ErrorsNameRejected(s: ImportState, os: seq<Result<Draft, Error>>, now: string)
    requires s.errors == []
    ensures var r := ImportAll(s, os, now);
      forall e :: e in r.errors ==> 1 <= e.position <= |os| && os[e.position - 1] == Err(e.error)
  {
    if os != [] {
      var init := os[..|os| - 1];
      ErrorsNameRejected(s, init, now);
      var before := ImportAll(s, init, now);
      forall e | e in before.errors
        ensures 1 <= e.position <= |init| && os[e.position - 1] == Err(e.error)
      {
        assert os[e.position - 1] == init[e.position - 1];
      }
      if os[|os| - 1].Err? {
        assert ImportAll(s, os, now).errors == before.errors + [ImportError(|os|, os[|os| - 1].error)];
      }
    }
  }

  /** The logged errors are in the order of the items: their positions
      ascend. */
  lemma {:induction false} ErrorPositionsAscend(s: ImportState, os: seq<Result<Draft, Error>>, now: string)
    requires s.errors == []
    ensures var r := ImportAll(s, os, now);
      forall i, j :: 0 <= i < j < |r.errors| ==> r.errors[i].position < r.errors[j].position
  {
    if os != [] {
      var init := os[..|os| - 1];
      ErrorPositionsAscend(s, init, now);
      ErrorsNameRejected(s, init, now);
      var before := ImportAll(s, init, now);
      var r := ImportAll(s, os, now);
      if os[|os| - 1].Err? {
        assert r.errors == before.errors + [ImportError(|os|, os[|os| - 1].error)];
        forall i, j | 0 <= i < j < |r.errors| ensures r.errors[i].position < r.errors[j].position {
          assert r.errors[i] in before.errors;
        }
      } else {
        assert r.errors == before.errors;
      }
    }
  }

  /** Every rejected item is logged, with its position and its reason. */
  lemma {:induction false} RejectedAreLogged(s: ImportState, os: seq<Result<Draft, Error>>, now: string)
    ensures var r := ImportAll(s, os, now);
      forall i :: 0 <= i < |os| && os[i].Err? ==> ImportError(i + 1, os[i].error) in r.errors
  {
    if os != [] {
      var init := os[..|os| - 1];
      RejectedAreLogged(s, init, now);
      var before := ImportAll(s, init, now);
      var r := ImportAll(s, os, now);
      assert forall e :: e in before.errors ==> e in r.errors by {
        if os[|os| - 1].Err? {
          assert r.errors == before.errors + [ImportError(|os|, os[|os| - 1].error)];
        }
      }
      forall i | 0 <= i < |os| && os[i].Err?
        ensures ImportError(i + 1, os[i].error) in r.errors
      {
        if i < |init| {
          assert os[i] == init[i];
        }
      }
    }
  }

  /** The import succeeds, with no error logged, exactly when every item
      is accepted; then every item is imported. */
  lemma ImportSucceeds(s: ImportState, os: seq<Result<Draft, Error>>, now: string)
    requires s.errors == []
    ensures var r := ImportAll(s, os, now);
      (r.errors == [] <==> forall i :: 0 <= i < |os| ==> os[i].Ok?)
      && (r.errors == [] ==> r.imported == s.imported + |os|)
  {
    var r := ImportAll(s, os, now);
    ErrorsNameRejected(s, os, now);
    RejectedAreLogged(s, os, now);
    if r.errors != [] {
      var e := r.errors[0];
      assert e in r.errors;
    }
  }

  /** The import keeps the table well formed and every row it had; each
      new row sits under an id the import handed out. */
  lemma {:induction false} ImportKeepsTable(s: ImportState, os: seq<Result<Draft, Error>>, now: string)
    requires WellFormed(s.rows, s.nextId)
    requires forall o :: o in os && o.Ok? ==> o.value.amount > 0 && IsIsoDate(o.value.date)
    ensures var r := ImportAll(s, os, now);
      && WellFormed(r.rows, r.nextId)
      && (forall id :: id in s.rows ==> id in r.rows && r.rows[id] == s.rows[id])
      && (forall id :: id in r.rows && id !in s.rows ==> s.nextId <= id < r.nextId)
  {
    if os != [] {
      var init := os[..|os| - 1];
      assert forall o :: o in init ==> o in os;
      ImportKeepsTable(s, init, now);
      var before := ImportAll(s, init, now);
      var last := os[|os| - 1];
      if last.Ok? {
        assert last in os;
        InsertKeepsWellFormed(before.rows, before.nextId, Row(last.value, before.nextId, now));
      }
    }
  }

  class ExpenseTracker {
    /** The transactions table, by id. */
    var rows: map<int, Transaction>
    /** The id the next INSERT receives (AUTOINCREMENT never reuses one). */
    var nextId: int

    predicate Valid()
      reads this
    {
      WellFormed(rows, nextId)
    }

    /** A tracker over a new, empty table. */
    constructor ()
      ensures Valid() && rows == map[] && nextId == 1
    {
      rows := map[];
      nextId := 1;
    }

    /** add_transaction: the checks of CheckSubmission, then an INSERT of
        the checked row with a fresh id and the clock reading `now`; the
        new id is returned. A rejected submission writes nothing. */
    method AddTransaction(data: Submission, now: string) returns (r: Result<int, Error>)
      requires Valid()
      modifies this
      ensures Valid()
      ensures r.Ok? <==> Acceptable(data)
      ensures r.Err? ==> r.error == CheckSubmission(data).error && rows == old(rows) && nextId == old(nextId)
      ensures r.Ok? ==>
        && r.value == old(nextId) && r.value !in old(rows)
        && rows == old(rows)[r.value := Row(CheckSubmission(data).value, r.value, now)]
        && nextId == old(nextId) + 1
    {
      var checked := CheckSubmission(data);
      if checked.Err? {
        return Err(checked.error);
      }
      AcceptedRowIsStored(data, nextId, now);
      var id := Insert(checked.value, now);
      r := Ok(id);
    }

    /** The INSERT of a checked draft: the row takes the next id, and
        AUTOINCREMENT moves past it. */
    method Insert(d: Draft, now: string) returns (id: int)
      requires Valid() && Stored(Row(d, nextId, now))
      modifies this
      ensures Valid()
      ensures id == old(nextId) && id !in old(rows)
      ensures rows == old(rows)[id := Row(d, id, now)] && nextId == old(nextId) + 1
    {
      id := nextId;
      InsertKeepsWellFormed(rows, id, Row(d, id, now));
      rows := rows[id := Row(d, id, now)];
      nextId := nextId + 1;
    }

    /** get_all_transactions: the built statement run over the table; the
        rows that pass the five filters, latest first. */
    method GetAllTransactions(filters: Filters) returns (r: seq<Transaction>)
      requires Valid()
      ensures r == BasicListing(Scan(rows, nextId), filters)
    {
      var q := BuildQuery(filters);
      var table := Scan(rows, nextId);
      ExecuteDescribed(table, q, SelectSql, t => SatisfiesBasic(filters, t), None, None);
      KeepSame(table, t => SatisfiesBasic(filters, t), t => SatisfiesBasic(filters, t));
      var result := Execute(table, q);
      r := result.value;
    }

    /** get_transaction_by_id: the row under the id, or None. */
    method GetTransactionById(id: int) returns (r: Option<Transaction>)
      requires Valid()
      ensures r.Some? <==> id in rows
      ensures r.Some? ==> r.value == rows[id] && r.value.id == id
    {
      if id in rows {
        r := Some(rows[id]);
      } else {
        r := None;
      }
    }

    /** update_transaction: "not found" for an unknown id, then the value
        checks of the keys present, then the SET list built in field order
        with the new timestamp, run as an UPDATE of that one row. */
    method UpdateTransaction(id: int, changes: Changes, now: string) returns (r: Result<bool, Error>)
      requires Valid()
      modifies this
      ensures Valid() && nextId == old(nextId)
      ensures id !in old(rows) ==> r == Err(NotFound)
      ensures id in old(rows) ==> (r.Ok? <==> CheckChanges(changes).Ok?)
      ensures id in old(rows) && r.Err? ==> r.error == CheckChanges(changes).error
      ensures r.Ok? ==> r.value && rows == old(rows)[id := Patched(old(rows)[id], CheckChanges(changes).value, now)]
      ensures r.Err? ==> rows == old(rows)
    {
      var found := GetTransactionById(id);
      if found.None? {
        return Err(NotFound);
      }
      var checked := CheckValues(changes);
      if checked.Err? {
        return Err(checked.error);
      }
      var columns: seq<Column> := [];
      var params: seq<SqlParam> := [];
      for i := 0 to |UpdateOrder|
        invariant columns == SetColumns(changes, i) && params == SetParams(changes, i)
      {
        var field := UpdateOrder[i];
        if Carries(changes, field) {
          columns := columns + [FieldColumn(field)];
          params := params + [Bound(changes, field)];
        }
      }
      ColumnsPerField(changes, |UpdateOrder|);
      if |columns| == 0 {
        return Err(NoFieldsToUpdate);
      }
      columns := columns + [TimestampColumn];
      params := params + [SqlText(now), SqlInteger(id)];
      UpdateApplies(rows, id, changes, now);
      PatchKeepsStored(rows[id], changes, now);
      ReplaceKeepsWellFormed(rows, nextId, Patched(rows[id], checked.value, now));
      var outcome := ExecuteUpdate(rows, UpdateStatement(columns, params));
      rows := outcome.value.0;
      r := Ok(true);
    }

    /** delete_transaction: DELETE by id; no row deleted raises "not
        found". Only that row goes. */
    method DeleteTransaction(id: int) returns (r: Result<bool, Error>)
      requires Valid()
      modifies this
      ensures Valid()
      ensures r.Ok? <==> id in old(rows)
      ensures r.Ok? ==> r.value && rows == old(rows) - {id}
      ensures r.Err? ==> r.error == NotFound && rows == old(rows)
      ensures nextId == old(nextId)
    {
      DeleteKeepsWellFormed(rows, nextId, id);
      var rowcount := if id in rows then 1 else 0;
      rows := rows - {id};
      if rowcount == 0 {
        return Err(NotFound);
      }
      r := Ok(true);
    }

    /** get_summary: the sums of the listing by type, their difference and
        the count. */
    method GetSummary(filters: Filters) returns (s: Summary)
      requires Valid()
      ensures s == SummaryOf(BasicListing(Scan(rows, nextId), filters))
    {
      var listed := GetAllTransactions(filters);
      s := SummaryOf(listed);
    }

    /** import_data over the parsed JSON: anything but a list raises;
        otherwise each item, its "id" key deleted, goes to add_transaction,
        and the report counts the rows imported and logs each failure with
        its position. */
    method ImportData(json: Json, now: string) returns (r: Result<ImportReport, Error>)
      requires Valid()
      modifies this
      ensures Valid()
      ensures json.OtherJson? ==> r == Err(NotAList) && rows == old(rows) && nextId == old(nextId)
      ensures json.JsonList? ==>
        var s := ImportAll(ImportState(old(rows), old(nextId), 0, []), Outcomes(json.items), now);
        && r == Ok(ImportReport(s.imported, s.errors, s.errors == []))
        && rows == s.rows && nextId == s.nextId
    {
      if json.OtherJson? {
        return Err(NotAList);
      }
      var imported, errors := ImportItems(json.items, now);
      r := Ok(ImportReport(imported, errors, |errors| == 0));
    }

    /** The import loop over a list of items: each item in turn, from the
        state the earlier items left. */
    method ImportItems(items: seq<Item>, now: string) returns (imported: nat, errors: seq<ImportError>)
      requires Valid()
      modifies this
      ensures Valid()
      ensures ImportState(rows, nextId, imported, errors)
        == ImportAll(ImportState(old(rows), old(nextId), 0, []), Outcomes(items), now)
    {
      ghost var start := ImportState(rows, nextId, 0, []);
      ghost var outs := Outcomes(items);
      imported, errors := 0, [];
      for i := 0 to |items|
        invariant Valid()
        invariant ImportState(rows, nextId, imported, errors) == ImportAll(start, outs[..i], now)
      {
        ImportAllPrefix(start, outs, i, now);
        imported, errors := ImportItem(items[i], i + 1, now, imported, errors);
      }
      assert outs[..|items|] == outs;
    }

    /** One turn of the import loop: the item at 1-based `position` goes to
        add_transaction if it is an object; an accepted item is counted, a
        rejected one logged. */
    method ImportItem(item: Item, position: nat, now: string, imported: nat, errors: seq<ImportError>)
      returns (imported': nat, errors': seq<ImportError>)
      requires Valid()
      modifies this
      ensures Valid()
      ensures ImportState(rows, nextId, imported', errors')
        == ImportStep(ImportState(old(rows), old(nextId), imported, errors), position, Outcome(item), now)
    {
      imported', errors' := imported, errors;
      match item
      case OtherValue =>
        errors' := errors + [ImportError(position, NotAnObject)];
      case Object(data) =>
        var added := AddTransaction(WithoutId(data), now);
        if added.Ok? {
          imported' := imported + 1;
        } else {
          errors' := errors + [ImportError(position, added.error)];
        }
    }
  }

  /** A listed row is the row get_transaction_by_id finds under its id. */
  lemma ListedRowsFoundById(rows: map<int, Transaction>, nextId: int, f: Filters)
    requires WellFormed(rows, nextId)
    ensures forall t :: t in BasicListing(Scan(rows, nextId), f) ==> t.id in rows && rows[t.id] == t
  {
    var table := Scan(rows, nextId);
    forall t | t in BasicListing(table, f) ensures t.id in rows && rows[t.id] == t {
      SameMembers(SortByRecency(Keep(table, u => SatisfiesBasic(f, u))), Keep(table, u => SatisfiesBasic(f, u)));
    }
  }
}
