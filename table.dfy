/** The `transactions` table as both trackers use it: rows by id, and the
    next id that `INTEGER PRIMARY KEY AUTOINCREMENT` hands out. */
module Table {
  import opened Transactions

  /** Every row sits under its own id, below the next id to hand out, and
      meets the table's constraints. */
  predicate WellFormed(rows: map<int, Transaction>, nextId: int) {
    && nextId >= 1
    && forall id :: id in rows ==> 1 <= id < nextId && rows[id].id == id && Stored(rows[id])
  }

  predicate KeyedById(rows: map<int, Transaction>) {
    forall id :: id in rows ==> rows[id].id == id
  }

  /** A full scan of the rows with ids below `n`, in ascending id order:
      what SQLite reads before it filters and sorts. */
  function Scan(rows: map<int, Transaction>, n: int): (r: seq<Transaction>)
    requires KeyedById(rows)
    ensures forall i :: 0 <= i < |r| ==> r[i].id in rows && rows[r[i].id] == r[i] && r[i].id < n
    ensures forall id :: id in rows && 1 <= id < n ==> rows[id] in r
    ensures forall i, j :: 0 <= i < j < |r| ==> r[i].id < r[j].id
    decreases n
  {
    if n <= 1 then []
    else Scan(rows, n - 1) + (if n - 1 in rows then [rows[n - 1]] else [])
  }

  /** The scan of a well-formed table holds exactly its rows. */
  lemma ScanIsTable(rows: map<int, Transaction>, nextId: int)
    requires WellFormed(rows, nextId)
    ensures forall t :: t in Scan(rows, nextId) <==> t in rows.Values
  {
    var s := Scan(rows, nextId);
    forall t | t in rows.Values ensures t in s {
      var id :| id in rows && rows[id] == t;
    }
  }

  /** An INSERT of a stored row under the next id keeps the table well
      formed, and leaves every other row where it was. */
  lemma InsertKeepsWellFormed(rows: map<int, Transaction>, nextId: int, t: Transaction)
    requires WellFormed(rows, nextId) && t.id == nextId && Stored(t)
    ensures nextId !in rows
    ensures WellFormed(rows[nextId := t], nextId + 1)
  {
  }

  /** An UPDATE that keeps a row's id and constraints keeps the table well
      formed. */
  lemma ReplaceKeepsWellFormed(rows: map<int, Transaction>, nextId: int, t: Transaction)
    requires WellFormed(rows, nextId) && t.id in rows && Stored(t)
    ensures WellFormed(rows[t.id := t], nextId)
  {
  }

  /** A DELETE keeps the table well formed. */
  lemma DeleteKeepsWellFormed(rows: map<int, Transaction>, nextId: int, id: int)
    requires WellFormed(rows, nextId)
    ensures WellFormed(rows - {id}, nextId)
  {
  }
}
