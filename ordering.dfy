/** The order both queries ask for, `ORDER BY date DESC, timestamp DESC`,
    and the sort that SQLite performs for it. */
module Ordering {
  import opened Text
  import opened Transactions

  /** `a` may come before `b`: a later date, or the same date and a later
      (or equal) timestamp, both compared as text. */
  predicate ComesFirst(a: Transaction, b: Transaction) {
    TextLe(b.date, a.date) && (a.date == b.date ==> TextLe(b.timestamp, a.timestamp))
  }

  predicate SortedByRecency(s: seq<Transaction>) {
    forall i, j :: 0 <= i < j < |s| ==> ComesFirst(s[i], s[j])
  }

  lemma ComesFirstTotal(a: Transaction, b: Transaction)
    ensures ComesFirst(a, b) || ComesFirst(b, a)
  {
    TextLeTotal(a.date, b.date);
    TextLeTotal(a.timestamp, b.timestamp);
  }

  lemma ComesFirstTransitive(a: Transaction, b: Transaction, c: Transaction)
    requires ComesFirst(a, b) && ComesFirst(b, c)
    ensures ComesFirst(a, c)
  {
    TextLeTransitive(c.date, b.date, a.date);
    if a.date == c.date {
      TextLeAntisymmetric(a.date, b.date);
      TextLeTransitive(c.timestamp, b.timestamp, a.timestamp);
    }
  }

  /** Inserts `t` after every element that may come before it. */
  function Insert(t: Transaction, s: seq<Transaction>): (r: seq<Transaction>)
    ensures multiset(r) == multiset(s) + multiset{t}
    ensures |r| == |s| + 1
  {
    if s == [] || !ComesFirst(s[0], t) then [t] + s
    else
      assert s == [s[0]] + s[1..];
      [s[0]] + Insert(t, s[1..])
  }

  lemma {:induction false} InsertSorted(t: Transaction, s: seq<Transaction>)
    requires SortedByRecency(s)
    ensures SortedByRecency(Insert(t, s))
  {
    if s == [] || !ComesFirst(s[0], t) {
      if s != [] {
        ComesFirstTotal(s[0], t);
        forall j | 0 < j < |s| + 1 ensures ComesFirst(t, ([t] + s)[j]) {
          if j > 1 {
            ComesFirstTransitive(t, s[0], s[j - 1]);
          }
        }
      }
    } else {
      var rest := Insert(t, s[1..]);
      InsertSorted(t, s[1..]);
      assert rest[0] == t || rest[0] == s[1] by {
        if s[1..] != [] && ComesFirst(s[1..][0], t) {
          assert rest == [s[1]] + Insert(t, s[2..]) by { assert s[1..][1..] == s[2..]; }
        }
      }
      forall j | 0 <= j < |rest| ensures ComesFirst(s[0], rest[j]) {
        assert rest[j] in multiset(rest);
        assert rest[j] == t || rest[j] in s[1..];
      }
    }
  }

  /** The rows of `s` ordered latest first; rows that tie keep their input
      order. */
  function SortByRecency(s: seq<Transaction>): (r: seq<Transaction>)
    ensures SortedByRecency(r)
    ensures multiset(r) == multiset(s)
    ensures |r| == |s|
  {
    if s == [] then []
    else
      var sorted := SortByRecency(s[..|s| - 1]);
      InsertSorted(s[|s| - 1], sorted);
      assert s == s[..|s| - 1] + [s[|s| - 1]];
      Insert(s[|s| - 1], sorted)
  }
}
