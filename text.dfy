/** The string operations the tracker relies on: Python's str.strip(),
    slicing and str.join(), and SQLite's text comparison and LIKE operator. */
module Text {

  /** Python's str.isspace(): the characters str.strip() removes. */
  predicate IsSpace(c: char) {
    || c == ' '
    || '\t' <= c <= '\r'
    || '\U{1c}' <= c <= '\U{1f}'
    || c == '\U{85}' || c == '\U{a0}' || c == '\U{1680}'
    || '\U{2000}' <= c <= '\U{200a}'
    || c == '\U{2028}' || c == '\U{2029}' || c == '\U{202f}' || c == '\U{205f}'
    || c == '\U{3000}'
  }

  predicate AllSpace(s: string) {
    forall k :: 0 <= k < |s| ==> IsSpace(s[k])
  }

  /** `s` with its leading whitespace removed: a suffix of `s`. */
  function TrimStart(s: string): (r: string)
    ensures |r| <= |s| && r == s[|s| - |r|..]
    ensures forall k :: 0 <= k < |s| - |r| ==> IsSpace(s[k])
    ensures r == [] || !IsSpace(r[0])
  {
    if s != [] && IsSpace(s[0]) then TrimStart(s[1..]) else s
  }

  /** `s` with its trailing whitespace removed: a prefix of `s`. */
  function TrimEnd(s: string): (r: string)
    ensures |r| <= |s| && r == s[..|r|]
    ensures forall k :: |r| <= k < |s| ==> IsSpace(s[k])
    ensures r == [] || !IsSpace(r[|r| - 1])
  {
    if s != [] && IsSpace(s[|s| - 1]) then TrimEnd(s[..|s| - 1]) else s
  }

  /** Python's `s.strip()`: both ends trimmed, so that what is left
      starts and ends with a non-space. */
  function Strip(s: string): (r: string)
    ensures |r| <= |s|
    ensures r == [] || (!IsSpace(r[0]) && !IsSpace(r[|r| - 1]))
  {
    TrimEnd(TrimStart(s))
  }

  /** The stripped text is the middle `s[i..i + |r|]` of `s`, where `i`
      counts the leading whitespace, with only whitespace around it. */
  lemma StripIsMiddle(s: string)
    ensures var r, i := Strip(s), |s| - |TrimStart(s)|;
      && i + |r| <= |s|
      && r == s[i..i + |r|]
      && (forall k :: 0 <= k < i ==> IsSpace(s[k]))
      && (forall k :: i + |r| <= k < |s| ==> IsSpace(s[k]))
  {
    var t := TrimStart(s);
    var r := TrimEnd(t);
    var i := |s| - |t|;
    assert t == s[i..];
    assert r == t[..|r|];
    assert s[i..][..|r|] == s[i..i + |r|];
    forall k | i + |r| <= k < |s| ensures IsSpace(s[k]) {
      assert s[k] == t[k - i];
    }
  }

  /** Stripping leaves nothing exactly when `s` is all whitespace. */
  lemma StripEmpty(s: string)
    ensures Strip(s) == [] <==> AllSpace(s)
  {
    StripIsMiddle(s);
    var i := |s| - |TrimStart(s)|;
    if Strip(s) != [] {
      assert Strip(s)[0] == s[i];
      assert !IsSpace(s[i]);
    }
  }

  lemma {:induction false} StripIdempotent(s: string)
    ensures Strip(Strip(s)) == Strip(s)
  {
    var r := Strip(s);
    assert TrimStart(r) == r;
    assert TrimEnd(r) == r;
  }

  /** Python's `s[:n]`: at most the first `n` characters. */
  function Take(s: string, n: nat): (r: string)
    ensures |r| == if |s| <= n then |s| else n
    ensures r <= s
  {
    if |s| <= n then s else s[..n]
  }

  /** Python's `sep.join(parts)`. */
  function Join(sep: string, parts: seq<string>): string
  {
    if |parts| == 0 then ""
    else if |parts| == 1 then parts[0]
    else Join(sep, parts[..|parts| - 1]) + sep + parts[|parts| - 1]
  }

  /** Number of occurrences of `c` in `s`. */
  function Occurrences(c: char, s: string): (n: nat)
    ensures n <= |s|
    ensures n == 0 <== c !in s
  {
    if s == [] then 0
    else Occurrences(c, s[..|s| - 1]) + (if s[|s| - 1] == c then 1 else 0)
  }

  lemma {:induction false} OccurrencesConcat(c: char, a: string, b: string)
    ensures Occurrences(c, a + b) == Occurrences(c, a) + Occurrences(c, b)
  {
    if b == [] {
      assert a + b == a;
    } else {
      assert (a + b)[..|a + b| - 1] == a + b[..|b| - 1];
      OccurrencesConcat(c, a, b[..|b| - 1]);
    }
  }

  /** Occurrences of `c` summed over `parts`. */
  function OccurrencesIn(c: char, parts: seq<string>): nat
  {
    if parts == [] then 0
    else OccurrencesIn(c, parts[..|parts| - 1]) + Occurrences(c, parts[|parts| - 1])
  }

  /** Joining with a separator free of `c` neither adds nor loses a `c`. */
  lemma {:induction false} OccurrencesJoin(c: char, sep: string, parts: seq<string>)
    requires c !in sep
    ensures Occurrences(c, Join(sep, parts)) == OccurrencesIn(c, parts)
  {
    if |parts| == 1 {
      assert parts[..0] == [];
    } else if |parts| > 1 {
      var init := parts[..|parts| - 1];
      OccurrencesJoin(c, sep, init);
      OccurrencesConcat(c, Join(sep, init) + sep, parts[|parts| - 1]);
      OccurrencesConcat(c, Join(sep, init), sep);
    }
  }

  /** SQLite's BINARY collation on text: code-point lexicographic order,
      a proper prefix sorting first. */
  predicate TextLe(a: string, b: string) {
    a == [] || (b != [] && (a[0] < b[0] || (a[0] == b[0] && TextLe(a[1..], b[1..]))))
  }

  lemma {:induction false} TextLeTotal(a: string, b: string)
    ensures TextLe(a, b) || TextLe(b, a)
  {
    if a != [] && b != [] && a[0] == b[0] {
      TextLeTotal(a[1..], b[1..]);
    }
  }

  lemma {:induction false} TextLeTransitive(a: string, b: string, c: string)
    requires TextLe(a, b) && TextLe(b, c)
    ensures TextLe(a, c)
  {
    if a != [] && a[0] == b[0] && b[0] == c[0] {
      TextLeTransitive(a[1..], b[1..], c[1..]);
    }
  }

  lemma {:induction false} TextLeAntisymmetric(a: string, b: string)
    requires TextLe(a, b) && TextLe(b, a)
    ensures a == b
  {
    if a != [] {
      TextLeAntisymmetric(a[1..], b[1..]);
      assert a == [a[0]] + a[1..];
      assert b == [b[0]] + b[1..];
    }
  }

  lemma {:induction false} TextLeReflexive(a: string)
    ensures TextLe(a, a)
  {
    if a != [] {
      TextLeReflexive(a[1..]);
    }
  }

  /** SQLite's default LIKE folds ASCII letters only. */
  function AsciiLower(c: char): (r: char)
    ensures 'A' <= c <= 'Z' ==> 'a' <= r <= 'z' && r as int - c as int == 32
    ensures !('A' <= c <= 'Z') ==> r == c
  {
    if 'A' <= c <= 'Z' then (c as int + 32) as char else c
  }

  predicate SameIgnoringCase(a: char, b: char) {
    AsciiLower(a) == AsciiLower(b)
  }

  /** `s LIKE p` in SQLite with no ESCAPE clause: `%` matches any run of
      characters, `_` any one character, every other character itself up
      to ASCII case. */
  predicate Like(s: string, p: string)
    decreases |s| + |p|
  {
    if p == [] then s == []
    else if p[0] == '%' then Like(s, p[1..]) || (s != [] && Like(s[1..], p))
    else s != [] && (p[0] == '_' || SameIgnoringCase(s[0], p[0])) && Like(s[1..], p[1..])
  }

  predicate NoWildcards(x: string) {
    '%' !in x && '_' !in x
  }

  /** `x` occurs in `s` at position `k`, up to ASCII case. */
  predicate MatchesAt(s: string, x: string, k: nat)
    requires k + |x| <= |s|
  {
    forall j :: 0 <= j < |x| ==> SameIgnoringCase(s[k + j], x[j])
  }

  predicate ContainsIgnoringCase(s: string, x: string) {
    exists k: nat :: k + |x| <= |s| && MatchesAt(s, x, k)
  }

  lemma {:induction false} LikeAnything(s: string)
    ensures Like(s, "%")
  {
    if s != [] {
      LikeAnything(s[1..]);
    }
  }

  /** `x%` matches exactly the strings that start with `x`. */
  lemma {:induction false} LikePrefix(t: string, x: string)
    requires NoWildcards(x)
    ensures Like(t, x + "%") <==> |x| <= |t| && MatchesAt(t, x, 0)
  {
    if x == [] {
      assert x + "%" == "%";
      LikeAnything(t);
    } else {
      var p := x + "%";
      assert p[0] == x[0] && p[1..] == x[1..] + "%";
      assert x[0] in x;
      assert NoWildcards(x[1..]) by {
        forall j | 0 <= j < |x[1..]| ensures x[1..][j] != '%' && x[1..][j] != '_' {
          assert x[1..][j] == x[j + 1];
        }
      }
      if t != [] {
        LikePrefix(t[1..], x[1..]);
        if |x| <= |t| && MatchesAt(t, x, 0) {
          forall j | 0 <= j < |x[1..]| ensures SameIgnoringCase(t[1..][j], x[1..][j]) {
            assert t[1..][j] == t[j + 1] && x[1..][j] == x[j + 1];
          }
        }
        if SameIgnoringCase(t[0], x[0]) && |x[1..]| <= |t[1..]| && MatchesAt(t[1..], x[1..], 0) {
          forall j | 0 <= j < |x| ensures SameIgnoringCase(t[j], x[j]) {
            if j > 0 {
              assert t[1..][j - 1] == t[j] && x[1..][j - 1] == x[j];
            }
          }
        }
      }
    }
  }

  lemma {:induction false} ContainsStep(s: string, x: string)
    ensures ContainsIgnoringCase(s, x) <==>
      (|x| <= |s| && MatchesAt(s, x, 0)) || (s != [] && ContainsIgnoringCase(s[1..], x))
  {
    if ContainsIgnoringCase(s, x) {
      var k: nat :| k + |x| <= |s| && MatchesAt(s, x, k);
      if k > 0 {
        assert MatchesAt(s[1..], x, k - 1) by {
          forall j | 0 <= j < |x| ensures SameIgnoringCase(s[1..][k - 1 + j], x[j]) {
            assert s[1..][k - 1 + j] == s[k + j];
          }
        }
      }
    }
    if s != [] && ContainsIgnoringCase(s[1..], x) {
      var k: nat :| k + |x| <= |s[1..]| && MatchesAt(s[1..], x, k);
      assert MatchesAt(s, x, k + 1) by {
        forall j | 0 <= j < |x| ensures SameIgnoringCase(s[k + 1 + j], x[j]) {
          assert s[1..][k + j] == s[k + 1 + j];
        }
      }
    }
  }

  /** The pattern `%x%` built for a search term without wildcards matches
      exactly the strings that contain the term, ignoring ASCII case. */
  lemma {:induction false} LikeContains(s: string, x: string)
    requires NoWildcards(x)
    ensures Like(s, "%" + x + "%") <==> ContainsIgnoringCase(s, x)
  {
    var p := "%" + x + "%";
    assert p[0] == '%' && p[1..] == x + "%";
    LikePrefix(s, x);
    ContainsStep(s, x);
    if s != [] {
      LikeContains(s[1..], x);
    }
  }
}
