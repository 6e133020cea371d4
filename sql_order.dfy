/**
 * `ORDER BY <text column> ASC` as SQLite evaluates it with the default BINARY collation:
 * text compares by its UTF-8 bytes, which orders strings like their code points. The
 * order of rows with equal keys is left to the engine; the model keeps them in
 * insertion order.
 */
module SqlOrder {
  /** `a` sorts no later than `b`. */
  predicate LexLe(a: string, b: string)
    decreases |a|
  {
    a == [] || (b != [] && (a[0] < b[0] || (a[0] == b[0] && LexLe(a[1..], b[1..]))))
  }

  /** Any two keys are comparable. */
  lemma {:induction false} LexTotal(a: string, b: string)
    ensures LexLe(a, b) || LexLe(b, a)
    decreases |a|
  {
    if a != [] && b != [] && a[0] == b[0] {
      LexTotal(a[1..], b[1..]);
    }
  }

  /** The order is transitive. */
  lemma {:induction false} LexTrans(a: string, b: string, c: string)
    requires LexLe(a, b) && LexLe(b, c)
    ensures LexLe(a, c)
    decreases |a|
  {
    if a != [] && a[0] == b[0] && b[0] == c[0] {
      LexTrans(a[1..], b[1..], c[1..]);
    }
  }

  /** Rows in ascending key order. */
  predicate SortedBy<T>(s: seq<T>, key: T -> string) {
    forall i, j :: 0 <= i < j < |s| ==> LexLe(key(s[i]), key(s[j]))
  }

  /** `x` placed after every row whose key is not greater than its own. */
  function Insert<T>(x: T, s: seq<T>, key: T -> string): (r: seq<T>)
    ensures multiset(r) == multiset(s) + multiset{x}
    ensures |r| == |s| + 1
  {
    if s == [] then [x]
    else if !LexLe(key(s[0]), key(x)) then [x] + s
    else
      var r := [s[0]] + Insert(x, s[1..], key);
      assert s == [s[0]] + s[1..];
      r
  }

  /** Inserting keeps the rows in key order. */
  lemma {:induction false} InsertSorted<T>(x: T, s: seq<T>, key: T -> string)
    requires SortedBy(s, key)
    ensures SortedBy(Insert(x, s, key), key)
    decreases |s|
  {
    if s == [] {
    } else if !LexLe(key(s[0]), key(x)) {
      LexTotal(key(s[0]), key(x));
      forall j | 0 <= j < |s| ensures LexLe(key(x), key(s[j])) {
        if j > 0 {
          LexTrans(key(x), key(s[0]), key(s[j]));
        }
      }
      ConsSorted(x, s, key);
    } else {
      InsertSorted(x, s[1..], key);
      InsertKeepsLowerBound(s[0], x, s[1..], key);
      ConsSorted(s[0], Insert(x, s[1..], key), key);
    }
  }

  /** A row whose key bounds every key of `s` and `x` from below bounds the keys after inserting `x`. */
  lemma InsertKeepsLowerBound<T>(h: T, x: T, s: seq<T>, key: T -> string)
    requires LexLe(key(h), key(x))
    requires forall i :: 0 <= i < |s| ==> LexLe(key(h), key(s[i]))
    ensures forall i :: 0 <= i < |Insert(x, s, key)| ==> LexLe(key(h), key(Insert(x, s, key)[i]))
  {
    var r := Insert(x, s, key);
    forall i | 0 <= i < |r| ensures LexLe(key(h), key(r[i])) {
      var y := r[i];
      assert y in multiset(r);
      if y != x {
        assert y in multiset(s);
        var k :| 0 <= k < |s| && s[k] == y;
      }
    }
  }

  /** A row below every row of a sorted sequence can lead it. */
  lemma ConsSorted<T>(h: T, s: seq<T>, key: T -> string)
    requires SortedBy(s, key)
    requires forall i :: 0 <= i < |s| ==> LexLe(key(h), key(s[i]))
    ensures SortedBy([h] + s, key)
  {
    var r := [h] + s;
    forall i, j | 0 <= i < j < |r| ensures LexLe(key(r[i]), key(r[j])) {
      assert r[j] == s[j - 1];
      if i > 0 {
        assert r[i] == s[i - 1];
      }
    }
  }

  /** The rows of a table in `ORDER BY key ASC` order. */
  function SortBy<T>(rows: seq<T>, key: T -> string): (r: seq<T>)
    ensures multiset(r) == multiset(rows)
    ensures |r| == |rows|
    decreases |rows|
  {
    if rows == [] then []
    else
      var front := rows[..|rows| - 1];
      assert rows == front + [rows[|rows| - 1]];
      Insert(rows[|rows| - 1], SortBy(front, key), key)
  }

  /** The ordered rows are sorted by the key. */
  lemma {:induction false} SortBySorted<T>(rows: seq<T>, key: T -> string)
    ensures SortedBy(SortBy(rows, key), key)
    decreases |rows|
  {
    if rows != [] {
      var front := rows[..|rows| - 1];
      SortBySorted(front, key);
      InsertSorted(rows[|rows| - 1], SortBy(front, key), key);
    }
  }

  /** Rows whose keys already ascend keep their order. */
  lemma {:induction false} SortByOfSorted<T>(rows: seq<T>, key: T -> string)
    requires SortedBy(rows, key)
    ensures SortBy(rows, key) == rows
    decreases |rows|
  {
    if rows != [] {
      var front := rows[..|rows| - 1];
      var x := rows[|rows| - 1];
      assert SortedBy(front, key);
      SortByOfSorted(front, key);
      InsertAfterAll(x, front, key);
      assert front + [x] == rows;
    }
  }

  /** A row whose key is not below any other goes last. */
  lemma {:induction false} InsertAfterAll<T>(x: T, s: seq<T>, key: T -> string)
    requires forall i :: 0 <= i < |s| ==> LexLe(key(s[i]), key(x))
    ensures Insert(x, s, key) == s + [x]
    decreases |s|
  {
    if s != [] {
      InsertAfterAll(x, s[1..], key);
      assert s == [s[0]] + s[1..];
    }
  }
}
