/** The result table of a scan, as pandas assembles it: columns in order of
    first appearance among the records, the leading columns moved to the
    front, an optional sort, and `head`. */
module Tables {
  import opened Common
  import opened Records

  // ------------------------------------------------------------------ head

  /** pandas `head(n)`: the first n rows; a negative n drops the last -n
      rows instead. */
  function Head<T>(s: seq<T>, n: int): (r: seq<T>)
    ensures 0 <= n <= |s| ==> |r| == n
    ensures n > |s| ==> r == s
    ensures n < 0 ==> |r| == if -n <= |s| then |s| + n else 0
    ensures |r| <= |s| && r == s[..|r|]
  {
    if n >= 0 then (if n <= |s| then s[..n] else s)
    else if -n <= |s| then s[..|s| + n] else []
  }

  // ------------------------------------------------------------------ sort

  /** A comparison that can order any two elements, consistently. */
  ghost predicate TotalPreorder<T(!new)>(le: (T, T) -> bool)
  {
    (forall a, b :: le(a, b) || le(b, a)) &&
    (forall a, b, c :: le(a, b) && le(b, c) ==> le(a, c))
  }

  predicate SortedBy<T>(s: seq<T>, le: (T, T) -> bool)
  {
    forall i, j :: 0 <= i < j < |s| ==> le(s[i], s[j])
  }

  function Insert<T(==,!new)>(x: T, s: seq<T>, le: (T, T) -> bool): (r: seq<T>)
    requires TotalPreorder(le) && SortedBy(s, le)
    ensures SortedBy(r, le)
    ensures multiset(r) == multiset(s) + multiset{x}
    decreases |s|
  {
    if s == [] || le(x, s[0]) then
      assert forall y :: y in s ==> le(x, y) by {
        forall y | y in s ensures le(x, y) {
          var j :| 0 <= j < |s| && s[j] == y;
          if j > 0 { assert le(s[0], s[j]); }
        }
      }
      ConsSorted(x, s, le);
      [x] + s
    else
      var rest := Insert(x, s[1..], le);
      HeadBelowInserted(x, s, rest, le);
      ConsSorted(s[0], rest, le);
      assert s == [s[0]] + s[1..];
      [s[0]] + rest
  }

  /** An element below every element of a sorted sequence can go in front. */
  lemma ConsSorted<T>(h: T, s: seq<T>, le: (T, T) -> bool)
    requires SortedBy(s, le) && forall y :: y in s ==> le(h, y)
    ensures SortedBy([h] + s, le)
  {
    var r := [h] + s;
    forall i, j | 0 <= i < j < |r| ensures le(r[i], r[j]) {
      assert r[j] == s[j - 1];
      if i > 0 {
        assert r[i] == s[i - 1];
      }
    }
  }

  /** When x goes after the head of a sorted sequence, the head is below
      every element of the tail with x inserted. */
  lemma HeadBelowInserted<T(!new)>(x: T, s: seq<T>, rest: seq<T>, le: (T, T) -> bool)
    requires TotalPreorder(le) && SortedBy(s, le) && s != [] && !le(x, s[0])
    requires multiset(rest) == multiset(s[1..]) + multiset{x}
    ensures forall y :: y in rest ==> le(s[0], y)
  {
    assert le(s[0], x);
    forall y | y in rest ensures le(s[0], y) {
      assert y in multiset(rest);
      if y != x {
        assert y in multiset(s[1..]);
        var j :| 0 <= j < |s[1..]| && s[1..][j] == y;
        assert s[j + 1] == y;
      }
    }
  }

  /** The rows in the order `le` asks for. pandas' default sort is not
      stable, so only sortedness and the permutation are promised. */
  function Sort<T(==,!new)>(s: seq<T>, le: (T, T) -> bool): (r: seq<T>)
    requires TotalPreorder(le)
    ensures SortedBy(r, le)
    ensures multiset(r) == multiset(s)
  {
    if s == [] then []
    else
      assert s == [s[0]] + s[1..];
      Insert(s[0], Sort(s[1..], le), le)
  }

  /** The order of a float column in `sort_values`: NaN last in either
      direction, infinities at the ends. */
  predicate KeyOrder(a: Float, b: Float, ascending: bool)
  {
    if a.NaN? then b.NaN?
    else if b.NaN? then true
    else if ascending then FloatLe(a, b)
    else FloatLe(b, a)
  }

  predicate FloatLe(a: Float, b: Float)
  {
    a == Infinite(false) || b == Infinite(true) || (a.Finite? && b.Finite? && a.val <= b.val)
  }

  lemma KeyOrderTotal(ascending: bool)
    ensures TotalPreorder((a: Float, b: Float) => KeyOrder(a, b, ascending))
  {
  }

  /** A row's sort key: a number, or NaN when the column is missing or not
      numeric. */
  function RowKey(d: Dict, column: string): Float
  {
    match GetNumber(d, column)
    case Some(x) => x
    case None => NaN
  }

  function ByColumn(column: string, ascending: bool): (Dict, Dict) -> bool
  {
    (a: Dict, b: Dict) => KeyOrder(RowKey(a, column), RowKey(b, column), ascending)
  }

  lemma ByColumnTotal(column: string, ascending: bool)
    ensures TotalPreorder(ByColumn(column, ascending))
  {
    KeyOrderTotal(ascending);
    var le := ByColumn(column, ascending);
    var ko := (a: Float, b: Float) => KeyOrder(a, b, ascending);
    forall a, b ensures le(a, b) || le(b, a) {
      assert ko(RowKey(a, column), RowKey(b, column)) || ko(RowKey(b, column), RowKey(a, column));
    }
    forall a, b, c | le(a, b) && le(b, c) ensures le(a, c) {
      assert ko(RowKey(a, column), RowKey(b, column)) && ko(RowKey(b, column), RowKey(c, column));
    }
  }

  /** `df.sort_values(by=column, ascending=ascending)`. */
  function SortRows(rows: seq<Dict>, column: string, ascending: bool): (r: seq<Dict>)
    ensures multiset(r) == multiset(rows)
    ensures forall i, j :: 0 <= i < j < |r| ==> KeyOrder(RowKey(r[i], column), RowKey(r[j], column), ascending)
  {
    ByColumnTotal(column, ascending);
    Sort(rows, ByColumn(column, ascending))
  }

  // --------------------------------------------------------------- columns

  /** The elements of `s` that are in `keep`, in order. */
  function Select(s: seq<string>, keep: set<string>): (r: seq<string>)
    ensures forall x :: x in r <==> x in s && x in keep
  {
    if s == [] then []
    else (if s[0] in keep then [s[0]] else []) + Select(s[1..], keep)
  }

  lemma {:induction false} SelectDistinct(s: seq<string>, keep: set<string>)
    requires Distinct(s)
    ensures Distinct(Select(s, keep))
  {
    if s != [] {
      assert Distinct(s[1..]) && s[0] !in s[1..];
      SelectDistinct(s[1..], keep);
    }
  }

  /** The set of elements of a sequence. */
  function Elements(s: seq<string>): set<string>
  {
    set x | x in s
  }

  /** The elements of `s` that are not in `drop`, in order. */
  function Reject(s: seq<string>, drop: set<string>): (r: seq<string>)
    ensures forall x :: x in r <==> x in s && x !in drop
    ensures Distinct(s) ==> Distinct(r)
  {
    if s == [] then []
    else
      var rest := Reject(s[1..], drop);
      assert Distinct(s) ==> Distinct(s[1..]) && s[0] !in s[1..];
      (if s[0] !in drop then [s[0]] else []) + rest
  }

  lemma {:induction false} SelectRejectSplit(s: seq<string>, k: set<string>)
    ensures multiset(Select(s, k)) + multiset(Reject(s, k)) == multiset(s)
  {
    if s != [] {
      SelectRejectSplit(s[1..], k);
      assert s == [s[0]] + s[1..];
    }
  }

  /** In a sequence without repetitions every element occurs once. */
  lemma {:induction false} DistinctCounts(s: seq<string>)
    requires Distinct(s)
    ensures forall x :: multiset(s)[x] == if x in s then 1 else 0
  {
    if s != [] {
      assert Distinct(s[1..]);
      DistinctCounts(s[1..]);
      assert s == [s[0]] + s[1..];
      assert s[0] !in s[1..];
    }
  }

  /** Two sequences without repetitions holding the same elements are
      permutations of each other. */
  lemma SameElementsPermutation(a: seq<string>, b: seq<string>)
    requires Distinct(a) && Distinct(b)
    requires forall x :: x in a <==> x in b
    ensures multiset(a) == multiset(b)
  {
    DistinctCounts(a);
    DistinctCounts(b);
    assert forall x :: multiset(a)[x] == multiset(b)[x];
  }

  /** The final column order: the leading columns that exist, in declared
      order, then every other column in its original order. */
  function Reorder(leading: seq<string>, columns: seq<string>): (r: seq<string>)
    ensures forall c :: c in r <==> c in columns
    ensures |Select(leading, set x | x in columns)| <= |r|
    ensures forall c :: c in leading && c in columns ==> c in r[..|Select(leading, set x | x in columns)|]
    ensures r[..|Select(leading, set x | x in columns)|] == Select(leading, set x | x in columns)
    ensures r[|Select(leading, set x | x in columns)|..] ==
              Reject(columns, Elements(Select(leading, set x | x in columns)))
    ensures Distinct(leading) && Distinct(columns) ==> multiset(r) == multiset(columns)
  {
    var existing := Select(leading, set x | x in columns);
    var others := Reject(columns, set x | x in existing);
    ReorderPermutation(leading, columns);
    assert (existing + others)[..|existing|] == existing;
    assert (existing + others)[|existing|..] == others;
    existing + others
  }

  lemma ReorderPermutation(leading: seq<string>, columns: seq<string>)
    ensures var existing := Select(leading, set x | x in columns);
            Distinct(leading) && Distinct(columns) ==>
              multiset(existing + Reject(columns, set x | x in existing)) == multiset(columns)
  {
    var existing := Select(leading, set x | x in columns);
    if Distinct(leading) && Distinct(columns) {
      var inCols := Select(columns, set x | x in existing);
      SelectDistinct(leading, set x | x in columns);
      SelectDistinct(columns, set x | x in existing);
      SameElementsPermutation(existing, inCols);
      SelectRejectSplit(columns, set x | x in existing);
    }
  }

  /** The leading columns keep their declared relative order in the result. */
  lemma {:induction false} LeadingOrderKept(leading: seq<string>, columns: seq<string>, i: nat, j: nat)
      returns (a: nat, b: nat)
    requires i < j < |Select(leading, set x | x in columns)|
    ensures a < b < |leading|
    ensures leading[a] == Reorder(leading, columns)[i] && leading[b] == Reorder(leading, columns)[j]
  {
    a, b := SelectKeepsOrder(leading, (set x | x in columns), i, j);
  }

  lemma {:induction false} SelectKeepsOrder(s: seq<string>, k: set<string>, i: nat, j: nat) returns (a: nat, b: nat)
    requires i < j < |Select(s, k)|
    ensures a < b < |s| && s[a] == Select(s, k)[i] && s[b] == Select(s, k)[j]
  {
    var t := s[1..];
    var rest := Select(t, k);
    if s[0] !in k {
      assert Select(s, k) == rest;
      var c, e := SelectKeepsOrder(t, k, i, j);
      assert t[c] == s[c + 1] && t[e] == s[e + 1];
      a, b := c + 1, e + 1;
    } else if i == 0 {
      assert Select(s, k) == [s[0]] + rest;
      var e := SelectIndex(t, k, j - 1);
      assert t[e] == s[e + 1];
      a, b := 0, e + 1;
    } else {
      assert Select(s, k) == [s[0]] + rest;
      var c, e := SelectKeepsOrder(t, k, i - 1, j - 1);
      assert t[c] == s[c + 1] && t[e] == s[e + 1];
      a, b := c + 1, e + 1;
    }
  }

  lemma {:induction false} SelectIndex(s: seq<string>, k: set<string>, i: nat) returns (a: nat)
    requires i < |Select(s, k)|
    ensures a < |s| && s[a] == Select(s, k)[i]
  {
    var r := Select(s, k);
    assert r[i] in r;
    a :| 0 <= a < |s| && s[a] == r[i];
  }

  /** The columns after the leading ones keep their original relative
      order in the result. */
  lemma OtherOrderKept(leading: seq<string>, columns: seq<string>, i: nat, j: nat) returns (a: nat, b: nat)
    requires |Select(leading, set x | x in columns)| <= i < j < |Reorder(leading, columns)|
    ensures a < b < |columns|
    ensures columns[a] == Reorder(leading, columns)[i] && columns[b] == Reorder(leading, columns)[j]
  {
    var existing := Select(leading, set x | x in columns);
    var k := |existing|;
    var r := Reorder(leading, columns);
    var others := Reject(columns, Elements(existing));
    SuffixAt(r, k, others, i);
    SuffixAt(r, k, others, j);
    a, b := RejectKeepsOrder(columns, Elements(existing), i - k, j - k);
  }

  lemma SuffixAt(r: seq<string>, k: nat, others: seq<string>, i: nat)
    requires k <= i < |r| && r[k..] == others
    ensures i - k < |others| && r[i] == others[i - k]
  {
  }

  lemma RejectKeepsOrder(s: seq<string>, drop: set<string>, i: nat, j: nat) returns (a: nat, b: nat)
    requires i < j < |Reject(s, drop)|
    ensures a < b < |s| && s[a] == Reject(s, drop)[i] && s[b] == Reject(s, drop)[j]
  {
    RejectIsSelect(s, drop, Elements(s) - drop);
    a, b := SelectKeepsOrder(s, Elements(s) - drop, i, j);
  }

  /** Rejecting the elements of `drop` keeps what a complementary set
      selects. */
  lemma {:induction false} RejectIsSelect(s: seq<string>, drop: set<string>, keep: set<string>)
    requires forall x :: x in s ==> (x in keep <==> x !in drop)
    ensures Reject(s, drop) == Select(s, keep)
  {
    if s != [] {
      assert forall x :: x in s[1..] ==> x in s;
      RejectIsSelect(s[1..], drop, keep);
    }
  }

  /** Rejecting by two sets that agree on the elements of `s` gives the
      same result. */
  lemma {:induction false} RejectAgrees(s: seq<string>, a: set<string>, b: set<string>)
    requires forall x :: x in s ==> (x in a <==> x in b)
    ensures Reject(s, a) == Reject(s, b)
  {
    if s != [] {
      assert forall x :: x in s[1..] ==> x in s;
      RejectAgrees(s[1..], a, b);
    }
  }

  /** `cols` followed by the keys of `ks` not yet present, in order. */
  function AppendNew(cols: seq<string>, ks: seq<string>): (r: seq<string>)
    ensures forall c :: c in r <==> c in cols || c in ks
    ensures Distinct(cols) ==> Distinct(r)
    ensures |cols| <= |r| && r[..|cols|] == cols
    decreases |ks|
  {
    if ks == [] then cols
    else
      var next := if ks[0] in cols then cols else cols + [ks[0]];
      assert next[..|cols|] == cols;
      var r := AppendNew(next, ks[1..]);
      assert r[..|cols|] == r[..|next|][..|cols|];
      r
  }

  /** With keys that do not repeat, the appended keys are exactly those of
      `ks` not in `cols`, in the order of `ks`. */
  lemma {:induction false} AppendNewIsReject(cols: seq<string>, ks: seq<string>)
    requires Distinct(ks)
    ensures AppendNew(cols, ks) == cols + Reject(ks, Elements(cols))
    decreases |ks|
  {
    if ks != [] {
      assert Distinct(ks[1..]);
      if ks[0] in cols {
        AppendNewIsReject(cols, ks[1..]);
        assert Reject(ks, Elements(cols)) == Reject(ks[1..], Elements(cols));
      } else {
        AppendNewFresh(cols, ks);
      }
    }
  }

  /** The step of `AppendNewIsReject` for a key not yet present. */
  lemma {:induction false} AppendNewFresh(cols: seq<string>, ks: seq<string>)
    requires Distinct(ks) && ks != [] && ks[0] !in cols
    ensures AppendNew(cols, ks) == cols + Reject(ks, Elements(cols))
    decreases |ks|, 0
  {
    var next := cols + [ks[0]];
    var tail := Reject(ks[1..], Elements(cols));
    assert AppendNew(cols, ks) == AppendNew(next, ks[1..]);
    assert Distinct(ks[1..]) && ks[0] !in ks[1..];
    AppendNewIsReject(next, ks[1..]);
    RejectAgrees(ks[1..], Elements(next), Elements(cols));
    assert Reject(ks, Elements(cols)) == [ks[0]] + tail;
    assert next + tail == cols + ([ks[0]] + tail);
  }

  /** `pd.DataFrame(records)`: the columns are the records' keys in order
      of first appearance. */
  function ColumnsOf(rows: seq<Dict>): (r: seq<string>)
    ensures Distinct(r)
    ensures forall c :: c in r <==> exists i :: 0 <= i < |rows| && c in rows[i].keys
  {
    if rows == [] then []
    else
      var init := rows[..|rows| - 1];
      var r := AppendNew(ColumnsOf(init), rows[|rows| - 1].keys);
      assert forall i :: 0 <= i < |init| ==> init[i] == rows[i];
      r
  }

  /** Adding a record keeps the columns seen so far and appends its new
      keys in the record's own order. */
  lemma ColumnsOfLast(rows: seq<Dict>, d: Dict)
    requires Distinct(d.keys)
    ensures ColumnsOf(rows + [d]) == ColumnsOf(rows) + Reject(d.keys, Elements(ColumnsOf(rows)))
  {
    assert (rows + [d])[..|rows|] == rows;
    AppendNewIsReject(ColumnsOf(rows), d.keys);
  }

  /** The columns of the first k records are a prefix of the columns of
      all of them. */
  lemma {:induction false} ColumnsPrefix(rows: seq<Dict>, k: nat)
    requires k <= |rows|
    ensures |ColumnsOf(rows[..k])| <= |ColumnsOf(rows)|
    ensures ColumnsOf(rows) [..|ColumnsOf(rows[..k])|] == ColumnsOf(rows[..k])
    decreases |rows|
  {
    if k < |rows| {
      var init := rows[..|rows| - 1];
      ColumnsPrefix(init, k);
      assert init[..k] == rows[..k];
      var p := ColumnsOf(init);
      var q := ColumnsOf(rows[..k]);
      assert ColumnsOf(rows)[..|p|] == p;
      assert ColumnsOf(rows)[..|q|] == p[..|q|];
    } else {
      assert rows[..k] == rows;
    }
  }

  /** First-seen order: a column placed before another already appears in
      some record no later than the first record holding the other. */
  lemma ColumnsFirstSeen(rows: seq<Dict>, i: nat, j: nat, k: nat)
    requires i < j < |ColumnsOf(rows)|
    requires k < |rows| && ColumnsOf(rows)[j] in rows[k].keys
    ensures exists m :: 0 <= m <= k && ColumnsOf(rows)[i] in rows[m].keys
  {
    var r := ColumnsOf(rows);
    var pre := rows[..k + 1];
    var p := ColumnsOf(pre);
    ColumnsPrefix(rows, k + 1);
    assert pre[k] == rows[k];
    assert r[j] in p;
    var t :| 0 <= t < |p| && p[t] == r[j];
    assert r[t] == p[t];
    assert t == j;
    assert r[i] == p[i] && r[i] in p;
    var m :| 0 <= m < |pre| && r[i] in pre[m].keys;
    assert pre[m] == rows[m];
  }

  // ----------------------------------------------------------------- table

  /** A result table: its columns in order, and one record per row; a
      column a record lacks holds NaN in that row. */
  datatype Table = Table(columns: seq<string>, rows: seq<Dict>)

  /** `pd.DataFrame()`. */
  const EmptyTable := Table([], [])

  /** Step 5 of the scan template: build the table from the passing
      records, move the leading columns to the front, and sort by the sort
      column when it is one of the table's columns. */
  function Format(rows: seq<Dict>, leading: seq<string>, sortBy: string, ascending: bool): (t: Table)
    ensures rows == [] <==> t == EmptyTable
    ensures multiset(t.rows) == multiset(rows)
    ensures forall c :: c in t.columns <==> exists i :: 0 <= i < |rows| && c in rows[i].keys
    ensures Distinct(leading) ==> multiset(t.columns) == multiset(ColumnsOf(rows))
    ensures rows != [] ==> t.columns == Reorder(leading, ColumnsOf(rows))
    ensures sortBy in t.columns ==>
              forall i, j :: 0 <= i < j < |t.rows| ==> KeyOrder(RowKey(t.rows[i], sortBy), RowKey(t.rows[j], sortBy), ascending)
    ensures sortBy !in t.columns ==> t.rows == rows
  {
    if rows == [] then EmptyTable
    else
      var cols := Reorder(leading, ColumnsOf(rows));
      assert rows[0] in multiset(rows);
      Table(cols, if sortBy in cols then SortRows(rows, sortBy, ascending) else rows)
  }
}
