/** The click-to-sort logic of the expense table: which key each column
    sorts by, the stable sort Python's `list.sort` performs (with and without
    `reverse=True`), and the two-field toggle of the sort state. */
module SortEngine {
  import opened Text
  import opened Ledger

  /** The three headings of the expense table. */
  datatype Column = Date | Category | Amount

  /** A sort key: the displayed text for Date and Category, the amount
      itself for Amount. */
  datatype Key = Str(s: string) | Num(x: real)

  function KeyOf(col: Column, e: Expense): Key {
    match col
    case Date => Str(e.date)
    case Category => Str(e.category)
    case Amount => Num(e.amount)
  }

  /** Strict order on keys. Keys of one column are all of one kind; numbers
      before texts only makes the order total. */
  predicate KeyLess(a: Key, b: Key) {
    match (a, b)
    case (Str(x), Str(y)) => Less(x, y)
    case (Num(x), Num(y)) => x < y
    case (Num(_), Str(_)) => true
    case (Str(_), Num(_)) => false
  }

  /** A row with key `a` must come strictly before one with key `b`: smaller
      first when ascending, larger first when `reverse=True`. */
  predicate Precedes(desc: bool, a: Key, b: Key) {
    if desc then KeyLess(b, a) else KeyLess(a, b)
  }

  lemma PrecedesIrreflexive(desc: bool, a: Key)
    ensures !Precedes(desc, a, a)
  {
    if a.Str? { LessIrreflexive(a.s); }
  }

  lemma PrecedesTransitive(desc: bool, a: Key, b: Key, c: Key)
    requires Precedes(desc, a, b) && Precedes(desc, b, c)
    ensures Precedes(desc, a, c)
  {
    if a.Str? && b.Str? && c.Str? {
      if desc { LessTransitive(c.s, b.s, a.s); } else { LessTransitive(a.s, b.s, c.s); }
    }
  }

  lemma PrecedesAsymmetric(desc: bool, a: Key, b: Key)
    requires Precedes(desc, a, b)
    ensures !Precedes(desc, b, a)
  {
    if a.Str? && b.Str? {
      if desc { LessAsymmetric(b.s, a.s); } else { LessAsymmetric(a.s, b.s); }
    }
  }

  lemma PrecedesTotal(desc: bool, a: Key, b: Key)
    requires a != b
    ensures Precedes(desc, a, b) || Precedes(desc, b, a)
  {
    if a.Str? && b.Str? { LessTotal(a.s, b.s); }
  }

  /** No row is followed by a row that must precede it. */
  ghost predicate Ordered(col: Column, desc: bool, s: seq<Expense>) {
    forall i, j :: 0 <= i < j < |s| ==> !Precedes(desc, KeyOf(col, s[j]), KeyOf(col, s[i]))
  }

  /** The rows of `s` whose key in `col` is `k`, in their order in `s`. */
  function WithKey(col: Column, k: Key, s: seq<Expense>): seq<Expense> {
    if s == [] then []
    else WithKey(col, k, s[..|s| - 1]) + (if KeyOf(col, s[|s| - 1]) == k then [s[|s| - 1]] else [])
  }

  lemma {:induction false} WithKeyConcat(col: Column, k: Key, xs: seq<Expense>, ys: seq<Expense>)
    ensures WithKey(col, k, xs + ys) == WithKey(col, k, xs) + WithKey(col, k, ys)
  {
    if ys == [] {
      assert xs + ys == xs;
    } else {
      assert (xs + ys)[..|xs + ys| - 1] == xs + ys[..|ys| - 1];
      WithKeyConcat(col, k, xs, ys[..|ys| - 1]);
    }
  }

  lemma {:induction false} WithKeyNone(col: Column, k: Key, s: seq<Expense>)
    requires forall i :: 0 <= i < |s| ==> KeyOf(col, s[i]) != k
    ensures WithKey(col, k, s) == []
  {
    if s != [] {
      WithKeyNone(col, k, s[..|s| - 1]);
    }
  }

  /** Where a stable insertion puts `x`: before the first row that `x` must
      strictly precede, after every row it may follow. */
  function InsertionPoint(col: Column, desc: bool, s: seq<Expense>, x: Expense): (p: nat)
    ensures p <= |s|
  {
    if s == [] || Precedes(desc, KeyOf(col, x), KeyOf(col, s[0])) then 0
    else 1 + InsertionPoint(col, desc, s[1..], x)
  }

  /** `x` may follow every row before its insertion point and must precede
      the row at it. */
  lemma {:induction false} InsertionPointSpec(col: Column, desc: bool, s: seq<Expense>, x: Expense)
    ensures forall q :: 0 <= q < InsertionPoint(col, desc, s, x) ==> !Precedes(desc, KeyOf(col, x), KeyOf(col, s[q]))
    ensures InsertionPoint(col, desc, s, x) < |s| ==> Precedes(desc, KeyOf(col, x), KeyOf(col, s[InsertionPoint(col, desc, s, x)]))
  {
    if s != [] && !Precedes(desc, KeyOf(col, x), KeyOf(col, s[0])) {
      InsertionPointSpec(col, desc, s[1..], x);
      var p := InsertionPoint(col, desc, s, x);
      forall q | 0 <= q < p ensures !Precedes(desc, KeyOf(col, x), KeyOf(col, s[q])) {
        if q > 0 {
          assert s[q] == s[1..][q - 1];
        }
      }
      if p < |s| {
        assert s[p] == s[1..][p - 1];
      }
    }
  }

  /** Stable insertion of `x` into rows `s`. */
  function Insert(col: Column, desc: bool, s: seq<Expense>, x: Expense): seq<Expense> {
    if s == [] then [x]
    else if Precedes(desc, KeyOf(col, x), KeyOf(col, s[0])) then [x] + s
    else [s[0]] + Insert(col, desc, s[1..], x)
  }

  /** The rows in the order a stable sort on column `col` leaves them. */
  function StableSort(col: Column, desc: bool, rows: seq<Expense>): seq<Expense> {
    if rows == [] then []
    else Insert(col, desc, StableSort(col, desc, rows[..|rows| - 1]), rows[|rows| - 1])
  }

  /** Insert splits the rows at the insertion point. */
  lemma {:induction false} InsertSplit(col: Column, desc: bool, s: seq<Expense>, x: Expense)
    ensures var p := InsertionPoint(col, desc, s, x);
            Insert(col, desc, s, x) == s[..p] + [x] + s[p..]
  {
    if s != [] && !Precedes(desc, KeyOf(col, x), KeyOf(col, s[0])) {
      var t := s[1..];
      InsertSplit(col, desc, t, x);
      var p := InsertionPoint(col, desc, s, x);
      assert s[..p] == [s[0]] + t[..p - 1];
      assert s[p..] == t[p - 1..];
    }
  }

  /** Inserting at any position that has only rows `x` may follow before it
      and a row `x` must precede at it is what Insert does: that position is
      the insertion point. */
  lemma {:induction false} InsertAt(col: Column, desc: bool, s: seq<Expense>, x: Expense, p: nat)
    requires p <= |s|
    requires forall q :: 0 <= q < p ==> !Precedes(desc, KeyOf(col, x), KeyOf(col, s[q]))
    requires p < |s| ==> Precedes(desc, KeyOf(col, x), KeyOf(col, s[p]))
    ensures Insert(col, desc, s, x) == s[..p] + [x] + s[p..]
  {
    var ip := InsertionPoint(col, desc, s, x);
    InsertionPointSpec(col, desc, s, x);
    InsertSplit(col, desc, s, x);
  }

  lemma {:induction false} PrecedesRest(col: Column, desc: bool, s: seq<Expense>, x: Expense, p: nat)
    requires Ordered(col, desc, s)
    requires p < |s| && Precedes(desc, KeyOf(col, x), KeyOf(col, s[p]))
    ensures forall q :: p <= q < |s| ==> Precedes(desc, KeyOf(col, x), KeyOf(col, s[q]))
  {
    forall q | p < q < |s|
      ensures Precedes(desc, KeyOf(col, x), KeyOf(col, s[q]))
    {
      var a, b := KeyOf(col, s[p]), KeyOf(col, s[q]);
      if a != b {
        PrecedesTotal(desc, a, b);
        PrecedesTransitive(desc, KeyOf(col, x), a, b);
      }
    }
  }

  lemma {:induction false} InsertOrdered(col: Column, desc: bool, s: seq<Expense>, x: Expense)
    requires Ordered(col, desc, s)
    ensures Ordered(col, desc, Insert(col, desc, s, x))
  {
    var p := InsertionPoint(col, desc, s, x);
    InsertionPointSpec(col, desc, s, x);
    InsertAt(col, desc, s, x, p);
    var r := s[..p] + [x] + s[p..];
    if p < |s| {
      PrecedesRest(col, desc, s, x, p);
    }
    forall i, j | 0 <= i < j < |r|
      ensures !Precedes(desc, KeyOf(col, r[j]), KeyOf(col, r[i]))
    {
      if j < p {
        assert r[i] == s[i] && r[j] == s[j];
      } else if j == p {
        assert r[i] == s[i] && r[j] == x;
      } else if i == p {
        assert r[i] == x && r[j] == s[j - 1];
        PrecedesAsymmetric(desc, KeyOf(col, x), KeyOf(col, s[j - 1]));
      } else if i < p {
        assert r[i] == s[i] && r[j] == s[j - 1];
      } else {
        assert r[i] == s[i - 1] && r[j] == s[j - 1];
      }
    }
  }

  lemma {:induction false} InsertPermutes(col: Column, desc: bool, s: seq<Expense>, x: Expense)
    ensures multiset(Insert(col, desc, s, x)) == multiset(s) + multiset{x}
  {
    if s != [] && !Precedes(desc, KeyOf(col, x), KeyOf(col, s[0])) {
      InsertPermutes(col, desc, s[1..], x);
      assert s == [s[0]] + s[1..];
    }
  }

  /** Past the insertion point no row shares `x`'s key. */
  lemma {:induction false} NoEqualKeyAfterPoint(col: Column, desc: bool, s: seq<Expense>, x: Expense, p: nat)
    requires Ordered(col, desc, s)
    requires p <= |s|
    requires p < |s| ==> Precedes(desc, KeyOf(col, x), KeyOf(col, s[p]))
    ensures WithKey(col, KeyOf(col, x), s[p..]) == []
  {
    var k := KeyOf(col, x);
    if p < |s| {
      PrecedesRest(col, desc, s, x, p);
      forall i | 0 <= i < |s[p..]| ensures KeyOf(col, s[p..][i]) != k {
        assert s[p..][i] == s[p + i];
        if KeyOf(col, s[p + i]) == k {
          PrecedesIrreflexive(desc, k);
        }
      }
    }
    WithKeyNone(col, k, s[p..]);
  }

  lemma {:induction false} WithKeySplice(col: Column, k: Key, a: seq<Expense>, x: Expense, b: seq<Expense>)
    ensures WithKey(col, k, a + [x] + b)
         == WithKey(col, k, a) + (if KeyOf(col, x) == k then [x] else []) + WithKey(col, k, b)
    ensures WithKey(col, k, a + b) == WithKey(col, k, a) + WithKey(col, k, b)
  {
    assert WithKey(col, k, [x]) == (if KeyOf(col, x) == k then [x] else []) by {
      assert [x][..0] == [];
      assert WithKey(col, k, [x][..0]) == [];
    }
    WithKeyConcat(col, k, a + [x], b);
    WithKeyConcat(col, k, a, [x]);
    WithKeyConcat(col, k, a, b);
  }

  /** Splicing `x` in where no later row shares its key adds `x` at the end
      of its own key group and changes no other group. */
  lemma {:induction false} WithKeyInsertedAt(col: Column, k: Key, s: seq<Expense>, x: Expense, p: nat)
    requires p <= |s|
    requires KeyOf(col, x) == k ==> WithKey(col, k, s[p..]) == []
    ensures WithKey(col, k, s[..p] + [x] + s[p..])
         == WithKey(col, k, s) + (if KeyOf(col, x) == k then [x] else [])
  {
    var a, b := s[..p], s[p..];
    assert s == a + b;
    WithKeySplice(col, k, a, x, b);
  }

  /** Inserting into ordered rows keeps every group of equal keys in its
      order and puts `x` last in its own group. */
  lemma {:induction false} InsertWithKey(col: Column, desc: bool, s: seq<Expense>, x: Expense, k: Key)
    requires Ordered(col, desc, s)
    ensures WithKey(col, k, Insert(col, desc, s, x))
         == WithKey(col, k, s) + (if KeyOf(col, x) == k then [x] else [])
  {
    var p := InsertionPoint(col, desc, s, x);
    InsertionPointSpec(col, desc, s, x);
    InsertAt(col, desc, s, x, p);
    NoEqualKeyAfterPoint(col, desc, s, x, p);
    WithKeyInsertedAt(col, k, s, x, p);
  }

  /** The sorted rows are ordered by the column key in the chosen direction. */
  lemma {:induction false} StableSortOrdered(col: Column, desc: bool, rows: seq<Expense>)
    ensures Ordered(col, desc, StableSort(col, desc, rows))
  {
    if rows != [] {
      StableSortOrdered(col, desc, rows[..|rows| - 1]);
      InsertOrdered(col, desc, StableSort(col, desc, rows[..|rows| - 1]), rows[|rows| - 1]);
    }
  }

  /** The sorted rows are a permutation of the rows. */
  lemma {:induction false} StableSortPermutes(col: Column, desc: bool, rows: seq<Expense>)
    ensures multiset(StableSort(col, desc, rows)) == multiset(rows)
  {
    if rows != [] {
      var init, last := rows[..|rows| - 1], rows[|rows| - 1];
      var sortedInit := StableSort(col, desc, init);
      assert multiset(sortedInit) == multiset(init) by {
        StableSortPermutes(col, desc, init);
      }
      assert multiset(Insert(col, desc, sortedInit, last)) == multiset(sortedInit) + multiset{last} by {
        InsertPermutes(col, desc, sortedInit, last);
      }
      assert rows == init + [last];
    }
  }

  /** Stability: rows with equal keys keep their relative order. */
  lemma {:induction false} StableSortStable(col: Column, desc: bool, rows: seq<Expense>, k: Key)
    ensures WithKey(col, k, StableSort(col, desc, rows)) == WithKey(col, k, rows)
  {
    if rows != [] {
      var init, last := rows[..|rows| - 1], rows[|rows| - 1];
      StableSortStable(col, desc, init, k);
      StableSortOrdered(col, desc, init);
      InsertWithKey(col, desc, StableSort(col, desc, init), last, k);
    }
  }

  /** Sorting rows that are already ordered leaves them as they are. */
  lemma {:induction false} StableSortOfOrdered(col: Column, desc: bool, rows: seq<Expense>)
    requires Ordered(col, desc, rows)
    ensures StableSort(col, desc, rows) == rows
  {
    if rows != [] {
      var init, last := rows[..|rows| - 1], rows[|rows| - 1];
      assert Ordered(col, desc, init);
      StableSortOfOrdered(col, desc, init);
      assert forall q :: 0 <= q < |init| ==> init[q] == rows[q];
      InsertAt(col, desc, init, last, |init|);
      assert init[..|init|] + [last] + init[|init|..] == rows;
    }
  }

  /** Sorting one more row inserts it into the sorted prefix. */
  lemma {:induction false} StableSortExtend(col: Column, desc: bool, rows: seq<Expense>, i: nat)
    requires i < |rows|
    ensures StableSort(col, desc, rows[..i + 1]) == Insert(col, desc, StableSort(col, desc, rows[..i]), rows[i])
  {
    assert rows[..i + 1][..i] == rows[..i];
  }

  /** `data.sort(key=..., reverse=desc)` on the displayed rows, as a stable
      insertion sort: each row goes after every row it may follow. */
  method SortRows(col: Column, desc: bool, rows: seq<Expense>) returns (sorted: seq<Expense>)
    ensures sorted == StableSort(col, desc, rows)
    ensures multiset(sorted) == multiset(rows)
    ensures Ordered(col, desc, sorted)
    ensures forall k :: WithKey(col, k, sorted) == WithKey(col, k, rows)
  {
    sorted := [];
    var i := 0;
    while i < |rows|
      invariant 0 <= i <= |rows|
      invariant sorted == StableSort(col, desc, rows[..i])
    {
      var x := rows[i];
      var p := 0;
      while p < |sorted| && !Precedes(desc, KeyOf(col, x), KeyOf(col, sorted[p]))
        invariant 0 <= p <= |sorted|
        invariant forall q :: 0 <= q < p ==> !Precedes(desc, KeyOf(col, x), KeyOf(col, sorted[q]))
      {
        p := p + 1;
      }
      InsertAt(col, desc, sorted, x, p);
      StableSortExtend(col, desc, rows, i);
      sorted := sorted[..p] + [x] + sorted[p..];
      i := i + 1;
    }
    assert rows[..i] == rows;
    StableSortPermutes(col, desc, rows);
    StableSortOrdered(col, desc, rows);
    forall k ensures WithKey(col, k, sorted) == WithKey(col, k, rows) {
      StableSortStable(col, desc, rows, k);
    }
  }

  /** The sort state kept beside the table: the last clicked column (none
      before the first click) and 1 for ascending, -1 for descending. */
  datatype SortState = SortState(column: Option<Column>, order: int)

  /** A click sorts descending exactly when the stored order, read before
      the click updates it, is -1. */
  predicate SortsDescending(st: SortState) {
    st.order == -1
  }

  /** The state update after a click on `col`: the same column flips the
      order, another column becomes the sort column with order 1. */
  function Toggle(st: SortState, col: Column): (r: SortState)
    ensures r.column == Some(col)
    ensures st.column == Some(col) ==> r.order == -st.order
    ensures st.column != Some(col) ==> r.order == 1
    ensures st.order == 1 || st.order == -1 ==> r.order == 1 || r.order == -1
  {
    if st.column == Some(col) then SortState(st.column, -st.order) else SortState(Some(col), 1)
  }

  /** The table rows after a click on `col`. */
  function ClickView(st: SortState, col: Column, rows: seq<Expense>): seq<Expense> {
    StableSort(col, SortsDescending(st), rows)
  }

  /** Because the direction is read before the toggle, the second click on a
      freshly chosen column sorts ascending again and leaves the table as
      the first click left it; only the third click sorts descending. */
  lemma SecondClickStillAscending(st: SortState, col: Column, rows: seq<Expense>)
    requires st.column != Some(col) && st.order == 1
    ensures var st1 := Toggle(st, col);
            var v1 := ClickView(st, col, rows);
            var st2 := Toggle(st1, col);
            && v1 == StableSort(col, false, rows)
            && ClickView(st1, col, v1) == v1
            && st2.order == -1
            && ClickView(st2, col, v1) == StableSort(col, true, v1)
  {
    var v1 := StableSort(col, false, rows);
    StableSortOrdered(col, false, rows);
    StableSortOfOrdered(col, false, v1);
  }

  /** Switching to another column while the stored order is -1 sorts the new
      column descending and resets the stored order to 1. */
  lemma SwitchWhileDescending(st: SortState, col: Column, rows: seq<Expense>)
    requires st.column != Some(col) && st.order == -1
    ensures ClickView(st, col, rows) == StableSort(col, true, rows)
    ensures Toggle(st, col) == SortState(Some(col), 1)
  {
  }
}
