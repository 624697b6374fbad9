/** The data `generate_chart` prepares before plotting: per-category and
    per-date running sums kept in insertion-ordered dictionaries, and the
    dates sorted ascending with their sums for the line chart. */
module Aggregator {
  import opened Text
  import opened Ledger

  /** The two groupings the chart loop builds. */
  datatype Grouping = ByCategory | ByDate

  function GroupKey(g: Grouping, e: Expense): string {
    match g
    case ByCategory => e.category
    case ByDate => e.date
  }

  /** Sum of the amounts of the records whose key is `k`. */
  function GroupSum(g: Grouping, es: seq<Expense>, k: string): real {
    if es == [] then 0.0
    else GroupSum(g, es[..|es| - 1], k) + (if GroupKey(g, es[|es| - 1]) == k then es[|es| - 1].amount else 0.0)
  }

  /** Position of the first record whose key is `k`; `|es|` when none has it. */
  function FirstIndex(g: Grouping, es: seq<Expense>, k: string): (i: nat)
    ensures i <= |es|
  {
    if es == [] then 0
    else if GroupKey(g, es[0]) == k then 0
    else 1 + FirstIndex(g, es[1..], k)
  }

  /** FirstIndex finds the first record with key `k`, and reaches `|es|`
      exactly when no record has that key. */
  lemma {:induction false} FirstIndexMeaning(g: Grouping, es: seq<Expense>, k: string)
    ensures FirstIndex(g, es, k) < |es| <==> exists i :: 0 <= i < |es| && GroupKey(g, es[i]) == k
    ensures FirstIndex(g, es, k) < |es| ==> GroupKey(g, es[FirstIndex(g, es, k)]) == k
    ensures forall i :: 0 <= i < FirstIndex(g, es, k) ==> GroupKey(g, es[i]) != k
  {
    if es != [] && GroupKey(g, es[0]) != k {
      FirstIndexMeaning(g, es[1..], k);
      if exists i :: 0 <= i < |es| && GroupKey(g, es[i]) == k {
        var i :| 0 <= i < |es| && GroupKey(g, es[i]) == k;
        assert es[1..][i - 1] == es[i];
      }
      forall i | 0 <= i < FirstIndex(g, es, k) ensures GroupKey(g, es[i]) != k {
        if i > 0 {
          assert es[i] == es[1..][i - 1];
        }
      }
    }
  }

  /** A Python dict from key to running sum: its keys in insertion order and
      its values. */
  datatype Tally = Tally(keys: seq<string>, sums: map<string, real>)

  /** One pass of the chart loop's body on a dict: a key seen for the first
      time is entered with 0, then the amount is added to the key's value. */
  function Step(t: Tally, k: string, a: real): Tally {
    var t0 := if k in t.sums then t else Tally(t.keys + [k], t.sums[k := 0.0]);
    Tally(t0.keys, t0.sums[k := t0.sums[k] + a])
  }

  /** The dict the chart loop leaves after visiting the records in order. */
  function Tabulate(g: Grouping, es: seq<Expense>): Tally {
    if es == [] then Tally([], map[])
    else Step(Tabulate(g, es[..|es| - 1]), GroupKey(g, es[|es| - 1]), es[|es| - 1].amount)
  }

  /** The dict's keys are distinct and are exactly the keys it maps. */
  ghost predicate WellFormed(t: Tally) {
    && NoDuplicates(t.keys)
    && (forall k :: k in t.sums <==> k in t.keys)
  }

  lemma {:induction false} FirstIndexAppend(g: Grouping, es: seq<Expense>, e: Expense, k: string)
    ensures FirstIndex(g, es + [e], k)
         == if FirstIndex(g, es, k) < |es| then FirstIndex(g, es, k)
            else if GroupKey(g, e) == k then |es| else |es| + 1
  {
    if es != [] && GroupKey(g, es[0]) != k {
      assert (es + [e])[1..] == es[1..] + [e];
      FirstIndexAppend(g, es[1..], e, k);
    }
  }

  lemma StepWellFormed(t: Tally, k: string, a: real)
    requires WellFormed(t)
    ensures WellFormed(Step(t, k, a))
  {
  }

  /** The dict's keys are distinct and are exactly the keys it maps. */
  lemma {:induction false} TabulateWellFormed(g: Grouping, es: seq<Expense>)
    ensures WellFormed(Tabulate(g, es))
  {
    if es != [] {
      var init, e := es[..|es| - 1], es[|es| - 1];
      TabulateWellFormed(g, init);
      StepWellFormed(Tabulate(g, init), GroupKey(g, e), e.amount);
    }
  }

  /** `ks` lists every key that occurs in `es` and no other, each in the
      order of its first appearance. */
  ghost predicate FirstAppearanceOrder(g: Grouping, es: seq<Expense>, ks: seq<string>) {
    && (forall k :: k in ks <==> FirstIndex(g, es, k) < |es|)
    && (forall i, j :: 0 <= i < j < |ks| ==> FirstIndex(g, es, ks[i]) < FirstIndex(g, es, ks[j]))
  }

  /** Appending a record keeps the keys in first-appearance order when its
      key is appended only if it is new. */
  lemma FirstAppearanceStep(g: Grouping, ks: seq<string>, init: seq<Expense>, e: Expense)
    requires FirstAppearanceOrder(g, init, ks)
    ensures var k := GroupKey(g, e);
            FirstAppearanceOrder(g, init + [e], if k in ks then ks else ks + [k])
  {
    var k := GroupKey(g, e);
    var ks' := if k in ks then ks else ks + [k];
    forall x ensures FirstIndex(g, init + [e], x)
                  == if FirstIndex(g, init, x) < |init| then FirstIndex(g, init, x)
                     else if k == x then |init| else |init| + 1 {
      FirstIndexAppend(g, init, e, x);
    }
    forall i, j | 0 <= i < j < |ks'|
      ensures FirstIndex(g, init + [e], ks'[i]) < FirstIndex(g, init + [e], ks'[j])
    {
      assert ks'[i] == ks[i] && ks[i] in ks;
      if j < |ks| {
        assert ks'[j] == ks[j] && ks[j] in ks;
      } else {
        assert ks'[j] == k && k !in ks;
      }
    }
  }

  /** The dict's keys: every key that occurs in the records and no other,
      in the order of first appearance. */
  lemma {:induction false} TabulateKeys(g: Grouping, es: seq<Expense>)
    ensures FirstAppearanceOrder(g, es, Tabulate(g, es).keys)
  {
    if es != [] {
      var init, e := es[..|es| - 1], es[|es| - 1];
      assert es == init + [e];
      var t := Tabulate(g, init);
      TabulateKeys(g, init);
      TabulateWellFormed(g, init);
      StepShape(t, GroupKey(g, e), e.amount);
      FirstAppearanceStep(g, t.keys, init, e);
    }
  }

  /** Every value of the dict is the sum of the amounts recorded under its
      key, and a key outside the dict has no amount recorded. */
  lemma {:induction false} TabulateSums(g: Grouping, es: seq<Expense>)
    ensures forall k :: GroupSum(g, es, k) == if k in Tabulate(g, es).sums then Tabulate(g, es).sums[k] else 0.0
  {
    if es != [] {
      TabulateSums(g, es[..|es| - 1]);
    }
  }

  /** Sum of the values of keys `ks` in `m`, in the order of `ks`. */
  function SumValues(ks: seq<string>, m: map<string, real>): real
    requires forall k :: k in ks ==> k in m
  {
    if ks == [] then 0.0 else SumValues(ks[..|ks| - 1], m) + m[ks[|ks| - 1]]
  }

  lemma {:induction false} SumValuesConcat(xs: seq<string>, ys: seq<string>, m: map<string, real>)
    requires forall k :: k in xs + ys ==> k in m
    ensures SumValues(xs + ys, m) == SumValues(xs, m) + SumValues(ys, m)
  {
    if ys == [] {
      assert xs + ys == xs;
    } else {
      assert (xs + ys)[..|xs + ys| - 1] == xs + ys[..|ys| - 1];
      SumValuesConcat(xs, ys[..|ys| - 1], m);
    }
  }

  /** Changing the value of a key outside `ks` leaves their sum alone. */
  lemma {:induction false} SumValuesOtherKey(ks: seq<string>, m: map<string, real>, k: string, v: real)
    requires forall x :: x in ks ==> x in m
    requires k !in ks
    ensures SumValues(ks, m[k := v]) == SumValues(ks, m)
  {
    if ks != [] {
      SumValuesOtherKey(ks[..|ks| - 1], m, k, v);
    }
  }

  /** Adding `a` to the value of one key that occurs once in `ks` adds `a`
      to their sum. */
  lemma {:induction false} SumValuesBump(ks: seq<string>, m: map<string, real>, k: string, a: real)
    requires forall x :: x in ks ==> x in m
    requires NoDuplicates(ks) && k in ks
    ensures SumValues(ks, m[k := m[k] + a]) == SumValues(ks, m) + a
  {
    var init, last := ks[..|ks| - 1], ks[|ks| - 1];
    if last == k {
      assert k !in init;
      SumValuesOtherKey(init, m, k, m[k] + a);
    } else {
      SumValuesBump(init, m, k, a);
    }
  }

  lemma StepShape(t: Tally, k: string, a: real)
    ensures k in t.sums ==> Step(t, k, a) == Tally(t.keys, t.sums[k := t.sums[k] + a])
    ensures k !in t.sums ==> Step(t, k, a) == Tally(t.keys + [k], t.sums[k := a])
  {
  }

  /** One step of the loop adds its amount to the sum of the dict's values. */
  lemma StepSum(t: Tally, k: string, a: real)
    requires WellFormed(t)
    ensures forall x :: x in Step(t, k, a).keys ==> x in Step(t, k, a).sums
    ensures SumValues(Step(t, k, a).keys, Step(t, k, a).sums) == SumValues(t.keys, t.sums) + a
  {
    StepShape(t, k, a);
    if k in t.sums {
      SumValuesBump(t.keys, t.sums, k, a);
    } else {
      SumValuesOtherKey(t.keys, t.sums, k, a);
      var ks := t.keys + [k];
      assert ks[..|ks| - 1] == t.keys;
    }
  }

  /** Partition: the values of the dict add up to the total of the records. */
  lemma {:induction false} TabulatePartition(g: Grouping, es: seq<Expense>)
    ensures forall k :: k in Tabulate(g, es).keys ==> k in Tabulate(g, es).sums
    ensures SumValues(Tabulate(g, es).keys, Tabulate(g, es).sums) == Total(es)
  {
    TabulateWellFormed(g, es);
    if es != [] {
      var init, e := es[..|es| - 1], es[|es| - 1];
      TabulatePartition(g, init);
      TabulateWellFormed(g, init);
      StepSum(Tabulate(g, init), GroupKey(g, e), e.amount);
    }
  }

  /** Removing one key from the sequence removes its value from the sum. */
  lemma SumValuesRemove(ks: seq<string>, m: map<string, real>, i: nat)
    requires forall x :: x in ks ==> x in m
    requires i < |ks|
    ensures SumValues(ks, m) == SumValues(ks[..i] + ks[i + 1..], m) + m[ks[i]]
  {
    assert ks == ks[..i] + [ks[i]] + ks[i + 1..];
    SumValuesConcat(ks[..i] + [ks[i]], ks[i + 1..], m);
    SumValuesConcat(ks[..i], [ks[i]], m);
    SumValuesConcat(ks[..i], ks[i + 1..], m);
    assert [ks[i]][..0] == [];
  }

  /** Taking the last key off `xs` and the same key off `ys` keeps two
      sequences with equal multisets. */
  lemma RemoveMatching(xs: seq<string>, ys: seq<string>, i: nat)
    requires multiset(xs) == multiset(ys) && xs != []
    requires i < |ys| && ys[i] == xs[|xs| - 1]
    ensures multiset(xs[..|xs| - 1]) == multiset(ys[..i] + ys[i + 1..])
  {
    var init, last := xs[..|xs| - 1], xs[|xs| - 1];
    assert xs == init + [last];
    assert ys == ys[..i] + [last] + ys[i + 1..];
    var rest := multiset(ys[..i] + ys[i + 1..]);
    assert multiset(ys) == rest + multiset{last};
    assert multiset(xs) == multiset(init) + multiset{last};
    assert rest == (rest + multiset{last}) - multiset{last};
    assert multiset(init) == (multiset(init) + multiset{last}) - multiset{last};
  }

  /** The sum of the values does not depend on the order of the keys. */
  lemma {:induction false} SumValuesPermutation(xs: seq<string>, ys: seq<string>, m: map<string, real>)
    requires forall x :: x in xs ==> x in m
    requires multiset(xs) == multiset(ys)
    ensures forall y :: y in ys ==> y in m
    ensures SumValues(xs, m) == SumValues(ys, m)
    decreases |xs|
  {
    forall y | y in ys ensures y in m {
      assert y in multiset(ys);
    }
    if xs != [] {
      var init, last := xs[..|xs| - 1], xs[|xs| - 1];
      assert last in multiset(ys) by {
        assert last in xs;
      }
      var i :| 0 <= i < |ys| && ys[i] == last;
      var rest := ys[..i] + ys[i + 1..];
      RemoveMatching(xs, ys, i);
      forall x | x in init ensures x in m {
        assert x in xs;
      }
      SumValuesPermutation(init, rest, m);
      SumValuesRemove(ys, m, i);
    }
  }

  /** Strictly ascending in Python's string order. */
  predicate StrictlyAscending(s: seq<string>) {
    forall i, j :: 0 <= i < j < |s| ==> Less(s[i], s[j])
  }

  /** A strictly ascending list is determined by its elements: there is
      only one way to list a set of strings in ascending order. */
  lemma {:induction false} AscendingUnique(a: seq<string>, b: seq<string>)
    requires StrictlyAscending(a) && StrictlyAscending(b)
    requires forall k :: k in a <==> k in b
    ensures a == b
  {
    assert a != [] ==> a[0] in a;
    assert b != [] ==> b[0] in b;
    if a != [] && b != [] {
      assert a[0] in b && b[0] in a;
      if a[0] != b[0] {
        assert Less(b[0], a[0]) && Less(a[0], b[0]);
        LessAsymmetric(a[0], b[0]);
      }
      LessIrreflexive(a[0]);
      forall k ensures k in a[1..] <==> k in b[1..] {
        if k in a[1..] {
          var i :| 1 <= i < |a| && a[i] == k;
          assert Less(a[0], a[i]);
          assert k in a && k in b;
          var j :| 0 <= j < |b| && b[j] == k;
          assert j != 0;
          assert b[1..][j - 1] == k;
        }
        if k in b[1..] {
          var j :| 1 <= j < |b| && b[j] == k;
          assert Less(b[0], b[j]);
          assert k in b && k in a;
          var i :| 0 <= i < |a| && a[i] == k;
          assert i != 0;
          assert a[1..][i - 1] == k;
        }
      }
      AscendingUnique(a[1..], b[1..]);
      assert a == [a[0]] + a[1..] && b == [b[0]] + b[1..];
    }
  }

  function InsertString(s: seq<string>, x: string): seq<string> {
    if s == [] then [x]
    else if Less(x, s[0]) then [x] + s
    else [s[0]] + InsertString(s[1..], x)
  }

  /** Python's `sorted()` on a list of strings, as an insertion sort. */
  function SortStrings(s: seq<string>): seq<string> {
    if s == [] then [] else InsertString(SortStrings(s[..|s| - 1]), s[|s| - 1])
  }

  lemma {:induction false} InsertStringPermutes(s: seq<string>, x: string)
    ensures multiset(InsertString(s, x)) == multiset(s) + multiset{x}
  {
    if s != [] && !Less(x, s[0]) {
      InsertStringPermutes(s[1..], x);
      assert s == [s[0]] + s[1..];
    }
  }

  lemma {:induction false} InsertStringAscending(s: seq<string>, x: string)
    requires StrictlyAscending(s) && x !in s
    ensures StrictlyAscending(InsertString(s, x))
  {
    if s == [] {
    } else if Less(x, s[0]) {
      var r := [x] + s;
      forall i, j | 0 <= i < j < |r| ensures Less(r[i], r[j]) {
        if i == 0 && j > 1 {
          LessTransitive(x, s[0], s[j - 1]);
        }
      }
    } else {
      var tail := InsertString(s[1..], x);
      InsertStringAscending(s[1..], x);
      InsertStringPermutes(s[1..], x);
      LessTotal(x, s[0]);
      var r := [s[0]] + tail;
      forall i, j | 0 <= i < j < |r| ensures Less(r[i], r[j]) {
        if i == 0 {
          assert r[j] in multiset(tail);
          assert r[j] == x || r[j] in s[1..];
        }
      }
    }
  }

  /** The sorted keys are the same keys, strictly ascending when they were
      distinct. */
  lemma {:induction false} SortStringsCorrect(s: seq<string>)
    ensures multiset(SortStrings(s)) == multiset(s)
    ensures NoDuplicates(s) ==> StrictlyAscending(SortStrings(s))
  {
    if s != [] {
      var init, last := s[..|s| - 1], s[|s| - 1];
      assert s == init + [last];
      SortStringsCorrect(init);
      InsertStringPermutes(SortStrings(init), last);
      if NoDuplicates(s) {
        assert NoDuplicates(init);
        assert last !in init;
        assert last !in multiset(SortStrings(init));
        InsertStringAscending(SortStrings(init), last);
      }
    }
  }

  /** The data handed to the plotting library. */
  datatype ChartData = ChartData(byCategory: Tally, byDate: Tally, dates: seq<string>, dateSums: seq<real>)

  /** The sorted date keys are the dates that occur, each once, ascending,
      and their values still add up to the total. */
  lemma SortedDatesCorrect(es: seq<Expense>)
    ensures var t := Tabulate(ByDate, es);
            var dates := SortStrings(t.keys);
            && StrictlyAscending(dates)
            && (forall k :: k in dates <==> k in t.keys)
            && (forall k :: k in dates ==> k in t.sums)
            && SumValues(dates, t.sums) == Total(es)
  {
    var t := Tabulate(ByDate, es);
    TabulateWellFormed(ByDate, es);
    TabulatePartition(ByDate, es);
    SortStringsCorrect(t.keys);
    var dates := SortStrings(t.keys);
    forall k ensures k in dates <==> k in t.keys {
      assert k in dates <==> k in multiset(dates);
      assert k in t.keys <==> k in multiset(t.keys);
    }
    SumValuesPermutation(t.keys, dates, t.sums);
  }

  /** Visiting record `i` after the first `i` is one more Step on each
      dict. */
  lemma TabulateExtend(es: seq<Expense>, i: nat)
    requires i < |es|
    ensures Tabulate(ByCategory, es[..i + 1]) == Step(Tabulate(ByCategory, es[..i]), es[i].category, es[i].amount)
    ensures Tabulate(ByDate, es[..i + 1]) == Step(Tabulate(ByDate, es[..i]), es[i].date, es[i].amount)
  {
    assert es[..i + 1][..i] == es[..i];
  }

  /** What the chart data built from the two dicts satisfies: categories
      in first-appearance order summing to the total; dates that occur, each
      once, ascending, each paired with its own sum, summing to the total. */
  lemma ChartFacts(es: seq<Expense>)
    ensures var c := Tabulate(ByCategory, es);
            && FirstAppearanceOrder(ByCategory, es, c.keys)
            && (forall k :: k in c.keys ==> k in c.sums && c.sums[k] == GroupSum(ByCategory, es, k))
            && SumValues(c.keys, c.sums) == Total(es)
    ensures var d := Tabulate(ByDate, es);
            var dates := SortStrings(d.keys);
            && StrictlyAscending(dates)
            && (forall k :: k in dates <==> FirstIndex(ByDate, es, k) < |es|)
            && (forall k :: k in dates ==> k in d.sums && d.sums[k] == GroupSum(ByDate, es, k))
            && SumValues(dates, d.sums) == Total(es)
  {
    TabulateKeys(ByCategory, es);
    TabulateWellFormed(ByCategory, es);
    TabulatePartition(ByCategory, es);
    TabulateSums(ByCategory, es);
    SortedDatesCorrect(es);
    TabulateKeys(ByDate, es);
    TabulateSums(ByDate, es);
  }

  /** Each date's value in the dict is what that date's records sum to. */
  lemma DateSumsMatch(es: seq<Expense>, dates: seq<string>, sums: map<string, real>, dateSums: seq<real>)
    requires forall k :: k in dates ==> k in sums && sums[k] == GroupSum(ByDate, es, k)
    requires dateSums == seq(|dates|, j requires 0 <= j < |dates| => sums[dates[j]])
    ensures forall i :: 0 <= i < |dates| ==> dateSums[i] == GroupSum(ByDate, es, dates[i])
  {
    forall i | 0 <= i < |dates| ensures dateSums[i] == GroupSum(ByDate, es, dates[i]) {
      assert dates[i] in dates;
    }
  }

  /** The statement form of Step, as the chart loop writes it:
      `if key not in d: d[key] = 0` followed by `d[key] += amount`. */
  method AddTo(d: Tally, key: string, amount: real) returns (r: Tally)
    ensures r == Step(d, key, amount)
  {
    r := d;
    if key !in r.sums {
      r := Tally(r.keys + [key], r.sums[key := 0.0]);
    }
    r := Tally(r.keys, r.sums[key := r.sums[key] + amount]);
  }

  /** The preparation part of generate_chart: refused on an empty ledger,
      otherwise one pass over the records fills both dicts, then the dates
      are sorted and paired with their sums. */
  method GroupExpenses(es: seq<Expense>) returns (r: Option<ChartData>)
    ensures r.None? <==> es == []
    ensures r.Some? ==> (r.value.byCategory == Tabulate(ByCategory, es)
                         && r.value.byDate == Tabulate(ByDate, es))
    ensures r.Some? ==> var d := r.value;
      && FirstAppearanceOrder(ByCategory, es, d.byCategory.keys)
      && (forall k :: k in d.byCategory.keys ==> k in d.byCategory.sums
                                                 && d.byCategory.sums[k] == GroupSum(ByCategory, es, k))
      && SumValues(d.byCategory.keys, d.byCategory.sums) == Total(es)
    ensures r.Some? ==> var d := r.value;
      && StrictlyAscending(d.dates)
      && (forall k :: k in d.dates <==> FirstIndex(ByDate, es, k) < |es|)
      && |d.dateSums| == |d.dates|
      && (forall i :: 0 <= i < |d.dates| ==> d.dateSums[i] == GroupSum(ByDate, es, d.dates[i]))
    ensures r.Some? ==> var d := r.value;
      && (forall k :: k in d.dates ==> k in d.byDate.sums)
      && SumValues(d.dates, d.byDate.sums) == Total(es)
  {
    if es == [] {
      return None;
    }
    var byCategory := Tally([], map[]);
    var byDate := Tally([], map[]);
    var i := 0;
    while i < |es|
      invariant 0 <= i <= |es|
      invariant byCategory == Tabulate(ByCategory, es[..i])
      invariant byDate == Tabulate(ByDate, es[..i])
    {
      var e := es[i];
      byCategory := AddTo(byCategory, e.category, e.amount);
      byDate := AddTo(byDate, e.date, e.amount);
      TabulateExtend(es, i);
      i := i + 1;
    }
    assert es[..i] == es;
    var dates := SortStrings(byDate.keys);
    ChartFacts(es);
    var dateSums := seq(|dates|, j requires 0 <= j < |dates| => byDate.sums[dates[j]]);
    DateSumsMatch(es, dates, byDate.sums, dateSums);
    r := Some(ChartData(byCategory, byDate, dates, dateSums));
  }
}
