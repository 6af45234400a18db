/**
 How concentrated a follower base is by account age (core/follower_signals.py, base_age_concentration):
 the heaviest six-month window, looked for only at months that have followers.
 */
module AgeWindow {
  import opened Wrappers
  import opened Sorting
  import opened Numbers
  import opened Text

  // One row of the SQL aggregate: a month and how many followers were created in it.
  datatype MonthRow = MonthRow(year: int, month: int, n: nat)

  // `windowShare` is in thousandths.
  datatype Concentration = Concentration(
    followersDated: nat,
    monthsSpanned: nat,
    windowFollowers: nat,
    windowShare: int,
    windowStart: Option<string>,
    concentrated: bool)

  function Index(r: MonthRow): int {
    r.year * 12 + r.month
  }

  // One row a month, none of them empty: the query groups by month.
  predicate Grouped(rows: seq<MonthRow>) {
    && (forall i :: 0 <= i < |rows| ==> 1 <= rows[i].year && 1 <= rows[i].month <= 12 && rows[i].n > 0)
    && (forall i, j :: 0 <= i < j < |rows| ==> Index(rows[i]) != Index(rows[j]))
  }

  function PerIndex(rows: seq<MonthRow>): map<int, nat> {
    if rows == [] then map[]
    else
      var r := rows[|rows| - 1];
      PerIndex(rows[..|rows| - 1])[Index(r) := r.n]
  }

  function Total(rows: seq<MonthRow>): nat {
    if rows == [] then 0 else Total(rows[..|rows| - 1]) + rows[|rows| - 1].n
  }

  function Indexes(rows: seq<MonthRow>): (s: seq<int>)
    ensures |s| == |rows| && forall i :: 0 <= i < |rows| ==> s[i] == Index(rows[i])
  {
    seq(|rows|, i requires 0 <= i < |rows| => Index(rows[i]))
  }

  function Count(perIndex: map<int, nat>, index: int): nat {
    if index in perIndex then perIndex[index] else 0
  }

  // The followers of `months` consecutive months.
  function SumFrom(perIndex: map<int, nat>, start: int, months: nat): nat
    decreases months
  {
    if months == 0 then 0 else Count(perIndex, start) + SumFrom(perIndex, start + 1, months - 1)
  }

  function Window(perIndex: map<int, nat>, start: int): nat {
    SumFrom(perIndex, start, 6)
  }

  // The month an index stands for.
  function YearMonth(index: int): (int, int) {
    ((index - 1) / 12, (index - 1) % 12 + 1)
  }

  // A number with zeros in front, up to a width.
  function Padded(n: nat, width: nat): string {
    var digits := PrintNat(n);
    if |digits| >= width then digits else seq(width - |digits|, i => '0') + digits
  }

  function PrintMonth(year: nat, month: nat): string {
    Padded(year, 4) + "-" + Padded(month, 2)
  }

  // round(best / total, 3) in thousandths.
  function Share(best: nat, total: nat): int
    requires total > 0
  {
    Rounded(best as real / total as real * 1000.0)
  }

  // No window, wherever it starts, holds more than the best; the best starts at a populated month, and it
  // is the earliest of those that hold as much.
  ghost predicate IsBestWindow(perIndex: map<int, nat>, start: int, total: nat) {
    && start in perIndex && total == Window(perIndex, start)
    && (forall s: int :: Window(perIndex, s) <= total)
    && (forall s :: s in perIndex && s < start ==> Window(perIndex, s) < total)
  }

  method WindowSum(perIndex: map<int, nat>, start: int) returns (sum: nat)
    ensures sum == Window(perIndex, start)
  {
    sum := 0;
    for i := 0 to 6
      invariant sum + SumFrom(perIndex, start + i, 6 - i) == Window(perIndex, start)
    {
      sum := sum + Count(perIndex, start + i);
    }
  }

  predicate InMonthOrder(starts: seq<int>) {
    forall i, j :: 0 <= i <= j < |starts| ==> starts[i] <= starts[j]
  }

  ghost predicate Populated(perIndex: map<int, nat>, starts: seq<int>) {
    && (forall s :: s in starts <==> s in perIndex)
    && (forall s :: s in perIndex ==> perIndex[s] > 0)
  }

  // The best of the windows at the first n starts, and the earliest that holds as much.
  predicate BestAmong(perIndex: map<int, nat>, starts: seq<int>, n: nat, total: nat, k: nat)
    requires n <= |starts| && k < |starts|
  {
    if n == 0 then total == 0
    else
      && k < n && total == Window(perIndex, starts[k])
      && (forall i :: 0 <= i < n ==> Window(perIndex, starts[i]) <= total)
      && (forall i :: 0 <= i < k ==> Window(perIndex, starts[i]) < total)
  }

  lemma BestOneMore(perIndex: map<int, nat>, starts: seq<int>, n: nat, total: nat, k: nat)
    requires n < |starts| && k < |starts| && BestAmong(perIndex, starts, n, total, k)
    requires Window(perIndex, starts[n]) > 0
    ensures var w := Window(perIndex, starts[n]);
            if w > total then BestAmong(perIndex, starts, n + 1, w, n) else BestAmong(perIndex, starts, n + 1, total, k)
  {
  }

  lemma BestOfAll(perIndex: map<int, nat>, starts: seq<int>, total: nat, k: nat)
    requires k < |starts| && BestAmong(perIndex, starts, |starts|, total, k)
    requires InMonthOrder(starts) && Populated(perIndex, starts)
    ensures IsBestWindow(perIndex, starts[k], total)
  {
    PopulatedStartsSuffice(perIndex, starts, total);
    forall s | s in perIndex && s < starts[k] ensures Window(perIndex, s) < total {
      var i :| 0 <= i < |starts| && starts[i] == s;
      assert i < k;
    }
  }

  /** The walk over the populated months, in order. */
  method BestWindow(perIndex: map<int, nat>, starts: seq<int>) returns (bestTotal: nat, bestStart: int)
    requires starts != [] && InMonthOrder(starts) && Populated(perIndex, starts)
    ensures IsBestWindow(perIndex, bestStart, bestTotal)
  {
    bestTotal, bestStart := 0, starts[0];
    ghost var k := 0;
    for i := 0 to |starts|
      invariant 0 <= k < |starts| && bestStart == starts[k]
      invariant BestAmong(perIndex, starts, i, bestTotal, k)
    {
      var window := WindowSum(perIndex, starts[i]);
      assert starts[i] in perIndex;
      assert window >= Count(perIndex, starts[i]) > 0;
      BestOneMore(perIndex, starts, i, bestTotal, k);
      if window > bestTotal {
        bestTotal, bestStart := window, starts[i];
        k := i;
      }
    }
    BestOfAll(perIndex, starts, bestTotal, k);
  }

  // The window reported starts at the month of a row, and is the best one.
  ghost predicate Reports(rows: seq<MonthRow>, c: Concentration, r: MonthRow) {
    && r in rows && r.year >= 0 && r.month >= 0 && c.windowStart == Some(PrintMonth(r.year, r.month))
    && IsBestWindow(PerIndex(rows), Index(r), c.windowFollowers)
  }

  method CollectMonths(rows: seq<MonthRow>) returns (perIndex: map<int, nat>, total: nat)
    ensures perIndex == PerIndex(rows) && total == Total(rows)
  {
    perIndex, total := map[], 0;
    for i := 0 to |rows|
      invariant perIndex == PerIndex(rows[..i]) && total == Total(rows[..i])
    {
      assert rows[..i + 1][..i] == rows[..i];
      perIndex := perIndex[Index(rows[i]) := rows[i].n];
      total := total + rows[i].n;
    }
    assert rows[..|rows|] == rows;
  }

  method BaseAgeConcentration(rows: seq<MonthRow>) returns (c: Concentration)
    requires Grouped(rows)
    ensures rows == [] ==> c == Concentration(0, 0, 0, 0, None, false)
    ensures rows != [] ==>
      && c.followersDated == Total(rows) && c.monthsSpanned == |rows|
      && c.windowShare == Share(c.windowFollowers, Total(rows))
      && (c.concentrated <==> Total(rows) >= 500 && 10 * c.windowFollowers >= 6 * Total(rows))
      && exists r :: Reports(rows, c, r)
  {
    var perIndex, total := CollectMonths(rows);
    IndexIsExact(rows);
    if total == 0 { return Concentration(0, 0, 0, 0, None, false); }
    var starts := SortInts(Indexes(rows));
    KeysAreIndexes(rows, starts);
    var bestTotal, bestStart := BestWindow(perIndex, starts);
    ghost var r := RowOfIndex(rows, bestStart);
    var (year, month) := YearMonth(bestStart);
    c := Concentration(total, |rows|, bestTotal, Share(bestTotal, total), Some(PrintMonth(year, month)),
                       total >= 500 && 10 * bestTotal >= 6 * total);
    assert Reports(rows, c, r);
  }

  // ----- the index ------------------------------------------------------------------------

  /** A padded number is read back, and has at least the width asked for. */
  lemma PaddedParses(n: nat, width: nat)
    ensures AreDigits(Padded(n, width)) && ParseNat(Padded(n, width)) == n && |Padded(n, width)| >= width
  {
    ParsePrint(n);
    if |PrintNat(n)| < width { ZerosInFront(width - |PrintNat(n)|, PrintNat(n)); }
  }

  lemma FewDigits(n: nat)
    ensures n < 100 ==> |PrintNat(n)| <= 2
    ensures n < 10_000 ==> |PrintNat(n)| <= 4
  {
    var tens, hundreds, thousands := n / 10, n / 10 / 10, n / 10 / 10 / 10;
    assert n < 10_000 ==> thousands < 10;
    assert thousands < 10 ==> |PrintNat(thousands)| == 1;
    assert n < 10_000 ==> |PrintNat(hundreds)| <= 2;
    assert n < 10_000 ==> |PrintNat(tens)| <= 3;
  }

  lemma {:induction false} ZerosInFront(zeros: nat, digits: string)
    requires AreDigits(digits)
    ensures var s := seq(zeros, i => '0') + digits;
            AreDigits(s) && ParseNat(s) == ParseNat(digits)
  {
    var s, n := seq(zeros, i => '0') + digits, |digits| - 1;
    if n > 0 {
      ZerosInFront(zeros, digits[..n]);
      assert s[..|s| - 1] == seq(zeros, i => '0') + digits[..n];
    } else {
      AllZeros(zeros);
      assert s[..|s| - 1] == seq(zeros, i => '0');
    }
  }

  lemma {:induction false} AllZeros(zeros: nat)
    ensures var s := seq(zeros, i => '0');
            zeros > 0 ==> AreDigits(s) && ParseNat(s) == 0
  {
    if zeros > 1 {
      AllZeros(zeros - 1);
      assert seq(zeros, i => '0')[..zeros - 1] == seq(zeros - 1, i => '0');
    }
  }

  /** The month reported names one month: its text is split at the dash and read back. */
  lemma MonthReadsBack(year: nat, month: nat)
    ensures var (y, m) := Partition(PrintMonth(year, month), "-");
            && AreDigits(y) && AreDigits(m) && ParseNat(y) == year && ParseNat(m) == month
            && (year < 10_000 ==> |y| == 4) && (month < 100 ==> |m| == 2)
  {
    FewDigits(year);
    FewDigits(month);
    PaddedParses(year, 4);
    PaddedParses(month, 2);
    PartitionAt(Padded(year, 4), "-", Padded(month, 2));
  }

  /** The printed year and month are those the index was made from. */
  lemma DecodesExactly(year: int, month: int)
    requires 1 <= month <= 12
    ensures YearMonth(year * 12 + month) == (year, month)
  {
  }

  lemma {:induction false} IndexIsExact(rows: seq<MonthRow>)
    requires Grouped(rows)
    ensures forall s :: s in PerIndex(rows) <==> exists k :: 0 <= k < |rows| && Index(rows[k]) == s
    ensures forall k :: 0 <= k < |rows| ==> PerIndex(rows)[Index(rows[k])] == rows[k].n
    ensures Total(rows) == 0 <==> rows == []
    ensures forall s :: s in PerIndex(rows) ==> PerIndex(rows)[s] > 0
  {
    if rows != [] {
      var front, last := rows[..|rows| - 1], rows[|rows| - 1];
      IndexIsExact(front);
      forall s ensures s in PerIndex(rows) <==> exists k :: 0 <= k < |rows| && Index(rows[k]) == s {
        if k :| 0 <= k < |front| && Index(front[k]) == s { assert Index(rows[k]) == s; }
        if k :| 0 <= k < |rows| && Index(rows[k]) == s {
          if k < |front| { assert Index(front[k]) == s; }
        }
        assert Index(rows[|rows| - 1]) == Index(last);
      }
    }
  }

  lemma RowOfIndex(rows: seq<MonthRow>, index: int) returns (r: MonthRow)
    requires Grouped(rows) && index in PerIndex(rows)
    ensures r in rows && Index(r) == index && YearMonth(index) == (r.year, r.month)
  {
    IndexIsExact(rows);
    var k :| 0 <= k < |rows| && Index(rows[k]) == index;
    r := rows[k];
    DecodesExactly(r.year, r.month);
  }

  lemma KeysAreIndexes(rows: seq<MonthRow>, starts: seq<int>)
    requires Grouped(rows) && rows != [] && starts == SortInts(Indexes(rows))
    ensures starts != [] && forall s :: s in starts <==> s in PerIndex(rows)
  {
    IndexIsExact(rows);
    forall s ensures s in starts <==> s in PerIndex(rows) {
      assert s in starts <==> s in Indexes(rows);
      if k :| 0 <= k < |rows| && Index(rows[k]) == s { assert Indexes(rows)[k] == s; }
    }
  }

  /** The total is the sum of the months. */
  lemma {:induction false} TotalAdds(a: seq<MonthRow>, b: seq<MonthRow>)
    ensures Total([]) == 0 && Total(a + b) == Total(a) + Total(b)
    ensures |b| == 1 ==> Total(b) == b[0].n
  {
    if b == [] {
      assert a + b == a;
    } else {
      var front := b[..|b| - 1];
      TotalAdds(a, front);
      assert (a + b)[..|a + b| - 1] == a + front;
    }
  }

  /** The share is the nearest number of thousandths. */
  lemma ShareIsNearest(best: nat, total: nat)
    requires total > 0
    ensures -0.5 <= Share(best, total) as real - best as real / total as real * 1000.0 <= 0.5
  {
    RoundedIsNearest(best as real / total as real * 1000.0);
  }

  // ----- six-month windows ------------------------------------------------------------------

  /** A window is six months. */
  lemma WindowIs(m: map<int, nat>, s: int)
    ensures Window(m, s) ==
      Count(m, s) + Count(m, s + 1) + Count(m, s + 2) + Count(m, s + 3) + Count(m, s + 4) + Count(m, s + 5)
  {
    var a := s + 3;
    assert SumFrom(m, a + 2, 1) == Count(m, a + 2);
    assert SumFrom(m, a + 1, 2) == Count(m, a + 1) + Count(m, a + 2);
    assert SumFrom(m, a, 3) == Count(m, a) + Count(m, a + 1) + Count(m, a + 2);
    assert SumFrom(m, s + 1, 5) == Count(m, s + 1) + (Count(m, s + 2) + SumFrom(m, a, 3));
  }

  // Sliding past an empty month loses nothing.
  lemma SlidePastEmpty(m: map<int, nat>, s: int)
    requires s !in m
    ensures Window(m, s) <= Window(m, s + 1)
  {
    WindowIs(m, s);
    WindowIs(m, s + 1);
  }

  lemma {:induction false} PopulatedStart(m: map<int, nat>, s: int, k: nat) returns (p: int)
    requires k <= 6
    requires SumFrom(m, s, k) > 0
    ensures p in m && Window(m, s) <= Window(m, p)
    decreases k
  {
    if s in m {
      p := s;
    } else {
      SlidePastEmpty(m, s);
      p := PopulatedStart(m, s + 1, k - 1);
    }
  }

  /** A window that starts anywhere holds no more than some window that starts at a populated month. */
  lemma PopulatedStartsSuffice(m: map<int, nat>, starts: seq<int>, best: nat)
    requires forall s :: s in starts <==> s in m
    requires forall k :: 0 <= k < |starts| ==> Window(m, starts[k]) <= best
    ensures forall s: int :: Window(m, s) <= best
  {
    forall s: int ensures Window(m, s) <= best {
      if Window(m, s) > 0 {
        var p := PopulatedStart(m, s, 6);
        var k :| 0 <= k < |starts| && starts[k] == p;
      }
    }
  }

  lemma {:induction false} SumUpdate(m: map<int, nat>, s: int, k: nat, key: int, n: nat)
    requires key !in m
    ensures SumFrom(m[key := n], s, k) == SumFrom(m, s, k) + if s <= key < s + k then n else 0
    decreases k
  {
    if k > 0 { SumUpdate(m, s + 1, k - 1, key, n); }
  }

  /** The window is a part of the base: its share is at most one. */
  lemma {:induction false} WindowIsPartOfTheBase(rows: seq<MonthRow>, s: int)
    requires Grouped(rows)
    ensures Window(PerIndex(rows), s) <= Total(rows)
  {
    if rows != [] {
      var front, last := rows[..|rows| - 1], rows[|rows| - 1];
      WindowIsPartOfTheBase(front, s);
      IndexIsExact(front);
      SumUpdate(PerIndex(front), s, 6, Index(last), last.n);
    } else {
      EmptySum(s, 6);
    }
  }

  lemma {:induction false} EmptySum(s: int, k: nat)
    ensures SumFrom(map[], s, k) == 0
    decreases k
  {
    if k > 0 { EmptySum(s + 1, k - 1); }
  }
}
