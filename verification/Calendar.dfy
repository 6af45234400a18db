/**
 The date arithmetic behind the digest windows: core/db.py month_bounds and the bounds functions of
 core/digest.py, over the proleptic Gregorian calendar of Python's `date`. A window is a half-open
 range of day ordinals, local midnight to local midnight.
 */
module Calendar {

  datatype Date = Date(year: int, month: int, day: int)

  datatype Period = Weekly | Monthly

  datatype Window = Window(start: int, end: int)

  predicate IsLeap(y: int) {
    y % 4 == 0 && (y % 100 != 0 || y % 400 == 0)
  }

  function DaysInMonth(y: int, m: int): int {
    if m == 2 then (if IsLeap(y) then 29 else 28)
    else if m == 4 || m == 6 || m == 9 || m == 11 then 30
    else 31
  }

  predicate IsDate(d: Date) {
    1 <= d.month <= 12 && 1 <= d.day <= DaysInMonth(d.year, d.month)
  }

  function DaysBeforeYear(y: int): int {
    365 * (y - 1) + (y - 1) / 4 - (y - 1) / 100 + (y - 1) / 400
  }

  function DaysBeforeMonth(y: int, m: int): int
    decreases m
  {
    if m <= 1 then 0 else DaysBeforeMonth(y, m - 1) + DaysInMonth(y, m - 1)
  }

  // date.toordinal(): 0001-01-01 is day 1.
  function Ordinal(d: Date): int {
    DaysBeforeYear(d.year) + DaysBeforeMonth(d.year, d.month) + d.day
  }

  // date.weekday(): Monday is 0.
  function Weekday(ordinal: int): int {
    (ordinal + 6) % 7
  }

  // day.replace(day=1)
  function FirstOf(d: Date): Date {
    Date(d.year, d.month, 1)
  }

  function NextFirst(first: Date): Date {
    if first.month == 12 then Date(first.year + 1, 1, 1) else Date(first.year, first.month + 1, 1)
  }

  // date - timedelta(days=1)
  function PrevDay(d: Date): Date {
    if d.day > 1 then Date(d.year, d.month, d.day - 1)
    else if d.month > 1 then Date(d.year, d.month - 1, DaysInMonth(d.year, d.month - 1))
    else Date(d.year - 1, 12, 31)
  }

  // core/db.py month_bounds
  function MonthBounds(d: Date): (Date, Date) {
    (FirstOf(d), NextFirst(FirstOf(d)))
  }

  function LastWeek(today: Date): Window {
    var start := Ordinal(today) - (Weekday(Ordinal(today)) + 7);
    Window(start, start + 7)
  }

  function LastMonth(today: Date): Window {
    var (first, nextFirst) := MonthBounds(PrevDay(FirstOf(today)));
    Window(Ordinal(first), Ordinal(nextFirst))
  }

  function LastPeriod(kind: Period, today: Date): Window {
    if kind.Monthly? then LastMonth(today) else LastWeek(today)
  }

  // _previous_period_bounds, for the window that starts at `start`
  function PreviousPeriod(kind: Period, start: Date): Window {
    if kind.Weekly? then Window(Ordinal(start) - 7, Ordinal(start))
    else Window(Ordinal(FirstOf(PrevDay(start))), Ordinal(start))
  }

  // ----- months ----------------------------------------------------------------------

  // Months counted from year 0, and the first of each.
  function MonthIndex(d: Date): int {
    12 * d.year + (d.month - 1)
  }

  function MonthFirst(k: int): Date {
    Date(k / 12, k % 12 + 1, 1)
  }

  lemma MonthFirstOfIndex(y: int, m: int)
    requires 1 <= m <= 12
    ensures MonthFirst(12 * y + (m - 1)) == Date(y, m, 1)
  {
    var k := 12 * y + (m - 1);
    assert k / 12 == y;
  }

  lemma Every4(y: int)
    ensures y / 4 - (y - 1) / 4 == if y % 4 == 0 then 1 else 0
  {
  }

  lemma Every100(y: int)
    ensures y / 100 - (y - 1) / 100 == if y % 100 == 0 then 1 else 0
    ensures y % 100 == 0 ==> y % 4 == 0
  {
    assert y == 100 * (y / 100) + y % 100;
    assert y - 1 == 100 * ((y - 1) / 100) + (y - 1) % 100;
  }

  lemma Every400(y: int)
    ensures y / 400 - (y - 1) / 400 == if y % 400 == 0 then 1 else 0
    ensures y % 400 == 0 ==> y % 100 == 0
  {
    assert y == 400 * (y / 400) + y % 400;
    assert y - 1 == 400 * ((y - 1) / 400) + (y - 1) % 400;
  }

  lemma YearLength(y: int)
    ensures DaysBeforeYear(y + 1) == DaysBeforeYear(y) + (if IsLeap(y) then 366 else 365)
  {
    Every4(y);
    Every100(y);
    Every400(y);
  }

  lemma YearOfMonths(y: int)
    ensures DaysBeforeMonth(y, 12) + 31 == if IsLeap(y) then 366 else 365
  {
    assert DaysBeforeMonth(y, 3) == 31 + DaysInMonth(y, 2);
    assert DaysBeforeMonth(y, 6) == DaysBeforeMonth(y, 3) + 92;
    assert DaysBeforeMonth(y, 9) == DaysBeforeMonth(y, 6) + 92;
    assert DaysBeforeMonth(y, 12) == DaysBeforeMonth(y, 9) + 91;
  }

  /** The first of the next month is exactly a month later, in every year, December included. */
  lemma NextFirstIsAMonthLater(first: Date)
    requires 1 <= first.month <= 12 && first.day == 1
    ensures Ordinal(NextFirst(first)) == Ordinal(first) + DaysInMonth(first.year, first.month)
  {
    if first.month == 12 {
      YearLength(first.year);
      YearOfMonths(first.year);
    }
  }

  /** The day before is exactly a day earlier, across months, years and leap days. */
  lemma PrevDayIsADayEarlier(d: Date)
    requires IsDate(d)
    ensures IsDate(PrevDay(d)) && Ordinal(PrevDay(d)) == Ordinal(d) - 1
  {
    var prev := PrevDay(d);
    if d.day == 1 && d.month > 1 {
      assert DaysBeforeMonth(d.year, d.month) == DaysBeforeMonth(d.year, prev.month) + prev.day;
    } else if d.day == 1 {
      YearLength(prev.year);
      YearOfMonths(prev.year);
      assert DaysBeforeMonth(d.year, 1) == 0;
    }
  }

  lemma MonthsFollow(first: Date)
    requires 1 <= first.month <= 12 && first.day == 1
    ensures MonthFirst(MonthIndex(first)) == first
    ensures MonthFirst(MonthIndex(first) + 1) == NextFirst(first)
  {
    MonthFirstOfIndex(first.year, first.month);
    var next := NextFirst(first);
    MonthFirstOfIndex(next.year, next.month);
    assert MonthIndex(next) == MonthIndex(first) + 1;
  }

  // ----- the grid of weeks and months -----------------------------------------------------

  // The first day of the k-th week or month, and which one a date lies in.
  function Start(kind: Period, k: int): int {
    if kind.Monthly? then Ordinal(MonthFirst(k)) else 7 * k + 1
  }

  function Cell(kind: Period, d: Date): int {
    if kind.Monthly? then MonthIndex(d) else (Ordinal(d) - 1) / 7
  }

  // The window just before the k-th week or month.
  function WindowBefore(kind: Period, k: int): Window {
    Window(Start(kind, k - 1), Start(kind, k))
  }

  lemma CellsFollow(kind: Period, k: int)
    ensures Start(kind, k) < Start(kind, k + 1)
  {
    if kind.Monthly? {
      var first := MonthFirst(k);
      assert MonthIndex(first) == k;
      MonthsFollow(first);
      NextFirstIsAMonthLater(first);
    }
  }

  // Facts about any increasing grid of boundaries.
  ghost predicate Increasing(f: int -> int) {
    forall j, k :: k == j + 1 ==> f(j) < f(k)
  }

  lemma {:induction false} IncreasingFar(f: int -> int, j: int, k: int)
    requires Increasing(f) && j < k
    ensures f(j) < f(k)
    decreases k - j
  {
    assert f(k - 1) < f(k);
    if j < k - 1 { IncreasingFar(f, j, k - 1); }
  }

  lemma {:induction false} CellOfDay(f: int -> int, n: int, guess: int) returns (k: int)
    requires Increasing(f)
    ensures f(k) <= n < f(k + 1)
    decreases if n < f(guess) then f(guess) - n else n - f(guess)
  {
    assert f(guess) < f(guess + 1);
    assert f(guess - 1) < f(guess);
    if n < f(guess) {
      if f(guess - 1) <= n { k := guess - 1; } else { k := CellOfDay(f, n, guess - 1); }
    } else if n < f(guess + 1) {
      k := guess;
    } else {
      k := CellOfDay(f, n, guess + 1);
    }
  }

  function Grid(kind: Period): int -> int {
    k => Start(kind, k)
  }

  lemma GridIncreases(kind: Period)
    ensures Increasing(Grid(kind))
  {
    forall j, k | k == j + 1 ensures Grid(kind)(j) < Grid(kind)(k) {
      CellsFollow(kind, j);
    }
  }

  lemma StartsIncrease(kind: Period, j: int, k: int)
    requires j < k
    ensures Start(kind, j) < Start(kind, k)
  {
    GridIncreases(kind);
    IncreasingFar(Grid(kind), j, k);
    assert Grid(kind)(j) == Start(kind, j) && Grid(kind)(k) == Start(kind, k);
  }

  lemma DayHasACell(kind: Period, n: int) returns (k: int)
    ensures Start(kind, k) <= n < Start(kind, k + 1)
  {
    GridIncreases(kind);
    k := CellOfDay(Grid(kind), n, 0);
    assert Grid(kind)(k) == Start(kind, k) && Grid(kind)(k + 1) == Start(kind, k + 1);
  }

  lemma CellIsUnique(kind: Period, n: int, j: int, k: int)
    requires Start(kind, k) <= n < Start(kind, k + 1)
    ensures Start(kind, j) <= n < Start(kind, j + 1) <==> j == k
  {
    if j + 1 < k { StartsIncrease(kind, j + 1, k); }
    if k + 1 < j { StartsIncrease(kind, k + 1, j); }
  }

  /** A date lies in its own week or month. */
  lemma DateInItsCell(kind: Period, d: Date)
    requires IsDate(d)
    ensures Start(kind, Cell(kind, d)) <= Ordinal(d) < Start(kind, Cell(kind, d) + 1)
  {
    if kind.Monthly? {
      MonthsFollow(FirstOf(d));
      NextFirstIsAMonthLater(FirstOf(d));
    }
  }

  /** The window of a day is the week or month just before the one the day lies in. */
  lemma LastPeriodIs(kind: Period, today: Date)
    requires IsDate(today)
    ensures LastPeriod(kind, today) == WindowBefore(kind, Cell(kind, today))
  {
    if kind.Monthly? {
      var last := PrevDay(FirstOf(today));
      MonthsFollow(FirstOf(last));
      MonthsFollow(FirstOf(today));
      assert MonthIndex(last) + 1 == MonthIndex(today);
    }
  }

  // ----- the windows tile time ----------------------------------------------------------

  // The week starts on Monday; a month is a year and a month.
  predicate SamePeriod(kind: Period, a: Date, b: Date) {
    if kind.Monthly? then a.year == b.year && a.month == b.month
    else Ordinal(a) - Weekday(Ordinal(a)) == Ordinal(b) - Weekday(Ordinal(b))
  }

  lemma MondayOfCell(n: int)
    ensures n - Weekday(n) == 7 * ((n - 1) / 7) + 1
  {
  }

  lemma SamePeriodIsSameCell(kind: Period, a: Date, b: Date)
    requires IsDate(a) && IsDate(b)
    ensures SamePeriod(kind, a, b) <==> Cell(kind, a) == Cell(kind, b)
  {
    if kind.Weekly? {
      MondayOfCell(Ordinal(a));
      MondayOfCell(Ordinal(b));
    }
  }

  /** A window is never empty, it ends at or before today, and today lies in the week or month right
      after it. A weekly window is seven days from a Monday. */
  lemma WindowIsTheLastCompleteOne(kind: Period, today: Date)
    requires IsDate(today)
    ensures var w := LastPeriod(kind, today);
            && w.start < w.end <= Ordinal(today)
            && (kind.Weekly? ==> w.end == w.start + 7 && Weekday(w.start) == 0 && Ordinal(today) < w.end + 7)
            && (kind.Monthly? ==> w.end == Ordinal(FirstOf(today)))
  {
    LastPeriodIs(kind, today);
    DateInItsCell(kind, today);
    CellsFollow(kind, Cell(kind, today) - 1);
    if kind.Monthly? {
      MonthsFollow(FirstOf(today));
    } else {
      MondayOfCell(Ordinal(today));
    }
  }

  lemma StartsInOrder(kind: Period, j: int, k: int)
    requires j <= k
    ensures Start(kind, j) <= Start(kind, k)
  {
    if j < k { StartsIncrease(kind, j, k); }
  }

  lemma WindowsInOrder(kind: Period, j: int, k: int)
    ensures WindowBefore(kind, k).start < WindowBefore(kind, k).end
    ensures j < k ==> WindowBefore(kind, j).end <= WindowBefore(kind, k).start
  {
    CellsFollow(kind, k - 1);
    if j < k { StartsInOrder(kind, j, k - 1); }
  }

  /** `now` anywhere in one week or month gives one window, and two dates of different weeks or months
      give windows that share no day. */
  lemma WindowsNeverOverlap(kind: Period, a: Date, b: Date)
    requires IsDate(a) && IsDate(b)
    ensures SamePeriod(kind, a, b) <==> LastPeriod(kind, a) == LastPeriod(kind, b)
    ensures !SamePeriod(kind, a, b) ==>
      || LastPeriod(kind, a).end <= LastPeriod(kind, b).start
      || LastPeriod(kind, b).end <= LastPeriod(kind, a).start
  {
    SamePeriodIsSameCell(kind, a, b);
    LastPeriodIs(kind, a);
    LastPeriodIs(kind, b);
    WindowsInOrder(kind, Cell(kind, a), Cell(kind, b));
    WindowsInOrder(kind, Cell(kind, b), Cell(kind, a));
  }

  /** The previous window ends exactly where this one starts, and it is the window that was due on any
      day inside this one. */
  lemma PreviousWindowAdjoins(kind: Period, start: Date, inside: Date)
    requires IsDate(start) && IsDate(inside) && SamePeriod(kind, start, inside)
    requires if kind.Monthly? then start.day == 1 else Weekday(Ordinal(start)) == 0
    ensures PreviousPeriod(kind, start).end == Ordinal(start)
    ensures PreviousPeriod(kind, start) == LastPeriod(kind, inside)
  {
    SamePeriodIsSameCell(kind, start, inside);
    LastPeriodIs(kind, inside);
    if kind.Monthly? {
      MonthsFollow(start);
      MonthsFollow(FirstOf(PrevDay(start)));
      assert MonthIndex(PrevDay(start)) + 1 == MonthIndex(start);
    } else {
      MondayOfCell(Ordinal(start));
    }
  }

  /** Together the windows cover time: every day lies in the window of every date of the following week
      or month, and in no other window. */
  lemma EveryDayHasOneWindow(kind: Period, n: int) returns (c: int)
    ensures forall today :: IsDate(today) ==>
      (LastPeriod(kind, today).start <= n < LastPeriod(kind, today).end <==> Cell(kind, today) == c)
  {
    var k := DayHasACell(kind, n);
    c := k + 1;
    forall today | IsDate(today)
      ensures LastPeriod(kind, today).start <= n < LastPeriod(kind, today).end <==> Cell(kind, today) == c
    {
      LastPeriodIs(kind, today);
      CellIsUnique(kind, n, Cell(kind, today) - 1, k);
    }
  }
}
