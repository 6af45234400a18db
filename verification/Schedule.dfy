/** core/schedule.py: when the next live of a channel is expected, in UTC. */
module Schedule {
  import opened Wrappers
  import opened Sorting
  import opened Sequences

  const SEARCH_DAYS: nat := 8

  // A datetime in UTC: its date, as days since 1970-01-01, the minute of the day, and the microseconds
  // since that minute.
  datatype Stamp = Stamp(day: int, minute: int, micros: nat)

  type Moment = m: Stamp | 0 <= m.minute < 1440 witness Stamp(0, 0, 0)

  predicate Before(a: Moment, b: Moment) {
    || a.day < b.day
    || (a.day == b.day && a.minute < b.minute)
    || (a.day == b.day && a.minute == b.minute && a.micros < b.micros)
  }

  function PlusDays(m: Moment, days: int): Moment {
    m.(day := m.day + days)
  }

  // Monday is 0; day 0 was a Thursday.
  function Weekday(day: int): int { (day + 3) % 7 }

  function AtMinute(day: int, minute: int): Moment
    requires 0 <= minute < 1440
  {
    Stamp(day, minute, 0)
  }

  // The start minutes recorded under one weekday, in history order.
  function MinutesOn(past: seq<Moment>, w: int): (r: seq<int>)
    ensures forall m :: m in r ==> 0 <= m < 1440
  {
    if past == [] then []
    else
      var n := |past| - 1;
      MinutesOn(past[..n], w) + if Weekday(past[n].day) == w then [past[n].minute] else []
  }

  // int(statistics.median(minutes))
  function Typical(minutes: seq<int>): (m: int)
    requires minutes != [] && forall m :: m in minutes ==> 0 <= m < 1440
    ensures 0 <= m < 1440
  {
    var s := SortInts(minutes);
    var n := |s|;
    assert s[n / 2] in s;
    if n % 2 == 1 then s[n / 2]
    else
      assert s[n / 2 - 1] in s;
      (s[n / 2 - 1] + s[n / 2]) / 2
  }

  // The moment of a day at which its weekday's lives start, if any ever did.
  function Slot(past: seq<Moment>, day: int): Option<Moment> {
    var minutes := MinutesOn(past, Weekday(day));
    if minutes == [] then None else Some(AtMinute(day, Typical(minutes)))
  }

  // The slot of each day; a search looks at one day after the other.
  type Slots = int -> Option<Moment>

  function SlotsOf(past: seq<Moment>): Slots {
    day => Slot(past, day)
  }

  function Candidate(slots: Slots, now: Moment, day: int): seq<Moment> {
    if slots(day).Some? && Before(now, slots(day).value) then [slots(day).value] else []
  }

  // The candidates of the days from today until a day, excluded.
  function Candidates(slots: Slots, now: Moment, until: int): seq<Moment>
    decreases until - now.day
  {
    if until <= now.day then [] else Candidates(slots, now, until - 1) + Candidate(slots, now, until - 1)
  }

  function Least(s: seq<Moment>): Moment
    requires s != []
  {
    if |s| == 1 then s[0] else var m := Least(s[..|s| - 1]); if Before(s[|s| - 1], m) then s[|s| - 1] else m
  }

  function Greatest(s: seq<Moment>): Moment
    requires s != []
  {
    if |s| == 1 then s[0] else var m := Greatest(s[..|s| - 1]); if Before(m, s[|s| - 1]) then s[|s| - 1] else m
  }

  function Upcoming(now: Moment, past: seq<Moment>): seq<Moment> {
    Candidates(SlotsOf(past), now, now.day + SEARCH_DAYS)
  }

  function NextLive(now: Moment, past: seq<Moment>): Moment {
    if past == [] then PlusDays(now, 1)
    else if Upcoming(now, past) != [] then Least(Upcoming(now, past))
    else PlusDays(Greatest(past), 1)
  }

  // The dict of start minutes by weekday: a key for every weekday that has any.
  ghost predicate Grouped(past: seq<Moment>, byWeekday: map<int, seq<int>>) {
    && (forall w :: w in byWeekday <==> MinutesOn(past, w) != [])
    && (forall w :: w in byWeekday ==> byWeekday[w] == MinutesOn(past, w))
  }

  lemma MinutesSnoc(past: seq<Moment>, m: Moment, w: int)
    ensures MinutesOn(past + [m], w) == MinutesOn(past, w) + if Weekday(m.day) == w then [m.minute] else []
  {
    assert (past + [m])[..|past|] == past;
  }

  // One more start under its weekday.
  function Filed(byWeekday: map<int, seq<int>>, m: Moment): map<int, seq<int>> {
    var w := Weekday(m.day);
    byWeekday[w := (if w in byWeekday then byWeekday[w] else []) + [m.minute]]
  }

  lemma GroupOneMore(past: seq<Moment>, i: nat, byWeekday: map<int, seq<int>>)
    requires i < |past| && Grouped(past[..i], byWeekday)
    ensures Grouped(past[..i + 1], Filed(byWeekday, past[i]))
  {
    var m, filed := past[i], Filed(byWeekday, past[i]);
    assert past[..i + 1] == past[..i] + [m];
    forall v
      ensures v in filed <==> MinutesOn(past[..i + 1], v) != []
      ensures v in filed ==> filed[v] == MinutesOn(past[..i + 1], v)
    {
      MinutesSnoc(past[..i], m, v);
    }
  }

  /** The first loop: start minutes by weekday. */
  method GroupByWeekday(past: seq<Moment>) returns (byWeekday: map<int, seq<int>>)
    ensures Grouped(past, byWeekday)
  {
    byWeekday := map[];
    assert past[..0] == [];
    for i := 0 to |past|
      invariant Grouped(past[..i], byWeekday)
    {
      GroupOneMore(past, i, byWeekday);
      var w := Weekday(past[i].day);
      byWeekday := byWeekday[w := (if w in byWeekday then byWeekday[w] else []) + [past[i].minute]];
    }
    assert past[..|past|] == past;
  }

  predicate Minutes(minutes: seq<int>) {
    minutes != [] && forall m :: m in minutes ==> 0 <= m < 1440
  }

  // What the dict answers for a day is the day's slot.
  predicate ServesDay(byWeekday: map<int, seq<int>>, slots: Slots, day: int) {
    var w := Weekday(day);
    if w in byWeekday then Minutes(byWeekday[w]) && slots(day) == Some(AtMinute(day, Typical(byWeekday[w])))
    else slots(day) == None
  }

  ghost predicate Serves(byWeekday: map<int, seq<int>>, slots: Slots) {
    forall day :: ServesDay(byWeekday, slots, day)
  }

  lemma GroupedServes(past: seq<Moment>, byWeekday: map<int, seq<int>>)
    requires Grouped(past, byWeekday)
    ensures Serves(byWeekday, SlotsOf(past))
  {
    forall day ensures ServesDay(byWeekday, SlotsOf(past), day) {
      assert SlotsOf(past)(day) == Slot(past, day);
    }
  }

  /** The typical start of a day's weekday, read from the dict. */
  method GroupedSlot(byWeekday: map<int, seq<int>>, day: int, ghost slots: Slots) returns (slot: Option<Moment>)
    requires Serves(byWeekday, slots)
    ensures slot == slots(day)
  {
    assert ServesDay(byWeekday, slots, day);
    if Weekday(day) !in byWeekday { return None; }
    return Some(AtMinute(day, Typical(byWeekday[Weekday(day)])));
  }

  /** The second loop: one candidate a day, for the days searched. */
  method CollectCandidates(now: Moment, byWeekday: map<int, seq<int>>, ghost slots: Slots)
    returns (candidates: seq<Moment>)
    requires Serves(byWeekday, slots)
    ensures candidates == Candidates(slots, now, now.day + SEARCH_DAYS)
  {
    candidates := [];
    var offset := 0;
    while offset < SEARCH_DAYS
      invariant 0 <= offset <= SEARCH_DAYS
      invariant candidates == Candidates(slots, now, now.day + offset)
    {
      var day := now.day + offset;
      OneMoreDay(slots, now, day);
      var slot := GroupedSlot(byWeekday, day, slots);
      if slot.Some? && Before(now, slot.value) {
        candidates := candidates + [slot.value];
      }
      offset := offset + 1;
    }
  }

  lemma OneMoreDay(slots: Slots, now: Moment, day: int)
    requires now.day <= day
    ensures slots(day).Some? && Before(now, slots(day).value) ==>
      Candidates(slots, now, day + 1) == Candidates(slots, now, day) + [slots(day).value]
    ensures slots(day).None? || !Before(now, slots(day).value) ==>
      Candidates(slots, now, day + 1) == Candidates(slots, now, day)
  {
  }

  method UpcomingSlots(now: Moment, past: seq<Moment>) returns (candidates: seq<Moment>)
    ensures candidates == Upcoming(now, past)
  {
    var byWeekday := GroupByWeekday(past);
    GroupedServes(past, byWeekday);
    candidates := CollectCandidates(now, byWeekday, SlotsOf(past));
  }

  method EstimateNextLive(now: Moment, past: seq<Moment>) returns (r: Moment)
    ensures r == NextLive(now, past)
  {
    if past == [] { return PlusDays(now, 1); }
    var candidates := UpcomingSlots(now, past);
    if candidates != [] { return Least(candidates); }
    return PlusDays(Greatest(past), 1);
  }

  // ----- the typical minute is a median ------------------------------------------

  /** At least half of the recorded starts are not later than the typical minute, and at least half are
      not earlier. */
  lemma TypicalIsAMedian(minutes: seq<int>)
    requires minutes != [] && forall m :: m in minutes ==> 0 <= m < 1440
    ensures 2 * AtMost(minutes, Typical(minutes)) >= |minutes|
    ensures 2 * AtLeast(minutes, Typical(minutes)) >= |minutes|
  {
    var s, t, n := SortInts(minutes), Typical(minutes), |minutes|;
    var low, high := (n - 1) / 2, n / 2;
    assert s[low] <= t <= s[high];
    MiddleSplits(minutes, low, t);
    MiddleSplits(minutes, high, t);
  }

  /** And it is the median itself, cut to a whole minute. */
  lemma TypicalIs(minutes: seq<int>, a: int, b: int)
    requires minutes != [] && forall m :: m in minutes ==> 0 <= m < 1440
    requires RankIs(minutes, (|minutes| - 1) / 2, a) && RankIs(minutes, |minutes| / 2, b)
    ensures Typical(minutes) == (a + b) / 2
  {
    DoubledMedianIs(minutes, a, b);
    HalfOfDoubled(minutes);
  }

  lemma HalfOfDoubled(minutes: seq<int>)
    requires minutes != [] && forall m :: m in minutes ==> 0 <= m < 1440
    ensures Typical(minutes) == DoubledMedian(minutes) / 2
  {
    var n := |minutes|;
    assert n % 2 == 1 ==> (n - 1) / 2 == n / 2;
    assert n % 2 == 0 ==> (n - 1) / 2 == n / 2 - 1;
  }

  // The starts a multiple of seven days away from a day.
  function OnSameWeekday(past: seq<Moment>, day: int): int -> bool {
    i => 0 <= i < |past| && (past[i].day - day) % 7 == 0
  }

  lemma SameWeekday(a: int, b: int)
    ensures Weekday(a) == Weekday(b) <==> (a - b) % 7 == 0
  {
  }

  predicate AreMinutes(minutes: seq<int>, past: seq<Moment>, idx: seq<int>) {
    && |minutes| == |idx|
    && forall k :: 0 <= k < |idx| ==> 0 <= idx[k] < |past| && minutes[k] == past[idx[k]].minute
  }

  lemma NextMinute(minutes: seq<int>, past: seq<Moment>, idx: seq<int>, n: nat)
    requires AreMinutes(minutes, past, idx) && n < |past|
    ensures AreMinutes(minutes + [past[n].minute], past, idx + [n])
  {
  }

  lemma {:induction false} MinutesAre(past: seq<Moment>, day: int, n: nat)
    requires n <= |past|
    ensures AreMinutes(MinutesOn(past[..n], Weekday(day)), past, Picked(n, OnSameWeekday(past, day)))
  {
    if n > 0 {
      var m := past[n - 1];
      MinutesAre(past, day, n - 1);
      SameWeekday(m.day, day);
      assert past[..n] == past[..n - 1] + [m];
      MinutesSnoc(past[..n - 1], m, Weekday(day));
      if Weekday(m.day) == Weekday(day) {
        NextMinute(MinutesOn(past[..n - 1], Weekday(day)), past, Picked(n - 1, OnSameWeekday(past, day)), n - 1);
      }
    }
  }

  /** The slot of a day: there is one when some start lies whole weeks away from it, at the median minute of
      those starts, on the dot. */
  lemma SlotIs(past: seq<Moment>, day: int, a: int, b: int) returns (idx: seq<int>, minutes: seq<int>)
    ensures Selects(idx, |past|, OnSameWeekday(past, day)) && AreMinutes(minutes, past, idx)
    ensures Slot(past, day).None? <==> idx == []
    ensures Slot(past, day).Some? ==> Slot(past, day).value.day == day && Slot(past, day).value.micros == 0
    ensures idx != [] && RankIs(minutes, (|minutes| - 1) / 2, a) && RankIs(minutes, |minutes| / 2, b) ==>
              Slot(past, day).value.minute == (a + b) / 2
  {
    idx, minutes := Picked(|past|, OnSameWeekday(past, day)), MinutesOn(past, Weekday(day));
    PickedSelects(|past|, OnSameWeekday(past, day));
    MinutesAre(past, day, |past|);
    assert past[..|past|] == past;
    if idx != [] && RankIs(minutes, (|minutes| - 1) / 2, a) && RankIs(minutes, |minutes| / 2, b) {
      TypicalIs(minutes, a, b);
    }
  }

  /** A channel without history is expected in a day. */
  lemma NoHistory(now: Moment)
    ensures var m := NextLive(now, []); m.day == now.day + 1 && m.minute == now.minute && m.micros == now.micros
  {
  }

  // Microseconds since 1970.
  function Micros(m: Moment): int {
    (m.day * 1440 + m.minute) * 60_000_000 + m.micros
  }

  /** Earlier is earlier on the clock. */
  lemma BeforeIs(a: Moment, b: Moment)
    requires a.micros < 60_000_000 && b.micros < 60_000_000
    ensures Before(a, b) <==> Micros(a) < Micros(b)
  {
    var x, y := a.day * 1440 + a.minute, b.day * 1440 + b.minute;
    assert x < y <==> a.day < b.day || (a.day == b.day && a.minute < b.minute);
  }

  // ----- the estimate is the earliest slot -------------------------------------

  // A slot lies on its own day, whatever the day.
  ghost predicate Daily(slots: Slots) {
    forall d :: slots(d).Some? ==> slots(d).value.day == d
  }

  predicate IsSlot(slots: Slots, t: Moment) {
    slots(t.day) == Some(t)
  }

  lemma {:induction false} CandidateIn(slots: Slots, now: Moment, until: int, c: Moment)
    requires IsSlot(slots, c) && Before(now, c) && c.day < until
    ensures c in Candidates(slots, now, until)
    decreases until - now.day
  {
    if c.day < until - 1 { CandidateIn(slots, now, until - 1, c); }
  }

  lemma {:induction false} CandidateFrom(slots: Slots, now: Moment, until: int, c: Moment)
    requires Daily(slots) && c in Candidates(slots, now, until)
    ensures IsSlot(slots, c) && Before(now, c) && c.day < until
    decreases until - now.day
  {
    if c !in Candidate(slots, now, until - 1) {
      CandidateFrom(slots, now, until - 1, c);
    }
  }

  lemma {:induction false} LeastIsLeast(s: seq<Moment>)
    requires s != []
    ensures Least(s) in s && forall x :: x in s ==> !Before(x, Least(s))
  {
    if |s| > 1 {
      var n := |s| - 1;
      LeastIsLeast(s[..n]);
      assert s == s[..n] + [s[n]];
    }
  }

  // The offset, at most 6, of the next day with a given weekday.
  lemma NextWeekday(today: int, w: int) returns (k: nat)
    requires 0 <= w < 7
    ensures k <= 6 && Weekday(today + k) == w
  {
    k := (w - Weekday(today)) % 7;
  }

  lemma {:induction false} StartsMakeSlots(past: seq<Moment>, t: Moment)
    requires t in past
    ensures MinutesOn(past, Weekday(t.day)) != []
  {
    var n := |past| - 1;
    if past[n] != t {
      assert t in past[..n];
      StartsMakeSlots(past[..n], t);
    }
  }

  // The weekday of one recorded start has slots a week apart, the first of them in the next seven days.
  lemma SlotsRepeat(past: seq<Moment>, today: int) returns (k: nat, c: Moment)
    requires past != []
    ensures k <= 6 && c.day == today + k
    ensures IsSlot(SlotsOf(past), c) && IsSlot(SlotsOf(past), PlusDays(c, 7))
  {
    StartsMakeSlots(past, past[0]);
    k := NextWeekday(today, Weekday(past[0].day));
    var day := today + k;
    assert Weekday(day + 7) == Weekday(day);
    c := Slot(past, day).value;
  }

  // r is a slot after now, and no slot after now comes before it.
  ghost predicate IsEarliest(slots: Slots, now: Moment, r: Moment) {
    && IsSlot(slots, r) && Before(now, r)
    && forall t: Moment :: Before(now, t) && IsSlot(slots, t) ==> !Before(t, r)
  }

  // The least candidate of a search over the next days is the earliest slot.
  lemma LeastIsEarliest(slots: Slots, now: Moment, until: int)
    requires Daily(slots) && Candidates(slots, now, until) != []
    ensures IsEarliest(slots, now, Least(Candidates(slots, now, until)))
  {
    var cs := Candidates(slots, now, until);
    var r := Least(cs);
    LeastIsLeast(cs);
    CandidateFrom(slots, now, until, r);
    forall t: Moment | Before(now, t) && IsSlot(slots, t) ensures !Before(t, r) {
      if t.day < until { CandidateIn(slots, now, until, t); }
    }
  }

  ghost predicate SlotSoon(slots: Slots, now: Moment) {
    Daily(slots) && exists c: Moment :: IsSlot(slots, c) && Before(now, c) && !Before(PlusDays(now, 7), c)
  }

  // The search over the next days succeeds, within a week, with the earliest slot.
  ghost predicate SearchSucceeds(slots: Slots, now: Moment, cs: seq<Moment>) {
    cs != [] && IsEarliest(slots, now, Least(cs)) && !Before(PlusDays(now, 7), Least(cs))
  }

  lemma SearchFindsEarliest(slots: Slots, now: Moment)
    requires SlotSoon(slots, now)
    ensures SearchSucceeds(slots, now, Candidates(slots, now, now.day + SEARCH_DAYS))
  {
    var c: Moment :| IsSlot(slots, c) && Before(now, c) && !Before(PlusDays(now, 7), c);
    CandidateIn(slots, now, now.day + SEARCH_DAYS, c);
    LeastIsEarliest(slots, now, now.day + SEARCH_DAYS);
  }

  // There is a slot in the week after now.
  lemma PastMakesSlots(past: seq<Moment>, now: Moment)
    requires past != []
    ensures SlotSoon(SlotsOf(past), now)
  {
    var k, first := SlotsRepeat(past, now.day);
    var c := if Before(now, first) then first else PlusDays(first, 7);
    assert IsSlot(SlotsOf(past), c) && Before(now, c) && !Before(PlusDays(now, 7), c);
  }

  lemma UpcomingIsFound(now: Moment, past: seq<Moment>)
    requires past != []
    ensures SearchSucceeds(SlotsOf(past), now, Upcoming(now, past))
  {
    PastMakesSlots(past, now);
    SearchFindsEarliest(SlotsOf(past), now);
  }

  /** For every non-empty history and every moment: the estimate is the earliest slot after now, at most
      seven days later, and the last fallback is never taken. */
  lemma EstimateIsEarliestSlot(now: Moment, past: seq<Moment>)
    requires past != []
    ensures IsEarliest(SlotsOf(past), now, NextLive(now, past))
    ensures !Before(PlusDays(now, 7), NextLive(now, past))
    ensures Upcoming(now, past) != []
  {
    UpcomingIsFound(now, past);
  }
}
