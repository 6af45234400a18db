/**
 Retention and the biggest audience drops of a live (core/analytics.py, retention_and_dips). Times are
 seconds. Drops are exact fractions; the percentage a dip is sorted by is rounded to tenths.
 */
module Dips {
  import opened Wrappers
  import opened Numbers
  import opened Sorting

  datatype Sample = Sample(at: int, viewers: int)

  // `pct` is in tenths of a percent.
  datatype Dip = Dip(at: int, before: int, after: int, delta: int, pct: int)

  datatype Retention = Retention(peak: int, final: int, retainedPct: int, biggestDropAt: Option<int>)

  function Abs(x: int): int {
    if x < 0 then -x else x
  }

  // round(x * 100, 1) in tenths.
  function Tenths(x: real): int {
    Rounded(x * 1000.0)
  }

  function Least(samples: seq<Sample>): (m: int)
    requires samples != []
    ensures forall i :: 0 <= i < |samples| ==> m <= samples[i].viewers
    ensures exists i :: 0 <= i < |samples| && m == samples[i].viewers
  {
    if |samples| == 1 then
      assert samples[0].viewers == samples[0].viewers;
      samples[0].viewers
    else
      var rest := Least(samples[..|samples| - 1]);
      var last := samples[|samples| - 1].viewers;
      assert last == samples[|samples| - 1].viewers;
      Min(rest, last)
  }

  function Greatest(samples: seq<Sample>): (m: int)
    requires samples != []
    ensures forall i :: 0 <= i < |samples| ==> m >= samples[i].viewers
    ensures exists i :: 0 <= i < |samples| && m == samples[i].viewers
  {
    if |samples| == 1 then
      assert samples[0].viewers == samples[0].viewers;
      samples[0].viewers
    else
      var rest := Greatest(samples[..|samples| - 1]);
      var last := samples[|samples| - 1].viewers;
      assert last == samples[|samples| - 1].viewers;
      Max(rest, last)
  }

  // The lowest of the next five samples.
  function Trough(samples: seq<Sample>, i: nat): int
    requires i + 1 < |samples|
  {
    Least(samples[i + 1..Min(i + 6, |samples|)])
  }

  function Drop(samples: seq<Sample>, i: nat): real
    requires i + 1 < |samples| && samples[i].viewers > 0
  {
    (samples[i].viewers - Trough(samples, i)) as real / samples[i].viewers as real
  }

  function DipAt(samples: seq<Sample>, i: nat): Dip
    requires i + 1 < |samples| && samples[i].viewers > 0
  {
    var trough := Trough(samples, i);
    Dip(samples[i].at, samples[i].viewers, trough, trough - samples[i].viewers, Tenths(Drop(samples, i)))
  }

  predicate IsDip(samples: seq<Sample>, i: nat) {
    i + 1 < |samples| && samples[i].viewers > 0 && Drop(samples, i) >= 0.15
  }

  function DipsAt(samples: seq<Sample>, i: nat): seq<Dip> {
    if IsDip(samples, i) then [DipAt(samples, i)] else []
  }

  // The dips of the first n samples, in time order.
  function DipsUpTo(samples: seq<Sample>, n: nat): seq<Dip>
    requires n == 0 || n < |samples|
  {
    if n == 0 then [] else DipsUpTo(samples, n - 1) + DipsAt(samples, n - 1)
  }

  datatype Biggest = Biggest(at: Option<int>, drop: real)

  function Deeper(samples: seq<Sample>, i: nat, b: Biggest): Biggest
    requires i + 1 < |samples|
  {
    if samples[i].viewers > 0 && Drop(samples, i) > b.drop then Biggest(Some(samples[i].at), Drop(samples, i)) else b
  }

  function BiggestUpTo(samples: seq<Sample>, n: nat): Biggest
    requires n == 0 || n < |samples|
  {
    if n == 0 then Biggest(None, 0.0) else Deeper(samples, n - 1, BiggestUpTo(samples, n - 1))
  }

  // dips.sort(key=pct_drop, reverse=True)
  function DeeperFirst(a: Dip, b: Dip): bool {
    a.pct >= b.pct
  }

  predicate Far(a: Dip, b: Dip) {
    Abs(a.at - b.at) > 120
  }

  predicate FarFromAll(d: Dip, kept: seq<Dip>) {
    forall i :: 0 <= i < |kept| ==> Far(d, kept[i])
  }

  // The loop over the sorted dips, with its break.
  function Pick(rest: seq<Dip>, kept: seq<Dip>, max: int): seq<Dip>
    decreases |rest|
  {
    if rest == [] then kept
    else
      var now := if FarFromAll(rest[0], kept) then kept + [rest[0]] else kept;
      if |now| >= max then now else Pick(rest[1..], now, max)
  }

  function Kept(dips: seq<Dip>, max: int): seq<Dip> {
    Pick(SortBy(dips, DeeperFirst), [], max)
  }

  function AllDips(samples: seq<Sample>): seq<Dip> {
    if samples == [] then [] else DipsUpTo(samples, |samples| - 1)
  }

  function RetentionOf(samples: seq<Sample>): Option<Retention> {
    if samples == [] then None
    else
      var peak, final := Greatest(samples), samples[|samples| - 1].viewers;
      var b := BiggestUpTo(samples, |samples| - 1);
      Some(Retention(peak, final,
                     if peak != 0 then Tenths(final as real / peak as real) else 0,
                     if b.drop >= 0.15 then b.at else None))
  }

  method RetentionAndDips(samples: seq<Sample>, maxDips: int) returns (retention: Option<Retention>, kept: seq<Dip>)
    ensures retention == RetentionOf(samples)
    ensures kept == Kept(AllDips(samples), maxDips)
  {
    if samples == [] { return None, []; }
    var peak := Greatest(samples);
    var final := samples[|samples| - 1].viewers;
    var dips, biggest := FindDips(samples);
    kept := KeepApart(SortBy(dips, DeeperFirst), maxDips);
    retention := Some(Retention(peak, final,
                                if peak != 0 then Tenths(final as real / peak as real) else 0,
                                if biggest.drop >= 0.15 then biggest.at else None));
  }

  method FindDips(samples: seq<Sample>) returns (dips: seq<Dip>, biggest: Biggest)
    requires samples != []
    ensures dips == AllDips(samples) && biggest == BiggestUpTo(samples, |samples| - 1)
  {
    biggest := Biggest(None, 0.0);
    dips := [];
    for i := 0 to |samples| - 1
      invariant dips == DipsUpTo(samples, i)
      invariant biggest == BiggestUpTo(samples, i)
    {
      dips, biggest := TakeSample(samples, i, dips, biggest);
    }
  }

  /** The body of the loop over the samples. */
  method TakeSample(samples: seq<Sample>, i: nat, dips: seq<Dip>, biggest: Biggest)
    returns (dipsNow: seq<Dip>, biggestNow: Biggest)
    requires i + 1 < |samples|
    ensures dipsNow == dips + DipsAt(samples, i)
    ensures biggestNow == Deeper(samples, i, biggest)
  {
    dipsNow, biggestNow := dips, biggest;
    var before := samples[i].viewers;
    if before <= 0 { return; }
    var trough := Least(samples[i + 1..Min(i + 6, |samples|)]);
    var drop := (before - trough) as real / before as real;
    if drop > biggest.drop {
      biggestNow := Biggest(Some(samples[i].at), drop);
    }
    if drop >= 0.15 {
      dipsNow := dips + [Dip(samples[i].at, before, trough, trough - before, Tenths(drop))];
    }
  }

  method KeepApart(sorted: seq<Dip>, maxDips: int) returns (kept: seq<Dip>)
    ensures kept == Pick(sorted, [], maxDips)
  {
    kept := [];
    for i := 0 to |sorted|
      invariant Pick(sorted[i..], kept, maxDips) == Pick(sorted, [], maxDips)
    {
      assert sorted[i..][0] == sorted[i] && sorted[i..][1..] == sorted[i + 1..];
      if FarFromAll(sorted[i], kept) {
        kept := kept + [sorted[i]];
      }
      if |kept| >= maxDips { return; }
    }
  }

  // ----- the candidates ----------------------------------------------------------------

  /** A dip's trough is the lowest of the next five samples: none of them is lower, and one of them is it. */
  lemma TroughIsTheMinimum(samples: seq<Sample>, i: nat)
    requires i + 1 < |samples|
    ensures forall j :: i < j < |samples| && j <= i + 5 ==> Trough(samples, i) <= samples[j].viewers
    ensures exists j :: i < j < |samples| && j <= i + 5 && Trough(samples, i) == samples[j].viewers
  {
    var next := samples[i + 1..Min(i + 6, |samples|)];
    forall j | i < j < |samples| && j <= i + 5 ensures Trough(samples, i) <= samples[j].viewers {
      assert samples[j] == next[j - i - 1];
    }
    var k :| 0 <= k < |next| && Least(next) == next[k].viewers;
    assert samples[i + 1 + k] == next[k];
  }

  ghost predicate AmongFirst(samples: seq<Sample>, n: nat, d: Dip) {
    exists i: nat :: i < n && d in DipsAt(samples, i)
  }

  /** The candidates are exactly the samples whose audience falls by 15% within the next five. */
  lemma {:induction false} DipsAreTheDrops(samples: seq<Sample>, n: nat, d: Dip)
    requires n == 0 || n < |samples|
    ensures d in DipsUpTo(samples, n) <==> AmongFirst(samples, n, d)
  {
    if n > 0 {
      DipsAreTheDrops(samples, n - 1, d);
      InEither(DipsUpTo(samples, n - 1), DipsAt(samples, n - 1), d);
      AmongOneMore(samples, n, d);
    }
  }

  lemma InEither<T>(a: seq<T>, b: seq<T>, x: T)
    ensures x in a + b <==> x in a || x in b
  {
  }

  lemma AmongOneMore(samples: seq<Sample>, n: nat, d: Dip)
    requires n > 0
    ensures AmongFirst(samples, n, d) <==> AmongFirst(samples, n - 1, d) || d in DipsAt(samples, n - 1)
  {
  }

  // The fall after each of the first n samples; an empty room cannot fall.
  function Fall(samples: seq<Sample>, i: nat): real
    requires i + 1 < |samples|
  {
    if samples[i].viewers > 0 then Drop(samples, i) else 0.0
  }

  function Falls(samples: seq<Sample>, n: nat): (f: seq<real>)
    requires n == 0 || n < |samples|
    ensures |f| == n
  {
    if n == 0 then [] else Falls(samples, n - 1) + [Fall(samples, n - 1)]
  }

  predicate FirstDeepest(falls: seq<real>, i: nat) {
    && i < |falls| && falls[i] > 0.0
    && (forall j :: 0 <= j < |falls| ==> falls[j] <= falls[i])
    && (forall j :: 0 <= j < i ==> falls[j] < falls[i])
  }

  lemma FirstDeepestStep(falls: seq<real>, i: nat, x: real)
    ensures FirstDeepest(falls, i) && x <= falls[i] ==> FirstDeepest(falls + [x], i)
    ensures FirstDeepest(falls, i) && x > falls[i] ==> FirstDeepest(falls + [x], |falls|)
    ensures (forall j :: 0 <= j < |falls| ==> falls[j] <= 0.0) && x > 0.0 ==> FirstDeepest(falls + [x], |falls|)
  {
  }

  /** The biggest drop is the first of the deepest falls, and there is none when nobody ever left. */
  lemma {:induction false} BiggestIsFirstDeepest(samples: seq<Sample>, n: nat) returns (i: nat)
    requires n == 0 || n < |samples|
    ensures var b, falls := BiggestUpTo(samples, n), Falls(samples, n);
            if b.drop > 0.0 then
              FirstDeepest(falls, i) && i < |samples| && b == Biggest(Some(samples[i].at), falls[i])
            else
              b == Biggest(None, 0.0) && forall j :: 0 <= j < n ==> falls[j] <= 0.0
  {
    i := 0;
    if n > 0 {
      i := BiggestIsFirstDeepest(samples, n - 1);
      var before, falls := BiggestUpTo(samples, n - 1), Falls(samples, n - 1);
      var x := Fall(samples, n - 1);
      FirstDeepestStep(falls, i, x);
      BiggestStep(samples, n);
      if x > before.drop { i := n - 1; }
    }
  }

  lemma BiggestStep(samples: seq<Sample>, n: nat)
    requires 0 < n < |samples| && BiggestUpTo(samples, n - 1).drop >= 0.0
    ensures BiggestUpTo(samples, n) ==
      if Fall(samples, n - 1) > BiggestUpTo(samples, n - 1).drop
      then Biggest(Some(samples[n - 1].at), Fall(samples, n - 1))
      else BiggestUpTo(samples, n - 1)
  {
  }

  /** A deeper drop never shows a smaller percentage. */
  lemma TenthsMonotone(x: real, y: real)
    requires x <= y
    ensures Tenths(x) <= Tenths(y)
  {
    assert x * 1000.0 <= y * 1000.0;
    RoundedMonotone(x * 1000.0, y * 1000.0);
  }

  // A drop of fifteen percent or more after sample i, written as a dip.
  ghost predicate IsDropAt(samples: seq<Sample>, i: nat, d: Dip) {
    && i + 1 < |samples| && d.at == samples[i].at && d.before == samples[i].viewers > 0
    && LowestOfNext(samples, i, d.after) && d.delta == d.after - d.before
    && 100 * (d.before - d.after) >= 15 * d.before
    && d.pct == Rounded((d.before - d.after) as real / d.before as real * 1000.0)
  }

  predicate LowestOfNext(samples: seq<Sample>, i: nat, low: int) {
    && (forall j :: i < j < |samples| && j <= i + 5 ==> low <= samples[j].viewers)
    && (exists j :: i < j < |samples| && j <= i + 5 && low == samples[j].viewers)
  }

  lemma DropIsFifteen(before: int, after: int)
    requires before > 0
    ensures (before - after) as real / before as real >= 0.15 <==> 100 * (before - after) >= 15 * before
  {
    var x, y := (before - after) as real, before as real;
    assert x / y >= 0.15 <==> x >= 0.15 * y;
  }

  lemma DipsAtIs(samples: seq<Sample>, i: nat, d: Dip)
    ensures d in DipsAt(samples, i) <==> IsDropAt(samples, i, d)
  {
    if i + 1 < |samples| && samples[i].viewers > 0 {
      TroughIsTheMinimum(samples, i);
      assert LowestOfNext(samples, i, Trough(samples, i));
      assert LowestOfNext(samples, i, d.after) ==> d.after == Trough(samples, i);
      DropIsFifteen(samples[i].viewers, Trough(samples, i));
    }
  }

  /** The candidates, field by field: exactly the falls of fifteen percent within the next five samples. */
  lemma CandidatesAre(samples: seq<Sample>, d: Dip)
    ensures d in AllDips(samples) <==> exists i: nat :: IsDropAt(samples, i, d)
  {
    if samples != [] {
      var n := |samples| - 1;
      DipsAreTheDrops(samples, n, d);
      if i: nat :| i < n && d in DipsAt(samples, i) { DipsAtIs(samples, i, d); }
      if i: nat :| IsDropAt(samples, i, d) { DipsAtIs(samples, i, d); }
    }
  }

  predicate IsHighest(samples: seq<Sample>, peak: int) {
    && (forall i :: 0 <= i < |samples| ==> samples[i].viewers <= peak)
    && (exists i :: 0 <= i < |samples| && samples[i].viewers == peak)
  }

  lemma GreatestIs(samples: seq<Sample>)
    requires samples != []
    ensures IsHighest(samples, Greatest(samples))
  {
  }

  // A deepest fall of fifteen percent or more happened after sample i, and none as deep before.
  predicate FirstBigFall(samples: seq<Sample>, i: nat) {
    samples != [] && FirstDeepest(Falls(samples, |samples| - 1), i) && Falls(samples, |samples| - 1)[i] >= 0.15
  }

  lemma BiggestDrop(samples: seq<Sample>)
    requires samples != []
    ensures var b := BiggestUpTo(samples, |samples| - 1);
            && (b.drop >= 0.15 ==>
                  exists i: nat :: FirstBigFall(samples, i) && i < |samples| && b.at == Some(samples[i].at))
            && (b.drop < 0.15 ==> forall i: nat :: !FirstBigFall(samples, i))
  {
    var i := BiggestIsFirstDeepest(samples, |samples| - 1);
    var b := BiggestUpTo(samples, |samples| - 1);
    assert b.drop >= 0.15 ==> FirstBigFall(samples, i);
  }

  lemma RatioInTenths(final: int, peak: int)
    requires peak != 0
    ensures Tenths(final as real / peak as real) == Rounded(final as real / peak as real * 1000.0)
  {
  }

  /** The retention figures: the highest count, the last one, their ratio, and when the first of the deepest
      falls began, if it was fifteen percent or more. */
  lemma RetentionIs(samples: seq<Sample>)
    ensures RetentionOf(samples).None? <==> samples == []
    ensures samples != [] ==>
      var r := RetentionOf(samples).value;
      && IsHighest(samples, r.peak) && r.final == samples[|samples| - 1].viewers
      && r.retainedPct == (if r.peak == 0 then 0 else Rounded(r.final as real / r.peak as real * 1000.0))
    ensures samples != [] ==>
      match RetentionOf(samples).value.biggestDropAt
      case Some(at) => exists i: nat :: FirstBigFall(samples, i) && i < |samples| && at == samples[i].at
      case None => forall i: nat :: !FirstBigFall(samples, i)
  {
    if samples != [] {
      GreatestIs(samples);
      BiggestDrop(samples);
      var peak := Greatest(samples);
      if peak != 0 { RatioInTenths(samples[|samples| - 1].viewers, peak); }
    }
  }

  // ----- the greedy choice -------------------------------------------------------------------

  predicate PairwiseFar(kept: seq<Dip>) {
    forall i, j :: 0 <= i < j < |kept| ==> Far(kept[j], kept[i])
  }

  // In order, by some order of dips.
  predicate InOrder(s: seq<Dip>, leq: (Dip, Dip) -> bool) {
    forall i, j :: 0 <= i < j < |s| ==> leq(s[i], s[j])
  }

  predicate Above(kept: seq<Dip>, rest: seq<Dip>, leq: (Dip, Dip) -> bool) {
    forall i, j :: 0 <= i < |kept| && 0 <= j < |rest| ==> leq(kept[i], rest[j])
  }

  // Why a candidate is not in the result: a kept one near it comes before it, or the list is full of dips
  // that do.
  ghost predicate Explained(d: Dip, kept: seq<Dip>, max: int, leq: (Dip, Dip) -> bool) {
    || d in kept
    || (exists k :: k in kept && !Far(d, k) && leq(k, d))
    || (|kept| >= max && forall k :: k in kept ==> leq(k, d))
  }

  predicate Suits(rest: seq<Dip>, kept: seq<Dip>, leq: (Dip, Dip) -> bool) {
    PairwiseFar(kept) && InOrder(kept, leq) && InOrder(rest, leq) && Above(kept, rest, leq)
  }

  lemma SuitsNext(rest: seq<Dip>, kept: seq<Dip>, leq: (Dip, Dip) -> bool)
    requires rest != [] && Suits(rest, kept, leq)
    ensures Suits(rest[1..], if FarFromAll(rest[0], kept) then kept + [rest[0]] else kept, leq)
  {
  }

  lemma {:induction false} PickIsApart(rest: seq<Dip>, kept: seq<Dip>, max: int, leq: (Dip, Dip) -> bool)
    requires Suits(rest, kept, leq)
    ensures var r := Pick(rest, kept, max);
            && PairwiseFar(r) && InOrder(r, leq) && kept <= r
            && (forall k :: k in r ==> k in kept || k in rest)
            && (|kept| < Max(1, max) ==> |r| <= Max(1, max))
            && (rest != [] && kept == [] ==> r != [])
    decreases |rest|
  {
    if rest != [] {
      SuitsNext(rest, kept, leq);
      var now := if FarFromAll(rest[0], kept) then kept + [rest[0]] else kept;
      if |now| < max { PickIsApart(rest[1..], now, max, leq); }
    }
  }

  lemma {:induction false} PickExplains(rest: seq<Dip>, kept: seq<Dip>, max: int, d: Dip, leq: (Dip, Dip) -> bool)
    requires Suits(rest, kept, leq) && d in rest && leq(d, d)
    ensures Explained(d, Pick(rest, kept, max), max, leq)
    decreases |rest|
  {
    SuitsNext(rest, kept, leq);
    var now := if FarFromAll(rest[0], kept) then kept + [rest[0]] else kept;
    var r := Pick(rest, kept, max);
    if |now| >= max {
      FullExplains(rest, kept, now, max, d, leq);
    } else if d == rest[0] {
      PickIsApart(rest[1..], now, max, leq);
      FirstExplained(rest, kept, r, leq);
    } else {
      PickExplains(rest[1..], now, max, d, leq);
    }
  }

  // The first candidate is kept, or near one that was.
  lemma FirstExplained(rest: seq<Dip>, kept: seq<Dip>, r: seq<Dip>, leq: (Dip, Dip) -> bool)
    requires rest != [] && Above(kept, rest, leq)
    requires (if FarFromAll(rest[0], kept) then kept + [rest[0]] else kept) <= r
    ensures rest[0] in r || exists k :: k in r && !Far(rest[0], k) && leq(k, rest[0])
  {
    if FarFromAll(rest[0], kept) {
      assert r[|kept|] == rest[0];
    } else {
      var i :| 0 <= i < |kept| && !Far(rest[0], kept[i]);
      assert r[i] == kept[i] && kept[i] in r;
    }
  }

  lemma FullExplains(
    rest: seq<Dip>, kept: seq<Dip>, now: seq<Dip>, max: int, d: Dip, leq: (Dip, Dip) -> bool)
    requires Suits(rest, kept, leq) && d in rest && leq(d, d)
    requires now == (if FarFromAll(rest[0], kept) then kept + [rest[0]] else kept)
    requires |now| >= max
    ensures Explained(d, now, max, leq)
  {
    var j :| 0 <= j < |rest| && rest[j] == d;
    assert j == 0 || leq(rest[0], rest[j]);
    forall k | k in now ensures leq(k, d) {
      if k in kept {
        var i :| 0 <= i < |kept| && kept[i] == k;
        assert leq(kept[i], rest[j]);
      }
    }
  }

  lemma DeeperFirstIsAnOrder()
    ensures TotalPreorder(DeeperFirst)
  {
  }

  lemma SortedSuits(dips: seq<Dip>)
    ensures Suits(SortBy(dips, DeeperFirst), [], DeeperFirst)
  {
    DeeperFirstIsAnOrder();
    SortBySorted(dips, DeeperFirst);
    var s := SortBy(dips, DeeperFirst);
    assert forall i, j :: 0 <= i < j < |s| ==> DeeperFirst(s[i], s[j]);
  }

  /** The kept dips are candidates, pairwise more than 120 seconds apart, in descending percentage. */
  lemma KeptAreApart(dips: seq<Dip>, max: int)
    ensures var kept := Kept(dips, max);
            && (forall i, j :: 0 <= i < j < |kept| ==> kept[j].at - kept[i].at > 120 || kept[i].at - kept[j].at > 120)
            && (forall i, j :: 0 <= i < j < |kept| ==> kept[i].pct >= kept[j].pct)
            && (forall k :: k in kept ==> k in dips)
            && (dips != [] ==> 1 <= |kept| <= Max(1, max))
  {
    SortedSuits(dips);
    PickIsApart(SortBy(dips, DeeperFirst), [], max, DeeperFirst);
    SortByMultiset(dips, DeeperFirst);
    var kept := Kept(dips, max);
    assert forall i, j :: 0 <= i < j < |kept| ==> Far(kept[j], kept[i]) && DeeperFirst(kept[i], kept[j]);
    forall k | k in kept ensures k in dips {
      SortByMember(dips, DeeperFirst, k);
    }
  }

  /** Every candidate that is dropped is within 120 seconds of a kept one at least as deep, or the list is
      full of dips at least as deep. */
  lemma DroppedAreExplained(dips: seq<Dip>, max: int, d: Dip)
    requires d in dips
    ensures Explained(d, Kept(dips, max), max, DeeperFirst)
  {
    SortedSuits(dips);
    SortByMember(dips, DeeperFirst, d);
    PickExplains(SortBy(dips, DeeperFirst), [], max, d, DeeperFirst);
  }

  // Deeper, or as deep and not later.
  function EarlierOfEquals(a: Dip, b: Dip): bool {
    a.pct > b.pct || (a.pct == b.pct && a.at <= b.at)
  }

  predicate InTime(dips: seq<Dip>) {
    forall i, j :: 0 <= i < j < |dips| ==> dips[i].at <= dips[j].at
  }

  lemma {:induction false} InsertKeepsTies(x: Dip, s: seq<Dip>)
    requires InOrder(s, EarlierOfEquals) && forall y :: y in s ==> x.at <= y.at
    ensures InOrder(Insert(x, s, DeeperFirst), EarlierOfEquals)
    ensures forall y :: y in Insert(x, s, DeeperFirst) ==> y == x || y in s
  {
    if s != [] && !DeeperFirst(x, s[0]) {
      assert forall i :: 0 < i < |s| ==> EarlierOfEquals(s[0], s[i]);
      InsertKeepsTies(x, s[1..]);
      var t := Insert(x, s[1..], DeeperFirst);
      forall i | 0 <= i < |t| ensures EarlierOfEquals(s[0], t[i]) {
        assert t[i] in t;
      }
    } else if s != [] {
      forall i | 0 <= i < |s| ensures EarlierOfEquals(x, s[i]) {
        assert s[i] in s && (i == 0 || EarlierOfEquals(s[0], s[i]));
      }
    }
  }

  lemma {:induction false} SortKeepsTies(dips: seq<Dip>)
    requires InTime(dips)
    ensures InOrder(SortBy(dips, DeeperFirst), EarlierOfEquals)
    ensures forall d :: d in SortBy(dips, DeeperFirst) ==> d in dips
  {
    if dips != [] {
      SortKeepsTies(dips[1..]);
      forall y | y in SortBy(dips[1..], DeeperFirst) ensures dips[0].at <= y.at {
        var i :| 0 <= i < |dips[1..]| && dips[1..][i] == y;
        assert dips[i + 1] == y;
      }
      InsertKeepsTies(dips[0], SortBy(dips[1..], DeeperFirst));
    }
  }

  /** Of candidates as deep as each other the earlier is kept: one that is dropped is near a kept one that is
      deeper, or as deep and not later, or the list is full of such. */
  lemma EarlierIsKept(dips: seq<Dip>, max: int, d: Dip)
    requires InTime(dips) && d in dips
    ensures Explained(d, Kept(dips, max), max, EarlierOfEquals)
  {
    SortKeepsTies(dips);
    SortByMember(dips, DeeperFirst, d);
    PickExplains(SortBy(dips, DeeperFirst), [], max, d, EarlierOfEquals);
  }

  lemma LaterDip(dips: seq<Dip>, d: Dip)
    requires InTime(dips) && forall e :: e in dips ==> e.at <= d.at
    ensures InTime(dips + [d])
  {
  }

  lemma {:induction false} CandidatesInTime(samples: seq<Sample>, n: nat)
    requires forall i, j :: 0 <= i < j < |samples| ==> samples[i].at <= samples[j].at
    requires n == 0 || n < |samples|
    ensures InTime(DipsUpTo(samples, n))
    ensures forall d :: d in DipsUpTo(samples, n) ==> n > 0 && d.at <= samples[n - 1].at
  {
    if n > 0 {
      CandidatesInTime(samples, n - 1);
      if IsDip(samples, n - 1) { LaterDip(DipsUpTo(samples, n - 1), DipAt(samples, n - 1)); }
    }
  }

  /** The limit is respected exactly when it is at least one or there is nothing to keep: the loop looks at
      it only after it has kept a dip, so a limit of zero keeps one. */
  lemma LimitIsRespectedIff(dips: seq<Dip>, max: nat)
    ensures |Kept(dips, max)| <= max <==> max >= 1 || dips == []
  {
    KeptAreApart(dips, max);
    if dips == [] { assert SortBy(dips, DeeperFirst) == []; }
  }
}
