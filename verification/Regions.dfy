/**
 Speech regions of an audio file (workers/transcribe/pipeline.py). Times are counted in audio samples,
 16000 a second; what the voice detector and the energy of a stretch answer is given.
 */
module Regions {
  import opened Numbers

  datatype Span = Span(start: int, end: int)

  datatype Kind = Speech | Music | Silence

  datatype Region = Region(start: int, end: int, kind: Kind)

  // Whether the energy between two times is above the music threshold.
  type Energy = (int, int) -> bool

  // ----- merging -----------------------------------------------------------------------

  function AddSpan(merged: seq<Span>, s: Span, maxGap: int): seq<Span> {
    if merged == [] then [s]
    else
      var last := merged[|merged| - 1];
      if s.start - last.end <= maxGap then merged[..|merged| - 1] + [Span(last.start, Max(last.end, s.end))]
      else merged + [s]
  }

  function Merged(spans: seq<Span>, maxGap: int): seq<Span> {
    if spans == [] then [] else AddSpan(Merged(spans[..|spans| - 1], maxGap), spans[|spans| - 1], maxGap)
  }

  method MergeSpeechSpans(spans: seq<Span>, maxGap: int) returns (merged: seq<Span>)
    ensures merged == Merged(spans, maxGap)
  {
    if spans == [] { return []; }
    merged := [spans[0]];
    for i := 1 to |spans|
      invariant merged != [] && merged == Merged(spans[..i], maxGap)
    {
      assert spans[..i + 1][..i] == spans[..i];
      var last := merged[|merged| - 1];
      if spans[i].start - last.end <= maxGap {
        merged := merged[..|merged| - 1] + [Span(last.start, Max(last.end, spans[i].end))];
        continue;
      }
      merged := merged + [spans[i]];
    }
    assert spans[..|spans|] == spans;
  }

  // Spans in the order the detector reports them.
  predicate Ordered(spans: seq<Span>) {
    && (forall i :: 0 <= i < |spans| ==> spans[i].start <= spans[i].end)
    && (forall i, j :: 0 <= i < j < |spans| ==> spans[i].start <= spans[j].start)
  }

  predicate FurtherApart(ms: seq<Span>, gap: int) {
    && (forall i :: 0 <= i < |ms| ==> ms[i].start <= ms[i].end)
    && (forall i, j :: 0 <= i < j < |ms| ==> ms[i].end + gap < ms[j].start)
  }

  predicate Inside(s: Span, t: Span) {
    t.start <= s.start && s.end <= t.end
  }

  predicate InSome(s: Span, ms: seq<Span>) {
    exists i :: 0 <= i < |ms| && Inside(s, ms[i])
  }

  predicate StartsASpan(spans: seq<Span>, t: int) {
    exists i :: 0 <= i < |spans| && spans[i].start == t
  }

  predicate EndsASpan(spans: seq<Span>, t: int) {
    exists i :: 0 <= i < |spans| && spans[i].end == t
  }

  predicate Tight(spans: seq<Span>, m: Span) {
    StartsASpan(spans, m.start) && EndsASpan(spans, m.end)
  }

  lemma AddKeepsApart(ms: seq<Span>, s: Span, gap: int)
    requires FurtherApart(ms, gap) && s.start <= s.end
    requires ms != [] ==> ms[|ms| - 1].start <= s.start
    requires gap >= 0
    ensures FurtherApart(AddSpan(ms, s, gap), gap)
    ensures var next := AddSpan(ms, s, gap); next[|next| - 1].start <= s.start && Inside(s, next[|next| - 1])
  {
  }

  lemma AddKeepsInside(ms: seq<Span>, s: Span, gap: int, t: Span)
    requires InSome(t, ms)
    ensures InSome(t, AddSpan(ms, s, gap))
  {
    var i :| 0 <= i < |ms| && Inside(t, ms[i]);
    assert Inside(t, AddSpan(ms, s, gap)[i]);
  }

  lemma {:induction false} MergedApart(spans: seq<Span>, gap: int)
    requires Ordered(spans) && gap >= 0
    ensures FurtherApart(Merged(spans, gap), gap)
    ensures spans != [] ==>
      var ms := Merged(spans, gap);
      ms != [] && ms[|ms| - 1].start <= spans[|spans| - 1].start
  {
    if spans != [] {
      var front := spans[..|spans| - 1];
      MergedApart(front, gap);
      AddKeepsApart(Merged(front, gap), spans[|spans| - 1], gap);
    }
  }

  lemma {:induction false} SpanIsMerged(spans: seq<Span>, gap: int, k: nat)
    requires Ordered(spans) && gap >= 0 && k < |spans|
    ensures InSome(spans[k], Merged(spans, gap))
  {
    var front, last := spans[..|spans| - 1], spans[|spans| - 1];
    MergedApart(front, gap);
    AddKeepsApart(Merged(front, gap), last, gap);
    if k < |front| {
      SpanIsMerged(front, gap, k);
      AddKeepsInside(Merged(front, gap), last, gap, spans[k]);
    }
  }

  lemma {:induction false} MergedIsTight(spans: seq<Span>, gap: int, m: Span)
    requires m in Merged(spans, gap)
    ensures Tight(spans, m)
  {
    if spans != [] {
      var front, last := spans[..|spans| - 1], spans[|spans| - 1];
      var before := Merged(front, gap);
      forall t ensures StartsASpan(front, t) ==> StartsASpan(spans, t) {
        if i :| 0 <= i < |front| && front[i].start == t { assert spans[i].start == t; }
      }
      forall t ensures EndsASpan(front, t) ==> EndsASpan(spans, t) {
        if i :| 0 <= i < |front| && front[i].end == t { assert spans[i].end == t; }
      }
      assert spans[|front|] == last;
      if m in before {
        MergedIsTight(front, gap, m);
      } else if before != [] {
        MergedIsTight(front, gap, before[|before| - 1]);
      }
    }
  }

  /** Merged spans are more than the gap apart; every span lies in exactly one of them; each starts where
      some span starts and ends where some span ends. */
  lemma MergingIsExact(spans: seq<Span>, gap: int, k: nat)
    requires Ordered(spans) && gap >= 0 && k < |spans|
    ensures var ms := Merged(spans, gap);
            && FurtherApart(ms, gap)
            && (forall m :: m in ms ==> Tight(spans, m))
            && InSome(spans[k], ms)
            && (forall i, j ::
                  0 <= i < |ms| && 0 <= j < |ms| && Inside(spans[k], ms[i]) && Inside(spans[k], ms[j]) ==> i == j)
  {
    MergedApart(spans, gap);
    SpanIsMerged(spans, gap, k);
    forall m | m in Merged(spans, gap) ensures Tight(spans, m) {
      MergedIsTight(spans, gap, m);
    }
  }

  lemma {:induction false} ApartIsKept(ms: seq<Span>, gap: int)
    requires FurtherApart(ms, gap)
    ensures Merged(ms, gap) == ms
  {
    if ms != [] {
      var front, last := ms[..|ms| - 1], ms[|ms| - 1];
      ApartIsKept(front, gap);
      if front != [] { assert ms[|ms| - 2].end + gap < last.start; }
      AddFar(front, last, gap);
      assert ms == front + [last];
    }
  }

  lemma AddFar(ms: seq<Span>, s: Span, gap: int)
    requires ms != [] ==> ms[|ms| - 1].end + gap < s.start
    ensures AddSpan(ms, s, gap) == ms + [s]
  {
  }

  /** Merging twice is merging once. */
  lemma MergingIsIdempotent(spans: seq<Span>, gap: int)
    requires Ordered(spans) && gap >= 0
    ensures Merged(Merged(spans, gap), gap) == Merged(spans, gap)
  {
    MergedApart(spans, gap);
    ApartIsKept(Merged(spans, gap), gap);
  }

  // ----- regions -----------------------------------------------------------------------

  function NonSpeech(loud: Energy, start: int, end: int): Region {
    Region(start, end, if loud(start, end) then Music else Silence)
  }

  // The stretch before the next speech, when it lasts five seconds or more.
  function Gap(loud: Energy, start: int, end: int): seq<Region> {
    if end - start >= 80_000 then [NonSpeech(loud, start, end)] else []
  }

  function CursorAfter(ms: seq<Span>): int {
    if ms == [] then 0 else ms[|ms| - 1].end
  }

  function RegionsOf(ms: seq<Span>, loud: Energy): seq<Region> {
    if ms == [] then []
    else
      var front, m := ms[..|ms| - 1], ms[|ms| - 1];
      RegionsOf(front, loud) + Gap(loud, CursorAfter(front), m.start) + [Region(m.start, m.end, Speech)]
  }

  function Classified(total: int, spans: seq<Span>, loud: Energy): seq<Region> {
    var ms := Merged(spans, 16_000);
    RegionsOf(ms, loud) + Gap(loud, CursorAfter(ms), total)
  }

  lemma RegionsNext(ms: seq<Span>, i: nat, loud: Energy)
    requires i < |ms|
    ensures RegionsOf(ms[..i + 1], loud) ==
      RegionsOf(ms[..i], loud) + Gap(loud, CursorAfter(ms[..i]), ms[i].start) + [Region(ms[i].start, ms[i].end, Speech)]
    ensures CursorAfter(ms[..i + 1]) == ms[i].end
  {
    assert ms[..i + 1][..i] == ms[..i];
  }

  method ClassifyRegions(total: nat, spans: seq<Span>, loud: Energy) returns (regions: seq<Region>)
    ensures regions == Classified(total, spans, loud)
  {
    regions := [];
    var cursor := 0;
    var merged := MergeSpeechSpans(spans, 16_000);
    for i := 0 to |merged|
      invariant regions == RegionsOf(merged[..i], loud)
      invariant cursor == CursorAfter(merged[..i])
    {
      RegionsNext(merged, i, loud);
      var m := merged[i];
      if m.start - cursor >= 80_000 {
        regions := regions + [NonSpeech(loud, cursor, m.start)];
      }
      regions := regions + [Region(m.start, m.end, Speech)];
      cursor := m.end;
    }
    assert merged[..|merged|] == merged;
    if total - cursor >= 80_000 {
      regions := regions + [NonSpeech(loud, cursor, total)];
    }
  }

  // Regions from `from` to `to`: in order, without overlap, and leaving out less than five seconds at a time.
  predicate Laid(regions: seq<Region>, from: int, to: int) {
    && from <= to
    && (forall i :: 0 <= i < |regions| ==> from <= regions[i].start <= regions[i].end <= to)
    && (forall i, j :: 0 <= i < j < |regions| ==> regions[i].end <= regions[j].start)
    && (forall i :: 0 < i < |regions| ==> regions[i].start - regions[i - 1].end < 80_000)
    && (regions != [] ==> regions[0].start - from < 80_000)
  }

  // ... up to the very end.
  predicate LaidOut(regions: seq<Region>, from: int, to: int) {
    Laid(regions, from, to) && to - (if regions == [] then from else regions[|regions| - 1].end) < 80_000
  }

  function LastEnd(regions: seq<Region>, from: int): int {
    if regions == [] then from else regions[|regions| - 1].end
  }

  predicate Placed(ms: seq<Span>, total: int) {
    FurtherApart(ms, 16_000) && forall i :: 0 <= i < |ms| ==> 0 <= ms[i].start && ms[i].end <= total
  }

  lemma LayRegion(regions: seq<Region>, at: int, r: Region)
    requires Laid(regions, 0, at) && at <= r.start <= r.end && r.start - LastEnd(regions, 0) < 80_000
    ensures Laid(regions + [r], 0, r.end)
  {
  }

  lemma {:induction false} RegionsLaid(ms: seq<Span>, total: int, loud: Energy)
    requires Placed(ms, total) && total >= 0
    ensures Laid(RegionsOf(ms, loud), 0, CursorAfter(ms))
    ensures LastEnd(RegionsOf(ms, loud), 0) == CursorAfter(ms)
  {
    if ms != [] {
      var front, m := ms[..|ms| - 1], ms[|ms| - 1];
      RegionsLaid(front, total, loud);
      if front != [] { assert ms[|ms| - 2].end + 16_000 < m.start; }
      LaySpan(RegionsOf(front, loud), CursorAfter(front), m, loud);
    }
  }

  lemma LaySpan(before: seq<Region>, cursor: int, m: Span, loud: Energy)
    requires Laid(before, 0, cursor) && LastEnd(before, 0) == cursor <= m.start <= m.end
    ensures Laid(before + Gap(loud, cursor, m.start) + [Region(m.start, m.end, Speech)], 0, m.end)
  {
    if m.start - cursor >= 80_000 {
      LayRegion(before, cursor, NonSpeech(loud, cursor, m.start));
      LayRegion(before + [NonSpeech(loud, cursor, m.start)], m.start, Region(m.start, m.end, Speech));
    } else {
      assert before + Gap(loud, cursor, m.start) == before;
      LayRegion(before, cursor, Region(m.start, m.end, Speech));
    }
  }

  lemma {:induction false} MergedInside(spans: seq<Span>, total: int)
    requires Ordered(spans) && forall i :: 0 <= i < |spans| ==> 0 <= spans[i].start && spans[i].end <= total
    ensures Placed(Merged(spans, 16_000), total)
  {
    var ms := Merged(spans, 16_000);
    MergedApart(spans, 16_000);
    forall i | 0 <= i < |ms| ensures 0 <= ms[i].start && ms[i].end <= total {
      MergedIsTight(spans, 16_000, ms[i]);
    }
  }

  predicate IsSpeech(r: Region, m: Span) {
    r == Region(m.start, m.end, Speech)
  }

  // The speech regions are the merged spans, and every other region lies in a gap between them.
  predicate Between(r: Region, ms: seq<Span>) {
    forall i :: 0 <= i < |ms| ==> ms[i].end <= r.start || r.end <= ms[i].start
  }

  lemma {:induction false} RegionIsSpeechOrGap(ms: seq<Span>, loud: Energy, r: Region)
    requires FurtherApart(ms, 16_000) && r in RegionsOf(ms, loud)
    ensures r.kind.Speech? ==> exists i :: 0 <= i < |ms| && IsSpeech(r, ms[i])
    ensures !r.kind.Speech? ==> Between(r, ms) && r.end - r.start >= 80_000 && r.end <= CursorAfter(ms)
    ensures !r.kind.Speech? ==> (r.kind.Music? <==> loud(r.start, r.end))
  {
    var front, m := ms[..|ms| - 1], ms[|ms| - 1];
    if r in RegionsOf(front, loud) {
      RegionIsSpeechOrGap(front, loud, r);
      if r.kind.Speech? {
        var i :| 0 <= i < |front| && IsSpeech(r, front[i]);
        assert IsSpeech(r, ms[i]);
      } else {
        BetweenFront(r, ms);
      }
    } else if r.kind.Speech? {
      assert IsSpeech(r, ms[|ms| - 1]);
    } else {
      assert r == NonSpeech(loud, CursorAfter(front), m.start);
      EndsBeforeCursor(front);
    }
  }

  lemma BetweenFront(r: Region, ms: seq<Span>)
    requires FurtherApart(ms, 16_000) && |ms| > 1
    requires Between(r, ms[..|ms| - 1]) && r.end <= CursorAfter(ms[..|ms| - 1])
    ensures Between(r, ms) && r.end <= CursorAfter(ms)
  {
    assert ms[|ms| - 2].end + 16_000 < ms[|ms| - 1].start;
    forall i | 0 <= i < |ms| - 1 ensures ms[i].end <= r.start || r.end <= ms[i].start {
      assert ms[i] == ms[..|ms| - 1][i];
    }
  }

  lemma EndsBeforeCursor(ms: seq<Span>)
    requires FurtherApart(ms, 16_000)
    ensures forall i :: 0 <= i < |ms| ==> ms[i].end <= CursorAfter(ms)
  {
    forall i | 0 <= i < |ms| ensures ms[i].end <= CursorAfter(ms) {
      if i < |ms| - 1 { assert ms[i].end + 16_000 < ms[|ms| - 1].start; }
    }
  }

  lemma {:induction false} MergedIsARegion(ms: seq<Span>, loud: Energy, i: nat)
    requires i < |ms|
    ensures Region(ms[i].start, ms[i].end, Speech) in RegionsOf(ms, loud)
  {
    if i < |ms| - 1 { MergedIsARegion(ms[..|ms| - 1], loud, i); }
  }

  // ----- the theorems ------------------------------------------------------------------------

  predicate InFile(spans: seq<Span>, total: int) {
    Ordered(spans) && forall i :: 0 <= i < |spans| ==> 0 <= spans[i].start && spans[i].end <= total
  }

  /** The regions are in order, without overlap, inside the file, and what they leave uncovered is never
      five seconds long, at the start and the end of the file included. */
  lemma RegionsCoverTheFile(total: nat, spans: seq<Span>, loud: Energy)
    requires InFile(spans, total)
    ensures LaidOut(Classified(total, spans, loud), 0, total)
  {
    var ms := Merged(spans, 16_000);
    MergedInside(spans, total);
    RegionsLaid(ms, total, loud);
    var cursor := CursorAfter(ms);
    if total - cursor >= 80_000 {
      LayRegion(RegionsOf(ms, loud), cursor, NonSpeech(loud, cursor, total));
    } else {
      assert RegionsOf(ms, loud) + Gap(loud, cursor, total) == RegionsOf(ms, loud);
    }
  }

  /** A region that is not speech lasts at least five seconds, is music exactly when it is loud, and touches
      the interior of no span; a speech region is a merged span. */
  lemma RegionsAreExact(total: nat, spans: seq<Span>, loud: Energy, r: Region)
    requires InFile(spans, total) && r in Classified(total, spans, loud)
    ensures r.kind.Speech? ==> exists m :: m in Merged(spans, 16_000) && IsSpeech(r, m)
    ensures !r.kind.Speech? ==>
      && r.end - r.start >= 80_000 && (r.kind.Music? <==> loud(r.start, r.end))
      && forall k :: 0 <= k < |spans| ==> spans[k].end <= r.start || r.end <= spans[k].start
  {
    var ms := Merged(spans, 16_000);
    MergedApart(spans, 16_000);
    EndsBeforeCursor(ms);
    if r in RegionsOf(ms, loud) {
      RegionIsSpeechOrGap(ms, loud, r);
      if r.kind.Speech? {
        var i :| 0 <= i < |ms| && IsSpeech(r, ms[i]);
        assert ms[i] in ms;
      }
    }
    if !r.kind.Speech? {
      assert Between(r, ms);
      forall k | 0 <= k < |spans| ensures spans[k].end <= r.start || r.end <= spans[k].start {
        SpanIsMerged(spans, 16_000, k);
      }
    }
  }

  // The region starts where the file or the silence after some speech does, and ends likewise.
  predicate FillsGap(r: Region, ms: seq<Span>, total: int) {
    && (r.start == 0 || exists i :: 0 <= i < |ms| && ms[i].end == r.start)
    && (r.end == total || exists i :: 0 <= i < |ms| && ms[i].start == r.end)
  }

  lemma {:induction false} GapIsFilled(ms: seq<Span>, loud: Energy, r: Region, total: int)
    requires r in RegionsOf(ms, loud) && !r.kind.Speech?
    ensures FillsGap(r, ms, total)
  {
    var front, n := ms[..|ms| - 1], |ms| - 1;
    if r in RegionsOf(front, loud) {
      GapIsFilled(front, loud, r, total);
      if i :| 0 <= i < |front| && front[i].end == r.start { assert ms[i].end == r.start; }
      if i :| 0 <= i < |front| && front[i].start == r.end { assert ms[i].start == r.end; }
    } else {
      assert r == NonSpeech(loud, CursorAfter(front), ms[n].start);
      assert front != [] ==> ms[n - 1].end == CursorAfter(front);
      assert ms[n].start == r.end;
    }
  }

  /** A region that is not speech fills its gap: it reaches from one speech region, or the start of the file, to
      the next, or to its end. */
  lemma GapsAreFilled(total: nat, spans: seq<Span>, loud: Energy, r: Region)
    requires r in Classified(total, spans, loud) && !r.kind.Speech?
    ensures FillsGap(r, Merged(spans, 16_000), total)
  {
    var ms := Merged(spans, 16_000);
    if r in RegionsOf(ms, loud) {
      GapIsFilled(ms, loud, r, total);
    } else {
      assert r == NonSpeech(loud, CursorAfter(ms), total);
      assert ms != [] ==> ms[|ms| - 1].end == r.start;
    }
  }

  /** Every span lies in exactly one speech region. */
  lemma SpanInOneSpeechRegion(total: nat, spans: seq<Span>, loud: Energy, k: nat) returns (region: Region)
    requires InFile(spans, total) && k < |spans|
    ensures region in Classified(total, spans, loud) && region.kind.Speech?
    ensures Inside(spans[k], Span(region.start, region.end))
    ensures forall r ::
              r in Classified(total, spans, loud) && r.kind.Speech? && Inside(spans[k], Span(r.start, r.end)) ==>
      r == region
  {
    var ms := Merged(spans, 16_000);
    MergedApart(spans, 16_000);
    SpanIsMerged(spans, 16_000, k);
    var i :| 0 <= i < |ms| && Inside(spans[k], ms[i]);
    MergedIsARegion(ms, loud, i);
    region := Region(ms[i].start, ms[i].end, Speech);
    forall r | r in Classified(total, spans, loud) && r.kind.Speech? && Inside(spans[k], Span(r.start, r.end))
      ensures r == region
    {
      RegionsAreExact(total, spans, loud, r);
      var m :| m in ms && IsSpeech(r, m);
      var j :| 0 <= j < |ms| && ms[j] == m;
      assert i == j;
    }
  }
}
