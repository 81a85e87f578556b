/** Properties of polyline reconstruction and segment flattening, proved about
    the specification functions that the LODData methods are verified against. */
module LodDataProperties {
  import opened LodData
  import opened Wrappers

  // ---------------------------------------------------------------------------
  // Strictly increasing, bounded index sequences
  // ---------------------------------------------------------------------------

  lemma IncreasingConcat(a: seq<int>, b: seq<int>, lo: int, mid: int, hi: int)
    requires lo <= mid <= hi
    requires IncreasingIn(a, lo, mid) && IncreasingIn(b, mid, hi)
    ensures IncreasingIn(a + b, lo, hi)
  {
    var c := a + b;
    forall i | 0 <= i < |c| ensures lo <= c[i] < hi {
      if i >= |a| {
        assert c[i] == b[i - |a|];
      }
    }
    forall i, j | 0 <= i < j < |c| ensures c[i] < c[j] {
      if j < |a| {
      } else if i < |a| {
        assert c[i] == a[i] && c[j] == b[j - |a|];
      } else {
        assert c[i] == b[i - |a|] && c[j] == b[j - |a|];
      }
    }
  }

  lemma IncreasingSplit(a: seq<int>, b: seq<int>, lo: int, hi: int)
    requires IncreasingIn(a + b, lo, hi)
    ensures IncreasingIn(a, lo, hi) && IncreasingIn(b, lo, hi)
  {
    var c := a + b;
    forall i | 0 <= i < |a| ensures lo <= a[i] < hi {
      assert a[i] == c[i];
    }
    forall i | 0 <= i < |b| ensures lo <= b[i] < hi {
      assert b[i] == c[|a| + i];
    }
    forall i, j | 0 <= i < j < |b| ensures b[i] < b[j] {
      assert b[i] == c[|a| + i] && b[j] == c[|a| + j];
    }
    forall i, j | 0 <= i < j < |a| ensures a[i] < a[j] {
      assert a[i] == c[i] && a[j] == c[j];
    }
  }

  // ---------------------------------------------------------------------------
  // The scan of one seed
  // ---------------------------------------------------------------------------

  /** The samples of a seed never push a multi-polyline; only the seed end does. */
  lemma {:induction false} ScanOffsetsKeepsEmitted(s: ScanState, raw: RawData, seed: nat, n: nat)
    requires raw.Valid() && seed < raw.numSeeds && n <= raw.numPointsPerStreamline
    ensures ScanOffsets(s, raw, seed, n).emitted == s.emitted
  {
    if n > 0 {
      ScanOffsetsKeepsEmitted(s, raw, seed, n - 1);
      var prev := ScanOffsets(s, raw, seed, n - 1);
      SampleStepState(prev, seed, n - 1, SampleIndex(raw, seed, n - 1), FlagAt(raw, seed, n - 1), OldFlagAt(raw, seed, n - 1));
    }
  }

  /** Scanning samples appends exactly the indices whose flags record them. */
  lemma {:induction false} ScanOffsetsIndices(s: ScanState, raw: RawData, seed: nat, n: nat)
    requires raw.Valid() && seed < raw.numSeeds && n <= raw.numPointsPerStreamline
    ensures StateIndices(ScanOffsets(s, raw, seed, n)) == StateIndices(s) + SeedRecorded(raw, seed, n)
  {
    if n > 0 {
      ScanOffsetsIndices(s, raw, seed, n - 1);
      var prev := ScanOffsets(s, raw, seed, n - 1);
      SampleStepIndices(prev, seed, n - 1, SampleIndex(raw, seed, n - 1), FlagAt(raw, seed, n - 1), OldFlagAt(raw, seed, n - 1));
    }
  }

  lemma {:induction false} SeedRecordedIncreasing(raw: RawData, seed: nat, n: nat)
    requires raw.Valid() && seed < raw.numSeeds && n <= raw.numPointsPerStreamline
    ensures IncreasingIn(SeedRecorded(raw, seed, n), SampleIndex(raw, seed, 0), SampleIndex(raw, seed, 0) + n)
  {
    if n > 0 {
      SeedRecordedIncreasing(raw, seed, n - 1);
      var lo := SampleIndex(raw, seed, 0);
      var tail := if IsRecorded(FlagAt(raw, seed, n - 1)) then [SampleIndex(raw, seed, n - 1)] else [];
      assert SampleIndex(raw, seed, n - 1) == lo + n - 1;
      assert IncreasingIn(tail, lo + n - 1, lo + n);
      assert SeedRecorded(raw, seed, n) == SeedRecorded(raw, seed, n - 1) + tail;
      IncreasingConcat(SeedRecorded(raw, seed, n - 1), tail, lo, lo + n - 1, lo + n);
    }
  }

  /** Recorded indices only go up, and stay below num_seeds * num_points_per_streamline. */
  lemma {:induction false} RecordedIncreasing(raw: RawData, k: nat)
    requires raw.Valid() && k <= raw.numSeeds
    ensures IncreasingIn(Recorded(raw, k), 0, k * raw.numPointsPerStreamline)
  {
    if k > 0 {
      var p := raw.numPointsPerStreamline;
      RecordedIncreasing(raw, k - 1);
      SeedRecordedIncreasing(raw, k - 1, p);
      assert SampleIndex(raw, k - 1, 0) == (k - 1) * p;
      assert (k - 1) * p + p == k * p;
      assert 0 <= (k - 1) * p;
      IncreasingConcat(Recorded(raw, k - 1), SeedRecorded(raw, k - 1, p), 0, (k - 1) * p, k * p);
    }
  }

  // ---------------------------------------------------------------------------
  // The scan over all seeds
  // ---------------------------------------------------------------------------

  lemma {:induction false} ScanSeedsCount(raw: RawData, direction: Direction, k: nat)
    requires raw.Valid() && k <= raw.numSeeds
    ensures |ScanSeeds(raw, direction, k).emitted| <= k
    ensures direction != Both ==> |ScanSeeds(raw, direction, k).emitted| == k
  {
    if k > 0 {
      ScanSeedsCount(raw, direction, k - 1);
      ScanSeedCountStep(raw, direction, k - 1);
    }
  }

  /** One seed pushes one multi-polyline, or none when BOTH mode keeps it open. */
  lemma ScanSeedCountStep(raw: RawData, direction: Direction, k: nat)
    requires raw.Valid() && k < raw.numSeeds
    ensures var n := |ScanSeeds(raw, direction, k).emitted|;
      var n2 := |ScanSeeds(raw, direction, k + 1).emitted|;
      (n2 == n || n2 == n + 1) && (direction != Both ==> n2 == n + 1)
  {
    var t := ScanOffsets(ScanSeeds(raw, direction, k), raw, k, raw.numPointsPerStreamline);
    ScanOffsetsKeepsEmitted(ScanSeeds(raw, direction, k), raw, k, raw.numPointsPerStreamline);
    ScanSeedsStep(raw, direction, k);
    assert ScanSeeds(raw, direction, k + 1) == SeedFlush(t, direction);
  }

  /** At most one multi-polyline per seed; exactly one per seed unless the mode is BOTH. */
  lemma ExtractCount(raw: RawData, direction: Direction)
    requires raw.Valid()
    ensures |Extracted(raw, direction)| <= raw.numSeeds
    ensures direction != Both ==> |Extracted(raw, direction)| == raw.numSeeds
  {
    ScanSeedsCount(raw, direction, raw.numSeeds);
  }

  lemma {:induction false} ScanSeedsIndices(raw: RawData, direction: Direction, k: nat)
    requires raw.Valid() && k <= raw.numSeeds
    ensures StateIndices(ScanSeeds(raw, direction, k)) == Recorded(raw, k)
  {
    if k > 0 {
      ScanSeedsIndices(raw, direction, k - 1);
      ScanSeedIndicesStep(raw, direction, k - 1);
    }
  }

  /** One seed and its flush decision append that seed's recorded indices. */
  lemma ScanSeedIndicesStep(raw: RawData, direction: Direction, k: nat)
    requires raw.Valid() && k < raw.numSeeds
    requires StateIndices(ScanSeeds(raw, direction, k)) == Recorded(raw, k)
    ensures StateIndices(ScanSeeds(raw, direction, k + 1)) == Recorded(raw, k + 1)
  {
    var p := raw.numPointsPerStreamline;
    var t := ScanOffsets(ScanSeeds(raw, direction, k), raw, k, p);
    ScanOffsetsIndices(ScanSeeds(raw, direction, k), raw, k, p);
    ScanSeedsStep(raw, direction, k);
    assert StateIndices(SeedFlush(t, direction)) == StateIndices(t);
    assert Recorded(raw, k + 1) == Recorded(raw, k) + SeedRecorded(raw, k, p);
  }

  /** AllIndices looks only at the polylines, not at the ids. */
  lemma {:induction false} AllIndicesIgnoresIds(ms: seq<MultiPolyLine>, ns: seq<MultiPolyLine>)
    requires |ms| == |ns| && forall i :: 0 <= i < |ms| ==> ms[i].polyLines == ns[i].polyLines
    ensures AllIndices(ms) == AllIndices(ns)
  {
    if ms != [] {
      AllIndicesIgnoresIds(ms[..|ms| - 1], ns[..|ns| - 1]);
    }
  }

  /** Every recorded index ends up, in order, in a pushed multi-polyline, in the
      unflushed multi-polyline, or in the open polyline; the last two are dropped. */
  lemma ExtractConservesIndices(raw: RawData, direction: Direction)
    requires raw.Valid()
    ensures var final := FinalScanState(raw, direction);
      AllIndices(Extracted(raw, direction)) + PolysIndices(final.multi.polyLines) + final.poly.pointIndices
      == Recorded(raw, raw.numSeeds)
  {
    ScanSeedsIndices(raw, direction, raw.numSeeds);
    var final := FinalScanState(raw, direction);
    AllIndicesIgnoresIds(Extracted(raw, direction), final.emitted);
  }

  /** In FORWARD or BACKWARD mode the multi-polyline is flushed after every
      seed, so only the trailing open polyline can be lost. */
  lemma SingleDirectionDropsOnlyOpenPolyLine(raw: RawData, direction: Direction)
    requires raw.Valid() && direction != Both
    ensures FinalScanState(raw, direction).multi == EmptyMultiPolyLine()
    ensures AllIndices(Extracted(raw, direction)) + FinalScanState(raw, direction).poly.pointIndices
            == Recorded(raw, raw.numSeeds)
  {
    ExtractConservesIndices(raw, direction);
    assert PolysIndices(FinalScanState(raw, direction).multi.polyLines) == [];
  }

  /** The concatenation of all extracted indices is strictly increasing and in range. */
  lemma ExtractIndicesIncreasing(raw: RawData, direction: Direction)
    requires raw.Valid()
    ensures IncreasingIn(AllIndices(Extracted(raw, direction)), 0, raw.numSeeds * raw.numPointsPerStreamline)
  {
    var final := FinalScanState(raw, direction);
    ExtractConservesIndices(raw, direction);
    RecordedIncreasing(raw, raw.numSeeds);
    var n := raw.numSeeds * raw.numPointsPerStreamline;
    assert AllIndices(Extracted(raw, direction)) + PolysIndices(final.multi.polyLines) + final.poly.pointIndices
        == AllIndices(Extracted(raw, direction)) + (PolysIndices(final.multi.polyLines) + final.poly.pointIndices);
    IncreasingSplit(AllIndices(Extracted(raw, direction)), PolysIndices(final.multi.polyLines) + final.poly.pointIndices, 0, n);
  }

  lemma {:induction false} PolysIncreasing(ps: seq<PolyLine>, lo: int, hi: int)
    requires IncreasingIn(PolysIndices(ps), lo, hi)
    ensures forall j :: 0 <= j < |ps| ==> IncreasingIn(ps[j].pointIndices, lo, hi)
  {
    if ps != [] {
      var init := ps[..|ps| - 1];
      IncreasingSplit(PolysIndices(init), ps[|ps| - 1].pointIndices, lo, hi);
      PolysIncreasing(init, lo, hi);
      assert forall j :: 0 <= j < |ps| - 1 ==> ps[j] == init[j];
    }
  }

  lemma {:induction false} MultisIncreasing(ms: seq<MultiPolyLine>, lo: int, hi: int)
    requires IncreasingIn(AllIndices(ms), lo, hi)
    ensures forall i, j :: 0 <= i < |ms| && 0 <= j < |ms[i].polyLines| ==>
      IncreasingIn(ms[i].polyLines[j].pointIndices, lo, hi)
  {
    if ms != [] {
      var init := ms[..|ms| - 1];
      IncreasingSplit(AllIndices(init), PolysIndices(ms[|ms| - 1].polyLines), lo, hi);
      MultisIncreasing(init, lo, hi);
      PolysIncreasing(ms[|ms| - 1].polyLines, lo, hi);
      assert forall i :: 0 <= i < |ms| - 1 ==> ms[i] == init[i];
    }
  }

  /** Every extracted polyline is strictly increasing and indexes a real sample. */
  lemma ExtractedPolyLinesIncreasing(raw: RawData, direction: Direction)
    requires raw.Valid()
    ensures var ms := Extracted(raw, direction);
      forall i, j :: 0 <= i < |ms| && 0 <= j < |ms[i].polyLines| ==>
        IncreasingIn(ms[i].polyLines[j].pointIndices, 0, raw.numSeeds * raw.numPointsPerStreamline)
  {
    ExtractIndicesIncreasing(raw, direction);
    MultisIncreasing(Extracted(raw, direction), 0, raw.numSeeds * raw.numPointsPerStreamline);
  }

  // ---------------------------------------------------------------------------
  // Diagnostics
  // ---------------------------------------------------------------------------

  /** The flag at this sample equals the flag before it in the same seed and is a boundary flag. */
  predicate ConsecutiveAt(raw: RawData, seed: nat, offset: nat, f: int)
    requires raw.Valid()
  {
    seed < raw.numSeeds && 0 < offset < raw.numPointsPerStreamline &&
    f == FlagAt(raw, seed, offset) && f == FlagAt(raw, seed, offset - 1) && IsBoundaryFlag(f)
  }

  predicate UnknownAt(raw: RawData, seed: nat, offset: nat, f: int)
    requires raw.Valid()
  {
    seed < raw.numSeeds && offset < raw.numPointsPerStreamline &&
    f == FlagAt(raw, seed, offset) && !IsKnownFlag(f)
  }

  /** The sample has been examined once k seeds and n samples of seed k are done. */
  predicate Seen(pps: nat, seed: nat, offset: nat, k: nat, n: nat) {
    (seed < k && offset < pps) || (seed == k && offset < n)
  }

  /** The condition under which the source logs warning w. */
  predicate Expected(raw: RawData, w: Warning)
    requires raw.Valid()
  {
    match w
    case ConsecutiveFlags(sd, off, f) => ConsecutiveAt(raw, sd, off, f)
    case UnknownFlag(sd, off, f) => UnknownAt(raw, sd, off, f)
    case SizeOne(sd, off) => sd < raw.numSeeds && off < raw.numPointsPerStreamline && FlagAt(raw, sd, off) == 3
  }

  /** Once k seeds and n samples of seed k are scanned, with e the condition of
      w: w was logged only if it concerns a scanned sample and e holds; and,
      unless it is a size-1 report, it was logged if so. */
  predicate Accounted(pps: nat, ws: seq<Warning>, k: nat, n: nat, w: Warning, e: bool) {
    (w in ws ==> Seen(pps, w.seed, w.offset, k, n) && e) &&
    (!w.SizeOne? && Seen(pps, w.seed, w.offset, k, n) && e ==> w in ws)
  }

  /** Scanning one more sample keeps w accounted for. */
  lemma SampleAccounted(prev: ScanState, raw: RawData, seed: nat, off: nat, w: Warning, e: bool, ws: seq<Warning>)
    requires raw.Valid() && seed < raw.numSeeds && off < raw.numPointsPerStreamline
    requires e == Expected(raw, w)
    requires Accounted(raw.numPointsPerStreamline, prev.warnings, seed, off, w, e)
    requires ws == SampleStep(prev, seed, off, SampleIndex(raw, seed, off),
                              FlagAt(raw, seed, off), OldFlagAt(raw, seed, off)).warnings
    ensures Accounted(raw.numPointsPerStreamline, ws, seed, off + 1, w, e)
  {
    var flag := FlagAt(raw, seed, off);
    SampleStepWarnings(prev, seed, off, SampleIndex(raw, seed, off), flag, OldFlagAt(raw, seed, off));
    var added := ws[|prev.warnings|..];
    assert ws == prev.warnings + added;
    if w.seed == seed && w.offset == off {
      assert w !in prev.warnings;
      match w
      case ConsecutiveFlags(_, _, f) =>
        if w in added { assert f == flag && OldFlagAt(raw, seed, off) == flag; }
      case UnknownFlag(_, _, f) =>
        if w in added { assert f == flag; }
      case SizeOne(_, _) =>
    } else {
      assert w !in added;
    }
  }

  /** SampleAccounted, phrased on the scan of the first n samples of a seed. */
  lemma OffsetStepAccounted(s: ScanState, raw: RawData, seed: nat, n: nat, w: Warning, e: bool)
    requires raw.Valid() && seed < raw.numSeeds && 0 < n <= raw.numPointsPerStreamline
    requires e == Expected(raw, w)
    requires Accounted(raw.numPointsPerStreamline, ScanOffsets(s, raw, seed, n - 1).warnings, seed, n - 1, w, e)
    ensures Accounted(raw.numPointsPerStreamline, ScanOffsets(s, raw, seed, n).warnings, seed, n, w, e)
  {
    SampleAccounted(ScanOffsets(s, raw, seed, n - 1), raw, seed, n - 1, w, e, ScanOffsets(s, raw, seed, n).warnings);
  }

  lemma {:induction false} ScanOffsetsAccounted(s: ScanState, raw: RawData, seed: nat, n: nat, w: Warning, e: bool)
    requires raw.Valid() && seed < raw.numSeeds && n <= raw.numPointsPerStreamline
    requires e == Expected(raw, w)
    requires Accounted(raw.numPointsPerStreamline, s.warnings, seed, 0, w, e)
    ensures Accounted(raw.numPointsPerStreamline, ScanOffsets(s, raw, seed, n).warnings, seed, n, w, e)
  {
    if n > 0 {
      ScanOffsetsAccounted(s, raw, seed, n - 1, w, e);
      OffsetStepAccounted(s, raw, seed, n, w, e);
    }
  }

  /** After the last sample of seed k comes the first of seed k + 1. */
  lemma AccountedAcrossSeedEnd(pps: nat, ws: seq<Warning>, ws2: seq<Warning>, k: nat, w: Warning, e: bool)
    requires ws == ws2 && Accounted(pps, ws, k, pps, w, e)
    ensures Accounted(pps, ws2, k + 1, 0, w, e)
  {
    assert Seen(pps, w.seed, w.offset, k, pps) == Seen(pps, w.seed, w.offset, k + 1, 0);
  }

  /** The flush at the end of a seed logs nothing. */
  lemma ScanSeedsWarningsStep(raw: RawData, direction: Direction, k: nat)
    requires raw.Valid() && 0 < k <= raw.numSeeds
    ensures ScanSeeds(raw, direction, k).warnings ==
            ScanOffsets(ScanSeeds(raw, direction, k - 1), raw, k - 1, raw.numPointsPerStreamline).warnings
  {
  }

  /** Scanning a whole seed, giving ws, keeps w accounted for. */
  lemma SeedAccounted(start: ScanState, raw: RawData, seed: nat, w: Warning, e: bool, ws: seq<Warning>)
    requires raw.Valid() && seed < raw.numSeeds
    requires e == Expected(raw, w)
    requires Accounted(raw.numPointsPerStreamline, start.warnings, seed, 0, w, e)
    requires ws == ScanOffsets(start, raw, seed, raw.numPointsPerStreamline).warnings
    ensures Accounted(raw.numPointsPerStreamline, ws, seed + 1, 0, w, e)
  {
    ScanOffsetsAccounted(start, raw, seed, raw.numPointsPerStreamline, w, e);
    AccountedAcrossSeedEnd(raw.numPointsPerStreamline, ws, ws, seed, w, e);
  }

  /** Scanning seed k - 1, from prev to warnings ws, keeps w accounted for. */
  lemma ScanSeedStepAccounted(raw: RawData, direction: Direction, k: nat, w: Warning, e: bool,
                              prev: ScanState, ws: seq<Warning>)
    requires raw.Valid() && 0 < k <= raw.numSeeds
    requires e == Expected(raw, w)
    requires prev == ScanSeeds(raw, direction, k - 1) && ws == ScanSeeds(raw, direction, k).warnings
    requires Accounted(raw.numPointsPerStreamline, prev.warnings, k - 1, 0, w, e)
    ensures Accounted(raw.numPointsPerStreamline, ws, k, 0, w, e)
  {
    ScanSeedsWarningsStep(raw, direction, k);
    SeedAccounted(prev, raw, k - 1, w, e, ws);
  }

  lemma {:induction false} ScanSeedsAccounted(raw: RawData, direction: Direction, k: nat, w: Warning, e: bool)
    requires raw.Valid() && k <= raw.numSeeds
    requires e == Expected(raw, w)
    ensures Accounted(raw.numPointsPerStreamline, ScanSeeds(raw, direction, k).warnings, k, 0, w, e)
  {
    if k > 0 {
      ScanSeedsAccounted(raw, direction, k - 1, w, e);
      ScanSeedStepAccounted(raw, direction, k, w, e, ScanSeeds(raw, direction, k - 1), ScanSeeds(raw, direction, k).warnings);
    }
  }

  /** A consecutive-flag warning is logged for a sample exactly when its flag is
      a boundary flag equal to the previous flag of the same seed; the first
      sample of a seed never gets one. */
  lemma ConsecutiveWarningsExact(raw: RawData, direction: Direction, seed: nat, offset: nat, f: int)
    requires raw.Valid()
    ensures ConsecutiveFlags(seed, offset, f) in ExtractWarnings(raw, direction) <==> ConsecutiveAt(raw, seed, offset, f)
  {
    var w := ConsecutiveFlags(seed, offset, f);
    ScanSeedsAccounted(raw, direction, raw.numSeeds, w, Expected(raw, w));
  }

  /** An unknown-flag warning is logged exactly for the samples whose flag is outside -1..3. */
  lemma UnknownFlagWarningsExact(raw: RawData, direction: Direction, seed: nat, offset: nat, f: int)
    requires raw.Valid()
    ensures UnknownFlag(seed, offset, f) in ExtractWarnings(raw, direction) <==> UnknownAt(raw, seed, offset, f)
  {
    var w := UnknownFlag(seed, offset, f);
    ScanSeedsAccounted(raw, direction, raw.numSeeds, w, Expected(raw, w));
  }

  /** A size-1 warning only ever comes from a sample with flag 3. */
  lemma SizeOneWarningsAtTerminals(raw: RawData, direction: Direction, seed: nat, offset: nat)
    requires raw.Valid()
    requires SizeOne(seed, offset) in ExtractWarnings(raw, direction)
    ensures seed < raw.numSeeds && offset < raw.numPointsPerStreamline && FlagAt(raw, seed, offset) == 3
  {
    var w := SizeOne(seed, offset);
    ScanSeedsAccounted(raw, direction, raw.numSeeds, w, Expected(raw, w));
  }

  // ---------------------------------------------------------------------------
  // Segment flattening
  // ---------------------------------------------------------------------------

  lemma {:induction false} PolysSegmentsAppend(ps: seq<PolyLine>, qs: seq<PolyLine>, id: int)
    ensures PolysSegments(ps + qs, id) == PolysSegments(ps, id) + PolysSegments(qs, id)
  {
    if qs == [] {
      assert ps + qs == ps;
    } else {
      var init := qs[..|qs| - 1];
      var tail := PolySegments(qs[|qs| - 1], id);
      PolysSegmentsAppend(ps, init, id);
      assert (ps + qs)[..|ps + qs| - 1] == ps + init;
      assert (ps + qs)[|ps + qs| - 1] == qs[|qs| - 1];
      assert PolysSegments(ps + qs, id) == PolysSegments(ps + init, id) + tail;
      assert PolysSegments(ps, id) + PolysSegments(init, id) + tail ==
             PolysSegments(ps, id) + (PolysSegments(init, id) + tail);
    }
  }

  /** Segments are grouped by multi-polyline, in the order of the list. */
  lemma {:induction false} SegmentsAppend(ms: seq<MultiPolyLine>, ns: seq<MultiPolyLine>)
    ensures Segments(ms + ns) == Segments(ms) + Segments(ns)
  {
    if ns == [] {
      assert ms + ns == ms;
    } else {
      var init := ns[..|ns| - 1];
      var last := ns[|ns| - 1];
      var tail := PolysSegments(last.polyLines, last.multiPolyID);
      SegmentsAppend(ms, init);
      assert (ms + ns)[..|ms + ns| - 1] == ms + init;
      assert (ms + ns)[|ms + ns| - 1] == last;
      assert Segments(ms + ns) == Segments(ms + init) + tail;
      assert Segments(ns) == Segments(init) + tail;
      assert Segments(ms) + Segments(init) + tail == Segments(ms) + (Segments(init) + tail);
    }
  }

  /** Number of segments a polyline yields: max(n - 1, 0). */
  function PolyLineSegmentCount(p: PolyLine): nat {
    if |p.pointIndices| < 2 then 0 else |p.pointIndices| - 1
  }

  function PolysSegmentCount(ps: seq<PolyLine>): nat {
    if ps == [] then 0 else PolysSegmentCount(ps[..|ps| - 1]) + PolyLineSegmentCount(ps[|ps| - 1])
  }

  function SegmentCount(ms: seq<MultiPolyLine>): nat {
    if ms == [] then 0 else SegmentCount(ms[..|ms| - 1]) + PolysSegmentCount(ms[|ms| - 1].polyLines)
  }

  /** Number of polylines with at least two indices. */
  function PolysLongCount(ps: seq<PolyLine>): nat {
    if ps == [] then 0 else PolysLongCount(ps[..|ps| - 1]) + (if |ps[|ps| - 1].pointIndices| >= 2 then 1 else 0)
  }

  function LongPolyLineCount(ms: seq<MultiPolyLine>): nat {
    if ms == [] then 0 else LongPolyLineCount(ms[..|ms| - 1]) + PolysLongCount(ms[|ms| - 1].polyLines)
  }

  /** How many segments are marked as the beginning of their polyline. */
  function BeginningCount(segs: seq<LineSegment>): nat {
    if segs == [] then 0 else BeginningCount(segs[..|segs| - 1]) + (if segs[|segs| - 1].isBeginning == 1 then 1 else 0)
  }

  lemma {:induction false} BeginningCountAppend(a: seq<LineSegment>, b: seq<LineSegment>)
    ensures BeginningCount(a + b) == BeginningCount(a) + BeginningCount(b)
  {
    if b != [] {
      BeginningCountAppend(a, b[..|b| - 1]);
      assert (a + b)[..|a + b| - 1] == a + b[..|b| - 1];
    } else {
      assert a + b == a;
    }
  }

  lemma {:induction false} PolySegmentBeginnings(p: PolyLine, id: int, n: nat)
    requires n <= |PolySegments(p, id)|
    ensures BeginningCount(PolySegments(p, id)[..n]) == (if n >= 1 then 1 else 0)
  {
    if n > 0 {
      PolySegmentBeginnings(p, id, n - 1);
      assert PolySegments(p, id)[..n][..n - 1] == PolySegments(p, id)[..n - 1];
    }
  }

  lemma {:induction false} PolysSegmentsCounts(ps: seq<PolyLine>, id: int)
    ensures |PolysSegments(ps, id)| == PolysSegmentCount(ps)
    ensures BeginningCount(PolysSegments(ps, id)) == PolysLongCount(ps)
  {
    if ps != [] {
      var last := ps[|ps| - 1];
      PolysSegmentsCounts(ps[..|ps| - 1], id);
      BeginningCountAppend(PolysSegments(ps[..|ps| - 1], id), PolySegments(last, id));
      PolySegmentBeginnings(last, id, |PolySegments(last, id)|);
      assert PolySegments(last, id)[..|PolySegments(last, id)|] == PolySegments(last, id);
    }
  }

  /** A polyline of n indices yields max(n - 1, 0) segments, exactly one of them
      (when there are any) marked as its beginning. */
  lemma {:induction false} SegmentCounts(ms: seq<MultiPolyLine>)
    ensures |Segments(ms)| == SegmentCount(ms)
    ensures BeginningCount(Segments(ms)) == LongPolyLineCount(ms)
  {
    if ms != [] {
      var last := ms[|ms| - 1];
      SegmentCounts(ms[..|ms| - 1]);
      PolysSegmentsCounts(last.polyLines, last.multiPolyID);
      BeginningCountAppend(Segments(ms[..|ms| - 1]), PolysSegments(last.polyLines, last.multiPolyID));
    }
  }

  predicate SegmentWithin(seg: LineSegment, lo: int, hi: int, idBound: int) {
    lo <= seg.indexA < seg.indexB < hi && 0 <= seg.multiPolyID < idBound &&
    seg.copy == 0 && (seg.isBeginning == 0 || seg.isBeginning == 1)
  }

  /** Every segment of the polylines of one multi-polyline carries its id. */
  lemma {:induction false} PolysSegmentsIds(ps: seq<PolyLine>, id: int)
    ensures forall seg :: seg in PolysSegments(ps, id) ==> seg.multiPolyID == id
  {
    if ps != [] {
      PolysSegmentsIds(ps[..|ps| - 1], id);
    }
  }

  lemma {:induction false} PolysSegmentsWithin(ps: seq<PolyLine>, id: int, lo: int, hi: int, idBound: int)
    requires 0 <= id < idBound
    requires forall j :: 0 <= j < |ps| ==> IncreasingIn(ps[j].pointIndices, lo, hi)
    ensures forall seg :: seg in PolysSegments(ps, id) ==> SegmentWithin(seg, lo, hi, idBound)
    ensures forall seg :: seg in PolysSegments(ps, id) ==> seg.multiPolyID == id
  {
    if ps != [] {
      var last := ps[|ps| - 1];
      PolysSegmentsWithin(ps[..|ps| - 1], id, lo, hi, idBound);
      assert IncreasingIn(last.pointIndices, lo, hi);
      PolysSegmentsIds(ps, id);
      forall seg | seg in PolySegments(last, id) ensures SegmentWithin(seg, lo, hi, idBound) {
        var k :| 0 <= k < |PolySegments(last, id)| && PolySegments(last, id)[k] == seg;
        assert seg.indexA == last.pointIndices[k] && seg.indexB == last.pointIndices[k + 1];
      }
    }
  }

  lemma {:induction false} SegmentsWithin(ms: seq<MultiPolyLine>, lo: int, hi: int, idBound: int)
    requires forall i :: 0 <= i < |ms| ==> 0 <= ms[i].multiPolyID < idBound
    requires forall i, j :: 0 <= i < |ms| && 0 <= j < |ms[i].polyLines| ==>
      IncreasingIn(ms[i].polyLines[j].pointIndices, lo, hi)
    ensures forall seg :: seg in Segments(ms) ==> SegmentWithin(seg, lo, hi, idBound)
  {
    if ms != [] {
      var last := ms[|ms| - 1];
      SegmentsWithin(ms[..|ms| - 1], lo, hi, idBound);
      PolysSegmentsWithin(last.polyLines, last.multiPolyID, lo, hi, idBound);
    }
  }

  /** Every segment of a list comes from one of its multi-polylines and carries
      that multi-polyline's id. */
  lemma {:induction false} SegmentsOwned(ms: seq<MultiPolyLine>)
    ensures forall seg :: seg in Segments(ms) ==>
      exists i :: 0 <= i < |ms| && seg.multiPolyID == ms[i].multiPolyID &&
                  seg in PolysSegments(ms[i].polyLines, ms[i].multiPolyID)
  {
    if ms != [] {
      var n := |ms| - 1;
      var init := ms[..n];
      SegmentsOwned(init);
      PolysSegmentsIds(ms[n].polyLines, ms[n].multiPolyID);
      forall seg | seg in Segments(ms)
        ensures exists i :: 0 <= i < |ms| && seg.multiPolyID == ms[i].multiPolyID &&
                            seg in PolysSegments(ms[i].polyLines, ms[i].multiPolyID)
      {
        if seg in Segments(init) {
          var i :| 0 <= i < |init| && seg.multiPolyID == init[i].multiPolyID &&
                   seg in PolysSegments(init[i].polyLines, init[i].multiPolyID);
          assert init[i] == ms[i];
        } else {
          assert seg in PolysSegments(ms[n].polyLines, ms[n].multiPolyID);
        }
      }
    }
  }

  /** After extraction, every generated segment references two real samples with
      indexA < indexB, has copy 0, and its id is the position of the
      multi-polyline whose polylines produced it. */
  lemma ExtractedSegmentsValid(raw: RawData, direction: Direction)
    requires raw.Valid()
    ensures var ms := Extracted(raw, direction);
      forall seg :: seg in Segments(ms) ==>
        SegmentWithin(seg, 0, raw.numSeeds * raw.numPointsPerStreamline, |ms|)
    ensures var ms := Extracted(raw, direction);
      forall seg :: seg in Segments(ms) ==>
        0 <= seg.multiPolyID < |ms| && seg in PolysSegments(ms[seg.multiPolyID].polyLines, seg.multiPolyID)
  {
    ExtractedPolyLinesIncreasing(raw, direction);
    var ms := Extracted(raw, direction);
    SegmentsWithin(ms, 0, raw.numSeeds * raw.numPointsPerStreamline, |ms|);
    SegmentsOwned(ms);
    forall seg | seg in Segments(ms)
      ensures 0 <= seg.multiPolyID < |ms| && seg in PolysSegments(ms[seg.multiPolyID].polyLines, seg.multiPolyID)
    {
      var i :| 0 <= i < |ms| && seg.multiPolyID == ms[i].multiPolyID &&
               seg in PolysSegments(ms[i].polyLines, ms[i].multiPolyID);
      assert ms[i].multiPolyID == i;
    }
  }

  // ---------------------------------------------------------------------------
  // Worked examples
  // ---------------------------------------------------------------------------

  /** The scan of a seed of three samples, written out. */
  lemma ThreeSampleSeed(s: ScanState, raw: RawData, seed: nat)
    requires raw.Valid() && seed < raw.numSeeds && raw.numPointsPerStreamline == 3
    ensures ScanOffsets(s, raw, seed, 3) ==
      SampleStep(SampleStep(SampleStep(s, seed, 0, SampleIndex(raw, seed, 0), FlagAt(raw, seed, 0), NO_FLAG),
                            seed, 1, SampleIndex(raw, seed, 1), FlagAt(raw, seed, 1), FlagAt(raw, seed, 0)),
                 seed, 2, SampleIndex(raw, seed, 2), FlagAt(raw, seed, 2), FlagAt(raw, seed, 1))
  {
    assert ScanOffsets(s, raw, seed, 0) == s;
    assert ScanOffsets(s, raw, seed, 1) ==
      SampleStep(s, seed, 0, SampleIndex(raw, seed, 0), FlagAt(raw, seed, 0), NO_FLAG);
  }

  /** Flags 1 3 3 in one seed: the second 3 closes a polyline of one sample and
      repeats a boundary flag, so exactly these two diagnostics are logged. */
  lemma RepeatedTerminatorExample(raw: RawData, direction: Direction)
    requires raw.numSeeds == 1 && raw.numPointsPerStreamline == 3 && raw.flags == [1, 3, 3]
    ensures raw.Valid()
    ensures ExtractWarnings(raw, direction) == [SizeOne(0, 2), ConsecutiveFlags(0, 2, 3)]
  {
    assert FlagAt(raw, 0, 0) == 1 && FlagAt(raw, 0, 1) == 3 && FlagAt(raw, 0, 2) == 3;
    assert SampleIndex(raw, 0, 0) == 0 && SampleIndex(raw, 0, 1) == 1 && SampleIndex(raw, 0, 2) == 2;
    var s0 := ScanSeeds(raw, direction, 0);
    assert s0 == InitialScanState();
    ThreeSampleSeed(s0, raw, 0);
    var s1 := SampleStep(s0, 0, 0, 0, 1, NO_FLAG);
    var s2 := SampleStep(s1, 0, 1, 1, 3, 1);
    assert StepWarnings(0, 0, 1, NO_FLAG, true) == [];
    assert s1.warnings == [] && s1.poly.pointIndices == [0];
    assert StepWarnings(0, 1, 3, 1, false) == [];
    assert s2.warnings == [] && s2.poly.pointIndices == [];
    assert StepWarnings(0, 2, 3, 3, true) == [SizeOne(0, 2), ConsecutiveFlags(0, 2, 3)];
    assert SampleStep(s2, 0, 2, 2, 3, 3).warnings == [SizeOne(0, 2), ConsecutiveFlags(0, 2, 3)];
    ScanSeedsWarningsStep(raw, direction, 1);
  }

  /** Samples f 2 3 with f = 1 or -1 at indices i, i+1, i+2, starting with no
      open polyline: one polyline of three is pushed into the multi-polyline,
      and the direction is Forward for 1 and Backward for -1. */
  lemma TracedSteps(s: ScanState, seed: nat, i: int, f: int)
    requires (f == 1 || f == -1) && s.poly == EmptyPolyLine()
    ensures var r := SampleStep(SampleStep(SampleStep(s, seed, 0, i, f, NO_FLAG), seed, 1, i + 1, 2, f), seed, 2, i + 2, 3, 2);
      && r.emitted == s.emitted && r.poly == EmptyPolyLine()
      && r.currentDirection == Some(if f == 1 then Forward else Backward)
      && r.multi == s.multi.(polyLines := s.multi.polyLines + [PolyLine([i, i + 1, i + 2])])
  {
    var r1 := SampleStep(s, seed, 0, i, f, NO_FLAG);
    SampleStepState(s, seed, 0, i, f, NO_FLAG);
    var r2 := SampleStep(r1, seed, 1, i + 1, 2, f);
    SampleStepState(r1, seed, 1, i + 1, 2, f);
    SampleStepState(r2, seed, 2, i + 2, 3, 2);
    assert r2.poly.pointIndices + [i + 2] == [i, i + 1, i + 2];
  }

  /** A seed traced as f 2 3 with f = 1 or -1, scanned with no open polyline. */
  lemma TracedSeed(s: ScanState, raw: RawData, seed: nat, f: int)
    requires raw.Valid() && seed < raw.numSeeds && raw.numPointsPerStreamline == 3
    requires (f == 1 || f == -1) && FlagAt(raw, seed, 0) == f && FlagAt(raw, seed, 1) == 2 && FlagAt(raw, seed, 2) == 3
    requires s.poly == EmptyPolyLine()
    ensures var r := ScanOffsets(s, raw, seed, 3);
      var i := SampleIndex(raw, seed, 0);
      && r.emitted == s.emitted && r.poly == EmptyPolyLine()
      && r.currentDirection == Some(if f == 1 then Forward else Backward)
      && r.multi == s.multi.(polyLines := s.multi.polyLines + [PolyLine([i, i + 1, i + 2])])
  {
    var i := SampleIndex(raw, seed, 0);
    assert SampleIndex(raw, seed, 1) == i + 1 && SampleIndex(raw, seed, 2) == i + 2;
    ThreeSampleSeed(s, raw, seed);
    TracedSteps(s, seed, i, f);
  }

  /** A first seed traced 1 2 3 ends Forward, so BOTH mode keeps its multi-polyline open. */
  lemma ForwardFirstSeed(raw: RawData)
    requires raw.Valid() && 0 < raw.numSeeds && raw.numPointsPerStreamline == 3
    requires FlagAt(raw, 0, 0) == 1 && FlagAt(raw, 0, 1) == 2 && FlagAt(raw, 0, 2) == 3
    ensures var s1 := ScanSeeds(raw, Both, 1);
      s1.emitted == [] && s1.poly == EmptyPolyLine() && s1.multi == MultiPolyLine([PolyLine([0, 1, 2])], -1)
  {
    var s0 := ScanSeeds(raw, Both, 0);
    assert s0 == InitialScanState();
    TracedSeed(s0, raw, 0, 1);
    SeedKeptOpen(raw, 0);
  }

  /** In BOTH mode a seed that ends Forward leaves the state as its samples left it. */
  lemma SeedKeptOpen(raw: RawData, k: nat)
    requires raw.Valid() && k < raw.numSeeds
    requires ScanOffsets(ScanSeeds(raw, Both, k), raw, k, raw.numPointsPerStreamline).currentDirection == Some(Forward)
    ensures ScanSeeds(raw, Both, k + 1) == ScanOffsets(ScanSeeds(raw, Both, k), raw, k, raw.numPointsPerStreamline)
  {
    ScanSeedsStep(raw, Both, k);
  }

  /** Seeds traced 1 2 3 and -1 2 3 in BOTH mode: the forward half keeps the
      multi-polyline open and the backward half flushes both polylines together. */
  lemma PairScan(raw: RawData)
    requires raw.Valid() && raw.numSeeds == 2 && raw.numPointsPerStreamline == 3
    requires FlagAt(raw, 0, 0) == 1 && FlagAt(raw, 0, 1) == 2 && FlagAt(raw, 0, 2) == 3
    requires FlagAt(raw, 1, 0) == -1 && FlagAt(raw, 1, 1) == 2 && FlagAt(raw, 1, 2) == 3
    ensures FinalScanState(raw, Both).emitted == [MultiPolyLine([PolyLine([0, 1, 2]), PolyLine([3, 4, 5])], -1)]
  {
    ForwardFirstSeed(raw);
    var s1 := ScanSeeds(raw, Both, 1);
    TracedSeed(s1, raw, 1, -1);
    var t := ScanOffsets(s1, raw, 1, 3);
    assert [PolyLine([0, 1, 2])] + [PolyLine([3, 4, 5])] == [PolyLine([0, 1, 2]), PolyLine([3, 4, 5])];
    assert t.multi == MultiPolyLine([PolyLine([0, 1, 2]), PolyLine([3, 4, 5])], -1);
    ScanSeedsStep(raw, Both, 1);
    assert ScanSeeds(raw, Both, 2) == SeedFlush(t, Both);
  }

  /** Two seeds in BOTH mode, the first ending FORWARD and the second BACKWARD:
      their polylines form exactly one multi-polyline. */
  lemma BothModePairExample(raw: RawData)
    requires raw.numSeeds == 2 && raw.numPointsPerStreamline == 3 && raw.flags == [1, 2, 3, -1, 2, 3]
    ensures raw.Valid()
    ensures Extracted(raw, Both) == [MultiPolyLine([PolyLine([0, 1, 2]), PolyLine([3, 4, 5])], 0)]
  {
    assert FlagAt(raw, 0, 0) == 1 && FlagAt(raw, 0, 1) == 2 && FlagAt(raw, 0, 2) == 3;
    assert FlagAt(raw, 1, 0) == -1 && FlagAt(raw, 1, 1) == 2 && FlagAt(raw, 1, 2) == 3;
    PairScan(raw);
    var e := Extracted(raw, Both);
    assert |e| == 1 && e[0] == MultiPolyLine([PolyLine([0, 1, 2]), PolyLine([3, 4, 5])], 0);
  }

  /** A single forward seed in BOTH mode is never flushed: nothing is extracted. */
  lemma BothModeDropsUnpairedExample(raw: RawData)
    requires raw.numSeeds == 1 && raw.numPointsPerStreamline == 3 && raw.flags == [1, 2, 3]
    ensures raw.Valid()
    ensures Extracted(raw, Both) == []
  {
    assert FlagAt(raw, 0, 0) == 1 && FlagAt(raw, 0, 1) == 2 && FlagAt(raw, 0, 2) == 3;
    ForwardFirstSeed(raw);
  }
}
