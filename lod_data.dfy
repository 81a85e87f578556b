/** One level of detail of the streamline renderer: the flag-driven reconstruction
    of polylines and multi-polylines from a flat sample stream, and their
    flattening into line segments. */
module LodData {

  import opened Wrappers

  /** The run parameter DIRECTION_FORWARD / DIRECTION_BACKWARD / DIRECTION_BOTH. */
  datatype Direction = Forward | Backward | Both

  /** Ordered sample indices of one traced curve piece. */
  datatype PolyLine = PolyLine(pointIndices: seq<int>)

  /** A group of polylines; the id is -1 until extraction numbers it. */
  datatype MultiPolyLine = MultiPolyLine(polyLines: seq<PolyLine>, multiPolyID: int)

  /** The integer part of a segment record; its matrices are not modelled. */
  datatype LineSegment = LineSegment(indexA: int, indexB: int, multiPolyID: int, copy: int, isBeginning: int)

  /** Diagnostics that the source logs to the console, tagged with the sample
      (seed and offset within the seed) that caused them. */
  datatype Warning =
    | SizeOne(seed: nat, offset: nat)
    | UnknownFlag(seed: nat, offset: nat, flag: int)
    | ConsecutiveFlags(seed: nat, offset: nat, flag: int)

  /** The raw data provider: the flag of sample i is flags[i]; seed s owns the
      samples s * numPointsPerStreamline + offset. */
  datatype RawData = RawData(numSeeds: nat, numPointsPerStreamline: nat, flags: seq<int>)
  {
    predicate Valid() {
      numSeeds * numPointsPerStreamline <= |flags|
    }
  }

  /** The value oldFlag holds before the first sample of every seed. */
  const NO_FLAG := 1337

  function EmptyPolyLine(): PolyLine { PolyLine([]) }

  function EmptyMultiPolyLine(): MultiPolyLine { MultiPolyLine([], -1) }

  /** Flags -1, 1, 2 and 3 record their sample in the open polyline. */
  predicate IsRecorded(flag: int) {
    flag == -1 || flag == 1 || flag == 2 || flag == 3
  }

  /** Flags that may not appear twice in a row. */
  predicate IsBoundaryFlag(flag: int) {
    flag == 3 || flag == 1 || flag == -1
  }

  predicate IsKnownFlag(flag: int) {
    -1 <= flag <= 3
  }

  // ---------------------------------------------------------------------------
  // Sample addressing
  // ---------------------------------------------------------------------------

  lemma SampleIndexBound(raw: RawData, seed: nat, offset: nat)
    requires raw.Valid() && seed < raw.numSeeds && offset < raw.numPointsPerStreamline
    ensures seed * raw.numPointsPerStreamline + offset < raw.numSeeds * raw.numPointsPerStreamline
  {
    var p := raw.numPointsPerStreamline;
    var d := raw.numSeeds - seed - 1;
    assert raw.numSeeds * p == seed * p + p + d * p;
    assert d * p >= 0;
  }

  function SampleIndex(raw: RawData, seed: nat, offset: nat): nat {
    seed * raw.numPointsPerStreamline + offset
  }

  function FlagAt(raw: RawData, seed: nat, offset: nat): int
    requires raw.Valid() && seed < raw.numSeeds && offset < raw.numPointsPerStreamline
  {
    SampleIndexBound(raw, seed, offset);
    raw.flags[SampleIndex(raw, seed, offset)]
  }

  /** The value of oldFlag when the sample at this offset is examined. */
  function OldFlagAt(raw: RawData, seed: nat, offset: nat): int
    requires raw.Valid() && seed < raw.numSeeds && offset < raw.numPointsPerStreamline
  {
    if offset == 0 then NO_FLAG else FlagAt(raw, seed, offset - 1)
  }

  // ---------------------------------------------------------------------------
  // Index streams
  // ---------------------------------------------------------------------------

  /** All indices of a list of polylines, in order. */
  function PolysIndices(ps: seq<PolyLine>): seq<int> {
    if ps == [] then [] else PolysIndices(ps[..|ps| - 1]) + ps[|ps| - 1].pointIndices
  }

  /** All indices recorded in a list of multi-polylines, in order. */
  function AllIndices(ms: seq<MultiPolyLine>): seq<int> {
    if ms == [] then [] else AllIndices(ms[..|ms| - 1]) + PolysIndices(ms[|ms| - 1].polyLines)
  }

  /** The samples among the first n of a seed whose flag records them. */
  function SeedRecorded(raw: RawData, seed: nat, n: nat): seq<int>
    requires raw.Valid() && seed < raw.numSeeds && n <= raw.numPointsPerStreamline
  {
    if n == 0 then []
    else SeedRecorded(raw, seed, n - 1)
         + (if IsRecorded(FlagAt(raw, seed, n - 1)) then [SampleIndex(raw, seed, n - 1)] else [])
  }

  /** The samples of the first k seeds whose flag records them. */
  function Recorded(raw: RawData, k: nat): seq<int>
    requires raw.Valid() && k <= raw.numSeeds
  {
    if k == 0 then [] else Recorded(raw, k - 1) + SeedRecorded(raw, k - 1, raw.numPointsPerStreamline)
  }

  /** Every element in [lo, hi) and the sequence strictly increasing. */
  predicate IncreasingIn(s: seq<int>, lo: int, hi: int) {
    (forall i :: 0 <= i < |s| ==> lo <= s[i] < hi) &&
    (forall i, j :: 0 <= i < j < |s| ==> s[i] < s[j])
  }

  // ---------------------------------------------------------------------------
  // Polyline reconstruction: the scan as a function
  // ---------------------------------------------------------------------------

  /** The variables ExtractMultiPolyLines carries from sample to sample:
      the multi-polylines pushed so far, multi, poly, currentDirection and the
      diagnostics logged so far. */
  datatype ScanState = ScanState(
    emitted: seq<MultiPolyLine>,
    multi: MultiPolyLine,
    poly: PolyLine,
    currentDirection: Option<Direction>,
    warnings: seq<Warning>)

  function InitialScanState(): ScanState {
    ScanState([], EmptyMultiPolyLine(), EmptyPolyLine(), None, [])
  }

  /** Everything recorded so far: pushed, in the open multi-polyline, in the open polyline. */
  function StateIndices(s: ScanState): seq<int> {
    AllIndices(s.emitted) + PolysIndices(s.multi.polyLines) + s.poly.pointIndices
  }

  /** The diagnostics one sample adds: a size-1 polyline closed by flag 3,
      an unknown flag, then a repeated boundary flag. */
  function StepWarnings(seed: nat, offset: nat, flag: int, oldFlag: int, openEmpty: bool): seq<Warning> {
    (if flag == 3 && openEmpty then [SizeOne(seed, offset)] else [])
    + (if !IsKnownFlag(flag) then [UnknownFlag(seed, offset, flag)] else [])
    + (if flag == oldFlag && IsBoundaryFlag(flag) then [ConsecutiveFlags(seed, offset, flag)] else [])
  }

  /** The switch on one sample's flag followed by the consecutive-flag check. */
  function SampleStep(s: ScanState, seed: nat, offset: nat, index: int, flag: int, oldFlag: int): ScanState {
    var extended := PolyLine(s.poly.pointIndices + [index]);
    var s1 :=
      if flag == -1 then s.(currentDirection := Some(Backward), poly := extended)
      else if flag == 0 then s
      else if flag == 1 then s.(currentDirection := Some(Forward), poly := extended)
      else if flag == 2 then s.(poly := extended)
      else if flag == 3 then
        s.(multi := s.multi.(polyLines := s.multi.polyLines + [extended]), poly := EmptyPolyLine())
      else s;
    s1.(warnings := s.warnings + StepWarnings(seed, offset, flag, oldFlag, s.poly.pointIndices == []))
  }

  /** What one sample does to the open multi-polyline, polyline and direction:
      flags -1 and 1 set the direction; -1, 1 and 2 extend the open polyline;
      3 extends it, pushes it into multi and opens a fresh one; 0 and unknown
      flags change nothing. */
  lemma SampleStepState(s: ScanState, seed: nat, offset: nat, index: int, flag: int, oldFlag: int)
    ensures var r := SampleStep(s, seed, offset, index, flag, oldFlag);
      && r.emitted == s.emitted
      && r.currentDirection ==
           (if flag == -1 then Some(Backward) else if flag == 1 then Some(Forward) else s.currentDirection)
      && (flag == 3 ==>
            r.poly == EmptyPolyLine() &&
            r.multi.polyLines == s.multi.polyLines + [PolyLine(s.poly.pointIndices + [index])])
      && (flag != 3 ==> r.multi == s.multi)
      && (flag != 3 && IsRecorded(flag) ==> r.poly.pointIndices == s.poly.pointIndices + [index])
      && (!IsRecorded(flag) ==> r.poly == s.poly)
  {
  }

  /** One sample appends its index to everything recorded exactly when its flag records it. */
  lemma SampleStepIndices(s: ScanState, seed: nat, offset: nat, index: int, flag: int, oldFlag: int)
    ensures StateIndices(SampleStep(s, seed, offset, index, flag, oldFlag)) ==
            StateIndices(s) + (if IsRecorded(flag) then [index] else [])
  {
    var r := SampleStep(s, seed, offset, index, flag, oldFlag);
    SampleStepState(s, seed, offset, index, flag, oldFlag);
    if flag == 3 {
      var ps := r.multi.polyLines;
      assert ps[..|ps| - 1] == s.multi.polyLines;
      assert PolysIndices(ps) == PolysIndices(s.multi.polyLines) + s.poly.pointIndices + [index];
    }
  }

  /** The diagnostics of one sample concern that sample, and each kind is
      logged exactly under its condition. */
  lemma StepWarningsFacts(seed: nat, offset: nat, flag: int, oldFlag: int, openEmpty: bool)
    ensures var added := StepWarnings(seed, offset, flag, oldFlag, openEmpty);
      && (forall w :: w in added ==> w.seed == seed && w.offset == offset && (!w.SizeOne? ==> w.flag == flag))
      && (ConsecutiveFlags(seed, offset, flag) in added <==> flag == oldFlag && IsBoundaryFlag(flag))
      && (UnknownFlag(seed, offset, flag) in added <==> !IsKnownFlag(flag))
      && (SizeOne(seed, offset) in added <==> flag == 3 && openEmpty)
  {
  }

  /** One sample adds diagnostics tagged with its seed, offset and flag, after the old ones. */
  lemma SampleStepWarnings(s: ScanState, seed: nat, offset: nat, index: int, flag: int, oldFlag: int)
    ensures var r := SampleStep(s, seed, offset, index, flag, oldFlag);
      && |s.warnings| <= |r.warnings| && r.warnings[..|s.warnings|] == s.warnings
      && (forall w :: w in r.warnings[|s.warnings|..] ==>
            w.seed == seed && w.offset == offset && (!w.SizeOne? ==> w.flag == flag))
      && (ConsecutiveFlags(seed, offset, flag) in r.warnings[|s.warnings|..] <==>
            flag == oldFlag && IsBoundaryFlag(flag))
      && (UnknownFlag(seed, offset, flag) in r.warnings[|s.warnings|..] <==> !IsKnownFlag(flag))
      && (SizeOne(seed, offset) in r.warnings[|s.warnings|..] <==> flag == 3 && s.poly.pointIndices == [])
  {
    var r := SampleStep(s, seed, offset, index, flag, oldFlag);
    var added := StepWarnings(seed, offset, flag, oldFlag, s.poly.pointIndices == []);
    StepWarningsFacts(seed, offset, flag, oldFlag, s.poly.pointIndices == []);
    assert r.warnings == s.warnings + added;
    assert r.warnings[|s.warnings|..] == added;
  }

  /** The state after the first n samples of a seed. */
  function ScanOffsets(s: ScanState, raw: RawData, seed: nat, n: nat): ScanState
    requires raw.Valid() && seed < raw.numSeeds && n <= raw.numPointsPerStreamline
  {
    if n == 0 then s
    else SampleStep(ScanOffsets(s, raw, seed, n - 1), seed, n - 1, SampleIndex(raw, seed, n - 1),
                    FlagAt(raw, seed, n - 1), OldFlagAt(raw, seed, n - 1))
  }

  /** Whether the multi-polyline is closed at the end of a seed. */
  predicate FlushesAtSeedEnd(direction: Direction, s: ScanState) {
    direction != Both || s.currentDirection == Some(Backward)
  }

  /** The end-of-seed decision: push multi and start a fresh one, or carry it on. */
  function SeedFlush(s: ScanState, direction: Direction): (r: ScanState)
    ensures r.poly == s.poly && r.currentDirection == s.currentDirection && r.warnings == s.warnings
    ensures StateIndices(r) == StateIndices(s)
    ensures FlushesAtSeedEnd(direction, s) ==> r.emitted == s.emitted + [s.multi] && r.multi == EmptyMultiPolyLine()
    ensures !FlushesAtSeedEnd(direction, s) ==> r == s
  {
    if FlushesAtSeedEnd(direction, s) then
      assert (s.emitted + [s.multi])[..|s.emitted|] == s.emitted;
      s.(emitted := s.emitted + [s.multi], multi := EmptyMultiPolyLine())
    else s
  }

  /** The state after the first k seeds, each followed by its flush decision. */
  function ScanSeeds(raw: RawData, direction: Direction, k: nat): ScanState
    requires raw.Valid() && k <= raw.numSeeds
  {
    if k == 0 then InitialScanState()
    else SeedFlush(ScanOffsets(ScanSeeds(raw, direction, k - 1), raw, k - 1, raw.numPointsPerStreamline), direction)
  }

  lemma ScanSeedsStep(raw: RawData, direction: Direction, k: nat)
    requires raw.Valid() && k < raw.numSeeds
    ensures ScanSeeds(raw, direction, k + 1) ==
            SeedFlush(ScanOffsets(ScanSeeds(raw, direction, k), raw, k, raw.numPointsPerStreamline), direction)
  {
  }

  function FinalScanState(raw: RawData, direction: Direction): ScanState
    requires raw.Valid()
  {
    ScanSeeds(raw, direction, raw.numSeeds)
  }

  /** The numbering pass: every multi-polyline gets its position as its id. */
  function Numbered(ms: seq<MultiPolyLine>): (r: seq<MultiPolyLine>)
    ensures |r| == |ms|
    ensures forall i :: 0 <= i < |r| ==> r[i].multiPolyID == i && r[i].polyLines == ms[i].polyLines
  {
    seq(|ms|, i requires 0 <= i < |ms| => ms[i].(multiPolyID := i))
  }

  /** What ExtractMultiPolyLines leaves in vectorMultiPolyLines. */
  function Extracted(raw: RawData, direction: Direction): seq<MultiPolyLine>
    requires raw.Valid()
  {
    Numbered(FinalScanState(raw, direction).emitted)
  }

  /** The diagnostics ExtractMultiPolyLines logs, in order. */
  function ExtractWarnings(raw: RawData, direction: Direction): seq<Warning>
    requires raw.Valid()
  {
    FinalScanState(raw, direction).warnings
  }

  // ---------------------------------------------------------------------------
  // Segment flattening as a function
  // ---------------------------------------------------------------------------

  /** The segments of one polyline: one per pair of neighbouring indices. */
  function PolySegments(p: PolyLine, id: int): seq<LineSegment> {
    var n := |p.pointIndices|;
    seq(if n < 2 then 0 else n - 1,
        k requires 0 <= k < (if n < 2 then 0 else n - 1) =>
          LineSegment(p.pointIndices[k], p.pointIndices[k + 1], id, 0, if k == 0 then 1 else 0))
  }

  function PolysSegments(ps: seq<PolyLine>, id: int): seq<LineSegment> {
    if ps == [] then [] else PolysSegments(ps[..|ps| - 1], id) + PolySegments(ps[|ps| - 1], id)
  }

  /** The segments of a list of multi-polylines, grouped by multi-polyline. */
  function Segments(ms: seq<MultiPolyLine>): seq<LineSegment> {
    if ms == [] then []
    else Segments(ms[..|ms| - 1]) + PolysSegments(ms[|ms| - 1].polyLines, ms[|ms| - 1].multiPolyID)
  }

  /** The body of the offset loop of ExtractMultiPolyLines: the switch on the
      flag, then the consecutive-flag check. */
  method ProcessSample(multi0: MultiPolyLine, poly0: PolyLine, currentDirection0: Option<Direction>,
                       warnings0: seq<Warning>, seed: nat, offset: nat, index: int, flag: int, oldFlag: int)
    returns (multi: MultiPolyLine, poly: PolyLine, currentDirection: Option<Direction>, warnings: seq<Warning>)
    ensures var r := SampleStep(ScanState([], multi0, poly0, currentDirection0, warnings0), seed, offset, index, flag, oldFlag);
      multi == r.multi && poly == r.poly && currentDirection == r.currentDirection && warnings == r.warnings
  {
    multi, poly, currentDirection, warnings := multi0, poly0, currentDirection0, warnings0;
    if flag == -1 {
      currentDirection := Some(Backward);
      poly := PolyLine(poly.pointIndices + [index]);
    } else if flag == 0 {
    } else if flag == 1 {
      currentDirection := Some(Forward);
      poly := PolyLine(poly.pointIndices + [index]);
    } else if flag == 2 {
      poly := PolyLine(poly.pointIndices + [index]);
    } else if flag == 3 {
      poly := PolyLine(poly.pointIndices + [index]);
      if |poly.pointIndices| == 1 {
        warnings := warnings + [SizeOne(seed, offset)];
      }
      multi := multi.(polyLines := multi.polyLines + [poly]);
      poly := EmptyPolyLine();
    } else {
      warnings := warnings + [UnknownFlag(seed, offset, flag)];
    }
    if flag == oldFlag {
      if flag == 3 || flag == 1 || flag == -1 {
        warnings := warnings + [ConsecutiveFlags(seed, offset, flag)];
      }
    }
  }

  /** The offset loop of ExtractMultiPolyLines for one seed; oldFlag starts at 1337. */
  method ScanSeed(raw: RawData, seedIndex: nat, ghost emitted: seq<MultiPolyLine>, multi0: MultiPolyLine,
                  poly0: PolyLine, currentDirection0: Option<Direction>, warnings0: seq<Warning>)
    returns (multi: MultiPolyLine, poly: PolyLine, currentDirection: Option<Direction>, warnings: seq<Warning>)
    requires raw.Valid() && seedIndex < raw.numSeeds
    ensures ScanState(emitted, multi, poly, currentDirection, warnings) ==
      ScanOffsets(ScanState(emitted, multi0, poly0, currentDirection0, warnings0), raw, seedIndex, raw.numPointsPerStreamline)
  {
    ghost var atSeedStart := ScanState(emitted, multi0, poly0, currentDirection0, warnings0);
    multi, poly, currentDirection, warnings := multi0, poly0, currentDirection0, warnings0;
    var startIndex := seedIndex * raw.numPointsPerStreamline;
    var oldFlag := NO_FLAG;
    for offset := 0 to raw.numPointsPerStreamline
      invariant ScanState(emitted, multi, poly, currentDirection, warnings)
                == ScanOffsets(atSeedStart, raw, seedIndex, offset)
      invariant oldFlag == (if offset == 0 then NO_FLAG else FlagAt(raw, seedIndex, offset - 1))
    {
      var index := startIndex + offset;
      SampleIndexBound(raw, seedIndex, offset);
      var flag := raw.flags[index];
      assert index == SampleIndex(raw, seedIndex, offset) && flag == FlagAt(raw, seedIndex, offset);
      multi, poly, currentDirection, warnings :=
        ProcessSample(multi, poly, currentDirection, warnings, seedIndex, offset, index, flag, oldFlag);
      oldFlag := flag;
    }
  }

  // ---------------------------------------------------------------------------
  // The LODData object
  // ---------------------------------------------------------------------------

  class LODData {
    const rawData: RawData
    var vectorMultiPolyLines: seq<MultiPolyLine>
    var vectorLineSegment: seq<LineSegment>

    constructor (rawData: RawData)
      ensures this.rawData == rawData
      ensures vectorMultiPolyLines == [] && vectorLineSegment == []
    {
      this.rawData := rawData;
      vectorMultiPolyLines := [];
      vectorLineSegment := [];
    }

    method Reset()
      modifies this
      ensures vectorMultiPolyLines == [] && vectorLineSegment == []
    {
      vectorMultiPolyLines := [];
      vectorLineSegment := [];
    }

    /** Rebuilds vectorMultiPolyLines from the sample flags; returns the diagnostics. */
    method ExtractMultiPolyLines(direction: Direction) returns (warnings: seq<Warning>)
      requires rawData.Valid()
      modifies this
      ensures vectorMultiPolyLines == Extracted(rawData, direction)
      ensures forall i :: 0 <= i < |vectorMultiPolyLines| ==> vectorMultiPolyLines[i].multiPolyID == i
      ensures vectorLineSegment == []
      ensures warnings == ExtractWarnings(rawData, direction)
    {
      Reset();
      var multi := EmptyMultiPolyLine();
      var poly := EmptyPolyLine();
      var currentDirection: Option<Direction> := None;
      warnings := [];
      for seedIndex := 0 to rawData.numSeeds
        invariant vectorLineSegment == []
        invariant ScanState(vectorMultiPolyLines, multi, poly, currentDirection, warnings)
                  == ScanSeeds(rawData, direction, seedIndex)
      {
        multi, poly, currentDirection, warnings :=
          ScanSeed(rawData, seedIndex, vectorMultiPolyLines, multi, poly, currentDirection, warnings);
        ghost var scanned := ScanState(vectorMultiPolyLines, multi, poly, currentDirection, warnings);
        ScanSeedsStep(rawData, direction, seedIndex);
        if direction != Both || currentDirection == Some(Backward) {
          vectorMultiPolyLines := vectorMultiPolyLines + [multi];
          multi := EmptyMultiPolyLine();
        }
        assert ScanState(vectorMultiPolyLines, multi, poly, currentDirection, warnings) == SeedFlush(scanned, direction);
      }

      NumberMultiPolyLines();
    }

    /** The numbering pass at the end of ExtractMultiPolyLines. */
    method NumberMultiPolyLines()
      modifies this
      ensures vectorMultiPolyLines == Numbered(old(vectorMultiPolyLines))
      ensures vectorLineSegment == old(vectorLineSegment)
    {
      ghost var pushed := vectorMultiPolyLines;
      for i := 0 to |vectorMultiPolyLines|
        invariant |vectorMultiPolyLines| == |pushed| && vectorLineSegment == old(vectorLineSegment)
        invariant forall j :: 0 <= j < i ==> vectorMultiPolyLines[j] == pushed[j].(multiPolyID := j)
        invariant forall j :: i <= j < |pushed| ==> vectorMultiPolyLines[j] == pushed[j]
      {
        vectorMultiPolyLines := vectorMultiPolyLines[i := vectorMultiPolyLines[i].(multiPolyID := i)];
      }
    }

    /** Appends one segment per pair of neighbouring indices of every polyline. */
    method GenerateLineSegments()
      modifies this`vectorLineSegment
      ensures vectorLineSegment == old(vectorLineSegment) + Segments(vectorMultiPolyLines)
    {
      for i := 0 to |vectorMultiPolyLines|
        invariant vectorLineSegment == old(vectorLineSegment) + Segments(vectorMultiPolyLines[..i])
      {
        var m := vectorMultiPolyLines[i];
        ghost var before := vectorLineSegment;
        for j := 0 to |m.polyLines|
          invariant vectorLineSegment == before + PolysSegments(m.polyLines[..j], m.multiPolyID)
        {
          AppendPolySegments(m.polyLines[j], m.multiPolyID);
          assert m.polyLines[..j + 1][..j] == m.polyLines[..j];
          assert PolysSegments(m.polyLines[..j + 1], m.multiPolyID) ==
                 PolysSegments(m.polyLines[..j], m.multiPolyID) + PolySegments(m.polyLines[j], m.multiPolyID);
        }
        assert m.polyLines[..|m.polyLines|] == m.polyLines;
        assert vectorMultiPolyLines[..i + 1][..i] == vectorMultiPolyLines[..i];
        assert Segments(vectorMultiPolyLines[..i + 1]) ==
               Segments(vectorMultiPolyLines[..i]) + PolysSegments(m.polyLines, m.multiPolyID);
      }
      assert vectorMultiPolyLines[..|vectorMultiPolyLines|] == vectorMultiPolyLines;
    }

    /** The innermost loop of GenerateLineSegments: the segments of one
        polyline, the first one flagged as the beginning. */
    method AppendPolySegments(p: PolyLine, id: int)
      modifies this`vectorLineSegment
      ensures vectorLineSegment == old(vectorLineSegment) + PolySegments(p, id)
    {
      var k := 1;
      while k < |p.pointIndices|
        invariant 1 <= k <= |p.pointIndices| || (k == 1 && |p.pointIndices| < 2)
        invariant vectorLineSegment == old(vectorLineSegment) + PolySegments(p, id)[..k - 1]
      {
        var segment := LineSegment(p.pointIndices[k - 1], p.pointIndices[k], id, 0, if k == 1 then 1 else 0);
        vectorLineSegment := vectorLineSegment + [segment];
        assert PolySegments(p, id)[..k] == PolySegments(p, id)[..k - 1] + [segment];
        k := k + 1;
      }
      assert PolySegments(p, id)[..k - 1] == PolySegments(p, id);
    }
  }
}
