/** Properties of the cylinder layout, proved about the specification
    functions that the ObjectManager methods are verified against. */
module ObjectsProperties {
  import opened Wrappers
  import opened Objects

  // ---------------------------------------------------------------------------
  // Where each part of the list lies
  // ---------------------------------------------------------------------------

  /** The list is: main movable axes twice, the main window, side movable axes
      twice, the side window, then the projection frames. */
  lemma LayoutParts(a: CornerSizes, b: CornerSizes)
    ensures var cs := Layout(a, b);
      cs[0..3] == FrontCorner() && cs[3..6] == FrontCorner() &&
      cs[INDEX_FIRST_CUBE_AXES_MAIN..INDEX_FIRST_CUBE_AXES_MAIN + 27] == Window(a) &&
      cs[33..36] == FrontCorner() && cs[36..39] == FrontCorner() &&
      cs[INDEX_FIRST_CUBE_AXES_SIDE..INDEX_FIRST_CUBE_AXES_SIDE + 27] == Window(b) &&
      cs[INDEX_FIRST_PROJECTION_FRAME..] == ProjectionFrames()
  {
    var cs := Layout(a, b);
    var m := FrontCorner();
    assert cs == m + m + Window(a) + m + m + Window(b) + ProjectionFrames();
    assert cs[0..3] == m && cs[3..6] == m;
    assert cs[33..36] == m && cs[36..39] == m;
  }

  /** The side movable axes that Update reads at 33..35 are the first corner
      appended by the second AddAxes call, six before the side window. */
  lemma SideMovableAxesIndex(a: CornerSizes, b: CornerSizes)
    ensures |AxesBlock(a)| == 33
    ensures Layout(a, b)[33..36] == (Layout(a, b)[|AxesBlock(a)|..])[..3] == AxesBlock(b)[..3]
    ensures INDEX_FIRST_CUBE_AXES_SIDE - 6 == 33 == |AxesBlock(a)|
  {
    var cs := Layout(a, b);
    assert cs[33..] == AxesBlock(b) + ProjectionFrames();
    assert AxesBlock(b)[..3] == FrontCorner();
    LayoutParts(a, b);
  }

  // ---------------------------------------------------------------------------
  // Projection frames
  // ---------------------------------------------------------------------------

  /** Four cylinders of the frame radius and colour joined end to start in a ring. */
  predicate ClosedFrame(r: seq<Cylinder>) {
    |r| == 4 &&
    (forall i :: 0 <= i < 4 ==> r[i].radius == FRAME_RADIUS && r[i].color == FRAME_COLOR) &&
    r[0].positionB == r[1].positionA && r[1].positionB == r[2].positionA &&
    r[2].positionB == r[3].positionA && r[3].positionB == r[0].positionA
  }

  /** Every end of every cylinder of r has the given coordinate equal to zero. */
  predicate InCoordinatePlane(r: seq<Cylinder>, axis: nat)
    requires axis < 3
  {
    forall i :: 0 <= i < |r| ==>
      Component(r[i].positionA, axis) == 0.0 && Component(r[i].positionB, axis) == 0.0
  }

  /** The three frames are closed rings lying in the planes x = 0, y = 0 and z = 0. */
  lemma ProjectionFramesClosed()
    ensures var fr := ProjectionFrames();
      ClosedFrame(fr[0..4]) && ClosedFrame(fr[4..8]) && ClosedFrame(fr[8..12]) &&
      InCoordinatePlane(fr[0..4], 0) && InCoordinatePlane(fr[4..8], 1) && InCoordinatePlane(fr[8..12], 2)
  {
    var f1 := ProjectionFrame(O, Vec3(0.0, 1.0, 0.0), Vec3(0.0, 1.0, 1.0), Vec3(0.0, 0.0, 1.0));
    var f2 := ProjectionFrame(O, Vec3(1.0, 0.0, 0.0), Vec3(1.0, 0.0, 1.0), Vec3(0.0, 0.0, 1.0));
    var f3 := ProjectionFrame(O, Vec3(1.0, 0.0, 0.0), Vec3(1.0, 1.0, 0.0), Vec3(0.0, 1.0, 0.0));
    var fr := ProjectionFrames();
    assert fr[0..4] == f1 && fr[4..8] == f2 && fr[8..12] == f3;
  }

  // ---------------------------------------------------------------------------
  // Axes windows
  // ---------------------------------------------------------------------------

  predicate InUnitCube(p: Vec3) {
    0.0 <= p.x <= 1.0 && 0.0 <= p.y <= 1.0 && 0.0 <= p.z <= 1.0
  }

  /** Each coordinate of the corner is 0 with direction +1, or 1 with direction -1. */
  predicate InwardCorner(p: Vec3, d: Vec3) {
    ((p.x == 0.0 && d.x == 1.0) || (p.x == 1.0 && d.x == -1.0)) &&
    ((p.y == 0.0 && d.y == 1.0) || (p.y == 1.0 && d.y == -1.0)) &&
    ((p.z == 0.0 && d.z == 1.0) || (p.z == 1.0 && d.z == -1.0))
  }

  lemma CubeCornerInward(k: nat)
    requires k < 8
    ensures InwardCorner(WindowCornerPosition(k), WindowCornerDirections(k))
  {
    assert k / 4 == 0 || k / 4 == 1;
    assert (k / 2) % 2 == 0 || (k / 2) % 2 == 1;
    assert k % 2 == 0 || k % 2 == 1;
  }

  lemma InwardTipInsideCube(p: Vec3, d: Vec3, length: real, i: nat)
    requires i < 3 && InwardCorner(p, d) && 0.0 <= length <= 1.0
    ensures InUnitCube(p) && InUnitCube(AxisTip(p, d, length, i))
  {
  }

  /** With a length between 0 and 1, every cube-corner axis starts at a corner
      of the unit cube and ends inside it: the direction signs point inwards. */
  lemma WindowTipsInsideCube(sz: CornerSizes, m: nat)
    requires m < 24 && 0.0 <= sz.length <= 1.0
    ensures InUnitCube(Window(sz)[m].positionA) && InUnitCube(Window(sz)[m].positionB)
  {
    CubeCornerInward(m / 3);
    InwardTipInsideCube(WindowCornerPosition(m / 3), WindowCornerDirections(m / 3), sz.length, m % 3);
  }

  /** Sizes decide only radii and far ends: the start point and colour of
      each window cylinder are the same at all sizes. */
  lemma WindowStartsAndColorsFixed(sz: CornerSizes, sz2: CornerSizes, m: nat)
    requires m < 27
    ensures Window(sz)[m].positionA == Window(sz2)[m].positionA == WindowCornerPosition(m / 3)
    ensures Window(sz)[m].color == Window(sz2)[m].color == AxisColor(false, m % 3)
    ensures Window(sz)[m].radius == (if m < 24 then sz.radius else sz.radiusOrigin)
  {
  }

  /** Recalculating with the sizes already in place changes nothing, whatever
      the movable axes hold: this is why the SetAxesParameters guard only saves work. */
  lemma RecalculateSameSizesIsIdentity(cs: seq<Cylinder>, a: CornerSizes, b: CornerSizes)
    requires LayoutKept(cs, a, b)
    ensures RecalculatedWindow(RecalculatedWindow(cs, INDEX_FIRST_CUBE_AXES_MAIN, a),
                               INDEX_FIRST_CUBE_AXES_SIDE, b) == cs
  {
    RecalculateKept(cs, a, b, a, b);
    LayoutKeptSplit(cs, a, b);
  }

  /** Recalculating with new sizes and then with the old ones restores the list. */
  lemma RecalculateUndo(cs: seq<Cylinder>, a: CornerSizes, b: CornerSizes, a2: CornerSizes, b2: CornerSizes)
    requires LayoutKept(cs, a, b)
    ensures var changed := RecalculatedWindow(RecalculatedWindow(cs, INDEX_FIRST_CUBE_AXES_MAIN, a2),
                                              INDEX_FIRST_CUBE_AXES_SIDE, b2);
      LayoutKept(changed, a2, b2) &&
      RecalculatedWindow(RecalculatedWindow(changed, INDEX_FIRST_CUBE_AXES_MAIN, a),
                         INDEX_FIRST_CUBE_AXES_SIDE, b) == cs
  {
    var changed := RecalculatedWindow(RecalculatedWindow(cs, INDEX_FIRST_CUBE_AXES_MAIN, a2),
                                      INDEX_FIRST_CUBE_AXES_SIDE, b2);
    RecalculateKept(cs, a, b, a2, b2);
    RecalculateKept(changed, a2, b2, a, b);
    assert changed[..6] == cs[..6] && changed[33..39] == cs[33..39];
    LayoutKeptSplit(cs, a, b);
  }

  /** Moving the movable axes of two lists whose front parts agree gives lists
      whose front parts agree. */
  lemma MovedFrontsAgree(cs: seq<Cylinder>, cs2: seq<Cylinder>,
                         mainMoved: Option<seq<Cylinder>>, sideMoved: Option<seq<Cylinder>>)
    requires |cs| == |cs2| == CYLINDER_COUNT && cs[..6] == cs2[..6] && cs[33..39] == cs2[33..39]
    requires mainMoved.Some? ==> |mainMoved.value| == 3
    requires sideMoved.Some? ==> |sideMoved.value| == 3
    ensures var r := MovedAxes(MovedAxes(cs, 0, mainMoved), 33, sideMoved);
      var r2 := MovedAxes(MovedAxes(cs2, 0, mainMoved), 33, sideMoved);
      r[..6] == r2[..6] && r[33..39] == r2[33..39]
  {
    var m := MovedAxes(cs, 0, mainMoved);
    var m2 := MovedAxes(cs2, 0, mainMoved);
    assert m[..6] == m2[..6] && m[33..39] == m2[33..39] by {
      forall q | 0 <= q < 6 ensures m[q] == m2[q] {
        if 3 <= q { assert m[q] == cs[q] && m2[q] == cs2[q] && cs[..6][q] == cs2[..6][q]; }
      }
      forall q | 33 <= q < 39 ensures m[q] == m2[q] {
        assert m[q] == cs[q] && m2[q] == cs2[q] && cs[33..39][q - 33] == cs2[33..39][q - 33];
      }
    }
    var r := MovedAxes(m, 33, sideMoved);
    var r2 := MovedAxes(m2, 33, sideMoved);
    forall q | 0 <= q < 6 ensures r[q] == r2[q] {
      assert r[q] == m[q] && r2[q] == m2[q] && m[..6][q] == m2[..6][q];
    }
    forall q | 33 <= q < 39 ensures r[q] == r2[q] {
      if 36 <= q || sideMoved.None? {
        assert r[q] == m[q] && r2[q] == m2[q] && m[33..39][q - 33] == m2[33..39][q - 33];
      } else {
        assert r[33..36][q - 33] == sideMoved.value[q - 33] == r2[33..36][q - 33];
      }
    }
  }

  /** Moving the movable axes (Update) and recalculating the windows
      (SetAxesParameters) touch disjoint cylinders, so their order does not matter. */
  lemma MoveRecalculateCommute(cs: seq<Cylinder>, a: CornerSizes, b: CornerSizes, a2: CornerSizes, b2: CornerSizes,
                               mainMoved: Option<seq<Cylinder>>, sideMoved: Option<seq<Cylinder>>)
    requires LayoutKept(cs, a, b)
    requires mainMoved.Some? ==> |mainMoved.value| == 3
    requires sideMoved.Some? ==> |sideMoved.value| == 3
    ensures var recalc := RecalculatedWindow(RecalculatedWindow(cs, INDEX_FIRST_CUBE_AXES_MAIN, a2),
                                             INDEX_FIRST_CUBE_AXES_SIDE, b2);
      var moved := MovedAxes(MovedAxes(cs, 0, mainMoved), 33, sideMoved);
      |recalc| == CYLINDER_COUNT && LayoutKept(moved, a, b) &&
      MovedAxes(MovedAxes(recalc, 0, mainMoved), 33, sideMoved) ==
      RecalculatedWindow(RecalculatedWindow(moved, INDEX_FIRST_CUBE_AXES_MAIN, a2), INDEX_FIRST_CUBE_AXES_SIDE, b2)
  {
    var moved := MovedAxes(MovedAxes(cs, 0, mainMoved), 33, sideMoved);
    var recalc := RecalculatedWindow(RecalculatedWindow(cs, INDEX_FIRST_CUBE_AXES_MAIN, a2),
                                     INDEX_FIRST_CUBE_AXES_SIDE, b2);
    RecalculateKept(cs, a, b, a2, b2);
    MovedAxesKeepLayout(cs, a, b, mainMoved, sideMoved);
    RecalculateKept(moved, a, b, a2, b2);
    var lhs := MovedAxes(MovedAxes(recalc, 0, mainMoved), 33, sideMoved);
    MovedAxesKeepLayout(recalc, a2, b2, mainMoved, sideMoved);
    LayoutKeptSplit(lhs, a2, b2);
    assert recalc[..6] == cs[..6] && recalc[33..39] == cs[33..39];
    MovedFrontsAgree(recalc, cs, mainMoved, sideMoved);
  }

  /** Recalculating the main window never touches the movable axes Update reads. */
  lemma RecalculateKeepsMovableAxes(cs: seq<Cylinder>, sz: CornerSizes)
    requires |cs| == CYLINDER_COUNT
    ensures RecalculatedWindow(cs, INDEX_FIRST_CUBE_AXES_MAIN, sz)[0..3] == cs[0..3]
    ensures RecalculatedWindow(cs, INDEX_FIRST_CUBE_AXES_SIDE, sz)[33..36] == cs[33..36]
    ensures RecalculatedWindow(cs, INDEX_FIRST_CUBE_AXES_MAIN, sz)[33..36] == cs[33..36]
    ensures RecalculatedWindow(cs, INDEX_FIRST_CUBE_AXES_SIDE, sz)[0..3] == cs[0..3]
  {
  }
}
