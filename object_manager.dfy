/** The scene's cylinder list for the axis and projection-frame widgets: the
    order in which the object manager appends cylinders, the start indices it
    records, and the in-place recalculation of the cube-axes windows. */
module Objects {

  import opened Wrappers

  // ---------------------------------------------------------------------------
  // Geometry
  // ---------------------------------------------------------------------------

  /** A point or direction; homogeneous coordinates carry w = 1 throughout and w is dropped. */
  datatype Vec3 = Vec3(x: real, y: real, z: real)

  datatype Color = Color(r: real, g: real, b: real, a: real)

  /** The geometric part of a cylinder record; its matrices are not modelled. */
  datatype Cylinder = Cylinder(radius: real, positionA: Vec3, positionB: Vec3, color: Color)

  function Plus(u: Vec3, v: Vec3): Vec3 {
    Vec3(u.x + v.x, u.y + v.y, u.z + v.z)
  }

  function Scaled(v: Vec3, s: real): Vec3 {
    Vec3(v.x * s, v.y * s, v.z * s)
  }

  /** directions[i]. */
  function Component(v: Vec3, i: nat): real
    requires i < 3
  {
    if i == 0 then v.x else if i == 1 then v.y else v.z
  }

  /** v_x, v_y or v_z: the axis vector of the given length. */
  function AxisVector(length: real, i: nat): Vec3
    requires i < 3
  {
    if i == 0 then Vec3(length, 0.0, 0.0)
    else if i == 1 then Vec3(0.0, length, 0.0)
    else Vec3(0.0, 0.0, length)
  }

  /** position_v_x, position_v_y or position_v_z: the far end of axis i. */
  function AxisTip(position: Vec3, directions: Vec3, length: real, i: nat): Vec3
    requires i < 3
  {
    Plus(position, Scaled(AxisVector(length, i), Component(directions, i)))
  }

  /** The tip of axis i moves the position by length * directions[i] along
      coordinate i and leaves the other two coordinates. */
  lemma AxisTipMovesOneCoordinate(position: Vec3, directions: Vec3, length: real, i: nat)
    requires i < 3
    ensures Component(AxisTip(position, directions, length, i), i) ==
            Component(position, i) + length * Component(directions, i)
    ensures forall j :: 0 <= j < 3 && j != i ==>
            Component(AxisTip(position, directions, length, i), j) == Component(position, j)
  {
  }

  /** Red, green, blue for x, y, z; cyan, magenta, yellow when inverted. */
  function AxisColor(invert: bool, i: nat): Color
    requires i < 3
  {
    if i == 0 then (if invert then Color(0.0, 1.0, 1.0, 1.0) else Color(1.0, 0.0, 0.0, 1.0))
    else if i == 1 then (if invert then Color(1.0, 0.0, 1.0, 1.0) else Color(0.0, 1.0, 0.0, 1.0))
    else (if invert then Color(1.0, 1.0, 0.0, 1.0) else Color(0.0, 0.0, 1.0, 1.0))
  }

  // ---------------------------------------------------------------------------
  // Axes corners
  // ---------------------------------------------------------------------------

  /** The length AddAxesCorner always uses. */
  const AXES_LENGTH: real := 0.25
  /** The radius AddAxes uses for the movable axes and the cube corners. */
  const AXES_RADIUS: real := 0.01
  /** The radius AddAxes uses for the fat origin axes. */
  const ORIGIN_RADIUS: real := 0.015

  /** The cylinder for axis i of a corner. */
  function CornerCylinder(position: Vec3, directions: Vec3, invert: bool, radius: real, length: real, i: nat): Cylinder
    requires i < 3
  {
    Cylinder(radius, position, AxisTip(position, directions, length, i), AxisColor(invert, i))
  }

  /** The three cylinders of one axes corner, x first, then y, then z. */
  function CornerCylinders(position: Vec3, directions: Vec3, invert: bool, radius: real, length: real): (r: seq<Cylinder>)
    ensures |r| == 3
  {
    [CornerCylinder(position, directions, invert, radius, length, 0),
     CornerCylinder(position, directions, invert, radius, length, 1),
     CornerCylinder(position, directions, invert, radius, length, 2)]
  }

  /** A corner's three cylinders all start at the position and have the
      radius; the i-th points along coordinate i, by length * directions[i]. */
  lemma CornerCylindersShape(position: Vec3, directions: Vec3, invert: bool, radius: real, length: real)
    ensures var r := CornerCylinders(position, directions, invert, radius, length);
      (forall i :: 0 <= i < 3 ==>
        r[i].radius == radius && r[i].positionA == position && r[i].color == AxisColor(invert, i) &&
        Component(r[i].positionB, i) == Component(position, i) + length * Component(directions, i)) &&
      (forall i, j :: 0 <= i < 3 && 0 <= j < 3 && j != i ==>
        Component(r[i].positionB, j) == Component(position, j))
  {
    forall i | 0 <= i < 3 {
      AxisTipMovesOneCoordinate(position, directions, length, i);
    }
  }

  /** `x == 0 ? 1 : -1`. */
  function Sign(b: nat): real {
    if b == 0 then 1.0 else -1.0
  }

  /** Corner k of a window: for k < 8 the unit-cube corner (x, y, z) with
      k == 4x + 2y + z, which is the order of the x/y/z loops; k == 8 is the
      origin axes. */
  function WindowCornerPosition(k: nat): Vec3
    requires k < 9
  {
    if k == 8 then Vec3(0.0, 0.0, 0.0)
    else Vec3((k / 4) as real, ((k / 2) % 2) as real, (k % 2) as real)
  }

  /** The axis directions at corner k: pointing into the cube. */
  function WindowCornerDirections(k: nat): Vec3
    requires k < 9
  {
    if k == 8 then Vec3(1.0, 1.0, 1.0)
    else Vec3(Sign(k / 4), Sign((k / 2) % 2), Sign(k % 2))
  }

  /** The loop variables x, y, z select corner 4x + 2y + z. */
  lemma WindowCornerOfLoop(x: nat, y: nat, z: nat)
    requires x < 2 && y < 2 && z < 2
    ensures WindowCornerPosition(4 * x + 2 * y + z) == Vec3(x as real, y as real, z as real)
    ensures WindowCornerDirections(4 * x + 2 * y + z) == Vec3(Sign(x), Sign(y), Sign(z))
  {
    var k := 4 * x + 2 * y + z;
    assert k / 4 == x && (k / 2) % 2 == y && k % 2 == z;
  }

  /** The cube-axes sizes of one window: the eight corners share radius and
      length, the origin axes have their own. */
  datatype CornerSizes = CornerSizes(radius: real, radiusOrigin: real, length: real, lengthOrigin: real)

  /** The sizes AddAxes builds a window with. */
  const DEFAULT_SIZES: CornerSizes := CornerSizes(AXES_RADIUS, ORIGIN_RADIUS, AXES_LENGTH, AXES_LENGTH)

  function RadiusAt(sz: CornerSizes, k: nat): real {
    if k < 8 then sz.radius else sz.radiusOrigin
  }

  function LengthAt(sz: CornerSizes, k: nat): real {
    if k < 8 then sz.length else sz.lengthOrigin
  }

  /** Cylinder m of a window: axis m % 3 of corner m / 3. */
  function WindowCylinder(sz: CornerSizes, m: nat): Cylinder
    requires m < 27
  {
    CornerCylinder(WindowCornerPosition(m / 3), WindowCornerDirections(m / 3), false,
                   RadiusAt(sz, m / 3), LengthAt(sz, m / 3), m % 3)
  }

  /** The 27 cylinders of the eight cube corners followed by the origin axes. */
  function Window(sz: CornerSizes): (r: seq<Cylinder>)
    ensures |r| == 27
  {
    seq(27, m requires 0 <= m < 27 => WindowCylinder(sz, m))
  }

  /** The first k corners of a window, extended by corner k. */
  lemma WindowPrefixStep(sz: CornerSizes, k: nat)
    requires k < 9
    ensures Window(sz)[..3 * (k + 1)] ==
      Window(sz)[..3 * k] + CornerCylinders(WindowCornerPosition(k), WindowCornerDirections(k), false,
                                            RadiusAt(sz, k), LengthAt(sz, k))
  {
    var c := CornerCylinders(WindowCornerPosition(k), WindowCornerDirections(k), false, RadiusAt(sz, k), LengthAt(sz, k));
    forall m | 3 * k <= m < 3 * k + 3
      ensures Window(sz)[m] == c[m - 3 * k]
    {
      assert m / 3 == k && m % 3 == m - 3 * k;
    }
  }

  /** Appending the cube corner (x, y, z) as AddAxes does extends the default
      window's prefix by one corner. */
  lemma AddCubeCornerStep(base: seq<Cylinder>, x: nat, y: nat, z: nat, cs: seq<Cylinder>)
    requires x < 2 && y < 2 && z < 2
    requires cs == base + Window(DEFAULT_SIZES)[..3 * (4 * x + 2 * y + z)]
    ensures cs + CornerCylinders(Vec3(x as real, y as real, z as real), Vec3(Sign(x), Sign(y), Sign(z)), false,
                                 AXES_RADIUS, AXES_LENGTH)
            == base + Window(DEFAULT_SIZES)[..3 * (4 * x + 2 * y + z + 1)]
  {
    var k := 4 * x + 2 * y + z;
    var w := Window(DEFAULT_SIZES);
    var c := CornerCylinders(Vec3(x as real, y as real, z as real), Vec3(Sign(x), Sign(y), Sign(z)), false,
                             AXES_RADIUS, AXES_LENGTH);
    WindowCornerOfLoop(x, y, z);
    WindowPrefixStep(DEFAULT_SIZES, k);
    assert w[..3 * (k + 1)] == w[..3 * k] + c;
    assert cs + c == base + (w[..3 * k] + c);
  }

  /** The corner AddAxes appends twice before its window: the first copy is
      the movable axes, the second the axes of the other camera orientation. */
  function FrontCorner(): seq<Cylinder> {
    CornerCylinders(Vec3(0.5, 0.5, 0.5), Vec3(1.0, 1.0, 1.0), false, AXES_RADIUS, AXES_LENGTH)
  }

  /** What one AddAxes call appends when the window has sizes sz. */
  function AxesBlock(sz: CornerSizes): (r: seq<Cylinder>)
    ensures |r| == 33
  {
    FrontCorner() + FrontCorner() + Window(sz)
  }

  /** Appending the fat origin axes as AddAxes does completes the block. */
  lemma AddOriginCornerStep(start: seq<Cylinder>, cs: seq<Cylinder>)
    requires cs == start + FrontCorner() + FrontCorner() + Window(DEFAULT_SIZES)[..24]
    ensures cs + CornerCylinders(Vec3(0.0, 0.0, 0.0), Vec3(1.0, 1.0, 1.0), false, ORIGIN_RADIUS, AXES_LENGTH)
            == start + AxesBlock(DEFAULT_SIZES)
  {
    var w := Window(DEFAULT_SIZES);
    var c := CornerCylinders(Vec3(0.0, 0.0, 0.0), Vec3(1.0, 1.0, 1.0), false, ORIGIN_RADIUS, AXES_LENGTH);
    var m := FrontCorner();
    WindowPrefixStep(DEFAULT_SIZES, 8);
    assert w[..27] == w[..24] + c;
    assert w[..27] == w;
    assert cs + c == start + (m + m + (w[..24] + c));
  }

  // ---------------------------------------------------------------------------
  // Projection frames
  // ---------------------------------------------------------------------------

  const FRAME_RADIUS: real := 0.01
  const FRAME_COLOR: Color := Color(0.75, 0.75, 0.75, 1.0)

  /** The four grey cylinders p1-p2, p2-p3, p3-p4, p4-p1. */
  function ProjectionFrame(p1: Vec3, p2: Vec3, p3: Vec3, p4: Vec3): (r: seq<Cylinder>)
    ensures |r| == 4
    ensures forall i :: 0 <= i < 4 ==> r[i].radius == FRAME_RADIUS && r[i].color == FRAME_COLOR
    ensures r[0].positionA == p1 && r[1].positionA == p2 && r[2].positionA == p3 && r[3].positionA == p4
    ensures r[0].positionB == r[1].positionA && r[1].positionB == r[2].positionA &&
            r[2].positionB == r[3].positionA && r[3].positionB == r[0].positionA
  {
    [Cylinder(FRAME_RADIUS, p1, p2, FRAME_COLOR),
     Cylinder(FRAME_RADIUS, p2, p3, FRAME_COLOR),
     Cylinder(FRAME_RADIUS, p3, p4, FRAME_COLOR),
     Cylinder(FRAME_RADIUS, p4, p1, FRAME_COLOR)]
  }

  const O: Vec3 := Vec3(0.0, 0.0, 0.0)

  /** The frames in the planes x = 0, y = 0 and z = 0, in the order they are added. */
  function ProjectionFrames(): (r: seq<Cylinder>)
    ensures |r| == 12
  {
    ProjectionFrame(O, Vec3(0.0, 1.0, 0.0), Vec3(0.0, 1.0, 1.0), Vec3(0.0, 0.0, 1.0)) +
    ProjectionFrame(O, Vec3(1.0, 0.0, 0.0), Vec3(1.0, 0.0, 1.0), Vec3(0.0, 0.0, 1.0)) +
    ProjectionFrame(O, Vec3(1.0, 0.0, 0.0), Vec3(1.0, 1.0, 0.0), Vec3(0.0, 1.0, 0.0))
  }

  // ---------------------------------------------------------------------------
  // The whole list
  // ---------------------------------------------------------------------------

  /** Where the constructor's calls leave the start of each part. */
  const INDEX_FIRST_CUBE_AXES_MAIN: nat := 6
  const INDEX_FIRST_CUBE_AXES_SIDE: nat := 39
  const INDEX_FIRST_PROJECTION_FRAME: nat := 66
  const CYLINDER_COUNT: nat := 78

  /** The cylinder list with the main window at sizes mainSz and the side window at sideSz. */
  function Layout(mainSz: CornerSizes, sideSz: CornerSizes): (r: seq<Cylinder>)
    ensures |r| == CYLINDER_COUNT
  {
    AxesBlock(mainSz) + AxesBlock(sideSz) + ProjectionFrames()
  }

  /** The parts of a 78-cylinder list that only the constructor and the
      recalculations write: the main window at sizes a, the side window at
      sizes b and the frames. The front corners 0..5 and 33..38 are free,
      because Update lets the movable-axes states move them. */
  predicate LayoutKept(cs: seq<Cylinder>, a: CornerSizes, b: CornerSizes) {
    |cs| == CYLINDER_COUNT &&
    cs[INDEX_FIRST_CUBE_AXES_MAIN..INDEX_FIRST_CUBE_AXES_MAIN + 27] == Window(a) &&
    cs[INDEX_FIRST_CUBE_AXES_SIDE..INDEX_FIRST_CUBE_AXES_SIDE + 27] == Window(b) &&
    cs[INDEX_FIRST_PROJECTION_FRAME..] == ProjectionFrames()
  }

  /** A kept list is its two front parts interleaved with the windows and the frames. */
  lemma LayoutKeptSplit(cs: seq<Cylinder>, a: CornerSizes, b: CornerSizes)
    requires LayoutKept(cs, a, b)
    ensures cs == cs[..6] + Window(a) + cs[33..39] + Window(b) + ProjectionFrames()
  {
    assert cs == cs[..6] + cs[6..33] + cs[33..39] + cs[39..66] + cs[66..];
  }

  /** The constructor's layout keeps its windows and frames, and its front
      parts are the front corners. */
  lemma LayoutIsKept(a: CornerSizes, b: CornerSizes)
    ensures LayoutKept(Layout(a, b), a, b)
    ensures Layout(a, b)[..6] == Layout(a, b)[33..39] == FrontCorner() + FrontCorner()
  {
    var cs := Layout(a, b);
    var m := FrontCorner();
    assert cs == m + m + Window(a) + (m + m) + Window(b) + ProjectionFrames();
  }

  // ---------------------------------------------------------------------------
  // Recalculation in place
  // ---------------------------------------------------------------------------

  /** A cylinder with radius and both ends replaced as for axis i of a corner; its colour is kept. */
  function Retouched(c: Cylinder, position: Vec3, directions: Vec3, radius: real, length: real, i: nat): Cylinder
    requires i < 3
  {
    c.(radius := radius, positionA := position, positionB := AxisTip(position, directions, length, i))
  }

  /** The list after RecalculateAxesCorner at start. */
  function RecalculatedCorner(cs: seq<Cylinder>, start: nat, position: Vec3, directions: Vec3,
                              radius: real, length: real): (r: seq<Cylinder>)
    requires start + 3 <= |cs|
    ensures |r| == |cs|
  {
    cs[start := Retouched(cs[start], position, directions, radius, length, 0)]
      [start + 1 := Retouched(cs[start + 1], position, directions, radius, length, 1)]
      [start + 2 := Retouched(cs[start + 2], position, directions, radius, length, 2)]
  }

  /** RecalculateAxesCorner changes only radius and ends of the three cylinders
      at start, and leaves their colours and every other cylinder alone. */
  lemma RecalculatedCornerFacts(cs: seq<Cylinder>, start: nat, position: Vec3, directions: Vec3,
                                radius: real, length: real)
    requires start + 3 <= |cs|
    ensures var r := RecalculatedCorner(cs, start, position, directions, radius, length);
      (forall q :: 0 <= q < |cs| && !(start <= q < start + 3) ==> r[q] == cs[q]) &&
      (forall i :: 0 <= i < 3 ==>
        r[start + i].color == cs[start + i].color && r[start + i].radius == radius &&
        r[start + i].positionA == position &&
        r[start + i].positionB == AxisTip(position, directions, length, i))
  {
  }

  /** Cylinder m of a window, recalculated for sizes sz. */
  function WindowRetouched(c: Cylinder, sz: CornerSizes, m: nat): Cylinder
    requires m < 27
  {
    Retouched(c, WindowCornerPosition(m / 3), WindowCornerDirections(m / 3), RadiusAt(sz, m / 3), LengthAt(sz, m / 3), m % 3)
  }

  /** The list after the first k corners of the window at start are recalculated. */
  function RecalculatedCorners(cs: seq<Cylinder>, start: nat, k: nat, sz: CornerSizes): (r: seq<Cylinder>)
    requires k <= 9 && start + 27 <= |cs|
    ensures |r| == |cs|
  {
    seq(|cs|, q requires 0 <= q < |cs| =>
      if start <= q < start + 3 * k then WindowRetouched(cs[q], sz, q - start) else cs[q])
  }

  /** The list after RecalculateAxes at start: the window's 27 cylinders get
      the radii and ends of sizes sz and keep their colours; nothing else changes. */
  function RecalculatedWindow(cs: seq<Cylinder>, start: nat, sz: CornerSizes): (r: seq<Cylinder>)
    requires start + 27 <= |cs|
    ensures |r| == |cs|
  {
    RecalculatedCorners(cs, start, 9, sz)
  }

  /** RecalculateAxes at start gives the 27 window cylinders the radii and
      ends of sizes sz, keeps their colours and leaves every other cylinder. */
  lemma RecalculatedWindowFacts(cs: seq<Cylinder>, start: nat, sz: CornerSizes)
    requires start + 27 <= |cs|
    ensures var r := RecalculatedWindow(cs, start, sz);
      (forall q :: 0 <= q < |cs| && !(start <= q < start + 27) ==> r[q] == cs[q]) &&
      (forall m :: 0 <= m < 27 ==>
        r[start + m].color == cs[start + m].color &&
        r[start + m].positionA == WindowCornerPosition(m / 3) == WindowCylinder(sz, m).positionA &&
        r[start + m].positionB == WindowCylinder(sz, m).positionB &&
        r[start + m].radius == WindowCylinder(sz, m).radius)
  {
  }

  lemma RecalculatedCornersStep(cs: seq<Cylinder>, start: nat, k: nat, sz: CornerSizes)
    requires k < 9 && start + 27 <= |cs|
    ensures RecalculatedCorner(RecalculatedCorners(cs, start, k, sz), start + 3 * k,
                               WindowCornerPosition(k), WindowCornerDirections(k), RadiusAt(sz, k), LengthAt(sz, k))
            == RecalculatedCorners(cs, start, k + 1, sz)
  {
    var before := RecalculatedCorners(cs, start, k, sz);
    var lhs := RecalculatedCorner(before, start + 3 * k,
                                  WindowCornerPosition(k), WindowCornerDirections(k), RadiusAt(sz, k), LengthAt(sz, k));
    var rhs := RecalculatedCorners(cs, start, k + 1, sz);
    forall q | 0 <= q < |cs|
      ensures lhs[q] == rhs[q]
    {
      if start + 3 * k <= q < start + 3 * k + 3 {
        var m := q - start;
        assert m / 3 == k && m % 3 == q - (start + 3 * k);
        assert before[q] == cs[q];
      }
    }
  }

  lemma RecalculatedCornersNone(cs: seq<Cylinder>, start: nat, sz: CornerSizes)
    requires start + 27 <= |cs|
    ensures RecalculatedCorners(cs, start, 0, sz) == cs
  {
  }

  /** Recalculating the cube corner (x, y, z) as RecalculateAxes does covers one more corner. */
  lemma RecalculateCubeCornerStep(cs: seq<Cylinder>, start: nat, x: nat, y: nat, z: nat, sz: CornerSizes,
                                  cur: seq<Cylinder>)
    requires x < 2 && y < 2 && z < 2 && start + 27 <= |cs|
    requires cur == RecalculatedCorners(cs, start, 4 * x + 2 * y + z, sz)
    ensures start + 3 * (4 * x + 2 * y + z) + 3 <= |cur|
    ensures RecalculatedCorner(cur, start + 3 * (4 * x + 2 * y + z), Vec3(x as real, y as real, z as real),
                               Vec3(Sign(x), Sign(y), Sign(z)), sz.radius, sz.length)
            == RecalculatedCorners(cs, start, 4 * x + 2 * y + z + 1, sz)
  {
    var k := 4 * x + 2 * y + z;
    WindowCornerOfLoop(x, y, z);
    assert RadiusAt(sz, k) == sz.radius && LengthAt(sz, k) == sz.length;
    RecalculatedCornersStep(cs, start, k, sz);
  }

  /** Recalculating the origin axes completes the window. */
  lemma RecalculateOriginStep(cs: seq<Cylinder>, start: nat, sz: CornerSizes, cur: seq<Cylinder>)
    requires start + 27 <= |cs| && cur == RecalculatedCorners(cs, start, 8, sz)
    ensures RecalculatedCorner(cur, start + 24, Vec3(0.0, 0.0, 0.0), Vec3(1.0, 1.0, 1.0), sz.radiusOrigin, sz.lengthOrigin)
            == RecalculatedWindow(cs, start, sz)
  {
    RecalculatedCornersStep(cs, start, 8, sz);
  }

  // ---------------------------------------------------------------------------
  // The object manager
  // ---------------------------------------------------------------------------

  /** The twelve values SetAxesParameters stores for one of the two windows. */
  datatype AxesSettings = AxesSettings(radius: real, radiusOrigin: real, length: real, lengthOrigin: real,
                                       invertColor: bool, useAxesColors: bool)

  datatype AxesParameters = AxesParameters(main: AxesSettings, side: AxesSettings)

  function Sizes(s: AxesSettings): CornerSizes {
    CornerSizes(s.radius, s.radiusOrigin, s.length, s.lengthOrigin)
  }

  /** The window sizes in force: the defaults until parameters have been stored. */
  function MainSizes(p: Option<AxesParameters>): CornerSizes {
    if p.Some? then Sizes(p.value.main) else DEFAULT_SIZES
  }

  function SideSizes(p: Option<AxesParameters>): CornerSizes {
    if p.Some? then Sizes(p.value.side) else DEFAULT_SIZES
  }

  class ObjectManager {
    var cylinders: seq<Cylinder>
    var indexFirstCubeAxesMain: int
    var indexFirstCubeAxesSide: int
    var indexFirstProjectionFrame: int
    /** The stored parameters; None while they are still undefined. */
    var axesParameters: Option<AxesParameters>

    /** The state the constructor, SetAxesParameters and Update keep: the
        constructor's indices, and the windows at the sizes last stored with
        the frames after them. */
    predicate Valid()
      reads this
    {
      indexFirstCubeAxesMain == INDEX_FIRST_CUBE_AXES_MAIN &&
      indexFirstCubeAxesSide == INDEX_FIRST_CUBE_AXES_SIDE &&
      indexFirstProjectionFrame == INDEX_FIRST_PROJECTION_FRAME &&
      LayoutKept(cylinders, MainSizes(axesParameters), SideSizes(axesParameters))
    }

    constructor ()
      ensures Valid() && axesParameters == None
      ensures cylinders == Layout(DEFAULT_SIZES, DEFAULT_SIZES) && |cylinders| == CYLINDER_COUNT
      ensures indexFirstCubeAxesMain == 6 && indexFirstCubeAxesSide == 39 && indexFirstProjectionFrame == 66
    {
      cylinders := [];
      indexFirstCubeAxesMain := 0;
      indexFirstCubeAxesSide := 0;
      indexFirstProjectionFrame := 0;
      axesParameters := None;
      new;
      AddAxes(true);
      AddAxes(false);
      AddProjectionFrames();
      LayoutIsKept(DEFAULT_SIZES, DEFAULT_SIZES);
    }

    /** Appends the three cylinders of one corner with the fixed length 0.25. */
    method AddAxesCorner(position: Vec3, directions: Vec3, invert: bool, radius: real)
      modifies this`cylinders
      ensures cylinders == old(cylinders) + CornerCylinders(position, directions, invert, radius, AXES_LENGTH)
    {
      var tipX := Plus(position, Scaled(AxisVector(AXES_LENGTH, 0), directions.x));
      var tipY := Plus(position, Scaled(AxisVector(AXES_LENGTH, 1), directions.y));
      var tipZ := Plus(position, Scaled(AxisVector(AXES_LENGTH, 2), directions.z));
      cylinders := cylinders + [Cylinder(radius, position, tipX,
                                         if invert then Color(0.0, 1.0, 1.0, 1.0) else Color(1.0, 0.0, 0.0, 1.0))];
      cylinders := cylinders + [Cylinder(radius, position, tipY,
                                         if invert then Color(1.0, 0.0, 1.0, 1.0) else Color(0.0, 1.0, 0.0, 1.0))];
      cylinders := cylinders + [Cylinder(radius, position, tipZ,
                                         if invert then Color(1.0, 1.0, 0.0, 1.0) else Color(0.0, 0.0, 1.0, 1.0))];
    }

    /** Appends the movable-axes corner and the camera-orientation corner,
        records the window start, then the eight cube corners and the origin axes. */
    method AddAxes(isMain: bool)
      modifies this`cylinders, this`indexFirstCubeAxesMain, this`indexFirstCubeAxesSide
      ensures cylinders == old(cylinders) + AxesBlock(DEFAULT_SIZES)
      ensures isMain ==> indexFirstCubeAxesMain == |old(cylinders)| + 6 &&
                         indexFirstCubeAxesSide == old(indexFirstCubeAxesSide)
      ensures !isMain ==> indexFirstCubeAxesSide == |old(cylinders)| + 6 &&
                          indexFirstCubeAxesMain == old(indexFirstCubeAxesMain)
    {
      var radius := AXES_RADIUS;
      var position := Vec3(0.5, 0.5, 0.5);
      var directions := Vec3(1.0, 1.0, 1.0);
      AddAxesCorner(position, directions, false, radius);
      AddAxesCorner(position, directions, false, radius);

      if isMain {
        indexFirstCubeAxesMain := |cylinders|;
      } else {
        indexFirstCubeAxesSide := |cylinders|;
      }
      AddCubeCorners();

      radius := ORIGIN_RADIUS;
      position := Vec3(0.0, 0.0, 0.0);
      directions := Vec3(1.0, 1.0, 1.0);
      AddOriginCornerStep(old(cylinders), cylinders);
      AddAxesCorner(position, directions, false, radius);
    }

    /** The x/y/z loop of AddAxes: the eight cube corners of the window. */
    method AddCubeCorners()
      modifies this`cylinders
      ensures cylinders == old(cylinders) + Window(DEFAULT_SIZES)[..24]
    {
      var radius := AXES_RADIUS;
      var position: Vec3;
      var directions: Vec3;
      ghost var base := cylinders;
      ghost var window := Window(DEFAULT_SIZES);

      for x := 0 to 2
        invariant cylinders == base + window[..3 * (4 * x)]
        modifies this`cylinders
      {
        for y := 0 to 2
          invariant cylinders == base + window[..3 * (4 * x + 2 * y)]
          modifies this`cylinders
        {
          for z := 0 to 2
            invariant cylinders == base + window[..3 * (4 * x + 2 * y + z)]
            modifies this`cylinders
          {
            var xx := if x == 0 then 1.0 else -1.0;
            var yy := if y == 0 then 1.0 else -1.0;
            var zz := if z == 0 then 1.0 else -1.0;
            position := Vec3(x as real, y as real, z as real);
            directions := Vec3(xx, yy, zz);
            assert directions == Vec3(Sign(x), Sign(y), Sign(z));
            AddCubeCornerStep(base, x, y, z, cylinders);
            AddAxesCorner(position, directions, false, radius);
          }
        }
      }
    }

    /** Records where the frames start and appends the three frames. */
    method AddProjectionFrames()
      modifies this`cylinders, this`indexFirstProjectionFrame
      ensures indexFirstProjectionFrame == |old(cylinders)|
      ensures cylinders == old(cylinders) + ProjectionFrames()
    {
      indexFirstProjectionFrame := |cylinders|;
      AddProjectionFrame(O, Vec3(0.0, 1.0, 0.0), Vec3(0.0, 1.0, 1.0), Vec3(0.0, 0.0, 1.0));
      AddProjectionFrame(O, Vec3(1.0, 0.0, 0.0), Vec3(1.0, 0.0, 1.0), Vec3(0.0, 0.0, 1.0));
      AddProjectionFrame(O, Vec3(1.0, 0.0, 0.0), Vec3(1.0, 1.0, 0.0), Vec3(0.0, 1.0, 0.0));
    }

    /** Appends the closed loop p1-p2-p3-p4-p1 of grey cylinders. */
    method AddProjectionFrame(p1: Vec3, p2: Vec3, p3: Vec3, p4: Vec3)
      modifies this`cylinders
      ensures cylinders == old(cylinders) + ProjectionFrame(p1, p2, p3, p4)
    {
      var radius := FRAME_RADIUS;
      var color := Color(0.75, 0.75, 0.75, 1.0);
      cylinders := cylinders + [Cylinder(radius, p1, p2, color)];
      cylinders := cylinders + [Cylinder(radius, p2, p3, color)];
      cylinders := cylinders + [Cylinder(radius, p3, p4, color)];
      cylinders := cylinders + [Cylinder(radius, p4, p1, color)];
    }

    /** Stores the parameters and recalculates both windows, unless every
        value equals the stored one. */
    method SetAxesParameters(main: AxesSettings, side: AxesSettings)
      requires Valid()
      modifies this
      ensures Valid()
      ensures axesParameters == Some(AxesParameters(main, side))
      ensures cylinders == RecalculatedWindow(RecalculatedWindow(old(cylinders), INDEX_FIRST_CUBE_AXES_MAIN, Sizes(main)),
                                              INDEX_FIRST_CUBE_AXES_SIDE, Sizes(side))
      ensures cylinders == old(cylinders)[..6] + Window(Sizes(main)) + old(cylinders)[33..39] + Window(Sizes(side))
                           + ProjectionFrames()
      ensures old(axesParameters) == Some(AxesParameters(main, side)) ==> cylinders == old(cylinders)
    {
      RecalculateKept(cylinders, MainSizes(axesParameters), SideSizes(axesParameters), Sizes(main), Sizes(side));
      if axesParameters == Some(AxesParameters(main, side)) {
        LayoutKeptSplit(cylinders, Sizes(main), Sizes(side));
        return;
      }
      axesParameters := Some(AxesParameters(main, side));
      RecalculateAxes(indexFirstCubeAxesMain, main.radius, main.radiusOrigin, main.length, main.lengthOrigin);
      RecalculateAxes(indexFirstCubeAxesSide, side.radius, side.radiusOrigin, side.length, side.lengthOrigin);
    }

    /** Recalculates the eight corners and the origin axes of the window at start. */
    method RecalculateAxes(start: nat, radius: real, radiusOrigin: real, length: real, lengthOrigin: real)
      requires start + 27 <= |cylinders|
      modifies this`cylinders
      ensures cylinders == RecalculatedWindow(old(cylinders), start, CornerSizes(radius, radiusOrigin, length, lengthOrigin))
    {
      ghost var sz := CornerSizes(radius, radiusOrigin, length, lengthOrigin);
      var startIndex := RecalculateCubeCorners(start, sz, radius, length);
      var radiusNow := radiusOrigin;
      var lengthNow := lengthOrigin;
      RecalculateOriginStep(old(cylinders), start, sz, cylinders);
      startIndex := RecalculateAxesCorner(Vec3(0.0, 0.0, 0.0), Vec3(1.0, 1.0, 1.0), startIndex, radiusNow, lengthNow);
    }

    /** The x/y/z loop of RecalculateAxes: the eight cube corners, threading the start index. */
    method RecalculateCubeCorners(start: nat, ghost sz: CornerSizes, radius: real, length: real)
      returns (startIndex: nat)
      requires start + 27 <= |cylinders| && radius == sz.radius && length == sz.length
      modifies this`cylinders
      ensures startIndex == start + 24
      ensures cylinders == RecalculatedCorners(old(cylinders), start, 8, sz)
    {
      ghost var cs := cylinders;
      RecalculatedCornersNone(cs, start, sz);
      startIndex := start;
      for x := 0 to 2
        invariant startIndex == start + 3 * (4 * x)
        invariant cylinders == RecalculatedCorners(cs, start, 4 * x, sz)
      {
        for y := 0 to 2
          invariant startIndex == start + 3 * (4 * x + 2 * y)
          invariant cylinders == RecalculatedCorners(cs, start, 4 * x + 2 * y, sz)
        {
          for z := 0 to 2
            invariant startIndex == start + 3 * (4 * x + 2 * y + z)
            invariant cylinders == RecalculatedCorners(cs, start, 4 * x + 2 * y + z, sz)
          {
            var xx := if x == 0 then 1.0 else -1.0;
            var yy := if y == 0 then 1.0 else -1.0;
            var zz := if z == 0 then 1.0 else -1.0;
            var position := Vec3(x as real, y as real, z as real);
            var directions := Vec3(xx, yy, zz);
            assert directions == Vec3(Sign(x), Sign(y), Sign(z));
            RecalculateCubeCornerStep(cs, start, x, y, z, sz, cylinders);
            startIndex := RecalculateAxesCorner(position, directions, startIndex, radius, length);
          }
        }
      }
    }

    /** Overwrites radius and both ends of the three cylinders at start and
        returns the index after them. */
    method RecalculateAxesCorner(position: Vec3, directions: Vec3, start: nat, radius: real, length: real)
      returns (next: nat)
      requires start + 3 <= |cylinders|
      modifies this`cylinders
      ensures next == start + 3
      ensures cylinders == RecalculatedCorner(old(cylinders), start, position, directions, radius, length)
    {
      var tipX := Plus(position, Scaled(AxisVector(length, 0), directions.x));
      var tipY := Plus(position, Scaled(AxisVector(length, 1), directions.y));
      var tipZ := Plus(position, Scaled(AxisVector(length, 2), directions.z));
      cylinders := cylinders[start := cylinders[start].(radius := radius, positionA := position, positionB := tipX)];
      cylinders := cylinders[start + 1 := cylinders[start + 1].(radius := radius, positionA := position, positionB := tipY)];
      cylinders := cylinders[start + 2 := cylinders[start + 2].(radius := radius, positionA := position, positionB := tipZ)];
      next := start + 3;
    }

    /** The three cylinders Update hands to the main movable-axes state: the
        first corner of the block six before the main window. */
    function MainMovableAxes(): (r: seq<Cylinder>)
      requires Valid()
      reads this
      ensures |r| == 3 && r == cylinders[indexFirstCubeAxesMain - 6..indexFirstCubeAxesMain - 3]
    {
      cylinders[0..3]
    }

    /** The three cylinders Update hands to the side movable-axes state: the
        first corner of the block six before the side window. */
    function SideMovableAxes(): (r: seq<Cylinder>)
      requires Valid()
      reads this
      ensures |r| == 3 && r == cylinders[indexFirstCubeAxesSide - 6..indexFirstCubeAxesSide - 3]
    {
      cylinders[33..36]
    }

    /** Update: a dirty movable-axes state rewrites the three cylinders it is
        handed. What it writes is computed outside this model, so it comes in
        as Some(new cylinders); None stands for a state that is not dirty. */
    method Update(mainMoved: Option<seq<Cylinder>>, sideMoved: Option<seq<Cylinder>>)
      requires Valid()
      requires mainMoved.Some? ==> |mainMoved.value| == 3
      requires sideMoved.Some? ==> |sideMoved.value| == 3
      modifies this`cylinders
      ensures Valid()
      ensures cylinders == MovedAxes(MovedAxes(old(cylinders), 0, mainMoved), 33, sideMoved)
      ensures mainMoved.Some? ==> MainMovableAxes() == mainMoved.value
      ensures sideMoved.Some? ==> SideMovableAxes() == sideMoved.value
    {
      ghost var cs := cylinders;
      if mainMoved.Some? {
        cylinders := cylinders[0 := mainMoved.value[0]][1 := mainMoved.value[1]][2 := mainMoved.value[2]];
        assert cylinders == MovedAxes(cs, 0, mainMoved);
      }
      ghost var mid := cylinders;
      if sideMoved.Some? {
        cylinders := cylinders[33 := sideMoved.value[0]][34 := sideMoved.value[1]][35 := sideMoved.value[2]];
        assert cylinders == MovedAxes(mid, 33, sideMoved);
      }
      MovedAxesKeepLayout(cs, MainSizes(axesParameters), SideSizes(axesParameters), mainMoved, sideMoved);
    }
  }

  // ---------------------------------------------------------------------------
  // Moving the movable axes
  // ---------------------------------------------------------------------------

  /** The list after the three cylinders at start are replaced by moved, if any. */
  function MovedAxes(cs: seq<Cylinder>, start: nat, moved: Option<seq<Cylinder>>): (r: seq<Cylinder>)
    requires start + 3 <= |cs| && (moved.Some? ==> |moved.value| == 3)
    ensures |r| == |cs|
    ensures r[start..start + 3] == (if moved.Some? then moved.value else cs[start..start + 3])
    ensures forall q :: 0 <= q < |cs| && !(start <= q < start + 3) ==> r[q] == cs[q]
  {
    if moved.Some? then cs[..start] + moved.value + cs[start + 3..] else cs
  }

  /** Moving the movable axes leaves the windows and the frames alone. */
  lemma MovedAxesKeepLayout(cs: seq<Cylinder>, a: CornerSizes, b: CornerSizes,
                            mainMoved: Option<seq<Cylinder>>, sideMoved: Option<seq<Cylinder>>)
    requires LayoutKept(cs, a, b)
    requires mainMoved.Some? ==> |mainMoved.value| == 3
    requires sideMoved.Some? ==> |sideMoved.value| == 3
    ensures LayoutKept(MovedAxes(MovedAxes(cs, 0, mainMoved), 33, sideMoved), a, b)
  {
    var r := MovedAxes(MovedAxes(cs, 0, mainMoved), 33, sideMoved);
    assert r[6..33] == cs[6..33];
    assert r[39..66] == cs[39..66];
    assert r[66..] == cs[66..];
  }


  // ---------------------------------------------------------------------------
  // Recalculating a window of the layout
  // ---------------------------------------------------------------------------

  /** Recalculating a window that holds the cylinders of sizes sz0 yields the
      window of sizes sz and leaves the rest of the list alone. */
  lemma RecalculateRewritesWindow(cs: seq<Cylinder>, start: nat, sz0: CornerSizes, sz: CornerSizes)
    requires start + 27 <= |cs| && cs[start..start + 27] == Window(sz0)
    ensures RecalculatedWindow(cs, start, sz) == cs[..start] + Window(sz) + cs[start + 27..]
  {
    var r := RecalculatedWindow(cs, start, sz);
    var rhs := cs[..start] + Window(sz) + cs[start + 27..];
    forall q | 0 <= q < |cs|
      ensures r[q] == rhs[q]
    {
      if start <= q < start + 27 {
        var m := q - start;
        assert cs[q] == cs[start..start + 27][m] == WindowCylinder(sz0, m);
        assert rhs[q] == Window(sz)[m];
      }
    }
  }

  /** Recalculating both windows of a kept list rewrites exactly the windows,
      whatever the movable axes hold. */
  lemma RecalculateKept(cs: seq<Cylinder>, a: CornerSizes, b: CornerSizes, a2: CornerSizes, b2: CornerSizes)
    requires LayoutKept(cs, a, b)
    ensures var r := RecalculatedWindow(RecalculatedWindow(cs, INDEX_FIRST_CUBE_AXES_MAIN, a2), INDEX_FIRST_CUBE_AXES_SIDE, b2);
      r == cs[..6] + Window(a2) + cs[33..39] + Window(b2) + ProjectionFrames() && LayoutKept(r, a2, b2)
  {
    var mid := RecalculatedWindow(cs, 6, a2);
    RecalculateRewritesWindow(cs, 6, a, a2);
    assert mid == cs[..6] + Window(a2) + cs[33..];
    assert mid[39..66] == cs[39..66];
    RecalculateRewritesWindow(mid, 39, b, b2);
    var r := RecalculatedWindow(mid, 39, b2);
    assert r == mid[..39] + Window(b2) + mid[66..];
    assert mid[..39] == cs[..6] + Window(a2) + cs[33..39];
    assert mid[66..] == cs[66..] == ProjectionFrames();
  }

  lemma LayoutRecalculateMain(a: CornerSizes, b: CornerSizes, c: CornerSizes)
    ensures RecalculatedWindow(Layout(a, b), INDEX_FIRST_CUBE_AXES_MAIN, c) == Layout(c, b)
  {
    var cs := Layout(a, b);
    var head := FrontCorner() + FrontCorner();
    var tail := AxesBlock(b) + ProjectionFrames();
    assert cs == head + Window(a) + tail;
    assert cs[6..33] == Window(a);
    RecalculateRewritesWindow(cs, 6, a, c);
    assert cs[..6] == head && cs[33..] == tail;
  }

  lemma LayoutRecalculateSide(a: CornerSizes, b: CornerSizes, c: CornerSizes)
    ensures RecalculatedWindow(Layout(a, b), INDEX_FIRST_CUBE_AXES_SIDE, c) == Layout(a, c)
  {
    var cs := Layout(a, b);
    var head := AxesBlock(a) + FrontCorner() + FrontCorner();
    var tail := ProjectionFrames();
    assert cs == head + Window(b) + tail;
    assert cs[39..66] == Window(b);
    RecalculateRewritesWindow(cs, 39, b, c);
    assert cs[..39] == head && cs[66..] == tail;
  }
}
