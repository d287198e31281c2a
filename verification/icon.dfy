/** The icon generator (`icon_generator.py`).

    The script builds the extension's icon as an SVG element list, layer by layer, on a
    1000×1000 drawing: a grey background disc, eight blue wedges, a white and a yellow donut,
    three grey separators cutting the yellow donut, a blue bullseye with its ring, eight grey
    teardrops and eight four-part spikes, the left half of them mirrored. The model keeps
    the structure of that list (which elements, in which order, at which angles, with which
    radii and widths); the trigonometry that turns an angle into path coordinates and the
    number formatting of the attribute strings are not modelled. */
module Icon {

  // ---------------------------------------------------------------- sizes

  const BASE_SIZE: real := 1000.0
  /** The output size the SVG is drawn at. */
  const SIZE: real := 1000.0

  /** `F(s)`: a length in the 1000-unit design scaled to the output size. */
  function F(s: real): real {
    SIZE * s / BASE_SIZE
  }

  /** `unF(s)`: a length of the output read back in design units. */
  function UnF(s: real): real {
    s / SIZE * BASE_SIZE
  }

  /** The icon is drawn at its design size, so `F` changes no length, and `unF` undoes it. */
  lemma FIsIdentity(s: real)
    ensures SIZE == BASE_SIZE && F(s) == s
    ensures UnF(F(s)) == s
  {
  }

  /** For any output size, reading back a scaled length gives the design length. */
  lemma ScaleRoundTrip(size: real, s: real)
    requires size != 0.0
    ensures (size * s / BASE_SIZE) / size * BASE_SIZE == s
  {
    calc {
      (size * s / BASE_SIZE) / size * BASE_SIZE;
      (size * s) / (BASE_SIZE * size) * BASE_SIZE;
      s / BASE_SIZE * BASE_SIZE;
    }
  }

  // ---------------------------------------------------------------- elements

  const GREY: string := "#45474c"
  const LIGHT_GREY: string := "#6e6e6e"
  const DARK_BLUE: string := "#588ea5"
  const WHITE: string := "#e9f7fa"
  const BLUE: string := "#64d1ef"
  const YELLOW: string := "#ffe369"
  const LIGHT_YELLOW: string := "#ffff83"

  /** How a shape is painted: filled, or stroked (with `fill="none"`) at some width. */
  datatype Paint = Fill(color: string) | Stroke(color: string, width: real)

  /** The four paths of a spike, in the order they are built. */
  datatype Part = Wings | ThinHalf | FatHalf | Nub

  const PARTS: seq<Part> := [Wings, ThinHalf, FatHalf, Nub]

  /** The part's colour: the thin half is the main colour, the fat half the off colour, the
      wings and the nub the nub colour. */
  function PartColor(part: Part): string {
    match part
    case ThinHalf => YELLOW
    case FatHalf => LIGHT_YELLOW
    case _ => DARK_BLUE
  }

  /** An element of the SVG, every one centred on (500, 500).
      - `Circle`: a circle of radius `r`.
      - `Wedge`: a dark blue wedge at `angle` degrees, reaching `offset` inward from the rim.
      - `Separator`: a grey line through the centre at `angle`, `halfLength` on each side.
      - `Teardrop`: a light grey teardrop whose point is at height `tipY`, turned by `angle`.
      - `SpikePart`: one path of a spike, turned by `angle`, mirrored or not. */
  datatype Elem =
    | Circle(r: real, paint: Paint)
    | Wedge(angle: int, offset: real)
    | Separator(angle: int, halfLength: real, width: real)
    | Teardrop(angle: int, tipY: real)
    | SpikePart(part: Part, angle: int, mirrored: bool, color: string)

  // ---------------------------------------------------------------- angles

  /** `range(0, step * n, step)`. */
  function Multiples(step: int, n: nat): (r: seq<int>)
    ensures |r| == n
    ensures forall i :: 0 <= i < n ==> r[i] == step * i
  {
    seq(n, i requires 0 <= i < n => step * i)
  }

  /** The angles not on a cardinal direction (multiples of 90 are skipped), in order. */
  function NonCardinal(angles: seq<int>): seq<int> {
    if angles == [] then []
    else
      var last := angles[|angles| - 1];
      NonCardinal(angles[..|angles| - 1]) + (if last % 90 == 0 then [] else [last])
  }

  /** An angle is kept exactly when it is in the list and not a multiple of 90. */
  lemma {:induction false} NonCardinalIn(angles: seq<int>, a: int)
    ensures a in NonCardinal(angles) <==> a in angles && a % 90 != 0
    decreases |angles|
  {
    if angles != [] {
      var init := angles[..|angles| - 1];
      NonCardinalIn(init, a);
      assert angles == init + [angles[|angles| - 1]];
    }
  }

  /** `range(0, 360, 360 // 12)`, the candidate wedge angles. */
  const WEDGE_CANDIDATES: seq<int> := Multiples(360 / 12, 12)
  /** The angles wedges are drawn at. */
  const WEDGE_ANGLES: seq<int> := NonCardinal(WEDGE_CANDIDATES)

  /** One more candidate angle: kept at the end unless it is cardinal. */
  lemma NonCardinalSnoc(angles: seq<int>, a: int)
    ensures NonCardinal(angles + [a]) == NonCardinal(angles) + (if a % 90 == 0 then [] else [a])
  {
    assert (angles + [a])[..|angles|] == angles;
  }

  /** The wedges sit at the multiples of 30° below 360° that are not multiples of 90°. */
  lemma WedgeAngles(a: int)
    ensures a in WEDGE_ANGLES <==> 0 <= a < 360 && a % 30 == 0 && a % 90 != 0
  {
    NonCardinalIn(WEDGE_CANDIDATES, a);
    if 0 <= a < 360 && a % 30 == 0 {
      assert WEDGE_CANDIDATES[a / 30] == a;
    }
  }

  /** One more multiple of 30 adds a wedge angle unless it is cardinal. */
  lemma CountStep(n: nat)
    ensures |NonCardinal(Multiples(30, n + 1))| == |NonCardinal(Multiples(30, n))| + (if (30 * n) % 90 == 0 then 0 else 1)
  {
    MultiplesSnoc(30, n);
    NonCardinalSnoc(Multiples(30, n), 30 * n);
  }

  /** `30 * m` is cardinal exactly when `m` is a multiple of 3. */
  lemma Cardinal30(m: nat)
    ensures (30 * m) % 90 == 0 <==> m % 3 == 0
  {
    var q, r := m / 3, m % 3;
    assert m == 3 * q + r;
    assert 30 * m == 90 * q + 30 * r;
  }

  lemma Thirds(m: nat)
    ensures (m + 3) / 3 == (m + 2) / 3 + (if m % 3 == 0 then 1 else 0)
  {
  }

  /** Of the first `n` multiples of 30, every third one (0, 90, 180, ...) is dropped. */
  lemma {:induction false} NonCardinalCount(n: nat)
    ensures |NonCardinal(Multiples(30, n))| == n - (n + 2) / 3
  {
    if n > 0 {
      NonCardinalCount(n - 1);
      CountStep(n - 1);
      Cardinal30(n - 1);
      Thirds(n - 1);
    }
  }

  /** So eight wedges are drawn: of the twelve candidates, 0, 90, 180 and 270 are dropped. */
  lemma WedgeCount()
    ensures |WEDGE_ANGLES| == 8
  {
    NonCardinalCount(12);
  }

  /** `range(0, 360, 360 // 8)`: the teardrop and spike angles. */
  const EIGHTHS: seq<int> := Multiples(360 / 8, 8)

  /** The teardrops and spikes are eight, at 0..315 in steps of 45; the mirrored spikes are
      exactly the last four, those at 180° and beyond. */
  lemma EighthAngles(k: int)
    requires 0 <= k < 8
    ensures |EIGHTHS| == 8 && EIGHTHS[k] == 45 * k
    ensures EIGHTHS[k] >= 180 <==> k >= 4
  {
  }

  // ---------------------------------------------------------------- layers

  const BACKGROUND_RADIUS: real := 450.0
  const WHITE_OUTER: real := 375.0
  const WHITE_INNER: real := 300.0
  const YELLOW_OUTER: real := 225.0
  const YELLOW_INNER: real := 150.0
  const GAP: real := 30.0
  const BULLSEYE_RADIUS: real := 75.0
  const RING_RADIUS: real := 40.0
  const RING_THICKNESS: real := 10.0
  const TEARDROP_RADIUS: real := 85.0
  const SPIKE_RADIUS: real := 275.0
  const SEPARATOR_ANGLES: seq<int> := [0, 45, 135]
  const VIEW_BOX: string := "50 50 900 900"

  /** How far a wedge reaches in from the rim: to just under the white donut. */
  const WEDGE_OFFSET: real := BACKGROUND_RADIUS - WHITE_OUTER + 10.0

  /** `draw_donut(color, outer, inner)`'s circle. */
  function Donut(color: string, outer: real, inner: real): (e: Elem)
    ensures e.Circle? && e.paint.Stroke? && e.paint.color == color
  {
    Circle(F((outer + inner) / 2.0), Stroke(color, F(outer - inner)))
  }

  /** A stroke is centred on its circle, so a donut paints exactly the ring between its inner
      and outer radius. */
  lemma DonutCoversRing(color: string, outer: real, inner: real)
    requires inner <= outer
    ensures var e := Donut(color, outer, inner);
      e.r - e.paint.width / 2.0 == inner && e.r + e.paint.width / 2.0 == outer
  {
  }

  /** The rings are nested without overlapping: the bullseye inside the yellow donut, the
      yellow donut inside the white one's hole, the white donut inside the background disc.
      The white donut is a circle of radius 337.5 stroked 75 wide; the yellow one 187.5 and 75. */
  lemma DonutSizes()
    ensures BULLSEYE_RADIUS < YELLOW_INNER < YELLOW_OUTER < WHITE_INNER < WHITE_OUTER < BACKGROUND_RADIUS
    ensures Donut(WHITE, WHITE_OUTER, WHITE_INNER) == Circle(337.5, Stroke(WHITE, 75.0))
    ensures Donut(YELLOW, YELLOW_OUTER, YELLOW_INNER) == Circle(187.5, Stroke(YELLOW, 75.0))
  {
  }

  /** The wedge reaches 85 in from the rim, so its inner end lies under the white donut:
      past its outer edge and short of its inner one. */
  lemma WedgeReachesUnderDonut()
    ensures WEDGE_OFFSET == 85.0
    ensures WHITE_INNER < BACKGROUND_RADIUS - WEDGE_OFFSET < WHITE_OUTER
  {
  }

  /** The separator drawn at `angle`: 255 each side of the centre, 30 wide. */
  function SeparatorAt(angle: int): Elem {
    Separator(angle, YELLOW_OUTER + GAP, F(GAP))
  }

  /** Each separator reaches past the yellow donut's outer edge, so it cuts the donut in two
      places, but stops short of the white donut, and it is as wide as the gap it leaves. */
  lemma SeparatorsCutDonut(angle: int)
    ensures SeparatorAt(angle).halfLength == 255.0
    ensures YELLOW_OUTER < SeparatorAt(angle).halfLength < WHITE_INNER
    ensures SeparatorAt(angle).width == GAP
  {
  }

  /** The four elements of the spike at `angle`, in build order. */
  function Spike(angle: int, mirrored: bool): (r: seq<Elem>)
    ensures |r| == 4
    ensures forall j :: 0 <= j < 4 ==> r[j] == SpikePart(PARTS[j], angle, mirrored, PartColor(PARTS[j]))
  {
    seq(4, j requires 0 <= j < 4 => SpikePart(PARTS[j], angle, mirrored, PartColor(PARTS[j])))
  }

  function Wedges(angles: seq<int>): seq<Elem> {
    if angles == [] then [] else Wedges(angles[..|angles| - 1]) + [Wedge(angles[|angles| - 1], WEDGE_OFFSET)]
  }

  function Separators(angles: seq<int>): seq<Elem> {
    if angles == [] then [] else Separators(angles[..|angles| - 1]) + [SeparatorAt(angles[|angles| - 1])]
  }

  function Teardrops(angles: seq<int>): seq<Elem> {
    if angles == [] then [] else Teardrops(angles[..|angles| - 1]) + [Teardrop(angles[|angles| - 1], F(500.0 - TEARDROP_RADIUS))]
  }

  /** The spikes at `angles`, each mirrored when its angle is at least 180°. */
  function Spikes(angles: seq<int>): seq<Elem> {
    if angles == [] then []
    else
      var a := angles[|angles| - 1];
      Spikes(angles[..|angles| - 1]) + Spike(a, a >= 180)
  }

  /** Spike `i / 4` fills positions `4 * (i / 4)` to `4 * (i / 4) + 3`: every spike gives four
      elements, all turned by its angle and mirrored exactly when that angle is at least 180°. */
  lemma {:induction false} SpikesAt(angles: seq<int>, i: int)
    requires 0 <= i < 4 * |angles|
    ensures |Spikes(angles)| == 4 * |angles|
    ensures var a := angles[i / 4];
      Spikes(angles)[i] == SpikePart(PARTS[i % 4], a, a >= 180, PartColor(PARTS[i % 4]))
    decreases |angles|
  {
    var init := angles[..|angles| - 1];
    if i < 4 * |init| {
      SpikesAt(init, i);
    } else if init != [] {
      SpikesAt(init, 0);
    }
  }

  /** The whole icon, bottom layer first. */
  function IconElems(): seq<Elem> {
    [Circle(F(BACKGROUND_RADIUS), Fill(GREY))]
    + Wedges(WEDGE_ANGLES)
    + [Donut(WHITE, WHITE_OUTER, WHITE_INNER), Donut(YELLOW, YELLOW_OUTER, YELLOW_INNER)]
    + Separators(SEPARATOR_ANGLES)
    + [Circle(F(BULLSEYE_RADIUS), Fill(BLUE)), Circle(F(RING_RADIUS), Stroke(DARK_BLUE, F(RING_THICKNESS)))]
    + Teardrops(EIGHTHS)
    + Spikes(EIGHTHS)
  }

  /** The icon has 56 elements: the background, 8 wedges, 2 donuts, 3 separators, the
      bullseye and its ring, 8 teardrops and 32 spike parts; the wedges lie under the white
      donut, the spikes on top of everything. */
  lemma IconLayers()
    ensures |IconElems()| == 56
    ensures IconElems()[0] == Circle(450.0, Fill(GREY))
    ensures forall i :: 1 <= i < 9 ==> IconElems()[i].Wedge?
    ensures IconElems()[9] == Donut(WHITE, WHITE_OUTER, WHITE_INNER)
    ensures IconElems()[10] == Donut(YELLOW, YELLOW_OUTER, YELLOW_INNER)
    ensures forall i :: 24 <= i < 56 ==> IconElems()[i].SpikePart?
  {
    WedgeCount();
    WedgesLength(WEDGE_ANGLES);
    SpikesAt(EIGHTHS, 0);
    SeparatorsLength(SEPARATOR_ANGLES);
    TeardropsLength(EIGHTHS);
    forall i | 1 <= i < 9 ensures IconElems()[i].Wedge? {
      WedgesAt(WEDGE_ANGLES, i - 1);
    }
    forall i | 24 <= i < 56 ensures IconElems()[i].SpikePart? {
      SpikesAt(EIGHTHS, i - 24);
    }
  }

  lemma {:induction false} WedgesLength(angles: seq<int>)
    ensures |Wedges(angles)| == |angles|
    decreases |angles|
  {
    if angles != [] {
      WedgesLength(angles[..|angles| - 1]);
    }
  }

  /** The `i`-th wedge is drawn at the `i`-th angle. */
  lemma {:induction false} WedgesAt(angles: seq<int>, i: int)
    requires 0 <= i < |angles|
    ensures |Wedges(angles)| == |angles|
    ensures Wedges(angles)[i] == Wedge(angles[i], WEDGE_OFFSET)
    decreases |angles|
  {
    var init := angles[..|angles| - 1];
    WedgesLength(init);
    if i < |init| {
      WedgesAt(init, i);
    }
  }

  /** `range` stepping one further. */
  lemma MultiplesSnoc(step: int, n: nat)
    ensures Multiples(step, n + 1) == Multiples(step, n) + [step * n]
  {
  }

  /** The wedges for the first `n` candidate angles. */
  ghost function WedgesUpTo(n: nat): seq<Elem> {
    Wedges(NonCardinal(Multiples(30, n)))
  }

  /** One more candidate angle adds its wedge unless it is cardinal. */
  lemma WedgeStep(n: nat, angle: int)
    requires angle == 30 * n
    ensures WedgesUpTo(n + 1) == WedgesUpTo(n) + (if angle % 90 == 0 then [] else [Wedge(angle, WEDGE_OFFSET)])
  {
    MultiplesSnoc(30, n);
    NonCardinalSnoc(Multiples(30, n), angle);
    WedgesAppend(NonCardinal(Multiples(30, n)), if angle % 90 == 0 then [] else [angle]);
  }

  /** All twelve candidates give the wedges at `WEDGE_ANGLES`. */
  lemma WedgesUpToAll()
    ensures WedgesUpTo(12) == Wedges(WEDGE_ANGLES)
  {
  }

  lemma WedgeDrawn(base: seq<Elem>, drawn: seq<Elem>, n: nat, angle: int)
    requires drawn == base + WedgesUpTo(n) && angle == 30 * n && angle % 90 != 0
    ensures drawn + [Wedge(angle, WEDGE_OFFSET)] == base + WedgesUpTo(n + 1)
  {
    WedgeStep(n, angle);
    AppendAssoc(base, WedgesUpTo(n), [Wedge(angle, WEDGE_OFFSET)]);
  }

  lemma WedgeSkipped(base: seq<Elem>, drawn: seq<Elem>, n: nat, angle: int)
    requires drawn == base + WedgesUpTo(n) && angle == 30 * n && angle % 90 == 0
    ensures drawn == base + WedgesUpTo(n + 1)
  {
    WedgeStep(n, angle);
    assert WedgesUpTo(n) + [] == WedgesUpTo(n);
  }

  lemma AllWedgesDrawn(base: seq<Elem>, drawn: seq<Elem>)
    requires drawn == base + WedgesUpTo(12)
    ensures drawn == base + Wedges(WEDGE_ANGLES)
  {
    WedgesUpToAll();
  }

  /** One more multiple of 45° adds its teardrop. */
  lemma TeardropStep(n: nat, angle: int)
    requires angle == 45 * n
    ensures Teardrops(Multiples(45, n + 1)) == Teardrops(Multiples(45, n)) + [Teardrop(angle, F(500.0 - TEARDROP_RADIUS))]
  {
    MultiplesSnoc(45, n);
    assert (Multiples(45, n) + [angle])[..n] == Multiples(45, n);
  }

  lemma AppendAssoc(a: seq<Elem>, b: seq<Elem>, c: seq<Elem>)
    ensures a + (b + c) == a + b + c
  {
  }

  /** The spikes at the first `n` multiples of 45°. */
  ghost function SpikesUpTo(n: nat): seq<Elem> {
    Spikes(Multiples(45, n))
  }

  /** One more multiple of 45° adds its spike. */
  lemma SpikeStep(n: nat, angle: int)
    requires angle == 45 * n
    ensures SpikesUpTo(n + 1) == SpikesUpTo(n) + Spike(angle, angle >= 180)
  {
    MultiplesSnoc(45, n);
    SpikesSnoc(Multiples(45, n), angle);
  }

  lemma EighthsAre()
    ensures EIGHTHS == Multiples(45, 8)
  {
  }

  /** One more spike angle adds that spike's four elements. */
  lemma SpikesSnoc(angles: seq<int>, a: int)
    ensures Spikes(angles + [a]) == Spikes(angles) + Spike(a, a >= 180)
  {
    assert (angles + [a])[..|angles|] == angles;
  }

  /** Wedges for two runs of angles are the wedges of each, in turn. */
  lemma {:induction false} WedgesAppend(a: seq<int>, b: seq<int>)
    ensures Wedges(a + b) == Wedges(a) + Wedges(b)
    decreases |b|
  {
    if b != [] {
      var init := b[..|b| - 1];
      assert (a + b)[..|a + b| - 1] == a + init;
      WedgesAppend(a, init);
    } else {
      assert a + b == a;
    }
  }

  lemma {:induction false} SeparatorsLength(angles: seq<int>)
    ensures |Separators(angles)| == |angles|
    decreases |angles|
  {
    if angles != [] {
      SeparatorsLength(angles[..|angles| - 1]);
    }
  }

  lemma {:induction false} TeardropsLength(angles: seq<int>)
    ensures |Teardrops(angles)| == |angles|
    decreases |angles|
  {
    if angles != [] {
      TeardropsLength(angles[..|angles| - 1]);
    }
  }

  // ---------------------------------------------------------------- the script

  /** The SVG root the script appends to. */
  class Svg {
    const width: real
    const height: real
    var children: seq<Elem>
    var viewBox: string

    /** Runs the script: every layer is appended in turn, then the view box is cropped. */
    constructor ()
      ensures width == F(1000.0) && height == F(1000.0)
      ensures children == IconElems()
      ensures viewBox == VIEW_BOX
    {
      width := F(1000.0);
      height := F(1000.0);
      children := [Circle(F(BACKGROUND_RADIUS), Fill(GREY))];
      viewBox := "";
      new;
      DrawRadialLines();
      ghost var layers := children;
      var donuts := [Donut(WHITE, WHITE_OUTER, WHITE_INNER), Donut(YELLOW, YELLOW_OUTER, YELLOW_INNER)];
      DrawDonut(WHITE, WHITE_OUTER, WHITE_INNER);
      DrawDonut(YELLOW, YELLOW_OUTER, YELLOW_INNER);
      AppendAssoc(layers, [donuts[0]], [donuts[1]]);
      DrawSeparators();
      layers := children;
      var centre := [Circle(F(BULLSEYE_RADIUS), Fill(BLUE)), Circle(F(RING_RADIUS), Stroke(DARK_BLUE, F(RING_THICKNESS)))];
      children := children + [centre[0]];
      children := children + [centre[1]];
      AppendAssoc(layers, [centre[0]], [centre[1]]);
      DrawTeardrops();
      DrawSpikes();
      viewBox := VIEW_BOX;
    }

    /** `draw_radial_lines()`: a wedge for every multiple of 30° that is not cardinal. */
    method DrawRadialLines()
      modifies this
      ensures children == old(children) + Wedges(WEDGE_ANGLES)
      ensures viewBox == old(viewBox)
    {
      var angle := 0;
      ghost var n := 0;
      while angle < 360
        invariant 0 <= n <= 12 && angle == 30 * n
        invariant children == old(children) + WedgesUpTo(n)
        invariant viewBox == old(viewBox)
      {
        ghost var drawn := children;
        if angle % 90 != 0 {
          children := children + [Wedge(angle, WEDGE_OFFSET)];
          WedgeDrawn(old(children), drawn, n, angle);
        } else {
          WedgeSkipped(old(children), drawn, n, angle);
        }
        angle, n := angle + 30, n + 1;
      }
      AllWedgesDrawn(old(children), children);
    }

    /** `draw_donut(color, outer, inner)`. */
    method DrawDonut(color: string, outer: real, inner: real)
      modifies this
      ensures children == old(children) + [Donut(color, outer, inner)]
      ensures viewBox == old(viewBox)
    {
      children := children + [Circle(F((outer + inner) / 2.0), Stroke(color, F(outer - inner)))];
    }

    /** The separators at 0°, 45° and 135°. */
    method DrawSeparators()
      modifies this
      ensures children == old(children) + Separators(SEPARATOR_ANGLES)
      ensures viewBox == old(viewBox)
    {
      var k := 0;
      while k < |SEPARATOR_ANGLES|
        invariant 0 <= k <= |SEPARATOR_ANGLES|
        invariant children == old(children) + Separators(SEPARATOR_ANGLES[..k])
        invariant viewBox == old(viewBox)
      {
        assert SEPARATOR_ANGLES[..k + 1][..k] == SEPARATOR_ANGLES[..k];
        children := children + [SeparatorAt(SEPARATOR_ANGLES[k])];
        k := k + 1;
      }
      assert SEPARATOR_ANGLES[..k] == SEPARATOR_ANGLES;
    }

    /** A teardrop at every multiple of 45°. */
    method DrawTeardrops()
      modifies this
      ensures children == old(children) + Teardrops(EIGHTHS)
      ensures viewBox == old(viewBox)
    {
      var angle := 0;
      ghost var n := 0;
      while angle < 360
        invariant 0 <= n <= 8 && angle == 45 * n
        invariant children == old(children) + Teardrops(Multiples(45, n))
        invariant viewBox == old(viewBox)
      {
        TeardropStep(n, angle);
        children := children + [Teardrop(angle, F(500.0 - TEARDROP_RADIUS))];
        AppendAssoc(old(children), Teardrops(Multiples(45, n)), [Teardrop(angle, F(500.0 - TEARDROP_RADIUS))]);
        angle, n := angle + 45, n + 1;
      }
      EighthsAre();
    }

    /** `draw_spike(...)`: the four paths are built into `elems`, then each gets the same
        rotation (and, when `mirrored`, the reflection) and is appended. */
    method DrawSpike(angle: int, mirrored: bool)
      modifies this
      ensures children == old(children) + Spike(angle, mirrored)
      ensures viewBox == old(viewBox)
    {
      var elems := [Wings, ThinHalf, FatHalf, Nub];
      var j := 0;
      while j < |elems|
        invariant 0 <= j <= |elems|
        invariant children == old(children) + Spike(angle, mirrored)[..j]
        invariant viewBox == old(viewBox)
      {
        assert Spike(angle, mirrored)[..j + 1] == Spike(angle, mirrored)[..j] + [Spike(angle, mirrored)[j]];
        children := children + [SpikePart(elems[j], angle, mirrored, PartColor(elems[j]))];
        j := j + 1;
      }
      assert Spike(angle, mirrored)[..4] == Spike(angle, mirrored);
    }

    /** A spike at every multiple of 45°, mirrored from 180° on. */
    method DrawSpikes()
      modifies this
      ensures children == old(children) + Spikes(EIGHTHS)
      ensures viewBox == old(viewBox)
    {
      var angle := 0;
      ghost var n := 0;
      while angle < 360
        invariant 0 <= n <= 8 && angle == 45 * n
        invariant children == old(children) + SpikesUpTo(n)
        invariant viewBox == old(viewBox)
      {
        SpikeStep(n, angle);
        DrawSpike(angle, angle >= 180);
        AppendAssoc(old(children), SpikesUpTo(n), Spike(angle, angle >= 180));
        angle, n := angle + 45, n + 1;
      }
      EighthsAre();
      assert SpikesUpTo(8) == Spikes(EIGHTHS);
    }
  }
}
