/**
 * The strand (hair) conversion for Blender: argument validation, the filter
 * that drops invalid points strand by strand, and the header of the hair file
 * handed to the scene.
 *
 * Point coordinates and UVs are the values read from the buffers. Thickness and
 * colour values are symbolic: a thickness is named by the step whose width it
 * interpolates, a colour channel by its base colour, its root/tip tint and its
 * channel number.
 */
module BlenderStrands {

  import opened Wrappers
  import opened CTypes

  //----------------------------------------------------------------------------
  // Arguments
  //----------------------------------------------------------------------------

  datatype DType = Float32 | OtherDType

  /** A numpy array: its element type, its number of dimensions and its elements. */
  datatype NdArray = NdArray(dtype: DType, nd: nat, data: seq<real>)

  /** A Python object passed where a numpy array is expected. */
  datatype PyArray = Array(arr: NdArray) | NotAnArray

  datatype ArrayName = PointsArray | ColorsArray | UVsArray

  datatype Tessellation = Ribbon | RibbonAdaptive | Solid | SolidAdaptive

  datatype StrandsError =
    | PointsPerStrandZero
    | NotNdArray(which: ArrayName)
    | WrongDType(which: ArrayName)
    | WrongDimensions(which: ArrayName)
    | RootColourLength
    | TipColourLength
    | UVCountMismatch(uvCount: int, strandCount: int)
    | CopyUVsWithoutUVs
    | UnknownTessellation(name: string)
    | ImageOpenFailed
    | UnsupportedChannelCount(channels: nat)
    | ImageWithoutUVs
    | TwoColourSources

  /** The arguments of the strand definition that the conversion reads. */
  datatype StrandsArgs = StrandsArgs(
    pointsPerStrand: uint32,
    points: PyArray,
    colors: PyArray,
    uvs: PyArray,
    imageFilename: string,
    copyUVs: bool,
    worldscale: real,
    rootWidth: real,
    tipWidth: real,
    widthOffset: real,
    tessellationType: string,
    rootColour: seq<real>,
    tipColour: seq<real>)

  function TessellationName(t: Tessellation): string
  {
    match t
    case Ribbon => "ribbon"
    case RibbonAdaptive => "ribbonadaptive"
    case Solid => "solid"
    case SolidAdaptive => "solidadaptive"
  }

  /** The tessellation type named by a string; the four names are the only ones accepted. */
  function ParseTessellation(s: string): (r: Option<Tessellation>)
    ensures r.Some? ==> s == TessellationName(r.value)
    ensures r.None? ==> forall t :: s != TessellationName(t)
  {
    if s == "ribbon" then Some(Ribbon)
    else if s == "ribbonadaptive" then Some(RibbonAdaptive)
    else if s == "solid" then Some(Solid)
    else if s == "solidadaptive" then Some(SolidAdaptive)
    else None
  }

  /** A float32 one-dimensional numpy array, or the error it is rejected with. */
  function CheckArray(o: PyArray, which: ArrayName): (r: Result<seq<real>, StrandsError>)
    ensures r.Success? <==> o.Array? && o.arr.dtype == Float32 && o.arr.nd == 1
    ensures r.Success? ==> r.value == o.arr.data
    ensures r.Failure? ==> r.error in {NotNdArray(which), WrongDType(which), WrongDimensions(which)}
  {
    if o.NotAnArray? then Failure(NotNdArray(which))
    else if o.arr.dtype != Float32 then Failure(WrongDType(which))
    else if o.arr.nd != 1 then Failure(WrongDimensions(which))
    else Success(o.arr.data)
  }

  function Abs(x: real): real { if x < 0.0 then -x else x }

  const EPSILON: real := 0.000000001

  predicate NearlyEqual(a: real, b: real, epsilon: real)
  {
    Abs(a - b) < epsilon
  }

  const WHITE: seq<real> := [1.0, 1.0, 1.0]

  //----------------------------------------------------------------------------
  // The validated context of the filter
  //----------------------------------------------------------------------------

  /**
   * What the filter loop reads: the three buffers, the number of strands and the
   * switches derived from the arguments.
   */
  datatype Context = Context(
    pps: nat,
    strands: nat,
    points: seq<real>,
    colors: seq<real>,
    uvs: seq<real>,
    worldscale: real,
    widthOffset: real,
    useThickness: bool,
    useVertexCols: bool,
    colorsFromImage: bool,
    useRootTipColours: bool,
    useColours: bool,
    useUVs: bool,
    tessellation: Tessellation)

  /** The UV buffer is read, one (u, v) pair per strand. */
  predicate ReadsUVs(c: Context)
  {
    c.useUVs || c.colorsFromImage
  }

  /** `s` blocks of `stride` elements each: the offset of block `s`. */
  function Offset(s: nat, stride: nat): nat
  {
    if s == 0 then 0 else Offset(s - 1, stride) + stride
  }

  lemma {:induction false} OffsetMono(s: nat, n: nat, stride: nat)
    requires s < n
    ensures Offset(s, stride) + stride <= Offset(n, stride)
    decreases n
  {
    if s + 1 < n {
      OffsetMono(s, n - 1, stride);
    }
  }

  lemma {:induction false} OffsetIsProduct(n: nat, stride: nat)
    ensures Offset(n, stride) == n * stride
    decreases n
  {
    if n > 0 {
      OffsetIsProduct(n - 1, stride);
    }
  }

  /** Every read of the filter loop stays inside its buffer. */
  predicate ValidContext(c: Context)
  {
    c.pps > 0
    && |c.points| == Offset(c.strands, 3 * c.pps)
    && (ReadsUVs(c) ==> 2 * c.strands <= |c.uvs|)
    && (c.useVertexCols ==> 3 * c.strands <= |c.colors|)
  }

  /**
   * What the caller must supply for the filter loop to stay inside the buffers,
   * which the conversion reads without checking: whole strands of points, and a
   * colour triple for every strand when colours are given.
   */
  predicate InBounds(a: StrandsArgs)
  {
    a.pointsPerStrand > 0 && a.points.Array? ==>
      var n := |a.points.arr.data|;
      n % 3 == 0 && (n / 3) % (a.pointsPerStrand as int) == 0
      && (a.colors.Array? && |a.colors.arr.data| > 0 ==> 3 * ((n / 3) / (a.pointsPerStrand as int)) <= |a.colors.arr.data|)
  }

  /** The arguments pass every check: the conditions of the checks, in any order. */
  predicate Acceptable(a: StrandsArgs, image: Option<nat>)
  {
    a.pointsPerStrand > 0
    && CheckArray(a.points, PointsArray).Success?
    && CheckArray(a.colors, ColorsArray).Success?
    && CheckArray(a.uvs, UVsArray).Success?
    && |a.rootColour| == 3 && |a.tipColour| == 3
    && ParseTessellation(a.tessellationType).Some?
    && var uvs := a.uvs.arr.data;
       (|uvs| > 0 ==> |uvs| / 2 == (|a.points.arr.data| / 3) / (a.pointsPerStrand as int))
       && (a.copyUVs ==> |uvs| > 0)
       && (a.imageFilename != [] ==> |uvs| > 0 && image.Some? && image.value in {1, 3, 4} && |a.colors.arr.data| == 0)
  }

  /** The checks before the filter, in the order the conversion makes them. */
  function ValidateStrands(a: StrandsArgs, image: Option<nat>): (r: Result<Context, StrandsError>)
    ensures a.pointsPerStrand == 0 ==> r == Failure(PointsPerStrandZero)
    ensures r.Success? <==> Acceptable(a, image)
    ensures r.Success? ==> r.value.pps == a.pointsPerStrand as int && r.value.useVertexCols == (|r.value.colors| > 0)
    ensures r.Success? ==> Some(r.value.tessellation) == ParseTessellation(a.tessellationType)
    ensures r.Success? ==> !(r.value.useVertexCols && r.value.colorsFromImage)
    ensures r.Success? && InBounds(a) ==> ValidContext(r.value)
  {
    if a.pointsPerStrand == 0 then Failure(PointsPerStrandZero)
    else
      var pps := a.pointsPerStrand as int;
      var points :- CheckArray(a.points, PointsArray);
      var colors :- CheckArray(a.colors, ColorsArray);
      if |a.rootColour| != 3 then Failure(RootColourLength)
      else if |a.tipColour| != 3 then Failure(TipColourLength)
      else
        var uvs :- CheckArray(a.uvs, UVsArray);
        var pointCount := |points| / 3;
        var uvCount := |uvs| / 2;
        var strandCount := pointCount / pps;
        if |uvs| > 0 && uvCount != strandCount then Failure(UVCountMismatch(uvCount, strandCount))
        else if a.copyUVs && |uvs| == 0 then Failure(CopyUVsWithoutUVs)
        else if ParseTessellation(a.tessellationType).None? then Failure(UnknownTessellation(a.tessellationType))
        else if |uvs| > 0 && a.imageFilename != [] && image.None? then Failure(ImageOpenFailed)
        else if |uvs| > 0 && a.imageFilename != [] && image.value !in {1, 3, 4} then Failure(UnsupportedChannelCount(image.value))
        else if a.imageFilename != [] && |uvs| == 0 then Failure(ImageWithoutUVs)
        else if |colors| > 0 && |uvs| > 0 && a.imageFilename != [] then Failure(TwoColourSources)
        else
          var useRootTip := a.rootColour != WHITE || a.tipColour != WHITE;
          var colorsFromImage := |uvs| > 0 && a.imageFilename != [];
          var c := Context(
            pps, strandCount, points, colors, uvs, a.worldscale, a.widthOffset,
            !NearlyEqual(a.rootWidth, a.tipWidth, EPSILON) && !NearlyEqual(a.widthOffset, 1.0, EPSILON),
            |colors| > 0, colorsFromImage, useRootTip,
            colorsFromImage || |colors| > 0 || useRootTip,
            uvCount > 0 && a.copyUVs,
            ParseTessellation(a.tessellationType).value);
          WholeStrands(|points|, pps);
          Success(c)
  }

  /** Whole points in whole strands: the buffer is the strands laid end to end. */
  lemma WholeStrands(n: nat, pps: nat)
    requires pps > 0
    ensures n % 3 == 0 && (n / 3) % pps == 0 ==> n == Offset((n / 3) / pps, 3 * pps)
  {
    var k := (n / 3) / pps;
    OffsetIsProduct(k, 3 * pps);
    if n % 3 == 0 && (n / 3) % pps == 0 {
      assert n / 3 == k * pps;
    }
  }

  //----------------------------------------------------------------------------
  // Points and per-point values
  //----------------------------------------------------------------------------

  datatype Point = Point(x: real, y: real, z: real)

  const INVALID_POINT := Point(0.0, 0.0, 0.0)

  /** The point at element `i` of a coordinate buffer, scaled to world units. */
  function MakePoint(data: seq<real>, i: nat, worldscale: real): (p: Point)
    requires i + 3 <= |data|
    ensures p.x == data[i] * worldscale && p.y == data[i + 1] * worldscale && p.z == data[i + 2] * worldscale
  {
    Point(data[i] * worldscale, data[i + 1] * worldscale, data[i + 2] * worldscale)
  }

  function DistanceSquared(a: Point, b: Point): real
  {
    (a.x - b.x) * (a.x - b.x) + (a.y - b.y) * (a.y - b.y) + (a.z - b.z) * (a.z - b.z)
  }

  /** The segment from `last` to `curr` is kept: neither end is all zeros and it is not too short. */
  predicate SegmentOk(last: Point, curr: Point)
  {
    last != INVALID_POINT && curr != INVALID_POINT && !(DistanceSquared(curr, last) < EPSILON)
  }

  /** A thickness value: the root width, or the width interpolated at a step. */
  datatype Thickness = RootThickness | TaperedThickness(step: nat)

  /** The colour of a strand before tinting: white, looked up in the image at (u, v), or the vertex colour. */
  datatype BaseColour = White | ImageColour(u: real, v: real) | VertexColour(r: real, g: real, b: real)

  /** The root/tip multiplier of a point's colour. */
  datatype Tint = NoTint | RootTint | TipTint | LerpTint(step: nat)

  datatype ColourChannel = ColourChannel(base: BaseColour, tint: Tint, channel: nat)

  /** The values read once per strand: its fractional UV and its base colour. */
  datatype StrandAttrs = StrandAttrs(u: real, v: real, base: BaseColour)

  /** The filtered buffers and the segment counts. */
  datatype Buffers = Buffers(points: seq<real>, thickness: seq<Thickness>, colours: seq<ColourChannel>,
                             uvs: seq<real>, segments: seq<uint16>)

  const NO_BUFFERS := Buffers([], [], [], [], [])

  function Join(a: Buffers, b: Buffers): Buffers
  {
    Buffers(a.points + b.points, a.thickness + b.thickness, a.colours + b.colours, a.uvs + b.uvs, a.segments + b.segments)
  }

  lemma JoinAssoc(a: Buffers, b: Buffers, d: Buffers)
    ensures Join(Join(a, b), d) == Join(a, Join(b, d))
  {
    assert (a.points + b.points) + d.points == a.points + (b.points + d.points);
    assert (a.thickness + b.thickness) + d.thickness == a.thickness + (b.thickness + d.thickness);
    assert (a.colours + b.colours) + d.colours == a.colours + (b.colours + d.colours);
    assert (a.uvs + b.uvs) + d.uvs == a.uvs + (b.uvs + d.uvs);
    assert (a.segments + b.segments) + d.segments == a.segments + (b.segments + d.segments);
  }

  function Frac(x: real): (r: real)
    ensures 0.0 <= r < 1.0
  {
    x - (x.Floor as real)
  }

  /** What the loop reads for strand `s` before walking its points. */
  function AttrsOf(c: Context, s: nat): StrandAttrs
    requires ReadsUVs(c) ==> 2 * s + 2 <= |c.uvs|
    requires c.useVertexCols ==> 3 * s + 3 <= |c.colors|
  {
    var u := if ReadsUVs(c) then Frac(c.uvs[2 * s]) else 0.0;
    var v := if ReadsUVs(c) then Frac(c.uvs[2 * s + 1]) else 0.0;
    StrandAttrs(u, v,
      if c.useVertexCols then VertexColour(c.colors[3 * s], c.colors[3 * s + 1], c.colors[3 * s + 2])
      else if c.colorsFromImage then ImageColour(u, v)
      else White)
  }

  /** The thickness of point `step` of a strand; step 0 is the root. */
  function ThicknessAt(c: Context, step: nat): Thickness
  {
    if step == 0 then RootThickness
    else if (step as real) < c.widthOffset * ((c.pps - 1) as real) then RootThickness
    else TaperedThickness(step)
  }

  /** The tint of point `step`: root at the root, tip at the last step, interpolated between. */
  function TintAt(c: Context, step: nat): Tint
  {
    if !c.useRootTipColours then NoTint
    else if step == 0 then RootTint
    else if step == c.pps - 1 then TipTint
    else LerpTint(step)
  }

  /** Everything pushed for one point: three coordinates, then a thickness, two UVs and three colours when used. */
  function PointPush(c: Context, attrs: StrandAttrs, p: Point, step: nat): (b: Buffers)
    ensures |b.points| == 3 && b.segments == []
    ensures |b.thickness| == (if c.useThickness then 1 else 0)
    ensures |b.colours| == (if c.useColours then 3 else 0)
    ensures |b.uvs| == (if c.useUVs then 2 else 0)
  {
    var tint := TintAt(c, step);
    Buffers([p.x, p.y, p.z],
            if c.useThickness then [ThicknessAt(c, step)] else [],
            if c.useColours then [ColourChannel(attrs.base, tint, 0), ColourChannel(attrs.base, tint, 1), ColourChannel(attrs.base, tint, 2)] else [],
            if c.useUVs then [attrs.u, attrs.v] else [],
            [])
  }

  //----------------------------------------------------------------------------
  // The filter, stated on values
  //----------------------------------------------------------------------------

  /** The `n` points whose coordinates start at element `start` of a buffer. */
  function PointsFrom(data: seq<real>, start: nat, n: nat, worldscale: real): (r: seq<Point>)
    requires start + 3 * n <= |data|
    ensures |r| == n
    decreases n
  {
    if n == 0 then [] else PointsFrom(data, start, n - 1, worldscale) + [MakePoint(data, start + 3 * (n - 1), worldscale)]
  }

  lemma PointsFromEach(data: seq<real>, start: nat, n: nat, worldscale: real)
    requires start + 3 * n <= |data|
    ensures forall j :: 0 <= j < n ==> PointsFrom(data, start, n, worldscale)[j] == MakePoint(data, start + 3 * j, worldscale)
  {
    forall j | 0 <= j < n
      ensures PointsFrom(data, start, n, worldscale)[j] == MakePoint(data, start + 3 * j, worldscale)
    {
      PointsFromAt(data, start, n, worldscale, j);
    }
  }

  lemma {:induction false} PointsFromAt(data: seq<real>, start: nat, n: nat, worldscale: real, j: nat)
    requires start + 3 * n <= |data| && j < n
    ensures PointsFrom(data, start, n, worldscale)[j] == MakePoint(data, start + 3 * j, worldscale)
    decreases n
  {
    if j < n - 1 {
      PointsFromAt(data, start, n - 1, worldscale, j);
    }
  }

  /** The points of strand `s`. */
  function StrandPoints(c: Context, s: nat): (r: seq<Point>)
    requires ValidContext(c) && s < c.strands
    ensures |r| == c.pps && Offset(s, 3 * c.pps) + 3 * c.pps <= |c.points|
  {
    OffsetMono(s, c.strands, 3 * c.pps);
    PointsFrom(c.points, Offset(s, 3 * c.pps), c.pps, c.worldscale)
  }

  /**
   * The steps of a strand whose point is kept once steps 1 to j-1 have been
   * looked at: the end of every valid segment, and the root when the first
   * segment is valid.
   */
  function KeptSteps(pts: seq<Point>, j: nat): (r: seq<nat>)
    requires 1 <= j <= |pts|
    ensures forall i :: 0 <= i < |r| ==> r[i] < j
    decreases j
  {
    if j == 1 then []
    else
      var prev := KeptSteps(pts, j - 1);
      var step := j - 1;
      if !SegmentOk(pts[step - 1], pts[step]) then prev
      else if step == 1 then prev + [0, 1]
      else prev + [step]
  }

  /** The kept steps are at most j, in increasing order. */
  lemma {:induction false} KeptStepsOrdered(pts: seq<Point>, j: nat)
    requires 1 <= j <= |pts|
    ensures |KeptSteps(pts, j)| <= j
    ensures forall i :: 0 < i < |KeptSteps(pts, j)| ==> KeptSteps(pts, j)[i - 1] < KeptSteps(pts, j)[i]
    decreases j
  {
    if j > 1 {
      KeptStepsOrdered(pts, j - 1);
    }
  }

  /** A point is kept exactly when it ends a valid segment, or starts the first one. */
  lemma {:induction false} KeptStepsMembership(pts: seq<Point>, j: nat, k: nat)
    requires 1 <= j <= |pts|
    ensures k in KeptSteps(pts, j) <==>
      (1 <= k < j && SegmentOk(pts[k - 1], pts[k])) || (k == 0 && 2 <= j && SegmentOk(pts[0], pts[1]))
    decreases j
  {
    if j > 1 {
      KeptStepsMembership(pts, j - 1, k);
    }
  }

  /** The values pushed for the given steps of a strand, in order. */
  function Pushes(c: Context, pts: seq<Point>, attrs: StrandAttrs, steps: seq<nat>): (b: Buffers)
    requires forall i :: 0 <= i < |steps| ==> steps[i] < |pts|
    ensures b.segments == [] && |b.points| == 3 * |steps|
    ensures |b.thickness| == (if c.useThickness then |steps| else 0)
    ensures |b.colours| == (if c.useColours then 3 * |steps| else 0)
    ensures |b.uvs| == (if c.useUVs then 2 * |steps| else 0)
    decreases |steps|
  {
    if steps == [] then NO_BUFFERS
    else
      var last := steps[|steps| - 1];
      Join(Pushes(c, pts, attrs, steps[..|steps| - 1]), PointPush(c, attrs, pts[last], last))
  }

  /** The number of kept points of strand `s`. */
  function KeptCount(c: Context, s: nat): nat
    requires ValidContext(c) && s < c.strands
  {
    |KeptSteps(StrandPoints(c, s), c.pps)|
  }

  /**
   * What a strand with the given kept steps adds to the buffers: its kept points,
   * less the last one when the `u_short` count of kept points is 1, and a segment
   * count when that count is above 1.
   */
  function StrandResult(c: Context, pts: seq<Point>, attrs: StrandAttrs, kept: seq<nat>): Buffers
    requires forall i :: 0 <= i < |kept| ==> kept[i] < |pts|
  {
    var count := |kept| % 0x1_0000;
    var final := if count == 1 then kept[..|kept| - 1] else kept;
    var pushed := Pushes(c, pts, attrs, final);
    if count > 1 then pushed.(segments := [(count - 1) as uint16]) else pushed
  }

  /** What strand `s` adds to the buffers. */
  function StrandOutput(c: Context, s: nat): Buffers
    requires ValidContext(c) && s < c.strands
  {
    var pts := StrandPoints(c, s);
    StrandResult(c, pts, AttrsOf(c, s), KeptSteps(pts, c.pps))
  }

  /** The buffers before the first strand: the thickness buffer holds the one default width when it is not per point. */
  function Initial(c: Context): Buffers
  {
    NO_BUFFERS.(thickness := if c.useThickness then [] else [RootThickness])
  }

  /** The buffers once strands 0 to n-1 have been filtered. */
  function Filtered(c: Context, n: nat): Buffers
    requires ValidContext(c) && n <= c.strands
  {
    if n == 0 then Initial(c) else Join(Filtered(c, n - 1), StrandOutput(c, n - 1))
  }

  //----------------------------------------------------------------------------
  // The filter loop
  //----------------------------------------------------------------------------

  /** `n` calls of `pop_back`. */
  method PopBack<T>(s: seq<T>, n: nat) returns (r: seq<T>)
    requires n <= |s|
    ensures r == s[..|s| - n]
  {
    r := s;
    for i := 0 to n
      invariant r == s[..|s| - i]
    {
      r := r[..|r| - 1];
    }
  }

  /** Pushes the values of one point onto the buffers. */
  method PushPoint(c: Context, b: Buffers, attrs: StrandAttrs, p: Point, step: nat) returns (b': Buffers)
    ensures b' == Join(b, PointPush(c, attrs, p, step))
  {
    b' := b.(points := b.points + [p.x, p.y, p.z]);
    if c.useThickness {
      b' := b'.(thickness := b'.thickness + [ThicknessAt(c, step)]);
    }
    if c.useUVs {
      b' := b'.(uvs := b'.uvs + [attrs.u, attrs.v]);
    }
    if c.useColours {
      var tint := TintAt(c, step);
      b' := b'.(colours := b'.colours + [ColourChannel(attrs.base, tint, 0), ColourChannel(attrs.base, tint, 1), ColourChannel(attrs.base, tint, 2)]);
    }
  }

  lemma DropSuffix<T>(a: seq<T>, d: seq<T>)
    ensures (a + d)[..|a + d| - |d|] == a
  {
  }

  /** Taking back the values of the last pushed point returns the buffers to where they were before it. */
  lemma UndoPush(b0: Buffers, pre: Buffers, pp: Buffers, b: Buffers)
    requires b == Join(b0, Join(pre, pp))
    ensures b.points[..|b.points| - |pp.points|] == Join(b0, pre).points
    ensures b.thickness[..|b.thickness| - |pp.thickness|] == Join(b0, pre).thickness
    ensures b.colours[..|b.colours| - |pp.colours|] == Join(b0, pre).colours
    ensures b.uvs[..|b.uvs| - |pp.uvs|] == Join(b0, pre).uvs
  {
    JoinAssoc(b0, pre, pp);
    DropSuffix(Join(b0, pre).points, pp.points);
    DropSuffix(Join(b0, pre).thickness, pp.thickness);
    DropSuffix(Join(b0, pre).colours, pp.colours);
    DropSuffix(Join(b0, pre).uvs, pp.uvs);
  }

  /** What looking at step `step` of a strand pushes: nothing, the root and the first point, or one point. */
  function StepPushes(c: Context, pts: seq<Point>, attrs: StrandAttrs, step: nat): Buffers
    requires 1 <= step < |pts|
  {
    if !SegmentOk(pts[step - 1], pts[step]) then NO_BUFFERS
    else if step == 1 then Join(PointPush(c, attrs, pts[0], 0), PointPush(c, attrs, pts[1], 1))
    else PointPush(c, attrs, pts[step], step)
  }

  /** Looking at one more step appends what that step pushes, and counts its points. */
  lemma {:induction false} PushesStep(c: Context, pts: seq<Point>, attrs: StrandAttrs, step: nat)
    requires 1 <= step < |pts|
    ensures Pushes(c, pts, attrs, KeptSteps(pts, step + 1)) == Join(Pushes(c, pts, attrs, KeptSteps(pts, step)), StepPushes(c, pts, attrs, step))
    ensures |KeptSteps(pts, step + 1)| == |KeptSteps(pts, step)| +
              (if !SegmentOk(pts[step - 1], pts[step]) then 0 else if step == 1 then 2 else 1)
  {
    var before := KeptSteps(pts, step);
    var after := KeptSteps(pts, step + 1);
    if !SegmentOk(pts[step - 1], pts[step]) {
      assert Join(Pushes(c, pts, attrs, before), NO_BUFFERS) == Pushes(c, pts, attrs, before);
    } else if step == 1 {
      assert after[..1] == [0];
      assert after[..1][..0] == [];
      JoinAssoc(NO_BUFFERS, PointPush(c, attrs, pts[0], 0), PointPush(c, attrs, pts[1], 1));
    } else {
      assert after[..|after| - 1] == before;
    }
  }

  /** The `pop_back` calls of the rollback: one point's coordinates, and its thickness, colour and UV when used. */
  method TakeBackPoint(c: Context, b: Buffers, ghost b0: Buffers, ghost pre: Buffers, ghost pp: Buffers) returns (b': Buffers)
    requires b == Join(b0, Join(pre, pp)) && pre.segments == [] && pp.segments == []
    requires |pp.points| == 3 && |pp.thickness| == (if c.useThickness then 1 else 0)
    requires |pp.colours| == (if c.useColours then 3 else 0) && |pp.uvs| == (if c.useUVs then 2 else 0)
    ensures b' == Join(b0, pre)
  {
    UndoPush(b0, pre, pp, b);
    var points := PopBack(b.points, 3);
    var thickness := b.thickness;
    if c.useThickness {
      thickness := PopBack(thickness, 1);
    }
    var colours := b.colours;
    if c.useColours {
      colours := PopBack(colours, 3);
    }
    var uvs := b.uvs;
    if c.useUVs {
      uvs := PopBack(uvs, 2);
    }
    b' := Buffers(points, thickness, colours, uvs, b.segments);
  }

  /** The `u_short` counter keeps counting modulo 2^16. */
  lemma CountStep(k: nat, x: uint16)
    requires x as int == k % 0x1_0000
    ensures Inc16(x) as int == (k + 1) % 0x1_0000
  {
    var q := k / 0x1_0000;
    assert k == 0x1_0000 * q + x as int;
    assert k + 1 == 0x1_0000 * q + (x as int + 1);
  }

  /** The three outcomes of a strand: a lone point taken back, a segment count recorded, or nothing recorded. */
  lemma ResultCases(c: Context, pts: seq<Point>, attrs: StrandAttrs, kept: seq<nat>)
    requires forall i :: 0 <= i < |kept| ==> kept[i] < |pts|
    ensures |kept| % 0x1_0000 == 1 ==> |kept| > 0 && StrandResult(c, pts, attrs, kept) == Pushes(c, pts, attrs, kept[..|kept| - 1])
    ensures |kept| % 0x1_0000 > 1 ==> StrandResult(c, pts, attrs, kept) == Pushes(c, pts, attrs, kept).(segments := [(|kept| % 0x1_0000 - 1) as uint16])
    ensures |kept| % 0x1_0000 == 0 ==> StrandResult(c, pts, attrs, kept) == Pushes(c, pts, attrs, kept)
  {
  }

  /**
   * Walks the points of strand `s`, which start at element `p` of the point
   * buffer, and pushes the kept points; the count is the `u_short` number of
   * points pushed.
   */
  method WalkStrand(c: Context, s: nat, p: nat, attrs: StrandAttrs, b0: Buffers, ghost pts: seq<Point>)
    returns (b: Buffers, validPointCount: uint16)
    requires c.pps > 0 && p + 3 * c.pps <= |c.points| && |pts| == c.pps
    requires forall j :: 0 <= j < c.pps ==> pts[j] == MakePoint(c.points, p + 3 * j, c.worldscale)
    ensures b == Join(b0, Pushes(c, pts, attrs, KeptSteps(pts, c.pps)))
    ensures validPointCount as int == |KeptSteps(pts, c.pps)| % 0x1_0000
  {
    validPointCount := 0;
    var ptr := p;
    var currPoint := MakePoint(c.points, ptr, c.worldscale);
    ptr := ptr + 3;
    b := b0;
    for step := 1 to c.pps
      invariant ptr == p + 3 * step && currPoint == pts[step - 1]
      invariant b == Join(b0, Pushes(c, pts, attrs, KeptSteps(pts, step)))
      invariant validPointCount as int == |KeptSteps(pts, step)| % 0x1_0000
    {
      var lastPoint := currPoint;
      currPoint := MakePoint(c.points, ptr, c.worldscale);
      ptr := ptr + 3;
      b, validPointCount := WalkStep(c, pts, attrs, step, lastPoint, currPoint, b0, b, validPointCount);
    }
  }

  /** The walk's invariant one step further: the step's pushes are appended and its points counted. */
  lemma WalkAdvance(c: Context, pts: seq<Point>, attrs: StrandAttrs, b0: Buffers, step: nat)
    requires 1 <= step < |pts|
    ensures Join(b0, Pushes(c, pts, attrs, KeptSteps(pts, step + 1)))
            == Join(Join(b0, Pushes(c, pts, attrs, KeptSteps(pts, step))), StepPushes(c, pts, attrs, step))
    ensures |KeptSteps(pts, step + 1)| == |KeptSteps(pts, step)| +
              (if !SegmentOk(pts[step - 1], pts[step]) then 0 else if step == 1 then 2 else 1)
  {
    PushesStep(c, pts, attrs, step);
    JoinAssoc(b0, Pushes(c, pts, attrs, KeptSteps(pts, step)), StepPushes(c, pts, attrs, step));
  }

  /**
   * One step of the walk: the segment from the previous point to point `step`
   * is skipped when either end is all zeros or it is too short; otherwise the
   * point is pushed, and on the first step the root point before it.
   */
  method WalkStep(c: Context, ghost pts: seq<Point>, attrs: StrandAttrs, step: nat, lastPoint: Point, currPoint: Point,
                  ghost b0: Buffers, b1: Buffers, count1: uint16)
    returns (b: Buffers, validPointCount: uint16)
    requires 1 <= step < |pts| && lastPoint == pts[step - 1] && currPoint == pts[step]
    requires b1 == Join(b0, Pushes(c, pts, attrs, KeptSteps(pts, step)))
    requires count1 as int == |KeptSteps(pts, step)| % 0x1_0000
    ensures b == Join(b0, Pushes(c, pts, attrs, KeptSteps(pts, step + 1)))
    ensures validPointCount as int == |KeptSteps(pts, step + 1)| % 0x1_0000
  {
    WalkAdvance(c, pts, attrs, b0, step);
    ghost var pushed := |KeptSteps(pts, step)|;
    b, validPointCount := b1, count1;
    if lastPoint == INVALID_POINT || currPoint == INVALID_POINT {
      JoinNothing(b1);
      return;
    }
    if DistanceSquared(currPoint, lastPoint) < EPSILON {
      JoinNothing(b1);
      return;
    }
    ghost var count := pushed;
    if step == 1 {
      b := PushPoint(c, b, attrs, lastPoint, 0);
      CountStep(count, validPointCount);
      validPointCount := Inc16(validPointCount);
      count := count + 1;
    }
    b := PushPoint(c, b, attrs, currPoint, step);
    CountStep(count, validPointCount);
    validPointCount := Inc16(validPointCount);
    if step == 1 {
      JoinAssoc(b1, PointPush(c, attrs, pts[0], 0), PointPush(c, attrs, pts[1], 1));
    }
  }

  /**
   * Filters strand `s`: walks its points, then either takes back a lone point
   * or records the strand's segment count.
   */
  method FilterStrand(c: Context, s: nat, p: nat, attrs: StrandAttrs, b0: Buffers) returns (b: Buffers)
    requires ValidContext(c) && s < c.strands && p == Offset(s, 3 * c.pps)
    requires ReadsUVs(c) ==> 2 * s + 2 <= |c.uvs|
    requires c.useVertexCols ==> 3 * s + 3 <= |c.colors|
    requires attrs == AttrsOf(c, s)
    ensures b == Join(b0, StrandOutput(c, s))
  {
    ghost var pts := StrandPoints(c, s);
    ghost var kept := KeptSteps(pts, c.pps);
    var validPointCount;
    PointsFromEach(c.points, p, c.pps, c.worldscale);
    b, validPointCount := WalkStrand(c, s, p, attrs, b0, pts);
    b := FinishStrand(c, pts, attrs, kept, b0, b, validPointCount);
  }

  /** After the walk: a lone kept point is taken back, otherwise the `u_short` segment count is recorded. */
  method FinishStrand(c: Context, ghost pts: seq<Point>, attrs: StrandAttrs, ghost kept: seq<nat>, ghost b0: Buffers,
                      b1: Buffers, validPointCount: uint16)
    returns (b: Buffers)
    requires forall i :: 0 <= i < |kept| ==> kept[i] < |pts|
    requires b1 == Join(b0, Pushes(c, pts, attrs, kept))
    requires validPointCount as int == |kept| % 0x1_0000
    ensures b == Join(b0, StrandResult(c, pts, attrs, kept))
  {
    b := b1;
    ResultCases(c, pts, attrs, kept);
    if validPointCount == 1 {
      // Can't make a segment with only one point: take it back.
      ghost var last := kept[|kept| - 1];
      ghost var pre := Pushes(c, pts, attrs, kept[..|kept| - 1]);
      assert Pushes(c, pts, attrs, kept) == Join(pre, PointPush(c, attrs, pts[last], last));
      b := TakeBackPoint(c, b, b0, pre, PointPush(c, attrs, pts[last], last));
    } else if validPointCount > 1 {
      b := b.(segments := b.segments + [validPointCount - 1]);
    }
  }

  /** The reads at the head of each strand: its UV pair and its vertex colour, when used. */
  method ReadStrandAttrs(c: Context, s: nat, uvPtr: nat, colorPtr: nat) returns (attrs: StrandAttrs)
    requires ReadsUVs(c) ==> uvPtr == 2 * s && 2 * s + 2 <= |c.uvs|
    requires c.useVertexCols ==> colorPtr == 3 * s && 3 * s + 3 <= |c.colors|
    ensures attrs == AttrsOf(c, s)
  {
    var u, v := 0.0, 0.0;
    if c.useUVs || c.colorsFromImage {
      u := c.uvs[uvPtr];
      v := c.uvs[uvPtr + 1];
      // Bring u and v into the range 0..1.
      u := Frac(u);
      v := Frac(v);
    }
    var r, g, bl := 1.0, 1.0, 1.0;
    if c.useVertexCols {
      r := c.colors[colorPtr];
      g := c.colors[colorPtr + 1];
      bl := c.colors[colorPtr + 2];
    }
    var base := if c.useVertexCols then VertexColour(r, g, bl) else if c.colorsFromImage then ImageColour(u, v) else White;
    attrs := StrandAttrs(u, v, base);
  }

  /** The loop over the strands: reads each strand's UV pair and colour, then filters its points. */
  method FilterStrands(c: Context) returns (b: Buffers)
    requires ValidContext(c)
    ensures b == Filtered(c, c.strands)
  {
    b := Initial(c);
    var pointPtr, uvPtr, colorPtr := 0, 0, 0;
    var s := 0;
    while pointPtr < |c.points|
      invariant s <= c.strands && pointPtr == Offset(s, 3 * c.pps)
      invariant uvPtr == (if ReadsUVs(c) then 2 * s else 0)
      invariant colorPtr == (if c.useVertexCols then 3 * s else 0)
      invariant b == Filtered(c, s)
      decreases |c.points| - pointPtr
    {
      var attrs := ReadStrandAttrs(c, s, uvPtr, colorPtr);
      if ReadsUVs(c) {
        uvPtr := uvPtr + 2;
      }
      if c.useVertexCols {
        colorPtr := colorPtr + 3;
      }
      OffsetMono(s, c.strands, 3 * c.pps);
      b := FilterStrand(c, s, pointPtr, attrs, b);
      pointPtr := pointPtr + 3 * c.pps;
      s := s + 1;
    }
    if s < c.strands {
      OffsetMono(s, c.strands, 3 * c.pps);
    }
  }

  //----------------------------------------------------------------------------
  // Properties of the filter
  //----------------------------------------------------------------------------

  /** A strand with exactly one kept point leaves every buffer as it was. */
  lemma RollbackRestores(c: Context, s: nat)
    requires ValidContext(c) && s < c.strands && KeptCount(c, s) == 1
    ensures Filtered(c, s + 1) == Filtered(c, s)
  {
    LoneStrandOutputsNothing(c, s);
    JoinNothing(Filtered(c, s));
  }

  /** A strand keeping one point outputs nothing once that point is taken back. */
  lemma LoneStrandOutputsNothing(c: Context, s: nat)
    requires ValidContext(c) && s < c.strands && KeptCount(c, s) == 1
    ensures StrandOutput(c, s) == NO_BUFFERS
  {
    var pts := StrandPoints(c, s);
    ResultCases(c, pts, AttrsOf(c, s), KeptSteps(pts, c.pps));
  }

  lemma JoinNothing(a: Buffers)
    ensures Join(a, NO_BUFFERS) == a
  {
  }

  /** The number of points a strand keeps once a lone point is taken back. */
  function KeptFinal(kept: seq<nat>): nat
  {
    if |kept| % 0x1_0000 == 1 then |kept| - 1 else |kept|
  }

  /**
   * A strand with k kept points records the segment count k-1 when k > 1, and
   * keeps no point and no segment count otherwise (k below 2^16, where the
   * `u_short` counter has not wrapped).
   */
  lemma ResultSegments(c: Context, pts: seq<Point>, attrs: StrandAttrs, kept: seq<nat>)
    requires forall i :: 0 <= i < |kept| ==> kept[i] < |pts|
    requires |kept| < 0x1_0000
    ensures var o := StrandResult(c, pts, attrs, kept);
            (|kept| > 1 ==> o.segments == [(|kept| - 1) as uint16] && |o.points| == 3 * |kept|)
            && (|kept| <= 1 ==> o.segments == [] && o.points == [])
  {
    ResultCases(c, pts, attrs, kept);
  }

  /** The per-point buffers grow in lockstep: k points give 3k coordinates, and k thicknesses, 3k colours and 2k UVs when used. */
  predicate Lockstep(c: Context, b: Buffers, k: nat)
  {
    |b.points| == 3 * k
    && |b.thickness| == (if c.useThickness then k else 0)
    && |b.colours| == (if c.useColours then 3 * k else 0)
    && |b.uvs| == (if c.useUVs then 2 * k else 0)
  }

  lemma ResultLockstep(c: Context, pts: seq<Point>, attrs: StrandAttrs, kept: seq<nat>)
    requires forall i :: 0 <= i < |kept| ==> kept[i] < |pts|
    ensures Lockstep(c, StrandResult(c, pts, attrs, kept), KeptFinal(kept))
  {
    ResultCases(c, pts, attrs, kept);
  }

  /** Strand `s` adds its kept points to every per-point buffer alike. */
  lemma StrandLockstep(c: Context, s: nat)
    requires ValidContext(c) && s < c.strands
    ensures Lockstep(c, StrandOutput(c, s), KeptFinal(KeptSteps(StrandPoints(c, s), c.pps)))
  {
    ResultLockstep(c, StrandPoints(c, s), AttrsOf(c, s), KeptSteps(StrandPoints(c, s), c.pps));
  }

  /** The number of points kept by strands 0 to n-1. */
  function FilteredPoints(c: Context, n: nat): nat
    requires ValidContext(c) && n <= c.strands
  {
    if n == 0 then 0 else FilteredPoints(c, n - 1) + KeptFinal(KeptSteps(StrandPoints(c, n - 1), c.pps))
  }

  /**
   * The buffers describe k whole points: one thickness per point (or the single
   * default width when thickness is not per point), and three colour values and
   * two UVs per point when those are used.
   */
  predicate BuffersAgree(c: Context, b: Buffers, k: nat)
  {
    |b.points| == 3 * k
    && (if c.useThickness then |b.thickness| == k else b.thickness == [RootThickness])
    && |b.colours| == (if c.useColours then 3 * k else 0)
    && |b.uvs| == (if c.useUVs then 2 * k else 0)
  }

  lemma JoinAgrees(c: Context, a: Buffers, ka: nat, o: Buffers, k: nat)
    requires BuffersAgree(c, a, ka) && Lockstep(c, o, k)
    ensures BuffersAgree(c, Join(a, o), ka + k)
  {
  }

  /** After any number of strands the buffers agree on the points they describe. */
  lemma {:induction false} FilteredLockstep(c: Context, n: nat)
    requires ValidContext(c) && n <= c.strands
    ensures BuffersAgree(c, Filtered(c, n), FilteredPoints(c, n))
  {
    if n > 0 {
      var m := n - 1;
      FilteredLockstep(c, m);
      FilteredLockstepStep(c, m);
    }
  }

  lemma FilteredLockstepStep(c: Context, n: nat)
    requires ValidContext(c) && n < c.strands
    requires BuffersAgree(c, Filtered(c, n), FilteredPoints(c, n))
    ensures BuffersAgree(c, Filtered(c, n + 1), FilteredPoints(c, n + 1))
  {
    StrandLockstep(c, n);
    JoinAgrees(c, Filtered(c, n), FilteredPoints(c, n), StrandOutput(c, n), KeptFinal(KeptSteps(StrandPoints(c, n), c.pps)));
  }

  /** The number of points the hairs of a hair file hold: one more than its segment count each. */
  function SegmentPoints(segments: seq<uint16>): nat
  {
    if segments == [] then 0 else SegmentPoints(segments[..|segments| - 1]) + segments[|segments| - 1] as int + 1
  }

  lemma {:induction false} SegmentPointsAppend(a: seq<uint16>, d: seq<uint16>)
    ensures SegmentPoints(a + d) == SegmentPoints(a) + SegmentPoints(d)
    decreases |d|
  {
    if d == [] {
      assert a + d == a;
    } else {
      assert (a + d)[..|a + d| - 1] == a + d[..|d| - 1];
      assert (a + d)[|a + d| - 1] == d[|d| - 1];
      SegmentPointsAppend(a, d[..|d| - 1]);
    }
  }

  /** With strands shorter than 2^16 points, the segment count a strand records accounts for the points it keeps. */
  lemma StrandCovers(c: Context, s: nat)
    requires ValidContext(c) && s < c.strands && c.pps < 0x1_0000
    ensures 3 * SegmentPoints(StrandOutput(c, s).segments) == |StrandOutput(c, s).points|
  {
    var pts := StrandPoints(c, s);
    KeptStepsOrdered(pts, c.pps);
    ResultSegments(c, pts, AttrsOf(c, s), KeptSteps(pts, c.pps));
  }

  /**
   * With strands shorter than 2^16 points, the segment counts account for every
   * kept point: the hair file's hairs hold exactly the filtered points.
   */
  lemma {:induction false} SegmentsCoverPoints(c: Context, n: nat)
    requires ValidContext(c) && n <= c.strands && c.pps < 0x1_0000
    ensures |Filtered(c, n).points| == 3 * SegmentPoints(Filtered(c, n).segments)
  {
    if n > 0 {
      var m := n - 1;
      SegmentsCoverPoints(c, m);
      SegmentsCoverStep(c, m);
    }
  }

  lemma SegmentsCoverStep(c: Context, n: nat)
    requires ValidContext(c) && n < c.strands && c.pps < 0x1_0000
    requires |Filtered(c, n).points| == 3 * SegmentPoints(Filtered(c, n).segments)
    ensures |Filtered(c, n + 1).points| == 3 * SegmentPoints(Filtered(c, n + 1).segments)
  {
    StrandCovers(c, n);
    SegmentPointsAppend(Filtered(c, n).segments, StrandOutput(c, n).segments);
  }

  //----------------------------------------------------------------------------
  // The hair file header
  //----------------------------------------------------------------------------

  datatype HairBit = SegmentsBit | PointsBit | ThicknessBit | ColoursBit | UVsBit

  /** The hair file handed to the scene: counts, array flags, defaults and the arrays whose flag is set. */
  datatype HairFile = HairFile(
    hairCount: nat,
    pointCount: nat,
    flags: set<HairBit>,
    defaultSegmentCount: Option<uint16>,
    defaultThickness: Option<Thickness>,
    defaultColour: Option<BaseColour>,
    segments: seq<uint16>,
    points: seq<real>,
    thickness: seq<Thickness>,
    colours: seq<ColourChannel>,
    uvs: seq<real>)

  predicate AllEqual(s: seq<uint16>)
  {
    forall i, j :: 0 <= i < |s| && 0 <= j < |s| ==> s[i] == s[j]
  }

  /** `std::adjacent_find` with `not_equal_to`: the first i with s[i] != s[i+1], or |s| when there is none. */
  function AdjacentFind(s: seq<uint16>): (r: nat)
    ensures r <= |s|
    ensures r < |s| ==> r + 1 < |s| && s[r] != s[r + 1]
    ensures forall i :: 0 <= i < r && i + 1 < |s| ==> s[i] == s[i + 1]
    decreases |s|
  {
    if |s| < 2 then |s|
    else if s[0] != s[1] then 0
    else 1 + AdjacentFind(s[1..])
  }

  /** No two neighbours differ exactly when all the counts are equal. */
  lemma {:induction false} AdjacentFindAllEqual(s: seq<uint16>)
    ensures AdjacentFind(s) == |s| <==> AllEqual(s)
    decreases |s|
  {
    if |s| >= 2 {
      AdjacentFindAllEqual(s[1..]);
      if s[0] == s[1] && AllEqual(s[1..]) {
        forall i, j | 0 <= i < |s| && 0 <= j < |s|
          ensures s[i] == s[j]
        {
          assert s[i] == s[1..][if i == 0 then 0 else i - 1];
          assert s[j] == s[1..][if j == 0 then 0 else j - 1];
        }
      }
      if AllEqual(s) {
        assert s[0] == s[1];
        assert forall i :: 0 <= i < |s| - 1 ==> s[1..][i] == s[i + 1];
      }
    }
  }

  /** The header and arrays built from the filtered buffers. */
  function HairOf(c: Context, b: Buffers): (h: HairFile)
    requires b.segments != [] && (!c.useThickness ==> |b.thickness| > 0)
    ensures h.hairCount == |b.segments| && h.pointCount == |b.points| / 3 && PointsBit in h.flags
    ensures SegmentsBit in h.flags <==> !AllEqual(b.segments)
    ensures SegmentsBit !in h.flags <==> h.defaultSegmentCount.Some?
    ensures h.defaultSegmentCount.Some? ==> forall i :: 0 <= i < |b.segments| ==> b.segments[i] == h.defaultSegmentCount.value
    ensures (ThicknessBit in h.flags <==> c.useThickness) && (ColoursBit in h.flags <==> c.useColours) && (UVsBit in h.flags <==> c.useUVs)
  {
    AdjacentFindAllEqual(b.segments);
    var allSegmentsEqual := AdjacentFind(b.segments) == |b.segments|;
    var flags := {PointsBit}
      + (if allSegmentsEqual then {} else {SegmentsBit})
      + (if c.useThickness then {ThicknessBit} else {})
      + (if c.useColours then {ColoursBit} else {})
      + (if c.useUVs then {UVsBit} else {});
    HairFile(
      |b.segments|, |b.points| / 3, flags,
      if allSegmentsEqual then Some(b.segments[0]) else None,
      if c.useThickness then None else Some(b.thickness[0]),
      if c.useColours then None else Some(White),
      if allSegmentsEqual then [] else b.segments,
      b.points,
      if c.useThickness then b.thickness else [],
      if c.useColours then b.colours else [],
      if c.useUVs then b.uvs else [])
  }

  //----------------------------------------------------------------------------
  // The whole conversion
  //----------------------------------------------------------------------------

  /** The conversion throws, returns false when no segment survives, or defines the strands and returns true. */
  datatype StrandsOutcome = Rejected(error: StrandsError) | NoValidSegments | Defined(hair: HairFile, tessellation: Tessellation)

  /**
   * Validates the arguments, filters the points strand by strand and builds the
   * hair file; the image file, when one is named, is given by its channel count
   * (none when it cannot be opened).
   */
  method DefineBlenderStrands(a: StrandsArgs, image: Option<nat>) returns (r: StrandsOutcome)
    requires ValidateStrands(a, image).Success? ==> InBounds(a)
    ensures a.pointsPerStrand == 0 ==> r == Rejected(PointsPerStrandZero)
    ensures ParseTessellation(a.tessellationType).None? ==> r.Rejected?
    ensures r.Rejected? <==> ValidateStrands(a, image).Failure?
    ensures r.Rejected? ==> r.error == ValidateStrands(a, image).error
    ensures ValidateStrands(a, image).Success? ==>
      var c := ValidateStrands(a, image).value;
      var b := Filtered(c, c.strands);
      (b.segments == [] ==> r == NoValidSegments)
      && (b.segments != [] ==> (!c.useThickness ==> |b.thickness| > 0) && r == Defined(HairOf(c, b), c.tessellation))
  {
    var v := ValidateStrands(a, image);
    if v.Failure? {
      return Rejected(v.error);
    }
    var c := v.value;
    var b := FilterStrands(c);
    if b.segments == [] {
      return NoValidSegments;
    }
    FilteredLockstep(c, c.strands);
    r := Defined(HairOf(c, b), c.tessellation);
  }
}
