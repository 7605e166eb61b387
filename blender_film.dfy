/**
 * Film channel output for Blender: the maximum scans used for normalisation,
 * the render-pass size check, and the conversions between the film's channel
 * layouts and Blender's, which write the destination buffer in place.
 */
module BlenderFilm {

  import opened Wrappers
  import opened CTypes

  //----------------------------------------------------------------------------
  // Float values and the arithmetic the conversions apply to them
  //----------------------------------------------------------------------------

  /** An IEEE float: a finite value, an infinity or NaN (rounding is not modelled). */
  datatype Float = Finite(x: real) | PosInf | NegInf | NaN

  const ONE: Float := Finite(1.0)
  const ZERO: Float := Finite(0.0)

  predicate IsInfOrNaN(v: Float) { !v.Finite? }

  /** `value > maxValue` for a finite maxValue. */
  predicate Greater(v: Float, m: real)
  {
    match v
    case Finite(x) => x > m
    case PosInf => true
    case NegInf => false
    case NaN => false
  }

  /** `v * k`. */
  function Mul(v: Float, k: real): Float
  {
    match v
    case Finite(x) => Finite(x * k)
    case PosInf => if k == 0.0 then NaN else if k > 0.0 then PosInf else NegInf
    case NegInf => if k == 0.0 then NaN else if k > 0.0 then NegInf else PosInf
    case NaN => NaN
  }

  lemma MulOne(v: Float)
    ensures Mul(v, 1.0) == v
  {
  }

  /** A float in a C++ boolean context: true unless it is zero. */
  predicate NonZero(v: Float)
  {
    !(v.Finite? && v.x == 0.0)
  }

  /** The normalisation factor `(maxValue == 0) ? 0 : scale / maxValue`. */
  function Factor(maxValue: real, scale: real): real
  {
    if maxValue == 0.0 then 0.0 else scale / maxValue
  }

  //----------------------------------------------------------------------------
  // Maximum scans
  //----------------------------------------------------------------------------

  /** The largest of 0 and the finite elements of s. */
  function MaxFinite(s: seq<Float>): (m: real)
  {
    if s == [] then 0.0
    else
      var m := MaxFinite(s[..|s| - 1]);
      var v := s[|s| - 1];
      if !IsInfOrNaN(v) && Greater(v, m) then v.x else m
  }

  lemma {:induction false} MaxFiniteIsMax(s: seq<Float>)
    ensures MaxFinite(s) >= 0.0
    ensures forall i :: 0 <= i < |s| && s[i].Finite? ==> s[i].x <= MaxFinite(s)
    ensures MaxFinite(s) == 0.0 || exists i :: 0 <= i < |s| && s[i] == Finite(MaxFinite(s))
  {
    if s != [] {
      var front := s[..|s| - 1];
      MaxFiniteIsMax(front);
      assert forall i :: 0 <= i < |front| ==> front[i] == s[i];
    }
  }

  /** The largest of 0 and the elements of s. */
  function MaxUInt(s: seq<uint32>): (m: uint32)
  {
    if s == [] then 0
    else
      var m := MaxUInt(s[..|s| - 1]);
      if s[|s| - 1] > m then s[|s| - 1] else m
  }

  lemma {:induction false} MaxUIntIsMax(s: seq<uint32>)
    ensures forall i :: 0 <= i < |s| ==> s[i] <= MaxUInt(s)
    ensures MaxUInt(s) == 0 || exists i :: 0 <= i < |s| && s[i] == MaxUInt(s)
  {
    if s != [] {
      var front := s[..|s| - 1];
      MaxUIntIsMax(front);
      assert forall i :: 0 <= i < |front| ==> front[i] == s[i];
    }
  }

  /** `FindMaxValue<T>` for unsigned integers: the largest of 0 and the first `bufferSize` elements. */
  method FindMaxValue(buffer: seq<uint32>, bufferSize: nat) returns (maxValue: uint32)
    requires bufferSize <= |buffer|
    ensures maxValue == MaxUInt(buffer[..bufferSize])
    ensures forall i :: 0 <= i < bufferSize ==> buffer[i] <= maxValue
    ensures maxValue == 0 || exists i :: 0 <= i < bufferSize && buffer[i] == maxValue
  {
    maxValue := 0;
    for i := 0 to bufferSize
      invariant maxValue == MaxUInt(buffer[..i])
    {
      assert buffer[..i + 1][..i] == buffer[..i];
      var value := buffer[i];
      if value > maxValue {
        maxValue := value;
      }
    }
    MaxUIntIsMax(buffer[..bufferSize]);
  }

  /** `FindMaxValue<float>`: as above, skipping infinities and NaN. */
  method FindMaxFloat(buffer: seq<Float>, bufferSize: nat) returns (maxValue: real)
    requires bufferSize <= |buffer|
    ensures maxValue == MaxFinite(buffer[..bufferSize])
    ensures maxValue >= 0.0
    ensures forall i :: 0 <= i < bufferSize && buffer[i].Finite? ==> buffer[i].x <= maxValue
    ensures maxValue == 0.0 || exists i :: 0 <= i < bufferSize && buffer[i] == Finite(maxValue)
  {
    maxValue := 0.0;
    for i := 0 to bufferSize
      invariant maxValue == MaxFinite(buffer[..i])
    {
      assert buffer[..i + 1][..i] == buffer[..i];
      var value := buffer[i];
      if !IsInfOrNaN(value) && Greater(value, maxValue) {
        maxValue := value.x;
      }
    }
    MaxFiniteIsMax(buffer[..bufferSize]);
  }

  /**
   * The largest of 0 and the finite elements of a 4-float-per-pixel buffer,
   * leaving out channel `skip` of every pixel.
   */
  function MaxFiniteSkipping(s: seq<Float>, skip: nat): (m: real)
  {
    if s == [] then 0.0
    else
      var m := MaxFiniteSkipping(s[..|s| - 1], skip);
      var i := |s| - 1;
      var v := s[i];
      if i % 4 != skip && !IsInfOrNaN(v) && Greater(v, m) then v.x else m
  }

  lemma {:induction false} MaxFiniteSkippingIsMax(s: seq<Float>, skip: nat)
    ensures MaxFiniteSkipping(s, skip) >= 0.0
    ensures forall i :: 0 <= i < |s| && i % 4 != skip && s[i].Finite? ==> s[i].x <= MaxFiniteSkipping(s, skip)
    ensures MaxFiniteSkipping(s, skip) == 0.0 ||
            exists i :: 0 <= i < |s| && i % 4 != skip && s[i] == Finite(MaxFiniteSkipping(s, skip))
  {
    if s != [] {
      var front := s[..|s| - 1];
      MaxFiniteSkippingIsMax(front, skip);
      assert forall i :: 0 <= i < |front| ==> front[i] == s[i];
    }
  }

  /**
   * The skipped channel never takes part in the maximum: with skip 3 the alpha
   * of the intended colour maximum, with skip 0 the red of the scan as written.
   */
  lemma {:induction false} MaxSkippingIgnoresChannel(s: seq<Float>, t: seq<Float>, skip: nat)
    requires |s| == |t|
    requires forall i :: 0 <= i < |s| && i % 4 != skip ==> s[i] == t[i]
    ensures MaxFiniteSkipping(s, skip) == MaxFiniteSkipping(t, skip)
  {
    if s != [] {
      MaxSkippingIgnoresChannel(s[..|s| - 1], t[..|t| - 1], skip);
    }
  }

  /**
   * The maximum scan of the 4-float conversion over the first n floats, as
   * written: it leaves out the floats at multiples of 4, which are the red
   * channels, and so reads the alpha channels.
   */
  method FindMaxColor(rect: array<Float>, n: nat) returns (maxValue: real)
    requires n <= rect.Length
    ensures maxValue == MaxFiniteSkipping(rect[..n], 0)
  {
    maxValue := 0.0;
    for i := 0 to n
      invariant maxValue == MaxFiniteSkipping(rect[..i], 0)
    {
      assert rect[..i + 1][..i] == rect[..i];
      var value := rect[i];
      if i % 4 != 0 && !IsInfOrNaN(value) && Greater(value, maxValue) {
        maxValue := value.x;
      }
    }
  }

  //----------------------------------------------------------------------------
  // What normalisation promises: every scanned value ends up at most 1
  //----------------------------------------------------------------------------

  lemma ScaledAtMostOne(x: real, m: real)
    requires m >= 0.0 && x <= m
    ensures x * Factor(m, 1.0) <= 1.0
  {
    if m != 0.0 {
      assert x * (1.0 / m) == x / m;
    }
  }

  /** A finite value above a positive maximum is scaled above 1. */
  lemma ScaledAboveOne(x: real, m: real)
    requires 0.0 < m < x
    ensures x * Factor(m, 1.0) > 1.0
  {
    assert Factor(m, 1.0) == 1.0 / m;
    var q := x * (1.0 / m);
    assert q * m == x;
    assert q > 1.0;
    assert x * Factor(m, 1.0) == q;
  }

  /** The factor is one-to-one on maxima: equal factors come from equal maxima. */
  lemma FactorInjective(p: real, m: real)
    requires p >= 0.0 && m >= 0.0
    ensures Factor(p, 1.0) == Factor(m, 1.0) <==> p == m
  {
    if p != 0.0 && m != 0.0 && 1.0 / p == 1.0 / m {
      assert p == 1.0 / (1.0 / p);
      assert m == 1.0 / (1.0 / m);
    }
  }

  /** The factor normalisation is meant to use: 1 over the maximum of the whole buffer. */
  function FullScanFactor(s: seq<Float>): real
  {
    Factor(MaxFinite(s), 1.0)
  }

  /** The factor of a scan that reads only the first n floats of the buffer. */
  function ShortScanFactor(s: seq<Float>, n: nat): real
    requires n <= |s|
  {
    Factor(MaxFinite(s[..n]), 1.0)
  }

  /** Normalising by the maximum of the whole buffer brings every finite element to at most 1. */
  lemma NormalizedAtMostOne(s: seq<Float>)
    ensures forall i :: 0 <= i < |s| && s[i].Finite? ==> Mul(s[i], FullScanFactor(s)).x <= 1.0
  {
    var m := MaxFinite(s);
    MaxFiniteIsMax(s);
    forall i | 0 <= i < |s| && s[i].Finite?
      ensures Mul(s[i], Factor(m, 1.0)).x <= 1.0
    {
      var x := s[i].x;
      ScaledAtMostOne(x, m);
      assert Mul(s[i], Factor(m, 1.0)) == Finite(x * Factor(m, 1.0));
    }
  }

  /** Normalising by the colour maximum brings every finite colour channel to at most 1. */
  lemma NormalizedColorAtMostOne(s: seq<Float>)
    ensures forall i :: 0 <= i < |s| && i % 4 != 3 && s[i].Finite? ==>
              Mul(s[i], Factor(MaxFiniteSkipping(s, 3), 1.0)).x <= 1.0
  {
    var m := MaxFiniteSkipping(s, 3);
    MaxFiniteSkippingIsMax(s, 3);
    forall i | 0 <= i < |s| && i % 4 != 3 && s[i].Finite?
      ensures Mul(s[i], Factor(m, 1.0)).x <= 1.0
    {
      var x := s[i].x;
      ScaledAtMostOne(x, m);
      assert Mul(s[i], Factor(m, 1.0)) == Finite(x * Factor(m, 1.0));
    }
  }

  /** No maximum over the buffer exceeds an upper bound of 0 and its finite elements. */
  lemma {:induction false} MaxFiniteLeast(s: seq<Float>, m: real)
    requires m >= 0.0
    requires forall i :: 0 <= i < |s| && s[i].Finite? ==> s[i].x <= m
    ensures MaxFinite(s) <= m
  {
    if s != [] {
      var front := s[..|s| - 1];
      assert forall i :: 0 <= i < |front| ==> front[i] == s[i];
      MaxFiniteLeast(front, m);
    }
  }

  lemma {:induction false} MaxFiniteSkippingLeast(s: seq<Float>, skip: nat, m: real)
    requires m >= 0.0
    requires forall i :: 0 <= i < |s| && i % 4 != skip && s[i].Finite? ==> s[i].x <= m
    ensures MaxFiniteSkipping(s, skip) <= m
  {
    if s != [] {
      var front := s[..|s| - 1];
      assert forall i :: 0 <= i < |front| ==> front[i] == s[i];
      MaxFiniteSkippingLeast(front, skip, m);
    }
  }

  /**
   * A scan of the first n floats finds at most the maximum of the whole
   * buffer, and gives the same factor exactly when no finite float after the
   * first n exceeds what it found.
   */
  lemma ShortScanAgrees(s: seq<Float>, n: nat)
    requires n <= |s|
    ensures MaxFinite(s[..n]) <= MaxFinite(s)
    ensures ShortScanFactor(s, n) == FullScanFactor(s) <==>
              forall i :: n <= i < |s| && s[i].Finite? ==> s[i].x <= MaxFinite(s[..n])
  {
    var p := MaxFinite(s[..n]);
    MaxFiniteIsMax(s);
    MaxFiniteIsMax(s[..n]);
    if p != 0.0 {
      var i :| 0 <= i < n && s[..n][i] == Finite(p);
      assert s[i] == Finite(p);
    }
    FactorInjective(p, MaxFinite(s));
    if forall i :: n <= i < |s| && s[i].Finite? ==> s[i].x <= p {
      forall i | 0 <= i < |s| && s[i].Finite?
        ensures s[i].x <= p
      {
        if i < n {
          assert s[..n][i] == s[i];
        }
      }
      MaxFiniteLeast(s, p);
    }
  }

  /**
   * The colour maximum as written (red left out) and the intended one (alpha
   * left out) agree exactly when no red exceeds the first and no alpha exceeds
   * the second.
   */
  lemma ColorScansAgree(s: seq<Float>)
    ensures MaxFiniteSkipping(s, 0) == MaxFiniteSkipping(s, 3) <==>
              (forall j :: 0 <= j < |s| && j % 4 == 0 && s[j].Finite? ==> s[j].x <= MaxFiniteSkipping(s, 0))
              && (forall j :: 0 <= j < |s| && j % 4 == 3 && s[j].Finite? ==> s[j].x <= MaxFiniteSkipping(s, 3))
  {
    var m0, m3 := MaxFiniteSkipping(s, 0), MaxFiniteSkipping(s, 3);
    MaxFiniteSkippingIsMax(s, 0);
    MaxFiniteSkippingIsMax(s, 3);
    if (forall j :: 0 <= j < |s| && j % 4 == 0 && s[j].Finite? ==> s[j].x <= m0)
       && (forall j :: 0 <= j < |s| && j % 4 == 3 && s[j].Finite? ==> s[j].x <= m3) {
      MaxFiniteSkippingLeast(s, 3, m0);
      MaxFiniteSkippingLeast(s, 0, m3);
    }
  }

  //----------------------------------------------------------------------------
  // Render passes
  //----------------------------------------------------------------------------

  /** The part of Blender's RenderPass that is read and written: the pixel buffer and its size. */
  class RenderPass {
    var rect: array<Float>
    var rectx: int
    var recty: int
  }

  /** A pass with `channels` floats per pixel, as Blender allocates it. */
  ghost predicate PassHolds(rp: RenderPass, channels: nat)
    reads rp
  {
    0 <= rp.rectx < 0x8000_0000 && 0 <= rp.recty < 0x8000_0000 && rp.rect.Length == rp.rectx * rp.recty * channels
  }

  datatype ConversionError =
    | SizeMismatch(rectx: int, recty: int, width: nat, height: nat)
    | UnsupportedSource(typeName: string)
    | UnsupportedDestination(typeName: string)
    | NoDataView(typeName: string)
    | WrongBufferSize

  /** The safety check: the pass must have the size of the output. */
  function ThrowIfSizeMismatch(rectx: int, recty: int, width: uint32, height: uint32): (r: Outcome<ConversionError>)
    ensures r.Fail? <==> ToUInt32(rectx) != width || ToUInt32(recty) != height
    ensures 0 <= rectx < UINT32_MODULUS && 0 <= recty < UINT32_MODULUS ==>
              (r.Pass? <==> rectx == width as int && recty == height as int)
  {
    if ToUInt32(rectx) != width || ToUInt32(recty) != height then
      Fail(SizeMismatch(rectx, recty, width as nat, height as nat))
    else Pass
  }

  /**
   * A negative size is read as a huge unsigned one: a pass whose `int` rectx
   * is negative matches the width rectx + 2^32, and no width an `int` can hold.
   */
  lemma NegativeWidthPasses(rectx: int, recty: int, height: uint32)
    requires -0x8000_0000 <= rectx < 0 && recty == height as int
    ensures ThrowIfSizeMismatch(rectx, recty, (rectx + UINT32_MODULUS) as uint32, height) == Pass
    ensures forall width: uint32 :: width as int < 0x8000_0000 ==> ThrowIfSizeMismatch(rectx, recty, width, height).Fail?
  {
    assert ToUInt32(rectx) as int == rectx + UINT32_MODULUS;
  }

  //----------------------------------------------------------------------------
  // Index arithmetic of the row loops
  //----------------------------------------------------------------------------

  lemma PixelInImage(x: nat, y: nat, w: nat, h: nat)
    requires x < w && y < h
    ensures y * w + x < w * h
  {
    assert (y + 1) * w == y * w + w;
    assert (y + 1) * w <= h * w;
  }

  lemma NextRow(y: nat, w: nat)
    ensures (y + 1) * w == y * w + w
  {
  }

  /** The index of the first pixel of row y in an image w pixels wide, as the row loops advance it. */
  function RowStart(y: nat, w: nat): nat
  {
    if y == 0 then 0 else RowStart(y - 1, w) + w
  }

  lemma {:induction false} RowStartIsProduct(y: nat, w: nat)
    ensures RowStart(y, w) == y * w
  {
    if y > 0 {
      RowStartIsProduct(y - 1, w);
      NextRow(y - 1, w);
    }
  }

  /** Row y lies wholly before any later row. */
  lemma {:induction false} RowStartMono(y: nat, rows: nat, w: nat)
    requires y < rows
    ensures RowStart(y, w) + w <= RowStart(rows, w)
  {
    if y < rows - 1 {
      RowStartMono(y, rows - 1, w);
    }
  }

  /** Row y < h of a w x h image ends within the image, and the last row ends at w x h. */
  lemma RowFits(y: nat, w: nat, h: nat)
    requires y <= h
    ensures y < h ==> RowStart(y, w) + w <= w * h
    ensures y == h ==> RowStart(y, w) == w * h
  {
    RowStartIsProduct(h, w);
    if y < h {
      RowStartMono(y, h, w);
    }
    assert h * w == w * h;
  }

  /**
   * Writing pixel values right after a converted prefix A extends the prefix:
   * a buffer A + full[from..] with |vals| slots overwritten after A is
   * (A + vals) + full[from + |vals|..].
   */
  lemma Splice<T>(A: seq<T>, full: seq<T>, from: nat, vals: seq<T>, x: seq<T>, y: seq<T>)
    requires from + |vals| <= |full| && x == A + full[from..]
    requires y == x[..|A|] + vals + x[|A| + |vals|..]
    ensures y == (A + vals) + full[from + |vals|..]
  {
    assert x[..|A|] == A;
    assert x[|A| + |vals|..] == full[from..][|vals|..] == full[from + |vals|..];
  }

  /**
   * One pixel written at d, the slot after the converted prefix A of a buffer
   * that holds A + full[from..].
   */
  method Put1<T>(a: array<T>, d: nat, v: T, ghost A: seq<T>, ghost full: seq<T>, ghost from: nat)
    requires d == |A| && from + 1 <= |full| && a[..] == A + full[from..]
    modifies a
    ensures a[..] == (A + [v]) + full[from + 1..]
  {
    ghost var x := a[..];
    a[d] := v;
    assert a[..] == x[..d] + [v] + x[d + 1..];
    Splice(A, full, from, [v], x, a[..]);
  }

  /** One 3-float pixel written at d, after the converted prefix A of a buffer that holds A + full[from..]. */
  method Put3<T>(a: array<T>, d: nat, v0: T, v1: T, v2: T, ghost A: seq<T>, ghost full: seq<T>, ghost from: nat)
    requires d == |A| && from + 3 <= |full| && a[..] == A + full[from..]
    modifies a
    ensures a[..] == (A + [v0, v1, v2]) + full[from + 3..]
  {
    ghost var x := a[..];
    a[d] := v0;
    a[d + 1] := v1;
    a[d + 2] := v2;
    assert a[..] == x[..d] + [v0, v1, v2] + x[d + 3..];
    Splice(A, full, from, [v0, v1, v2], x, a[..]);
  }

  /** One 4-float pixel written at d, after the converted prefix A of a buffer that holds A + full[from..]. */
  method Put4<T>(a: array<T>, d: nat, v0: T, v1: T, v2: T, v3: T, ghost A: seq<T>, ghost full: seq<T>, ghost from: nat)
    requires d == |A| && from + 4 <= |full| && a[..] == A + full[from..]
    modifies a
    ensures a[..] == (A + [v0, v1, v2, v3]) + full[from + 4..]
  {
    ghost var x := a[..];
    a[d] := v0;
    a[d + 1] := v1;
    a[d + 2] := v2;
    a[d + 3] := v3;
    assert a[..] == x[..d] + [v0, v1, v2, v3] + x[d + 4..];
    Splice(A, full, from, [v0, v1, v2, v3], x, a[..]);
  }

  /** `GetOutput` into the pass itself: the film's output fills the pixel buffer. */
  method GetOutputInto(rect: array<Float>, output: seq<Float>)
    requires |output| == rect.Length
    modifies rect
    ensures rect[..] == output
  {
    forall i | 0 <= i < rect.Length {
      rect[i] := output[i];
    }
  }

  /** After a passed size check, a pass with `channels` floats per pixel holds exactly width x height pixels. */
  lemma PassSize(rp: RenderPass, channels: nat, width: uint32, height: uint32)
    requires PassHolds(rp, channels)
    requires ThrowIfSizeMismatch(rp.rectx, rp.recty, width, height).Pass?
    ensures rp.rect.Length == width as nat * height as nat * channels
  {
  }

  //----------------------------------------------------------------------------
  // The pixel layouts, as functions of the source buffer
  //----------------------------------------------------------------------------

  /** Every element scaled by k: the in-place 1-float and 3-float normalisations. */
  function ScaleAll(s: seq<Float>, k: real): (r: seq<Float>)
    ensures |r| == |s|
  {
    if s == [] then [] else ScaleAll(s[..|s| - 1], k) + [Mul(s[|s| - 1], k)]
  }

  lemma {:induction false} ScaleAllAt(s: seq<Float>, k: real, i: nat)
    requires i < |s|
    ensures ScaleAll(s, k)[i] == Mul(s[i], k)
  {
    if i < |s| - 1 {
      ScaleAllAt(s[..|s| - 1], k, i);
    }
  }

  lemma ScaleAllStep(s: seq<Float>, d: nat, k: real)
    requires d < |s|
    ensures ScaleAll(s[..d + 1], k) == ScaleAll(s[..d], k) + [Mul(s[d], k)]
  {
    assert s[..d + 1][..d] == s[..d];
  }

  lemma ScaleAllThree(s: seq<Float>, d: nat, k: real)
    requires d + 3 <= |s|
    ensures ScaleAll(s[..d + 3], k) == ScaleAll(s[..d], k) + [Mul(s[d], k), Mul(s[d + 1], k), Mul(s[d + 2], k)]
  {
    ScaleAllStep(s, d, k);
    ScaleAllStep(s, d + 1, k);
    ScaleAllStep(s, d + 2, k);
  }

  /**
   * The 4-float pixels of s with their colour channels scaled by k and their
   * alpha kept (whole pixels only: a shorter remainder gives nothing).
   */
  function ScaleColor(s: seq<Float>, k: real): (r: seq<Float>)
  {
    if |s| < 4 then []
    else
      var n := |s|;
      ScaleColor(s[..n - 4], k) + [Mul(s[n - 4], k), Mul(s[n - 3], k), Mul(s[n - 2], k), s[n - 1]]
  }
  lemma ScaleColorStep(s: seq<Float>, i: nat, k: real)
    requires i + 4 <= |s|
    ensures ScaleColor(s[..i + 4], k)
            == ScaleColor(s[..i], k) + [Mul(s[i], k), Mul(s[i + 1], k), Mul(s[i + 2], k), s[i + 3]]
  {
    assert s[..i + 4][..i] == s[..i];
  }


  lemma {:induction false} ScaleColorLength(s: seq<Float>, k: real, n: nat)
    requires |s| == 4 * n
    ensures |ScaleColor(s, k)| == 4 * n
  {
    if n > 0 {
      ScaleColorLength(s[..|s| - 4], k, n - 1);
    }
  }

  lemma {:induction false} ScaleColorAt(s: seq<Float>, k: real, n: nat, q: nat)
    requires |s| == 4 * n && q < n
    ensures |ScaleColor(s, k)| == 4 * n
    ensures var r := ScaleColor(s, k);
            r[4 * q] == Mul(s[4 * q], k) && r[4 * q + 1] == Mul(s[4 * q + 1], k)
            && r[4 * q + 2] == Mul(s[4 * q + 2], k) && r[4 * q + 3] == s[4 * q + 3]
  {
    var front := s[..|s| - 4];
    ScaleColorLength(front, k, n - 1);
    if q < n - 1 {
      ScaleColorAt(front, k, n - 1, q);
    }
  }


  /**
   * Blender's 3-float UV pixels for the 2-float UV pixels of s: u and v scaled
   * by k, and a mask that is 1 where either is non-zero (whole pixels only).
   */
  function UvPixels(s: seq<Float>, k: real): (r: seq<Float>)
  {
    if |s| < 2 then []
    else
      var u := Mul(s[|s| - 2], k);
      var v := Mul(s[|s| - 1], k);
      UvPixels(s[..|s| - 2], k) + [u, v, if NonZero(u) || NonZero(v) then ONE else ZERO]
  }
  lemma UvPixelsStep(s: seq<Float>, i: nat, k: real)
    requires i + 2 <= |s|
    ensures var u := Mul(s[i], k);
            var v := Mul(s[i + 1], k);
            UvPixels(s[..i + 2], k) == UvPixels(s[..i], k) + [u, v, if NonZero(u) || NonZero(v) then ONE else ZERO]
  {
    assert s[..i + 2][..i] == s[..i];
  }


  lemma {:induction false} UvPixelsLength(s: seq<Float>, k: real, n: nat)
    requires |s| == 2 * n
    ensures |UvPixels(s, k)| == 3 * n
  {
    if n > 0 {
      UvPixelsLength(s[..|s| - 2], k, n - 1);
    }
  }

  lemma {:induction false} UvPixelsAt(s: seq<Float>, k: real, n: nat, q: nat)
    requires |s| == 2 * n && q < n
    ensures |UvPixels(s, k)| == 3 * n
    ensures var r := UvPixels(s, k);
            var u := Mul(s[2 * q], k);
            var v := Mul(s[2 * q + 1], k);
            r[3 * q] == u && r[3 * q + 1] == v && (r[3 * q + 2] == ONE <==> NonZero(u) || NonZero(v))
            && (r[3 * q + 2] == ONE || r[3 * q + 2] == ZERO)
  {
    var front := s[..|s| - 2];
    UvPixelsLength(front, k, n - 1);
    if q < n - 1 {
      UvPixelsAt(front, k, n - 1, q);
    }
  }


  /** The 4-float pixels for the 1-float pixels of s: the value scaled by k in three slots, 1 in alpha. */
  function Pixels1To4(s: seq<Float>, k: real): (r: seq<Float>)
    ensures |r| == 4 * |s|
  {
    if s == [] then []
    else
      var v := Mul(s[|s| - 1], k);
      Pixels1To4(s[..|s| - 1], k) + [v, v, v, ONE]
  }
  lemma Pixels1To4Step(s: seq<Float>, i: nat, k: real)
    requires i < |s|
    ensures Pixels1To4(s[..i + 1], k) == Pixels1To4(s[..i], k) + [Mul(s[i], k), Mul(s[i], k), Mul(s[i], k), ONE]
  {
    assert s[..i + 1][..i] == s[..i];
  }


  lemma {:induction false} Pixels1To4At(s: seq<Float>, k: real, q: nat)
    requires q < |s|
    ensures var r := Pixels1To4(s, k);
            r[4 * q] == Mul(s[q], k) && r[4 * q + 1] == Mul(s[q], k)
            && r[4 * q + 2] == Mul(s[q], k) && r[4 * q + 3] == ONE
  {
    if q < |s| - 1 {
      Pixels1To4At(s[..|s| - 1], k, q);
    }
  }

  /** The 4-float pixels for the 3-float pixels of s: colour scaled by k, alpha 1 (whole pixels only). */
  function Pixels3To4(s: seq<Float>, k: real): (r: seq<Float>)
  {
    if |s| < 3 then []
    else
      var n := |s|;
      Pixels3To4(s[..n - 3], k) + [Mul(s[n - 3], k), Mul(s[n - 2], k), Mul(s[n - 1], k), ONE]
  }
  lemma Pixels3To4Step(s: seq<Float>, i: nat, k: real)
    requires i + 3 <= |s|
    ensures Pixels3To4(s[..i + 3], k) == Pixels3To4(s[..i], k) + [Mul(s[i], k), Mul(s[i + 1], k), Mul(s[i + 2], k), ONE]
  {
    assert s[..i + 3][..i] == s[..i];
  }


  lemma {:induction false} Pixels3To4Length(s: seq<Float>, k: real, n: nat)
    requires |s| == 3 * n
    ensures |Pixels3To4(s, k)| == 4 * n
  {
    if n > 0 {
      Pixels3To4Length(s[..|s| - 3], k, n - 1);
    }
  }

  lemma {:induction false} Pixels3To4At(s: seq<Float>, k: real, n: nat, q: nat)
    requires |s| == 3 * n && q < n
    ensures |Pixels3To4(s, k)| == 4 * n
    ensures var r := Pixels3To4(s, k);
            r[4 * q] == Mul(s[3 * q], k) && r[4 * q + 1] == Mul(s[3 * q + 1], k)
            && r[4 * q + 2] == Mul(s[3 * q + 2], k) && r[4 * q + 3] == ONE
  {
    var front := s[..|s| - 3];
    Pixels3To4Length(front, k, n - 1);
    if q < n - 1 {
      Pixels3To4At(front, k, n - 1, q);
    }
  }


  /** An unsigned integer converted to float and scaled by k (rounding to float precision is not modelled). */
  function UIntToFloat(v: uint32, k: real): Float
  {
    Finite(v as real * k)
  }

  /** The float pixels for unsigned-integer pixels: each value converted and scaled by k. */
  function UIntPixels(s: seq<uint32>, k: real): (r: seq<Float>)
    ensures |r| == |s|
  {
    if s == [] then [] else UIntPixels(s[..|s| - 1], k) + [UIntToFloat(s[|s| - 1], k)]
  }
  lemma UIntPixelsStep(s: seq<uint32>, i: nat, k: real)
    requires i < |s|
    ensures UIntPixels(s[..i + 1], k) == UIntPixels(s[..i], k) + [UIntToFloat(s[i], k)]
  {
    assert s[..i + 1][..i] == s[..i];
  }


  lemma {:induction false} UIntPixelsAt(s: seq<uint32>, k: real, i: nat)
    requires i < |s|
    ensures UIntPixels(s, k)[i] == Finite(s[i] as real * k)
  {
    if i < |s| - 1 {
      UIntPixelsAt(s[..|s| - 1], k, i);
    }
  }

  //----------------------------------------------------------------------------
  // 1 float to 1 float, in place (channels like DEPTH)
  //----------------------------------------------------------------------------

  method ConvertFilmChannelOutput_1xFloat_To_1xFloatList(output: seq<Float>, width: uint32, height: uint32,
                                                          rp: RenderPass, normalize: bool)
    returns (r: Outcome<ConversionError>)
    requires |output| == width as nat * height as nat
    requires PassHolds(rp, 1)
    modifies rp.rect
    ensures r == ThrowIfSizeMismatch(rp.rectx, rp.recty, width, height)
    ensures r.Fail? ==> rp.rect[..] == old(rp.rect[..])
    ensures r.Pass? ==> rp.rect[..] == if normalize then ScaleAll(output, FullScanFactor(output)) else output
  {
    r := ThrowIfSizeMismatch(rp.rectx, rp.recty, width, height);
    if r.Fail? {
      return;
    }
    PassSize(rp, 1, width, height);
    GetOutputInto(rp.rect, output);
    if normalize {
      var w, h := width as nat, height as nat;
      var maxValue := FindMaxFloat(rp.rect[..], w * h);
      assert rp.rect[..][..w * h] == output;
      Scale1(rp.rect, output, w, h, Factor(maxValue, 1.0));
    }
  }

  /** The row loops of the 1-float normalisation. */
  method Scale1(rect: array<Float>, output: seq<Float>, w: nat, h: nat, k: real)
    requires |output| == rect.Length == w * h && rect[..] == output
    modifies rect
    ensures rect[..] == ScaleAll(output, k)
  {
    var rowStart := 0;
    for y := 0 to h
      invariant rowStart == RowStart(y, w) && rowStart <= |output|
      invariant rect[..] == ScaleAll(output[..rowStart], k) + output[rowStart..]
    {
      RowFits(y, w, h);
      ScaleRow1(rect, output, rowStart, w, k);
      rowStart := rowStart + w;
    }
    RowFits(h, w, h);
    assert output[..rowStart] == output;
  }

  /** One row of the 1-float normalisation: the w pixels from pixel base on, scaled in place. */
  method ScaleRow1(rect: array<Float>, output: seq<Float>, base: nat, w: nat, k: real)
    requires base + w <= rect.Length == |output|
    requires rect[..] == ScaleAll(output[..base], k) + output[base..]
    modifies rect
    ensures rect[..] == ScaleAll(output[..base + w], k) + output[base + w..]
  {
    var srcIndex := base;
    for x := 0 to w
      invariant srcIndex == base + x
      invariant rect[..] == ScaleAll(output[..srcIndex], k) + output[srcIndex..]
    {
      assert rect[srcIndex] == output[srcIndex] by {
        assert |ScaleAll(output[..srcIndex], k)| == srcIndex;
      }
      var val := Mul(rect[srcIndex], k);
      Put1(rect, srcIndex, val, ScaleAll(output[..srcIndex], k), output, srcIndex);
      ScaleAllStep(output, srcIndex, k);
      srcIndex := srcIndex + 1;
    }
  }

  //----------------------------------------------------------------------------
  // UV: 2 floats to Blender's 3
  //----------------------------------------------------------------------------

  method ConvertFilmChannelOutput_UV_to_Blender_UV(output: seq<Float>, width: uint32, height: uint32,
                                                   rp: RenderPass, normalize: bool)
    returns (r: Outcome<ConversionError>)
    requires |output| == 2 * (width as nat * height as nat)
    requires PassHolds(rp, 3)
    modifies rp.rect
    ensures r == ThrowIfSizeMismatch(rp.rectx, rp.recty, width, height)
    ensures r.Fail? ==> rp.rect[..] == old(rp.rect[..])
    ensures r.Pass? ==> rp.rect[..] == UvPixels(output, if normalize then ShortScanFactor(output, width as nat * height as nat) else 1.0)
  {
    r := ThrowIfSizeMismatch(rp.rectx, rp.recty, width, height);
    if r.Fail? {
      return;
    }
    PassSize(rp, 3, width, height);
    var k := 1.0;
    if normalize {
      var maxValue := FindMaxFloat(output, width as nat * height as nat);
      k := Factor(maxValue, 1.0);
    }
    WriteUv(rp.rect, output, width as nat, height as nat, k);
  }

  /** The row loops of the UV conversion. */
  method WriteUv(rect: array<Float>, src: seq<Float>, w: nat, h: nat, k: real)
    requires |src| == 2 * (w * h) && 2 * rect.Length == 3 * |src|
    modifies rect
    ensures rect[..] == UvPixels(src, k)
  {
    var rowStart := 0;
    for y := 0 to h
      invariant rowStart == RowStart(y, w) && 2 * rowStart <= |src|
      invariant rect[..] == UvPixels(src[..2 * rowStart], k) + old(rect[..])[3 * rowStart..]
    {
      RowFits(y, w, h);
      WriteRowUv(rect, src, old(rect[..]), rowStart, w, k);
      rowStart := rowStart + w;
    }
    RowFits(h, w, h);
    assert src[..2 * rowStart] == src;
  }

  /** One row of the UV conversion: the w pixels from pixel base on. */
  method WriteRowUv(rect: array<Float>, src: seq<Float>, ghost before: seq<Float>, base: nat, w: nat, k: real)
    requires 2 * (base + w) <= |src| && 3 * (base + w) <= rect.Length == |before|
    requires rect[..] == UvPixels(src[..2 * base], k) + before[3 * base..]
    modifies rect
    ensures rect[..] == UvPixels(src[..2 * (base + w)], k) + before[3 * (base + w)..]
  {
    var srcIndex := 2 * base;
    var dstIndex := 3 * base;
    for x := 0 to w
      invariant srcIndex == 2 * (base + x) && dstIndex == 3 * (base + x)
      invariant rect[..] == UvPixels(src[..srcIndex], k) + before[dstIndex..]
    {
      UvPixelsLength(src[..srcIndex], k, base + x);
      var u := Mul(src[srcIndex], k);
      var v := Mul(src[srcIndex + 1], k);
      var mask := if NonZero(u) || NonZero(v) then ONE else ZERO;
      Put3(rect, dstIndex, u, v, mask, UvPixels(src[..srcIndex], k), before, dstIndex);
      UvPixelsStep(src, srcIndex, k);
      srcIndex := srcIndex + 2;
      dstIndex := dstIndex + 3;
    }
  }

  //----------------------------------------------------------------------------
  // 1 float to 4
  //----------------------------------------------------------------------------

  method ConvertFilmChannelOutput_1xFloat_To_4xFloatList(output: seq<Float>, width: uint32, height: uint32,
                                                          rp: RenderPass, normalize: bool)
    returns (r: Outcome<ConversionError>)
    requires |output| == width as nat * height as nat
    requires PassHolds(rp, 4)
    modifies rp.rect
    ensures r == ThrowIfSizeMismatch(rp.rectx, rp.recty, width, height)
    ensures r.Fail? ==> rp.rect[..] == old(rp.rect[..])
    ensures r.Pass? ==> rp.rect[..] == Pixels1To4(output, if normalize then FullScanFactor(output) else 1.0)
  {
    r := ThrowIfSizeMismatch(rp.rectx, rp.recty, width, height);
    if r.Fail? {
      return;
    }
    PassSize(rp, 4, width, height);
    var w, h := width as nat, height as nat;
    var k := 1.0;
    if normalize {
      var maxValue := FindMaxFloat(output, w * h);
      assert output[..w * h] == output;
      k := Factor(maxValue, 1.0);
    }
    Write1To4(rp.rect, output, w, h, k);
  }

  /** The row loops of the 1-to-4 conversion. */
  method Write1To4(rect: array<Float>, src: seq<Float>, w: nat, h: nat, k: real)
    requires |src| == w * h && rect.Length == 4 * |src|
    modifies rect
    ensures rect[..] == Pixels1To4(src, k)
  {
    var rowStart := 0;
    for y := 0 to h
      invariant rowStart == RowStart(y, w) && rowStart <= |src|
      invariant rect[..] == Pixels1To4(src[..rowStart], k) + old(rect[..])[4 * rowStart..]
    {
      RowFits(y, w, h);
      WriteRow1To4(rect, src, old(rect[..]), rowStart, w, k);
      rowStart := rowStart + w;
    }
    RowFits(h, w, h);
    assert src[..rowStart] == src;
  }

  /** One row of the 1-to-4 conversion: the w pixels from pixel base on. */
  method WriteRow1To4(rect: array<Float>, src: seq<Float>, ghost before: seq<Float>, base: nat, w: nat, k: real)
    requires base + w <= |src| && 4 * (base + w) <= rect.Length == |before|
    requires rect[..] == Pixels1To4(src[..base], k) + before[4 * base..]
    modifies rect
    ensures rect[..] == Pixels1To4(src[..base + w], k) + before[4 * (base + w)..]
  {
    var srcIndex := base;
    var dstIndex := 4 * base;
    for x := 0 to w
      invariant srcIndex == base + x && dstIndex == 4 * (base + x)
      invariant rect[..] == Pixels1To4(src[..srcIndex], k) + before[dstIndex..]
    {
      var val := Mul(src[srcIndex], k);
      Put4(rect, dstIndex, val, val, val, ONE, Pixels1To4(src[..srcIndex], k), before, dstIndex);
      Pixels1To4Step(src, srcIndex, k);
      srcIndex := srcIndex + 1;
      dstIndex := dstIndex + 4;
    }
  }

  //----------------------------------------------------------------------------
  // 3 floats to 3, in place
  //----------------------------------------------------------------------------

  method ConvertFilmChannelOutput_3xFloat_To_3xFloatList(output: seq<Float>, width: uint32, height: uint32,
                                                          rp: RenderPass, normalize: bool)
    returns (r: Outcome<ConversionError>)
    requires |output| == 3 * (width as nat * height as nat)
    requires PassHolds(rp, 3)
    modifies rp.rect
    ensures r == ThrowIfSizeMismatch(rp.rectx, rp.recty, width, height)
    ensures r.Fail? ==> rp.rect[..] == old(rp.rect[..])
    ensures r.Pass? ==> rp.rect[..] == if normalize then ScaleAll(output, ShortScanFactor(output, width as nat * height as nat)) else output
  {
    r := ThrowIfSizeMismatch(rp.rectx, rp.recty, width, height);
    if r.Fail? {
      return;
    }
    PassSize(rp, 3, width, height);
    GetOutputInto(rp.rect, output);
    if normalize {
      var w, h := width as nat, height as nat;
      var maxValue := FindMaxFloat(rp.rect[..], w * h);
      assert rp.rect[..][..w * h] == output[..w * h];
      Scale3(rp.rect, output, w, h, Factor(maxValue, 1.0));
    }
  }

  /** The row loops of the 3-float normalisation. */
  method Scale3(rect: array<Float>, output: seq<Float>, w: nat, h: nat, k: real)
    requires |output| == rect.Length == 3 * (w * h) && rect[..] == output
    modifies rect
    ensures rect[..] == ScaleAll(output, k)
  {
    var rowStart := 0;
    for y := 0 to h
      invariant rowStart == RowStart(y, w) && 3 * rowStart <= |output|
      invariant rect[..] == ScaleAll(output[..3 * rowStart], k) + output[3 * rowStart..]
    {
      RowFits(y, w, h);
      ScaleRow3(rect, output, rowStart, w, k);
      rowStart := rowStart + w;
    }
    RowFits(h, w, h);
    assert output[..3 * rowStart] == output;
  }

  /** One row of the 3-float normalisation: the w pixels from pixel base on, scaled in place. */
  method ScaleRow3(rect: array<Float>, output: seq<Float>, base: nat, w: nat, k: real)
    requires 3 * (base + w) <= rect.Length == |output|
    requires rect[..] == ScaleAll(output[..3 * base], k) + output[3 * base..]
    modifies rect
    ensures rect[..] == ScaleAll(output[..3 * (base + w)], k) + output[3 * (base + w)..]
  {
    var srcIndex := 3 * base;
    for x := 0 to w
      invariant srcIndex == 3 * (base + x)
      invariant rect[..] == ScaleAll(output[..srcIndex], k) + output[srcIndex..]
    {
      assert rect[srcIndex] == output[srcIndex] && rect[srcIndex + 1] == output[srcIndex + 1] && rect[srcIndex + 2] == output[srcIndex + 2] by {
        assert |ScaleAll(output[..srcIndex], k)| == srcIndex;
      }
      var r, g, b := Mul(rect[srcIndex], k), Mul(rect[srcIndex + 1], k), Mul(rect[srcIndex + 2], k);
      Put3(rect, srcIndex, r, g, b, ScaleAll(output[..srcIndex], k), output, srcIndex);
      ScaleAllThree(output, srcIndex, k);
      srcIndex := srcIndex + 3;
    }
  }

  //----------------------------------------------------------------------------
  // 3 floats to 4
  //----------------------------------------------------------------------------

  method ConvertFilmChannelOutput_3xFloat_To_4xFloatList(output: seq<Float>, width: uint32, height: uint32,
                                                          rp: RenderPass, normalize: bool)
    returns (r: Outcome<ConversionError>)
    requires |output| == 3 * (width as nat * height as nat)
    requires PassHolds(rp, 4)
    modifies rp.rect
    ensures r == ThrowIfSizeMismatch(rp.rectx, rp.recty, width, height)
    ensures r.Fail? ==> rp.rect[..] == old(rp.rect[..])
    ensures r.Pass? ==> rp.rect[..] == Pixels3To4(output, if normalize then ShortScanFactor(output, width as nat * height as nat) else 1.0)
  {
    r := ThrowIfSizeMismatch(rp.rectx, rp.recty, width, height);
    if r.Fail? {
      return;
    }
    PassSize(rp, 4, width, height);
    var k := 1.0;
    if normalize {
      var maxValue := FindMaxFloat(output, width as nat * height as nat);
      k := Factor(maxValue, 1.0);
    }
    Write3To4(rp.rect, output, width as nat, height as nat, k);
  }

  /** The row loops of the 3-to-4 conversion. */
  method Write3To4(rect: array<Float>, src: seq<Float>, w: nat, h: nat, k: real)
    requires |src| == 3 * (w * h) && 3 * rect.Length == 4 * |src|
    modifies rect
    ensures rect[..] == Pixels3To4(src, k)
  {
    var rowStart := 0;
    for y := 0 to h
      invariant rowStart == RowStart(y, w) && 3 * rowStart <= |src|
      invariant rect[..] == Pixels3To4(src[..3 * rowStart], k) + old(rect[..])[4 * rowStart..]
    {
      RowFits(y, w, h);
      WriteRow3To4(rect, src, old(rect[..]), rowStart, w, k);
      rowStart := rowStart + w;
    }
    RowFits(h, w, h);
    assert src[..3 * rowStart] == src;
  }

  /** One row of the 3-to-4 conversion: the w pixels from pixel base on. */
  method WriteRow3To4(rect: array<Float>, src: seq<Float>, ghost before: seq<Float>, base: nat, w: nat, k: real)
    requires 3 * (base + w) <= |src| && 4 * (base + w) <= rect.Length == |before|
    requires rect[..] == Pixels3To4(src[..3 * base], k) + before[4 * base..]
    modifies rect
    ensures rect[..] == Pixels3To4(src[..3 * (base + w)], k) + before[4 * (base + w)..]
  {
    var srcIndex := 3 * base;
    var dstIndex := 4 * base;
    for x := 0 to w
      invariant srcIndex == 3 * (base + x) && dstIndex == 4 * (base + x)
      invariant rect[..] == Pixels3To4(src[..srcIndex], k) + before[dstIndex..]
    {
      Pixels3To4Length(src[..srcIndex], k, base + x);
      var r, g, b := Mul(src[srcIndex], k), Mul(src[srcIndex + 1], k), Mul(src[srcIndex + 2], k);
      Put4(rect, dstIndex, r, g, b, ONE, Pixels3To4(src[..srcIndex], k), before, dstIndex);
      Pixels3To4Step(src, srcIndex, k);
      srcIndex := srcIndex + 3;
      dstIndex := dstIndex + 4;
    }
  }

  //----------------------------------------------------------------------------
  // 4 floats to 4, in place; alpha is not scaled
  //----------------------------------------------------------------------------

  method ConvertFilmChannelOutput_4xFloat_To_4xFloatList(output: seq<Float>, width: uint32, height: uint32,
                                                          rp: RenderPass, normalize: bool)
    returns (r: Outcome<ConversionError>)
    requires |output| == 4 * (width as nat * height as nat)
    requires PassHolds(rp, 4)
    modifies rp.rect
    ensures r == ThrowIfSizeMismatch(rp.rectx, rp.recty, width, height)
    ensures r.Fail? ==> rp.rect[..] == old(rp.rect[..])
    ensures r.Pass? ==>
              rp.rect[..] == if normalize then ScaleColor(output, Factor(MaxFiniteSkipping(output, 0), 1.0)) else output
  {
    r := ThrowIfSizeMismatch(rp.rectx, rp.recty, width, height);
    if r.Fail? {
      return;
    }
    PassSize(rp, 4, width, height);
    GetOutputInto(rp.rect, output);
    if normalize {
      var maxValue := FindMaxColor(rp.rect, rp.rect.Length);
      assert rp.rect[..rp.rect.Length] == output;
      Scale4(rp.rect, output, width as nat, height as nat, Factor(maxValue, 1.0));
    }
  }

  /** The row loops of the 4-float normalisation. */
  method Scale4(rect: array<Float>, output: seq<Float>, w: nat, h: nat, k: real)
    requires |output| == rect.Length == 4 * (w * h) && rect[..] == output
    modifies rect
    ensures rect[..] == ScaleColor(output, k)
  {
    var rowStart := 0;
    for y := 0 to h
      invariant rowStart == RowStart(y, w) && 4 * rowStart <= |output|
      invariant rect[..] == ScaleColor(output[..4 * rowStart], k) + output[4 * rowStart..]
    {
      RowFits(y, w, h);
      ScaleRow4(rect, output, rowStart, w, k);
      rowStart := rowStart + w;
    }
    RowFits(h, w, h);
    assert output[..4 * rowStart] == output;
  }

  /** One row of the 4-float normalisation: the w pixels from pixel base on, scaled in place. */
  method ScaleRow4(rect: array<Float>, output: seq<Float>, base: nat, w: nat, k: real)
    requires 4 * (base + w) <= rect.Length == |output|
    requires rect[..] == ScaleColor(output[..4 * base], k) + output[4 * base..]
    modifies rect
    ensures rect[..] == ScaleColor(output[..4 * (base + w)], k) + output[4 * (base + w)..]
  {
    var srcIndex := 4 * base;
    for x := 0 to w
      invariant srcIndex == 4 * (base + x)
      invariant rect[..] == ScaleColor(output[..srcIndex], k) + output[srcIndex..]
    {
      assert rect[srcIndex] == output[srcIndex] && rect[srcIndex + 1] == output[srcIndex + 1] && rect[srcIndex + 2] == output[srcIndex + 2] && rect[srcIndex + 3] == output[srcIndex + 3] by {
        assert |ScaleColor(output[..srcIndex], k)| == srcIndex;
      }
      ScaleColorLength(output[..srcIndex], k, base + x);
      var r, g, b, a := Mul(rect[srcIndex], k), Mul(rect[srcIndex + 1], k), Mul(rect[srcIndex + 2], k), rect[srcIndex + 3];
      Put4(rect, srcIndex, r, g, b, a, ScaleColor(output[..srcIndex], k), output, srcIndex);
      ScaleColorStep(output, srcIndex, k);
      srcIndex := srcIndex + 4;
    }
  }

  //----------------------------------------------------------------------------
  // 1 unsigned integer to 1 float (material index, object index, sample count)
  //----------------------------------------------------------------------------

  method ConvertFilmChannelOutput_1xUInt_To_1xFloatList(output: seq<uint32>, width: uint32, height: uint32,
                                                         rp: RenderPass, normalize: bool)
    returns (r: Outcome<ConversionError>)
    requires |output| == width as nat * height as nat
    requires PassHolds(rp, 1)
    modifies rp.rect
    ensures r == ThrowIfSizeMismatch(rp.rectx, rp.recty, width, height)
    ensures r.Fail? ==> rp.rect[..] == old(rp.rect[..])
    ensures r.Pass? ==>
              rp.rect[..] == UIntPixels(output, if normalize then Factor(MaxUInt(output) as real, 1.0) else 1.0)
  {
    r := ThrowIfSizeMismatch(rp.rectx, rp.recty, width, height);
    if r.Fail? {
      return;
    }
    PassSize(rp, 1, width, height);
    var w, h := width as nat, height as nat;
    var k := 1.0;
    if normalize {
      var maxValue := FindMaxValue(output, w * h);
      assert output[..w * h] == output;
      k := Factor(maxValue as real, 1.0);
    }
    WriteUInt(rp.rect, output, w, h, k);
  }

  /** The row loops of the unsigned-integer conversion. */
  method WriteUInt(rect: array<Float>, src: seq<uint32>, w: nat, h: nat, k: real)
    requires |src| == w * h && rect.Length == |src|
    modifies rect
    ensures rect[..] == UIntPixels(src, k)
  {
    var rowStart := 0;
    for y := 0 to h
      invariant rowStart == RowStart(y, w) && rowStart <= |src|
      invariant rect[..] == UIntPixels(src[..rowStart], k) + old(rect[..])[rowStart..]
    {
      RowFits(y, w, h);
      WriteRowUInt(rect, src, old(rect[..]), rowStart, w, k);
      rowStart := rowStart + w;
    }
    RowFits(h, w, h);
    assert src[..rowStart] == src;
  }

  /** One row of the unsigned-integer conversion: the w pixels from pixel base on. */
  method WriteRowUInt(rect: array<Float>, src: seq<uint32>, ghost before: seq<Float>, base: nat, w: nat, k: real)
    requires base + w <= |src| && base + w <= rect.Length == |before|
    requires rect[..] == UIntPixels(src[..base], k) + before[base..]
    modifies rect
    ensures rect[..] == UIntPixels(src[..base + w], k) + before[base + w..]
  {
    var srcIndex := base;
    var dstIndex := base;
    for x := 0 to w
      invariant srcIndex == base + x && dstIndex == base + x
      invariant rect[..] == UIntPixels(src[..srcIndex], k) + before[dstIndex..]
    {
      var val := UIntToFloat(src[srcIndex], k);
      Put1(rect, dstIndex, val, UIntPixels(src[..srcIndex], k), before, dstIndex);
      UIntPixelsStep(src, srcIndex, k);
      srcIndex := srcIndex + 1;
      dstIndex := dstIndex + 1;
    }
  }

  //----------------------------------------------------------------------------
  // 3 floats to 4 bytes, for a Python buffer shown as an image
  //----------------------------------------------------------------------------

  /** The part of a Python object the byte conversion inspects: its class name and buffer support. */
  datatype PyObject = PyObject(typeName: string, supportsBuffer: bool, viewAvailable: bool)

  /**
   * The checks before the byte conversion: both objects must support the buffer
   * protocol and give a view, and the views must hold as many pixels.
   * srcLen and dstLen are the views' lengths in bytes. As written, a failed
   * destination view is reported as a source view, with the source's class name.
   */
  function BufferCheck(objSrc: PyObject, objDst: PyObject, srcLen: nat, dstLen: nat): (r: Outcome<ConversionError>)
    ensures r.Pass? <==> objSrc.supportsBuffer && objDst.supportsBuffer && objSrc.viewAvailable
                         && objDst.viewAvailable && srcLen / 12 == dstLen / 4
    ensures r == Fail(UnsupportedSource(objSrc.typeName)) <==> !objSrc.supportsBuffer
    ensures r.Fail? && r.error.NoDataView? ==> r.error.typeName == objSrc.typeName
  {
    if !objSrc.supportsBuffer then Fail(UnsupportedSource(objSrc.typeName))
    else if !objDst.supportsBuffer then Fail(UnsupportedDestination(objDst.typeName))
    else if !objSrc.viewAvailable then Fail(NoDataView(objSrc.typeName))
    else if !objDst.viewAvailable then Fail(NoDataView(objSrc.typeName))
    else if srcLen / (3 * 4) != dstLen / 4 then Fail(WrongBufferSize)
    else Pass
  }

  /** Views of exactly n 3-float pixels and n 4-byte pixels always pass the size check. */
  lemma BufferCheckExactSizes(objSrc: PyObject, objDst: PyObject, n: nat)
    requires objSrc.supportsBuffer && objDst.supportsBuffer && objSrc.viewAvailable && objDst.viewAvailable
    ensures BufferCheck(objSrc, objDst, 4 * (3 * n), 4 * n) == Pass
  {
  }

  /**
   * The size check compares whole pixels only: views of n pixels pass whatever
   * partial pixel either holds beyond them.
   */
  lemma BufferCheckIgnoresRemainder(objSrc: PyObject, objDst: PyObject, n: nat, a: nat, b: nat)
    requires objSrc.supportsBuffer && objDst.supportsBuffer && objSrc.viewAvailable && objDst.viewAvailable
    requires a < 12 && b < 4
    ensures BufferCheck(objSrc, objDst, 12 * n + a, 4 * n + b) == Pass
  {
    assert (12 * n + a) / 12 == n;
    assert (4 * n + b) / 4 == n;
  }

  /** `(u_char)floor(v * k + .5f)`: the scaled value rounded to the nearest byte. */
  function Quantize(v: Float, k: real): uint8
  {
    var p := Mul(v, k);
    if p.Finite? then ToUChar((p.x + 0.5).Floor) else 0
  }

  /** An in-range value is rounded to the nearest integer, halves upwards. */
  lemma QuantizeInRange(v: Float, k: real)
    requires v.Finite? && 0.0 <= v.x * k < 255.5
    ensures Quantize(v, k) as int == (v.x * k + 0.5).Floor
    ensures Quantize(v, k) as real <= v.x * k + 0.5 < Quantize(v, k) as real + 1.0
  {
    var t := v.x * k + 0.5;
    var f := t.Floor;
    assert f as real <= t < f as real + 1.0;
    assert 0 <= f < 0x100;
    assert Mul(v, k) == Finite(v.x * k);
  }

  /** The 4-byte pixels (blue, green, red, 0xff) for the 3-float pixels of row (whole pixels only). */
  function BgraRow(row: seq<Float>, k: real): (r: seq<uint8>)
  {
    if |row| < 3 then []
    else
      var n := |row|;
      BgraRow(row[..n - 3], k) + [Quantize(row[n - 1], k), Quantize(row[n - 2], k), Quantize(row[n - 3], k), 0xff]
  }

  lemma BgraRowStep(s: seq<Float>, from: nat, i: nat, k: real)
    requires from <= i && i + 3 <= |s|
    ensures BgraRow(s[from..i + 3], k)
            == BgraRow(s[from..i], k) + [Quantize(s[i + 2], k), Quantize(s[i + 1], k), Quantize(s[i], k), 0xff]
  {
    assert s[from..i + 3][..i - from] == s[from..i];
  }

  lemma {:induction false} BgraRowLength(row: seq<Float>, k: real, n: nat)
    requires |row| == 3 * n
    ensures |BgraRow(row, k)| == 4 * n
  {
    if n > 0 {
      BgraRowLength(row[..|row| - 3], k, n - 1);
    }
  }

  lemma {:induction false} BgraRowAt(row: seq<Float>, k: real, n: nat, q: nat)
    requires |row| == 3 * n && q < n
    ensures |BgraRow(row, k)| == 4 * n
    ensures var r := BgraRow(row, k);
            r[4 * q] == Quantize(row[3 * q + 2], k) && r[4 * q + 1] == Quantize(row[3 * q + 1], k)
            && r[4 * q + 2] == Quantize(row[3 * q], k) && r[4 * q + 3] == 0xff
  {
    var front := row[..|row| - 3];
    BgraRowLength(front, k, n - 1);
    if q < n - 1 {
      BgraRowAt(front, k, n - 1, q);
    }
  }

  /** Row r of a w-pixel-wide 3-float image. */
  function SourceRow(src: seq<Float>, w: nat, h: nat, r: nat): (row: seq<Float>)
    requires r < h && 3 * RowStart(h, w) <= |src|
    ensures |row| == 3 * w
  {
    RowStartMono(r, h, w);
    src[3 * RowStart(r, w)..3 * RowStart(r, w) + 3 * w]
  }

  /**
   * The first y destination rows of the byte conversion: destination row i holds
   * source row h - 1 - i, so the image is flipped vertically.
   */
  function Flipped(src: seq<Float>, w: nat, h: nat, y: nat, k: real): (r: seq<uint8>)
    requires y <= h && 3 * RowStart(h, w) <= |src|
  {
    if y == 0 then [] else Flipped(src, w, h, y - 1, k) + BgraRow(SourceRow(src, w, h, h - y), k)
  }

  lemma {:induction false} FlippedLength(src: seq<Float>, w: nat, h: nat, y: nat, k: real)
    requires y <= h && 3 * RowStart(h, w) <= |src|
    ensures |Flipped(src, w, h, y, k)| == 4 * RowStart(y, w)
  {
    if y > 0 {
      FlippedLength(src, w, h, y - 1, k);
      BgraRowLength(SourceRow(src, w, h, h - y), k, w);
    }
  }

  lemma SliceAt3<T>(s: seq<T>, lo: nat, hi: nat, q: nat)
    requires lo <= hi <= |s| && q + 3 <= hi - lo
    ensures s[lo..hi][q] == s[lo + q] && s[lo..hi][q + 1] == s[lo + q + 1] && s[lo..hi][q + 2] == s[lo + q + 2]
  {
  }

  lemma AppendedSlices<T>(d: seq<T>, front: seq<T>, r: seq<T>, a: nat, b: nat)
    requires d == front + r && a <= b <= |front|
    ensures d[a..b] == front[a..b] && d[|front|..|front| + |r|] == r
  {
  }

  /** The destination row y added last is the converted source row h - 1 - y. */
  lemma FlippedLast(src: seq<Float>, w: nat, h: nat, k: real, rows: nat, y: nat)
    requires y + 1 == rows <= h && 3 * RowStart(h, w) <= |src|
    ensures |Flipped(src, w, h, rows, k)| == 4 * RowStart(rows, w) == 4 * (RowStart(y, w) + w)
    ensures Flipped(src, w, h, rows, k)[4 * RowStart(y, w)..4 * (RowStart(y, w) + w)]
            == BgraRow(SourceRow(src, w, h, h - 1 - y), k)
  {
    FlippedLength(src, w, h, rows, k);
    FlippedLength(src, w, h, y, k);
    var r := BgraRow(SourceRow(src, w, h, h - rows), k);
    BgraRowLength(SourceRow(src, w, h, h - rows), k, w);
    AppendedSlices(Flipped(src, w, h, rows, k), Flipped(src, w, h, y, k), r, 0, 0);
  }

  /** Destination rows before the last one added are those of the shorter image. */
  lemma FlippedEarlier(src: seq<Float>, w: nat, h: nat, k: real, rows: nat, y: nat)
    requires 0 < rows <= h && 3 * RowStart(h, w) <= |src| && y < rows - 1
    ensures RowStart(y, w) + w <= RowStart(rows - 1, w) && |Flipped(src, w, h, rows - 1, k)| == 4 * RowStart(rows - 1, w)
    ensures Flipped(src, w, h, rows, k)[4 * RowStart(y, w)..4 * (RowStart(y, w) + w)]
            == Flipped(src, w, h, rows - 1, k)[4 * RowStart(y, w)..4 * (RowStart(y, w) + w)]
  {
    RowStartMono(y, rows - 1, w);
    FlippedLength(src, w, h, rows - 1, k);
    AppendedSlices(Flipped(src, w, h, rows, k), Flipped(src, w, h, rows - 1, k),
                   BgraRow(SourceRow(src, w, h, h - rows), k), 4 * RowStart(y, w), 4 * (RowStart(y, w) + w));
  }

  /**
   * The vertical flip: destination row y of the byte conversion is source row
   * h - 1 - y converted pixel by pixel.
   */
  lemma {:induction false} FlippedRow(src: seq<Float>, w: nat, h: nat, k: real, rows: nat, y: nat)
    requires rows <= h && 3 * RowStart(h, w) <= |src| && y < rows
    ensures RowStart(y, w) + w <= RowStart(rows, w)
    ensures |Flipped(src, w, h, rows, k)| == 4 * RowStart(rows, w)
    ensures Flipped(src, w, h, rows, k)[4 * RowStart(y, w)..4 * (RowStart(y, w) + w)]
            == BgraRow(SourceRow(src, w, h, h - 1 - y), k)
  {
    RowStartMono(y, rows, w);
    FlippedLength(src, w, h, rows, k);
    if y < rows - 1 {
      FlippedRow(src, w, h, k, rows - 1, y);
      FlippedEarlier(src, w, h, k, rows, y);
    } else {
      FlippedLast(src, w, h, k, rows, y);
    }
  }

  /** Pixel x of the converted source row r, in terms of the source floats. */
  lemma SourceRowPixel(src: seq<Float>, w: nat, h: nat, k: real, r: nat, x: nat)
    requires 3 * RowStart(h, w) <= |src| && r < h && x < w
    ensures RowStart(r, w) + w <= RowStart(h, w)
    ensures |BgraRow(SourceRow(src, w, h, r), k)| == 4 * w
    ensures var b := BgraRow(SourceRow(src, w, h, r), k);
            var j := 3 * RowStart(r, w) + 3 * x;
            b[4 * x] == Quantize(src[j + 2], k) && b[4 * x + 1] == Quantize(src[j + 1], k)
            && b[4 * x + 2] == Quantize(src[j], k) && b[4 * x + 3] == 0xff
  {
    RowStartMono(r, h, w);
    var row := SourceRow(src, w, h, r);
    BgraRowAt(row, k, w, x);
    var a := 3 * RowStart(r, w);
    assert row == src[a..a + 3 * w];
    SliceAt3(src, a, a + 3 * w, 3 * x);
  }



  lemma Regroup<T>(x: seq<T>, done: seq<T>, row: seq<T>, rest: seq<T>, next: seq<T>)
    requires x == done + row + rest && next == done + row
    ensures x == next + rest
  {
  }

  /** One more destination row is the source row h - 1 - y, taken from its first float. */
  lemma FlippedStep(src: seq<Float>, w: nat, h: nat, k: real, y: nat)
    requires y < h && 3 * RowStart(h, w) <= |src|
    ensures RowStart(y, w) + w <= RowStart(h, w) && RowStart(h - y - 1, w) + w <= RowStart(h, w)
    ensures |Flipped(src, w, h, y, k)| == 4 * RowStart(y, w) && RowStart(y + 1, w) == RowStart(y, w) + w
    ensures Flipped(src, w, h, y + 1, k)
            == Flipped(src, w, h, y, k) + BgraRow(src[3 * RowStart(h - y - 1, w)..3 * RowStart(h - y - 1, w) + 3 * w], k)
  {
    RowStartMono(y, h, w);
    RowStartMono(h - y - 1, h, w);
    FlippedLength(src, w, h, y, k);
    assert SourceRow(src, w, h, h - (y + 1)) == src[3 * RowStart(h - y - 1, w)..3 * RowStart(h - y - 1, w) + 3 * w];
  }

  /** The whole w x h image of the byte conversion. */
  function FlippedImage(src: seq<Float>, w: nat, h: nat, k: real): (r: seq<uint8>)
    requires 3 * (w * h) <= |src|
    ensures |r| == 4 * (w * h)
  {
    RowFits(h, w, h);
    FlippedLength(src, w, h, h, k);
    Flipped(src, w, h, h, k)
  }

  /**
   * The byte conversion of a 3-channel float pass into a 4-byte-per-pixel image:
   * the buffers are checked first; each pixel becomes blue, green, red and an
   * opaque alpha, scaled by 255 (divided by the largest finite value first when
   * normalizing), rounded, and the rows are written bottom-up.
   */
  method ConvertFilmChannelOutput_3xFloat_To_4xUChar(width: uint32, height: uint32, objSrc: PyObject, objDst: PyObject,
                                                     src: seq<Float>, dst: array<uint8>, normalize: bool)
    returns (r: Outcome<ConversionError>)
    requires BufferCheck(objSrc, objDst, 4 * |src|, dst.Length).Pass? ==>
               3 * (width as nat * height as nat) <= |src| && 4 * (width as nat * height as nat) <= dst.Length
    modifies dst
    ensures r == BufferCheck(objSrc, objDst, 4 * |src|, dst.Length)
    ensures r.Fail? ==> dst[..] == old(dst[..])
    ensures r.Pass? ==>
              var w, h := width as nat, height as nat;
              var k := if normalize then Factor(MaxFinite(src[..3 * (w * h)]), 255.0) else 255.0;
              dst[..] == FlippedImage(src, w, h, k) + old(dst[..])[4 * (w * h)..]
  {
    r := BufferCheck(objSrc, objDst, 4 * |src|, dst.Length);
    if r.Fail? {
      return;
    }
    var w, h := width as nat, height as nat;
    var k := 255.0;
    if normalize {
      var maxValue := FindMaxFloat(src, w * h * 3);
      assert w * h * 3 == 3 * (w * h);
      k := Factor(maxValue, 255.0);
    }
    RowFits(h, w, h);
    WriteBgra(dst, src, w, h, k);
  }

  /** The row loops of the byte conversion, which fill the destination top row first from the source's last. */
  method WriteBgra(dst: array<uint8>, src: seq<Float>, w: nat, h: nat, k: real)
    requires 3 * RowStart(h, w) <= |src| && 4 * RowStart(h, w) <= dst.Length
    modifies dst
    ensures dst[..] == Flipped(src, w, h, h, k) + old(dst[..])[4 * RowStart(h, w)..]
  {
    for y := 0 to h
      invariant RowStart(y, w) <= RowStart(h, w)
      invariant dst[..] == Flipped(src, w, h, y, k) + old(dst[..])[4 * RowStart(y, w)..]
    {
      WriteBgraRowAt(dst, src, w, h, k, y, old(dst[..]));
    }
  }

  /** Destination row y of the byte conversion, from source row h - 1 - y. */
  method WriteBgraRowAt(dst: array<uint8>, src: seq<Float>, w: nat, h: nat, k: real, y: nat, ghost before: seq<uint8>)
    requires y < h && 3 * RowStart(h, w) <= |src| && 4 * RowStart(h, w) <= dst.Length == |before|
    requires RowStart(y, w) <= RowStart(h, w) && dst[..] == Flipped(src, w, h, y, k) + before[4 * RowStart(y, w)..]
    modifies dst
    ensures RowStart(y + 1, w) <= RowStart(h, w)
    ensures dst[..] == Flipped(src, w, h, y + 1, k) + before[4 * RowStart(y + 1, w)..]
  {
    FlippedStep(src, w, h, k, y);
    var srcIndex := 3 * RowStart(h - y - 1, w);
    var dstIndex := 4 * RowStart(y, w);
    WriteRowBgra(dst, src, srcIndex, dstIndex, w, k, Flipped(src, w, h, y, k), before);
    Regroup(dst[..], Flipped(src, w, h, y, k), BgraRow(src[srcIndex..srcIndex + 3 * w], k), before[dstIndex + 4 * w..],
            Flipped(src, w, h, y + 1, k));
  }

  /** One row of the byte conversion: w pixels of the source from srcBase, written at dstBase. */
  method WriteRowBgra(dst: array<uint8>, src: seq<Float>, srcBase: nat, dstBase: nat, w: nat, k: real,
                      ghost done: seq<uint8>, ghost before: seq<uint8>)
    requires srcBase + 3 * w <= |src| && dstBase + 4 * w <= |before| == dst.Length
    requires |done| == dstBase && dst[..] == done + before[dstBase..]
    modifies dst
    ensures dst[..] == done + BgraRow(src[srcBase..srcBase + 3 * w], k) + before[dstBase + 4 * w..]
  {
    RowWrittenStart(src, srcBase, dstBase, w, k, done, before);
    for x := 0 to w
      invariant dst[..] == RowWritten(src, srcBase, dstBase, w, k, done, before, x)
    {
      WriteBgraPixel(dst, src, srcBase, dstBase, w, k, done, before, x);
    }
  }

  /** The buffer after the first x pixels of a row have been written. */
  ghost function RowWritten(src: seq<Float>, srcBase: nat, dstBase: nat, w: nat, k: real,
                            done: seq<uint8>, before: seq<uint8>, x: nat): seq<uint8>
    requires x <= w && srcBase + 3 * w <= |src| && dstBase + 4 * w <= |before|
  {
    done + BgraRow(src[srcBase..srcBase + 3 * x], k) + before[dstBase + 4 * x..]
  }

  lemma RowWrittenStart(src: seq<Float>, srcBase: nat, dstBase: nat, w: nat, k: real,
                        done: seq<uint8>, before: seq<uint8>)
    requires srcBase + 3 * w <= |src| && dstBase + 4 * w <= |before|
    ensures RowWritten(src, srcBase, dstBase, w, k, done, before, 0) == done + before[dstBase..]
  {
    assert src[srcBase..srcBase + 3 * 0] == [];
  }

  /** Pixel x of a row of the byte conversion: blue, green, red and 0xff. */
  method WriteBgraPixel(dst: array<uint8>, src: seq<Float>, srcBase: nat, dstBase: nat, w: nat, k: real,
                        ghost done: seq<uint8>, ghost before: seq<uint8>, x: nat)
    requires x < w && srcBase + 3 * w <= |src| && dstBase + 4 * w <= |before| == dst.Length && |done| == dstBase
    requires dst[..] == RowWritten(src, srcBase, dstBase, w, k, done, before, x)
    modifies dst
    ensures dst[..] == RowWritten(src, srcBase, dstBase, w, k, done, before, x + 1)
  {
    var srcIndex, dstIndex := srcBase + 3 * x, dstBase + 4 * x;
    ghost var row := BgraRow(src[srcBase..srcIndex], k);
    BgraRowLength(src[srcBase..srcIndex], k, x);
    var b, g, r := Quantize(src[srcIndex + 2], k), Quantize(src[srcIndex + 1], k), Quantize(src[srcIndex], k);
    Put4(dst, dstIndex, b, g, r, 0xff, done + row, before, dstIndex);
    BgraRowStep(src, srcBase, srcIndex, k);
    assert (done + row) + [b, g, r, 0xff] == done + (row + [b, g, r, 0xff]);
  }

  //----------------------------------------------------------------------------
  // The normalisation scans as written, against the intended ones
  //----------------------------------------------------------------------------

  /** A finite value scaled by the intended factor ends at most 1. */
  lemma IntendedAtMostOne(s: seq<Float>, i: nat)
    requires i < |s| && s[i].Finite?
    ensures !Greater(Mul(s[i], FullScanFactor(s)), 1.0)
  {
    NormalizedAtMostOne(s);
  }

  /** A finite value above a positive short-scan maximum ends above 1. */
  lemma ShortScanAboveOne(s: seq<Float>, n: nat, i: nat)
    requires n <= |s| && i < |s| && s[i].Finite? && s[i].x > MaxFinite(s[..n]) > 0.0
    ensures Greater(Mul(s[i], ShortScanFactor(s, n)), 1.0)
  {
    AboveOneAfterScaling(s[i], MaxFinite(s[..n]));
  }

  /**
   * Channel c of UV pixel q: at most 1 with the intended factor; above 1 as
   * written when its float exceeds the maximum of the first w x h floats; and
   * the two images are the same when no float after those exceeds it.
   */
  lemma UvScanAsWritten(output: seq<Float>, w: nat, h: nat, q: nat, c: nat)
    requires |output| == 2 * (w * h) && q < w * h && c < 2
    ensures |UvPixels(output, ShortScanFactor(output, w * h))| == 3 * (w * h)
    ensures |UvPixels(output, FullScanFactor(output))| == 3 * (w * h)
    ensures output[2 * q + c].Finite? ==> !Greater(UvPixels(output, FullScanFactor(output))[3 * q + c], 1.0)
    ensures output[2 * q + c].Finite? && output[2 * q + c].x > MaxFinite(output[..w * h]) > 0.0 ==>
              Greater(UvPixels(output, ShortScanFactor(output, w * h))[3 * q + c], 1.0)
    ensures (forall i :: w * h <= i < |output| && output[i].Finite? ==> output[i].x <= MaxFinite(output[..w * h])) ==>
              UvPixels(output, ShortScanFactor(output, w * h)) == UvPixels(output, FullScanFactor(output))
  {
    ShortScanAgrees(output, w * h);
    UvChannel(output, ShortScanFactor(output, w * h), w * h, q, c);
    UvChannel(output, FullScanFactor(output), w * h, q, c);
    var i := 2 * q + c;
    if output[i].Finite? {
      IntendedAtMostOne(output, i);
      if output[i].x > MaxFinite(output[..w * h]) > 0.0 {
        ShortScanAboveOne(output, w * h, i);
      }
    }
  }

  lemma UvChannel(s: seq<Float>, k: real, n: nat, q: nat, c: nat)
    requires |s| == 2 * n && q < n && c < 2
    ensures |UvPixels(s, k)| == 3 * n && UvPixels(s, k)[3 * q + c] == Mul(s[2 * q + c], k)
  {
    UvPixelsAt(s, k, n, q);
    if c == 0 {
      assert 3 * q + c == 3 * q && 2 * q + c == 2 * q;
    }
  }

  /** The same for float i of the in-place 3-float conversion. */
  lemma Rgb3ScanAsWritten(output: seq<Float>, w: nat, h: nat, i: nat)
    requires |output| == 3 * (w * h) && i < |output|
    ensures output[i].Finite? ==> !Greater(ScaleAll(output, FullScanFactor(output))[i], 1.0)
    ensures output[i].Finite? && output[i].x > MaxFinite(output[..w * h]) > 0.0 ==>
              Greater(ScaleAll(output, ShortScanFactor(output, w * h))[i], 1.0)
    ensures (forall j :: w * h <= j < |output| && output[j].Finite? ==> output[j].x <= MaxFinite(output[..w * h])) ==>
              ScaleAll(output, ShortScanFactor(output, w * h)) == ScaleAll(output, FullScanFactor(output))
  {
    ShortScanAgrees(output, w * h);
    ScaleAllAt(output, ShortScanFactor(output, w * h), i);
    ScaleAllAt(output, FullScanFactor(output), i);
    if output[i].Finite? {
      IntendedAtMostOne(output, i);
      if output[i].x > MaxFinite(output[..w * h]) > 0.0 {
        ShortScanAboveOne(output, w * h, i);
      }
    }
  }

  /** The same for colour channel c of pixel q of the 3-to-4 conversion. */
  lemma Rgb4ScanAsWritten(output: seq<Float>, w: nat, h: nat, q: nat, c: nat)
    requires |output| == 3 * (w * h) && q < w * h && c < 3
    ensures |Pixels3To4(output, ShortScanFactor(output, w * h))| == 4 * (w * h)
    ensures |Pixels3To4(output, FullScanFactor(output))| == 4 * (w * h)
    ensures output[3 * q + c].Finite? ==> !Greater(Pixels3To4(output, FullScanFactor(output))[4 * q + c], 1.0)
    ensures output[3 * q + c].Finite? && output[3 * q + c].x > MaxFinite(output[..w * h]) > 0.0 ==>
              Greater(Pixels3To4(output, ShortScanFactor(output, w * h))[4 * q + c], 1.0)
    ensures (forall i :: w * h <= i < |output| && output[i].Finite? ==> output[i].x <= MaxFinite(output[..w * h])) ==>
              Pixels3To4(output, ShortScanFactor(output, w * h)) == Pixels3To4(output, FullScanFactor(output))
  {
    ShortScanAgrees(output, w * h);
    Pixels3To4Channel(output, ShortScanFactor(output, w * h), w * h, q, c);
    Pixels3To4Channel(output, FullScanFactor(output), w * h, q, c);
    var i := 3 * q + c;
    if output[i].Finite? {
      IntendedAtMostOne(output, i);
      if output[i].x > MaxFinite(output[..w * h]) > 0.0 {
        ShortScanAboveOne(output, w * h, i);
      }
    }
  }

  lemma Pixels3To4Channel(s: seq<Float>, k: real, n: nat, q: nat, c: nat)
    requires |s| == 3 * n && q < n && c < 3
    ensures |Pixels3To4(s, k)| == 4 * n && Pixels3To4(s, k)[4 * q + c] == Mul(s[3 * q + c], k)
  {
    Pixels3To4At(s, k, n, q);
    if c == 0 {
      assert 4 * q + c == 4 * q && 3 * q + c == 3 * q;
    }
  }

  /**
   * Colour channel c of pixel q of the 4-float conversion: at most 1 when the
   * maximum leaves out alpha, as intended; above 1 as written when it exceeds
   * the maximum that leaves out red; and the two images are the same when the
   * two maxima agree (ColorScansAgree says when).
   */
  lemma Rgba4ScanAsWritten(output: seq<Float>, n: nat, q: nat, c: nat)
    requires |output| == 4 * n && q < n && c < 3
    ensures |ScaleColor(output, Factor(MaxFiniteSkipping(output, 0), 1.0))| == 4 * n
    ensures |ScaleColor(output, Factor(MaxFiniteSkipping(output, 3), 1.0))| == 4 * n
    ensures output[4 * q + c].Finite? ==>
              !Greater(ScaleColor(output, Factor(MaxFiniteSkipping(output, 3), 1.0))[4 * q + c], 1.0)
    ensures output[4 * q + c].Finite? && output[4 * q + c].x > MaxFiniteSkipping(output, 0) > 0.0 ==>
              Greater(ScaleColor(output, Factor(MaxFiniteSkipping(output, 0), 1.0))[4 * q + c], 1.0)
    ensures MaxFiniteSkipping(output, 0) == MaxFiniteSkipping(output, 3) ==>
              ScaleColor(output, Factor(MaxFiniteSkipping(output, 0), 1.0))
              == ScaleColor(output, Factor(MaxFiniteSkipping(output, 3), 1.0))
  {
    var m0, m3 := MaxFiniteSkipping(output, 0), MaxFiniteSkipping(output, 3);
    ScaleColorChannel(output, Factor(m0, 1.0), n, q, c);
    ScaleColorChannel(output, Factor(m3, 1.0), n, q, c);
    var i := 4 * q + c;
    if output[i].Finite? {
      ChannelOfPixel(q, c);
      IntendedColorAtMostOne(output, i);
      if output[i].x > m0 > 0.0 {
        AboveOneAfterScaling(output[i], m0);
      }
    }
  }

  lemma ScaleColorChannel(s: seq<Float>, k: real, n: nat, q: nat, c: nat)
    requires |s| == 4 * n && q < n && c < 3
    ensures |ScaleColor(s, k)| == 4 * n && ScaleColor(s, k)[4 * q + c] == Mul(s[4 * q + c], k)
  {
    ScaleColorAt(s, k, n, q);
    if c == 0 {
      assert 4 * q + c == 4 * q;
    }
  }

  lemma AboveOneAfterScaling(v: Float, m: real)
    requires v.Finite? && v.x > m > 0.0
    ensures Greater(Mul(v, Factor(m, 1.0)), 1.0)
  {
    ScaledAboveOne(v.x, m);
  }

  lemma ChannelOfPixel(q: nat, c: nat)
    requires c < 4
    ensures (4 * q + c) % 4 == c
  {
  }

  /** A finite colour channel scaled by the intended colour factor ends at most 1. */
  lemma IntendedColorAtMostOne(s: seq<Float>, i: nat)
    requires i < |s| && i % 4 != 3 && s[i].Finite?
    ensures !Greater(Mul(s[i], Factor(MaxFiniteSkipping(s, 3), 1.0)), 1.0)
  {
    NormalizedColorAtMostOne(s);
  }

  /**
   * As written, the UV, 3-float and 3-to-4 conversions take the maximum of only
   * the first width x height floats of a buffer that holds 2 or 3 floats per
   * pixel. For a single UV pixel (1, 4) the scan sees only u, the factor stays 1
   * and v leaves normalisation as 4.
   */
  lemma ShortScanLeavesValueAboveOne()
    ensures var output := [Finite(1.0), Finite(4.0)];
            var k := ShortScanFactor(output, 1 * 1);
            UvPixels(output, k)[1] == Finite(4.0)
  {
    var output := [Finite(1.0), Finite(4.0)];
    assert output[..1 * 1] == [Finite(1.0)];
    assert MaxFinite([Finite(1.0)]) == 1.0 by {
      assert [Finite(1.0)][..0] == [];
    }
    UvPixelsAt(output, 1.0, 1, 0);
  }

  /**
   * As written, the 4-float scan leaves out channel 0 (red) of every pixel
   * rather than channel 3 (alpha): for the pixel (2, 0, 0, 0.5) the maximum is
   * the alpha 0.5, and red leaves normalisation as 4.
   */
  lemma AlphaScanAsWrittenSkipsRed()
    ensures var output := [Finite(2.0), ZERO, ZERO, Finite(0.5)];
            var m := MaxFiniteSkipping(output, 0);
            m == 0.5 && ScaleColor(output, Factor(m, 1.0))[0] == Finite(4.0)
  {
    var output := [Finite(2.0), ZERO, ZERO, Finite(0.5)];
    assert output[..3] == [Finite(2.0), ZERO, ZERO];
    assert [Finite(2.0), ZERO, ZERO][..2] == [Finite(2.0), ZERO];
    assert [Finite(2.0), ZERO][..1] == [Finite(2.0)];
    assert [Finite(2.0)][..0] == [];
    assert MaxFiniteSkipping([Finite(2.0)], 0) == 0.0;
    assert MaxFiniteSkipping([Finite(2.0), ZERO], 0) == 0.0;
    assert MaxFiniteSkipping([Finite(2.0), ZERO, ZERO], 0) == 0.0;
    ScaleColorAt(output, 2.0, 1, 0);
  }
}
