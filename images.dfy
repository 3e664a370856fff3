/**
 * Image translation with zero fill (`offset_image`).
 *
 * An image is H rows of W pixels. The source shifts it by an integer offset
 * (ox, oy): pixel (y, x) of the result is pixel (y - oy, x - ox) of the input
 * when that exists, and the zero pixel otherwise. It does so by computing,
 * per axis, a clipped source window and a clipped destination window and
 * copying one block into a freshly zeroed buffer of the input's shape.
 *
 * The channel axis is only ever copied whole, so a pixel (all C channels of
 * one position) is modelled as one element of a generic type `P`.
 */
module Images {
  import opened Ints

  /** An image as nested sequences: rows, then the pixels of a row. */
  type Image<P> = seq<seq<P>>

  function Height<P>(img: Image<P>): nat { |img| }

  function Width<P>(img: Image<P>): nat { if |img| == 0 then 0 else |img[0]| }

  /** Every one of the `h` rows has `w` pixels. */
  predicate HasShape<P>(img: Image<P>, h: nat, w: nat)
  {
    |img| == h && forall y :: 0 <= y < h ==> |img[y]| == w
  }

  /** The image is a proper H×W block (what a numpy array always is). */
  predicate Rectangular<P>(img: Image<P>)
  {
    HasShape(img, Height(img), Width(img))
  }

  lemma ShapeDeterminesDims<P>(img: Image<P>, h: nat, w: nat)
    requires HasShape(img, h, w) && h > 0
    ensures Rectangular(img) && Height(img) == h && Width(img) == w
  {
    assert |img[0]| == w;
  }

  /** Two images of one shape that agree at every position are equal. */
  lemma SameImage<P>(a: Image<P>, b: Image<P>, h: nat, w: nat)
    requires HasShape(a, h, w) && HasShape(b, h, w)
    requires forall y, x :: 0 <= y < h && 0 <= x < w ==> a[y][x] == b[y][x]
    ensures a == b
  {
    forall y | 0 <= y < h
      ensures a[y] == b[y]
    {
      assert |a[y]| == w == |b[y]|;
    }
  }

  /** The pixel at (y, x) when the image has one there, and `zero` otherwise. */
  function PixelOr<P>(img: Image<P>, y: int, x: int, zero: P): P
  {
    if InBounds(y, |img|) && InBounds(x, |img[y]|) then img[y][x] else zero
  }

  /**
   * The translation itself, stated pixel by pixel: the reference definition
   * that `OffsetImage` is proved to implement. The result has the input's
   * shape, and position (y, x) holds the input's pixel (y - oy, x - ox).
   */
  function Offset<P>(img: Image<P>, ox: int, oy: int, zero: P): (out: Image<P>)
    ensures HasShape(out, Height(img), Width(img))
  {
    seq(Height(img), y =>
      seq(Width(img), x => PixelOr(img, y - oy, x - ox, zero)))
  }

  /** Pixel (y, x) of an offset rectangular image: the shifted pixel where it exists, else zero. */
  lemma OffsetAt<P>(img: Image<P>, ox: int, oy: int, zero: P, y: nat, x: nat)
    requires Rectangular(img) && y < Height(img) && x < Width(img)
    ensures Offset(img, ox, oy, zero)[y][x] ==
      if InBounds(y - oy, Height(img)) && InBounds(x - ox, Width(img)) then img[y - oy][x - ox] else zero
  {
    assert Offset(img, ox, oy, zero)[y][x] == PixelOr(img, y - oy, x - ox, zero);
    if InBounds(y - oy, Height(img)) {
      assert |img[y - oy]| == Width(img);
    }
  }

  /** With offset (0, 0) nothing moves. */
  lemma OffsetZeroIsIdentity<P>(img: Image<P>, zero: P)
    requires Rectangular(img)
    ensures Offset(img, 0, 0, zero) == img
  {
    var out := Offset(img, 0, 0, zero);
    forall y, x | 0 <= y < Height(img) && 0 <= x < Width(img)
      ensures out[y][x] == img[y][x]
    {
      OffsetAt(img, 0, 0, zero, y, x);
    }
    SameImage(out, img, Height(img), Width(img));
  }

  /**
   * The clipped source window `[max(0, -o), min(n, n - o))` along an axis of
   * length n. For |o| <= n it lies inside the axis and holds n - |o|
   * positions; for o > n its end is negative, which numpy would read as an
   * index counted from the end of the axis.
   */
  function SourceWindow(n: nat, o: int): (r: (int, int))
    ensures Abs(o) <= n ==> 0 <= r.0 <= r.1 <= n && r.1 - r.0 == n - Abs(o)
    ensures o > n ==> r.1 < 0
  {
    (Max(0, -o), Min(n, n - o))
  }

  /**
   * The clipped destination window `[max(0, o), min(n, n + o))`. For |o| <= n
   * it is the source window moved by o; for every o it holds exactly the
   * positions d whose source position d - o is on the axis.
   */
  function DestWindow(n: nat, o: int): (r: (int, int))
    ensures Abs(o) <= n ==> 0 <= r.0 <= r.1 <= n && r.1 - r.0 == n - Abs(o)
    ensures Abs(o) <= n ==> r.0 == SourceWindow(n, o).0 + o && r.1 == SourceWindow(n, o).1 + o
    ensures forall d :: InBounds(d, n) && InBounds(d - o, n) ==> r.0 <= d < r.1
  {
    (Max(0, o), Min(n, n + o))
  }

  /** Position d is in the destination window exactly when it and its source d - o are on the axis. */
  lemma InDestWindow(n: nat, o: int, d: int)
    ensures DestWindow(n, o).0 <= d < DestWindow(n, o).1 <==> InBounds(d, n) && InBounds(d - o, n)
  {
  }

  /**
   * `np.concatenate((a, b), axis=1)`: the two images side by side, each row
   * of the result being the row of `a` followed by the row of `b`. The
   * source only concatenates images of equal height (numpy raises
   * otherwise); here unequal heights keep the common rows.
   */
  function SideBySide<P>(a: Image<P>, b: Image<P>): (r: Image<P>)
    ensures |r| == Min(|a|, |b|)
    ensures forall y :: 0 <= y < |r| ==>
      |r[y]| == |a[y]| + |b[y]| && r[y][..|a[y]|] == a[y] && r[y][|a[y]|..] == b[y]
  {
    if a == [] || b == [] then [] else [a[0] + b[0]] + SideBySide(a[1..], b[1..])
  }

  lemma SideBySideShape<P>(a: Image<P>, b: Image<P>, h: nat, wa: nat, wb: nat)
    requires HasShape(a, h, wa) && HasShape(b, h, wb)
    ensures HasShape(SideBySide(a, b), h, wa + wb)
  {
  }

  /** The contents of a two-dimensional array as an `Image`. */
  ghost function Pixels<P>(a: array2<P>): (img: Image<P>)
    reads a
    ensures HasShape(img, a.Length0, a.Length1)
    ensures forall y, x :: 0 <= y < a.Length0 && 0 <= x < a.Length1 ==> img[y][x] == a[y, x]
  {
    seq(a.Length0, y requires 0 <= y < a.Length0 reads a =>
      seq(a.Length1, x requires 0 <= x < a.Length1 reads a => a[y, x]))
  }

  /** What position (y, x) of the shifted image holds. */
  function Shifted<P>(img: array2<P>, ox: int, oy: int, zero: P, y: int, x: int): P
    reads img
  {
    if InBounds(y - oy, img.Length0) && InBounds(x - ox, img.Length1) then img[y - oy, x - ox] else zero
  }

  /**
   * `offset_image`: allocate a zero buffer of the input's shape and copy the
   * source window into the destination window. The input is outside the
   * method's frame, so it is left unchanged.
   */
  method OffsetImage<P>(img: array2<P>, ox: int, oy: int, zero: P) returns (out: array2<P>)
    requires Abs(ox) <= img.Length1 && Abs(oy) <= img.Length0
    ensures fresh(out)
    ensures out.Length0 == img.Length0 && out.Length1 == img.Length1
    ensures forall y, x :: 0 <= y < out.Length0 && 0 <= x < out.Length1 ==>
      out[y, x] == Shifted(img, ox, oy, zero, y, x)
    ensures Pixels(out) == Offset(Pixels(img), ox, oy, zero)
  {
    var h, w := img.Length0, img.Length1;
    out := new P[h, w]((y, x) => zero);

    var (srcX0, srcX1) := SourceWindow(w, ox);
    var (dstX0, dstX1) := DestWindow(w, ox);
    var (srcY0, srcY1) := SourceWindow(h, oy);
    var (dstY0, dstY1) := DestWindow(h, oy);

    // out[dstY0:dstY1, dstX0:dstX1] = img[srcY0:srcY1, srcX0:srcX1], row by row
    var y := dstY0;
    while y < dstY1
      invariant dstY0 <= y <= dstY1
      invariant forall yy, xx :: 0 <= yy < h && 0 <= xx < w ==>
        out[yy, xx] == if yy < y then Shifted(img, ox, oy, zero, yy, xx) else zero
    {
      var x := dstX0;
      while x < dstX1
        invariant dstX0 <= x <= dstX1
        invariant forall yy, xx :: 0 <= yy < h && 0 <= xx < w ==>
          out[yy, xx] == if yy < y || (yy == y && xx < x) then Shifted(img, ox, oy, zero, yy, xx) else zero
      {
        out[y, x] := img[srcY0 + (y - dstY0), srcX0 + (x - dstX0)];
        x := x + 1;
      }
      y := y + 1;
    }

    ShiftedIsOffset(img, out, ox, oy, zero);
  }

  /** An array holding the shifted image pixel by pixel holds `Offset` of the input's contents. */
  lemma ShiftedIsOffset<P>(img: array2<P>, out: array2<P>, ox: int, oy: int, zero: P)
    requires out.Length0 == img.Length0 && out.Length1 == img.Length1
    requires forall y, x :: 0 <= y < out.Length0 && 0 <= x < out.Length1 ==>
      out[y, x] == Shifted(img, ox, oy, zero, y, x)
    ensures Pixels(out) == Offset(Pixels(img), ox, oy, zero)
  {
    var h, w := img.Length0, img.Length1;
    if h > 0 {
      ShapeDeterminesDims(Pixels(img), h, w);
      var expected := Offset(Pixels(img), ox, oy, zero);
      forall y, x | 0 <= y < h && 0 <= x < w
        ensures Pixels(out)[y][x] == expected[y][x]
      {
        OffsetAt(Pixels(img), ox, oy, zero, y, x);
      }
      SameImage(Pixels(out), expected, h, w);
    }
  }
}
