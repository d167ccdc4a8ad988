/**
 * Layout engine of the melting-pictures filmstrip: the "contain" fit that
 * scales each picture to the largest size that fits the viewport without
 * cropping or stretching, the centring of the picture inside the viewport,
 * and the vertical stacking of the picture containers.
 */
module Layout {

  /** Size and position of one picture sprite inside its container. */
  datatype Box = Box(width: real, height: real, x: real, y: real)

  /** Natural (loaded) size of a picture. */
  datatype Size = Size(width: real, height: real)

  /**
   * One picture container: the sprite's natural size, which never changes
   * once loaded, the sprite's current box, and the container's own
   * vertical position in the stack.
   */
  datatype ImageItem = ImageItem(iniWidth: real, iniHeight: real, box: Box, offsetY: real)

  /** A natural size both of whose sides are positive. */
  predicate ValidSize(iniW: real, iniH: real) {
    iniW > 0.0 && iniH > 0.0
  }

  /** The picture lies entirely inside a `vw` by `vh` viewport. */
  predicate Inside(b: Box, vw: real, vh: real) {
    0.0 <= b.x && b.x + b.width <= vw && 0.0 <= b.y && b.y + b.height <= vh
  }

  /**
   * "Contain" fit of a picture of natural size `iniW` by `iniH` into a
   * viewport `vw` by `vh`, centred.  A picture relatively wider than the
   * viewport takes the viewport's width, all others take its height.
   */
  function ContainFit(vw: real, vh: real, iniW: real, iniH: real): (b: Box)
    requires vw > 0.0 && vh > 0.0 && ValidSize(iniW, iniH)
    ensures 0.0 < b.width <= vw && 0.0 < b.height <= vh
    ensures b.width == vw || b.height == vh
    ensures b.width * iniH == b.height * iniW
    ensures Inside(b, vw, vh)
    ensures b.x == vw - (b.x + b.width) && b.y == vh - (b.y + b.height)
  {
    var imageAspect := iniW / iniH;
    var screenAspect := vw / vh;
    if imageAspect > screenAspect then
      var h := vw / imageAspect;
      assert h == vw * iniH / iniW;
      assert vw * iniH < vh * iniW by {
        assert iniW * vh > vw * iniH by { AspectCross(iniW, iniH, vw, vh); }
      }
      Box(vw, h, (vw - vw) / 2.0, (vh - h) / 2.0)
    else
      var w := vh * imageAspect;
      assert w == vh * iniW / iniH;
      assert vh * iniW <= vw * iniH by {
        if vh * iniW > vw * iniH { AspectCross(vw, vh, iniW, iniH); }
      }
      Box(w, vh, (vw - w) / 2.0, (vh - vh) / 2.0)
  }

  /** Comparing two aspect ratios is comparing the cross products. */
  lemma AspectCross(a: real, b: real, c: real, d: real)
    requires b > 0.0 && d > 0.0
    ensures a / b > c / d <==> a * d > c * b
  {
    assert a / b * (b * d) == a * d;
    assert c / d * (b * d) == c * b;
    if a / b > c / d {
      MulStrict(c / d, a / b, b * d);
    }
    if a * d > c * b {
      if a / b <= c / d { MulMono(a / b, c / d, b * d); }
    }
  }

  lemma MulStrict(x: real, y: real, k: real)
    requires x < y && k > 0.0
    ensures x * k < y * k
  {
  }

  lemma MulMono(x: real, y: real, k: real)
    requires x <= y && k > 0.0
    ensures x * k <= y * k
  {
  }

  /**
   * The fit is the largest one: every uniform scaling `s` of the natural
   * size that fits the viewport is no larger than the fitted box.
   */
  lemma ContainFitLargest(vw: real, vh: real, iniW: real, iniH: real, s: real)
    requires vw > 0.0 && vh > 0.0 && ValidSize(iniW, iniH)
    requires s > 0.0 && s * iniW <= vw && s * iniH <= vh
    ensures s * iniW <= ContainFit(vw, vh, iniW, iniH).width
    ensures s * iniH <= ContainFit(vw, vh, iniW, iniH).height
  {
    var b := ContainFit(vw, vh, iniW, iniH);
    assert b.width * iniH == b.height * iniW;
    if b.width == vw {
      MulMono(s * iniW, b.width, iniH);
      assert (s * iniH) * iniW == (s * iniW) * iniH;
      MulCancel(s * iniH, b.height, iniW);
    } else {
      assert b.height == vh;
      MulMono(s * iniH, b.height, iniW);
      assert (s * iniW) * iniH == (s * iniH) * iniW;
      MulCancel(s * iniW, b.width, iniH);
    }
  }

  lemma MulCancel(x: real, y: real, k: real)
    requires k > 0.0 && x * k <= y * k
    ensures x <= y
  {
    if x > y { MulStrict(y, x, k); }
  }

  /**
   * When the picture and the viewport have the same aspect, the fit fills
   * the whole viewport (the comparison takes its else branch).
   */
  lemma ContainFitSameAspect(vw: real, vh: real, iniW: real, iniH: real)
    requires vw > 0.0 && vh > 0.0 && ValidSize(iniW, iniH)
    requires iniW * vh == iniH * vw
    ensures ContainFit(vw, vh, iniW, iniH).width == vw
    ensures ContainFit(vw, vh, iniW, iniH).height == vh
  {
    AspectCross(iniW, iniH, vw, vh);
    assert !(iniW / iniH > vw / vh);
    var w := vh * (iniW / iniH);
    assert w * iniH == vh * iniW;
    assert w * iniH == vw * iniH;
  }

  /** A container whose sprite is contain-fitted for a `vw` by `vh` viewport. */
  function Fitted(item: ImageItem, vw: real, vh: real): (r: ImageItem)
    requires vw > 0.0 && vh > 0.0 && ValidSize(item.iniWidth, item.iniHeight)
    ensures r.iniWidth == item.iniWidth && r.iniHeight == item.iniHeight && r.offsetY == item.offsetY
    ensures Inside(r.box, vw, vh)
  {
    item.(box := ContainFit(vw, vh, item.iniWidth, item.iniHeight))
  }

  /** A container placed in slot `i` of a stack of height-`vh` slots. */
  function Stacked(item: ImageItem, vh: real, i: nat): (r: ImageItem)
    ensures r.iniWidth == item.iniWidth && r.iniHeight == item.iniHeight && r.box == item.box
  {
    item.(offsetY := vh * i as real)
  }

  /**
   * A picture container after a layout pass for a `vw` by `vh` viewport:
   * its sprite is contain-fitted and the container sits `vh` times its
   * index below the top of the stack; the natural size is kept.
   */
  function Arrange(item: ImageItem, vw: real, vh: real, i: nat): (r: ImageItem)
    requires vw > 0.0 && vh > 0.0 && ValidSize(item.iniWidth, item.iniHeight)
    ensures r.iniWidth == item.iniWidth && r.iniHeight == item.iniHeight
    ensures Inside(r.box, vw, vh)
    ensures r.offsetY == vh * i as real
  {
    Fitted(Stacked(item, vh, i), vw, vh)
  }

  /**
   * A layout pass depends only on the natural size and the viewport, so
   * arranging an arranged container again for the same viewport changes
   * nothing.
   */
  lemma ArrangeIdempotent(item: ImageItem, vw: real, vh: real, i: nat)
    requires vw > 0.0 && vh > 0.0 && ValidSize(item.iniWidth, item.iniHeight)
    ensures Arrange(Arrange(item, vw, vh, i), vw, vh, i) == Arrange(item, vw, vh, i)
  {
  }

  /**
   * Recurrence form of a gapless stack of height-`vh` slots: the first
   * offset is zero and each next one is exactly `vh` further down.
   */
  predicate Gapless(offsets: seq<real>, vh: real) {
    (|offsets| > 0 ==> offsets[0] == 0.0) &&
    forall i :: 0 <= i < |offsets| - 1 ==> offsets[i + 1] == offsets[i] + vh
  }

  /** The offsets of a stack of containers, in display order. */
  function Offsets(items: seq<ImageItem>): (r: seq<real>)
    ensures |r| == |items|
    ensures forall i :: 0 <= i < |items| ==> r[i] == items[i].offsetY
  {
    seq(|items|, i requires 0 <= i < |items| => items[i].offsetY)
  }

  /**
   * Offsets `vh * i` are exactly the gapless stack: 0, vh, 2 vh, ...,
   * (N-1) vh.
   */
  lemma {:induction false} GaplessIffMultiples(offsets: seq<real>, vh: real)
    ensures Gapless(offsets, vh) <==> forall i :: 0 <= i < |offsets| ==> offsets[i] == vh * i as real
  {
    if Gapless(offsets, vh) {
      var k := 0;
      while k < |offsets|
        invariant 0 <= k <= |offsets|
        invariant forall i :: 0 <= i < k ==> offsets[i] == vh * i as real
      {
        if k > 0 {
          assert offsets[k] == offsets[k - 1] + vh;
          assert vh * (k - 1) as real + vh == vh * k as real;
        }
        k := k + 1;
      }
    }
    if forall i :: 0 <= i < |offsets| ==> offsets[i] == vh * i as real {
      forall i | 0 <= i < |offsets| - 1
        ensures offsets[i + 1] == offsets[i] + vh
      {
        assert offsets[i + 1] == vh * (i + 1) as real;
        assert offsets[i] == vh * i as real;
      }
    }
  }
}
