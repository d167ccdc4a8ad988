/**
 * The picture stack object: the viewport size, one container per picture
 * (natural size, fitted sprite box, vertical offset), the position of the
 * whole stack, and the two scales of the displacement filter.  Rendering,
 * textures and the filter object itself are not part of this model.
 */
module Melting {
  import opened Layout
  import opened Displacement

  class MeltingPics {
    /** The viewport: `WIDTH` and `HEIGHT` of the source. */
    var width: real
    var height: real
    /** One container per loaded picture; their number never changes. */
    const images: array<ImageItem>
    /** `container.position.y`: the translation of the whole stack. */
    var containerY: real
    /** `dispFilter.scale.x` and `dispFilter.scale.y`. */
    var scaleX: real
    var scaleY: real

    ghost predicate Valid()
      reads this, images
    {
      width > 0.0 && height > 0.0 &&
      forall i :: 0 <= i < images.Length ==> ValidSize(images[i].iniWidth, images[i].iniHeight)
    }

    /** Every container is laid out for the current viewport. */
    ghost predicate LaidOut()
      reads this, images
      requires Valid()
    {
      forall i :: 0 <= i < images.Length ==> images[i] == Arrange(images[i], width, height, i)
    }

    /**
     * Creates one container per loaded picture, fits and stacks them for
     * the viewport `vw` by `vh`; the stack starts at the top and the
     * filter at scale 0.
     */
    constructor (natural: seq<Size>, vw: real, vh: real)
      requires vw > 0.0 && vh > 0.0
      requires forall i :: 0 <= i < |natural| ==> ValidSize(natural[i].width, natural[i].height)
      ensures Valid() && LaidOut() && fresh(images)
      ensures width == vw && height == vh
      ensures images.Length == |natural|
      ensures forall i :: 0 <= i < |natural| ==>
        images[i].iniWidth == natural[i].width && images[i].iniHeight == natural[i].height
      ensures Gapless(Offsets(images[..]), height)
      ensures containerY == 0.0 && scaleX == 0.0 && scaleY == 0.0
    {
      width, height := vw, vh;
      images := new ImageItem[|natural|](i requires 0 <= i < |natural| =>
        ImageItem(natural[i].width, natural[i].height, Box(natural[i].width, natural[i].height, 0.0, 0.0), 0.0));
      containerY, scaleX, scaleY := 0.0, 0.0, 0.0;
      new;
      ResizeImages();
      RepositeContainers();
    }

    /** Contain-fits and centres every picture for the current viewport. */
    method ResizeImages()
      requires Valid()
      modifies images
      ensures Valid()
      ensures forall i :: 0 <= i < images.Length ==> images[i] == Fitted(old(images[i]), width, height)
    {
      var i := 0;
      while i < images.Length
        invariant 0 <= i <= images.Length
        invariant forall k :: 0 <= k < i ==> images[k] == Fitted(old(images[k]), width, height)
        invariant forall k :: i <= k < images.Length ==> images[k] == old(images[k])
      {
        var image := images[i];
        var iniW, iniH := image.iniWidth, image.iniHeight;
        images[i] := image.(box := ContainFit(width, height, iniW, iniH));
        i := i + 1;
      }
    }

    /** Places container `i` at `height * i`: a stack without gaps. */
    method RepositeContainers()
      requires Valid()
      modifies images
      ensures Valid()
      ensures forall i :: 0 <= i < images.Length ==> images[i] == Stacked(old(images[i]), height, i)
      ensures Gapless(Offsets(images[..]), height)
    {
      var i := 0;
      while i < images.Length
        invariant 0 <= i <= images.Length
        invariant forall k :: 0 <= k < i ==> images[k] == Stacked(old(images[k]), height, k)
        invariant forall k :: i <= k < images.Length ==> images[k] == old(images[k])
      {
        images[i] := images[i].(offsetY := height * i as real);
        i := i + 1;
      }
      GaplessIffMultiples(Offsets(images[..]), height);
    }

    /**
     * Moves the stack to where progress factor `coef` puts it and sets the
     * filter's strength from how far the stack moved: the vertical scale
     * grows with the distance, the horizontal one shrinks below zero.  A
     * second call with the same factor moves nothing and clears both scales.
     */
    method UpdateDisplacementImmediate(coef: real)
      requires Valid()
      modifies this`containerY, this`scaleX, this`scaleY
      ensures Valid()
      ensures containerY == FinY(coef, height, images.Length)
      ensures scaleY == ScaleY(Abs(containerY - old(containerY)), width, height) && scaleY >= 0.0
      ensures scaleX == ScaleX(Abs(containerY - old(containerY))) && scaleX <= 0.0
      ensures old(containerY) == containerY ==> scaleX == 0.0 && scaleY == 0.0
    {
      var finy := -coef * height * (images.Length - 1) as real;
      var dif := Abs(finy - containerY);
      containerY := finy;
      scaleY := dif * VerticalGain * (width / height / AspectDivisor);
      scaleX := -dif / HorizontalGain;
    }

    /**
     * A window resize: takes the new viewport and re-runs stacking and
     * fitting.  The result depends only on the natural sizes and the new
     * viewport; the stack position and the filter are left as they were.
     */
    method ResizeCanvas(vw: real, vh: real)
      requires Valid() && vw > 0.0 && vh > 0.0
      modifies this`width, this`height, images
      ensures Valid() && LaidOut()
      ensures width == vw && height == vh
      ensures forall i :: 0 <= i < images.Length ==> images[i] == Arrange(old(images[i]), vw, vh, i)
      ensures Gapless(Offsets(images[..]), height)
      ensures containerY == old(containerY) && scaleX == old(scaleX) && scaleY == old(scaleY)
    {
      width, height := vw, vh;
      RepositeContainers();
      ResizeImages();
      GaplessIffMultiples(Offsets(images[..]), height);
    }
  }
}
