/** Display geometry of the image inside its container and the
    scale-dependent bound on how far it may be translated.

    Coordinates are relative to the container's centre; the image is laid out
    centred and then transformed by a translation followed by a scale about
    its own centre, so at translation t and scale s an image of displayed
    extent d covers [t - d*s/2, t + d*s/2] on that axis. */
module Geometry {

  import opened RealMath

  /** Largest translation magnitude on each axis. */
  datatype Bounds = Bounds(maxX: real, maxY: real)

  /** The resolved image size and the container it is shown in. */
  datatype Layout = Layout(imageWidth: real, imageHeight: real, containerWidth: real, containerHeight: real) {

    predicate Valid() {
      imageWidth > 0.0 && imageHeight > 0.0 && containerWidth > 0.0 && containerHeight > 0.0
    }

    /** The image is fitted to the container's width. */
    function DisplayWidth(): (w: real)
      ensures w == containerWidth
      ensures Valid() ==> w > 0.0
    {
      containerWidth
    }

    /** Height of the fitted image: the image keeps its aspect ratio. */
    function DisplayHeight(): (h: real)
      requires Valid()
      ensures h > 0.0
      ensures h * imageWidth == DisplayWidth() * imageHeight
    {
      var imageRatio := imageWidth / imageHeight;
      containerWidth / imageRatio
    }

    /** Initial vertical offset: a short image stays centred, a tall image is
        moved down until its top edge meets the container's top edge. */
    function InitTranslateY(): (y: real)
      requires Valid()
      ensures y >= 0.0
      ensures DisplayHeight() > containerHeight ==> y - DisplayHeight() / 2.0 == -containerHeight / 2.0
      ensures DisplayHeight() <= containerHeight ==> y == 0.0
    {
      if DisplayHeight() > containerHeight then (DisplayHeight() - containerHeight) / 2.0 else 0.0
    }

    /** How far the image may be moved at scale `s`: on an axis where the
        scaled image is wider than the container, the furthest translation at
        which the image's edge still meets the container's edge; zero on an
        axis where the scaled image fits. */
    function MaxTranslate(s: real): (b: Bounds)
      requires Valid()
      ensures b.maxX >= 0.0 && b.maxY >= 0.0
      ensures DisplayWidth() * s >= containerWidth ==> b.maxX - DisplayWidth() * s / 2.0 == -containerWidth / 2.0
      ensures DisplayWidth() * s <= containerWidth ==> b.maxX == 0.0
      ensures DisplayHeight() * s >= containerHeight ==> b.maxY - DisplayHeight() * s / 2.0 == -containerHeight / 2.0
      ensures DisplayHeight() * s <= containerHeight ==> b.maxY == 0.0
    {
      Bounds(AxisBound(DisplayWidth(), containerWidth, s),
             AxisBound(DisplayHeight(), containerHeight, s))
    }
  }

  /** One axis of the bound: half of what the scaled extent `d*s` exceeds
      the container extent `c` by, and 0 when it does not exceed it. */
  function AxisBound(d: real, c: real, s: real): (m: real)
    ensures m >= 0.0
    ensures d * s >= c ==> m - d * s / 2.0 == -c / 2.0
    ensures d * s <= c ==> m == 0.0
  {
    Max(0.0, (d * s - c) / 2.0)
  }

  lemma AxisBoundMonotone(d: real, c: real, s1: real, s2: real)
    requires d >= 0.0 && s1 <= s2
    ensures AxisBound(d, c, s1) <= AxisBound(d, c, s2)
  {
    assert d * s2 - d * s1 == d * (s2 - s1);
    assert d * (s2 - s1) >= 0.0;
  }

  /** Zooming in never shrinks the translate envelope. */
  lemma MaxTranslateMonotone(l: Layout, s1: real, s2: real)
    requires l.Valid() && s1 <= s2
    ensures l.MaxTranslate(s1).maxX <= l.MaxTranslate(s2).maxX
    ensures l.MaxTranslate(s1).maxY <= l.MaxTranslate(s2).maxY
  {
    AxisBoundMonotone(l.DisplayWidth(), l.containerWidth, s1, s2);
    AxisBoundMonotone(l.DisplayHeight(), l.containerHeight, s1, s2);
  }

  /** At scale 1 the image cannot move sideways, and the initial vertical
      offset is exactly the vertical bound: the initial pose is in bounds. */
  lemma InitialPoseInBounds(l: Layout)
    requires l.Valid()
    ensures l.MaxTranslate(1.0).maxX == 0.0
    ensures l.MaxTranslate(1.0).maxY == l.InitTranslateY()
  {
  }

  /** Within the bound, a scaled image that is larger than the container on an
      axis still covers the container on that axis: no empty border shows. */
  lemma InBoundsCoversContainer(l: Layout, s: real, tx: real, ty: real)
    requires l.Valid()
    requires -l.MaxTranslate(s).maxX <= tx <= l.MaxTranslate(s).maxX
    requires -l.MaxTranslate(s).maxY <= ty <= l.MaxTranslate(s).maxY
    ensures l.DisplayWidth() * s >= l.containerWidth ==>
              tx - l.DisplayWidth() * s / 2.0 <= -l.containerWidth / 2.0 &&
              l.containerWidth / 2.0 <= tx + l.DisplayWidth() * s / 2.0
    ensures l.DisplayHeight() * s >= l.containerHeight ==>
              ty - l.DisplayHeight() * s / 2.0 <= -l.containerHeight / 2.0 &&
              l.containerHeight / 2.0 <= ty + l.DisplayHeight() * s / 2.0
  {
  }

  /** A 400 x 800 container showing a 400 x 1200 image: the image is 1200
      high, starts 200 down, and its bounds at scales 3 and 2.5. */
  lemma TallImageExample()
    ensures var l := Layout(400.0, 1200.0, 400.0, 800.0);
            l.Valid() && l.DisplayWidth() == 400.0 && l.DisplayHeight() == 1200.0 &&
            l.InitTranslateY() == 200.0 &&
            l.MaxTranslate(3.0) == Bounds(400.0, 1400.0) &&
            l.MaxTranslate(2.5) == Bounds(300.0, 1100.0)
  {
  }
}
