/**
 Aspect-ratio scaling of the share screen: the user photo is fitted into a
 1200-unit square for the postcard card, and the map snapshot is requested at
 the photo's aspect ratio with its longer edge at the canvas maximum less the
 border on both sides.
 */
module Scaling {
  import opened Geometry

  /** Longer edge of the finished postcard canvas. */
  const FinalImageMaxDimension: real := 2048.0
  /** Width of the plain frame around the map on the canvas. */
  const FinalImageBorderWidth: real := 4.0
  /** Longer edge of the photo drawn on the card. */
  const UserImageMaxDimension: real := 1200.0
  /** Longer edge requested for the map snapshot: the canvas maximum less a
      border on each side. */
  const MapImageMaxDimension: real := FinalImageMaxDimension - 2.0 * FinalImageBorderWidth

  /** The proportional edge can be computed: the edge it divides by is not
      zero. Among real image sizes only a zero-by-zero image fails this. */
  predicate Scalable(s: Size) {
    if s.width > s.height then s.width != 0.0 else s.height != 0.0
  }

  /** The size of a non-empty image: no negative edge and not zero by zero. */
  predicate IsImageSize(s: Size) {
    s.width >= 0.0 && s.height >= 0.0 && (s.width > 0.0 || s.height > 0.0)
  }

  /** The proportional length of an edge: maxDim times shorter over longer,
      computed in the order ShareViewController uses (multiply, then divide). */
  function Proportional(maxDim: real, shorter: real, longer: real): real
    requires longer != 0.0
  {
    maxDim * shorter / longer
  }

  /** Reference definition: r fits s into a square of side maxDim. The edge
      that is strictly longer decides the branch, so a square goes the same
      way as a portrait; that edge becomes maxDim and the other edge is the
      rounded proportional length. */
  ghost predicate FitsLongerEdge(s: Size, maxDim: real, r: Size)
    requires Scalable(s)
  {
    if s.width > s.height then
      r.width == maxDim && RoundsTo(Proportional(maxDim, s.height, s.width), r.height)
    else
      r.height == maxDim && RoundsTo(Proportional(maxDim, s.width, s.height), r.width)
  }

  /** The scaling shared by calculateMapImageSize and
      calculateUserImageFinalSize, for a given maximum edge. */
  function FitLongerEdge(s: Size, maxDim: real): (r: Size)
    requires Scalable(s)
    ensures FitsLongerEdge(s, maxDim, r)
  {
    if s.width > s.height then
      Size(maxDim, Round(Proportional(maxDim, s.height, s.width)))
    else
      Size(Round(Proportional(maxDim, s.width, s.height)), maxDim)
  }

  /** The reference definition admits only the size FitLongerEdge returns. */
  lemma FitLongerEdgeUnique(s: Size, maxDim: real, r: Size)
    requires Scalable(s)
    requires FitsLongerEdge(s, maxDim, r)
    ensures r == FitLongerEdge(s, maxDim)
  {
    if s.width > s.height {
      RoundUnique(Proportional(maxDim, s.height, s.width), r.height);
      assert r == Size(maxDim, r.height);
    } else {
      RoundUnique(Proportional(maxDim, s.width, s.height), r.width);
      assert r == Size(r.width, maxDim);
    }
  }

  /** A shorter-over-longer proportion of k stays between 0 and k. */
  lemma ProportionWithin(k: real, shorter: real, longer: real)
    requires 0.0 <= k
    requires 0.0 <= shorter <= longer && 0.0 < longer
    ensures 0.0 <= Proportional(k, shorter, longer) <= k
  {
    var p := k * shorter;
    assert 0.0 <= p <= k * longer;
    var q := p / longer;
    assert q * longer == p;
  }

  /** Fitting a non-empty image into a whole-numbered square: both edges lie
      in [0, maxDim], the longer one is maxDim exactly, and the result is
      never oriented against the image (it may become square by rounding). */
  lemma FitLongerEdgeBounds(s: Size, maxDim: real)
    requires IsImageSize(s)
    requires 0.0 <= maxDim && IsIntegral(maxDim)
    ensures 0.0 <= FitLongerEdge(s, maxDim).width <= maxDim
    ensures 0.0 <= FitLongerEdge(s, maxDim).height <= maxDim
    ensures Max(FitLongerEdge(s, maxDim).width, FitLongerEdge(s, maxDim).height) == maxDim
    ensures s.width >= s.height ==> FitLongerEdge(s, maxDim).width >= FitLongerEdge(s, maxDim).height
    ensures s.width <= s.height ==> FitLongerEdge(s, maxDim).width <= FitLongerEdge(s, maxDim).height
  {
    var r := FitLongerEdge(s, maxDim);
    assert IsIntegral(0.0) by { FloorUnique(0.0, 0); }
    if s.width > s.height {
      var x := Proportional(maxDim, s.height, s.width);
      ProportionWithin(maxDim, s.height, s.width);
      RoundWithin(x, 0.0, maxDim);
      assert r == Size(maxDim, Round(x));
    } else {
      var x := Proportional(maxDim, s.width, s.height);
      ProportionWithin(maxDim, s.width, s.height);
      RoundWithin(x, 0.0, maxDim);
      assert r == Size(Round(x), maxDim);
      if s.width == s.height {
        FitLongerEdgeSquare(s, maxDim);
      }
    }
  }

  /** A square image of any side scales to a maxDim-by-maxDim square. */
  lemma FitLongerEdgeSquare(s: Size, maxDim: real)
    requires s.width == s.height > 0.0
    requires IsIntegral(maxDim)
    ensures FitLongerEdge(s, maxDim) == Size(maxDim, maxDim)
  {
    var x := Proportional(maxDim, s.width, s.height);
    assert x == maxDim by {
      var p := maxDim * s.width;
      assert (p / s.height) * s.height == p;
    }
    assert RoundsTo(maxDim, maxDim);
    RoundUnique(maxDim, maxDim);
  }

  /** calculateUserImageFinalSize: the photo as drawn on the card. */
  function CalculateUserImageFinalSize(photo: Size): (r: Size)
    requires Scalable(photo)
    ensures FitsLongerEdge(photo, UserImageMaxDimension, r)
  {
    FitLongerEdge(photo, UserImageMaxDimension)
  }

  /** calculateMapImageSize: the size requested for the map snapshot. It is
      computed from the user photo, so the map takes the photo's aspect. */
  function CalculateMapImageSize(photo: Size): (r: Size)
    requires Scalable(photo)
    ensures FitsLongerEdge(photo, MapImageMaxDimension, r)
  {
    FitLongerEdge(photo, MapImageMaxDimension)
  }

  /** The photo on the card has its longer edge at exactly 1200 and neither
      edge beyond it. */
  lemma UserImageFinalSizeBounds(photo: Size)
    requires IsImageSize(photo)
    ensures var r := CalculateUserImageFinalSize(photo);
      && 0.0 <= r.width <= UserImageMaxDimension
      && 0.0 <= r.height <= UserImageMaxDimension
      && Max(r.width, r.height) == UserImageMaxDimension
  {
    assert IsIntegral(UserImageMaxDimension) by { FloorUnique(1200.0, 1200); }
    FitLongerEdgeBounds(photo, UserImageMaxDimension);
  }

  /** The map snapshot is requested with its longer edge at exactly 2040 and
      neither edge beyond it. */
  lemma MapImageSizeBounds(photo: Size)
    requires IsImageSize(photo)
    ensures MapImageMaxDimension == 2040.0
    ensures var r := CalculateMapImageSize(photo);
      && 0.0 <= r.width <= MapImageMaxDimension
      && 0.0 <= r.height <= MapImageMaxDimension
      && Max(r.width, r.height) == MapImageMaxDimension
  {
    assert IsIntegral(MapImageMaxDimension) by { FloorUnique(2040.0, 2040); }
    FitLongerEdgeBounds(photo, MapImageMaxDimension);
  }

  /** The worked sizes: a 4000 by 2000 landscape gives 1200 by 600 and a
      1000 by 2000 portrait 600 by 1200. */
  lemma UserImageFinalSizeExamples()
    ensures CalculateUserImageFinalSize(Size(4000.0, 2000.0)) == Size(1200.0, 600.0)
    ensures CalculateUserImageFinalSize(Size(1000.0, 2000.0)) == Size(600.0, 1200.0)
  {
    assert RoundsTo(600.0, 600.0) by { FloorUnique(600.0, 600); }
    RoundUnique(600.0, 600.0);
  }
}
