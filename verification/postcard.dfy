/**
 The postcard composed by the share screen (generateFinalImage): the canvas
 and the rectangles everything is drawn into, and the two lines of text. The
 card, the photo and the text are drawn after the context is rotated by -4
 degrees; their rectangles are given in that rotated frame, as
 ShareViewController draws them.
 */
module Postcard {
  import opened Geometry
  import opened Scaling
  import opened Text

  /** Width of the white card around the photo, and its shadow offset. */
  const UserImageBorderWidth: real := 20.0
  /** Top-left corner of the card. */
  const UserImageX: real := 100.0
  const UserImageY: real := 160.0
  /** Span, in metres, of the map region around the user. */
  const MapRegionDistance: real := 600.0
  /** Rotation applied before the card, photo and text are drawn. */
  const RotateContentByDegrees: real := -4.0
  /** Canvas width not available to the text boxes. */
  const TextMargin: real := 280.0
  /** Gap from the photo's bottom edge to the caption. */
  const UserMessageTopMargin: real := 60.0
  /** Distance from the photo's bottom edge to the name line, not counting
      the caption's measured height. */
  const UserNameTopMargin: real := 80.0
  /** Height of the band the name line is drawn in. */
  const UserNameHeight: real := 120.0

  /** A length that text measurement returns: never negative. */
  type Extent = r: real | 0.0 <= r

  /** Where each layer of the postcard goes, and the text it shows. */
  datatype Layout = Layout(
    canvas: Size,
    background: Rect,
    mapFrame: Rect,
    overlay: Rect,
    card: Rect,
    photoFrame: Rect,
    caption: string,
    captionBox: Rect,
    nameLine: string,
    nameBand: Rect)

  /** generateFinalImage without the drawing. `measure` stands for
      sizeOfString: the height the text needs when wrapped to the given width
      in the caption font. `longDate` is today's date in the long style. */
  function GenerateFinalLayout(
    photo: Size, mapImage: Size,
    message: string, name: string, longDate: string, location: string,
    measure: (string, real) -> Extent): (l: Layout)
    requires Scalable(photo)
    // background, map and dimming overlay
    ensures l.background == Rect(0.0, 0.0, l.canvas.width, l.canvas.height)
    ensures l.mapFrame.Extent() == mapImage
    ensures InsetBy(l.background, l.mapFrame, FinalImageBorderWidth)
    ensures l.overlay == l.mapFrame
    // card and photo
    ensures l.card.x == UserImageX && l.card.y == UserImageY
    ensures l.photoFrame.Extent() == CalculateUserImageFinalSize(photo)
    ensures InsetBy(l.card, l.photoFrame, UserImageBorderWidth)
    // caption, measured at the width it is drawn at
    ensures l.caption == TruncateMessage(message)
    ensures l.captionBox.x == l.photoFrame.x
    ensures BelowBy(l.photoFrame, l.captionBox, UserMessageTopMargin)
    ensures l.captionBox.width == l.canvas.width - TextMargin
    ensures l.captionBox.height == measure(l.caption, l.captionBox.width)
    // name, date and location
    ensures l.nameLine == NameLine(name, longDate, location)
    ensures l.nameBand.x == l.captionBox.x
    ensures BelowBy(l.captionBox, l.nameBand, UserNameTopMargin - UserMessageTopMargin)
    ensures l.nameBand.width == l.captionBox.width
    ensures l.nameBand.height == UserNameHeight
  {
    var size := Size(mapImage.width + 2.0 * FinalImageBorderWidth, mapImage.height + 2.0 * FinalImageBorderWidth);
    var userImageSize := CalculateUserImageFinalSize(photo);
    var bgRectangle := Rect(0.0, 0.0, mapImage.width + 2.0 * FinalImageBorderWidth, mapImage.height + 2.0 * FinalImageBorderWidth);
    var mapRect := Rect(FinalImageBorderWidth, FinalImageBorderWidth, mapImage.width, mapImage.height);
    var transparentRectangle := Rect(FinalImageBorderWidth, FinalImageBorderWidth, mapImage.width, mapImage.height);
    var rectangle := Rect(UserImageX, UserImageY,
      userImageSize.width + 2.0 * UserImageBorderWidth, userImageSize.height + 2.0 * UserImageBorderWidth);
    var imageRect := Rect(UserImageX + UserImageBorderWidth, UserImageY + UserImageBorderWidth,
      userImageSize.width, userImageSize.height);
    var truncatedMessage := TruncateMessage(message);
    var messageHeight := measure(truncatedMessage, size.width - TextMargin);
    var messageRect := Rect(UserImageX + UserImageBorderWidth,
      UserImageY + UserImageBorderWidth + userImageSize.height + UserMessageTopMargin,
      size.width - TextMargin, messageHeight);
    var nameRect := Rect(UserImageX + UserImageBorderWidth,
      UserImageY + UserImageBorderWidth + userImageSize.height + messageHeight + UserNameTopMargin,
      size.width - TextMargin, UserNameHeight);
    Layout(size, bgRectangle, mapRect, transparentRectangle, rectangle, imageRect,
      truncatedMessage, messageRect, NameLine(name, longDate, location), nameRect)
  }

  /** The canvas is the snapshot plus a border on each side; the map and the
      overlay sit strictly inside it, and the photo strictly inside its card. */
  lemma LayersNest(
    photo: Size, mapImage: Size,
    message: string, name: string, longDate: string, location: string,
    measure: (string, real) -> Extent)
    requires Scalable(photo)
    ensures var l := GenerateFinalLayout(photo, mapImage, message, name, longDate, location, measure);
      && l.canvas == Size(mapImage.width + 8.0, mapImage.height + 8.0)
      && StrictlyInside(l.background, l.mapFrame)
      && StrictlyInside(l.background, l.overlay)
      && StrictlyInside(l.card, l.photoFrame)
  {
    var l := GenerateFinalLayout(photo, mapImage, message, name, longDate, location, measure);
    InsetIsStrictlyInside(l.background, l.mapFrame, FinalImageBorderWidth);
    InsetIsStrictlyInside(l.card, l.photoFrame, UserImageBorderWidth);
  }

  /** Top to bottom: the card, then the caption 40 below it, then the name
      band 20 below the caption, none overlapping another, whatever height
      the caption measures. */
  lemma BlocksStackDownward(
    photo: Size, mapImage: Size,
    message: string, name: string, longDate: string, location: string,
    measure: (string, real) -> Extent)
    requires Scalable(photo)
    ensures var l := GenerateFinalLayout(photo, mapImage, message, name, longDate, location, measure);
      && l.photoFrame.Bottom() < l.card.Bottom() < l.captionBox.y
      && l.captionBox.y == l.card.Bottom() + 40.0
      && l.captionBox.y <= l.captionBox.Bottom() < l.nameBand.y
      && l.nameBand.y == l.captionBox.Bottom() + 20.0
  {
  }

  /** When the snapshot has the size requested for the photo, the canvas's
      longer edge is exactly 2048 and neither edge exceeds it; for a photo
      at least as wide as tall the text boxes are 1768 wide. */
  lemma CanvasOfRequestedMap(
    photo: Size,
    message: string, name: string, longDate: string, location: string,
    measure: (string, real) -> Extent)
    requires IsImageSize(photo)
    ensures var l := GenerateFinalLayout(photo, CalculateMapImageSize(photo), message, name, longDate, location, measure);
      && 8.0 <= l.canvas.width <= FinalImageMaxDimension
      && 8.0 <= l.canvas.height <= FinalImageMaxDimension
      && Max(l.canvas.width, l.canvas.height) == FinalImageMaxDimension
      && (photo.width >= photo.height ==> l.captionBox.width == 1768.0)
  {
    MapImageSizeBounds(photo);
    if photo.width == photo.height {
      assert IsIntegral(MapImageMaxDimension) by { FloorUnique(2040.0, 2040); }
      FitLongerEdgeSquare(photo, MapImageMaxDimension);
    }
  }

  /** Nothing keeps the text boxes a usable width: a 100 by 1000 photo gets
      a 204-wide map, a 212-wide canvas and text boxes of width -68. */
  lemma NarrowPhotoLeavesNoTextWidth(
    message: string, name: string, longDate: string, location: string,
    measure: (string, real) -> Extent)
    ensures var photo := Size(100.0, 1000.0);
      var l := GenerateFinalLayout(photo, CalculateMapImageSize(photo), message, name, longDate, location, measure);
      && l.canvas == Size(212.0, 2048.0)
      && l.captionBox.width == -68.0
      && l.nameBand.width < 0.0
  {
    assert Proportional(MapImageMaxDimension, 100.0, 1000.0) == 204.0;
    assert RoundsTo(204.0, 204.0) by { FloorUnique(204.0, 204); }
    RoundUnique(204.0, 204.0);
  }

  /** The landscape example: a 4000 by 2000 photo with a 150-character
      caption by "Alex" in "California, USA" on a 1700 by 1100 snapshot. */
  lemma LandscapeExample(caption: string, longDate: string, measure: (string, real) -> Extent)
    requires |caption| == 150
    ensures var l := GenerateFinalLayout(Size(4000.0, 2000.0), Size(1700.0, 1100.0),
        caption, "Alex", longDate, "California, USA", measure);
      && l.canvas == Size(1708.0, 1108.0)
      && l.photoFrame.Extent() == Size(1200.0, 600.0)
      && l.caption == caption[..100]
      && l.nameLine == "Alex - " + longDate + ", California, USA"
  {
    UserImageFinalSizeExamples();
    assert "Alex" + NameSeparator == "Alex - ";
    assert ListSeparator + "California, USA" == ", California, USA";
    assert NameLine("Alex", longDate, "California, USA")
        == ("Alex" + NameSeparator) + longDate + (ListSeparator + "California, USA");
  }

  /** The portrait example: a 1000 by 2000 photo with no author name. */
  lemma PortraitExample(
    mapImage: Size, caption: string, longDate: string, location: string,
    measure: (string, real) -> Extent)
    ensures var l := GenerateFinalLayout(Size(1000.0, 2000.0), mapImage,
        caption, "", longDate, location, measure);
      && l.photoFrame.Extent() == Size(600.0, 1200.0)
      && l.nameLine == longDate + ", " + location
  {
    UserImageFinalSizeExamples();
  }
}
