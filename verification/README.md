# PicTravel postcard layout, in Dafny

PicTravel's share screen (`ShareViewController`) turns a user photo, a caption,
an author name, a reverse-geocoded place name and a map snapshot into one
"postcard" bitmap. This project models the part of that screen that is pure
arithmetic and text handling. It covers:

- how the photo and the requested map snapshot are scaled;
- the canvas and the rectangles every layer is drawn into (background, map,
  dimming overlay, card, photo, caption box and name band);
- the caption's character budget;
- the name/date/location line;
- the location label built from the geocoded placemark.

Drawing, location services, geocoding and the snapshotter are left out. Only
their results appear, as values.

Modules:

- `Geometry` (geometry.dfy): `Size` and `Rect` over exact reals (for
  CGFloat), and Swift's `round`. `Round` is modelled in full, with ties going
  away from zero. `RoundsTo` is its independent characterisation.
- `Scaling` (scaling.dfy): the layout constants for the canvas and the photo,
  plus `FitLongerEdge`. This is the one scaling rule behind both
  `calculateMapImageSize` and `calculateUserImageFinalSize`. `FitsLongerEdge`
  is its reference definition.
- `Text` (text.dfy): caption truncation, the name line, and the location
  string built from `placemarks?[0]`. A `char` stands for one Swift `Character` (a grapheme
  cluster), so the caption's length counts characters the way
  `distance(from:to:)` does.
- `Postcard` (postcard.dfy): the remaining constants and `GenerateFinalLayout`,
  which is `generateFinalImage` without the pixels. Text measurement
  (`sizeOfString`) is a function parameter returning a non-negative `Extent`.
  The long-style date is a string parameter. `GenerateFinalLayout` is a
  function, so identical inputs, including the date, give an identical
  layout.

Points where the model follows the code closely:

- The map snapshot is sized from the user photo. `calculateMapImageSize`
  reads `image.size`, so the map takes the photo's aspect ratio and is pinned
  on the same axis.
- The canvas comes from the snapshot's actual size, so `GenerateFinalLayout`
  takes that size as an input.
- `CanvasOfRequestedMap` states what happens when the snapshot comes back at
  the requested size.
- Card, photo and text rectangles are stated in the frame rotated by -4
  degrees, as ShareViewController draws them.
- `NarrowPhotoLeavesNoTextWidth` shows that nothing keeps the text boxes
  usable for very narrow portrait photos. A 100 by 1000 photo gives text
  boxes of width -68.

## Model

| member | source | states |
|---|---|---|
| Geometry.Round | PicTravel/ShareViewController.swift:212 | the value is the nearest whole number to x, a tie going away from zero, and it is non-negative for non-negative x |
| Geometry.RoundUnique | PicTravel/ShareViewController.swift:212 | any whole number within the rounding interval of x is `Round(x)`: the characterisation has exactly one solution |
| Scaling.FitLongerEdge | PicTravel/ShareViewController.swift:210-216 | the strictly longer edge (the height for a square) becomes maxDim and the other edge is the rounded proportional length; defined whenever the divisor is non-zero |
| Scaling.FitLongerEdgeUnique | PicTravel/ShareViewController.swift:210-216 | every size meeting the reference definition is the one the scaling returns |
| Scaling.FitLongerEdgeBounds | PicTravel/ShareViewController.swift:210-216 | for a non-empty image and a whole maxDim, both edges lie in [0, maxDim], the larger is exactly maxDim, and the result is never oriented against the image |
| Scaling.FitLongerEdgeSquare | PicTravel/ShareViewController.swift:211-214 | a square image of any side takes the else branch and becomes maxDim by maxDim |
| Scaling.CalculateUserImageFinalSize | PicTravel/ShareViewController.swift:210-216 | the photo size on the card fits the reference definition with maximum edge 1200 |
| Scaling.CalculateMapImageSize | PicTravel/ShareViewController.swift:117-124 | the requested snapshot size fits the reference definition with maximum edge 2048 - 2 * 4, computed from the user photo |
| Scaling.UserImageFinalSizeBounds | PicTravel/ShareViewController.swift:210-216 | for any non-empty photo, the longer edge is exactly 1200 and neither edge leaves [0, 1200] |
| Scaling.MapImageSizeBounds | PicTravel/ShareViewController.swift:117-124 | the snapshot maximum is 2040, and for any non-empty photo the requested longer edge is exactly 2040 and neither edge leaves [0, 2040] |
| Scaling.UserImageFinalSizeExamples | PicTravel/ShareViewController.swift:211-215 | 4000 by 2000 gives 1200 by 600, and 1000 by 2000 gives 600 by 1200 |
| Text.TruncateMessage | PicTravel/ShareViewController.swift:169-172 | the drawn caption is a prefix of the message of length min(L, 100) |
| Text.TruncateKeepsShortMessages | PicTravel/ShareViewController.swift:170 | the caption is the message unchanged exactly when the message has at most 100 characters |
| Text.TruncateBoundary | PicTravel/ShareViewController.swift:170-171 | 100 characters are kept whole; 101 are cut to the first 100, which differs from the message |
| Text.TruncateIdempotent | PicTravel/ShareViewController.swift:169-172 | truncating an already truncated caption changes nothing |
| Text.NameLine | PicTravel/ShareViewController.swift:191-196 | a non-empty name is followed by " - "; with an empty name the line starts with the date; the line always ends with ", " + location; the date follows the name part; the length is the sum of the parts |
| Text.AuthorOfNameLine | PicTravel/ShareViewController.swift:191-196 | the author name, empty or not, is recovered from the line given the date and location |
| Text.NameLineInjective | PicTravel/ShareViewController.swift:191-196 | for a fixed date and location, different authors give different lines |
| Text.LocationString | PicTravel/ShareViewController.swift:87-88 | with no placemark list the location string is the bare ", "; otherwise it is the first placemark's area text (or ""), then ", ", then its country text (or "") |
| Text.LocationLabel | PicTravel/ShareViewController.swift:88 | the label is the area text, then ", ", then the country text, with a missing field or placemark contributing "" |
| Text.LocationLabelMissingFields | PicTravel/ShareViewController.swift:88 | a missing placemark or two missing fields give the bare ", "; one missing field leaves only the other beside the separator |
| Text.AreaFromLabel | PicTravel/ShareViewController.swift:88 | given the country, the area text is recovered from the label |
| Postcard.GenerateFinalLayout | PicTravel/ShareViewController.swift:126-197 | the background is the canvas; the map and overlay have the snapshot's size and sit inset by 4 on every side; the card sits at (100, 160) with the photo inset by 20; the caption is the truncated message, 60 below the photo, measured at the width it is drawn at (canvas width - 280); the name band shows the name line, 20 below the caption box, 120 high, as wide as the caption box |
| Postcard.LayersNest | PicTravel/ShareViewController.swift:127-166 | the canvas is the snapshot plus 8 on each axis; map and overlay lie strictly inside it, and the photo strictly inside its card |
| Postcard.BlocksStackDownward | PicTravel/ShareViewController.swift:157-197 | photo bottom < card bottom < caption top (40 below the card), and caption bottom < name band top (20 below), for any measured caption height |
| Postcard.CanvasOfRequestedMap | PicTravel/ShareViewController.swift:117-127 | with the snapshot at its requested size, both canvas edges lie in [8, 2048] and the longer is exactly 2048; a photo at least as wide as tall gets 1768-wide text boxes |
| Postcard.NarrowPhotoLeavesNoTextWidth | PicTravel/ShareViewController.swift:178-179 | a 100 by 1000 photo gives a 212 by 2048 canvas and text boxes of negative width |
| Postcard.LandscapeExample | PicTravel/ShareViewController.swift:127-193 | 4000 by 2000 photo, 1700 by 1100 snapshot, 150-character caption by "Alex" in "California, USA": canvas 1708 by 1108, photo 1200 by 600, caption its first 100 characters, line "Alex - date, California, USA" |
| Postcard.PortraitExample | PicTravel/ShareViewController.swift:191-214 | 1000 by 2000 photo with no author: photo 600 by 1200 and a line with no name prefix |

## Left out

- Location permission, `CLLocationManager` callbacks and the error alerts (lines 52-75, 77-79): platform I/O and UI.
- Reverse geocoding and `MKMapSnapshotter` (lines 82-86, 94-115): asynchronous platform calls. Only their results are modelled, as an optional placemark list and a snapshot size. `MapRegionDistance` is recorded as a constant only.
- Pixel drawing (lines 131-163, 179, 197-203): fills, colours, the 0.3 alpha overlay, the shadow, image and text drawing, and the bitmap grab. These are CoreGraphics side effects, and only their rectangles are modelled.
- The -4 degree rotation at line 154: a transform of the drawing context. The rectangles are stated in the rotated frame, and `RotateContentByDegrees` is recorded only.
- `sizeOfString` (lines 218-223): CoreText measurement is a parameter returning a non-negative length. Font loading (lines 173, 182) is left out, and a missing font would trap.
- `DateFormatter` and `Date()` (lines 187-189): the long-style date is a string parameter.
- IEEE floating point: CGFloat arithmetic is exact real arithmetic. NaN, infinities and rounding of intermediate products are not modelled.
- Scaling.FitLongerEdge: a zero-by-zero photo would divide by zero and give NaN; the precondition `Scalable` excludes exactly the cases whose divisor is zero.
- Text.NameLine, Text.TruncateMessage, Postcard.GenerateFinalLayout: `name`, `message`, `image` (line 18) and `mapImage` (line 23) are implicitly unwrapped optionals in ShareViewController. A nil value would trap; in particular a nil snapshot image stored at line 110 traps at line 127. The model takes plain strings and plain `Size` values.
- Text.FirstPlacemark: a geocoder result that is a present but empty placemark list makes `placemarks?[0]` trap; the precondition excludes it, as does that of Text.LocationString.
- Text.NameLine, Text.LocationLabel, Text.LocationString: the length clauses count the characters of the parts. Swift can merge grapheme clusters across a concatenation, for example a name ending in a prepend character such as U+0600 fuses with the following space. So these lengths describe the model and may differ from the joined Swift `String`'s `count`.
- The share sheet (lines 231-235) and the view lifecycle methods: UI.
