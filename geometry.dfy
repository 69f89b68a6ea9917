/** The aspect-fit computation of script.js (`getDimmensions`): where and how
    large to draw an image on the canvas so that its aspect ratio is kept and
    it is centred on the axis it does not fill. Browser numbers are modelled
    as exact reals. */
module Geometry {

  /** The draw rectangle: its size and its top-left corner on the canvas. */
  datatype Rect = Rect(width: real, height: real, startX: real, startY: real)

  /** Portrait images (narrower than tall) are scaled to the canvas height,
      all others to the canvas width; the other axis is centred. */
  function GetDimensions(canvasWidth: real, canvasHeight: real, imageWidth: real, imageHeight: real): (r: Rect)
    requires canvasWidth > 0.0 && canvasHeight > 0.0 && imageWidth > 0.0 && imageHeight > 0.0
    // the image is scaled uniformly: its aspect ratio is kept
    ensures r.width * imageHeight == r.height * imageWidth
    ensures r.width > 0.0 && r.height > 0.0
    // centred on both axes
    ensures 2.0 * r.startX + r.width == canvasWidth
    ensures 2.0 * r.startY + r.height == canvasHeight
    // portrait: full height, flush with the top
    ensures imageWidth < imageHeight ==> r.height == canvasHeight && r.startY == 0.0
    // landscape or square: full width, flush with the left edge
    ensures imageHeight <= imageWidth ==> r.width == canvasWidth && r.startX == 0.0
  {
    var aspectRatio := imageWidth / imageHeight;
    RatioBelowOne(imageWidth, imageHeight);
    if aspectRatio < 1.0 then
      var width := canvasHeight * aspectRatio;
      Rect(width, canvasHeight, (canvasWidth - width) / 2.0, 0.0)
    else
      var height := canvasWidth / aspectRatio;
      Rect(canvasWidth, height, 0.0, (canvasHeight - height) / 2.0)
  }

  /** The ratio test of the source is the comparison of the two sides. */
  lemma RatioBelowOne(imageWidth: real, imageHeight: real)
    requires imageWidth > 0.0 && imageHeight > 0.0
    ensures imageWidth / imageHeight * imageHeight == imageWidth
    ensures imageWidth / imageHeight > 0.0
    ensures imageWidth / imageHeight < 1.0 <==> imageWidth < imageHeight
  {
    MulLeMono(1.0, imageWidth / imageHeight, imageHeight);
  }

  /** The rectangle lies inside a canvas of the given size. */
  predicate Fits(r: Rect, canvasWidth: real, canvasHeight: real) {
    0.0 <= r.startX && 0.0 <= r.startY &&
    r.startX + r.width <= canvasWidth && r.startY + r.height <= canvasHeight
  }

  /** The rectangle is the image scaled by `s`. */
  predicate ScaledBy(r: Rect, imageWidth: real, imageHeight: real, s: real) {
    r.width == imageWidth * s && r.height == imageHeight * s
  }

  /** The draw rectangle stays inside the canvas exactly when the canvas is
      at least as wide (portrait) or as tall (otherwise), relative to the
      image, as the axis that was filled. */
  lemma FitsExactlyWhen(canvasWidth: real, canvasHeight: real, imageWidth: real, imageHeight: real)
    requires canvasWidth > 0.0 && canvasHeight > 0.0 && imageWidth > 0.0 && imageHeight > 0.0
    ensures Fits(GetDimensions(canvasWidth, canvasHeight, imageWidth, imageHeight), canvasWidth, canvasHeight)
        <==> (if imageWidth < imageHeight then canvasHeight * imageWidth <= canvasWidth * imageHeight
              else canvasWidth * imageHeight <= canvasHeight * imageWidth)
  {
  }

  /** Multiplying by a positive factor keeps and reflects `<=`. */
  lemma MulLeMono(a: real, b: real, c: real)
    requires c > 0.0
    ensures a <= b <==> a * c <= b * c
  {
    if a <= b {
      assert b * c - a * c == (b - a) * c;
    } else {
      assert a * c - b * c == (a - b) * c;
    }
  }

  /** On a square canvas the image always fits. */
  lemma FitsSquareCanvas(side: real, imageWidth: real, imageHeight: real)
    requires side > 0.0 && imageWidth > 0.0 && imageHeight > 0.0
    ensures Fits(GetDimensions(side, side, imageWidth, imageHeight), side, side)
  {
  }

  /** The rectangle is the image scaled uniformly, by the canvas height over
      the image height (portrait) or the canvas width over the image width. */
  lemma UniformScale(canvasWidth: real, canvasHeight: real, imageWidth: real, imageHeight: real)
    requires canvasWidth > 0.0 && canvasHeight > 0.0 && imageWidth > 0.0 && imageHeight > 0.0
    ensures ScaledBy(GetDimensions(canvasWidth, canvasHeight, imageWidth, imageHeight), imageWidth, imageHeight,
                     if imageWidth < imageHeight then canvasHeight / imageHeight else canvasWidth / imageWidth)
  {
  }

  /** On a square canvas no larger uniform scaling of the image fits: the
      drawn image is as large as it can be. */
  lemma LargestOnSquareCanvas(side: real, imageWidth: real, imageHeight: real, s: real)
    requires side > 0.0 && imageWidth > 0.0 && imageHeight > 0.0
    requires imageWidth * s <= side && imageHeight * s <= side
    ensures imageWidth * s <= GetDimensions(side, side, imageWidth, imageHeight).width
    ensures imageHeight * s <= GetDimensions(side, side, imageWidth, imageHeight).height
  {
  }

  /** A landscape image of ratio 2 on a 400x400 canvas. */
  lemma LandscapeExample()
    ensures GetDimensions(400.0, 400.0, 200.0, 100.0) == Rect(400.0, 200.0, 0.0, 100.0)
  {
  }

  /** A portrait image of ratio 0.5 on a 400x400 canvas. */
  lemma PortraitExample()
    ensures GetDimensions(400.0, 400.0, 100.0, 200.0) == Rect(200.0, 400.0, 100.0, 0.0)
  {
  }

  /** Off a square canvas the rectangle can overflow: a portrait image of
      ratio 0.5 on a 100 wide, 400 tall canvas is drawn 200 wide. */
  lemma OverflowOnTallCanvas()
    ensures GetDimensions(100.0, 400.0, 100.0, 200.0) == Rect(200.0, 400.0, -50.0, 0.0)
    ensures !Fits(GetDimensions(100.0, 400.0, 100.0, 200.0), 100.0, 400.0)
  {
  }
}
