/**
  `processImageWithTemplate` of services/imageService.ts as a pure function: the canvas
  calls it makes, in order, as a list of drawing operations with exact real coordinates.
  The twenty decorative circles use `Math.random()`; its sixty values are passed in.
*/
module Compositor {
  import opened Wrappers

  /** The output canvas, a portrait post. */
  const CanvasWidth: nat := 1080
  const CanvasHeight: nat := 1350

  /** The decorative layer. */
  const CircleCount: nat := 20
  const MinRadius: real := 20.0
  const RadiusSpread: real := 50.0

  /** The square the user's photo is drawn into: horizontally centred, 150 from the top. */
  const PhotoSide: real := 900.0
  const PhotoX: real := (CanvasWidth as real - PhotoSide) / 2.0
  const PhotoY: real := 150.0

  /** The white backing panel reaches 20 beyond the photo on the top, left and right, and
      180 - 20 = 160 below it to hold the captions. */
  const FrameMargin: real := 20.0
  const FrameExtraHeight: real := 180.0

  /** Caption baselines below the photo's bottom edge. */
  const TitleDrop: real := 80.0
  const SubtitleDrop: real := 130.0

  /** Colours and fonts, as the canvas receives them. */
  const Amber := "#F59E0B"
  const Red := "#EF4444"
  const White := "#FFFFFF"
  const DarkGray := "#1F2937"
  const CircleFill := "rgba(255, 255, 255, 0.1)"
  const Taco := "\U{1F32E}"
  const Centred := "center"

  datatype Rect = Rect(x: real, y: real, w: real, h: real)

  datatype Paint = VerticalGradient(top: string, bottom: string) | Solid(color: string)

  datatype DrawOp =
    | FillRect(area: Rect, paint: Paint)
    | Circle(cx: real, cy: real, radius: real, paint: Paint)
    | DrawImage(src: Rect, dst: Rect)
    | Text(str: string, x: real, y: real, font: string, align: string, paint: Paint)

  /** The finished canvas before encoding: its size and everything drawn on it. */
  datatype Composite = Composite(width: nat, height: nat, ops: seq<DrawOp>)

  /** The decoded user image, of which only the size matters to the drawing. */
  datatype ImageSize = ImageSize(width: nat, height: nat)

  /** Why the returned promise rejects: no 2D context, or the image did not decode. */
  datatype CompositeError = NoContext | DecodeFailed

  /** `inner` lies within `outer`. */
  predicate Within(inner: Rect, outer: Rect) {
    && outer.x <= inner.x && inner.x + inner.w <= outer.x + outer.w
    && outer.y <= inner.y && inner.y + inner.h <= outer.y + outer.h
  }

  function CanvasRect(): Rect {
    Rect(0.0, 0.0, CanvasWidth as real, CanvasHeight as real)
  }

  /** What `Math.random()` can return: sixty values in [0, 1), three per circle. */
  predicate ValidRandoms(u: seq<real>) {
    |u| == 3 * CircleCount && forall i :: 0 <= i < |u| ==> 0.0 <= u[i] < 1.0
  }

  /** The largest centred square of the input image: its side is the smaller dimension and
      the leftover of the larger one is split evenly on both sides. */
  function CenterCrop(size: ImageSize): (r: Rect)
    ensures r.w == r.h
    ensures r.w <= size.width as real && r.w <= size.height as real
    ensures r.w == size.width as real || r.w == size.height as real
    ensures 2.0 * r.x + r.w == size.width as real && 2.0 * r.y + r.h == size.height as real
    ensures r.x == 0.0 || r.y == 0.0
    ensures Within(r, Rect(0.0, 0.0, size.width as real, size.height as real))
  {
    var w := size.width as real;
    var h := size.height as real;
    var minDim := if w < h then w else h;
    Rect((w - minDim) / 2.0, (h - minDim) / 2.0, minDim, minDim)
  }

  /** The rectangle the photo is drawn into. */
  function PhotoRect(): (r: Rect)
    ensures r.w == r.h == PhotoSide
    ensures 2.0 * r.x + r.w == CanvasWidth as real
    ensures Within(r, CanvasRect())
  {
    Rect(PhotoX, PhotoY, PhotoSide, PhotoSide)
  }

  /** The white backing panel behind the photo. */
  function FrameRect(): (r: Rect)
    ensures Within(PhotoRect(), r) && Within(r, CanvasRect())
    ensures 2.0 * r.x + r.w == CanvasWidth as real
  {
    Rect(PhotoX - FrameMargin, PhotoY - FrameMargin, PhotoSide + 2.0 * FrameMargin, PhotoSide + FrameExtraHeight)
  }

  /** The twenty translucent circles: the `i`-th draws its centre and radius from the random
      values `3i`, `3i + 1` and `3i + 2`. */
  function Circles(u: seq<real>): (r: seq<DrawOp>)
    requires ValidRandoms(u)
    ensures |r| == CircleCount
    ensures forall i :: 0 <= i < |r| ==> r[i].Circle? && r[i].paint == Solid(CircleFill)
    ensures forall i :: 0 <= i < |r| ==>
              && 0.0 <= r[i].cx < CanvasWidth as real
              && 0.0 <= r[i].cy < CanvasHeight as real
              && MinRadius <= r[i].radius < MinRadius + RadiusSpread
  {
    seq(CircleCount, i requires 0 <= i < CircleCount =>
      Circle(u[3 * i] * CanvasWidth as real, u[3 * i + 1] * CanvasHeight as real,
             u[3 * i + 2] * RadiusSpread + MinRadius, Solid(CircleFill)))
  }

  /** The two caption lines, centred under the photo, then the two taco stickers near the
      top corners. The canvas keeps its last text alignment and fill, so the stickers are
      centred on their anchors too and keep the red fill of the subtitle. */
  function Captions(): seq<DrawOp> {
    var centre := CanvasWidth as real / 2.0;
    var bottom := PhotoY + PhotoSide;
    [ Text("TACO TUESDAY", centre, bottom + TitleDrop, "bold 60px sans-serif", Centred, Solid(DarkGray)),
      Text("#TacoLife", centre, bottom + SubtitleDrop, "italic 30px sans-serif", Centred, Solid(Red)),
      Text(Taco, CanvasWidth as real - 150.0, 140.0, "100px serif", Centred, Solid(Red)),
      Text(Taco, 150.0, 140.0, "100px serif", Centred, Solid(Red)) ]
  }

  /** Positions in the drawing list. */
  const BackgroundIndex: nat := 0
  const FrameIndex: nat := 1 + CircleCount
  const PhotoIndex: nat := FrameIndex + 1
  const TitleIndex: nat := PhotoIndex + 1
  const SubtitleIndex: nat := TitleIndex + 1
  const RightStickerIndex: nat := SubtitleIndex + 1
  const LeftStickerIndex: nat := RightStickerIndex + 1
  const OpCount: nat := LeftStickerIndex + 1

  /** Everything drawn on a successful run, in painting order: background, circles, frame,
      photo, captions and stickers. */
  function Layers(size: ImageSize, u: seq<real>): seq<DrawOp>
    requires ValidRandoms(u)
  {
    [FillRect(CanvasRect(), VerticalGradient(Amber, Red))]
    + Circles(u)
    + [FillRect(FrameRect(), Solid(White)), DrawImage(CenterCrop(size), PhotoRect())]
    + Captions()
  }

  /** The captions are centre-aligned on the canvas's vertical midline, below the photo and
      inside the frame, the subtitle under the title; the two stickers are the same taco,
      drawn alike, above the photo and mirrored about the midline. */
  lemma CaptionLayout()
    ensures var r := Captions();
      && |r| == 4
      && (forall i :: 0 <= i < |r| ==> r[i].Text? && r[i].align == Centred)
      && r[0].x == r[1].x == CanvasWidth as real / 2.0
      && PhotoY + PhotoSide < r[0].y < r[1].y < FrameRect().y + FrameRect().h
      && r[2].str == r[3].str == Taco && r[2].font == r[3].font && r[2].paint == r[3].paint
      && r[2].y == r[3].y < PhotoY && r[2].x + r[3].x == CanvasWidth as real && r[3].x < r[2].x
  {
  }

  /** The painting order, position by position: the background first over the whole canvas,
      then exactly the circle slots, the frame as the only other filled rectangle, the one
      image draw holding the centred crop in the photo box, and text in every later position,
      on top of everything. */
  lemma PaintingOrder(size: ImageSize, u: seq<real>)
    requires ValidRandoms(u)
    ensures var r := Layers(size, u);
      && |r| == OpCount
      && r[BackgroundIndex] == FillRect(CanvasRect(), VerticalGradient(Amber, Red))
      && r[FrameIndex] == FillRect(FrameRect(), Solid(White))
      && r[PhotoIndex] == DrawImage(CenterCrop(size), PhotoRect())
      && (forall i :: 0 <= i < |r| ==>
            && (r[i].FillRect? <==> i == BackgroundIndex || i == FrameIndex)
            && (r[i].Circle? <==> BackgroundIndex < i < FrameIndex)
            && (r[i].DrawImage? <==> i == PhotoIndex)
            && (r[i].Text? <==> PhotoIndex < i))
  {
  }

  /** `processImageWithTemplate`: without a 2D context it rejects before loading the image;
      an image that fails to decode rejects; otherwise it resolves with the drawn canvas. */
  function ProcessImageWithTemplate(hasContext: bool, image: Option<ImageSize>, u: seq<real>)
    : (r: Result<Composite, CompositeError>)
    requires ValidRandoms(u)
    ensures !hasContext ==> r == Failure(NoContext)
    ensures hasContext && image.None? ==> r == Failure(DecodeFailed)
    ensures r.Success? <==> hasContext && image.Some?
    ensures r.Success? ==> r.value.width == 1080 && r.value.height == 1350
  {
    if !hasContext then Failure(NoContext)
    else match image
      case None => Failure(DecodeFailed)
      case Some(size) => Success(Composite(CanvasWidth, CanvasHeight, Layers(size, u)))
  }

  /** The number of circles in a drawing list. */
  function CountCircles(ops: seq<DrawOp>): nat
    decreases |ops|
  {
    if ops == [] then 0 else (if ops[0].Circle? then 1 else 0) + CountCircles(ops[1..])
  }

  lemma {:induction false} CountCirclesAppend(a: seq<DrawOp>, b: seq<DrawOp>)
    ensures CountCircles(a + b) == CountCircles(a) + CountCircles(b)
    decreases |a|
  {
    if a == [] {
      assert a + b == b;
    } else {
      assert (a + b)[0] == a[0];
      assert (a + b)[1..] == a[1..] + b;
      CountCirclesAppend(a[1..], b);
    }
  }

  /** A list whose every element is a circle counts all of its elements. */
  lemma {:induction false} CountCirclesAll(ops: seq<DrawOp>)
    requires forall i :: 0 <= i < |ops| ==> ops[i].Circle?
    ensures CountCircles(ops) == |ops|
    decreases |ops|
  {
    if ops != [] {
      CountCirclesAll(ops[1..]);
    }
  }

  /** A list without circles counts none. */
  lemma {:induction false} CountCirclesNone(ops: seq<DrawOp>)
    requires forall i :: 0 <= i < |ops| ==> !ops[i].Circle?
    ensures CountCircles(ops) == 0
    decreases |ops|
  {
    if ops != [] {
      CountCirclesNone(ops[1..]);
    }
  }

  /** The drawing list holds exactly twenty circles, whatever the input image. */
  lemma LayersHaveTwentyCircles(size: ImageSize, u: seq<real>)
    requires ValidRandoms(u)
    ensures CountCircles(Layers(size, u)) == CircleCount
  {
    var head := [FillRect(CanvasRect(), VerticalGradient(Amber, Red))];
    var tail := [FillRect(FrameRect(), Solid(White)), DrawImage(CenterCrop(size), PhotoRect())] + Captions();
    assert Layers(size, u) == head + Circles(u) + tail;
    CountCirclesAppend(head + Circles(u), tail);
    CountCirclesAppend(head, Circles(u));
    CountCirclesAll(Circles(u));
    CountCirclesNone(head);
    CountCirclesNone(tail);
  }

  /** Every successful output is drawn with exactly twenty circles. */
  lemma ExactlyTwentyCircles(hasContext: bool, image: Option<ImageSize>, u: seq<real>)
    requires ValidRandoms(u)
    requires ProcessImageWithTemplate(hasContext, image, u).Success?
    ensures CountCircles(ProcessImageWithTemplate(hasContext, image, u).value.ops) == CircleCount
  {
    LayersHaveTwentyCircles(image.value, u);
  }

  /** The geometry of a successful output: the background covers the canvas, the circles
      sit in their slots, the photo inset is the centred crop of the input drawn into the
      900-square at (90, 150), the frame holds the photo inside the canvas, the captions
      sit centred at 1130 and 1180 within the frame, and the stickers are centred on
      (930, 140) and (150, 140). */
  lemma Geometry(hasContext: bool, image: Option<ImageSize>, u: seq<real>)
    requires ValidRandoms(u)
    requires ProcessImageWithTemplate(hasContext, image, u).Success?
    ensures var ops := ProcessImageWithTemplate(hasContext, image, u).value.ops;
      && |ops| == OpCount
      && ops[BackgroundIndex] == FillRect(Rect(0.0, 0.0, 1080.0, 1350.0), VerticalGradient(Amber, Red))
      && (forall i :: 1 <= i < FrameIndex ==> ops[i].Circle?)
      && ops[FrameIndex] == FillRect(Rect(70.0, 130.0, 940.0, 1080.0), Solid(White))
      && ops[PhotoIndex] == DrawImage(CenterCrop(image.value), Rect(90.0, 150.0, 900.0, 900.0))
      && Within(ops[PhotoIndex].dst, ops[FrameIndex].area)
      && Within(ops[FrameIndex].area, Rect(0.0, 0.0, 1080.0, 1350.0))
      && ops[TitleIndex].Text? && ops[TitleIndex].x == 540.0 && ops[TitleIndex].y == 1130.0
      && ops[SubtitleIndex].Text? && ops[SubtitleIndex].x == 540.0 && ops[SubtitleIndex].y == 1180.0
      && 130.0 < ops[TitleIndex].y < ops[SubtitleIndex].y < 130.0 + 1080.0
      && ops[RightStickerIndex].Text? && ops[RightStickerIndex].x == 930.0 && ops[RightStickerIndex].y == 140.0
      && ops[LeftStickerIndex].Text? && ops[LeftStickerIndex].x == 150.0 && ops[LeftStickerIndex].y == 140.0
  {
    var ops := Layers(image.value, u);
    assert ops[FrameIndex] == FillRect(FrameRect(), Solid(White));
    assert ops[PhotoIndex] == DrawImage(CenterCrop(image.value), PhotoRect());
    assert ops[TitleIndex] == Captions()[0];
    assert ops[SubtitleIndex] == Captions()[1];
    assert ops[RightStickerIndex] == Captions()[2];
    assert ops[LeftStickerIndex] == Captions()[3];
  }

  /** The input image only decides where the photo is cropped from: two inputs drawn with
      the same random values produce the same canvas size and the same operations except
      for the source rectangle of the photo. */
  lemma OnlyCropDependsOnInput(a: ImageSize, b: ImageSize, u: seq<real>)
    requires ValidRandoms(u)
    ensures var ra := ProcessImageWithTemplate(true, Some(a), u).value;
      var rb := ProcessImageWithTemplate(true, Some(b), u).value;
      && ra.width == rb.width && ra.height == rb.height && |ra.ops| == |rb.ops|
      && (forall i :: 0 <= i < |ra.ops| && i != PhotoIndex ==> ra.ops[i] == rb.ops[i])
      && ra.ops[PhotoIndex].dst == rb.ops[PhotoIndex].dst
  {
    var oa := Layers(a, u);
    var ob := Layers(b, u);
    assert oa[PhotoIndex] == DrawImage(CenterCrop(a), PhotoRect());
    assert ob[PhotoIndex] == DrawImage(CenterCrop(b), PhotoRect());
    forall i | 0 <= i < |oa| && i != PhotoIndex
      ensures oa[i] == ob[i]
    {
    }
  }

  /** A 1600 by 1200 input is cropped to the centred 1200 square starting 200 from the left. */
  lemma LandscapeCropExample()
    ensures CenterCrop(ImageSize(1600, 1200)) == Rect(200.0, 0.0, 1200.0, 1200.0)
  {
  }
}
