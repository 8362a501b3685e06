// src/core/lecture/preparation/detecterAprilTags.ts: AprilTag detections are
// made on a flipped and rotated copy of the scan; their coordinates are then
// mapped back into the scan's own frame.
module AprilTags {
  import opened Geometrie
  import opened Erreurs

  /** What the AprilTag library reports for one tag. */
  datatype TagDetection = TagDetection(id: int, hamming: int, margin: real, center: Point, corners: seq<Point>)

  /** The image operations applied before detection. */
  datatype Transform = FlipVertical | RotateCw90

  /** `flip` is set: the copy is flipped vertically, then turned a quarter clockwise. */
  const TRANSFORMS: seq<Transform> := [FlipVertical, RotateCw90]

  /** A point of an image together with that image's width and height. */
  datatype Cadre = Cadre(p: Point, width: real, height: real)

  /**
   * What an image operation does to one pixel: flipping keeps the size and
   * mirrors y; a clockwise quarter turn sends (x, y) of a W x H image to
   * (H - 1 - y, x) of an H x W one.
   */
  function Appliquer(t: Transform, c: Cadre): Cadre
  {
    match t
    case FlipVertical => Cadre(Point(c.p.x, c.height - 1.0 - c.p.y), c.width, c.height)
    case RotateCw90 => Cadre(Point(c.height - 1.0 - c.p.y, c.p.x), c.height, c.width)
  }

  /** The operations in order, first to last. */
  function AppliquerTout(ts: seq<Transform>, c: Cadre): Cadre
  {
    if |ts| == 0 then c else Appliquer(ts[|ts| - 1], AppliquerTout(ts[..|ts| - 1], c))
  }

  /** One step of the remapper's loop: the inverse of one operation. */
  function Annuler(t: Transform, c: Cadre): Cadre
  {
    match t
    case RotateCw90 => Cadre(Point(c.p.y, c.width - 1.0 - c.p.x), c.height, c.width)
    case FlipVertical => Cadre(Point(c.p.x, c.height - 1.0 - c.p.y), c.width, c.height)
  }

  /** The remapper: the operations undone from last to first. */
  function AnnulerTout(ts: seq<Transform>, c: Cadre): Cadre
  {
    if |ts| == 0 then c else AnnulerTout(ts[..|ts| - 1], Annuler(ts[|ts| - 1], c))
  }

  /** Undoing an operation restores the point and the size it was applied to. */
  lemma AnnulerAppliquer(t: Transform, c: Cadre)
    ensures Annuler(t, Appliquer(t, c)) == c
  {
  }

  /** Undoing every operation, in reverse, restores every point of the original image. */
  lemma {:induction false} AllerRetour(ts: seq<Transform>, c: Cadre)
    ensures AnnulerTout(ts, AppliquerTout(ts, c)) == c
    decreases |ts|
  {
    if |ts| > 0 {
      AnnulerAppliquer(ts[|ts| - 1], AppliquerTout(ts[..|ts| - 1], c));
      AllerRetour(ts[..|ts| - 1], c);
    }
  }

  /** With the flip, pixel (x, y) of a W x H scan is seen at (y, x) in the H x W copy. */
  lemma CopieTransposee(x: real, y: real, w: real, h: real)
    ensures AppliquerTout(TRANSFORMS, Cadre(Point(x, y), w, h)) == Cadre(Point(y, x), h, w)
  {
    var c := Cadre(Point(x, y), w, h);
    var flip: seq<Transform> := [FlipVertical];
    assert TRANSFORMS[..1] == flip && flip[..0] == [];
    assert AppliquerTout(flip, c) == Appliquer(FlipVertical, c);
    assert AppliquerTout(TRANSFORMS, c) == Appliquer(RotateCw90, AppliquerTout(flip, c));
  }

  /**
   * createPointRemapper applied to one point: the identity for no
   * operations, otherwise the loop from the last operation down to the first.
   */
  method RemapPoint(transforms: seq<Transform>, finalWidth: real, finalHeight: real, point: Point) returns (q: Point)
    ensures q == AnnulerTout(transforms, Cadre(point, finalWidth, finalHeight)).p
  {
    if |transforms| == 0 {
      return Point(point.x, point.y);
    }
    var x, y := point.x, point.y;
    var currentWidth, currentHeight := finalWidth, finalHeight;
    var i := |transforms| - 1;
    assert transforms[..i + 1] == transforms;
    while i >= 0
      invariant -1 <= i < |transforms|
      invariant AnnulerTout(transforms[..i + 1], Cadre(Point(x, y), currentWidth, currentHeight))
             == AnnulerTout(transforms, Cadre(point, finalWidth, finalHeight))
    {
      assert transforms[..i + 1][..i] == transforms[..i];
      var transform := transforms[i];
      if transform == RotateCw90 {
        var previousWidth := currentHeight;
        var previousHeight := currentWidth;
        var newX := y;
        var newY := previousHeight - 1.0 - x;
        x, y := newX, newY;
        currentWidth, currentHeight := previousWidth, previousHeight;
      } else {
        var previousHeight := currentHeight;
        var newX := x;
        var newY := previousHeight - 1.0 - y;
        x, y := newX, newY;
      }
      i := i - 1;
    }
    return Point(x, y);
  }

  /** A pixel of the scan, detected in the flipped copy, is mapped back to itself. */
  lemma RemapRetrouveLePixel(x: real, y: real, w: real, h: real)
    ensures AnnulerTout(TRANSFORMS, Cadre(Point(y, x), h, w)).p == Point(x, y)
  {
    CopieTransposee(x, y, w, h);
    AllerRetour(TRANSFORMS, Cadre(Point(x, y), w, h));
  }

  /** The corrected detection: centre and every corner through the same remapper, the rest kept. */
  function Corrigee(d: TagDetection, transforms: seq<Transform>, w: real, h: real): (r: TagDetection)
    ensures r.id == d.id && r.hamming == d.hamming && r.margin == d.margin && |r.corners| == |d.corners|
  {
    d.(center := AnnulerTout(transforms, Cadre(d.center, w, h)).p,
       corners := seq(|d.corners|, k requires 0 <= k < |d.corners| => AnnulerTout(transforms, Cadre(d.corners[k], w, h)).p))
  }

  const MESSAGE_TAGS: string := "Nombre d'april tags insuffisant pour aligner correctement le scan."

  /** `detection.corners.map(remapPoint)`. */
  method RemapCorners(transforms: seq<Transform>, w: real, h: real, corners: seq<Point>) returns (r: seq<Point>)
    ensures |r| == |corners|
    ensures forall k :: 0 <= k < |corners| ==> r[k] == AnnulerTout(transforms, Cadre(corners[k], w, h)).p
  {
    r := [];
    for k := 0 to |corners|
      invariant |r| == k
      invariant forall m :: 0 <= m < k ==> r[m] == AnnulerTout(transforms, Cadre(corners[m], w, h)).p
    {
      var q := RemapPoint(transforms, w, h, corners[k]);
      r := r + [q];
    }
  }

  /**
   * The part of detecterAprilTags after the library call: every detection
   * made on the w x h copy, corrected; two or fewer detections are an
   * ErreurDetectionAprilTags.
   */
  method CorrigerDetections(detections: seq<TagDetection>, w: real, h: real) returns (r: Result<seq<TagDetection>>)
    ensures |detections| <= 2 ==> r == Fail(ErreurDetectionAprilTags, MESSAGE_TAGS)
    ensures |detections| > 2 ==>
      r.Ok? && |r.value| == |detections| &&
      (forall i :: 0 <= i < |detections| ==> r.value[i] == Corrigee(detections[i], TRANSFORMS, w, h))
  {
    var corrected: seq<TagDetection> := [];
    for i := 0 to |detections|
      invariant |corrected| == i
      invariant forall m :: 0 <= m < i ==> corrected[m] == Corrigee(detections[m], TRANSFORMS, w, h)
    {
      var d := detections[i];
      var center := RemapPoint(TRANSFORMS, w, h, d.center);
      var corners := RemapCorners(TRANSFORMS, w, h, d.corners);
      corrected := corrected + [d.(center := center, corners := corners)];
    }
    if |corrected| <= 2 {
      return Fail(ErreurDetectionAprilTags, MESSAGE_TAGS);
    }
    return Ok(corrected);
  }
}
