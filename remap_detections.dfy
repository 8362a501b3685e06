// src/lecture/preparation/remapperDetections.ts: re-express AprilTag
// coordinates in the frame of the image once it has been turned by a
// multiple of 90 degrees.
module RemapDetections {
  import opened Geometrie
  import opened Erreurs
  import opened AprilTags

  const MESSAGE_ORIENTATION: string := "L'orientation doit être un multiple de 90° pour le remapping des détections."

  /**
   * One point under quarter turn k (1, 2 or 3) of an image whose size after
   * the turn is width x height.
   */
  function Tourner(p: Point, k: int, width: real, height: real): Point
  {
    if k == 1 then Point(height - p.y, p.x)
    else if k == 2 then Point(width - p.x, height - p.y)
    else Point(p.y, width - p.x)
  }

  /** A detection with its centre and every corner turned; every other field kept. */
  function TournerDetection(d: TagDetection, k: int, width: real, height: real): (r: TagDetection)
    ensures r.id == d.id && r.hamming == d.hamming && r.margin == d.margin
    ensures |r.corners| == |d.corners| && r.center == Tourner(d.center, k, width, height)
    ensures forall j :: 0 <= j < |d.corners| ==> r.corners[j] == Tourner(d.corners[j], k, width, height)
  {
    d.(center := Tourner(d.center, k, width, height),
       corners := seq(|d.corners|, j requires 0 <= j < |d.corners| => Tourner(d.corners[j], k, width, height)))
  }

  /**
   * remapperDetections. A non-multiple of 90 is an ErreurAlignement; an angle
   * that is 0 modulo 360 leaves the input as it is; otherwise every detection
   * is turned by (orientation mod 360) / 90 quarters, in input order.
   */
  function RemapperDetections(detections: seq<TagDetection>, orientation: int, width: real, height: real)
    : (r: Result<seq<TagDetection>>)
    ensures orientation % 90 != 0 <==> r.Err?
    ensures r.Err? ==> r == Fail(ErreurAlignement, MESSAGE_ORIENTATION)
    ensures r.Ok? && orientation % 360 == 0 ==> r.value == detections
    ensures r.Ok? && orientation % 360 != 0 ==>
      |r.value| == |detections| &&
      forall i :: 0 <= i < |detections| ==>
        r.value[i] == TournerDetection(detections[i], (orientation % 360) / 90, width, height)
  {
    NormaliserAngle(orientation);
    MultipleDe90(orientation);
    if JsRem(orientation, 90) != 0 then Fail(ErreurAlignement, MESSAGE_ORIENTATION)
    else
      var angle := JsRem(JsRem(orientation, 360) + 360, 360);
      if angle == 0 then Ok(detections)
      else Ok(seq(|detections|, i requires 0 <= i < |detections| => TournerDetection(detections[i], angle / 90, width, height)))
  }

  /** Turning by 180 twice with the same size restores every detection. */
  lemma DemiTourInvolution(detections: seq<TagDetection>, width: real, height: real)
    ensures RemapperDetections(detections, 180, width, height).Ok?
    ensures RemapperDetections(RemapperDetections(detections, 180, width, height).value, 180, width, height) == Ok(detections)
  {
    var once := RemapperDetections(detections, 180, width, height).value;
    var twice := RemapperDetections(once, 180, width, height).value;
    assert 180 % 360 / 90 == 2 && |twice| == |once| == |detections|;
    forall i | 0 <= i < |detections|
      ensures twice[i] == detections[i]
    {
      assert twice[i] == TournerDetection(once[i], 2, width, height);
      assert once[i] == TournerDetection(detections[i], 2, width, height);
      assert twice[i].corners == detections[i].corners;
    }
    assert twice == detections;
  }

  /**
   * Turning by 90 with height h, then by 270 with width h, restores every
   * detection: the second turn's width is the first turn's height.
   */
  lemma QuartsInverses(detections: seq<TagDetection>, width: real, h: real, height2: real)
    ensures RemapperDetections(detections, 90, width, h).Ok?
    ensures RemapperDetections(RemapperDetections(detections, 90, width, h).value, 270, h, height2) == Ok(detections)
  {
    var once := RemapperDetections(detections, 90, width, h).value;
    var back := RemapperDetections(once, 270, h, height2).value;
    assert 90 % 360 / 90 == 1 && 270 % 360 / 90 == 3 && |back| == |once| == |detections|;
    forall i | 0 <= i < |detections|
      ensures back[i] == detections[i]
    {
      assert back[i] == TournerDetection(once[i], 3, h, height2);
      assert once[i] == TournerDetection(detections[i], 1, width, h);
      assert back[i].corners == detections[i].corners;
    }
    assert back == detections;
  }

  /** An angle is read modulo 360: -270 is 90 and -90 is 270. */
  lemma AnglesNegatifs(detections: seq<TagDetection>, width: real, height: real)
    ensures RemapperDetections(detections, -270, width, height) == RemapperDetections(detections, 90, width, height)
    ensures RemapperDetections(detections, -90, width, height) == RemapperDetections(detections, 270, width, height)
  {
  }
}
