// src/core/lecture/preparation/decouperROIs.ts: from reading zones of the
// model, in PDF points, to pixel rectangles of the rectified scan, whose
// origin is the centre of the top-left target.
module DecoupeROIs {
  import opened Wrappers
  import opened Erreurs
  import opened Geometrie
  import opened PdfUtils
  import opened DetectionCibles
  import opened ModulesBordereau

  /** A crop rectangle in pixels, as given to cv.Rect. */
  datatype Rect = Rect(left: int, top: int, width: int, height: int)

  /** One call of onDecoupe: the cropped rectangle and the zone's index. */
  datatype Appel = Appel(rect: Rect, index: nat)

  /** The unpadded rectangle of a zone in pixels, before rounding. */
  datatype Brut = Brut(x: real, y: real, w: real, h: real)

  /** Distance from the page edges to the target centres: every margin of the effective zone. */
  function MargeCibles(diametreCiblesMm: real, margeCiblesMm: real): real
  {
    diametreCiblesMm / 2.0 + margeCiblesMm
  }

  /** Pixels per mm on one axis: the image size over the format size less both margins. */
  function PxParMm(taille: nat, formatMm: real, marge: real): real
    requires formatMm - marge - marge != 0.0
  {
    taille as real / (formatMm - marge - marge)
  }

  /** The padding, in mm, when none is given: a slight inset. */
  function PaddingMm(paddingMm: Option<real>): (p: real)
    ensures paddingMm.None? ==> p == -0.05
    ensures paddingMm.Some? ==> p == paddingMm.value
  {
    match paddingMm
    case None => -0.05
    case Some(v) => v
  }

  /**
   * The zone in pixels, 0.5 mm inside its drawn frame on every side, with
   * the effective zone's top-left corner as origin. Shared with the earlier
   * cropper.
   */
  function RectangleBrut(roi: LayoutPosition, margeX: real, margeY: real, pxPerMmX: real, pxPerMmY: real): Brut
  {
    Brut((PointsToMm(roi.x) - margeX + 0.5) * pxPerMmX,
         (PointsToMm(roi.y) - margeY + 0.5) * pxPerMmY,
         (PointsToMm(roi.largeur) - 1.0) * pxPerMmX,
         (PointsToMm(roi.hauteur) - 1.0) * pxPerMmY)
  }

  /**
   * Back in mm of the page, the pixel rectangle is the drawn frame shrunk by
   * 0.5 mm on each side.
   */
  lemma RetraitDemiMillimetre(roi: LayoutPosition, margeX: real, margeY: real, pxPerMmX: real, pxPerMmY: real)
    requires pxPerMmX != 0.0 && pxPerMmY != 0.0
    ensures var b := RectangleBrut(roi, margeX, margeY, pxPerMmX, pxPerMmY);
      b.x / pxPerMmX + margeX == PointsToMm(roi.x) + 0.5 &&
      (b.x + b.w) / pxPerMmX + margeX == PointsToMm(roi.x + roi.largeur) - 0.5 &&
      b.y / pxPerMmY + margeY == PointsToMm(roi.y) + 0.5 &&
      (b.y + b.h) / pxPerMmY + margeY == PointsToMm(roi.y + roi.hauteur) - 0.5
  {
    var b := RectangleBrut(roi, margeX, margeY, pxPerMmX, pxPerMmY);
    UnAxe(PointsToMm(roi.x), PointsToMm(roi.largeur), margeX, pxPerMmX, b.x, b.w);
    UnAxe(PointsToMm(roi.y), PointsToMm(roi.hauteur), margeY, pxPerMmY, b.y, b.h);
    assert PointsToMm(roi.x + roi.largeur) == PointsToMm(roi.x) + PointsToMm(roi.largeur);
    assert PointsToMm(roi.y + roi.hauteur) == PointsToMm(roi.y) + PointsToMm(roi.hauteur);
  }

  /** One axis of RetraitDemiMillimetre, on the pixel start and length of the axis. */
  lemma UnAxe(debut: real, longueur: real, marge: real, px: real, depart: real, etendue: real)
    requires px != 0.0
    requires depart == (debut - marge + 0.5) * px && etendue == (longueur - 1.0) * px
    ensures depart / px + marge == debut + 0.5
    ensures (depart + etendue) / px + marge == debut + longueur - 0.5
  {
    var a := debut - marge + 0.5;
    var e := debut - marge + longueur - 0.5;
    var t := depart + etendue;
    assert t == a * px + (longueur - 1.0) * px == e * px;
    Simplifie(a, px);
    Simplifie(e, px);
    assert t / px == e;
  }

  /** Multiplying then dividing by the same non-zero number gives the number back. */
  lemma Simplifie(a: real, px: real)
    requires px != 0.0
    ensures (a * px) / px == a
  {
    var q := (a * px) / px;
    assert q * px == a * px;
    assert (q - a) * px == 0.0;
  }

  /**
   * One axis of the crop: the padded interval [a, b] rounded outwards and
   * clamped to [0, taille]; the length is at least 1.
   */
  function Intervalle(a: real, b: real, taille: int): (r: (int, int))
    ensures r.0 >= 0 && r.1 >= 1
    ensures r.0 as real <= MaxR(0.0, a) < r.0 as real + 1.0
    ensures Ceil(b) > r.0 && taille > r.0 ==> r.0 + r.1 <= taille && MinR(taille as real, b) <= (r.0 + r.1) as real
    ensures MinI(taille, Ceil(b)) <= r.0 ==> r.1 == 1
  {
    var debut := MaxI(0, Floor(a));
    var fin := MinI(taille, Ceil(b));
    (debut, MaxI(1, fin - debut))
  }

  /** The crop of one zone: its raw pixel rectangle grown by the padding on every side, rounded outwards and clamped to the image. */
  function Decoupe(b: Brut, paddingX: real, paddingY: real, imgW: int, imgH: int): (r: Rect)
    ensures r.left >= 0 && r.top >= 0 && r.width >= 1 && r.height >= 1
  {
    var (left, widthPx) := Intervalle(b.x - paddingX, b.x + b.w + paddingX, imgW);
    var (top, heightPx) := Intervalle(b.y - paddingY, b.y + b.h + paddingY, imgH);
    Rect(left, top, widthPx, heightPx)
  }

  /**
   * A crop that is not degenerate lies inside the image and covers the
   * padded zone as far as it lies inside the image.
   */
  lemma DecoupeCouvre(b: Brut, paddingX: real, paddingY: real, imgW: int, imgH: int)
    requires var r := Decoupe(b, paddingX, paddingY, imgW, imgH);
      imgW > r.left && Ceil(b.x + b.w + paddingX) > r.left && imgH > r.top && Ceil(b.y + b.h + paddingY) > r.top
    ensures var r := Decoupe(b, paddingX, paddingY, imgW, imgH);
      r.left + r.width <= imgW && r.top + r.height <= imgH &&
      r.left as real <= MaxR(0.0, b.x - paddingX) && MinR(imgW as real, b.x + b.w + paddingX) <= (r.left + r.width) as real &&
      r.top as real <= MaxR(0.0, b.y - paddingY) && MinR(imgH as real, b.y + b.h + paddingY) <= (r.top + r.height) as real
  {
  }

  /** The crop of zone roi on an imgW x imgH rectified scan, with the cropper's margins, scale and padding. */
  function Rectangle(roi: LayoutPosition, imgW: nat, imgH: nat, marge: real, paddingMm: real): Rect
    requires FORMAT_WIDTH_MM - 2.0 * marge > 0.0 && FORMAT_HEIGHT_MM - 2.0 * marge > 0.0
  {
    var pxX := PxParMm(imgW, FORMAT_WIDTH_MM, marge);
    var pxY := PxParMm(imgH, FORMAT_HEIGHT_MM, marge);
    Decoupe(RectangleBrut(roi, marge, marge, pxX, pxY), paddingMm * pxX, paddingMm * pxY, imgW, imgH)
  }

  /** The crops of every zone, in order. */
  function Rectangles(rois: seq<LayoutPosition>, imgW: nat, imgH: nat, marge: real, paddingMm: real): (r: seq<Rect>)
    requires FORMAT_WIDTH_MM - 2.0 * marge > 0.0 && FORMAT_HEIGHT_MM - 2.0 * marge > 0.0
    ensures |r| == |rois|
    ensures forall i :: 0 <= i < |rois| ==> r[i] == Rectangle(rois[i], imgW, imgH, marge, paddingMm)
  {
    seq(|rois|, i requires 0 <= i < |rois| => Rectangle(rois[i], imgW, imgH, marge, paddingMm))
  }

  /** What Mat.roi accepts: a rectangle of non-negative size lying inside the imgW x imgH image. */
  predicate DansImage(r: Rect, imgW: int, imgH: int)
  {
    0 <= r.left && 0 <= r.width && r.left + r.width <= imgW &&
    0 <= r.top && 0 <= r.height && r.top + r.height <= imgH
  }

  /** Mat.roi on an imgW x imgH image: it throws exception on a rectangle that leaves the image. */
  function RefusRoi(imgW: int, imgH: int, exception: Thrown): Rect -> Option<Thrown>
  {
    r => if DansImage(r, imgW, imgH) then None else Some(exception)
  }

  /**
   * The clamped crop leaves the image, and Mat.roi throws, exactly when
   * the zone starts at or past the image's right or bottom edge.
   */
  lemma DecoupeHorsImage(b: Brut, paddingX: real, paddingY: real, imgW: int, imgH: int, exception: Thrown)
    ensures var r := Decoupe(b, paddingX, paddingY, imgW, imgH);
      RefusRoi(imgW, imgH, exception)(r) == (if r.left >= imgW || r.top >= imgH then Some(exception) else None)
  {
  }

  /**
   * The loop of a cropper from zone k on: for each crop, the call that
   * takes it out of the scan (refus gives the exception it throws, if
   * any), then the awaited onDecoupe, whose rejection (rappel's answer)
   * ends the loop. The result is the calls made, and how the loop ended.
   */
  function Appels(rects: seq<Rect>, k: nat, refus: Rect -> Option<Thrown>,
                  rappel: Appel -> Option<Thrown>): (seq<Appel>, Result<()>)
    requires k <= |rects|
    decreases |rects| - k
  {
    if k == |rects| then ([], Ok(()))
    else if refus(rects[k]).Some? then ([], Err(refus(rects[k]).value))
    else
      var appel := Appel(rects[k], k);
      match rappel(appel)
      case Some(e) => ([appel], Err(e))
      case None =>
        var suite := Appels(rects, k + 1, refus, rappel);
        ([appel] + suite.0, suite.1)
  }

  /**
   * The calls made are those of the zones from k on, in order, each crop
   * taken without error and each call but the last resolved. A normal end
   * means every zone was handed over and every call resolved; an error is
   * the exception of the next crop, or the rejection of the last call.
   */
  lemma {:induction false} AppelsForme(rects: seq<Rect>, k: nat, refus: Rect -> Option<Thrown>,
                                       rappel: Appel -> Option<Thrown>)
    requires k <= |rects|
    decreases |rects| - k
    ensures var r := Appels(rects, k, refus, rappel);
      |r.0| <= |rects| - k &&
      (forall i :: 0 <= i < |r.0| ==> r.0[i] == Appel(rects[k + i], k + i) && refus(rects[k + i]).None?) &&
      (forall i :: 0 <= i < |r.0| - 1 ==> rappel(r.0[i]).None?) &&
      (r.1.Ok? ==> |r.0| == |rects| - k && forall i :: 0 <= i < |r.0| ==> rappel(r.0[i]).None?) &&
      (r.1.Err? ==>
        (k + |r.0| < |rects| && refus(rects[k + |r.0|]) == Some(r.1.error)) ||
        (|r.0| > 0 && rappel(r.0[|r.0| - 1]) == Some(r.1.error)))
  {
    if k < |rects| && refus(rects[k]).None? && rappel(Appel(rects[k], k)).None? {
      AppelsForme(rects, k + 1, refus, rappel);
      var suite := Appels(rects, k + 1, refus, rappel);
      var r := Appels(rects, k, refus, rappel);
      assert r.0 == [Appel(rects[k], k)] + suite.0;
      forall i | 0 <= i < |r.0|
        ensures r.0[i] == Appel(rects[k + i], k + i) && refus(rects[k + i]).None?
      {
        if i > 0 {
          assert r.0[i] == suite.0[i - 1];
        }
      }
    }
  }

  /**
   * The loop ends normally exactly when every crop is taken without error
   * and every onDecoupe resolves.
   */
  lemma {:induction false} AppelsOk(rects: seq<Rect>, k: nat, refus: Rect -> Option<Thrown>,
                                    rappel: Appel -> Option<Thrown>)
    requires k <= |rects|
    decreases |rects| - k
    ensures Appels(rects, k, refus, rappel).1.Ok? <==>
      forall i :: k <= i < |rects| ==> refus(rects[i]).None? && rappel(Appel(rects[i], i)).None?
  {
    if k < |rects| && refus(rects[k]).None? && rappel(Appel(rects[k], k)).None? {
      AppelsOk(rects, k + 1, refus, rappel);
    }
  }

  /**
   * The loop of a cropper over precomputed crops, as decouperROIs and its
   * earlier version run it: the crop is taken, handed to onDecoupe with
   * the zone's index, and each call is awaited before the next.
   */
  method Boucle(rects: seq<Rect>, refus: Rect -> Option<Thrown>, rappel: Appel -> Option<Thrown>)
    returns (appels: seq<Appel>, r: Result<()>)
    ensures (appels, r) == Appels(rects, 0, refus, rappel)
  {
    ghost var total := Appels(rects, 0, refus, rappel);
    appels := [];
    assert [] + total.0 == total.0;
    var roiIndex := 0;
    while roiIndex < |rects|
      invariant roiIndex <= |rects|
      invariant total.0 == appels + Appels(rects, roiIndex, refus, rappel).0
      invariant total.1 == Appels(rects, roiIndex, refus, rappel).1
    {
      ghost var ici := Appels(rects, roiIndex, refus, rappel);
      var rect := rects[roiIndex];
      var exception := refus(rect);
      if exception.Some? {
        assert ici == ([], Err(exception.value));
        assert appels + [] == appels;
        return appels, Err(exception.value);
      }
      var appel := Appel(rect, roiIndex);
      var rejet := rappel(appel);
      if rejet.Some? {
        assert ici == ([appel], Err(rejet.value));
        appels := appels + [appel];
        assert appels + [] == appels;
        return appels, Err(rejet.value);
      }
      ghost var suite := Appels(rects, roiIndex + 1, refus, rappel);
      assert ici == ([appel] + suite.0, suite.1);
      assert appels + ([appel] + suite.0) == (appels + [appel]) + suite.0;
      appels := appels + [appel];
      roiIndex := roiIndex + 1;
    }
    assert appels + [] == appels;
    r := Ok(());
  }

  /**
   * decouperROIs on an imgW x imgH rectified scan: for each zone in order,
   * the crop is taken with Mat.roi, which throws exceptionRoi when the
   * crop leaves the image, and is handed to onDecoupe with the zone's
   * index; a rejected call rejects the whole operation. The effective zone
   * has a positive size, as it does for targets within the A4 page.
   */
  method DecouperROIs(imgW: nat, imgH: nat, rois: seq<LayoutPosition>, diametreCiblesMm: real, margeCiblesMm: real,
                      paddingMmOption: Option<real>, exceptionRoi: Thrown, rappel: Appel -> Option<Thrown>)
    returns (appels: seq<Appel>, r: Result<()>)
    requires FORMAT_WIDTH_MM - 2.0 * MargeCibles(diametreCiblesMm, margeCiblesMm) > 0.0
    requires FORMAT_HEIGHT_MM - 2.0 * MargeCibles(diametreCiblesMm, margeCiblesMm) > 0.0
    ensures (appels, r) == Appels(Rectangles(rois, imgW, imgH, MargeCibles(diametreCiblesMm, margeCiblesMm), PaddingMm(paddingMmOption)),
                                  0, RefusRoi(imgW, imgH, exceptionRoi), rappel)
  {
    var distance := MargeCibles(diametreCiblesMm, margeCiblesMm);
    var paddingMm := PaddingMm(paddingMmOption);
    var rects := Rectangles(rois, imgW, imgH, distance, paddingMm);
    appels, r := Boucle(rects, RefusRoi(imgW, imgH, exceptionRoi), rappel);
  }

  /**
   * Crops that all lie inside the image, handed to callbacks that all
   * resolve: decouperROIs resolves after one call per zone, in order.
   */
  lemma ToutesLesZones(rects: seq<Rect>, imgW: int, imgH: int, exceptionRoi: Thrown, rappel: Appel -> Option<Thrown>)
    requires forall i :: 0 <= i < |rects| ==> DansImage(rects[i], imgW, imgH) && rappel(Appel(rects[i], i)).None?
    ensures var r := Appels(rects, 0, RefusRoi(imgW, imgH, exceptionRoi), rappel);
      r.1 == Ok(()) && |r.0| == |rects| && forall i :: 0 <= i < |rects| ==> r.0[i] == Appel(rects[i], i)
  {
    var refus := RefusRoi(imgW, imgH, exceptionRoi);
    AppelsOk(rects, 0, refus, rappel);
    AppelsForme(rects, 0, refus, rappel);
    var r := Appels(rects, 0, refus, rappel);
    assert r.1.Ok? && r.1.value == ();
  }
}
