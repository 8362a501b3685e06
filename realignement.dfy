// src/core/lecture/preparation/realignerCorrigerScan.ts: the arithmetic
// around the perspective correction of a scan. The detected target centres
// are the source anchors, the theoretical target centres of the A4 model are
// the destination anchors; the homography and the warp themselves are OpenCV
// and are not part of this model.
module Realignement {
  import opened Wrappers
  import opened Geometrie
  import opened Erreurs
  import opened Texte
  import opened PdfUtils
  import opened DetectionCibles
  import opened GenerationCibles

  function MessageCoin(coinId: nat): string
  {
    "calculerPositionCibleDansModele: coinId invalide : " + NatToString(coinId) + " / (0..3)"
  }

  function MessageTropPeu(n: nat): string
  {
    "Impossible de réaligner le document, trop peu de points d'ancrage (3 nécessaires, " + NatToString(n) + " obtenus)"
  }

  const MESSAGE_AFFINE: string := "Transformation affine pas encore implémentée. Les 4 coins doivent être visibles."

  /**
   * calculerPositionCibleDansModele: the theoretical centre, in mm, of the
   * target of corner coinId (0 HG, 1 HD, 2 BG, 3 BD); it lies
   * cibleMarge + diametre/2 from the two nearest edges of the format. Any
   * other corner is an ErreurRealignement.
   */
  function PositionCibleDansModele(coinId: nat, cibleMarge: real, diametre: real, formatWidth: real, formatHeight: real)
    : (r: Result<Point>)
    ensures coinId < 4 <==> r.Ok?
    ensures r.Ok? ==>
      var m := cibleMarge + diametre / 2.0;
      (r.value.x == if coinId % 2 == 0 then m else formatWidth - m) &&
      (r.value.y == if coinId < 2 then m else formatHeight - m)
    ensures r.Err? ==> r == Fail(ErreurRealignement, MessageCoin(coinId))
  {
    var margeTot := cibleMarge + (diametre / 2.0);
    if coinId == 0 then Ok(Point(margeTot, margeTot))
    else if coinId == 1 then Ok(Point(formatWidth - margeTot, margeTot))
    else if coinId == 2 then Ok(Point(margeTot, formatHeight - margeTot))
    else if coinId == 3 then Ok(Point(formatWidth - margeTot, formatHeight - margeTot))
    else Fail(ErreurRealignement, MessageCoin(coinId))
  }

  /**
   * The reader's theoretical centre is where the generator draws the target:
   * on a page of the format's size in points, with the same size and margin,
   * the printed centre converted back to mm is the model position.
   */
  lemma PositionConcordeAvecGeneration(coin: nat, taille: real, marge: real, formatWidth: real, formatHeight: real)
    requires coin < 4
    ensures var c := Centre(coin, MmToPoints(formatWidth), MmToPoints(formatHeight), MmToPoints(taille), MmToPoints(marge));
      PositionCibleDansModele(coin, marge, taille, formatWidth, formatHeight) == Ok(Point(PointsToMm(c.x), PointsToMm(c.y)))
  {
    var m := marge + taille / 2.0;
    MmToPointsAdditive(marge, taille / 2.0);
    assert MmToPoints(taille / 2.0) == MmToPoints(taille) / 2.0;
    MmToPointsAdditive(formatWidth, m);
    MmToPointsAdditive(formatHeight, m);
    MmPointsRoundTrip(m, 0.0);
    MmPointsRoundTrip(formatWidth - m, 0.0);
    MmPointsRoundTrip(formatHeight - m, 0.0);
  }

  /** The output keeps the scan's height and takes the width of the A4 ratio, rounded. */
  function SortieW(sortieH: int): (w: int)
    ensures w as real - 0.5 <= (FORMAT_WIDTH_MM / FORMAT_HEIGHT_MM) * sortieH as real < w as real + 0.5
  {
    JsRound((FORMAT_WIDTH_MM / FORMAT_HEIGHT_MM) * sortieH as real)
  }

  /** mmToPixels: x scaled by sortieW / 210 and y by sortieH / 297. */
  function MmToPixels(p: Point, sortieW: int, sortieH: int): (r: Point)
    ensures r.x * FORMAT_WIDTH_MM == p.x * sortieW as real && r.y * FORMAT_HEIGHT_MM == p.y * sortieH as real
  {
    Point(p.x * (sortieW as real / FORMAT_WIDTH_MM), p.y * (sortieH as real / FORMAT_HEIGHT_MM))
  }

  /** mmToPixels sends the origin to the origin and the far corner of the format to the output size. */
  lemma MmToPixelsFormat(sortieW: int, sortieH: int)
    ensures MmToPixels(Point(0.0, 0.0), sortieW, sortieH) == Point(0.0, 0.0)
    ensures MmToPixels(Point(FORMAT_WIDTH_MM, FORMAT_HEIGHT_MM), sortieW, sortieH) == Point(sortieW as real, sortieH as real)
  {
  }

  /** The source anchor of each of the four slots: the centre of the detection in that slot, if any. */
  function Sources(detections: seq<Option<CibleDetection>>): (s: seq<Option<Point>>)
    ensures |s| == 4
    ensures forall i :: 0 <= i < 4 ==>
      (s[i].Some? <==> i < |detections| && detections[i].Some?) &&
      (s[i].Some? ==> s[i].value == detections[i].value.centre)
  {
    seq(4, i requires 0 <= i < 4 =>
      if i < |detections| && detections[i].Some? then Some(detections[i].value.centre) else None)
  }

  /** The destination anchor of each slot: the model position in pixels, for every slot the loop visits. */
  function Destinations(n: nat, sortieW: int, sortieH: int, marge: real, taille: real): (d: seq<Option<Point>>)
    requires n <= 4
    ensures |d| == 4
    ensures forall i :: 0 <= i < 4 ==> (d[i].Some? <==> i < n)
  {
    seq(4, i requires 0 <= i < 4 =>
      if i < n then Some(MmToPixels(PositionCibleDansModele(i, marge, taille, FORMAT_WIDTH_MM, FORMAT_HEIGHT_MM).value, sortieW, sortieH))
      else None)
  }

  /**
   * The anchor loop: every slot visited gets a destination point whether or
   * not its target was detected, and a source point only when it was; a
   * fifth slot is an invalid corner id.
   */
  method ReleverPoints(detections: seq<Option<CibleDetection>>, sortieW: int, sortieH: int, marge: real, taille: real)
    returns (r: Result<(seq<Option<Point>>, seq<Option<Point>>)>)
    ensures |detections| > 4 ==> r == Fail(ErreurRealignement, MessageCoin(4))
    ensures |detections| <= 4 ==> r == Ok((Sources(detections), Destinations(|detections|, sortieW, sortieH, marge, taille)))
  {
    var srcPoints: seq<Option<Point>> := [None, None, None, None];
    var dstPoints: seq<Option<Point>> := [None, None, None, None];
    for i := 0 to |detections|
      invariant i <= 4
      invariant |srcPoints| == 4 && |dstPoints| == 4
      invariant forall k :: 0 <= k < 4 ==>
        srcPoints[k] == (if k < i && detections[k].Some? then Some(detections[k].value.centre) else None)
      invariant forall k :: 0 <= k < 4 ==> dstPoints[k] == Destinations(i, sortieW, sortieH, marge, taille)[k]
    {
      var detection := detections[i];
      var dstPt := PositionCibleDansModele(i, marge, taille, FORMAT_WIDTH_MM, FORMAT_HEIGHT_MM);
      if dstPt.Err? {
        return Fail(ErreurRealignement, MessageCoin(i));
      }
      dstPoints := dstPoints[i := Some(MmToPixels(dstPt.value, sortieW, sortieH))];
      if detection.Some? {
        srcPoints := srcPoints[i := Some(detection.value.centre)];
      }
    }
    assert srcPoints == Sources(detections);
    assert dstPoints == Destinations(|detections|, sortieW, sortieH, marge, taille);
    return Ok((srcPoints, dstPoints));
  }

  /** `points.filter(p => p !== null)`: the present points, in slot order. */
  function NonNuls(s: seq<Option<Point>>): (r: seq<Point>)
    ensures |r| <= |s|
  {
    if |s| == 0 then [] else (if s[0].Some? then [s[0].value] else []) + NonNuls(s[1..])
  }

  /** The filter keeps exactly the present points. */
  lemma {:induction false} NonNulsElements(s: seq<Option<Point>>, p: Point)
    ensures p in NonNuls(s) <==> Some(p) in s
  {
    if |s| > 0 {
      NonNulsElements(s[1..], p);
      assert Some(p) in s <==> s[0] == Some(p) || Some(p) in s[1..];
    }
  }

  /** With every slot present, the filter keeps every point in slot order. */
  lemma {:induction false} NonNulsTous(s: seq<Option<Point>>)
    requires forall i :: 0 <= i < |s| ==> s[i].Some?
    ensures NonNuls(s) == seq(|s|, i requires 0 <= i < |s| => s[i].value)
  {
    if |s| > 0 {
      NonNulsTous(s[1..]);
    }
  }

  /** Slot by slot, fewer present points give no more filtered points. */
  lemma {:induction false} NonNulsCroissant(a: seq<Option<Point>>, b: seq<Option<Point>>)
    requires |a| == |b| && forall i :: 0 <= i < |a| && a[i].Some? ==> b[i].Some?
    ensures |NonNuls(a)| <= |NonNuls(b)|
  {
    if |a| > 0 {
      NonNulsCroissant(a[1..], b[1..]);
    }
  }

  /** The filter keeps a full slot list whole, and counts the visited slots of the destinations. */
  lemma {:induction false} NonNulsPrefixe(s: seq<Option<Point>>, n: nat)
    requires n <= |s| && forall i :: 0 <= i < |s| ==> (s[i].Some? <==> i < n)
    ensures |NonNuls(s)| == n
  {
    if |s| > 0 {
      NonNulsPrefixe(s[1..], if n > 0 then n - 1 else 0);
    }
  }

  /** Math.min(...xs) on a non-empty list. */
  function Min(xs: seq<real>): (m: real)
    requires |xs| > 0
    ensures forall k :: 0 <= k < |xs| ==> m <= xs[k]
    ensures exists k :: 0 <= k < |xs| && xs[k] == m
  {
    if |xs| == 1 then xs[0]
    else
      var r := Min(xs[1..]);
      assert forall k :: 1 <= k < |xs| ==> xs[k] == xs[1..][k - 1];
      if xs[0] <= r then xs[0] else r
  }

  /** Math.max(...xs) on a non-empty list. */
  function Max(xs: seq<real>): (m: real)
    requires |xs| > 0
    ensures forall k :: 0 <= k < |xs| ==> xs[k] <= m
    ensures exists k :: 0 <= k < |xs| && xs[k] == m
  {
    if |xs| == 1 then xs[0]
    else
      var r := Max(xs[1..]);
      assert forall k :: 1 <= k < |xs| ==> xs[k] == xs[1..][k - 1];
      if xs[0] >= r then xs[0] else r
  }

  function Xs(pts: seq<Point>): (xs: seq<real>)
    ensures |xs| == |pts| && forall k :: 0 <= k < |pts| ==> xs[k] == pts[k].x
  {
    seq(|pts|, k requires 0 <= k < |pts| => pts[k].x)
  }

  function Ys(pts: seq<Point>): (ys: seq<real>)
    ensures |ys| == |pts| && forall k :: 0 <= k < |pts| ==> ys[k] == pts[k].y
  {
    seq(|pts|, k requires 0 <= k < |pts| => pts[k].y)
  }

  /** The destination points moved so that their smallest x and smallest y are 0. */
  function Ancrer(pts: seq<Point>): (r: seq<Point>)
    requires |pts| > 0
    ensures |r| == |pts|
    ensures forall k :: 0 <= k < |pts| ==> r[k] == Point(pts[k].x - Min(Xs(pts)), pts[k].y - Min(Ys(pts)))
  {
    var minX := Min(Xs(pts));
    var minY := Min(Ys(pts));
    seq(|pts|, k requires 0 <= k < |pts| => Point(pts[k].x - minX, pts[k].y - minY))
  }

  /** After anchoring, every point has non-negative coordinates and both minima are 0. */
  lemma AncrageOrigine(pts: seq<Point>)
    requires |pts| > 0
    ensures var t := Ancrer(pts);
      (forall k :: 0 <= k < |t| ==> t[k].x >= 0.0 && t[k].y >= 0.0) &&
      Min(Xs(t)) == 0.0 && Min(Ys(t)) == 0.0
  {
    var t := Ancrer(pts);
    var kx :| 0 <= kx < |pts| && Xs(pts)[kx] == Min(Xs(pts));
    var ky :| 0 <= ky < |pts| && Ys(pts)[ky] == Min(Ys(pts));
    assert Xs(t)[kx] == 0.0 && Ys(t)[ky] == 0.0;
  }

  /** What the correction hands to OpenCV: output size, matching anchors, and the warp size. */
  datatype Redressement = Redressement(sortieW: int, sortieH: int, source: seq<Point>, destination: seq<Point>,
                                       largeur: int, hauteur: int)

  /** The four model positions in pixels, in corner order. */
  function Cibles(sortieW: int, sortieH: int, marge: real, taille: real): (d: seq<Point>)
    ensures |d| == 4
  {
    seq(4, i requires 0 <= i < 4 =>
      MmToPixels(PositionCibleDansModele(i, marge, taille, FORMAT_WIDTH_MM, FORMAT_HEIGHT_MM).value, sortieW, sortieH))
  }

  /** The four model positions in pixels are the destinations of the four slots, in corner order. */
  lemma CiblesDestinations(sortieW: int, sortieH: int, marge: real, taille: real)
    ensures forall i :: 0 <= i < 4 ==> Destinations(4, sortieW, sortieH, marge, taille)[i] == Some(Cibles(sortieW, sortieH, marge, taille)[i])
  {
  }

  /** The warp inputs: destination anchors moved to the origin, and their rounded extent as the output size. */
  function Ancrage(sortieW: int, sortieH: int, src: seq<Point>, dst: seq<Point>): (r: Redressement)
    requires |dst| > 0
    ensures r.source == src && r.destination == Ancrer(dst)
    ensures r.largeur as real - 0.5 <= Max(Xs(dst)) - Min(Xs(dst)) < r.largeur as real + 0.5
    ensures r.hauteur as real - 0.5 <= Max(Ys(dst)) - Min(Ys(dst)) < r.hauteur as real + 0.5
  {
    Redressement(sortieW, sortieH, src, Ancrer(dst),
                 JsRound(Max(Xs(dst)) - Min(Xs(dst))), JsRound(Max(Ys(dst)) - Min(Ys(dst))))
  }

  /**
   * realignerCorrigerScan up to the OpenCV calls: fewer than three detected
   * targets is an error quoting the count, three is the unimplemented affine
   * case, four gives the anchors in slot order and the rounded extent of the
   * destination points.
   */
  method RealignerCorrigerScan(imgHeight: nat, detections: seq<Option<CibleDetection>>, tailleCiblesMm: real, margeCiblesMm: real)
    returns (r: Result<Redressement>)
    ensures |detections| > 4 ==> r == Fail(ErreurRealignement, MessageCoin(4))
    ensures |detections| <= 4 && |NonNuls(Sources(detections))| < 3 ==>
      r == Fail(ErreurRealignement, MessageTropPeu(|NonNuls(Sources(detections))|))
    ensures |detections| <= 4 && |NonNuls(Sources(detections))| == 3 ==> r == Fail(ErreurRealignement, MESSAGE_AFFINE)
    ensures |detections| <= 4 && |NonNuls(Sources(detections))| == 4 ==>
      r == Ok(Ancrage(SortieW(imgHeight), imgHeight, NonNuls(Sources(detections)),
                      Cibles(SortieW(imgHeight), imgHeight, margeCiblesMm, tailleCiblesMm)))
  {
    var sortieH := imgHeight;
    var sortieW := SortieW(sortieH);
    var points := ReleverPoints(detections, sortieW, sortieH, margeCiblesMm, tailleCiblesMm);
    if points.Err? {
      return Err(points.error);
    }
    var srcPoints, dstPoints := points.value.0, points.value.1;
    assert srcPoints == Sources(detections);
    var srcPts := NonNuls(srcPoints);
    var dstPts := NonNuls(dstPoints);
    if |srcPts| < 3 {
      return Fail(ErreurRealignement, MessageTropPeu(|srcPts|));
    }
    if |srcPts| == 4 {
      ToutesLesDestinations(detections, sortieW, sortieH, margeCiblesMm, tailleCiblesMm);
      assert dstPts == Cibles(sortieW, sortieH, margeCiblesMm, tailleCiblesMm);
      return Ok(Ancrage(sortieW, sortieH, srcPts, dstPts));
    }
    return Fail(ErreurRealignement, MESSAGE_AFFINE);
  }

  /** With four detected targets every slot has its destination, the four model positions in order. */
  lemma ToutesLesDestinations(detections: seq<Option<CibleDetection>>, sortieW: int, sortieH: int, marge: real, taille: real)
    requires |detections| <= 4 && |NonNuls(Sources(detections))| == 4
    ensures |detections| == 4
    ensures NonNuls(Destinations(|detections|, sortieW, sortieH, marge, taille)) == Cibles(sortieW, sortieH, marge, taille)
  {
    NonNulsCroissant(Sources(detections), Destinations(|detections|, sortieW, sortieH, marge, taille));
    NonNulsPrefixe(Destinations(|detections|, sortieW, sortieH, marge, taille), |detections|);
    NonNulsTous(Destinations(4, sortieW, sortieH, marge, taille));
    CiblesDestinations(sortieW, sortieH, marge, taille);
  }

  /**
   * Only four detected targets reach the warp, and then source and
   * destination anchors correspond slot by slot: anchor k is the centre of
   * the target detected in corner slot k.
   */
  lemma QuatreCiblesPourLaPerspective(detections: seq<Option<CibleDetection>>)
    requires |detections| <= 4 && |NonNuls(Sources(detections))| == 4
    ensures |detections| == 4 && forall i :: 0 <= i < 4 ==> detections[i].Some?
    ensures forall k :: 0 <= k < 4 ==> NonNuls(Sources(detections))[k] == detections[k].value.centre
  {
    var s := Sources(detections);
    NonNulsCroissant(s, Destinations(|detections|, 0, 0, 0.0, 0.0));
    NonNulsPrefixe(Destinations(|detections|, 0, 0, 0.0, 0.0), |detections|);
    if exists i :: 0 <= i < 4 && s[i].None? {
      var i :| 0 <= i < 4 && s[i].None?;
      var full := seq(4, k requires 0 <= k < 4 => if k == i then None else Some(Point(0.0, 0.0)));
      NonNulsCroissant(s, full);
      NonNulsMoinsUn(full, i);
      assert false;
    }
    NonNulsTous(s);
  }

  /** A slot list with one empty slot has fewer filtered points than slots. */
  lemma {:induction false} NonNulsMoinsUn(s: seq<Option<Point>>, i: nat)
    requires i < |s| && s[i].None?
    ensures |NonNuls(s)| < |s|
  {
    if i > 0 {
      NonNulsMoinsUn(s[1..], i - 1);
    }
  }
}
