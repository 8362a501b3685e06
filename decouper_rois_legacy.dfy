// src/lecture/preparation/decouperROIs.ts: the earlier cropper, for sheets
// anchored by AprilTags; the effective zone starts at the inner edge of the
// tags' inner square, 7/9 of the tag size in from their outer edge.
module DecoupeROIsLegacy {
  import opened Wrappers
  import opened Erreurs
  import opened Texte
  import opened Geometrie
  import opened DetectionCibles
  import opened ModulesBordereau
  import opened DecoupeROIs

  /** Every margin: the tags' margin plus 7/9 of their size. */
  function MargeZoneEffective(tailleAprilTagsMm: real, margeAprilTagsMm: real): real
  {
    margeAprilTagsMm + tailleAprilTagsMm * (7.0 / 9.0)
  }

  /** The extracted rectangle: the raw rectangle with each component floored, with no padding and no clamping. */
  function Extraction(b: Brut): Rect
  {
    Rect(Floor(b.x), Floor(b.y), Floor(b.w), Floor(b.h))
  }

  /**
   * Flooring position and size never takes the crop past the raw
   * rectangle's right or bottom edge, and loses less than two pixels there.
   */
  lemma ExtractionDansLeCadre(b: Brut)
    ensures var r := Extraction(b);
      r.left as real <= b.x < r.left as real + 1.0 && r.top as real <= b.y < r.top as real + 1.0 &&
      b.x + b.w - 2.0 < (r.left + r.width) as real <= b.x + b.w &&
      b.y + b.h - 2.0 < (r.top + r.height) as real <= b.y + b.h
  {
  }

  /** The crop of zone roi on an imgW x imgH scan with the earlier margins. */
  function RectangleLegacy(roi: LayoutPosition, imgW: nat, imgH: nat, marge: real): Rect
    requires FORMAT_WIDTH_MM - 2.0 * marge > 0.0 && FORMAT_HEIGHT_MM - 2.0 * marge > 0.0
  {
    Extraction(RectangleBrut(roi, marge, marge, PxParMm(imgW, FORMAT_WIDTH_MM, marge), PxParMm(imgH, FORMAT_HEIGHT_MM, marge)))
  }

  /** sharp's error for an extract parameter that is not an integer >= 0. */
  function ParametreInvalide(nom: string, valeur: int): Thrown
  {
    StdError("Expected integer for " + nom + " but received " + IntToString(valeur) + " of type number")
  }

  /**
   * sharp's extract checks left, top, width and height in this order and
   * throws on the first that is negative; the floored values are always
   * integers.
   */
  function RefusExtract(r: Rect): (e: Option<Thrown>)
    ensures e.None? <==> r.left >= 0 && r.top >= 0 && r.width >= 0 && r.height >= 0
    ensures r.left < 0 ==> e == Some(ParametreInvalide("left", r.left))
    ensures r.left >= 0 && r.top < 0 ==> e == Some(ParametreInvalide("top", r.top))
    ensures r.left >= 0 && r.top >= 0 && r.width < 0 ==> e == Some(ParametreInvalide("width", r.width))
    ensures r.left >= 0 && r.top >= 0 && r.width >= 0 && r.height < 0 ==> e == Some(ParametreInvalide("height", r.height))
  {
    if r.left < 0 then Some(ParametreInvalide("left", r.left))
    else if r.top < 0 then Some(ParametreInvalide("top", r.top))
    else if r.width < 0 then Some(ParametreInvalide("width", r.width))
    else if r.height < 0 then Some(ParametreInvalide("height", r.height))
    else None
  }

  /**
   * A zone that starts inside the effective zone and has a non-negative
   * size is extracted without error; one that starts left of it makes
   * extract throw on left.
   */
  lemma ExtractionAcceptee(b: Brut)
    ensures b.x >= 0.0 && b.y >= 0.0 && b.w >= 0.0 && b.h >= 0.0 ==> RefusExtract(Extraction(b)).None?
    ensures b.x < 0.0 ==> RefusExtract(Extraction(b)) == Some(ParametreInvalide("left", Floor(b.x)))
  {
  }

  /** The crops of every zone with the earlier margins, in order. */
  function RectanglesLegacy(rois: seq<LayoutPosition>, imgW: nat, imgH: nat, marge: real): (r: seq<Rect>)
    requires FORMAT_WIDTH_MM - 2.0 * marge > 0.0 && FORMAT_HEIGHT_MM - 2.0 * marge > 0.0
    ensures |r| == |rois|
    ensures forall i :: 0 <= i < |rois| ==> r[i] == RectangleLegacy(rois[i], imgW, imgH, marge)
  {
    seq(|rois|, i requires 0 <= i < |rois| => RectangleLegacy(rois[i], imgW, imgH, marge))
  }

  /**
   * decouperROIs (earlier version) on an imgW x imgH scan: for each zone
   * in order, the crop is taken with sharp's extract, which throws on a
   * negative parameter, and handed to onDecoupe with the zone's index; a
   * rejected call rejects the whole operation.
   */
  method DecouperROIs(imgW: nat, imgH: nat, rois: seq<LayoutPosition>, tailleAprilTagsMm: real, margeAprilTagsMm: real,
                      rappel: Appel -> Option<Thrown>) returns (appels: seq<Appel>, r: Result<()>)
    requires FORMAT_WIDTH_MM - 2.0 * MargeZoneEffective(tailleAprilTagsMm, margeAprilTagsMm) > 0.0
    requires FORMAT_HEIGHT_MM - 2.0 * MargeZoneEffective(tailleAprilTagsMm, margeAprilTagsMm) > 0.0
    ensures (appels, r) == Appels(RectanglesLegacy(rois, imgW, imgH, MargeZoneEffective(tailleAprilTagsMm, margeAprilTagsMm)),
                                  0, RefusExtract, rappel)
  {
    var distance := MargeZoneEffective(tailleAprilTagsMm, margeAprilTagsMm);
    var rects := RectanglesLegacy(rois, imgW, imgH, distance);
    appels, r := Boucle(rects, RefusExtract, rappel);
  }

  /**
   * With no padding the two croppers start at the same pixel whenever the
   * zone starts inside the image: clamping only matters at the edges.
   */
  lemma MemeDebutSansPadding(b: Brut, imgW: int, imgH: int)
    requires b.x >= 0.0 && b.y >= 0.0
    ensures Decoupe(b, 0.0, 0.0, imgW, imgH).left == Extraction(b).left
    ensures Decoupe(b, 0.0, 0.0, imgW, imgH).top == Extraction(b).top
  {
  }
}
