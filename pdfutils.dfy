// src/utils/pdfUtils.ts: unit conversion between millimetres and PDF points.
module PdfUtils {
  /** mmToPoints: one inch is 25.4 mm and 72 points. */
  function MmToPoints(mm: real): (pt: real)
    ensures mm > 0.0 ==> pt > mm
    ensures mm == 0.0 ==> pt == 0.0
  {
    (mm * 72.0) / 25.4
  }

  /** The inverse conversion, written `v * 25.4 / 72` where the ROI cropper uses it. */
  function PointsToMm(pt: real): (mm: real)
    ensures pt > 0.0 ==> mm < pt
  {
    pt * 25.4 / 72.0
  }

  /** Round trip in both directions. */
  lemma MmPointsRoundTrip(mm: real, pt: real)
    ensures PointsToMm(MmToPoints(mm)) == mm
    ensures MmToPoints(PointsToMm(pt)) == pt
  {
  }

  /** The conversion is additive, so positions and sizes can be converted separately. */
  lemma MmToPointsAdditive(a: real, b: real)
    ensures MmToPoints(a + b) == MmToPoints(a) + MmToPoints(b)
    ensures MmToPoints(a - b) == MmToPoints(a) - MmToPoints(b)
  {
  }

  /** A strictly increasing conversion. */
  lemma MmToPointsMonotone(a: real, b: real)
    requires a < b
    ensures MmToPoints(a) < MmToPoints(b)
  {
  }
}
