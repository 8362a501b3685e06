// src/lecture/preparation/conversion/pdfToCanvas.ts: the legacy PDF reader.
// The largest Uint8ClampedArray image of the page is taken as the scan and
// its RGB pixels are widened to RGBA before being drawn on a canvas.
module ConversionCanvas {
  import opened Wrappers
  import opened Erreurs
  import opened ConversionPdf

  const MESSAGE_INCOMPATIBLE: string := "L'image extraite du PDF est dans un format incompatible."

  /**
   * The length of the RGBA buffer, `new Uint8ClampedArray((n / 3) * 4)`: the
   * division is exact, and the typed array truncates the fractional length.
   */
  function LongueurRgba(n: nat): (l: nat)
    ensures n % 3 == 0 ==> l == n / 3 * 4
    ensures l * 3 <= n * 4 < l * 3 + 3
  {
    n * 4 / 3
  }

  /**
   * The RGBA buffer: byte 4k + c is colour c of input pixel k for c < 3, and
   * the alpha byte 4k + 3 is 255.
   */
  function Rgba(rgb: seq<bv8>): (out: seq<bv8>)
    ensures |out| == LongueurRgba(|rgb|)
  {
    seq(LongueurRgba(|rgb|), p requires 0 <= p < LongueurRgba(|rgb|) =>
      if p % 4 == 3 then 255 else
        assert p / 4 * 3 + p % 4 < |rgb|;
        rgb[p / 4 * 3 + p % 4])
  }

  /** Every colour byte of every whole pixel is copied, and every whole pixel is opaque. */
  lemma RgbaPixel(rgb: seq<bv8>, k: nat)
    requires 3 * k + 2 < |rgb|
    ensures 4 * k + 3 < |Rgba(rgb)|
    ensures Rgba(rgb)[4 * k] == rgb[3 * k]
    ensures Rgba(rgb)[4 * k + 1] == rgb[3 * k + 1]
    ensures Rgba(rgb)[4 * k + 2] == rgb[3 * k + 2]
    ensures Rgba(rgb)[4 * k + 3] == 255
  {
    assert (k + 1) * 12 <= |rgb| * 4;
  }

  /** The first j bytes of s are those of the RGBA buffer of rgb. */
  ghost predicate CopieJusque(s: seq<bv8>, rgb: seq<bv8>, j: nat)
  {
    |s| == LongueurRgba(|rgb|) && forall p :: 0 <= p < |s| && p < j ==> s[p] == Rgba(rgb)[p]
  }

  /**
   * One step of the widening loop: writing input pixel k's three colours
   * (0 past the input) and 255 at 4k extends the copied prefix by four.
   */
  lemma EtapeRgba(rgb: seq<bv8>, k: nat, avant: seq<bv8>, apres: seq<bv8>, bloc: seq<bv8>)
    requires 3 * k < |rgb| && CopieJusque(avant, rgb, 4 * k) && |apres| == |avant|
    requires |bloc| == 4 && bloc[0] == rgb[3 * k] && bloc[3] == 255
    requires 3 * k + 1 < |rgb| ==> bloc[1] == rgb[3 * k + 1]
    requires 3 * k + 2 < |rgb| ==> bloc[2] == rgb[3 * k + 2]
    requires forall p :: 0 <= p < |apres| ==> apres[p] == if 4 * k <= p < 4 * k + 4 then bloc[p - 4 * k] else avant[p]
    ensures CopieJusque(apres, rgb, 4 * k + 4)
  {
    var i, j, l, out := 3 * k, 4 * k, LongueurRgba(|rgb|), Rgba(rgb);
    assert j / 4 == k && j % 4 == 0;
    assert (j + 1) / 4 == k && (j + 1) % 4 == 1;
    assert (j + 2) / 4 == k && (j + 2) % 4 == 2;
    assert (j + 3) % 4 == 3;
    forall p | 0 <= p < l && p < j + 4
      ensures apres[p] == out[p]
    {
      if p < j {
        assert apres[p] == avant[p];
      } else if p == j + 1 {
        assert i + 1 < |rgb|;
      } else if p == j + 2 {
        assert i + 2 < |rgb|;
      }
    }
  }

  /**
   * The widening loop: i steps through the input by 3 and j through the
   * output by 4. A read past the input gives undefined, stored as 0, and a
   * write past the output is dropped, as typed arrays do.
   */
  method VersRgba(imgData: seq<bv8>) returns (rgbaData: seq<bv8>)
    ensures rgbaData == Rgba(imgData)
  {
    var n := |imgData|;
    var longueur := n * 4 / 3;
    var buffer := new bv8[longueur];
    ghost var k := 0;
    var i, j := 0, 0;
    while i < n
      invariant i == 3 * k && j == 4 * k
      invariant i <= n + 2
      invariant CopieJusque(buffer[..], imgData, j)
      decreases n - i
    {
      var c0 := imgData[i];
      var c1: bv8 := if i + 1 < n then imgData[i + 1] else 0;
      var c2: bv8 := if i + 2 < n then imgData[i + 2] else 0;
      ghost var avant := buffer[..];
      Ecrire(buffer, j, [c0, c1, c2, 255]);
      EtapeRgba(imgData, k, avant, buffer[..], [c0, c1, c2, 255]);
      i, j, k := i + 3, j + 4, k + 1;
    }
    rgbaData := buffer[..];
  }

  /** Four bytes written from position j on; the writes past the end of the buffer are dropped, as typed arrays drop them. */
  method Ecrire(buffer: array<bv8>, j: nat, bloc: seq<bv8>)
    requires |bloc| == 4
    modifies buffer
    ensures forall p :: 0 <= p < buffer.Length ==> buffer[p] == if j <= p < j + 4 then bloc[p - j] else old(buffer[p])
  {
    if j < buffer.Length { buffer[j] := bloc[0]; }
    if j + 1 < buffer.Length { buffer[j + 1] := bloc[1]; }
    if j + 2 < buffer.Length { buffer[j + 2] := bloc[2]; }
    if j + 3 < buffer.Length { buffer[j + 3] := bloc[3]; }
  }

  /** The canvas handed back: its size and the RGBA pixels put into it. */
  datatype Canvas = Canvas(width: int, height: int, rgba: seq<bv8>)

  /**
   * pdfToCanvas on a document given as its pages. The page check and the
   * selection are those of pdfToBuffer, except that only Uint8ClampedArray
   * data qualifies. The second check on the chosen image (present, clamped
   * data) always passes, since only such images are chosen.
   */
  function Dessin(pdf: seq<Page>, pageNum: int): (r: Result<Canvas>)
    requires forall p :: 0 <= p < |pdf| ==> PageResolue(pdf[p])
    ensures r == Fail(ErreurConversion, MESSAGE_PAGE) <==> pageNum < 1 || pageNum > |pdf|
    ensures r.Err? ==> r == Fail(ErreurConversion, MESSAGE_PAGE) || r == Fail(ErreurPdfIncompatible, MESSAGE_AUCUNE_IMAGE)
    ensures r.Ok? ==>
      var page := pdf[pageNum - 1];
      exists j :: 0 <= j < |page.ops| && Candidate(page, j, true) && page.ops[j].nom != "" &&
        var img := page.objs[page.ops[j].nom];
        img.data.clamped && r.value == Canvas(img.width.value, img.height.value, Rgba(img.data.bytes))
  {
    if pageNum < 1 || pageNum > |pdf| then Fail(ErreurConversion, MESSAGE_PAGE)
    else
      var page := pdf[pageNum - 1];
      match PlusGrande(page, |page.ops|, true)
      case None => Fail(ErreurPdfIncompatible, MESSAGE_AUCUNE_IMAGE)
      case Some(k) =>
        var img := page.objs[page.ops[k].nom];
        if page.ops[k].nom == "" then Fail(ErreurPdfIncompatible, MESSAGE_AUCUNE_IMAGE)
        else Ok(Canvas(img.width.value, img.height.value, Rgba(img.data.bytes)))
  }

  /** pdfToCanvas: the page check, the selection loop, the second check and the widening loop. */
  method PdfToCanvas(pdf: seq<Page>, pageNum: int) returns (r: Result<Canvas>)
    requires forall p :: 0 <= p < |pdf| ==> PageResolue(pdf[p])
    ensures r == Dessin(pdf, pageNum)
  {
    if pageNum < 1 || pageNum > |pdf| {
      return Fail(ErreurConversion, MESSAGE_PAGE);
    }
    var page := pdf[pageNum - 1];
    var largestImgNom := ChoisirImage(page, true);
    if largestImgNom.None? || largestImgNom.value == "" {
      return Fail(ErreurPdfIncompatible, MESSAGE_AUCUNE_IMAGE);
    }
    var imgObj := page.objs[largestImgNom.value];
    assert imgObj.data.Octets? && imgObj.data.clamped;
    var rgbaData := VersRgba(imgObj.data.bytes);
    return Ok(Canvas(imgObj.width.value, imgObj.height.value, rgbaData));
  }

  /**
   * The legacy reader and pdfToBuffer agree on which pages fail with
   * ErreurConversion and, on a page whose images are all clamped, choose the
   * same image.
   */
  lemma MemeSelection(page: Page)
    requires PageResolue(page)
    requires forall j :: 0 <= j < |page.ops| && page.ops[j].PaintImageXObject? ==>
      page.objs[page.ops[j].nom].data.Octets? ==> page.objs[page.ops[j].nom].data.clamped
    ensures PlusGrande(page, |page.ops|, true) == PlusGrande(page, |page.ops|, false)
  {
    MemeSelectionAvant(page, |page.ops|);
  }

  lemma {:induction false} MemeSelectionAvant(page: Page, n: nat)
    requires PageResolue(page) && n <= |page.ops|
    requires forall j :: 0 <= j < |page.ops| && page.ops[j].PaintImageXObject? ==>
      page.objs[page.ops[j].nom].data.Octets? ==> page.objs[page.ops[j].nom].data.clamped
    ensures PlusGrande(page, n, true) == PlusGrande(page, n, false)
  {
    if n > 0 {
      MemeSelectionAvant(page, n - 1);
      assert Candidate(page, n - 1, true) == Candidate(page, n - 1, false);
    }
  }
}
