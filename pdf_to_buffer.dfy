// src/core/lecture/preparation/conversion/pdfToBuffer.ts: a scanned PDF page
// is not rendered; the largest image it paints is taken as the scan, and a
// 1-bit-per-pixel image is unpacked to 8-bit grey.
module ConversionPdf {
  import opened Wrappers
  import opened Erreurs
  import opened ScanData

  /** The pixel data of an image object: a Uint8ClampedArray, a Uint8Array, or anything else. */
  datatype Donnees = Octets(bytes: seq<bv8>, clamped: bool) | AutreDonnee

  /** An image object as pdf.js resolves it; a field that is not a number is None. */
  datatype ImageObjet = ImageObjet(width: Option<int>, height: Option<int>, data: Donnees, kind: Option<int>)

  /** One entry of a page's operator list; only image painting is relevant. */
  datatype Operation = PaintImageXObject(nom: string) | AutreOperation

  /**
   * A page: its operator list and the objects it resolved. pdf.js resolves
   * every object an operator refers to before handing out the list.
   */
  datatype Page = Page(ops: seq<Operation>, objs: map<string, ImageObjet>)

  predicate PageResolue(page: Page)
  {
    forall j :: 0 <= j < |page.ops| && page.ops[j].PaintImageXObject? ==> page.ops[j].nom in page.objs
  }

  /** Operator j paints an image whose data is a byte array and whose size is numeric. */
  predicate Candidate(page: Page, j: nat, clampedSeulement: bool)
    requires PageResolue(page) && j < |page.ops|
  {
    page.ops[j].PaintImageXObject? &&
    var img := page.objs[page.ops[j].nom];
    img.data.Octets? && (img.data.clamped || !clampedSeulement) && img.width.Some? && img.height.Some?
  }

  function Aire(page: Page, j: nat): int
    requires PageResolue(page) && j < |page.ops| && page.ops[j].PaintImageXObject?
  {
    var img := page.objs[page.ops[j].nom];
    if img.width.Some? && img.height.Some? then img.width.value * img.height.value else 0
  }

  /**
   * The scan for the largest image over the first n operators: the operator
   * whose image is a candidate of positive area, strictly larger than every
   * earlier candidate and at least as large as every later one; none when no
   * candidate has a positive area.
   */
  function PlusGrande(page: Page, n: nat, clampedSeulement: bool): (r: Option<nat>)
    requires PageResolue(page) && n <= |page.ops|
    ensures r.Some? ==>
      r.value < n && Candidate(page, r.value, clampedSeulement) && Aire(page, r.value) > 0 &&
      (forall j :: 0 <= j < r.value && Candidate(page, j, clampedSeulement) ==> Aire(page, j) < Aire(page, r.value)) &&
      (forall j :: r.value < j < n && Candidate(page, j, clampedSeulement) ==> Aire(page, j) <= Aire(page, r.value))
    ensures r.None? ==> forall j :: 0 <= j < n && Candidate(page, j, clampedSeulement) ==> Aire(page, j) <= 0
  {
    if n == 0 then None
    else
      var avant := PlusGrande(page, n - 1, clampedSeulement);
      var record := match avant case None => 0 case Some(k) => Aire(page, k);
      if Candidate(page, n - 1, clampedSeulement) && Aire(page, n - 1) > record then Some(n - 1) else avant
  }

  /**
   * The selection loop: it tracks the largest area so far (starting at 0)
   * and the name of its image, replaced only on a strictly larger area.
   */
  method ChoisirImage(page: Page, clampedSeulement: bool) returns (largestImgNom: Option<string>)
    requires PageResolue(page)
    ensures largestImgNom == match PlusGrande(page, |page.ops|, clampedSeulement)
      case None => None case Some(k) => Some(page.ops[k].nom)
  {
    largestImgNom := None;
    var largestImgAire := 0;
    for j := 0 to |page.ops|
      invariant largestImgNom == match PlusGrande(page, j, clampedSeulement) case None => None case Some(k) => Some(page.ops[k].nom)
      invariant largestImgAire == match PlusGrande(page, j, clampedSeulement) case None => 0 case Some(k) => Aire(page, k)
    {
      ghost var avant := PlusGrande(page, j, clampedSeulement);
      assert PlusGrande(page, j + 1, clampedSeulement) ==
        if Candidate(page, j, clampedSeulement) && Aire(page, j) > largestImgAire then Some(j) else avant;
      if page.ops[j].PaintImageXObject? {
        var imgName := page.ops[j].nom;
        var imgObj := page.objs[imgName];
        if !imgObj.data.Octets? || (clampedSeulement && !imgObj.data.clamped) || imgObj.width.None? || imgObj.height.None? {
          continue;
        }
        var imgAire := imgObj.width.value * imgObj.height.value;
        if imgAire > largestImgAire {
          largestImgAire := imgAire;
          largestImgNom := Some(imgName);
        }
      }
    }
  }

  /** Bit `bit` of a byte, counting from the most significant: `(byte >> (7 - bit)) & 1`. */
  function Bit(b: bv8, bit: nat): (v: bv8)
    requires bit < 8
    ensures v == 0 || v == 1
  {
    (b >> (7 - bit)) & 1
  }

  /** The grey value of a bit: 0 or 255. */
  function Gris(v: bv8): (g: bv8)
    requires v == 0 || v == 1
    ensures g == 0 || g == 255
  {
    if v == 1 then 255 else 0
  }

  /**
   * The 1bpp unpack as written: output pixel k is bit k of the byte stream
   * read linearly, most significant bit first; pixels past the data stay 0.
   */
  function Decompacte(bytes: seq<bv8>, n: nat): (data: seq<bv8>)
    ensures |data| == n
  {
    seq(n, k requires 0 <= k < n => if k / 8 < |bytes| then Gris(Bit(bytes[k / 8], k % 8)) else 0)
  }

  /**
   * The unpack loop, over a zeroed buffer of width x height bytes: bit `bit`
   * of byte i is written at i * 8 + bit, and a write past the end of the
   * buffer is dropped, as typed arrays drop it.
   */
  method Decompacter(imgData: seq<bv8>, n: nat) returns (data: seq<bv8>)
    ensures data == Decompacte(imgData, n)
  {
    var buffer := new bv8[n];
    forall k | 0 <= k < n {
      buffer[k] := 0;
    }
    for i := 0 to |imgData|
      invariant forall k :: 0 <= k < n ==> buffer[k] == if k / 8 < i then Gris(Bit(imgData[k / 8], k % 8)) else 0
    {
      var byte := imgData[i];
      for bit := 0 to 8
        invariant forall k :: 0 <= k < n ==>
          buffer[k] == if k / 8 < i || (k / 8 == i && k % 8 < bit) then Gris(Bit(imgData[k / 8], k % 8)) else 0
      {
        var pixel := (byte >> (7 - bit)) & 1;
        if i * 8 + bit < n {
          assert (i * 8 + bit) / 8 == i && (i * 8 + bit) % 8 == bit;
          buffer[i * 8 + bit] := pixel * 255;
        }
      }
    }
    data := buffer[..];
  }

  /** Every unpacked byte is black or white. */
  lemma DecompacteBinaire(bytes: seq<bv8>, n: nat, k: nat)
    requires k < n
    ensures Decompacte(bytes, n)[k] == 0 || Decompacte(bytes, n)[k] == 255
  {
  }

  /** The channel count of an image kind: 1 grey, 2 RGB, anything else RGBA. */
  function Canaux(kind: Option<int>): (c: int)
    ensures c in {1, 3, 4}
    ensures c == 1 <==> kind == Some(1)
    ensures c == 3 <==> kind == Some(2)
  {
    if kind == Some(1) then 1 else if kind == Some(2) then 3 else 4
  }

  const MESSAGE_PAGE: string := "Numéro de page invalide pour le PDF fourni."
  const MESSAGE_AUCUNE_IMAGE: string := "Aucune image trouvée sur la page du PDF."

  /**
   * What pdfToBuffer yields for a document given as its pages: a page number
   * outside 1 .. number of pages is an ErreurConversion, raised before any
   * page is read; a page with no candidate image of positive area (or whose
   * chosen image has an empty name, which is falsy) is an ErreurPdfIncompatible.
   * Otherwise the chosen image's size, its channel count, debug for page 1
   * only and raw pixels, with grey images unpacked and other data as given.
   */
  function Extraction(pdf: seq<Page>, pageNum: int): (r: Result<(ScanData, seq<bv8>)>)
    requires forall p :: 0 <= p < |pdf| ==> PageResolue(pdf[p])
    ensures r == Fail(ErreurConversion, MESSAGE_PAGE) <==> pageNum < 1 || pageNum > |pdf|
    ensures r.Err? ==> r == Fail(ErreurConversion, MESSAGE_PAGE) || r == Fail(ErreurPdfIncompatible, MESSAGE_AUCUNE_IMAGE)
    ensures r.Ok? ==>
      var page := pdf[pageNum - 1];
      exists j :: 0 <= j < |page.ops| && Candidate(page, j, false) && page.ops[j].nom != "" &&
        var img := page.objs[page.ops[j].nom];
        r.value.0.width == img.width.value && r.value.0.height == img.height.value &&
        r.value.0.width * r.value.0.height > 0 && r.value.0.channels == Canaux(img.kind)
    ensures r.Ok? ==> r.value.0.raw && (r.value.0.debug <==> pageNum == 1)
    ensures r.Ok? && r.value.0.channels == 1 ==>
      |r.value.1| == r.value.0.width * r.value.0.height &&
      forall k :: 0 <= k < |r.value.1| ==> r.value.1[k] == 0 || r.value.1[k] == 255
  {
    if pageNum < 1 || pageNum > |pdf| then Fail(ErreurConversion, MESSAGE_PAGE)
    else
      var page := pdf[pageNum - 1];
      match PlusGrande(page, |page.ops|, false)
      case None => Fail(ErreurPdfIncompatible, MESSAGE_AUCUNE_IMAGE)
      case Some(k) =>
        var img := page.objs[page.ops[k].nom];
        if page.ops[k].nom == "" then Fail(ErreurPdfIncompatible, MESSAGE_AUCUNE_IMAGE)
        else
          Ok((ScanData(Canaux(img.kind), pageNum == 1, img.width.value, img.height.value, true),
              if img.kind == Some(1) then Decompacte(img.data.bytes, img.width.value * img.height.value)
              else img.data.bytes))
  }

  /** pdfToBuffer: the page check, the selection loop and the unpack loop. */
  method PdfToBuffer(pdf: seq<Page>, pageNum: int) returns (r: Result<(ScanData, seq<bv8>)>)
    requires forall p :: 0 <= p < |pdf| ==> PageResolue(pdf[p])
    ensures r == Extraction(pdf, pageNum)
  {
    if pageNum < 1 || pageNum > |pdf| {
      return Fail(ErreurConversion, MESSAGE_PAGE);
    }
    var page := pdf[pageNum - 1];
    var largestImgNom := ChoisirImage(page, false);
    if largestImgNom.None? || largestImgNom.value == "" {
      return Fail(ErreurPdfIncompatible, MESSAGE_AUCUNE_IMAGE);
    }
    var imgObj := page.objs[largestImgNom.value];
    var canaux := Canaux(imgObj.kind);
    var data: seq<bv8>;
    if imgObj.kind == Some(1) {
      data := Decompacter(imgObj.data.bytes, imgObj.width.value * imgObj.height.value);
    } else {
      data := imgObj.data.bytes;
    }
    var scanData := ScanData(canaux, pageNum == 1, imgObj.width.value, imgObj.height.value, true);
    return Ok((scanData, data));
  }

  /** Bytes per row of a 1bpp image: every row starts on a byte boundary. */
  function Pas(width: nat): nat
  {
    (width + 7) / 8
  }

  /**
   * The sample the image format calls for at column x of row y: bit x % 8,
   * most significant first, of byte x / 8 of the row, the row starting at
   * byte y * Pas(width); 0 past the data.
   */
  function Echantillon(bytes: seq<bv8>, width: nat, x: nat, y: nat): (g: bv8)
    requires x < width
    ensures g == 0 || g == 255
  {
    var i := y * Pas(width) + x / 8;
    if i < |bytes| then Gris(Bit(bytes[i], x % 8)) else 0
  }

  /** Row y of the unpacked image. */
  function Rangee(bytes: seq<bv8>, width: nat, y: nat): (r: seq<bv8>)
    ensures |r| == width
  {
    seq(width, x requires 0 <= x < width => Echantillon(bytes, width, x, y))
  }

  /** The unpack the image format calls for: the first `height` rows, one after the other. */
  function DecompacteLignes(bytes: seq<bv8>, width: nat, height: nat): (data: seq<bv8>)
    ensures |data| == width * height
  {
    if height == 0 then []
    else
      assert width * height == width * (height - 1) + width;
      DecompacteLignes(bytes, width, height - 1) + Rangee(bytes, width, height - 1)
  }

  /** Pixel (x, y) of the corrected unpack is the sample of column x in row y, read from row y's own bytes. */
  lemma {:induction false} DecompacteLignesPixel(bytes: seq<bv8>, width: nat, height: nat, x: nat, y: nat)
    requires x < width && y < height
    ensures y * width + x < width * height
    ensures DecompacteLignes(bytes, width, height)[y * width + x] == Echantillon(bytes, width, x, y)
  {
    var n, k := width * (height - 1), y * width + x;
    Rangs(width, height, x, y);
    var debut, derniere := DecompacteLignes(bytes, width, height - 1), Rangee(bytes, width, height - 1);
    assert DecompacteLignes(bytes, width, height) == debut + derniere;
    if y == height - 1 {
      DansSecondePartie(debut, derniere, k);
    } else {
      DecompacteLignesPixel(bytes, width, height - 1, x, y);
      DansPremierePartie(debut, derniere, k);
    }
  }

  lemma DansPremierePartie(a: seq<bv8>, b: seq<bv8>, k: nat)
    requires k < |a|
    ensures k < |a + b| && (a + b)[k] == a[k]
  {
  }

  lemma DansSecondePartie(a: seq<bv8>, b: seq<bv8>, k: nat)
    requires |a| <= k < |a| + |b|
    ensures k < |a + b| && (a + b)[k] == b[k - |a|]
  {
  }

  /** Where pixel (x, y) falls against the first height - 1 rows. */
  lemma Rangs(width: nat, height: nat, x: nat, y: nat)
    requires x < width && y < height
    ensures width * height == width * (height - 1) + width
    ensures 0 <= y * width && 0 <= width * (height - 1)
    ensures y == height - 1 ==> y * width + x == width * (height - 1) + x
    ensures y < height - 1 ==> y * width + x < width * (height - 1)
  {
    if y < height - 1 {
      MulMonotone(y + 1, height - 1, width);
    }
  }

  lemma MulMonotone(a: nat, b: nat, c: nat)
    requires a <= b
    ensures a * c <= b * c
  {
  }

  /** The corrected unpack loop: row by row, each row reading its own Pas(width) bytes. */
  method DecompacterLignes(imgData: seq<bv8>, width: nat, height: nat) returns (data: seq<bv8>)
    ensures data == DecompacteLignes(imgData, width, height)
  {
    data := [];
    for y := 0 to height
      invariant data == DecompacteLignes(imgData, width, y)
    {
      var rangee := DecompacterRangee(imgData, width, y);
      data := data + rangee;
    }
  }

  /** The inner loop of the corrected unpack: the samples of row y, column by column. */
  method DecompacterRangee(imgData: seq<bv8>, width: nat, y: nat) returns (rangee: seq<bv8>)
    ensures rangee == Rangee(imgData, width, y)
  {
    var pas := (width + 7) / 8;
    assert pas == Pas(width);
    ghost var attendue := Rangee(imgData, width, y);
    rangee := [];
    for x := 0 to width
      invariant rangee == attendue[..x]
    {
      var i := y * pas + x / 8;
      var pixel: bv8 := if i < |imgData| then Gris(Bit(imgData[i], x % 8)) else 0;
      assert pixel == Echantillon(imgData, width, x, y) == attendue[x];
      assert attendue[..x + 1] == attendue[..x] + [pixel];
      rangee := rangee + [pixel];
    }
    assert attendue[..width] == attendue;
  }

  /** With the width a multiple of 8 there is no row padding and the unpack as written is right. */
  lemma {:induction false} SansRemplissage(bytes: seq<bv8>, width: nat, height: nat)
    requires width % 8 == 0
    ensures Decompacte(bytes, width * height) == DecompacteLignes(bytes, width, height)
  {
    if height > 0 {
      SansRemplissage(bytes, width, height - 1);
      var n := width * (height - 1);
      var total := width * height;
      assert total == n + width;
      var lineaire, debut, derniere := Decompacte(bytes, total), DecompacteLignes(bytes, width, height - 1), Rangee(bytes, width, height - 1);
      assert debut == Decompacte(bytes, n);
      assert DecompacteLignes(bytes, width, height) == debut + derniere;
      forall k | 0 <= k < n + width
        ensures lineaire[k] == (debut + derniere)[k]
      {
        if k < n {
          assert lineaire[k] == debut[k];
        } else {
          var x := k - n;
          assert k == (height - 1) * width + x;
          PixelLineaire(bytes, width, total, x, height - 1, k);
          assert lineaire[k] == Echantillon(bytes, width, x, height - 1) == derniere[x];
        }
      }
      assert lineaire == debut + derniere;
    }
  }

  /** With the width a multiple of 8, the linear unpack reads pixel (x, y) from the byte and bit row y's own bytes call for. */
  lemma PixelLineaire(bytes: seq<bv8>, width: nat, total: nat, x: nat, y: nat, k: nat)
    requires width % 8 == 0 && x < width && k == y * width + x && k < total
    ensures Decompacte(bytes, total)[k] == Echantillon(bytes, width, x, y)
  {
    var b := width / 8;
    assert Pas(width) == b;
    assert y * width == 8 * (y * b);
    assert k / 8 == y * b + x / 8 && k % 8 == x % 8;
  }

  /**
   * A 3 x 2 image, rows padded to one byte each: row 0 white, row 1 all set.
   * The linear unpack reads row 1's first pixel from row 0's padding bits.
   */
  lemma RemplissageIgnore()
    ensures DecompacteLignes([0x00, 0xE0], 3, 2)[3] == 255
    ensures Decompacte([0x00, 0xE0], 6)[3] == 0
  {
    DecompacteLignesPixel([0x00, 0xE0], 3, 2, 0, 1);
    assert Pas(3) == 1;
    assert Bit(0xE0, 0) == 1;
    assert Bit(0x00, 3) == 0;
  }
}
