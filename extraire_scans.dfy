// src/core/lecture/preparation/extraireScans.ts: turn an uploaded document
// into scans, handing each one to a callback as soon as it is extracted.
module ExtraireScans {
  import opened Wrappers
  import opened Erreurs
  import opened ScanData
  import opened ConversionPdf
  import opened ImgToBuffer

  /** One call of `onScanExtrait`: the scan and its buffer. */
  type Appel = (ScanData, seq<bv8>)

  const MIME_PDF: string := "application/pdf"
  const MIMES_IMAGE: set<string> := {"image/jpeg", "image/png", "image/tiff"}

  function MessageType(mimeType: string): string
  {
    "Type de document source non supporté : " + mimeType
  }

  /** `Math.min(pdf.numPages, lirenb ?? pdf.numPages)`. */
  function NbPages(numPages: nat, lirenb: Option<int>): (n: int)
    ensures n <= numPages
    ensures lirenb.None? ==> n == numPages
    ensures lirenb.Some? ==> n == if lirenb.value < numPages then lirenb.value else numPages
  {
    match lirenb
    case None => numPages
    case Some(l) => if l < numPages then l else numPages
  }

  /** What pdfToBuffer gives for each page of the document, page 1 first. */
  function Resultats(pdf: seq<Page>): (res: seq<Result<Appel>>)
    requires forall p :: 0 <= p < |pdf| ==> PageResolue(pdf[p])
    ensures |res| == |pdf|
  {
    seq(|pdf|, i requires 0 <= i < |pdf| => Extraction(pdf, i + 1))
  }

  /**
   * The answer of onScanExtrait to its call number k (from 0) with the
   * given scan: None when its promise resolves, the rejection otherwise.
   * The calls before call k are fixed by the document, so this covers a
   * callback whose answer depends on what it received earlier.
   */
  type Rappel = (nat, Appel) -> Option<Thrown>

  /**
   * The calls made for pages 1 .. n, in that order, and how the loop ends,
   * given each page's extraction and the callback's answers: the first page
   * whose extraction fails ends it with that error, after the calls for
   * the pages before it; a call whose promise rejects ends it with that
   * rejection, after that call.
   */
  function Pages(res: seq<Result<Appel>>, n: int, rappel: Rappel): (r: (seq<Appel>, Result<()>))
    requires n <= |res|
    decreases if n < 0 then 0 else n
  {
    if n <= 0 then ([], Ok(()))
    else
      var (appels, fin) := Pages(res, n - 1, rappel);
      if fin.Err? then (appels, fin)
      else match res[n - 1]
        case Err(e) => (appels, Err(e))
        case Ok(scan) =>
          (appels + [scan], match rappel(n - 1, scan) case Some(e) => Err(e) case None => Ok(()))
  }

  /**
   * The shape of the loop's run: call i carries page i + 1's scan, every
   * call but the last resolved; the loop succeeds only after all n pages
   * and calls; an error is either the last call's rejection or, when that
   * call resolved, the error of the page after the calls.
   */
  lemma {:induction false} PagesForme(res: seq<Result<Appel>>, n: int, rappel: Rappel)
    requires n <= |res|
    ensures var r, m := Pages(res, n, rappel), if n < 0 then 0 else n;
      |r.0| <= m &&
      (forall i :: 0 <= i < |r.0| ==> res[i].Ok? && r.0[i] == res[i].value) &&
      (forall i :: 0 <= i < |r.0| - 1 ==> rappel(i, r.0[i]).None?) &&
      (r.1.Ok? ==> |r.0| == m && forall i :: 0 <= i < m ==> rappel(i, r.0[i]).None?) &&
      (r.1.Err? ==>
        if |r.0| > 0 && rappel(|r.0| - 1, r.0[|r.0| - 1]).Some? then r.1.error == rappel(|r.0| - 1, r.0[|r.0| - 1]).value
        else |r.0| < m && res[|r.0|] == Err(r.1.error))
    decreases if n < 0 then 0 else n
  {
    if n > 0 {
      PagesForme(res, n - 1, rappel);
      var avant := Pages(res, n - 1, rappel);
      if avant.1.Ok? && res[n - 1].Ok? {
        var r := Pages(res, n, rappel);
        assert r.0 == avant.0 + [res[n - 1].value];
        assert forall i :: 0 <= i < |avant.0| ==> r.0[i] == avant.0[i];
      }
    }
  }

  /** The loop ends without error exactly when every page among 1 .. n is extracted and every call resolves. */
  lemma PagesSansErreur(res: seq<Result<Appel>>, n: int, rappel: Rappel)
    requires n <= |res|
    ensures Pages(res, n, rappel).1.Ok? <==>
      forall i :: 0 <= i < n ==> res[i].Ok? && rappel(i, res[i].value).None?
  {
    PagesForme(res, n, rappel);
    var r := Pages(res, n, rappel);
    if r.1.Err? && |r.0| > 0 && rappel(|r.0| - 1, r.0[|r.0| - 1]).Some? {
      assert r.0[|r.0| - 1] == res[|r.0| - 1].value;
    }
  }

  /** When no page fails and no call rejects, the call at position i is for page i + 1, with what was extracted from it. */
  lemma PagesDansLOrdre(res: seq<Result<Appel>>, n: int, rappel: Rappel)
    requires n <= |res|
    requires forall i :: 0 <= i < n ==> res[i].Ok? && rappel(i, res[i].value).None?
    ensures Pages(res, n, rappel).1.Ok?
    ensures |Pages(res, n, rappel).0| == (if n < 0 then 0 else n)
    ensures forall i :: 0 <= i < n ==> Pages(res, n, rappel).0[i] == res[i].value
  {
    PagesSansErreur(res, n, rappel);
    PagesForme(res, n, rappel);
  }

  /** Once the loop has stopped with an error, later pages change nothing. */
  lemma {:induction false} ErreurDefinitive(res: seq<Result<Appel>>, m: int, n: int, rappel: Rappel)
    requires m <= n <= |res|
    requires Pages(res, m, rappel).1.Err?
    ensures Pages(res, n, rappel) == Pages(res, m, rappel)
    decreases n - m
  {
    if n > m {
      ErreurDefinitive(res, m, n - 1, rappel);
    }
  }

  /**
   * When page p is the first to fail, the calls are those for pages
   * 1 .. p - 1 and the error is page p's: the failure propagates and later
   * pages are not read.
   */
  lemma ArretALaPremiereErreur(res: seq<Result<Appel>>, n: int, p: nat, rappel: Rappel)
    requires n <= |res| && 1 <= p <= n
    requires res[p - 1].Err? && forall i :: 0 <= i < p - 1 ==> res[i].Ok? && rappel(i, res[i].value).None?
    ensures Pages(res, n, rappel).1 == res[p - 1].PropagateFailure()
    ensures |Pages(res, n, rappel).0| == p - 1
    ensures forall i :: 0 <= i < p - 1 ==> Pages(res, n, rappel).0[i] == res[i].value
  {
    PagesDansLOrdre(res, p - 1, rappel);
    assert Pages(res, p, rappel) == (Pages(res, p - 1, rappel).0, res[p - 1].PropagateFailure());
    ErreurDefinitive(res, p, n, rappel);
  }

  /**
   * When the call for page p is the first to reject, the calls are those
   * for pages 1 .. p and the rejection is the outcome: later pages are not
   * read.
   */
  lemma ArretAuPremierRejet(res: seq<Result<Appel>>, n: int, p: nat, rappel: Rappel)
    requires n <= |res| && 1 <= p <= n
    requires forall i :: 0 <= i < p ==> res[i].Ok?
    requires forall i :: 0 <= i < p - 1 ==> rappel(i, res[i].value).None?
    requires rappel(p - 1, res[p - 1].value).Some?
    ensures Pages(res, n, rappel).1 == Err(rappel(p - 1, res[p - 1].value).value)
    ensures |Pages(res, n, rappel).0| == p
    ensures forall i :: 0 <= i < p ==> Pages(res, n, rappel).0[i] == res[i].value
  {
    PagesDansLOrdre(res, p - 1, rappel);
    var avant := Pages(res, p - 1, rappel);
    assert Pages(res, p, rappel) == (avant.0 + [res[p - 1].value], Err(rappel(p - 1, res[p - 1].value).value));
    assert forall i :: 0 <= i < p - 1 ==> (avant.0 + [res[p - 1].value])[i] == avant.0[i];
    ErreurDefinitive(res, p, n, rappel);
  }

  /**
   * A page within range never fails with ErreurConversion: the loop stays
   * within 1 .. numPages, so the loop ends with that error only when the
   * callback itself rejected with it.
   */
  lemma JamaisHorsPlage(pdf: seq<Page>, n: int, rappel: Rappel)
    requires forall p :: 0 <= p < |pdf| ==> PageResolue(pdf[p])
    requires n <= |pdf|
    ensures forall i :: 0 <= i < |pdf| ==> Resultats(pdf)[i] != Fail(ErreurConversion, MESSAGE_PAGE)
    ensures var r := Pages(Resultats(pdf), n, rappel);
      r.1 == Fail(ErreurConversion, MESSAGE_PAGE) ==>
        |r.0| > 0 && rappel(|r.0| - 1, r.0[|r.0| - 1]) == Some(Fail<()>(ErreurConversion, MESSAGE_PAGE).error)
  {
    var res := Resultats(pdf);
    forall i | 0 <= i < |pdf|
      ensures res[i] != Fail(ErreurConversion, MESSAGE_PAGE)
    {
      assert res[i] == Extraction(pdf, i + 1);
    }
    PagesForme(res, n, rappel);
  }

  /**
   * What extraireScans does for a document: the calls made to the callback,
   * in order, and its outcome. The PDF parser's result (the pages), the
   * image's metadata and the callback's answers are given.
   */
  function Extraire(doc: DocumentSource, pdf: seq<Page>, meta: Metadonnees, lirenb: Option<int>, rappel: Rappel)
    : (r: (seq<Appel>, Result<()>))
    requires forall p :: 0 <= p < |pdf| ==> PageResolue(pdf[p])
  {
    if doc.mimeType == MIME_PDF then Pages(Resultats(pdf), NbPages(|pdf|, lirenb), rappel)
    else if doc.mimeType in MIMES_IMAGE then
      match ImgToBuffer.ImgToBuffer(meta)
      case Err(e) => ([], Err(e))
      case Ok(scan) =>
        ([(scan, doc.data)], match rappel(0, (scan, doc.data)) case Some(e) => Err(e) case None => Ok(()))
    else ([], Fail(ErreurDocumentSource, MessageType(doc.mimeType)))
  }

  /** The PDF branch's loop over pages 1 .. nbPages, each page extracted and its call awaited before the next. */
  method ExtrairePages(pdf: seq<Page>, nbPages: int, rappel: Rappel) returns (appels: seq<Appel>, fin: Result<()>)
    requires forall p :: 0 <= p < |pdf| ==> PageResolue(pdf[p])
    requires nbPages <= |pdf|
    ensures (appels, fin) == Pages(Resultats(pdf), nbPages, rappel)
  {
    appels := [];
    ghost var res := Resultats(pdf);
    var pageNum := 1;
    while pageNum <= nbPages
      invariant 1 <= pageNum <= (if nbPages < 1 then 1 else nbPages + 1)
      invariant Pages(res, pageNum - 1, rappel) == (appels, Ok(()))
      decreases nbPages - pageNum
    {
      var r := PdfToBuffer(pdf, pageNum);
      assert res[pageNum - 1] == r;
      if r.Err? {
        assert Pages(res, pageNum, rappel) == (appels, Err(r.error));
        ErreurDefinitive(res, pageNum, nbPages, rappel);
        return appels, Err(r.error);
      }
      var rejet := rappel(pageNum - 1, r.value);
      appels := appels + [r.value];
      if rejet.Some? {
        assert Pages(res, pageNum, rappel) == (appels, Err(rejet.value));
        ErreurDefinitive(res, pageNum, nbPages, rappel);
        return appels, Err(rejet.value);
      }
      assert Pages(res, pageNum, rappel) == (appels, Ok(()));
      pageNum := pageNum + 1;
    }
    return appels, Ok(());
  }

  /** extraireScans: the switch on the MIME type. */
  method ExtraireScansDocument(doc: DocumentSource, pdf: seq<Page>, meta: Metadonnees, lirenb: Option<int>, rappel: Rappel)
    returns (appels: seq<Appel>, fin: Result<()>)
    requires forall p :: 0 <= p < |pdf| ==> PageResolue(pdf[p])
    ensures (appels, fin) == Extraire(doc, pdf, meta, lirenb, rappel)
  {
    if doc.mimeType == MIME_PDF {
      var nbPages := NbPages(|pdf|, lirenb);
      appels, fin := ExtrairePages(pdf, nbPages, rappel);
    } else if doc.mimeType in MIMES_IMAGE {
      var scan := ImgToBuffer.ImgToBuffer(meta);
      if scan.Err? {
        return [], Err(scan.error);
      }
      appels := [(scan.value, doc.data)];
      var rejet := rappel(0, (scan.value, doc.data));
      if rejet.Some? {
        return appels, Err(rejet.value);
      }
      fin := Ok(());
    } else {
      return [], Fail(ErreurDocumentSource, MessageType(doc.mimeType));
    }
  }

  /** A limit of zero pages or fewer gives no call and no error. */
  lemma AucunePage(doc: DocumentSource, pdf: seq<Page>, meta: Metadonnees, l: int, rappel: Rappel)
    requires forall p :: 0 <= p < |pdf| ==> PageResolue(pdf[p])
    requires doc.mimeType == MIME_PDF && l <= 0
    ensures Extraire(doc, pdf, meta, Some(l), rappel) == ([], Ok(()))
  {
  }

  /**
   * With no limit, every page of the PDF is read: when no page fails and
   * no call rejects, the calls are one per page, page after page.
   */
  lemma ToutesLesPages(doc: DocumentSource, pdf: seq<Page>, meta: Metadonnees, rappel: Rappel)
    requires forall p :: 0 <= p < |pdf| ==> PageResolue(pdf[p])
    requires doc.mimeType == MIME_PDF
    requires forall p :: 1 <= p <= |pdf| ==> Extraction(pdf, p).Ok? && rappel(p - 1, Extraction(pdf, p).value).None?
    ensures Extraire(doc, pdf, meta, None, rappel).1.Ok?
    ensures |Extraire(doc, pdf, meta, None, rappel).0| == |pdf|
    ensures forall i :: 0 <= i < |pdf| ==> Extraire(doc, pdf, meta, None, rappel).0[i] == Extraction(pdf, i + 1).value
  {
    var res := Resultats(pdf);
    forall i | 0 <= i < |pdf|
      ensures res[i].Ok? && rappel(i, res[i].value).None?
    {
      assert res[i] == Extraction(pdf, i + 1);
    }
    PagesDansLOrdre(res, |pdf|, rappel);
  }

  /**
   * An image with valid metadata gets exactly one call, with the
   * document's own bytes, and the outcome is that call's; invalid metadata
   * makes no call. It succeeds exactly when both go through.
   */
  lemma UneImageUnAppel(doc: DocumentSource, pdf: seq<Page>, meta: Metadonnees, lirenb: Option<int>, rappel: Rappel)
    requires forall p :: 0 <= p < |pdf| ==> PageResolue(pdf[p])
    requires doc.mimeType in MIMES_IMAGE
    ensures var r, scan := Extraire(doc, pdf, meta, lirenb, rappel), ImgToBuffer.ImgToBuffer(meta);
      (r.1.Ok? <==> scan.Ok? && rappel(0, (scan.value, doc.data)).None?) &&
      (scan.Err? ==> r == ([], Err(scan.error))) &&
      (scan.Ok? ==> r.0 == [(scan.value, doc.data)]) &&
      (scan.Ok? && rappel(0, (scan.value, doc.data)).Some? ==> r.1 == Err(rappel(0, (scan.value, doc.data)).value))
  {
  }

  /** Any other type is an ErreurDocumentSource naming the type, with no call. */
  lemma TypeNonSupporte(doc: DocumentSource, pdf: seq<Page>, meta: Metadonnees, lirenb: Option<int>, rappel: Rappel)
    requires forall p :: 0 <= p < |pdf| ==> PageResolue(pdf[p])
    requires doc.mimeType != MIME_PDF && doc.mimeType !in MIMES_IMAGE
    ensures Extraire(doc, pdf, meta, lirenb, rappel) == ([], Fail(ErreurDocumentSource, MessageType(doc.mimeType)))
  {
  }
}
