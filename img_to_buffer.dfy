// src/core/lecture/preparation/conversion/imgToBuffer.ts: an image file is
// passed on as it is; only its metadata, read by sharp, is checked.
module ImgToBuffer {
  import opened Wrappers
  import opened Erreurs
  import opened ScanData

  /** The fields of sharp's metadata that are read; a missing field is None. */
  datatype Metadonnees = Metadonnees(width: Option<int>, height: Option<int>, channels: Option<int>)

  const MESSAGE_METADONNEES: string := "Impossible de lire les métadonnées de l'image source."

  /** A number is falsy in JavaScript when missing or zero. */
  predicate Renseigne(v: Option<int>)
  {
    v.Some? && v.value != 0
  }

  /**
   * imgToBuffer after the metadata call: a missing or zero width, height or
   * channel count is an ErreurDocumentSource; otherwise the three are copied
   * unchecked (two channels pass), debug is on and the buffer is encoded.
   */
  function ImgToBuffer(meta: Metadonnees): (r: Result<ScanData>)
    ensures r.Err? <==> !Renseigne(meta.width) || !Renseigne(meta.height) || !Renseigne(meta.channels)
    ensures r.Err? ==> r == Fail(ErreurDocumentSource, MESSAGE_METADONNEES)
    ensures r.Ok? ==>
      r.value.width == meta.width.value && r.value.height == meta.height.value &&
      r.value.channels == meta.channels.value && r.value.debug && !r.value.raw
  {
    if !Renseigne(meta.width) || !Renseigne(meta.height) || !Renseigne(meta.channels) then
      Fail(ErreurDocumentSource, MESSAGE_METADONNEES)
    else
      Ok(ScanData(meta.channels.value, true, meta.width.value, meta.height.value, false))
  }

  /** A channel count outside 1, 3 and 4 is accepted as it is. */
  lemma DeuxCanauxAcceptes(w: int, h: int)
    requires w != 0 && h != 0
    ensures ImgToBuffer(Metadonnees(Some(w), Some(h), Some(2))) == Ok(ScanData(2, true, w, h, false))
  {
  }
}
