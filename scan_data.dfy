// The records exchanged by the ingest stage (src/core/lecture/preparation/extraireScans.ts):
// a source document and the description of one extracted scan.
module ScanData {
  /** DocumentSource: the uploaded bytes and their declared type. */
  datatype DocumentSource = DocumentSource(data: seq<bv8>, encoding: string, mimeType: string)

  /**
   * ScanData: the pixel layout of a scan buffer; raw says the buffer holds
   * raw pixels rather than an encoded image. channels is declared 1, 3 or 4
   * in the source but not checked, so it is any integer here.
   */
  datatype ScanData = ScanData(channels: int, debug: bool, width: int, height: int, raw: bool)
}
