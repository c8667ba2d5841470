/**
 * The vector-PDF heuristic of `utils/pdfUtils.ts`. Both extractors are
 * mocks that look only at the file name; the decision rule looks only at
 * the extracted text and the image count.
 */
module PdfUtils {
  import opened Strings

  /** The text the extractor mock returns for a file it does not treat as a scan. */
  const SampleText: string := "Sample text content from PDF..."

  /** Fewer characters than this, together with an image, marks a scan. */
  const TextThreshold: nat := 50

  /** `extractPdfText`: empty for a "scan", the fixed sample otherwise. */
  function ExtractPdfText(fileName: string): (text: string)
    ensures text == "" <==> Contains(ToLower(fileName), "scan")
    ensures text != "" ==> text == SampleText
    ensures |text| < TextThreshold
  {
    if Contains(ToLower(fileName), "scan") then "" else SampleText
  }

  /** `detectEmbeddedImages`: five images for a "scan" or an "image", none otherwise. */
  function DetectEmbeddedImages(fileName: string): (count: nat)
    ensures count == 5 <==> Contains(ToLower(fileName), "scan") || Contains(ToLower(fileName), "image")
    ensures count == 0 || count == 5
  {
    var lower := ToLower(fileName);
    if Contains(lower, "scan") || Contains(lower, "image") then 5 else 0
  }

  /**
   * The decision rule of `isVectorPDF`: a document is scanned when it has
   * an embedded image and fewer than 50 characters of text.
   */
  function IsVectorContent(text: string, imageCount: nat): (vector: bool)
    ensures imageCount == 0 ==> vector
    ensures |text| >= TextThreshold ==> vector
    ensures imageCount > 0 && |text| < TextThreshold ==> !vector
  {
    !(imageCount > 0 && |text| < TextThreshold)
  }

  /**
   * `isVectorPDF` with the two mocks: a file passes exactly when its
   * lower-cased name mentions neither "scan" nor "image".
   */
  function IsVectorPdf(fileName: string): (vector: bool)
    ensures vector <==> !Contains(ToLower(fileName), "scan") && !Contains(ToLower(fileName), "image")
  {
    IsVectorContent(ExtractPdfText(fileName), DetectEmbeddedImages(fileName))
  }
}
