/**
 * Parsing an uploaded file: dispatch on the file name's suffix, join the
 * text of PDF pages and Word paragraphs, and turn images into data URLs.
 * What the PDF, Word and image libraries extract or encode is an input.
 */
module DocumentParser {
  import opened Wrappers
  import opened Text
  import opened Sorting

  type Bytes = seq<bv8>

  /** `(parsed_content, content_type)` */
  datatype Parsed = Parsed(content: string, contentType: string)

  /**
   * The libraries: the text of each PDF page, the text of each Word
   * paragraph, the base64 text of the image re-encoded in a format, and the
   * UTF-8 decoding; `Err` (or `None`) when the library raises.
   */
  datatype Libraries = Libraries(
    pdfPages: Bytes -> Result<seq<string>, string>,
    docxParagraphs: Bytes -> Result<seq<string>, string>,
    encodeImage: (Bytes, string) -> Result<string, string>,
    decodeUtf8: Bytes -> Option<string>)

  const Separator := "\n\n"

  // ---------------------------------------------------------------------
  // parse_pdf
  // ---------------------------------------------------------------------

  function PageLabel(n: nat): string {
    "--- Page " + NatToString(n) + " ---\n"
  }

  /** Page `n`'s text under its label. */
  function Labelled(n: nat, page: string): string {
    PageLabel(n) + page
  }

  /** The labelled parts of the pages with text, numbered from 1 by their place in the file. */
  function PdfParts(pages: seq<string>): seq<string> {
    if pages == [] then []
    else
      var n := |pages| - 1;
      PdfParts(pages[..n]) + (if pages[n] != "" then [Labelled(n + 1, pages[n])] else [])
  }

  /** The indices of the pages with text, in increasing order. */
  function TextPages(pages: seq<string>): (idx: seq<nat>)
    ensures forall k :: 0 <= k < |idx| ==> idx[k] < |pages| && pages[idx[k]] != ""
    ensures forall k, l :: 0 <= k < l < |idx| ==> idx[k] < idx[l]
    ensures forall i :: 0 <= i < |pages| && pages[i] != "" ==> i in idx
  {
    if pages == [] then []
    else
      var n := |pages| - 1;
      var front := TextPages(pages[..n]);
      assert forall i :: 0 <= i < n ==> pages[..n][i] == pages[i];
      front + (if pages[n] != "" then [n] else [])
  }

  /** The parts are the labelled pages with text, in order, each with its own number. */
  predicate PartsLabelled(pages: seq<string>) {
    var idx := TextPages(pages);
    && |PdfParts(pages)| == |idx|
    && forall k :: 0 <= k < |idx| ==> PdfParts(pages)[k] == Labelled(idx[k] + 1, pages[idx[k]])
  }

  lemma {:induction false} PdfPartsLabelled(pages: seq<string>)
    ensures PartsLabelled(pages)
  {
    if pages != [] {
      var n := |pages| - 1;
      PdfPartsLabelled(pages[..n]);
      if pages[n] == "" {
        BlankPageAdds(pages);
      } else {
        TextPageAdds(pages);
      }
    }
  }

  /** A last page without text adds no part. */
  lemma BlankPageAdds(pages: seq<string>)
    requires pages != [] && pages[|pages| - 1] == ""
    requires PartsLabelled(pages[..|pages| - 1])
    ensures PartsLabelled(pages)
  {
    var front := pages[..|pages| - 1];
    assert PdfParts(pages) == PdfParts(front);
    assert TextPages(pages) == TextPages(front);
    assert forall k :: 0 <= k < |TextPages(front)| ==> front[TextPages(front)[k]] == pages[TextPages(front)[k]];
  }

  /** A last page with text adds its labelled part at the end. */
  lemma TextPageAdds(pages: seq<string>)
    requires pages != [] && pages[|pages| - 1] != ""
    requires PartsLabelled(pages[..|pages| - 1])
    ensures PartsLabelled(pages)
  {
    var n := |pages| - 1;
    var front := pages[..n];
    var parts := PdfParts(pages);
    var frontParts := PdfParts(front);
    var idx := TextPages(pages);
    var frontIdx := TextPages(front);
    assert parts == frontParts + [Labelled(n + 1, pages[n])];
    assert idx == frontIdx + [n];
    forall k | 0 <= k < |idx| ensures parts[k] == Labelled(idx[k] + 1, pages[idx[k]]) {
      if k < |frontIdx| {
        assert parts[k] == frontParts[k];
        assert idx[k] == frontIdx[k];
        assert front[frontIdx[k]] == pages[frontIdx[k]];
      }
    }
  }

  /** `parse_pdf` on the extracted page texts. */
  method ParsePdfPages(pages: seq<string>) returns (text: string)
    ensures text == Join(PdfParts(pages), Separator)
  {
    var parts: seq<string> := [];
    for i := 0 to |pages|
      invariant parts == PdfParts(pages[..i])
    {
      var pageText := pages[i];
      if pageText != "" {
        parts := parts + [Labelled(i + 1, pageText)];
      }
      assert pages[..i + 1][..i] == pages[..i];
    }
    assert pages[..|pages|] == pages;
    text := Join(parts, Separator);
  }

  function ParsePdf(content: Bytes, libs: Libraries): Result<string, string> {
    match libs.pdfPages(content)
    case Err(e) => Err("Failed to parse PDF: " + e)
    case Ok(pages) => Ok(Join(PdfParts(pages), Separator))
  }

  // ---------------------------------------------------------------------
  // parse_docx
  // ---------------------------------------------------------------------

  predicate HasText(p: string) {
    Strip(p) != ""
  }

  /** `[p.text for p in doc.paragraphs if p.text.strip()]`: kept unstripped. */
  function DocxParagraphs(paragraphs: seq<string>): seq<string> {
    Filter(paragraphs, HasText)
  }

  /**
   * A paragraph is kept exactly when it has a non-whitespace character; it
   * is kept as it was, as often as it occurs.
   */
  lemma DocxKeepsText(paragraphs: seq<string>)
    ensures forall p :: p in DocxParagraphs(paragraphs) ==> exists i :: 0 <= i < |p| && !IsSpace(p[i])
    ensures forall p :: (exists i :: 0 <= i < |p| && !IsSpace(p[i])) ==>
      multiset(DocxParagraphs(paragraphs))[p] == multiset(paragraphs)[p]
    ensures forall p :: (forall i :: 0 <= i < |p| ==> IsSpace(p[i])) ==> p !in DocxParagraphs(paragraphs)
  {
    FilterMultiset(paragraphs, HasText);
    forall p: string ensures HasText(p) <==> exists i :: 0 <= i < |p| && !IsSpace(p[i]) {
      StripEmptyIff(p);
    }
  }

  function ParseDocx(content: Bytes, libs: Libraries): Result<string, string> {
    match libs.docxParagraphs(content)
    case Err(e) => Err("Failed to parse Word document: " + e)
    case Ok(paragraphs) => Ok(Join(DocxParagraphs(paragraphs), Separator))
  }

  // ---------------------------------------------------------------------
  // parse_image_to_base64
  // ---------------------------------------------------------------------

  /** PNG when the MIME type mentions png, JPEG otherwise. */
  function ImageFormat(mimeType: string): string {
    if Contains(Lower(mimeType), "png") then "PNG" else "JPEG"
  }

  /** The data URL names the MIME type it was given, whatever format the bytes were saved in. */
  function ParseImage(content: Bytes, mimeType: string, libs: Libraries): Result<string, string> {
    match libs.encodeImage(content, ImageFormat(mimeType))
    case Err(e) => Err("Failed to parse image: " + e)
    case Ok(b64) => Ok("data:" + mimeType + ";base64," + b64)
  }

  // ---------------------------------------------------------------------
  // parse_document
  // ---------------------------------------------------------------------

  predicate IsImageName(lower: string) {
    EndsWith(lower, ".png") || EndsWith(lower, ".jpg") || EndsWith(lower, ".jpeg")
    || EndsWith(lower, ".gif") || EndsWith(lower, ".webp")
  }

  /** The MIME type of an image file name (lower-cased). */
  function MimeFor(lower: string): string {
    var base := if EndsWith(lower, ".png") then "image/png" else "image/jpeg";
    if EndsWith(lower, ".gif") then "image/gif"
    else if EndsWith(lower, ".webp") then "image/webp"
    else base
  }

  function WithType(r: Result<string, string>, contentType: string): Result<Parsed, string> {
    match r
    case Err(e) => Err(e)
    case Ok(text) => Ok(Parsed(text, contentType))
  }

  /** The dispatch; `Err` is the `ValueError` the function raises. */
  function ParseDocument(content: Bytes, filename: string, libs: Libraries): (r: Result<Parsed, string>)
    ensures r.Ok? ==> r.value.contentType in {"text", "image"}
  {
    var lower := Lower(filename);
    if EndsWith(lower, ".pdf") then WithType(ParsePdf(content, libs), "text")
    else if EndsWith(lower, ".docx") || EndsWith(lower, ".doc") then WithType(ParseDocx(content, libs), "text")
    else if IsImageName(lower) then WithType(ParseImage(content, MimeFor(lower), libs), "image")
    else match libs.decodeUtf8(content)
      case None => Err("Unsupported file type: " + filename)
      case Some(text) => Ok(Parsed(text, "text"))
  }

  // ---------------------------------------------------------------------
  // Properties
  // ---------------------------------------------------------------------

  /**
   * The content type is "image" exactly for the image suffixes (and no PDF
   * or Word suffix), whatever the case of the name; an unknown suffix is
   * read as UTF-8 text or refused.
   */
  lemma DispatchBySuffix(content: Bytes, filename: string, libs: Libraries)
    ensures var lower := Lower(filename);
      var r := ParseDocument(content, filename, libs);
      && (r.Ok? ==> (r.value.contentType == "image" <==>
            IsImageName(lower) && !EndsWith(lower, ".pdf") && !EndsWith(lower, ".docx") && !EndsWith(lower, ".doc")))
      && (EndsWith(lower, ".pdf") ==> r == WithType(ParsePdf(content, libs), "text"))
      && (!EndsWith(lower, ".pdf") && (EndsWith(lower, ".docx") || EndsWith(lower, ".doc")) ==>
            r == WithType(ParseDocx(content, libs), "text"))
      && (!EndsWith(lower, ".pdf") && !EndsWith(lower, ".docx") && !EndsWith(lower, ".doc") && !IsImageName(lower) ==>
            r == (if libs.decodeUtf8(content).Some? then Ok(Parsed(libs.decodeUtf8(content).value, "text"))
                  else Err("Unsupported file type: " + filename)))
  {
  }

  /** The characters at the end of a string with a given suffix. */
  lemma SuffixChars(s: string, suffix: string)
    requires EndsWith(s, suffix)
    ensures forall k :: 0 <= k < |suffix| ==> s[|s| - |suffix| + k] == suffix[k]
  {
    forall k | 0 <= k < |suffix| ensures s[|s| - |suffix| + k] == suffix[k] {
      assert s[|s| - |suffix|..][k] == suffix[k];
    }
  }

  /** The image MIME table. */
  lemma MimeTable(lower: string)
    ensures EndsWith(lower, ".png") ==> MimeFor(lower) == "image/png"
    ensures EndsWith(lower, ".gif") ==> MimeFor(lower) == "image/gif"
    ensures EndsWith(lower, ".webp") ==> MimeFor(lower) == "image/webp"
    ensures EndsWith(lower, ".jpg") || EndsWith(lower, ".jpeg") ==> MimeFor(lower) == "image/jpeg"
  {
    var n := |lower|;
    if EndsWith(lower, ".gif") {
      SuffixChars(lower, ".gif");
      assert lower[n - 1] == 'f';
    }
    if EndsWith(lower, ".webp") {
      SuffixChars(lower, ".webp");
      assert lower[n - 1] == 'p';
    }
    if EndsWith(lower, ".png") {
      SuffixChars(lower, ".png");
      assert lower[n - 1] == 'g' && lower[n - 3] == 'p' && lower[n - 2] == 'n';
    }
    if EndsWith(lower, ".jpg") {
      SuffixChars(lower, ".jpg");
      assert lower[n - 1] == 'g' && lower[n - 3] == 'j';
    }
    if EndsWith(lower, ".jpeg") {
      SuffixChars(lower, ".jpeg");
      assert lower[n - 1] == 'g' && lower[n - 2] == 'e';
    }
  }

  /** Only a PNG file is saved as PNG: GIF and WebP images are saved as JPEG under their own MIME type. */
  lemma ImageFormats()
    ensures ImageFormat("image/png") == "PNG"
    ensures ImageFormat("image/jpeg") == "JPEG"
    ensures ImageFormat("image/gif") == "JPEG"
    ensures ImageFormat("image/webp") == "JPEG"
  {
    PngFormat("image/png");
    JpegFormat("image/jpeg");
    JpegFormat("image/gif");
    JpegFormat("image/webp");
  }

  /** The three other image types are saved as JPEG. */
  lemma JpegFormat(m: string)
    requires m == "image/jpeg" || m == "image/gif" || m == "image/webp"
    ensures ImageFormat(m) == "JPEG"
  {
    NoN(m, m[6..]);
  }

  lemma PngFormat(m: string)
    requires m == "image/png"
    ensures ImageFormat(m) == "PNG"
  {
    LowerOfLower(m);
    assert m[6..9] == "png";
    ContainsAt(m, "png", 6);
  }

  /** Lower-casing leaves text without upper-case letters alone. */
  lemma LowerOfLower(s: string)
    requires forall i :: 0 <= i < |s| ==> !IsAsciiUpper(s[i])
    ensures Lower(s) == s
  {
  }

  /** Lower-case text without the letter n. */
  predicate LowerWithoutN(s: string) {
    forall i :: 0 <= i < |s| ==> !IsAsciiUpper(s[i]) && s[i] != 'n'
  }

  /** An image MIME type whose subtype has no upper-case letter and no n does not mention png. */
  lemma NoN(s: string, subtype: string)
    requires s == "image/" + subtype
    requires LowerWithoutN(subtype)
    ensures ImageFormat(s) == "JPEG"
  {
    assert LowerWithoutN("image/");
    assert LowerWithoutN(s) by {
      forall i | 0 <= i < |s| ensures !IsAsciiUpper(s[i]) && s[i] != 'n' {
        if i >= 6 {
          assert s[i] == subtype[i - 6];
        }
      }
    }
    LowerOfLower(s);
    ContainsChars(s, "png");
    assert "png"[1] == 'n';
  }
}
