/**
 * The `analyze_document` tool: take the text of an uploaded document (from
 * its URL when one is given), refuse text that is too short, cut long text
 * and frame it for the agent.
 */
module AnalyzeDocument {
  import opened Wrappers
  import opened Text
  import opened Context

  const MaxChars: nat := 30000
  const MinStrippedLength: nat := 50

  const TooShortMessage := "ERROR: The document appears to be empty or too short to analyze. Please upload a valid document."
  const FetchFailurePrefix := "Failed to fetch document from URL: "
  const Banner := "=== DOCUMENT CONTENT ===\n"
  const Footer := "\n\n=== END DOCUMENT ==="

  /**
   * The text the tool works on: with a (truthy) URL, what `fetch(url)`
   * returns replaces the supplied text; a `ValueError` from the fetch is
   * `Err` with its message.
   */
  function DocumentText(documentUrl: Option<string>, documentText: Option<string>,
                        fetch: string -> Result<string, string>): Result<Option<string>, string>
  {
    if Truthy(documentUrl) then
      match fetch(documentUrl.value)
      case Err(e) => Err(e)
      case Ok(text) => Ok(Some(text))
    else Ok(documentText)
  }

  /** The text kept: the first 30000 characters. */
  function Truncated(text: string): (body: string)
    ensures |body| == if |text| > MaxChars then MaxChars else |text|
    ensures body == text[..|body|]
  {
    if |text| > MaxChars then text[..MaxChars] else text
  }

  /** The header lines, up to the blank line before the body. */
  function Header(analysisType: string, state: string, length: nat, truncated: bool): string {
    Banner + HeaderLines(analysisType, state, length, truncated)
  }

  function HeaderLines(analysisType: string, state: string, length: nat, truncated: bool): string {
    "Type: " + analysisType + "\nJurisdiction: " + state
      + "\nLength: " + NatToString(length) + " characters" + (if truncated then " (truncated)" else "") + "\n\n"
  }

  function Framed(text: string, analysisType: string, state: string): string {
    var body := Truncated(text);
    Header(analysisType, state, |body|, |text| > MaxChars) + body + Footer
  }

  /** The tool. */
  function AnalyzeDocumentResult(documentUrl: Option<string>, documentText: Option<string>,
                                 analysisType: string, state: string,
                                 fetch: string -> Result<string, string>): string
  {
    match DocumentText(documentUrl, documentText, fetch)
    case Err(e) => FetchFailurePrefix + e
    case Ok(text) =>
      if !Truthy(text) || |Strip(text.value)| < MinStrippedLength then TooShortMessage
      else Framed(text.value, analysisType, state)
  }

  // ---------------------------------------------------------------------
  // Properties
  // ---------------------------------------------------------------------

  /**
   * The outcomes: a failed fetch names its error; missing or short text
   * (after stripping) is refused; anything else is framed.
   */
  lemma AnalyzeOutcome(documentUrl: Option<string>, documentText: Option<string>,
                       analysisType: string, state: string, fetch: string -> Result<string, string>)
    ensures var r := AnalyzeDocumentResult(documentUrl, documentText, analysisType, state, fetch);
      Truthy(documentUrl) && fetch(documentUrl.value).Err? ==>
        r == FetchFailurePrefix + fetch(documentUrl.value).error
    ensures var r := AnalyzeDocumentResult(documentUrl, documentText, analysisType, state, fetch);
      var t := DocumentText(documentUrl, documentText, fetch);
      t.Ok? ==>
        && (!Truthy(t.value) ==> r == TooShortMessage)
        && (Truthy(t.value) && |Strip(t.value.value)| < MinStrippedLength ==> r == TooShortMessage)
        && (Truthy(t.value) && |Strip(t.value.value)| >= MinStrippedLength ==>
              r == Framed(t.value.value, analysisType, state))
  {
  }

  /** Supplied text of fewer than 50 characters is refused whatever it holds. */
  lemma ShortTextRefused(documentText: string, analysisType: string, state: string,
                         fetch: string -> Result<string, string>)
    requires |documentText| < MinStrippedLength
    ensures AnalyzeDocumentResult(None, Some(documentText), analysisType, state, fetch) == TooShortMessage
  {
    StripEmptyIff(documentText);
  }

  /** With a URL that fetches, the supplied text is ignored. */
  lemma UrlReplacesText(documentUrl: Option<string>, text1: Option<string>, text2: Option<string>,
                        analysisType: string, state: string, fetch: string -> Result<string, string>)
    requires Truthy(documentUrl)
    ensures AnalyzeDocumentResult(documentUrl, text1, analysisType, state, fetch)
         == AnalyzeDocumentResult(documentUrl, text2, analysisType, state, fetch)
  {
  }

  /** Text of more than 30000 characters keeps its first 30000; shorter text is untouched. */
  lemma TruncationRule(text: string)
    ensures |text| > MaxChars ==> Truncated(text) == text[..MaxChars]
    ensures |text| <= MaxChars ==> Truncated(text) == text
  {
  }

  /**
   * The framing can be undone: the body sits between the header, which
   * reports its length and whether it was cut, and the footer.
   */
  lemma FramedBody(text: string, analysisType: string, state: string)
    ensures var body := Truncated(text);
      var h := Header(analysisType, state, |body|, |text| > MaxChars);
      var r := Framed(text, analysisType, state);
      && StartsWith(r, Banner)
      && EndsWith(r, Footer)
      && |r| == |h| + |body| + |Footer|
      && r[|h|..|r| - |Footer|] == body
  {
    var body := Truncated(text);
    var h := Header(analysisType, state, |body|, |text| > MaxChars);
    var lines := HeaderLines(analysisType, state, |body|, |text| > MaxChars);
    ThreeParts(h, body, Footer);
    ThreeParts(Banner, lines, body + Footer);
    assert h + body + Footer == Banner + lines + (body + Footer);
  }

  lemma ThreeParts(a: string, b: string, c: string)
    ensures var s := a + b + c;
      && |s| == |a| + |b| + |c|
      && s[..|a|] == a
      && s[|a|..|a| + |b|] == b
      && s[|a| + |b|..] == c
  {
  }

  /** The reported length is read back as the length of the body, which is never more than 30000. */
  lemma ReportedLength(text: string)
    ensures DecimalValue(NatToString(|Truncated(text)|)) == |Truncated(text)| <= MaxChars
  {
    NatToStringRoundTrip(|Truncated(text)|);
  }
}
