/**
 * Reading the user's context out of the CopilotKit entries attached to the
 * agent state (backend/app/agents/utils/context.py). Every operation here is
 * a pure function of the entries.
 */
module Context {
  import opened Wrappers
  import opened Text

  /**
   * One CopilotKit context entry. A missing description or value reads as "".
   * `Broken` is an entry whose attribute access raises; the lookup skips it.
   */
  datatype ContextItem = Item(description: string, value: string) | Broken

  /**
   * `state["copilotkit"]`: `None` when the key is absent or its dictionary is
   * empty; otherwise the list under its "context" key ([] when absent).
   */
  type CopilotKit = Option<seq<ContextItem>>

  /** Python truthiness of an optional string: present and non-empty. */
  predicate Truthy(v: Option<string>) { v.Some? && v.value != "" }

  // ---------------------------------------------------------------------
  // extract_context_item
  // ---------------------------------------------------------------------

  /** The entry's description contains the keyword, ignoring case. */
  predicate Matches(item: ContextItem, keyword: string) {
    item.Item? && Contains(Lower(item.description), Lower(keyword))
  }

  /** The value of the first entry whose description matches. */
  function FirstMatching(items: seq<ContextItem>, keyword: string): (r: Option<string>)
    ensures r.None? <==> forall i :: 0 <= i < |items| ==> !Matches(items[i], keyword)
    ensures r.Some? ==> exists i :: 0 <= i < |items| && Matches(items[i], keyword)
                                    && items[i].value == r.value
                                    && forall j :: 0 <= j < i ==> !Matches(items[j], keyword)
  {
    if items == [] then None
    else if Matches(items[0], keyword) then Some(items[0].value)
    else
      var rest := FirstMatching(items[1..], keyword);
      assert forall i :: 1 <= i < |items| ==> items[i] == items[1..][i - 1];
      rest
  }

  function ExtractContextItem(copilotkit: CopilotKit, keyword: string): Option<string> {
    match copilotkit
    case None => None
    case Some(items) => FirstMatching(items, keyword)
  }

  /** The keyword is compared case-insensitively: its case never matters. */
  lemma ExtractIgnoresKeywordCase(copilotkit: CopilotKit, keyword: string)
    ensures ExtractContextItem(copilotkit, Upper(keyword)) == ExtractContextItem(copilotkit, keyword)
  {
    assert Lower(Upper(keyword)) == Lower(keyword);
  }

  // ---------------------------------------------------------------------
  // clean_context_value
  // ---------------------------------------------------------------------

  /** `value[1:-1]` when both ends are '"', else the value itself. */
  function Unquote(v: string): (r: string)
    ensures |r| <= |v|
  {
    if StartsWith(v, "\"") && EndsWith(v, "\"") then
      if |v| >= 2 then v[1..|v| - 1] else ""
    else v
  }

  /**
   * Undoes a double serialisation: one surrounding pair of '"' is removed,
   * then every `\"` becomes `"`. `None` and "" pass through unchanged.
   */
  function CleanContextValue(value: Option<string>): (r: Option<string>)
    ensures r.Some? <==> value.Some?
    ensures r.Some? ==> |r.value| <= |value.value|
    ensures value == Some("") ==> r == Some("")
  {
    match value
    case None => None
    case Some(v) =>
      if v == "" then value
      else
        ReplaceNotLonger(Unquote(v), "\\\"", "\"");
        Some(ReplaceAll(Unquote(v), "\\\"", "\""))
  }

  /** A value without any '"' is returned unchanged. */
  lemma CleanQuoteFree(v: string)
    requires '"' !in v
    ensures CleanContextValue(Some(v)) == Some(v)
  {
    if v != "" {
      ContainsChars(v, "\\\"");
      assert "\\\""[1] == '"';
      ReplaceAbsent(v, "\\\"", "\"");
    }
  }

  /** Exactly one surrounding pair of quotes is removed. */
  lemma CleanUnwrapsOnePair(s: string)
    requires '"' !in s
    ensures CleanContextValue(Some("\"" + s + "\"")) == Some(s)
  {
    var v := "\"" + s + "\"";
    assert v[1..|v| - 1] == s;
    assert v[..1] == "\"";
    assert v[|v| - 1..] == "\"";
    ContainsChars(s, "\\\"");
    assert "\\\""[1] == '"';
    ReplaceAbsent(s, "\\\"", "\"");
  }

  /** Without backslashes, cleaning only removes the surrounding pair of quotes. */
  lemma CleanBackslashFree(v: string)
    requires v != "" && '\\' !in v
    ensures CleanContextValue(Some(v)) == Some(Unquote(v))
  {
    var u := Unquote(v);
    assert forall k :: 0 <= k < |u| ==> u[k] in v by {
      if StartsWith(v, "\"") && EndsWith(v, "\"") && |v| >= 2 {
        assert forall k :: 0 <= k < |u| ==> u[k] == v[k + 1];
      }
    }
    ContainsChars(u, "\\\"");
    assert "\\\""[0] == '\\';
    ReplaceAbsent(u, "\\\"", "\"");
  }

  /** An escaped quote `\"` becomes a plain '"'; the text around it is kept. */
  lemma CleanUnescapes(a: string, b: string)
    requires '"' !in a && '\\' !in a && '"' !in b && '\\' !in b
    ensures CleanContextValue(Some(a + "\\\"" + b)) == Some(a + "\"" + b)
  {
    var p := "\\\"";
    var v := a + p + b;
    assert v[0] != '"' by {
      if a == [] { assert v[0] == p[0]; } else { assert v[0] == a[0]; }
    }
    assert !StartsWith(v, "\"");
    assert Unquote(v) == v;
    assert p[0] == '\\';
    ReplaceAfter(a, p, b, "\"");
    ContainsChars(b, p);
    ReplaceAbsent(b, p, "\"");
  }

  /**
   * Every escaped quote `\"` becomes a plain '"': text made of quote- and
   * backslash-free parts joined by `\"` comes back joined by '"'.
   */
  lemma CleanUnescapesAll(parts: seq<string>)
    requires |parts| >= 1
    requires forall i :: 0 <= i < |parts| ==> '"' !in parts[i] && '\\' !in parts[i]
    ensures CleanContextValue(Some(Join(parts, "\\\""))) == Some(Join(parts, "\""))
  {
    var p := "\\\"";
    var v := Join(parts, p);
    assert p[0] == '\\';
    if v != "" {
      assert v[0] != '"' by {
        if |parts| == 1 {
          assert v == parts[0];
        } else {
          assert v == parts[0] + p + Join(parts[1..], p);
          if parts[0] == [] { assert v[0] == p[0]; } else { assert v[0] == parts[0][0]; }
        }
      }
      assert !StartsWith(v, "\"");
      assert Unquote(v) == v;
      ReplaceJoin(parts, p, "\"");
    } else {
      assert |parts| == 1;
    }
  }

  /** Cleaning is not idempotent: a doubly quoted value needs two passes. */
  lemma CleanNotIdempotent()
    ensures CleanContextValue(Some("\"\"NSW\"\"")) == Some("\"NSW\"")
    ensures CleanContextValue(Some("\"NSW\"")) == Some("NSW")
  {
    var v := "\"\"NSW\"\"";
    assert v[..1] == "\"" && v[|v| - 1..] == "\"";
    assert v[1..|v| - 1] == "\"NSW\"";
    CleanBackslashFree(v);
    var w := "\"NSW\"";
    assert w[..1] == "\"" && w[|w| - 1..] == "\"";
    assert w[1..|w| - 1] == "NSW";
    CleanBackslashFree(w);
  }

  // ---------------------------------------------------------------------
  // extract_user_state
  // ---------------------------------------------------------------------

  const StateCodes: seq<string> := ["NSW", "VIC", "QLD", "SA", "WA", "TAS", "NT", "ACT"]

  /** The first code of `codes` that occurs in `upper`. */
  function FirstCodeIn(codes: seq<string>, upper: string): (r: Option<string>)
    ensures r.None? <==> forall i :: 0 <= i < |codes| ==> !Contains(upper, codes[i])
    ensures r.Some? ==> r.value in codes && Contains(upper, r.value)
  {
    if codes == [] then None
    else if Contains(upper, codes[0]) then Some(codes[0])
    else
      var rest := FirstCodeIn(codes[1..], upper);
      assert forall i :: 1 <= i < |codes| ==> codes[i] == codes[1..][i - 1];
      rest
  }

  /** A code that occurs, with none before it occurring, is the one reported. */
  lemma {:induction false} FirstCodeIsFirst(codes: seq<string>, upper: string, i: nat)
    requires i < |codes| && Contains(upper, codes[i])
    requires forall j :: 0 <= j < i ==> !Contains(upper, codes[j])
    ensures FirstCodeIn(codes, upper) == Some(codes[i])
  {
    if i > 0 {
      assert !Contains(upper, codes[0]);
      assert forall j :: 0 <= j < i - 1 ==> codes[1..][j] == codes[j + 1];
      FirstCodeIsFirst(codes[1..], upper, i - 1);
    }
  }

  /** A falsy cleaned value gives `None`; else the first code found in it, or the value itself. */
  function UserStateFrom(cleaned: Option<string>): (r: Option<string>)
    ensures r.None? <==> !Truthy(cleaned)
    ensures r.Some? ==> r.value in StateCodes || r == cleaned
    ensures (Truthy(cleaned) && exists k :: 0 <= k < |StateCodes| && Contains(Upper(cleaned.value), StateCodes[k]))
      ==> r == FirstCodeIn(StateCodes, Upper(cleaned.value))
    ensures (Truthy(cleaned) && forall k :: 0 <= k < |StateCodes| ==> !Contains(Upper(cleaned.value), StateCodes[k]))
      ==> r == cleaned
  {
    if !Truthy(cleaned) then None
    else match FirstCodeIn(StateCodes, Upper(cleaned.value))
      case Some(code) => Some(code)
      case None => cleaned
  }

  /** The state reported is the first of `StateCodes` found in the upper-cased value. */
  lemma UserStateFirstCode(cleaned: Option<string>, i: nat)
    requires Truthy(cleaned) && i < |StateCodes| && Contains(Upper(cleaned.value), StateCodes[i])
    requires forall j :: 0 <= j < i ==> !Contains(Upper(cleaned.value), StateCodes[j])
    ensures UserStateFrom(cleaned) == Some(StateCodes[i])
  {
    FirstCodeIsFirst(StateCodes, Upper(cleaned.value), i);
  }

  function ExtractUserState(copilotkit: CopilotKit): Option<string> {
    UserStateFrom(CleanContextValue(ExtractContextItem(copilotkit, "state/territory")))
  }

  /** The lookup is case-insensitive: "User is in nsw" gives "NSW". */
  lemma UserStateLowerCase()
    ensures UserStateFrom(Some("User is in nsw")) == Some("NSW")
  {
    var u := Upper("User is in nsw");
    assert u == "USER IS IN NSW";
    assert OccursAt(u, "NSW", 11);
    ContainsAt(u, "NSW", 11);
  }

  /**
   * The substring scan is order-sensitive: the full name "New South Wales"
   * contains "WA" but not "NSW", so it is reported as Western Australia.
   */
  lemma NewSouthWalesReadsAsWA(v: string)
    requires v == "New South Wales"
    ensures UserStateFrom(Some(v)) == Some("WA")
  {
    var u := Upper(v);
    assert u == "NEW SOUTH WALES";
    NewSouthWalesCodes(u);
    FirstCodeIsFirst(StateCodes, u, 4);
  }

  /** Which of the first five state codes occur in "NEW SOUTH WALES". */
  lemma NewSouthWalesCodes(u: string)
    requires u == "NEW SOUTH WALES"
    ensures forall j :: 0 <= j < 4 ==> !Contains(u, StateCodes[j])
    ensures Contains(u, StateCodes[4])
  {
    assert OccursAt(u, "WA", 10);
    ContainsAt(u, "WA", 10);
    NotInNewSouthWales(u, "NSW");
    NotInNewSouthWales(u, "VIC");
    NotInNewSouthWales(u, "QLD");
    NotInNewSouthWales(u, "SA");
  }

  /** No two neighbouring characters of "NEW SOUTH WALES" are "NS", "VI", "QL" or "SA". */
  lemma NotInNewSouthWales(u: string, code: string)
    requires u == "NEW SOUTH WALES"
    requires |code| >= 2
    requires || (code[0] == 'N' && code[1] == 'S') || (code[0] == 'V' && code[1] == 'I')
             || (code[0] == 'Q' && code[1] == 'L') || (code[0] == 'S' && code[1] == 'A')
    ensures !Contains(u, code)
  {
    ContainsPair(u, code);
  }

  // ---------------------------------------------------------------------
  // extract_document_url: the leftmost match of `https?://[^\s"]+`
  // ---------------------------------------------------------------------

  predicate IsUrlChar(c: char) { !IsSpace(c) && c != '"' }

  /** Length of the run of URL characters at the start of `s`. */
  function UrlRun(s: string): (n: nat)
    ensures n <= |s|
    ensures forall k :: 0 <= k < n ==> IsUrlChar(s[k])
    ensures n == |s| || !IsUrlChar(s[n])
  {
    if s == [] || !IsUrlChar(s[0]) then 0 else 1 + UrlRun(s[1..])
  }

  /** Length of the `https?://` prefix of `s`, or 0 when there is none. */
  function SchemeLength(s: string): (n: nat)
    ensures n == 0 || n == 7 || n == 8
  {
    if StartsWith(s, "https://") then 8 else if StartsWith(s, "http://") then 7 else 0
  }

  /** The match of the pattern anchored at the start of `s`, if any. */
  function UrlPrefix(s: string): (r: Option<string>)
    ensures r.Some? ==> StartsWith(s, r.value)
    ensures r.Some? ==> StartsWith(r.value, "http://") || StartsWith(r.value, "https://")
    ensures r.Some? ==> |r.value| > SchemeLength(s) > 0
    ensures r.Some? ==> forall k :: SchemeLength(s) <= k < |r.value| ==> IsUrlChar(r.value[k])
    ensures r.Some? ==> forall k :: 0 <= k < |r.value| ==> r.value[k] != '"'
    ensures r.Some? ==> |r.value| == |s| || !IsUrlChar(s[|r.value|])
    ensures r.None? ==> SchemeLength(s) == 0 || SchemeLength(s) == |s| || !IsUrlChar(s[SchemeLength(s)])
  {
    var n := SchemeLength(s);
    if n == 0 then None
    else
      var m := UrlRun(s[n..]);
      if m == 0 then None
      else
        var u := s[..n + m];
        assert u[..n] == s[..n];
        assert forall k :: 0 <= k < n ==> u[k] != '"' by {
          if n == 8 {
            assert forall k :: 0 <= k < 8 ==> u[k] == "https://"[k];
          } else {
            assert forall k :: 0 <= k < 7 ==> u[k] == "http://"[k];
          }
        }
        assert forall k :: n <= k < n + m ==> u[k] == s[n..][k - n];
        Some(u)
  }

  /** `re.search`: the anchored match at the leftmost index where there is one. */
  function SearchUrl(s: string): (r: Option<string>)
    ensures r.Some? ==> Contains(s, r.value)
    ensures r.Some? ==> StartsWith(r.value, "http://") || StartsWith(r.value, "https://")
    ensures r.Some? ==> forall k :: 0 <= k < |r.value| ==> r.value[k] != '"'
    decreases |s|
  {
    if s == [] then None
    else match UrlPrefix(s)
      case Some(u) => Some(u)
      case None => SearchUrl(s[1..])
  }

  /** The search returns the match at the leftmost matching index, and `None` only when no index matches. */
  lemma {:induction false} SearchUrlLeftmost(s: string)
    ensures SearchUrl(s).None? <==> forall i :: 0 <= i < |s| ==> UrlPrefix(s[i..]).None?
    ensures SearchUrl(s).Some? ==>
      exists i :: 0 <= i < |s| && UrlPrefix(s[i..]) == SearchUrl(s)
                  && forall j :: 0 <= j < i ==> UrlPrefix(s[j..]).None?
    decreases |s|
  {
    if s != [] {
      assert s[0..] == s;
      if UrlPrefix(s).None? {
        SearchUrlLeftmost(s[1..]);
        assert forall i :: 1 <= i < |s| ==> s[i..] == s[1..][i - 1..];
        if SearchUrl(s).Some? {
          var i :| 0 <= i < |s[1..]| && UrlPrefix(s[1..][i..]) == SearchUrl(s[1..])
                   && forall j :: 0 <= j < i ==> UrlPrefix(s[1..][j..]).None?;
          assert s[i + 1..] == s[1..][i..];
          forall j | 0 <= j < i + 1 ensures UrlPrefix(s[j..]).None? {
            if j > 0 {
              assert s[j..] == s[1..][j - 1..];
            }
          }
        }
      }
    }
  }

  /** The URL found in the cleaned value, which must be truthy. */
  function DocumentUrlFrom(cleaned: Option<string>): (r: Option<string>)
    ensures r.Some? ==> Truthy(cleaned) && Contains(cleaned.value, r.value)
    ensures r.Some? ==> StartsWith(r.value, "http://") || StartsWith(r.value, "https://")
    ensures r.Some? ==> forall k :: 0 <= k < |r.value| ==> r.value[k] != '"'
  {
    if !Truthy(cleaned) then None else SearchUrl(cleaned.value)
  }

  function ExtractDocumentUrl(copilotkit: CopilotKit): Option<string> {
    DocumentUrlFrom(CleanContextValue(ExtractContextItem(copilotkit, "document")))
  }

  /** The run of URL characters is exactly as long as its characters say. */
  lemma {:induction false} UrlRunExact(s: string, n: nat)
    requires n <= |s|
    requires forall k :: 0 <= k < n ==> IsUrlChar(s[k])
    requires n == |s| || !IsUrlChar(s[n])
    ensures UrlRun(s) == n
  {
    if n > 0 {
      UrlRunExact(s[1..], n - 1);
    }
  }

  /** Text that does not start with 'h' has no URL at its start. */
  lemma NoUrlWithoutH(t: string)
    requires t != [] && t[0] != 'h'
    ensures UrlPrefix(t).None?
  {
    assert |t| >= 8 ==> t[..8][0] == t[0];
    assert |t| >= 7 ==> t[..7][0] == t[0];
  }

  /**
   * A URL after text without an 'h' is found, and it stops where the URL
   * characters stop.
   */
  lemma UrlAfterPrefix(pre: string, host: string, rest: string)
    requires forall k :: 0 <= k < |pre| ==> pre[k] != 'h'
    requires host != [] && forall k :: 0 <= k < |host| ==> IsUrlChar(host[k])
    requires rest == [] || !IsUrlChar(rest[0])
    ensures DocumentUrlFrom(Some(pre + "https://" + host + rest)) == Some("https://" + host)
  {
    var s := pre + "https://" + host + rest;
    forall j | 0 <= j < |pre| ensures UrlPrefix(s[j..]).None? {
      assert s[j..][0] == pre[j];
      NoUrlWithoutH(s[j..]);
    }
    var t := s[|pre|..];
    assert t == "https://" + host + rest;
    assert t[..8] == "https://";
    var u := t[8..];
    assert u == host + rest;
    assert forall k :: 0 <= k < |host| ==> u[k] == host[k];
    assert |u| == |host| || u[|host|] == rest[0];
    UrlRunExact(u, |host|);
    assert t[..8 + |host|] == "https://" + host;
    SearchUrlUnique(s, |pre|);
  }

  /** The URL stops at the closing quote that follows it. */
  lemma DocumentUrlExample()
    ensures DocumentUrlFrom(Some("doc: \"" + "https://" + "x.io/f" + "\"")) == Some("https://" + "x.io/f")
  {
    UrlAfterPrefix("doc: \"", "x.io/f", "\"");
  }

  /** When index `i` is the leftmost match, the search returns it. */
  lemma {:induction false} SearchUrlUnique(s: string, i: nat)
    requires i < |s| && UrlPrefix(s[i..]).Some?
    requires forall j :: 0 <= j < i ==> UrlPrefix(s[j..]).None?
    ensures SearchUrl(s) == UrlPrefix(s[i..])
    decreases i
  {
    assert s[0..] == s;
    if i > 0 {
      assert s[1..][i - 1..] == s[i..];
      forall j | 0 <= j < i - 1 ensures UrlPrefix(s[1..][j..]).None? {
        assert s[1..][j..] == s[j + 1..];
      }
      SearchUrlUnique(s[1..], i - 1);
    }
  }

  // ---------------------------------------------------------------------
  // extract_legal_topic and extract_ui_mode
  // ---------------------------------------------------------------------

  function LegalTopicFrom(cleaned: Option<string>): (r: string)
    ensures r in {"parking_ticket", "insurance_claim", "general"}
  {
    if !Truthy(cleaned) then "general"
    else
      var upper := Upper(cleaned.value);
      if Contains(upper, "PARKING") || Contains(upper, "TICKET") || Contains(upper, "FINE") then "parking_ticket"
      else if Contains(upper, "INSURANCE") || Contains(upper, "CLAIM") then "insurance_claim"
      else "general"
  }

  function ExtractLegalTopic(copilotkit: CopilotKit): string {
    LegalTopicFrom(CleanContextValue(ExtractContextItem(copilotkit, "legal topic")))
  }

  /** The parking words are tested first: "insurance fine" is a parking ticket. */
  lemma InsuranceFineIsParking()
    ensures LegalTopicFrom(Some("insurance fine")) == "parking_ticket"
  {
    var u := Upper("insurance fine");
    assert u == "INSURANCE FINE";
    assert OccursAt(u, "FINE", 10);
    ContainsAt(u, "FINE", 10);
  }

  /** An insurance topic without a parking word is an insurance claim; no context is general. */
  lemma LegalTopicCases(v: string)
    ensures LegalTopicFrom(None) == "general" && LegalTopicFrom(Some("")) == "general"
    ensures v != "" && Contains(Upper(v), "CLAIM")
            && !Contains(Upper(v), "PARKING") && !Contains(Upper(v), "TICKET") && !Contains(Upper(v), "FINE")
            ==> LegalTopicFrom(Some(v)) == "insurance_claim"
  {
  }

  function UiModeFrom(cleaned: Option<string>): (r: string)
    ensures r == "analysis" <==> Truthy(cleaned) && Contains(Upper(cleaned.value), "ANALYSIS MODE")
    ensures r == "analysis" || r == "chat"
  {
    if !Truthy(cleaned) then "chat"
    else if Contains(Upper(cleaned.value), "ANALYSIS MODE") then "analysis"
    else "chat"
  }

  function ExtractUiMode(copilotkit: CopilotKit): string {
    UiModeFrom(CleanContextValue(ExtractContextItem(copilotkit, "UI mode")))
  }

  /** Without CopilotKit data every extractor falls back to its default. */
  lemma NoContextDefaults()
    ensures ExtractUserState(None) == None
    ensures ExtractDocumentUrl(None) == None
    ensures ExtractLegalTopic(None) == "general"
    ensures ExtractUiMode(None) == "chat"
  {
  }
}
