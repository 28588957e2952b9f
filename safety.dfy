/**
 * The lightweight safety gate (backend/app/agents/stages/safety_check_lite.py):
 * a fixed table of crisis patterns checked first, a list of uncertain
 * patterns that decide whether the external classifier is consulted, the
 * routing on the result and the escalation message.
 *
 * Each regular expression of the source is a word-bounded alternation of
 * fixed phrases, so it is written here as its finite list of phrases: `'?`,
 * `.?` and `(a|b)` are expanded, `.` is an atom matching any character but a
 * newline, and `\b` is Python's word-boundary test.
 */
module Safety {
  import opened Wrappers
  import opened Text

  // ---------------------------------------------------------------------
  // Phrases and word-bounded search
  // ---------------------------------------------------------------------

  datatype Atom = Ch(c: char) | Dot

  type Phrase = seq<Atom>

  /** One regular expression: `\b(p1|p2|...)\b`. */
  type Pattern = seq<Phrase>

  function Lit(s: string): (p: Phrase)
    ensures |p| == |s|
    ensures forall k :: 0 <= k < |s| ==> p[k] == Ch(s[k])
  {
    seq(|s|, k requires 0 <= k < |s| => Ch(s[k]))
  }

  predicate AtomMatches(a: Atom, c: char) {
    match a
    case Ch(x) => c == x
    case Dot => c != '\n'
  }

  /** The phrase matches the characters of `s` starting at index `i`. */
  predicate PhraseAt(s: string, p: Phrase, i: int) {
    0 <= i && i + |p| <= |s| && forall k :: 0 <= k < |p| ==> AtomMatches(p[k], s[i + k])
  }

  predicate IsWordAt(s: string, k: int) { 0 <= k < |s| && IsWordChar(s[k]) }

  /** Python's `\b` at position `k`: a word character on exactly one side. */
  predicate WordBoundary(s: string, k: int) { IsWordAt(s, k - 1) != IsWordAt(s, k) }

  predicate BoundedAt(s: string, p: Phrase, i: int) {
    WordBoundary(s, i) && PhraseAt(s, p, i) && WordBoundary(s, i + |p|)
  }

  /** `re.search(pattern, s)` succeeds: some phrase occurs between two word boundaries. */
  predicate Search(s: string, pat: Pattern) {
    exists i, k :: 0 <= i <= |s| && 0 <= k < |pat| && BoundedAt(s, pat[k], i)
  }

  // ---------------------------------------------------------------------
  // The pattern tables
  // ---------------------------------------------------------------------

  datatype Category = SuicideSelfHarm | FamilyViolence | ChildWelfare | Criminal

  function CategoryName(c: Category): string {
    match c
    case SuicideSelfHarm => "suicide_self_harm"
    case FamilyViolence => "family_violence"
    case ChildWelfare => "child_welfare"
    case Criminal => "criminal"
  }

  /** The crisis table, in the order its dictionary is iterated. */
  const CrisisTable: seq<(Category, seq<Pattern>)> := [
    (SuicideSelfHarm, [
      [Lit("kill myself"), Lit("end my life"), Lit("want to die"), Lit("suicide"),
       Lit("selfharm"), Lit("self") + [Dot] + Lit("harm")],
      [Lit("can't go on"), Lit("cant go on"), Lit("no reason to live"), Lit("better off dead")]
    ]),
    (FamilyViolence, [
      [Lit("hit me"), Lit("beat me"), Lit("abused"), Lit("domestic violence"),
       Lit("scared of my"), Lit("scared of him"), Lit("scared of her")],
      [Lit("threatened to kill"), Lit("threatened to hurt"), Lit("avo"), Lit("dvo"), Lit("protection order")]
    ]),
    (ChildWelfare, [
      [Lit("child protection"), Lit("child services"), Lit("docs"), Lit("took my kids"), Lit("took my children")],
      [Lit("child abuse"), Lit("hurt my child"), Lit("hurt my kid"), Lit("hurt my baby"),
       Lit("hurt the child"), Lit("hurt the kid"), Lit("hurt the baby")]
    ]),
    (Criminal, [
      [Lit("arrested"), Lit("charged with"), Lit("police station"), Lit("police custody"), Lit("criminal charge")],
      [Lit("going to jail"), Lit("going to prison"), Lit("going to court for crime")]
    ])
  ]

  /** The uncertain patterns; `evicted?` stands for "evicte" and "evicted". */
  const UncertainPatterns: seq<Pattern> := [
    [Lit("court"), Lit("hearing"), Lit("deadline"), Lit("tomorrow"), Lit("next week")],
    [Lit("evicted"), Lit("evicte"), Lit("kicked out"), Lit("homeless")],
    [Lit("scared"), Lit("afraid"), Lit("worried"), Lit("anxious")],
    [Lit("police"), Lit("officer"), Lit("crime")],
    [Lit("hurt"), Lit("pain"), Lit("danger")]
  ]

  predicate AnyPattern(s: string, patterns: seq<Pattern>) {
    exists j :: 0 <= j < |patterns| && Search(s, patterns[j])
  }

  /** The first category of the table one of whose patterns is found. */
  function FirstCategory(s: string, table: seq<(Category, seq<Pattern>)>): (r: Option<Category>)
    ensures r.None? <==> forall c :: 0 <= c < |table| ==> !AnyPattern(s, table[c].1)
    ensures r.Some? ==> exists c :: 0 <= c < |table| && table[c].0 == r.value && AnyPattern(s, table[c].1)
                                    && forall d :: 0 <= d < c ==> !AnyPattern(s, table[d].1)
  {
    if table == [] then None
    else if AnyPattern(s, table[0].1) then Some(table[0].0)
    else
      var rest := FirstCategory(s, table[1..]);
      assert forall c :: 1 <= c < |table| ==> table[c] == table[1..][c - 1];
      rest
  }

  /** The crisis category of a query: the text is lower-cased, and matching ignores case. */
  function CrisisCategory(query: string): Option<Category> {
    FirstCategory(Lower(query), CrisisTable)
  }

  predicate MightBeRisky(query: string) {
    AnyPattern(Lower(query), UncertainPatterns)
  }

  // ---------------------------------------------------------------------
  // _check_crisis_keywords and _might_be_risky
  // ---------------------------------------------------------------------

  /** Scans a table category by category, pattern by pattern, stopping at the first hit. */
  method ScanCategories(lowered: string, table: seq<(Category, seq<Pattern>)>)
    returns (isCrisis: bool, category: Option<Category>)
    ensures category == FirstCategory(lowered, table)
    ensures isCrisis <==> category.Some?
  {
    var c := 0;
    while c < |table|
      invariant 0 <= c <= |table|
      invariant FirstCategory(lowered, table) == FirstCategory(lowered, table[c..])
    {
      var patterns := table[c].1;
      var p := 0;
      while p < |patterns|
        invariant 0 <= p <= |patterns|
        invariant forall j :: 0 <= j < p ==> !Search(lowered, patterns[j])
      {
        if Search(lowered, patterns[p]) {
          return true, Some(table[c].0);
        }
        p := p + 1;
      }
      assert table[c..][1..] == table[c + 1..];
      c := c + 1;
    }
    return false, None;
  }

  /** `_check_crisis_keywords`: the scan over the lower-cased query. */
  method CheckCrisisKeywords(query: string) returns (isCrisis: bool, category: Option<Category>)
    ensures category == CrisisCategory(query)
    ensures isCrisis <==> category.Some?
  {
    isCrisis, category := ScanCategories(Lower(query), CrisisTable);
  }

  method CheckMightBeRisky(query: string) returns (risky: bool)
    ensures risky == MightBeRisky(query)
  {
    var lowered := Lower(query);
    var p := 0;
    while p < |UncertainPatterns|
      invariant 0 <= p <= |UncertainPatterns|
      invariant forall j :: 0 <= j < p ==> !Search(lowered, UncertainPatterns[j])
    {
      if Search(lowered, UncertainPatterns[p]) {
        return true;
      }
      p := p + 1;
    }
    return false;
  }

  // ---------------------------------------------------------------------
  // safety_check_lite_node and route_after_safety_lite
  // ---------------------------------------------------------------------

  /** A support service; an empty `phone`, `description` or `url` is an absent one. */
  datatype Resource = Resource(name: string, phone: string, description: string, url: string)

  /** What the classifier answers; absent resources read as []. */
  datatype Assessment = Assessment(requiresEscalation: bool, recommendedResources: seq<Resource>)

  /** The keys the node writes: `safety_result` and `crisis_resources`. */
  datatype SafetyPatch = SafetyPatch(safetyResult: string, crisisResources: Option<seq<Resource>>)

  /**
   * `resourcesFor(category, user_state)` is the resource directory; `assess`
   * is the classifier, whose failure (`Err`) propagates out of the node.
   */
  function SafetyCheck(query: string, userState: Option<string>,
                       resourcesFor: (string, Option<string>) -> seq<Resource>,
                       assess: (string, Option<string>) -> Result<Assessment, string>): (r: Result<SafetyPatch, string>)
    ensures r.Ok? ==> r.value.safetyResult in {"safe", "escalate"}
    ensures r.Ok? ==> (r.value.safetyResult == "safe" <==> r.value.crisisResources.None?)
  {
    if Strip(query) == "" then Ok(SafetyPatch("safe", None))
    else match CrisisCategory(query)
      case Some(category) =>
        Ok(SafetyPatch("escalate", Some(resourcesFor(CategoryName(category), userState))))
      case None =>
        if MightBeRisky(query) then
          match assess(query, userState)
          case Err(e) => Err(e)
          case Ok(a) =>
            if a.requiresEscalation then Ok(SafetyPatch("escalate", Some(a.recommendedResources)))
            else Ok(SafetyPatch("safe", None))
        else Ok(SafetyPatch("safe", None))
  }

  /** The node, with the two scans run as the source runs them. */
  method SafetyCheckNode(query: string, userState: Option<string>,
                         resourcesFor: (string, Option<string>) -> seq<Resource>,
                         assess: (string, Option<string>) -> Result<Assessment, string>)
    returns (r: Result<SafetyPatch, string>)
    ensures r == SafetyCheck(query, userState, resourcesFor, assess)
  {
    if Strip(query) == "" {
      return Ok(SafetyPatch("safe", None));
    }
    var isCrisis, category := CheckCrisisKeywords(query);
    if isCrisis {
      return Ok(SafetyPatch("escalate", Some(resourcesFor(CategoryName(category.value), userState))));
    }
    var risky := CheckMightBeRisky(query);
    if risky {
      var assessment := assess(query, userState);
      if assessment.Err? {
        return Err(assessment.error);
      }
      if assessment.value.requiresEscalation {
        return Ok(SafetyPatch("escalate", Some(assessment.value.recommendedResources)));
      }
    }
    return Ok(SafetyPatch("safe", None));
  }

  /** `state.get("safety_result", "safe")` compared with "escalate". */
  function RouteAfterSafety(safetyResult: Option<string>): (r: string)
    ensures r == "escalate" <==> safetyResult == Some("escalate")
    ensures r == "escalate" || r == "continue"
  {
    if safetyResult.GetOr("safe") == "escalate" then "escalate" else "continue"
  }

  // ---------------------------------------------------------------------
  // Properties of the gate
  // ---------------------------------------------------------------------

  /** A blank query is safe and the classifier is not consulted. */
  lemma BlankQueryIsSafe(query: string, userState: Option<string>,
                         resourcesFor: (string, Option<string>) -> seq<Resource>,
                         assess: (string, Option<string>) -> Result<Assessment, string>)
    requires forall i :: 0 <= i < |query| ==> IsSpace(query[i])
    ensures SafetyCheck(query, userState, resourcesFor, assess) == Ok(SafetyPatch("safe", None))
  {
    StripEmptyIff(query);
  }

  /**
   * A crisis match escalates with the directory's resources for its category,
   * whatever the classifier would say: its answer is never used.
   */
  lemma CrisisEscalatesWithoutClassifier(query: string, userState: Option<string>,
                                         resourcesFor: (string, Option<string>) -> seq<Resource>,
                                         assess1: (string, Option<string>) -> Result<Assessment, string>,
                                         assess2: (string, Option<string>) -> Result<Assessment, string>)
    requires CrisisCategory(query).Some?
    ensures SafetyCheck(query, userState, resourcesFor, assess1) == SafetyCheck(query, userState, resourcesFor, assess2)
    ensures SafetyCheck(query, userState, resourcesFor, assess1) ==
      Ok(SafetyPatch("escalate", Some(resourcesFor(CategoryName(CrisisCategory(query).value), userState))))
  {
    if Strip(query) == "" {
      BlankHasNoCrisis(query);
    }
  }

  /** A blank query matches no crisis phrase. */
  lemma BlankHasNoCrisis(query: string)
    requires Strip(query) == ""
    ensures CrisisCategory(query).None?
  {
    StripEmptyIff(query);
    assert Lower(query) == query by {
      forall i | 0 <= i < |query| ensures Lower(query)[i] == query[i] {
        assert IsSpace(query[i]);
      }
    }
    NoMatchInBlank(Lower(query));
  }

  /** No phrase occurs in text made only of whitespace: every phrase begins with a letter. */
  lemma NoMatchInBlank(s: string)
    requires forall i :: 0 <= i < |s| ==> IsSpace(s[i])
    ensures CrisisCategory(s).None?
  {
    assert Lower(s) == s by {
      forall i | 0 <= i < |s| ensures Lower(s)[i] == s[i] {
        assert IsSpace(s[i]);
      }
    }
    forall c, j, i, k | 0 <= c < |CrisisTable| && 0 <= j < |CrisisTable[c].1| && 0 <= k < |CrisisTable[c].1[j]|
      ensures !PhraseAt(s, CrisisTable[c].1[j][k], i)
    {
      var p := CrisisTable[c].1[j][k];
      assert |p| > 0 && p[0].Ch? && IsAsciiLower(p[0].c);
    }
  }

  /** With neither a crisis nor an uncertain match the query is safe and the classifier is not consulted. */
  lemma QuietQueryIsSafe(query: string, userState: Option<string>,
                         resourcesFor: (string, Option<string>) -> seq<Resource>,
                         assess: (string, Option<string>) -> Result<Assessment, string>)
    requires CrisisCategory(query).None? && !MightBeRisky(query)
    ensures SafetyCheck(query, userState, resourcesFor, assess) == Ok(SafetyPatch("safe", None))
  {
  }

  /**
   * With an uncertain match and no crisis match, the classifier decides:
   * escalate with its resources exactly when it asks for escalation.
   */
  lemma UncertainDefersToClassifier(query: string, userState: Option<string>,
                                    resourcesFor: (string, Option<string>) -> seq<Resource>,
                                    assess: (string, Option<string>) -> Result<Assessment, string>)
    requires Strip(query) != "" && CrisisCategory(query).None? && MightBeRisky(query)
    ensures assess(query, userState).Err? ==> SafetyCheck(query, userState, resourcesFor, assess) == Err(assess(query, userState).error)
    ensures assess(query, userState).Ok? ==>
      var a := assess(query, userState).value;
      SafetyCheck(query, userState, resourcesFor, assess) ==
        if a.requiresEscalation then Ok(SafetyPatch("escalate", Some(a.recommendedResources)))
        else Ok(SafetyPatch("safe", None))
  {
  }

  /** "avo" on its own is a family-violence crisis. */
  lemma AvoEscalates(q: string)
    requires q == "I need an AVO"
    ensures CrisisCategory(q).Some?
  {
    var s := Lower(q);
    assert s == "i need an avo";
    var pat := CrisisTable[1].1[1];
    assert pat[2] == Lit("avo");
    assert BoundedAt(s, pat[2], 10);
    assert Search(s, pat);
    assert AnyPattern(s, CrisisTable[1].1);
  }

  /** "DOCS" is matched case-insensitively as a whole word. */
  lemma DocsEscalates(q: string)
    requires q == "DOCS took them"
    ensures CrisisCategory(q).Some?
  {
    var s := Lower(q);
    assert s == "docs took them";
    var pat := CrisisTable[2].1[0];
    assert pat[2] == Lit("docs");
    assert BoundedAt(s, pat[2], 0);
    assert Search(s, pat);
    assert AnyPattern(s, CrisisTable[2].1);
  }

  /** Being scared of one's landlord is read as family violence. */
  lemma ScaredOfMyLandlordEscalates(q: string)
    requires q == "I am scared of my landlord"
    ensures CrisisCategory(q).Some?
  {
    var s := Lower(q);
    assert s == "i am scared of my landlord";
    ScaredOfMyMatches(s);
  }

  /** The lower-cased query matches the first family-violence pattern. */
  lemma ScaredOfMyMatches(s: string)
    requires s == "i am scared of my landlord"
    ensures AnyPattern(s, CrisisTable[1].1)
  {
    var pat := CrisisTable[1].1[0];
    assert pat[4] == Lit("scared of my");
    assert BoundedAt(s, pat[4], 5);
    assert Search(s, pat);
  }

  /** Matching is word-bounded: "avocado" does not contain the word "avo". */
  lemma AvocadoIsNotAvo(s: string)
    requires s == "avocado"
    ensures !BoundedAt(s, Lit("avo"), 0)
  {
    assert IsWordAt(s, 3);
  }

  /** "evict" alone is not an uncertain word: the pattern asks for "evicte" or "evicted". */
  lemma EvictAloneIsNotUncertain(s: string)
    requires s == "evict"
    ensures forall i, k :: 0 <= k < |UncertainPatterns[1]| ==> !BoundedAt(s, UncertainPatterns[1][k], i)
  {
    forall i, k | 0 <= k < |UncertainPatterns[1]| ensures !BoundedAt(s, UncertainPatterns[1][k], i) {
      assert |UncertainPatterns[1][k]| > |s|;
    }
  }

  // ---------------------------------------------------------------------
  // format_escalation_response_lite
  // ---------------------------------------------------------------------

  const EscalationOpening: string :=
    "I'm concerned about what you've shared. Your safety and wellbeing come first.\n\n"
    + "**Please contact these services for immediate support:**\n\n"

  const EscalationClosing: string :=
    "\n\n---\n\n"
    + "These services are free and confidential. They can provide the urgent, professional support that I, as an AI assistant, cannot offer.\n\n"
    + "If you have other legal questions that aren't urgent safety matters, I'm still here to help with general legal information."

  /** One resource: its name in bold, then each present detail on its own terms. */
  /**
   * The name in bold, then " - phone", an italic description line and a URL
   * line, each present exactly when its field is non-empty, in that order.
   */
  function ResourceBlock(r: Resource): (b: string)
    ensures b == "**" + r.name + "**"
                 + (if r.phone != "" then " - " + r.phone else "")
                 + (if r.description != "" then "\n  _" + r.description + "_" else "")
                 + (if r.url != "" then "\n  " + r.url else "")
  {
    var line := "**" + r.name + "**";
    var line := if r.phone != "" then line + " - " + r.phone else line;
    var line := if r.description != "" then line + "\n  _" + r.description + "_" else line;
    if r.url != "" then line + "\n  " + r.url else line
  }

  /**
   * The block opens with the bold name, shows every non-empty field, and
   * grows by exactly the shown fields: an empty field adds nothing.
   */
  lemma ResourceBlockFields(r: Resource)
    ensures StartsWith(ResourceBlock(r), "**" + r.name + "**")
    ensures r.phone != "" ==> Contains(ResourceBlock(r), " - " + r.phone)
    ensures r.description != "" ==> Contains(ResourceBlock(r), "\n  _" + r.description + "_")
    ensures r.url != "" ==> EndsWith(ResourceBlock(r), "\n  " + r.url)
    ensures |ResourceBlock(r)| == 4 + |r.name|
                                  + (if r.phone != "" then 3 + |r.phone| else 0)
                                  + (if r.description != "" then 5 + |r.description| else 0)
                                  + (if r.url != "" then 3 + |r.url| else 0)
  {
    var head := "**" + r.name + "**";
    var ph := if r.phone != "" then " - " + r.phone else "";
    var de := if r.description != "" then "\n  _" + r.description + "_" else "";
    var ur := if r.url != "" then "\n  " + r.url else "";
    var b := ResourceBlock(r);
    assert b == head + ph + de + ur;
    assert b[..|head|] == head;
    if r.phone != "" {
      assert b == head + ph + (de + ur);
      ContainsInContext(head, ph, de + ur);
    }
    if r.description != "" {
      assert b == (head + ph) + de + ur;
      ContainsInContext(head + ph, de, ur);
    }
    if r.url != "" {
      assert b[|b| - |ur|..] == ur;
    }
  }

  function ResourceBlocks(resources: seq<Resource>): (blocks: seq<string>)
    ensures |blocks| == |resources|
    ensures forall k :: 0 <= k < |resources| ==> blocks[k] == ResourceBlock(resources[k])
  {
    seq(|resources|, k requires 0 <= k < |resources| => ResourceBlock(resources[k]))
  }

  function EscalationMessage(resources: seq<Resource>): string {
    EscalationOpening + Join(ResourceBlocks(resources), "\n\n") + EscalationClosing
  }

  /** Builds the resource lines one by one, then the framed message. */
  method FormatEscalationResponse(resources: seq<Resource>) returns (message: string)
    ensures message == EscalationMessage(resources)
  {
    var lines: seq<string> := [];
    var i := 0;
    while i < |resources|
      invariant 0 <= i <= |resources|
      invariant lines == ResourceBlocks(resources[..i])
    {
      var r := resources[i];
      var line := "**" + r.name + "**";
      if r.phone != "" {
        line := line + " - " + r.phone;
      }
      if r.description != "" {
        line := line + "\n  _" + r.description + "_";
      }
      if r.url != "" {
        line := line + "\n  " + r.url;
      }
      assert line == ResourceBlock(r);
      assert resources[..i + 1] == resources[..i] + [r];
      lines := lines + [line];
      i := i + 1;
    }
    assert resources[..i] == resources;
    var resourcesText := if |lines| > 0 then Join(lines, "\n\n") else "";
    message := EscalationOpening + resourcesText + EscalationClosing;
  }

  /** The message keeps its fixed framing and shows every resource's block, name in bold. */
  lemma EscalationShape(resources: seq<Resource>)
    ensures StartsWith(EscalationMessage(resources), EscalationOpening)
    ensures EndsWith(EscalationMessage(resources), EscalationClosing)
    ensures forall k :: 0 <= k < |resources| ==> Contains(EscalationMessage(resources), ResourceBlock(resources[k]))
    ensures forall k :: 0 <= k < |resources| ==> Contains(EscalationMessage(resources), "**" + resources[k].name + "**")
    ensures resources == [] ==> EscalationMessage(resources) == EscalationOpening + EscalationClosing
  {
    var m := EscalationMessage(resources);
    var body := Join(ResourceBlocks(resources), "\n\n");
    assert m[..|EscalationOpening|] == EscalationOpening;
    assert m[|m| - |EscalationClosing|..] == EscalationClosing;
    forall k | 0 <= k < |resources|
      ensures Contains(m, ResourceBlock(resources[k]))
      ensures Contains(m, "**" + resources[k].name + "**")
    {
      var blocks := ResourceBlocks(resources);
      JoinContainsPart(blocks, "\n\n", k);
      ContainsWithin(EscalationOpening, body, EscalationClosing, blocks[k]);
      ResourceBlockFields(resources[k]);
      ContainsPrefixOf(body, blocks[k], "**" + resources[k].name + "**");
      ContainsWithin(EscalationOpening, body, EscalationClosing, "**" + resources[k].name + "**");
    }
  }
}
