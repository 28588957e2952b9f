/**
 * The lawyer-brief subflow (backend/app/agents/stages/brief_flow.py): the
 * completion rule applied to the facts a language model extracts, the
 * updates of the three brief stages (check, ask, generate) including their
 * fallbacks, and the deterministic formatters.
 *
 * Each language-model call is a function input returning `None` when the
 * call raises. It receives the data its prompt is built from, so what the
 * model cannot see is visible in the signatures.
 */
module BriefFlow {
  import opened Wrappers
  import opened Text
  import opened Messages
  import opened Slices

  // ---------------------------------------------------------------------
  // Structured outputs of the language model
  // ---------------------------------------------------------------------

  type Confidence = c: real | 0.0 <= c <= 1.0

  datatype Facts = Facts(
    legalArea: string,
    situationSummary: string,
    keyFacts: seq<string>,
    partiesInvolved: seq<string>,
    timelineEvents: seq<string>,
    documentsMentioned: seq<string>,
    userGoals: seq<string>,
    missingCriticalInfo: seq<string>,
    confidence: Confidence)

  /** Between one and three follow-up questions. */
  type Questions = qs: seq<string> | 1 <= |qs| <= 3 witness [""]

  datatype Urgency = Urgent | Standard | LowPriority

  datatype Brief = Brief(
    executiveSummary: string,
    legalArea: string,
    jurisdiction: string,
    situationNarrative: string,
    keyFacts: seq<string>,
    factGaps: seq<string>,
    parties: seq<string>,
    documentsEvidence: seq<string>,
    clientGoals: seq<string>,
    potentialIssues: seq<string>,
    questionsForLawyer: seq<string>,
    urgencyLevel: Urgency,
    urgencyReason: string)

  // ---------------------------------------------------------------------
  // Shared list helpers
  // ---------------------------------------------------------------------

  /** One "- item" line per item. */
  function Bullets(items: seq<string>): (lines: seq<string>)
    ensures |lines| == |items|
    ensures forall k :: 0 <= k < |items| ==> lines[k] == "- " + items[k]
  {
    seq(|items|, k requires 0 <= k < |items| => "- " + items[k])
  }

  /** Appends one "- item" line per item, in order. */
  method AppendBullets(lines: seq<string>, items: seq<string>) returns (out: seq<string>)
    ensures out == lines + Bullets(items)
  {
    out := lines;
    var i := 0;
    while i < |items|
      invariant 0 <= i <= |items|
      invariant out == lines + Bullets(items[..i])
    {
      assert Bullets(items[..i + 1]) == Bullets(items[..i]) + ["- " + items[i]];
      out := out + ["- " + items[i]];
      i := i + 1;
    }
    assert items[..i] == items;
  }

  // ---------------------------------------------------------------------
  // _format_conversation
  // ---------------------------------------------------------------------

  /** The line a message contributes: only user and assistant messages have one. */
  function MessageLine(m: Message): (lines: seq<string>)
    ensures |lines| <= 1
  {
    match m
    case Human(c) => ["User: " + c]
    case Ai(c) => ["Assistant: " + c]
    case Other(_) => []
  }

  function ConversationLines(ms: seq<Message>): (lines: seq<string>)
    ensures |lines| <= |ms|
  {
    if ms == [] then [] else ConversationLines(ms[..|ms| - 1]) + MessageLine(ms[|ms| - 1])
  }

  function FormatConversationText(ms: seq<Message>, maxMessages: int): string {
    Join(ConversationLines(PyTail(ms, maxMessages)), "\n\n")
  }

  /** The loop of the source: keep the recent messages, label them, join them. */
  method FormatConversation(ms: seq<Message>, maxMessages: int) returns (text: string)
    ensures text == FormatConversationText(ms, maxMessages)
  {
    var recent := PyTail(ms, maxMessages);
    var formatted: seq<string> := [];
    var i := 0;
    while i < |recent|
      invariant 0 <= i <= |recent|
      invariant formatted == ConversationLines(recent[..i])
    {
      assert recent[..i + 1][..i] == recent[..i];
      match recent[i] {
        case Human(c) => formatted := formatted + ["User: " + c];
        case Ai(c) => formatted := formatted + ["Assistant: " + c];
        case Other(_) =>
      }
      i := i + 1;
    }
    assert recent[..i] == recent;
    text := Join(formatted, "\n\n");
  }

  /** Only user and assistant messages count, and each contributes exactly one line. */
  lemma {:induction false} ConversationLinesCount(ms: seq<Message>)
    ensures |ConversationLines(ms)| == |set k | 0 <= k < |ms| && !ms[k].Other?|
  {
    if ms != [] {
      var n := |ms| - 1;
      ConversationLinesCount(ms[..n]);
      var before := set k | 0 <= k < n && !ms[..n][k].Other?;
      var after := set k | 0 <= k < |ms| && !ms[k].Other?;
      assert before == set k | 0 <= k < n && !ms[k].Other?;
      if ms[n].Other? {
        assert after == before;
      } else {
        assert n !in before;
        assert after == before + {n};
        assert |after| == |before| + 1;
      }
    }
  }

  /**
   * Every user and assistant message of the conversation appears, labelled, in the order
   * of the list: the line of message k comes right after the lines of the messages before it.
   */
  lemma {:induction false} ConversationLinesLabel(ms: seq<Message>, k: nat)
    requires k < |ms| && !ms[k].Other?
    ensures (if ms[k].Human? then "User: " else "Assistant: ") + ms[k].content in ConversationLines(ms)
    ensures |ConversationLines(ms[..k])| < |ConversationLines(ms)|
    ensures ConversationLines(ms)[|ConversationLines(ms[..k])|]
            == (if ms[k].Human? then "User: " else "Assistant: ") + ms[k].content
  {
    var n := |ms| - 1;
    if k < n {
      assert ms[..n][k] == ms[k];
      assert ms[..n][..k] == ms[..k];
      ConversationLinesLabel(ms[..n], k);
    } else {
      assert ms[..n] == ms[..k];
    }
  }

  /** A conversation with nothing but other messages, or none at all, formats as "". */
  lemma NoDialogueFormatsEmpty(ms: seq<Message>, maxMessages: int)
    requires forall k :: 0 <= k < |ms| ==> ms[k].Other?
    ensures FormatConversationText(ms, maxMessages) == ""
  {
    var recent := PyTail(ms, maxMessages);
    ConversationLinesCount(recent);
    assert (set k | 0 <= k < |recent| && !recent[k].Other?) == {} by {
      forall k | 0 <= k < |recent| ensures recent[k].Other? {
        assert recent[k] == ms[|ms| - |recent| + k];
      }
    }
  }

  /** With `max_messages` 0 the slice keeps the whole history, unlike a limit of zero. */
  lemma ZeroLimitKeepsAll(ms: seq<Message>)
    ensures FormatConversationText(ms, 0) == Join(ConversationLines(ms), "\n\n")
  {
  }

  // ---------------------------------------------------------------------
  // brief_check_info_node
  // ---------------------------------------------------------------------

  /** The completion rule: enough confidence, at most one gap, a known area and two facts. */
  predicate HasEnoughInfo(f: Facts) {
    f.confidence >= 0.6 && |f.missingCriticalInfo| <= 1 && f.legalArea != "unknown" && |f.keyFacts| >= 2
  }

  datatype CheckInfoUpdate = CheckInfoUpdate(factsCollected: Facts, missingInfo: seq<string>, infoComplete: bool)

  const FallbackFacts: Facts := Facts(
    "general", "Could not fully analyze conversation", [], [], [], [], [],
    ["Full conversation analysis failed"], 0.3)

  const FallbackMissingInfo: seq<string> := ["Unable to complete analysis - proceeding with available info"]

  /**
   * `extract(conversation, user_state)` is the fact extractor; it sees the
   * last 20 messages, formatted.
   */
  function CheckInfo(ms: seq<Message>, userState: Option<string>,
                     extract: (string, Option<string>) -> Option<Facts>): CheckInfoUpdate
  {
    match extract(FormatConversationText(ms, 20), userState)
    case Some(f) => CheckInfoUpdate(f, f.missingCriticalInfo, HasEnoughInfo(f))
    case None => CheckInfoUpdate(FallbackFacts, FallbackMissingInfo, true)
  }

  /**
   * On success the missing list is the extracted one, unchanged, and the
   * completion flag is the rule; on failure the fixed fallback is complete.
   */
  lemma CheckInfoOutcome(ms: seq<Message>, userState: Option<string>,
                         extract: (string, Option<string>) -> Option<Facts>)
    ensures var u := CheckInfo(ms, userState, extract);
      match extract(FormatConversationText(ms, 20), userState)
      case Some(f) => u.factsCollected == f && u.missingInfo == f.missingCriticalInfo && (u.infoComplete <==> HasEnoughInfo(f))
      case None => u.infoComplete && |u.missingInfo| == 1 && u.factsCollected.legalArea == "general"
                   && u.factsCollected.confidence == 0.3 && !HasEnoughInfo(u.factsCollected)
  {
  }

  /** More confidence never turns complete facts incomplete; more gaps never turn incomplete facts complete. */
  lemma HasEnoughInfoMonotone(f: Facts, c: Confidence, gaps: seq<string>)
    ensures HasEnoughInfo(f) && c >= f.confidence ==> HasEnoughInfo(f.(confidence := c))
    ensures !HasEnoughInfo(f) && |gaps| >= |f.missingCriticalInfo| ==> !HasEnoughInfo(f.(missingCriticalInfo := gaps))
  {
  }

  /** 0.7 with two gaps is incomplete and both gaps are kept; 0.8 with no gap and two facts is complete. */
  lemma CompletionExamples(area: string, summary: string, a: string, b: string)
    requires area != "unknown"
    ensures !HasEnoughInfo(Facts(area, summary, [a, b], [], [], [], [], [a, b], 0.7))
    ensures HasEnoughInfo(Facts(area, summary, [a, b], [], [], [], [], [], 0.8))
  {
  }

  // ---------------------------------------------------------------------
  // brief_ask_questions_node
  // ---------------------------------------------------------------------

  const AskPreface: string := "Before I prepare your lawyer brief, I need a bit more information:\n\n"
  const AskQuickReplies: seq<string> := ["I don't know", "Let me explain", "Skip this"]
  const AskFallbackMessage: string := "I'll prepare your brief with the information we have."

  /** The `n`-th question's line. */
  function NumberedLine(n: nat, q: string): string {
    NatToString(n) + ". " + q + "\n"
  }

  /** "1. q\n", "2. q\n", ... */
  function NumberedLines(qs: seq<string>): (lines: seq<string>)
    ensures |lines| == |qs|
    ensures forall k :: 0 <= k < |qs| ==> lines[k] == NumberedLine(k + 1, qs[k])
  {
    seq(|qs|, k requires 0 <= k < |qs| => NumberedLine(k + 1, qs[k]))
  }

  lemma NumberedLinesSnoc(qs: seq<string>, i: nat)
    requires i < |qs|
    ensures NumberedLines(qs[..i + 1]) == NumberedLines(qs[..i]) + [NumberedLine(i + 1, qs[i])]
    ensures Concat(NumberedLines(qs[..i + 1])) == Concat(NumberedLines(qs[..i])) + NumberedLine(i + 1, qs[i])
  {
    var next := NumberedLines(qs[..i + 1]);
    assert next == NumberedLines(qs[..i]) + [NumberedLine(i + 1, qs[i])];
    assert next[..|next| - 1] == NumberedLines(qs[..i]);
  }

  function QuestionText(qs: seq<string>): string {
    AskPreface + Concat(NumberedLines(qs))
  }

  /** Appending the next numbered line extends the text by one question. */
  lemma QuestionTextStep(qs: seq<string>, i: nat, text: string)
    requires i < |qs| && text == AskPreface + Concat(NumberedLines(qs[..i]))
    ensures text + (NatToString(i + 1) + ". " + qs[i] + "\n") == AskPreface + Concat(NumberedLines(qs[..i + 1]))
  {
    NumberedLinesSnoc(qs, i);
  }

  /** The `+=` loop of the source, numbering from 1. */
  method BuildQuestionText(qs: seq<string>) returns (text: string)
    ensures text == QuestionText(qs)
  {
    text := AskPreface;
    var i := 0;
    while i < |qs|
      invariant 0 <= i <= |qs|
      invariant text == AskPreface + Concat(NumberedLines(qs[..i]))
    {
      var line := NatToString(i + 1) + ". " + qs[i] + "\n";
      QuestionTextStep(qs, i, text);
      text := text + line;
      i := i + 1;
    }
    assert qs[..i] == qs;
  }

  datatype AskUpdate = AskUpdate(
    message: string,
    questionsAsked: nat,
    quickReplies: Option<seq<string>>,
    infoComplete: Option<bool>)

  /** `"\n".join(f"- {item}" for item in missing[:5])` */
  function MissingInfoText(missing: seq<string>): string {
    Join(Bullets(Take(missing, 5)), "\n")
  }

  /**
   * `generate(situation_summary, missing_info)` is the question writer. A
   * missing facts record reads as the summary "User needs legal help".
   */
  function Ask(facts: Option<Facts>, missing: seq<string>, asked: nat,
               generate: (string, string) -> Option<Questions>): AskUpdate
  {
    var summary := match facts case Some(f) => f.situationSummary case None => "User needs legal help";
    match generate(summary, MissingInfoText(missing))
    case Some(qs) => AskUpdate(QuestionText(qs), asked + 1, Some(AskQuickReplies), None)
    case None => AskUpdate(AskFallbackMessage, asked + 1, None, Some(true))
  }

  /**
   * Both paths count the round; only the failure path writes the completion
   * flag, always true; success offers the three fixed quick replies.
   */
  lemma AskCountsEveryRound(facts: Option<Facts>, missing: seq<string>, asked: nat,
                            generate: (string, string) -> Option<Questions>)
    ensures Ask(facts, missing, asked, generate).questionsAsked == asked + 1
    ensures Ask(facts, missing, asked, generate).infoComplete in {None, Some(true)}
    ensures Ask(facts, missing, asked, generate).infoComplete.None?
            <==> Ask(facts, missing, asked, generate).quickReplies == Some(AskQuickReplies)
  {
  }

  /** Only the first five missing items reach the question writer. */
  lemma AskIgnoresBeyondFive(facts: Option<Facts>, m1: seq<string>, m2: seq<string>, asked: nat,
                             generate: (string, string) -> Option<Questions>)
    requires Take(m1, 5) == Take(m2, 5)
    ensures Ask(facts, m1, asked, generate) == Ask(facts, m2, asked, generate)
  {
  }

  /**
   * The question message is the preface followed by the questions numbered
   * from 1, in order, one per line.
   */
  lemma {:induction false} QuestionTextShape(qs: seq<string>)
    ensures StartsWith(QuestionText(qs), AskPreface)
    ensures forall k :: 0 <= k < |qs| ==> Contains(QuestionText(qs), NumberedLine(k + 1, qs[k]))
    ensures qs != [] ==> EndsWith(QuestionText(qs), "\n")
  {
    var t := QuestionText(qs);
    assert t[..|AskPreface|] == AskPreface;
    var lines := NumberedLines(qs);
    forall k | 0 <= k < |qs| ensures Contains(t, lines[k]) {
      ConcatContains(lines, k);
      ContainsWithin(AskPreface, Concat(lines), "", lines[k]);
      assert AskPreface + Concat(lines) + "" == t;
    }
    if qs != [] {
      var last := lines[|qs| - 1];
      assert t == (AskPreface + Concat(lines[..|qs| - 1])) + last;
      assert t[|t| - 1] == last[|last| - 1];
      assert t[|t| - 1..] == "\n";
    }
  }

  // ---------------------------------------------------------------------
  // _format_facts_for_prompt
  // ---------------------------------------------------------------------

  /** A heading line followed by one bullet per item, or nothing for an empty list. */
  function HeadedBullets(heading: string, items: seq<string>): (lines: seq<string>)
    ensures |lines| == if items == [] then 0 else 1 + |items|
  {
    if items == [] then [] else [heading] + Bullets(items)
  }

  /** One "label value" line, or nothing for an empty value. */
  function LabelLine(tag: string, value: string): (lines: seq<string>)
    ensures |lines| == if value == "" then 0 else 1
  {
    if value == "" then [] else [tag + value]
  }

  /** One "label a, b, c" line, or nothing for an empty list. */
  function ListLine(tag: string, items: seq<string>): (lines: seq<string>)
    ensures |lines| == if items == [] then 0 else 1
  {
    if items == [] then [] else [tag + Join(items, ", ")]
  }

  function FactsParts(f: Facts): seq<string> {
    LabelLine("**Legal Area:** ", f.legalArea)
    + LabelLine("**Summary:** ", f.situationSummary)
    + HeadedBullets("**Key Facts:**", f.keyFacts)
    + ListLine("**Parties:** ", f.partiesInvolved)
    + HeadedBullets("**Timeline:**", f.timelineEvents)
    + ListLine("**Documents:** ", f.documentsMentioned)
    + HeadedBullets("**User Goals:**", f.userGoals)
  }

  /** A missing facts record (`{}`) formats as "". */
  function FormatFactsText(facts: Option<Facts>): string {
    match facts
    case None => ""
    case Some(f) => Join(FactsParts(f), "\n")
  }

  /** `if value: parts.append(f"{label}{value}")` */
  method AppendLabel(parts: seq<string>, tag: string, value: string) returns (out: seq<string>)
    ensures out == parts + LabelLine(tag, value)
  {
    out := parts;
    if value != "" {
      out := out + [tag + value];
    }
  }

  /** `if items: parts.append(heading)` followed by one bullet per item. */
  method AppendHeaded(parts: seq<string>, heading: string, items: seq<string>) returns (out: seq<string>)
    ensures out == parts + HeadedBullets(heading, items)
  {
    out := parts;
    if items != [] {
      out := out + [heading];
      out := AppendBullets(out, items);
    }
  }

  /** `if items: parts.append(f"{label}{', '.join(items)}")` */
  method AppendList(parts: seq<string>, tag: string, items: seq<string>) returns (out: seq<string>)
    ensures out == parts + ListLine(tag, items)
  {
    out := parts;
    if items != [] {
      out := out + [tag + Join(items, ", ")];
    }
  }

  /** The appending code of the source, part by part. */
  method FormatFactsForPrompt(facts: Option<Facts>) returns (text: string)
    ensures text == FormatFactsText(facts)
  {
    if facts.None? {
      return "";
    }
    var f := facts.value;
    var parts := AppendLabel([], "**Legal Area:** ", f.legalArea);
    assert parts == LabelLine("**Legal Area:** ", f.legalArea);
    parts := AppendLabel(parts, "**Summary:** ", f.situationSummary);
    parts := AppendHeaded(parts, "**Key Facts:**", f.keyFacts);
    parts := AppendList(parts, "**Parties:** ", f.partiesInvolved);
    parts := AppendHeaded(parts, "**Timeline:**", f.timelineEvents);
    parts := AppendList(parts, "**Documents:** ", f.documentsMentioned);
    parts := AppendHeaded(parts, "**User Goals:**", f.userGoals);
    text := Join(parts, "\n");
  }

  /** One line per present scalar field and list, plus one per list item. */
  lemma FactsPartsCount(f: Facts)
    ensures |FactsParts(f)| ==
      (if f.legalArea == "" then 0 else 1) + (if f.situationSummary == "" then 0 else 1)
      + (if f.keyFacts == [] then 0 else 1 + |f.keyFacts|)
      + (if f.partiesInvolved == [] then 0 else 1)
      + (if f.timelineEvents == [] then 0 else 1 + |f.timelineEvents|)
      + (if f.documentsMentioned == [] then 0 else 1)
      + (if f.userGoals == [] then 0 else 1 + |f.userGoals|)
  {
  }

  /** The gaps and the confidence never reach the prompt. */
  lemma FactsTextIgnoresGapsAndConfidence(f: Facts, gaps: seq<string>, c: Confidence)
    ensures FormatFactsText(Some(f)) == FormatFactsText(Some(f.(missingCriticalInfo := gaps, confidence := c)))
  {
  }

  /** Facts with every shown field empty format as "", like a missing record. */
  lemma EmptyFactsFormatEmpty(f: Facts)
    requires f.legalArea == "" && f.situationSummary == "" && f.keyFacts == [] && f.partiesInvolved == []
    requires f.timelineEvents == [] && f.documentsMentioned == [] && f.userGoals == []
    ensures FormatFactsText(Some(f)) == FormatFactsText(None) == ""
  {
    assert FactsParts(f) == [];
  }

  // ---------------------------------------------------------------------
  // _format_brief_as_message
  // ---------------------------------------------------------------------

  function UrgencyName(u: Urgency): string {
    match u
    case Urgent => "urgent"
    case Standard => "standard"
    case LowPriority => "low_priority"
  }

  function UrgencyEmoji(u: Urgency): string {
    match u
    case Urgent => "\U{1F534}"
    case Standard => "\U{1F7E1}"
    case LowPriority => "\U{1F7E2}"
  }

  /** `level.replace("_", " ").title()` */
  function UrgencyLabel(u: Urgency): string {
    Title(ReplaceAll(UrgencyName(u), "_", " "))
  }

  /** `brief.jurisdiction or user_state or "Australia"` */
  function Jurisdiction(b: Brief, userState: Option<string>): (j: string)
    ensures j != ""
    ensures b.jurisdiction != "" ==> j == b.jurisdiction
    ensures b.jurisdiction == "" ==> j == if userState.Some? && userState.value != "" then userState.value else "Australia"
  {
    if b.jurisdiction != "" then b.jurisdiction
    else if userState.Some? && userState.value != "" then userState.value
    else "Australia"
  }

  /** The closing note, shown in italics. */
  const FooterNote := "This brief summarizes our conversation. Share it with a lawyer for professional advice."

  const BriefFooter: seq<string> := ["---", "", "*" + FooterNote + "*"]

  /** The header's sixteen lines, around its six variable parts. */
  function HeaderLayout(summary: string, urgency: string, reason: string, area: string,
                        jurisdiction: string, narrative: string): (lines: seq<string>)
    ensures |lines| == 16
  {
    [ "# Lawyer Brief",
      "",
      "## Summary",
      summary,
      "",
      "**Urgency:** " + urgency,
      "*" + reason + "*",
      "",
      "**Legal Area:** " + area,
      "**Jurisdiction:** " + jurisdiction,
      "",
      "---",
      "",
      "## Your Situation",
      narrative,
      "" ]
  }

  function BriefHeader(b: Brief, userState: Option<string>): (lines: seq<string>)
    ensures |lines| == 16
  {
    HeaderLayout(b.executiveSummary,
                 UrgencyEmoji(b.urgencyLevel) + " " + UrgencyLabel(b.urgencyLevel),
                 b.urgencyReason,
                 Title(b.legalArea),
                 Jurisdiction(b, userState),
                 b.situationNarrative)
  }

  /** A heading, one bullet per item and a blank line; nothing for an empty list. */
  function Section(heading: seq<string>, items: seq<string>): (lines: seq<string>)
    ensures items == [] ==> lines == []
    ensures items != [] ==> lines == heading + Bullets(items) + [""]
    ensures |lines| == if items == [] then 0 else |heading| + |items| + 1
  {
    if items == [] then [] else heading + Bullets(items) + [""]
  }

  function PartiesLines(parties: seq<string>): (lines: seq<string>)
    ensures parties == [] ==> lines == []
    ensures parties != [] ==> lines == ["**Parties Involved:** " + Join(parties, ", "), ""]
    ensures |lines| == if parties == [] then 0 else 2
  {
    if parties == [] then [] else ["**Parties Involved:** " + Join(parties, ", "), ""]
  }

  function BriefLines(b: Brief, userState: Option<string>): seq<string> {
    BriefHeader(b, userState)
    + Section(["## Key Facts"], b.keyFacts)
    + PartiesLines(b.parties)
    + Section(["## Documents & Evidence"], b.documentsEvidence)
    + Section(["## Your Goals"], b.clientGoals)
    + Section(["## Information to Gather", "*These are things the lawyer may ask about:*"], b.factGaps)
    + Section(["## Potential Legal Issues"], b.potentialIssues)
    + Section(["## Questions for Your Lawyer"], b.questionsForLawyer)
    + BriefFooter
  }

  function BriefMessage(b: Brief, userState: Option<string>): string {
    Join(BriefLines(b, userState), "\n")
  }

  /** Appends a section when its list is non-empty, as each `if` block of the source does. */
  method AppendSection(lines: seq<string>, heading: seq<string>, items: seq<string>) returns (out: seq<string>)
    ensures out == lines + Section(heading, items)
  {
    out := lines;
    if items != [] {
      out := out + heading;
      out := AppendBullets(out, items);
      out := out + [""];
    }
  }

  /** The list-growing code of the source. */
  method FormatBriefAsMessage(b: Brief, userState: Option<string>) returns (text: string)
    ensures text == BriefMessage(b, userState)
  {
    var lines := BriefHeader(b, userState);
    lines := AppendSection(lines, ["## Key Facts"], b.keyFacts);
    if b.parties != [] {
      lines := lines + ["**Parties Involved:** " + Join(b.parties, ", ")];
      lines := lines + [""];
    }
    assert lines == BriefHeader(b, userState) + Section(["## Key Facts"], b.keyFacts) + PartiesLines(b.parties);
    lines := AppendSection(lines, ["## Documents & Evidence"], b.documentsEvidence);
    lines := AppendSection(lines, ["## Your Goals"], b.clientGoals);
    lines := AppendSection(lines, ["## Information to Gather", "*These are things the lawyer may ask about:*"], b.factGaps);
    lines := AppendSection(lines, ["## Potential Legal Issues"], b.potentialIssues);
    lines := AppendSection(lines, ["## Questions for Your Lawyer"], b.questionsForLawyer);
    lines := lines + BriefFooter;
    assert lines == BriefLines(b, userState);
    text := Join(lines, "\n");
  }

  /**
   * The brief opens with its title and ends with the fixed footer; the
   * jurisdiction line falls back to the user's state and then to Australia.
   */
  lemma BriefShape(b: Brief, userState: Option<string>)
    ensures var lines := BriefLines(b, userState);
      && lines[0] == "# Lawyer Brief"
      && lines[9] == "**Jurisdiction:** " + Jurisdiction(b, userState)
      && lines[9] == "**Jurisdiction:** " + (if b.jurisdiction != "" then b.jurisdiction
                                             else if userState.Some? && userState.value != "" then userState.value
                                             else "Australia")
      && lines[|lines| - 3..] == BriefFooter
    ensures StartsWith(BriefMessage(b, userState), "# Lawyer Brief")
    ensures EndsWith(BriefMessage(b, userState), BriefFooter[2])
  {
    var h := BriefHeader(b, userState);
    var s1 := Section(["## Key Facts"], b.keyFacts);
    var p := PartiesLines(b.parties);
    var s2 := Section(["## Documents & Evidence"], b.documentsEvidence);
    var s3 := Section(["## Your Goals"], b.clientGoals);
    var s4 := Section(["## Information to Gather", "*These are things the lawyer may ask about:*"], b.factGaps);
    var s5 := Section(["## Potential Legal Issues"], b.potentialIssues);
    var s6 := Section(["## Questions for Your Lawyer"], b.questionsForLawyer);
    var lines := BriefLines(b, userState);
    assert lines == h + s1 + p + s2 + s3 + s4 + s5 + s6 + BriefFooter;
    LayoutLines(b.executiveSummary, UrgencyEmoji(b.urgencyLevel) + " " + UrgencyLabel(b.urgencyLevel),
                b.urgencyReason, Title(b.legalArea), Jurisdiction(b, userState), b.situationNarrative);
    LayoutShape(h, s1, p, s2, s3, s4, s5, s6);
    JoinStartsWithFirst(lines, "\n");
    JoinEndsWithLast(lines, "\n");
  }

  /** The brief has 19 fixed lines plus each non-empty section's heading, items and blank line. */
  lemma BriefLength(b: Brief, userState: Option<string>)
    ensures |BriefLines(b, userState)| == 19
         + (if b.keyFacts == [] then 0 else |b.keyFacts| + 2)
         + (if b.parties == [] then 0 else 2)
         + (if b.documentsEvidence == [] then 0 else |b.documentsEvidence| + 2)
         + (if b.clientGoals == [] then 0 else |b.clientGoals| + 2)
         + (if b.factGaps == [] then 0 else |b.factGaps| + 3)
         + (if b.potentialIssues == [] then 0 else |b.potentialIssues| + 2)
         + (if b.questionsForLawyer == [] then 0 else |b.questionsForLawyer| + 2)
  {
    var s1 := Section(["## Key Facts"], b.keyFacts);
    var p := PartiesLines(b.parties);
    var s2 := Section(["## Documents & Evidence"], b.documentsEvidence);
    var s3 := Section(["## Your Goals"], b.clientGoals);
    var s4 := Section(["## Information to Gather", "*These are things the lawyer may ask about:*"], b.factGaps);
    var s5 := Section(["## Potential Legal Issues"], b.potentialIssues);
    var s6 := Section(["## Questions for Your Lawyer"], b.questionsForLawyer);
    assert |BriefLines(b, userState)| == 19 + |s1| + |p| + |s2| + |s3| + |s4| + |s5| + |s6|;
    LayoutLength(s1, p, s2, s3, s4, s5, s6, b.keyFacts, b.parties, b.documentsEvidence, b.clientGoals,
                 b.factGaps, b.potentialIssues, b.questionsForLawyer);
  }

  /** The seven blocks' lengths add up, each counted only when its list is non-empty. */
  lemma LayoutLength(s1: seq<string>, p: seq<string>, s2: seq<string>, s3: seq<string>,
                     s4: seq<string>, s5: seq<string>, s6: seq<string>,
                     keyFacts: seq<string>, parties: seq<string>, documents: seq<string>, goals: seq<string>,
                     gaps: seq<string>, issues: seq<string>, questions: seq<string>)
    requires |s1| == if keyFacts == [] then 0 else 1 + |keyFacts| + 1
    requires |p| == if parties == [] then 0 else 2
    requires |s2| == if documents == [] then 0 else 1 + |documents| + 1
    requires |s3| == if goals == [] then 0 else 1 + |goals| + 1
    requires |s4| == if gaps == [] then 0 else 2 + |gaps| + 1
    requires |s5| == if issues == [] then 0 else 1 + |issues| + 1
    requires |s6| == if questions == [] then 0 else 1 + |questions| + 1
    ensures |s1| + |p| + |s2| + |s3| + |s4| + |s5| + |s6|
         == (if keyFacts == [] then 0 else |keyFacts| + 2)
          + (if parties == [] then 0 else 2)
          + (if documents == [] then 0 else |documents| + 2)
          + (if goals == [] then 0 else |goals| + 2)
          + (if gaps == [] then 0 else |gaps| + 3)
          + (if issues == [] then 0 else |issues| + 2)
          + (if questions == [] then 0 else |questions| + 2)
  {
  }

  /** The layout of any header, seven blocks and the footer. */
  lemma LayoutShape(h: seq<string>, s1: seq<string>, p: seq<string>, s2: seq<string>, s3: seq<string>,
                    s4: seq<string>, s5: seq<string>, s6: seq<string>)
    requires |h| == 16
    ensures var lines := h + s1 + p + s2 + s3 + s4 + s5 + s6 + BriefFooter;
      && |lines| == 19 + |s1| + |p| + |s2| + |s3| + |s4| + |s5| + |s6|
      && lines[0] == h[0] && lines[9] == h[9]
      && lines[|lines| - 3..] == BriefFooter
  {
    var rest := s1 + p + s2 + s3 + s4 + s5 + s6 + BriefFooter;
    assert h + s1 + p + s2 + s3 + s4 + s5 + s6 + BriefFooter == h + rest;
  }

  /** A non-empty list always gets its section heading; non-empty parties get their line. */
  lemma BriefSectionsPresent(b: Brief, userState: Option<string>)
    ensures b.keyFacts != [] ==> "## Key Facts" in BriefLines(b, userState)
    ensures b.parties != [] ==> "**Parties Involved:** " + Join(b.parties, ", ") in BriefLines(b, userState)
    ensures b.documentsEvidence != [] ==> "## Documents & Evidence" in BriefLines(b, userState)
    ensures b.clientGoals != [] ==> "## Your Goals" in BriefLines(b, userState)
    ensures b.factGaps != [] ==> "## Information to Gather" in BriefLines(b, userState)
    ensures b.potentialIssues != [] ==> "## Potential Legal Issues" in BriefLines(b, userState)
    ensures b.questionsForLawyer != [] ==> "## Questions for Your Lawyer" in BriefLines(b, userState)
  {
    var h := BriefHeader(b, userState);
    var s1 := Section(["## Key Facts"], b.keyFacts);
    var p := PartiesLines(b.parties);
    var s2 := Section(["## Documents & Evidence"], b.documentsEvidence);
    var s3 := Section(["## Your Goals"], b.clientGoals);
    var s4 := Section(["## Information to Gather", "*These are things the lawyer may ask about:*"], b.factGaps);
    var s5 := Section(["## Potential Legal Issues"], b.potentialIssues);
    var s6 := Section(["## Questions for Your Lawyer"], b.questionsForLawyer);
    assert BriefLines(b, userState) == h + s1 + p + s2 + s3 + s4 + s5 + s6 + BriefFooter;
    BlocksPresent(h, s1, p, s2, s3, s4, s5, s6);
  }

  /** The first line of each non-empty block is a line of the layout. */
  lemma BlocksPresent(h: seq<string>, s1: seq<string>, p: seq<string>, s2: seq<string>, s3: seq<string>,
                      s4: seq<string>, s5: seq<string>, s6: seq<string>)
    ensures var lines := h + s1 + p + s2 + s3 + s4 + s5 + s6 + BriefFooter;
      && (s1 != [] ==> s1[0] in lines)
      && (p != [] ==> p[0] in lines)
      && (s2 != [] ==> s2[0] in lines)
      && (s3 != [] ==> s3[0] in lines)
      && (s4 != [] ==> s4[0] in lines)
      && (s5 != [] ==> s5[0] in lines)
      && (s6 != [] ==> s6[0] in lines)
  {
    var lines := h + s1 + p + s2 + s3 + s4 + s5 + s6 + BriefFooter;
    if s1 != [] {
      assert lines[|h|] == s1[0];
    }
    if p != [] {
      assert lines[|h + s1|] == p[0];
    }
    if s2 != [] {
      assert lines[|h + s1 + p|] == s2[0];
    }
    if s3 != [] {
      assert lines[|h + s1 + p + s2|] == s3[0];
    }
    if s4 != [] {
      assert lines[|h + s1 + p + s2 + s3|] == s4[0];
    }
    if s5 != [] {
      assert lines[|h + s1 + p + s2 + s3 + s4|] == s5[0];
    }
    if s6 != [] {
      assert lines[|h + s1 + p + s2 + s3 + s4 + s5|] == s6[0];
    }
  }

  /** A line that opens with "##", as every section heading does. */
  predicate HeadingLine(x: string) { |x| >= 2 && x[0] == '#' && x[1] == '#' }

  /** The only heading lines of a section are its own headings, and only when it has items. */
  lemma SectionHeadings(heading: seq<string>, items: seq<string>, x: string)
    requires x in Section(heading, items) && HeadingLine(x)
    ensures items != [] && x in heading
  {
  }

  /**
   * The converse of BriefSectionsPresent: a heading line of the brief is a
   * fixed header heading, one of the two free-text header lines, or the
   * heading of a section whose list is non-empty.
   */
  lemma BriefHeadingsFromLists(b: Brief, userState: Option<string>, x: string)
    requires x in BriefLines(b, userState) && HeadingLine(x)
    ensures || x == "## Summary" || x == "## Your Situation"
            || x == b.executiveSummary || x == b.situationNarrative
            || (x == "## Key Facts" && b.keyFacts != [])
            || (x == "## Documents & Evidence" && b.documentsEvidence != [])
            || (x == "## Your Goals" && b.clientGoals != [])
            || (x == "## Information to Gather" && b.factGaps != [])
            || (x == "## Potential Legal Issues" && b.potentialIssues != [])
            || (x == "## Questions for Your Lawyer" && b.questionsForLawyer != [])
  {
    var h := BriefHeader(b, userState);
    var s1 := Section(["## Key Facts"], b.keyFacts);
    var p := PartiesLines(b.parties);
    var s2 := Section(["## Documents & Evidence"], b.documentsEvidence);
    var s3 := Section(["## Your Goals"], b.clientGoals);
    var s4 := Section(["## Information to Gather", "*These are things the lawyer may ask about:*"], b.factGaps);
    var s5 := Section(["## Potential Legal Issues"], b.potentialIssues);
    var s6 := Section(["## Questions for Your Lawyer"], b.questionsForLawyer);
    assert BriefLines(b, userState) == h + s1 + p + s2 + s3 + s4 + s5 + s6 + BriefFooter;
    if x in h {
      HeaderHeadings(b.executiveSummary, UrgencyEmoji(b.urgencyLevel) + " " + UrgencyLabel(b.urgencyLevel),
                     b.urgencyReason, Title(b.legalArea), Jurisdiction(b, userState), b.situationNarrative, x);
    } else if x in s1 {
      SectionHeadings(["## Key Facts"], b.keyFacts, x);
    } else if x in p {
    } else if x in s2 {
      SectionHeadings(["## Documents & Evidence"], b.documentsEvidence, x);
    } else if x in s3 {
      SectionHeadings(["## Your Goals"], b.clientGoals, x);
    } else if x in s4 {
      SectionHeadings(["## Information to Gather", "*These are things the lawyer may ask about:*"], b.factGaps, x);
    } else if x in s5 {
      SectionHeadings(["## Potential Legal Issues"], b.potentialIssues, x);
    } else if x in s6 {
      SectionHeadings(["## Questions for Your Lawyer"], b.questionsForLawyer, x);
    }
  }

  /**
   * The exceptions in BriefHeadingsFromLists are needed: the summary is free
   * text, so a brief without key facts can still show a "## Key Facts" line.
   */
  lemma SummaryCanReadAsHeading(b: Brief)
    requires b.executiveSummary == "## Key Facts" && b.keyFacts == []
    ensures "## Key Facts" in BriefLines(b, None)
  {
    var h := BriefHeader(b, None);
    var rest := BriefLines(b, None)[|h|..];
    assert BriefLines(b, None) == h + rest;
    LayoutLines(b.executiveSummary, UrgencyEmoji(b.urgencyLevel) + " " + UrgencyLabel(b.urgencyLevel),
                      b.urgencyReason, Title(b.legalArea), Jurisdiction(b, None), b.situationNarrative);
    assert (h + rest)[3] == h[3];
  }

  /** The header opens with the title, shows the summary as written and names the jurisdiction. */
  lemma LayoutLines(summary: string, urgency: string, reason: string, area: string,
                    jurisdiction: string, narrative: string)
    ensures var h := HeaderLayout(summary, urgency, reason, area, jurisdiction, narrative);
      h[0] == "# Lawyer Brief" && h[3] == summary && h[9] == "**Jurisdiction:** " + jurisdiction
  {
  }

  /** The header's heading lines: its two fixed headings and its two free-text lines. */
  lemma HeaderHeadings(summary: string, urgency: string, reason: string, area: string,
                       jurisdiction: string, narrative: string, x: string)
    requires x in HeaderLayout(summary, urgency, reason, area, jurisdiction, narrative) && HeadingLine(x)
    ensures x == "## Summary" || x == "## Your Situation" || x == summary || x == narrative
  {
    var h := HeaderLayout(summary, urgency, reason, area, jurisdiction, narrative);
    var i :| 0 <= i < |h| && h[i] == x;
    if i == 0 {
    } else if i == 5 {
    } else if i == 6 {
    } else if i == 8 {
    } else if i == 9 {
    } else if i == 11 {
    }
  }

  /** "low_priority" is shown as "Low Priority". */
  lemma LowPriorityLabel()
    ensures UrgencyLabel(LowPriority) == "Low Priority"
  {
    LowPrioritySpaced(UrgencyName(LowPriority));
    LowPriorityTitled(ReplaceAll(UrgencyName(LowPriority), "_", " "));
  }

  lemma LowPrioritySpaced(name: string)
    requires name == "low_priority"
    ensures ReplaceAll(name, "_", " ") == "low priority"
  {
    var head, rest := "low", "priority";
    assert name == head + ['_'] + rest;
    SpaceOneUnderscore(head, rest);
  }

  /** A name with one underscore has it turned into a space. */
  lemma SpaceOneUnderscore(head: string, rest: string)
    requires '_' !in head && '_' !in rest
    ensures ReplaceAll(head + ['_'] + rest, "_", " ") == head + " " + rest
  {
    assert "_" == ['_'];
    ReplaceCharAfter(head, '_', rest, " ");
    ContainsChars(rest, "_");
    ReplaceAbsent(rest, "_", " ");
  }

  lemma LowPriorityTitled(spaced: string)
    requires spaced == "low priority"
    ensures Title(spaced) == "Low Priority"
  {
    TitleShape(spaced, false);
    var t := Title(spaced);
    forall i | 0 <= i < |t| ensures t[i] == "Low Priority"[i] {
      if i == 0 || i == 4 {
        assert t[i] == UpperChar(spaced[i]);
      } else {
        assert IsAsciiLetter(spaced[i - 1]) <==> i != 4;
        assert t[i] == LowerChar(spaced[i]);
      }
    }
  }

  // ---------------------------------------------------------------------
  // brief_generate_node
  // ---------------------------------------------------------------------

  const GenerateQuickReplies: seq<string> := ["Find me a lawyer", "What should I ask the lawyer?", "Explain the urgency"]
  const GenerateFallbackMessage: string :=
    "I apologize, but I encountered an issue generating your brief. Please try again, or I can help you find a lawyer directly."
  const GenerateFallbackQuickReplies: seq<string> := ["Find me a lawyer", "Try again", "What can you help with?"]

  datatype GenerateUpdate = GenerateUpdate(
    message: string,
    mode: string,
    quickReplies: seq<string>,
    suggestLawyer: Option<bool>)

  /**
   * `write(user_state, conversation, facts_text)` is the brief writer; it
   * sees the last 20 messages and the formatted facts.
   */
  function Generate(ms: seq<Message>, userState: Option<string>, facts: Option<Facts>,
                    write: (Option<string>, string, string) -> Option<Brief>): GenerateUpdate
  {
    match write(userState, FormatConversationText(ms, 20), FormatFactsText(facts))
    case Some(b) => GenerateUpdate(BriefMessage(b, userState), "chat", GenerateQuickReplies, Some(true))
    case None => GenerateUpdate(GenerateFallbackMessage, "chat", GenerateFallbackQuickReplies, None)
  }

  /**
   * Generation always returns to chat mode and leads its quick replies with
   * "Find me a lawyer"; it suggests a lawyer exactly when a brief was written,
   * and otherwise offers to try again.
   */
  lemma GenerateOutcome(ms: seq<Message>, userState: Option<string>, facts: Option<Facts>,
                        write: (Option<string>, string, string) -> Option<Brief>)
    ensures var u := Generate(ms, userState, facts, write);
      && u.mode == "chat"
      && u.quickReplies[0] == "Find me a lawyer"
      && (u.suggestLawyer == Some(true) <==> write(userState, FormatConversationText(ms, 20), FormatFactsText(facts)).Some?)
      && (u.suggestLawyer.None? ==> u.quickReplies[1] == "Try again")
      && (u.suggestLawyer.Some? ==> StartsWith(u.message, "# Lawyer Brief"))
  {
    var b := write(userState, FormatConversationText(ms, 20), FormatFactsText(facts));
    if b.Some? {
      BriefShape(b.value, userState);
    }
  }
}
