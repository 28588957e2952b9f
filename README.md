# law-agent core, modelled in Dafny

This project models the deterministic core of the law-agent backend. That
backend is an Australian legal-help assistant built as a LangGraph
conversation graph. The model covers:

- **One turn of the graph** (`Graph`):
  - `initialize_node` finds the latest user message, reads the CopilotKit
    context and detects the `[GENERATE_BRIEF]` trigger;
  - `route_after_initialize` chooses brief, check or skip;
  - the safety gate runs, with escalation or chat after it;
  - the brief subflow checks the facts, then asks questions or generates the brief.

  Each node returns a patch: the keys it writes overwrite the state, and its
  messages are appended. `Graph.Turn` runs the edge table node by node, as
  the library does. `Graph.TurnResult` writes the same turn out path by path.
  A session is a sequence of turns over the persisted state.
- **The context extractors** (`Context`): a CopilotKit entry is matched by its
  description; a double-serialised value is cleaned; then the state code,
  the document URL, the legal topic and the UI mode are read from it.
- **The safety gate** (`Safety`):
  - the crisis table is checked first, then the uncertain patterns that decide
    whether the classifier is consulted;
  - the router reads the result;
  - the escalation message is built from the crisis resources.

  Every regular expression there is a word-bounded alternation of fixed
  phrases, so each one is modelled as its finite list of phrases.
- **The brief subflow** (`BriefFlow`):
  - the completion rule for extracted facts;
  - the updates of the check, ask and generate nodes, with their fallbacks;
  - the formatters for the conversation, the facts and the brief.
- **The chat stage** (`ChatResponse`): the system prompt chosen by UI mode and
  topic, the conversation the quick-reply writer sees, and the node's
  result with its fallbacks.
- **The tools**:
  - `get_action_template` (`ActionTemplate`): scoring, best match, ordered steps;
  - `lookup_law` (`LookupLaw`): jurisdiction mapping, retrieve and rerank, the records, the note for an unsupported state;
  - `analyze_document` (`AnalyzeDocument`): refusal, truncation, framing.
- **The retrieval service** (`HybridRetriever`): Reciprocal Rank Fusion,
  written in place into the rows; a stable descending sort; the
  weak-match filter; the cut to `top_k`.
- **The element schemas** (`LegalElements`): the table of schemas with its aliases, and its lookups.
- **The document parser** (`DocumentParser`): dispatch on the file suffix, PDF page labelling, Word paragraph filtering, image data URLs.

Some operations depend on the outside world: every language-model call, the
classifier, the crisis-resource directory, the database and RPC queries,
the embedding and reranking services, the PDF, Word and image libraries,
the URL fetcher and `uuid4`. Each of these is a function-typed input. It
returns `Option` or `Result`, where `None` or `Err` means the call raised.
The prompts a stage builds appear as the arguments it passes to that
input. So when a property says a value is "never consulted", it is stated
extensionally: the result is the same for any two such inputs that agree
where they are used.

Helper modules:

- `Wrappers`: `Option`, `Result`, and `Write`, the key update of a patch.
- `Text`: ASCII case mapping, Python's whitespace, `strip`, `in`,
  `replace`, `join`, `title` and decimal formatting.
- `Slices`: Python's slices with negative and open bounds.
- `Sorting`: a stable insertion sort on a real-valued key, proved sorted,
  a permutation and stable; Python's `sort(..., reverse=True)` is the same
  sort on the negated key.
- `Messages`: the message kinds.

Where a step is a loop in the source, it is a `method` with a loop. It is
proved equal to the function that the properties are stated on. The source
updates three lists in place. `_apply_rrf` writes a key into every row; it
is a method on an `array`. `get_action_template` sorts its scored rows with
`list.sort`, and `lookup_law` inserts its note with `insert(0, ...)`. Both
of those lists are local, and nothing else refers to them. So the sort is
the function `SortBy` and the insertion is a prepend, with nothing lost.

Some facts about the code that the model follows:

- The code has no "skip questions" or "generate now" command. It has no
  unlimited question mode. It never resets `brief_questions_asked`. So the
  three-round cap holds for a whole session (`Graph.SessionAsksAtMostThree`).
- `initialize_node` writes neither `ui_mode` nor `legal_topic`. The chat
  stage reads them with their defaults.
- `backend/tests/test_brief_generation.py` expects behaviour the code does
  not have, and the model follows the code. At lines 21-22 it imports
  `_detect_skip_response` and `_detect_generate_now`, which the stage does
  not define. At lines 91-124 it expects a `[GENERATE_NOW]` query to route
  to generation and questions to go on after ten rounds. At lines 270-311 it
  passes an `unknown_info` argument and expects an "Information Not
  Provided" section; `_format_brief_as_message` takes no such argument and
  has no such section.

## Model

| member | source | states |
|---|---|---|
| Context.FirstMatching | backend/app/agents/utils/context.py:29-41 | the value of the first entry whose description contains the keyword ignoring case; `None` exactly when no entry matches |
| Context.ExtractIgnoresKeywordCase | backend/app/agents/utils/context.py:36 | the keyword's case never changes which entry is found |
| Context.Unquote | backend/app/agents/utils/context.py:59-60 | removing the surrounding quotes never lengthens the value |
| Context.CleanContextValue | backend/app/agents/utils/context.py:44-63 | a present value stays present and never grows; `None` and "" pass through |
| Context.CleanUnescapes | backend/app/agents/utils/context.py:62 | a single `\"` in text without other '"' or '\\' becomes '"', with the text around it kept |
| Context.CleanUnescapesAll | backend/app/agents/utils/context.py:59-62 | every `\"` becomes a plain '"': parts free of '"' and '\\' joined by `\"` come back joined by '"' |
| Context.CleanQuoteFree | backend/app/agents/utils/context.py:57-63 | a value without any '"' is returned unchanged |
| Context.CleanUnwrapsOnePair | backend/app/agents/utils/context.py:59-60 | exactly one surrounding pair of quotes is removed from a quoted value |
| Context.CleanBackslashFree | backend/app/agents/utils/context.py:59-62 | without backslashes the cleaning only unquotes |
| Context.CleanNotIdempotent | backend/app/agents/utils/context.py:57-63 | a doubly quoted value needs two cleanings: `""NSW""` cleans to `"NSW"` |
| Context.FirstCodeIn | backend/app/agents/utils/context.py:83-85 | `None` exactly when no state code occurs; otherwise a code of the list that occurs |
| Context.FirstCodeIsFirst | backend/app/agents/utils/context.py:83-85 | the code reported is the first of `STATE_CODES` that occurs in the upper-cased value |
| Context.UserStateFrom | backend/app/agents/utils/context.py:76-87 | `None` exactly for a falsy cleaned value; when a state code occurs in the upper-cased value it is the code `FirstCodeIn` reports, and when none occurs it is the cleaned value itself |
| Context.UserStateFirstCode | backend/app/agents/utils/context.py:83-85 | the state reported is the first of `STATE_CODES` that occurs in the upper-cased value |
| Context.UserStateLowerCase | backend/app/agents/utils/context.py:83-85 | "User is in nsw" yields "NSW": the comparison is on the upper-cased value |
| Context.NewSouthWalesReadsAsWA | backend/app/agents/utils/context.py:83-85 | the full name "New South Wales" is reported as "WA", because the scan is by substring in table order |
| Context.NewSouthWalesCodes | backend/app/agents/utils/context.py:11 | NSW, VIC, QLD and SA do not occur in "NEW SOUTH WALES"; WA does |
| Context.NotInNewSouthWales | backend/app/agents/utils/context.py:11 | codes starting NS, VI, QL or SA do not occur in "NEW SOUTH WALES" |
| Context.UrlRun | backend/app/agents/utils/context.py:107 | `[^\s"]+` is the maximal run of characters other than whitespace and '"' |
| Context.SchemeLength | backend/app/agents/utils/context.py:107 | `https?://` matches 7 or 8 characters, or nothing |
| Context.UrlPrefix | backend/app/agents/utils/context.py:107 | an anchored match starts with http:// or https://, has at least one URL character, contains no '"', and stops where the URL characters stop |
| Context.SearchUrl | backend/app/agents/utils/context.py:107-109 | the URL found occurs in the value, starts with a scheme and contains no '"' |
| Context.SearchUrlLeftmost | backend/app/agents/utils/context.py:107-109 | `re.search` returns the match at the leftmost matching index, and nothing only when no index matches |
| Context.SearchUrlUnique | backend/app/agents/utils/context.py:107-109 | when an index is the leftmost match, that match is the one returned |
| Context.DocumentUrlFrom | backend/app/agents/utils/context.py:100-111 | a URL is found only in a truthy cleaned value, occurs in it, starts with a scheme and has no '"' |
| Context.NoUrlWithoutH | backend/app/agents/utils/context.py:107 | text not starting with 'h' has no match at its start |
| Context.UrlAfterPrefix | backend/app/agents/utils/context.py:107-109 | a URL after text without an 'h' is found exactly, up to the first non-URL character |
| Context.DocumentUrlExample | backend/app/agents/utils/context.py:107-109 | the URL stops at the quote that closes it |
| Context.LegalTopicFrom | backend/app/agents/utils/context.py:124-136 | the topic is one of parking_ticket, insurance_claim, general |
| Context.InsuranceFineIsParking | backend/app/agents/utils/context.py:131-132 | the parking words are tested first: "insurance fine" is a parking ticket |
| Context.LegalTopicCases | backend/app/agents/utils/context.py:127-136 | no value gives general; a claim without a parking word is an insurance claim |
| Context.UiModeFrom | backend/app/agents/utils/context.py:149-159 | "analysis" exactly when the cleaned value contains "ANALYSIS MODE" ignoring case; "chat" otherwise |
| Context.NoContextDefaults | backend/app/agents/utils/context.py:25-27 | without CopilotKit data every extractor returns its default |
| Safety.Lit | backend/app/agents/stages/safety_check_lite.py:19-45 | a literal phrase matches its characters one by one |
| Safety.FirstCategory | backend/app/agents/stages/safety_check_lite.py:48-62 | `None` exactly when no category's pattern is found; otherwise the first category in table order with a pattern found |
| Safety.ScanCategories | backend/app/agents/stages/safety_check_lite.py:54-62 | the nested scan that stops at the first hit gives that first category, and crisis exactly when one was found |
| Safety.CheckCrisisKeywords | backend/app/agents/stages/safety_check_lite.py:48-62 | the scan runs on the lower-cased query |
| Safety.CheckMightBeRisky | backend/app/agents/stages/safety_check_lite.py:65-73 | risky exactly when some uncertain pattern is found in the lower-cased query |
| Safety.SafetyCheck | backend/app/agents/stages/safety_check_lite.py:76-134 | the result is "safe" or "escalate", and resources are present exactly on escalation |
| Safety.SafetyCheckNode | backend/app/agents/stages/safety_check_lite.py:76-134 | the node, with its scans run as loops, computes that result |
| Safety.RouteAfterSafety | backend/app/agents/stages/safety_check_lite.py:137-149 | "escalate" exactly when the result is "escalate" (absent reads "safe"), "continue" otherwise |
| Safety.BlankQueryIsSafe | backend/app/agents/stages/safety_check_lite.py:96-101 | a blank query is safe without resources, and the classifier is not called |
| Safety.CrisisEscalatesWithoutClassifier | backend/app/agents/stages/safety_check_lite.py:103-112 | a crisis match escalates with the directory's resources for its category, whatever the classifier would say |
| Safety.NoMatchInBlank | backend/app/agents/stages/safety_check_lite.py:19-36 | no crisis phrase occurs in whitespace |
| Safety.QuietQueryIsSafe | backend/app/agents/stages/safety_check_lite.py:114-134 | with neither kind of match the query is safe and the classifier is not consulted |
| Safety.UncertainDefersToClassifier | backend/app/agents/stages/safety_check_lite.py:114-128 | with only an uncertain match, the classifier decides: its error propagates; it escalates with its own resources exactly when it asks to |
| Safety.AvoEscalates | backend/app/agents/stages/safety_check_lite.py:27 | "I need an AVO" is a crisis |
| Safety.DocsEscalates | backend/app/agents/stages/safety_check_lite.py:30 | "DOCS took them" is a crisis, whatever the case |
| Safety.ScaredOfMyLandlordEscalates | backend/app/agents/stages/safety_check_lite.py:26 | "I am scared of my landlord" is read as family violence |
| Safety.AvocadoIsNotAvo | backend/app/agents/stages/safety_check_lite.py:27 | the word boundary keeps "avo" from matching inside "avocado" |
| Safety.EvictAloneIsNotUncertain | backend/app/agents/stages/safety_check_lite.py:41 | "evict" alone matches none of the eviction phrases |
| Safety.ResourceBlock | backend/app/agents/stages/safety_check_lite.py:163-169 | the name in bold, then " - phone", an italic description line and a URL line, each present exactly when its field is non-empty, in that order |
| Safety.ResourceBlockFields | backend/app/agents/stages/safety_check_lite.py:163-169 | the block opens with the bold name, contains every non-empty field, and is exactly as long as the name and the shown fields: an empty field adds nothing |
| Safety.ResourceBlocks | backend/app/agents/stages/safety_check_lite.py:161-170 | one block per resource, in order |
| Safety.FormatEscalationResponse | backend/app/agents/stages/safety_check_lite.py:152-188 | the loop builds the framed message |
| Safety.EscalationShape | backend/app/agents/stages/safety_check_lite.py:172-184 | the message keeps its fixed opening and closing and contains every resource's block, and so its name in bold; without resources it is the frame alone |
| BriefFlow.Bullets | backend/app/agents/stages/brief_flow.py:383 | one "- item" line per item, in order |
| BriefFlow.AppendBullets | backend/app/agents/stages/brief_flow.py:508-511 | appending bullets adds exactly those lines |
| BriefFlow.MessageLine | backend/app/agents/stages/brief_flow.py:491-494 | a message gives at most one line |
| BriefFlow.ConversationLines | backend/app/agents/stages/brief_flow.py:490-495 | never more lines than messages |
| BriefFlow.FormatConversation | backend/app/agents/stages/brief_flow.py:487-495 | the loop keeps the last `max_messages`, labels and joins them |
| BriefFlow.ConversationLinesCount | backend/app/agents/stages/brief_flow.py:491-494 | exactly the user and assistant messages give a line |
| BriefFlow.ConversationLinesLabel | backend/app/agents/stages/brief_flow.py:491-494 | every user or assistant message appears with its "User: " or "Assistant: " label, in list order: right after the lines of the messages before it |
| BriefFlow.NoDialogueFormatsEmpty | backend/app/agents/stages/brief_flow.py:487-495 | a history of only other messages formats as "" |
| BriefFlow.ZeroLimitKeepsAll | backend/app/agents/stages/brief_flow.py:490 | `messages[-0:]` keeps the whole history |
| BriefFlow.CheckInfoOutcome | backend/app/agents/stages/brief_flow.py:287-347 | on success the facts and their gaps are stored, and complete exactly under the rule (confidence ≥ 0.6, ≤ 1 gap, known area, ≥ 2 facts); on failure the fixed fallback is stored, marked complete although it fails the rule |
| BriefFlow.HasEnoughInfoMonotone | backend/app/agents/stages/brief_flow.py:312-317 | more confidence keeps complete facts complete; more gaps keep incomplete facts incomplete |
| BriefFlow.CompletionExamples | backend/app/agents/stages/brief_flow.py:312-317 | 0.7 with two gaps is incomplete; 0.8 with no gap and two facts is complete |
| BriefFlow.NumberedLines | backend/app/agents/stages/brief_flow.py:390-391 | question k gets the line "k. q" numbered from 1 |
| BriefFlow.BuildQuestionText | backend/app/agents/stages/brief_flow.py:389-391 | the `+=` loop builds the preface and the numbered lines |
| BriefFlow.AskCountsEveryRound | backend/app/agents/stages/brief_flow.py:367-406 | both outcomes count the round; success offers the three fixed replies, failure forces completion |
| BriefFlow.AskIgnoresBeyondFive | backend/app/agents/stages/brief_flow.py:383 | only the first five missing items reach the question writer |
| BriefFlow.QuestionTextShape | backend/app/agents/stages/brief_flow.py:389-391 | the message starts with the preface and holds every question numbered from 1 |
| BriefFlow.HeadedBullets | backend/app/agents/stages/brief_flow.py:508-527 | a heading and one line per item, or nothing for an empty list |
| BriefFlow.LabelLine | backend/app/agents/stages/brief_flow.py:502-506 | one line for a non-empty value, none otherwise |
| BriefFlow.ListLine | backend/app/agents/stages/brief_flow.py:513-522 | one joined line for a non-empty list, none otherwise |
| BriefFlow.AppendLabel | backend/app/agents/stages/brief_flow.py:502-506 | appends that line, if any |
| BriefFlow.AppendHeaded | backend/app/agents/stages/brief_flow.py:508-527 | appends the heading and bullets, if any |
| BriefFlow.AppendList | backend/app/agents/stages/brief_flow.py:513-522 | appends the joined line, if any |
| BriefFlow.FormatFactsForPrompt | backend/app/agents/stages/brief_flow.py:498-529 | the appending code builds the facts text |
| BriefFlow.FactsPartsCount | backend/app/agents/stages/brief_flow.py:498-529 | one line per present field and list, plus one per item of the three bulleted lists |
| BriefFlow.FactsTextIgnoresGapsAndConfidence | backend/app/agents/stages/brief_flow.py:498-529 | the gaps and the confidence never reach the brief writer's prompt |
| BriefFlow.EmptyFactsFormatEmpty | backend/app/agents/stages/brief_flow.py:498-529 | facts with every shown field empty format like the missing record, as "" |
| BriefFlow.Jurisdiction | backend/app/agents/stages/brief_flow.py:550 | the brief's own jurisdiction when non-empty, else the user's state when non-empty, else "Australia"; never empty |
| BriefFlow.BriefHeader | backend/app/agents/stages/brief_flow.py:540-557 | the header is 16 lines |
| BriefFlow.Section | backend/app/agents/stages/brief_flow.py:559-598 | an empty list gives no lines; a non-empty one gives its heading lines, one "- item" line per item in order, and a blank line |
| BriefFlow.PartiesLines | backend/app/agents/stages/brief_flow.py:565-567 | no lines without parties; otherwise the bold "Parties Involved" line listing them comma-separated, and a blank line |
| BriefFlow.AppendSection | backend/app/agents/stages/brief_flow.py:559-598 | appends the section, if any |
| BriefFlow.FormatBriefAsMessage | backend/app/agents/stages/brief_flow.py:532-606 | the list-growing code builds the brief message |
| BriefFlow.BriefShape | backend/app/agents/stages/brief_flow.py:532-606 | the brief opens with its title; line 10 shows the brief's jurisdiction, else the user's state, else "Australia"; the message starts with the title and ends with the footer |
| BriefFlow.BriefLength | backend/app/agents/stages/brief_flow.py:540-606 | the brief has 19 fixed lines plus, for each non-empty list, its heading lines, one line per item and a blank line |
| BriefFlow.BriefSectionsPresent | backend/app/agents/stages/brief_flow.py:559-598 | each of the six non-empty lists gets its heading, and non-empty parties get their line |
| BriefFlow.BriefHeadingsFromLists | backend/app/agents/stages/brief_flow.py:540-606 | the converse: a "##" line of the brief is "## Summary", "## Your Situation", the free-text summary or narrative, or the heading of a section whose list is non-empty |
| BriefFlow.SummaryCanReadAsHeading | backend/app/agents/stages/brief_flow.py:544 | the free-text summary is a raw line, so a brief without key facts can still show a "## Key Facts" line |
| BriefFlow.LowPriorityLabel | backend/app/agents/stages/brief_flow.py:546 | "low_priority" is shown as "Low Priority" |
| BriefFlow.GenerateOutcome | backend/app/agents/stages/brief_flow.py:426-480 | generation returns to chat mode and leads with "Find me a lawyer"; it suggests a lawyer exactly when the brief was written, and otherwise offers "Try again" |
| ChatResponse.PlaybookFor | backend/app/agents/stages/chat_response.py:355-360 | a playbook exactly for parking_ticket and insurance_claim |
| ChatResponse.CreateSystemPrompt | backend/app/agents/stages/chat_response.py:341-360 | formats the base template, then appends the playbook |
| ChatResponse.SystemPromptShape | backend/app/agents/stages/chat_response.py:341-360 | the analysis template exactly in analysis mode; the playbook exactly once for the two topics and never otherwise |
| ChatResponse.BasePlaceholders | backend/app/agents/stages/chat_response.py:348-352 | a missing or empty state reads "Not specified"; "Yes" exactly with a document; a missing or empty URL reads "None" |
| ChatResponse.RoleLines | backend/app/agents/stages/chat_response.py:297-300 | one labelled line per message; everything not from the user is "Assistant" |
| ChatResponse.BuildQuickReplyConversation | backend/app/agents/stages/chat_response.py:296-300 | the `+=` loop over the last six messages |
| ChatResponse.QuickReplyConversationRecent | backend/app/agents/stages/chat_response.py:297 | only the last six messages matter |
| ChatResponse.QuickReplyConversationLines | backend/app/agents/stages/chat_response.py:297-300 | each of the last six messages has its line |
| ChatResponse.ChatReply | backend/app/agents/stages/chat_response.py:415-435 | the reply is the agent's last message, or the apology for an empty answer; the quick-reply writer never changes it, and its failure gives the two fallback replies without a brief suggestion |
| ChatResponse.ChatAgentFailure | backend/app/agents/stages/chat_response.py:437-447 | an agent failure gives the fixed error reply and replies |
| ChatResponse.AgentSeesDocument | backend/app/agents/stages/chat_response.py:391-396 | the agent is told of a document exactly when the URL is non-empty; absent mode and topic default to chat and general |
| Graph.Apply | backend/app/agents/conversational_graph.py:213-281 | a patch appends its messages and never touches the CopilotKit data, UI mode or topic |
| Graph.GraphExtractContextItem | backend/app/agents/conversational_graph.py:48-66 | the graph's copy of the lookup agrees with `Context` |
| Graph.GraphExtractUserState | backend/app/agents/conversational_graph.py:78-92 | the graph's copy of the state extraction agrees with `Context` |
| Graph.FirstCode | backend/app/agents/conversational_graph.py:88-90 | the loop finds the first code that occurs |
| Graph.GraphExtractDocumentUrl | backend/app/agents/conversational_graph.py:95-108 | the graph's copy of the URL extraction agrees with `Context` |
| Graph.LastHumanContent | backend/app/agents/conversational_graph.py:125-129 | `None` exactly when there is no user message |
| Graph.LastHumanIsLatest | backend/app/agents/conversational_graph.py:125-129 | what is found is a user message with no user message after it |
| Graph.InitializeNode | backend/app/agents/conversational_graph.py:115-160 | the reverse scan and the writes of the node |
| Graph.CurrentQueryShape | backend/app/agents/conversational_graph.py:141-144 | without the trigger the query is the message unstripped; with it, strictly shorter |
| Graph.RouteAfterInitialize | backend/app/agents/conversational_graph.py:163-187 | brief exactly in brief mode; a first message (absent reads first) is checked; skip exactly for a later short query with no risk word as a substring |
| Graph.RouteBriefInfo | backend/app/agents/conversational_graph.py:190-206 | generate exactly when complete or three rounds were asked, ask otherwise |
| Graph.TellMeMoreSkips | backend/app/agents/conversational_graph.py:181-185 | "Tell me more" on a later turn skips the safety check |
| Graph.SubstringRiskWordsCheck | backend/app/agents/conversational_graph.py:181-183 | "helpful" and "diet" are checked, because risk words are matched as substrings |
| Graph.SafetyNodePatchShape | backend/app/agents/stages/safety_check_lite.py:96-134 | the safety node adds no message and leaves the mode and counter alone |
| Graph.EscalationPatchShape | backend/app/agents/stages/safety_check_lite.py:186-188 | escalation adds one message only |
| Graph.ChatPatchShape | backend/app/agents/stages/chat_response.py:431-447 | the chat node adds one message and leaves the mode and counter alone |
| Graph.CheckInfoPatchShape | backend/app/agents/stages/brief_flow.py:325-347 | the check node adds no message and writes only the three brief keys |
| Graph.AskPatchShape | backend/app/agents/stages/brief_flow.py:393-406 | the ask node adds one message and counts the round |
| Graph.GeneratePatchShape | backend/app/agents/stages/brief_flow.py:460-480 | the generate node adds one message and sets chat mode |
| Graph.Next | backend/app/agents/conversational_graph.py:243-279 | every edge moves closer to the end |
| Graph.Turn | backend/app/agents/conversational_graph.py:213-281 | running node after node along the edge table is the recursive run from the entry point |
| Graph.DriveBrief | backend/app/agents/conversational_graph.py:266-279 | from the check node the edges run the brief path |
| Graph.DriveChecked | backend/app/agents/conversational_graph.py:256-277 | from the safety node the edges run the checked path |
| Graph.DriveLast | backend/app/agents/conversational_graph.py:276-279 | escalation, chat, question-asking and brief generation end the turn with their patch |
| Graph.TurnMatchesPaths | backend/app/agents/conversational_graph.py:213-281 | the edge table gives exactly the paths written out |
| Graph.TurnRoutes | backend/app/agents/conversational_graph.py:245-254 | the route after initialize decides the path |
| Graph.BriefPathEffects | backend/app/agents/conversational_graph.py:266-279 | the brief path appends one message and leaves the safety keys alone; it asks only below three rounds, counting one, and otherwise generates, back in chat mode |
| Graph.GenerateStepEffects | backend/app/agents/stages/brief_flow.py:460-480 | after generating: one message more, chat mode, counter kept |
| Graph.AskStepEffects | backend/app/agents/stages/brief_flow.py:393-406 | after asking: one message more, counter plus one, mode kept |
| Graph.CheckedPathEffects | backend/app/agents/conversational_graph.py:256-277 | the checked path appends one message and keeps the mode and counter |
| Graph.SkipPathEffects | backend/app/agents/conversational_graph.py:245-254 | the skip path appends one message and keeps the mode and counter |
| Graph.InitializeRewritesMode | backend/app/agents/conversational_graph.py:131-160 | the mode is brief exactly when the latest user message has the trigger; the session id is kept when truthy and minted otherwise; the first-message flag is ≤ 1 message |
| Graph.TurnAppendsOneMessage | backend/app/agents/conversational_graph.py:213-281 | every successful turn keeps the history and appends one message |
| Graph.BriefModeNeedsTrigger | backend/app/agents/conversational_graph.py:141-173 | a turn without the trigger ends in chat mode; one with it never runs the safety check |
| Graph.CheckedPathCrisis | backend/app/agents/stages/safety_check_lite.py:103-112 | on the checked path a crisis match escalates with the directory's resources and their message |
| Graph.FirstMessageCrisisEscalates | backend/app/agents/conversational_graph.py:175-177 | a first message without the trigger is always checked, and a crisis match ends in the escalation message |
| Graph.QuestionCounter | backend/app/agents/conversational_graph.py:198-206 | the counter moves only on a turn that asks, by one, and only from below three |
| Graph.SessionAsksAtMostThree | backend/app/agents/conversational_graph.py:201-203 | the counter is never reset, so a session asks at most three rounds in all |
| ActionTemplate.QueryWords | backend/app/tools/get_action_template.py:47 | the distinct words of the lower-cased query |
| ActionTemplate.WordScore | backend/app/tools/get_action_template.py:56-62 | 2 for a keyword containing the word, 1 each for title and description; positive exactly when one holds |
| ActionTemplate.ScoreRange | backend/app/tools/get_action_template.py:55-62 | a score is at most 4 per word and positive exactly when some word scores |
| ActionTemplate.Candidates | backend/app/tools/get_action_template.py:49-65 | never more candidates than rows |
| ActionTemplate.CandidatesMembers | backend/app/tools/get_action_template.py:64-65 | the candidates are exactly the scoring rows, each with its score |
| ActionTemplate.NoCandidates | backend/app/tools/get_action_template.py:70-72 | no candidate exactly when no row scores |
| ActionTemplate.Best | backend/app/tools/get_action_template.py:67-76 | a fetched row; the first row when nothing scores |
| ActionTemplate.FormattedSteps | backend/app/tools/get_action_template.py:78-84 | one output step per step |
| ActionTemplate.AnyKeyword | backend/app/tools/get_action_template.py:57 | the `any` finds a keyword containing the word |
| ActionTemplate.ScoreTemplate | backend/app/tools/get_action_template.py:55-62 | the loop computes the score |
| ActionTemplate.ScoreTemplates | backend/app/tools/get_action_template.py:48-65 | the loop builds the candidates |
| ActionTemplate.FormatSteps | backend/app/tools/get_action_template.py:78-84 | the loop builds the output steps |
| ActionTemplate.GetActionTemplate | backend/app/tools/get_action_template.py:7-99 | the whole tool |
| ActionTemplate.CandidatePosition | backend/app/tools/get_action_template.py:49-65 | candidates keep data order: every earlier scoring row is an earlier candidate |
| ActionTemplate.BestIsEarliestMaximum | backend/app/tools/get_action_template.py:67-76 | when a row scores, the tool picks a row of maximal score, the earliest such (the sort is stable) |
| ActionTemplate.PlanSteps | backend/app/tools/get_action_template.py:77-84 | steps come out in ascending order, a missing order as 0, as a stable permutation |
| ActionTemplate.ActionTemplateOutcome | backend/app/tools/get_action_template.py:24-99 | an exception gives the apology; two empty fetches give the no-templates message; a non-empty fetch gives exactly one plan, built from the best-scoring fetched row |
| ActionTemplate.FallbackOnlyWhenEmpty | backend/app/tools/get_action_template.py:36-41 | the unfiltered query matters only when the state's query returns no rows |
| ActionTemplate.NoTemplatesMessageShape | backend/app/tools/get_action_template.py:43-44 | the message names the query and the state |
| AnalyzeDocument.Truncated | backend/app/tools/analyze_document.py:41-47 | the body is the prefix of length min(length, 30000) |
| AnalyzeDocument.AnalyzeOutcome | backend/app/tools/analyze_document.py:29-60 | a failed fetch names its error; missing or short stripped text is refused; anything else is framed |
| AnalyzeDocument.ShortTextRefused | backend/app/tools/analyze_document.py:38-39 | text under 50 characters is refused whatever it holds |
| AnalyzeDocument.UrlReplacesText | backend/app/tools/analyze_document.py:30-36 | with a URL the supplied text is ignored |
| AnalyzeDocument.TruncationRule | backend/app/tools/analyze_document.py:42-46 | text over 30000 keeps its first 30000 characters; shorter text is unchanged |
| AnalyzeDocument.FramedBody | backend/app/tools/analyze_document.py:50-57 | the body sits between the header and the footer and can be cut back out |
| AnalyzeDocument.ReportedLength | backend/app/tools/analyze_document.py:53 | the reported length reads back as the body's length, at most 30000 |
| LookupLaw.ResolveJurisdiction | backend/app/tools/lookup_law.py:49-53 | a jurisdiction exactly for the nine known codes, and it is NSW, QLD or FEDERAL |
| LookupLaw.Passages | backend/app/tools/lookup_law.py:67-81 | one record per chunk |
| LookupLaw.LookupLaw | backend/app/tools/lookup_law.py:29-95 | the assembly loop and the note |
| LookupLaw.JurisdictionTable | backend/app/tools/lookup_law.py:17-25 | NSW and QLD map to themselves; FEDERAL and ACT to federal; the five unsupported states fall back to federal |
| LookupLaw.NoResultMessageShape | backend/app/tools/lookup_law.py:60-64 | the message names the state only when resolved, and "Federal law" for an unsupported one |
| LookupLaw.AssembledShape | backend/app/tools/lookup_law.py:66-91 | one record per chunk in order, after a note that is there exactly for an unsupported state |
| LookupLaw.PassageContent | backend/app/tools/lookup_law.py:69-75 | the parent's non-empty content wins over the chunk's; the defaults are "Unknown", the state and "" |
| LookupLaw.NoParentNoQuery | backend/app/tools/lookup_law.py:145-148 | without a parent id the table is not queried |
| LookupLaw.SearchAndRerankFlow | backend/app/tools/lookup_law.py:98-129 | nothing retrieved gives the no-result message without the reranker; otherwise 5 of 20 are reranked; a retrieval error gives the apology |
| HybridRetriever.Contribution | backend/app/services/hybrid_retriever.py:110-117 | 0 for an absent rank; otherwise positive and at most 1/60 |
| HybridRetriever.RrfScore | backend/app/services/hybrid_retriever.py:106-119 | non-negative, zero exactly with no rank, at most 2/60 |
| HybridRetriever.ApplyRrf | backend/app/services/hybrid_retriever.py:94-121 | writes each row's fused score in place, changing nothing else |
| HybridRetriever.ScoreAll | backend/app/services/hybrid_retriever.py:67 | one scored row per row |
| HybridRetriever.SearchResult | backend/app/services/hybrid_retriever.py:47-92 | an RPC error is re-raised; no rows gives [] |
| HybridRetriever.Search | backend/app/services/hybrid_retriever.py:30-92 | the search, with the fusion in place |
| HybridRetriever.RankedOrder | backend/app/services/hybrid_retriever.py:70-88 | the output is sorted by non-increasing score, all rows reach the threshold, at most `top_k`, the head of the filtered list |
| HybridRetriever.FilteredKeepsStrong | backend/app/services/hybrid_retriever.py:77-80 | strong rows keep their multiplicity, weak rows vanish |
| HybridRetriever.FilterStrongWithKey | backend/app/services/hybrid_retriever.py:77-80 | filtering commutes with picking the rows of one score |
| HybridRetriever.FilteredStable | backend/app/services/hybrid_retriever.py:70-80 | rows of equal score keep the RPC's order |
| HybridRetriever.SearchResultRows | backend/app/services/hybrid_retriever.py:62-88 | a successful search returns scored RPC rows, sorted, strong, at most `top_k` |
| HybridRetriever.SingleRankSurvives | backend/app/services/hybrid_retriever.py:24-25 | with exact arithmetic a single rank passes the 0.01 threshold exactly when it is at most 40 |
| HybridRetriever.SingleRankRow | backend/app/services/hybrid_retriever.py:77-80 | a row found by one search only is kept exactly when its rank is at most 40 |
| LegalElements.ElementSchemas | backend/app/agents/schemas/legal_elements.py:423-446 | the table has one entry per filed pair |
| LegalElements.GetAreasWithSchemas | backend/app/agents/schemas/legal_elements.py:464-466 | the keys "area/sub_category" in table order |
| LegalElements.PairsDistinct | backend/app/agents/schemas/legal_elements.py:423-446 | no area holds a '/', and no pair is filed twice |
| LegalElements.LookupSpec | backend/app/agents/schemas/legal_elements.py:460-461 | `dict.get` finds a key exactly when the table holds it, and then a schema filed under it |
| LegalElements.LookupDistinct | backend/app/agents/schemas/legal_elements.py:460-461 | in a table with distinct keys each key finds its own entry |
| LegalElements.KeysDistinct | backend/app/agents/schemas/legal_elements.py:423-446 | the 22 keys are distinct |
| LegalElements.FiledAt | backend/app/agents/schemas/legal_elements.py:449-461 | each filed pair finds the schema filed there |
| LegalElements.ListedKeysResolve | backend/app/agents/schemas/legal_elements.py:449-466 | the 22 listed keys are distinct and each resolves |
| LegalElements.SchemaRoundTrip | backend/app/agents/schemas/legal_elements.py:34-446 | each of the nine schemas is found under its own area and sub-category |
| LegalElements.TenancyAliases | backend/app/agents/schemas/legal_elements.py:424-429 | the tenancy aliases find their canonical schemas |
| LegalElements.EmploymentAliases | backend/app/agents/schemas/legal_elements.py:430-434 | the employment aliases find their canonical schemas |
| LegalElements.FamilyAliases | backend/app/agents/schemas/legal_elements.py:435-441 | the family aliases find their canonical schemas |
| LegalElements.ConsumerAliases | backend/app/agents/schemas/legal_elements.py:442-444 | the consumer aliases, and "contract/refund", find the consumer refund schema |
| LegalElements.UnfiledFindsNothing | backend/app/agents/schemas/legal_elements.py:459-461 | an unfiled pair finds nothing |
| LegalElements.UnknownKeys | backend/app/agents/schemas/legal_elements.py:459-461 | keys match exactly: "Tenancy" and an empty sub-category find nothing |
| DocumentParser.TextPages | backend/app/utils/document_parser.py:27-30 | the pages with text, in increasing order |
| DocumentParser.PdfPartsLabelled | backend/app/utils/document_parser.py:27-30 | each page with text is labelled with its number from 1; pages without text are skipped |
| DocumentParser.ParsePdfPages | backend/app/utils/document_parser.py:26-31 | the loop builds the labelled parts and joins them |
| DocumentParser.DocxKeepsText | backend/app/utils/document_parser.py:49-50 | a paragraph is kept, unstripped and as often as it occurs, exactly when it has a non-space character |
| DocumentParser.ParseDocument | backend/app/utils/document_parser.py:90-120 | the content type is "text" or "image" |
| DocumentParser.DispatchBySuffix | backend/app/utils/document_parser.py:102-120 | dispatch by the lower-cased suffix; "image" exactly for image suffixes; unknown suffixes are read as UTF-8 or refused |
| DocumentParser.MimeTable | backend/app/utils/document_parser.py:109-113 | png, gif, webp and jpg/jpeg get their MIME types |
| DocumentParser.ImageFormats | backend/app/utils/document_parser.py:80 | only PNG is saved as PNG; gif and webp are saved as JPEG under their own MIME types |
| Sorting.SortByCorrect | backend/app/services/hybrid_retriever.py:70-74 | the sort behind `sorted` and `sort` is ordered, a permutation, and stable |
| Slices.PyTail | backend/app/agents/stages/brief_flow.py:490 | `xs[-m:]` keeps the last m, or everything for m = 0 |
| Slices.Take | backend/app/agents/stages/brief_flow.py:383 | `xs[:n]` for n ≥ 0 is the prefix of length n, or all of xs when it is shorter |
| Slices.PyHead | backend/app/services/hybrid_retriever.py:88 | `xs[:n]` keeps the first n, or all but the last −n |

## Left out

- Prompt wording: a prompt is passed as the data it is built from, or as opaque segments. The language models, classifier, reranker, embedding service, database and RPC calls, the URL fetcher and the PDF, Word and image libraries are function inputs.
- LangGraph plumbing is left out: the checkpointer, streaming, run configuration and the message reducer's replacement of messages by id. A node's messages are appended.
- Python's `\b` and `\w` in the safety patterns are Unicode-aware; `Text.IsWordChar` is ASCII only, so a match next to a non-ASCII letter (the "avo" in "éavo") counts as a word boundary here where Python finds none.
- Case mapping is ASCII only: Python's Unicode `lower` and `upper` are not modelled beyond ASCII. (Whitespace follows Python's full `str.isspace` set.)
- RRF scores are exact reals, not floats.
- LookupLaw.Passages: the relevance score is not rounded to three places (`round(..., 3)` is left out).
- Ranks are natural numbers. A negative or non-integer rank from the RPC is not modelled.
- The `uuid4` session id is a parameter of the turn.
- A dictionary key holding `None` reads the same as an absent key, where the source would take the `None` (or crash on it, as with a `None` title under `.lower()`).
- The escalation node reads absent crisis resources as [].
- A classifier error is propagated out of the turn as `Err`. What LangGraph then does with the run is not modelled.
- Only `ValueError` from the fetcher is caught in `analyze_document`. Any other exception would leave the tool; that path is not modelled.
- LegalElements: a schema keeps its area, sub-category, claim type and element names. Descriptions, evidence lists, legislation and defences are left out; the lookups do not depend on them.
- DocumentParser: re-encoding of RGBA/palette images and the bytes of the base64 text are library output.
- The aliases `search_sync`, `vector_search_only` and `search_law` are left out: they are thin wrappers over the modelled functions.
- Graph.LastHumanContent: the latest-message property is stated separately in Graph.LastHumanIsLatest.
- Context.FirstCodeIn: first-ness is stated separately in Context.FirstCodeIsFirst.
- ActionTemplate.Score: its range and sign are stated in ActionTemplate.ScoreRange.
- ActionTemplate.Candidates: its membership is stated in ActionTemplate.CandidatesMembers.
- LegalElements.Lookup: its specification is stated in LegalElements.LookupSpec.
