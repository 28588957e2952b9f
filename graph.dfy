/**
 * One turn of the conversational graph (backend/app/agents/conversational_graph.py):
 * `initialize_node`, the routers, the edge table and the stage nodes wired
 * into a state machine. A node returns a patch: the keys it writes
 * overwrite the state, and its messages are appended to the history.
 *
 * `Turn` runs the graph the way the library does, node after node along the
 * edge table until the end; `TurnResult` is the same turn written out
 * path by path, and `TurnMatchesPaths` connects the two.
 */
module Graph {
  import opened Wrappers
  import opened Text
  import opened Messages
  import opened Context
  import opened Safety
  import opened BriefFlow
  import opened ChatResponse

  // ---------------------------------------------------------------------
  // State, patches and requests
  // ---------------------------------------------------------------------

  /**
   * The conversation state. An `Option` field is a key that may be absent
   * (or hold `None`); `ui_mode` and `legal_topic` are read but never written
   * by the graph.
   */
  datatype State = State(
    messages: seq<Message>,
    copilotkit: CopilotKit,
    uiMode: Option<string>,
    legalTopic: Option<string>,
    sessionId: Option<string>,
    currentQuery: Option<string>,
    userState: Option<string>,
    uploadedDocumentUrl: Option<string>,
    isFirstMessage: Option<bool>,
    mode: Option<string>,
    safetyResult: Option<string>,
    crisisResources: Option<seq<Resource>>,
    briefFacts: Option<Facts>,
    briefMissingInfo: seq<string>,
    briefInfoComplete: bool,
    briefQuestionsAsked: nat,
    quickReplies: seq<string>,
    suggestBrief: bool,
    suggestLawyer: bool)

  /** The dictionary a node returns: messages to append and keys to overwrite. */
  datatype Patch = Patch(
    newMessages: seq<Message>,
    sessionId: Write<string>,
    currentQuery: Write<string>,
    userState: Write<Option<string>>,
    uploadedDocumentUrl: Write<Option<string>>,
    isFirstMessage: Write<bool>,
    mode: Write<string>,
    safetyResult: Write<string>,
    crisisResources: Write<Option<seq<Resource>>>,
    briefFacts: Write<Facts>,
    briefMissingInfo: Write<seq<string>>,
    briefInfoComplete: Write<bool>,
    briefQuestionsAsked: Write<nat>,
    quickReplies: Write<seq<string>>,
    suggestBrief: Write<bool>,
    suggestLawyer: Write<bool>)

  const NoChange: Patch :=
    Patch([], Keep, Keep, Keep, Keep, Keep, Keep, Keep, Keep, Keep, Keep, Keep, Keep, Keep, Keep, Keep)

  /** Writing a key makes it present. */
  function Put<T>(w: Write<T>, previous: Option<T>): Option<T> {
    match w
    case Keep => previous
    case Set(v) => Some(v)
  }

  function Apply(s: State, p: Patch): (t: State)
    ensures t.messages == s.messages + p.newMessages
    ensures t.copilotkit == s.copilotkit && t.uiMode == s.uiMode && t.legalTopic == s.legalTopic
  {
    State(
      s.messages + p.newMessages,
      s.copilotkit,
      s.uiMode,
      s.legalTopic,
      Put(p.sessionId, s.sessionId),
      Put(p.currentQuery, s.currentQuery),
      p.userState.Apply(s.userState),
      p.uploadedDocumentUrl.Apply(s.uploadedDocumentUrl),
      Put(p.isFirstMessage, s.isFirstMessage),
      Put(p.mode, s.mode),
      Put(p.safetyResult, s.safetyResult),
      p.crisisResources.Apply(s.crisisResources),
      Put(p.briefFacts, s.briefFacts),
      p.briefMissingInfo.Apply(s.briefMissingInfo),
      p.briefInfoComplete.Apply(s.briefInfoComplete),
      p.briefQuestionsAsked.Apply(s.briefQuestionsAsked),
      p.quickReplies.Apply(s.quickReplies),
      p.suggestBrief.Apply(s.suggestBrief),
      p.suggestLawyer.Apply(s.suggestLawyer))
  }

  /** What the client sends for a turn: new messages, appended, and the current CopilotKit context. */
  datatype Request = Request(newMessages: seq<Message>, copilotkit: CopilotKit)

  function Receive(s: State, req: Request): State {
    s.(messages := s.messages + req.newMessages, copilotkit := req.copilotkit)
  }

  /**
   * Everything a turn consults outside the state: a fresh uuid and the
   * language-model, classifier and directory calls of the stages.
   */
  datatype Oracles = Oracles(
    freshSessionId: string,
    resourcesFor: (string, Option<string>) -> seq<Resource>,
    assess: (string, Option<string>) -> Result<Assessment, string>,
    agent: (seq<Segment>, seq<Message>) -> Option<seq<Message>>,
    quickReplies: (string, string) -> Option<QuickReplyAnalysis>,
    extract: (string, Option<string>) -> Option<Facts>,
    questions: (string, string) -> Option<Questions>,
    writeBrief: (Option<string>, string, string) -> Option<Brief>)

  // ---------------------------------------------------------------------
  // The context helpers as the graph file repeats them
  // ---------------------------------------------------------------------

  /** The first-match loop of the graph's `extract_context_item`; entries that raise are skipped. */
  method GraphExtractContextItem(copilotkit: CopilotKit, keyword: string) returns (r: Option<string>)
    ensures r == ExtractContextItem(copilotkit, keyword)
  {
    if copilotkit.None? {
      return None;
    }
    var items := copilotkit.value;
    var i := 0;
    while i < |items|
      invariant 0 <= i <= |items|
      invariant FirstMatching(items, keyword) == FirstMatching(items[i..], keyword)
    {
      assert items[i..][1..] == items[i + 1..];
      match items[i] {
        case Broken =>
        case Item(description, value) =>
          if Contains(Lower(description), Lower(keyword)) {
            return Some(value);
          }
      }
      i := i + 1;
    }
    return None;
  }

  /** The graph's `extract_user_state_from_context`. */
  method GraphExtractUserState(copilotkit: CopilotKit) returns (r: Option<string>)
    ensures r == ExtractUserState(copilotkit)
  {
    var raw := GraphExtractContextItem(copilotkit, "state/territory");
    var cleaned := CleanContextValue(raw);
    if !Truthy(cleaned) {
      return None;
    }
    var code := FirstCode(StateCodes, Upper(cleaned.value));
    if code.Some? {
      return code;
    }
    return cleaned;
  }

  /** Its loop over the state codes: the first that occurs in `upper`. */
  method FirstCode(codes: seq<string>, upper: string) returns (r: Option<string>)
    ensures r == FirstCodeIn(codes, upper)
  {
    var i := 0;
    while i < |codes|
      invariant 0 <= i <= |codes|
      invariant FirstCodeIn(codes, upper) == FirstCodeIn(codes[i..], upper)
    {
      assert codes[i..][1..] == codes[i + 1..];
      if Contains(upper, codes[i]) {
        return Some(codes[i]);
      }
      i := i + 1;
    }
    return None;
  }

  /** The graph's `extract_document_url_from_context`. */
  method GraphExtractDocumentUrl(copilotkit: CopilotKit) returns (r: Option<string>)
    ensures r == ExtractDocumentUrl(copilotkit)
  {
    var raw := GraphExtractContextItem(copilotkit, "document");
    var cleaned := CleanContextValue(raw);
    if !Truthy(cleaned) {
      return None;
    }
    return SearchUrl(cleaned.value);
  }

  // ---------------------------------------------------------------------
  // initialize_node
  // ---------------------------------------------------------------------

  const BriefTrigger: string := "[GENERATE_BRIEF]"

  /** The content of the latest user message, if there is one. */
  function LastHumanContent(ms: seq<Message>): (r: Option<string>)
    ensures r.None? <==> forall k :: 0 <= k < |ms| ==> !ms[k].Human?
  {
    if ms == [] then None
    else if ms[|ms| - 1].Human? then Some(ms[|ms| - 1].content)
    else
      var r := LastHumanContent(ms[..|ms| - 1]);
      assert forall k :: 0 <= k < |ms| - 1 ==> ms[..|ms| - 1][k] == ms[k];
      r
  }

  /** `ms[k]` is a user message saying `content`, and no user message follows it. */
  predicate LatestHumanAt(ms: seq<Message>, k: int, content: string) {
    0 <= k < |ms| && ms[k] == Human(content) && forall j :: k < j < |ms| ==> !ms[j].Human?
  }

  /** What is found is a user message with no user message after it. */
  lemma {:induction false} LastHumanIsLatest(ms: seq<Message>)
    ensures LastHumanContent(ms).Some? ==> exists k :: LatestHumanAt(ms, k, LastHumanContent(ms).value)
  {
    if ms != [] {
      var n := |ms| - 1;
      if ms[n].Human? {
        assert ms[n] == Human(ms[n].content);
        assert LatestHumanAt(ms, n, ms[n].content);
      } else {
        var front := ms[..n];
        LastHumanIsLatest(front);
        var r := LastHumanContent(front);
        if r.Some? {
          var k :| LatestHumanAt(front, k, r.value);
          assert forall j :: k < j < n ==> ms[j] == front[j];
          assert LatestHumanAt(ms, k, r.value);
        }
      }
    }
  }

  /** The query before the trigger is cleaned out of it. */
  function RawQuery(ms: seq<Message>): string {
    LastHumanContent(ms).GetOr("")
  }

  predicate IsBriefRequest(ms: seq<Message>) {
    Contains(RawQuery(ms), BriefTrigger)
  }

  /** With the trigger present, every occurrence is removed and the rest stripped. */
  function CurrentQuery(ms: seq<Message>): string {
    var q := RawQuery(ms);
    if Contains(q, BriefTrigger) then Strip(ReplaceAll(q, BriefTrigger, "")) else q
  }

  function InitPatch(s: State, freshSessionId: string): Patch {
    NoChange.(
      sessionId := Set(if Truthy(s.sessionId) then s.sessionId.value else freshSessionId),
      currentQuery := Set(CurrentQuery(s.messages)),
      userState := Set(ExtractUserState(s.copilotkit)),
      uploadedDocumentUrl := Set(ExtractDocumentUrl(s.copilotkit)),
      isFirstMessage := Set(|s.messages| <= 1),
      mode := Set(if IsBriefRequest(s.messages) then "brief" else "chat"))
  }

  /** The node: the reverse scan for the latest user message, then the context and trigger handling. */
  method InitializeNode(s: State, freshSessionId: string) returns (p: Patch)
    ensures p == InitPatch(s, freshSessionId)
  {
    var ms := s.messages;
    var currentQuery := "";
    var i := |ms|;
    assert ms[..i] == ms;
    while i > 0
      invariant 0 <= i <= |ms|
      invariant LastHumanContent(ms) == LastHumanContent(ms[..i])
      invariant currentQuery == ""
    {
      assert ms[..i][..i - 1] == ms[..i - 1];
      if ms[i - 1].Human? {
        currentQuery := ms[i - 1].content;
        break;
      }
      i := i - 1;
    }
    assert currentQuery == RawQuery(ms);
    var sessionId := if Truthy(s.sessionId) then s.sessionId.value else freshSessionId;
    var userState := GraphExtractUserState(s.copilotkit);
    var documentUrl := GraphExtractDocumentUrl(s.copilotkit);
    var isFirstMessage := |ms| <= 1;
    var isBriefMode := Contains(currentQuery, BriefTrigger);
    assert isBriefMode == IsBriefRequest(ms);
    if isBriefMode {
      currentQuery := Strip(ReplaceAll(currentQuery, BriefTrigger, ""));
    }
    assert currentQuery == CurrentQuery(ms);
    var mode := if isBriefMode then "brief" else "chat";
    p := NoChange.(
      sessionId := Set(sessionId),
      currentQuery := Set(currentQuery),
      userState := Set(userState),
      uploadedDocumentUrl := Set(documentUrl),
      isFirstMessage := Set(isFirstMessage),
      mode := Set(mode));
  }

  /**
   * Without the trigger the query is the latest user message exactly, not
   * stripped; with it the query is strictly shorter, the trigger removed.
   */
  lemma CurrentQueryShape(ms: seq<Message>)
    ensures !IsBriefRequest(ms) ==> CurrentQuery(ms) == RawQuery(ms)
    ensures IsBriefRequest(ms) ==> |CurrentQuery(ms)| < |RawQuery(ms)|
    ensures (forall k :: 0 <= k < |ms| ==> !ms[k].Human?) ==> CurrentQuery(ms) == ""
  {
    var q := RawQuery(ms);
    if Contains(q, BriefTrigger) {
      DeleteShortens(q, BriefTrigger);
      StripNotLonger(ReplaceAll(q, BriefTrigger, ""));
    }
    if forall k :: 0 <= k < |ms| ==> !ms[k].Human? {
      assert q == "";
    }
  }

  lemma StripNotLonger(s: string)
    ensures |Strip(s)| <= |s|
  {
  }

  // ---------------------------------------------------------------------
  // Routers
  // ---------------------------------------------------------------------

  const RiskWords: seq<string> := ["help", "emergency", "scared", "hurt", "kill", "die", "suicide"]

  /** Some risk word is a substring of the lower-cased query; "helpful" and "diet" count. */
  predicate HasRiskWord(query: string) {
    exists k :: 0 <= k < |RiskWords| && Contains(Lower(query), RiskWords[k])
  }

  /** `route_after_initialize`, on the three keys it reads (absent keys as `None`). */
  function RouteAfterInitialize(mode: Option<string>, isFirstMessage: Option<bool>, query: Option<string>): (r: string)
    ensures r in {"brief", "check", "skip"}
    ensures r == "brief" <==> mode == Some("brief")
    ensures mode != Some("brief") && isFirstMessage.GetOr(true) ==> r == "check"
    ensures r == "skip" <==> mode != Some("brief") && !isFirstMessage.GetOr(true)
                             && |query.GetOr("")| < 30 && !HasRiskWord(query.GetOr(""))
  {
    if mode == Some("brief") then "brief"
    else if isFirstMessage.GetOr(true) then "check"
    else
      var q := query.GetOr("");
      if |q| < 30 && !HasRiskWord(q) then "skip" else "check"
  }

  /** `route_brief_info`: generate once the facts are complete or three rounds were asked. */
  function RouteBriefInfo(infoComplete: bool, questionsAsked: nat): (r: string)
    ensures r == "generate" <==> infoComplete || questionsAsked >= 3
    ensures r == "ask" <==> !infoComplete && questionsAsked < 3
  {
    if infoComplete then "generate"
    else if questionsAsked >= 3 then "generate"
    else "ask"
  }

  /** "Tell me more" on a later turn goes straight to the chat. */
  lemma TellMeMoreSkips(q: string)
    requires q == "Tell me more"
    ensures RouteAfterInitialize(Some("chat"), Some(false), Some(q)) == "skip"
  {
    var lowered := Lower(q);
    assert lowered == "tell me more";
    forall k | 0 <= k < |RiskWords| ensures !Contains(lowered, RiskWords[k]) {
      ContainsChars(lowered, RiskWords[k]);
      var c := if k == 0 || k == 3 then 'h' else if k == 1 then 'g' else if k == 2 || k == 6 then 's'
               else if k == 4 then 'k' else 'd';
      assert c in RiskWords[k];
      assert c !in lowered;
    }
  }

  /** A short follow-up is checked when a risk word hides inside another word. */
  lemma SubstringRiskWordsCheck(q: string)
    requires q == "helpful" || q == "diet"
    ensures RouteAfterInitialize(Some("chat"), Some(false), Some(q)) == "check"
  {
    assert Lower(q) == q;
    if q == "helpful" {
      assert Lower(q)[0..4] == RiskWords[0];
      ContainsAt(Lower(q), RiskWords[0], 0);
    } else {
      assert Lower(q)[0..3] == RiskWords[5];
      ContainsAt(Lower(q), RiskWords[5], 0);
    }
  }

  // ---------------------------------------------------------------------
  // The stage nodes as patches
  // ---------------------------------------------------------------------

  function SafetyNodePatch(s: State, o: Oracles): Result<Patch, string> {
    match SafetyCheck(s.currentQuery.GetOr(""), s.userState, o.resourcesFor, o.assess)
    case Err(e) => Err(e)
    case Ok(sp) => Ok(NoChange.(safetyResult := Set(sp.safetyResult), crisisResources := Set(sp.crisisResources)))
  }

  function EscalationPatch(s: State): Patch {
    NoChange.(newMessages := [Ai(EscalationMessage(s.crisisResources.GetOr([])))])
  }

  function ChatInputsOf(s: State): ChatInputs {
    ChatInputs(s.messages, s.userState, s.uploadedDocumentUrl, s.uiMode, s.legalTopic)
  }

  function ChatPatch(s: State, o: Oracles): Patch {
    var u := ChatResponseNode(ChatInputsOf(s), o.agent, o.quickReplies);
    NoChange.(newMessages := [u.message], quickReplies := Set(u.quickReplies), suggestBrief := Set(u.suggestBrief))
  }

  function CheckInfoPatch(s: State, o: Oracles): Patch {
    var u := CheckInfo(s.messages, s.userState, o.extract);
    NoChange.(
      briefFacts := Set(u.factsCollected),
      briefMissingInfo := Set(u.missingInfo),
      briefInfoComplete := Set(u.infoComplete))
  }

  function AskPatch(s: State, o: Oracles): Patch {
    var u := Ask(s.briefFacts, s.briefMissingInfo, s.briefQuestionsAsked, o.questions);
    NoChange.(
      newMessages := [Ai(u.message)],
      briefQuestionsAsked := Set(u.questionsAsked),
      quickReplies := match u.quickReplies case Some(q) => Set(q) case None => Keep,
      briefInfoComplete := match u.infoComplete case Some(b) => Set(b) case None => Keep)
  }

  function GeneratePatch(s: State, o: Oracles): Patch {
    var u := Generate(s.messages, s.userState, s.briefFacts, o.writeBrief);
    NoChange.(
      newMessages := [Ai(u.message)],
      mode := Set(u.mode),
      quickReplies := Set(u.quickReplies),
      suggestLawyer := match u.suggestLawyer case Some(b) => Set(b) case None => Keep)
  }

  /** What each node writes, as far as the turn properties need it. */
  lemma SafetyNodePatchShape(s: State, o: Oracles)
    ensures var r := SafetyNodePatch(s, o);
      r.Ok? ==> r.value.newMessages == [] && r.value.mode.Keep? && r.value.briefQuestionsAsked.Keep?
  {
  }

  lemma EscalationPatchShape(s: State)
    ensures var p := EscalationPatch(s);
      |p.newMessages| == 1 && p.mode.Keep? && p.briefQuestionsAsked.Keep?
  {
  }

  lemma ChatPatchShape(s: State, o: Oracles)
    ensures var p := ChatPatch(s, o);
      |p.newMessages| == 1 && p.mode.Keep? && p.briefQuestionsAsked.Keep?
  {
  }

  lemma CheckInfoPatchShape(s: State, o: Oracles)
    ensures var p := CheckInfoPatch(s, o);
      && p.newMessages == [] && p.mode.Keep? && p.briefQuestionsAsked.Keep?
      && p.safetyResult.Keep? && p.crisisResources.Keep?
  {
  }

  lemma AskPatchShape(s: State, o: Oracles)
    ensures var p := AskPatch(s, o);
      && |p.newMessages| == 1 && p.mode.Keep? && p.briefQuestionsAsked == Set(s.briefQuestionsAsked + 1)
      && p.safetyResult.Keep? && p.crisisResources.Keep?
  {
    AskCountsEveryRound(s.briefFacts, s.briefMissingInfo, s.briefQuestionsAsked, o.questions);
  }

  lemma GeneratePatchShape(s: State, o: Oracles)
    ensures var p := GeneratePatch(s, o);
      && |p.newMessages| == 1 && p.mode == Set("chat") && p.briefQuestionsAsked.Keep?
      && p.safetyResult.Keep? && p.crisisResources.Keep?
  {
    GenerateOutcome(s.messages, s.userState, s.briefFacts, o.writeBrief);
  }

  // ---------------------------------------------------------------------
  // The graph: nodes, edge table and the run of a turn
  // ---------------------------------------------------------------------

  datatype Stage =
    | Initialize | SafetyCheckStage | EscalationResponse | ChatResponseStage
    | BriefCheckInfo | BriefAskQuestions | BriefGenerate | End

  /** The distance to the end, which every edge decreases. */
  function Rank(stage: Stage): nat {
    match stage
    case Initialize => 3
    case SafetyCheckStage => 2
    case BriefCheckInfo => 2
    case End => 0
    case _ => 1
  }

  /** The node table: what each stage writes. */
  function RunNode(stage: Stage, s: State, o: Oracles): Result<Patch, string> {
    match stage
    case Initialize => Ok(InitPatch(s, o.freshSessionId))
    case SafetyCheckStage => SafetyNodePatch(s, o)
    case EscalationResponse => Ok(EscalationPatch(s))
    case ChatResponseStage => Ok(ChatPatch(s, o))
    case BriefCheckInfo => Ok(CheckInfoPatch(s, o))
    case BriefAskQuestions => Ok(AskPatch(s, o))
    case BriefGenerate => Ok(GeneratePatch(s, o))
    case End => Ok(NoChange)
  }

  /** The edge table, with the routers on the conditional edges. */
  function Next(stage: Stage, s: State): (n: Stage)
    requires stage != End
    ensures Rank(n) < Rank(stage)
  {
    match stage
    case Initialize =>
      var route := RouteAfterInitialize(s.mode, s.isFirstMessage, s.currentQuery);
      if route == "brief" then BriefCheckInfo
      else if route == "check" then SafetyCheckStage
      else ChatResponseStage
    case SafetyCheckStage =>
      if RouteAfterSafety(s.safetyResult) == "escalate" then EscalationResponse else ChatResponseStage
    case BriefCheckInfo =>
      if RouteBriefInfo(s.briefInfoComplete, s.briefQuestionsAsked) == "generate" then BriefGenerate else BriefAskQuestions
    case _ => End
  }

  /** Running the graph from a stage; an error raised by a node ends the turn. */
  function Drive(stage: Stage, s: State, o: Oracles): Result<State, string>
    decreases Rank(stage)
  {
    if stage == End then Ok(s)
    else match RunNode(stage, s, o)
      case Err(e) => Err(e)
      case Ok(p) =>
        var t := Apply(s, p);
        Drive(Next(stage, t), t, o)
  }

  /** A turn: receive the request, then run the graph from its entry point. */
  method Turn(s0: State, req: Request, o: Oracles) returns (r: Result<State, string>)
    ensures r == Drive(Initialize, Receive(s0, req), o)
  {
    var s := Receive(s0, req);
    var stage := Initialize;
    while stage != End
      invariant Drive(stage, s, o) == Drive(Initialize, Receive(s0, req), o)
      decreases Rank(stage)
    {
      var p := RunNode(stage, s, o);
      if p.Err? {
        return Err(p.error);
      }
      s := Apply(s, p.value);
      stage := Next(stage, s);
    }
    return Ok(s);
  }

  // ---------------------------------------------------------------------
  // The five paths of a turn
  // ---------------------------------------------------------------------

  /** The state after `initialize`. */
  function Initialized(s0: State, req: Request, o: Oracles): State {
    var s1 := Receive(s0, req);
    Apply(s1, InitPatch(s1, o.freshSessionId))
  }

  /** The brief path after `initialize`: check the facts, then generate or ask. */
  function BriefPath(s: State, o: Oracles): State {
    var c := Apply(s, CheckInfoPatch(s, o));
    if RouteBriefInfo(c.briefInfoComplete, c.briefQuestionsAsked) == "generate"
    then Apply(c, GeneratePatch(c, o))
    else Apply(c, AskPatch(c, o))
  }

  /** The checked path after `initialize`: the safety gate, then escalation or chat. */
  function CheckedPath(s: State, o: Oracles): Result<State, string> {
    match SafetyNodePatch(s, o)
    case Err(e) => Err(e)
    case Ok(p) =>
      var c := Apply(s, p);
      if RouteAfterSafety(c.safetyResult) == "escalate"
      then Ok(Apply(c, EscalationPatch(c)))
      else Ok(Apply(c, ChatPatch(c, o)))
  }

  /** The turn written out path by path. */
  function TurnResult(s0: State, req: Request, o: Oracles): Result<State, string> {
    var s := Initialized(s0, req, o);
    var route := RouteAfterInitialize(s.mode, s.isFirstMessage, s.currentQuery);
    if route == "brief" then Ok(BriefPath(s, o))
    else if route == "skip" then Ok(Apply(s, ChatPatch(s, o)))
    else CheckedPath(s, o)
  }

  /** The brief branch of the edge table is the brief path. */
  lemma DriveBrief(s: State, o: Oracles)
    ensures Drive(BriefCheckInfo, s, o) == Ok(BriefPath(s, o))
  {
    var c := Apply(s, CheckInfoPatch(s, o));
    assert RunNode(BriefCheckInfo, s, o) == Ok(CheckInfoPatch(s, o));
    assert Drive(BriefCheckInfo, s, o) == Drive(Next(BriefCheckInfo, c), c, o);
    if RouteBriefInfo(c.briefInfoComplete, c.briefQuestionsAsked) == "generate" {
      assert Next(BriefCheckInfo, c) == BriefGenerate;
      DriveLast(BriefGenerate, c, o);
    } else {
      assert Next(BriefCheckInfo, c) == BriefAskQuestions;
      DriveLast(BriefAskQuestions, c, o);
    }
  }

  /** The safety branch of the edge table is the checked path. */
  lemma DriveChecked(s: State, o: Oracles)
    ensures Drive(SafetyCheckStage, s, o) == CheckedPath(s, o)
  {
    var r := SafetyNodePatch(s, o);
    assert RunNode(SafetyCheckStage, s, o) == r;
    if r.Ok? {
      var c := Apply(s, r.value);
      assert Drive(SafetyCheckStage, s, o) == Drive(Next(SafetyCheckStage, c), c, o);
      if RouteAfterSafety(c.safetyResult) == "escalate" {
        assert Next(SafetyCheckStage, c) == EscalationResponse;
        DriveLast(EscalationResponse, c, o);
      } else {
        assert Next(SafetyCheckStage, c) == ChatResponseStage;
        DriveLast(ChatResponseStage, c, o);
      }
    }
  }

  /** A node whose only edge goes to the end finishes the turn with its patch. */
  lemma DriveLast(stage: Stage, s: State, o: Oracles)
    requires stage in {EscalationResponse, ChatResponseStage, BriefGenerate, BriefAskQuestions}
    ensures stage == EscalationResponse ==> Drive(stage, s, o) == Ok(Apply(s, EscalationPatch(s)))
    ensures stage == ChatResponseStage ==> Drive(stage, s, o) == Ok(Apply(s, ChatPatch(s, o)))
    ensures stage == BriefGenerate ==> Drive(stage, s, o) == Ok(Apply(s, GeneratePatch(s, o)))
    ensures stage == BriefAskQuestions ==> Drive(stage, s, o) == Ok(Apply(s, AskPatch(s, o)))
  {
    var p := RunNode(stage, s, o).value;
    assert RunNode(stage, s, o) == Ok(p);
    assert Next(stage, Apply(s, p)) == End;
    assert Drive(stage, s, o) == Ok(Apply(s, p));
  }

  /** Running the edge table gives exactly the five paths. */
  lemma TurnMatchesPaths(s0: State, req: Request, o: Oracles)
    ensures Drive(Initialize, Receive(s0, req), o) == TurnResult(s0, req, o)
  {
    var s := Initialized(s0, req, o);
    var route := RouteAfterInitialize(s.mode, s.isFirstMessage, s.currentQuery);
    assert Drive(Initialize, Receive(s0, req), o) == Drive(Next(Initialize, s), s, o);
    TurnRoutes(s0, req, o);
    if route == "brief" {
      DriveBrief(s, o);
    } else if route == "skip" {
      DriveLast(ChatResponseStage, s, o);
    } else {
      DriveChecked(s, o);
    }
  }

  // ---------------------------------------------------------------------
  // Properties of a turn
  // ---------------------------------------------------------------------

  /** The route chosen after `initialize` decides the path. */
  lemma TurnRoutes(s0: State, req: Request, o: Oracles)
    ensures var s := Initialized(s0, req, o);
      var route := RouteAfterInitialize(s.mode, s.isFirstMessage, s.currentQuery);
      && (route == "brief" ==> TurnResult(s0, req, o) == Ok(BriefPath(s, o)))
      && (route == "skip" ==> TurnResult(s0, req, o) == Ok(Apply(s, ChatPatch(s, o))))
      && (route == "check" ==> TurnResult(s0, req, o) == CheckedPath(s, o))
  {
  }

  /**
   * The brief path appends one message and leaves the safety keys alone; it
   * asks only below three rounds, counting the round, and otherwise
   * generates, which returns to chat mode without touching the counter.
   */
  lemma BriefPathEffects(s: State, o: Oracles)
    ensures var t := BriefPath(s, o);
      && t.messages == s.messages + [t.messages[|s.messages|]]
      && t.safetyResult == s.safetyResult && t.crisisResources == s.crisisResources
      && (t.briefQuestionsAsked == s.briefQuestionsAsked + 1 || t.briefQuestionsAsked == s.briefQuestionsAsked)
    ensures var c := Apply(s, CheckInfoPatch(s, o));
      var t := BriefPath(s, o);
      (RouteBriefInfo(c.briefInfoComplete, c.briefQuestionsAsked) == "ask"
       ==> t.briefQuestionsAsked == s.briefQuestionsAsked + 1 && s.briefQuestionsAsked < 3 && t.mode == s.mode)
    ensures var c := Apply(s, CheckInfoPatch(s, o));
      var t := BriefPath(s, o);
      (RouteBriefInfo(c.briefInfoComplete, c.briefQuestionsAsked) == "generate"
       ==> t.briefQuestionsAsked == s.briefQuestionsAsked && t.mode == Some("chat"))
  {
    var c := Apply(s, CheckInfoPatch(s, o));
    CheckInfoPatchShape(s, o);
    assert c.messages == s.messages && c.mode == s.mode && c.briefQuestionsAsked == s.briefQuestionsAsked;
    assert c.safetyResult == s.safetyResult && c.crisisResources == s.crisisResources;
    if RouteBriefInfo(c.briefInfoComplete, c.briefQuestionsAsked) == "generate" {
      GenerateStepEffects(c, o);
    } else {
      AskStepEffects(c, o);
    }
  }

  lemma GenerateStepEffects(c: State, o: Oracles)
    ensures var t := Apply(c, GeneratePatch(c, o));
      && t.messages == c.messages + [t.messages[|c.messages|]]
      && t.safetyResult == c.safetyResult && t.crisisResources == c.crisisResources
      && t.briefQuestionsAsked == c.briefQuestionsAsked && t.mode == Some("chat")
  {
    var p := GeneratePatch(c, o);
    GeneratePatchShape(c, o);
    var t := Apply(c, p);
    assert t.messages == c.messages + p.newMessages;
  }

  lemma AskStepEffects(c: State, o: Oracles)
    ensures var t := Apply(c, AskPatch(c, o));
      && t.messages == c.messages + [t.messages[|c.messages|]]
      && t.safetyResult == c.safetyResult && t.crisisResources == c.crisisResources
      && t.briefQuestionsAsked == c.briefQuestionsAsked + 1 && t.mode == c.mode
  {
    var p := AskPatch(c, o);
    AskPatchShape(c, o);
    var t := Apply(c, p);
    assert t.messages == c.messages + p.newMessages;
  }

  /** The checked path appends one message and touches neither the mode nor the question counter. */
  lemma CheckedPathEffects(s: State, o: Oracles)
    ensures var r := CheckedPath(s, o);
      r.Ok? ==> && r.value.messages == s.messages + [r.value.messages[|s.messages|]]
                && r.value.mode == s.mode
                && r.value.briefQuestionsAsked == s.briefQuestionsAsked
  {
    SafetyNodePatchShape(s, o);
    if SafetyNodePatch(s, o).Ok? {
      var c := Apply(s, SafetyNodePatch(s, o).value);
      EscalationPatchShape(c);
      ChatPatchShape(c, o);
    }
  }

  /** So does the path straight to the chat. */
  lemma SkipPathEffects(s: State, o: Oracles)
    ensures var t := Apply(s, ChatPatch(s, o));
      && t.messages == s.messages + [t.messages[|s.messages|]]
      && t.mode == s.mode
      && t.briefQuestionsAsked == s.briefQuestionsAsked
  {
    ChatPatchShape(s, o);
  }

  /**
   * After `initialize` the mode is "brief" exactly when the latest user
   * message carries the trigger, whatever the mode was before; the session
   * id is kept when present and non-empty, and the first-message flag counts
   * messages of every kind.
   */
  lemma InitializeRewritesMode(s0: State, req: Request, o: Oracles)
    ensures var s := Initialized(s0, req, o);
      var ms := s0.messages + req.newMessages;
      && (s.mode == Some("brief") <==> IsBriefRequest(ms))
      && (s.mode == Some("chat") <==> !IsBriefRequest(ms))
      && s.messages == ms
      && s.currentQuery == Some(CurrentQuery(ms))
      && (s.isFirstMessage == Some(true) <==> |ms| <= 1)
      && (Truthy(s0.sessionId) ==> s.sessionId == s0.sessionId)
      && (!Truthy(s0.sessionId) ==> s.sessionId == Some(o.freshSessionId))
  {
  }

  /** Every successful turn appends exactly one message and keeps the history before it. */
  lemma TurnAppendsOneMessage(s0: State, req: Request, o: Oracles)
    ensures var r := TurnResult(s0, req, o);
      var ms := s0.messages + req.newMessages;
      r.Ok? ==> |r.value.messages| == |ms| + 1 && r.value.messages[..|ms|] == ms
  {
    var s := Initialized(s0, req, o);
    TurnRoutes(s0, req, o);
    BriefPathEffects(s, o);
    CheckedPathEffects(s, o);
    SkipPathEffects(s, o);
  }

  /**
   * Brief mode lasts only while the trigger is sent: a turn without it ends
   * in chat mode, and a turn with it never runs the safety check.
   */
  lemma BriefModeNeedsTrigger(s0: State, req: Request, o: Oracles)
    ensures var r := TurnResult(s0, req, o);
      !IsBriefRequest(s0.messages + req.newMessages) && r.Ok? ==> r.value.mode == Some("chat")
    ensures var r := TurnResult(s0, req, o);
      IsBriefRequest(s0.messages + req.newMessages) ==>
        r.Ok? && r.value.safetyResult == s0.safetyResult && r.value.crisisResources == s0.crisisResources
  {
    var s := Initialized(s0, req, o);
    InitializeRewritesMode(s0, req, o);
    TurnRoutes(s0, req, o);
    BriefPathEffects(s, o);
    CheckedPathEffects(s, o);
    SkipPathEffects(s, o);
  }

  /** On the checked path a crisis match escalates with the directory's resources. */
  lemma CheckedPathCrisis(s: State, o: Oracles)
    requires s.currentQuery.Some? && CrisisCategory(s.currentQuery.value).Some?
    ensures var resources := o.resourcesFor(CategoryName(CrisisCategory(s.currentQuery.value).value), s.userState);
      var r := CheckedPath(s, o);
      && r.Ok?
      && r.value.safetyResult == Some("escalate")
      && r.value.crisisResources == Some(resources)
      && r.value.messages == s.messages + [Ai(EscalationMessage(resources))]
  {
    var q := s.currentQuery.value;
    var resources := o.resourcesFor(CategoryName(CrisisCategory(q).value), s.userState);
    CrisisEscalatesWithoutClassifier(q, s.userState, o.resourcesFor, o.assess, o.assess);
    var p := NoChange.(safetyResult := Set("escalate"), crisisResources := Set(Some(resources)));
    assert SafetyCheck(q, s.userState, o.resourcesFor, o.assess) == Ok(SafetyPatch("escalate", Some(resources)));
    assert SafetyNodePatch(s, o) == Ok(p);
    var c := Apply(s, p);
    assert c.safetyResult == Some("escalate") && c.crisisResources == Some(resources) && c.messages == s.messages;
    var e := EscalationPatch(c);
    assert e.newMessages == [Ai(EscalationMessage(resources))];
    assert CheckedPath(s, o) == Ok(Apply(c, e));
  }

  /**
   * A first message without the trigger always goes through the safety
   * check: a tier-one crisis match ends the turn with the escalation message
   * built from the directory's resources.
   */
  lemma FirstMessageCrisisEscalates(s0: State, req: Request, o: Oracles)
    requires |s0.messages + req.newMessages| <= 1
    requires !IsBriefRequest(s0.messages + req.newMessages)
    requires CrisisCategory(CurrentQuery(s0.messages + req.newMessages)).Some?
    ensures var q := CurrentQuery(s0.messages + req.newMessages);
      var s := Initialized(s0, req, o);
      var resources := o.resourcesFor(CategoryName(CrisisCategory(q).value), s.userState);
      var r := TurnResult(s0, req, o);
      && r.Ok?
      && r.value.safetyResult == Some("escalate")
      && r.value.crisisResources == Some(resources)
      && r.value.messages == s0.messages + req.newMessages + [Ai(EscalationMessage(resources))]
  {
    var s := Initialized(s0, req, o);
    InitializeRewritesMode(s0, req, o);
    TurnRoutes(s0, req, o);
    assert RouteAfterInitialize(s.mode, s.isFirstMessage, s.currentQuery) == "check";
    CheckedPathCrisis(s, o);
  }

  /** A turn asks follow-up questions when it takes the brief path and the router says "ask". */
  predicate AsksQuestions(s0: State, req: Request, o: Oracles) {
    var s := Initialized(s0, req, o);
    var c := Apply(s, CheckInfoPatch(s, o));
    s.mode == Some("brief") && RouteBriefInfo(c.briefInfoComplete, c.briefQuestionsAsked) == "ask"
  }

  /**
   * The question counter moves only on a turn that asks, by one, and only
   * from below three.
   */
  lemma QuestionCounter(s0: State, req: Request, o: Oracles)
    ensures var r := TurnResult(s0, req, o);
      r.Ok? ==> r.value.briefQuestionsAsked == s0.briefQuestionsAsked + (if AsksQuestions(s0, req, o) then 1 else 0)
    ensures AsksQuestions(s0, req, o) ==> s0.briefQuestionsAsked < 3
  {
    var s := Initialized(s0, req, o);
    TurnRoutes(s0, req, o);
    BriefPathEffects(s, o);
    CheckedPathEffects(s, o);
    SkipPathEffects(s, o);
  }

  // ---------------------------------------------------------------------
  // A session: turns one after the other on the checkpointed state
  // ---------------------------------------------------------------------

  function RunSession(s: State, turns: seq<(Request, Oracles)>): Result<State, string>
    decreases |turns|
  {
    if |turns| == 0 then Ok(s)
    else
      var r := TurnResult(s, turns[0].0, turns[0].1);
      if r.Err? then r else RunSession(r.value, turns[1..])
  }

  /** The number of turns of the session that ask follow-up questions. */
  function AskTurns(s: State, turns: seq<(Request, Oracles)>): nat
    decreases |turns|
  {
    if |turns| == 0 then 0
    else
      var r := TurnResult(s, turns[0].0, turns[0].1);
      if r.Err? then 0
      else (if AsksQuestions(s, turns[0].0, turns[0].1) then 1 else 0) + AskTurns(r.value, turns[1..])
  }

  /**
   * The counter is never reset, so a whole session asks at most three rounds
   * of questions, counting those of earlier turns.
   */
  lemma {:induction false} SessionAsksAtMostThree(s: State, turns: seq<(Request, Oracles)>)
    requires s.briefQuestionsAsked <= 3
    requires RunSession(s, turns).Ok?
    decreases |turns|
    ensures RunSession(s, turns).value.briefQuestionsAsked == s.briefQuestionsAsked + AskTurns(s, turns)
    ensures AskTurns(s, turns) <= 3 - s.briefQuestionsAsked
  {
    if turns != [] {
      var t := TurnResult(s, turns[0].0, turns[0].1).value;
      QuestionCounter(s, turns[0].0, turns[0].1);
      SessionAsksAtMostThree(t, turns[1..]);
    }
  }
}
