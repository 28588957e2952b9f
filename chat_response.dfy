/**
 * The conversational reply stage (backend/app/agents/stages/chat_response.py):
 * the choice of system prompt, the conversation handed to the quick-reply
 * writer, and the shaping of the node's result with its fallbacks.
 *
 * The prompt texts themselves are opaque: a system prompt is the sequence of
 * segments it is assembled from, the formatted base template followed by
 * any playbook appended to it. The ReAct agent and the quick-reply writer
 * are function inputs; `None` stands for a call that raises.
 */
module ChatResponse {
  import opened Wrappers
  import opened Text
  import opened Messages
  import opened Slices

  // ---------------------------------------------------------------------
  // _create_chat_agent: the system prompt
  // ---------------------------------------------------------------------

  datatype PromptMode = ChatModePrompt | AnalysisModePrompt

  datatype Playbook = ParkingTicketPlaybook | InsuranceClaimPlaybook

  /** A piece of the system prompt: the formatted base template, or an appended playbook. */
  datatype Segment =
    | Base(mode: PromptMode, userState: string, hasDocument: string, documentUrl: string)
    | PlaybookText(playbook: Playbook)

  /** The `topic_playbooks` table. */
  function PlaybookFor(legalTopic: string): (p: Option<Playbook>)
    ensures p.Some? <==> legalTopic in {"parking_ticket", "insurance_claim"}
  {
    if legalTopic == "parking_ticket" then Some(ParkingTicketPlaybook)
    else if legalTopic == "insurance_claim" then Some(InsuranceClaimPlaybook)
    else None
  }

  /** The three placeholder values of the base template. */
  function BaseSegment(uiMode: string, userState: Option<string>, hasDocument: bool, documentUrl: Option<string>): Segment {
    Base(
      if uiMode == "analysis" then AnalysisModePrompt else ChatModePrompt,
      if userState.Some? && userState.value != "" then userState.value else "Not specified",
      if hasDocument then "Yes" else "No",
      if documentUrl.Some? && documentUrl.value != "" then documentUrl.value else "None")
  }

  function SystemPrompt(uiMode: string, legalTopic: string, userState: Option<string>,
                        hasDocument: bool, documentUrl: Option<string>): seq<Segment>
  {
    [BaseSegment(uiMode, userState, hasDocument, documentUrl)]
    + match PlaybookFor(legalTopic) case Some(p) => [PlaybookText(p)] case None => []
  }

  /** Formats the base template, then `system +=` the topic's playbook, if it has one. */
  method CreateSystemPrompt(uiMode: string, legalTopic: string, userState: Option<string>,
                            hasDocument: bool, documentUrl: Option<string>) returns (system: seq<Segment>)
    ensures system == SystemPrompt(uiMode, legalTopic, userState, hasDocument, documentUrl)
  {
    system := [BaseSegment(uiMode, userState, hasDocument, documentUrl)];
    var playbook := PlaybookFor(legalTopic);
    if playbook.Some? {
      system := system + [PlaybookText(playbook.value)];
    }
  }

  /** The number of playbook segments in a prompt. */
  function PlaybookCount(system: seq<Segment>): nat {
    if system == [] then 0 else PlaybookCount(system[..|system| - 1]) + (if system[|system| - 1].PlaybookText? then 1 else 0)
  }

  /**
   * The prompt opens with the base template, analysis-mode exactly when the
   * UI mode is "analysis"; a playbook follows it exactly once for the
   * parking-ticket and insurance-claim topics, and never otherwise.
   */
  lemma SystemPromptShape(uiMode: string, legalTopic: string, userState: Option<string>,
                          hasDocument: bool, documentUrl: Option<string>)
    ensures var system := SystemPrompt(uiMode, legalTopic, userState, hasDocument, documentUrl);
      && system[0].Base?
      && (system[0].mode == AnalysisModePrompt <==> uiMode == "analysis")
      && (PlaybookCount(system) == 1 <==> legalTopic in {"parking_ticket", "insurance_claim"})
      && (PlaybookCount(system) == 0 <==> legalTopic !in {"parking_ticket", "insurance_claim"})
      && (legalTopic == "parking_ticket" ==> system == [system[0], PlaybookText(ParkingTicketPlaybook)])
      && (legalTopic == "insurance_claim" ==> system == [system[0], PlaybookText(InsuranceClaimPlaybook)])
  {
    var system := SystemPrompt(uiMode, legalTopic, userState, hasDocument, documentUrl);
    var head := [system[0]];
    assert head[..0] == [];
    assert PlaybookCount(head) == 0;
    if |system| == 2 {
      assert system[..1] == head;
      assert PlaybookCount(system) == 1;
    } else {
      assert system == head;
    }
  }

  /**
   * A missing or empty state reads "Not specified"; "Yes" exactly when there
   * is a document; a missing or empty URL reads "None".
   */
  lemma BasePlaceholders(uiMode: string, userState: Option<string>, hasDocument: bool, documentUrl: Option<string>)
    ensures var b := BaseSegment(uiMode, userState, hasDocument, documentUrl);
      && (b.userState == "Not specified" <==> !(userState.Some? && userState.value != "") || userState == Some("Not specified"))
      && (b.hasDocument == "Yes" <==> hasDocument)
      && (userState.Some? && userState.value != "" ==> b.userState == userState.value)
      && (b.documentUrl == "None" <==> !(documentUrl.Some? && documentUrl.value != "") || documentUrl == Some("None"))
  {
  }

  // ---------------------------------------------------------------------
  // generate_quick_replies
  // ---------------------------------------------------------------------

  datatype QuickReplyAnalysis = QuickReplyAnalysis(quickReplies: seq<string>, suggestBrief: bool)

  const QuickReplyFallback: QuickReplyAnalysis := QuickReplyAnalysis(["Tell me more", "What are my options?"], false)

  /** Every message that is not the user's is labelled "Assistant". */
  function RoleLine(m: Message): string {
    (if m.Human? then "User" else "Assistant") + ": " + m.content + "\n"
  }

  function RoleLines(ms: seq<Message>): (lines: seq<string>)
    ensures |lines| == |ms|
    ensures forall k :: 0 <= k < |ms| ==> lines[k] == RoleLine(ms[k])
  {
    seq(|ms|, k requires 0 <= k < |ms| => RoleLine(ms[k]))
  }

  /** The conversation the quick-reply writer sees: one line per message among the last six. */
  function QuickReplyConversation(ms: seq<Message>): string {
    Concat(RoleLines(PyTail(ms, 6)))
  }

  /** The `conversation +=` loop of the source. */
  method BuildQuickReplyConversation(ms: seq<Message>) returns (conversation: string)
    ensures conversation == QuickReplyConversation(ms)
  {
    var recent := PyTail(ms, 6);
    conversation := "";
    var i := 0;
    while i < |recent|
      invariant 0 <= i <= |recent|
      invariant conversation == Concat(RoleLines(recent[..i]))
    {
      ghost var done := RoleLines(recent[..i]);
      assert RoleLines(recent[..i + 1]) == done + [RoleLine(recent[i])];
      assert (done + [RoleLine(recent[i])])[..|done|] == done;
      conversation := conversation + RoleLine(recent[i]);
      i := i + 1;
    }
    assert recent[..i] == recent;
  }

  /** Only the last six messages matter. */
  lemma QuickReplyConversationRecent(ms1: seq<Message>, ms2: seq<Message>)
    requires PyTail(ms1, 6) == PyTail(ms2, 6)
    ensures QuickReplyConversation(ms1) == QuickReplyConversation(ms2)
  {
  }

  /** Each of the last six messages has its labelled line; tool and system messages read as the assistant's. */
  lemma QuickReplyConversationLines(ms: seq<Message>, k: nat)
    requires |ms| - 6 <= k < |ms|
    ensures Contains(QuickReplyConversation(ms),
                     (if ms[k].Human? then "User: " else "Assistant: ") + ms[k].content + "\n")
  {
    var recent := PyTail(ms, 6);
    var j := k - (|ms| - |recent|);
    assert recent[j] == ms[k];
    ConcatContains(RoleLines(recent), j);
    assert RoleLines(recent)[j] == (if ms[k].Human? then "User: " else "Assistant: ") + ms[k].content + "\n";
  }

  /**
   * `write(conversation, response)` is the quick-reply writer; its failure
   * gives the fixed fallback.
   */
  function QuickReplies(ms: seq<Message>, response: string,
                        write: (string, string) -> Option<QuickReplyAnalysis>): QuickReplyAnalysis
  {
    write(QuickReplyConversation(ms), response).GetOr(QuickReplyFallback)
  }

  // ---------------------------------------------------------------------
  // chat_response_node
  // ---------------------------------------------------------------------

  const EmptyReplyMessage: string := "I'm sorry, I couldn't generate a response. Could you rephrase your question?"
  const ErrorMessage: string := "I encountered an issue processing your request. Could you try rephrasing your question?"
  const ErrorQuickReplies: seq<string> := ["What can you help with?", "Tell me about tenant rights"]

  datatype ChatUpdate = ChatUpdate(message: Message, quickReplies: seq<string>, suggestBrief: bool)

  /** The values the node reads from the state, with the defaults of its `state.get` calls. */
  datatype ChatInputs = ChatInputs(
    messages: seq<Message>,
    userState: Option<string>,
    uploadedDocumentUrl: Option<string>,
    uiMode: Option<string>,
    legalTopic: Option<string>)

  function AgentPrompt(inp: ChatInputs): seq<Segment> {
    var url := inp.uploadedDocumentUrl;
    SystemPrompt(inp.uiMode.GetOr("chat"), inp.legalTopic.GetOr("general"), inp.userState,
                 url.Some? && url.value != "", url)
  }

  /**
   * `agent(system, messages)` runs the ReAct agent and returns its message
   * list; `write` is the quick-reply writer.
   */
  function ChatResponseNode(inp: ChatInputs,
                            agent: (seq<Segment>, seq<Message>) -> Option<seq<Message>>,
                            write: (string, string) -> Option<QuickReplyAnalysis>): ChatUpdate
  {
    match agent(AgentPrompt(inp), inp.messages)
    case None => ChatUpdate(Ai(ErrorMessage), ErrorQuickReplies, false)
    case Some(out) =>
      var final := if out != [] then out[|out| - 1] else Ai(EmptyReplyMessage);
      var qr := QuickReplies(inp.messages, final.content, write);
      ChatUpdate(final, qr.quickReplies, qr.suggestBrief)
  }

  /**
   * The reply is the agent's last message, or the apology when it returned
   * none; the quick-reply writer's outcome never changes the reply, and its
   * failure gives the two fallback replies without suggesting a brief.
   */
  lemma ChatReply(inp: ChatInputs,
                  agent: (seq<Segment>, seq<Message>) -> Option<seq<Message>>,
                  write1: (string, string) -> Option<QuickReplyAnalysis>,
                  write2: (string, string) -> Option<QuickReplyAnalysis>)
    ensures ChatResponseNode(inp, agent, write1).message == ChatResponseNode(inp, agent, write2).message
    ensures var out := agent(AgentPrompt(inp), inp.messages);
      out.Some? ==> ChatResponseNode(inp, agent, write1).message
                    == (if out.value != [] then out.value[|out.value| - 1] else Ai(EmptyReplyMessage))
    ensures var u := ChatResponseNode(inp, agent, write1);
      agent(AgentPrompt(inp), inp.messages).Some? && write1(QuickReplyConversation(inp.messages), u.message.content).None?
      ==> u.quickReplies == ["Tell me more", "What are my options?"] && !u.suggestBrief
  {
  }

  /** An agent failure gives the fixed error reply, whatever the quick-reply writer would say. */
  lemma ChatAgentFailure(inp: ChatInputs,
                         agent: (seq<Segment>, seq<Message>) -> Option<seq<Message>>,
                         write: (string, string) -> Option<QuickReplyAnalysis>)
    requires agent(AgentPrompt(inp), inp.messages).None?
    ensures ChatResponseNode(inp, agent, write) == ChatUpdate(Ai(ErrorMessage), ErrorQuickReplies, false)
  {
  }

  /** The agent is told the document is there exactly when the state has a non-empty document URL. */
  lemma AgentSeesDocument(inp: ChatInputs)
    ensures AgentPrompt(inp)[0].hasDocument == "Yes"
            <==> inp.uploadedDocumentUrl.Some? && inp.uploadedDocumentUrl.value != ""
    ensures inp.uiMode.None? ==> AgentPrompt(inp)[0].mode == ChatModePrompt
    ensures inp.legalTopic.None? ==> |AgentPrompt(inp)| == 1
  {
  }
}
