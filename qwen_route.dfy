/** The chat route `POST /api/qwen`: it builds the message list for the
    language-model API (system prompt, mapped history, user message), checks
    the shape of the API's answer and maps the outcome to its own JSON reply.
    The call to the API is a given outcome. */
module QwenRoute {
  import opened Wrappers
  import Chat

  datatype Role = SystemRole | UserRole | AssistantRole

  /** One element of the `messages` list sent to the API. */
  datatype PromptMessage = PromptMessage(role: Role, content: string)

  /** An element of `conversationHistory` as the route reads it: its `role`
      property (absent when the object has none) and its `content`. */
  datatype HistoryItem = HistoryItem(role: Option<string>, content: string)

  /** The request body; `conversationHistory` may be missing. */
  datatype QwenRequest = QwenRequest(userMessage: string, conversationHistory: Option<seq<HistoryItem>>)

  /** The first choice's `message` of the API's completion. */
  datatype ChoiceMessage = ChoiceMessage(content: string)
  datatype Choice = Choice(message: Option<ChoiceMessage>)

  /** The API's JSON answer as far as the route reads it. */
  datatype Completion = Completion(choices: Option<seq<Choice>>)

  /** What the call to the API produced: it threw, or a response with its
      `ok` flag and its body (none when the body is not JSON). */
  datatype Upstream = UpstreamFailed | UpstreamReply(ok: bool, body: Option<Completion>)

  /** The route's JSON reply with its HTTP status. */
  datatype RouteResponse = RouteResponse(status: nat, success: bool, message: string)

  /** The fixed system prompt. */
  const SystemPrompt: string :=
    "# 心理健康 AI 助手核心 Prompt\n" +
    "\n" +
    "## 身份设定\n" +
    "\n" +
    "你是\"心灵守护者\"，一个专业、温暖的心理健康陪伴 AI。你不是医生，但你有很强的共情能力和心理学常识。\n" +
    "\n" +
    "## 对话原则\n" +
    "\n" +
    "1. **倾听优先**：先理解用户的情绪，再提供回应\n" +
    "2. **非评判态度**：接纳所有情绪表达，不做对错判断\n" +
    "3. **适度引导**：通过开放性问题帮助用户自我探索\n" +
    "4. **边界意识**：遇到严重心理危机时，温和建议专业帮助\n" +
    "\n" +
    "## 回复结构\n" +
    "\n" +
    "每次回复都要包含：\n" +
    "\n" +
    "1. 情绪确认：\"听起来你感到...\"\n" +
    "2. 共情回应：\"这种感受很能理解...\"\n" +
    "3. 探索引导：\"你觉得是什么让你有这样的感受？\"\n" +
    "4. 支持陪伴：\"我会陪伴你一起面对\"\n" +
    "\n" +
    "## 特殊情况处理\n" +
    "\n" +
    "- 自伤/自杀倾向：温和但坚定地建议寻求专业帮助\n" +
    "- 严重心理症状：不诊断，建议咨询专业医生\n" +
    "- 超出能力范围：诚实说明自己的局限性\n" +
    "\n" +
    "## 语言风格\n" +
    "\n" +
    "- 温暖而真诚\n" +
    "- 避免说教式语言\n" +
    "- 适当使用\"😊\"等温暖表情\n" +
    "- 回复控制在 80-120 字"

  /** The fixed apology returned on any failure. */
  const Apology: string := "抱歉，我现在无法提供帮助。请稍后再试，或者寻求专业心理咨询师的帮助。😊"

  /** The history the route uses: a missing list counts as empty. */
  function History(request: QwenRequest): (h: seq<HistoryItem>)
    ensures request.conversationHistory.None? ==> h == []
    ensures request.conversationHistory.Some? ==> h == request.conversationHistory.value
  {
    request.conversationHistory.GetOr([])
  }

  /** `msg.role === 'user' ? 'user' : 'assistant'`. */
  function MappedRole(item: HistoryItem): (role: Role)
    ensures role == UserRole <==> item.role == Some("user")
    ensures role != SystemRole
  {
    if item.role == Some("user") then UserRole else AssistantRole
  }

  /** The `messages` list sent to the API: the system prompt, then every
      history item in order with its content and mapped role, then the user's
      message. */
  function BuildMessages(request: QwenRequest): (messages: seq<PromptMessage>)
    ensures |messages| == |History(request)| + 2
    ensures messages[0] == PromptMessage(SystemRole, SystemPrompt)
    ensures messages[|messages| - 1] == PromptMessage(UserRole, request.userMessage)
    ensures forall k :: 0 <= k < |History(request)| ==>
      && messages[k + 1].content == History(request)[k].content
      && (messages[k + 1].role == UserRole <==> History(request)[k].role == Some("user"))
      && messages[k + 1].role != SystemRole
  {
    var history := History(request);
    [PromptMessage(SystemRole, SystemPrompt)]
    + seq(|history|, k requires 0 <= k < |history| => PromptMessage(MappedRole(history[k]), history[k].content))
    + [PromptMessage(UserRole, request.userMessage)]
  }

  /** A chat turn as the hook serialises it: an object with `id`, `content`,
      `sender` and `timestamp`, and no `role`. */
  function WireItem(m: Chat.Message): (item: HistoryItem)
    ensures item.content == m.content && item.role.None?
  {
    HistoryItem(None, m.content)
  }

  /** The request body the hook's `ChatRequest` becomes on the wire. */
  function WireRequest(request: Chat.ChatRequest): (r: QwenRequest)
    ensures r.userMessage == request.userMessage
    ensures r.conversationHistory.Some? && |r.conversationHistory.value| == |request.conversationHistory|
  {
    var h := request.conversationHistory;
    QwenRequest(request.userMessage, Some(seq(|h|, k requires 0 <= k < |h| => WireItem(h[k]))))
  }

  /** The history the hook sends carries `sender` while the route reads
      `role`, so every earlier turn reaches the API as an assistant turn, the
      user's own turns included; only the current message is a user turn. */
  lemma {:induction false} ClientHistoryAllAssistant(request: Chat.ChatRequest)
    ensures var messages := BuildMessages(WireRequest(request));
      && |messages| == |request.conversationHistory| + 2
      && forall k :: 1 <= k <= |request.conversationHistory| ==>
           messages[k] == PromptMessage(AssistantRole, request.conversationHistory[k - 1].content)
  {
    var wire := WireRequest(request);
    var messages := BuildMessages(wire);
    forall k | 1 <= k <= |request.conversationHistory|
      ensures messages[k] == PromptMessage(AssistantRole, request.conversationHistory[k - 1].content)
    {
      assert History(wire)[k - 1] == WireItem(request.conversationHistory[k - 1]);
    }
  }

  /** The answer passes the shape check: `choices` present and non-empty,
      and its first element has a `message`. */
  predicate WellShaped(c: Completion): (b: bool)
    ensures c.choices.None? ==> !b
    ensures c.choices.Some? && c.choices.value == [] ==> !b
    ensures c.choices.Some? && c.choices.value != [] && c.choices.value[0].message.None? ==> !b
    ensures b ==> c.choices.value[0].message.Some?
  {
    c.choices.Some? && |c.choices.value| > 0 && c.choices.value[0].message.Some?
  }

  /** The route's reply once the request was read: status 200 with the first
      choice's content when the API answered `ok` with a well-shaped body,
      otherwise status 500 with the fixed apology. */
  function Respond(upstream: Upstream): (r: RouteResponse)
    ensures r.success <==> upstream.UpstreamReply? && upstream.ok && upstream.body.Some? && WellShaped(upstream.body.value)
    ensures r.success ==> r == RouteResponse(200, true, upstream.body.value.choices.value[0].message.value.content)
    ensures !r.success ==> r == RouteResponse(500, false, Apology)
  {
    match upstream
    case UpstreamFailed => RouteResponse(500, false, Apology)
    case UpstreamReply(ok, body) =>
      if !ok || body.None? then RouteResponse(500, false, Apology)
      else if !WellShaped(body.value) then RouteResponse(500, false, Apology)
      else RouteResponse(200, true, body.value.choices.value[0].message.value.content)
  }

  /** `POST`: a body that cannot be read (none) fails at once with the
      apology; otherwise the API is called with `BuildMessages` and its
      outcome is mapped by `Respond`. Returns the messages sent, if any. */
  function Post(request: Option<QwenRequest>, upstream: Upstream): (r: (Option<seq<PromptMessage>>, RouteResponse))
    ensures request.None? ==> r.0.None? && r.1 == RouteResponse(500, false, Apology)
    ensures request.Some? ==> r.0 == Some(BuildMessages(request.value))
    ensures request.Some? ==> r.1 == Respond(upstream)
    ensures r.1.status == 200 <==> request.Some? && r.1.success
    ensures r.1.status == 200 || r.1.status == 500
  {
    match request
    case None => (None, RouteResponse(500, false, Apology))
    case Some(req) => (Some(BuildMessages(req)), Respond(upstream))
  }
}
