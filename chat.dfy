/** The chat hook `useChat`: a user turn is appended, the assistant's answer
    is fetched from the app's `/api/qwen` route, and on any failure of that
    call the answer comes from a local keyword fallback instead. The network
    call is a given outcome, `Math.random()` a given real in [0, 1), and the
    keyword patterns opaque predicates. */
module Chat {
  import opened Wrappers
  import opened Text

  datatype Sender = User | Assistant

  /** A conversation turn; `timestamp` is the `Date` as milliseconds. */
  datatype Message = Message(id: string, content: string, sender: Sender, timestamp: int)

  /** One `[category, pattern]` entry of the keyword patterns, in their order;
      the regular expression is an opaque predicate on the user's text. */
  datatype Rule = Rule(category: string, pattern: string -> bool)

  /** The keyword responses: candidate answers per category. */
  type ResponseTable = map<string, seq<string>>

  const GeneralCategory := "general"

  /** The table's `general` list, which the fallback indexes without a check. */
  predicate HasGeneral(table: ResponseTable) {
    GeneralCategory in table && |table[GeneralCategory]| > 0
  }

  /** The body `getAssistantResponse` posts to the route. */
  datatype ChatRequest = ChatRequest(userMessage: string, conversationHistory: seq<Message>)

  /** The route's JSON reply as the hook reads it. */
  datatype ApiReply = ApiReply(success: bool, message: string)

  /** What `fetch` produced: it threw, or a response with its `ok` flag and
      its body (none when `response.json()` threw). */
  datatype RemoteOutcome = FetchFailed | HttpReply(ok: bool, body: Option<ApiReply>)

  /** The cases in which `getAssistantResponse` ends up in its `catch`. */
  predicate UsesFallback(remote: RemoteOutcome) {
    || remote.FetchFailed?
    || !remote.ok
    || remote.body.None?
    || !remote.body.value.success
  }

  /** `Math.floor(random * n)` for a `random` drawn from [0, 1): an index
      into a list of `n` elements. */
  function RandomIndex(random: real, n: nat): (i: nat)
    requires 0.0 <= random < 1.0 && n > 0
    ensures i < n
    ensures i as real <= random * n as real < (i + 1) as real
  {
    (random * n as real).Floor
  }

  /** Rule `i` decides the fallback: its pattern matches and its category has
      a non-empty list of responses. */
  predicate Usable(rules: seq<Rule>, table: ResponseTable, userMessage: string, i: int)
    requires 0 <= i < |rules|
  {
    && rules[i].pattern(userMessage)
    && rules[i].category in table
    && |table[rules[i].category]| > 0
  }

  /** The first usable rule, if any. */
  function FirstUsable(rules: seq<Rule>, table: ResponseTable, userMessage: string): (r: Option<nat>)
    ensures r.Some? ==> r.value < |rules| && Usable(rules, table, userMessage, r.value)
    ensures r.Some? ==> forall k :: 0 <= k < r.value ==> !Usable(rules, table, userMessage, k)
    ensures r.None? <==> forall k :: 0 <= k < |rules| ==> !Usable(rules, table, userMessage, k)
  {
    if rules == [] then None
    else if Usable(rules, table, userMessage, 0) then Some(0)
    else
      var r := FirstUsable(rules[1..], table, userMessage);
      assert forall k :: 1 <= k < |rules| ==> (Usable(rules, table, userMessage, k) <==> Usable(rules[1..], table, userMessage, k - 1));
      match r
      case None => None
      case Some(i) =>
        assert Usable(rules, table, userMessage, i + 1);
        Some(i + 1)
  }

  /** The list the fallback draws from: the first usable rule's category, or
      `general` when no rule is usable. */
  function FallbackList(rules: seq<Rule>, table: ResponseTable, userMessage: string): (list: seq<string>)
    requires HasGeneral(table)
    ensures |list| > 0
  {
    match FirstUsable(rules, table, userMessage)
    case Some(i) => table[rules[i].category]
    case None => table[GeneralCategory]
  }

  /** The fallback answer: a random element of `FallbackList`. */
  function FallbackAnswer(rules: seq<Rule>, table: ResponseTable, userMessage: string, random: real): (r: string)
    requires HasGeneral(table) && 0.0 <= random < 1.0
    ensures r in FallbackList(rules, table, userMessage)
  {
    var list := FallbackList(rules, table, userMessage);
    list[RandomIndex(random, |list|)]
  }

  /** The answer `getAssistantResponse` resolves to. */
  function AssistantAnswer(userMessage: string, remote: RemoteOutcome, rules: seq<Rule>, table: ResponseTable, random: real)
    : (r: string)
    requires HasGeneral(table) && 0.0 <= random < 1.0
    ensures !UsesFallback(remote) ==> r == remote.body.value.message
    ensures UsesFallback(remote) ==> r in FallbackList(rules, table, userMessage)
  {
    if UsesFallback(remote) then FallbackAnswer(rules, table, userMessage, random)
    else remote.body.value.message
  }

  /** A fallback answer comes from the list of the first rule whose pattern
      matches and whose list is non-empty (earlier matching rules with a
      missing or empty list are skipped), and from `general` when there is
      no such rule. */
  lemma FallbackAnswerSource(rules: seq<Rule>, table: ResponseTable, userMessage: string, random: real)
    requires HasGeneral(table) && 0.0 <= random < 1.0
    ensures forall i :: 0 <= i < |rules| && Usable(rules, table, userMessage, i)
                        && (forall k :: 0 <= k < i ==> !Usable(rules, table, userMessage, k))
                        ==> FallbackAnswer(rules, table, userMessage, random) in table[rules[i].category]
    ensures (forall k :: 0 <= k < |rules| ==> !Usable(rules, table, userMessage, k))
            ==> FallbackAnswer(rules, table, userMessage, random) in table[GeneralCategory]
  {
    forall i | 0 <= i < |rules| && Usable(rules, table, userMessage, i)
               && (forall k :: 0 <= k < i ==> !Usable(rules, table, userMessage, k))
      ensures FallbackAnswer(rules, table, userMessage, random) in table[rules[i].category]
    {
      var r := FirstUsable(rules, table, userMessage);
      assert r.Some?;
      assert !(r.value < i) && !(i < r.value);
    }
  }

  /** The answer never fails: when every candidate response is non-empty, the
      fallback answer is non-empty too, whatever the remote call did. */
  lemma FallbackAnswerNonEmpty(rules: seq<Rule>, table: ResponseTable, userMessage: string, random: real)
    requires HasGeneral(table) && 0.0 <= random < 1.0
    requires forall c, k :: c in table && 0 <= k < |table[c]| ==> table[c][k] != []
    ensures FallbackAnswer(rules, table, userMessage, random) != []
  {
    var list := FallbackList(rules, table, userMessage);
    var i := RandomIndex(random, |list|);
    match FirstUsable(rules, table, userMessage)
    case Some(j) =>
      assert list[i] == table[rules[j].category][i];
    case None =>
      assert list[i] == table[GeneralCategory][i];
  }

  /** The remote answer is returned unchanged exactly when the call succeeded
      with `success` set; otherwise the answer is the fallback's. */
  lemma RemoteAnswerUnchanged(userMessage: string, remote: RemoteOutcome, rules: seq<Rule>, table: ResponseTable, random: real)
    requires HasGeneral(table) && 0.0 <= random < 1.0
    ensures remote.HttpReply? && remote.ok && remote.body.Some? && remote.body.value.success
            ==> AssistantAnswer(userMessage, remote, rules, table, random) == remote.body.value.message
    ensures remote.FetchFailed? || !remote.ok || remote.body.None? || !remote.body.value.success
            ==> AssistantAnswer(userMessage, remote, rules, table, random) == FallbackAnswer(rules, table, userMessage, random)
  {
  }

  /** The `for ... of` scan of the fallback, with its early return. */
  method Fallback(userMessage: string, rules: seq<Rule>, table: ResponseTable, random: real) returns (answer: string)
    requires HasGeneral(table) && 0.0 <= random < 1.0
    ensures answer == FallbackAnswer(rules, table, userMessage, random)
    ensures answer in FallbackList(rules, table, userMessage)
  {
    var i := 0;
    while i < |rules|
      invariant 0 <= i <= |rules|
      invariant forall k :: 0 <= k < i ==> !Usable(rules, table, userMessage, k)
    {
      var rule := rules[i];
      if rule.pattern(userMessage) {
        if rule.category in table {
          var responses := table[rule.category];
          if |responses| > 0 {
            assert FirstUsable(rules, table, userMessage) == Some(i) by {
              assert Usable(rules, table, userMessage, i);
              var r := FirstUsable(rules, table, userMessage);
              assert r.Some? && !(r.value < i) && !(i < r.value);
            }
            return responses[RandomIndex(random, |responses|)];
          }
        }
      }
      i := i + 1;
    }
    var generalResponses := table[GeneralCategory];
    answer := generalResponses[RandomIndex(random, |generalResponses|)];
  }

  /** `getAssistantResponse`: posts the message and the history, and returns
      the route's message or, on any failure, the fallback answer; it never
      fails itself. */
  method GetAssistantResponse(userMessage: string, conversationHistory: seq<Message>, remote: RemoteOutcome,
                              rules: seq<Rule>, table: ResponseTable, random: real)
    returns (answer: string, sent: ChatRequest)
    requires HasGeneral(table) && 0.0 <= random < 1.0
    ensures sent == ChatRequest(userMessage, conversationHistory)
    ensures answer == AssistantAnswer(userMessage, remote, rules, table, random)
  {
    sent := ChatRequest(userMessage, conversationHistory);
    if remote.HttpReply? && remote.ok && remote.body.Some? && remote.body.value.success {
      answer := remote.body.value.message;
    } else {
      answer := Fallback(userMessage, rules, table, random);
    }
  }

  /** The hook's state. */
  class ChatSession {
    var messages: seq<Message>
    var inputValue: string
    var isThinking: bool

    constructor ()
      ensures messages == [] && inputValue == "" && !isThinking
    {
      messages, inputValue, isThinking := [], "", false;
    }

    /** `setInputText`. */
    method SetInputText(text: string)
      modifies this
      ensures inputValue == text && messages == old(messages) && isThinking == old(isThinking)
    {
      inputValue := text;
    }

    /** The synchronous half of `addUserMessage`: the user turn is appended,
        the input cleared and the thinking flag raised; the history to send
        is the list as it was, without the new turn. */
    method BeginTurn(content: string, sentAt: int) returns (history: seq<Message>)
      modifies this
      ensures history == old(messages)
      ensures messages == old(messages) + [Message("user-" + IntToString(sentAt), content, User, sentAt)]
      ensures inputValue == "" && isThinking
    {
      history := messages;
      messages := messages + [Message("user-" + IntToString(sentAt), content, User, sentAt)];
      inputValue := "";
      isThinking := true;
    }

    /** The half of `addUserMessage` after the answer arrived: the assistant
        turn is appended and the thinking flag lowered. */
    method FinishTurn(answer: string, repliedAt: int)
      modifies this
      ensures messages == old(messages) + [Message("assistant-" + IntToString(repliedAt), answer, Assistant, repliedAt)]
      ensures !isThinking && inputValue == old(inputValue)
    {
      messages := messages + [Message("assistant-" + IntToString(repliedAt), answer, Assistant, repliedAt)];
      isThinking := false;
    }

    /** `addUserMessage`: exactly two turns are appended, the user's and then
        the assistant's, and the request carries the history before the user
        turn. */
    method AddUserMessage(content: string, sentAt: int, repliedAt: int, remote: RemoteOutcome,
                          rules: seq<Rule>, table: ResponseTable, random: real)
      returns (sent: ChatRequest)
      requires HasGeneral(table) && 0.0 <= random < 1.0
      modifies this
      ensures sent == ChatRequest(content, old(messages))
      ensures messages == old(messages) + [Message("user-" + IntToString(sentAt), content, User, sentAt),
                                           Message("assistant-" + IntToString(repliedAt),
                                                   AssistantAnswer(content, remote, rules, table, random),
                                                   Assistant, repliedAt)]
      ensures inputValue == "" && !isThinking
    {
      var conversationHistory := BeginTurn(content, sentAt);
      var answer;
      answer, sent := GetAssistantResponse(content, conversationHistory, remote, rules, table, random);
      FinishTurn(answer, repliedAt);
    }

    /** `handleSendMessage`: sends the trimmed input, and only when it is not
        blank; otherwise nothing changes. */
    method HandleSendMessage(sentAt: int, repliedAt: int, remote: RemoteOutcome,
                             rules: seq<Rule>, table: ResponseTable, random: real)
      returns (sent: Option<ChatRequest>)
      requires HasGeneral(table) && 0.0 <= random < 1.0
      modifies this
      ensures Trim(old(inputValue)) == [] ==>
        sent.None? && messages == old(messages) && inputValue == old(inputValue) && isThinking == old(isThinking)
      ensures Trim(old(inputValue)) != [] ==>
        && sent == Some(ChatRequest(Trim(old(inputValue)), old(messages)))
        && messages == old(messages) + [Message("user-" + IntToString(sentAt), Trim(old(inputValue)), User, sentAt),
                                        Message("assistant-" + IntToString(repliedAt),
                                                AssistantAnswer(Trim(old(inputValue)), remote, rules, table, random),
                                                Assistant, repliedAt)]
        && inputValue == "" && !isThinking
    {
      var text := Trim(inputValue);
      if text != [] {
        var request := AddUserMessage(text, sentAt, repliedAt, remote, rules, table, random);
        sent := Some(request);
      } else {
        sent := None;
      }
    }

    /** `handleKeyPress`: Enter without Shift sends; any other key does nothing. */
    method HandleKeyPress(key: string, shiftKey: bool, sentAt: int, repliedAt: int, remote: RemoteOutcome,
                          rules: seq<Rule>, table: ResponseTable, random: real)
      returns (sent: Option<ChatRequest>)
      requires HasGeneral(table) && 0.0 <= random < 1.0
      modifies this
      ensures !(key == "Enter" && !shiftKey) ==>
        sent.None? && messages == old(messages) && inputValue == old(inputValue) && isThinking == old(isThinking)
      ensures key == "Enter" && !shiftKey && Trim(old(inputValue)) == [] ==>
        sent.None? && messages == old(messages) && inputValue == old(inputValue) && isThinking == old(isThinking)
      ensures key == "Enter" && !shiftKey && Trim(old(inputValue)) != [] ==>
        && sent == Some(ChatRequest(Trim(old(inputValue)), old(messages)))
        && messages == old(messages) + [Message("user-" + IntToString(sentAt), Trim(old(inputValue)), User, sentAt),
                                        Message("assistant-" + IntToString(repliedAt),
                                                AssistantAnswer(Trim(old(inputValue)), remote, rules, table, random),
                                                Assistant, repliedAt)]
        && inputValue == "" && !isThinking
    {
      if key == "Enter" && !shiftKey {
        sent := HandleSendMessage(sentAt, repliedAt, remote, rules, table, random);
      } else {
        sent := None;
      }
    }
  }
}
