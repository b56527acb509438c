/**
 * The chat proxies (netlify/functions/chat.js and the `/api/chat` route of
 * server.mjs): both send the mentor's system prompt, at most the twelve
 * latest history entries and the new user message, and map the provider's
 * answer to a status and a reply.
 */
module ChatProxy {
  import opened Wrappers
  import opened Upstream

  /** The mentor persona both chat routes send first. */
  const SystemPrompt: string := "Ты — Senior Blockchain Engineer и главный ментор академии WingsNodeTeam (WNT). Стиль: профессиональный и четкий. Формат: Markdown. Используй списки, выделяй **термины**, код в ```."

  /** How many of the latest history entries are forwarded. */
  const HistoryWindow: nat := 12

  /** A history entry as the client posts it. */
  datatype HistoryEntry = HistoryEntry(role: string, text: Option<string>)

  /** The `history` field of the posted body: an array, or anything else. */
  datatype HistoryField = NotArray | Entries(entries: seq<HistoryEntry>)

  /** The parsed request body of the chat function; `userMessage` may be absent. */
  datatype ChatRequest = ChatRequest(history: HistoryField, userMessage: Option<string>)

  /** What the route answers: a reply text or an error code. */
  datatype ChatReply = Text(text: string) | Error(code: string)

  /** The request sent upstream, if any, and the HTTP answer. */
  datatype ChatResult = ChatResult(sent: Option<seq<ApiMessage>>, status: int, reply: ChatReply)

  /** `history.slice(-n)`: the last `n` entries, or all of them when there are fewer. */
  function Latest<T>(s: seq<T>, n: nat): (r: seq<T>)
    ensures |r| == if |s| < n then |s| else n
    ensures r == s[|s| - |r|..]
  {
    if |s| <= n then s else s[|s| - n..]
  }

  /** The provider role of a history entry: the model's turns are the assistant's, every other turn the user's. */
  function ApiRole(role: string): (r: string)
    ensures r == "assistant" <==> role == "model"
    ensures r == "user" <==> role != "model"
  {
    if role == "model" then "assistant" else "user"
  }

  function ToApi(m: HistoryEntry): ApiMessage {
    ApiMessage(ApiRole(m.role), m.text)
  }

  /** The message list: the system prompt, the forwarded history in order, then the user message. */
  function ChatMessages(history: seq<HistoryEntry>, userContent: Option<string>): seq<ApiMessage> {
    var recent := Latest(history, HistoryWindow);
    [ApiMessage("system", Some(SystemPrompt))]
    + seq(|recent|, i requires 0 <= i < |recent| => ToApi(recent[i]))
    + [ApiMessage("user", userContent)]
  }

  /**
   * The list has `2 + min(12, |history|)` messages: the system prompt first,
   * the user message last, and between them the latest history entries in
   * their order with their roles mapped and their texts unchanged.
   */
  lemma ChatMessagesShape(history: seq<HistoryEntry>, userContent: Option<string>)
    ensures var msgs := ChatMessages(history, userContent);
            var m := if |history| < HistoryWindow then |history| else HistoryWindow;
            && |msgs| == 2 + m
            && msgs[0] == ApiMessage("system", Some(SystemPrompt))
            && msgs[|msgs| - 1] == ApiMessage("user", userContent)
            && forall i :: 1 <= i <= m ==>
                 msgs[i] == ApiMessage(ApiRole(history[|history| - m + i - 1].role), history[|history| - m + i - 1].text)
  {
  }

  /** The `for ... of history.slice(-12)` loop that pushes onto `messages`. */
  method BuildMessages(history: seq<HistoryEntry>, userContent: Option<string>) returns (messages: seq<ApiMessage>)
    ensures messages == ChatMessages(history, userContent)
  {
    messages := [ApiMessage("system", Some(SystemPrompt))];
    var recent := Latest(history, HistoryWindow);
    var i := 0;
    while i < |recent|
      invariant 0 <= i <= |recent|
      invariant messages == [ApiMessage("system", Some(SystemPrompt))]
                             + seq(i, k requires 0 <= k < i => ToApi(recent[k]))
    {
      var m := recent[i];
      messages := messages + [ApiMessage(if m.role == "model" then "assistant" else "user", m.text)];
      i := i + 1;
      assert seq(i, k requires 0 <= k < i => ToApi(recent[k]))
          == seq(i - 1, k requires 0 <= k < i - 1 => ToApi(recent[k])) + [ToApi(recent[i - 1])];
    }
    messages := messages + [ApiMessage("user", userContent)];
  }

  /** A history field that is not an array counts as an empty history. */
  function HistoryOrEmpty(h: HistoryField): seq<HistoryEntry> {
    if h.Entries? then h.entries else []
  }

  /**
   * The serverless chat function. `body` is the parsed event body (`None`
   * when `JSON.parse` throws); `upstream` is the provider's answer to the
   * request, whose first choice's content may be absent.
   */
  function NetlifyChat(apiKey: Option<string>, body: Option<ChatRequest>, upstream: Outcome<Option<string>>): (r: ChatResult)
    ensures MissingKey(apiKey) ==> r == ChatResult(None, 500, Error("missing_api_key"))
    ensures !MissingKey(apiKey) && body.None? ==> r == ChatResult(None, 500, Error("function_error"))
    ensures !MissingKey(apiKey) && body.Some? ==>
              r.sent == Some(ChatMessages(HistoryOrEmpty(body.value.history), Some(OrElse(body.value.userMessage, ""))))
    ensures !MissingKey(apiKey) && body.Some? && upstream.Ok? ==> r.status == 200 && r.reply == Text(OrElse(upstream.body, ""))
    ensures r.reply.Text? <==> !MissingKey(apiKey) && body.Some? && upstream.Ok?
    ensures !MissingKey(apiKey) && body.Some? && upstream.NotOk? ==>
              r.status == upstream.status && r.reply == Error("upstream_error")
    ensures !MissingKey(apiKey) && body.Some? && upstream.Threw? ==> r.status == 500 && r.reply == Error("function_error")
  {
    if MissingKey(apiKey) then ChatResult(None, 500, Error("missing_api_key"))
    else if body.None? then ChatResult(None, 500, Error("function_error"))
    else
      var messages := ChatMessages(HistoryOrEmpty(body.value.history), Some(OrElse(body.value.userMessage, "")));
      match upstream
      case Threw => ChatResult(Some(messages), 500, Error("function_error"))
      case NotOk(status) => ChatResult(Some(messages), status, Error("upstream_error"))
      case Ok(content) => ChatResult(Some(messages), 200, Text(OrElse(content, "")))
  }

  /**
   * The Express `/api/chat` route. The user message is forwarded as posted
   * (absent stays absent). Without a key the provider client cannot be
   * built, so nothing is sent; a provider error and a thrown call end in the
   * same catch block.
   */
  function ServerChat(apiKey: Option<string>, body: ChatRequest, upstream: Outcome<Option<string>>): (r: ChatResult)
    ensures apiKey.None? ==> r == ChatResult(None, 500, Error("ai_error"))
    ensures apiKey.Some? ==> r.sent == Some(ChatMessages(HistoryOrEmpty(body.history), body.userMessage))
    ensures apiKey.Some? && upstream.Ok? ==> r.status == 200 && r.reply == Text(OrElse(upstream.body, ""))
    ensures !(apiKey.Some? && upstream.Ok?) ==> r.status == 500 && r.reply == Error("ai_error")
  {
    if apiKey.None? then ChatResult(None, 500, Error("ai_error"))
    else
      var messages := ChatMessages(HistoryOrEmpty(body.history), body.userMessage);
      match upstream
      case Ok(content) => ChatResult(Some(messages), 200, Text(OrElse(content, "")))
      case _ => ChatResult(Some(messages), 500, Error("ai_error"))
  }

  /** Both routes send the same list for the same well-formed request with a user message. */
  lemma RoutesAgree(apiKey: Option<string>, body: ChatRequest, upstream: Outcome<Option<string>>)
    requires !MissingKey(apiKey) && body.userMessage.Some? && body.userMessage.value != ""
    ensures NetlifyChat(apiKey, Some(body), upstream).sent == ServerChat(apiKey, body, upstream).sent
    ensures upstream.Ok? ==> NetlifyChat(apiKey, Some(body), upstream) == ServerChat(apiKey, body, upstream)
  {
  }
}
