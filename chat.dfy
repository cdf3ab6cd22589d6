/** The chat proxy endpoint (`POST /api/chat`): it forwards a user message,
    with the conversation so far, to a chat-completion API and relays the first
    reply. The completion call is an outcome handed in by the caller; the
    handler returns its reply and the message list it would send (None when
    it sends nothing). */
module Chat {
  import opened Web

  /** `{ message, messages? }`: the new message and the history, each history
      entry an object as parsed from the request. */
  datatype Body = Body(message: string, messages: seq<JsonObject>)

  /** `{ role, content }` as forwarded; a member the entry lacks is None. */
  datatype ChatMessage = ChatMessage(role: Option<string>, content: Option<string>)

  /** What the completion call did: threw (in `fetch` or `json()`), answered
      with a non-OK status, or answered OK with the first choice's content
      ("" when there is none). */
  datatype Completion = Threw | NotOk | Completed(content: string)

  /** The JSON reply `{ ok, message?, reply? }` with its HTTP status. */
  datatype Reply = Reply(status: int, ok: bool, message: Option<string>, reply: Option<string>)

  datatype Result = Result(reply: Reply, upstream: Option<seq<ChatMessage>>)

  const SystemPrompt :=
    "You are a helpful assistant for Bvetra website. Help users navigate, answer questions about services and fleet, and assist in creating booking requests by asking required fields. Be concise and friendly."

  const NoAnswer := "Извините, нет ответа"

  /** `{ role: m.role, content: m.content }`. */
  function Forward(m: JsonObject): (r: ChatMessage)
    ensures r.role.Some? <==> exists i :: 0 <= i < |m| && m[i].0 == "role"
    ensures r.content.Some? <==> exists i :: 0 <= i < |m| && m[i].0 == "content"
    ensures forall i :: 0 <= i < |m| && m[i].0 == "role" ==> r.role == Some(m[i].1)
    ensures forall i :: 0 <= i < |m| && m[i].0 == "content" ==> r.content == Some(m[i].1)
  {
    ChatMessage(Get(m, "role"), Get(m, "content"))
  }

  /** The list sent for completion: the system prompt, the history, then
      the user's message. */
  function BuildMessages(history: seq<JsonObject>, message: string): (r: seq<ChatMessage>)
    ensures |r| == |history| + 2
    ensures r[0] == ChatMessage(Some("system"), Some(SystemPrompt))
    ensures r[|r| - 1] == ChatMessage(Some("user"), Some(message))
    ensures forall i :: 0 <= i < |history| ==> r[i + 1] == Forward(history[i])
  {
    [ChatMessage(Some("system"), Some(SystemPrompt))]
    + seq(|history|, i requires 0 <= i < |history| => Forward(history[i]))
    + [ChatMessage(Some("user"), Some(message))]
  }

  /** `handler`, where `apiKey` is `OPENAI_API_KEY` ("" when unset). */
  function Handle(verb: string, body: Option<Body>, apiKey: string, completion: Completion): (r: Result)
    ensures verb != "POST" ==> r == Result(Reply(405, false, None, None), None)
    ensures verb == "POST" && (body.None? || body.value.message == "") ==>
              r == Result(Reply(400, false, None, None), None)
    ensures r.upstream.Some? <==> verb == "POST" && body.Some? && body.value.message != "" && apiKey != ""
    ensures r.upstream.Some? ==> r.upstream.value == BuildMessages(body.value.messages, body.value.message)
    ensures verb == "POST" && body.Some? && body.value.message != "" && apiKey == "" ==>
              r.reply == Reply(500, false, Some("OpenAI key not configured"), None)
    ensures r.reply.ok <==> r.reply.status == 200
    ensures r.reply.status == 200 <==> r.upstream.Some? && completion.Completed?
    ensures r.reply.status == 200 ==> r.reply.reply == Some(Or(completion.content, NoAnswer))
    ensures r.upstream.Some? && completion == NotOk ==> r.reply == Reply(500, false, Some("OpenAI error"), None)
    ensures r.upstream.Some? && completion == Threw ==> r.reply == Reply(500, false, Some("Server error"), None)
  {
    if verb != "POST" then Result(Reply(405, false, None, None), None)
    else if body.None? || body.value.message == "" then Result(Reply(400, false, None, None), None)
    else if apiKey == "" then Result(Reply(500, false, Some("OpenAI key not configured"), None), None)
    else
      var sent := Some(BuildMessages(body.value.messages, body.value.message));
      match completion
      case NotOk => Result(Reply(500, false, Some("OpenAI error"), None), sent)
      case Threw => Result(Reply(500, false, Some("Server error"), None), sent)
      case Completed(content) => Result(Reply(200, true, None, Some(Or(content, NoAnswer))), sent)
  }

  /** The method and message guards are decided before, and regardless of,
      the API key and the completion. */
  lemma GuardsPrecedeKey(verb: string, body: Option<Body>, k1: string, k2: string, c1: Completion, c2: Completion)
    requires verb != "POST" || body.None? || body.value.message == ""
    ensures Handle(verb, body, k1, c1) == Handle(verb, body, k2, c2)
    ensures Handle(verb, body, k1, c1).upstream == None
  {
  }
}
