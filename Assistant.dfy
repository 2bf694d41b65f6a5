/** `get_ai_response`: the missing-key guard, the message list handed to the
    chat-completion service (system prompt, the last ten transcript entries,
    the current input) and the conversion of the service's answer or failure
    into the bot's reply. The service itself is the parameter `complete`. */
module Assistant {
  import opened Wrappers
  import opened Text

  /** A chat message: a transcript entry (`user` or `bot`) or an entry of the
      list sent to the service (`system`, `user` or `assistant`). */
  datatype Message = Message(role: string, content: string)

  /** How many transcript entries the service sees. */
  const HistoryWindow: nat := 10

  const SystemPrompt: string :=
    "You are a friendly and helpful customer support assistant for an e-commerce company.\n\n"
    + "COMPANY INFORMATION:\n"
    + "- Return Policy: 30 days return window, items must be unused and in original packaging\n"
    + "- Shipping: Standard (5-7 days), Express (2-3 days). Free shipping on orders above $50\n"
    + "- Payment Methods: Credit Cards, Debit Cards, UPI, Net Banking, Wallets\n"
    + "- Contact: Email: support@shop.com | Phone: 1-800-SUPPORT (24/7)\n"
    + "- Refund Processing Time: 5-7 business days\n\n"
    + "GUIDELINES:\n"
    + "1. Be friendly, empathetic, and professional\n"
    + "2. Use emojis to make responses engaging (but don't overdo it)\n"
    + "3. Keep responses concise but helpful\n"
    + "4. If you don't know something, admit it and offer to connect them with human support\n"
    + "5. Always try to resolve the issue or provide next steps\n"
    + "6. For order tracking, ask for the order number if not provided\n\n"
    + "RESPONSE STYLE:\n"
    + "- Start with acknowledging their concern\n"
    + "- Provide clear, actionable information\n"
    + "- End with asking if they need more help\n\n"
    + "Remember: You're here to make customers happy and solve their problems!"

  /** The reply when no API key is configured. */
  const ApiKeyMissing: string :=
    "\U{26A0}\U{FE0F} **API Key Missing!**\n\nPlease add your Groq API key to the `.env` file:\n"
    + "```\nGROQ_API_KEY=your_key_here\n```\n\n"
    + "\U{1F511} Get your free key at: https://console.groq.com"

  /** The reply when the service call fails with message `e`. */
  function ErrorReply(e: string): string {
    "\U{26A0}\U{FE0F} **Error:** " + e
    + "\n\nPlease check:\n1. Your API key is valid\n2. You have internet connection\n3. Groq service is available"
  }

  /** `not GROQ_API_KEY`: an unset key and an empty key are both missing. */
  predicate KeyMissing(key: Option<string>) {
    key.None? || key.value == ""
  }

  /** The role a transcript entry gets in the list sent to the service. */
  function ApiRole(role: string): string {
    if role == "user" then "user" else "assistant"
  }

  /** `conversation_history[-10:]`: the last (at most) ten entries. */
  function Recent(history: seq<Message>): (w: seq<Message>)
    ensures |w| == if |history| < HistoryWindow then |history| else HistoryWindow
    ensures w == history[|history| - |w|..]
  {
    if |history| <= HistoryWindow then history else history[|history| - HistoryWindow..]
  }

  /** The message list sent to the service. */
  function Prompt(history: seq<Message>, input: string): seq<Message> {
    var w := Recent(history);
    [Message("system", SystemPrompt)]
    + seq(|w|, i requires 0 <= i < |w| => Message(ApiRole(w[i].role), w[i].content))
    + [Message("user", input)]
  }

  /** The reply produced from the service's answer: its text, or the error
      message wrapped in the fixed diagnostic. */
  function ReplyText(answer: Result<string, string>): string {
    match answer
    case Success(text) => text
    case Failure(e) => ErrorReply(e)
  }

  /** What `get_ai_response` returns. */
  function AiReply(key: Option<string>, input: string, history: seq<Message>,
                   complete: seq<Message> -> Result<string, string>): string {
    if KeyMissing(key) then ApiKeyMissing else ReplyText(complete(Prompt(history, input)))
  }

  /** `get_ai_response`: checks the key, builds the message list entry by
      entry and hands it to the service. */
  method GetAiResponse(key: Option<string>, input: string, history: seq<Message>,
                       complete: seq<Message> -> Result<string, string>)
    returns (reply: string)
    ensures KeyMissing(key) ==> reply == ApiKeyMissing
    ensures !KeyMissing(key) ==> reply == ReplyText(complete(Prompt(history, input)))
  {
    if KeyMissing(key) {
      return ApiKeyMissing;
    }
    var messages := [Message("system", SystemPrompt)];
    var start := if |history| > HistoryWindow then |history| - HistoryWindow else 0;
    var i := start;
    while i < |history|
      invariant start <= i <= |history|
      invariant |messages| == 1 + (i - start)
      invariant messages[0] == Message("system", SystemPrompt)
      invariant forall k :: 0 < k < |messages| ==>
        messages[k] == Message(ApiRole(history[start + k - 1].role), history[start + k - 1].content)
    {
      var msg := history[i];
      messages := messages + [Message(ApiRole(msg.role), msg.content)];
      i := i + 1;
    }
    messages := messages + [Message("user", input)];
    assert messages == Prompt(history, input);
    reply := ReplyText(complete(messages));
  }

  /** The shape of the message list: the system prompt first, the current
      input last, and between them the last min(10, |history|) entries in
      their order, with `user` kept and every other role sent as `assistant`. */
  lemma PromptShape(history: seq<Message>, input: string)
    ensures |Prompt(history, input)| == |Recent(history)| + 2
    ensures Prompt(history, input)[0] == Message("system", SystemPrompt)
    ensures Prompt(history, input)[|Recent(history)| + 1] == Message("user", input)
    ensures forall i :: 1 <= i <= |Recent(history)| ==>
      var entry := history[|history| - |Recent(history)| + i - 1];
      && Prompt(history, input)[i].content == entry.content
      && (Prompt(history, input)[i].role == "user" <==> entry.role == "user")
      && (Prompt(history, input)[i].role != "user" ==> Prompt(history, input)[i].role == "assistant")
  {
  }

  /** Only the last ten entries matter: older history never reaches the service. */
  lemma PromptIgnoresOlderHistory(older: seq<Message>, history: seq<Message>, input: string)
    requires |history| >= HistoryWindow
    ensures Prompt(older + history, input) == Prompt(history, input)
  {
    var all := older + history;
    assert all[|all| - HistoryWindow..] == history[|history| - HistoryWindow..];
  }

  /** The error text of a failed call is recoverable from the reply, so
      different failures give different replies. */
  lemma ErrorReplyInjective(e1: string, e2: string)
    requires ErrorReply(e1) == ErrorReply(e2)
    ensures e1 == e2
  {
    var head := "\U{26A0}\U{FE0F} **Error:** ";
    var r := ErrorReply(e1);
    assert r[|head|..|head| + |e1|] == e1;
    assert ErrorReply(e2)[|head|..|head| + |e2|] == e2;
  }

  /** A failed call's reply quotes the failure's message. */
  lemma ErrorReplyQuotesError(e: string)
    ensures Contains(ErrorReply(e), e)
  {
    var head := "\U{26A0}\U{FE0F} **Error:** ";
    ContainsEnd(head, e);
    ContainsExtend(head + e, e,
      "\n\nPlease check:\n1. Your API key is valid\n2. You have internet connection\n3. Groq service is available");
  }
}
