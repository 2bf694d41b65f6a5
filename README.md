# Customer-support chatbot: order lookup, prompt window and turn handling

A Dafny model of the logic inside `chatbot.py`, a single-page chat assistant for an
e-commerce shop. Three pieces of that file decide what the bot says:

- **Order lookup** (`check_order_number`). The customer's text is upper-cased. The demo
  order table `FAKE_ORDERS` is then scanned in insertion order. The first order id that
  occurs as a substring gives a formatted tracking summary. When no id occurs, the
  result is `None`.
- **The assistant call** (`get_ai_response`). A missing API key gives a fixed
  "API Key Missing" reply. Otherwise a message list is built: the system prompt, the
  last ten transcript entries (role `user` kept, every other role sent as `assistant`),
  and the current input. That list goes to the chat-completion service. Its answer
  becomes the reply, or a diagnostic that quotes its failure.
- **The session** (`st.session_state.messages` and `input_key`). It starts as the
  greeting with the counter at zero. A non-empty form submit appends the user entry,
  then a bot entry. The bot entry is the order summary when one is found, otherwise the
  assistant's reply. The submit then bumps the counter. The four quick-action buttons
  append an exchange on fixed texts. Only Track Order tries the order table first, and
  none of them bumps the counter.

Modules, one per component: `Text` (upper-casing and substring search), `OrderLookup`,
`Assistant`, `Session` (the class `ChatSession`). `Wrappers` holds `Option` and `Result`.

The chat-completion service is the parameter `complete: seq<Message> -> Result<string, string>`.
It maps the exact message list to an answer or to the text of a failure. The API key is
the parameter `key: Option<string>`.

Behaviour that the model follows from the code:

- `not GROQ_API_KEY` treats an empty key like an absent one. `KeyMissing` holds for
  `None` and for `Some("")`.
- The transcript handed to `get_ai_response` already ends with the current user entry,
  and the input is then appended once more. So the service sees the input twice at the
  end (`Session.TurnPromptRepeatsInput`). The window keeps the last ten entries in
  chronological order.
- The Payment button sends `What payment methods do you accept?`. The Returns, Payment
  and Contact buttons never consult the order table.
- Order ids are matched as plain substrings of the whole upper-cased text. Of two ids
  that both occur, the one earlier in the table wins, wherever each sits in the text.

## Model

| member | source | states |
|---|---|---|
| Text.UpperAt | chatbot.py:82 | upper-casing keeps the length and maps each character on its own |
| Text.UpperIdempotent | chatbot.py:82 | upper-casing an upper-cased text changes nothing |
| Text.ContainsSurvivesUpper | chatbot.py:82-84 | a pattern with no lower-case letters that occurs in the text still occurs after upper-casing |
| Text.ConcatContainsPart | chatbot.py:86-93 | every fragment of the f-string occurs verbatim in the joined text |
| OrderLookup.FirstMatchFrom | chatbot.py:83-86 | the scan returns an index whose id occurs and before which none does, or None exactly when no remaining id occurs |
| OrderLookup.CheckOrderNumber | chatbot.py:80-94 | None exactly when no table id occurs in the upper-cased input; otherwise the summary of the first matching entry in table order |
| OrderLookup.FirstTableMatchWins | chatbot.py:83-86 | converse: if entry k is the first whose id occurs, its summary is the result, whatever later ids also occur |
| OrderLookup.LookupIgnoresCase | chatbot.py:82 | the lookup of a text equals the lookup of its upper-cased form |
| OrderLookup.CaselessIdIsFound | chatbot.py:82-84 | an id with no lower-case letters that occurs in the input, in any casing of the rest, yields a summary |
| OrderLookup.SummaryQuotesRecord | chatbot.py:85-93 | the summary contains the table's own id and the record's status, items, eta and location verbatim, each on its labelled line |
| OrderLookup.FoundSummaryQuotesMatch | chatbot.py:83-93 | a returned summary belongs to an order whose id occurs in the upper-cased input and quotes that id and all its fields |
| OrderLookup.TrackOrderPhraseFindsFirstOrder | chatbot.py:53-94 | "Track my order #12345" yields the summary of #12345, the first table row |
| OrderLookup.FirstOrderSummaryContents | chatbot.py:53-93 | the #12345 summary contains "Out for Delivery", "Wireless Headphones", "Today by 6 PM" and "Mombasa Distribution Center" |
| Assistant.Recent | chatbot.py:134 | the window is a suffix of the history of length min(10, length of history) |
| Assistant.GetAiResponse | chatbot.py:96-155 | a missing or empty key gives the fixed key-missing text; otherwise the reply is the service's answer to exactly `Prompt(history, input)`, or the error diagnostic for its failure |
| Assistant.PromptShape | chatbot.py:131-141 | the list has min(10, length of history) + 2 entries: the system prompt first, the input last as `user`, and the window in order between, with content kept and role `user` kept and any other role sent as `assistant` |
| Assistant.PromptIgnoresOlderHistory | chatbot.py:134 | entries older than the last ten never change the message list |
| Assistant.ErrorReplyInjective | chatbot.py:154-155 | different failure messages give different replies |
| Assistant.ErrorReplyQuotesError | chatbot.py:154-155 | the failure reply contains the failure's message |
| Session.ExchangeKeepsWellFormed | chatbot.py:284-296 | appending a user entry and then a bot entry keeps the transcript as the greeting followed by alternating user and bot entries |
| Session.TurnPromptRepeatsInput | chatbot.py:286-294 | during a turn, the last two messages sent to the service are both the user's input |
| Session.TrackOrderAnswersFromTable | chatbot.py:234-247 | the Track Order button's reply is the #12345 summary and never the service's |
| Session.ChatSession.constructor | chatbot.py:158-164 | a new session holds only the greeting and the counter is 0 |
| Session.ChatSession.Exchange | chatbot.py:284-296 | the transcript grows by the user entry and then the bot entry, which is the order summary when orders are tried and one is found, otherwise the assistant's reply to the transcript including the new user entry |
| Session.ChatSession.Submit | chatbot.py:284-298 | an empty input changes nothing; otherwise exactly one exchange with orders tried first, earlier entries unchanged, counter + 1 |
| Session.ChatSession.Quick | chatbot.py:234-271 | one exchange on the button's fixed text, with orders tried only for Track Order; the counter is unchanged |

## Left out

- Page configuration, CSS, HTML rendering of the transcript, sidebar, header, footer and `st.rerun`: presentation only.
- Loading `.env` and reading `GROQ_API_KEY`: environment input, taken as the `key` parameter.
- The Groq client, the model name, temperature, token limit and `top_p`: a network call, modelled as the function parameter `complete` of the message list alone.
- Exception semantics: any failure of the client construction or the call is the `Failure` case of `complete`, turned into the diagnostic text. A `None` message content from the service is not modelled.
- Text.Upper: only ASCII letters are upper-cased, one character for one. Python's `str.upper` also maps other letters, some to two characters. The demo ids consist of `#` and digits, which neither mapping changes.
- The widget-key effect of `input_key` (a fresh, empty text box): only the counter itself is modelled.
- The "Clear Chat History" button: it is commented out in the source.
