/** The per-session state kept between page runs, `messages` (the transcript)
    and `input_key` (the counter that names, and so clears, the text box), and
    the handlers that change it: the chat form's submit and the four
    quick-action buttons. */
module Session {
  import opened Wrappers
  import opened OrderLookup
  import opened Assistant

  /** The bot entry a new transcript starts with. */
  const Greeting: string :=
    "\U{1F44B} Hi! I'm your AI-powered customer support assistant. How can I help you today?"

  /** The four quick-action buttons. */
  datatype QuickAction = TrackOrder | Returns | Payment | Contact

  /** The user text each button sends. */
  function Phrase(a: QuickAction): string {
    match a
    case TrackOrder => "Track my order #12345"
    case Returns => "How do I return an item?"
    case Payment => "What payment methods do you accept?"
    case Contact => "How can I contact support?"
  }

  /** The bot's answer to `input`, where `history` is the transcript with the
      user's entry already appended: the order summary when the handler checks
      orders first and one is found, otherwise the assistant's reply. */
  function BotReply(input: string, lookupFirst: bool, key: Option<string>, history: seq<Message>,
                    complete: seq<Message> -> Result<string, string>): string {
    match (if lookupFirst then CheckOrderNumber(FakeOrders, input) else None)
    case Some(summary) => summary
    case None => AiReply(key, input, history, complete)
  }

  /** A transcript as the handlers leave it: the greeting, then user and bot
      entries in alternation, ending with a bot entry. */
  predicate WellFormed(t: seq<Message>) {
    |t| % 2 == 1 && t[0] == Message("bot", Greeting)
    && forall k :: 1 <= k < |t| ==> t[k].role == (if k % 2 == 1 then "user" else "bot")
  }

  /** One exchange, a user entry followed by a bot entry, keeps a transcript well formed. */
  lemma ExchangeKeepsWellFormed(t: seq<Message>, question: string, answer: string)
    requires WellFormed(t)
    ensures WellFormed(t + [Message("user", question)] + [Message("bot", answer)])
  {
  }

  /** The list sent to the service during a turn ends with the user's input
      twice: once as the newest transcript entry, once as the current input. */
  lemma TurnPromptRepeatsInput(transcript: seq<Message>, input: string)
    ensures var p := Prompt(transcript + [Message("user", input)], input);
      |p| >= 3 && p[|p| - 2] == p[|p| - 1] == Message("user", input)
  {
    var asked := transcript + [Message("user", input)];
    PromptShape(asked, input);
    var n := |Recent(asked)|;
    assert asked[|asked| - n + n - 1] == Message("user", input);
  }

  /** The Track Order button never reaches the service: its text names order
      #12345, so the reply is that order's summary. */
  lemma TrackOrderAnswersFromTable(key: Option<string>, history: seq<Message>,
                                   complete: seq<Message> -> Result<string, string>)
    ensures BotReply(Phrase(TrackOrder), true, key, history, complete)
      == Summary("#12345", FakeOrders[0].1)
  {
    TrackOrderPhraseFindsFirstOrder();
  }

  class ChatSession {
    /** `st.session_state.messages` */
    var messages: seq<Message>
    /** `st.session_state.input_key` */
    var inputKey: nat

    ghost predicate Valid()
      reads this
    {
      WellFormed(messages)
    }

    /** First run of a session: the greeting alone, counter at zero. */
    constructor ()
      ensures Valid()
      ensures messages == [Message("bot", Greeting)] && inputKey == 0
    {
      messages := [Message("bot", Greeting)];
      inputKey := 0;
    }

    /** The body shared by every handler: append the user entry, try the order
        table first when `lookupFirst`, otherwise ask the service with the
        transcript as it now stands, and append the bot entry. */
    method Exchange(input: string, lookupFirst: bool, key: Option<string>,
                    complete: seq<Message> -> Result<string, string>)
      requires Valid()
      modifies this`messages
      ensures Valid()
      ensures var asked := old(messages) + [Message("user", input)];
        messages == asked + [Message("bot", BotReply(input, lookupFirst, key, asked, complete))]
    {
      messages := messages + [Message("user", input)];
      var botResponse;
      var orderResponse := if lookupFirst then CheckOrderNumber(FakeOrders, input) else None;
      if orderResponse.Some? {
        botResponse := orderResponse.value;
      } else {
        botResponse := GetAiResponse(key, input, messages, complete);
      }
      ExchangeKeepsWellFormed(old(messages), input, botResponse);
      messages := messages + [Message("bot", botResponse)];
    }

    /** The chat form's submit: an empty input does nothing; otherwise one
        exchange with the order table tried first, and the counter moves on
        so the text box comes back empty. */
    method Submit(input: string, key: Option<string>, complete: seq<Message> -> Result<string, string>)
      requires Valid()
      modifies this
      ensures Valid()
      ensures input == "" ==> messages == old(messages) && inputKey == old(inputKey)
      ensures input != "" ==>
        var asked := old(messages) + [Message("user", input)];
        && messages == asked + [Message("bot", BotReply(input, true, key, asked, complete))]
        && inputKey == old(inputKey) + 1
    {
      if input == "" {
        return;
      }
      Exchange(input, true, key, complete);
      inputKey := inputKey + 1;
    }

    /** A quick-action button: one exchange on its fixed text, where only
        Track Order tries the order table first; the counter is left alone. */
    method Quick(a: QuickAction, key: Option<string>, complete: seq<Message> -> Result<string, string>)
      requires Valid()
      modifies this
      ensures Valid()
      ensures var asked := old(messages) + [Message("user", Phrase(a))];
        messages == asked + [Message("bot", BotReply(Phrase(a), a == TrackOrder, key, asked, complete))]
      ensures inputKey == old(inputKey)
    {
      Exchange(Phrase(a), a == TrackOrder, key, complete);
    }
  }
}
