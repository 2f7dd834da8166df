/** The scripted chat assistant (components/ChatWidget.tsx): a transcript that starts with
    two greetings, a send action that ignores blank input, and a reply chosen by the first
    keyword group, in a fixed order, that the lowercased message contains. */
module Chat {
  import opened Text

  datatype Sender = BotSender | UserSender

  /** A transcript entry. The numeric id and the clock time are not modelled. */
  datatype Message = Message(text: string, sender: Sender)

  /** The greetings the transcript starts with, both from the bot. */
  const InitialMessages: seq<Message> := [Message(Greetings[0], BotSender), Message(Greetings[1], BotSender)]

  /** The texts of the two greetings. */
  const Greetings: seq<string> := [
    "Hello! Welcome to Future Real Estate. 👋",
    "I'm your virtual assistant. How can I help you find your dream property today?"
  ]

  /** The buttons offered under a short transcript; each sends its own text. */
  const QuickOptions: seq<string> := ["View Properties", "Request Callback", "Investment Plans", "Contact Support"]

  /** The quick options are shown while the transcript has fewer than four messages. */
  predicate QuickOptionsVisible(messages: seq<Message>) {
    |messages| < 4
  }

  /** What a message is about; `Unmatched` gets the generic "agents are busy" reply. */
  datatype Topic = AboutPrice | AboutLocation | AboutVilla | AboutPlot | AboutContact | Unmatched

  /** The keywords that select each topic. */
  function Keywords(t: Topic): seq<string> {
    match t
    case AboutPrice => ["price", "cost"]
    case AboutLocation => ["location", "where"]
    case AboutVilla => ["villa", "house"]
    case AboutPlot => ["plot", "land"]
    case AboutContact => ["contact", "call"]
    case Unmatched => []
  }

  /** The order in which the keyword groups are tried. */
  const TopicOrder: seq<Topic> := [AboutPrice, AboutLocation, AboutVilla, AboutPlot, AboutContact]

  /** Some keyword of `t` occurs in `s`. */
  predicate Mentions(s: string, t: Topic) {
    exists k :: 0 <= k < |Keywords(t)| && Contains(s, Keywords(t)[k])
  }

  /** The bot's answers, one per topic in the order of `TopicIndex`. */
  const ReplyTexts: seq<string> := [
    "Our properties range from ₹9L to ₹2Cr+. Would you like to see properties within a specific budget?",
    "We have prime properties in Karjat, Alibaug, and near the new Atal Setu. Which location interests you?",
    "Villas are a great choice! We have 3BHK and 4BHK luxury villas available.",
    "Investing in plots is a smart move. We have residential and commercial plots with high ROI potential.",
    "You can reach us at +91 98765 43210 or email info@futurerealestate.com.",
    "Thanks for your inquiry! Our agents are currently busy, but we'll get back to you shortly."
  ]

  function TopicIndex(t: Topic): (k: nat)
    ensures k < |ReplyTexts|
  {
    match t
    case AboutPrice => 0
    case AboutLocation => 1
    case AboutVilla => 2
    case AboutPlot => 3
    case AboutContact => 4
    case Unmatched => 5
  }

  /** The bot's answer for a topic. */
  function Reply(t: Topic): string {
    ReplyTexts[TopicIndex(t)]
  }

  /** The reply choice of `handleSend`: the if/else-if chain over the lowercased text. */
  function Classify(text: string): (t: Topic)
    ensures t != Unmatched ==> Mentions(Lower(text), t)
    ensures t == Unmatched ==> forall u :: u in TopicOrder ==> !Mentions(Lower(text), u)
  {
    var lower := Lower(text);
    if Contains(lower, "price") || Contains(lower, "cost") then
      assert Keywords(AboutPrice)[0] == "price" && Keywords(AboutPrice)[1] == "cost";
      AboutPrice
    else if Contains(lower, "location") || Contains(lower, "where") then
      assert Keywords(AboutLocation)[0] == "location" && Keywords(AboutLocation)[1] == "where";
      AboutLocation
    else if Contains(lower, "villa") || Contains(lower, "house") then
      assert Keywords(AboutVilla)[0] == "villa" && Keywords(AboutVilla)[1] == "house";
      AboutVilla
    else if Contains(lower, "plot") || Contains(lower, "land") then
      assert Keywords(AboutPlot)[0] == "plot" && Keywords(AboutPlot)[1] == "land";
      AboutPlot
    else if Contains(lower, "contact") || Contains(lower, "call") then
      assert Keywords(AboutContact)[0] == "contact" && Keywords(AboutContact)[1] == "call";
      AboutContact
    else
      Unmatched
  }

  /** The reference reading of the chain: the first topic in `order` that `s` mentions. */
  function FirstMentioned(s: string, order: seq<Topic>): Topic
    decreases |order|
  {
    if order == [] then Unmatched
    else if Mentions(s, order[0]) then order[0]
    else FirstMentioned(s, order[1..])
  }

  /** The first mentioned topic is the one at the earliest position that `s` mentions. */
  lemma {:induction false} FirstMentionedIsEarliest(s: string, order: seq<Topic>, k: nat)
    requires k < |order| && Mentions(s, order[k])
    requires forall j :: 0 <= j < k ==> !Mentions(s, order[j])
    ensures FirstMentioned(s, order) == order[k]
    decreases k
  {
    if k > 0 {
      FirstMentionedIsEarliest(s, order[1..], k - 1);
    }
  }

  /** Without any mentioned topic the reference reading is `Unmatched`. */
  lemma {:induction false} FirstMentionedNone(s: string, order: seq<Topic>)
    requires forall j :: 0 <= j < |order| ==> !Mentions(s, order[j])
    ensures FirstMentioned(s, order) == Unmatched
    decreases |order|
  {
    if order != [] {
      FirstMentionedNone(s, order[1..]);
    }
  }

  lemma MentionsTwo(s: string, t: Topic)
    requires |Keywords(t)| == 2
    ensures Mentions(s, t) <==> Contains(s, Keywords(t)[0]) || Contains(s, Keywords(t)[1])
  {
  }

  /** The chain picks the first keyword group in order that the lowercased text mentions. */
  lemma ClassifyIsFirstMentioned(text: string)
    ensures Classify(text) == FirstMentioned(Lower(text), TopicOrder)
  {
    var s := Lower(text);
    MentionsTwo(s, AboutPrice);
    MentionsTwo(s, AboutLocation);
    MentionsTwo(s, AboutVilla);
    MentionsTwo(s, AboutPlot);
    MentionsTwo(s, AboutContact);
  }

  /** Matching ignores case: a message and its lowercased form get the same reply. */
  lemma ClassifyIgnoresCase(text: string)
    ensures Classify(Lower(text)) == Classify(text)
  {
    LowerIdempotent(text);
  }

  /** A message about both a price and a plot gets the price reply, since "price" is tried first. */
  lemma PriceOfPlotIsAboutPrice()
    ensures Classify("price of a plot") == AboutPrice
  {
    var s := "price of a plot";
    assert Lower(s) == s;
    assert StartsWith(s, "price");
  }

  /** Every keyword holds a 'c', an 'l' or an 'h', so a text lacking all three is unmatched. */
  lemma NoKeywordLetters(text: string)
    requires 'c' !in Lower(text) && 'l' !in Lower(text) && 'h' !in Lower(text)
    ensures Classify(text) == Unmatched
  {
    var s := Lower(text);
    NotContainsMissingChar(s, "price", 3);
    NotContainsMissingChar(s, "cost", 0);
    NotContainsMissingChar(s, "location", 0);
    NotContainsMissingChar(s, "where", 1);
    NotContainsMissingChar(s, "villa", 2);
    NotContainsMissingChar(s, "house", 0);
    NotContainsMissingChar(s, "plot", 1);
    NotContainsMissingChar(s, "land", 0);
    NotContainsMissingChar(s, "contact", 0);
    NotContainsMissingChar(s, "call", 0);
  }

  lemma LowerViewProperties()
    ensures Lower("View Properties") == "view properties"
  {
  }

  /** The "View Properties" quick option mentions no keyword and gets the generic reply. */
  lemma ViewPropertiesIsUnmatched()
    ensures Classify("View Properties") == Unmatched
  {
    LowerViewProperties();
    NoKeywordLetters("View Properties");
  }

  lemma LowerRequestCallback()
    ensures Lower("Request Callback") == "request callback"
  {
  }

  /** A text whose lowercased form contains "call" and lacks the letters 'p', 'o', 'w',
      'v', 'h' and 'n' mentions no earlier keyword group, so it gets the contact reply. */
  lemma OnlyCallMentioned(text: string)
    requires var s := Lower(text);
      'p' !in s && 'o' !in s && 'w' !in s && 'v' !in s && 'h' !in s && 'n' !in s
    requires Contains(Lower(text), "call")
    ensures Classify(text) == AboutContact
  {
    var s := Lower(text);
    NotContainsMissingChar(s, "price", 0);
    NotContainsMissingChar(s, "cost", 1);
    NotContainsMissingChar(s, "location", 1);
    NotContainsMissingChar(s, "where", 0);
    NotContainsMissingChar(s, "villa", 0);
    NotContainsMissingChar(s, "house", 0);
    NotContainsMissingChar(s, "plot", 0);
    NotContainsMissingChar(s, "land", 2);
  }

  lemma CallInRequestCallback()
    ensures Contains("request callback", "call")
  {
    assert StartsWith("callback", "call");
    ContainsInSuffix("request ", "callback", "call");
    assert "request callback" == "request " + "callback";
  }

  /** The "Request Callback" quick option is answered with the contact details. */
  lemma RequestCallbackIsAboutContact()
    ensures Classify("Request Callback") == AboutContact
  {
    LowerRequestCallback();
    CallInRequestCallback();
    OnlyCallMentioned("Request Callback");
  }

  /** The quick options disappear once the first exchange has been delivered. */
  lemma QuickOptionsHiddenAfterFirstExchange(text: string)
    ensures QuickOptionsVisible(InitialMessages + [Message(text, UserSender)])
    ensures !QuickOptionsVisible(InitialMessages + [Message(text, UserSender), Message(Reply(Classify(text)), BotSender)])
  {
  }

  /** Appending to a sequence keeps its prefixes. */
  lemma AppendKeepsPrefix<T>(s: seq<T>, m: T, n: nat)
    requires n <= |s|
    ensures (s + [m])[..n] == s[..n]
  {
  }

  /** Text made only of whitespace, which `trim()` empties. */
  predicate Blank(text: string) {
    forall i :: 0 <= i < |text| ==> IsSpace(text[i])
  }

  /** The transcript starts with the greetings. */
  ghost predicate Greeted(messages: seq<Message>) {
    |messages| >= |InitialMessages| && messages[..|InitialMessages|] == InitialMessages
  }

  /** Appending to a transcript keeps its greetings. */
  lemma GreetedAppend(messages: seq<Message>, m: Message)
    requires Greeted(messages)
    ensures Greeted(messages + [m])
  {
    AppendKeepsPrefix(messages, m, |InitialMessages|);
  }

  /** The chat widget's state. `pending` holds, in order, the texts whose delayed reply has
      not been delivered yet; the delay itself is not modelled. */
  class ChatSession {
    var isOpen: bool
    var input: string
    var isTyping: bool
    var messages: seq<Message>
    var pending: seq<string>

    /** While the widget stays mounted the transcript only grows, so the greetings stay at
        its start. */
    ghost predicate Valid()
      reads this
    {
      Greeted(messages)
    }

    constructor()
      ensures Valid()
      ensures !isOpen && input == "" && !isTyping && messages == InitialMessages && pending == []
    {
      isOpen := false;
      input := "";
      isTyping := false;
      messages := InitialMessages;
      pending := [];
    }

    /** The floating button opens and closes the window. */
    method ToggleOpen()
      modifies this
      ensures isOpen == !old(isOpen)
      ensures input == old(input) && isTyping == old(isTyping)
      ensures messages == old(messages) && pending == old(pending)
    {
      isOpen := !isOpen;
    }

    /** The close button in the window's header. */
    method Close()
      requires isOpen
      modifies this
      ensures !isOpen
      ensures input == old(input) && isTyping == old(isTyping)
      ensures messages == old(messages) && pending == old(pending)
    {
      isOpen := false;
    }

    /** Typing in the input box of the open window. */
    method SetInput(text: string)
      requires isOpen
      modifies this
      ensures input == text
      ensures isOpen == old(isOpen) && isTyping == old(isTyping)
      ensures messages == old(messages) && pending == old(pending)
    {
      input := text;
    }

    /** `handleSend(text)`: blank text is ignored; anything else is appended as a user
        message, the input is cleared, the typing indicator shows and a reply is scheduled.
        Every control that calls it is inside the open window. */
    method Send(text: string)
      requires Valid() && isOpen
      modifies this
      ensures Valid()
      ensures Blank(text) ==>
        input == old(input) && isTyping == old(isTyping) && messages == old(messages) && pending == old(pending)
      ensures !Blank(text) ==>
        && messages == old(messages) + [Message(text, UserSender)]
        && input == "" && isTyping && pending == old(pending) + [text]
      ensures isOpen == old(isOpen)
    {
      var blank := Trim(text) == "";
      assert blank <==> Blank(text) by {
        TrimEmptyIffAllSpace(text);
      }
      if blank {
        return;
      }
      Post(text);
    }

    /** The non-blank branch of `handleSend`. */
    method Post(text: string)
      requires Valid() && isOpen
      modifies this
      ensures Valid()
      ensures messages == old(messages) + [Message(text, UserSender)]
      ensures input == "" && isTyping && pending == old(pending) + [text]
      ensures isOpen == old(isOpen)
    {
      GreetedAppend(messages, Message(text, UserSender));
      messages := messages + [Message(text, UserSender)];
      input := "";
      isTyping := true;
      pending := pending + [text];
    }

    /** The send button and the Enter key send the current input. */
    method SendInput()
      requires Valid() && isOpen
      modifies this
      ensures Valid()
      ensures Blank(old(input)) ==>
        input == old(input) && isTyping == old(isTyping) && messages == old(messages) && pending == old(pending)
      ensures !Blank(old(input)) ==>
        && messages == old(messages) + [Message(old(input), UserSender)]
        && input == "" && isTyping && pending == old(pending) + [old(input)]
      ensures isOpen == old(isOpen)
    {
      Send(input);
    }

    /** A quick-option button sends its own text; the buttons are shown only while the
        transcript is shorter than four messages. */
    method SendQuickOption(k: nat)
      requires Valid() && isOpen && QuickOptionsVisible(messages) && k < |QuickOptions|
      modifies this
      ensures Valid()
      ensures messages == old(messages) + [Message(QuickOptions[k], UserSender)]
      ensures input == "" && isTyping && pending == old(pending) + [QuickOptions[k]]
      ensures isOpen == old(isOpen)
    {
      assert !IsSpace(QuickOptions[k][0]);
      Send(QuickOptions[k]);
    }

    /** The reply timer of the oldest pending message fires: the reply for its text is
        appended and the typing indicator is switched off. */
    method DeliverReply()
      requires Valid() && pending != []
      modifies this
      ensures Valid()
      ensures messages == old(messages) + [Message(Reply(Classify(old(pending)[0])), BotSender)]
      ensures !isTyping && pending == old(pending)[1..]
      ensures isOpen == old(isOpen) && input == old(input)
    {
      var topic := Classify(pending[0]);
      var reply := Message(Reply(topic), BotSender);
      GreetedAppend(messages, reply);
      messages := messages + [reply];
      isTyping := false;
      pending := pending[1..];
    }
  }
}
