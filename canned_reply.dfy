/** The mocked assistant of the `AnimatedAIChat` component: a canned reply
    chosen by keyword, and the conversation state around it. */
module CannedReply {
  import opened Common
  import opened Text
  import opened Keywords

  /** The topics `getAIResponse` recognises, one per keyword group. */
  datatype Topic =
    | Greeting | Audio | Summary | ActionItems | Integrations
    | Pricing | Features | RealTime | Languages | Privacy

  const GreetingWords: seq<string> := ["hello", "hi", "hey"]
  const AudioWords: seq<string> := ["upload", "audio", "transcribe"]
  const SummaryWords: seq<string> := ["summary", "summarize", "meeting"]
  const ActionItemWords: seq<string> := ["action", "task", "todo"]
  const IntegrationWords: seq<string> := ["integration", "calendar", "slack", "notion"]
  const PricingWords: seq<string> := ["price", "cost", "plan", "free"]
  const FeatureWords: seq<string> := ["feature", "what can", "help"]
  const RealTimeWords: seq<string> := ["real-time", "live", "record"]
  const LanguageWords: seq<string> := ["language", "spanish", "french"]
  const PrivacyWords: seq<string> := ["secure", "privacy", "safe"]

  /** The keyword groups of `getAIResponse`, in the order they are tested. */
  const ReplyRules: seq<Rule<Topic>> := [
    Rule(GreetingWords, Greeting),
    Rule(AudioWords, Audio),
    Rule(SummaryWords, Summary),
    Rule(ActionItemWords, ActionItems),
    Rule(IntegrationWords, Integrations),
    Rule(PricingWords, Pricing),
    Rule(FeatureWords, Features),
    Rule(RealTimeWords, RealTime),
    Rule(LanguageWords, Languages),
    Rule(PrivacyWords, Privacy)
  ]

  /** The fixed reply of each topic. */
  function ReplyText(topic: Topic): string {
    match topic
    case Greeting =>
      "Hello! I'm Daisy, your AI " +
      "meeting assistant. I can help " +
      "you transcribe audio, " +
      "generate summaries, extract " +
      "action items, and sync with " +
      "your favorite tools. What " +
      "would you like to do today?"
    case Audio =>
      "I'd be happy to help you " +
      "transcribe audio! You can " +
      "upload audio files in MP3, " +
      "WAV, or M4A format. I use " +
      "OpenAI's Whisper model for " +
      "99% accurate transcription in " +
      "50+ languages. Would you like " +
      "to upload a file now?"
    case Summary =>
      "I can generate intelligent " +
      "meeting summaries that " +
      "include key points, decisions " +
      "made, and action items with " +
      "assignees. Just upload your " +
      "meeting audio and I'll " +
      "analyze it for you. I can " +
      "also identify deadlines and " +
      "important follow-ups " +
      "automatically."
    case ActionItems =>
      "I excel at extracting action " +
      "items from meetings! I can " +
      "identify who's responsible " +
      "for each task, when it's due, " +
      "and automatically sync these " +
      "to your calendar or project " +
      "management tools. This helps " +
      "ensure nothing falls through " +
      "the cracks."
    case Integrations =>
      "I integrate with all your " +
      "favorite tools! I can sync " +
      "action items to Google " +
      "Calendar, send summaries to " +
      "Slack channels, save " +
      "transcripts to Notion, and " +
      "connect with 1000+ apps " +
      "through Zapier. Would you " +
      "like help setting up an " +
      "integration?"
    case Pricing =>
      "I offer flexible pricing! " +
      "Free plan includes 5 meetings " +
      "per month with full " +
      "transcription and AI " +
      "summaries. Pro plan " +
      "($29/month) gives you " +
      "unlimited meetings, real-time " +
      "transcription, and all " +
      "integrations. Enterprise " +
      "plans are available for " +
      "larger teams."
    case Features =>
      "Here's what I can do for " +
      "you:\n\n• Transcribe audio " +
      "with 99% accuracy\n• Generate " +
      "smart meeting summaries\n• " +
      "Extract action items and " +
      "deadlines\n• Sync with your " +
      "favorite tools\n• Real-time " +
      "transcription during " +
      "meetings\n• Multi-language " +
      "support\n• Chat interface for " +
      "easy access\n\nWhat would you " +
      "like to try first?"
    case RealTime =>
      "Yes! I can transcribe " +
      "meetings in real-time as they " +
      "happen. Just click the " +
      "'Record Live' button and I'll " +
      "provide live captions and " +
      "automatically generate " +
      "summaries when the meeting " +
      "ends. This is perfect for " +
      "important meetings where you " +
      "want to stay focused on the " +
      "conversation."
    case Languages =>
      "I support transcription in " +
      "over 50 languages including " +
      "English, Spanish, French, " +
      "German, Italian, Portuguese, " +
      "Dutch, Russian, Chinese, " +
      "Japanese, and many more. The " +
      "AI automatically detects the " +
      "language being spoken for " +
      "seamless transcription."
    case Privacy =>
      "Your privacy and security are " +
      "my top priorities! I use " +
      "enterprise-grade encryption, " +
      "never store audio files " +
      "longer than necessary, and am " +
      "SOC 2 compliant. Your meeting " +
      "data is processed securely " +
      "and never used to train AI " +
      "models."
  }

  /** The replies used when no keyword group fires. */
  const DefaultReplies: seq<string> := [
    "That's an interesting " +
    "question! I'm designed to " +
    "help with meeting " +
    "transcription, summaries, and " +
    "action items. Could you tell " +
    "me more about what you're " +
    "looking to accomplish?",
    "I'd love to help you with " +
    "that! As your AI meeting " +
    "assistant, I specialize in " +
    "transcribing audio, " +
    "generating summaries, and " +
    "managing action items. What " +
    "specific task can I assist " +
    "you with?",
    "Thanks for reaching out! I'm " +
    "here to make your meetings " +
    "more productive. Whether you " +
    "need transcription, " +
    "summaries, or help with " +
    "action items, I'm ready to " +
    "assist. What would you like " +
    "to work on?"
  ]

  /** The topic of the first keyword group that fires on the lower-cased
      message, if any. */
  function TopicOf(message: string): (r: Option<Topic>)
    ensures r.Some? <==> exists k :: 0 <= k < |ReplyRules| && Fires(ReplyRules[k], Lower(message))
  {
    match FirstMatch(ReplyRules, Lower(message))
    case Some(k) => Some(ReplyRules[k].answer)
    case None => None
  }

  /** `getAIResponse(message)`. `pick` stands for
      `Math.floor(Math.random() * defaultResponses.length)`, the index of the
      default reply used when no group fires. */
  function Reply(message: string, pick: nat): (r: string)
    requires pick < |DefaultReplies|
    ensures TopicOf(message).Some? ==> r == ReplyText(TopicOf(message).value)
    ensures TopicOf(message).None? ==> r == DefaultReplies[pick]
  {
    match TopicOf(message)
    case Some(topic) => ReplyText(topic)
    case None => DefaultReplies[pick]
  }

  /** `getAIResponse` never answers with an empty string: every branch
      returns a fixed, non-empty text. */
  lemma ReplyNonEmpty(message: string, pick: nat)
    requires pick < |DefaultReplies|
    ensures |Reply(message, pick)| > 0
  {
    match TopicOf(message)
    case Some(topic) => ReplyTextNonEmpty(topic);
    case None => DefaultNonEmpty(pick);
  }

  /** Each topic's reply is non-empty. */
  lemma ReplyTextNonEmpty(topic: Topic)
    ensures |ReplyText(topic)| > 0
  {
    match topic
    case Greeting => GreetingNonEmpty(topic);
    case Audio => AudioNonEmpty(topic);
    case Summary => SummaryNonEmpty(topic);
    case ActionItems => ActionItemsNonEmpty(topic);
    case Integrations => IntegrationsNonEmpty(topic);
    case Pricing => PricingNonEmpty(topic);
    case Features => FeaturesNonEmpty(topic);
    case RealTime => RealTimeNonEmpty(topic);
    case Languages => LanguagesNonEmpty(topic);
    case Privacy => PrivacyNonEmpty(topic);
  }

  // One lemma per text, so that each proof obligation mentions one literal.
  lemma GreetingNonEmpty(topic: Topic) requires topic == Greeting ensures |ReplyText(topic)| > 0 {}
  lemma AudioNonEmpty(topic: Topic) requires topic == Audio ensures |ReplyText(topic)| > 0 {}
  lemma SummaryNonEmpty(topic: Topic) requires topic == Summary ensures |ReplyText(topic)| > 0 {}
  lemma ActionItemsNonEmpty(topic: Topic) requires topic == ActionItems ensures |ReplyText(topic)| > 0 {}
  lemma IntegrationsNonEmpty(topic: Topic) requires topic == Integrations ensures |ReplyText(topic)| > 0 {}
  lemma PricingNonEmpty(topic: Topic) requires topic == Pricing ensures |ReplyText(topic)| > 0 {}
  lemma FeaturesNonEmpty(topic: Topic) requires topic == Features ensures |ReplyText(topic)| > 0 {}
  lemma RealTimeNonEmpty(topic: Topic) requires topic == RealTime ensures |ReplyText(topic)| > 0 {}
  lemma LanguagesNonEmpty(topic: Topic) requires topic == Languages ensures |ReplyText(topic)| > 0 {}
  lemma PrivacyNonEmpty(topic: Topic) requires topic == Privacy ensures |ReplyText(topic)| > 0 {}

  /** Each default reply is non-empty. */
  lemma DefaultNonEmpty(pick: nat)
    requires pick < |DefaultReplies|
    ensures |DefaultReplies[pick]| > 0
  {
    if pick == 0 {
      assert |DefaultReplies[0]| > 0;
    } else if pick == 1 {
      assert |DefaultReplies[1]| > 0;
    } else {
      assert |DefaultReplies[2]| > 0;
    }
  }

  /** Matching ignores case: a message and its lower-case form get the same reply. */
  lemma ReplyIgnoresCase(message: string, pick: nat)
    requires pick < |DefaultReplies|
    ensures Reply(message, pick) == Reply(Lower(message), pick)
  {
    LowerIdempotent(message);
  }

  /** A message whose lower-case form includes "hello", "hi" or "hey" is
      greeted, whatever else it says. */
  lemma GreetingWins(message: string, pick: nat)
    requires pick < |DefaultReplies|
    requires Mentions(Lower(message), GreetingWords)
    ensures TopicOf(message) == Some(Greeting)
    ensures Reply(message, pick) == ReplyText(Greeting)
  {
  }

  /** The position of a topic's group in `ReplyRules`. */
  function RuleIndex(topic: Topic): (k: nat)
    ensures k < |ReplyRules| && ReplyRules[k].answer == topic
  {
    match topic
    case Greeting => 0
    case Audio => 1
    case Summary => 2
    case ActionItems => 3
    case Integrations => 4
    case Pricing => 5
    case Features => 6
    case RealTime => 7
    case Languages => 8
    case Privacy => 9
  }

  /** Each group of `ReplyRules` has its own topic. */
  lemma RuleIndexOfAnswer(k: nat)
    requires k < |ReplyRules|
    ensures RuleIndex(ReplyRules[k].answer) == k
  {
    assert k == 0 || k == 1 || k == 2 || k == 3 || k == 4 || k == 5 || k == 6 || k == 7 || k == 8 || k == 9;
  }

  /** Fixed priority: a topic (and so its reply) is chosen exactly when its
      group fires and no earlier group does. */
  lemma TopicPriority(message: string, topic: Topic)
    ensures TopicOf(message) == Some(topic)
      <==> && Fires(ReplyRules[RuleIndex(topic)], Lower(message))
           && forall j :: 0 <= j < RuleIndex(topic) ==> !Fires(ReplyRules[j], Lower(message))
  {
    var t := Lower(message);
    FirstMatchIff(ReplyRules, t, RuleIndex(topic));
    match FirstMatch(ReplyRules, t)
    case None =>
    case Some(r) => RuleIndexOfAnswer(r);
  }

  /** When no keyword group fires the reply is the picked default; any reply
      outside the defaults therefore comes from a group that fired. */
  lemma DefaultWhenNoKeyword(message: string, pick: nat)
    requires pick < |DefaultReplies|
    requires forall k :: 0 <= k < |ReplyRules| ==> !Fires(ReplyRules[k], Lower(message))
    ensures Reply(message, pick) == DefaultReplies[pick]
    ensures Reply(message, pick) in DefaultReplies
  {
  }

  /** A message that reads "meeting action items" in any mix of cases
      mentions both a summary word and an action word; the summary group is
      tested first and wins. */
  lemma SummaryOutranksActionItems(message: string, pick: nat)
    requires pick < |DefaultReplies|
    requires Lower(message) == "meeting action items"
    ensures TopicOf(message) == Some(Summary)
    ensures Reply(message, pick) == ReplyText(Summary)
  {
    MeetingActionItemsFires(Lower(message));
    TopicPriority(message, Summary);
  }

  /** On the text "meeting action items" the summary and action-item groups
      fire and the two groups before them do not. */
  lemma MeetingActionItemsFires(t: string)
    requires t == "meeting action items"
    ensures Fires(ReplyRules[2], t) && Fires(ReplyRules[3], t)
    ensures forall j :: 0 <= j < 2 ==> !Fires(ReplyRules[j], t)
  {
    LettersAbsent(t);
    NoGreetingOrAudioWord(t);
    MentionsMeetingAndAction(t);
    assert ReplyRules[0].keywords == GreetingWords && ReplyRules[1].keywords == AudioWords;
    assert ReplyRules[2].keywords == SummaryWords && ReplyRules[3].keywords == ActionItemWords;
  }

  lemma LettersAbsent(t: string)
    requires t == "meeting action items"
    ensures 'h' !in t && 'u' !in t && 'b' !in t
  {
  }

  /** "meeting action items" includes "meeting" and "action". */
  lemma MentionsMeetingAndAction(t: string)
    requires t == "meeting action items"
    ensures Mentions(t, SummaryWords) && Mentions(t, ActionItemWords)
  {
    assert StartsWith(t, "meeting");
    assert Mentions(t, SummaryWords[2..]);
    IncludesAt(t, "action", 8);
  }

  /** Neither of the first two groups fires on a text without 'h', 'u' and 'b'. */
  lemma NoGreetingOrAudioWord(t: string)
    requires 'h' !in t && 'u' !in t && 'b' !in t
    ensures !Mentions(t, GreetingWords) && !Mentions(t, AudioWords)
  {
    MissingCharExcludes(t, "hello", 0);
    MissingCharExcludes(t, "hi", 0);
    MissingCharExcludes(t, "hey", 0);
    MissingCharExcludes(t, "upload", 0);
    MissingCharExcludes(t, "audio", 1);
    MissingCharExcludes(t, "transcribe", 8);
  }

  /** Substring matching is loose: "this" contains "hi", so a pricing
      question that says "this" is answered with the greeting. */
  lemma ThisIsAGreeting(message: string, pick: nat)
    requires pick < |DefaultReplies|
    requires message == "Is this FREE?"
    ensures Reply(message, pick) == ReplyText(Greeting)
  {
    assert Lower(message) == "is this free?";
    IncludesAt(Lower(message), "hi", 4);
    GreetingWins(message, pick);
  }

  /** A chat message of this component. */
  datatype Message = Message(content: string, sender: Sender)

  const WelcomeMessage :=
    "Hello! I'm Daisy, your AI " +
    "meeting assistant. I can help " +
    "you transcribe audio, " +
    "generate summaries, and " +
    "extract action items from " +
    "your meetings. How can I help " +
    "you today?"

  /** The prompts the four quick-action buttons put into the input. */
  const QuickActionPrompts: seq<string> := [
    "I'd like to upload an audio file for transcription",
    "How do I record a live meeting?",
    "Show me my recent meeting summaries",
    "Help me set up calendar integration"
  ]

  /** The component's state: the message list, the input box and the
      "assistant is typing" flag. */
  class MockChat {
    var messages: seq<Message>
    var inputValue: string
    var isTyping: bool

    /** The initial state: one welcome message from the assistant. */
    constructor ()
      ensures messages == [Message(WelcomeMessage, Ai)]
      ensures inputValue == "" && !isTyping
    {
      messages := [Message(WelcomeMessage, Ai)];
      inputValue := "";
      isTyping := false;
    }

    /** The text area's change handler. */
    method SetInput(text: string)
      modifies this
      ensures inputValue == text
      ensures messages == old(messages) && isTyping == old(isTyping)
    {
      inputValue := text;
    }

    /** A quick-action button: fills the input with its fixed prompt. */
    method QuickAction(index: nat)
      requires index < |QuickActionPrompts|
      modifies this
      ensures inputValue == QuickActionPrompts[index]
      ensures messages == old(messages) && isTyping == old(isTyping)
    {
      inputValue := QuickActionPrompts[index];
    }

    /** The synchronous part of `handleSendMessage`. A blank input changes
        nothing. Otherwise the trimmed input is appended as a user message,
        the input is cleared, the typing flag is set and the reply is
        scheduled: `pending` is the content the timer will answer. */
    method SendMessage() returns (pending: Option<string>)
      modifies this
      ensures IsBlank(old(inputValue)) ==>
        pending == None && messages == old(messages) && inputValue == old(inputValue) && isTyping == old(isTyping)
      ensures !IsBlank(old(inputValue)) ==>
        && pending == Some(Trim(old(inputValue)))
        && messages == old(messages) + [Message(Trim(old(inputValue)), User)]
        && inputValue == ""
        && isTyping
      ensures pending.Some? ==> |pending.value| > 0 && !IsSpace(pending.value[0])
    {
      if IsBlank(inputValue) {
        return None;
      }
      var content := Trim(inputValue);
      messages := messages + [Message(content, User)];
      inputValue := "";
      isTyping := true;
      pending := Some(content);
    }

    /** The timer callback of `handleSendMessage`: appends the assistant's
        canned reply to `content` and clears the typing flag. */
    method DeliverReply(content: string, pick: nat)
      requires pick < |DefaultReplies|
      modifies this
      ensures messages == old(messages) + [Message(Reply(content, pick), Ai)]
      ensures !isTyping && inputValue == old(inputValue)
    {
      messages := messages + [Message(Reply(content, pick), Ai)];
      isTyping := false;
    }
  }
}
