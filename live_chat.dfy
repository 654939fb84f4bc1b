/** The live chat widget `AnimatedAIChatNew`: the message list, contextual
    suggestions, the slash-command palette and file uploads. The completion,
    transcription and summary calls are outside the model; their results
    arrive as `Outcome` values. */
module LiveChat {
  import opened Common
  import opened Text
  import opened Keywords

  /** The kind of an uploaded file. */
  datatype FileKind = Audio | Image | Document

  /** The kind `handleFileUpload` gives a file of MIME type `mime`. */
  function Classify(mime: string): (r: FileKind)
    ensures r == Audio <==> StartsWith(mime, "audio/")
    ensures r == Image <==> !StartsWith(mime, "audio/") && StartsWith(mime, "image/")
    ensures r == Document <==> !StartsWith(mime, "audio/") && !StartsWith(mime, "image/")
  {
    if StartsWith(mime, "audio/") then Audio
    else if StartsWith(mime, "image/") then Image
    else Document
  }

  /** The kind as the source spells it. */
  function KindName(kind: FileKind): string {
    match kind
    case Audio => "audio"
    case Image => "image"
    case Document => "document"
  }

  /** The attachment fields of a message. */
  datatype Attachment = Attachment(kind: FileKind, name: string)

  /** A chat message. Optional flags the source leaves unset read as false;
      ids and timestamps are not modelled. */
  datatype Message = Message(
    content: string,
    sender: Sender,
    attachment: Option<Attachment>,
    isRead: bool,
    isProcessing: bool)

  /** An entry of the upload strip; `size` is the label shown next to the name. */
  datatype UploadedFile = UploadedFile(name: string, kind: FileKind, size: string)

  /** A message typed by the user. */
  function UserMessage(content: string): Message {
    Message(content, User, None, true, false)
  }

  /** An unread message from the assistant. */
  function AiMessage(content: string): Message {
    Message(content, Ai, None, false, false)
  }

  const Welcome := Message(
    "Hello! I'm Daisy, your AI " +
    "meeting assistant. I can help " +
    "you transcribe audio, " +
    "generate summaries, extract " +
    "action items, and sync with " +
    "your favorite tools. What " +
    "would you like to do today? ✨",
    Ai, None, true, false)

  const ProcessingText :=
    "I'm processing your audio " +
    "file. This may take a " +
    "moment..."

  const AudioErrorText :=
    "I encountered an error " +
    "processing your audio file. " +
    "This might be due to the file " +
    "format or size. Please try " +
    "again with a different file " +
    "or check that your API keys " +
    "are configured correctly."

  const ChatErrorText :=
    "I'm having trouble processing " +
    "your request right now. " +
    "Please make sure your API " +
    "keys are configured correctly " +
    "in the environment variables."

  /** The part of the reply to a non-audio upload before its mention of audio. */
  function ReceivedHead(kind: FileKind, name: string): string {
    "I've received your " + KindName(kind) + " file \"" + name + "\". While I specialize in "
  }

  const ReceivedAudioPhrase := "audio transcription, "

  const ReceivedTail :=
    "I can help you with questions " +
    "about this file or guide you " +
    "on how to work with " +
    "meeting-related documents."

  /** The assistant's reply to an uploaded image or document. */
  function ReceivedText(kind: FileKind, name: string): string {
    ReceivedHead(kind, name) + ReceivedAudioPhrase + ReceivedTail
  }

  // ---------------------------------------------------------------------
  // Meeting summary report

  /** An action item of a generated summary; an absent or empty assignee or
      due date is left out of the report, as JavaScript's truthiness test does. */
  datatype ActionItem = ActionItem(title: string, assignee: Option<string>, dueDate: Option<string>)

  /** The record the summary adapter resolves with. */
  datatype MeetingSummary = MeetingSummary(
    summary: string,
    keyPoints: seq<string>,
    decisions: seq<string>,
    actionItems: seq<ActionItem>)

  /** Whether an optional text field is truthy. */
  predicate Present(field: Option<string>) {
    field.Some? && field.value != ""
  }

  /** One action item as a report line, without its bullet. */
  function ActionLine(item: ActionItem): (r: string)
    ensures StartsWith(r, item.title)
    ensures !Present(item.assignee) && !Present(item.dueDate) ==> r == item.title
    ensures Present(item.assignee) && !Present(item.dueDate) ==>
      r == item.title + " (" + item.assignee.value + ")"
    ensures !Present(item.assignee) && Present(item.dueDate) ==>
      r == item.title + " - Due: " + item.dueDate.value
    ensures Present(item.assignee) && Present(item.dueDate) ==>
      r == item.title + " (" + item.assignee.value + ") - Due: " + item.dueDate.value
  {
    item.title
    + (if Present(item.assignee) then " (" + item.assignee.value + ")" else "")
    + (if Present(item.dueDate) then " - Due: " + item.dueDate.value else "")
  }

  /** `lines.map(x => "• " + x).join('\n')`. */
  function Bullets(lines: seq<string>): (r: string)
    ensures lines == [] <==> r == []
    ensures lines != [] ==> StartsWith(r, "• " + lines[0])
    decreases |lines|
  {
    if |lines| == 0 then ""
    else if |lines| == 1 then "• " + lines[0]
    else "• " + lines[0] + "\n" + Bullets(lines[1..])
  }

  /** Every item appears in the list behind its bullet. */
  lemma {:induction false} BulletsMention(lines: seq<string>, i: nat)
    requires i < |lines|
    ensures Includes(Bullets(lines), "• " + lines[i])
    decreases |lines|
  {
    if i > 0 {
      BulletsMention(lines[1..], i - 1);
      assert lines[1..][i - 1] == lines[i];
      IncludesAfterPrefix("• " + lines[0] + "\n", Bullets(lines[1..]), "• " + lines[i]);
    }
  }

  /** The action items as report lines. */
  function ActionLines(items: seq<ActionItem>): (r: seq<string>)
    ensures |r| == |items|
    ensures forall i :: 0 <= i < |items| ==> r[i] == ActionLine(items[i])
  {
    seq(|items|, i requires 0 <= i < |items| => ActionLine(items[i]))
  }

  const ReportHeader := "**Transcription Complete!** ✅\n\n**Summary:**\n"

  /** The message that replaces the processing notice once the summary resolves. */
  function Report(s: MeetingSummary): (r: string)
    ensures StartsWith(r, ReportHeader)
    ensures |ReportHeader| + |s.summary| <= |r|
    ensures r[|ReportHeader|..|ReportHeader| + |s.summary|] == s.summary
  {
    ReportHeader + s.summary
    + "\n\n**Key Points:**\n" + Bullets(s.keyPoints)
    + "\n\n**Decisions Made:**\n" + Bullets(s.decisions)
    + "\n\n**Action Items:**\n" + Bullets(ActionLines(s.actionItems))
  }

  // ---------------------------------------------------------------------
  // Contextual suggestions

  /** The suggestion groups of `getSmartSuggestions`, one per keyword group. */
  datatype Hint = AfterUpload | AfterTranscript | AfterSummary | AfterIntegration

  /** The keyword groups of `getSmartSuggestions`, in the order they are tested. */
  const HintRules: seq<Rule<Hint>> := [
    Rule(["upload", "audio", "recording"], AfterUpload),
    Rule(["transcrib", "transcript"], AfterTranscript),
    Rule(["summary", "action"], AfterSummary),
    Rule(["integrat"], AfterIntegration)
  ]

  /** The three suggestions of each group. */
  function HintSuggestions(hint: Hint): (r: seq<string>)
    ensures |r| == 3
  {
    match hint
    case AfterUpload =>
      ["Generate a summary from this recording", "Extract action items", "Identify speakers in the audio"]
    case AfterTranscript =>
      ["Create meeting summary", "Find action items", "Export transcript as PDF"]
    case AfterSummary =>
      ["Sync to Google Calendar", "Send to Slack channel", "Save to Notion"]
    case AfterIntegration =>
      ["Connect Google Calendar", "Set up Slack notifications", "Configure Notion sync"]
  }

  /** The suggestions shown when no group applies. */
  const DefaultSuggestions: seq<string> := [
    "Upload a meeting recording",
    "How does transcription work?",
    "Show me integrations",
    "What are your features?"
  ]

  /** The group of the first keyword group that fires on the lower-cased text. */
  function HintOf(text: string): (r: Option<Hint>)
    ensures r.Some? <==> exists k :: 0 <= k < |HintRules| && Fires(HintRules[k], Lower(text))
  {
    match FirstMatch(HintRules, Lower(text))
    case Some(k) => Some(HintRules[k].answer)
    case None => None
  }

  /** `getSmartSuggestions(lastMessage)`. There are three or four
      suggestions, so the widget's `slice(0, 4)` shows all of them. */
  function SmartSuggestions(lastMessage: string): (r: seq<string>)
    ensures 3 <= |r| <= 4
    ensures HintOf(lastMessage).Some? ==> r == HintSuggestions(HintOf(lastMessage).value)
    ensures HintOf(lastMessage).None? ==> r == DefaultSuggestions
  {
    match HintOf(lastMessage)
    case Some(hint) => HintSuggestions(hint)
    case None => DefaultSuggestions
  }

  /** The position of a group in `HintRules`. */
  function HintIndex(hint: Hint): (k: nat)
    ensures k < |HintRules| && HintRules[k].answer == hint
  {
    match hint
    case AfterUpload => 0
    case AfterTranscript => 1
    case AfterSummary => 2
    case AfterIntegration => 3
  }

  /** Each group of `HintRules` has its own hint. */
  lemma HintIndexOfAnswer(k: nat)
    requires k < |HintRules|
    ensures HintIndex(HintRules[k].answer) == k
  {
    assert k == 0 || k == 1 || k == 2 || k == 3;
  }

  /** Fixed priority: a group's suggestions are chosen exactly when it fires
      and no earlier group does. */
  lemma HintPriority(text: string, hint: Hint)
    ensures HintOf(text) == Some(hint)
      <==> && Fires(HintRules[HintIndex(hint)], Lower(text))
           && forall j :: 0 <= j < HintIndex(hint) ==> !Fires(HintRules[j], Lower(text))
  {
    var t := Lower(text);
    FirstMatchIff(HintRules, t, HintIndex(hint));
    match FirstMatch(HintRules, t)
    case None =>
    case Some(r) => HintIndexOfAnswer(r);
  }

  /** The reply to an uploaded image or document mentions "audio", so the
      suggestions that follow it are the ones for an audio upload. */
  lemma ReceivedTextSuggestsUpload(kind: FileKind, name: string)
    ensures SmartSuggestions(ReceivedText(kind, name)) == HintSuggestions(AfterUpload)
  {
    var head := ReceivedHead(kind, name);
    var text := ReceivedText(kind, name);
    LowerAppend(head + ReceivedAudioPhrase, ReceivedTail);
    LowerAppend(head, ReceivedAudioPhrase);
    AudioPhraseIsLower(ReceivedAudioPhrase);
    var t := Lower(text);
    assert t == Lower(head) + ReceivedAudioPhrase + Lower(ReceivedTail);
    assert t[|head|..|head| + 5] == "audio";
    IncludesAt(t, "audio", |head|);
    assert Mentions(t, ["upload", "audio", "recording"][1..]);
    HintPriority(text, AfterUpload);
  }

  lemma AudioPhraseIsLower(p: string)
    requires p == "audio transcription, "
    ensures Lower(p) == p && p[..5] == "audio"
  {
  }

  /** The position of the last assistant message: the element that
      `messages.filter(m => m.sender === 'ai').pop()` returns. */
  function LastAiIndex(messages: seq<Message>): (r: Option<nat>)
    ensures r.Some? ==> && r.value < |messages|
                        && messages[r.value].sender == Ai
                        && forall j :: r.value < j < |messages| ==> messages[j].sender != Ai
    ensures r.None? <==> forall j :: 0 <= j < |messages| ==> messages[j].sender != Ai
    decreases |messages|
  {
    if |messages| == 0 then None
    else if messages[|messages| - 1].sender == Ai then Some(|messages| - 1)
    else LastAiIndex(messages[..|messages| - 1])
  }

  /** The suggestions effect: run with the new message list and the
      suggestions it replaces. */
  function SuggestionsFor(messages: seq<Message>, current: seq<string>): (r: seq<string>)
    ensures |messages| <= 1 ==> r == DefaultSuggestions
    ensures |messages| > 1 && LastAiIndex(messages).Some?
      ==> r == SmartSuggestions(messages[LastAiIndex(messages).value].content)
    ensures |messages| > 1 && (forall j :: 0 <= j < |messages| ==> messages[j].sender != Ai)
      ==> r == current
    ensures 3 <= |current| <= 4 ==> 3 <= |r| <= 4
  {
    if |messages| <= 1 then DefaultSuggestions
    else
      match LastAiIndex(messages)
      case Some(i) => SmartSuggestions(messages[i].content)
      case None => current
  }

  /** A message from the user does not change the suggestions: they follow
      the last assistant message, which stays the same. */
  lemma {:induction false} UserMessageKeepsSuggestions(messages: seq<Message>, m: Message, current: seq<string>)
    requires |messages| > 1 && m.sender == User
    ensures SuggestionsFor(messages + [m], current) == SuggestionsFor(messages, current)
  {
    var ms := messages + [m];
    assert ms[..|ms| - 1] == messages;
    assert LastAiIndex(ms) == LastAiIndex(messages);
  }

  // ---------------------------------------------------------------------
  // Slash commands

  /** An entry of the command palette. */
  datatype Command = Command(name: string, description: string, prefix: string)

  const Commands: seq<Command> := [
    Command("Upload Audio", "Upload meeting recording for transcription", "/upload"),
    Command("Transcribe", "Start transcription process", "/transcribe"),
    Command("Schedule", "Schedule a new meeting", "/schedule"),
    Command("Integrations", "View available integrations", "/integrations")
  ]

  /** `commands.findIndex(cmd => cmd.prefix.startsWith(value))`. */
  function FindCommand(commands: seq<Command>, value: string): (r: int)
    ensures -1 <= r < |commands|
    ensures r >= 0 ==> && StartsWith(commands[r].prefix, value)
                       && forall j :: 0 <= j < r ==> !StartsWith(commands[j].prefix, value)
    ensures r == -1 <==> forall j :: 0 <= j < |commands| ==> !StartsWith(commands[j].prefix, value)
    decreases |commands|
  {
    if |commands| == 0 then -1
    else if StartsWith(commands[0].prefix, value) then 0
    else
      var k := FindCommand(commands[1..], value);
      if k < 0 then -1 else k + 1
  }

  /** The palette's index for the typed value. */
  function MatchingCommand(value: string): int {
    FindCommand(Commands, value)
  }

  /** The palette opens for a value that starts with '/' and has no space. */
  predicate OpensPalette(value: string) {
    StartsWith(value, "/") && !Includes(value, " ")
  }

  /** "/" selects the first command. */
  lemma SlashSelectsUpload(value: string)
    requires value == "/"
    ensures MatchingCommand(value) == 0
  {
  }

  /** "/t" skips "/upload" and selects "/transcribe". */
  lemma SlashTSelectsTranscribe(value: string)
    requires value == "/t"
    ensures MatchingCommand(value) == 1
  {
    MismatchNotPrefix(Commands[0].prefix, value, 1);
  }

  /** "/int" selects the last command. */
  lemma SlashIntSelectsIntegrations(value: string)
    requires value == "/int"
    ensures MatchingCommand(value) == 3
  {
    MismatchNotPrefix(Commands[0].prefix, value, 1);
    MismatchNotPrefix(Commands[1].prefix, value, 1);
    MismatchNotPrefix(Commands[2].prefix, value, 1);
  }

  /** A value no command starts with selects nothing. */
  lemma SlashXSelectsNothing(value: string)
    requires value == "/x"
    ensures MatchingCommand(value) == -1
  {
    MismatchNotPrefix(Commands[0].prefix, value, 1);
    MismatchNotPrefix(Commands[1].prefix, value, 1);
    MismatchNotPrefix(Commands[2].prefix, value, 1);
    MismatchNotPrefix(Commands[3].prefix, value, 1);
  }

  /** A chosen command's text ends in a space, so it never reopens the palette. */
  lemma ChosenCommandClosesPalette(i: nat)
    requires i < |Commands|
    ensures !OpensPalette(Commands[i].prefix + " ")
  {
    var v := Commands[i].prefix + " ";
    IncludesAt(v, " ", |v| - 1);
  }

  /** ArrowDown: the next entry, wrapping from the last to the first. */
  function NextIndex(prev: int, count: nat): (r: int)
    ensures -1 <= prev && count > 0 ==> 0 <= r < count
    ensures 0 <= prev < count ==> r == (prev + 1) % count
    ensures prev == -1 && count > 0 ==> r == 0
  {
    if prev < count - 1 then prev + 1 else 0
  }

  /** ArrowUp: the previous entry, wrapping from the first (or from none) to the last. */
  function PrevIndex(prev: int, count: nat): (r: int)
    ensures -1 <= prev < count && 0 < count ==> 0 <= r < count
    ensures 0 <= prev < count ==> r == (prev + count - 1) % count
    ensures prev == -1 && count > 0 ==> r == count - 1
  {
    if prev > 0 then prev - 1 else count - 1
  }

  /** ArrowUp undoes ArrowDown and ArrowDown undoes ArrowUp. */
  lemma StepsInverse(i: int, count: nat)
    requires 0 <= i < count
    ensures PrevIndex(NextIndex(i, count), count) == i
    ensures NextIndex(PrevIndex(i, count), count) == i
  {
  }

  /** The index after `presses` presses of ArrowDown. */
  function DownPresses(start: int, count: nat, presses: nat): int
    decreases presses
  {
    if presses == 0 then start else NextIndex(DownPresses(start, count, presses - 1), count)
  }

  /** Up to `count` presses of ArrowDown walk forward and wrap once. */
  lemma {:induction false} DownPressesWalk(start: int, count: nat, presses: nat)
    requires 0 <= start < count && presses <= count
    ensures DownPresses(start, count, presses)
      == if start + presses < count then start + presses else start + presses - count
    decreases presses
  {
    if presses > 0 {
      DownPressesWalk(start, count, presses - 1);
    }
  }

  /** Pressing ArrowDown once per command comes back to the starting entry. */
  lemma DownPressesCycle(start: int, count: nat)
    requires 0 <= start < count
    ensures DownPresses(start, count, count) == start
  {
    DownPressesWalk(start, count, count);
  }

  // ---------------------------------------------------------------------
  // List updates

  /** `files.filter((_, i) => i !== index)`. */
  function RemoveAt<T>(xs: seq<T>, index: int): (r: seq<T>)
    ensures 0 <= index < |xs| ==> r == xs[..index] + xs[index + 1..]
    ensures !(0 <= index < |xs|) ==> r == xs
    decreases |xs|
  {
    if |xs| == 0 then []
    else (if index == 0 then [] else [xs[0]]) + RemoveAt(xs[1..], index - 1)
  }

  /** `messages.filter(m => !m.isProcessing)`. */
  function RemoveProcessing(messages: seq<Message>): (r: seq<Message>)
    ensures forall m :: m in r <==> m in messages && !m.isProcessing
    ensures |messages| > 0 && !messages[0].isProcessing ==> |r| > 0 && r[0] == messages[0]
    decreases |messages|
  {
    if |messages| == 0 then []
    else (if messages[0].isProcessing then [] else [messages[0]]) + RemoveProcessing(messages[1..])
  }

  /** The filter keeps the order: it works on each part of a list separately. */
  lemma {:induction false} RemoveProcessingAppend(a: seq<Message>, b: seq<Message>)
    ensures RemoveProcessing(a + b) == RemoveProcessing(a) + RemoveProcessing(b)
    decreases |a|
  {
    if |a| > 0 {
      assert (a + b)[1..] == a[1..] + b;
      RemoveProcessingAppend(a[1..], b);
    } else {
      assert a + b == b;
    }
  }

  /** A list without processing notices is left as it is. */
  lemma {:induction false} RemoveProcessingNone(messages: seq<Message>)
    requires forall i :: 0 <= i < |messages| ==> !messages[i].isProcessing
    ensures RemoveProcessing(messages) == messages
    decreases |messages|
  {
    if |messages| > 0 {
      RemoveProcessingNone(messages[1..]);
    }
  }

  // ---------------------------------------------------------------------
  // The widget

  /** The keys `handleKeyDown` tells apart. */
  datatype Key = ArrowDown | ArrowUp | Tab | Enter(shift: bool) | Escape | OtherKey

  /** All state of the widget, as one value. */
  datatype ChatState = ChatState(
    value: string,
    uploadedFiles: seq<UploadedFile>,
    isTyping: bool,
    activeSuggestion: int,
    showCommandPalette: bool,
    recentCommand: Option<string>,
    messages: seq<Message>,
    suggestions: seq<string>,
    isProcessingFile: bool)

  /** What stays true in every state: the palette index is -1 or a command,
      three or four suggestions, and the welcome message stays first. */
  predicate Inv(s: ChatState) {
    && -1 <= s.activeSuggestion < |Commands|
    && 3 <= |s.suggestions| <= 4
    && |s.messages| > 0 && s.messages[0] == Welcome
  }

  /** `setValue(v)` followed by the palette effect, which runs only when
      the value changes. */
  function WithValue(s: ChatState, v: string): ChatState {
    if v == s.value then s
    else if OpensPalette(v) then s.(value := v, showCommandPalette := true, activeSuggestion := MatchingCommand(v))
    else s.(value := v, showCommandPalette := false)
  }

  /** `setMessages(ms)` followed by the suggestions effect. */
  function WithMessages(s: ChatState, ms: seq<Message>): ChatState {
    s.(messages := ms, suggestions := SuggestionsFor(ms, s.suggestions))
  }

  /** Setting the value keeps the invariant. */
  lemma WithValueInv(s: ChatState, v: string)
    requires Inv(s)
    ensures Inv(WithValue(s, v))
    ensures WithValue(s, v).value == v
    ensures WithValue(s, v).messages == s.messages
  {
  }

  /** Replacing the messages keeps the invariant when the welcome stays first. */
  lemma WithMessagesInv(s: ChatState, ms: seq<Message>)
    requires Inv(s) && |ms| > 0 && ms[0] == Welcome
    ensures Inv(WithMessages(s, ms))
  {
  }

  /** `handleSendMessage` run by a closure that saw the input `seenValue` and
      the typing flag `seenTyping`: nothing happens when the seen input is
      blank or the assistant was typing; otherwise the trimmed seen input is
      appended, the input is cleared and the typing flag set. */
  function Sent(s: ChatState, seenValue: string, seenTyping: bool): ChatState {
    if IsBlank(seenValue) || seenTyping then s
    else WithMessages(WithValue(s, ""), s.messages + [UserMessage(Trim(seenValue))]).(isTyping := true)
  }

  /** A send keeps the invariant, and the message it adds is the trimmed input. */
  lemma SentInv(s: ChatState, seenValue: string, seenTyping: bool)
    requires Inv(s)
    ensures Inv(Sent(s, seenValue, seenTyping))
    ensures !IsBlank(seenValue) && !seenTyping ==>
      && Sent(s, seenValue, seenTyping).messages == s.messages + [UserMessage(Trim(seenValue))]
      && Sent(s, seenValue, seenTyping).value == ""
      && Sent(s, seenValue, seenTyping).isTyping
  {
    if !IsBlank(seenValue) && !seenTyping {
      var t := WithValue(s, "");
      WithValueInv(s, "");
      WithMessagesInv(t, s.messages + [UserMessage(Trim(seenValue))]);
    }
  }

  /** The state of the `AnimatedAIChatNew` component. */
  class ChatWidget {
    var value: string
    var uploadedFiles: seq<UploadedFile>
    var isTyping: bool
    var activeSuggestion: int
    var showCommandPalette: bool
    var recentCommand: Option<string>
    var messages: seq<Message>
    var suggestions: seq<string>
    var isProcessingFile: bool

    /** All fields as one value. */
    function State(): ChatState
      reads this
    {
      ChatState(value, uploadedFiles, isTyping, activeSuggestion, showCommandPalette,
                recentCommand, messages, suggestions, isProcessingFile)
    }

    predicate Valid()
      reads this
    {
      Inv(State())
    }

    /** Copies a state into the fields. */
    method Assign(s: ChatState)
      modifies this
      ensures State() == s
    {
      value, uploadedFiles, isTyping := s.value, s.uploadedFiles, s.isTyping;
      activeSuggestion, showCommandPalette, recentCommand := s.activeSuggestion, s.showCommandPalette, s.recentCommand;
      messages, suggestions, isProcessingFile := s.messages, s.suggestions, s.isProcessingFile;
    }

    /** The state after mounting: the welcome message, an empty input, and
        the four default suggestions set by the suggestions effect. */
    constructor ()
      ensures Valid()
      ensures messages == [Welcome] && value == "" && uploadedFiles == []
      ensures !isTyping && !isProcessingFile && !showCommandPalette
      ensures activeSuggestion == -1 && recentCommand == None
      ensures suggestions == DefaultSuggestions
    {
      value := "";
      uploadedFiles := [];
      isTyping := false;
      activeSuggestion := -1;
      showCommandPalette := false;
      recentCommand := None;
      messages := [Welcome];
      suggestions := DefaultSuggestions;
      isProcessingFile := false;
    }

    /** The text area's change handler. */
    method SetValue(v: string)
      requires Valid()
      modifies this
      ensures Valid()
      ensures State() == WithValue(old(State()), v)
    {
      WithValueInv(State(), v);
      Assign(WithValue(State(), v));
    }

    /** The command button: opens or closes the palette. */
    method TogglePalette()
      modifies this
      ensures State() == old(State()).(showCommandPalette := !old(showCommandPalette))
    {
      showCommandPalette := !showCommandPalette;
    }

    /** `selectCommandSuggestion(index)`: the input becomes the command's
        prefix and a space, the palette closes and the command's label is
        shown as the recent command. */
    method SelectCommand(index: nat)
      requires Valid() && index < |Commands|
      modifies this
      ensures Valid()
      ensures State() == WithValue(old(State()), Commands[index].prefix + " ")
                           .(showCommandPalette := false, recentCommand := Some(Commands[index].name))
      ensures !showCommandPalette && !OpensPalette(value)
    {
      var s := State();
      var v := Commands[index].prefix + " ";
      WithValueInv(s, v);
      ChosenCommandClosesPalette(index);
      Assign(WithValue(s, v).(showCommandPalette := false, recentCommand := Some(Commands[index].name)));
    }

    /** The timer that hides the recent-command badge. */
    method ClearRecentCommand()
      modifies this
      ensures State() == old(State()).(recentCommand := None)
    {
      recentCommand := None;
    }

    /** `handleSendMessage` as called from the widget's current render.
        `request` is the text passed on to the completion call. */
    method SendMessage() returns (request: Option<string>)
      requires Valid()
      modifies this
      ensures Valid()
      ensures State() == Sent(old(State()), old(value), old(isTyping))
      ensures request == if IsBlank(old(value)) || old(isTyping) then None else Some(Trim(old(value)))
    {
      request := SendSeen(value, isTyping);
    }

    /** `handleSendMessage` as called from a closure created when the input
        was `seenValue` and the typing flag `seenTyping`. */
    method SendSeen(seenValue: string, seenTyping: bool) returns (request: Option<string>)
      requires Valid()
      modifies this
      ensures Valid()
      ensures State() == Sent(old(State()), seenValue, seenTyping)
      ensures request == if IsBlank(seenValue) || seenTyping then None else Some(Trim(seenValue))
    {
      SentInv(State(), seenValue, seenTyping);
      if IsBlank(seenValue) || seenTyping {
        return None;
      }
      Assign(Sent(State(), seenValue, seenTyping));
      request := Some(Trim(seenValue));
    }

    /** The completion call settles: its text, or the error notice when it
        rejects, is appended as an unread assistant message and the typing
        flag is cleared. The suggestions then follow that message. */
    method ReceiveChatReply(outcome: Outcome<string>)
      requires Valid()
      modifies this
      ensures Valid()
      ensures var text := if outcome.Resolved? then outcome.value else ChatErrorText;
              State() == WithMessages(old(State()), old(messages) + [AiMessage(text)]).(isTyping := false)
      ensures suggestions ==
              SmartSuggestions(if outcome.Resolved? then outcome.value else ChatErrorText)
    {
      var text := if outcome.Resolved? then outcome.value else ChatErrorText;
      WithMessagesInv(State(), messages + [AiMessage(text)]);
      Assign(WithMessages(State(), messages + [AiMessage(text)]).(isTyping := false));
    }

    /** `handleKeyDown`. With the palette open the arrows move the selection
        with wrap-around, Tab or Enter choose the selected command and
        Escape closes the palette; with it closed, Enter without Shift sends
        a non-blank input. */
    method KeyDown(key: Key) returns (request: Option<string>)
      requires Valid()
      modifies this
      ensures Valid()
      ensures old(showCommandPalette) && key == ArrowDown ==>
        State() == old(State()).(activeSuggestion := NextIndex(old(activeSuggestion), |Commands|))
      ensures old(showCommandPalette) && key == ArrowUp ==>
        State() == old(State()).(activeSuggestion := PrevIndex(old(activeSuggestion), |Commands|))
      ensures old(showCommandPalette) && (key == Tab || key.Enter?) && old(activeSuggestion) >= 0 ==>
        var c := Commands[old(activeSuggestion)];
        State() == WithValue(old(State()), c.prefix + " ").(showCommandPalette := false, recentCommand := Some(c.name))
      ensures old(showCommandPalette) && (key == Tab || key.Enter?) && old(activeSuggestion) < 0 ==>
        State() == old(State())
      ensures old(showCommandPalette) && key == Escape ==>
        State() == old(State()).(showCommandPalette := false)
      ensures old(showCommandPalette) && key == OtherKey ==> State() == old(State())
      ensures !old(showCommandPalette) && key == Enter(false) ==>
        State() == Sent(old(State()), old(value), old(isTyping))
      ensures !old(showCommandPalette) && key != Enter(false) ==> State() == old(State())
      ensures old(showCommandPalette) || key != Enter(false) ==> request == None
      ensures !old(showCommandPalette) && key == Enter(false) ==>
        request == if IsBlank(old(value)) || old(isTyping) then None else Some(Trim(old(value)))
    {
      request := None;
      if showCommandPalette {
        match key
        case ArrowDown =>
          activeSuggestion := NextIndex(activeSuggestion, |Commands|);
        case ArrowUp =>
          activeSuggestion := PrevIndex(activeSuggestion, |Commands|);
        case Tab =>
          if activeSuggestion >= 0 {
            SelectCommand(activeSuggestion);
          }
        case Enter(_) =>
          if activeSuggestion >= 0 {
            SelectCommand(activeSuggestion);
          }
        case Escape =>
          showCommandPalette := false;
        case OtherKey =>
      } else if key == Enter(false) {
        if !IsBlank(value) {
          request := SendMessage();
        }
      }
    }

    /** `handleFileUpload`. The file is added to the upload strip and a user
        message announces it. An audio file starts processing: both busy
        flags are set and a processing notice is appended, and the result is
        `true`. Any other file gets an immediate reply naming its kind. */
    method UploadFile(name: string, mime: string, size: string) returns (transcribing: bool)
      requires Valid()
      modifies this
      ensures Valid()
      ensures transcribing <==> Classify(mime) == Audio
      ensures var kind := Classify(mime);
              var announce := Message("I've uploaded " + name, User, Some(Attachment(kind, name)), true, false);
              var s := old(State()).(uploadedFiles := old(uploadedFiles) + [UploadedFile(name, kind, size)]);
              if kind == Audio then
                State() == WithMessages(s, old(messages) + [announce, Message(ProcessingText, Ai, None, false, true)])
                             .(isProcessingFile := true, isTyping := true)
              else
                State() == WithMessages(s, old(messages) + [announce, AiMessage(ReceivedText(kind, name))])
    {
      var kind := Classify(mime);
      var announce := Message("I've uploaded " + name, User, Some(Attachment(kind, name)), true, false);
      var s := State().(uploadedFiles := uploadedFiles + [UploadedFile(name, kind, size)]);
      if kind == Audio {
        var ms := messages + [announce, Message(ProcessingText, Ai, None, false, true)];
        WithMessagesInv(s, ms);
        Assign(WithMessages(s, ms).(isProcessingFile := true, isTyping := true));
        transcribing := true;
      } else {
        var ms := messages + [announce, AiMessage(ReceivedText(kind, name))];
        WithMessagesInv(s, ms);
        Assign(WithMessages(s, ms));
        transcribing := false;
      }
    }

    /** The transcription and summary calls settle: the processing notices
        are removed, the report (or the error notice when either call
        rejects) is appended, and both busy flags are cleared. */
    method FinishAudioProcessing(outcome: Outcome<MeetingSummary>)
      requires Valid()
      modifies this
      ensures Valid()
      ensures var text := if outcome.Resolved? then Report(outcome.value) else AudioErrorText;
              State() == WithMessages(old(State()), RemoveProcessing(old(messages)) + [AiMessage(text)])
                           .(isProcessingFile := false, isTyping := false)
      ensures forall m :: m in messages ==> m in old(messages) || m == messages[|messages| - 1]
      ensures forall i :: 0 <= i < |messages| - 1 ==> !messages[i].isProcessing
    {
      var text := if outcome.Resolved? then Report(outcome.value) else AudioErrorText;
      var ms := RemoveProcessing(messages) + [AiMessage(text)];
      assert RemoveProcessing(messages)[0] == Welcome;
      assert forall i :: 0 <= i < |ms| - 1 ==> ms[i] in RemoveProcessing(messages);
      WithMessagesInv(State(), ms);
      Assign(WithMessages(State(), ms).(isProcessingFile := false, isTyping := false));
    }

    /** `removeUploadedFile(index)`. */
    method RemoveUploadedFile(index: int)
      modifies this
      ensures State() == old(State()).(uploadedFiles := RemoveAt(old(uploadedFiles), index))
      ensures 0 <= index < |old(uploadedFiles)| ==>
        uploadedFiles == old(uploadedFiles)[..index] + old(uploadedFiles)[index + 1..]
      ensures !(0 <= index < |old(uploadedFiles)|) ==> uploadedFiles == old(uploadedFiles)
    {
      uploadedFiles := RemoveAt(uploadedFiles, index);
    }

    /** `handleSuggestionClick` as written: the suggestion is put into the
        input, and 100 ms later the send handler runs, but the handler is the
        one of the render in which the click happened, so it checks and
        sends the input as it was before the click. */
    method ClickSuggestionAsWritten(suggestion: string) returns (request: Option<string>)
      requires Valid()
      modifies this
      ensures Valid()
      ensures State() == Sent(WithValue(old(State()), suggestion), old(value), old(isTyping))
      ensures request == if IsBlank(old(value)) || old(isTyping) then None else Some(Trim(old(value)))
    {
      var seenValue, seenTyping := value, isTyping;
      SetValue(suggestion);
      request := SendSeen(seenValue, seenTyping);
    }

    /** `handleSuggestionClick` with the send reading the input after the
        click: the clicked suggestion is what gets sent. */
    method ClickSuggestion(suggestion: string) returns (request: Option<string>)
      requires Valid()
      modifies this
      ensures Valid()
      ensures State() == Sent(WithValue(old(State()), suggestion), suggestion, old(isTyping))
      ensures request == if IsBlank(suggestion) || old(isTyping) then None else Some(Trim(suggestion))
    {
      SetValue(suggestion);
      ghost var clicked := State();
      assert clicked.value == suggestion && clicked.isTyping == old(isTyping);
      request := SendMessage();
    }

    /** The suggestions on screen. The welcome screen, shown while there is
        at most one message and the assistant is not typing, has no
        suggestion strip; the chat view hides it while the assistant is
        typing and otherwise shows the first four. */
    function ShownSuggestions(): (r: seq<string>)
      reads this
      ensures isTyping ==> r == []
      ensures |messages| <= 1 ==> r == []
      ensures !isTyping && |messages| > 1 && Valid() ==> r == suggestions
    {
      if isTyping || |messages| <= 1 || |suggestions| == 0 then []
      else suggestions[..if |suggestions| < 4 then |suggestions| else 4]
    }
  }

  /** After an image upload the assistant's reply brings up the audio-upload
      suggestions, "Extract action items" among them. Clicking it sends
      nothing and leaves the suggestion in the input, because the send
      handler still sees the empty input of the render before the click. */
  method StaleSuggestionExample() returns (shown: seq<string>, request: Option<string>, input: string)
    ensures "Extract action items" in shown
    ensures request == None && input == "Extract action items"
  {
    var w := new ChatWidget();
    var name, mime := "notes.png", "image/png";
    ImageMime(mime);
    var transcribing := w.UploadFile(name, mime, "0.1 MB");
    ReceivedTextSuggestsUpload(Image, name);
    shown := w.ShownSuggestions();
    assert shown[1] == "Extract action items";
    request := w.ClickSuggestionAsWritten(shown[1]);
    input := w.value;
  }

  /** "image/png" is classified as an image. */
  lemma ImageMime(mime: string)
    requires mime == "image/png"
    ensures Classify(mime) == Image
  {
    MismatchNotPrefix(mime, "audio/", 0);
    assert mime[..6] == "image/";
  }

  /** The suggestion text has no surrounding white space. */
  lemma TrimmedSuggestion(s: string)
    requires s == "Extract action items"
    ensures !IsBlank(s) && Trim(s) == s
  {
    assert !IsSpace(s[0]) && !IsSpace(s[|s| - 1]);
    assert TrimStart(s) == s;
  }

  /** With the corrected click handler the same click, on any widget with an
      empty input that is not waiting for a reply, sends the suggestion and
      clears the input. */
  method SuggestionClickExample(w: ChatWidget, suggestion: string) returns (request: Option<string>)
    requires w.Valid() && w.value == "" && !w.isTyping
    requires suggestion == "Extract action items"
    modifies w
    ensures request == Some(suggestion) && w.value == ""
    ensures w.messages == old(w.messages) + [UserMessage(suggestion)]
  {
    TrimmedSuggestion(suggestion);
    ghost var before := w.State();
    WithValueInv(before, suggestion);
    SentInv(WithValue(before, suggestion), suggestion, false);
    request := w.ClickSuggestion(suggestion);
  }
}
