# Daisy chat widgets: a Dafny model

Daisy is a front end for an AI meeting assistant. This project models the logic inside its chat and settings components.

- **Mocked assistant (`AnimatedAIChat`).** It picks a canned reply by testing keyword groups, in a fixed order, against the lower-cased message. Around that selector sits the message list, with its send handler and its delayed reply.
- **Live chat widget (`AnimatedAIChatNew`).**
  - Contextual suggestions that follow the last assistant message.
  - A slash-command palette with prefix matching and a wrap-around selection index.
  - File uploads: kind by MIME prefix, removal by index, and a processing notice that the transcription result replaces.
  - The send guard.
  - The click on a suggestion.
- **Settings page and agent configuration panel.** Both hold the same integration catalog, which one switch at a time connects. Both also hold the same agent settings record, with one switch per field.
- **Assistant launcher (`AIAssistantInterfaceV2`).**
  - Feature toggles.
  - A simulated upload.
  - Removal of files by id.
  - Command categories that open and close.
  - A processing flag that a timer clears.

## Modelling

- **Form of the model.** Pure selectors become functions. Each component becomes a class whose fields are its React state. Each handler becomes a method that reassigns those fields.
- **React effects.** An effect runs as part of the method that changes its dependency. The suggestions effect runs whenever the message list is replaced. The palette effect runs only when the input value really changes.
- **Timers and asynchronous calls.** A timer callback, or the code after an `await`, is a separate method that the environment calls later. The one exception is the 100 ms timer of a suggestion click: `LiveChat.ChatWidget.ClickSuggestionAsWritten` and `LiveChat.ChatWidget.ClickSuggestion` run the click and the delayed send as one step.
- **Outside calls.** The completion, transcription and summary calls are outside the model. They arrive as an `Outcome` that either resolves with a value or rejects.
- **Randomness.** `Math.random()` draws are index parameters: `pick` for the default reply, `typePick` and `namePick` for the simulated upload.
- **Files.**
  - `common.dfy`: shared value types.
  - `text.dfy`: the JavaScript string operations the code uses.
  - `keywords.dfy`: the ordered keyword-group table that both selectors share.
  - `canned_reply.dfy`, `live_chat.dfy`, `integrations.dfy`, `settings_page.dfy`, `agent_config.dfy` and `launcher.dfy`: one per component, apart from `integrations.dfy`, which holds the logic both settings components share.

## Model

| member | source | states |
|---|---|---|
| Text.LowerChar | src/components/ui/animated-ai-chat.tsx:71 | 'A'..'Z' map onto 'a'..'z' in order; every other character is unchanged; no capital remains |
| Text.Lower | src/components/ui/animated-ai-chat.tsx:71 | `toLowerCase` keeps the length and lower-cases each character in place |
| Text.LowerIdempotent | src/components/ui/animated-ai-chat.tsx:71 | lower-casing an already lower-cased message changes nothing |
| Text.LowerAppend | src/components/ui/animated-ai-chat-new.tsx:219 | lower-casing distributes over concatenation |
| Text.MismatchNotPrefix | src/components/ui/animated-ai-chat-new.tsx:289-291 | a string that differs from `p` at one of `p`'s positions does not start with `p` |
| Text.IncludesAt | src/components/ui/animated-ai-chat.tsx:74 | `includes(k)` holds whenever `k` occurs at some offset |
| Text.IncludesWitness | src/components/ui/animated-ai-chat.tsx:74 | conversely, when `includes(k)` holds there is an offset at which `k` occurs |
| Text.IncludesAfterPrefix | src/components/ui/animated-ai-chat.tsx:74 | text put before a string does not undo an `includes(k)` |
| Text.MissingCharExcludes | src/components/ui/animated-ai-chat.tsx:74-121 | `includes(k)` fails when one of `k`'s characters does not occur in the text |
| Text.TrimStart | src/components/ui/animated-ai-chat.tsx:159 | the result is a suffix of the input; only white space was cut; the result does not start with white space |
| Text.TrimEnd | src/components/ui/animated-ai-chat.tsx:159 | the result is a prefix of the input; only white space was cut; the result does not end with white space |
| Text.Trim | src/components/ui/animated-ai-chat.tsx:159 | `trim()` never lengthens the text and leaves no white space at either end |
| Text.TrimSlice | src/components/ui/animated-ai-chat.tsx:159-163 | the trimmed text is a contiguous slice of the input with only white space outside it |
| Text.BlankIffAllSpace | src/components/ui/animated-ai-chat.tsx:159 | the send guard `!value.trim()` holds exactly for all-white-space input, the empty input included |
| Text.TrimIdempotent | src/components/ui/animated-ai-chat.tsx:163 | trimming the stored trimmed content again changes nothing |
| Keywords.MentionsIff | src/components/ui/animated-ai-chat.tsx:74 | an `includes(..) \|\| includes(..)` chain holds exactly when one of its keywords occurs |
| Keywords.FirstMatch | src/components/ui/animated-ai-chat.tsx:74-121 | the chosen group fires and no earlier group does; no group is chosen exactly when none fires |
| Keywords.FirstMatchIff | src/components/ui/animated-ai-chat.tsx:74-121 | group `k` is chosen if and only if it fires and every earlier group does not |
| CannedReply.TopicOf | src/components/ui/animated-ai-chat.tsx:70-121 | a topic is found exactly when some keyword group fires on the lower-cased message |
| CannedReply.Reply | src/components/ui/animated-ai-chat.tsx:70-131 | `getAIResponse`: the fixed reply of the topic found, else the default picked by `pick` |
| CannedReply.ReplyNonEmpty | src/components/ui/animated-ai-chat.tsx:70-131 | the reply is never the empty string |
| CannedReply.ReplyTextNonEmpty | src/components/ui/animated-ai-chat.tsx:74-121 | each topic's fixed reply is non-empty |
| CannedReply.DefaultNonEmpty | src/components/ui/animated-ai-chat.tsx:124-130 | each default reply is non-empty |
| CannedReply.ReplyIgnoresCase | src/components/ui/animated-ai-chat.tsx:71 | a message and its lower-case form get the same reply |
| CannedReply.GreetingWins | src/components/ui/animated-ai-chat.tsx:74-76 | a message mentioning "hello", "hi" or "hey" gets the greeting, whatever else it says |
| CannedReply.ThisIsAGreeting | src/components/ui/animated-ai-chat.tsx:74-76 | "Is this FREE?" gets the greeting rather than the pricing reply, because "this" contains "hi" |
| CannedReply.RuleIndex | src/components/ui/animated-ai-chat.tsx:74-121 | each topic has a keyword group answering it |
| CannedReply.RuleIndexOfAnswer | src/components/ui/animated-ai-chat.tsx:74-121 | no two keyword groups answer the same topic |
| CannedReply.TopicPriority | src/components/ui/animated-ai-chat.tsx:74-121 | a topic is chosen if and only if its group fires and no earlier group does |
| CannedReply.DefaultWhenNoKeyword | src/components/ui/animated-ai-chat.tsx:124-130 | with no keyword present the reply is the picked default, one of the three defaults |
| CannedReply.SummaryOutranksActionItems | src/components/ui/animated-ai-chat.tsx:84-91 | "meeting action items" in any case mix gets the summary topic and its reply, not the action-item reply |
| CannedReply.MeetingActionItemsFires | src/components/ui/animated-ai-chat.tsx:74-91 | on that text the summary and action groups fire and the greeting and audio groups do not |
| CannedReply.MockChat.constructor | src/components/ui/animated-ai-chat.tsx:134-143 | the conversation starts with the welcome message, an empty input and no typing indicator |
| CannedReply.MockChat.SetInput | src/components/ui/animated-ai-chat.tsx:313 | typing replaces the input and nothing else |
| CannedReply.MockChat.QuickAction | src/components/ui/animated-ai-chat.tsx:200-205 | a quick action puts its fixed prompt into the input |
| CannedReply.MockChat.SendMessage | src/components/ui/animated-ai-chat.tsx:158-171 | blank input changes nothing; otherwise exactly one user message with the trimmed input is appended, the input is cleared and typing is set |
| CannedReply.MockChat.DeliverReply | src/components/ui/animated-ai-chat.tsx:174-186 | the timer appends exactly one assistant message, the reply to the sent content, and clears typing |
| LiveChat.Classify | src/components/ui/animated-ai-chat-new.tsx:337-338 | 'audio' exactly for an `audio/` MIME prefix, 'image' for `image/` otherwise, 'document' for the rest |
| LiveChat.ActionLine | src/components/ui/animated-ai-chat-new.tsx:387 | the title, then ` (assignee)` exactly when the assignee is truthy, then ` - Due: date` exactly when the due date is truthy; each of the four cases stated |
| LiveChat.Bullets | src/components/ui/animated-ai-chat-new.tsx:387 | a bullet list is empty exactly for no items and starts with the first item's bullet |
| LiveChat.BulletsMention | src/components/ui/animated-ai-chat-new.tsx:387 | every item appears in the joined list behind its bullet |
| LiveChat.ActionLines | src/components/ui/animated-ai-chat-new.tsx:387 | one line per action item, in order |
| LiveChat.Report | src/components/ui/animated-ai-chat-new.tsx:387 | the transcription report starts with its header, directly followed by the summary text |
| LiveChat.HintSuggestions | src/components/ui/animated-ai-chat-new.tsx:221-250 | each keyword group offers three suggestions |
| LiveChat.HintOf | src/components/ui/animated-ai-chat-new.tsx:219-250 | a group is found exactly when one of the four keyword groups fires on the lower-cased message |
| LiveChat.SmartSuggestions | src/components/ui/animated-ai-chat-new.tsx:218-259 | `getSmartSuggestions`: the found group's three suggestions, else the four defaults; never more than the four shown |
| LiveChat.HintIndex | src/components/ui/animated-ai-chat-new.tsx:221-250 | each suggestion group has a keyword group answering it |
| LiveChat.HintIndexOfAnswer | src/components/ui/animated-ai-chat-new.tsx:221-250 | no two keyword groups answer the same suggestion group |
| LiveChat.HintPriority | src/components/ui/animated-ai-chat-new.tsx:221-250 | a group's suggestions are chosen if and only if it fires and no earlier group does |
| LiveChat.ReceivedTextSuggestsUpload | src/components/ui/animated-ai-chat-new.tsx:417 | the reply to an image or document upload mentions audio, so the audio-upload suggestions follow it |
| LiveChat.LastAiIndex | src/components/ui/animated-ai-chat-new.tsx:271 | `filter(ai).pop()`: the last assistant message, with none after it; none exactly when there is no assistant message |
| LiveChat.SuggestionsFor | src/components/ui/animated-ai-chat-new.tsx:269-283 | at most one message gives the defaults; otherwise the last assistant message anywhere in the list decides, whatever user messages follow it; without any assistant message the suggestions stay; three or four suggestions are kept |
| LiveChat.UserMessageKeepsSuggestions | src/components/ui/animated-ai-chat-new.tsx:269-283 | appending a user message leaves the suggestions as they were |
| LiveChat.FindCommand | src/components/ui/animated-ai-chat-new.tsx:289-291 | `findIndex`: the first command whose prefix starts with the value, or -1 exactly when none does |
| LiveChat.SlashSelectsUpload | src/components/ui/animated-ai-chat-new.tsx:285-296 | "/" selects the first command |
| LiveChat.SlashTSelectsTranscribe | src/components/ui/animated-ai-chat-new.tsx:285-296 | "/t" selects "/transcribe" |
| LiveChat.SlashIntSelectsIntegrations | src/components/ui/animated-ai-chat-new.tsx:285-296 | "/int" selects "/integrations" |
| LiveChat.SlashXSelectsNothing | src/components/ui/animated-ai-chat-new.tsx:285-296 | "/x" selects nothing (-1) |
| LiveChat.ChosenCommandClosesPalette | src/components/ui/animated-ai-chat-new.tsx:441-444 | a chosen command's text ends in a space, so it never reopens the palette |
| LiveChat.NextIndex | src/components/ui/animated-ai-chat-new.tsx:429-433 | ArrowDown from any index from -1 up stays in range; it is the cyclic successor; from -1 it goes to 0 |
| LiveChat.PrevIndex | src/components/ui/animated-ai-chat-new.tsx:434-438 | ArrowUp stays in range; it is the cyclic predecessor; from -1 it goes to the last command |
| LiveChat.StepsInverse | src/components/ui/animated-ai-chat-new.tsx:429-438 | ArrowUp undoes ArrowDown and ArrowDown undoes ArrowUp |
| LiveChat.DownPressesWalk | src/components/ui/animated-ai-chat-new.tsx:429-434 | up to `count` ArrowDown presses walk forward and wrap once |
| LiveChat.DownPressesCycle | src/components/ui/animated-ai-chat-new.tsx:429-434 | one ArrowDown press per command comes back to the start |
| LiveChat.RemoveAt | src/components/ui/animated-ai-chat-new.tsx:522-524 | removes exactly the element at the index, keeping the rest in order; an out-of-range index changes nothing |
| LiveChat.RemoveProcessing | src/components/ui/animated-ai-chat-new.tsx:383 | keeps exactly the messages that are not processing notices, and a leading non-notice stays first |
| LiveChat.RemoveProcessingAppend | src/components/ui/animated-ai-chat-new.tsx:383 | the filter keeps order: it works on the parts of a concatenation separately |
| LiveChat.RemoveProcessingNone | src/components/ui/animated-ai-chat-new.tsx:383 | a list without processing notices is left unchanged |
| LiveChat.WithValueInv | src/components/ui/animated-ai-chat-new.tsx:285-301 | the palette effect keeps the selection index in range |
| LiveChat.WithMessagesInv | src/components/ui/animated-ai-chat-new.tsx:269-283 | the suggestions effect keeps three or four suggestions |
| LiveChat.SentInv | src/components/ui/animated-ai-chat-new.tsx:461-473 | a send appends the trimmed input as one user message, clears the input and sets typing |
| LiveChat.ChatWidget.constructor | src/components/ui/animated-ai-chat-new.tsx:159-181 | the initial state, after the mount effects: the welcome message, the four default suggestions, palette closed, index -1 |
| LiveChat.ChatWidget.SetValue | src/components/ui/animated-ai-chat-new.tsx:668 | the palette opens exactly for a value starting with '/' without a space, selecting the first matching command |
| LiveChat.ChatWidget.TogglePalette | src/components/ui/animated-ai-chat-new.tsx:748 | the command button flips the palette and nothing else |
| LiveChat.ChatWidget.SelectCommand | src/components/ui/animated-ai-chat-new.tsx:526-533 | the input becomes the prefix plus a space, the palette closes and the label becomes the recent command |
| LiveChat.ChatWidget.ClearRecentCommand | src/components/ui/animated-ai-chat-new.tsx:532 | the badge timer clears the recent command |
| LiveChat.ChatWidget.SendMessage | src/components/ui/animated-ai-chat-new.tsx:461-475 | no-op when the input is blank or the assistant is typing; otherwise one user message with the trimmed input, the input cleared, typing set |
| LiveChat.ChatWidget.SendSeen | src/components/ui/animated-ai-chat-new.tsx:461-475 | the same send, checking the input and typing flag that its closure saw |
| LiveChat.ChatWidget.ReceiveChatReply | src/components/ui/animated-ai-chat-new.tsx:479-504 | the answer, or the error notice on rejection, is appended unread; typing clears; suggestions follow that message |
| LiveChat.ChatWidget.KeyDown | src/components/ui/animated-ai-chat-new.tsx:427-459 | arrows step with wrap-around; Tab/Enter choose the selected command; Escape closes; with the palette closed, Enter without Shift sends the trimmed input unless it is blank or the assistant is typing, and the request is exactly that text |
| LiveChat.ChatWidget.UploadFile | src/components/ui/animated-ai-chat-new.tsx:332-420 | one descriptor and one announcement are appended; audio starts processing with a notice; other kinds get an immediate reply |
| LiveChat.ChatWidget.FinishAudioProcessing | src/components/ui/animated-ai-chat-new.tsx:380-412 | the processing notices go, the report (or error notice) is appended and both busy flags clear |
| LiveChat.ChatWidget.RemoveUploadedFile | src/components/ui/animated-ai-chat-new.tsx:522-524 | exactly the file at the index goes; an out-of-range index changes nothing |
| LiveChat.ChatWidget.ClickSuggestionAsWritten | src/components/ui/animated-ai-chat-new.tsx:535-541 | the click fills the input, but the delayed send checks and sends the input as it was before the click |
| LiveChat.ChatWidget.ClickSuggestion | src/components/ui/animated-ai-chat-new.tsx:535-541 | corrected: the clicked suggestion itself is sent (when not blank and the assistant is not typing) |
| LiveChat.ChatWidget.ShownSuggestions | src/components/ui/animated-ai-chat-new.tsx:574-577 | none on the welcome screen (at most one message, not typing), which has no suggestion strip, and none while typing; otherwise the chat view's strip (lines 956-964) shows all of them, since there are never more than four |
| LiveChat.StaleSuggestionExample | src/components/ui/animated-ai-chat-new.tsx:535-541 | after an image upload, "Extract action items" is among the suggestions shown; clicking it sends nothing and leaves it in the input |
| LiveChat.TrimmedSuggestion | src/components/ui/animated-ai-chat-new.tsx:225 | the suggestion "Extract action items" is not blank and is its own trim |
| LiveChat.SuggestionClickExample | src/components/ui/animated-ai-chat-new.tsx:535-541 | with the corrected handler the same click sends the suggestion and clears the input |
| Integrations.InitialConnections | src/app/settings/page.tsx:66-71 | the catalog in order, with `connected` set exactly on "google-calendar" |
| Integrations.CatalogIdsUnique | src/app/settings/page.tsx:21-54 | the catalog's ids are distinct |
| Integrations.OnlyCalendarConnected | src/app/settings/page.tsx:66-71 | initially exactly the first entry, "google-calendar", is connected |
| Integrations.Toggled | src/app/settings/page.tsx:73-81 | same length and order; all other fields kept; `connected` flips exactly on entries with that id |
| Integrations.ToggledEntry | src/app/settings/page.tsx:75-79 | each entry of the result is the original entry flipped |
| Integrations.ToggleTwice | src/app/settings/page.tsx:73-81 | toggling the same id twice restores the list |
| Integrations.ToggleAbsent | src/app/settings/page.tsx:73-81 | toggling an absent id changes nothing |
| Integrations.ToggleCommutes | src/components/agent-config.tsx:81-89 | toggles of two ids commute |
| Integrations.ToggleOneEntry | src/components/agent-config.tsx:81-89 | with distinct ids, only the entry with that id changes |
| Integrations.ConnectTurnsOn | src/app/settings/page.tsx:312-324 | Connect, shown only on unconnected cards, only turns `connected` on, and no other card changes |
| Integrations.ToggleKeepsUniqueIds | src/app/settings/page.tsx:73-81 | toggling keeps the ids distinct |
| Integrations.WithSwitch | src/app/settings/page.tsx:177-227 | a switch sets its own field to the checked value and changes no other field |
| Integrations.SettingsExtensional | src/app/settings/page.tsx:58-64 | a settings record is determined by its four switches and `voiceResponses` |
| Integrations.SwitchToSameValue | src/app/settings/page.tsx:177-227 | setting a switch to its shown value changes nothing |
| Integrations.SwitchesCommute | src/components/agent-config.tsx:136-186 | changes to different switches commute |
| Integrations.SwitchLastWins | src/components/agent-config.tsx:136-186 | the last change to a switch is the one that counts |
| SettingsPage.Settings.constructor | src/app/settings/page.tsx:57-71 | agent tab, default settings, only Google Calendar connected |
| SettingsPage.Settings.SelectTab | src/app/settings/page.tsx:117 | a tab button changes only the active tab |
| SettingsPage.Settings.SetSwitch | src/app/settings/page.tsx:177-227 | a switch changes only its own field |
| SettingsPage.Settings.ToggleIntegration | src/app/settings/page.tsx:73-81 | the list becomes the toggled list and the ids stay distinct |
| SettingsPage.Settings.Connect | src/app/settings/page.tsx:312-324 | the card becomes connected and no other card changes |
| AgentConfig.AgentConfigPanel.constructor | src/components/agent-config.tsx:66-79 | default settings, only Google Calendar connected |
| AgentConfig.AgentConfigPanel.SetSwitch | src/components/agent-config.tsx:136-186 | a switch changes only its own field |
| AgentConfig.AgentConfigPanel.ToggleIntegration | src/components/agent-config.tsx:81-89 | the list becomes the toggled list and the ids stay distinct |
| AgentConfig.AgentConfigPanel.Connect | src/components/agent-config.tsx:267-279 | the card becomes connected and no other card changes |
| Launcher.SimulatedFile | src/components/ui/ai-assistant-interface-v2.tsx:73-91 | the file has one of the five sample names and the picked type; its size is '12.5 MB' exactly for audio and '2.1 MB' exactly for documents |
| Launcher.RemoveById | src/components/ui/ai-assistant-interface-v2.tsx:96-98 | keeps exactly the files whose id differs |
| Launcher.RemoveByIdAppend | src/components/ui/ai-assistant-interface-v2.tsx:96-98 | the remaining files keep their order |
| Launcher.RemoveByIdAbsent | src/components/ui/ai-assistant-interface-v2.tsx:96-98 | removing an absent id changes nothing |
| Launcher.RemoveByIdTwice | src/components/ui/ai-assistant-interface-v2.tsx:96-98 | removing twice is removing once |
| Launcher.ClickedCategory | src/components/ui/ai-assistant-interface-v2.tsx:344-371 | a card closes the list exactly when it is the open one, and otherwise opens itself |
| Launcher.ClickTwice | src/components/ui/ai-assistant-interface-v2.tsx:344-371 | clicking a card that is not open twice leaves no card open |
| Launcher.FlipFeature | src/components/ui/ai-assistant-interface-v2.tsx:233-250 | a feature button flips its own flag and changes nothing else |
| Launcher.FlipFeatureTwice | src/components/ui/ai-assistant-interface-v2.tsx:233-250 | two clicks restore the state |
| Launcher.AssistantLauncher.constructor | src/components/ui/ai-assistant-interface-v2.tsx:33-40 | everything empty or off |
| Launcher.AssistantLauncher.SetInput | src/components/ui/ai-assistant-interface-v2.tsx:185 | typing changes only the prompt |
| Launcher.AssistantLauncher.ToggleFeature | src/components/ui/ai-assistant-interface-v2.tsx:233-250 | the new state is the old one with that feature flipped |
| Launcher.AssistantLauncher.StartUpload | src/components/ui/ai-assistant-interface-v2.tsx:67-69 | the upload animation shows |
| Launcher.AssistantLauncher.FinishUpload | src/components/ui/ai-assistant-interface-v2.tsx:71-93 | exactly one simulated file is appended and the animation hides |
| Launcher.AssistantLauncher.RemoveFile | src/components/ui/ai-assistant-interface-v2.tsx:96-98 | every file with that id goes and the others stay |
| Launcher.AssistantLauncher.ClickCategory | src/components/ui/ai-assistant-interface-v2.tsx:344-371 | no category is open afterwards exactly when the clicked one was open |
| Launcher.AssistantLauncher.SelectCommand | src/components/ui/ai-assistant-interface-v2.tsx:100-103 | the prompt becomes the command and the category closes |
| Launcher.AssistantLauncher.SendMessage | src/components/ui/ai-assistant-interface-v2.tsx:109-113 | processing starts exactly when the prompt is not blank; otherwise nothing changes |
| Launcher.AssistantLauncher.FinishProcessing | src/components/ui/ai-assistant-interface-v2.tsx:115-118 | the timer clears the processing flag and the prompt |

## Left out

- Lower-casing maps only the ASCII capitals. JavaScript's `toLowerCase` maps every Unicode capital. All keywords are ASCII, but a non-ASCII capital in a message could in principle lower-case to an ASCII letter that the model leaves alone.
- The size label of an uploaded file, `(size / 1024 / 1024).toFixed(1) + " MB"`, is floating-point formatting. It is passed in as a string.
- Message and file ids and timestamps come from `Date.now()` and `new Date()`. They are not modelled; the launcher's file id is a parameter, so ids may repeat. Display formatting of times and dates is left out too.
- Timers are separate methods. The model does not order them against other events. For example, the recent-command badge timer clears the badge even when a newer command has set it.
- The random thinking delay of the mocked assistant is left out.
- The OpenAI adapter (`src/lib/openai.ts`) is not part of this model. Its results are `Outcome` parameters. Of its three calls, `processChat` returns fallback text instead of throwing, so the chat reply's rejection path is not reached in practice. `transcribeAudio` and `generateSummary` do throw, for instance when no API key is set, so the rejection path of `LiveChat.ChatWidget.FinishAudioProcessing` is real behaviour.
- Rendering, scrolling, textarea auto-resize, mouse tracking, closing the palette on an outside click, focus handling and animation are left out.
- `voiceResponses` has no switch in either settings component. The model keeps the field, and no method changes it.
- The launcher's suggestion list is data only. Its headings and icons are presentation.
- CannedReply.ReplyTextNonEmpty is stated for one topic at a time; a single proof over all ten reply texts is beyond the solver's resource limit.
- LiveChat.Report states only the header and the summary text. It does not describe the positions of the key-point, decision and action-item lists.

## Findings

| source | as written | input that shows it | evidently intended | confidence | as-written member | corrected member |
|---|---|---|---|---|---|---|
| src/components/ui/animated-ai-chat-new.tsx:535-541 | `handleSuggestionClick` sets the input and then, after 100 ms, calls the `handleSendMessage` of the render in which the click happened. That closure still sees the input and typing flag from before the click. | A fresh widget; upload an image ("notes.png", MIME "image/png"). The reply brings up the audio-upload suggestions, the input is empty. Click "Extract action items": nothing is sent, and the suggestion stays in the input. | The clicked suggestion is sent, and the input is cleared. | high; not executed | LiveChat.ChatWidget.ClickSuggestionAsWritten (example: LiveChat.StaleSuggestionExample) | LiveChat.ChatWidget.ClickSuggestion (example: LiveChat.SuggestionClickExample) |
