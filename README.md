# echochat core, modelled in Dafny

echochat is a single-page chat app. It keeps a list of contacts, each holding a
conversation. It infers the user's communication style with each contact and
drafts replies in that style. The drafts come from an external text-generation
service, or from fixed mock answers in demo mode. This project models the
app's core and proves properties of it:

- the app component (`App.tsx`): the contact list and selection, sending and
  receiving messages, starting and completing an analysis or a draft, and the
  transcript importer;
- the service layer (`services/geminiService.ts`): the demo-mode profiles and
  replies, the decision structure of the two service calls, and the ten-message
  history window;
- the chat screen's local state machine (`components/ChatInterface.tsx`);
- the data types (`types.ts`).

Files and modules:

| file | module | contents |
|---|---|---|
| `types.dfy` | `Types` | `Sender`, `Message`, `CommunicationStyle`/`AnalysisResponse`, `Contact`, optional fields as `Option` |
| `js_strings.dfy` | `JsStrings` | the JavaScript string built-ins the core uses: `trim`, ASCII `toLowerCase`, `includes`, `startsWith`, `indexOf`, `substring`, `split`, `join`, decimal rendering |
| `gemini_service.dfy` | `GeminiService` | mock analysis and mock reply, `analyzeContactStyle`, `generateContextualReply`, the history window |
| `contact_store.dfy` | `ContactStore` | lookup by id, the selected-contact fallback, and the map-by-id updaters |
| `transcript.dfy` | `Transcript` | the line classifier and the parsing loop of `processImport` |
| `app.dfy` | `App` | class `AppState`: the app component's state and handlers |
| `chat_interface.dfy` | `ChatScreen` | class `ChatInterface`: the chat screen's five state fields and its handlers and effects |

Modelling conventions:

- The external service is a function parameter. `analyzeContactStyle` receives
  `(name, own text) -> Option<AnalysisResponse>`. `None` stands for any failed
  call: a network or quota error, a missing text or a text that does not parse.
  `generateContextualReply` receives `ReplyPrompt -> Outcome<string>`, and a
  response without text is `Success("")`.
- Whether an API key is configured is a boolean parameter, `clientConfigured`.
- Each asynchronous handler of the app component is split at its `await`:
  - `HandleAnalyze`/`HandleGenerateDraft` perform the synchronous part and
    return the request they hand to the service;
  - `CompleteAnalyze`/`CompleteGenerateDraft` apply the settled outcome to the
    contact the request came from.
- Clock readings (`Date.now()`, the ISO timestamp) are parameters; the transcript parser takes one reading per line, as functions of the line position.
- A callback prop the chat screen invokes is an out-parameter that carries the
  argument, or `None` when the callback is not invoked.

Behaviour of the code that the proofs make explicit:

- The professional test comes before the family test, so a name with both
  markers gets formality 85 / warmth 30 (`ProfessionalMarkerWins`;
  "Boss Mom" is one such name, `BossMomIsProfessional`). A family
  marker alone therefore does not guarantee a warm profile.
- The `mrs` test never changes the outcome, because every name containing
  `mrs` contains `mr` (`MrsMarkerIsRedundant`).
- The neutral profile is returned when the joined own-message text is the
  empty string, which is not the same as having no own messages:
  - with no client, demo mode returns the mock profile even for a contact with
    no own messages (`NoSelfMessagesNeverReachesService`);
  - two own messages with empty text join to `"\n"` and do reach the service
    (`TwoEmptyOwnMessagesReachService`).
- `handleAnalyze` has no in-flight guard and `handleGenerateDraft` does not
  check for a generation already running. The model adds neither
  (`AnalyzeTwice`, `AppState.HandleGenerateDraft`).
- Sending targets the contact holding the selected id. When no contact holds
  it, the screen shows the first contact but the update touches nobody
  (`UpdateUnknownIdIsNoOp`, `Selected`).
- A reply is written to the contact selected when the draft was requested,
  not the one selected when it arrives (`CompleteGenerateDraft`).
- The chat screen's Discard only hides the confirmation; the draft stays with
  the contact. The confirmation effect is keyed on the draft's value, so a new
  draft with the same text (likely in demo mode, which has seven fixed replies)
  does not show the modal again; only a different draft does
  (`DiscardThenSameDraft`).

## Model

| member | source | states |
|---|---|---|
| `Types.SenderValuesDistinct` | types.ts:1-4 | the two senders have distinct run-time strings, `'me'` and `'them'` |
| `JsStrings.TrimStartSpec` | App.tsx:124 | leading-trim drops only whitespace and keeps a suffix that does not start with whitespace |
| `JsStrings.TrimEndSpec` | App.tsx:124 | trailing-trim drops only whitespace and keeps a prefix that does not end with whitespace |
| `JsStrings.TrimIsInfix` | App.tsx:141 | `trim` returns the infix left after cutting the whitespace runs at both ends, and that infix is itself trimmed |
| `JsStrings.IsTrimOf` | services/geminiService.ts:178 | no contract of its own; a trimmed infix with only whitespace before and after it, stated by `TrimIsTrimOf` and `IsTrimOfUnique` |
| `JsStrings.TrimIsTrimOf` | services/geminiService.ts:178 | what `trim` returns is a trimmed infix of its argument with only whitespace around it |
| `JsStrings.IsTrimOfUnique` | services/geminiService.ts:178 | a string has only one trimmed infix with only whitespace around it, so that relation determines `trim` |
| `JsStrings.CoresAgree` | services/geminiService.ts:178 | two trimmed, whitespace-surrounded infixes of one string are equal, wherever each is placed |
| `JsStrings.TrimIsTrimmed` | services/geminiService.ts:178 | what `trim` returns neither starts nor ends with whitespace |
| `JsStrings.BlankIffAllWhitespace` | App.tsx:132 | `!s.trim()` holds exactly when `s` is whitespace only |
| `JsStrings.TrimOfTrimmed` | App.tsx:141 | trimming a trimmed string changes nothing |
| `JsStrings.ToLowerIdempotent` | App.tsx:138 | lower-casing twice is lower-casing once |
| `JsStrings.ToLowerKeepsColons` | App.tsx:138-141 | lower-casing keeps the length and the positions of colons, so the colon found in the lowered line is the colon of the line |
| `JsStrings.ContainsPrefixOf` | services/geminiService.ts:6 | a text containing a needle contains every prefix of that needle |
| `JsStrings.IndexOf` | App.tsx:141 | `indexOf` gives -1 exactly when the character is absent, and otherwise its first position |
| `JsStrings.Split` | App.tsx:128 | `split` yields at least one piece and no piece holds the separator |
| `JsStrings.JoinSplit` | App.tsx:128 | joining the pieces of a split with the same separator gives the text back |
| `JsStrings.IndexOfAfterPrefix` | services/geminiService.ts:148 | in `a + sep + b` with no separator in `a`, the first separator is right after `a` |
| `JsStrings.SplitJoin` | services/geminiService.ts:148 | splitting a join of one or more separator-free pieces gives the pieces back |
| `JsStrings.JoinIsEmptyIff` | services/geminiService.ts:79-81 | a join is empty exactly for no pieces or one empty piece |
| `JsStrings.NatToString` | App.tsx:43 | the decimal rendering of a clock reading is never empty and holds only the digits 0-9 |
| `JsStrings.NatToStringInjective` | App.tsx:153 | different numbers render to different strings |
| `GeminiService.GetMockAnalysis` | services/geminiService.ts:5-41 | every mock profile has all scores in 0..100 and five keywords; a professional name gets a formal, cool profile, a family name without a professional marker a warm, informal one, any other name an emoji-heavy, informal one |
| `GeminiService.MockAnalysisClassification` | services/geminiService.ts:9-40 | which fixed profile is chosen, as an if-and-only-if for each of the three |
| `GeminiService.MrsMarkerIsRedundant` | services/geminiService.ts:6 | the professional test is equivalent to the `boss`-or-`mr` test |
| `GeminiService.MockAnalysisIgnoresCase` | services/geminiService.ts:6-7 | the mock profile of a name equals that of its lower-cased form |
| `GeminiService.ProfessionalMarkerWins` | services/geminiService.ts:9-18 | every name with both a professional and a family marker gets the professional profile, warmth 30 |
| `GeminiService.BossMomIsProfessional` | services/geminiService.ts:6-18 | "Boss Mom" carries both markers and gets warmth 30 |
| `GeminiService.GetMockReply` | services/geminiService.ts:43-61 | the mock reply is defined for every input, is one of the seven fixed sentences and is never empty |
| `GeminiService.MockReplyPriority` | services/geminiService.ts:45-60 | question, then laughter, then meeting, then anything else, each as an if-and-only-if; the formal variant is chosen exactly when formality exceeds 50 |
| `GeminiService.MockReplyIgnoresCase` | services/geminiService.ts:44 | the reply to a text equals the reply to its lower-cased form |
| `GeminiService.MockReplyDependsOnlyOnFormality` | services/geminiService.ts:46-58 | two styles that agree on formality > 50 get the same reply |
| `GeminiService.QuestionReplyFollowsFormality` | services/geminiService.ts:45-49 | a question gets the formal answer at formality 80 and the casual one at formality 10 or with no style |
| `GeminiService.SelfTexts` | services/geminiService.ts:79 | the own texts are empty exactly when no message is the user's, and each comes from one of the user's messages |
| `GeminiService.SelfTextsDistributes` | services/geminiService.ts:79 | the own texts of a concatenation are those of each part, in order; with `SelfTextsOfOne` this fixes them as every own text, once each, in conversation order |
| `GeminiService.SelfTextsOfOne` | services/geminiService.ts:79 | one message contributes its text exactly when it is the user's |
| `GeminiService.MyMessagesText` | services/geminiService.ts:79 | no contract of its own; stated by `MyMessagesTextEmptyIff` and `TwoEmptyOwnMessagesReachService` |
| `GeminiService.AnalyzeContactStyle` | services/geminiService.ts:70-136 | no contract of its own; stated by `AnalysisDecision`, `NoSelfMessagesNeverReachesService` and `FallbackProfilesAreWellShaped` |
| `GeminiService.AnalysisDecision` | services/geminiService.ts:70-136 | the four outcomes of an analysis: mock without a client, neutral for empty own text, the service's answer unchanged, mock on failure |
| `GeminiService.MyMessagesTextEmptyIff` | services/geminiService.ts:79-81 | the own-text block is empty exactly when there are no own texts or a single empty one |
| `GeminiService.NoSelfMessagesNeverReachesService` | services/geminiService.ts:70-91 | with no own messages the result is the mock profile without a client, the neutral one with a client, and in neither case depends on the service |
| `GeminiService.TwoEmptyOwnMessagesReachService` | services/geminiService.ts:79-81 | two own messages with empty text give the own-text block `"\n"`, which passes the emptiness test |
| `GeminiService.FallbackProfilesAreWellShaped` | services/geminiService.ts:74-135 | every result not taken from a successful live call has scores in 0..100 and at most five keywords |
| `GeminiService.RecentWindow` | services/geminiService.ts:148 | the history window is the last min(10, n) messages, in order |
| `GeminiService.HistoryLine` | services/geminiService.ts:148 | no contract of its own; stated by `RecentHistoryLines` |
| `GeminiService.RecentHistory` | services/geminiService.ts:148 | no contract of its own; stated by `RecentHistoryLines` |
| `GeminiService.RecentHistoryLines` | services/geminiService.ts:148 | when neither the name nor any message text contains a line break, the history splits back into one line per windowed message, labelled `Me` or with the contact's name; no messages give an empty history |
| `GeminiService.GenerateContextualReply` | services/geminiService.ts:138-183 | a live reply is trimmed; without a client the reply is never empty |
| `GeminiService.LiveReplyIsTrimmedText` | services/geminiService.ts:178 | a live reply is the service's text with the whitespace runs at both ends cut off (an infix with only whitespace before and after it, itself trimmed), and is empty exactly when that text is whitespace only |
| `GeminiService.ReplyFallbackIsMock` | services/geminiService.ts:142-182 | without a client or after a failed call the reply is the mock reply for the contact's current style |
| `ContactStore.FindIndex` | App.tsx:25 | the first position holding the id, or -1 exactly when no contact holds it |
| `ContactStore.Find` | App.tsx:25 | a contact is found exactly when some contact holds the id, and the one found is the first contact in the list that holds it |
| `ContactStore.Selected` | App.tsx:20 | the shown contact is in the list; when some contact holds the selected id it is the first such contact, as `find` returns it, and otherwise it is the first contact of the list |
| `ContactStore.Apply` | App.tsx:36-114 | no update changes a contact's id, name or avatar |
| `ContactStore.UpdateById` | App.tsx:36-53 | the map-by-id keeps the length, order and ids, patches every contact holding the id and leaves every other contact as it was |
| `ContactStore.UpdateUnknownIdIsNoOp` | App.tsx:80 | an update for an id nobody holds changes nothing |
| `ContactStore.FindSelected` | App.tsx:20 | looking up the id of the shown contact finds that very contact, including the fallback to the first contact |
| `ContactStore.UpdateKeepsSelection` | App.tsx:20 | an update never changes which id is on screen; when some contact holds the selected id, an update of another id does not change the shown contact either |
| `ContactStore.SendAndReceiveAppendOne` | App.tsx:35-74 | sending appends one message of the user's and clears the draft; receiving appends one of the contact's and keeps the draft |
| `ContactStore.AnalysisAlwaysClearsFlag` | App.tsx:80-91 | after an analysis starts and then either stores a result or fails, the contact is not analysing; a failure keeps the previous analysis |
| `Transcript.ClassifyLine` | App.tsx:134-150 | no contract of its own; stated by `SelfLineText`, `NameLineText`, `UnprefixedLineIsVerbatim` |
| `Transcript.SelfLineText` | App.tsx:139-141 | a line is the user's exactly when it starts with `me:` or `myself:` in any case; its text is what follows that prefix's colon, trimmed |
| `Transcript.NameLineText` | App.tsx:142-144 | a line with the name prefix and no self prefix is the contact's; for a name without a colon its text is what follows the name's colon, trimmed |
| `Transcript.UnprefixedLineIsVerbatim` | App.tsx:145-150 | a line with neither prefix is the contact's and keeps its text verbatim |
| `Transcript.BareSelfPrefixGivesEmptyText` | App.tsx:139-141 | a bare `Me:` line gives a message of the user's with empty text |
| `Transcript.ImportedMessageIdInjective` | App.tsx:153 | equal message ids have equal clock readings and equal line positions, so lines at different positions get different ids whatever the clock reads for each |
| `Transcript.NonBlankIndices` | App.tsx:131-132 | the listed positions are positions of the pasted lines |
| `Transcript.NonBlankIndicesSpec` | App.tsx:131-132 | the listed positions increase, each holds a non-blank line, and no non-blank line is missed |
| `Transcript.Parsed` | App.tsx:128-158 | no contract of its own; stated by `ParsedFollowsNonBlankLines`, `ParsedIdsDistinct` and `ParseTranscript` |
| `Transcript.ParsedFollowsNonBlankLines` | App.tsx:128-158 | the k-th message comes from the k-th non-blank line, classified as that line is, with that line's position and that line's clock readings in its id and timestamp |
| `Transcript.ParsedIdsDistinct` | App.tsx:153 | the messages of one import have pairwise distinct ids, with the clock read anew for every line |
| `Transcript.ParsedStep` | App.tsx:128-158 | handling one more line appends exactly what that line alone produces, with that line's own clock readings |
| `Transcript.ParseTranscript` | App.tsx:128-158 | the parsing loop produces exactly the message list the line-by-line definition gives |
| `App.SettledAnalysisIsNeverStuck` | App.tsx:82-92 | a settled analysis leaves the contact not analysing; a success stores the result and its time, and a failed first analysis is retried on the next selection |
| `App.ImportedContact` | App.tsx:160-165 | no contract of its own; stated by `AppState.ProcessImport` (prepended, selected, due for analysis) |
| `App.AppState.IsGenerating` | App.tsx:201 | no contract of its own; `HandleGenerateDraft` sets it and `CompleteGenerateDraft` clears it |
| `App.AppState.constructor` | App.tsx:10-18 | the seed list, its first contact selected, nothing generating, list view, modal closed and empty |
| `App.AppState.HandleAnalyze` | App.tsx:76-80 | an unknown id changes nothing and requests nothing; otherwise the contact is marked as analysing and its name and messages are requested, with no in-flight check |
| `App.AppState.CompleteAnalyze` | App.tsx:82-92 | the result or the failure is applied to the requesting id only, and that contact is no longer analysing |
| `App.AppState.HandleContactSelect` | App.tsx:22-29 | the selection always moves; an analysis starts exactly for an existing contact with no analysis that is not analysing, and the request carries that contact's id, name and messages |
| `App.AppState.OnMount` | App.tsx:95-99 | on mount the shown contact is analysed exactly when it needs it, and the request carries the shown contact's id, name and messages |
| `App.AppState.HandleBackToList` | App.tsx:31-33 | back to the list view |
| `App.AppState.HandleSendMessage` | App.tsx:35-54 | the contacts holding the selected id get the user's message with the clock as id and lose their draft; no other contact changes |
| `App.AppState.HandleSimulateIncoming` | App.tsx:56-74 | the contacts holding the selected id get the contact's message; no other contact changes |
| `App.AppState.HandleGenerateDraft` | App.tsx:101-105 | with a contact for the selected id, the generating marker is set to that id whatever it held, so the screen shows it generating, and the contact is requested; otherwise nothing happens |
| `App.AppState.CompleteGenerateDraft` | App.tsx:107-119 | a reply is written to the originating id only; the generating marker is cleared, and the screen stops showing it generating, on success and failure alike |
| `App.AppState.OpenImport` | App.tsx:188 | the import modal opens |
| `App.AppState.EditImport` | App.tsx:242-257 | the modal's inputs take the typed values |
| `App.AppState.ProcessImport` | App.tsx:123-176 | a blank name or text changes nothing; otherwise the parsed contact is prepended, selected and due for analysis, the modal is closed and cleared, and its analysis is scheduled |
| `App.DemoDraftRoundTrip` | App.tsx:101-120 | in demo mode a draft round trip leaves nothing generating before or after and gives the contact a non-empty draft |
| `App.AnalyzeTwice` | App.tsx:76-93 | analysing the same contact twice in a row is not blocked, and the contact ends up not analysing |
| `ChatScreen.ChatInterface.constructor` | components/ChatInterface.tsx:23-48 | every field starts empty or off, then both effects run once on mount, so a contact that already has a draft shows the confirmation |
| `ChatScreen.ChatInterface.HandleSend` | components/ChatInterface.tsx:50-55 | blank text sends nothing and changes nothing; other text is sent untrimmed and the box and the confirmation are cleared |
| `ChatScreen.ChatInterface.HandleSimulate` | components/ChatInterface.tsx:57-64 | blank text changes nothing; other text is delivered, becomes the pending notification, and the overlay is cleared and closed |
| `ChatScreen.ChatInterface.ConfirmDraft` | components/ChatInterface.tsx:66-71 | a draft is requested for the pending message exactly when there is one, and the notification is cleared |
| `ChatScreen.ChatInterface.DismissNotification` | components/ChatInterface.tsx:73-75 | the notification is cleared without requesting anything |
| `ChatScreen.ChatInterface.HandleEditDraft` | components/ChatInterface.tsx:77-86 | a non-empty draft is copied into the box and the confirmation hidden; otherwise nothing changes |
| `ChatScreen.ChatInterface.DiscardDraft` | components/ChatInterface.tsx:168 | only the confirmation is hidden |
| `ChatScreen.ChatInterface.ContactEffect` | components/ChatInterface.tsx:37-41 | when the contact id differs from the last render's, notification, confirmation and box are reset; the same id changes nothing |
| `ChatScreen.ChatInterface.DraftEffect` | components/ChatInterface.tsx:44-48 | a draft that differs from the last render's and is not empty shows the confirmation; the same draft, or an empty or absent one, leaves it as it was |
| `ChatScreen.ChatInterface.Render` | components/ChatInterface.tsx:37-48 | both effects in declaration order: a contact switch resets, and a new non-empty draft then shows the confirmation |
| `ChatScreen.ChatInterface.ToggleSimulationInput` | components/ChatInterface.tsx:112 | the overlay flips between shown and hidden |
| `ChatScreen.ChatInterface.EditInput` | components/ChatInterface.tsx:282 | the box takes the typed text |
| `ChatScreen.ChatInterface.EditSimulation` | components/ChatInterface.tsx:190 | the overlay takes the typed text |
| `ChatScreen.SimulateThenConfirm` | components/ChatInterface.tsx:57-71 | receiving then confirming requests a draft for exactly the received text when it is not blank and for nothing otherwise, and leaves no notification |
| `ChatScreen.DiscardThenSameDraft` | components/ChatInterface.tsx:44-48 | a draft shows the modal; after Discard it is hidden; the same draft text again keeps it hidden; a different draft shows it |

## Left out

- JSX rendering, CSS, scrolling and focus (`components/ChatInterface.tsx:32-34`, `82-84`, `88-308`, the markup of `App.tsx`), and the analysis-panel toggle, which only shows or hides a panel.
- `components/AnalysisPanel.tsx` and `components/ContactList.tsx` are not part of this model: one is display only, the other is floating-point touch handling and browser install plumbing.
- `constants.ts` is seed data; the constructor takes any non-empty seed list instead.
- The external text-generation library, the prompt wording and `JSON.parse`: the service is a function parameter, and a live analysis result is passed through unchecked, so no 0..100 bound is claimed for it.
- Timers and console logging. The demo-mode delays and the 500 ms post-import delay are not modelled; `ProcessImport` returns the id whose analysis it schedules.
- Concurrency, React state batching and stale closures. Every handler runs to completion on the current state. In particular, the post-import analysis reads a pre-import snapshot in the running app and may find nothing; the model only returns the scheduled id and does not claim that the analysis starts.
- Clocks: readings are passed in, one per handler, except in `processImport`. There the clock is read anew for every line (`stampAt`, `nowAt`, indexed by line position) and once more for the contact id. Ids built from `Date.now()` can collide across handlers, so id uniqueness is proved only for the messages of one import.
- JavaScript numbers are modelled as integers; no floating-point scores.
- JsStrings.ToLower: lower-cases ASCII letters only, not the full Unicode mapping of `toLowerCase`.
- JsStrings.Split and JsStrings.IndexOf: only one-character separators and needles, which is all the core uses; lengths count code points, not UTF-16 units.
- GeminiService.GetMockReply: does not state that the fixed replies are free of surrounding whitespace.
- GeminiService.AnalyzeContactStyle: the outer `catch` of `handleAnalyze` is reached only by errors outside the service's own `try`; `CompleteAnalyze` accepts either outcome without tying it to that function.
