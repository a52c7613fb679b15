# SindhanaiBot chat core, modelled in Dafny

SindhanaiBot is a browser chat page whose replies come from hosted language-model prompts.
The logic the repository owns lives in the `Chat` component: it keeps the list of
messages, the vent-mode flag and the pending flag; it guards submissions; it builds the
history sent to the reply generator; it merges the two settled gateway results of a turn
into new messages; it records feedback and asks for mood suggestions; and it keeps a
per-day sentiment log in local storage.

The model has six modules:

- `Seqs` (`seqs.dfy`): order-preserving filtering, as `Array.prototype.filter` does it, and
  the subsequence relation.
- `Types` (`types.dfy`): messages, with content as a tagged union of text, resource card
  and suggestion card. Also progress records, history entries, gateway results and the
  component's fixed messages.
- `JsText` (`jstext.dfy`): `String.prototype.trim` over the ECMAScript whitespace and
  line-terminator code points, and the blank-input test.
- `Progress` (`progress.dfy`): `updateProgress` as a `ProgressStore` class with a
  `records` field. The upsert is also a specification function, with lemmas for the
  existing-day and new-day cases, unique date keys, and the daily arithmetic mean.
- `Conversation` (`conversation.dfy`): the message-list updaters, the history projection,
  the turn-merge rule, feedback by id and the last-user-message lookup, as functions with
  lemmas.
- `Chat` (`chat.dfy`): the component state as a `ChatState` class. Each handler is a method.
  An asynchronous handler is split at its await into a start method and a completion
  method. The completion method takes the settled gateway results and the fresh ids as
  arguments.

Pending is modelled by the `flight` field: `Idle`, `AwaitingTurn` or `AwaitingSuggestion`.
`isPending` is true exactly when `flight` is not `Idle`. The class invariant `Valid()`
says two things. There is one typing placeholder while the component waits on a gateway
and none otherwise. Every user message is plain text.

`CompleteTurn` and `CompleteSuggestion` require that the matching request is in flight.
This is the event order of the component, not a demand on the data.

Three behaviours of the code a reader might not expect:

- The history also drops the fixed welcome and vent-mode messages, by id. A plain-text
  filter alone would keep them.
- Feedback goes to every message carrying the id, not to a single message. The
  vent-mode notices reuse fixed ids, so several messages can share one.
- Nothing bounds the sentiment to [-1, 1]. The distress result's score is an unconstrained
  number.

## Model

| member | source | states |
|---|---|---|
| JsText.TrimStart | GenAi/src/components/chat.tsx:91 | the result is a suffix of the input; everything cut off is whitespace; the result is empty or starts with a non-whitespace character |
| JsText.TrimEnd | GenAi/src/components/chat.tsx:91 | the result is a prefix of the input; everything cut off is whitespace; the result is empty or ends with a non-whitespace character |
| JsText.BlankIffAllWhitespace | GenAi/src/components/chat.tsx:91 | the submit guard's `!input.trim()` holds exactly when every character of the input is ECMAScript whitespace or a line terminator |
| JsText.TrimKeepsInterior | GenAi/src/components/chat.tsx:91 | trimming keeps, unchanged and in place, every character from the first non-whitespace character to the last: for non-whitespace characters at positions i <= j, the leading blanks removed are at most i, and the span s[i..j] is the slice of the trimmed string that starts at i less that number |
| Progress.IndexOfDate | GenAi/src/components/chat.tsx:73 | `findIndex` on the date key: -1 exactly when no record has today's date, otherwise the first index whose date is today |
| Progress.UpsertExisting | GenAi/src/components/chat.tsx:73-78 | with a record for today, the length is unchanged, that record's count grows by exactly 1, its sentiment becomes (old*count + score)/(count + 1), and every other record is unchanged |
| Progress.UpsertNew | GenAi/src/components/chat.tsx:79-81 | without a record for today, exactly one record {today, score, 1} is appended at the end and the earlier records are untouched |
| Progress.UpsertKeepsDatesUnique | GenAi/src/components/chat.tsx:73-81 | unique date keys stay unique, and today has a record afterwards |
| Progress.MeanStep | GenAi/src/components/chat.tsx:77-78 | one incremental-mean step on the mean of c samples gives the mean of c + 1 samples |
| Progress.DailyMean | GenAi/src/components/chat.tsx:73-81 | starting with no record for today, n updates add one record at the end with count n and sentiment the arithmetic mean of the n scores, and leave the earlier records as they were |
| Progress.ProgressStore.constructor | GenAi/src/components/chat.tsx:70-71 | the store starts with the loaded collection |
| Progress.ProgressStore.UpdateProgress | GenAi/src/components/chat.tsx:66-87 | the stored collection becomes the upsert of the score for today; a storage or parse failure leaves it unchanged |
| Conversation.SettleKeepsOrder | GenAi/src/components/chat.tsx:179 | settling keeps exactly the non-placeholder prior messages as an order-preserving subsequence, with each repeat kept (the kept part is as long as the prior list less its placeholders), appends the new messages in order after them, and leaves no placeholder |
| Conversation.SettleKeepsInvariants | GenAi/src/components/chat.tsx:258 | after settling with assistant messages, no placeholder remains and user messages are still plain text |
| Conversation.DropTypingCount | GenAi/src/components/chat.tsx:116 | dropping placeholders removes exactly as many messages as there are placeholders |
| Conversation.DropTypingNoop | GenAi/src/components/chat.tsx:261 | dropping placeholders from a list that has none changes nothing |
| Conversation.AppendOne | GenAi/src/components/chat.tsx:98 | appending one message raises the placeholder count by one exactly when it is a placeholder |
| Conversation.VentTurnShape | GenAi/src/components/chat.tsx:108-116 | in a vent turn, the placeholder added after the user message is dropped and the acknowledgement takes its place |
| Conversation.HistoryProjection | GenAi/src/components/chat.tsx:121-127 | the history comes from an order-preserving subsequence of the messages. That subsequence holds every message that is not welcome, vent-on or vent-off, has text content and is not a placeholder, and holds no other. Each entry carries that message's text, `assistant` becomes `bot` and `user` stays `user`, and the history is no longer than the message list |
| Conversation.HistoryAppend | GenAi/src/components/chat.tsx:121-127 | appending one message extends the history by that message's entry when it is eligible, and by nothing otherwise |
| Conversation.NoticesNeverInHistory | GenAi/src/components/chat.tsx:122-123 | the vent-on and vent-off notices and typing placeholders never change the history |
| Conversation.MergeTurn | GenAi/src/components/chat.tsx:134-186 | all new messages are assistant messages and none is a placeholder. If the try block threw, the only new message is the error message and nothing is logged. Otherwise there are 1 or 2 new messages. The first is the reply text, or the fallback apology when the reply was rejected. The second is a resource card with the returned resources, and it exists iff the assessment was fulfilled, distressed and had resources. A score is logged iff the assessment was fulfilled, and it is the returned sentiment score |
| Conversation.FindById | GenAi/src/components/chat.tsx:192 | nothing is found exactly when no message has the id; otherwise the result is the first message with the id |
| Conversation.SetFeedbackAt | GenAi/src/components/chat.tsx:195 | every message with the id gets the new feedback; every other message, and every other field, is unchanged |
| Conversation.SetFeedbackUnknownId | GenAi/src/components/chat.tsx:192-195 | feedback for an id no message carries changes nothing |
| Conversation.SetFeedbackOverride | GenAi/src/components/chat.tsx:214 | a later feedback value on the same id overrides the earlier one, so the rollback leaves the feedback null |
| Conversation.SetFeedbackKeepsInvariants | GenAi/src/components/chat.tsx:195 | setting feedback keeps the placeholder count, and keeps user messages plain text |
| Conversation.LastUserIndex | GenAi/src/components/chat.tsx:220 | -1 exactly when there is no user message; otherwise the index of a user message after which no user message follows |
| Chat.ChatState.constructor | GenAi/src/components/chat.tsx:50-53 | the conversation starts with the welcome message alone, empty input, vent mode off and nothing pending |
| Chat.ChatState.SetInput | GenAi/src/components/chat.tsx:363 | only the input changes |
| Chat.ChatState.Submit | GenAi/src/components/chat.tsx:89-118 | blank input or a pending request changes nothing: no message, the input kept, not pending. Otherwise the input is cleared and the user message appended. In vent mode the acknowledgement is appended, no gateway request is made and the turn ends. In normal mode a placeholder is appended and the turn waits with the history of the messages before this submission |
| Chat.ChatState.CompleteTurn | GenAi/src/components/chat.tsx:120-187 | every placeholder is dropped and the merged messages appended in order. The request is no longer pending. The progress store gets the upsert exactly when the assessment was fulfilled |
| Chat.ChatState.ToggleVentMode | GenAi/src/components/chat.tsx:271-274 | the flag becomes `checked` and exactly one message is appended: the vent-on notice if checked, the vent-off notice otherwise |
| Chat.ChatState.HandleFeedback | GenAi/src/components/chat.tsx:191-217 | an unknown id changes nothing. Otherwise the messages with that id get the feedback, and null instead when the report failed. The method returns the first message with the id, whose text is reported |
| Chat.ChatState.RequestSuggestion | GenAi/src/components/chat.tsx:219-237 | with no user message, or while pending, nothing changes. Otherwise a placeholder is appended and the suggestion is requested for the text of the latest user message |
| Chat.ChatState.CompleteSuggestion | GenAi/src/components/chat.tsx:238-267 | placeholders are dropped; on success exactly the suggestion card is appended, on failure nothing; the request is no longer pending |
| Chat.DistressedTurnExample | GenAi/src/components/chat.tsx:151-174 | a distressed assessment with two helplines yields the reply, then a card listing exactly those two helplines, and starts today's record as (today, -0.9, 1) |

## Left out

- Rendering: the JSX tree, the scroll effect, markdown, toasts, and the disabling of
  buttons, the switch and the input while pending. These are presentation. The cards are
  tagged-union content, and the handlers are modelled without the UI's disabling.
- Local storage, JSON parsing and serialisation, and the clock. The progress collection is
  the `records` field, `today` is a parameter, and `storageOk` stands for whether reading,
  parsing and writing all succeeded. A failure leaves the records unchanged. Stored counts
  are taken to be natural numbers.
- `crypto.randomUUID`: every fresh id is an argument. Distinctness of fresh ids is not
  assumed anywhere, because no property here depends on it.
- `Promise.allSettled` and `startTransition`: there is no concurrency. The two settled
  results of a turn are the `Join` argument, and `isPending` is the `flight` field.
- Join.Threw: it stands for any exception raised inside the try block of a turn. Nothing in
  the model raises one, so whether a given gateway value would raise one is not modelled.
- Chat.ChatState.HandleFeedback: the optimistic update and the rollback happen in one step,
  and the pending flag is not touched. In the source, the report runs in a transition that
  keeps `isPending` true while it is in flight. Other handlers running while the report is
  in flight are not modelled.
- The hosted prompts are opaque results: reply generation, distress detection, mood
  suggestion, and the feedback-driven prompt improvement. The last is imported as
  `improve-ai-empathy`, but that file is not part of this model.
- Floating point: sentiment is `real`, with no rounding.
- The navigation layout, the progress chart page and the static content pages are outside
  the chat core.
