/** The state of the `Chat` component (GenAi/src/components/chat.tsx) and its event
    handlers. Each asynchronous handler is split at its await: the first half runs when the
    user acts, the second when the gateway settles, with the settled results as arguments. */
module Chat {
  import opened Types
  import opened Seqs
  import opened JsText
  import opened Conversation
  import opened Progress

  /** What the component is waiting for. `isPending` is true exactly when this is not Idle. */
  datatype InFlight =
    | Idle
    | AwaitingTurn(message: string, history: seq<HistoryEntry>)
    | AwaitingSuggestion(mood: string)

  class ChatState {
    var messages: seq<Message>
    var input: string
    var ventMode: bool
    var flight: InFlight

    predicate Pending()
      reads this
    {
      !flight.Idle?
    }

    /** One typing placeholder while waiting on the gateway, none otherwise; user messages
        are always plain text. */
    ghost predicate Valid()
      reads this
    {
      TypingCount(messages) == (if flight.Idle? then 0 else 1) && UserMessagesAreText(messages)
    }

    constructor ()
      ensures Valid()
      ensures messages == [WelcomeMessage] && input == "" && !ventMode && flight == Idle
    {
      messages := [WelcomeMessage];
      input := "";
      ventMode := false;
      flight := Idle;
    }

    /** The input box's `onChange`. */
    method SetInput(text: string)
      requires Valid()
      modifies this
      ensures Valid()
      ensures input == text
      ensures messages == old(messages) && ventMode == old(ventMode) && flight == old(flight)
    {
      input := text;
    }

    /** `handleSubmit` up to its await. Blank input or a pending request changes nothing.
        Otherwise the user message is appended and the input cleared; in vent mode the turn
        ends at once with the fixed acknowledgement, in normal mode a placeholder is appended
        and the turn waits on the gateway with the history taken from the messages as they
        were before this submission. */
    method Submit(userId: string, typingId: string, ackId: string) returns (accepted: bool)
      requires Valid()
      modifies this
      ensures Valid()
      ensures accepted == (!IsBlank(old(input)) && !old(Pending()))
      ensures !accepted ==>
        messages == old(messages) && input == old(input) && flight == old(flight) && ventMode == old(ventMode)
      ensures accepted ==> input == "" && ventMode == old(ventMode)
      ensures accepted && old(ventMode) ==>
        messages == old(messages) + [UserMessage(userId, old(input)), VentAck(ackId)] && flight == Idle
      ensures accepted && !old(ventMode) ==>
        messages == old(messages) + [UserMessage(userId, old(input)), TypingIndicator(typingId)] &&
        flight == AwaitingTurn(old(input), HistoryForModel(old(messages)))
    {
      if IsBlank(input) || Pending() {
        return false;
      }
      accepted := true;
      var prior := messages;
      var user := UserMessage(userId, input);
      var typing := TypingIndicator(typingId);
      messages := messages + [user];
      var text := input;
      input := "";
      messages := messages + [typing];
      AppendTwo(prior, user, typing);
      if ventMode {
        var ack := VentAck(ackId);
        VentTurnShape(prior, user, typing, ack);
        messages := Settle(messages, [ack]);
        AppendTwo(prior, user, ack);
      } else {
        flight := AwaitingTurn(text, HistoryForModel(prior));
      }
    }

    /** `handleSubmit` after `Promise.allSettled`: placeholders dropped, the merged messages
        appended in order, and the sentiment logged when the assessment came back. */
    method CompleteTurn(join: Join, replyId: string, resourceId: string, errorId: string,
                        today: string, storageOk: bool, store: ProgressStore)
      requires Valid() && flight.AwaitingTurn?
      modifies this, store
      ensures Valid() && flight == Idle
      ensures messages == Settle(old(messages), MergeTurn(join, replyId, resourceId, errorId).newMessages)
      ensures input == old(input) && ventMode == old(ventMode)
      ensures store.records ==
        match MergeTurn(join, replyId, resourceId, errorId).progressScore
        case Some(score) => if storageOk then Upsert(old(store.records), today, score) else old(store.records)
        case None => old(store.records)
    {
      var outcome := MergeTurn(join, replyId, resourceId, errorId);
      if outcome.progressScore.Some? {
        store.UpdateProgress(outcome.progressScore.value, today, storageOk);
      }
      SettleKeepsInvariants(messages, outcome.newMessages);
      messages := Settle(messages, outcome.newMessages);
      flight := Idle;
    }

    /** The vent-mode switch: the flag takes the new value and one fixed notice is appended. */
    method ToggleVentMode(checked: bool)
      requires Valid()
      modifies this
      ensures Valid()
      ensures ventMode == checked
      ensures messages == old(messages) + [if checked then VentOnMessage else VentOffMessage]
      ensures input == old(input) && flight == old(flight)
    {
      ventMode := checked;
      var notice := if checked then VentOnMessage else VentOffMessage;
      AppendOne(messages, notice);
      messages := messages + [notice];
    }

    /** `handleFeedback` taken as one step, with `reported` the outcome of the feedback
        report. An unknown id changes nothing. Otherwise every message with the id gets the
        feedback, and loses it again (set to null) when the report failed. Returns the message
        whose text the report sends. */
    method HandleFeedback(id: string, feedback: Feedback, reported: bool) returns (original: Option<Message>)
      requires Valid()
      modifies this
      ensures Valid()
      ensures original == FindById(old(messages), id)
      ensures original.None? ==> messages == old(messages)
      ensures original.Some? ==> messages == SetFeedback(old(messages), id, if reported then Some(feedback) else None)
      ensures input == old(input) && ventMode == old(ventMode) && flight == old(flight)
    {
      original := FindById(messages, id);
      if original.None? {
        return;
      }
      ghost var before := messages;
      messages := SetFeedback(messages, id, Some(feedback));
      if !reported {
        messages := SetFeedback(messages, id, None);
        SetFeedbackOverride(before, id, Some(feedback), None);
      }
      SetFeedbackKeepsInvariants(before, id, if reported then Some(feedback) else None);
    }

    /** `handleMoodSuggestion` up to its await. With no user message yet, or while a request
        is pending, nothing changes. Otherwise a placeholder is appended and the suggestion is
        asked for with the text of the most recent user message. */
    method RequestSuggestion(typingId: string) returns (started: bool)
      requires Valid()
      modifies this
      ensures Valid()
      ensures started == (LastUserIndex(old(messages)) != -1 && !old(Pending()))
      ensures !started ==>
        messages == old(messages) && flight == old(flight)
      ensures started ==>
        messages == old(messages) + [TypingIndicator(typingId)] &&
        old(messages)[LastUserIndex(old(messages))].content.Text? &&
        flight == AwaitingSuggestion(old(messages)[LastUserIndex(old(messages))].content.text)
      ensures input == old(input) && ventMode == old(ventMode)
    {
      var last := LastUserIndex(messages);
      if last == -1 || Pending() {
        return false;
      }
      started := true;
      assert messages[last] in messages;
      var mood := messages[last].content.text;
      var typing := TypingIndicator(typingId);
      AppendOne(messages, typing);
      messages := messages + [typing];
      flight := AwaitingSuggestion(mood);
    }

    /** `handleMoodSuggestion` after its await: placeholders dropped and, on success, the
        suggestion card appended; on failure nothing is appended. */
    method CompleteSuggestion(result: Option<Suggestion>, suggestionId: string)
      requires Valid() && flight.AwaitingSuggestion?
      modifies this
      ensures Valid() && flight == Idle
      ensures messages == Settle(old(messages), if result.Some? then [SuggestionMessage(suggestionId, result.value)] else [])
      ensures input == old(input) && ventMode == old(ventMode)
    {
      var added := if result.Some? then [SuggestionMessage(suggestionId, result.value)] else [];
      SettleKeepsInvariants(messages, added);
      messages := Settle(messages, added);
      flight := Idle;
    }
  }

  /** A distressed turn: "I feel hopeless" assessed at -0.9 with two helplines yields the
      reply followed by a card listing exactly those helplines, and starts today's record. */
  lemma DistressedTurnExample(reply: string, today: string, replyId: string, cardId: string, errorId: string)
    ensures var resources := ["Helpline A", "Helpline B"];
      var outcome := MergeTurn(Settled(Fulfilled(reply), Fulfilled(Distress(true, -0.9, resources))), replyId, cardId, errorId);
      outcome.newMessages == [AssistantText(replyId, reply), ResourceMessage(cardId, resources)] &&
      outcome.progressScore == Some(-0.9)
    ensures Upsert([], today, -0.9) == [ProgressRecord(today, -0.9, 1)]
  {
  }
}
