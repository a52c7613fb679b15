/** The pure parts of the chat component (GenAi/src/components/chat.tsx): the message-list
    updates done inside `setMessages` updaters, the history projection sent to the reply
    generator, and the rule that merges the two settled gateway results of a turn. */
module Conversation {
  import opened Types
  import opened Seqs

  predicate IsTyping(m: Message) { m.isTyping }

  predicate NotTyping(m: Message) { !m.isTyping }

  /** `prev.filter(m => !m.isTyping)` */
  function DropTyping(ms: seq<Message>): seq<Message>
  {
    Filter(ms, NotTyping)
  }

  /** The list after a turn or a suggestion settles: every typing placeholder dropped,
      then the new messages appended (`prev.filter(m => !m.isTyping).concat(added)`). */
  function Settle(prev: seq<Message>, added: seq<Message>): seq<Message>
  {
    DropTyping(prev) + added
  }

  function TypingCount(ms: seq<Message>): nat
  {
    |Filter(ms, IsTyping)|
  }

  /** Every user message holds plain text and is not a placeholder. */
  predicate UserMessagesAreText(ms: seq<Message>)
  {
    forall m :: m in ms && m.role == User ==> m.content.Text? && !m.isTyping
  }

  /** Settling keeps exactly the non-placeholder messages of `prev`, in their order, puts the
      new messages after them in their order, and leaves no placeholder behind. */
  lemma SettleKeepsOrder(prev: seq<Message>, added: seq<Message>)
    requires forall k :: 0 <= k < |added| ==> !added[k].isTyping
    ensures var r := Settle(prev, added); var kept := DropTyping(prev);
      IsSubsequence(kept, prev) &&
      (forall m :: m in kept <==> m in prev && !m.isTyping) &&
      |kept| + TypingCount(prev) == |prev| &&
      r[..|kept|] == kept && r[|kept|..] == added &&
      TypingCount(r) == 0
  {
    var r := Settle(prev, added);
    var kept := DropTyping(prev);
    FilterIsSubsequence(prev, NotTyping);
    FilterMembership(prev, NotTyping);
    DropTypingCount(prev);
    assert r[..|kept|] == kept && r[|kept|..] == added;
    FilterAppend(kept, added, IsTyping);
    FilterEmpty(kept, IsTyping);
    FilterEmpty(added, IsTyping);
  }

  lemma TypingCountAppend(a: seq<Message>, b: seq<Message>)
    ensures TypingCount(a + b) == TypingCount(a) + TypingCount(b)
  {
    FilterAppend(a, b, IsTyping);
  }

  /** Dropping placeholders removes exactly the placeholders: every other message, repeats
      included, is kept. */
  lemma {:induction false} DropTypingCount(ms: seq<Message>)
    ensures |DropTyping(ms)| + TypingCount(ms) == |ms|
  {
    if ms != [] {
      DropTypingCount(ms[1..]);
    }
  }

  /** With no placeholder present, dropping placeholders changes nothing. */
  lemma DropTypingNoop(ms: seq<Message>)
    requires TypingCount(ms) == 0
    ensures DropTyping(ms) == ms
  {
    FilterEmpty(ms, IsTyping);
    forall k | 0 <= k < |ms| ensures NotTyping(ms[k]) {
      assert ms[k] in ms;
    }
    FilterAllPass(ms, NotTyping);
  }

  /** Appending one message adds one to the placeholder count exactly when it is a
      placeholder, and keeps user messages plain text when it does. */
  lemma AppendOne(ms: seq<Message>, m: Message)
    ensures TypingCount(ms + [m]) == TypingCount(ms) + (if m.isTyping then 1 else 0)
    ensures UserMessagesAreText(ms) && (m.role == User ==> m.content.Text? && !m.isTyping) ==>
      UserMessagesAreText(ms + [m])
  {
    TypingCountAppend(ms, [m]);
    assert Filter([m], IsTyping) == (if m.isTyping then [m] else []) + Filter([m][1..], IsTyping);
  }

  /** Appending a plain-text user message and then one assistant message `m` raises the
      placeholder count by one exactly when `m` is a placeholder. */
  lemma AppendTwo(ms: seq<Message>, user: Message, m: Message)
    requires UserMessagesAreText(ms) && user.role == User && user.content.Text? && !user.isTyping
    requires m.role == Assistant
    ensures ms + [user] + [m] == ms + [user, m]
    ensures TypingCount(ms + [user, m]) == TypingCount(ms) + (if m.isTyping then 1 else 0)
    ensures UserMessagesAreText(ms + [user, m])
  {
    AppendOne(ms, user);
    AppendOne(ms + [user], m);
    assert ms + [user] + [m] == ms + [user, m];
  }

  /** A vent-mode turn: the placeholder appended after the user message is dropped again and
      the acknowledgement takes its place. */
  lemma VentTurnShape(ms: seq<Message>, user: Message, typing: Message, ack: Message)
    requires TypingCount(ms) == 0 && !user.isTyping && typing.isTyping && !ack.isTyping
    ensures Settle(ms + [user, typing], [ack]) == ms + [user, ack]
  {
    assert ms + [user, typing] == (ms + [user]) + [typing];
    FilterAppend(ms + [user], [typing], NotTyping);
    FilterAppend(ms, [user], NotTyping);
    assert Filter([user], NotTyping) == [user] + Filter([user][1..], NotTyping);
    assert Filter([typing], NotTyping) == Filter([typing][1..], NotTyping);
    DropTypingNoop(ms);
  }

  /** After settling, no placeholder is left and user messages are still plain text,
      provided only assistant messages are added. */
  lemma SettleKeepsInvariants(prev: seq<Message>, added: seq<Message>)
    requires forall k :: 0 <= k < |added| ==> added[k].role == Assistant && !added[k].isTyping
    requires UserMessagesAreText(prev)
    ensures TypingCount(Settle(prev, added)) == 0
    ensures UserMessagesAreText(Settle(prev, added))
  {
    SettleKeepsOrder(prev, added);
    var kept := DropTyping(prev);
    assert UserMessagesAreText(kept);
    forall m | m in added ensures m.role == Assistant {
      var k :| 0 <= k < |added| && added[k] == m;
    }
  }

  // ---- History projection (chat.tsx lines 121-127) ----

  /** A message that goes into the history: not one of the fixed welcome and vent-mode
      messages, plain text, and not a placeholder. */
  predicate SentToModel(m: Message)
  {
    m.id != WelcomeId && m.id != VentOnId && m.id != VentOffId && m.content.Text? && !m.isTyping
  }

  function HistorySource(ms: seq<Message>): seq<Message>
  {
    Filter(ms, SentToModel)
  }

  function ToEntry(m: Message): HistoryEntry
    requires m.content.Text?
  {
    HistoryEntry(if m.role == Assistant then BotSpeaker else UserSpeaker, m.content.text)
  }

  /** The conversation history handed to the reply generator. */
  function HistoryForModel(ms: seq<Message>): seq<HistoryEntry>
  {
    var kept := HistorySource(ms);
    FilterMembership(ms, SentToModel);
    seq(|kept|, k requires 0 <= k < |kept| => assert kept[k] in kept; ToEntry(kept[k]))
  }

  /** The history is the text of an order-preserving subsequence of the messages that holds
      every eligible message and nothing else, with `assistant` relabelled `bot`. */
  lemma HistoryProjection(ms: seq<Message>)
    ensures var h := HistoryForModel(ms); var src := HistorySource(ms);
      |h| == |src| <= |ms| &&
      IsSubsequence(src, ms) &&
      (forall m :: m in src <==> m in ms && SentToModel(m)) &&
      (forall k :: 0 <= k < |h| ==>
        src[k].content.Text? && h[k].content == src[k].content.text &&
        (h[k].role == BotSpeaker <==> src[k].role == Assistant) &&
        (h[k].role == UserSpeaker <==> src[k].role == User))
  {
    FilterIsSubsequence(ms, SentToModel);
    FilterMembership(ms, SentToModel);
    var src := HistorySource(ms);
    forall k | 0 <= k < |src| ensures src[k].content.Text? {
      assert src[k] in src;
    }
  }

  /** The history grows by at most the entry for the one message appended. */
  lemma {:induction false} HistoryAppend(ms: seq<Message>, m: Message)
    ensures HistoryForModel(ms + [m]) == HistoryForModel(ms) + (if SentToModel(m) then [ToEntry(m)] else [])
  {
    FilterAppend(ms, [m], SentToModel);
    assert Filter([m], SentToModel) == (if SentToModel(m) then [m] else []) + Filter([m][1..], SentToModel);
    var src := HistorySource(ms);
    FilterMembership(ms, SentToModel);
    assert HistorySource(ms + [m]) == src + (if SentToModel(m) then [m] else []);
    forall k | 0 <= k < |src| ensures src[k].content.Text? {
      assert src[k] in src;
    }
  }

  /** The vent-mode notices and the typing placeholder never reach the history. */
  lemma NoticesNeverInHistory(ms: seq<Message>, typingId: string)
    ensures HistoryForModel(ms + [VentOnMessage]) == HistoryForModel(ms)
    ensures HistoryForModel(ms + [VentOffMessage]) == HistoryForModel(ms)
    ensures HistoryForModel(ms + [TypingIndicator(typingId)]) == HistoryForModel(ms)
  {
    HistoryAppend(ms, VentOnMessage);
    HistoryAppend(ms, VentOffMessage);
    HistoryAppend(ms, TypingIndicator(typingId));
  }

  // ---- Merge of the two settled results of a turn (chat.tsx lines 129-186) ----

  /** What the try block of a normal-mode turn ends with: the two settled results of
      `Promise.allSettled`, or an exception thrown inside the block. */
  datatype Join = Settled(reply: Settled<string>, distress: Settled<Distress>) | Threw

  /** The messages to append and, when the distress assessment came back, the score to log. */
  datatype TurnOutcome = TurnOutcome(newMessages: seq<Message>, progressScore: Option<real>)

  function MergeTurn(join: Join, replyId: string, resourceId: string, errorId: string): (r: TurnOutcome)
    ensures forall k :: 0 <= k < |r.newMessages| ==> r.newMessages[k].role == Assistant && !r.newMessages[k].isTyping
    ensures join.Threw? ==> r.newMessages == [AssistantText(errorId, ErrorText)] && r.progressScore == None
    ensures join.Settled? ==>
      1 <= |r.newMessages| <= 2 &&
      r.newMessages[0] == AssistantText(replyId, if join.reply.Fulfilled? then join.reply.value else FallbackText) &&
      (|r.newMessages| == 2 <==>
        join.distress.Fulfilled? && join.distress.value.isDistressed && |join.distress.value.suggestedResources| > 0) &&
      (|r.newMessages| == 2 ==> r.newMessages[1] == ResourceMessage(resourceId, join.distress.value.suggestedResources)) &&
      (r.progressScore.Some? <==> join.distress.Fulfilled?) &&
      (r.progressScore.Some? ==> r.progressScore.value == join.distress.value.sentimentScore)
  {
    match join
    case Threw => TurnOutcome([AssistantText(errorId, ErrorText)], None)
    case Settled(reply, distress) =>
      var first := match reply
        case Fulfilled(text) => AssistantText(replyId, text)
        case Rejected => AssistantText(replyId, FallbackText);
      match distress
      case Rejected => TurnOutcome([first], None)
      case Fulfilled(d) =>
        var card := if d.isDistressed && |d.suggestedResources| > 0 then [ResourceMessage(resourceId, d.suggestedResources)] else [];
        TurnOutcome([first] + card, Some(d.sentimentScore))
  }

  // ---- Feedback (chat.tsx lines 191-217) ----

  predicate HasId(ms: seq<Message>, id: string)
  {
    exists k :: 0 <= k < |ms| && ms[k].id == id
  }

  /** `messages.find(m => m.id === messageId)`: the first message with that id. */
  function FindById(ms: seq<Message>, id: string): (r: Option<Message>)
    ensures r.None? <==> !HasId(ms, id)
    ensures r.Some? ==> exists k :: FirstWithId(ms, id, k) && ms[k] == r.value
  {
    if ms == [] then None
    else if ms[0].id == id then Some(ms[0])
    else
      var r := FindById(ms[1..], id);
      assert r.Some? ==> exists k :: FirstWithId(ms[1..], id, k) && ms[1..][k] == r.value;
      assert r.Some? ==> forall k :: FirstWithId(ms[1..], id, k) ==> FirstWithId(ms, id, k + 1);
      r
  }

  /** `k` is the position of the first message carrying `id`. */
  predicate FirstWithId(ms: seq<Message>, id: string, k: int)
  {
    0 <= k < |ms| && ms[k].id == id && forall j :: 0 <= j < k ==> ms[j].id != id
  }

  /** `prev.map(m => m.id === messageId ? { ...m, feedback } : m)` */
  function SetFeedback(ms: seq<Message>, id: string, f: Option<Feedback>): (r: seq<Message>)
    ensures |r| == |ms|
  {
    if ms == [] then []
    else [if ms[0].id == id then ms[0].(feedback := f) else ms[0]] + SetFeedback(ms[1..], id, f)
  }

  /** Every message carrying the id gets the feedback value; every other message, and every
      other field, is left as it was. */
  lemma {:induction false} SetFeedbackAt(ms: seq<Message>, id: string, f: Option<Feedback>)
    ensures forall k :: 0 <= k < |ms| ==>
      var r := SetFeedback(ms, id, f);
      r[k].id == ms[k].id && r[k].role == ms[k].role && r[k].content == ms[k].content &&
      r[k].isTyping == ms[k].isTyping &&
      r[k].feedback == (if ms[k].id == id then f else ms[k].feedback)
  {
    if ms != [] {
      SetFeedbackAt(ms[1..], id, f);
      var r := SetFeedback(ms, id, f);
      assert r[1..] == SetFeedback(ms[1..], id, f);
      forall k | 1 <= k < |ms| ensures r[k] == SetFeedback(ms[1..], id, f)[k - 1] && ms[k] == ms[1..][k - 1] {
      }
    }
  }

  /** Feedback for an id no message carries changes nothing. */
  lemma SetFeedbackUnknownId(ms: seq<Message>, id: string, f: Option<Feedback>)
    requires !HasId(ms, id)
    ensures SetFeedback(ms, id, f) == ms
  {
    var r := SetFeedback(ms, id, f);
    SetFeedbackAt(ms, id, f);
    forall k | 0 <= k < |ms| ensures r[k] == ms[k] {
      assert ms[k].id != id;
    }
  }

  /** A later feedback value on the same id replaces an earlier one: the rollback after a
      failed report leaves the feedback unset, whatever it was before. */
  lemma SetFeedbackOverride(ms: seq<Message>, id: string, f: Option<Feedback>, g: Option<Feedback>)
    ensures SetFeedback(SetFeedback(ms, id, f), id, g) == SetFeedback(ms, id, g)
  {
    var a := SetFeedback(SetFeedback(ms, id, f), id, g);
    var b := SetFeedback(ms, id, g);
    SetFeedbackAt(ms, id, f);
    SetFeedbackAt(SetFeedback(ms, id, f), id, g);
    SetFeedbackAt(ms, id, g);
    forall k | 0 <= k < |ms| ensures a[k] == b[k] {
    }
  }

  lemma {:induction false} SetFeedbackKeepsInvariants(ms: seq<Message>, id: string, f: Option<Feedback>)
    ensures TypingCount(SetFeedback(ms, id, f)) == TypingCount(ms)
    ensures UserMessagesAreText(ms) ==> UserMessagesAreText(SetFeedback(ms, id, f))
  {
    var r := SetFeedback(ms, id, f);
    if ms != [] {
      SetFeedbackKeepsInvariants(ms[1..], id, f);
      assert r[1..] == SetFeedback(ms[1..], id, f);
      assert r == [r[0]] + r[1..];
      assert ms == [ms[0]] + ms[1..];
      TypingCountAppend([r[0]], r[1..]);
      TypingCountAppend([ms[0]], ms[1..]);
    }
    if UserMessagesAreText(ms) {
      SetFeedbackAt(ms, id, f);
      forall m | m in r && m.role == User ensures m.content.Text? && !m.isTyping {
        var k :| 0 <= k < |r| && r[k] == m;
        assert ms[k] in ms;
      }
    }
  }

  // ---- Mood suggestion (chat.tsx line 220) ----

  /** `[...messages].reverse().find(m => m.role === 'user')`, as an index: the last user
      message, or -1 when there is none. */
  function LastUserIndex(ms: seq<Message>): (i: int)
    ensures -1 <= i < |ms|
    ensures i == -1 <==> forall k :: 0 <= k < |ms| ==> ms[k].role != User
    ensures 0 <= i ==> ms[i].role == User && forall k :: i < k < |ms| ==> ms[k].role != User
  {
    if ms == [] then -1
    else if ms[|ms| - 1].role == User then |ms| - 1
    else LastUserIndex(ms[..|ms| - 1])
  }
}
