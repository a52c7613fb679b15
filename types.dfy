/** The records of the chat component: messages as the conversation list holds them
    (GenAi/src/lib/types.ts), daily progress records, the history entries sent to the
    reply generator and the results the hosted prompts return. */
module Types {

  datatype Option<T> = None | Some(value: T)

  datatype Role = User | Assistant

  datatype Feedback = Good | Bad

  datatype SuggestionType = Music | Meditation | Art | Quote

  /** What a message shows: plain (markdown) text, the help-resources card built from a
      distress assessment, or the mood-suggestion card. */
  datatype Content =
    | Text(text: string)
    | ResourceCard(resources: seq<string>)
    | SuggestionCard(kind: SuggestionType, suggestion: string)

  /** `feedback` is None both when it was never given and when it was reset to null. */
  datatype Message = Message(id: string, role: Role, content: Content, feedback: Option<Feedback>, isTyping: bool)

  /** One calendar day's running mean sentiment and number of samples. */
  datatype ProgressRecord = ProgressRecord(date: string, sentiment: real, count: nat)

  /** The reply generator's vocabulary for who spoke: 'user' or 'bot'. */
  datatype Speaker = UserSpeaker | BotSpeaker

  datatype HistoryEntry = HistoryEntry(role: Speaker, content: string)

  /** One settled promise of `Promise.allSettled`: fulfilled with a value, or rejected. */
  datatype Settled<T> = Fulfilled(value: T) | Rejected

  datatype Distress = Distress(isDistressed: bool, sentimentScore: real, suggestedResources: seq<string>)

  datatype Suggestion = Suggestion(suggestionType: SuggestionType, suggestion: string)

  const WelcomeId := "welcome"
  const VentOnId := "vent-mode-on"
  const VentOffId := "vent-mode-off"

  const WelcomeText := "Hello! I'm SindhanaiBot, your empathetic companion. Feel free to share what's on your mind. I'm here to listen without judgment."
  const VentOnText := "Safe Vent Mode is on. I'm here to listen. Let it all out."
  const VentOffText := "Vent Mode is off. I'll respond with more interaction now."
  const VentAckText := "I hear you. Thank you for sharing that with me."
  const FallbackText := "I'm having a little trouble connecting right now. Please try again in a moment."
  const ErrorText := "I'm sorry, something went wrong on my end."

  function AssistantText(id: string, text: string): Message
  {
    Message(id, Assistant, Text(text), None, false)
  }

  function UserMessage(id: string, text: string): Message
  {
    Message(id, User, Text(text), None, false)
  }

  /** The "Thinking..." placeholder: an assistant message with empty text. */
  function TypingIndicator(id: string): Message
  {
    Message(id, Assistant, Text(""), None, true)
  }

  function VentAck(id: string): Message
  {
    AssistantText(id, VentAckText)
  }

  function ResourceMessage(id: string, resources: seq<string>): Message
  {
    Message(id, Assistant, ResourceCard(resources), None, false)
  }

  function SuggestionMessage(id: string, s: Suggestion): Message
  {
    Message(id, Assistant, SuggestionCard(s.suggestionType, s.suggestion), None, false)
  }

  const WelcomeMessage := AssistantText(WelcomeId, WelcomeText)
  const VentOnMessage := AssistantText(VentOnId, VentOnText)
  const VentOffMessage := AssistantText(VentOffId, VentOffText)
}
