/**
 * The records the client exchanges with the server: messages as rendered,
 * the body of a chat request, catalogue entries and conversation summaries.
 */
module Types {
  import opened Wrappers

  datatype Role = User | Assistant

  function RoleName(r: Role): string {
    match r
    case User => "user"
    case Assistant => "assistant"
  }

  /** One chat turn as the client renders it; `timestamp` is kept in its ISO text form. */
  datatype Message = Message(
    id: string,
    role: Role,
    content: string,
    model: string,
    timestamp: string,
    conversationId: Option<string>)

  datatype HistoryEntry = HistoryEntry(role: Role, content: string)

  /** The JSON body of `POST /api/chat`. */
  datatype ChatRequest = ChatRequest(
    conversationId: string,
    message: string,
    model: string,
    history: seq<HistoryEntry>)

  datatype Provider = OpenAi | Claude | Google

  function ProviderName(p: Provider): string {
    match p
    case OpenAi => "openai"
    case Claude => "claude"
    case Google => "google"
  }

  datatype ModelInfo = ModelInfo(id: string, name: string, provider: Provider, description: string)

  datatype ConversationSummary = ConversationSummary(
    id: string,
    title: string,
    createdAt: string,
    updatedAt: string,
    messageCount: int,
    lastMessagePreview: string)

  datatype ConversationResponse = ConversationResponse(
    id: string,
    title: string,
    createdAt: string,
    updatedAt: string)

  /** A stored message as `GET /api/conversations/{id}/messages` returns it. */
  datatype ConversationMessage = ConversationMessage(
    id: nat,
    conversationId: string,
    role: Role,
    content: string,
    model: string,
    timestamp: string)

  /** The default conversation title, shared by client and server. */
  const DefaultTitle: string := "新しいチャット"
}
