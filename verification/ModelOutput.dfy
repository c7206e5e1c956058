/** What one model step commits: ordered blocks and the replay attachments anchored to them. */
module ModelOutput {
  import opened Options

  type AgentId = string
  type TurnId = string
  type CallId = string

  /** One output position of the provider, ordered by item and then by part. */
  datatype Position = Position(item: nat, part: nat) {
    predicate Less(other: Position) {
      item < other.item || (item == other.item && part < other.part)
    }
  }

  datatype Role = Assistant | Reasoning

  datatype StepId = StepId(turn: TurnId, index: nat)

  /** A transcript item: either streamed at a position of a step, or named by a tool call. */
  datatype ItemId =
    | StreamItem(step: StepId, role: Role, position: Position)
    | ToolItem(agent: AgentId, call: CallId)

  datatype ToolCall = ToolCall(id: CallId, name: string, arguments: string)

  datatype ServerToolStatus = ToolCompleted | ToolFailed

  /** `text` is the provider-authored text of the action; its length is what the step bounds. */
  datatype ServerCall = ServerCall(tool: string, text: string, status: ServerToolStatus)

  datatype Block =
    | ReplayOnly(item: ItemId)
    | Text(item: ItemId, text: string)
    | ReasoningText(item: ItemId, text: string)
    | Call(item: ItemId, call: ToolCall)
    | ServerToolCall(item: ItemId, serverCall: ServerCall)

  /** One opaque provider payload with the realm it may be replayed in. */
  datatype ProviderReplay = ProviderReplay(realm: string, payload: string)

  datatype Attachment = Attachment(block: nat, payload: string)

  datatype AssistantReplay = AssistantReplay(realm: string, attachments: seq<Attachment>)

  datatype Output = Output(blocks: seq<Block>, replay: Option<AssistantReplay>)
}
