/** The records of one conversation and the state they reduce to. */
module JournalModel {
  import opened Options
  import opened ModelOutput

  type EntryId = string
  type HeadName = string
  type RecordId = string
  type AttemptId = string
  type CompactionId = string

  /** A reference into the collaboration ledger; `wellFormed` is that ledger's own check. */
  datatype Reference = Reference(item: string, wellFormed: bool)

  /** The nearest checkpoint of a branch, or the original context. */
  datatype Epoch = Original | AtCheckpoint(entry: EntryId)

  /** The exact branch position a compaction was planned on. */
  datatype Source = Source(head: HeadName, revision: nat, boundary: EntryId, epoch: Epoch)

  /**
   * A replacement context. `cutResolves` stands for the projection of the branch resolving the
   * planned cut, which is not part of this model.
   */
  datatype Checkpoint = Checkpoint(
    compaction: CompactionId,
    source: Source,
    environment: string,
    attempt: AttemptId,
    cutResolves: bool)

  datatype Payload =
    | AgentCreated(agent: AgentId, idle: bool)
    | TurnStarted(agent: AgentId, turn: TurnId)
    | CollaborationTurnStarted(agent: AgentId, turn: TurnId, reference: Reference)
    | TurnRetried(agent: AgentId, sourceTurn: TurnId, turn: TurnId)
    | SteeringAccepted(agent: AgentId, turn: TurnId)
    | SkillActivated(agent: AgentId, turn: TurnId)
    | TurnStatusChanged(agent: AgentId, turn: TurnId)
    | AssistantOutput(agent: AgentId, step: StepId, output: Output)
    | CollaborationItemLinked(agent: AgentId, reference: Reference)
    | CompactionCheckpoint(agent: AgentId, checkpoint: Checkpoint)
    | ToolCallRequested(agent: AgentId, call: CallId)
    | ToolCallChanged(agent: AgentId, call: CallId)
    | RuntimeError(agent: AgentId, message: string)
    | OtherFact(agent: AgentId, content: string)

  datatype Entry = Entry(id: EntryId, parent: Option<EntryId>, payload: Payload)

  datatype TurnOutcome = Completed | Interrupted | Failed | Shutdown | StepBudgetReached | ProcessDied

  datatype FinishedAt = Observed(at: nat) | Recovered(at: nat)

  datatype TurnFinish = TurnFinish(
    agent: AgentId,
    turn: TurnId,
    boundary: EntryId,
    outcome: TurnOutcome,
    at: FinishedAt)

  datatype AttemptOwner = AgentStep(step: StepId) | Compaction(compaction: CompactionId)

  datatype Authorization = Authorization(
    attempt: AttemptId,
    owner: AttemptOwner,
    boundary: EntryId,
    environment: string)

  /** `consistent` is the terminal's own timing and usage check. */
  datatype Terminal = Terminal(attempt: AttemptId, rateLimited: bool, consistent: bool)

  datatype Attempt = Attempt(authorization: Authorization, terminal: Option<Terminal>)

  /** `bounded` is the collected result's own check, `replayMatches` its replay realm check. */
  datatype Collected = Collected(
    terminal: Terminal,
    complete: bool,
    bounded: bool,
    replayMatches: bool)

  datatype Record =
    | AppendEntry(sequence: nat, id: RecordId, head: HeadName, expected: nat, entry: Entry)
    | CreateHead(sequence: nat, id: RecordId, head: HeadName, at: Option<EntryId>)
    | MoveHead(sequence: nat, id: RecordId, head: HeadName, expected: nat, to: Option<EntryId>)
    | RenameHead(sequence: nat, id: RecordId, head: HeadName, expected: nat, renamed: HeadName)
    | AbandonHead(sequence: nat, id: RecordId, head: HeadName, expected: nat)
    | ForkAndSelectHead(sequence: nat, id: RecordId, source: HeadName, expected: nat,
                        destination: HeadName, at: Option<EntryId>)
    | SelectHead(sequence: nat, id: RecordId, expectedSelected: HeadName,
                 destination: HeadName, expected: nat)
    | SetEntryLabel(sequence: nat, id: RecordId, target: EntryId, text: Option<string>)
    | FinishTurn(sequence: nat, id: RecordId, head: HeadName, expected: nat, finish: TurnFinish)
    | AuthorizeAttempt(sequence: nat, id: RecordId, head: HeadName, expected: nat,
                       authorization: Authorization)
    | FinishAttempt(sequence: nat, id: RecordId, terminal: Terminal)
    | FinishCompaction(sequence: nat, id: RecordId, collected: Collected)

  datatype Head = Head(target: Option<EntryId>, revision: nat, open: Option<TurnId>)

  datatype TurnStart = TurnStart(agent: AgentId, entry: EntryId)

  datatype JournalState = JournalState(
    session: string,
    nextSequence: nat,
    records: seq<Record>,
    recordIds: set<RecordId>,
    entries: map<EntryId, Entry>,
    labels: map<EntryId, string>,
    entrySequences: map<EntryId, nat>,
    stable: set<EntryId>,
    unstable: map<EntryId, TurnId>,
    heads: map<HeadName, Head>,
    selected: HeadName,
    retired: set<HeadName>,
    starts: map<TurnId, TurnStart>,
    finishes: map<TurnId, TurnFinish>,
    steps: set<StepId>,
    lastSteps: map<TurnId, nat>,
    attempts: map<AttemptId, Attempt>,
    attemptOrder: seq<AttemptId>,
    activeOwners: map<AttemptOwner, AttemptId>,
    compactions: map<AttemptId, nat>)

  const MAIN: HeadName := "main"

  /** A conversation with no record: the head `main` at revision zero on the empty root. */
  function Empty(session: string): JournalState {
    JournalState(session, 1, [], {}, map[], map[], map[], {}, map[],
                 map[MAIN := Head(None, 0, None)], MAIN, {},
                 map[], map[], {}, map[], map[], [], map[], map[])
  }

  /** The agent and turn a payload opens, for the three payloads that open one. */
  function StartedTurn(payload: Payload): Option<(AgentId, TurnId)> {
    match payload
    case TurnStarted(agent, turn) => Some((agent, turn))
    case CollaborationTurnStarted(agent, turn, _) => Some((agent, turn))
    case TurnRetried(agent, _, turn) => Some((agent, turn))
    case _ => None
  }
}
