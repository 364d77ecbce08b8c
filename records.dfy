/**
 * The records of src/shared/contracts.ts and the table rows they are read
 * from. A row is the record as SQLite stores it: the list-valued columns are
 * JSON text (see ArrayCodec) and tickets carry their per-project `sequence`,
 * which the record does not expose. Timestamps are naturals ordered like the
 * ISO-8601 strings the source writes.
 */
module Contracts {
  import opened Text
  import opened ArrayCodec

  type Timestamp = nat

  /** The text a timestamp is written as where the source prints it. */
  function TimestampText(t: Timestamp): string {
    NatToDecimal(t)
  }

  datatype TicketStatus = Backlog | ToQualify | Ready | InProgress | InReview | Blocked | AskBoss | Done
  datatype TicketType = Story | Feature | Bug | Task | Chore
  datatype TicketPriority = P0 | P1 | P2 | P3

  function StatusName(s: TicketStatus): string {
    match s
    case Backlog => "backlog"
    case ToQualify => "to-qualify"
    case Ready => "ready"
    case InProgress => "in-progress"
    case InReview => "in-review"
    case Blocked => "blocked"
    case AskBoss => "ask-boss"
    case Done => "done"
  }

  function TypeName(t: TicketType): string {
    match t
    case Story => "story"
    case Feature => "feature"
    case Bug => "bug"
    case Task => "task"
    case Chore => "chore"
  }

  function PriorityName(p: TicketPriority): string {
    match p
    case P0 => "P0"
    case P1 => "P1"
    case P2 => "P2"
    case P3 => "P3"
  }

  /** `ProjectRecord`; a `projects` row has exactly these columns. */
  datatype Project = Project(
    id: string,
    name: string,
    description: string,
    repoPath: string,
    figmaLink: string,
    conventions: string,
    agentsConfiguration: string,
    isArchived: bool,
    createdAt: Timestamp,
    updatedAt: Timestamp)

  /** `TicketRecord`. */
  datatype TicketRecord = TicketRecord(
    id: string,
    projectId: string,
    title: string,
    ticketType: TicketType,
    priority: TicketPriority,
    status: TicketStatus,
    assignee: string,
    estimate: int,
    specMarkdown: string,
    acceptanceCriteria: string,
    testPlan: string,
    dependencies: seq<string>,
    labels: seq<string>,
    createdAt: Timestamp,
    updatedAt: Timestamp)

  /** A `tickets` row. */
  datatype TicketRow = TicketRow(
    id: string,
    projectId: string,
    sequence: nat,
    title: string,
    ticketType: TicketType,
    priority: TicketPriority,
    status: TicketStatus,
    assignee: string,
    estimate: int,
    specMarkdown: string,
    acceptanceCriteria: string,
    testPlan: string,
    dependencies: JsonText,
    labels: JsonText,
    createdAt: Timestamp,
    updatedAt: Timestamp)

  /** `AgentRecord`. */
  datatype AgentRecord = AgentRecord(
    id: string,
    projectId: string,
    agentId: string,
    displayName: string,
    role: string,
    personality: string,
    skills: seq<string>,
    rules: seq<string>,
    defaultPrompt: string,
    avatarUrl: string,
    isActive: bool,
    createdAt: Timestamp,
    updatedAt: Timestamp)

  /** An `agents` row. */
  datatype AgentRow = AgentRow(
    id: string,
    projectId: string,
    agentId: string,
    displayName: string,
    role: string,
    personality: string,
    skills: JsonText,
    rules: JsonText,
    defaultPrompt: string,
    avatarUrl: string,
    isActive: bool,
    createdAt: Timestamp,
    updatedAt: Timestamp)

  /** `ChatMessage`; a `chat_messages` row has exactly these columns. */
  datatype ChatMessage = ChatMessage(
    id: string,
    projectId: string,
    agentId: string,
    author: string,
    content: string,
    createdAt: Timestamp)

  /** `MemoryEntry`, one line of a project's memory log. */
  datatype MemoryEntry = MemoryEntry(
    sessionId: string,
    date: string,
    projectId: string,
    agentId: string,
    taskSummary: string,
    successes: seq<string>,
    failures: seq<string>,
    userPreferences: seq<string>,
    userFrustrations: seq<string>,
    decisionsTaken: seq<string>,
    lessonsLearned: seq<string>,
    filesChanged: seq<string>,
    commandsRun: seq<string>,
    nextSessionFocus: seq<string>)

  /** `mapTicket`: a row as the API returns it (list columns decoded leniently, sequence dropped). */
  function MapTicket(row: TicketRow): TicketRecord {
    TicketRecord(
      row.id, row.projectId, row.title, row.ticketType, row.priority, row.status,
      row.assignee, row.estimate, row.specMarkdown, row.acceptanceCriteria, row.testPlan,
      ParseJsonArray(TextCell(row.dependencies)), ParseJsonArray(TextCell(row.labels)),
      row.createdAt, row.updatedAt)
  }

  /** `mapAgent`: a row as the API returns it (list columns decoded leniently). */
  function MapAgent(row: AgentRow): AgentRecord {
    AgentRecord(
      row.id, row.projectId, row.agentId, row.displayName, row.role, row.personality,
      ParseJsonArray(TextCell(row.skills)), ParseJsonArray(TextCell(row.rules)),
      row.defaultPrompt, row.avatarUrl, row.isActive, row.createdAt, row.updatedAt)
  }
}
