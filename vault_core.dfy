/**
 * `VaultCore` (src/main/core/vault-core.ts): the local store of projects,
 * tickets, agents and chat messages, and the per-project memory logs. The
 * SQLite tables are sequences of rows in insertion order, the log files a
 * map from project id to lines (a missing key is a missing file), and the
 * open database handle a flag. Fresh UUIDs, the clock and the VAULT_0
 * server's replies are parameters.
 */
module Vault {
  import opened Wrappers
  import opened Text
  import opened ArrayCodec
  import opened Contracts
  import opened Slug
  import opened Schema
  import opened Tables
  import opened Listing
  import opened MemoryLog
  import opened Remote
  import opened Bridge
  import opened Handoff

  /** The errors the store throws, each with the message the source gives it. */
  datatype StoreError =
    | NotInitialized
    | ProjectNotFound
    | TicketNotFound
    | TargetProjectNotFound
    | SourceAgentNotFound
    | SourceTicketNotFound
    | DuplicateTicketId     // SQLite's primary-key violation on `tickets.id`
    | ForeignKeyFailed      // SQLite's foreign-key violation on `agents.projectId`
    | RemoteFailed(error: RemoteError)
  {
    function Message(): string {
      match this
      case NotInitialized => "VaultCore is not initialized"
      case ProjectNotFound => "Project not found"
      case TicketNotFound => "Ticket not found"
      case TargetProjectNotFound => "Target project not found"
      case SourceAgentNotFound => "Source agent not found in VAULT_0"
      case SourceTicketNotFound => "Source ticket not found in VAULT_0"
      case DuplicateTicketId => "UNIQUE constraint failed: tickets.id"
      case ForeignKeyFailed => "FOREIGN KEY constraint failed"
      case RemoteFailed(e) => e.Message()
    }
  }

  // ---------------------------------------------------------------------------
  // Inputs and the rows built from them.

  /** `SendChatMessageInput`. */
  datatype MessageInput = MessageInput(projectId: string, agentId: string, author: string, content: string)

  /** `AppendMemoryInput`. */
  datatype MemoryInput = MemoryInput(
    agentId: string,
    taskSummary: string,
    successes: Option<seq<string>>,
    failures: Option<seq<string>>,
    userPreferences: Option<seq<string>>,
    userFrustrations: Option<seq<string>>,
    decisionsTaken: Option<seq<string>>,
    lessonsLearned: Option<seq<string>>,
    filesChanged: Option<seq<string>>,
    commandsRun: Option<seq<string>>,
    nextSessionFocus: Option<seq<string>>)

  /** The entry `appendMemory` writes: the summary trimmed, absent lists empty. */
  function NewEntry(sessionId: string, projectId: string, input: MemoryInput, now: Timestamp): MemoryEntry {
    MemoryEntry(
      sessionId, TimestampText(now), projectId, input.agentId, Trim(input.taskSummary),
      input.successes.GetOr([]), input.failures.GetOr([]), input.userPreferences.GetOr([]),
      input.userFrustrations.GetOr([]), input.decisionsTaken.GetOr([]), input.lessonsLearned.GetOr([]),
      input.filesChanged.GetOr([]), input.commandsRun.GetOr([]), input.nextSessionFocus.GetOr([]))
  }

  /** `createDefaultAgentPrompt`. */
  function DefaultAgentPrompt(displayName: string): string {
    displayName + ": execute tickets with strict TDD, local-first architecture, and deterministic delivery."
  }

  /** The columns `seedDefaultAgents` gives one of the two default agents. */
  datatype AgentProfile = AgentProfile(
    agentId: string, displayName: string, role: string, personality: string, skills: seq<string>, rules: seq<string>)

  const CodexDevKey: string := "codex-dev"
  const AgentPmKey: string := "agent-pm"

  /** The first agent `seedDefaultAgents` upserts. */
  function CodexDevProfile(): AgentProfile {
    AgentProfile(
      CodexDevKey, "Codex Dev", "developer", "direct, pragmatic, rigorous",
      ["typescript", "testing", "debugging", "delivery"],
      ["Read project docs before coding.", "Follow strict TDD.", "Keep scope aligned with assigned ticket."])
  }

  /** The second agent `seedDefaultAgents` upserts. */
  function AgentPmProfile(): AgentProfile {
    AgentProfile(
      AgentPmKey, "Agent PM", "project manager", "structured, execution-focused",
      ["ticketing", "prioritization", "spec-writing"],
      ["Write executable tickets.", "Always include acceptance criteria and test plan."])
  }

  /** The upsert `seedDefaultAgents` makes for a default agent: its prompt is built from its name, avatar and activity are left unset. */
  function DefaultAgentInput(projectId: string, p: AgentProfile): AgentInput {
    AgentInput(
      projectId, p.agentId, p.displayName, Some(p.role), Some(p.personality), Some(p.skills), Some(p.rules),
      Some(DefaultAgentPrompt(p.displayName)), None, None)
  }

  /** Two default agents whose keys are already trimmed and differ, so seeding them adds two rows. */
  predicate DistinctDefaults(first: AgentProfile, second: AgentProfile) {
    IsTrimmed(first.agentId) && IsTrimmed(second.agentId) && first.agentId != second.agentId
  }

  /** The two default agents' keys have no white space at either end and differ. */
  lemma DefaultKeysDistinct()
    ensures DistinctDefaults(CodexDevProfile(), AgentPmProfile())
  {
    DefaultKeysTrimmed();
  }

  lemma DefaultKeysTrimmed()
    ensures IsTrimmed(CodexDevKey) && IsTrimmed(AgentPmKey) && CodexDevKey[0] != AgentPmKey[0]
  {
    var a, c := CodexDevKey, AgentPmKey;
    assert a[0] == 'c' && a[|a| - 1] == 'v';
    assert c[0] == 'a' && c[|c| - 1] == 'm';
  }

  /** The two default agents are stored under the keys `codex-dev` and `agent-pm`, as given. */
  lemma DefaultAgentKeys(projectId: string)
    ensures Trim(DefaultAgentInput(projectId, CodexDevProfile()).agentId) == CodexDevKey
    ensures Trim(DefaultAgentInput(projectId, AgentPmProfile()).agentId) == AgentPmKey
  {
    DefaultKeysTrimmed();
    TrimOfTrimmed(CodexDevKey);
    TrimOfTrimmed(AgentPmKey);
  }

  /** The agents table after `seedDefaultAgents`: the first default agent upserted, then the second. */
  function SeededRows(
    agents: seq<AgentRow>, projectId: string, first: AgentProfile, second: AgentProfile,
    firstId: string, secondId: string, now: Timestamp): seq<AgentRow>
  {
    UpsertRows(UpsertRows(agents, DefaultAgentInput(projectId, first), firstId, now), DefaultAgentInput(projectId, second), secondId, now)
  }

  /**
   * Seeding a project that has no agents yet appends the two default
   * agents' rows, in order, under the fresh ids and created now.
   */
  lemma SeedingNewProject(
    agents: seq<AgentRow>, projectId: string, first: AgentProfile, second: AgentProfile,
    firstId: string, secondId: string, now: Timestamp)
    requires DistinctDefaults(first, second)
    requires forall j :: 0 <= j < |agents| ==> agents[j].projectId != projectId
    ensures SeededRows(agents, projectId, first, second, firstId, secondId, now) ==
              agents + [AgentColumns(firstId, now, DefaultAgentInput(projectId, first), now),
                        AgentColumns(secondId, now, DefaultAgentInput(projectId, second), now)]
  {
    var firstInput, secondInput := DefaultAgentInput(projectId, first), DefaultAgentInput(projectId, second);
    TrimOfTrimmed(first.agentId);
    TrimOfTrimmed(second.agentId);
    UpsertNewKey(agents, firstInput, firstId, now);
    var withFirst := agents + [AgentColumns(firstId, now, firstInput, now)];
    assert forall j :: 0 <= j < |withFirst| ==> withFirst[j].projectId != projectId || withFirst[j].agentId != second.agentId by {
      forall j | 0 <= j < |withFirst|
        ensures withFirst[j].projectId != projectId || withFirst[j].agentId != second.agentId
      {
        if j < |agents| {
          assert withFirst[j] == agents[j];
        }
      }
    }
    UpsertNewKey(withFirst, secondInput, secondId, now);
  }

  /** `ImportAgentFromVault0Input` and `ImportTicketFromVault0Input`: the source is named by `sourceId`. */
  datatype ImportInput = ImportInput(baseUrl: string, sourceProjectId: string, sourceId: string, targetProjectId: string)

  /** The remote agent an import copies: the first whose `id` or `agentId` is the source id. */
  function PickSourceAgent(sourceProjectId: string, sourceId: string, reply: Reply<AgentRecord>): (r: Result<AgentRecord, StoreError>)
    ensures FetchList(AgentsRoute(sourceProjectId), reply).Err? ==>
              r == Err(RemoteFailed(FetchList(AgentsRoute(sourceProjectId), reply).error))
    ensures r.Ok? <==> FetchList(AgentsRoute(sourceProjectId), reply).Ok? &&
                       SourceAgentIndex(FetchList(AgentsRoute(sourceProjectId), reply).value, sourceId).Some?
    ensures r.Ok? ==> (r.value.id == sourceId || r.value.agentId == sourceId)
    ensures r.Err? && FetchList(AgentsRoute(sourceProjectId), reply).Ok? ==> r == Err(SourceAgentNotFound)
  {
    match FetchList(AgentsRoute(sourceProjectId), reply)
    case Err(e) => Err(RemoteFailed(e))
    case Ok(agents) =>
      match SourceAgentIndex(agents, sourceId)
      case None => Err(SourceAgentNotFound)
      case Some(i) => Ok(agents[i])
  }

  /** The remote ticket an import copies: the first whose `id` is the source id. */
  function PickSourceTicket(sourceProjectId: string, sourceId: string, reply: Reply<TicketRecord>): (r: Result<TicketRecord, StoreError>)
    ensures FetchList(TicketsRoute(sourceProjectId), reply).Err? ==>
              r == Err(RemoteFailed(FetchList(TicketsRoute(sourceProjectId), reply).error))
    ensures r.Ok? <==> FetchList(TicketsRoute(sourceProjectId), reply).Ok? &&
                       SourceTicketIndex(FetchList(TicketsRoute(sourceProjectId), reply).value, sourceId).Some?
    ensures r.Ok? ==> r.value.id == sourceId
    ensures r.Err? && FetchList(TicketsRoute(sourceProjectId), reply).Ok? ==> r == Err(SourceTicketNotFound)
  {
    match FetchList(TicketsRoute(sourceProjectId), reply)
    case Err(e) => Err(RemoteFailed(e))
    case Ok(tickets) =>
      match SourceTicketIndex(tickets, sourceId)
      case None => Err(SourceTicketNotFound)
      case Some(i) => Ok(tickets[i])
  }

  /** The upsert `importAgentFromVault0` makes: the remote agent's columns under the target project. */
  function ImportedAgent(targetProjectId: string, source: AgentRecord): AgentInput {
    AgentInput(
      targetProjectId, source.agentId, source.displayName, Some(source.role), Some(source.personality),
      Some(source.skills), Some(source.rules), Some(source.defaultPrompt), Some(source.avatarUrl), Some(source.isActive))
  }

  /** The ticket `importTicketFromVault0` creates: the merged labels and the spec behind the provenance banner. */
  function ImportedTicket(targetProjectId: string, source: TicketRecord): TicketInput {
    TicketInput(
      targetProjectId, source.title, source.ticketType, source.priority, source.status, source.assignee,
      Some(source.estimate), Some(PrefixedSpec(source.id, source.projectId, source.specMarkdown)),
      Some(source.acceptanceCriteria), Some(source.testPlan), Some(source.dependencies), Some(MergeLabels(source.labels)))
  }

  /**
   * The row `createTicket` inserts, or why it cannot: the project must be
   * stored, and the id built from its slug and next number must be free.
   */
  function NewTicket(projects: seq<Project>, tickets: seq<TicketRow>, input: TicketInput, now: Timestamp): Result<TicketRow, StoreError> {
    match FindProject(projects, input.projectId)
    case None => Err(ProjectNotFound)
    case Some(project) =>
      var row := TicketColumns(NextTicketId(project, tickets), MaxSequence(tickets, input.projectId) + 1, input, now);
      if row.id in TicketIds(tickets) then Err(DuplicateTicketId) else Ok(row)
  }

  /** A new ticket keeps the schema's constraints and becomes its project's highest-numbered one. */
  lemma NewTicketKeepsSchema(
    projects: seq<Project>, tickets: seq<TicketRow>, agents: seq<AgentRow>, messages: seq<ChatMessage>,
    input: TicketInput, now: Timestamp)
    requires Consistent(projects, tickets, agents, messages)
    ensures var r := NewTicket(projects, tickets, input, now);
            r.Ok? ==> Consistent(projects, tickets + [r.value], agents, messages)
  {
    var r := NewTicket(projects, tickets, input, now);
    if r.Ok? {
      var project := FindProject(projects, input.projectId).value;
      CreateKeepsSchema(projects, tickets, agents, messages, project, r.value);
    }
  }

  /** `createTicket` answers "Project not found" exactly when the project is not stored. */
  lemma NewTicketMissingProject(projects: seq<Project>, tickets: seq<TicketRow>, input: TicketInput, now: Timestamp)
    ensures NewTicket(projects, tickets, input, now) == Err(ProjectNotFound) <==> input.projectId !in ProjectIds(projects)
  {
    if input.projectId in ProjectIds(projects) {
      var k :| 0 <= k < |projects| && projects[k].id == input.projectId;
      assert FindProject(projects, input.projectId).Some?;
    }
  }

  /**
   * A created ticket is the project's, carries the number after its highest
   * and the id built from its slug and that number, takes no stored id, and
   * becomes the project's highest-numbered ticket.
   */
  lemma NewTicketCreated(projects: seq<Project>, tickets: seq<TicketRow>, input: TicketInput, now: Timestamp)
    ensures var r := NewTicket(projects, tickets, input, now);
            r.Ok? ==>
              && r.value.projectId == input.projectId
              && r.value.sequence == MaxSequence(tickets, input.projectId) + 1
              && r.value.id == TicketId(NormalizeProjectSlug(FindProject(projects, input.projectId).value.name), r.value.sequence)
              && r.value.id !in TicketIds(tickets)
              && MaxSequence(tickets + [r.value], input.projectId) == r.value.sequence
  {
    var r := NewTicket(projects, tickets, input, now);
    if r.Ok? {
      MaxSequenceOfNext(tickets, r.value);
    }
  }

  /** The insert fails on a taken id only when another stored project's name gives the same slug. */
  lemma NewTicketClash(
    projects: seq<Project>, tickets: seq<TicketRow>, agents: seq<AgentRow>, messages: seq<ChatMessage>,
    input: TicketInput, now: Timestamp)
    requires Consistent(projects, tickets, agents, messages)
    ensures NewTicket(projects, tickets, input, now) == Err(DuplicateTicketId) ==>
              exists j :: 0 <= j < |projects| && projects[j].id != input.projectId &&
                NormalizeProjectSlug(projects[j].name) == NormalizeProjectSlug(FindProject(projects, input.projectId).value.name)
  {
    if NewTicket(projects, tickets, input, now) == Err(DuplicateTicketId) {
      var project := FindProject(projects, input.projectId).value;
      var k :| 0 <= k < |projects| && projects[k] == project;
      NextIdClashNeedsSameSlug(projects, tickets, agents, messages, k);
    }
  }

  /**
   * Importing the same remote agent twice into a project leaves one row for
   * it, which keeps the id and creation time of the first import.
   */
  lemma ImportAgentTwice(agents: seq<AgentRow>, targetProjectId: string, source: AgentRecord, id1: string, id2: string, t1: Timestamp, t2: Timestamp)
    requires AgentKeysUnique(agents)
    ensures var input := ImportedAgent(targetProjectId, source);
            var once := UpsertRows(agents, input, id1, t1);
            var twice := UpsertRows(once, input, id2, t2);
            |twice| == |once| && twice[UpsertIndex(agents, input)].id == once[UpsertIndex(agents, input)].id
  {
    var input := ImportedAgent(targetProjectId, source);
    UpsertTwice(agents, input, input, id1, id2, t1, t2);
  }

  class VaultCore {
    var isOpen: bool
    var projects: seq<Project>
    var tickets: seq<TicketRow>
    var agents: seq<AgentRow>
    var messages: seq<ChatMessage>
    var memoryLogs: map<string, seq<LogLine>>
    /** The agents every new project is seeded with, in order. */
    const codexDev: AgentProfile
    const agentPm: AgentProfile

    /** The schema's constraints hold of the stored rows, and the default agents have distinct keys. */
    predicate Valid()
      reads this
    {
      Consistent(projects, tickets, agents, messages) && DistinctDefaults(codexDev, agentPm)
    }

    /** A project's memory log file, if it exists. */
    function LogOf(projectId: string): Option<seq<LogLine>>
      reads this
    {
      if projectId in memoryLogs then Some(memoryLogs[projectId]) else None
    }

    /** A store over an empty data root, not yet opened. */
    constructor()
      ensures !isOpen && Valid()
      ensures projects == [] && tickets == [] && agents == [] && messages == [] && memoryLogs == map[]
      ensures codexDev == CodexDevProfile() && agentPm == AgentPmProfile()
    {
      codexDev, agentPm := CodexDevProfile(), AgentPmProfile();
      DefaultKeysDistinct();
      isOpen := false;
      projects, tickets, agents, messages := [], [], [], [];
      memoryLogs := map[];
    }

    /** `init`: opens the database; the tables keep what they hold. */
    method Init()
      modifies this`isOpen
      ensures isOpen
    {
      isOpen := true;
    }

    /** `close`: drops the handle; the data stays on disk. */
    method Close()
      modifies this`isOpen
      ensures !isOpen
    {
      isOpen := false;
    }

    // -------------------------------------------------------------------------
    // Projects.

    /**
     * `createProject`: stores the project with its text trimmed, not
     * archived, created and updated now, and seeds its two default agents,
     * which are then its only agents.
     */
    method CreateProject(input: ProjectInput, projectId: string, codexId: string, pmId: string, now: Timestamp)
      returns (r: Result<Project, StoreError>)
      requires Valid()
      requires projectId !in ProjectIds(projects)
      requires codexId != pmId && codexId !in AgentIds(agents) && pmId !in AgentIds(agents)
      modifies this`projects, this`agents
      ensures Valid()
      ensures !isOpen ==> r == Err(NotInitialized) && projects == old(projects) && agents == old(agents)
      ensures isOpen ==> r == Ok(NewProject(projectId, input, now))
      ensures isOpen ==> projects == old(projects) + [NewProject(projectId, input, now)]
      ensures isOpen ==> agents == SeededRows(old(agents), projectId, codexDev, agentPm, codexId, pmId, now)
    {
      if !isOpen {
        r := Err(NotInitialized);
        return;
      }
      var project := NewProject(projectId, input, now);
      AppendProjectKeepsSchema(projects, tickets, agents, messages, project);
      projects := projects + [project];
      var seeded := SeedDefaultAgents(projectId, codexId, pmId, now);
      r := Ok(project);
    }

    /** `seedDefaultAgents`: upserts `codex-dev`, then `agent-pm`, into the project. */
    method SeedDefaultAgents(projectId: string, codexId: string, pmId: string, now: Timestamp)
      returns (err: Option<StoreError>)
      requires Valid()
      requires codexId != pmId && codexId !in AgentIds(agents) && pmId !in AgentIds(agents)
      modifies this`agents
      ensures Valid()
      ensures err == if !isOpen then Some(NotInitialized)
                     else if projectId !in ProjectIds(projects) then Some(ForeignKeyFailed)
                     else None
      ensures err.Some? ==> agents == old(agents)
      ensures err.None? ==>
                agents == SeededRows(old(agents), projectId, codexDev, agentPm, codexId, pmId, now)
    {
      var first := UpsertAgent(DefaultAgentInput(projectId, codexDev), codexId, now);
      if first.Err? {
        err := Some(first.error);
        return;
      }
      var second := UpsertAgent(DefaultAgentInput(projectId, agentPm), pmId, now);
      // The first upsert found the store open and the project stored, so the second succeeds too.
      assert second.Ok?;
      err := None;
    }

    /** `listProjects`: all projects, or the unarchived ones, most recently updated first. */
    method ListProjects(includeArchived: bool) returns (r: Result<seq<Project>, StoreError>)
      ensures !isOpen ==> r == Err(NotInitialized)
      ensures isOpen ==> r == Ok(ListProjectsOf(projects, includeArchived))
    {
      if !isOpen {
        return Err(NotInitialized);
      }
      r := Ok(ListProjectsOf(projects, includeArchived));
    }

    /** `getProjectById`: the project with that id, if any. */
    method GetProjectById(projectId: string) returns (r: Result<Option<Project>, StoreError>)
      ensures !isOpen ==> r == Err(NotInitialized)
      ensures isOpen ==> r.Ok? && (r.value.None? <==> projectId !in ProjectIds(projects))
      ensures isOpen && r.value.Some? ==> r.value.value in projects && r.value.value.id == projectId
    {
      if !isOpen {
        return Err(NotInitialized);
      }
      r := Ok(FindProject(projects, projectId));
    }

    /**
     * `setProjectArchiveState`: sets the flag and `updatedAt` of the project
     * and nothing else, or fails when there is no such project.
     */
    method SetProjectArchiveState(projectId: string, isArchived: bool, now: Timestamp)
      returns (r: Result<Project, StoreError>)
      requires Valid()
      modifies this`projects
      ensures Valid()
      ensures !isOpen ==> r == Err(NotInitialized)
      ensures isOpen && projectId !in ProjectIds(old(projects)) ==> r == Err(ProjectNotFound)
      ensures r.Ok? <==> isOpen && projectId in ProjectIds(old(projects))
      ensures r.Err? ==> projects == old(projects)
      ensures r.Ok? ==> projects == ArchiveRows(old(projects), projectId, isArchived, now)
      ensures r.Ok? ==> r.value.id == projectId && r.value.isArchived == isArchived && r.value.updatedAt == now
      ensures r.Ok? ==> FindProject(projects, projectId).Some? && r.value == FindProject(projects, projectId).value
      ensures r.Ok? ==> r.value == FindProject(old(projects), projectId).value.(isArchived := isArchived, updatedAt := now)
    {
      if !isOpen {
        return Err(NotInitialized);
      }
      if projectId !in ProjectIds(projects) {
        return Err(ProjectNotFound);
      }
      var project := FindProject(projects, projectId).value;
      ArchiveKeepsSchema(projects, tickets, agents, messages, projectId, isArchived, now);
      projects := ArchiveRows(projects, projectId, isArchived, now);
      r := Ok(project.(isArchived := isArchived, updatedAt := now));
    }

    // -------------------------------------------------------------------------
    // Tickets.

    /**
     * `createTicket`: the project's next ticket, numbered one past its
     * highest and named by its slug; appended and nothing else changed.
     * The insert fails when another project with the same slug already
     * holds that id.
     */
    method CreateTicket(input: TicketInput, now: Timestamp) returns (r: Result<TicketRecord, StoreError>)
      requires Valid()
      modifies this`tickets
      ensures Valid()
      ensures !isOpen ==> r == Err(NotInitialized) && tickets == old(tickets)
      ensures isOpen && NewTicket(projects, old(tickets), input, now).Err? ==>
                r == Err(NewTicket(projects, old(tickets), input, now).error) && tickets == old(tickets)
      ensures isOpen && NewTicket(projects, old(tickets), input, now).Ok? ==>
                r == Ok(MapTicket(NewTicket(projects, old(tickets), input, now).value)) &&
                tickets == old(tickets) + [NewTicket(projects, old(tickets), input, now).value]
    {
      if !isOpen {
        return Err(NotInitialized);
      }
      var outcome := NewTicket(projects, tickets, input, now);
      if outcome.Err? {
        return Err(outcome.error);
      }
      NewTicketKeepsSchema(projects, tickets, agents, messages, input, now);
      tickets := tickets + [outcome.value];
      r := Ok(MapTicket(outcome.value));
    }

    /** `listTickets`: the project's tickets, most recently updated first, then by id descending. */
    method ListTickets(projectId: string) returns (r: Result<seq<TicketRecord>, StoreError>)
      ensures !isOpen ==> r == Err(NotInitialized)
      ensures isOpen ==> r == Ok(ListTicketsOf(tickets, projectId))
    {
      if !isOpen {
        return Err(NotInitialized);
      }
      r := Ok(ListTicketsOf(tickets, projectId));
    }

    /**
     * `updateTicketStatus`: sets the status and `updatedAt` of the ticket and
     * nothing else, or fails when there is no such ticket.
     */
    method UpdateTicketStatus(ticketId: string, status: TicketStatus, now: Timestamp)
      returns (r: Result<TicketRecord, StoreError>)
      requires Valid()
      modifies this`tickets
      ensures Valid()
      ensures !isOpen ==> r == Err(NotInitialized)
      ensures isOpen && ticketId !in TicketIds(old(tickets)) ==> r == Err(TicketNotFound)
      ensures r.Ok? <==> isOpen && ticketId in TicketIds(old(tickets))
      ensures r.Err? ==> tickets == old(tickets)
      ensures r.Ok? ==> tickets == StatusRows(old(tickets), ticketId, status, now)
      ensures r.Ok? ==> r.value.id == ticketId && r.value.status == status && r.value.updatedAt == now
      ensures r.Ok? ==> FindTicket(tickets, ticketId).Some? && r.value == MapTicket(FindTicket(tickets, ticketId).value)
      ensures r.Ok? ==> r.value == MapTicket(FindTicket(old(tickets), ticketId).value.(status := status, updatedAt := now))
    {
      if !isOpen {
        return Err(NotInitialized);
      }
      if ticketId !in TicketIds(tickets) {
        return Err(TicketNotFound);
      }
      var row := FindTicket(tickets, ticketId).value;
      StatusKeepsSchema(projects, tickets, agents, messages, ticketId, status, now);
      tickets := StatusRows(tickets, ticketId, status, now);
      r := Ok(MapTicket(row.(status := status, updatedAt := now)));
    }

    // -------------------------------------------------------------------------
    // Agents.

    /**
     * `upsertAgent`: rewrites the row keyed by (projectId, trimmed agentId)
     * in place, or inserts one under the fresh id; an insert for a project
     * that does not exist violates the foreign key. Afterwards exactly one
     * row carries the key.
     */
    method UpsertAgent(input: AgentInput, freshId: string, now: Timestamp) returns (r: Result<AgentRecord, StoreError>)
      requires Valid()
      requires freshId !in AgentIds(agents)
      modifies this`agents
      ensures Valid()
      ensures !isOpen ==> r == Err(NotInitialized)
      ensures isOpen && input.projectId !in ProjectIds(projects) ==> r == Err(ForeignKeyFailed)
      ensures r.Ok? <==> isOpen && input.projectId in ProjectIds(projects)
      ensures r.Err? ==> agents == old(agents)
      ensures r.Ok? ==> agents == UpsertRows(old(agents), input, freshId, now)
      ensures r.Ok? ==> AgentKeyIndex(agents, input.projectId, Trim(input.agentId)).Some?
      ensures r.Ok? ==> r.value == MapAgent(agents[AgentKeyIndex(agents, input.projectId, Trim(input.agentId)).value])
      ensures AgentIds(agents) <= AgentIds(old(agents)) + {freshId}
    {
      if !isOpen {
        return Err(NotInitialized);
      }
      var i := UpsertIndex(agents, input);
      if i < |agents| {
        assert agents[i].projectId in ProjectIds(projects);
      } else if input.projectId !in ProjectIds(projects) {
        return Err(ForeignKeyFailed);
      }
      UpsertKeepsSchema(projects, tickets, agents, messages, input, freshId, now);
      UpsertIds(agents, input, freshId, now);
      agents := UpsertRows(agents, input, freshId, now);
      r := Ok(MapAgent(agents[i]));
    }

    /** `listAgents`: the project's agents (only the active ones unless asked), active first, then by name. */
    method ListAgents(projectId: string, includeInactive: bool) returns (r: Result<seq<AgentRecord>, StoreError>)
      ensures !isOpen ==> r == Err(NotInitialized)
      ensures isOpen ==> r == Ok(ListAgentsOf(agents, projectId, includeInactive))
    {
      if !isOpen {
        return Err(NotInitialized);
      }
      r := Ok(ListAgentsOf(agents, projectId, includeInactive));
    }

    // -------------------------------------------------------------------------
    // Chat.

    /** `sendChatMessage`: appends the message, its content trimmed, to a stored project's chat. */
    method SendChatMessage(input: MessageInput, freshId: string, now: Timestamp) returns (r: Result<ChatMessage, StoreError>)
      requires Valid()
      requires freshId !in MessageIds(messages)
      modifies this`messages
      ensures Valid()
      ensures !isOpen ==> r == Err(NotInitialized)
      ensures isOpen && input.projectId !in ProjectIds(projects) ==> r == Err(ProjectNotFound)
      ensures r.Ok? <==> isOpen && input.projectId in ProjectIds(projects)
      ensures r.Err? ==> messages == old(messages)
      ensures r.Ok? ==> r.value == ChatMessage(freshId, input.projectId, input.agentId, input.author, Trim(input.content), now)
      ensures r.Ok? ==> messages == old(messages) + [r.value]
    {
      if !isOpen {
        return Err(NotInitialized);
      }
      if FindProject(projects, input.projectId).None? {
        return Err(ProjectNotFound);
      }
      var message := ChatMessage(freshId, input.projectId, input.agentId, input.author, Trim(input.content), now);
      AppendMessageKeepsSchema(projects, tickets, agents, messages, message);
      messages := messages + [message];
      r := Ok(message);
    }

    /** `listChatMessages`: the project's messages (of one agent when one is named), oldest first. */
    method ListChatMessages(projectId: string, agentId: Option<string>) returns (r: Result<seq<ChatMessage>, StoreError>)
      ensures !isOpen ==> r == Err(NotInitialized)
      ensures isOpen ==> r == Ok(ListMessagesOf(messages, projectId, agentId))
    {
      if !isOpen {
        return Err(NotInitialized);
      }
      r := Ok(ListMessagesOf(messages, projectId, agentId));
    }

    // -------------------------------------------------------------------------
    // Memory.

    /**
     * `appendMemory`: adds one line holding the new entry at the end of a
     * stored project's log (creating the file if needed); earlier lines and
     * other logs are unchanged.
     */
    method AppendMemory(projectId: string, input: MemoryInput, sessionId: string, now: Timestamp)
      returns (r: Result<MemoryEntry, StoreError>)
      modifies this`memoryLogs
      ensures !isOpen ==> r == Err(NotInitialized)
      ensures isOpen && projectId !in ProjectIds(projects) ==> r == Err(ProjectNotFound)
      ensures r.Ok? <==> isOpen && projectId in ProjectIds(projects)
      ensures r.Err? ==> memoryLogs == old(memoryLogs)
      ensures r.Ok? ==> r.value == NewEntry(sessionId, projectId, input, now)
      ensures r.Ok? ==> memoryLogs == old(memoryLogs)[projectId := old(LogOf(projectId)).GetOr([]) + [Entry(r.value)]]
    {
      if !isOpen {
        return Err(NotInitialized);
      }
      if FindProject(projects, projectId).None? {
        return Err(ProjectNotFound);
      }
      var entry := NewEntry(sessionId, projectId, input, now);
      memoryLogs := memoryLogs[projectId := LogOf(projectId).GetOr([]) + [Entry(entry)]];
      r := Ok(entry);
    }

    /** `listMemory`: the kept entries' tail of the project's log; it needs no open database. */
    method ListMemory(projectId: string, limit: int) returns (r: seq<MemoryEntry>)
      ensures r == ListMemoryOf(LogOf(projectId), limit)
    {
      r := ListMemoryOf(LogOf(projectId), limit);
    }

    // -------------------------------------------------------------------------
    // Handoff and export.

    /**
     * `generateHandoff`: the handoff text of the ticket, with the last three
     * entries of its project's memory log.
     */
    method GenerateHandoff(ticketId: string) returns (r: Result<string, StoreError>)
      ensures !isOpen ==> r == Err(NotInitialized)
      ensures isOpen && ticketId !in TicketIds(tickets) ==> r == Err(TicketNotFound)
      ensures isOpen && ticketId in TicketIds(tickets) && FindTicket(tickets, ticketId).value.projectId !in ProjectIds(projects) ==>
                r == Err(ProjectNotFound)
      ensures r.Ok? <==> isOpen && ticketId in TicketIds(tickets) && FindTicket(tickets, ticketId).value.projectId in ProjectIds(projects)
      ensures r.Ok? ==>
                var ticket := FindTicket(tickets, ticketId).value;
                var project := FindProject(projects, ticket.projectId).value;
                r.value == HandoffText(project, MapTicket(ticket), ListMemoryOf(LogOf(project.id), 3))
    {
      if !isOpen {
        return Err(NotInitialized);
      }
      var row := FindTicket(tickets, ticketId);
      if row.None? {
        return Err(TicketNotFound);
      }
      var ticket := MapTicket(row.value);
      var project := FindProject(projects, ticket.projectId);
      if project.None? {
        return Err(ProjectNotFound);
      }
      var memories := ListMemory(project.value.id, 3);
      r := Ok(HandoffText(project.value, ticket, memories));
    }

    /**
     * `exportTicketMarkdown`, up to the file write: the Markdown document of
     * the ticket. The source writes it to `<ticket id>.md` in the project's
     * ticket directory and returns that path.
     */
    method ExportTicketMarkdown(ticketId: string) returns (r: Result<string, StoreError>)
      ensures !isOpen ==> r == Err(NotInitialized)
      ensures isOpen && ticketId !in TicketIds(tickets) ==> r == Err(TicketNotFound)
      ensures isOpen && ticketId in TicketIds(tickets) && FindTicket(tickets, ticketId).value.projectId !in ProjectIds(projects) ==>
                r == Err(ProjectNotFound)
      ensures r.Ok? <==> isOpen && ticketId in TicketIds(tickets) && FindTicket(tickets, ticketId).value.projectId in ProjectIds(projects)
      ensures r.Ok? ==> r.value == TicketMarkdown(MapTicket(FindTicket(tickets, ticketId).value))
    {
      if !isOpen {
        return Err(NotInitialized);
      }
      var row := FindTicket(tickets, ticketId);
      if row.None? {
        return Err(TicketNotFound);
      }
      var ticket := MapTicket(row.value);
      if FindProject(projects, ticket.projectId).None? {
        return Err(ProjectNotFound);
      }
      r := Ok(TicketMarkdown(ticket));
    }

    // -------------------------------------------------------------------------
    // VAULT_0 imports.

    /**
     * `importAgentFromVault0`: checks the target project before any request,
     * fetches the source project's agents once, and upserts the matching
     * agent into the target under the remote `agentId`. `requested` lists
     * the URLs fetched.
     */
    method ImportAgentFromVault0(input: ImportInput, reply: Reply<AgentRecord>, freshId: string, now: Timestamp)
      returns (r: Result<AgentRecord, StoreError>, requested: seq<string>)
      requires Valid()
      requires freshId !in AgentIds(agents)
      modifies this`agents
      ensures Valid()
      ensures !isOpen ==> r == Err(NotInitialized) && requested == []
      ensures isOpen && input.targetProjectId !in ProjectIds(projects) ==> r == Err(TargetProjectNotFound) && requested == []
      ensures isOpen && input.targetProjectId in ProjectIds(projects) ==>
                requested == [NormalizeBaseUrl(input.baseUrl) + AgentsRoute(input.sourceProjectId)]
      ensures isOpen && input.targetProjectId in ProjectIds(projects) ==>
                var source := PickSourceAgent(input.sourceProjectId, input.sourceId, reply);
                if source.Err? then r == Err(source.error)
                else
                  var key := AgentKeyIndex(agents, input.targetProjectId, Trim(source.value.agentId));
                  && agents == UpsertRows(old(agents), ImportedAgent(input.targetProjectId, source.value), freshId, now)
                  && key.Some?
                  && r == Ok(MapAgent(agents[key.value]))
                  && r.value.projectId == input.targetProjectId
                  && r.value.agentId == Trim(source.value.agentId)
      ensures r.Err? ==> agents == old(agents)
    {
      requested := [];
      if !isOpen {
        return Err(NotInitialized), requested;
      }
      if FindProject(projects, input.targetProjectId).None? {
        return Err(TargetProjectNotFound), requested;
      }
      requested := [NormalizeBaseUrl(input.baseUrl) + AgentsRoute(input.sourceProjectId)];
      var source := PickSourceAgent(input.sourceProjectId, input.sourceId, reply);
      if source.Err? {
        return Err(source.error), requested;
      }
      r := UpsertAgent(ImportedAgent(input.targetProjectId, source.value), freshId, now);
    }

    /**
     * `importTicketFromVault0`: checks the target project before any
     * request, fetches the source project's tickets once, and creates a new
     * ticket in the target from the matching one: its labels merged with
     * `shared-from-vault0`, its spec behind the provenance banner.
     */
    method ImportTicketFromVault0(input: ImportInput, reply: Reply<TicketRecord>, now: Timestamp)
      returns (r: Result<TicketRecord, StoreError>, requested: seq<string>)
      requires Valid()
      modifies this`tickets
      ensures Valid()
      ensures !isOpen ==> r == Err(NotInitialized) && requested == []
      ensures isOpen && input.targetProjectId !in ProjectIds(projects) ==> r == Err(TargetProjectNotFound) && requested == []
      ensures isOpen && input.targetProjectId in ProjectIds(projects) ==>
                requested == [NormalizeBaseUrl(input.baseUrl) + TicketsRoute(input.sourceProjectId)]
      ensures isOpen && input.targetProjectId in ProjectIds(projects) && PickSourceTicket(input.sourceProjectId, input.sourceId, reply).Err? ==>
                r == Err(PickSourceTicket(input.sourceProjectId, input.sourceId, reply).error)
      ensures isOpen && input.targetProjectId in ProjectIds(projects) && PickSourceTicket(input.sourceProjectId, input.sourceId, reply).Ok? ==>
                var out := NewTicket(projects, old(tickets), ImportedTicket(input.targetProjectId, PickSourceTicket(input.sourceProjectId, input.sourceId, reply).value), now);
                && (out.Ok? ==> r == Ok(MapTicket(out.value)) && tickets == old(tickets) + [out.value])
                && (out.Err? ==> r == Err(out.error))
      ensures r.Err? ==> tickets == old(tickets)
      ensures r.Ok? ==>
                var source := PickSourceTicket(input.sourceProjectId, input.sourceId, reply);
                && source.Ok?
                && |tickets| == |old(tickets)| + 1 && tickets[..|old(tickets)|] == old(tickets)
                && r.value == MapTicket(tickets[|old(tickets)|])
                && r.value.projectId == input.targetProjectId
                && r.value.labels == NormalizeEntries(MergeLabels(source.value.labels))
                && SharedLabel in r.value.labels
                && r.value.specMarkdown == PrefixedSpec(source.value.id, source.value.projectId, source.value.specMarkdown)
    {
      requested := [];
      if !isOpen {
        return Err(NotInitialized), requested;
      }
      if FindProject(projects, input.targetProjectId).None? {
        return Err(TargetProjectNotFound), requested;
      }
      requested := [NormalizeBaseUrl(input.baseUrl) + TicketsRoute(input.sourceProjectId)];
      var source := PickSourceTicket(input.sourceProjectId, input.sourceId, reply);
      if source.Err? {
        return Err(source.error), requested;
      }
      var ticketInput := ImportedTicket(input.targetProjectId, source.value);
      r := CreateTicket(ticketInput, now);
      if r.Ok? {
        var project := FindProject(projects, input.targetProjectId).value;
        CreatedTicketRecord(NextTicketId(project, old(tickets)), MaxSequence(old(tickets), input.targetProjectId) + 1, ticketInput, now);
        StoredLabelsCarryShared(source.value.labels);
      }
    }
  }
}
