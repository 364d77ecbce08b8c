/**
 * The rows the `VaultCore` writes (src/main/core/vault-core.ts): what each
 * insert stores, and the tables after an update or an upsert, as functions
 * of the old table and the call's input. The class in vault_core.dfy
 * reassigns its tables to these; the lemmas here say what the writes mean
 * and that they keep the schema's constraints.
 */
module Tables {
  import opened Wrappers
  import opened Text
  import opened ArrayCodec
  import opened Contracts
  import opened Slug
  import opened Schema

  /** `input.field?.trim() ?? ""`. */
  function TrimmedOr(field: Option<string>): (r: string)
    ensures IsTrimmed(r)
    ensures field.None? ==> r == ""
  {
    if field.None? then "" else Trim(field.value)
  }

  // ---------------------------------------------------------------------------
  // Projects.

  /** `CreateProjectInput`. */
  datatype ProjectInput = ProjectInput(
    name: string,
    description: Option<string>,
    repoPath: Option<string>,
    figmaLink: Option<string>,
    conventions: Option<string>,
    agentsConfiguration: Option<string>)

  /** The row `createProject` inserts: trimmed text, not archived, created and updated now. */
  function NewProject(id: string, input: ProjectInput, now: Timestamp): Project {
    Project(
      id, Trim(input.name), TrimmedOr(input.description), TrimmedOr(input.repoPath), TrimmedOr(input.figmaLink),
      TrimmedOr(input.conventions), TrimmedOr(input.agentsConfiguration), false, now, now)
  }

  /** Appending a project under an unused id keeps the schema's constraints. */
  lemma AppendProjectKeepsSchema(
    projects: seq<Project>, tickets: seq<TicketRow>, agents: seq<AgentRow>, messages: seq<ChatMessage>,
    project: Project)
    requires Consistent(projects, tickets, agents, messages)
    requires project.id !in ProjectIds(projects)
    ensures ProjectIds(projects + [project]) == ProjectIds(projects) + {project.id}
    ensures Consistent(projects + [project], tickets, agents, messages)
  {
    var ps := projects + [project];
    assert forall i :: 0 <= i < |projects| ==> ps[i] == projects[i];
    assert ProjectIds(ps) == ProjectIds(projects) + {project.id} by {
      forall x | x in ProjectIds(ps) ensures x in ProjectIds(projects) + {project.id} {
        var i :| 0 <= i < |ps| && ps[i].id == x;
        if i < |projects| {
          assert projects[i].id == x;
        }
      }
      forall x | x in ProjectIds(projects) ensures x in ProjectIds(ps) {
        var i :| 0 <= i < |projects| && projects[i].id == x;
        assert ps[i].id == x;
      }
      assert ps[|projects|].id == project.id;
    }
    assert ProjectIdsUnique(ps) by {
      forall i, j | 0 <= i < j < |ps| ensures ps[i].id != ps[j].id {
        if j == |projects| {
          assert projects[i].id in ProjectIds(projects);
        }
      }
    }
    assert TicketIdsFollowSequence(ps, tickets) by {
      forall i, j | 0 <= i < |tickets| && 0 <= j < |ps| && ps[j].id == tickets[i].projectId
        ensures tickets[i].id == TicketId(NormalizeProjectSlug(ps[j].name), tickets[i].sequence)
      {
        if j == |projects| {
          assert false;
        }
      }
    }
  }

  /** `UPDATE projects SET isArchived = ?, updatedAt = ? WHERE id = ?`. */
  function ArchiveRows(projects: seq<Project>, projectId: string, isArchived: bool, now: Timestamp): (r: seq<Project>)
    ensures |r| == |projects|
    ensures forall i :: 0 <= i < |r| && projects[i].id == projectId ==>
              r[i] == projects[i].(isArchived := isArchived, updatedAt := now)
    ensures forall i :: 0 <= i < |r| && projects[i].id != projectId ==> r[i] == projects[i]
  {
    seq(|projects|, i requires 0 <= i < |projects| =>
      if projects[i].id == projectId then projects[i].(isArchived := isArchived, updatedAt := now) else projects[i])
  }

  /** Archiving keeps every id and name, so the stored tickets still follow their projects' numbering. */
  lemma ArchiveKeepsSchema(
    projects: seq<Project>, tickets: seq<TicketRow>, agents: seq<AgentRow>, messages: seq<ChatMessage>,
    projectId: string, isArchived: bool, now: Timestamp)
    requires Consistent(projects, tickets, agents, messages)
    ensures ProjectIds(ArchiveRows(projects, projectId, isArchived, now)) == ProjectIds(projects)
    ensures Consistent(ArchiveRows(projects, projectId, isArchived, now), tickets, agents, messages)
  {
    var r := ArchiveRows(projects, projectId, isArchived, now);
    assert forall i :: 0 <= i < |r| ==> r[i].id == projects[i].id && r[i].name == projects[i].name;
    assert ProjectIds(r) == ProjectIds(projects) by {
      forall x | x in ProjectIds(projects) ensures x in ProjectIds(r) {
        var i :| 0 <= i < |projects| && projects[i].id == x;
        assert r[i].id == x;
      }
    }
  }

  // ---------------------------------------------------------------------------
  // Tickets.

  /** `CreateTicketInput`. */
  datatype TicketInput = TicketInput(
    projectId: string,
    title: string,
    ticketType: TicketType,
    priority: TicketPriority,
    status: TicketStatus,
    assignee: string,
    estimate: Option<int>,
    specMarkdown: Option<string>,
    acceptanceCriteria: Option<string>,
    testPlan: Option<string>,
    dependencies: Option<seq<string>>,
    labels: Option<seq<string>>)

  /** The row `createTicket` inserts under the id and sequence it computed. */
  function TicketColumns(id: string, sequence: nat, input: TicketInput, now: Timestamp): TicketRow {
    TicketRow(
      id, input.projectId, sequence, Trim(input.title), input.ticketType, input.priority, input.status,
      Trim(input.assignee), input.estimate.GetOr(0), input.specMarkdown.GetOr(""),
      input.acceptanceCriteria.GetOr(""), input.testPlan.GetOr(""),
      StringifyArray(input.dependencies), StringifyArray(input.labels), now, now)
  }

  /** The next ticket id of a project: its slug and the number after its highest. */
  function NextTicketId(project: Project, tickets: seq<TicketRow>): string {
    TicketId(NormalizeProjectSlug(project.name), MaxSequence(tickets, project.id) + 1)
  }

  /**
   * What `createTicket` returns, as read back: the title and assignee
   * trimmed, the optional text defaulted to "" and the estimate to 0, and the
   * label and dependency lists as their trimmed, non-empty entries in order.
   */
  lemma CreatedTicketRecord(id: string, sequence: nat, input: TicketInput, now: Timestamp)
    ensures var t := MapTicket(TicketColumns(id, sequence, input, now));
            && t.id == id && t.projectId == input.projectId
            && t.title == Trim(input.title) && t.assignee == Trim(input.assignee)
            && t.ticketType == input.ticketType && t.priority == input.priority && t.status == input.status
            && t.estimate == input.estimate.GetOr(0)
            && t.specMarkdown == input.specMarkdown.GetOr("")
            && t.acceptanceCriteria == input.acceptanceCriteria.GetOr("")
            && t.testPlan == input.testPlan.GetOr("")
            && t.dependencies == NormalizeEntries(input.dependencies.GetOr([]))
            && t.labels == NormalizeEntries(input.labels.GetOr([]))
            && t.createdAt == now && t.updatedAt == now
  {
    ArrayRoundTrip(input.dependencies);
    ArrayRoundTrip(input.labels);
  }

  /**
   * Appending a project's next ticket keeps the schema's constraints when its
   * id is not taken, and the project's highest number becomes the new one.
   */
  lemma CreateKeepsSchema(
    projects: seq<Project>, tickets: seq<TicketRow>, agents: seq<AgentRow>, messages: seq<ChatMessage>,
    project: Project, row: TicketRow)
    requires Consistent(projects, tickets, agents, messages)
    requires project in projects && row.projectId == project.id
    requires row.sequence == MaxSequence(tickets, project.id) + 1
    requires row.id == TicketId(NormalizeProjectSlug(project.name), row.sequence)
    requires row.id !in TicketIds(tickets)
    ensures Consistent(projects, tickets + [row], agents, messages)
    ensures MaxSequence(tickets + [row], project.id) == row.sequence
  {
    MaxSequenceOfNext(tickets, row);
    AppendTicketUnique(tickets, row);
    AppendTicketFollows(projects, tickets, project, row);
    var ts := tickets + [row];
    var k :| 0 <= k < |projects| && projects[k] == project;
    assert projects[k].id in ProjectIds(projects);
    assert RowsBelongToProjects(projects, ts, agents, messages) by {
      forall i | 0 <= i < |ts| ensures ts[i].projectId in ProjectIds(projects) {
        if i < |tickets| {
          assert ts[i] == tickets[i];
        }
      }
    }
  }

  lemma AppendTicketUnique(tickets: seq<TicketRow>, row: TicketRow)
    requires TicketIdsUnique(tickets) && row.id !in TicketIds(tickets)
    ensures TicketIdsUnique(tickets + [row])
  {
    var ts := tickets + [row];
    forall i, j | 0 <= i < j < |ts| ensures ts[i].id != ts[j].id {
      if j == |tickets| {
        assert ts[i] == tickets[i];
        assert tickets[i].id in TicketIds(tickets);
      } else {
        assert ts[i] == tickets[i] && ts[j] == tickets[j];
      }
    }
  }

  lemma AppendTicketFollows(projects: seq<Project>, tickets: seq<TicketRow>, project: Project, row: TicketRow)
    requires ProjectIdsUnique(projects) && TicketIdsFollowSequence(projects, tickets)
    requires project in projects && row.projectId == project.id
    requires row.id == TicketId(NormalizeProjectSlug(project.name), row.sequence)
    ensures TicketIdsFollowSequence(projects, tickets + [row])
  {
    var ts := tickets + [row];
    var k :| 0 <= k < |projects| && projects[k] == project;
    forall i, j | 0 <= i < |ts| && 0 <= j < |projects| && projects[j].id == ts[i].projectId
      ensures ts[i].id == TicketId(NormalizeProjectSlug(projects[j].name), ts[i].sequence)
    {
      if i == |tickets| {
        assert projects[j].id == projects[k].id;
        assert j == k;
      } else {
        assert ts[i] == tickets[i];
      }
    }
  }

  /** `UPDATE tickets SET status = ?, updatedAt = ? WHERE id = ?`. */
  function StatusRows(tickets: seq<TicketRow>, ticketId: string, status: TicketStatus, now: Timestamp): (r: seq<TicketRow>)
    ensures |r| == |tickets|
    ensures forall i :: 0 <= i < |r| && tickets[i].id == ticketId ==> r[i] == tickets[i].(status := status, updatedAt := now)
    ensures forall i :: 0 <= i < |r| && tickets[i].id != ticketId ==> r[i] == tickets[i]
  {
    seq(|tickets|, i requires 0 <= i < |tickets| =>
      if tickets[i].id == ticketId then tickets[i].(status := status, updatedAt := now) else tickets[i])
  }

  /** A status change keeps every id, project and number, and so the schema's constraints. */
  lemma StatusKeepsSchema(
    projects: seq<Project>, tickets: seq<TicketRow>, agents: seq<AgentRow>, messages: seq<ChatMessage>,
    ticketId: string, status: TicketStatus, now: Timestamp)
    requires Consistent(projects, tickets, agents, messages)
    ensures TicketIds(StatusRows(tickets, ticketId, status, now)) == TicketIds(tickets)
    ensures Consistent(projects, StatusRows(tickets, ticketId, status, now), agents, messages)
  {
    var r := StatusRows(tickets, ticketId, status, now);
    assert forall i :: 0 <= i < |r| ==>
      r[i].id == tickets[i].id && r[i].projectId == tickets[i].projectId && r[i].sequence == tickets[i].sequence;
    assert TicketIds(r) == TicketIds(tickets) by {
      forall x | x in TicketIds(tickets) ensures x in TicketIds(r) {
        var i :| 0 <= i < |tickets| && tickets[i].id == x;
        assert r[i].id == x;
      }
    }
  }

  // ---------------------------------------------------------------------------
  // Chat messages.

  /** Appending a message under an unused id, for a stored project, keeps the schema's constraints. */
  lemma AppendMessageKeepsSchema(
    projects: seq<Project>, tickets: seq<TicketRow>, agents: seq<AgentRow>, messages: seq<ChatMessage>,
    message: ChatMessage)
    requires Consistent(projects, tickets, agents, messages)
    requires message.id !in MessageIds(messages) && message.projectId in ProjectIds(projects)
    ensures Consistent(projects, tickets, agents, messages + [message])
  {
    var ms := messages + [message];
    forall i, j | 0 <= i < j < |ms| ensures ms[i].id != ms[j].id {
      assert ms[i] == messages[i];
      if j == |messages| {
        assert messages[i].id in MessageIds(messages);
      } else {
        assert ms[j] == messages[j];
      }
    }
    forall i | 0 <= i < |ms| ensures ms[i].projectId in ProjectIds(projects) {
      if i < |messages| {
        assert ms[i] == messages[i];
      }
    }
  }

  // ---------------------------------------------------------------------------
  // Agents.

  /** `UpsertAgentInput`. */
  datatype AgentInput = AgentInput(
    projectId: string,
    agentId: string,
    displayName: string,
    role: Option<string>,
    personality: Option<string>,
    skills: Option<seq<string>>,
    rules: Option<seq<string>>,
    defaultPrompt: Option<string>,
    avatarUrl: Option<string>,
    isActive: Option<bool>)

  /** The agent row for `input` under the given id and creation time, updated now. */
  function AgentColumns(id: string, createdAt: Timestamp, input: AgentInput, now: Timestamp): AgentRow {
    AgentRow(
      id, input.projectId, Trim(input.agentId), Trim(input.displayName), input.role.GetOr(""),
      input.personality.GetOr(""), StringifyArray(input.skills), StringifyArray(input.rules),
      input.defaultPrompt.GetOr(""), input.avatarUrl.GetOr(""), input.isActive != Some(false), createdAt, now)
  }

  /** Where the upsert of `input` writes: the row with its key, or a new row at the end. */
  function UpsertIndex(agents: seq<AgentRow>, input: AgentInput): (i: nat)
    ensures i <= |agents|
  {
    match AgentKeyIndex(agents, input.projectId, Trim(input.agentId))
    case Some(k) => k
    case None => |agents|
  }

  /**
   * The agents table after `upsertAgent`: the row keyed by (projectId,
   * trimmed agentId) is rewritten in place, or a row is appended when there
   * is none.
   */
  function UpsertRows(agents: seq<AgentRow>, input: AgentInput, freshId: string, now: Timestamp): (r: seq<AgentRow>)
    ensures |r| == if UpsertIndex(agents, input) < |agents| then |agents| else |agents| + 1
  {
    var i := UpsertIndex(agents, input);
    if i < |agents| then agents[i := AgentColumns(agents[i].id, agents[i].createdAt, input, now)]
    else agents + [AgentColumns(freshId, now, input, now)]
  }

  /**
   * The upsert's effect on one row: the keyed row keeps its id and creation
   * time (a new row gets the fresh id and is created now), takes every
   * other column from the input, and reads back with the trimmed display
   * name, the normalized lists and `isActive` false only for an explicit
   * `false`; every other row is untouched.
   */
  lemma UpsertedRow(agents: seq<AgentRow>, input: AgentInput, freshId: string, now: Timestamp)
    ensures var r := UpsertRows(agents, input, freshId, now);
            var i := UpsertIndex(agents, input);
            && i < |r|
            && r[i].projectId == input.projectId && r[i].agentId == Trim(input.agentId)
            && (i < |agents| ==> r[i].id == agents[i].id && r[i].createdAt == agents[i].createdAt)
            && (i == |agents| ==> r[i].id == freshId && r[i].createdAt == now)
            && r[i].updatedAt == now
            && MapAgent(r[i]).displayName == Trim(input.displayName)
            && MapAgent(r[i]).role == input.role.GetOr("")
            && MapAgent(r[i]).personality == input.personality.GetOr("")
            && MapAgent(r[i]).defaultPrompt == input.defaultPrompt.GetOr("")
            && MapAgent(r[i]).avatarUrl == input.avatarUrl.GetOr("")
            && MapAgent(r[i]).skills == NormalizeEntries(input.skills.GetOr([]))
            && MapAgent(r[i]).rules == NormalizeEntries(input.rules.GetOr([]))
            && (MapAgent(r[i]).isActive <==> input.isActive != Some(false))
            && (forall j :: 0 <= j < |agents| && j != i ==> r[j] == agents[j])
  {
    ArrayRoundTrip(input.skills);
    ArrayRoundTrip(input.rules);
  }

  /** Rewriting a row without touching its id or key keeps ids and keys unique. */
  lemma RewriteAgentKeeps(agents: seq<AgentRow>, i: nat, row: AgentRow)
    requires i < |agents|
    requires row.id == agents[i].id && row.projectId == agents[i].projectId && row.agentId == agents[i].agentId
    ensures var r := agents[i := row];
            && (AgentIdsUnique(agents) ==> AgentIdsUnique(r))
            && (AgentKeysUnique(agents) ==> AgentKeysUnique(r))
            && (forall j :: 0 <= j < |r| ==> r[j].projectId == agents[j].projectId)
  {
  }

  /** An upsert whose key no row carries appends one row, created now under the fresh id. */
  lemma UpsertNewKey(agents: seq<AgentRow>, input: AgentInput, freshId: string, now: Timestamp)
    requires forall j :: 0 <= j < |agents| ==> agents[j].projectId != input.projectId || agents[j].agentId != Trim(input.agentId)
    ensures UpsertRows(agents, input, freshId, now) == agents + [AgentColumns(freshId, now, input, now)]
  {
    assert AgentKeyIndex(agents, input.projectId, Trim(input.agentId)).None?;
  }

  /** Appending a row with an unused key keeps keys unique. */
  lemma AppendAgentKeys(agents: seq<AgentRow>, row: AgentRow)
    requires AgentKeysUnique(agents)
    requires forall j :: 0 <= j < |agents| ==> !(agents[j].projectId == row.projectId && agents[j].agentId == row.agentId)
    ensures AgentKeysUnique(agents + [row])
  {
    var r := agents + [row];
    forall j, k | 0 <= j < k < |r|
      ensures r[j].projectId != r[k].projectId || r[j].agentId != r[k].agentId
    {
      assert r[j] == agents[j];
      if k < |agents| {
        assert r[k] == agents[k];
      }
    }
  }

  /** Appending a row with an unused id keeps ids unique. */
  lemma AppendAgentId(agents: seq<AgentRow>, row: AgentRow)
    requires AgentIdsUnique(agents) && row.id !in AgentIds(agents)
    ensures AgentIdsUnique(agents + [row])
  {
    var r := agents + [row];
    forall j, k | 0 <= j < k < |r| ensures r[j].id != r[k].id {
      assert r[j] == agents[j];
      if k == |agents| {
        assert agents[j].id in AgentIds(agents);
      } else {
        assert r[k] == agents[k];
      }
    }
  }

  /** After an upsert the agent keys are still unique. */
  lemma UpsertKeepsKeys(agents: seq<AgentRow>, input: AgentInput, freshId: string, now: Timestamp)
    requires AgentKeysUnique(agents)
    ensures AgentKeysUnique(UpsertRows(agents, input, freshId, now))
  {
    var i := UpsertIndex(agents, input);
    var key := AgentKeyIndex(agents, input.projectId, Trim(input.agentId));
    if i < |agents| {
      RewriteAgentKeeps(agents, i, AgentColumns(agents[i].id, agents[i].createdAt, input, now));
    } else {
      assert key.None?;
      AppendAgentKeys(agents, AgentColumns(freshId, now, input, now));
    }
  }

  /**
   * The upsert keeps the agents table's constraints when the fresh id is
   * unused and, for a new row, the project exists; afterwards exactly one
   * row carries the key.
   */
  lemma UpsertKeepsSchema(
    projects: seq<Project>, tickets: seq<TicketRow>, agents: seq<AgentRow>, messages: seq<ChatMessage>,
    input: AgentInput, freshId: string, now: Timestamp)
    requires Consistent(projects, tickets, agents, messages)
    requires freshId !in AgentIds(agents)
    requires UpsertIndex(agents, input) == |agents| ==> input.projectId in ProjectIds(projects)
    ensures Consistent(projects, tickets, UpsertRows(agents, input, freshId, now), messages)
    ensures AgentKeyIndex(UpsertRows(agents, input, freshId, now), input.projectId, Trim(input.agentId)).Some?
  {
    var r := UpsertRows(agents, input, freshId, now);
    var i := UpsertIndex(agents, input);
    UpsertedRow(agents, input, freshId, now);
    if i < |agents| {
      assert AgentKeyIndex(agents, input.projectId, Trim(input.agentId)) == Some(i);
      RewriteKeepsSchema(projects, tickets, agents, messages, i, AgentColumns(agents[i].id, agents[i].createdAt, input, now));
    } else {
      assert AgentKeyIndex(agents, input.projectId, Trim(input.agentId)).None?;
      AppendKeepsSchema(projects, tickets, agents, messages, AgentColumns(freshId, now, input, now));
    }
    assert r[i].projectId == input.projectId && r[i].agentId == Trim(input.agentId);
  }

  lemma RewriteKeepsSchema(
    projects: seq<Project>, tickets: seq<TicketRow>, agents: seq<AgentRow>, messages: seq<ChatMessage>,
    i: nat, row: AgentRow)
    requires Consistent(projects, tickets, agents, messages)
    requires i < |agents|
    requires row.id == agents[i].id && row.projectId == agents[i].projectId && row.agentId == agents[i].agentId
    ensures Consistent(projects, tickets, agents[i := row], messages)
  {
    var r := agents[i := row];
    RewriteAgentKeeps(agents, i, row);
    forall j | 0 <= j < |r| ensures r[j].projectId in ProjectIds(projects) {
      assert r[j].projectId == agents[j].projectId;
    }
  }

  lemma AppendKeepsSchema(
    projects: seq<Project>, tickets: seq<TicketRow>, agents: seq<AgentRow>, messages: seq<ChatMessage>,
    row: AgentRow)
    requires Consistent(projects, tickets, agents, messages)
    requires row.id !in AgentIds(agents) && row.projectId in ProjectIds(projects)
    requires forall j :: 0 <= j < |agents| ==> !(agents[j].projectId == row.projectId && agents[j].agentId == row.agentId)
    ensures Consistent(projects, tickets, agents + [row], messages)
  {
    var r := agents + [row];
    AppendAgentKeys(agents, row);
    AppendAgentId(agents, row);
    forall j | 0 <= j < |r| ensures r[j].projectId in ProjectIds(projects) {
      if j < |agents| {
        assert r[j] == agents[j];
      }
    }
  }

  /**
   * Upserting the same key twice leaves one row for it: the second call
   * rewrites the row the first one wrote, keeping its id and creation time,
   * and the table does not grow.
   */
  lemma UpsertTwice(agents: seq<AgentRow>, first: AgentInput, second: AgentInput, id1: string, id2: string, t1: Timestamp, t2: Timestamp)
    requires AgentKeysUnique(agents)
    requires second.projectId == first.projectId && Trim(second.agentId) == Trim(first.agentId)
    ensures var once := UpsertRows(agents, first, id1, t1);
            var twice := UpsertRows(once, second, id2, t2);
            && |twice| == |once|
            && UpsertIndex(once, second) == UpsertIndex(agents, first)
            && twice[UpsertIndex(agents, first)].id == once[UpsertIndex(agents, first)].id
            && twice[UpsertIndex(agents, first)].createdAt == once[UpsertIndex(agents, first)].createdAt
  {
    var once := UpsertRows(agents, first, id1, t1);
    var i := UpsertIndex(agents, first);
    UpsertedRow(agents, first, id1, t1);
    UpsertKeepsKeys(agents, first, id1, t1);
    UniqueKeyIndex(once, i);
    assert UpsertIndex(once, second) == i;
  }

  /** Under unique keys, the row found for a key is the one row that has it. */
  lemma UniqueKeyIndex(agents: seq<AgentRow>, i: nat)
    requires AgentKeysUnique(agents) && i < |agents|
    ensures AgentKeyIndex(agents, agents[i].projectId, agents[i].agentId) == Some(i)
  {
    var k := AgentKeyIndex(agents, agents[i].projectId, agents[i].agentId);
    assert k.Some?;
  }

  /** The upsert introduces no row id other than the fresh one. */
  lemma UpsertIds(agents: seq<AgentRow>, input: AgentInput, freshId: string, now: Timestamp)
    ensures AgentIds(UpsertRows(agents, input, freshId, now)) <= AgentIds(agents) + {freshId}
  {
    var r := UpsertRows(agents, input, freshId, now);
    var i := UpsertIndex(agents, input);
    forall x | x in AgentIds(r) ensures x in AgentIds(agents) + {freshId} {
      var j :| 0 <= j < |r| && r[j].id == x;
      if j < |agents| {
        assert r[j].id == agents[j].id;
      }
    }
  }
}
