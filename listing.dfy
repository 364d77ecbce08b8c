/**
 * The list queries of `VaultCore` as functions of the tables: which rows each
 * `SELECT` keeps and the order its `ORDER BY` puts them in
 * (src/main/core/vault-core.ts: listProjects, listTickets, listAgents,
 * listChatMessages).
 */
module Listing {
  import opened Wrappers
  import opened Text
  import opened Ordering
  import opened Contracts

  // ---------------------------------------------------------------------------
  // Projects: `ORDER BY updatedAt DESC`.

  predicate ProjectBefore(a: Project, b: Project) {
    a.updatedAt >= b.updatedAt
  }

  lemma ProjectOrderIsTotal()
    ensures TotalPreorder(ProjectBefore)
  {
  }

  /**
   * `listProjects(includeArchived)`: all projects, or only the unarchived
   * ones, each as often as it is stored, most recently updated first.
   */
  function ListProjectsOf(projects: seq<Project>, includeArchived: bool): (r: seq<Project>)
    ensures forall p :: p in r <==> p in projects && (includeArchived || !p.isArchived)
    ensures forall p :: multiset(r)[p] == if includeArchived || !p.isArchived then multiset(projects)[p] else 0
    ensures forall i, j :: 0 <= i < j < |r| ==> r[i].updatedAt >= r[j].updatedAt
  {
    ProjectOrderIsTotal();
    var kept := FilterBy(projects, (p: Project) => includeArchived || !p.isArchived);
    var r := SortBy(kept, ProjectBefore);
    assert multiset(r) == multiset(kept);
    assert forall p :: p in r <==> p in kept by {
      assert forall p :: p in r <==> p in multiset(r);
      assert forall p :: p in kept <==> p in multiset(kept);
    }
    r
  }

  // ---------------------------------------------------------------------------
  // Tickets: `WHERE projectId = ? ORDER BY updatedAt DESC, id DESC`.

  predicate TicketBefore(a: TicketRecord, b: TicketRecord) {
    a.updatedAt > b.updatedAt || (a.updatedAt == b.updatedAt && TextLe(b.id, a.id))
  }

  lemma TicketOrderIsTotal()
    ensures TotalPreorder(TicketBefore)
  {
    forall a: TicketRecord, b: TicketRecord
      ensures TicketBefore(a, b) || TicketBefore(b, a)
    {
      TextLeTotal(a.id, b.id);
    }
    forall a: TicketRecord, b: TicketRecord, c: TicketRecord | TicketBefore(a, b) && TicketBefore(b, c)
      ensures TicketBefore(a, c)
    {
      if a.updatedAt == b.updatedAt == c.updatedAt {
        TextLeTransitive(c.id, b.id, a.id);
      }
    }
  }

  /** The records of one project's rows, in table order. */
  function TicketsOfProject(rows: seq<TicketRow>, projectId: string): (r: seq<TicketRecord>)
    ensures forall t :: t in r ==> t.projectId == projectId
  {
    var mine := FilterBy(rows, (row: TicketRow) => row.projectId == projectId);
    var r := MapSeq(mine, MapTicket);
    forall t | t in r
      ensures t.projectId == projectId
    {
      var i :| 0 <= i < |r| && r[i] == t;
      assert mine[i] in mine;
    }
    r
  }

  /**
   * `listTickets(projectId)`: exactly that project's tickets, most recently
   * updated first and, on equal timestamps, by id descending.
   */
  function ListTicketsOf(rows: seq<TicketRow>, projectId: string): (r: seq<TicketRecord>)
    ensures multiset(r) == multiset(TicketsOfProject(rows, projectId))
    ensures forall t :: t in r ==> t.projectId == projectId
    ensures forall i, j :: 0 <= i < j < |r| ==>
              r[i].updatedAt > r[j].updatedAt || (r[i].updatedAt == r[j].updatedAt && TextLe(r[j].id, r[i].id))
  {
    TicketOrderIsTotal();
    var mine := TicketsOfProject(rows, projectId);
    var r := SortBy(mine, TicketBefore);
    assert forall t :: t in r ==> t in multiset(mine);
    r
  }

  // ---------------------------------------------------------------------------
  // Agents: `ORDER BY isActive DESC, displayName ASC`.

  predicate AgentBefore(a: AgentRecord, b: AgentRecord) {
    (a.isActive && !b.isActive) || (a.isActive == b.isActive && TextLe(a.displayName, b.displayName))
  }

  lemma AgentOrderIsTotal()
    ensures TotalPreorder(AgentBefore)
  {
    forall a: AgentRecord, b: AgentRecord
      ensures AgentBefore(a, b) || AgentBefore(b, a)
    {
      TextLeTotal(a.displayName, b.displayName);
    }
    forall a: AgentRecord, b: AgentRecord, c: AgentRecord | AgentBefore(a, b) && AgentBefore(b, c)
      ensures AgentBefore(a, c)
    {
      if a.isActive == b.isActive == c.isActive {
        TextLeTransitive(a.displayName, b.displayName, c.displayName);
      }
    }
  }

  /** The rows `listAgents` selects: the project's agents, and only active ones unless inactive ones are asked for. */
  function AgentsOfProject(rows: seq<AgentRow>, projectId: string, includeInactive: bool): (r: seq<AgentRecord>)
    ensures forall a :: a in r ==> a.projectId == projectId && (includeInactive || a.isActive)
  {
    var mine := FilterBy(rows, (row: AgentRow) => row.projectId == projectId && (includeInactive || row.isActive));
    var r := MapSeq(mine, MapAgent);
    forall a | a in r
      ensures a.projectId == projectId && (includeInactive || a.isActive)
    {
      var i :| 0 <= i < |r| && r[i] == a;
      assert mine[i] in mine;
    }
    r
  }

  /**
   * `listAgents(projectId, includeInactive)`: active agents before inactive
   * ones, each group by display name ascending; with `includeInactive` false,
   * only active agents.
   */
  function ListAgentsOf(rows: seq<AgentRow>, projectId: string, includeInactive: bool): (r: seq<AgentRecord>)
    ensures multiset(r) == multiset(AgentsOfProject(rows, projectId, includeInactive))
    ensures forall a :: a in r ==> a.projectId == projectId && (includeInactive || a.isActive)
    ensures forall i, j :: 0 <= i < j < |r| ==> r[i].isActive || !r[j].isActive
    ensures forall i, j :: 0 <= i < j < |r| && r[i].isActive == r[j].isActive ==>
              TextLe(r[i].displayName, r[j].displayName)
  {
    AgentOrderIsTotal();
    var mine := AgentsOfProject(rows, projectId, includeInactive);
    var r := SortBy(mine, AgentBefore);
    assert forall a :: a in r ==> a in multiset(mine);
    r
  }

  // ---------------------------------------------------------------------------
  // Chat messages: `WHERE projectId = ? [AND agentId = ?] ORDER BY createdAt ASC`.

  predicate MessageBefore(a: ChatMessage, b: ChatMessage) {
    a.createdAt <= b.createdAt
  }

  lemma MessageOrderIsTotal()
    ensures TotalPreorder(MessageBefore)
  {
  }

  /** The agent filter applies only when an agent id is given and is not empty (`input.agentId ? … : …`). */
  predicate MessageSelected(m: ChatMessage, projectId: string, agentId: Option<string>) {
    m.projectId == projectId && (agentId.None? || agentId.value == "" || m.agentId == agentId.value)
  }

  /** `listChatMessages`: the selected messages, each as often as stored, oldest first. */
  function ListMessagesOf(rows: seq<ChatMessage>, projectId: string, agentId: Option<string>): (r: seq<ChatMessage>)
    ensures forall m :: m in r <==> m in rows && MessageSelected(m, projectId, agentId)
    ensures forall m :: multiset(r)[m] == if MessageSelected(m, projectId, agentId) then multiset(rows)[m] else 0
    ensures forall i, j :: 0 <= i < j < |r| ==> r[i].createdAt <= r[j].createdAt
  {
    MessageOrderIsTotal();
    var r := SortBy(FilterBy(rows, (m: ChatMessage) => MessageSelected(m, projectId, agentId)), MessageBefore);
    assert forall m :: m in r <==> m in multiset(r);
    r
  }
}
