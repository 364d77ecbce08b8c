/**
 * The four SQLite tables of `VaultCore` (projects, tickets, agents,
 * chat_messages) as sequences of rows: the lookups the store's statements
 * make, the ticket numbering, and the constraints the schema enforces
 * (primary keys, `UNIQUE(projectId, agentId)`, foreign keys to projects),
 * which every operation of the store keeps.
 */
module Schema {
  import opened Wrappers
  import opened Text
  import opened Slug
  import opened Contracts

  // ---------------------------------------------------------------------------
  // Ticket numbering: `${slug}-${String(sequence).padStart(3, "0")}`.

  /** The numeric part of a ticket id: at least three digits, reading back as `n`. */
  function TicketNumber(n: nat): (r: string)
    ensures AllDigits(r) && 3 <= |r|
    ensures DecimalValue(r) == n
  {
    DecimalRoundTrip(n);
    ZeroPaddingValue(NatToDecimal(n), 3);
    PadStart(NatToDecimal(n), 3, '0')
  }

  /** A ticket id: the project slug, a hyphen, and the zero-padded sequence number. */
  function TicketId(slug: string, n: nat): string {
    slug + "-" + TicketNumber(n)
  }

  /**
   * The parts of a ticket id: the slug, a hyphen, then only digits, at least
   * three, reading back as the number. (Stated apart from `TicketId` so that
   * the schema's constraint on every ticket does not carry it everywhere.)
   */
  lemma TicketIdParts(slug: string, n: nat)
    ensures var r := TicketId(slug, n);
            && |slug| + 4 <= |r| && r[..|slug|] == slug && r[|slug|] == '-'
            && AllDigits(r[|slug| + 1..]) && DecimalValue(r[|slug| + 1..]) == n
  {
    var r := TicketId(slug, n);
    assert r[|slug| + 1..] == TicketNumber(n);
  }

  /** A ticket id determines both its slug and its number: the digits after the last hyphen are the number. */
  lemma TicketIdDetermines(slug1: string, n1: nat, slug2: string, n2: nat)
    requires TicketId(slug1, n1) == TicketId(slug2, n2)
    ensures slug1 == slug2 && n1 == n2
  {
    TicketIdParts(slug1, n1);
    TicketIdParts(slug2, n2);
    var r := TicketId(slug1, n1);
    var d1 := TicketNumber(n1);
    var d2 := TicketNumber(n2);
    assert r == slug1 + "-" + d1 && r == slug2 + "-" + d2;
    assert |d1| == |d2|;
    assert slug1 == r[..|slug1|] == slug2;
    assert d1 == r[|slug1| + 1..] == d2;
  }

  /**
   * A project's first tickets are numbered 001 and 002 after its slug; for
   * project "VAULT_1" (slug "VAULT-1", Slug.SlugOfVault1) that is VAULT-1-001
   * and VAULT-1-002.
   */
  lemma FirstTicketIds(slug: string)
    ensures TicketId(slug, 1) == slug + "-001"
    ensures TicketId(slug, 2) == slug + "-002"
  {
    SlugNumbered(slug, 1);
    SlugNumbered(slug, 2);
  }

  lemma SlugNumbered(slug: string, n: nat)
    requires n < 10
    ensures TicketId(slug, n) == slug + ['-', '0', '0', DigitChar(n)]
  {
    SmallTicketNumber(n);
  }

  lemma SmallTicketNumber(n: nat)
    requires n < 10
    ensures TicketNumber(n) == ['0', '0', DigitChar(n)]
  {
    assert NatToDecimal(n) == [DigitChar(n)];
  }

  /** `SELECT COALESCE(MAX(sequence), 0) FROM tickets WHERE projectId = ?`. */
  function MaxSequence(tickets: seq<TicketRow>, projectId: string): (r: nat)
    ensures forall i :: 0 <= i < |tickets| && tickets[i].projectId == projectId ==> tickets[i].sequence <= r
    ensures r == 0 || exists i :: 0 <= i < |tickets| && tickets[i].projectId == projectId && tickets[i].sequence == r
  {
    if tickets == [] then 0
    else
      var rest := MaxSequence(tickets[..|tickets| - 1], projectId);
      var last := tickets[|tickets| - 1];
      if last.projectId == projectId && last.sequence > rest then last.sequence else rest
  }

  /** Numbering is per project: a ticket of another project leaves the count unchanged. */
  lemma MaxSequenceOtherProject(tickets: seq<TicketRow>, row: TicketRow, projectId: string)
    requires row.projectId != projectId
    ensures MaxSequence(tickets + [row], projectId) == MaxSequence(tickets, projectId)
  {
    assert (tickets + [row])[..|tickets|] == tickets;
  }

  /** After a project's next ticket is stored, that ticket carries the project's highest number. */
  lemma MaxSequenceOfNext(tickets: seq<TicketRow>, row: TicketRow)
    requires row.sequence == MaxSequence(tickets, row.projectId) + 1
    ensures MaxSequence(tickets + [row], row.projectId) == row.sequence
  {
    assert (tickets + [row])[..|tickets|] == tickets;
  }

  // ---------------------------------------------------------------------------
  // Keys and lookups.

  function ProjectIds(projects: seq<Project>): set<string> {
    set i | 0 <= i < |projects| :: projects[i].id
  }

  function TicketIds(tickets: seq<TicketRow>): set<string> {
    set i | 0 <= i < |tickets| :: tickets[i].id
  }

  function AgentIds(agents: seq<AgentRow>): set<string> {
    set i | 0 <= i < |agents| :: agents[i].id
  }

  function MessageIds(messages: seq<ChatMessage>): set<string> {
    set i | 0 <= i < |messages| :: messages[i].id
  }

  /** `SELECT * FROM projects WHERE id = ?`: the first row with that id, if any. */
  function FindProject(projects: seq<Project>, id: string): (r: Option<Project>)
    ensures r.Some? ==> r.value in projects && r.value.id == id
    ensures r.None? <==> id !in ProjectIds(projects)
  {
    if projects == [] then None
    else if projects[0].id == id then Some(projects[0])
    else
      assert forall x :: x in ProjectIds(projects) <==> x == projects[0].id || x in ProjectIds(projects[1..]) by {
        forall x | x in ProjectIds(projects)
          ensures x == projects[0].id || x in ProjectIds(projects[1..])
        {
          var i :| 0 <= i < |projects| && projects[i].id == x;
          if i > 0 {
            assert projects[1..][i - 1].id == x;
          }
        }
        forall x | x in ProjectIds(projects[1..])
          ensures x in ProjectIds(projects)
        {
          var i :| 0 <= i < |projects[1..]| && projects[1..][i].id == x;
          assert projects[i + 1].id == x;
        }
      }
      FindProject(projects[1..], id)
  }

  /** `SELECT * FROM tickets WHERE id = ?`: the first row with that id, if any. */
  function FindTicket(tickets: seq<TicketRow>, id: string): (r: Option<TicketRow>)
    ensures r.Some? ==> r.value in tickets && r.value.id == id
    ensures r.None? <==> id !in TicketIds(tickets)
  {
    if tickets == [] then None
    else if tickets[0].id == id then Some(tickets[0])
    else
      assert forall x :: x in TicketIds(tickets) <==> x == tickets[0].id || x in TicketIds(tickets[1..]) by {
        forall x | x in TicketIds(tickets)
          ensures x == tickets[0].id || x in TicketIds(tickets[1..])
        {
          var i :| 0 <= i < |tickets| && tickets[i].id == x;
          if i > 0 {
            assert tickets[1..][i - 1].id == x;
          }
        }
        forall x | x in TicketIds(tickets[1..])
          ensures x in TicketIds(tickets)
        {
          var i :| 0 <= i < |tickets[1..]| && tickets[1..][i].id == x;
          assert tickets[i + 1].id == x;
        }
      }
      FindTicket(tickets[1..], id)
  }

  /** `SELECT id FROM agents WHERE projectId = ? AND agentId = ?`: the position of the first row with that key. */
  function AgentKeyIndex(agents: seq<AgentRow>, projectId: string, agentId: string): (r: Option<nat>)
    ensures r.Some? ==> r.value < |agents| && agents[r.value].projectId == projectId && agents[r.value].agentId == agentId
    ensures r.None? <==> forall i :: 0 <= i < |agents| ==> !(agents[i].projectId == projectId && agents[i].agentId == agentId)
  {
    if agents == [] then None
    else
      var last := |agents| - 1;
      match AgentKeyIndex(agents[..last], projectId, agentId)
      case Some(i) => Some(i)
      case None =>
        if agents[last].projectId == projectId && agents[last].agentId == agentId then Some(last) else None
  }

  // ---------------------------------------------------------------------------
  // The constraints of the schema.

  predicate ProjectIdsUnique(projects: seq<Project>) {
    forall i, j :: 0 <= i < j < |projects| ==> projects[i].id != projects[j].id
  }

  predicate TicketIdsUnique(tickets: seq<TicketRow>) {
    forall i, j :: 0 <= i < j < |tickets| ==> tickets[i].id != tickets[j].id
  }

  predicate AgentIdsUnique(agents: seq<AgentRow>) {
    forall i, j :: 0 <= i < j < |agents| ==> agents[i].id != agents[j].id
  }

  /** `UNIQUE(projectId, agentId)`. */
  predicate AgentKeysUnique(agents: seq<AgentRow>) {
    forall i, j :: 0 <= i < j < |agents| ==>
      agents[i].projectId != agents[j].projectId || agents[i].agentId != agents[j].agentId
  }

  predicate MessageIdsUnique(messages: seq<ChatMessage>) {
    forall i, j :: 0 <= i < j < |messages| ==> messages[i].id != messages[j].id
  }

  /** Every ticket, agent and message row refers to a stored project (`FOREIGN KEY(projectId) REFERENCES projects(id)`). */
  predicate RowsBelongToProjects(projects: seq<Project>, tickets: seq<TicketRow>, agents: seq<AgentRow>, messages: seq<ChatMessage>) {
    && (forall i :: 0 <= i < |tickets| ==> tickets[i].projectId in ProjectIds(projects))
    && (forall i :: 0 <= i < |agents| ==> agents[i].projectId in ProjectIds(projects))
    && (forall i :: 0 <= i < |messages| ==> messages[i].projectId in ProjectIds(projects))
  }

  /** Every ticket id is its project's slug followed by the ticket's own sequence number. */
  predicate TicketIdsFollowSequence(projects: seq<Project>, tickets: seq<TicketRow>) {
    forall i, j :: 0 <= i < |tickets| && 0 <= j < |projects| && projects[j].id == tickets[i].projectId ==>
      tickets[i].id == TicketId(NormalizeProjectSlug(projects[j].name), tickets[i].sequence)
  }

  /** What the schema guarantees of the stored rows, and the id scheme `createTicket` follows. */
  predicate Consistent(projects: seq<Project>, tickets: seq<TicketRow>, agents: seq<AgentRow>, messages: seq<ChatMessage>) {
    && ProjectIdsUnique(projects)
    && TicketIdsUnique(tickets)
    && AgentIdsUnique(agents)
    && AgentKeysUnique(agents)
    && MessageIdsUnique(messages)
    && RowsBelongToProjects(projects, tickets, agents, messages)
    && TicketIdsFollowSequence(projects, tickets)
  }

  /** `UNIQUE(projectId, sequence)` is never violated: it follows from unique ids and the id scheme. */
  lemma SequencesUnique(projects: seq<Project>, tickets: seq<TicketRow>, agents: seq<AgentRow>, messages: seq<ChatMessage>)
    requires Consistent(projects, tickets, agents, messages)
    ensures forall i, j :: 0 <= i < j < |tickets| ==>
              tickets[i].projectId != tickets[j].projectId || tickets[i].sequence != tickets[j].sequence
  {
    forall i, j | 0 <= i < j < |tickets| && tickets[i].projectId == tickets[j].projectId
      ensures tickets[i].sequence != tickets[j].sequence
    {
      var x := tickets[i].projectId;
      assert x in ProjectIds(projects);
      var k :| 0 <= k < |projects| && projects[k].id == x;
      assert tickets[i].id != tickets[j].id;
    }
  }

  /**
   * The only way the next ticket id of a project can already be taken: a
   * different project whose name gives the same slug has a ticket with that
   * number.
   */
  lemma NextIdClashNeedsSameSlug(projects: seq<Project>, tickets: seq<TicketRow>, agents: seq<AgentRow>, messages: seq<ChatMessage>, k: nat)
    requires Consistent(projects, tickets, agents, messages)
    requires k < |projects|
    requires TicketId(NormalizeProjectSlug(projects[k].name), MaxSequence(tickets, projects[k].id) + 1) in TicketIds(tickets)
    ensures exists j :: 0 <= j < |projects| && projects[j].id != projects[k].id &&
              NormalizeProjectSlug(projects[j].name) == NormalizeProjectSlug(projects[k].name)
  {
    var slug := NormalizeProjectSlug(projects[k].name);
    var n := MaxSequence(tickets, projects[k].id) + 1;
    var i :| 0 <= i < |tickets| && tickets[i].id == TicketId(slug, n);
    assert tickets[i].projectId in ProjectIds(projects);
    var j :| 0 <= j < |projects| && projects[j].id == tickets[i].projectId;
    TicketIdDetermines(NormalizeProjectSlug(projects[j].name), tickets[i].sequence, slug, n);
    assert projects[j].id != projects[k].id;
  }
}
