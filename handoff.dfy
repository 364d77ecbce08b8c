/**
 * The two texts the store builds from a ticket (src/main/core/vault-core.ts):
 * the agent handoff of `generateHandoff`, sixteen sections joined by blank
 * lines, and the Markdown document `exportTicketMarkdown` writes, twenty
 * lines joined by newlines.
 */
module Handoff {
  import opened Text
  import opened Ordering
  import opened Contracts

  /** `- <date> | <agentId>: <task summary>`. */
  function MemoryLine(e: MemoryEntry): (r: string)
    ensures IsInfix(e.taskSummary, r)
  {
    var r := "- " + e.date + " | " + e.agentId + ": " + e.taskSummary;
    assert r[|r| - |e.taskSummary|..] == e.taskSummary;
    assert OccursAt(e.taskSummary, r, |r| - |e.taskSummary|);
    r
  }

  /** The `[RECENT_MEMORY]` body: one line per entry, or `- none` when there are none. */
  function MemorySection(memories: seq<MemoryEntry>): (r: string)
    ensures memories == [] ==> r == "- none"
    ensures forall k :: 0 <= k < |memories| ==> IsInfix(MemoryLine(memories[k]), r)
  {
    if memories == [] then "- none"
    else
      var lines := MapSeq(memories, MemoryLine);
      var r := Join(lines, "\n");
      assert forall k :: 0 <= k < |memories| ==> IsInfix(MemoryLine(memories[k]), r) by {
        forall k | 0 <= k < |memories|
          ensures IsInfix(MemoryLine(memories[k]), r)
        {
          JoinHasPart(lines, "\n", k);
        }
      }
      r
  }

  /** The `[RULES]` section: the project's conventions, or a fixed note when there are none. */
  function RulesSection(conventions: string): (r: string)
    ensures conventions != "" ==> IsInfix(conventions, r)
    ensures conventions == "" ==> r == "[RULES]\nNo explicit conventions."
  {
    if conventions != "" then
      InfixOfConcat("[RULES]\n", conventions, "");
      assert "[RULES]\n" + conventions + "" == "[RULES]\n" + conventions;
      "[RULES]\n" + conventions
    else "[RULES]\nNo explicit conventions."
  }

  function ProjectHeading(project: Project): string {
    "[PROJECT] " + project.name + " (" + project.id + ")"
  }

  function TicketHeading(ticket: TicketRecord): string {
    "[TICKET] " + ticket.id + " - " + ticket.title
  }

  const LastConstraint: string := "- Document blockers with explicit evidence."

  function HandoffSections(project: Project, ticket: TicketRecord, memories: seq<MemoryEntry>): seq<string> {
    [ ProjectHeading(project),
      RulesSection(project.conventions),
      TicketHeading(ticket),
      "Type=" + TypeName(ticket.ticketType) + " Priority=" + PriorityName(ticket.priority)
        + " Status=" + StatusName(ticket.status) + " Assignee=" + ticket.assignee,
      "[SPEC]",
      ticket.specMarkdown,
      "[ACCEPTANCE_CRITERIA]",
      ticket.acceptanceCriteria,
      "[TEST_PLAN]",
      ticket.testPlan,
      "[RECENT_MEMORY]",
      MemorySection(memories),
      "[DELIVERY_CONSTRAINTS]",
      "- Follow TDD: failing tests first, then implementation, keep tests green.",
      "- Keep changes scoped to active ticket.",
      LastConstraint ]
  }

  /** `generateHandoff`: the sections joined by blank lines. */
  function HandoffText(project: Project, ticket: TicketRecord, memories: seq<MemoryEntry>): string {
    Join(HandoffSections(project, ticket, memories), "\n\n")
  }

  /** The handoff opens with the project heading and a blank line, and ends with the last delivery constraint. */
  lemma HandoffFraming(project: Project, ticket: TicketRecord, memories: seq<MemoryEntry>)
    ensures var r := HandoffText(project, ticket, memories);
            var head := ProjectHeading(project) + "\n\n";
            |head| <= |r| && r[..|head|] == head
    ensures var r := HandoffText(project, ticket, memories);
            |LastConstraint| <= |r| && r[|r| - |LastConstraint|..] == LastConstraint
  {
    var parts := HandoffSections(project, ticket, memories);
    JoinStartsWith(parts, "\n\n");
    JoinEndsWith(parts, "\n\n");
  }

  /** The handoff shows the ticket heading, its spec, its acceptance criteria and its test plan. */
  lemma HandoffShowsTicket(project: Project, ticket: TicketRecord, memories: seq<MemoryEntry>)
    ensures var r := HandoffText(project, ticket, memories);
            && IsInfix(TicketHeading(ticket), r)
            && IsInfix(ticket.specMarkdown, r) && IsInfix(ticket.acceptanceCriteria, r) && IsInfix(ticket.testPlan, r)
  {
    var parts := HandoffSections(project, ticket, memories);
    JoinHasPart(parts, "\n\n", 2);
    JoinHasPart(parts, "\n\n", 5);
    JoinHasPart(parts, "\n\n", 7);
    JoinHasPart(parts, "\n\n", 9);
  }

  /** The handoff shows the project's conventions, or the fixed note when there are none. */
  lemma HandoffShowsRules(project: Project, ticket: TicketRecord, memories: seq<MemoryEntry>)
    ensures IsInfix(RulesSection(project.conventions), HandoffText(project, ticket, memories))
    ensures project.conventions != "" ==> IsInfix(project.conventions, HandoffText(project, ticket, memories))
  {
    var parts := HandoffSections(project, ticket, memories);
    JoinHasPart(parts, "\n\n", 1);
    if project.conventions != "" {
      InfixTransitive(project.conventions, parts[1], Join(parts, "\n\n"));
    }
  }

  /**
   * The handoff shows one line per recent memory entry, and so each entry's
   * task summary, or `- none` when there are none.
   */
  lemma HandoffShowsMemory(project: Project, ticket: TicketRecord, memories: seq<MemoryEntry>, k: nat)
    requires k < |memories|
    ensures IsInfix(MemoryLine(memories[k]), HandoffText(project, ticket, memories))
    ensures IsInfix(memories[k].taskSummary, HandoffText(project, ticket, memories))
  {
    var parts := HandoffSections(project, ticket, memories);
    var r := Join(parts, "\n\n");
    JoinHasPart(parts, "\n\n", 11);
    InfixTransitive(MemoryLine(memories[k]), parts[11], r);
    InfixTransitive(memories[k].taskSummary, MemoryLine(memories[k]), r);
  }

  /** Without recent memory the handoff says `- none`. */
  lemma HandoffWithoutMemory(project: Project, ticket: TicketRecord)
    ensures IsInfix("- none", HandoffText(project, ticket, []))
  {
    JoinHasPart(HandoffSections(project, ticket, []), "\n\n", 11);
  }

  // ---------------------------------------------------------------------------
  // `exportTicketMarkdown`.

  function FrontMatter(ticket: TicketRecord): seq<string> {
    [ "---",
      "ticketId: " + ticket.id,
      "projectId: " + ticket.projectId,
      "status: " + StatusName(ticket.status),
      "priority: " + PriorityName(ticket.priority),
      "type: " + TypeName(ticket.ticketType),
      "assignee: " + ticket.assignee,
      "updatedAt: " + TimestampText(ticket.updatedAt),
      "---" ]
  }

  function MarkdownBody(ticket: TicketRecord): seq<string> {
    [ "",
      "# " + ticket.id + " - " + ticket.title,
      "",
      "## Specification",
      ticket.specMarkdown,
      "",
      "## Acceptance Criteria",
      ticket.acceptanceCriteria,
      "",
      "## Test Plan",
      ticket.testPlan ]
  }

  /**
   * The document `exportTicketMarkdown` writes: the front-matter block
   * (between `---` lines, one `key: value` line per field), a blank line,
   * and the body, which ends with the test plan under its heading.
   */
  function TicketMarkdown(ticket: TicketRecord): (r: string)
    ensures var front := Join(FrontMatter(ticket), "\n") + "\n\n";
            |front| <= |r| && r[..|front|] == front
    ensures var front := Join(FrontMatter(ticket), "\n");
            |front| >= 8 && front[..4] == "---\n" && front[|front| - 4..] == "\n---"
    ensures var tail := "## Test Plan\n" + ticket.testPlan; |tail| <= |r| && r[|r| - |tail|..] == tail
    ensures IsInfix("# " + ticket.id + " - " + ticket.title, r)
    ensures IsInfix(ticket.specMarkdown, r) && IsInfix(ticket.acceptanceCriteria, r)
  {
    MarkdownStart(ticket);
    FrontMatterFraming(ticket);
    MarkdownEnd(ticket);
    MarkdownShows(ticket);
    Join(FrontMatter(ticket) + MarkdownBody(ticket), "\n")
  }

  lemma MarkdownStart(ticket: TicketRecord)
    ensures var front := Join(FrontMatter(ticket), "\n") + "\n\n";
            var r := Join(FrontMatter(ticket) + MarkdownBody(ticket), "\n");
            |front| <= |r| && r[..|front|] == front
  {
    var front := FrontMatter(ticket);
    var body := MarkdownBody(ticket);
    var lines := front + body;
    JoinSplit(lines, "\n", 9);
    assert lines[..9] == front && lines[9..] == body;
    assert Join(body, "\n") == "" + "\n" + Join(body[1..], "\n");
  }

  lemma MarkdownEnd(ticket: TicketRecord)
    ensures var tail := "## Test Plan\n" + ticket.testPlan;
            var r := Join(FrontMatter(ticket) + MarkdownBody(ticket), "\n");
            |tail| <= |r| && r[|r| - |tail|..] == tail
  {
    var lines := FrontMatter(ticket) + MarkdownBody(ticket);
    JoinSplit(lines, "\n", 19);
    assert lines[19..] == [ticket.testPlan];
    JoinEndsWith(lines[..19], "\n");
    assert lines[..19][18] == "## Test Plan";
  }

  lemma MarkdownShows(ticket: TicketRecord)
    ensures var r := Join(FrontMatter(ticket) + MarkdownBody(ticket), "\n");
            IsInfix("# " + ticket.id + " - " + ticket.title, r) &&
            IsInfix(ticket.specMarkdown, r) && IsInfix(ticket.acceptanceCriteria, r)
  {
    var lines := FrontMatter(ticket) + MarkdownBody(ticket);
    JoinHasPart(lines, "\n", 10);
    JoinHasPart(lines, "\n", 13);
    JoinHasPart(lines, "\n", 16);
  }

  lemma FrontMatterFraming(ticket: TicketRecord)
    ensures var front := Join(FrontMatter(ticket), "\n");
            |front| >= 8 && front[..4] == "---\n" && front[|front| - 4..] == "\n---"
  {
    var parts := FrontMatter(ticket);
    JoinStartsWith(parts, "\n");
    JoinSplit(parts, "\n", 8);
    assert parts[8..] == ["---"];
  }
}
