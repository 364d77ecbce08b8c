/**
 * The pure parts of the VAULT_0 bridge in src/main/core/vault-core.ts: the
 * overview of a remote server (one snapshot per remote project, in order),
 * picking the source agent or ticket of an import, the label merge and the
 * provenance banner an imported ticket gets.
 */
module Bridge {
  import opened Wrappers
  import opened Text
  import opened ArrayCodec
  import opened Contracts
  import opened Remote

  // ---------------------------------------------------------------------------
  // `getVault0Overview`.

  /** `Vault0ProjectSnapshot`. */
  datatype Snapshot = Snapshot(project: Project, agents: seq<AgentRecord>, tickets: seq<TicketRecord>, memory: seq<MemoryEntry>)

  /** The limit the overview asks the memory route for. */
  const OverviewMemoryLimit: nat := 20

  /** The three listings of one remote project, or the first of their errors. */
  function SnapshotOf(
    project: Project,
    agentsOf: string -> Reply<AgentRecord>,
    ticketsOf: string -> Reply<TicketRecord>,
    memoryOf: string -> Reply<MemoryEntry>): (r: Result<Snapshot, RemoteError>)
    ensures r.Ok? <==>
              && FetchList(AgentsRoute(project.id), agentsOf(project.id)).Ok?
              && FetchList(TicketsRoute(project.id), ticketsOf(project.id)).Ok?
              && FetchList(MemoryRoute(project.id, OverviewMemoryLimit), memoryOf(project.id)).Ok?
    ensures r.Ok? ==> r.value == Snapshot(
              project,
              FetchList(AgentsRoute(project.id), agentsOf(project.id)).value,
              FetchList(TicketsRoute(project.id), ticketsOf(project.id)).value,
              FetchList(MemoryRoute(project.id, OverviewMemoryLimit), memoryOf(project.id)).value)
  {
    var agents := FetchList(AgentsRoute(project.id), agentsOf(project.id));
    var tickets := FetchList(TicketsRoute(project.id), ticketsOf(project.id));
    var memory := FetchList(MemoryRoute(project.id, OverviewMemoryLimit), memoryOf(project.id));
    if agents.Err? then Err(agents.error)
    else if tickets.Err? then Err(tickets.error)
    else if memory.Err? then Err(memory.error)
    else Ok(Snapshot(project, agents.value, tickets.value, memory.value))
  }

  /** `projects.map(...)` under `Promise.all`: every snapshot in project order, or the first error. */
  function SnapshotsOf(
    projects: seq<Project>,
    agentsOf: string -> Reply<AgentRecord>,
    ticketsOf: string -> Reply<TicketRecord>,
    memoryOf: string -> Reply<MemoryEntry>): (r: Result<seq<Snapshot>, RemoteError>)
    ensures r.Ok? <==> forall i :: 0 <= i < |projects| ==> SnapshotOf(projects[i], agentsOf, ticketsOf, memoryOf).Ok?
    ensures r.Ok? ==> |r.value| == |projects|
    ensures r.Ok? ==> forall i :: 0 <= i < |projects| ==> r.value[i] == SnapshotOf(projects[i], agentsOf, ticketsOf, memoryOf).value
    ensures r.Err? ==> exists i :: FirstFailure(projects, agentsOf, ticketsOf, memoryOf, i) &&
                         r.error == SnapshotOf(projects[i], agentsOf, ticketsOf, memoryOf).error
  {
    if projects == [] then Ok([])
    else
      var first := SnapshotOf(projects[0], agentsOf, ticketsOf, memoryOf);
      if first.Err? then Err(first.error)
      else
        var rest := SnapshotsOf(projects[1..], agentsOf, ticketsOf, memoryOf);
        if rest.Err? then
          var i :| FirstFailure(projects[1..], agentsOf, ticketsOf, memoryOf, i) &&
                   rest.error == SnapshotOf(projects[1..][i], agentsOf, ticketsOf, memoryOf).error;
          assert forall j :: 1 <= j <= i + 1 ==> projects[j] == projects[1..][j - 1];
          assert FirstFailure(projects, agentsOf, ticketsOf, memoryOf, i + 1);
          Err(rest.error)
        else
          assert forall i :: 1 <= i < |projects| ==> projects[i] == projects[1..][i - 1];
          Ok([first.value] + rest.value)
  }

  /** Project `i` is the first whose snapshot fails. */
  predicate FirstFailure(
    projects: seq<Project>,
    agentsOf: string -> Reply<AgentRecord>,
    ticketsOf: string -> Reply<TicketRecord>,
    memoryOf: string -> Reply<MemoryEntry>,
    i: int)
  {
    && 0 <= i < |projects|
    && SnapshotOf(projects[i], agentsOf, ticketsOf, memoryOf).Err?
    && forall j :: 0 <= j < i ==> SnapshotOf(projects[j], agentsOf, ticketsOf, memoryOf).Ok?
  }

  /**
   * `getVault0Overview(baseUrl)`: the remote project list, then one snapshot
   * per remote project, in the remote order. The store's requests are
   * single-shot: any failing request fails the overview.
   */
  function Overview(
    projectsReply: Reply<Project>,
    agentsOf: string -> Reply<AgentRecord>,
    ticketsOf: string -> Reply<TicketRecord>,
    memoryOf: string -> Reply<MemoryEntry>): (r: Result<seq<Snapshot>, RemoteError>)
    ensures FetchList(ProjectsRoute, projectsReply).Err? ==> r == Err(FetchList(ProjectsRoute, projectsReply).error)
    ensures r.Ok? ==> FetchList(ProjectsRoute, projectsReply).Ok?
    ensures r.Ok? ==>
              var projects := FetchList(ProjectsRoute, projectsReply).value;
              && |r.value| == |projects|
              && forall i :: 0 <= i < |projects| ==>
                   && r.value[i].project == projects[i]
                   && SnapshotOf(projects[i], agentsOf, ticketsOf, memoryOf).Ok?
                   && r.value[i] == SnapshotOf(projects[i], agentsOf, ticketsOf, memoryOf).value
    ensures FetchList(ProjectsRoute, projectsReply).Ok? ==>
              (r.Ok? <==> forall p :: p in FetchList(ProjectsRoute, projectsReply).value ==>
                           SnapshotOf(p, agentsOf, ticketsOf, memoryOf).Ok?)
  {
    match FetchList(ProjectsRoute, projectsReply)
    case Err(e) => Err(e)
    case Ok(projects) => SnapshotsOf(projects, agentsOf, ticketsOf, memoryOf)
  }

  // ---------------------------------------------------------------------------
  // `importAgentFromVault0` and `importTicketFromVault0`.

  /** `agents.find(agent => agent.id === sourceId || agent.agentId === sourceId)`: the position of the first match. */
  function SourceAgentIndex(agents: seq<AgentRecord>, sourceId: string): (r: Option<nat>)
    ensures r.Some? ==> r.value < |agents| && (agents[r.value].id == sourceId || agents[r.value].agentId == sourceId)
    ensures r.Some? ==> forall j :: 0 <= j < r.value ==> agents[j].id != sourceId && agents[j].agentId != sourceId
    ensures r.None? <==> forall j :: 0 <= j < |agents| ==> agents[j].id != sourceId && agents[j].agentId != sourceId
  {
    if agents == [] then None
    else if agents[0].id == sourceId || agents[0].agentId == sourceId then Some(0)
    else
      match SourceAgentIndex(agents[1..], sourceId)
      case None => None
      case Some(i) => Some(i + 1)
  }

  /** `tickets.find(ticket => ticket.id === sourceId)`: the position of the first exact id match. */
  function SourceTicketIndex(tickets: seq<TicketRecord>, sourceId: string): (r: Option<nat>)
    ensures r.Some? ==> r.value < |tickets| && tickets[r.value].id == sourceId
    ensures r.Some? ==> forall j :: 0 <= j < r.value ==> tickets[j].id != sourceId
    ensures r.None? <==> forall j :: 0 <= j < |tickets| ==> tickets[j].id != sourceId
  {
    if tickets == [] then None
    else if tickets[0].id == sourceId then Some(0)
    else
      match SourceTicketIndex(tickets[1..], sourceId)
      case None => None
      case Some(i) => Some(i + 1)
  }

  predicate Distinct(xs: seq<string>) {
    forall i, j :: 0 <= i < j < |xs| ==> xs[i] != xs[j]
  }

  /** `Array.from(new Set(xs))`: each value once, at the place it first occurs. */
  function Dedup(xs: seq<string>): (r: seq<string>)
    ensures forall x :: x in r <==> x in xs
    ensures Distinct(r)
    ensures |r| <= |xs|
  {
    if xs == [] then []
    else
      var init := Dedup(xs[..|xs| - 1]);
      var last := xs[|xs| - 1];
      assert xs == xs[..|xs| - 1] + [last];
      if last in init then init else init + [last]
  }

  /** A list without repeats is its own deduplication. */
  lemma {:induction false} DedupOfDistinct(xs: seq<string>)
    requires Distinct(xs)
    ensures Dedup(xs) == xs
  {
    if xs != [] {
      var init := xs[..|xs| - 1];
      DedupOfDistinct(init);
      assert xs[|xs| - 1] !in init;
    }
  }

  /** The position where `x` first occurs in `xs`. */
  function FirstIndex(xs: seq<string>, x: string): (r: nat)
    requires x in xs
    ensures r < |xs| && xs[r] == x
    ensures forall j :: 0 <= j < r ==> xs[j] != x
  {
    if xs[0] == x then 0 else 1 + FirstIndex(xs[1..], x)
  }

  /** A position holding `x` with no `x` before it is the first occurrence. */
  lemma FirstIndexAt(xs: seq<string>, x: string, k: nat)
    requires k < |xs| && xs[k] == x
    requires forall j :: 0 <= j < k ==> xs[j] != x
    ensures FirstIndex(xs, x) == k
  {
  }

  /** Appending after a value's first occurrence does not move it. */
  lemma FirstIndexOfPrefix(p: seq<string>, q: seq<string>, x: string)
    requires x in p
    ensures FirstIndex(p + q, x) == FirstIndex(p, x)
  {
    var k := FirstIndex(p, x);
    FirstIndexAt(p + q, x, k);
  }

  /**
   * Every value of `r` occurs in `xs`, and `r` lists them in the order of
   * their first occurrences in `xs`.
   */
  predicate InFirstOrder(xs: seq<string>, r: seq<string>) {
    && (forall x :: x in r ==> x in xs)
    && forall i, j :: 0 <= i < j < |r| ==> FirstIndex(xs, r[i]) < FirstIndex(xs, r[j])
  }

  /** Extending the list at the end keeps the order, and a new value goes last. */
  lemma InFirstOrderAppend(xs: seq<string>, last: string, r: seq<string>)
    requires InFirstOrder(xs, r)
    ensures InFirstOrder(xs + [last], r)
    ensures last !in xs ==> InFirstOrder(xs + [last], r + [last])
  {
    var ys := xs + [last];
    forall x | x in r
      ensures FirstIndex(ys, x) == FirstIndex(xs, x) < |xs|
    {
      FirstIndexOfPrefix(xs, [last], x);
    }
    if last !in xs {
      FirstIndexAt(ys, last, |xs|);
      var s := r + [last];
      forall i, j | 0 <= i < j < |s|
        ensures FirstIndex(ys, s[i]) < FirstIndex(ys, s[j])
      {
        assert s[i] == r[i] && r[i] in r;
        if j < |r| {
          assert s[j] == r[j] && r[j] in r;
        }
      }
    }
  }

  /**
   * `Dedup` keeps the values in the order of their first occurrences: of two
   * kept values, the one that occurs first in `xs` comes first.
   */
  lemma {:induction false} DedupKeepsFirstOrder(xs: seq<string>)
    ensures InFirstOrder(xs, Dedup(xs))
  {
    if xs != [] {
      var init := xs[..|xs| - 1];
      var last := xs[|xs| - 1];
      assert xs == init + [last];
      DedupKeepsFirstOrder(init);
      InFirstOrderAppend(init, last, Dedup(init));
    }
  }

  /** Deduplicating twice is deduplicating once. */
  lemma DedupIdempotent(xs: seq<string>)
    ensures Dedup(Dedup(xs)) == Dedup(xs)
  {
    DedupOfDistinct(Dedup(xs));
  }

  const SharedLabel: string := "shared-from-vault0"

  /**
   * The labels an imported ticket is created with: the source labels and
   * `shared-from-vault0`, each once, in first-occurrence order.
   */
  function MergeLabels(labels: seq<string>): (r: seq<string>)
    ensures SharedLabel in r
    ensures forall x :: x in r <==> x in labels || x == SharedLabel
    ensures Distinct(r)
    ensures Distinct(labels) && SharedLabel !in labels ==> r == labels + [SharedLabel]
  {
    var all := labels + [SharedLabel];
    assert all[|all| - 1] == SharedLabel;
    assert Distinct(labels) && SharedLabel !in labels ==> Dedup(all) == all by {
      if Distinct(labels) && SharedLabel !in labels {
        DedupOfDistinct(all);
      }
    }
    Dedup(all)
  }

  /**
   * The merged labels keep first-occurrence order: the source labels in the
   * order they first occur, then the shared label when it was not among them.
   */
  lemma MergeLabelsOrder(labels: seq<string>)
    ensures InFirstOrder(labels + [SharedLabel], MergeLabels(labels))
    ensures SharedLabel !in labels ==> MergeLabels(labels)[|MergeLabels(labels)| - 1] == SharedLabel
  {
    var all := labels + [SharedLabel];
    var r := MergeLabels(labels);
    assert r == Dedup(all);
    DedupKeepsFirstOrder(all);
    if SharedLabel !in labels {
      FirstIndexAt(all, SharedLabel, |labels|);
      var k :| 0 <= k < |r| && r[k] == SharedLabel;
      if k < |r| - 1 {
        assert false;
      }
    }
  }

  /** Importing a ticket that already carries the shared label keeps its labels as they are. */
  lemma ReimportKeepsLabels(labels: seq<string>)
    requires Distinct(labels) && SharedLabel in labels
    ensures MergeLabels(labels) == labels
  {
    var all := labels + [SharedLabel];
    assert all[..|all| - 1] == labels;
    DedupOfDistinct(labels);
  }

  /** The stored labels of an imported ticket always include the shared label. */
  lemma StoredLabelsCarryShared(labels: seq<string>)
    ensures SharedLabel in NormalizeEntries(MergeLabels(labels))
  {
    assert IsTrimmed(SharedLabel);
    TrimOfTrimmed(SharedLabel);
  }

  /** `VAULT_0 source ticket: <id> (project <projectId>)`. */
  function SourceBanner(sourceTicketId: string, sourceProjectId: string): string {
    "VAULT_0 source ticket: " + sourceTicketId + " (project " + sourceProjectId + ")"
  }

  /**
   * `[banner, "", spec].join("\n")`: the banner, a blank line, then the
   * source spec verbatim.
   */
  function PrefixedSpec(sourceTicketId: string, sourceProjectId: string, spec: string): (r: string)
    ensures var banner := SourceBanner(sourceTicketId, sourceProjectId);
            && |r| == |banner| + 2 + |spec|
            && r[..|banner|] == banner
            && r[|banner|..|banner| + 2] == "\n\n"
            && r[|banner| + 2..] == spec
  {
    var banner := SourceBanner(sourceTicketId, sourceProjectId);
    var r := Join([banner, "", spec], "\n");
    assert [banner, "", spec][1..] == ["", spec] && ["", spec][1..] == [spec];
    assert Join([spec], "\n") == spec;
    assert Join(["", spec], "\n") == "" + "\n" + spec;
    assert r == banner + "\n" + ("" + "\n" + spec);
    r
  }
}
