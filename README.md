# VAULT_1 core in Dafny

This project models the two core pieces of the VAULT_1 desktop app's main process.

`VaultCore` (`src/main/core/vault-core.ts`) is a local store. It holds projects, tickets, agents and chat messages in four SQLite tables, and each project has a JSON-lines memory log. It also bridges to a remote VAULT_0 server: it can read an overview of that server and import an agent or a ticket from it.

`Vault0ApiClient.requestJson` (`src/main/core/vault0-api-client.ts`) is a JSON request with a timeout and bounded retries.

How the source's state and inputs are represented:

- The store is the class `Vault.VaultCore`.
  - Each table is a `seq` field of rows in insertion order.
  - The memory logs are a `map` from project id to lines; a missing key is a missing file.
  - The open database handle is the flag `isOpen`.
- Every operation is a method with `modifies` on the tables it writes. It returns a `Result` whose errors are the exceptions the source throws.
- Each method's new state is tied to a pure function of the old tables (`Tables.UpsertRows`, `Tables.StatusRows`, `Vault.NewTicket`, …). The lemmas about those functions state what the writes mean.
- `Schema.Consistent` is the class invariant (`Valid`). It covers:
  - the primary keys, `UNIQUE(projectId, agentId)` and the foreign keys to `projects`;
  - the ticket-id scheme.
  Every writing method preserves it.
- Some inputs become parameters:
  - fresh UUIDs, with "not yet a row id" as the precondition;
  - the clock, with timestamps as naturals ordered like the ISO strings;
  - the VAULT_0 server's replies, each request answered by a value the caller supplies.
- `Vault0ApiClient.RequestJson` keeps the source's retry loop. The network is an oracle: `outcomeOf(k)` says how attempt `k` ends.

Three behaviours of the code that the model follows:

- Ticket ids are the `tickets` primary key. Two projects whose names give the same slug therefore clash: the second project's `createTicket` fails with `DuplicateTicketId` rather than reusing the id (`Vault.NewTicketClash`).
- The `agents` table has a foreign key to `projects`. An upsert that inserts an agent for an unknown project fails with `ForeignKeyFailed`.
- `listMemory` keeps every line that parses to a non-null JSON value. It does not check the shape of the entry.

## Model

| member | source | states |
|---|---|---|
| Text.Trim | src/main/core/vault-core.ts:120 | the trimmed text has no white space at either end and occurs inside the input |
| Text.TrimShape | src/main/core/vault-core.ts:120 | trimming removes only white space at the two ends: the result is the input's middle piece, and everything around it is white space |
| Text.TrimIdempotent | src/main/core/vault-core.ts:152 | trimming an already trimmed value changes nothing |
| Text.DecimalRoundTrip | src/main/core/vault-core.ts:499 | `String(n)` is all digits and reads back as `n` |
| Text.ZeroPaddingValue | src/main/core/vault-core.ts:499 | `padStart(3, "0")` keeps the number the digits spell |
| Text.TextLeTotal | src/main/core/vault-core.ts:535 | the `BINARY` collation used by `ORDER BY id` / `displayName` compares any two texts |
| Text.TextLeTransitive | src/main/core/vault-core.ts:535 | that collation is transitive |
| Text.TextLeAntisymmetric | src/main/core/vault-core.ts:535 | texts that each sort before the other are equal |
| Slug.SlugShape | src/main/core/vault-core.ts:118-127 | the slug is never empty and holds only `A-Z`, `0-9` and single inner hyphens; it is "PROJECT" when the name has no ASCII letter or digit (a name such as "project" also gives "PROJECT"), and otherwise spells them, upper-cased, in order |
| Slug.SlugWords | src/main/core/vault-core.ts:118-127 | the slug is the upper-cased, trimmed name's maximal runs of `A-Z`/`0-9` joined by exactly one hyphen each, or "PROJECT" when there is no such run |
| Slug.ReplaceRunsWords | src/main/core/vault-core.ts:122 | `/[^A-Z0-9]+/g → "-"` gives the text's runs of letters and digits joined by one hyphen, plus one hyphen for each end of the text that is another character |
| Slug.WordsShape | src/main/core/vault-core.ts:122 | every run is non-empty and made only of `A-Z`/`0-9` |
| Slug.LeadRunShape | src/main/core/vault-core.ts:122 | a run is a prefix of letters and digits that stops at the end of the text or at another character |
| Slug.ReplaceRunsShape | src/main/core/vault-core.ts:122 | the replacement leaves no character outside `[A-Z0-9-]` and no `--`, keeps the letters and digits, and starts with a hyphen exactly when the text starts with another character |
| Slug.DropLeadingShape | src/main/core/vault-core.ts:123 | `^-+` removal leaves a suffix that does not start with a hyphen, and only hyphens were removed |
| Slug.DropTrailingShape | src/main/core/vault-core.ts:123 | `-+$` removal leaves a prefix that does not end with a hyphen, and only hyphens were removed |
| Slug.CollapseWithoutRuns | src/main/core/vault-core.ts:124 | collapsing changes nothing in a text without `--` |
| Slug.UpperLettersIgnoreTrim | src/main/core/vault-core.ts:120 | trimming drops no letter or digit |
| Slug.SlugOfVault1 | tests/vault-core.test.ts:40-64 | project "VAULT_1" has slug "VAULT-1" |
| ArrayCodec.ParseJsonArray | src/main/core/vault-core.ts:133-146 | non-text, empty, unparsable and non-array columns read as `[]`; an array reads as exactly its string elements (order and repeats: `ArrayCodec.StringsOfAppend`) |
| ArrayCodec.StringsOfAppend | src/main/core/vault-core.ts:142 | reading an array element by element: a string at the end adds that string at the end, any other value adds nothing, so order and repeats are kept |
| ArrayCodec.NormalizeEntries | src/main/core/vault-core.ts:152 | kept entries are trimmed and non-empty; every non-blank input survives as its trimmed form, and nothing else is kept (order: `ArrayCodec.NormalizeEntriesAppend`) |
| ArrayCodec.NormalizeEntriesAppend | src/main/core/vault-core.ts:152 | `map(trim).filter(Boolean)` entry by entry: a value at the end adds its trimmed form at the end unless that is empty, so order and repeats are kept |
| ArrayCodec.ArrayRoundTrip | src/main/core/vault-core.ts:148-154 | a stored list reads back as its trimmed, non-empty entries; an absent list reads back as `[]` |
| ArrayCodec.NormalizeIdempotent | src/main/core/vault-core.ts:152 | normalizing twice is normalizing once |
| ArrayCodec.ReencodeIsStable | src/main/core/vault-core.ts:148-154 | writing back a list that was read leaves the stored text unchanged |
| Schema.TicketNumber | src/main/core/vault-core.ts:499 | the number part of an id is at least three digits and reads back as the sequence number |
| Schema.TicketIdParts | src/main/core/vault-core.ts:499 | an id is the slug, a hyphen, then at least three digits spelling the number |
| Schema.TicketIdDetermines | src/main/core/vault-core.ts:499 | an id determines both its slug and its number |
| Schema.FirstTicketIds | tests/vault-core.test.ts:40-64 | a project's first two tickets are `<slug>-001` and `<slug>-002` |
| Schema.MaxSequence | src/main/core/vault-core.ts:495-498 | `COALESCE(MAX(sequence), 0)`: at least every sequence of the project, and either 0 or one of them |
| Schema.MaxSequenceOtherProject | src/main/core/vault-core.ts:496 | numbering is per project: another project's ticket does not change it |
| Schema.MaxSequenceOfNext | src/main/core/vault-core.ts:498 | the next ticket becomes the project's highest-numbered one |
| Schema.FindProject | src/main/core/vault-core.ts:404-408 | the project found has the id; none is found exactly when no stored project has it |
| Schema.FindTicket | src/main/core/vault-core.ts:528 | the ticket found has the id; none is found exactly when no stored ticket has it |
| Schema.AgentKeyIndex | src/main/core/vault-core.ts:555-557 | the row found carries the (projectId, agentId) key; none is found exactly when no row does |
| Schema.SequencesUnique | src/main/core/vault-core.ts:209 | `UNIQUE(projectId, sequence)` follows from unique ids and the id scheme |
| Schema.NextIdClashNeedsSameSlug | src/main/core/vault-core.ts:499-510 | the next id of a project can be taken only by a ticket of a different project whose name gives the same slug |
| Tables.TrimmedOr | src/main/core/vault-core.ts:346-350 | `x?.trim() ?? ""` is trimmed, and is "" when absent |
| Tables.AppendProjectKeepsSchema | src/main/core/vault-core.ts:337-353 | inserting a project under an unused id keeps the schema's constraints |
| Tables.ArchiveRows | src/main/core/vault-core.ts:413-415 | exactly the rows with the id get the flag and `updatedAt`; all others are unchanged |
| Tables.ArchiveKeepsSchema | src/main/core/vault-core.ts:413-415 | archiving keeps the ids and the schema's constraints |
| Tables.CreatedTicketRecord | src/main/core/vault-core.ts:509-529 | a created ticket reads back with trimmed title and assignee, defaulted text and estimate, and normalized lists |
| Tables.CreateKeepsSchema | src/main/core/vault-core.ts:495-526 | appending the project's next ticket under a free id keeps the constraints and makes it the project's highest |
| Tables.StatusRows | src/main/core/vault-core.ts:543 | exactly the row with the id gets the status and `updatedAt`; all others are unchanged |
| Tables.StatusKeepsSchema | src/main/core/vault-core.ts:543 | a status change keeps ids and the schema's constraints |
| Tables.AppendMessageKeepsSchema | src/main/core/vault-core.ts:744-749 | inserting a message with an unused id for a stored project keeps the constraints |
| Tables.UpsertIndex | src/main/core/vault-core.ts:555-559 | the upsert writes at the keyed row or at a new position at the end |
| Tables.UpsertRows | src/main/core/vault-core.ts:551-608 | the table keeps its length when the key exists, and grows by one otherwise |
| Tables.UpsertedRow | src/main/core/vault-core.ts:559-607 | the keyed row keeps its id and `createdAt` (a new row gets the fresh id, created now), takes the input's columns, including `displayName`, `role`, `personality`, `defaultPrompt`, `avatarUrl` and the normalized `skills` and `rules`, and reads back with `isActive` false only for an explicit `false`; other rows are untouched |
| Tables.UpsertNewKey | src/main/core/vault-core.ts:583-607 | an upsert of an unused key appends one row under the fresh id |
| Tables.UpsertKeepsKeys | src/main/core/vault-core.ts:227 | after an upsert, the agent keys are still unique |
| Tables.UpsertKeepsSchema | src/main/core/vault-core.ts:551-608 | the upsert keeps the schema's constraints, and afterwards the key is found |
| Tables.UpsertTwice | src/main/core/vault-core.ts:555-581 | upserting one key twice leaves one row, which keeps the first call's id and creation time |
| Tables.UniqueKeyIndex | src/main/core/vault-core.ts:227 | under unique keys, the row found for a key is the one row that has it |
| Tables.UpsertIds | src/main/core/vault-core.ts:583-607 | an upsert adds no row id except the fresh one |
| Ordering.InsertBy | src/main/core/vault-core.ts:535 | inserting into a sorted list keeps it sorted and adds exactly that element |
| Ordering.SortBy | src/main/core/vault-core.ts:535 | `ORDER BY`: the result is sorted and is a permutation of the rows |
| Ordering.FilterBy | src/main/core/vault-core.ts:535 | `WHERE`: keeps exactly the rows satisfying the condition, each as often as stored |
| Listing.ListProjectsOf | src/main/core/vault-core.ts:394-402 | all projects, or only the unarchived ones, each as often as stored, with `updatedAt` non-increasing |
| Listing.ListTicketsOf | src/main/core/vault-core.ts:532-538 | a permutation of the project's tickets, ordered by `updatedAt` descending and then by id descending |
| Listing.ListAgentsOf | src/main/core/vault-core.ts:610-621 | a permutation of the project's selected agents, active before inactive and by display name within each group; only active agents unless inactive ones are asked for |
| Listing.ListMessagesOf | src/main/core/vault-core.ts:761-789 | the project's messages (of one agent when a non-empty agent id is given), each as often as stored, with `createdAt` non-decreasing |
| Listing.ProjectOrderIsTotal | src/main/core/vault-core.ts:397 | `ORDER BY updatedAt DESC` is a total preorder |
| Listing.TicketOrderIsTotal | src/main/core/vault-core.ts:535 | `ORDER BY updatedAt DESC, id DESC` is a total preorder |
| Listing.AgentOrderIsTotal | src/main/core/vault-core.ts:614 | `ORDER BY isActive DESC, displayName ASC` is a total preorder |
| Listing.MessageOrderIsTotal | src/main/core/vault-core.ts:769 | `ORDER BY createdAt ASC` is a total preorder |
| MemoryLog.KeptEntriesMembers | src/main/core/vault-core.ts:825-836 | the entries read back are exactly those that some line holds |
| MemoryLog.KeptEntriesAppend | src/main/core/vault-core.ts:816 | appending an entry's line adds exactly that entry at the end of what is read back |
| MemoryLog.KeptEntriesSkip | src/main/core/vault-core.ts:827-836 | blank, unparsable and `null` lines are skipped without trace |
| MemoryLog.TailSlice | src/main/core/vault-core.ts:838 | `slice(-limit)` is a suffix of the list: the last `limit` elements for a positive limit, all of them for 0, and all but the first `-limit` for a negative limit |
| MemoryLog.ListMemoryOf | src/main/core/vault-core.ts:821-842 | a missing log reads as `[]`; otherwise the result is a suffix of the kept entries, of length `min(limit, count)` for a positive limit |
| MemoryLog.LastAppendedIsNewest | src/main/core/vault-core.ts:816-838 | after an append, the new entry is the last one read back, for any positive limit |
| MemoryLog.LastThreeOfFour | tests/vault-core.test.ts:163-214 | after four appends, a limit of 3 reads back the last three in file order |
| Remote.DropTrailingSlashes | src/main/core/vault-core.ts:255 | the result is a prefix not ending in `/`, and only `/` characters were dropped |
| Remote.NormalizeBaseUrl | src/main/core/vault0-api-client.ts:13-15 | a prefix of the trimmed URL that does not end in `/`; only trailing `/` characters were dropped |
| Remote.TrailingSlashIgnored | src/main/core/vault-core.ts:254-256 | a trailing slash on a base URL makes no difference to the requests |
| Remote.LocalhostBaseUrl | tests/vault0-api-client.test.ts:6-31 | "http://localhost:3000/" normalizes to "http://localhost:3000" |
| Remote.HttpErrorMessage | src/main/core/vault-core.ts:264-267 | the message names the status and the route, and ends with the body, or with the status text when the body is empty |
| Remote.FetchList | src/main/core/vault-core.ts:258-269 | a non-2xx reply fails with the API error; success exactly for a 2xx reply with a JSON object; a missing list field reads as `[]` |
| Bridge.SnapshotOf | src/main/core/vault-core.ts:656-666 | a project's snapshot succeeds exactly when its three listings do, and then holds them |
| Bridge.SnapshotsOf | src/main/core/vault-core.ts:654-668 | `Promise.all`: one snapshot per project in order, or the error of the first project that fails |
| Bridge.Overview | src/main/core/vault-core.ts:652-669 | a failed project list fails the overview; otherwise the snapshots follow the remote order, and the overview succeeds exactly when every project's snapshot does |
| Bridge.SourceAgentIndex | src/main/core/vault-core.ts:678-680 | the first agent whose `id` or `agentId` is the source id, and none exactly when no agent matches |
| Bridge.SourceTicketIndex | src/main/core/vault-core.ts:706 | the first ticket whose `id` is the source id, and none exactly when no ticket matches |
| Bridge.Dedup | src/main/core/vault-core.ts:711 | `new Set`: the same members, without repeats (order: `Bridge.DedupKeepsFirstOrder`) |
| Bridge.FirstIndex | src/main/core/vault-core.ts:711 | the position of a value's first occurrence: it holds the value and no earlier position does |
| Bridge.DedupKeepsFirstOrder | src/main/core/vault-core.ts:711 | `Array.from(new Set(xs))` lists the values in the order of their first occurrences in `xs` |
| Bridge.DedupIdempotent | src/main/core/vault-core.ts:711 | deduplicating twice is deduplicating once |
| Bridge.MergeLabels | src/main/core/vault-core.ts:711 | the labels plus `shared-from-vault0`, without repeats; a repeat-free list without the label just gains it at the end |
| Bridge.MergeLabelsOrder | src/main/core/vault-core.ts:711 | the merged labels are in first-occurrence order of `[...labels, "shared-from-vault0"]`, so the shared label comes last when the source did not have it |
| Bridge.ReimportKeepsLabels | src/main/core/vault-core.ts:711 | labels that already carry the shared label are unchanged |
| Bridge.StoredLabelsCarryShared | src/main/core/vault-core.ts:711 | the stored labels of an imported ticket always include `shared-from-vault0` |
| Bridge.PrefixedSpec | src/main/core/vault-core.ts:712-716 | the spec is the provenance banner, a blank line, then the source spec verbatim |
| Handoff.MemoryLine | src/main/core/vault-core.ts:858-861 | a memory line shows the entry's task summary |
| Handoff.MemorySection | src/main/core/vault-core.ts:858-861 | "- none" without entries; otherwise each entry's line appears |
| Handoff.RulesSection | src/main/core/vault-core.ts:865-867 | the rules section shows the conventions, or the fixed note when there are none |
| Handoff.HandoffFraming | src/main/core/vault-core.ts:863-880 | the handoff starts with the project heading and a blank line, and ends with the last delivery constraint |
| Handoff.HandoffShowsTicket | src/main/core/vault-core.ts:866-873 | the handoff shows the ticket heading, spec, acceptance criteria and test plan |
| Handoff.HandoffShowsRules | src/main/core/vault-core.ts:865-867 | the handoff shows the conventions, or the fixed note when there are none |
| Handoff.HandoffShowsMemory | src/main/core/vault-core.ts:856-875 | the handoff shows every recent entry's line and task summary |
| Handoff.HandoffWithoutMemory | src/main/core/vault-core.ts:858-861 | without memory, the handoff says "- none" |
| Handoff.TicketMarkdown | src/main/core/vault-core.ts:895-916 | the export starts with the `---` front-matter block and a blank line, shows the title heading, spec and criteria, and ends with the test plan under its heading |
| ApiClient.TimeoutMessage | src/main/core/vault0-api-client.ts:88 | the timeout error names the timeout and the route |
| ApiClient.ClassifyMeaning | src/main/core/vault0-api-client.ts:74-104 | only a 2xx reply with parsable JSON succeeds; exactly the sub-500 error replies and errors flagged `retryable: false` are not retried; error replies and timeouts get their messages |
| ApiClient.MaxAttempts | src/main/core/vault0-api-client.ts:54 | at least one attempt, and `retries + 1` when retries are non-negative |
| ApiClient.Vault0ApiClient.constructor | src/main/core/vault0-api-client.ts:38-43 | defaults of a 5000 ms timeout, 1 retry and a 120 ms delay |
| ApiClient.Vault0ApiClient.RequestJson | src/main/core/vault0-api-client.ts:45-120 | requests `base + route`; stops at the first success, the first non-retryable failure, or the attempt limit; every earlier attempt failed retryably; one delay between attempts and none after the last; the result is the last attempt's body or error |
| ApiClient.ServerErrorThenSuccess | tests/vault0-api-client.test.ts:6-31 | a 5xx reply then a 2xx reply give the body after two calls |
| ApiClient.TimeoutWithoutRetry | tests/vault0-api-client.test.ts:33-58 | with no retries, a timeout fails after one call with a message naming the timeout |
| ApiClient.ClientErrorFailsFast | tests/vault0-api-client.test.ts:60-76 | a sub-500 error reply fails after one call even with retries allowed, and names the route |
| Vault.DefaultKeysDistinct | src/main/core/vault-core.ts:366-392 | the two default agents' keys are trimmed and differ |
| Vault.DefaultAgentKeys | src/main/core/vault-core.ts:369 | the default agents are stored under the keys `codex-dev` and `agent-pm` |
| Vault.SeedingNewProject | src/main/core/vault-core.ts:366-392 | seeding a project without agents appends the two default agents in order |
| Vault.PickSourceAgent | src/main/core/vault-core.ts:677-683 | a remote failure propagates; otherwise the source agent is found exactly when some agent matches by `id` or `agentId`, or it is "Source agent not found" |
| Vault.PickSourceTicket | src/main/core/vault-core.ts:705-709 | a remote failure propagates; otherwise the source ticket is found exactly when some ticket has the id, or it is "Source ticket not found" |
| Vault.NewTicketKeepsSchema | src/main/core/vault-core.ts:488-530 | a created ticket keeps the schema's constraints |
| Vault.NewTicketMissingProject | src/main/core/vault-core.ts:490-493 | "Project not found" exactly when the project is not stored |
| Vault.NewTicketCreated | src/main/core/vault-core.ts:495-512 | a new ticket belongs to the project, is numbered one past the project's highest under its slug, takes no stored id, and becomes the highest |
| Vault.NewTicketClash | src/main/core/vault-core.ts:499-510 | a duplicate id arises only when another project's name gives the same slug |
| Vault.ImportAgentTwice | src/main/core/vault-core.ts:685-696 | importing one remote agent twice leaves one row, which keeps the first import's id |
| Vault.VaultCore.constructor | src/main/core/vault-core.ts:165-167 | a closed store over empty tables and no memory logs |
| Vault.VaultCore.Init | src/main/core/vault-core.ts:169-240 | the store is open |
| Vault.VaultCore.Close | src/main/core/vault-core.ts:242-245 | the store is closed and the data is kept |
| Vault.VaultCore.CreateProject | src/main/core/vault-core.ts:332-364 | appends the trimmed project and seeds its two default agents; fails when closed |
| Vault.VaultCore.SeedDefaultAgents | src/main/core/vault-core.ts:366-392 | upserts `codex-dev` and then `agent-pm`; a closed store or an unknown project fails with the table unchanged |
| Vault.VaultCore.ListProjects | src/main/core/vault-core.ts:394-402 | the `ListProjectsOf` listing, or "not initialized" |
| Vault.VaultCore.GetProjectById | src/main/core/vault-core.ts:404-408 | the project with the id, none exactly when there is no such project |
| Vault.VaultCore.SetProjectArchiveState | src/main/core/vault-core.ts:410-421 | sets only that project's flag and `updatedAt`, and returns the whole updated row as stored (the old row with those two columns changed); or fails with "Project not found" and changes nothing |
| Vault.VaultCore.CreateTicket | src/main/core/vault-core.ts:488-530 | appends the `NewTicket` row and returns it read back, or fails with its error and changes nothing |
| Vault.VaultCore.ListTickets | src/main/core/vault-core.ts:532-538 | the `ListTicketsOf` listing |
| Vault.VaultCore.UpdateTicketStatus | src/main/core/vault-core.ts:540-549 | sets only that ticket's status and `updatedAt`, and returns the whole updated row as stored and mapped (the old row with those two columns changed); or fails with "Ticket not found" and changes nothing |
| Vault.VaultCore.UpsertAgent | src/main/core/vault-core.ts:551-608 | the `UpsertRows` table, with the key then present; returns the keyed row; an insert for an unknown project fails |
| Vault.VaultCore.ListAgents | src/main/core/vault-core.ts:610-621 | the `ListAgentsOf` listing |
| Vault.VaultCore.SendChatMessage | src/main/core/vault-core.ts:734-759 | appends the message with trimmed content to a stored project, or fails with "Project not found" |
| Vault.VaultCore.ListChatMessages | src/main/core/vault-core.ts:761-789 | the `ListMessagesOf` listing |
| Vault.VaultCore.AppendMemory | src/main/core/vault-core.ts:791-819 | adds one entry line at the end of the project's log only; fails with "Project not found" |
| Vault.VaultCore.ListMemory | src/main/core/vault-core.ts:821-842 | the `ListMemoryOf` tail of the project's log; no open database is needed |
| Vault.VaultCore.GenerateHandoff | src/main/core/vault-core.ts:844-881 | the handoff of the ticket with the last three memory entries, or "Ticket not found" / "Project not found" |
| Vault.VaultCore.ExportTicketMarkdown | src/main/core/vault-core.ts:883-923 | the ticket's Markdown document; "Ticket not found" for an unknown ticket, "Project not found" for a stored ticket whose project is missing |
| Vault.VaultCore.ImportAgentFromVault0 | src/main/core/vault-core.ts:671-697 | checks the target before any request, fetches once, upserts the matching remote agent into the target, and returns the stored row under the key (target project, trimmed source `agentId`) |
| Vault.VaultCore.ImportTicketFromVault0 | src/main/core/vault-core.ts:699-732 | checks the target before any request, fetches once; with the source found, the result is exactly `createTicket`'s on the imported input (the appended row, or its `ProjectNotFound`/`DuplicateTicketId` error), and an imported ticket carries the merged labels and the prefixed spec |

## Left out

- The filesystem and SQLite themselves are not modelled:
  - the `mkdir` calls, the WAL pragma and the database handle (only its open/closed state);
  - the schema's `CREATE TABLE` text;
  - the file write of `exportTicketMarkdown` and the path it returns. `Vault.VaultCore.ExportTicketMarkdown` returns the document instead.
- `importProjectFromPath` and `importProjectFromGit` are not modelled. They read the filesystem and run `git`.
- `randomUUID` and `toIsoNow` are parameters.
  - Timestamps are naturals.
  - Where the source prints an ISO string (a memory entry's `date`, the export's `updatedAt`), the model prints the natural's decimal digits.
  - `seedDefaultAgents` reads the clock once per upsert; the model passes one `now` to both upserts.
- `encodeURIComponent` in the remote routes is taken as the identity.
- Slug.SlugShape: `toUpperCase` is modelled for ASCII letters only. JavaScript's full Unicode upper-casing can change a name's letters ("straße" becomes "STRASSE", `ſ` becomes `S`, `ı` becomes `I`, `ﬁ` becomes `FI`); the model leaves those characters alone, so they become hyphens ("straße" gives "STRA-E").
- JSON is abstract. A column holds the empty text, the encoding of a value, or text that does not parse. A memory-log line is blank, unparsable, `null`, or an entry.
  - A line holding another non-null JSON value (such as `42`) is kept by the source as an "entry"; the model cannot represent such a line.
  - `split(/\r?\n/)` is not modelled: a log is already a sequence of lines.
  - Any read error other than a missing file also reads as `[]` in the source; the model has only the missing file.
  - `listMemory`'s default limit of 50 is not modelled; callers give the limit.
- Rows with equal `ORDER BY` keys are ordered in SQLite's unspecified way. `Ordering.SortBy` keeps them in table order, which is one of the orders SQLite may produce.
- `mapProject` is the identity on the model's rows. The model's `Project` has no `NULL` columns to default.
- `Bridge.SnapshotsOf`: when several requests of a `Promise.all` fail, the source rejects with whichever settles first. The model reports the first in program order.
- `Vault.VaultCore.ImportAgentFromVault0` and `Vault.VaultCore.ImportTicketFromVault0` list the URL they request. The store's `fetch` of VAULT_0 has no timeout or retry, and neither does the model.
- `ApiClient.Vault0ApiClient.RequestJson` leaves out several details:
  - the `setTimeout` waits and the abort timer (it returns the delays it would wait);
  - the `fetch` init and headers, and the injectable `fetchImpl`;
  - a thrown object whose `retryable` property is present but `undefined`. `Boolean(undefined)` makes it non-retryable in the source, and `Option<bool>` cannot express it.
- `Remote.NormalizeBaseUrl` is not idempotent when white space sits before a trailing slash, as in the source; no property relies on idempotence.
- `ApiClient.ClassifyMeaning` holds without a proof body. It restates the retry rules, and `RequestJson` uses them.
- The default agents' profiles are constants fixed by the constructor, not literals inside `seedDefaultAgents`.
- `Vault.VaultCore.CreateProject` and `Vault.VaultCore.SeedDefaultAgents` require both fresh agent ids to be unused and distinct. This is the contract of `randomUUID`.
