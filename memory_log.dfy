/**
 * A project's memory log (`projects/<id>/memory/sessions.jsonl`): one JSON
 * object per line, appended by `appendMemory` and read back by `listMemory`
 * (src/main/core/vault-core.ts). The file is a sequence of lines; what a
 * line holds is abstract: nothing but white space, text `JSON.parse`
 * rejects, the literal `null`, or the encoding of an entry.
 */
module MemoryLog {
  import opened Wrappers
  import opened Contracts

  datatype LogLine = Blank | Garbage | NullLiteral | Entry(entry: MemoryEntry)

  /** `.map(trim).filter(Boolean)`, `JSON.parse` with failures as `null`, `.filter(entry !== null)`. */
  function KeptEntries(lines: seq<LogLine>): (r: seq<MemoryEntry>)
    ensures |r| <= |lines|
  {
    if lines == [] then []
    else
      var rest := KeptEntries(lines[..|lines| - 1]);
      assert lines == lines[..|lines| - 1] + [lines[|lines| - 1]];
      match lines[|lines| - 1]
      case Entry(e) => rest + [e]
      case _ => rest
  }

  /** Exactly the entries some line holds are read back. */
  lemma {:induction false} KeptEntriesMembers(lines: seq<LogLine>)
    ensures forall e :: e in KeptEntries(lines) <==> Entry(e) in lines
  {
    if lines != [] {
      var init := lines[..|lines| - 1];
      KeptEntriesMembers(init);
      assert lines == init + [lines[|lines| - 1]];
    }
  }

  /** Appending an entry's line adds exactly that entry at the end of what is read back. */
  lemma KeptEntriesAppend(lines: seq<LogLine>, e: MemoryEntry)
    ensures KeptEntries(lines + [Entry(e)]) == KeptEntries(lines) + [e]
  {
    assert (lines + [Entry(e)])[..|lines|] == lines;
  }

  /** Lines that hold no entry are skipped without trace. */
  lemma KeptEntriesSkip(lines: seq<LogLine>, line: LogLine)
    requires !line.Entry?
    ensures KeptEntries(lines + [line]) == KeptEntries(lines)
  {
    assert (lines + [line])[..|lines|] == lines;
  }

  /**
   * `xs.slice(-limit)`. For `limit > 0` the last `limit` elements (all of
   * them if there are fewer); `-0` is `0`, so a zero limit keeps everything;
   * a negative limit drops the first `-limit` elements.
   */
  function TailSlice<T>(xs: seq<T>, limit: int): (r: seq<T>)
    ensures |r| <= |xs| && r == xs[|xs| - |r|..]
    ensures limit >= 1 ==> |r| == if limit < |xs| then limit else |xs|
    ensures limit == 0 ==> r == xs
    ensures limit < 0 ==> |r| == if -limit < |xs| then |xs| + limit else 0
  {
    var n := |xs|;
    if limit > 0 then xs[if n - limit > 0 then n - limit else 0..]
    else xs[if -limit < n then -limit else n..]
  }

  /** `listMemory(projectId, limit)`: a missing file reads as no entries; otherwise the tail of the kept entries. */
  function ListMemoryOf(log: Option<seq<LogLine>>, limit: int): (r: seq<MemoryEntry>)
    ensures log.None? ==> r == []
    ensures log.Some? ==> |r| <= |KeptEntries(log.value)| && r == KeptEntries(log.value)[|KeptEntries(log.value)| - |r|..]
    ensures log.Some? && limit >= 1 ==> |r| == if limit < |KeptEntries(log.value)| then limit else |KeptEntries(log.value)|
  {
    if log.None? then [] else TailSlice(KeptEntries(log.value), limit)
  }

  /** The entry just appended is the last one read back, for any positive limit. */
  lemma LastAppendedIsNewest(lines: seq<LogLine>, e: MemoryEntry, limit: int)
    requires limit >= 1
    ensures var r := ListMemoryOf(Some(lines + [Entry(e)]), limit); r != [] && r[|r| - 1] == e
  {
    KeptEntriesAppend(lines, e);
  }

  /**
   * The repository's own example: after four appended entries, a limit of 3
   * reads back the last three in file order.
   */
  lemma LastThreeOfFour(e1: MemoryEntry, e2: MemoryEntry, e3: MemoryEntry, e4: MemoryEntry)
    ensures ListMemoryOf(Some([Entry(e1), Entry(e2), Entry(e3), Entry(e4)]), 3) == [e2, e3, e4]
  {
    KeptOfFour(e1, e2, e3, e4);
    var kept := [e1, e2, e3, e4];
    assert TailSlice(kept, 3) == kept[1..] == [e2, e3, e4];
  }

  lemma KeptOfFour(e1: MemoryEntry, e2: MemoryEntry, e3: MemoryEntry, e4: MemoryEntry)
    ensures KeptEntries([Entry(e1), Entry(e2), Entry(e3), Entry(e4)]) == [e1, e2, e3, e4]
  {
    var l0: seq<LogLine> := [];
    var l1 := l0 + [Entry(e1)];
    var l2 := l1 + [Entry(e2)];
    var l3 := l2 + [Entry(e3)];
    KeptEntriesAppend(l0, e1);
    KeptEntriesAppend(l1, e2);
    KeptEntriesAppend(l2, e3);
    KeptEntriesAppend(l3, e4);
    assert l3 + [Entry(e4)] == [Entry(e1), Entry(e2), Entry(e3), Entry(e4)];
  }
}
