/**
 * The lenient codec for the JSON-array text columns (`skills`, `rules`,
 * `dependencies`, `labels`): `stringifyArray` on write and `parseJsonArray` on
 * read (src/main/core/vault-core.ts). JSON itself is abstract: a text column
 * is empty, the encoding of a JSON value, or text that `JSON.parse` rejects.
 * The encoding of a value parses back to that value.
 */
module ArrayCodec {
  import opened Wrappers
  import opened Text

  /** A JSON value, as far as the decoder tells values apart. */
  datatype Json = JString(str: string) | JArray(items: seq<Json>) | JOther

  /** The content of a text column: "", `JSON.stringify` of a value, or text `JSON.parse` throws on. */
  datatype JsonText = EmptyText | Encoded(value: Json) | Malformed

  /** What SQLite hands back for a column: text, or a value of another type. */
  datatype Cell = TextCell(text: JsonText) | OtherCell

  /** The string elements of a JSON array, in order (`filter(typeof entry === "string")`). */
  function StringsOf(items: seq<Json>): (r: seq<string>)
    ensures |r| <= |items|
    ensures forall x :: x in r <==> JString(x) in items
  {
    if items == [] then []
    else
      (match items[0] case JString(s) => [s] case _ => []) + StringsOf(items[1..])
  }

  /**
   * `parseJsonArray`: the string elements of a stored JSON array; anything
   * else (not text, empty text, unparsable text, a JSON value that is not an
   * array) reads as the empty list instead of failing.
   */
  function ParseJsonArray(value: Cell): (r: seq<string>)
    ensures !(value.TextCell? && value.text.Encoded? && value.text.value.JArray?) ==> r == []
    ensures value.TextCell? && value.text.Encoded? && value.text.value.JArray? ==>
              forall x :: x in r <==> JString(x) in value.text.value.items
  {
    match value
    case TextCell(Encoded(JArray(items))) => StringsOf(items)
    case _ => []
  }

  /**
   * `values.map(trim).filter(Boolean)`: the trimmed entries, blank ones
   * dropped, in order. Every kept entry is non-empty and trimmed, and every
   * non-blank input survives as its trimmed form.
   */
  function NormalizeEntries(values: seq<string>): (r: seq<string>)
    ensures |r| <= |values|
    ensures forall i :: 0 <= i < |r| ==> r[i] != [] && IsTrimmed(r[i])
    ensures forall v :: v in values && Trim(v) != [] ==> Trim(v) in r
    ensures forall x :: x in r ==> exists v :: v in values && Trim(v) == x
  {
    if values == [] then []
    else
      var t := Trim(values[0]);
      (if t == [] then [] else [t]) + NormalizeEntries(values[1..])
  }

  function ToJsonStrings(xs: seq<string>): (r: seq<Json>)
    ensures |r| == |xs|
    ensures forall i :: 0 <= i < |xs| ==> r[i] == JString(xs[i])
  {
    seq(|xs|, i requires 0 <= i < |xs| => JString(xs[i]))
  }

  /** `stringifyArray`: an absent or empty list is "[]"; otherwise the normalized entries as a JSON array of strings. */
  function StringifyArray(values: Option<seq<string>>): JsonText
  {
    if values.None? || values.value == [] then Encoded(JArray([]))
    else Encoded(JArray(ToJsonStrings(NormalizeEntries(values.value))))
  }

  lemma {:induction false} StringsOfStrings(xs: seq<string>)
    ensures StringsOf(ToJsonStrings(xs)) == xs
  {
    if xs != [] {
      assert ToJsonStrings(xs)[1..] == ToJsonStrings(xs[1..]);
      StringsOfStrings(xs[1..]);
    }
  }

  /**
   * An array read back element by element: a string at the end adds exactly
   * that string at the end, anything else adds nothing (so order and repeats
   * are kept).
   */
  lemma {:induction false} StringsOfAppend(items: seq<Json>, x: Json)
    ensures StringsOf(items + [x]) == StringsOf(items) + (if x.JString? then [x.str] else [])
  {
    if items != [] {
      assert (items + [x])[1..] == items[1..] + [x];
      StringsOfAppend(items[1..], x);
    } else {
      assert [x][1..] == [];
    }
  }

  /**
   * Normalization entry by entry: a value at the end adds its trimmed form at
   * the end unless that is empty (so order and repeats are kept).
   */
  lemma {:induction false} NormalizeEntriesAppend(values: seq<string>, v: string)
    ensures NormalizeEntries(values + [v]) == NormalizeEntries(values) + (if Trim(v) == [] then [] else [Trim(v)])
  {
    var tail := if Trim(v) == [] then [] else [Trim(v)];
    if values != [] {
      var head := if Trim(values[0]) == [] then [] else [Trim(values[0])];
      assert (values + [v])[0] == values[0];
      assert (values + [v])[1..] == values[1..] + [v];
      calc {
        NormalizeEntries(values + [v]);
        head + NormalizeEntries(values[1..] + [v]);
        { NormalizeEntriesAppend(values[1..], v); }
        head + (NormalizeEntries(values[1..]) + tail);
        (head + NormalizeEntries(values[1..])) + tail;
      }
    } else {
      assert [v][1..] == [];
      assert NormalizeEntries([v]) == tail + NormalizeEntries([]);
    }
  }

  /** What is written is what is read back: the stored list is the normalized input. */
  lemma ArrayRoundTrip(values: Option<seq<string>>)
    ensures ParseJsonArray(TextCell(StringifyArray(values))) == NormalizeEntries(values.GetOr([]))
  {
    if values.Some? && values.value != [] {
      StringsOfStrings(NormalizeEntries(values.value));
    }
  }

  /** Normalizing twice is normalizing once. */
  lemma {:induction false} NormalizeIdempotent(values: seq<string>)
    ensures NormalizeEntries(NormalizeEntries(values)) == NormalizeEntries(values)
  {
    if values != [] {
      var t := Trim(values[0]);
      var rest := NormalizeEntries(values[1..]);
      NormalizeIdempotent(values[1..]);
      if t != [] {
        TrimIdempotent(values[0]);
        assert ([t] + rest)[1..] == rest;
      } else {
        assert [] + rest == rest;
      }
    }
  }

  /** Writing back a list that was read leaves the stored text as it was. */
  lemma ReencodeIsStable(values: Option<seq<string>>)
    ensures StringifyArray(Some(ParseJsonArray(TextCell(StringifyArray(values))))) == StringifyArray(values)
  {
    ArrayRoundTrip(values);
    if values.Some? && values.value != [] {
      NormalizeIdempotent(values.value);
    }
  }
}
