/**
 * The project-name slug that prefixes ticket ids (`normalizeProjectSlug` in
 * src/main/core/vault-core.ts): trim, upper-case, replace every run of
 * characters outside `[A-Z0-9]` by one hyphen, strip leading and trailing
 * hyphens, collapse hyphen runs, and fall back to "PROJECT" when nothing is left.
 */
module Slug {
  import opened Text

  /** The characters the slug keeps as they are: `[A-Z0-9]`. */
  predicate IsSlugAlnum(c: char) {
    'A' <= c <= 'Z' || '0' <= c <= '9'
  }

  /** ASCII upper-casing of one character (other characters are left alone). */
  function UpperChar(c: char): (u: char)
    ensures 'a' <= c <= 'z' ==> 'A' <= u <= 'Z'
    ensures !('a' <= c <= 'z') ==> u == c
  {
    if 'a' <= c <= 'z' then (c as int - 32) as char else c
  }

  /** `toUpperCase`, restricted to ASCII letters. */
  function ToUpper(s: string): (r: string)
    ensures |r| == |s|
  {
    if s == [] then [] else [UpperChar(s[0])] + ToUpper(s[1..])
  }

  /** The `[A-Z0-9]` characters of `s`, in order. */
  function AlnumOf(s: string): string
  {
    if s == [] then [] else (if IsSlugAlnum(s[0]) then [s[0]] else []) + AlnumOf(s[1..])
  }

  /** The upper-cased ASCII letters and digits of a project name, in order. */
  function NameLetters(projectName: string): string {
    AlnumOf(ToUpper(projectName))
  }

  predicate OnlySlugChars(s: string) {
    forall i :: 0 <= i < |s| ==> IsSlugAlnum(s[i]) || s[i] == '-'
  }

  predicate NoDoubleHyphen(s: string) {
    forall i :: 0 <= i < |s| - 1 ==> s[i] != '-' || s[i + 1] != '-'
  }

  /** A well-formed slug: non-empty, only `A-Z`, `0-9` and `-`, no hyphen at either end, no `--`. */
  predicate IsSlug(s: string) {
    && s != []
    && OnlySlugChars(s)
    && NoDoubleHyphen(s)
    && s[0] != '-'
    && s[|s| - 1] != '-'
  }

  /** `.replace(/[^A-Z0-9]+/g, "-")`: every maximal run of other characters becomes one hyphen. */
  function ReplaceRuns(s: string): string {
    if s == [] then []
    else if IsSlugAlnum(s[0]) then [s[0]] + ReplaceRuns(s[1..])
    else
      var rest := ReplaceRuns(s[1..]);
      if rest != [] && rest[0] == '-' then rest else ['-'] + rest
  }

  /**
   * The replacement leaves only slug characters without `--`, keeps the
   * letters and digits, and starts with a hyphen exactly when the text does
   * not start with one of them.
   */
  lemma {:induction false} ReplaceRunsShape(s: string)
    ensures var r := ReplaceRuns(s); OnlySlugChars(r) && NoDoubleHyphen(r)
    ensures AlnumOf(ReplaceRuns(s)) == AlnumOf(s)
    ensures var r := ReplaceRuns(s); (r != [] && r[0] == '-') <==> (s != [] && !IsSlugAlnum(s[0]))
  {
    if s != [] {
      var rest := ReplaceRuns(s[1..]);
      ReplaceRunsShape(s[1..]);
      var r := ReplaceRuns(s);
      if IsSlugAlnum(s[0]) {
        assert r == [s[0]] + rest && r[1..] == rest;
      } else if rest == [] || rest[0] != '-' {
        assert r == ['-'] + rest && r[1..] == rest;
      }
    }
  }

  /** The `^-+` half of `.replace(/^-+|-+$/g, "")`. */
  function DropLeadingHyphens(s: string): string {
    if s != [] && s[0] == '-' then DropLeadingHyphens(s[1..]) else s
  }

  /** What is left is a suffix that does not start with a hyphen; only hyphens were dropped. */
  lemma {:induction false} DropLeadingShape(s: string)
    ensures var r := DropLeadingHyphens(s); |r| <= |s| && r == s[|s| - |r|..]
    ensures var r := DropLeadingHyphens(s); r != [] ==> r[0] != '-'
    ensures var r := DropLeadingHyphens(s); forall i :: 0 <= i < |s| - |r| ==> s[i] == '-'
  {
    if s != [] && s[0] == '-' {
      DropLeadingShape(s[1..]);
      var r := DropLeadingHyphens(s);
      assert forall i :: 1 <= i < |s| - |r| ==> s[i] == s[1..][i - 1];
    }
  }

  /** The `-+$` half of `.replace(/^-+|-+$/g, "")`. */
  function DropTrailingHyphens(s: string): string {
    if s != [] && s[|s| - 1] == '-' then DropTrailingHyphens(s[..|s| - 1]) else s
  }

  /** What is left is a prefix that does not end with a hyphen; only hyphens were dropped. */
  lemma {:induction false} DropTrailingShape(s: string)
    ensures var r := DropTrailingHyphens(s); |r| <= |s| && r == s[..|r|]
    ensures var r := DropTrailingHyphens(s); r != [] ==> r[|r| - 1] != '-'
    ensures var r := DropTrailingHyphens(s); forall i :: |r| <= i < |s| ==> s[i] == '-'
  {
    if s != [] && s[|s| - 1] == '-' {
      DropTrailingShape(s[..|s| - 1]);
    }
  }

  /** `.replace(/-+/g, "-")`. */
  function CollapseHyphens(s: string): string {
    if s == [] then []
    else if s[0] != '-' then [s[0]] + CollapseHyphens(s[1..])
    else
      var rest := CollapseHyphens(s[1..]);
      if rest != [] && rest[0] == '-' then rest else ['-'] + rest
  }

  /** A text without `--` comes out of the collapse unchanged. */
  lemma {:induction false} CollapseWithoutRuns(s: string)
    requires NoDoubleHyphen(s)
    ensures CollapseHyphens(s) == s
  {
    if s != [] {
      assert NoDoubleHyphen(s[1..]) by {
        forall i | 0 <= i < |s[1..]| - 1 ensures s[1..][i] != '-' || s[1..][i + 1] != '-' {
          assert s[1..][i] == s[i + 1] && s[1..][i + 1] == s[i + 2];
        }
      }
      CollapseWithoutRuns(s[1..]);
      if s[0] == '-' {
        assert |s| > 1 ==> s[1] != '-';
        assert s == ['-'] + s[1..];
      } else {
        assert s == [s[0]] + s[1..];
      }
    }
  }

  /** `normalizeProjectSlug`. */
  function NormalizeProjectSlug(projectName: string): string {
    var upper := ToUpper(Trim(projectName));
    var replaced := ReplaceRuns(upper);
    var stripped := DropTrailingHyphens(DropLeadingHyphens(replaced));
    var normalized := CollapseHyphens(stripped);
    if normalized == [] then "PROJECT" else normalized
  }

  /**
   * The slug is always well formed; it spells the name's letters and digits
   * (upper-cased, in order), and is "PROJECT" when the name has none (a name
   * such as "project" gives "PROJECT" too).
   */
  lemma SlugShape(projectName: string)
    ensures IsSlug(NormalizeProjectSlug(projectName))
    ensures NameLetters(projectName) == [] ==> NormalizeProjectSlug(projectName) == "PROJECT"
    ensures NameLetters(projectName) != [] ==> AlnumOf(NormalizeProjectSlug(projectName)) == NameLetters(projectName)
  {
    var upper := ToUpper(Trim(projectName));
    var replaced := ReplaceRuns(upper);
    var stripped := DropTrailingHyphens(DropLeadingHyphens(replaced));
    SlugPipeline(projectName, upper, replaced, stripped);
    var slug := "PROJECT";
    assert OnlySlugChars(slug) by {
      forall i | 0 <= i < |slug| ensures IsSlugAlnum(slug[i]) {}
    }
  }

  lemma SlugPipeline(projectName: string, upper: string, replaced: string, stripped: string)
    requires upper == ToUpper(Trim(projectName))
    requires replaced == ReplaceRuns(upper)
    requires stripped == DropTrailingHyphens(DropLeadingHyphens(replaced))
    ensures CollapseHyphens(stripped) == stripped
    ensures stripped != [] ==> IsSlug(stripped)
    ensures AlnumOf(stripped) == NameLetters(projectName)
    ensures stripped == [] <==> NameLetters(projectName) == []
  {
    ReplaceRunsShape(upper);
    StrippedShape(replaced, stripped);
    UpperLettersIgnoreTrim(projectName);
    CollapseWithoutRuns(stripped);
    if stripped == [] {
      assert AlnumOf(stripped) == [];
    } else {
      NonEmptySlugHasLetter(stripped);
    }
  }

  /** Stripping the hyphens at both ends keeps the slug characters, adds no `--` and keeps the letters and digits. */
  lemma StrippedShape(replaced: string, stripped: string)
    requires OnlySlugChars(replaced) && NoDoubleHyphen(replaced)
    requires stripped == DropTrailingHyphens(DropLeadingHyphens(replaced))
    ensures OnlySlugChars(stripped) && NoDoubleHyphen(stripped)
    ensures stripped != [] ==> stripped[0] != '-' && stripped[|stripped| - 1] != '-'
    ensures AlnumOf(stripped) == AlnumOf(replaced)
  {
    var lead := DropLeadingHyphens(replaced);
    DropLeadingShape(replaced);
    DropTrailingShape(lead);
    SubstringKeepsShape(replaced, |replaced| - |lead|, |replaced|);
    SubstringKeepsShape(lead, 0, |stripped|);
    HyphenPrefixLetters(replaced, |replaced| - |lead|);
    HyphenSuffixLetters(lead, |stripped|);
  }

  lemma SubstringKeepsShape(s: string, i: nat, j: nat)
    requires i <= j <= |s|
    requires OnlySlugChars(s) && NoDoubleHyphen(s)
    ensures OnlySlugChars(s[i..j]) && NoDoubleHyphen(s[i..j])
  {
    var t := s[i..j];
    forall k | 0 <= k < |t| - 1
      ensures t[k] != '-' || t[k + 1] != '-'
    {
      assert t[k] == s[i + k] && t[k + 1] == s[i + k + 1];
    }
  }

  lemma {:induction false} AlnumOfConcat(a: string, b: string)
    ensures AlnumOf(a + b) == AlnumOf(a) + AlnumOf(b)
  {
    if a != [] {
      assert (a + b)[0] == a[0];
      assert (a + b)[1..] == a[1..] + b;
      AlnumOfConcat(a[1..], b);
      var h := if IsSlugAlnum(a[0]) then [a[0]] else [];
      calc {
        AlnumOf(a + b);
        h + AlnumOf(a[1..] + b);
        h + (AlnumOf(a[1..]) + AlnumOf(b));
        (h + AlnumOf(a[1..])) + AlnumOf(b);
        AlnumOf(a) + AlnumOf(b);
      }
    } else {
      assert a + b == b;
    }
  }

  lemma {:induction false} AlnumOfHyphens(s: string)
    requires forall i :: 0 <= i < |s| ==> s[i] == '-'
    ensures AlnumOf(s) == []
  {
    if s != [] {
      AlnumOfHyphens(s[1..]);
    }
  }

  lemma HyphenPrefixLetters(s: string, k: nat)
    requires k <= |s|
    requires forall i :: 0 <= i < k ==> s[i] == '-'
    ensures AlnumOf(s[k..]) == AlnumOf(s)
  {
    assert s == s[..k] + s[k..];
    AlnumOfConcat(s[..k], s[k..]);
    AlnumOfHyphens(s[..k]);
  }

  lemma HyphenSuffixLetters(s: string, k: nat)
    requires k <= |s|
    requires forall i :: k <= i < |s| ==> s[i] == '-'
    ensures AlnumOf(s[..k]) == AlnumOf(s)
  {
    assert s == s[..k] + s[k..];
    AlnumOfConcat(s[..k], s[k..]);
    AlnumOfHyphens(s[k..]);
  }

  /** A slug-shaped text that does not start with a hyphen and is not empty has a letter or digit. */
  lemma NonEmptySlugHasLetter(s: string)
    requires s != [] && s[0] != '-' && OnlySlugChars(s)
    ensures AlnumOf(s) != []
  {
    assert IsSlugAlnum(s[0]);
  }

  lemma {:induction false} ToUpperConcat(a: string, b: string)
    ensures ToUpper(a + b) == ToUpper(a) + ToUpper(b)
  {
    if a != [] {
      assert (a + b)[0] == a[0];
      assert (a + b)[1..] == a[1..] + b;
      ToUpperConcat(a[1..], b);
      calc {
        ToUpper(a + b);
        [UpperChar(a[0])] + ToUpper(a[1..] + b);
        [UpperChar(a[0])] + (ToUpper(a[1..]) + ToUpper(b));
        ([UpperChar(a[0])] + ToUpper(a[1..])) + ToUpper(b);
        ToUpper(a) + ToUpper(b);
      }
    } else {
      assert a + b == b;
    }
  }

  lemma {:induction false} WhitespaceHasNoLetters(s: string)
    requires forall i :: 0 <= i < |s| ==> IsWhitespace(s[i])
    ensures NameLetters(s) == []
  {
    if s != [] {
      WhitespaceHasNoLetters(s[1..]);
    }
  }

  /** Letters and digits are those of the two halves of a text, in order. */
  lemma LettersOfConcat(a: string, b: string)
    ensures NameLetters(a + b) == NameLetters(a) + NameLetters(b)
  {
    ToUpperConcat(a, b);
    AlnumOfConcat(ToUpper(a), ToUpper(b));
  }

  /** Dropping leading white space removes no letters or digits. */
  lemma LettersAfterWhitespace(s: string, k: nat)
    requires k <= |s|
    requires forall i :: 0 <= i < k ==> IsWhitespace(s[i])
    ensures NameLetters(s[k..]) == NameLetters(s)
  {
    assert s == s[..k] + s[k..];
    LettersOfConcat(s[..k], s[k..]);
    WhitespaceHasNoLetters(s[..k]);
  }

  /** Dropping trailing white space removes no letters or digits. */
  lemma LettersBeforeWhitespace(s: string, k: nat)
    requires k <= |s|
    requires forall i :: k <= i < |s| ==> IsWhitespace(s[i])
    ensures NameLetters(s[..k]) == NameLetters(s)
  {
    assert s == s[..k] + s[k..];
    LettersOfConcat(s[..k], s[k..]);
    assert forall i :: 0 <= i < |s[k..]| ==> s[k..][i] == s[k + i];
    WhitespaceHasNoLetters(s[k..]);
  }

  /** Trimming removes no letters or digits. */
  lemma UpperLettersIgnoreTrim(s: string)
    ensures NameLetters(Trim(s)) == NameLetters(s)
  {
    var a := TrimStart(s);
    TrimStartShape(s);
    LettersAfterWhitespace(s, |s| - |a|);
    var r := TrimEnd(a);
    TrimEndShape(a);
    LettersBeforeWhitespace(a, |r|);
  }

  // ---------------------------------------------------------------------------
  // The slug as words: the maximal runs of `[A-Z0-9]` joined by one hyphen.

  /** The longest prefix of `s` made of `[A-Z0-9]` characters. */
  function LeadRun(s: string): (r: string)
    ensures |r| <= |s|
    ensures s != [] && IsSlugAlnum(s[0]) ==> r != []
  {
    if s != [] && IsSlugAlnum(s[0]) then [s[0]] + LeadRun(s[1..]) else []
  }

  /** The run is a prefix of letters and digits that stops at the end of `s` or at a separator. */
  lemma {:induction false} LeadRunShape(s: string)
    ensures var r := LeadRun(s); r == s[..|r|]
    ensures var r := LeadRun(s); forall i :: 0 <= i < |r| ==> IsSlugAlnum(r[i])
    ensures var r := LeadRun(s); |r| < |s| ==> !IsSlugAlnum(s[|r|])
  {
    if s != [] && IsSlugAlnum(s[0]) {
      LeadRunShape(s[1..]);
      var r := LeadRun(s);
      assert r == [s[0]] + LeadRun(s[1..]);
    }
  }

  /** The maximal runs of `[A-Z0-9]` characters in `s`, in order. */
  function Words(s: string): seq<string>
    decreases |s|
  {
    if s == [] then []
    else if !IsSlugAlnum(s[0]) then Words(s[1..])
    else
      var w := LeadRun(s);
      [w] + Words(s[|w|..])
  }

  /** Every word is a non-empty run of letters and digits. */
  lemma {:induction false} WordsShape(s: string)
    decreases |s|
    ensures forall i :: 0 <= i < |Words(s)| ==>
              Words(s)[i] != [] && forall k :: 0 <= k < |Words(s)[i]| ==> IsSlugAlnum(Words(s)[i][k])
  {
    if s != [] {
      if !IsSlugAlnum(s[0]) {
        WordsShape(s[1..]);
      } else {
        var w := LeadRun(s);
        LeadRunShape(s);
        WordsShape(s[|w|..]);
        assert Words(s) == [w] + Words(s[|w|..]);
      }
    }
  }

  /** A text with a letter or digit somewhere has a word. */
  lemma {:induction false} WordsNonEmpty(s: string, i: nat)
    requires i < |s| && IsSlugAlnum(s[i])
    ensures Words(s) != []
  {
    if !IsSlugAlnum(s[0]) {
      WordsNonEmpty(s[1..], i - 1);
    }
  }

  lemma JoinFirst(parts: seq<string>, sep: string)
    requires |parts| >= 1 && parts[0] != []
    ensures Join(parts, sep) != [] && Join(parts, sep)[0] == parts[0][0]
  {
  }

  lemma JoinLast(parts: seq<string>, sep: string)
    requires |parts| >= 1 && parts[|parts| - 1] != []
    ensures var j := Join(parts, sep); var w := parts[|parts| - 1]; j != [] && j[|j| - 1] == w[|w| - 1]
  {
    JoinEndsWith(parts, sep);
  }

  lemma JoinExtendFirst(c: char, parts: seq<string>, sep: string)
    requires |parts| >= 1
    ensures Join([[c] + parts[0]] + parts[1..], sep) == [c] + Join(parts, sep)
  {
    var q := [[c] + parts[0]] + parts[1..];
    assert q[1..] == parts[1..];
  }

  /** A hyphen for an end of `s` that is not a letter or digit (the trailing one only when `s` has a word). */
  function LeadHyphen(s: string): string {
    if s != [] && !IsSlugAlnum(s[0]) then "-" else ""
  }

  function TrailHyphen(s: string): string {
    if s != [] && Words(s) != [] && !IsSlugAlnum(s[|s| - 1]) then "-" else ""
  }

  /** The words of `s` joined by one hyphen, with a hyphen for each end that is not a letter or digit. */
  function HyphenatedWords(s: string): string {
    LeadHyphen(s) + Join(Words(s), "-") + TrailHyphen(s)
  }

  /** `.replace(/[^A-Z0-9]+/g, "-")` is the text's words joined by one hyphen, plus a hyphen for each non-alphanumeric end. */
  lemma {:induction false} ReplaceRunsWords(s: string)
    decreases |s|
    ensures ReplaceRuns(s) == HyphenatedWords(s)
  {
    if s != [] {
      ReplaceRunsWords(s[1..]);
      if !IsSlugAlnum(s[0]) {
        ReplaceRunsSeparator(s);
      } else {
        assert ReplaceRuns(s) == [s[0]] + ReplaceRuns(s[1..]);
        HyphenatedWordsCons(s);
      }
    }
  }

  /** A separator in front adds nothing to the words, and at most one hyphen. */
  lemma ReplaceRunsSeparator(s: string)
    requires s != [] && !IsSlugAlnum(s[0])
    requires ReplaceRuns(s[1..]) == HyphenatedWords(s[1..])
    ensures ReplaceRuns(s) == HyphenatedWords(s)
  {
    var rest := ReplaceRuns(s[1..]);
    assert ReplaceRuns(s) == if rest != [] && rest[0] == '-' then rest else ['-'] + rest;
    HyphenatedWordsSeparator(s);
  }

  lemma HyphenatedWordsSeparator(s: string)
    requires s != [] && !IsSlugAlnum(s[0])
    ensures var h := HyphenatedWords(s[1..]);
            HyphenatedWords(s) == if h != [] && h[0] == '-' then h else ['-'] + h
  {
    var t := s[1..];
    if t == [] {
      assert Words(s) == [];
    } else {
      var jt := Join(Words(t), "-");
      var tt := TrailHyphen(t);
      SeparatorKeepsWords(s);
      if IsSlugAlnum(t[0]) {
        assert HyphenatedWords(t) == jt + tt by {
          assert LeadHyphen(t) == "";
        }
        assert HyphenatedWords(t)[0] != '-' by {
          HyphenatedWordsCons(t);
        }
        assert ("-" + jt) + tt == "-" + (jt + tt);
      } else {
        assert HyphenatedWords(t) == ("-" + jt) + tt by {
          assert LeadHyphen(t) == "-";
        }
      }
    }
  }

  lemma SeparatorKeepsWords(s: string)
    requires |s| >= 2 && !IsSlugAlnum(s[0])
    ensures HyphenatedWords(s) == "-" + Join(Words(s[1..]), "-") + TrailHyphen(s[1..])
  {
    var t := s[1..];
    assert Words(s) == Words(t);
    assert t[|t| - 1] == s[|s| - 1];
  }

  /** A letter or digit in front adds itself in front, whether it ends a word or not. */
  lemma HyphenatedWordsCons(s: string)
    requires s != [] && IsSlugAlnum(s[0])
    ensures HyphenatedWords(s) == [s[0]] + HyphenatedWords(s[1..])
  {
    if |s| >= 2 && IsSlugAlnum(s[1]) {
      HyphenatedWordGoesOn(s);
    } else {
      HyphenatedWordEnd(s);
    }
  }

  /** A letter or digit followed by a separator or nothing ends a word of its own. */
  lemma HyphenatedWordEnd(s: string)
    requires s != [] && IsSlugAlnum(s[0]) && (|s| == 1 || !IsSlugAlnum(s[1]))
    ensures HyphenatedWords(s) == [s[0]] + HyphenatedWords(s[1..])
  {
    WordsOfWordEnd(s);
    if |s| == 1 {
      assert Words(s) == [[s[0]]];
    } else if Words(s[1..]) == [] {
      HyphenatedWordEndAlone(s);
    } else {
      HyphenatedWordEndBeforeMore(s);
    }
  }

  lemma HyphenatedWordEndAlone(s: string)
    requires |s| >= 2 && IsSlugAlnum(s[0]) && !IsSlugAlnum(s[1]) && Words(s[1..]) == []
    requires Words(s) == [[s[0]]] + Words(s[1..])
    ensures HyphenatedWords(s) == [s[0]] + HyphenatedWords(s[1..])
  {
    var t := s[1..];
    assert t[|t| - 1] == s[|s| - 1];
    assert !IsSlugAlnum(t[|t| - 1]) by {
      if IsSlugAlnum(t[|t| - 1]) {
        WordsNonEmpty(t, |t| - 1);
      }
    }
    assert HyphenatedWords(t) == "-";
    assert Words(s) == [[s[0]]];
  }

  lemma HyphenatedWordEndBeforeMore(s: string)
    requires |s| >= 2 && IsSlugAlnum(s[0]) && !IsSlugAlnum(s[1]) && Words(s[1..]) != []
    requires Words(s) == [[s[0]]] + Words(s[1..])
    ensures HyphenatedWords(s) == [s[0]] + HyphenatedWords(s[1..])
  {
    var c := s[0];
    var t := s[1..];
    var jt := Join(Words(t), "-");
    var tt := TrailHyphen(t);
    assert Join(Words(s), "-") == ([c] + "-") + jt by {
      var ws := Words(s);
      assert |ws| >= 2 && ws[0] == [c] && ws[1..] == Words(t);
    }
    assert TrailHyphen(s) == tt by {
      assert t[|t| - 1] == s[|s| - 1];
    }
    assert HyphenatedWords(s) == (([c] + "-") + jt) + tt by {
      assert LeadHyphen(s) == "";
    }
    assert HyphenatedWords(t) == ("-" + jt) + tt;
    Concat4([c], "-", jt, tt);
  }

  /** Regrouping four pieces of text. */
  lemma Concat4(a: string, b: string, c: string, d: string)
    ensures ((a + b) + c) + d == a + ((b + c) + d)
  {
  }

  lemma WordsOfWordEnd(s: string)
    requires s != [] && IsSlugAlnum(s[0]) && (|s| == 1 || !IsSlugAlnum(s[1]))
    ensures Words(s) == [[s[0]]] + Words(s[1..])
  {
    assert LeadRun(s) == [s[0]];
    assert s[|LeadRun(s)|..] == s[1..];
  }

  /** A letter or digit followed by another one starts the first word of the rest. */
  lemma HyphenatedWordGoesOn(s: string)
    requires |s| >= 2 && IsSlugAlnum(s[0]) && IsSlugAlnum(s[1])
    ensures HyphenatedWords(s) == [s[0]] + HyphenatedWords(s[1..])
  {
    var c := s[0];
    var t := s[1..];
    WordsOfWordGoesOn(s);
    JoinExtendFirst(c, Words(t), "-");
    assert t[|t| - 1] == s[|s| - 1];
  }

  lemma WordsOfWordGoesOn(s: string)
    requires |s| >= 2 && IsSlugAlnum(s[0]) && IsSlugAlnum(s[1])
    ensures Words(s[1..]) != []
    ensures Words(s) == [[s[0]] + Words(s[1..])[0]] + Words(s[1..])[1..]
  {
    var t := s[1..];
    var w := LeadRun(t);
    assert LeadRun(s) == [s[0]] + w;
    assert s[|LeadRun(s)|..] == t[|w|..];
    assert Words(t) == [w] + Words(t[|w|..]);
  }

  /** Dropping the end hyphens of `lead + j + trail` leaves `j` when `j` has no hyphen at either end. */
  lemma DropEdgeHyphens(lead: string, j: string, trail: string)
    requires lead == "" || lead == "-"
    requires trail == "" || (trail == "-" && j != [])
    requires j != [] ==> j[0] != '-' && j[|j| - 1] != '-'
    ensures DropTrailingHyphens(DropLeadingHyphens(lead + j + trail)) == j
  {
    var rest := j + trail;
    assert DropLeadingHyphens(rest) == rest by {
      if j != [] {
        assert rest[0] == j[0];
      } else {
        assert rest == [];
      }
    }
    if lead == "-" {
      assert (lead + j + trail)[1..] == rest;
    } else {
      assert lead + j + trail == rest;
    }
    if trail == "-" {
      assert rest[..|rest| - 1] == j;
    }
  }

  /**
   * The slug spells the upper-cased name's words joined by one hyphen each,
   * and is "PROJECT" when the name has no letter or digit.
   */
  lemma SlugWords(projectName: string)
    ensures var words := Words(ToUpper(Trim(projectName)));
            NormalizeProjectSlug(projectName) == if words == [] then "PROJECT" else Join(words, "-")
  {
    var upper := ToUpper(Trim(projectName));
    var replaced := ReplaceRuns(upper);
    var stripped := DropTrailingHyphens(DropLeadingHyphens(replaced));
    var words := Words(upper);
    var j := Join(words, "-");
    assert j == [] <==> words == [] by {
      WordsShape(upper);
      if words != [] {
        JoinFirst(words, "-");
        JoinLast(words, "-");
      }
    }
    assert stripped == j by {
      ReplaceRunsWords(upper);
      WordsShape(upper);
      if words != [] {
        JoinFirst(words, "-");
        JoinLast(words, "-");
      }
      DropEdgeHyphens(LeadHyphen(upper), j, TrailHyphen(upper));
    }
    SlugPipeline(projectName, upper, replaced, stripped);
  }

  /** The repository's own example: project "VAULT_1" numbers its tickets "VAULT-1-...". */
  lemma SlugOfVault1()
    ensures NormalizeProjectSlug("VAULT_1") == "VAULT-1"
  {
    Vault1Upper();
    Vault1Replaced();
    Vault1Stripped();
  }

  lemma Vault1Upper()
    ensures ToUpper(Trim("VAULT_1")) == "VAULT_1"
  {
    TrimOfTrimmed("VAULT_1");
    assert ToUpper("VAULT_1") == "VAULT_1";
  }

  lemma Vault1Replaced()
    ensures ReplaceRuns("VAULT_1") == "VAULT-1"
  {
    assert ReplaceRuns("1") == "1";
    assert ReplaceRuns("_1") == "-1";
  }

  lemma Vault1Stripped()
    ensures DropTrailingHyphens(DropLeadingHyphens("VAULT-1")) == "VAULT-1"
    ensures CollapseHyphens("VAULT-1") == "VAULT-1"
  {
    assert DropLeadingHyphens("VAULT-1") == "VAULT-1";
    assert DropTrailingHyphens("VAULT-1") == "VAULT-1";
  }
}
