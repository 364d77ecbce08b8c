/**
 * String helpers the store relies on, with the JavaScript semantics it uses:
 * `String.prototype.trim`, `Array.prototype.join`, `String(n)`, `padStart`,
 * and SQLite's BINARY collation for `ORDER BY` on text columns.
 */
module Text {

  /** The characters `String.prototype.trim` removes: ECMAScript white space and line terminators. */
  predicate IsWhitespace(c: char) {
    || c == ' ' || c == '\t' || c == '\n' || c == '\r' || c == '\U{000B}' || c == '\U{000C}'
    || c == '\U{00A0}' || c == '\U{1680}' || ('\U{2000}' <= c <= '\U{200A}')
    || c == '\U{2028}' || c == '\U{2029}' || c == '\U{202F}' || c == '\U{205F}'
    || c == '\U{3000}' || c == '\U{FEFF}'
  }

  /** `s` neither starts nor ends with white space. */
  predicate IsTrimmed(s: string) {
    s == [] || (!IsWhitespace(s[0]) && !IsWhitespace(s[|s| - 1]))
  }

  /** Drops the leading white space. */
  function TrimStart(s: string): string {
    if s != [] && IsWhitespace(s[0]) then TrimStart(s[1..]) else s
  }

  /** What `TrimStart` leaves is a suffix of `s` that does not start with white space, and only white space was dropped. */
  lemma {:induction false} TrimStartShape(s: string)
    ensures var r := TrimStart(s); |r| <= |s| && r == s[|s| - |r|..]
    ensures var r := TrimStart(s); r != [] ==> !IsWhitespace(r[0])
    ensures var r := TrimStart(s); forall i :: 0 <= i < |s| - |r| ==> IsWhitespace(s[i])
  {
    if s != [] && IsWhitespace(s[0]) {
      TrimStartShape(s[1..]);
      var r := TrimStart(s);
      assert forall i :: 1 <= i < |s| - |r| ==> s[i] == s[1..][i - 1];
    }
  }

  /** Drops the trailing white space. */
  function TrimEnd(s: string): string {
    if s != [] && IsWhitespace(s[|s| - 1]) then TrimEnd(s[..|s| - 1]) else s
  }

  /** What `TrimEnd` leaves is a prefix of `s` that does not end with white space, and only white space was dropped. */
  lemma {:induction false} TrimEndShape(s: string)
    ensures var r := TrimEnd(s); |r| <= |s| && r == s[..|r|]
    ensures var r := TrimEnd(s); r != [] ==> !IsWhitespace(r[|r| - 1])
    ensures var r := TrimEnd(s); forall i :: |r| <= i < |s| ==> IsWhitespace(s[i])
  {
    if s != [] && IsWhitespace(s[|s| - 1]) {
      TrimEndShape(s[..|s| - 1]);
    }
  }

  /** `String.prototype.trim`: the infix of `s` between its leading and trailing white space. */
  function Trim(s: string): (r: string)
    ensures IsTrimmed(r)
    ensures IsInfix(r, s)
  {
    var a := TrimStart(s);
    var r := TrimEnd(a);
    TrimStartShape(s);
    TrimEndShape(a);
    assert OccursAt(r, s, |s| - |a|);
    r
  }

  /**
   * `Trim` removes only white space at the two ends: the result is the piece
   * of `s` after its leading white space, and all of `s` around that piece
   * is white space.
   */
  lemma TrimShape(s: string)
    ensures var r := Trim(s); var a := |s| - |TrimStart(s)|;
            && 0 <= a && a + |r| <= |s| && r == s[a..a + |r|]
            && (forall i :: 0 <= i < a ==> IsWhitespace(s[i]))
            && (forall i :: a + |r| <= i < |s| ==> IsWhitespace(s[i]))
  {
    var t := TrimStart(s);
    var a := |s| - |t|;
    var r := TrimEnd(t);
    assert Trim(s) == r;
    assert 0 <= a && t == s[a..] && forall i :: 0 <= i < a ==> IsWhitespace(s[i]) by {
      TrimStartShape(s);
    }
    assert r == t[..|r|] && forall i :: |r| <= i < |t| ==> IsWhitespace(t[i]) by {
      TrimEndShape(t);
    }
    assert r == s[a..a + |r|];
    forall i | a + |r| <= i < |s|
      ensures IsWhitespace(s[i])
    {
      assert s[i] == t[i - a];
    }
  }

  /** Trimming a string that has no white space at either end changes nothing. */
  lemma TrimOfTrimmed(s: string)
    requires IsTrimmed(s)
    ensures Trim(s) == s
  {
  }

  /** Trimming twice is trimming once. */
  lemma TrimIdempotent(s: string)
    ensures Trim(Trim(s)) == Trim(s)
  {
    TrimOfTrimmed(Trim(s));
  }

  // ---------------------------------------------------------------------------
  // Decimal numerals: `String(n)` and `padStart(width, "0")`.

  predicate IsDigit(c: char) { '0' <= c <= '9' }

  predicate AllDigits(s: string) { forall i :: 0 <= i < |s| ==> IsDigit(s[i]) }

  function DigitValue(c: char): (d: nat)
    requires IsDigit(c)
    ensures d < 10
  {
    c as int - '0' as int
  }

  function DigitChar(d: nat): (c: char)
    requires d < 10
    ensures IsDigit(c) && DigitValue(c) == d
  {
    (d + '0' as int) as char
  }

  /** `String(n)` for a natural number: its decimal digits, most significant first, no leading zero. */
  function NatToDecimal(n: nat): (r: string)
    ensures 1 <= |r| && AllDigits(r)
    ensures |r| > 1 ==> r[0] != '0'
    ensures n < 10 <==> |r| == 1
  {
    if n < 10 then [DigitChar(n)] else NatToDecimal(n / 10) + [DigitChar(n % 10)]
  }

  /** The number a string of digits denotes (leading zeros allowed). */
  function DecimalValue(s: string): nat
    requires AllDigits(s)
  {
    if s == [] then 0 else 10 * DecimalValue(s[..|s| - 1]) + DigitValue(s[|s| - 1])
  }

  /** Reading back the digits `String(n)` writes gives `n`. */
  lemma {:induction false} DecimalRoundTrip(n: nat)
    ensures DecimalValue(NatToDecimal(n)) == n
  {
    if n >= 10 {
      var r := NatToDecimal(n);
      assert r[..|r| - 1] == NatToDecimal(n / 10);
      DecimalRoundTrip(n / 10);
    }
  }

  /** A leading zero does not change the value of a numeral. */
  lemma {:induction false} LeadingZeroValue(s: string)
    requires AllDigits(s)
    ensures AllDigits(['0'] + s) && DecimalValue(['0'] + s) == DecimalValue(s)
  {
    if s != [] {
      var t := ['0'] + s;
      assert t[..|t| - 1] == ['0'] + s[..|s| - 1];
      LeadingZeroValue(s[..|s| - 1]);
    }
  }

  /** `s.padStart(width, fill)` with a one-character fill: `fill` repeated in front up to `width` characters. */
  function PadStart(s: string, width: nat, fill: char): (r: string)
    ensures |r| == if |s| < width then width else |s|
    ensures r[|r| - |s|..] == s
    ensures forall i :: 0 <= i < |r| - |s| ==> r[i] == fill
  {
    if |s| < width then seq(width - |s|, _ => fill) + s else s
  }

  /** Zero padding keeps a numeral's value. */
  lemma {:induction false} ZeroPaddingValue(s: string, width: nat)
    requires AllDigits(s)
    ensures AllDigits(PadStart(s, width, '0'))
    ensures DecimalValue(PadStart(s, width, '0')) == DecimalValue(s)
    decreases width
  {
    if |s| < width {
      var p := PadStart(s, width, '0');
      assert p == ['0'] + PadStart(s, width - 1, '0');
      ZeroPaddingValue(s, width - 1);
      LeadingZeroValue(PadStart(s, width - 1, '0'));
    }
  }

  // ---------------------------------------------------------------------------
  // Joining.

  /** `parts.join(sep)`. */
  function Join(parts: seq<string>, sep: string): string
  {
    if |parts| == 0 then ""
    else if |parts| == 1 then parts[0]
    else parts[0] + sep + Join(parts[1..], sep)
  }

  /** `t` occurs in `s` as a contiguous piece (`s.includes(t)`). */
  ghost predicate IsInfix(t: string, s: string) {
    exists i :: OccursAt(t, s, i)
  }

  /** `t` occurs in `s` starting at index `i`. */
  predicate OccursAt(t: string, s: string, i: int) {
    0 <= i <= |s| - |t| && s[i..i + |t|] == t
  }

  lemma InfixTransitive(a: string, b: string, c: string)
    requires IsInfix(a, b) && IsInfix(b, c)
    ensures IsInfix(a, c)
  {
    var i :| OccursAt(a, b, i);
    var j :| OccursAt(b, c, j);
    forall m | 0 <= m < |a|
      ensures c[j + i + m] == a[m]
    {
      assert c[j + i + m] == c[j..j + |b|][i + m];
      assert b[i + m] == b[i..i + |a|][m];
    }
    assert c[j + i..j + i + |a|] == a;
    assert OccursAt(a, c, j + i);
  }

  lemma InfixOfConcat(a: string, b: string, c: string)
    ensures IsInfix(b, a + b + c)
  {
    assert (a + b + c)[|a|..|a| + |b|] == b;
    assert OccursAt(b, a + b + c, |a|);
  }

  /** Every part of a join occurs in the joined text. */
  lemma {:induction false} JoinHasPart(parts: seq<string>, sep: string, k: nat)
    requires k < |parts|
    ensures IsInfix(parts[k], Join(parts, sep))
  {
    if |parts| == 1 {
      InfixOfConcat("", parts[0], "");
      assert "" + parts[0] + "" == Join(parts, sep);
    } else if k == 0 {
      InfixOfConcat("", parts[0], sep + Join(parts[1..], sep));
      assert "" + parts[0] + (sep + Join(parts[1..], sep)) == Join(parts, sep);
    } else {
      JoinHasPart(parts[1..], sep, k - 1);
      InfixOfConcat(parts[0] + sep, Join(parts[1..], sep), "");
      assert parts[0] + sep + Join(parts[1..], sep) + "" == Join(parts, sep);
      InfixTransitive(parts[k], Join(parts[1..], sep), Join(parts, sep));
    }
  }

  /** A join splits at any inner boundary into the joins of the two halves. */
  lemma {:induction false} JoinSplit(parts: seq<string>, sep: string, k: nat)
    requires 0 < k < |parts|
    ensures Join(parts, sep) == Join(parts[..k], sep) + sep + Join(parts[k..], sep)
  {
    if k == 1 {
      assert parts[..1] == [parts[0]];
    } else {
      JoinSplit(parts[1..], sep, k - 1);
      assert parts[1..][..k - 1] == parts[1..k];
      assert parts[1..][k - 1..] == parts[k..];
      assert parts[..k][1..] == parts[1..k];
    }
  }

  /** A join of two or more parts starts with the first part followed by the separator. */
  lemma JoinStartsWith(parts: seq<string>, sep: string)
    requires |parts| >= 2
    ensures |parts[0] + sep| <= |Join(parts, sep)|
    ensures Join(parts, sep)[..|parts[0] + sep|] == parts[0] + sep
  {
  }

  /** A non-empty join ends with the last part. */
  lemma {:induction false} JoinEndsWith(parts: seq<string>, sep: string)
    requires |parts| >= 1
    ensures |parts[|parts| - 1]| <= |Join(parts, sep)|
    ensures Join(parts, sep)[|Join(parts, sep)| - |parts[|parts| - 1]|..] == parts[|parts| - 1]
  {
    if |parts| > 1 {
      JoinEndsWith(parts[1..], sep);
      var j := Join(parts, sep);
      var tail := Join(parts[1..], sep);
      assert j == parts[0] + sep + tail;
      assert j[|j| - |tail|..] == tail;
    }
  }

  // ---------------------------------------------------------------------------
  // SQLite BINARY collation: code-point lexicographic order.

  /** `a` sorts before or equal to `b` under SQLite's BINARY collation (code-point order). */
  predicate TextLe(a: string, b: string) {
    a == [] || (b != [] && (a[0] < b[0] || (a[0] == b[0] && TextLe(a[1..], b[1..]))))
  }

  lemma {:induction false} TextLeTotal(a: string, b: string)
    ensures TextLe(a, b) || TextLe(b, a)
  {
    if a != [] && b != [] && a[0] == b[0] {
      TextLeTotal(a[1..], b[1..]);
    }
  }

  lemma {:induction false} TextLeTransitive(a: string, b: string, c: string)
    requires TextLe(a, b) && TextLe(b, c)
    ensures TextLe(a, c)
  {
    if a != [] && b != [] && c != [] && a[0] == b[0] == c[0] {
      TextLeTransitive(a[1..], b[1..], c[1..]);
    }
  }

  lemma {:induction false} TextLeAntisymmetric(a: string, b: string)
    requires TextLe(a, b) && TextLe(b, a)
    ensures a == b
  {
    if a != [] && b != [] {
      TextLeAntisymmetric(a[1..], b[1..]);
    }
  }
}
