/**
 * The pieces of Go's standard library that the query diagnostics lean on,
 * written out: `%d` formatting, `strings.Repeat(" ", n)`,
 * `strings.Split(s, "\n")`, and the identifier pattern
 * `^[a-zA-Z_][a-zA-Z0-9_-]*` as a longest-prefix scanner.
 */
module Text {
  import opened Values

  predicate IsDigit(c: char) {
    '0' <= c <= '9'
  }

  function DigitChar(d: nat): (c: char)
    requires d < 10
    ensures IsDigit(c) && c as int - '0' as int == d
  {
    (d + '0' as int) as char
  }

  /** `%d` of a non-negative integer: decimal digits, no leading zero. */
  function Decimal(n: nat): (s: string)
    ensures |s| > 0
    ensures forall i | 0 <= i < |s| :: IsDigit(s[i])
    ensures s[0] == '0' ==> n == 0
  {
    if n < 10 then [DigitChar(n)] else Decimal(n / 10) + [DigitChar(n % 10)]
  }

  /** The number a string of decimal digits denotes. */
  function DecimalValue(s: string): nat
    requires forall i | 0 <= i < |s| :: IsDigit(s[i])
  {
    if s == [] then 0
    else
      assert IsDigit(s[|s| - 1]);
      10 * DecimalValue(s[..|s| - 1]) + (s[|s| - 1] as int - '0' as int)
  }

  /** Reading back a formatted number gives the number. */
  lemma {:induction false} DecimalRoundTrip(n: nat)
    ensures DecimalValue(Decimal(n)) == n
  {
    if n >= 10 {
      var s := Decimal(n);
      assert s[..|s| - 1] == Decimal(n / 10);
      DecimalRoundTrip(n / 10);
    }
  }

  /** `strings.Repeat(" ", k)`. */
  function Spaces(k: nat): (s: string)
    ensures |s| == k && forall i | 0 <= i < k :: s[i] == ' '
  {
    seq(k, _ => ' ')
  }

  /** `strings.Split(s, "\n")`: the pieces between newlines, at least one. */
  function SplitLines(s: string): (parts: seq<string>)
    ensures |parts| >= 1
    ensures forall i | 0 <= i < |parts| :: '\n' !in parts[i]
    decreases |s|
  {
    if s == [] then [""]
    else
      var rest := SplitLines(s[1..]);
      if s[0] == '\n' then [""] + rest
      else [[s[0]] + rest[0]] + rest[1..]
  }

  /** `strings.Join(parts, "\n")`. */
  function JoinLines(parts: seq<string>): string
    requires |parts| >= 1
  {
    if |parts| == 1 then parts[0] else parts[0] + "\n" + JoinLines(parts[1..])
  }

  /** Splitting loses nothing: joining the pieces gives the string back. */
  lemma {:induction false} JoinSplit(s: string)
    ensures JoinLines(SplitLines(s)) == s
    decreases |s|
  {
    if s != [] {
      var rest := SplitLines(s[1..]);
      JoinSplit(s[1..]);
      if s[0] != '\n' {
        if |rest| > 1 {
          assert JoinLines(rest) == rest[0] + "\n" + JoinLines(rest[1..]);
        }
      }
    }
  }

  /** Joining newline-free pieces and splitting again gives the pieces back. */
  lemma {:induction false} SplitJoin(parts: seq<string>)
    requires |parts| >= 1
    requires forall i | 0 <= i < |parts| :: '\n' !in parts[i]
    ensures SplitLines(JoinLines(parts)) == parts
    decreases |parts|
  {
    if |parts| == 1 {
      SplitNoNewline(parts[0]);
    } else {
      SplitJoin(parts[1..]);
      SplitAfterLine(parts[0], JoinLines(parts[1..]));
    }
  }

  /** A newline-free string is a single piece. */
  lemma {:induction false} SplitNoNewline(s: string)
    requires '\n' !in s
    ensures SplitLines(s) == [s]
    decreases |s|
  {
    if s != [] {
      assert s[0] != '\n';
      SplitNoNewline(s[1..]);
      assert [s[0]] + s[1..] == s;
    }
  }

  /** Splitting a line, a newline and the rest gives the line followed by the pieces of the rest. */
  lemma {:induction false} SplitAfterLine(a: string, b: string)
    requires '\n' !in a
    ensures SplitLines(a + "\n" + b) == [a] + SplitLines(b)
    decreases |a|
  {
    var s := a + "\n" + b;
    if a == [] {
      assert s[1..] == b;
    } else {
      assert s[1..] == a[1..] + "\n" + b;
      assert a[0] != '\n';
      SplitAfterLine(a[1..], b);
      assert [a[0]] + a[1..] == a;
    }
  }

  /** The first piece is the text up to the first newline: a newline-free prefix that ends the string or a line. */
  lemma {:induction false} FirstLine(s: string)
    ensures SplitLines(s)[0] <= s
    ensures |SplitLines(s)[0]| == |s| || s[|SplitLines(s)[0]|] == '\n'
    decreases |s|
  {
    if s != [] && s[0] != '\n' {
      FirstLine(s[1..]);
    }
  }

  predicate IsIdentifierStart(c: char) {
    'a' <= c <= 'z' || 'A' <= c <= 'Z' || c == '_'
  }

  predicate IsIdentifierChar(c: char) {
    IsIdentifierStart(c) || '0' <= c <= '9' || c == '-'
  }

  /** `t` matches `[a-zA-Z_][a-zA-Z0-9_-]*` as a whole. */
  predicate IsIdentifier(t: string) {
    |t| > 0 && IsIdentifierStart(t[0]) && forall i | 1 <= i < |t| :: IsIdentifierChar(t[i])
  }

  /** Length of the longest prefix of identifier characters. */
  function IdentifierRun(s: string): (n: nat)
    ensures n <= |s|
    ensures forall i | 0 <= i < n :: IsIdentifierChar(s[i])
    ensures n == |s| || !IsIdentifierChar(s[n])
    decreases |s|
  {
    if s == [] || !IsIdentifierChar(s[0]) then 0 else 1 + IdentifierRun(s[1..])
  }

  /** The run is determined by where the identifier characters stop: any `n` with that property is the run. */
  lemma {:induction false} IdentifierRunAt(s: string, n: nat)
    requires n <= |s|
    requires forall i | 0 <= i < n :: IsIdentifierChar(s[i])
    requires n == |s| || !IsIdentifierChar(s[n])
    ensures IdentifierRun(s) == n
    decreases n
  {
    if n > 0 {
      IdentifierRunAt(s[1..], n - 1);
    }
  }

  /**
   * The match of `^[a-zA-Z_][a-zA-Z0-9_-]*` at the start of `s`, as
   * `FindStringSubmatch(s)[0]`; None when the regular expression finds nothing.
   */
  function MatchIdentifier(s: string): (m: Option<string>)
    ensures m.Some? ==> IsIdentifier(m.value) && m.value <= s
    ensures m.None? <==> s == [] || !IsIdentifierStart(s[0])
  {
    if s != [] && IsIdentifierStart(s[0]) then Some(s[..1 + IdentifierRun(s[1..])]) else None
  }

  /** The match is the longest identifier prefix: every identifier prefix of `s` fits inside it. */
  lemma LongestIdentifier(s: string, k: nat)
    requires k <= |s| && IsIdentifier(s[..k])
    ensures MatchIdentifier(s).Some? && k <= |MatchIdentifier(s).value|
  {
  }

  /** No match means no prefix of `s` is an identifier. */
  lemma NoIdentifier(s: string, k: nat)
    requires k <= |s| && MatchIdentifier(s).None?
    ensures !IsIdentifier(s[..k])
  {
  }
}
