/** Text operations the services and the portal rely on, restricted to ASCII:
    SQL `LOWER`, Java `toUpperCase`, `LIKE '%k%'`, and JavaScript's `trim`,
    `split(',')`, `join(', ')` and integer-to-string conversion. */
module Ascii {
  import opened Wrappers

  function Lower(c: char): char {
    if 'A' <= c <= 'Z' then (c as int + 32) as char else c
  }

  function Upper(c: char): char {
    if 'a' <= c <= 'z' then (c as int - 32) as char else c
  }

  function LowerString(s: string): (r: string)
    ensures |r| == |s|
    ensures forall i :: 0 <= i < |s| ==> r[i] == Lower(s[i])
  {
    seq(|s|, i requires 0 <= i < |s| => Lower(s[i]))
  }

  function UpperString(s: string): (r: string)
    ensures |r| == |s|
    ensures forall i :: 0 <= i < |s| ==> r[i] == Upper(s[i])
  {
    seq(|s|, i requires 0 <= i < |s| => Upper(s[i]))
  }

  /** No lower-case letter: the shape of a Java enum constant's name. */
  predicate NoLowerCase(s: string) {
    forall i :: 0 <= i < |s| ==> !('a' <= s[i] <= 'z')
  }

  /** `toUpperCase` leaves such a name alone, and undoes lower-casing it. */
  lemma UpperOfName(s: string)
    requires NoLowerCase(s)
    ensures UpperString(s) == s && UpperString(LowerString(s)) == s
  {
  }

  /** `k` occurs in `s` starting at position `i`. */
  predicate OccursAt(k: string, s: string, i: int) {
    0 <= i && i + |k| <= |s| && s[i..i + |k|] == k
  }

  /** `k` occurs in `s` at some position. */
  predicate IsSubstring(k: string, s: string) {
    exists i :: 0 <= i <= |s| && OccursAt(k, s, i)
  }

  /** `LOWER(column) LIKE LOWER(CONCAT('%', k, '%'))` on a nullable column:
      a null column never matches. */
  predicate ContainsIgnoringCase(column: Option<string>, k: string) {
    column.Some? && IsSubstring(LowerString(k), LowerString(column.value))
  }

  lemma EmptyKeywordMatches(column: string)
    ensures ContainsIgnoringCase(Some(column), "")
  {
    assert OccursAt(LowerString(""), LowerString(column), 0);
  }

  // ---------------------------------------------------------------- trim

  /** The ASCII characters JavaScript's `trim` removes. */
  predicate IsSpace(c: char) {
    c == ' ' || c == '\t' || c == '\n' || c == '\r' || c == '\U{0B}' || c == '\U{0C}'
  }

  predicate IsTrimmed(s: string) {
    s == [] || (!IsSpace(s[0]) && !IsSpace(s[|s| - 1]))
  }

  function TrimStart(s: string): (r: string)
    ensures |r| <= |s| && r == s[|s| - |r|..]
    ensures r == [] || !IsSpace(r[0])
  {
    if s != [] && IsSpace(s[0]) then TrimStart(s[1..]) else s
  }

  function TrimEnd(s: string): (r: string)
    ensures |r| <= |s| && r == s[..|r|]
    ensures r == [] || !IsSpace(r[|r| - 1])
  {
    if s != [] && IsSpace(s[|s| - 1]) then TrimEnd(s[..|s| - 1]) else s
  }

  /** JavaScript's `String.prototype.trim`. */
  function Trim(s: string): (r: string)
    ensures IsTrimmed(r)
  {
    var t := TrimStart(s);
    var r := TrimEnd(t);
    assert r != [] ==> r[0] == t[0];
    r
  }

  /** Trimming an already trimmed text, with or without one leading blank, gives it back. */
  lemma TrimSpaced(x: string)
    requires IsTrimmed(x)
    ensures Trim(x) == x
    ensures Trim(" " + x) == x
  {
    assert TrimStart(x) == x;
    assert TrimEnd(x) == x;
    assert (" " + x)[1..] == x;
    assert TrimStart(" " + x) == x;
  }

  // ---------------------------------------------------------------- split / join

  /** Number of occurrences of `c` in `s`. */
  function Occurrences(s: string, c: char): nat {
    if s == [] then 0 else (if s[0] == c then 1 else 0) + Occurrences(s[1..], c)
  }

  /** JavaScript's `s.split(sep)` for a one-character separator: every occurrence
      of `sep` ends a piece, empty pieces included. */
  function Split(s: string, sep: char): (r: seq<string>)
    ensures |r| == Occurrences(s, sep) + 1
    ensures forall i :: 0 <= i < |r| ==> sep !in r[i]
  {
    if s == [] then [""]
    else
      var rest := Split(s[1..], sep);
      if s[0] == sep then [""] + rest
      else [[s[0]] + rest[0]] + rest[1..]
  }

  /** JavaScript's `xs.join(sep)`. */
  function Join(xs: seq<string>, sep: string): string {
    if xs == [] then ""
    else if |xs| == 1 then xs[0]
    else xs[0] + sep + Join(xs[1..], sep)
  }

  /** A separator-free prefix sticks to the first piece. */
  lemma {:induction false} SplitPrefix(p: string, s: string, sep: char)
    requires sep !in p
    ensures Split(p + s, sep) == [p + Split(s, sep)[0]] + Split(s, sep)[1..]
  {
    if p == [] {
      var S := Split(s, sep);
      assert p + s == s && p + S[0] == S[0];
      assert S == [S[0]] + S[1..];
    } else {
      var S := Split(s, sep);
      assert (p + s)[0] == p[0] != sep;
      assert (p + s)[1..] == p[1..] + s;
      SplitPrefix(p[1..], s, sep);
      var rest := Split(p[1..] + s, sep);
      assert rest[0] == p[1..] + S[0] && rest[1..] == S[1..];
      assert Split(p + s, sep) == [[p[0]] + rest[0]] + rest[1..];
      assert [p[0]] + (p[1..] + S[0]) == p + S[0];
    }
  }

  /** Splitting `a + sep + b` where `a` holds no separator yields `a` then the pieces of `b`. */
  lemma SplitAfterPiece(a: string, b: string, sep: char)
    requires sep !in a
    ensures Split(a + [sep] + b, sep) == [a] + Split(b, sep)
  {
    assert a + [sep] + b == a + ([sep] + b);
    SplitPrefix(a, [sep] + b, sep);
    assert ([sep] + b)[0] == sep && ([sep] + b)[1..] == b;
    assert Split([sep] + b, sep) == [""] + Split(b, sep);
    assert a + "" == a;
  }

  // ---------------------------------------------------------------- decimal numbers

  function Digit(d: int): char
    requires 0 <= d < 10
  {
    "0123456789"[d]
  }

  /** JavaScript's `n.toString()` for a non-negative integer. */
  function NatToDecimal(n: nat): (r: string)
    ensures 1 <= |r|
    ensures forall i :: 0 <= i < |r| ==> '0' <= r[i] <= '9'
  {
    if n < 10 then [Digit(n)] else NatToDecimal(n / 10) + [Digit(n % 10)]
  }

  /** JavaScript's `n.toString()` for an integer. */
  function IntToDecimal(n: int): string {
    if n < 0 then "-" + NatToDecimal(-n) else NatToDecimal(n)
  }

  /** Different numbers print differently. */
  lemma {:induction false} NatToDecimalInjective(a: nat, b: nat)
    requires NatToDecimal(a) == NatToDecimal(b)
    ensures a == b
  {
    var s := NatToDecimal(a);
    if a < 10 && b < 10 {
      assert "0123456789"[a] == s[0] == "0123456789"[b];
    } else if a >= 10 && b >= 10 {
      var n := |s|;
      assert NatToDecimal(a / 10) == s[..n - 1] == NatToDecimal(b / 10);
      NatToDecimalInjective(a / 10, b / 10);
      assert "0123456789"[a % 10] == s[n - 1] == "0123456789"[b % 10];
    }
  }

  /** A printed integer starts with '-' exactly when it is negative. */
  lemma DecimalSign(n: int)
    ensures IntToDecimal(n)[0] == '-' <==> n < 0
  {
    if n >= 0 {
      assert '0' <= NatToDecimal(n)[0] <= '9';
    }
  }

  lemma IntToDecimalInjective(a: int, b: int)
    requires IntToDecimal(a) == IntToDecimal(b)
    ensures a == b
  {
    DecimalSign(a);
    DecimalSign(b);
    if a < 0 {
      assert b < 0;
      assert NatToDecimal(-a) == IntToDecimal(a)[1..] == NatToDecimal(-b);
      NatToDecimalInjective(-a, -b);
    } else {
      assert b >= 0;
      NatToDecimalInjective(a, b);
    }
  }

}
