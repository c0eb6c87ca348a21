/** Python `str` operations used by the checkers, over Dafny strings (sequences of
    Unicode scalar values, so `|s|` is Python's `len(s)`). */
module PyStr {

  /** Python's `str.isspace()` on one character; `split()`, `strip()` and the
      regular-expression class `\s` use the same set. */
  predicate IsSpace(c: char) {
    var n := c as int;
    (9 <= n <= 13) || (28 <= n <= 32) || n == 0x85 || n == 0xA0 || n == 0x1680
    || (0x2000 <= n <= 0x200A) || n == 0x2028 || n == 0x2029 || n == 0x202F
    || n == 0x205F || n == 0x3000
  }

  /** The characters at which `str.splitlines()` ends a line. */
  predicate IsLineBreak(c: char) {
    var n := c as int;
    (10 <= n <= 13) || (28 <= n <= 30) || n == 0x85 || n == 0x2028 || n == 0x2029
  }

  /** The class `[a-zA-Z0-9_]`. */
  predicate IsIdentChar(c: char) {
    'a' <= c <= 'z' || 'A' <= c <= 'Z' || '0' <= c <= '9' || c == '_'
  }

  /** The regular-expression class `\w`, restricted to ASCII: Unicode letters and
      digits outside ASCII are not word characters here. */
  predicate IsWordChar(c: char) {
    IsIdentChar(c)
  }

  predicate StartsWith(s: string, p: string) {
    |p| <= |s| && s[..|p|] == p
  }

  predicate EndsWith(s: string, p: string) {
    |p| <= |s| && s[|s| - |p|..] == p
  }

  /** `p` occurs in `s` starting at index `i`. */
  predicate OccursAt(s: string, p: string, i: nat) {
    i + |p| <= |s| && s[i..i + |p|] == p
  }

  /** Python's `k in s` on strings. */
  predicate Contains(s: string, k: string) {
    exists i: nat :: i + |k| <= |s| && OccursAt(s, k, i)
  }

  lemma ContainsInfix(a: string, k: string, b: string)
    ensures Contains(a + k + b, k)
  {
    var s := a + k + b;
    assert s[|a|..|a| + |k|] == k;
    assert OccursAt(s, k, |a|);
  }

  /** No character of `s` is one of `cs`. */
  predicate NoneOf(s: string, cs: string) {
    forall i :: 0 <= i < |s| ==> s[i] !in cs
  }

  lemma NoneOfConcat(a: string, b: string, cs: string)
    requires NoneOf(a, cs) && NoneOf(b, cs)
    ensures NoneOf(a + b, cs)
  {
    forall i | 0 <= i < |a + b| ensures (a + b)[i] !in cs {
      if i < |a| {
        assert (a + b)[i] == a[i];
      } else {
        assert (a + b)[i] == b[i - |a|];
      }
    }
  }

  lemma NoneOfFewer(s: string, cs: string, ds: string)
    requires NoneOf(s, cs) && forall i :: 0 <= i < |ds| ==> ds[i] in cs
    ensures NoneOf(s, ds)
  {
  }

  /** A key holding a character the text lacks does not occur in it. */
  lemma MissingKey(s: string, k: string, j: nat, cs: string)
    requires j < |k| && k[j] in cs && NoneOf(s, cs)
    ensures !Contains(s, k)
  {
    forall i: nat | i + |k| <= |s| ensures !OccursAt(s, k, i) {
      assert s[i..i + |k|][j] == s[i + j];
    }
  }

  /** No space in `s` is followed by one of `ds`. */
  predicate SpaceSafe(s: string, ds: string) {
    forall p :: 0 <= p < |s| - 1 && s[p] == ' ' ==> s[p + 1] !in ds
  }

  lemma SpaceSafeConcat(a: string, b: string, ds: string)
    requires SpaceSafe(a, ds) && SpaceSafe(b, ds)
    requires a != [] && b != [] && a[|a| - 1] == ' ' ==> b[0] !in ds
    ensures SpaceSafe(a + b, ds)
  {
    var s := a + b;
    forall p | 0 <= p < |s| - 1 && s[p] == ' ' ensures s[p + 1] !in ds {
      if p + 1 < |a| {
        assert s[p] == a[p] && s[p + 1] == a[p + 1];
      } else if p + 1 == |a| {
        assert s[p] == a[|a| - 1] && s[p + 1] == b[0];
      } else {
        assert s[p] == b[p - |a|] && s[p + 1] == b[p - |a| + 1];
      }
    }
  }

  /** A key in which a space is followed by one of `ds` does not occur in a
      text where no space is. */
  lemma SpacedKeyMissing(s: string, k: string, j: nat, ds: string)
    requires j + 1 < |k| && k[j] == ' ' && k[j + 1] in ds && SpaceSafe(s, ds)
    ensures !Contains(s, k)
  {
    forall i: nat | i + |k| <= |s| ensures !OccursAt(s, k, i) {
      assert s[i..i + |k|][j] == s[i + j] && s[i..i + |k|][j + 1] == s[i + j + 1];
    }
  }

  /** A key without character `c` occurs in `a + [c] + b` only inside `a` or `b`. */
  lemma SplitAtAbsentChar(a: string, c: char, b: string, k: string)
    requires c !in k && !Contains(a, k) && !Contains(b, k)
    ensures !Contains(a + [c] + b, k)
  {
    var s := a + [c] + b;
    forall i: nat | i + |k| <= |s| ensures !OccursAt(s, k, i) {
      if i + |k| <= |a| {
        assert s[i..i + |k|] == a[i..i + |k|];
        assert !OccursAt(a, k, i);
      } else if i > |a| {
        assert s[i..i + |k|] == b[i - |a| - 1..i - |a| - 1 + |k|];
        assert !OccursAt(b, k, i - |a| - 1);
      } else {
        assert s[|a|] == c;
        assert s[i..i + |k|][|a| - i] == c;
      }
    }
  }

  /** The list after `if cond: xs.append(m)`. */
  function AppendIf<T>(xs: seq<T>, cond: bool, m: T): (r: seq<T>)
    ensures r == if cond then xs + [m] else xs
  {
    if cond then xs + [m] else xs
  }

  /** Python's `lstrip()`: drop leading whitespace. */
  function LStrip(s: string): (r: string)
    ensures |r| <= |s| && r == s[|s| - |r|..]
    ensures r == [] || !IsSpace(r[0])
    ensures forall i :: 0 <= i < |s| - |r| ==> IsSpace(s[i])
  {
    if s != [] && IsSpace(s[0]) then LStrip(s[1..]) else s
  }

  /** Python's `rstrip()`: drop trailing whitespace. */
  function RStrip(s: string): (r: string)
    ensures |r| <= |s| && r == s[..|r|]
    ensures r == [] || !IsSpace(r[|r| - 1])
    ensures forall i :: |r| <= i < |s| ==> IsSpace(s[i])
  {
    if s != [] && IsSpace(s[|s| - 1]) then RStrip(s[..|s| - 1]) else s
  }

  /** Python's `strip()`. */
  function Strip(s: string): string {
    RStrip(LStrip(s))
  }

  /** `len(s) - len(s.lstrip(' '))`: the number of leading space characters
      (tabs and other whitespace end the count). */
  function LeadingSpaces(s: string): (n: nat)
    ensures n <= |s|
    ensures forall i :: 0 <= i < n ==> s[i] == ' '
    ensures n == |s| || s[n] != ' '
  {
    if s != [] && s[0] == ' ' then 1 + LeadingSpaces(s[1..]) else 0
  }

  /** Python's `s.split(sep)` for a one-character separator. */
  function SplitOn(s: string, sep: char): (parts: seq<string>)
    ensures |parts| >= 1
    ensures forall i :: 0 <= i < |parts| ==> sep !in parts[i]
  {
    if s == [] then [[]]
    else
      var rest := SplitOn(s[1..], sep);
      if s[0] == sep then [[]] + rest else [[s[0]] + rest[0]] + rest[1..]
  }

  /** Python's `sep.join(parts)`. */
  function Join(parts: seq<string>, sep: char): string
    requires |parts| >= 1
  {
    if |parts| == 1 then parts[0] else parts[0] + [sep] + Join(parts[1..], sep)
  }

  /** Splitting and joining again gives back the text. */
  lemma {:induction false} SplitJoin(s: string, sep: char)
    ensures Join(SplitOn(s, sep), sep) == s
  {
    if s != [] {
      var rest := SplitOn(s[1..], sep);
      SplitJoin(s[1..], sep);
      if s[0] == sep {
        assert SplitOn(s, sep)[1..] == rest;
      } else {
        var parts := SplitOn(s, sep);
        if |rest| == 1 {
          assert parts == [[s[0]] + rest[0]];
        } else {
          assert parts[1..] == rest[1..];
          assert Join(rest, sep) == rest[0] + [sep] + Join(rest[1..], sep);
        }
      }
    }
  }

  /** The leading run of non-whitespace characters of `s`. */
  function Token(s: string): (t: string)
    ensures |t| <= |s| && t == s[..|t|]
    ensures forall i :: 0 <= i < |t| ==> !IsSpace(t[i])
    ensures |t| == |s| || IsSpace(s[|t|])
  {
    if s != [] && !IsSpace(s[0]) then [s[0]] + Token(s[1..]) else []
  }

  /** Python's `s.split()`: the maximal runs of non-whitespace characters, in order. */
  function Words(s: string): (ws: seq<string>)
    ensures forall i :: 0 <= i < |ws| ==> ws[i] != []
    ensures forall i, j :: 0 <= i < |ws| && 0 <= j < |ws[i]| ==> !IsSpace(ws[i][j])
    decreases |s|
  {
    if s == [] then []
    else if IsSpace(s[0]) then Words(s[1..])
    else
      var t := Token(s);
      [t] + Words(s[|t|..])
  }

  lemma {:induction false} WordsOfLStrip(s: string)
    ensures Words(LStrip(s)) == Words(s)
  {
    if s != [] && IsSpace(s[0]) {
      WordsOfLStrip(s[1..]);
    }
  }

  /** A text with some non-whitespace character has at least one word. */
  lemma {:induction false} WordsNonEmpty(s: string, j: nat)
    requires j < |s| && !IsSpace(s[j])
    ensures Words(s) != []
  {
    if IsSpace(s[0]) {
      WordsNonEmpty(s[1..], j - 1);
    }
  }

  lemma TokenOfKeyword(s: string, kw: string)
    requires kw != [] && (forall i :: 0 <= i < |kw| ==> !IsSpace(kw[i]))
    requires |kw| < |s| && s[..|kw|] == kw && IsSpace(s[|kw|])
    ensures Token(s) == kw
  {
    var t := Token(s);
    assert t == s[..|t|];
  }

  /** What `RStrip(t).startswith(kw + " ")` says about `t` itself. */
  lemma StrippedKeyword(t: string, kw: string)
    requires StartsWith(RStrip(t), kw + " ")
    ensures |RStrip(t)| >= |kw| + 2
    ensures t[..|kw|] == kw && t[|kw|] == ' ' && !IsSpace(t[|RStrip(t)| - 1])
  {
    var u := RStrip(t);
    assert u[..|kw| + 1] == kw + " ";
    assert u[|kw|] == ' ';
    assert t[..|kw|] == u[..|kw|];
    assert u[..|kw|] == (kw + " ")[..|kw|];
  }

  /** Text that starts with `kw`, then a space, and has a non-space character
      further on, splits into `kw` and at least one more word. */
  lemma KeywordWords(t: string, kw: string, j: nat)
    requires kw != [] && (forall i :: 0 <= i < |kw| ==> !IsSpace(kw[i]))
    requires |kw| < j < |t| && t[..|kw|] == kw && t[|kw|] == ' ' && !IsSpace(t[j])
    ensures |Words(t)| >= 2 && Words(t)[0] == kw
  {
    TokenOfKeyword(t, kw);
    assert t[0] == kw[0];
    assert Words(t) == [kw] + Words(t[|kw|..]);
    var rest := t[|kw|..];
    assert rest[j - |kw|] == t[j];
    WordsNonEmpty(rest, j - |kw|);
  }

  /** A line whose stripped form starts with `kw` and a space (as an import line
      does with "import " or "from ") has at least two words, `kw` first: so
      the second word always exists. */
  lemma KeywordLineWords(line: string, kw: string)
    requires kw != [] && (forall i :: 0 <= i < |kw| ==> !IsSpace(kw[i]))
    requires StartsWith(Strip(line), kw + " ")
    ensures |Words(line)| >= 2 && Words(line)[0] == kw
  {
    var t := LStrip(line);
    var u := RStrip(t);
    assert Strip(line) == u;
    StrippedKeyword(t, kw);
    assert |kw| < |u| - 1 < |t|;
    KeywordWords(t, kw, |u| - 1);
    WordsOfLStrip(line);
  }

  /** ASCII lower-casing of one character. */
  function LowerChar(c: char): (r: char)
    ensures 'A' <= c <= 'Z' ==> 'a' <= r <= 'z' && r as int == c as int + 32
    ensures !('A' <= c <= 'Z') ==> r == c
  {
    if 'A' <= c <= 'Z' then (c as int + 32) as char else c
  }

  /** Python's `s.lower()` on ASCII letters; other characters are kept. The model
      compares the result only with "python" and "javascript", and no character
      outside ASCII lower-cases to one of their letters. */
  function Lower(s: string): (r: string)
    ensures |r| == |s|
    ensures forall i :: 0 <= i < |s| ==> r[i] == LowerChar(s[i])
  {
    seq(|s|, i requires 0 <= i < |s| => LowerChar(s[i]))
  }

  lemma LowerIdempotent(s: string)
    ensures Lower(Lower(s)) == Lower(s)
  {
  }

  function DigitChar(d: nat): (c: char)
    requires d < 10
    ensures '0' <= c <= '9'
  {
    ('0' as int + d) as char
  }

  /** Python's `str(n)` for a natural number. */
  function NatToString(n: nat): (s: string)
    ensures s != []
    ensures forall i :: 0 <= i < |s| ==> '0' <= s[i] <= '9'
  {
    if n < 10 then [DigitChar(n)] else NatToString(n / 10) + [DigitChar(n % 10)]
  }

  /** Different counts print differently. */
  lemma {:induction false} NatToStringInjective(n: nat, m: nat)
    requires NatToString(n) == NatToString(m)
    ensures n == m
    decreases n
  {
    var s, t := NatToString(n), NatToString(m);
    if n >= 10 && m >= 10 {
      assert s[..|s| - 1] == NatToString(n / 10);
      assert t[..|t| - 1] == NatToString(m / 10);
      NatToStringInjective(n / 10, m / 10);
      assert DigitChar(n % 10) == s[|s| - 1] == t[|t| - 1] == DigitChar(m % 10);
    }
  }

  /** Python's `str.splitlines()`: the index of the first line break at or after
      `i`, or `|s|`. */
  function NextBreak(s: string, i: nat): (j: nat)
    requires i <= |s|
    ensures i <= j <= |s|
    ensures j == |s| || IsLineBreak(s[j])
    ensures forall k :: i <= k < j ==> !IsLineBreak(s[k])
    decreases |s| - i
  {
    if i == |s| || IsLineBreak(s[i]) then i else NextBreak(s, i + 1)
  }

  /** Length of the line break at `i`: "\r\n" counts as one break of two characters. */
  function BreakLength(s: string, i: nat): (n: nat)
    requires i < |s|
    ensures 1 <= n <= 2 && i + n <= |s|
  {
    if s[i] == '\r' && i + 1 < |s| && s[i + 1] == '\n' then 2 else 1
  }

  /** Python's `s.splitlines()`: lines without their terminators, and no empty
      last line for a trailing terminator. */
  function SplitLines(s: string): (lines: seq<string>)
    ensures |lines| <= |s|
    ensures forall i, j :: 0 <= i < |lines| && 0 <= j < |lines[i]| ==> !IsLineBreak(lines[i][j])
    decreases |s|
  {
    if s == [] then []
    else
      var j := NextBreak(s, 0);
      if j == |s| then [s] else [s[..j]] + SplitLines(s[j + BreakLength(s, j)..])
  }
}
