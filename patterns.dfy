/** The regular expressions of the checkers, written out as scans: each member
    states, position by position, which texts the pattern matches and what
    `re.search` or `re.findall` then returns. */
module Patterns {
  import opened PyStr
  import opened Outcomes

  /** The character classes the patterns repeat: `\s`, `\w` (also
      `[a-zA-Z0-9_]`) and `.` (anything but a newline). */
  datatype CharClass = Space | Word | NotNewline

  predicate InClass(c: char, k: CharClass) {
    match k
    case Space => IsSpace(c)
    case Word => IsWordChar(c)
    case NotNewline => c != '\n'
  }

  /** End of the maximal run of characters of class `k`, starting at `i`. */
  function RunEnd(s: string, i: nat, k: CharClass): (j: nat)
    requires i <= |s|
    ensures i <= j <= |s|
    ensures forall m :: i <= m < j ==> InClass(s[m], k)
    ensures j == |s| || !InClass(s[j], k)
    decreases |s| - i
  {
    if i < |s| && InClass(s[i], k) then RunEnd(s, i + 1, k) else i
  }

  // ---- for\s+\w+\s+in\s+\w+:\s+\n+\s+\w+\.append\(   (review_engine.py)

  /** Where ".append(" starts when the list-comprehension pattern matches at
      `p`. Every `\s+` and `\w+` in it is followed by a character outside its
      class, so each takes its maximal run; only the run after the colon has a
      choice, and `\s+\n+\s+` then needs a newline in it with whitespace on
      both sides. */
  function ListCompAppendAt(s: string, p: nat): (g: Option<nat>)
    ensures g.Some? ==> OccursAt(s, "for", p) && p + 3 < g.value && OccursAt(s, ".append(", g.value)
  {
    if !OccursAt(s, "for", p) then None
    else
      var a := RunEnd(s, p + 3, Space);
      var b := RunEnd(s, a, Word);
      var c := RunEnd(s, b, Space);
      if !(a > p + 3 && b > a && c > b && OccursAt(s, "in", c)) then None
      else
        var d := RunEnd(s, c + 2, Space);
        var e := RunEnd(s, d, Word);
        if !(d > c + 2 && e > d && e < |s| && s[e] == ':') then None
        else
          var f := RunEnd(s, e + 1, Space);
          var g := RunEnd(s, f, Word);
          if (exists k :: e + 2 <= k < f - 1 && s[k] == '\n') && g > f && OccursAt(s, ".append(", g)
          then Some(g) else None
  }

  /** `re.search` for the list-comprehension pattern. */
  predicate ListCompSearch(s: string) {
    exists p :: 0 <= p < |s| && ListCompAppendAt(s, p).Some?
  }

  lemma ListCompNeedsAppend(s: string)
    requires ListCompSearch(s)
    ensures Contains(s, "for") && Contains(s, ".append(")
  {
    var p :| 0 <= p < |s| && ListCompAppendAt(s, p).Some?;
    var g := ListCompAppendAt(s, p).value;
    assert OccursAt(s, "for", p) && OccursAt(s, ".append(", g);
  }

  // ---- ==[^=]   (review_engine.py, JavaScript rules)

  /** `re.search(r"==[^=]", s)`: two '=' followed by any one character that is not
      '=' (a newline included). */
  predicate LooseEquality(s: string) {
    exists i :: 0 <= i < |s| - 2 && s[i] == '=' && s[i + 1] == '=' && s[i + 2] != '='
  }

  /** The pattern also fires on the strict operator: "===" followed by a
      character other than '=' contains "==" followed by that character. */
  lemma StrictEqualityIsFlagged(s: string, i: nat)
    requires OccursAt(s, "===", i) && i + 3 < |s| && s[i + 3] != '='
    ensures LooseEquality(s)
  {
    assert s[i..i + 3] == "===";
    assert s[i + 1] == '=' && s[i + 2] == '=';
  }

  lemma LooseEqualityNeedsEquals(s: string)
    requires LooseEquality(s)
    ensures Contains(s, "==")
  {
    var i :| 0 <= i < |s| - 2 && s[i] == '=' && s[i + 1] == '=' && s[i + 2] != '=';
    assert s[i..i + 2] == "==";
    assert OccursAt(s, "==", i);
  }

  // ---- \bif\s+[^=]+=[^=].*:   (gpt_logic_checker.py)

  /** The assignment-in-`if` pattern matches at `p`: "if" at a word boundary,
      whitespace, at least one more character that is not '=', a single '=' with
      a non-'=' character after it, and later on the same line a ':'. The class
      `[^=]` also matches newlines, `.` does not. */
  predicate AssignInIfAt(s: string, p: nat) {
    OccursAt(s, "if", p) && (p == 0 || !IsWordChar(s[p - 1])) && p + 2 < |s| && IsSpace(s[p + 2]) &&
    exists q :: p + 4 <= q < |s| - 1 && s[q] == '=' && s[q + 1] != '=' &&
      NoEquals(s, p + 3, q) && ColonOnLine(s, q + 2)
  }

  /** No '=' in `s[lo..hi]`. */
  predicate NoEquals(s: string, lo: nat, hi: nat)
    requires hi <= |s|
  {
    forall k :: lo <= k < hi ==> s[k] != '='
  }

  /** `.*:` matches from `i`: a ':' at or after `i` with no newline before it. */
  predicate ColonOnLine(s: string, i: nat) {
    exists r :: i <= r < |s| && s[r] == ':' && forall k :: i <= k < r ==> s[k] != '\n'
  }

  /** `re.search` for the assignment-in-`if` pattern. */
  predicate AssignInIf(s: string) {
    exists p :: 0 <= p < |s| && AssignInIfAt(s, p)
  }

  // ---- def\s+\w+\(.*\):   (review_engine.py, docstring rule)

  /** The largest `r` with `lo <= r` and `r + 2 <= hi` where "):" starts. */
  function LastCloseColon(s: string, lo: nat, hi: nat): (r: Option<nat>)
    requires lo <= hi <= |s|
    ensures r.Some? ==> lo <= r.value && r.value + 2 <= hi && s[r.value] == ')' && s[r.value + 1] == ':'
    ensures r.Some? ==> forall k :: r.value < k && k + 2 <= hi ==> !(s[k] == ')' && s[k + 1] == ':')
    ensures r.None? ==> forall k :: lo <= k && k + 2 <= hi ==> !(s[k] == ')' && s[k + 1] == ':')
    decreases hi
  {
    if hi < lo + 2 then None
    else if s[hi - 2] == ')' && s[hi - 1] == ':' then Some(hi - 2)
    else LastCloseColon(s, lo, hi - 1)
  }

  /** Where a match of the function-header pattern starting at `p` ends, if there
      is one. The greedy `.*` cannot cross a newline, so the match runs to the
      last "):" of the line. */
  function DefHeaderEnd(s: string, p: nat): (e: Option<nat>)
    requires p <= |s|
    ensures e.Some? ==> p + 3 < e.value <= |s| && OccursAt(s, "def", p)
    ensures e.Some? ==> s[e.value - 2] == ')' && s[e.value - 1] == ':'
  {
    if !OccursAt(s, "def", p) then None
    else
      var a := RunEnd(s, p + 3, Space);
      if a == p + 3 then None
      else
        var b := RunEnd(s, a, Word);
        if b == a || b == |s| || s[b] != '(' then None
        else
          var eol := RunEnd(s, b + 1, NotNewline);
          match LastCloseColon(s, b + 1, eol)
          case None => None
          case Some(r) => Some(r + 2)
  }

  /** `re.findall` for the function-header pattern from index `p`: the matched
      texts, left to right, each search resuming where the last match ended. */
  function DefHeadersFrom(s: string, p: nat): (hs: seq<string>)
    requires p <= |s|
    ensures forall i :: 0 <= i < |hs| ==> StartsWith(hs[i], "def") && EndsWith(hs[i], "):")
    decreases |s| - p
  {
    if p == |s| then []
    else
      match DefHeaderEnd(s, p)
      case Some(e) =>
        var h := s[p..e];
        assert h[..3] == s[p..p + 3];
        assert h[|h| - 2..] == [s[e - 2], s[e - 1]];
        [h] + DefHeadersFrom(s, e)
      case None => DefHeadersFrom(s, p + 1)
  }

  function DefHeaders(s: string): seq<string> {
    DefHeadersFrom(s, 0)
  }

  // ---- def\s+([a-zA-Z0-9_]+)\s*\(|([a-zA-Z0-9_]+)\s*=   (style_checker.py)

  /** First alternative at `p`: the defined name and the end of the match. */
  function DefNameAt(s: string, p: nat): (m: Option<(string, nat)>)
    requires p <= |s|
    ensures m.Some? ==> p < m.value.1 <= |s| && IsName(m.value.0)
  {
    if !OccursAt(s, "def", p) then None
    else
      var a := RunEnd(s, p + 3, Space);
      var b := RunEnd(s, a, Word);
      var c := RunEnd(s, b, Space);
      if a > p + 3 && b > a && c < |s| && s[c] == '(' then Some((s[a..b], c + 1)) else None
  }

  /** Second alternative at `p`: the assigned name and the end of the match. */
  function AssignNameAt(s: string, p: nat): (m: Option<(string, nat)>)
    requires p <= |s|
    ensures m.Some? ==> p < m.value.1 <= |s| && IsName(m.value.0)
  {
    var b := RunEnd(s, p, Word);
    var c := RunEnd(s, b, Space);
    if b > p && c < |s| && s[c] == '=' then Some((s[p..b], c + 1)) else None
  }

  /** A non-empty run of `[a-zA-Z0-9_]`, which is what either group captures. */
  predicate IsName(n: string) {
    n != [] && forall i :: 0 <= i < |n| ==> IsIdentChar(n[i])
  }

  /** `re.findall` for the name pattern from index `p`, each match reduced to the
      group that took part in it (`func_name or var_name`). */
  function CapturedNamesFrom(s: string, p: nat): (ns: seq<string>)
    requires p <= |s|
    ensures forall i :: 0 <= i < |ns| ==> IsName(ns[i])
    decreases |s| - p
  {
    if p == |s| then []
    else
      var m := if DefNameAt(s, p).Some? then DefNameAt(s, p) else AssignNameAt(s, p);
      match m
      case Some(found) => [found.0] + CapturedNamesFrom(s, found.1)
      case None => CapturedNamesFrom(s, p + 1)
  }

  function CapturedNames(s: string): seq<string> {
    CapturedNamesFrom(s, 0)
  }

  /** `re.match(r"^[a-z_][a-z0-9_]*$", name)` succeeds. */
  predicate IsSnakeCase(name: string) {
    name != [] && ('a' <= name[0] <= 'z' || name[0] == '_') &&
    forall i :: 0 <= i < |name| ==> 'a' <= name[i] <= 'z' || '0' <= name[i] <= '9' || name[i] == '_'
  }
}
