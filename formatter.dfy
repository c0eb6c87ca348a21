/** `format_issues`: turns the style checker's raw messages into friendlier
    tips, one message at a time. */
module Formatter {
  import opened PyStr
  import opened PriorityMap

  // The phrases looked for, in the order they are tested.
  const ExceedsKey: string := "exceeds 79 characters"
  const TabKey: string := "tab character"
  const CommentKey: string := "Add a space after '#'"
  const NewlineKey: string := "File should end with a newline"
  const SnakeKey: string := "snake_case"
  const IndentKey: string := "Indentation not a multiple of 4"

  const IssueKeys: seq<string> := [ExceedsKey, TabKey, CommentKey, NewlineKey, SnakeKey, IndentKey]

  // The tip that replaces a message containing the key of the same position.
  // The tips are written in pieces of a few words; the text is the same.
  const LineTooLongHead: string := "📏 Line too long: " + "Try keeping lines under " + "79 characters "
  const LineTooLongTail: string := "or better readability."
  const LineTooLongTip: string := LineTooLongHead + "f" + LineTooLongTail
  const TabTip: string := "🔧 Replace " + TabKey + "s with 4 spaces " + "for consistent " + "indentation."
  const CommentTip: string := "💡 Consider adding " + "a space after '#' " + "to improve comment " + "readability."
  const NewlineTip: string := "📄 Add a newline " + "at the end of the file " + "to follow POSIX " + "standards."
  const SnakeTip: string := "🔧 Rename variable " + "or function to " + SnakeKey + " for consistency."
  const IndentTip: string := "⚠️ Use consistent " + "indentation of 4 spaces."

  const IssueTemplates: seq<string> := [LineTooLongTip, TabTip, CommentTip, NewlineTip, SnakeTip, IndentTip]

  /** The tip for one raw message: the if/elif chain of the loop body. */
  function FormatIssue(issue: string): string {
    Apply(issue, IssueKeys, IssueTemplates)
  }

  /** The list `format_issues` returns: element `i` is the tip for raw message `i`
      and depends on nothing else. */
  function FormatAll(raw: seq<string>): (formatted: seq<string>)
    ensures |formatted| == |raw|
    ensures forall i :: 0 <= i < |raw| ==> formatted[i] == FormatIssue(raw[i])
  {
    seq(|raw|, i requires 0 <= i < |raw| => FormatIssue(raw[i]))
  }

  /** `format_issues`: one appended tip per raw message, in order. */
  method FormatIssues(rawIssues: seq<string>) returns (formatted: seq<string>)
    ensures formatted == FormatAll(rawIssues)
  {
    formatted := [];
    for i := 0 to |rawIssues|
      invariant |formatted| == i
      invariant forall j :: 0 <= j < i ==> formatted[j] == FormatIssue(rawIssues[j])
    {
      formatted := formatted + [FormatIssue(rawIssues[i])];
    }
  }

  lemma FormatAllEmpty()
    ensures FormatAll([]) == []
  {
  }

  /** The first key in the fixed order wins: a message with "exceeds 79
      characters" gets the line-too-long tip even if it also mentions a tab. */
  lemma ExceedsWins(issue: string)
    requires Contains(issue, ExceedsKey)
    ensures FormatIssue(issue) == LineTooLongTip
  {
    FirstMatchWins(issue, IssueKeys, IssueTemplates, 0);
  }

  /** A message with none of the six keys passes through unchanged. */
  lemma UnknownIssueUnchanged(issue: string)
    requires forall j :: 0 <= j < |IssueKeys| ==> !Contains(issue, IssueKeys[j])
    ensures FormatIssue(issue) == issue
  {
    UnmatchedUnchanged(issue, IssueKeys, IssueTemplates);
  }

  /** Every output is one of the six tips or the unchanged input. */
  lemma FormatIssueImage(issue: string)
    ensures FormatIssue(issue) == issue || FormatIssue(issue) in IssueTemplates
    ensures FormatIssue(issue) != issue ==> exists j :: 0 <= j < |IssueKeys| && Contains(issue, IssueKeys[j])
  {
    ApplyImage(issue, IssueKeys, IssueTemplates);
  }

  // ---- each tip is a fixed point of the map: it holds its own key or none,
  // and no earlier key; a key is shown absent by a character of it that the
  // tip lacks.

  lemma LineTooLongHeadLacks()
    ensures NoneOf(LineTooLongHead, "x#F_Ib")
  {
    var cs := "x#F_Ib";
    assert NoneOf("📏 Line too long: ", cs);
    assert NoneOf("Try keeping lines under ", cs);
    assert NoneOf("79 characters ", cs);
    NoneOfConcat("📏 Line too long: ", "Try keeping lines under ", cs);
    NoneOfConcat("📏 Line too long: " + "Try keeping lines under ", "79 characters ", cs);
  }

  lemma LineTooLongTipStable()
    ensures FormatIssue(LineTooLongTip) == LineTooLongTip
  {
    var head, tail, cs := LineTooLongHead, LineTooLongTail, "x#F_I";
    LineTooLongHeadLacks();
    assert NoneOf(tail, cs + "h");
    MissingKey(head, TabKey, 2, "x#F_Ib");
    MissingKey(tail, TabKey, 5, cs + "h");
    SplitAtAbsentChar(head, 'f', tail, TabKey);
    NoneOfFewer(head, "x#F_Ib", cs);
    NoneOfFewer(tail, cs + "h", cs);
    NoneOfConcat(head, "f", cs);
    NoneOfConcat(head + "f", tail, cs);
    LineTooLongTipRest(cs);
    TemplateStable(IssueKeys, IssueTemplates, 0);
  }

  lemma LineTooLongTipRest(cs: string)
    requires cs == "x#F_I" && NoneOf(LineTooLongTip, cs)
    ensures !Contains(LineTooLongTip, ExceedsKey) && !Contains(LineTooLongTip, CommentKey)
    ensures !Contains(LineTooLongTip, NewlineKey) && !Contains(LineTooLongTip, SnakeKey)
    ensures !Contains(LineTooLongTip, IndentKey)
  {
    MissingKey(LineTooLongTip, ExceedsKey, 1, cs);
    MissingKey(LineTooLongTip, CommentKey, 19, cs);
    MissingKey(LineTooLongTip, NewlineKey, 0, cs);
    MissingKey(LineTooLongTip, SnakeKey, 5, cs);
    MissingKey(LineTooLongTip, IndentKey, 0, cs);
  }

  lemma TabTipLacks()
    ensures NoneOf(TabTip, "x")
  {
    var cs := "x";
    assert NoneOf("🔧 Replace ", cs) && NoneOf(TabKey, cs) && NoneOf("s with 4 spaces ", cs);
    assert NoneOf("for consistent ", cs) && NoneOf("indentation.", cs);
    NoneOfConcat("🔧 Replace ", TabKey, cs);
    NoneOfConcat("🔧 Replace " + TabKey, "s with 4 spaces ", cs);
    NoneOfConcat("🔧 Replace " + TabKey + "s with 4 spaces ", "for consistent ", cs);
    NoneOfConcat("🔧 Replace " + TabKey + "s with 4 spaces " + "for consistent ", "indentation.", cs);
  }

  lemma TabTipStable()
    ensures FormatIssue(TabTip) == TabTip
  {
    var cs := "x";
    TabTipLacks();
    MissingKey(TabTip, ExceedsKey, 1, cs);
    ContainsInfix("🔧 Replace ", TabKey, "s with 4 spaces " + "for consistent " + "indentation.");
    assert TabTip == "🔧 Replace " + TabKey + ("s with 4 spaces " + "for consistent " + "indentation.");
    TemplateStable(IssueKeys, IssueTemplates, 1);
  }

  lemma CommentTipFrontLacks()
    ensures NoneOf("💡 Consider adding " + "a space after '#' ", "xhAF_I")
  {
    var cs := "xhAF_I";
    assert NoneOf("💡 Consider adding ", cs) && NoneOf("a space after '#' ", cs);
    NoneOfConcat("💡 Consider adding ", "a space after '#' ", cs);
  }

  lemma CommentTipLacks()
    ensures NoneOf(CommentTip, "xhAF_I")
  {
    var cs := "xhAF_I";
    CommentTipFrontLacks();
    assert NoneOf("to improve comment ", cs) && NoneOf("readability.", cs);
    NoneOfConcat("💡 Consider adding " + "a space after '#' ", "to improve comment ", cs);
    NoneOfConcat("💡 Consider adding " + "a space after '#' " + "to improve comment ", "readability.", cs);
  }

  lemma CommentTipStable()
    ensures FormatIssue(CommentTip) == CommentTip
  {
    var cs := "xhAF_I";
    CommentTipLacks();
    MissingKey(CommentTip, ExceedsKey, 1, cs);
    MissingKey(CommentTip, TabKey, 5, cs);
    MissingKey(CommentTip, CommentKey, 0, cs);
    MissingKey(CommentTip, NewlineKey, 0, cs);
    MissingKey(CommentTip, SnakeKey, 5, cs);
    MissingKey(CommentTip, IndentKey, 0, cs);
    TemplateStable(IssueKeys, IssueTemplates, 2);
  }

  lemma NewlineTipFrontLacks()
    ensures NoneOf("📄 Add a newline " + "at the end of the file ", "xb#F_4")
  {
    var cs := "xb#F_4";
    assert NoneOf("📄 Add a newline ", cs) && NoneOf("at the end of the file ", cs);
    NoneOfConcat("📄 Add a newline ", "at the end of the file ", cs);
  }

  lemma NewlineTipLacks()
    ensures NoneOf(NewlineTip, "xb#F_4")
  {
    var cs := "xb#F_4";
    NewlineTipFrontLacks();
    assert NoneOf("to follow POSIX ", cs) && NoneOf("standards.", cs);
    NoneOfConcat("📄 Add a newline " + "at the end of the file ", "to follow POSIX ", cs);
    NoneOfConcat("📄 Add a newline " + "at the end of the file " + "to follow POSIX ", "standards.", cs);
  }

  lemma NewlineTipStable()
    ensures FormatIssue(NewlineTip) == NewlineTip
  {
    var cs := "xb#F_4";
    NewlineTipLacks();
    MissingKey(NewlineTip, ExceedsKey, 1, cs);
    MissingKey(NewlineTip, TabKey, 2, cs);
    MissingKey(NewlineTip, CommentKey, 19, cs);
    MissingKey(NewlineTip, NewlineKey, 0, cs);
    MissingKey(NewlineTip, SnakeKey, 5, cs);
    MissingKey(NewlineTip, IndentKey, 30, cs);
    TemplateStable(IssueKeys, IssueTemplates, 3);
  }

  lemma SnakeTipLacks()
    ensures NoneOf(SnakeTip, "xh#F")
  {
    var cs := "xh#F";
    assert NoneOf("🔧 Rename variable ", cs) && NoneOf("or function to ", cs);
    assert NoneOf(SnakeKey, cs) && NoneOf(" for consistency.", cs);
    NoneOfConcat("🔧 Rename variable ", "or function to ", cs);
    NoneOfConcat("🔧 Rename variable " + "or function to ", SnakeKey, cs);
    NoneOfConcat("🔧 Rename variable " + "or function to " + SnakeKey, " for consistency.", cs);
  }

  lemma SnakeTipStable()
    ensures FormatIssue(SnakeTip) == SnakeTip
  {
    var cs := "xh#F";
    SnakeTipLacks();
    MissingKey(SnakeTip, ExceedsKey, 1, cs);
    MissingKey(SnakeTip, TabKey, 5, cs);
    MissingKey(SnakeTip, CommentKey, 19, cs);
    MissingKey(SnakeTip, NewlineKey, 0, cs);
    ContainsInfix("🔧 Rename variable " + "or function to ", SnakeKey, " for consistency.");
    TemplateStable(IssueKeys, IssueTemplates, 4);
  }

  lemma IndentTipLacks()
    ensures NoneOf(IndentTip, "xb#F_I")
  {
    var cs := "xb#F_I";
    assert NoneOf("⚠️ Use consistent ", cs) && NoneOf("indentation of 4 spaces.", cs);
    NoneOfConcat("⚠️ Use consistent ", "indentation of 4 spaces.", cs);
  }

  lemma IndentTipStable()
    ensures FormatIssue(IndentTip) == IndentTip
  {
    var cs := "xb#F_I";
    IndentTipLacks();
    MissingKey(IndentTip, ExceedsKey, 1, cs);
    MissingKey(IndentTip, TabKey, 2, cs);
    MissingKey(IndentTip, CommentKey, 19, cs);
    MissingKey(IndentTip, NewlineKey, 0, cs);
    MissingKey(IndentTip, SnakeKey, 5, cs);
    MissingKey(IndentTip, IndentKey, 0, cs);
    TemplateStable(IssueKeys, IssueTemplates, 5);
  }

  lemma IssueTemplatesStable()
    ensures Stable(IssueKeys, IssueTemplates)
  {
    forall i | 0 <= i < |IssueTemplates|
      ensures Apply(IssueTemplates[i], IssueKeys, IssueTemplates) == IssueTemplates[i]
    {
      if i == 0 { LineTooLongTipStable(); }
      else if i == 1 { TabTipStable(); }
      else if i == 2 { CommentTipStable(); }
      else if i == 3 { NewlineTipStable(); }
      else if i == 4 { SnakeTipStable(); }
      else { IndentTipStable(); }
    }
  }

  /** Formatting a formatted message changes nothing. */
  lemma FormatIssueIdempotent(issue: string)
    ensures FormatIssue(FormatIssue(issue)) == FormatIssue(issue)
  {
    IssueTemplatesStable();
    ApplyIdempotent(issue, IssueKeys, IssueTemplates);
  }

  /** `format_issues(format_issues(xs)) == format_issues(xs)`. */
  lemma FormatAllIdempotent(raw: seq<string>)
    ensures FormatAll(FormatAll(raw)) == FormatAll(raw)
  {
    forall i | 0 <= i < |raw| ensures FormatAll(FormatAll(raw))[i] == FormatAll(raw)[i] {
      FormatIssueIdempotent(raw[i]);
    }
  }
}
