/** `format_suggestion`: turns a linter message code into a readable tip. */
module NlpFormatter {
  import opened PyStr
  import opened PriorityMap

  // The linter codes looked for, in the order they are tested.
  const DocstringCode: string := "missing-function-docstring"
  const UnusedImportCode: string := "unused-import"
  const LineTooLongCode: string := "line-too-long"
  const InvalidNameCode: string := "invalid-name"

  const SuggestionKeys: seq<string> := [DocstringCode, UnusedImportCode, LineTooLongCode, InvalidNameCode]

  // The tips, written in pieces of a few words; the text is the same.
  const DocstringTip: string := "✏️ Add a docstring " + "to describe the " + "function’s purpose."
  const UnusedImportTip: string := "🧹 Remove unused import " + "to keep the code clean."
  const LineTooLongTip: string := "📏 Break long lines " + "to keep under " + "79 characters."
  const InvalidNameTip: string := "🔤 Consider renaming " + "variables to follow " + "naming conventions."

  const SuggestionTemplates: seq<string> := [DocstringTip, UnusedImportTip, LineTooLongTip, InvalidNameTip]

  /** The tip for a raw linter message, or the message itself when it names no
      known code. */
  function FormatSuggestion(rawMsg: string): string {
    Apply(rawMsg, SuggestionKeys, SuggestionTemplates)
  }

  /** The first code in the fixed order decides the tip. */
  lemma FirstCodeWins(rawMsg: string, i: nat)
    requires i < |SuggestionKeys| && Contains(rawMsg, SuggestionKeys[i])
    requires forall j :: 0 <= j < i ==> !Contains(rawMsg, SuggestionKeys[j])
    ensures FormatSuggestion(rawMsg) == SuggestionTemplates[i]
  {
    FirstMatchWins(rawMsg, SuggestionKeys, SuggestionTemplates, i);
  }

  /** Unknown messages are returned unchanged. */
  lemma UnknownMessageUnchanged(rawMsg: string)
    requires forall j :: 0 <= j < |SuggestionKeys| ==> !Contains(rawMsg, SuggestionKeys[j])
    ensures FormatSuggestion(rawMsg) == rawMsg
  {
    UnmatchedUnchanged(rawMsg, SuggestionKeys, SuggestionTemplates);
  }

  /** The result is one of the four tips or the input itself. */
  lemma FormatSuggestionImage(rawMsg: string)
    ensures FormatSuggestion(rawMsg) == rawMsg || FormatSuggestion(rawMsg) in SuggestionTemplates
    ensures FormatSuggestion(rawMsg) != rawMsg ==>
      exists j :: 0 <= j < |SuggestionKeys| && Contains(rawMsg, SuggestionKeys[j])
  {
    ApplyImage(rawMsg, SuggestionKeys, SuggestionTemplates);
  }

  /** Every code holds a '-', and no tip does: so no tip contains a code. */
  lemma TipHoldsNoCode(t: string)
    requires NoneOf(t, "-")
    ensures Apply(t, SuggestionKeys, SuggestionTemplates) == t
  {
    MissingKey(t, DocstringCode, 7, "-");
    MissingKey(t, UnusedImportCode, 6, "-");
    MissingKey(t, LineTooLongCode, 4, "-");
    MissingKey(t, InvalidNameCode, 7, "-");
    UnmatchedUnchanged(t, SuggestionKeys, SuggestionTemplates);
  }

  lemma FirstTipsLackDash()
    ensures NoneOf(DocstringTip, "-") && NoneOf(UnusedImportTip, "-")
  {
    var cs := "-";
    assert NoneOf("✏️ Add a docstring ", cs) && NoneOf("to describe the ", cs) && NoneOf("function’s purpose.", cs);
    NoneOfConcat("✏️ Add a docstring ", "to describe the ", cs);
    NoneOfConcat("✏️ Add a docstring " + "to describe the ", "function’s purpose.", cs);
    assert NoneOf("🧹 Remove unused import ", cs) && NoneOf("to keep the code clean.", cs);
    NoneOfConcat("🧹 Remove unused import ", "to keep the code clean.", cs);
  }

  lemma LastTipsLackDash()
    ensures NoneOf(LineTooLongTip, "-") && NoneOf(InvalidNameTip, "-")
  {
    var cs := "-";
    assert NoneOf("📏 Break long lines ", cs) && NoneOf("to keep under ", cs) && NoneOf("79 characters.", cs);
    NoneOfConcat("📏 Break long lines ", "to keep under ", cs);
    NoneOfConcat("📏 Break long lines " + "to keep under ", "79 characters.", cs);
    assert NoneOf("🔤 Consider renaming ", cs) && NoneOf("variables to follow ", cs) && NoneOf("naming conventions.", cs);
    NoneOfConcat("🔤 Consider renaming ", "variables to follow ", cs);
    NoneOfConcat("🔤 Consider renaming " + "variables to follow ", "naming conventions.", cs);
  }

  lemma SuggestionTemplatesStable()
    ensures Stable(SuggestionKeys, SuggestionTemplates)
  {
    FirstTipsLackDash();
    LastTipsLackDash();
    forall i | 0 <= i < |SuggestionTemplates|
      ensures Apply(SuggestionTemplates[i], SuggestionKeys, SuggestionTemplates) == SuggestionTemplates[i]
    {
      TipHoldsNoCode(SuggestionTemplates[i]);
    }
  }

  /** Formatting a formatted message changes nothing. */
  lemma FormatSuggestionIdempotent(rawMsg: string)
    ensures FormatSuggestion(FormatSuggestion(rawMsg)) == FormatSuggestion(rawMsg)
  {
    SuggestionTemplatesStable();
    ApplyIdempotent(rawMsg, SuggestionKeys, SuggestionTemplates);
  }
}
