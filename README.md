# Code Review Assistant — a verified model of its analysis core

The Code Review Assistant is a web service that reviews a submitted piece of
source code. Its core is a set of independent, deterministic checkers. Each
takes the code text (or its Python syntax tree) and returns lists of finding
strings. A scorer and two message formatters complete the core.

- **Review engine** (`analyze_code`):
  - dispatches on the lower-cased language tag;
  - for Python, runs the unused-import, list-comprehension and docstring rules;
  - for JavaScript, runs three text tests;
  - scores the result as `max(0, 100 - 5w - 2s - o)`, with a three-tier remark;
  - answers a fixed "unsupported" review for any other language.
- **Older review engine**: an earlier `analyze_python_code` that returns the same three lists in a dict.
- **Style checker** (`check_code_style`):
  - per-line rules over `code.split("\n")`;
  - a trailing-newline rule and a snake_case rule;
  - a sub-score;
  - a module-level cache keyed by the code alone.
- **Formatters**:
  - `format_issues` and `format_suggestion` are ordered tables of substring → template, with an identity fallback;
  - both are idempotent.
- **Tree checkers**: a bug detector, a logic-flaw detector and a performance profiler, each a walk over the Python syntax tree:
  - the bug detector flags `sum` targets, `pass` and a parse failure;
  - the logic-flaw detector flags call arity, code after a `return`, and `=` inside an `if`;
  - the performance profiler flags loop nesting, and `append` and sorting calls inside loops.

## Structure of the model

| Dafny module (file) | models |
|---|---|
| `PyStr` (py_str.dfy) | the Python `str` operations the checkers use (`strip`, `split`, `splitlines`, `lower`, `in`, `startswith`, …) |
| `Outcomes` (outcomes.dfy) | `Option` and `PyResult` (a value or the raised `IndexError` / `ValueError`) |
| `Patterns` (patterns.dfy) | each regular expression, written as a position-by-position scan |
| `PriorityMap` (priority_map.dfy) | the shared shape of the two formatters: first matching key wins, otherwise identity |
| `Formatter`, `NlpFormatter` | `format_issues`, `format_suggestion` |
| `StyleChecker` | `check_code_style`: a class `StyleChecker` whose `cache` map is the module-level `style_cache` |
| `ReviewEngine`, `LegacyReviewEngine` | the two review engines |
| `SyntaxTree` | the syntax-tree datatype, `ast.iter_child_nodes`, `ast.walk` (breadth-first), and per-node tallies |
| `BugDetector`, `LogicChecker`, `PerformanceProfiler` | the three tree checkers; `LoopVisitor` is a class with the visitor's two fields |

Each imperative operation is a `method` proved equal to a specification
function, for example `ensures r == PythonFindings(code)`. The lemmas then
state the promised properties about those functions.

`ast.parse` is an input. Each tree checker takes `Option<Node>`, where `None`
stands for a `SyntaxError`.

## Where the model follows the code rather than the intended behaviour

- **`analyze_python_code` can raise.**
  - The code looks a header up with `code.splitlines().index(fn)`. That raises `ValueError` when a matched `def …):` header is not a whole line, for example an indented method or `def f(): pass`.
  - It raises `IndexError` when the header is on the last line.
  - A robust checker would skip a header that is not a whole line or is on the last line. This code raises `ValueError` or `IndexError` instead, and so does the model: it returns `Raised(...)`. See `ReviewEngine.FirstRaiseWins` and `ReviewEngine.LastLineHeaderRaises`.
- **Empty code does get the trailing-newline suggestion** from the style checker, though one would expect empty code to draw none. This is because `"".endswith("\n")` is false (`StyleChecker.NewlineFlaggedIff`).
- **The unsupported-language warning of the style checker goes through `format_issues`.** A language text holding one of the six keys is therefore replaced by a template. `StyleChecker.UnsupportedReport` states the warning as `FormatIssue(UnsupportedWarning(language))`. `StyleChecker.UnsupportedWarningKept` shows it is kept verbatim when the language text cannot take part in a key.
- **The list-comprehension pattern** is `for\s+\w+\s+in\s+\w+:\s+\n+\s+\w+\.append\(`. It needs whitespace both before and after a newline that follows the colon. So the usual layout `for x in xs:\n    ys.append(` (newline right after the colon) does not match. `Patterns.ListCompAppendAt` models the pattern as written.
- **`style_checker.py` imports `format_issues` and then defines its own.** The two bodies are identical, so one `Formatter.FormatIssue` serves both.

## Model

| member | source | states |
|---|---|---|
| ReviewEngine.AnalyzeJavaScriptCode | backend/app/core/review_engine.py:46-70 | returns exactly `JavaScriptFindings(code)` |
| ReviewEngine.JavaScriptFindings | backend/app/core/review_engine.py:61-68 | each list is empty or its one message. The suggestion appears iff "var " occurs, the warning iff `==` is followed by a non-`=` character, and the optimization iff "console.log(" occurs |
| ReviewEngine.StrictOperatorWarned | backend/app/core/review_engine.py:64-65 | "===" followed by a non-`=` character still draws the strict-equality warning |
| ReviewEngine.PythonFindings | backend/app/core/review_engine.py:4-43 | the value of `analyze_python_code`: the unused-import warnings, the optional list-comprehension hint and the docstring suggestions, or the exception the docstring loop raises. `ImportWarningSound`, `ImportWarningComplete`, `PythonOptimizations` and `DocstringCount` carry its contract |
| ReviewEngine.AnalyzePythonCode | backend/app/core/review_engine.py:4-43 | returns exactly `PythonFindings(code)`: the import warnings, the optional optimization, and the docstring suggestions or the exception they raise |
| ReviewEngine.CheckImports | backend/app/core/review_engine.py:19-32 | the loop over lines and then over the collected names returns `ImportWarnings(code)` |
| ReviewEngine.WarnUnused | backend/app/core/review_engine.py:30-32 | the loop over the dict's keys returns `UnusedWarnings(order, usedNames)`: one warning per key not in `used_names`, in key order |
| ReviewEngine.ScanLines | backend/app/core/review_engine.py:23-29 | the per-line loop ends with the imported names in first-import order and the set of words of the non-import lines |
| ReviewEngine.ScanLine | backend/app/core/review_engine.py:24-29 | one line adds its import name to the dict's keys (once), or adds its words to `used_names`. The dict's keys stay the set of collected names |
| ReviewEngine.AddWords | backend/app/core/review_engine.py:28-29 | the inner loop adds exactly the whitespace tokens of the line |
| ReviewEngine.ImportName | backend/app/core/review_engine.py:24-25 | for a line whose stripped form starts with "import " or "from ", `line.split()` has at least two tokens, so `[1]` does not raise; the name is that second token |
| ReviewEngine.ImportWarnings | backend/app/core/review_engine.py:19 | no unused-import warning when "import " does not occur in the code |
| ReviewEngine.ImportWarningSound | backend/app/core/review_engine.py:19-32 | a warning for `n` means: "import " occurs, some import line's second token is `n`, and no non-import line has `n` as a whitespace token |
| ReviewEngine.ImportWarningComplete | backend/app/core/review_engine.py:19-32 | conversely, every such name is warned about |
| ReviewEngine.ImportWarningsDistinct | backend/app/core/review_engine.py:22-32 | no name is warned about twice, and there are at most as many warnings as distinct imported names |
| ReviewEngine.UnusedImportWarningInjective | backend/app/core/review_engine.py:32 | different names give different warning texts |
| ReviewEngine.ImportedNameSource | backend/app/core/review_engine.py:24-26 | every collected name comes from an import line |
| ReviewEngine.ImportedNameListed | backend/app/core/review_engine.py:24-26 | every import line's name is collected |
| ReviewEngine.ImportedNamesDistinct | backend/app/core/review_engine.py:26 | the dict keys hold each name once |
| ReviewEngine.ImportedNamesGrow | backend/app/core/review_engine.py:23-26 | the names collected so far are a subset of the final ones |
| ReviewEngine.UsedNameSource | backend/app/core/review_engine.py:27-29 | every used word comes from a non-import line |
| ReviewEngine.UsedNameListed | backend/app/core/review_engine.py:27-29 | every word of a non-import line is used |
| ReviewEngine.UsesWordMeans | backend/app/core/review_engine.py:24-29 | a line contributes word `w` iff it is not an import line and `w` is one of its tokens |
| ReviewEngine.UnusedWarningsIff | backend/app/core/review_engine.py:30-32 | the warning for `n` is emitted iff `n` was imported and is not in `used_names` |
| ReviewEngine.UnusedWarningsDistinct | backend/app/core/review_engine.py:30-32 | distinct imported names give distinct warnings, at most one per name |
| ReviewEngine.UnusedWarningsNameListed | backend/app/core/review_engine.py:30-32 | every warning names an imported, unused name |
| ReviewEngine.Kinds | backend/app/core/review_engine.py:23-29 | each line is classified on its own, in order |
| ReviewEngine.IndexFrom | backend/app/core/review_engine.py:39 | `list.index`: the first position holding the value, or none |
| ReviewEngine.HeaderCheck | backend/app/core/review_engine.py:39-40 | one round of the docstring loop: `ValueError` when the header is not a line of `splitlines()`, `IndexError` when it is the last line, else whether the next stripped line lacks `"""`. `DocstringStep` and `LastLineHeaderRaises` carry its contract |
| ReviewEngine.DocstringSuggestions | backend/app/core/review_engine.py:37-41 | the docstring loop's suggestions, or the first exception raised. `RaisedPersists`, `FirstRaiseWins`, `DocstringCount` and `DocstringSuggestionSource` carry its contract |
| ReviewEngine.CheckDocstrings | backend/app/core/review_engine.py:37-41 | the loop over the `def` headers returns `DocstringSuggestions(...)`, stopping at the first exception |
| ReviewEngine.DocstringStep | backend/app/core/review_engine.py:38-41 | one round either raises or adds the suggestion exactly when the next stripped line does not start with `"""` |
| ReviewEngine.RaisedPersists | backend/app/core/review_engine.py:38-41 | once a round raises, the whole loop raises that exception |
| ReviewEngine.FirstRaiseWins | backend/app/core/review_engine.py:38-41 | the first header whose round raises decides the exception |
| ReviewEngine.LastLineHeaderRaises | backend/app/core/review_engine.py:39-40 | a header found on the last line raises `IndexError` instead of being skipped |
| ReviewEngine.DocstringOkAll | backend/app/core/review_engine.py:38-41 | a loop that does not raise had no raising round |
| ReviewEngine.DocstringAllOk | backend/app/core/review_engine.py:38-41 | conversely, no raising round means the loop does not raise |
| ReviewEngine.DocstringCount | backend/app/core/review_engine.py:38-41 | the number of suggestions is the number of headers without a docstring after them |
| ReviewEngine.DocstringSuggestionSource | backend/app/core/review_engine.py:40-41 | each suggestion names, stripped, a header whose next line does not open a docstring |
| ReviewEngine.PythonOptimizations | backend/app/core/review_engine.py:34-35 | at most one optimization, the list-comprehension hint, present iff the pattern matches |
| ReviewEngine.Score | backend/app/core/review_engine.py:98-100 | the score is in [0, 100]; it is 100 iff there are no findings, and otherwise `100 - deductions`, capped at 0 |
| ReviewEngine.Remark | backend/app/core/review_engine.py:102-104 | the three-tier remark of a score. `ScoredReview` carries its contract: each tier holds exactly on its range |
| ReviewEngine.Scored | backend/app/core/review_engine.py:97-112 | the review keeps the three lists and carries their score |
| ReviewEngine.ScoredReview | backend/app/core/review_engine.py:97-104 | the score is `max(0, 100 - (5w + 2s + o))`; the remark is "Excellent" iff score ≥ 90, "Good" iff 75 ≤ score < 90, and "Needs Improvement" iff score < 75 |
| ReviewEngine.AnalyzeCode | backend/app/core/review_engine.py:73-112 | `analyze_code`. Only the Python rules can raise. Every review scores in [0, 100], and a supported language's review is scored on its own three lists. Any other language gets the fixed unsupported review. `CaseInsensitive`, `UnsupportedLanguage`, `SupportedReview` and `ScoredReview` state the rest |
| ReviewEngine.UnsupportedLanguage | backend/app/core/review_engine.py:88-95 | any other language gets `["❌ Language not supported yet."]`, empty lists, score 0 and "Unsupported" |
| ReviewEngine.CaseInsensitive | backend/app/core/review_engine.py:84-87 | only the lower-cased tag matters |
| ReviewEngine.SupportedReview | backend/app/core/review_engine.py:84-112 | for python or javascript, the review is the scored findings of that language's rule set |
| ReviewEngine.JavaScriptScore | backend/app/core/review_engine.py:61-68 | a JavaScript review scores at least 92 |
| LegacyReviewEngine.LegacyFindings | app/core/review_engine.py:4-40 | the older engine's value: a dict of the three lists, or the exception. It is defined from `ReviewEngine.PythonFindings`, because the older engine applies the same three rules. So the `ReviewEngine` rule lemmas (`ImportWarningSound`, `ImportWarningComplete`, `PythonOptimizations`, `DocstringCount`, `FirstRaiseWins`) and `LegacyRuleSources` carry its contract |
| LegacyReviewEngine.AnalyzePythonCode | app/core/review_engine.py:4-40 | returns exactly `LegacyFindings(code)` |
| LegacyReviewEngine.LegacyAgrees | app/core/review_engine.py:4-40 | spells out the definition of `LegacyFindings` and adds no proof of its own: the older engine raises exactly when the newer rules raise, with the same exception; otherwise it is a dict with exactly the keys suggestions, warnings and optimizations, holding the newer engine's lists |
| LegacyReviewEngine.LegacyRuleSources | app/core/review_engine.py:10-34 | warnings come only from the unused-import rule, suggestions only from the docstring rule, and there is at most one optimization |
| StyleChecker.StyleChecker.CheckCodeStyle | backend/app/utils/style_checker.py:30-78 | a cached code returns the stored report and changes nothing. Otherwise the report is `StyleOf(code, language)`, stored under the code |
| StyleChecker.RepeatedCall | backend/app/utils/style_checker.py:32-33 | a second call with the same code, even with another language, returns the first report. The code is then in the cache, and no earlier entry changes |
| StyleChecker.StyleOf | backend/app/utils/style_checker.py:35-74 | the report of one uncached call: formatted suggestions and warnings, no optimizations, the sub-score and the remark. `PythonReportCounts`, `PythonReportTips`, `ReportScoreFromLists` and `UnsupportedReport` carry its contract |
| StyleChecker.ComputeStyle | backend/app/utils/style_checker.py:35-74 | computes exactly `StyleOf(code, language)` |
| StyleChecker.CheckLines | backend/app/utils/style_checker.py:40-50 | the per-line loop gives `LineSuggestions` and `LineWarnings` |
| StyleChecker.CheckLine | backend/app/utils/style_checker.py:42-50 | one line's messages, in rule order |
| StyleChecker.CheckNames | backend/app/utils/style_checker.py:56-59 | the rename messages of the captured names |
| StyleChecker.UnspacedCommentMeans | backend/app/utils/style_checker.py:46 | the comment rule holds iff the stripped line starts with "#" and not with "# " |
| StyleChecker.LineWarningsSound | backend/app/utils/style_checker.py:40-50 | every warning is the long-line, tab or indentation message of a line (numbered from 1) that breaks that rule |
| StyleChecker.LineSuggestionsSound | backend/app/utils/style_checker.py:46-47 | every per-line suggestion is the comment message of a line that breaks it |
| StyleChecker.LineMessagesComplete | backend/app/utils/style_checker.py:40-50 | every broken (line, rule) pair gives its message |
| StyleChecker.LineMessageCounts | backend/app/utils/style_checker.py:40-50 | one warning per (line, warning rule) broken, one suggestion per unspaced comment |
| StyleChecker.RenameSuggestionsSound | backend/app/utils/style_checker.py:56-59 | every rename message names a captured, non-empty name that is not snake_case |
| StyleChecker.RenameSuggestionsComplete | backend/app/utils/style_checker.py:56-59 | every such name gets its message |
| StyleChecker.StyleScore | backend/app/utils/style_checker.py:72 | the sub-score is in [0, 100], 100 iff no raw message, otherwise `100 - (2s + 3w)` while that is not negative, and 0 once the penalty reaches 100 |
| StyleChecker.ReportScoreFromLists | backend/app/utils/style_checker.py:64-73 | the optimizations stay empty. The score and the remark follow from the lengths of the formatted lists, since formatting preserves length. "Good job!" iff s + w ≤ 2 |
| StyleChecker.PythonReportCounts | backend/app/utils/style_checker.py:39-59 | for Python, the number of warnings is the count of broken warning rules. The number of suggestions is the unspaced comments, plus one for a missing final newline, plus the renames |
| StyleChecker.NewlineFlaggedIff | backend/app/utils/style_checker.py:52-53 | the newline suggestion is present iff the code does not end with "\n", the empty code included |
| StyleChecker.MessageHeads | backend/app/utils/style_checker.py:47-59 | the newline suggestion is neither a comment message nor a rename message |
| StyleChecker.UnsupportedReport | backend/app/utils/style_checker.py:61-73 | another language gets no suggestion, exactly the one formatted "not supported" warning, score 97 and "Good job!" |
| StyleChecker.UnsupportedWarningKept | backend/app/utils/style_checker.py:62-65 | that warning is kept verbatim when the language text cannot form a key |
| StyleChecker.PythonReportTips | backend/app/utils/style_checker.py:64-66 | for Python every formatted warning is the long-line, tab or indentation tip. Every formatted suggestion is the comment, newline or snake_case tip |
| StyleChecker.RuleMessageFormatted | backend/app/utils/style_checker.py:43-50 | each per-line message, whatever its line number, becomes its rule's tip |
| StyleChecker.TabWarningFormatted | backend/app/utils/style_checker.py:45 | the tab message becomes the tab tip: it lacks "exceeds 79 characters" |
| StyleChecker.CommentSuggestionFormatted | backend/app/utils/style_checker.py:47 | the comment message becomes the comment tip |
| StyleChecker.IndentWarningFormatted | backend/app/utils/style_checker.py:50 | the indentation message passes the five earlier keys and becomes the indentation tip |
| StyleChecker.NewlineSuggestionFormatted | backend/app/utils/style_checker.py:53 | the newline message becomes the newline tip |
| StyleChecker.RenameSuggestionFormatted | backend/app/utils/style_checker.py:59 | a rename message becomes the snake_case tip, whatever the captured name |
| StyleChecker.LineWarningFormatted | backend/app/utils/style_checker.py:40-50 | every raw per-line warning formats to one of the three warning tips |
| StyleChecker.PythonSuggestionFormatted | backend/app/utils/style_checker.py:46-59 | every raw Python suggestion formats to one of the three suggestion tips |
| Formatter.FormatIssue | backend/app/utils/formatter.py:3-17 | the tip for one message; it also stands for the identical copy at backend/app/utils/style_checker.py lines 10-27. `ExceedsWins`, `UnknownIssueUnchanged`, `FormatIssueImage` and `FormatIssueIdempotent` carry its contract |
| Formatter.FormatIssues | backend/app/utils/formatter.py:1-18 | the loop returns `FormatAll(rawIssues)` |
| Formatter.FormatAll | backend/app/utils/formatter.py:1-18 | same length as the input, and element i is the format of input element i alone |
| Formatter.FormatAllEmpty | backend/app/utils/formatter.py:1-18 | empty in, empty out |
| Formatter.ExceedsWins | backend/app/utils/formatter.py:4-5 | a message with "exceeds 79 characters" becomes the line-too-long tip, whatever other keys it holds |
| Formatter.UnknownIssueUnchanged | backend/app/utils/formatter.py:16-17 | a message with none of the six keys is unchanged |
| Formatter.FormatIssueImage | backend/app/utils/formatter.py:3-17 | every output is the input or one of the six tips, and a changed one held a key |
| Formatter.LineTooLongTipStable | backend/app/utils/formatter.py:5 | the line-too-long tip formats to itself |
| Formatter.TabTipStable | backend/app/utils/formatter.py:7 | the tab tip formats to itself |
| Formatter.CommentTipStable | backend/app/utils/formatter.py:9 | the comment tip formats to itself |
| Formatter.NewlineTipStable | backend/app/utils/formatter.py:11 | the newline tip formats to itself |
| Formatter.SnakeTipStable | backend/app/utils/formatter.py:13 | the snake_case tip, which contains its own key, formats to itself |
| Formatter.IndentTipStable | backend/app/utils/formatter.py:15 | the indentation tip formats to itself |
| Formatter.IssueTemplatesStable | backend/app/utils/formatter.py:4-15 | every tip is a fixed point of the table |
| Formatter.FormatIssueIdempotent | backend/app/utils/formatter.py:3-17 | formatting a message twice is formatting it once |
| Formatter.FormatAllIdempotent | backend/app/utils/formatter.py:1-18 | `format_issues(format_issues(xs)) == format_issues(xs)` |
| NlpFormatter.FormatSuggestion | backend/app/utils/nlp_formatter.py:1-14 | `format_suggestion`: the tip of the first code that occurs, or the message itself. `FirstCodeWins`, `UnknownMessageUnchanged`, `FormatSuggestionImage` and `FormatSuggestionIdempotent` carry its contract |
| NlpFormatter.FirstCodeWins | backend/app/utils/nlp_formatter.py:5-12 | the first code in the fixed order that occurs decides the tip |
| NlpFormatter.UnknownMessageUnchanged | backend/app/utils/nlp_formatter.py:13-14 | a message with none of the four codes is returned as it is |
| NlpFormatter.FormatSuggestionImage | backend/app/utils/nlp_formatter.py:5-14 | the result is the input or one of the four tips, and a changed one held a code |
| NlpFormatter.TipHoldsNoCode | backend/app/utils/nlp_formatter.py:5-14 | a text without '-' holds no code and is unchanged |
| NlpFormatter.SuggestionTemplatesStable | backend/app/utils/nlp_formatter.py:6-12 | no tip holds a code, so each is a fixed point |
| NlpFormatter.FormatSuggestionIdempotent | backend/app/utils/nlp_formatter.py:1-14 | formatting twice is formatting once |
| PriorityMap.FirstKeyFrom | backend/app/utils/formatter.py:4-17 | the chosen key occurs and no earlier key does; no key chosen means none occurs |
| PriorityMap.FirstMatchWins | backend/app/utils/formatter.py:4-15 | with key i the first to occur, the result is template i |
| PriorityMap.UnmatchedUnchanged | backend/app/utils/formatter.py:16-17 | no key occurs, so the input comes back |
| PriorityMap.ApplyImage | backend/app/utils/formatter.py:3-17 | the result is the input or a template |
| PriorityMap.ApplyIdempotent | backend/app/utils/formatter.py:3-17 | when every template is a fixed point, applying twice is applying once |
| PriorityMap.TemplateStable | backend/app/utils/formatter.py:4-15 | a template that holds no earlier key, and holds its own key or no later one, maps to itself |
| Patterns.ListCompAppendAt | backend/app/core/review_engine.py:34 | a match at p starts with "for" and ends where ".append(" starts |
| Patterns.ListCompNeedsAppend | backend/app/core/review_engine.py:34 | the hint needs both "for" and ".append(" in the code |
| Patterns.StrictEqualityIsFlagged | backend/app/core/review_engine.py:64 | `==[^=]` matches inside "===" followed by a non-`=` character |
| Patterns.LooseEqualityNeedsEquals | backend/app/core/review_engine.py:64 | the warning needs "==" in the code |
| Patterns.LastCloseColon | backend/app/core/review_engine.py:37 | the greedy `.*\):` ends at the last "):" on the line |
| Patterns.DefHeaderEnd | backend/app/core/review_engine.py:37 | a header match starts with "def" and ends with "):" |
| Patterns.DefHeadersFrom | backend/app/core/review_engine.py:37 | every header `re.findall` returns starts with "def" and ends with "):" |
| Patterns.DefNameAt | backend/app/utils/style_checker.py:55 | the first alternative captures a non-empty name of `[a-zA-Z0-9_]` and ends after the match |
| Patterns.AssignNameAt | backend/app/utils/style_checker.py:55 | the second alternative likewise |
| Patterns.CapturedNamesFrom | backend/app/utils/style_checker.py:55-57 | every captured name, `func_name or var_name`, is a non-empty run of `[a-zA-Z0-9_]` |
| PyStr.SplitOn | backend/app/utils/style_checker.py:40 | `split("\n")` has at least one part and no part holds the separator |
| PyStr.SplitJoin | backend/app/utils/style_checker.py:40 | joining the parts with the separator gives back the text |
| PyStr.SplitLines | backend/app/core/review_engine.py:39 | no part of `splitlines()` holds a line break |
| PyStr.Words | backend/app/core/review_engine.py:28 | `split()` gives non-empty tokens without whitespace |
| PyStr.WordsOfLStrip | backend/app/core/review_engine.py:25 | leading whitespace does not change `split()` |
| PyStr.KeywordLineWords | backend/app/core/review_engine.py:24-25 | a line whose stripped form starts with a keyword and a space has at least two tokens, the first being the keyword |
| PyStr.LStrip | backend/app/core/review_engine.py:24 | drops exactly the leading whitespace |
| PyStr.RStrip | backend/app/core/review_engine.py:24 | drops exactly the trailing whitespace |
| PyStr.LeadingSpaces | backend/app/utils/style_checker.py:48 | `len(line) - len(line.lstrip(' '))` counts exactly the leading spaces |
| PyStr.Lower | backend/app/core/review_engine.py:84 | `lower()` keeps the length and lowers each ASCII capital |
| PyStr.LowerIdempotent | backend/app/core/review_engine.py:84-86 | lowering twice is lowering once |
| PyStr.NatToString | backend/app/utils/gpt_logic_checker.py:39-40 | a count prints as a non-empty run of digits |
| PyStr.NatToStringInjective | backend/app/utils/gpt_logic_checker.py:39-40 | different counts print differently |
| SyntaxTree.WalkStartsAtRoot | backend/app/utils/bug_detector.py:12 | `ast.walk` lists the root first |
| SyntaxTree.WalkFromWeight | backend/app/utils/bug_detector.py:12 | counting along the breadth-first walk of a queue gives the count over the queue's trees: every node is met once |
| SyntaxTree.WalkWeight | backend/app/utils/bug_detector.py:12 | the same for the walk of one tree |
| SyntaxTree.WalkLength | backend/app/utils/bug_detector.py:12 | the walk has one entry per node of the tree |
| SyntaxTree.NoLoopsNoDepth | backend/app/utils/performance_profiler.py:15-28 | a tree has loop depth 0 iff it holds no `for` or `while` |
| BugDetector.Bugs | backend/app/utils/bug_detector.py:6-38 | the value of `detect_bugs`: the syntax-error finding, or each walked node's findings in walk order. `SyntaxErrorBug`, `BugSeverities` and `BugCounts` carry its contract |
| BugDetector.DetectBugs | backend/app/utils/bug_detector.py:6-38 | returns exactly `Bugs(parsed)` |
| BugDetector.CheckNode | backend/app/utils/bug_detector.py:14-29 | one node's findings: one per `sum` target, then one for `pass` |
| BugDetector.SumTargetBugs | backend/app/utils/bug_detector.py:15-21 | the loop over targets gives one `sum` finding per target that is the bare name `sum` |
| BugDetector.Repeat | backend/app/utils/bug_detector.py:15-21 | k copies of one finding |
| BugDetector.SyntaxErrorBug | backend/app/utils/bug_detector.py:31-36 | a parse failure yields exactly one finding, of severity "high" |
| BugDetector.BugsFromKinds | backend/app/utils/bug_detector.py:12-29 | along a walk every finding is the `sum` one or the `pass` one |
| BugDetector.BugSeverities | backend/app/utils/bug_detector.py:17-35 | every severity is low, medium or high, and a parsed tree never yields high |
| BugDetector.BugsFromCounts | backend/app/utils/bug_detector.py:12-29 | along a walk, the `sum` findings count the `sum` targets and the `pass` findings count the `pass` nodes |
| BugDetector.NodeBugsCounts | backend/app/utils/bug_detector.py:14-29 | the same for one node |
| BugDetector.BugCounts | backend/app/utils/bug_detector.py:12-29 | for a parsed tree: as many medium findings as `sum` targets, as many low findings as `pass` nodes, and nothing else |
| LogicChecker.LogicFlaws | backend/app/utils/gpt_logic_checker.py:7-60 | the value of `detect_logic_flaws`: the syntax message, or the arity flaws, the unreachable-code flaws and the optional assignment-in-`if` flaw. `SyntaxErrorFlaw` and `ParsedFlaws` carry its contract |
| LogicChecker.DetectLogicFlaws | backend/app/utils/gpt_logic_checker.py:7-60 | returns exactly `LogicFlaws(code, parsed)` |
| LogicChecker.CheckCalls | backend/app/utils/gpt_logic_checker.py:31-41 | the call scan gives `CallFlaws(nodes, arities)` |
| LogicChecker.CheckReturns | backend/app/utils/gpt_logic_checker.py:44-52 | the function scan gives `UnreachableFlaws(nodes)` |
| LogicChecker.FindEarlyReturn | backend/app/utils/gpt_logic_checker.py:47-52 | the scan of `body[:-1]` that stops at the first `return` finds one iff a statement other than the last is a `return` |
| LogicChecker.SyntaxErrorFlaw | backend/app/utils/gpt_logic_checker.py:18-21 | a parse failure yields exactly the one syntax message |
| LogicChecker.ArityMapSource | backend/app/utils/gpt_logic_checker.py:24-28 | a name in the dictionary comes from a definition in the walk. Its value is the positional-parameter count of the last definition of that name |
| LogicChecker.ArityMapListed | backend/app/utils/gpt_logic_checker.py:24-28 | every defined name is in the dictionary, and the last definition gives its value |
| LogicChecker.CallFlawSource | backend/app/utils/gpt_logic_checker.py:31-41 | every arity flaw comes from a call of a plain, defined name with another positional-argument count, and names the two counts |
| LogicChecker.CallFlawListed | backend/app/utils/gpt_logic_checker.py:31-41 | every such call is flagged |
| LogicChecker.CallFlawCount | backend/app/utils/gpt_logic_checker.py:31-41 | one flaw per mismatched call |
| LogicChecker.CallFlagged | backend/app/utils/gpt_logic_checker.py:32-41 | a plain-name call is flagged when its name is defined and the counts differ. Conversely, for a name without a quote, as every Python identifier is: a message for this name and this argument count is listed only when the name is defined, the counts differ, and the message's expected count is the definition's. So undefined names such as `print` are never flagged |
| LogicChecker.FlawedCallDefined | backend/app/utils/gpt_logic_checker.py:31-41 | a listed arity message naming a quote-free name implies that the name is defined, that its definition has another count, and that the message's expected count is the definition's |
| LogicChecker.ArityFlawInjective | backend/app/utils/gpt_logic_checker.py:38-41 | an arity message determines its name, argument count and expected count when the name holds no quote |
| LogicChecker.UnreachableFlawSource | backend/app/utils/gpt_logic_checker.py:44-52 | every unreachable-code flaw names a function with an early `return` |
| LogicChecker.UnreachableFlawListed | backend/app/utils/gpt_logic_checker.py:44-52 | every such function is reported |
| LogicChecker.UnreachableFlawCount | backend/app/utils/gpt_logic_checker.py:44-52 | one flaw per such function, so at most one per function |
| LogicChecker.ParsedFlaws | backend/app/utils/gpt_logic_checker.py:30-60 | all arity flaws come first, then the unreachable flaws, then at most one assignment-in-`if` flaw, present iff the pattern matches, with the counts above |
| PerformanceProfiler.LoopVisitor.constructor | backend/app/utils/performance_profiler.py:11-13 | both fields start at 0 |
| PerformanceProfiler.LoopVisitor.Visit | backend/app/utils/performance_profiler.py:15-28 | the depth comes back as it was. The maximum becomes the larger of the old maximum and the depth plus the node's loop depth |
| PerformanceProfiler.LoopVisitor.VisitLoop | backend/app/utils/performance_profiler.py:15-25 | `visit_For` and `visit_While`: the depth is raised for the children and restored after them |
| PerformanceProfiler.LoopVisitor.GenericVisit | backend/app/utils/performance_profiler.py:18 | visiting the children in turn reaches the deepest of them |
| PerformanceProfiler.VisitTree | backend/app/utils/performance_profiler.py:27-28 | a fresh visitor ends at depth 0, with the largest number of loops on any root-to-node path as its maximum |
| PerformanceProfiler.PerformanceIssues | backend/app/utils/performance_profiler.py:4-46 | the value of `detect_performance_issues`: the syntax issue, or the optional deep-nesting issue followed by each loop's call issues. `SyntaxErrorIssue`, `DeepNesting`, `CallIssueCounts` and `NoLoopsNoIssues` carry its contract |
| PerformanceProfiler.DetectPerformanceIssues | backend/app/utils/performance_profiler.py:4-46 | returns exactly `PerformanceIssues(parsed)` |
| PerformanceProfiler.ScanLoops | backend/app/utils/performance_profiler.py:33-41 | the outer walk gives `LoopIssues(nodes)` |
| PerformanceProfiler.ScanLoop | backend/app/utils/performance_profiler.py:35-41 | the inner walk of one loop gives that loop's issues |
| PerformanceProfiler.SyntaxErrorIssue | backend/app/utils/performance_profiler.py:43-44 | a parse failure yields exactly one issue |
| PerformanceProfiler.DeepNesting | backend/app/utils/performance_profiler.py:30-31 | the deep-nesting issue is present iff the loop depth is at least 3. It then comes first, and it never appears twice |
| PerformanceProfiler.CallIssueCounts | backend/app/utils/performance_profiler.py:33-41 | each `append` call gives one issue per loop whose subtree holds it, and so does each `sorted(...)` / `sort(...)` call |
| PerformanceProfiler.InLoopsNested | backend/app/utils/performance_profiler.py:33-38 | summing a tally over the subtree of every loop counts each node once per loop around it and including it |
| PerformanceProfiler.WalkNested | backend/app/utils/performance_profiler.py:33-35 | the same along the walk of the tree |
| PerformanceProfiler.LoopIssuesCounts | backend/app/utils/performance_profiler.py:33-41 | along the outer walk, the two issue counts are the `append` and sorting calls in each loop's subtree. No other issue occurs |
| PerformanceProfiler.WalkIssuesCounts | backend/app/utils/performance_profiler.py:35-41 | along one loop's walk, one issue per `append` call and one per sorting call |
| PerformanceProfiler.CallIssuesCounts | backend/app/utils/performance_profiler.py:36-41 | one node gives the `append` issue iff it is an `append` call, and the sorting issue iff it is a sorting call |
| PerformanceProfiler.MethodSortNotFlagged | backend/app/utils/performance_profiler.py:39-41 | a method call such as `xs.sort()` is not a sorting call |
| PerformanceProfiler.NoLoopsNoIssues | backend/app/utils/performance_profiler.py:30-41 | code without loops yields no issue |

## Left out

- The HTTP layer is not modelled: the endpoints, both `main.py` files, and the request and response schemas. `style_analysis.py` is also request handling.
  - The endpoint that merges the checkers' results computes the score before it appends the logic flaws to the warnings, and it never scores the bugs. That merge is not part of this model.
- Persistence (SQLAlchemy models, the database setup), PDF rendering and the frontend are I/O and are not part of this model.
- `ast.parse` is not modelled. Its outcome is an input: `Some(tree)`, or `None` for a `SyntaxError`.
- Syntax trees model only the node kinds the checkers test for. Every other kind is `Other(children)` with its children in field order. The `ctx` leaves of names are dropped: no checker reads them, and leaves do not change the order in which the walk meets the other nodes. `AsyncFor` and `AsyncFunctionDef` are `Other`, as the checkers also ignore them. A function definition's `trailing` children are the nodes of its fields after the body, in field order: the decorators, the return annotation and the type parameters.
- `SyntaxTree.Arity`: a function whose `arguments` child is not an arguments node counts 0 parameters. Python always builds one, so this case does not arise.
- The regular expressions are modelled as hand-written scans of their own patterns, not by a regex engine. `\w` and the `[a-zA-Z0-9_]` classes are ASCII only, and so is `lower()`. `\s`, `split()`, `strip()` and `str.isspace` use Python's full whitespace set: U+0009–U+000D, U+001C–U+0020, U+0085, U+00A0, U+1680, U+2000–U+200A, U+2028, U+2029, U+202F, U+205F and U+3000.
- The `imports` dict's values, the import lines, are stored but never read. The model keeps the dict's keys only.
- Python strings are `seq<char>`. No Unicode normalisation or case folding beyond ASCII is modelled.
- The concrete test scenarios of `backend/tests/test_style_checker.py` are not replayed as lemmas on their literal inputs. Their expectations follow from `StyleChecker.PythonReportCounts`, `StyleChecker.PythonReportTips`, `StyleChecker.ReportScoreFromLists` and `StyleChecker.RepeatedCall`. Evaluating the scans over those literal texts is beyond what the verifier does unaided.
- `PerformanceProfiler.InLoopsNested`: stated for tallies other than the nested tally itself. The profiler needs it only for `append` and sorting calls.
