# SnapStart hazard scanner for Python — a Dafny model

The scanner reads a Python module's syntax tree and reports code that runs at import
time and would misbehave once an AWS Lambda SnapStart snapshot is restored. It flags:

- mutable module state (PY001);
- non-idempotent side-effect calls (PY002);
- background threads and executors (PY003);
- sockets and files opened at import (PY004);
- randomness, time and UUIDs computed at import (PY005);
- boto3 clients (PY006);
- `/tmp` and `tempfile` use (PY007);
- a missing-runtime-hooks meta-finding (PY008).

This project models the scanner's core and proves properties about it:

- **The module-level visitor**, as a class with the visitor's own mutable fields:
  - its `visit_Module`, `visit_FunctionDef`, `leave_Module` and `_emit` operations;
  - dotted-name resolution;
  - the `# snapstart: ignore[...]` suppression comments.
- **The `Finding` record** and the exit-code policy.
- **The configuration:** defaults, severity lookup, path exclusion and the merge of a user file over the defaults.
- **The report helpers:** severity and rule counts, order-preserving grouping and context windows.
- **Two command-line helpers:** comma-list splitting and context-snippet formatting (`format_context`). Nothing in `cli.py` calls `format_context`.

Each stateful operation is a method. Its contract says how it changes the state, stated as
a pure function of the old state and the inputs. The lemmas then prove what the scanner
promises about those functions:

- which rules a statement can trigger;
- how suppression comments decide;
- that compound statements are never flagged;
- that PY008 appears at most once, last, and exactly when it should;
- that counts sum to the number of findings;
- that groups keep every finding in its original order.

Files:

- `rule_ids.dfy`: the eight rule ids and the rule sets.
- `wrappers.dfy`: `Option`.
- `text.dfy`: Python `str` operations on ASCII (strip, split, join, upper/lower, right-aligned numbers).
- `syntax.dfy`: the closed set of node shapes the rules look at.
- `findings.dfy`, `config.dfy`, `rules.dfy`, `report.dfy`, `cli.dfy`: one module per source file.
- `rules_props.dfy`: the properties of the rule set.

Where the code and its prose description differ, the model follows the code:

- A rule id missing from the severity map gets `"WARN"`, not the rule's built-in level
  (`snapstart_py_scanner/rules.py:202`, `snapstart_py_scanner/config.py:55`).
  `Config.LoadedSeverity` shows when this matters: only for ids that are neither built in nor configured.
- PY002, PY004, PY005, PY006 and PY007 are checked only for bare expression-statement calls.
  An assignment such as `r = requests.get(u)` triggers none of them (`RuleProperties.AssignmentRules`).
- `dotted_name` of an attribute chain whose root is not a plain name keeps the attribute
  suffix: `f().a.b` gives `"a.b"` (`RuleProperties.DottedNameExample`).
- A comment with `[` but no `]` is a blanket suppression (`RuleProperties.UnclosedBracketSilencesAll`).
- The two PY003 paths are independent; the `.start()` path requires the receiver itself to be a call.
  So `x = threading.Thread()` then `x.start()` gives exactly one PY003
  (`RuleProperties.ThreadAssignLine`, `RuleProperties.NameStartLine`).
  The `.start()` path consults only the leading comment lines, so a trailing blanket ignore
  leaves it in force (`RuleProperties.TrailingBlanketKeepsStartPass`).
- `severity_counts` upper-cases levels and falls back to `"WARN"`. The HTML path does not use it:
  it counts raw levels.

## Model

| member | source | states |
|---|---|---|
| RuleIds.MetaRuleSeparate | snapstart_py_scanner/rules.py:20-27 | the meta-rule PY008 is not one of the per-statement rules |
| Rules.DottedName | snapstart_py_scanner/rules.py:45-55 | a bare name resolves to itself; an expression that is neither a name nor an attribute resolves to "" |
| Rules.ComputeDottedName | snapstart_py_scanner/rules.py:45-55 | the loop that collects attribute names and reverses them returns exactly `DottedName` of the node |
| RuleProperties.SegmentsOfChain | snapstart_py_scanner/rules.py:48-51 | walking an attribute chain collects the root's segments followed by the attribute names in source order |
| RuleProperties.DottedNameOfNameChain | snapstart_py_scanner/rules.py:45-55 | a name-rooted chain `r.a1...an` resolves to "r.a1...an" |
| RuleProperties.DottedNameOfInterruptedChain | snapstart_py_scanner/rules.py:48-55 | a chain whose root is neither a name nor an attribute resolves to its attribute names alone, joined by dots |
| RuleProperties.DottedNameExample | snapstart_py_scanner/rules.py:48-55 | `f().a.b` resolves to "a.b", not "" |
| Rules.HasInlineIgnore | snapstart_py_scanner/rules.py:57-75 | the loop with early return computes `Ignores`: the first directive comment decides, and without one the answer is false |
| RuleProperties.NoDirectiveNoIgnore | snapstart_py_scanner/rules.py:58-75 | comments without a directive (blank ones included) never suppress any rule |
| RuleProperties.FirstDirectiveAppend | snapstart_py_scanner/rules.py:58-69 | the directive seen in `a + b` is that of `a` when `a` has one, otherwise that of `b` |
| RuleProperties.IgnoresAppend | snapstart_py_scanner/rules.py:58-75 | comments after the first directive have no effect; comments without a directive before it have none either |
| RuleProperties.FirstDirectiveDecides | snapstart_py_scanner/rules.py:58-74 | the first directive comment alone decides, whatever follows it |
| RuleProperties.MarkedText | snapstart_py_scanner/rules.py:68 | stripping the leading `#`/space marks and whitespace from "# txt" gives back txt |
| RuleProperties.BracketedIds | snapstart_py_scanner/rules.py:70-72 | the ids listed are the trimmed non-empty comma pieces between the first `[` and the next `]` |
| RuleProperties.BracketDirectiveDecides | snapstart_py_scanner/rules.py:69-73 | `# snapstart: ignore[...]` suppresses a rule iff the rule is among the trimmed, non-empty, comma-separated ids inside the brackets |
| RuleProperties.SingleDirective | snapstart_py_scanner/rules.py:68-74 | a single directive comment decides as its stripped text says |
| RuleProperties.ListedIdsJoin | snapstart_py_scanner/rules.py:72 | ids that are trimmed and comma-free are read back from their comma-joined list unchanged |
| RuleProperties.DirectiveListsIds | snapstart_py_scanner/rules.py:69-73 | `ignore[id1,...,idn]` suppresses exactly the rules id1 to idn |
| RuleProperties.BareDirectiveSilencesAll | snapstart_py_scanner/rules.py:69-74 | a directive without a bracket pair suppresses every rule |
| RuleProperties.SideEffectRules | snapstart_py_scanner/rules.py:122-126 | the side-effect table only ever yields PY002 hits |
| RuleProperties.ResourceRules | snapstart_py_scanner/rules.py:128-139 | the boto3, socket and file checks only yield statement rules |
| RuleProperties.SnapshotStateRules | snapstart_py_scanner/rules.py:141-154 | the nondeterminism and /tmp checks only yield statement rules |
| RuleProperties.CallRules | snapstart_py_scanner/rules.py:116-154 | a bare call yields only per-statement rules, never PY008 |
| RuleProperties.FirstPassRules | snapstart_py_scanner/rules.py:107-161 | the first pass over one small statement yields only statement rules |
| RuleProperties.AssignmentRules | snapstart_py_scanner/rules.py:109-161 | an assignment yields only PY001 or PY003, and nothing on the `.start()` pass: call rules need a bare call statement |
| RuleProperties.FirstPassAllRules | snapstart_py_scanner/rules.py:107-161 | the first pass over a whole line yields only statement rules |
| RuleProperties.StartPassAllRules | snapstart_py_scanner/rules.py:164-174 | the second pass yields nothing but "Thread started" PY003 hits |
| RuleProperties.LineRules | snapstart_py_scanner/rules.py:98-174 | a top-level statement yields only statement rules, and a compound statement yields nothing |
| RuleProperties.EmittedHits | snapstart_py_scanner/rules.py:181-208 | emitting a list of hits appends one finding per hit, in order, each built by `_emit` |
| RuleProperties.EmittedRules | snapstart_py_scanner/rules.py:200-208 | emitted findings carry the rule ids of their hits |
| RuleProperties.BodyFindingsRules | snapstart_py_scanner/rules.py:98-174 | every finding of the statement walk has a rule in PY001 to PY007 |
| RuleProperties.CompoundOnlyBody | snapstart_py_scanner/rules.py:98-106 | a body with no simple statement lines yields no statement findings |
| RuleProperties.CompoundLine | snapstart_py_scanner/rules.py:106 | a compound statement (def, class, if, ...) yields no findings, whatever it contains |
| RuleProperties.CompoundOnlyModule | snapstart_py_scanner/rules.py:97-178 | a module made only of compound statements gets no findings at all, not even PY008 |
| RuleProperties.SilencesAllIgnores | snapstart_py_scanner/rules.py:69-74 | a comment list whose first directive has no bracket pair suppresses every rule |
| RuleProperties.SilencedSideEffects | snapstart_py_scanner/rules.py:123-126 | under a blanket ignore the side-effect table yields nothing |
| RuleProperties.SilencedBareCall | snapstart_py_scanner/rules.py:116-154 | under a blanket ignore a bare call yields nothing |
| RuleProperties.SilencedSmall | snapstart_py_scanner/rules.py:107-161 | under a blanket ignore the first pass over a small statement yields nothing |
| RuleProperties.SilencedFirstPass | snapstart_py_scanner/rules.py:107-161 | under a blanket ignore the first pass over a line yields nothing |
| RuleProperties.SilencedStartPass | snapstart_py_scanner/rules.py:164-174 | a blanket ignore among the leading lines silences the `.start()` pass |
| RuleProperties.UnsilencedStartPass | snapstart_py_scanner/rules.py:173 | leading lines with no directive leave the `.start()` pass as if there were no comments |
| RuleProperties.LeadingBlanketSilences | snapstart_py_scanner/rules.py:98-104 | a first leading directive without brackets governs both the leading comments and the full comment list |
| RuleProperties.LeadingBlanketSilencesLine | snapstart_py_scanner/rules.py:98-174 | a blanket ignore on the first leading directive line silences every rule for that statement |
| RuleProperties.TrailingBlanketSilences | snapstart_py_scanner/rules.py:102-104 | a trailing blanket ignore, with no leading directive, governs the line's comment list |
| RuleProperties.TrailingBlanketKeepsStartPass | snapstart_py_scanner/rules.py:102-174 | a trailing blanket ignore silences the first pass but not the `.start()` PY003, which only reads leading lines |
| RuleProperties.HooksSeenEmpty | snapstart_py_scanner/rules.py:92-95 | no hook is recorded iff no function definition, at any depth, has a hook name |
| RuleProperties.MetaFinding | snapstart_py_scanner/rules.py:176-178 | the scan is the statement findings, followed by one PY008 at the module node iff one of them is hazardous and no hook is defined |
| RuleProperties.RuleCountAbsent | snapstart_py_scanner/rules.py:176-178 | findings restricted to other rules contain no occurrence of the rule |
| RuleProperties.OnlyLast | snapstart_py_scanner/rules.py:176-178 | appending one finding of a rule absent from the body gives exactly one occurrence |
| RuleProperties.MetaFindingOnceLast | snapstart_py_scanner/rules.py:176-178 | PY008 occurs exactly once when hazardous findings exist without hooks, and otherwise never |
| RuleProperties.NoSideEffectModule | snapstart_py_scanner/rules.py:123-126 | a name whose leading segment is not requests, subprocess or os never gets PY002 |
| RuleProperties.PlainCall | snapstart_py_scanner/rules.py:116-154 | a bare call of a name in none of the tables yields no finding |
| RuleProperties.OpenTmpFile | snapstart_py_scanner/rules.py:137-151 | `open("/tmp/x")` yields PY004 ("File opened") followed by PY007 ("/tmp") |
| RuleProperties.SingleSmallLine | snapstart_py_scanner/rules.py:98-174 | a comment-free line with one small statement yields its first pass, then its second pass |
| RuleProperties.ThreadAssignLine | snapstart_py_scanner/rules.py:157-161 | `x = threading.Thread()` yields exactly one PY003 with the "Background thread/executor 'threading.Thread'" message |
| RuleProperties.NameStartLine | snapstart_py_scanner/rules.py:164-174 | `x.start()` yields nothing: the receiver is a name, not a call |
| RuleProperties.ConstructedStart | snapstart_py_scanner/rules.py:166-174 | `C().start()` with `C` ending in "Thread" passes no first-pass rule and fires the "Thread started" PY003 |
| RuleProperties.ConstructedStartLine | snapstart_py_scanner/rules.py:164-174 | such a line yields exactly one "Thread started" PY003 |
| RuleProperties.ThreadStartLine | snapstart_py_scanner/rules.py:164-174 | `threading.Thread().start()` yields exactly one "Thread started" PY003 |
| RuleProperties.UnclosedBracketSilencesAll | snapstart_py_scanner/rules.py:69-74 | a directive with `[` but no `]` suppresses every rule, whatever follows the bracket: nothing, whitespace or ids |
| RuleProperties.UnclosedBracketExample | snapstart_py_scanner/rules.py:69-74 | `# snapstart: ignore[PY001` suppresses every rule, not only PY001 |
| Rules.Snippet | snapstart_py_scanner/rules.py:189-198 | the snippet is the stripped line, "" when the line number is out of range, and never longer than 160 characters (157 plus "...") |
| Rules.MakeFinding | snapstart_py_scanner/rules.py:181-208 | the finding has the given rule and message, level `Config.SeverityOf` of the map, that is `sev.get(rule, "WARN")`, position (1, 0) when none is known, and the snippet of its line |
| Rules.ModuleLevelVisitor.constructor | snapstart_py_scanner/rules.py:80-87 | the visitor starts with no findings, no hooks seen, no nodes, and the hook names as a set |
| Rules.ModuleLevelVisitor.VisitModule | snapstart_py_scanner/rules.py:89-90 | records the module's direct body statements and changes nothing else |
| Rules.ModuleLevelVisitor.VisitFunctionDef | snapstart_py_scanner/rules.py:92-95 | adds the name to the hooks seen iff it is a hook name |
| Rules.ModuleLevelVisitor.CodeSnippet | snapstart_py_scanner/rules.py:189-198 | the snippet `_emit` builds is `Rules.Snippet` of the visitor's source lines: the stripped line, cut to 157 characters plus "..." when longer than 160, empty outside the file |
| Rules.ModuleLevelVisitor.Emit | snapstart_py_scanner/rules.py:181-208 | appends exactly one finding, `MakeFinding`, and changes nothing else |
| Rules.ModuleLevelVisitor.EmitWhen | snapstart_py_scanner/rules.py:112-113 | emits the rule's finding iff the condition holds and the comments do not suppress it; its text is `Rules.Message.Rendered`, one of the eleven message texts of rules.py:113-178 |
| Rules.ModuleLevelVisitor.CheckSideEffects | snapstart_py_scanner/rules.py:122-126 | appends one PY002 finding per side-effect table entry that matches |
| Rules.ModuleLevelVisitor.CheckResources | snapstart_py_scanner/rules.py:128-139 | appends the PY006 and PY004 findings in source order |
| Rules.ModuleLevelVisitor.CheckSnapshotState | snapstart_py_scanner/rules.py:141-154 | appends the PY005 and both PY007 findings in source order |
| Rules.ModuleLevelVisitor.CheckCall | snapstart_py_scanner/rules.py:116-154 | appends the findings of the bare-call rules in the fixed order PY002, PY006, PY004, PY005, PY007 |
| Rules.ModuleLevelVisitor.CheckBareCall | snapstart_py_scanner/rules.py:116-117 | only an expression statement whose value is a call is checked by the call rules |
| Rules.ModuleLevelVisitor.CheckThreadAssign | snapstart_py_scanner/rules.py:156-161 | appends PY003 for an assignment of a call to a thread or executor constructor |
| Rules.ModuleLevelVisitor.CheckSmall | snapstart_py_scanner/rules.py:108-161 | appends PY001, then the call rules, then the assignment PY003, for one small statement |
| Rules.ModuleLevelVisitor.CheckStart | snapstart_py_scanner/rules.py:166-174 | appends PY003 for `C(...).start()` with `C` ending in "Thread", unless the leading lines suppress it |
| Rules.ModuleLevelVisitor.FirstPass | snapstart_py_scanner/rules.py:107-161 | appends the first-pass findings of every small statement of a line, in order |
| Rules.ModuleLevelVisitor.StartPass | snapstart_py_scanner/rules.py:164-174 | appends the second-pass findings of every small statement of a line, in order |
| Rules.ModuleLevelVisitor.CheckLine | snapstart_py_scanner/rules.py:98-174 | gathers leading and trailing comments and appends both passes' findings for a simple line; appends nothing for a compound statement |
| Rules.ModuleLevelVisitor.CheckStatements | snapstart_py_scanner/rules.py:98-174 | appends the findings of every recorded top-level statement, in order |
| Rules.ModuleLevelVisitor.LeaveModule | snapstart_py_scanner/rules.py:97-178 | appends the statement findings, then PY008 iff some finding so far is hazardous and no hook was seen |
| Rules.ModuleLevelVisitor.Walk | snapstart_py_scanner/rules.py:89-178 | visiting the module, then every definition at any depth, then leaving the module, gives the recorded body, the hook set and the findings the specification functions describe |
| Rules.Scan | snapstart_py_scanner/rules.py:80-178 | a fresh visitor walked over a module reports exactly `ScanModule` |
| Findings.ToDict | snapstart_py_scanner/findings.py:28-29 | the dictionary has exactly the seven fields, and reading it back with its partner `Findings.FromDict` gives the same finding |
| Findings.AnyError | snapstart_py_scanner/findings.py:35 | true iff some finding's upper-cased level is "ERROR" |
| Findings.ExitCode | snapstart_py_scanner/findings.py:31-38 | the exit code is always 0, 1 or 2. NEVER gives 0; ERROR gives 2 iff some upper-cased level is ERROR, else 0; WARN gives 1 iff there are findings, else 0; any other policy gives 0 |
| Config.RuleConfig.Sev | snapstart_py_scanner/config.py:54-55 | the configured level of the rule, or "WARN" when it has none |
| Config.Slashed | snapstart_py_scanner/config.py:58 | same length, each backslash becomes `/`, no backslash is left, and every other character is unchanged |
| Config.RuleConfig.PathIgnored | snapstart_py_scanner/config.py:57-65 | true iff some ignore pattern or some extra exclude matches the slashed path |
| Config.DefaultSeverities | snapstart_py_scanner/config.py:22-32 | ERROR for PY002, PY003, PY004 and PY006; WARN for PY001, PY005, PY007 and PY008 |
| Config.LoadConfig | snapstart_py_scanner/config.py:67-87 | with no file, the defaults. Otherwise each present non-null field replaces its default, user severities override and extend the defaults, exit_on is upper-cased and format lower-cased |
| Config.LoadedSeverity | snapstart_py_scanner/config.py:54-55 | after loading, a rule's level is the user's entry, else its built-in level, else "WARN" |
| Report.TallyCounts | snapstart_py_scanner/report.py:69-73 | counting keys from a base map gives each key its base count plus its number of occurrences |
| Report.TallySum | snapstart_py_scanner/report.py:60-73 | counting from all-zero entries over distinct keys gives counts that sum to the number of keys counted |
| Report.CountsMeaning | snapstart_py_scanner/report.py:60-73 | a key is counted iff it is in the base or some finding has it; its count is the base plus its occurrences |
| Report.CountsTotal | snapstart_py_scanner/report.py:60-73 | counts over a zero base sum to the number of findings |
| Report.SeverityCountsMeaning | snapstart_py_scanner/report.py:60-67 | ERROR, WARN and INFO are always keys. Each finding is counted once under its `Report.Field.Of` key for `SeverityKey`, that is `upper(level or "WARN")`, and the counts sum to the number of findings |
| Report.RuleCountsMeaning | snapstart_py_scanner/report.py:69-73 | exactly the rule ids that occur are keys, each with its number of occurrences, and the counts sum to the number of findings |
| Report.CountInto | snapstart_py_scanner/report.py:62-66 | the counting loop computes `Tally` of the findings' keys |
| Report.SeverityCounts | snapstart_py_scanner/report.py:60-67 | the loop computes the severity tally from the ERROR/WARN/INFO zeroes |
| Report.RuleCounts | snapstart_py_scanner/report.py:69-73 | the loop computes the rule-id tally from an empty map |
| Report.Context | snapstart_py_scanner/report.py:33-43 | the window is exactly the lines `max(1, ln-ctx)` to `min(len, ln+ctx)`, contiguous and increasing, newlines stripped, marked as hit iff the line is `ln` |
| Report.ContextHasOneHit | snapstart_py_scanner/report.py:36-43 | a finding whose line is in the file has exactly one hit line in its window |
| Report.WithContext | snapstart_py_scanner/report.py:30-46 | the line-by-line loop builds exactly `Context` around the finding |
| Report.Select | snapstart_py_scanner/report.py:48-58 | the findings selected for a key all have that key, and there are no more of them than findings |
| Report.EnrichAll | snapstart_py_scanner/report.py:90 | enriches every finding, in order |
| Report.GroupMeaning | snapstart_py_scanner/report.py:48-58 | the groups are keyed by exactly the keys that occur. Each group is the enriched findings with that key, in their original order |
| Report.SelectCount | snapstart_py_scanner/report.py:48-58 | a group holds as many findings as its key occurs, so every finding lands in exactly one group |
| Report.GroupSizes | snapstart_py_scanner/report.py:48-58 | group sizes equal the occurrence counts of their keys |
| Report.GroupKeys | snapstart_py_scanner/report.py:48-58 | a key has a group iff it has a count |
| Report.GroupSize | snapstart_py_scanner/report.py:48-58 | each group's size is its key's count |
| Report.GroupBy | snapstart_py_scanner/report.py:49-51 | the `setdefault(...).append` loop builds exactly `Group` |
| Report.GroupByRule | snapstart_py_scanner/report.py:48-52 | grouping by rule id with a two-line context |
| Report.GroupByFile | snapstart_py_scanner/report.py:54-58 | grouping by file name with a two-line context |
| Report.HtmlReportData | snapstart_py_scanner/report.py:80-95 | the HTML counts are raw-level counts with ERROR, WARN and INFO defaulting to 0; rule counts; findings grouped by raw level in order |
| Report.Counter | snapstart_py_scanner/report.py:81-84 | `Counter` plus three `setdefault(k, 0)` equals counting from the all-zero map |
| Report.ZeroDefaults | snapstart_py_scanner/report.py:82-84 | adding the missing severity keys at 0 to a count is the same as counting from the zeroes |
| Cli.CommaList | cli.py:27-31 | None and "" give []; every element is non-empty, trimmed and comma-free |
| Cli.CommaListJoin | cli.py:27-31 | a list of trimmed, comma-free values is recovered, in order, from its comma-joined form |
| Cli.Rows | cli.py:43-46 | one row per index in `[max(0, lineno-1-ctx), min(len, lineno+ctx))` |
| Cli.FormatContext | cli.py:41-49 | the loop joins exactly the window's rows with newlines |
| Cli.RowsAt | cli.py:46-48 | row k is the formatted line at index start + k |
| Cli.RowMarked | cli.py:47 | a row starts with the arrow iff it is line `lineno`; every other row starts with two spaces |
| Cli.RowLayout | cli.py:48 | `Cli.Row` is the arrow or two spaces, then the number right-aligned to width 4, a space-bar-space separator and the line with its trailing whitespace stripped |
| Cli.OneMarkedRow | cli.py:43-47 | when `lineno` is in the file, exactly one row carries the arrow |
| Cli.EmptyWindow | cli.py:49 | an empty window formats as "" |
| Cli.PaddedNumberChars | cli.py:48 | the number column holds only spaces and digits |
| Cli.RowWithoutNewline | cli.py:48 | a row holds no newline when its stripped line holds none |
| Cli.SnippetLines | cli.py:49 | splitting the snippet on newlines gives back the rows |

## Left out

- Parsing, the syntax-tree library and its metadata are not modelled:
  - libcst keeps the comment lines above a module's first statement in the module header,
    not in that statement's leading lines, so the scanner never sees them. `Syntax.Module` still accepts
    leading lines on the first statement, which such a parse would not produce.
  - the module arrives as a value of the closed `Syntax` datatypes;
  - node positions come from an oracle `NodeRef -> Option<Position>`;
  - `None` stands for both missing metadata and a failed lookup (`snapstart_py_scanner/rules.py:182-187`).
- The tree traversal is `Rules.ModuleLevelVisitor.Walk`: visit the module, then every function definition in pre-order, then leave the module.
  Visitor hooks for other node types do nothing in the source and are not modelled.
- Decoding escapes in string literals is not modelled: a string literal carries its already-decoded value.
  A bytes literal is not a `str`, so it never starts a `/tmp/` path.
- File reading is not modelled; the lines arrive as values:
  - `_read_lines` (`snapstart_py_scanner/report.py:23-27`) becomes a `readLines` parameter;
  - `load_source_lines` (`cli.py:33-39`) becomes the caller's `lines`;
  - the visitor's `source_text.splitlines()` becomes `sourceLines`.
- Config.RuleConfig.PathIgnored: glob matching (`fnmatch`) is an uninterpreted `matches` parameter, not a model of glob syntax.
- Config.LoadConfig:
  - YAML loading and the file-existence check are not modelled.
  - The parsed file arrives as a typed `UserConfig` whose fields are `None` when their key is absent or null.
  - Values of other YAML types, which `str(...)` would convert, are out of scope.
  - The merge is computed as a value rather than by assigning dictionary keys in place.
- The shared mutable default dictionaries of `RuleConfig` (`snapstart_py_scanner/config.py:48, 50`) are not modelled: the model has values, not aliases.
- Text handling is ASCII only:
  - `Text.Upper`, `Text.Lower` and `Text.Strip` cover ASCII letters and ASCII whitespace;
  - Unicode case mapping and Unicode whitespace are not modelled.
- Report rendering is not modelled:
  - the command-line entry point `main` (`cli.py:51-103`): argument parsing, console output, exit;
  - the Jinja2 environment and template rendering, writing the HTML file, and the final message of `render_html_report`;
  - `snapstart_py_scanner/scanner.py` (directory walk, parse-error handling, console output) is not part of this model.
- Python dictionaries keep insertion order; the model's maps do not. The key order of
  `severity_counts` is ERROR, WARN, INFO, then first occurrence. Groups, rule counts and the
  HTML counts follow first occurrence. None of the modelled operations depends on that order;
  only the template that iterates the maps does.
- Report.Counter: models what the counting produces, not Python's `Counter` class or `defaultdict`.
  The counts use unbounded naturals; grouped values are sequences in insertion order.
