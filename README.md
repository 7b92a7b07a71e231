# CMYK G-code tool switcher, modelled in Dafny

`CMYK.py` post-processes the G-code of a multi-tool printer so that it prints
layer by layer in a repeating colour pattern. The core of it is the
`GCodeToolSwitcher` class. It has three parts.

- `parse_layers` splits the text on `'\n'`. It records every line that holds
  `;LAYER_CHANGE`.
- `calculate_tool_distribution` turns a ratio pattern into a tool for every
  layer. Tool `i` gets `int(count_i)` layers, plus one more when `count_i`
  has a fraction. That block repeats until every layer has a tool.
- `modify_gcode` makes one forward pass over a copy of the lines. It follows
  the layer boundaries and remembers two tools: the one scheduled for the
  current layer and the one believed mounted (`active_tool`). Five
  recognisers are tried on each line, in order: park, pickup, `M104.1`
  temperature switch, parametrised `T S L D` command, and bare `T…;`. Each one
  can retarget the tool number or replace the line by a "skipped" comment.

`process_file` chains these three once the file has been read. The small
`hex_to_rgb` / `rgb_to_hex` helpers of the GUI are modelled as well.

The Dafny modules follow that structure:

| module | file | what it holds |
|---|---|---|
| `Wrappers` | `wrappers.dfy` | `Option` and `Result` |
| `Text` | `text.dfy` | character classes of `\d`, `\s` and `\w`; `int()` and `str()` on digit strings; `in` on strings; `split('\n')` and `'\n'.join` |
| `Patterns` | `patterns.dfy` | the five regular expressions as token lists: anchored matching, leftmost `search`, `re.sub`, the `;.*$` comment and `P/Q/S(\d+)` |
| `LayerLocator` | `layer_locator.dfy` | `parse_layers`, as a loop proved against `MarkerLines` |
| `ToolScheduler` | `tool_scheduler.dfy` | `calculate_tool_distribution`, as the nested loops proved against `Schedule`, with its properties |
| `CommandRewriter` | `command_rewriter.dfy` | one function per recogniser (`…Stage`), the line step, the pass as a fold (`RunUpTo`, `Rewrite`), and `modify_gcode` as a method over an array proved equal to `Rewrite` |
| `RewriterProperties` | `rewriter_properties.dfy` | what each recogniser does to one line |
| `PassProperties` | `pass_properties.dfy` | what the whole pass does: which lines change, which tool each line is moved to, what the mounted tool can be, when the pass fails |
| `ToolLines` | `tool_lines.dfy` | plain tool lines `T<n> S<s> L<l> D<d>…` and bare selects `T<n>;`: how the pickup, parametrised and bare recognisers read and rewrite them |
| `SwitchLines` | `switch_lines.dfy` | `M104.1` lines of the standard shape and park lines |
| `Pipeline` | `pipeline.dfy` | the middle of `process_file` |
| `Colors` | `colors.dfy` | `hex_to_rgb` (with `int(x, 16)`) and `rgb_to_hex` (with the `02x` format) |

Reading and writing the files is left to the caller, like the rest of the
GUI. `ProcessFile` takes the text that was read and returns the text to write.

## Notes on behaviour

- **Scheduler.** One round gives tool `i` `Appends(count_i)` layers: `int(count_i)`, plus one when `count_i % 1 > 0`. The round repeats cyclically until every layer has a tool (`CMYK.py:40-54`). Layer `j` gets the round's entry `j mod |round|` (`ToolScheduler.CyclicPrefixAt`).
- **`Q` values.** An existing `Q` value of an `M104.1` line is kept as it is. A missing one is `P + current_tool + 1` (`CMYK.py:94`). So `M104.1 T2 P120 Q123 S210 ; switch to tool 2`, moved to tool 4, becomes `M104.1 T4 P120 Q123 S210 ; switch to tool 2` (`SwitchLines.SwitchExample`).
- **Which line the checks read.** Every recogniser reads the original line,
  not what an earlier recogniser wrote. When several fire, the last write wins
  (`RewriterProperties.PickupOverwritten`).
- **No limit on tools.** Any number of ratio entries and tool names is
  allowed. A tool number with no name is the `IndexError` of the source. It
  becomes the error result `ToolNameIndex(line, tool)`.

## Model

| member | source | states |
|---|---|---|
| Text.SplitLines | CMYK.py:34 | `split('\n')` yields at least one piece and no piece holds a line feed |
| Text.JoinSplit | CMYK.py:34 | joining the split lines with `'\n'` gives back the text exactly |
| Text.SplitJoin | CMYK.py:132 | splitting lines joined with `'\n'` gives back those lines, when none holds a line feed |
| Text.NatToString | CMYK.py:77 | `str(n)` is a non-empty digit string, with a leading zero only for `0`, that `int()` reads back as `n` |
| Text.ContainsInSplitLine | CMYK.py:34-36 | a marker found in one line of the split text is in the text |
| LayerLocator.MarkerLinesUpTo | CMYK.py:35-37 | the recorded indices are increasing, below the bound, and an index is recorded exactly when its line contains `;LAYER_CHANGE` |
| LayerLocator.ParseLayers | CMYK.py:31-38 | returns the split lines and the marker positions: strictly increasing, each below the line count, and index `i` present if and only if line `i` contains the marker |
| LayerLocator.NoMarkerNoLayers | CMYK.py:31-38 | a text without `;LAYER_CHANGE` has no layers |
| ToolScheduler.AppendsIsCeiling | CMYK.py:45-51 | for a non-negative count, `int(count)` appends plus one when `count % 1 > 0` is `ceil(count)`, and zero only for a zero count |
| ToolScheduler.CalculateToolDistribution | CMYK.py:40-54 | the nested loops with their breaks produce exactly `Schedule(total, ratio)`, the first `total` entries of the repeated block |
| ToolScheduler.Appended | CMYK.py:46-51 | each append inside the loops extends the partial block by the current index, and once the length reaches `total` the sequence is the cyclic prefix |
| ToolScheduler.RoundStep | CMYK.py:44-51 | finishing one ratio entry leaves the sequence at the block up to the next entry |
| ToolScheduler.CyclicPrefixRounds | CMYK.py:43-53 | `total` entries made of whole blocks and a partial block are the rounds followed by the block's first entries |
| ToolScheduler.CyclicPrefixAt | CMYK.py:43-53 | layer `j` gets the block entry at `j` modulo the block length |
| ToolScheduler.BlockUpToMembers | CMYK.py:44-51 | a tool index is in the block exactly when it is a pattern index and `Appends(count) > 0` |
| ToolScheduler.ScheduleShape | CMYK.py:40-54 | the sequence has one entry per layer, each a valid ratio index with `Appends(count) > 0`, so a tool with count 0 never appears |
| ToolScheduler.ScheduleEmpty | CMYK.py:43 | no layers give an empty sequence for any ratio, even one with no positive count |
| ToolScheduler.ScheduleUsesEveryTool | CMYK.py:43-53 | once there are at least as many layers as the block is long, every tool with `Appends(count) > 0` is used |
| ToolScheduler.PositiveSumGivesLayers | CMYK.py:274 | a ratio pattern with a positive sum, the guard of the GUI, has a non-empty block, so the scheduler finishes |
| ToolScheduler.HelpTextExample | CMYK.py:206-209 | the ratio `(2:1)` over six layers gives tools 0,0,1,0,0,1 |
| Patterns.DigitSpan | CMYK.py:25-29 | the `\d+` run at a position is maximal: digits up to it and a non-digit or the end after it |
| Patterns.SpaceSpan | CMYK.py:25-29 | the `\s+` run at a position is maximal, with the `str.isspace` characters |
| Patterns.MatchFrom | CMYK.py:25-29 | a match of a token list ends within the text, after at least its literal characters, and its group is digits |
| Patterns.SearchFrom | CMYK.py:68 | `search` returns the leftmost position with a match: none before it, and none at all when it returns nothing |
| Patterns.Find | CMYK.py:75 | group 1 of `search` is present exactly when the pattern occurs, and is a digit string |
| Patterns.SubFrom | CMYK.py:77 | `re.sub` from a position with no match after it returns the rest of the text unchanged |
| Patterns.SubFromLeftmost | CMYK.py:77 | when the search from a position finds its leftmost match at `k`, ending at `e > k`, `re.sub` keeps the text up to `k`, writes the replacement, and goes on from `e` |
| Patterns.SubAll | CMYK.py:112 | `re.sub` without a match returns the line unchanged; with one, it keeps the text before the leftmost match, puts the replacement in its place, and goes on after it |
| Patterns.SubAtStart | CMYK.py:119 | `re.sub(r'^T\d+', …)` replaces only a match at the start of the line, and keeps the line without one |
| Patterns.CommentFound | CMYK.py:97 | `;.*$` returns the text from a `;` where it matches up to the end of the line, and nothing exactly when it matches nowhere |
| Patterns.CommentOfLine | CMYK.py:97-99 | on a single line, the comment is everything from the first `;` on |
| Patterns.CommentShift | CMYK.py:97 | searching for the comment inside a suffix gives the same comment as searching the suffix alone |
| Patterns.CommentSkip | CMYK.py:97 | a prefix without `;` does not change the comment found |
| Patterns.ParamGroupNonEmpty | CMYK.py:90-93 | a found `P(\d+)` value has at least one digit |
| Patterns.M104Lead | CMYK.py:85-87 | a line that starts `M104.1 T` and a digit run yields that run as the old tool |
| Patterns.FindParamHere | CMYK.py:90-92 | a letter followed by digits yields those digits |
| Patterns.ParamMatchHere | CMYK.py:90-92 | matching `P(\d+)` at a position is the letter there followed by the maximal digit run |
| Patterns.ParamMatchShift | CMYK.py:90-92 | matching a parameter in a suffix gives the same answer and group as in the suffix alone |
| Patterns.ParamSearchShift | CMYK.py:90-92 | searching a parameter past a prefix finds the suffix's leftmost match, moved by the prefix length |
| Patterns.FindParamSkip | CMYK.py:90-92 | a prefix without the letter does not change the parameter found |
| Patterns.SearchSkipsToLead | CMYK.py:25-29 | a text where no occurrence of the leading character starts a match has no match |
| Patterns.LitLead | CMYK.py:25-29 | a match of a pattern that starts with a literal begins with its first character |
| CommandRewriter.ToolNumber | CMYK.py:74-75 | `int(match.group(1))` of a search: present exactly when the pattern occurs, and the value of the captured digits |
| CommandRewriter.M104Command | CMYK.py:96 | `new_command` is `M104.1 T<cur> P<p> Q<q> S<s>` and the tail; `RewriterProperties.M104CommandReparses` proves it reads back as the scheduled tool with those `P`, `Q`, `S` |
| CommandRewriter.SwitchNote | CMYK.py:100-101 | the note for a switch line without a comment is a comment ` ; …` naming the old and the new tool |
| CommandRewriter.SkipNote | CMYK.py:71 | a skip note is the original line turned into a comment that starts `"; " + line` |
| CommandRewriter.ParkStage | CMYK.py:68-72 | the park check only fails on a scheduled tool without a name, never changes the mounted tool, and either stops with a skip note or leaves the line |
| CommandRewriter.PickupStage | CMYK.py:73-84 | the pickup check only fails on a scheduled tool without a name, only ever mounts the scheduled tool, and stops only with a skip note |
| CommandRewriter.ParamOr | CMYK.py:90-95 | the value is the digits the parameter pattern captures when it occurs in the line and the default otherwise, in both cases a non-empty digit string |
| CommandRewriter.M104P | CMYK.py:90-93 | `P` is the value in the line when present and `120` otherwise |
| CommandRewriter.M104Q | CMYK.py:91-94 | `Q` is the value in the line when present; otherwise it reads as `P + current_tool + 1` |
| CommandRewriter.M104S | CMYK.py:92-95 | `S` is the value in the line when present and `210` otherwise |
| CommandRewriter.M104Stage | CMYK.py:85-107 | the temperature-switch check fails only on a missing name for the scheduled or the old tool, only ever mounts the scheduled tool, and stops only with a skip note |
| CommandRewriter.ToolStage | CMYK.py:108-114 | the parametrised tool check never stops the line or fails, and only ever mounts the scheduled tool |
| CommandRewriter.SimpleStage | CMYK.py:115-121 | the bare tool check never stops the line or fails, and only ever mounts the scheduled tool |
| CommandRewriter.LineStep | CMYK.py:67-121 | the five checks in order fail only on a missing name, only ever mount the scheduled tool, and stop only with a skip note |
| CommandRewriter.Advance | CMYK.py:63-66 | passing a line never moves the layer counter back |
| CommandRewriter.RunUpTo | CMYK.py:62-121 | after `n` lines without error there are `n` output lines and the cursor is the one the boundaries give |
| CommandRewriter.Rewrite | CMYK.py:56-122 | a successful pass gives one output line per input line |
| CommandRewriter.RunUpToNext | CMYK.py:62-121 | one more line either records its output and new state or stops the pass with the failing line and tool |
| CommandRewriter.RewriteFails | CMYK.py:62-121 | a name lookup that fails on some line makes the whole pass fail with that error |
| CommandRewriter.ErrorPersists | CMYK.py:62-121 | once the pass has failed, later lines do not change the error |
| CommandRewriter.ParkStep | CMYK.py:68-72 | the park check writes its result into entry `i` only |
| CommandRewriter.PickupStep | CMYK.py:73-84 | the pickup check writes its result into entry `i` only |
| CommandRewriter.M104Step | CMYK.py:85-107 | the temperature-switch check writes its result into entry `i` only |
| CommandRewriter.ToolStep | CMYK.py:108-114 | the parametrised tool check writes its result into entry `i` only |
| CommandRewriter.SimpleStep | CMYK.py:115-121 | the bare tool check writes its result into entry `i` only |
| CommandRewriter.RewriteLine | CMYK.py:67-121 | the checks of one line write entry `i` only, and the output so far grows by that line |
| CommandRewriter.RewriteStages | CMYK.py:67-121 | the five checks in order, with their early exits, compute the line step and write entry `i` only |
| CommandRewriter.EnterLine | CMYK.py:63-66 | entering a line advances the layer and scheduled tool as the boundaries say |
| CommandRewriter.VisitLine | CMYK.py:62-121 | one iteration of the loop extends the pass by one line or ends it with the failing tool, writing no entry after `i` |
| CommandRewriter.ModifyGCode | CMYK.py:56-122 | the loop over the copied array returns exactly the pass `Rewrite`, error included |
| RewriterProperties.UnrecognisedLineKept | CMYK.py:67-121 | a line that no recogniser fires on is left as it is, and so is the mounted tool |
| RewriterProperties.OnScheduleOnlySkips | CMYK.py:76-121 | when every captured tool is already the scheduled one, the line is kept or becomes a skip note |
| RewriterProperties.ParkSkipped | CMYK.py:68-72 | a park line with the scheduled tool mounted becomes the "skipped parking" note, and the mounted tool stays |
| RewriterProperties.ParkKept | CMYK.py:68-72 | a park line with another tool mounted falls through to the later checks, and is kept when none of them fires |
| RewriterProperties.PickupSkipped | CMYK.py:79-82 | picking up the scheduled tool while it is mounted becomes the "skipped pickup" note |
| RewriterProperties.PickupMounts | CMYK.py:83-84 | picking up the scheduled tool while it is not mounted keeps the line and mounts the tool |
| RewriterProperties.PickupRetargeted | CMYK.py:76-78 | picking up another tool rewrites every `T\d+` in the line to the scheduled tool and mounts it |
| RewriterProperties.PickupOverwritten | CMYK.py:77-112 | a pickup line that also matches the parametrised pattern ends up with the later rewrite of the original line |
| RewriterProperties.SwitchTail | CMYK.py:97-101 | the tail of a new `M104.1` command starts with a space |
| RewriterProperties.M104Rebuilt | CMYK.py:85-103 | a switch to another tool, when the scheduled tool is not mounted, is rebuilt for the scheduled tool with its `P`, `Q`, `S` and comment tail, and mounts that tool |
| RewriterProperties.M104StageRebuilds | CMYK.py:88-103 | the temperature-switch check alone rebuilds such a line |
| RewriterProperties.M104Skipped | CMYK.py:104-107 | a switch to another tool while the scheduled tool is mounted becomes the "skipped" note |
| RewriterProperties.ParamFound | CMYK.py:90-92 | a parameter written as ` <letter><digits>` is found with its value |
| RewriterProperties.ParamPassed | CMYK.py:90-92 | another parameter in front does not change the value found |
| RewriterProperties.HeadPassed | CMYK.py:90-96 | the `M104.1 T<n>` head does not change the `P`, `Q` or `S` found |
| RewriterProperties.SwitchParams | CMYK.py:96 | a command written in the shape of `new_command` reads back its tool and its `P`, `Q` and `S` |
| RewriterProperties.M104CommandReparses | CMYK.py:90-96 | the rebuilt command captures the scheduled tool and the `P`, `Q` and `S` values taken from the original line |
| PassProperties.RunStep | CMYK.py:62-121 | each line of a successful pass adds the output of the checks on that line |
| PassProperties.RunPrefix | CMYK.py:62-121 | the output of the first `m` lines is a prefix of the output of more |
| PassProperties.OutputLine | CMYK.py:62-121 | output line `j` is what the checks make of input line `j`, given the tool scheduled there and the tool mounted before it |
| PassProperties.UnscheduledLineKept | CMYK.py:67 | a line with no tool scheduled is copied unchanged |
| PassProperties.UnrecognisedLinesKept | CMYK.py:67-121 | a line that no recogniser fires on is copied unchanged |
| PassProperties.OnScheduleLines | CMYK.py:76-121 | a line whose captured tools are already the scheduled one is copied or becomes a skip note |
| PassProperties.UnscheduledRunKept | CMYK.py:58-67 | a run of lines with nothing scheduled is copied and mounts no tool |
| PassProperties.NothingScheduledKeepsAll | CMYK.py:58-67 | with nothing scheduled anywhere the pass returns its input |
| PassProperties.Boundaries | CMYK.py:63-64 | the boundaries among the first `n` lines are at most `n` |
| PassProperties.ToolForLayers | CMYK.py:65-66 | the scheduled tool is absent before the first boundary, is the entry of the layer reached, and is the last entry once the layers outrun the sequence |
| PassProperties.CursorCounts | CMYK.py:59-66 | the layer counter is the number of boundaries passed minus one, and the scheduled tool follows from it |
| PassProperties.ScheduledTool | CMYK.py:62-67 | the tool scheduled at line `j` follows from the boundaries up to and including `j` |
| PassProperties.NoBoundaries | CMYK.py:63 | no boundaries have been passed exactly when none of the lines so far is one |
| PassProperties.LinesBeforeFirstMarkerKept | CMYK.py:60-67 | lines before the first layer marker are copied unchanged |
| PassProperties.NoMarkersKeepsAll | CMYK.py:60-67 | with no layer positions the pass returns its input |
| PassProperties.NoToolsKeepsAll | CMYK.py:65-67 | with an empty tool sequence no tool is ever scheduled and the pass returns its input |
| PassProperties.ActiveToolScheduled | CMYK.py:61-121 | the mounted tool is none or the tool of a layer already reached |
| PassProperties.RunFailure | CMYK.py:71-106 | a failed pass names a line before the end with a tool scheduled, and a tool without a name that is the scheduled or the old tool |
| PassProperties.RewriteFailure | CMYK.py:71-106 | the same for the whole pass |
| PassProperties.StepSucceeds | CMYK.py:62-121 | a line whose scheduled and old tools have names does not fail |
| PassProperties.RunSucceeds | CMYK.py:62-121 | when every scheduled tool and every tool a temperature switch names has a name, no prefix of the pass fails |
| PassProperties.RewriteSucceeds | CMYK.py:56-122 | under the same condition the whole pass succeeds |
| ToolLines.ToolShapeFound | CMYK.py:26 | any pattern of the shape `\bT(\d+)\s+S\d+\s+L\d+\s+D\d+` matches a plain tool line `T<n> S<s> L<l> D<d>…` at its start and captures `n` |
| ToolLines.PickupShapeFound | CMYK.py:29 | any pattern of the shape `T(\d+)\s+S<a>\s+L<b>\s+D<c>` matches a plain line `T<n> S<a> L<b> D<c>…` at its start and captures `n` |
| ToolLines.ToolLineFound | CMYK.py:108-109 | the parametrised tool search finds a plain tool line's own tool number |
| ToolLines.ToolNumberOfLine | CMYK.py:108-110 | the tool the parametrised check reads from a plain tool line is the value of its number |
| ToolLines.PickupLineFound | CMYK.py:73-75 | the pickup search finds the tool number of a plain line `T<n> S1 L0 D0…` |
| ToolLines.PickupOnToolLine | CMYK.py:73-75 | on any plain tool line the pickup check finds nothing or the line's own tool |
| ToolLines.NoParkNoSwitch | CMYK.py:68-86 | a line without `P` and `M` is neither a park command nor a temperature switch |
| ToolLines.ShortLineNoCommand | CMYK.py:68-86 | a line without `P` and `M` that is shorter than a pickup command is read by none of the park, pickup and switch checks |
| ToolLines.ToolLineNotSimple | CMYK.py:115-116 | a plain tool line is not a bare tool select |
| ToolLines.WordTokenHead | CMYK.py:112 | `re.sub(r'\bT\d+\b', repl, …)` on `T<n>` before a rest that starts with a non-word character and holds no `T` gives `repl` and the rest unchanged |
| ToolLines.ToolTokenHead | CMYK.py:77 | `re.sub(r'T\d+', repl, …)` on `T<n>` before a rest that does not start with a digit and holds no `T` gives `repl` and the rest unchanged |
| ToolLines.ToolStageRewrites | CMYK.py:108-114 | the parametrised check on a plain tool line of another tool writes the same line with the scheduled tool's number and mounts that tool |
| ToolLines.PickupStageRewrites | CMYK.py:73-78 | the pickup check on a plain pickup line of another tool writes the same line with the scheduled tool's number, mounts that tool, and the new line is a pickup of it |
| ToolLines.ToolLineRetargeted | CMYK.py:67-121 | the whole line step on a plain tool line of another tool, pickup or not, writes it with the scheduled tool's number and mounts that tool, and the new line is read as a tool command for it |
| ToolLines.ToolLineExample | CMYK.py:108-114 | `T1 S0 L1 D0` in a layer scheduled for tool 3 becomes `T3 S0 L1 D0`, which reads back as tool 3 |
| ToolLines.SimpleRewrites | CMYK.py:115-121 | a bare select of another tool becomes `T`, the scheduled tool and everything after the old number, mounts that tool, and reads back as a bare select of it |
| ToolLines.SimpleRetargeted | CMYK.py:67-121 | a bare select of another tool that the park, pickup and switch checks leave alone is rewritten the same way by the whole line step |
| ToolLines.SimpleLineRead | CMYK.py:115-117 | `T12;` is a bare select of tool 12 and is read by no other check |
| ToolLines.SimpleLineExample | CMYK.py:115-121 | `T12;` in a layer scheduled for tool 3 becomes `T3;`, which reads back as tool 3 |
| Patterns.SimpleMatchHere | CMYK.py:27 | `^T(\d+)\s*;` matches exactly when the line starts with `T`, a digit run, optional white space and `;`, and captures the digit run |
| Patterns.SimpleRetarget | CMYK.py:118-119 | putting other digits in place of a bare select's number leaves a bare select that captures the new digits |
| CommandRewriter.SimpleToolNumber | CMYK.py:115-117 | a bare select is read exactly when the line matches `^T(\d+)\s*;`, and the tool is the value of the digits after the `T` |
| SwitchLines.OnlyHeadT | CMYK.py:96 | in a switch line of the standard shape, the only `T` is the one of the head |
| SwitchLines.SwitchHead | CMYK.py:96 | the head of a switch line is `M104.1 T`, the tool number, then ` P` |
| SwitchLines.HeadIsNoToolCommand | CMYK.py:26-29 | the head of a switch line is neither a pickup nor a parametrised tool command |
| SwitchLines.NoToolCommand | CMYK.py:26-29 | a switch line matches neither the pickup nor the parametrised tool pattern anywhere |
| SwitchLines.SwitchRecognised | CMYK.py:85-121 | only the temperature switch check fires on a switch line, capturing its tool and its comment |
| SwitchLines.SwitchComment | CMYK.py:97 | the comment of a switch line is its `;` tail |
| SwitchLines.SwitchRetargeted | CMYK.py:85-103 | a switch line for another tool, with the scheduled tool not mounted, keeps its parameters and comment and names the scheduled tool instead |
| SwitchLines.SwitchSkipped | CMYK.py:104-107 | a switch line for another tool, with the scheduled tool mounted, becomes the "skipped" note |
| SwitchLines.SwitchExample | CMYK.py:85-103 | `M104.1 T2 P120 Q123 S210 ; switch to tool 2` in a layer for tool 4 becomes `M104.1 T4 P120 Q123 S210 ; switch to tool 2` and tool 4 is mounted |
| SwitchLines.ParkShapeMatches | CMYK.py:28 | a line that starts `P0 S1 L2 D0` matches the park pattern at its start |
| SwitchLines.ParkLineMatches | CMYK.py:28 | the line `P0 S1 L2 D0` matches the park pattern |
| SwitchLines.ParkExample | CMYK.py:68-72 | the line `P0 S1 L2 D0` with the scheduled tool mounted becomes the "skipped parking" note |
| Pipeline.Process | CMYK.py:127-132 | the run as a function: a successful run reports as many layers as marker lines and one tool per layer; `Pipeline.ProcessSucceeds` and `Pipeline.ProcessFailure` say when it succeeds |
| Pipeline.ProcessFile | CMYK.py:127-133 | parse, schedule and rewrite, then join, give exactly `Process`: the new text, the layer count and the tool sequence |
| Pipeline.BoundariesAreMarkers | CMYK.py:127-130 | the boundaries the pass counts are the marker lines the locator found |
| Pipeline.LayerTool | CMYK.py:127-130 | each line is moved to the tool the schedule gives its layer, and to no tool before the first marker |
| Pipeline.ProcessWithoutMarkers | CMYK.py:124-133 | a text without layer markers is written back exactly as read, with no layers and no tools |
| Pipeline.ProcessSucceeds | CMYK.py:124-133 | with a name for every ratio entry and for every tool a temperature switch names, the run succeeds with one tool per layer and one output line per input line |
| Pipeline.ProcessFailure | CMYK.py:124-133 | a run fails only on a tool without a name, on some line of the input |
| Colors.HexDigitValue | CMYK.py:308 | a hex digit has a value below 16 |
| Colors.HexChar | CMYK.py:312 | the `x` format writes a value below 16 as the lower-case digit of that value |
| Colors.HexDigitsOf | CMYK.py:312 | the `x` format of a number is lower-case hex without a leading zero and reads back as the number |
| Colors.Hex02 | CMYK.py:312 | the `02x` format pads to two digits, writes a negative number with a minus sign, and is exactly two hex digits for values 0 to 255 |
| Colors.Strip | CMYK.py:308 | the white space `int()` skips (ASCII space, `\t` to `\r`, and non-ASCII `str.isspace` characters; not U+001C to U+001F) is removed from both ends, and a text without it is kept |
| Colors.SeparatorNotSkipped | CMYK.py:308 | `int('\x1cf', 16)` raises, while `int(' f', 16)` and `int('\u2003f', 16)` read 15 |
| Colors.Underscored | CMYK.py:308 | underscores between digits are removed, and plain hex digits are kept |
| Colors.LiteralDigits | CMYK.py:308 | the digits of a base-16 literal, with an optional `0x` prefix, are non-empty hex digits |
| Colors.IntBase16 | CMYK.py:308 | `int(s, 16)`: strip, optional sign, literal digits, with no result where Python raises; a text whose stripped form does not start with `-` reads as a non-negative number (values: `IntBase16Digits`, `IntBase16Negative`, `IntBase16Hex02`) |
| Colors.ReadSigned | CMYK.py:308 | a read value is non-negative without a leading `-` and not positive with one |
| Colors.IntBase16Digits | CMYK.py:308 | `int(s, 16)` of plain hex digits is their value |
| Colors.IntBase16Negative | CMYK.py:308 | `int("-" + s, 16)` is minus the value of `s` |
| Colors.IntBase16Hex02 | CMYK.py:308-312 | `int(…, 16)` reads back any number written by the `02x` format |
| Colors.LStripHash | CMYK.py:307 | `lstrip('#')` removes exactly the leading `#` characters |
| Colors.Slice | CMYK.py:308 | `s[i:i+2]` is the slice when in range, and shorter otherwise |
| Colors.Hex02Byte | CMYK.py:312 | the `02x` format of a byte is its two hex digits |
| Colors.ShortRead | CMYK.py:308 | `int(…, 16)` of at most two characters lies between -15 (`-f`) and 255 (`ff`) |
| Colors.HexToRgb | CMYK.py:305-308 | `hex_to_rgb` drops the leading `#`s and reads characters 0-1, 2-3 and 4-5 base 16, with no colour where Python raises; every channel lies between -15 and 255; `RgbRoundTrip` and `HexRoundTrip` state what it reads |
| Colors.RgbToHex | CMYK.py:310-312 | `rgb_to_hex` writes `#` and the three `02x` forms; `RgbToHexFormat` gives six lower-case digits for bytes and `RgbRoundTrip` reads them back |
| Colors.RgbToHexFormat | CMYK.py:310-312 | for channels 0 to 255 the result is `#` and six lower-case hex digits |
| Colors.HashesIgnored | CMYK.py:307 | any number of leading `#` gives the same colour |
| Colors.ThreePairs | CMYK.py:305-308 | `#` and three pairs that `int(…, 16)` reads give those three channels |
| Colors.RgbRoundTrip | CMYK.py:305-312 | `hex_to_rgb(rgb_to_hex(r, g, b)) == (r, g, b)` for channels 0 to 255 |
| Colors.Lower | CMYK.py:312 | lower-casing a hex digit keeps its value |
| Colors.PairRoundTrip | CMYK.py:308-312 | a hex pair reads as its value, and writing that value gives the pair in lower case |
| Colors.HexRoundTrip | CMYK.py:305-312 | a `#` colour of six hex digits reads as their values and is written back in lower case |
| Colors.HexToRgbShort | CMYK.py:308 | fewer than five characters after the `#` cannot give three channels (`int('')` raises) |
| Colors.HexToRgbIgnoresRest | CMYK.py:308 | characters after the first six are ignored |

## Left out

- The GUI: the `App` class, its dialogs, logs and tabs, `get_current_pattern`, the `*ToolApp` classes and `__main__`. It is user interface. The one check kept from it is the positive sum of the pattern (`ToolScheduler.PositiveSumGivesLayers`).
- Reading and writing the files in `process_file`. This is I/O: `Pipeline.ProcessFile` takes the text read and returns the text to write.
- `resource_path`, because it depends on the PyInstaller environment and the filesystem.
- `rgb_to_cmyk`, `mix_colors` and the percentage report, because they are floating point.
- `tool_change_commands`, because it is stored and never read.
- Ratio counts are exact `real` numbers. NaN, infinities and float rounding are not modelled. Negative counts are modelled as Python truncates them and takes `% 1`.
- `calculate_tool_distribution` never returns when there are layers and one round gives no layers, that is `Block(ratio) == []` (every count has `int(count) <= 0` and no fraction). `CalculateToolDistribution` and `Process` require the opposite (`Schedulable`); the hang itself is not modelled.
- `\d` and `int()` on digit strings accept ASCII digits only; `\w` and `\b` use ASCII letters, digits and `_`. Python also accepts other Unicode digits and letters there.
- The regular expressions are modelled for the five fixed patterns, `T\d+`, `\bT\d+\b`, `^T\d+`, `;.*$` and `P/Q/S(\d+)`. Each `\d+` and `\s+` run is taken whole. Backtracking is never needed here, because every run is followed by a character outside its class.
- `$` in `;.*$` is modelled as the end of the text or a final line feed. Lines from `split('\n')` hold no line feed, so both readings agree.
- `int()` and `str()` on decimal numbers of more than 4300 digits raise `ValueError` in Python 3.11 and later. The model reads and writes numbers of any length.
- SubFrom: its own contract states only that a stretch without a match is copied; what a match becomes is stated by `Patterns.SubFromLeftmost`, which `Patterns.SubAll` uses.
- ToolStage: the rewrite by `\bT\d+\b` is proved for plain tool lines `T<n> S<s> L<l> D<d>` followed by a rest with no `T`, `P` or `M` that does not start with a digit (`ToolLines.ToolStageRewrites`). Lines with several `T` words or with the command later in the line are covered only by the general facts of `CommandRewriter.ToolStage`.
- PickupStage: the rewrite by `T\d+` is proved for the same plain lines with `S1 L0 D0` (`ToolLines.PickupStageRewrites`).
- `Colors.HexToRgb` returns no colour wherever `int(…, 16)` raises `ValueError`. It does not say which error it was.
- `rgb_to_hex` on values outside 0 to 255 is modelled, including negative values; `Colors.RgbToHexFormat` only states the format for bytes.
