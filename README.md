# Graph workflow engine and code-review tools, in Dafny

This project models the core of a small workflow engine. A workflow is a
graph:
- each named node is bound to a tool and a config;
- each node has at most one outgoing edge, either a plain next-node name or a
  conditional record (`condition_key`, `operator`, `value`, `true_next`,
  `false_next`);
- the graph names a start node and a step ceiling (`max_steps`).

The interpreter (`run_graph_execution`) walks the graph from the start node.
At each node it fetches the node's tool from the tool registry, calls the
tool on the shared state dict, logs the step, and resolves the outgoing edge.
The run ends at:
- the end sentinel `"__end__"` or a missing edge;
- a node the graph does not define;
- a tool that was never registered;
- a tool that raises;
- the step ceiling, which adds one step-limit entry to the log.

The model also covers the four code-review tools the sample workflow
registers: `extract_functions`, `check_complexity`, `detect_issues` and
`suggest_improvements`.

The project has four modules:
- `Values` (values.dfy): the schema-less Python values that flow through a
  run (None, bool, int, str, list) and the parts of Python's semantics the
  core relies on: `==`, the ordering operators (which raise `TypeError` on
  operands Python cannot order), `repr`/`str`, and the exceptions and their
  `str()` texts.
- `Registry` (registry.dfy): the `ToolRegistry` class, with its table of
  handlers as a mutable `map` field. A handler is a function from
  `(state, config)` to a `ToolOutcome`. The outcome records the state dict
  as the handler left it (handlers change it in place), and whether the
  handler returned a dict, returned `None` or raised.
- `Engine` (engine.dfy): condition evaluation, edge resolution, and the run.
  - The run is defined first as functions: `Iterate` is one pass of the loop
    body, `Loop` the `while` loop, `Epilogue` the step-limit entry, and
    `RunGraph` the whole call.
  - The interpreter itself, `RunGraphExecution`, is the imperative loop over
    a `ToolRegistry` object. It is proved to compute exactly `RunGraph`.
  - Lemmas then prove what a run does: how each kind of stop shows in the
    log, the step accounting, the shape of every log, the behaviour of a
    graph with no exit, and an end-to-end example.
- `CodeReview` (code_review.dfy): the tools.
  - Each tool is a function of the state, which the lemmas describe.
  - Each tool is also a method that builds its lists with loops, proved equal
    to the function.
  - The text helpers are modelled as needed: `splitlines`, `strip`,
    `isspace`, the `def` regular expression, and substring search.

## Model

| member | source | states |
|---|---|---|
| Values.Compare | app/engine/engine.py:18-25 | An ordering comparison that fails fails with TypeError. Numbers compare by value, strings by the first differing code point and then by length, lists by their first unequal items and then by length; any other pairing raises. |
| Values.CompareConverse | app/engine/engine.py:18-25 | `b > a` raises exactly when `a < b` does and otherwise has the same value; likewise `b >= a` and `a <= b`. |
| Values.CompareLeIsLtOrEqual | app/engine/engine.py:18-21 | `a <= b` raises exactly when `a < b` does, and otherwise equals `a < b or a == b`. |
| Values.CompareRaisesRegardlessOfOperator | app/engine/engine.py:18-25 | Whether an ordering comparison raises depends on the operands, not on which of the four operators is used. |
| Values.CompareTrichotomy | app/engine/engine.py:18-27 | On operands that can be ordered, exactly one of `a < b`, `a == b`, `a > b` holds. |
| Values.EqualSymmetric | app/engine/engine.py:26-29 | `a == b` and `b == a` agree. |
| Values.EqualReflexive | app/engine/engine.py:26-27 | Every value equals itself. |
| Registry.Lookup | app/engine/registry.py:13-16 | `get` gives the handler exactly when the name is registered; otherwise it raises KeyError "Tool '<name>' not registered". |
| Registry.ToolRegistry.constructor | app/engine/registry.py:7-8 | A new registry holds no handlers. |
| Registry.ToolRegistry.Register | app/engine/registry.py:10-11 | The table afterwards is the old table with `name` bound to `func`, replacing any earlier handler. |
| Registry.ToolRegistry.Get | app/engine/registry.py:13-16 | Gives the registered handler, or KeyError with the "not registered" message for an unknown name. |
| Registry.FreshLookupFails | app/engine/registry.py:7-8 | On a new registry, `get` raises KeyError for every name. |
| Registry.LookupAfterRegister | app/engine/registry.py:10-16 | After `register(n, f)`, `get(n)` gives `f`. |
| Registry.RegisterKeepsOthers | app/engine/registry.py:10-16 | `register(n, f)` leaves `get` on every other name unchanged. |
| Registry.LastRegistrationWins | app/engine/registry.py:10-11 | Of two registrations under one name, the later one wins. |
| Engine.EvaluateCondition | app/engine/engine.py:9-32 | An unknown operator gives false. Only the four ordering operators can raise, and they raise only TypeError. |
| Engine.EqualityConditionsNeverRaise | app/engine/engine.py:26-29 | `eq` and `ne` never raise, and `ne` is the negation of `eq`. |
| Engine.OrderingOnMissingKeyRaises | app/engine/engine.py:16-25 | An ordering condition on a key the state lacks compares None and raises TypeError. |
| Engine.OrderingConditionsAgree | app/engine/engine.py:16-29 | `lt`, `lte`, `gt` and `gte` raise on the same states. When they do not, `lte` is `lt or eq`, `gte` is `gt or eq`, and exactly one of `lt`, `eq`, `gt` holds. |
| Engine.OrderingsAgree | app/engine/engine.py:18-27 | The same relations, stated on the compared operands. |
| Engine.ResolveNextNode | app/engine/engine.py:35-62 | A resolved next node is never the end sentinel. Only a conditional edge can raise, and only KeyError for a missing `condition_key`, `operator` or `value`, or a TypeError from the condition. |
| Engine.ResolveNextNodeCases | app/engine/engine.py:35-62 | Case by case:<br>- `"__end__"` gives no node;<br>- any other plain name is returned unchanged;<br>- a missing edge or an unknown shape gives no node;<br>- a conditional edge gives the branch its condition selects, with the end sentinel or a missing branch giving no node;<br>- a condition that raises makes the resolution raise;<br>- a conditional edge without `condition_key`, then `operator`, then `value` raises KeyError naming the first one missing. |
| Engine.ConditionalEdgeExample | app/engine/engine.py:44-59 | `{x gte 5 -> A, else B}` goes to A when x is 5 and to B when x is 4. |
| Engine.NodeDefs | app/engine/engine.py:76-83 | Building the node records succeeds exactly when every node has a `tool_name`, and otherwise raises KeyError "tool_name". The records have the graph's node names, each record carries its own name and tool, and the config defaults to `{}`. |
| Engine.BuildNodeDefs | app/engine/engine.py:76-83 | The node-by-node loop gives exactly `NodeDefs`. |
| Engine.Iterate | app/engine/engine.py:92-143 | One pass of the loop body:<br>- it appends exactly one entry for the current node, whose snapshot is the new state;<br>- a `break` keeps the step count and current node;<br>- a continuing pass logs "Executed tool" and adds one step;<br>- it raises only after the tool returned, and only with an exception of edge resolution. |
| Engine.RunGraphExecution | app/engine/engine.py:65-154 | The imperative interpreter over a `ToolRegistry` returns exactly `RunGraph`: the final state and log, or the exception that escapes. |
| Engine.LoopContinues | app/engine/engine.py:91-143 | A pass that continues leaves the rest of the run to the loop from the new position. |
| Engine.LoopBreaks | app/engine/engine.py:91-138 | A pass that breaks ends the loop with the run it produced. |
| Engine.LoopRaises | app/engine/engine.py:141-142 | A pass whose edge resolution raises makes the loop raise the same exception. |
| Engine.LoopRaisesOnlyEdgeErrors | app/engine/engine.py:91-143 | The only exceptions that leave the loop are those of edge resolution; whatever a tool raises is caught and logged. |
| Engine.Epilogue | app/engine/engine.py:145-152 | The loop's log is kept as it is, and exactly when the step count reached the ceiling one more entry follows: labelled `current or "unknown"`, with the final state and the "Max steps N reached" message. |
| Engine.RunGraphRaises | app/engine/engine.py:65-154 | A run raises only KeyError "tool_name", and then some node lacks `tool_name`, or an exception of edge resolution. |
| Engine.RunGraphOf | app/engine/engine.py:145-154 | Once the node records and the loop's final run are known, the result is the final state with the log plus the step-limit entry if the ceiling was reached. |
| Engine.MissingNodeStopsRun | app/engine/engine.py:92-102 | At an undefined node: one "Node '<n>' not found. Stopping execution." entry, state unchanged, the loop stops, and no step-limit entry follows. |
| Engine.UnregisteredToolStopsRun | app/engine/engine.py:104-114 | At a node whose tool is unregistered: one entry carrying `str(KeyError)` (the repr of the message), state unchanged, the loop stops, and no step-limit entry follows. |
| Engine.RaisingToolStopsRun | app/engine/engine.py:117-138 | A raising tool: one "Error during execution: <msg>" entry with the state as the tool left it, the same step count, the loop stops, and no step-limit entry follows. |
| Engine.ReturningToolAdvances | app/engine/engine.py:117-143 | A returning tool:<br>- its dict becomes the state, or, when it returned None, the dict it was handed stays the state;<br>- one "Executed tool" entry is logged;<br>- the step count rises by one;<br>- the run moves to the resolved edge, or raises with it. |
| Engine.NoOpToolKeepsState | app/engine/engine.py:118-122 | A tool that returns None and changes nothing leaves the state as it was. |
| Engine.EndStopsRun | app/engine/engine.py:141-152 | An edge that resolves to no node ends the run after that step. The step-limit entry, labelled "unknown", follows only if that was the last allowed step. |
| Engine.ConditionErrorEscapes | app/engine/engine.py:141-142 | After any returning tool, a conditional edge whose condition raises on the state the edge sees (the returned dict, or the handed dict when the tool returned None) makes the loop raise that same error; it is a TypeError of an ordering operator. |
| Engine.MissingKeyConditionEscapes | app/engine/engine.py:16-25 | In particular an ordering condition on a key missing from that state makes the loop raise TypeError. |
| Engine.LoopStepsBounded | app/engine/engine.py:89-143 | The step count never passes the ceiling. |
| Engine.ExecutedMessageIsRecognised | app/engine/engine.py:127 | Every "Executed tool" message is recognised as one. |
| Engine.LoopLogAccounting | app/engine/engine.py:91-143 | The log only grows. Each step taken adds one "Executed tool" entry, in order, and a `break` adds exactly one more. |
| Engine.RunLogShape | app/engine/engine.py:85-154 | Every completed run's log has:<br>- one "Executed tool" entry per step;<br>- then at most one more entry: either the `break` entry or the step-limit entry, never both;<br>- the step-limit entry last exactly when the ceiling was reached.<br>With a non-negative ceiling the steps stay within it. |
| Engine.LastEntryIsNotLimit | app/engine/engine.py:95-138 | No entry appended inside the loop carries the step-limit message. |
| Engine.StartNodeMissing | app/engine/engine.py:88-102 | An undefined start node gives the initial state and a single "not found" entry. |
| Engine.StartToolUnregistered | app/engine/engine.py:104-114 | A start node with an unregistered tool gives the initial state and a single KeyError entry. |
| Engine.NonPositiveLimitRunsNothing | app/engine/engine.py:145-152 | A ceiling of 0 or less runs no tool; the log is the step-limit entry alone. |
| Engine.MissingToolNameRaises | app/engine/engine.py:78-83 | A node without `tool_name` makes the run raise KeyError. |
| Engine.NoExitStep | app/engine/engine.py:92-143 | In a graph with no exit, every pass from a defined node continues to a defined node. |
| Engine.NoExitRunsToLimit | app/engine/engine.py:91-143 | In a graph with no exit, the loop runs until the step count equals the ceiling, logging one entry per step. |
| Engine.NoExitEpilogue | app/engine/engine.py:91-152 | From the start of such a loop, the log has `max_steps + 1` entries and the last is the step-limit entry. |
| Engine.CycleLogsMaxStepsPlusOne | app/engine/engine.py:65-154 | A graph whose nodes cycle without exit runs `max_steps` steps and logs `max_steps + 1` entries, the last one "Max steps N reached, stopping to avoid infinite loop.". |
| Engine.ExampleDefsBuilt | app/engine/engine.py:76-83 | The example graph's node records are built as expected. |
| Engine.ExampleFirstStep | app/engine/engine.py:92-143 | In the example, `start` doubles n from 3 to 6 and moves to `end`. |
| Engine.ExampleSecondStep | app/engine/engine.py:117-143 | In the example, `end` returns None, keeps the state and has no edge onward. |
| Engine.ExampleLoop | app/engine/engine.py:91-143 | The example's loop takes two steps and ends with no current node. |
| Engine.DoubleThenNoOpExample | app/engine/engine.py:65-154 | start (double) -> end (noop) from {n: 3} ends with {n: 6} and two "Executed tool" entries, with no step-limit entry. |
| CodeReview.SplitLinesHaveNoBreaks | app/workflows/code_review.py:15 | No line produced by `splitlines` holds a line break. |
| CodeReview.SplitLinesRoundTrip | app/workflows/code_review.py:15 | Joining the lines, each followed by a break, gives the text back, with a final break added if it had none. |
| CodeReview.SplitTerminated | app/workflows/code_review.py:15 | Splitting break-terminated lines that hold no breaks gives back exactly those lines. |
| CodeReview.Strip | app/workflows/code_review.py:16 | `strip()` is empty exactly when the text is all whitespace; otherwise it starts and ends with non-whitespace. It is never longer than the text. |
| CodeReview.StripIsTrimmedSlice | app/workflows/code_review.py:16 | `strip()` is a slice of the text with only whitespace before and after it. |
| CodeReview.ContainsOccurs | app/workflows/code_review.py:64-68 | `sub in s` holds exactly when `sub` occurs in `s` at some position. |
| CodeReview.MatchDef | app/workflows/code_review.py:19-21 | A captured name is always an identifier. |
| CodeReview.DefName | app/workflows/code_review.py:16-21 | A line yields a name only when its stripped text starts with "def ", and the name is an identifier. |
| CodeReview.MatchDefExactly | app/workflows/code_review.py:19-21 | The pattern captures `name` exactly when the line reads "def", whitespace, `name` as an identifier, optional whitespace, then "(". |
| CodeReview.FunctionNames | app/workflows/code_review.py:15-21 | At most one name per line, and every name is an identifier. |
| CodeReview.FunctionNamesAppend | app/workflows/code_review.py:15-21 | Names are found line by line: the names of two blocks of lines are those of the first, then those of the second. |
| CodeReview.FunctionNamesMembership | app/workflows/code_review.py:15-21 | A name is extracted exactly when some line declares it. |
| CodeReview.CodeLines | app/workflows/code_review.py:12-15 | No "code" gives no lines; a str "code" gives its `splitlines()`. It fails exactly on a non-str "code", and then with AttributeError. |
| CodeReview.ExtractFunctionsTool | app/workflows/code_review.py:10-25 | The loop gives exactly `ExtractFunctions`. |
| CodeReview.ExtractFunctionsContract | app/workflows/code_review.py:10-25 | extract_functions raises only on a non-str "code", and then writes nothing. Otherwise it writes, and writes only:<br>- "functions": the declared names in line order, all identifiers;<br>- "function_count": their number.<br>It returns the state it was handed, and with no code the list is empty. |
| CodeReview.NonBlankLines | app/workflows/code_review.py:31 | Keeps no more lines than it is given. |
| CodeReview.NonBlankLinesMembership | app/workflows/code_review.py:31 | A line is kept exactly when it holds a non-space character. |
| CodeReview.NonBlankLinesSnoc | app/workflows/code_review.py:31 | One more line is kept, at the end, exactly when it holds a non-space character. |
| CodeReview.NonBlankLinesAppend | app/workflows/code_review.py:31 | The kept lines of two blocks are those of the first, then those of the second. With the previous row this fixes the result: every non-blank line, repeats included, in order. |
| CodeReview.ContentPositionsSnoc | app/workflows/code_review.py:31 | One more line adds its own position to the non-blank positions exactly when it has content. |
| CodeReview.NonBlankLinesCount | app/workflows/code_review.py:31-32 | The number of kept lines, which is the complexity score, equals the number of positions holding a non-blank line. |
| CodeReview.CollectNonBlankLines | app/workflows/code_review.py:31 | The comprehension as a loop gives exactly the kept lines. |
| CodeReview.CheckComplexityTool | app/workflows/code_review.py:28-35 | Gives exactly `CheckComplexity`. |
| CodeReview.CheckComplexityContract | app/workflows/code_review.py:28-35 | check_complexity raises only on a non-str "code". Otherwise it writes only "complexity_score": the number of non-blank lines, between 0 and the number of lines, and 0 when there is no code. |
| CodeReview.LongLines | app/workflows/code_review.py:49-50 | The list is non-empty exactly when some line is longer than 80 characters. |
| CodeReview.IssuesExactly | app/workflows/code_review.py:40-51 | Each issue is listed exactly when its condition holds, at most once, at most three in all, and in the fixed order. |
| CodeReview.CollectLongLines | app/workflows/code_review.py:49 | The comprehension as a loop gives exactly the long lines. |
| CodeReview.DetectIssuesTool | app/workflows/code_review.py:38-55 | Gives exactly `DetectIssues`. |
| CodeReview.DetectIssuesContract | app/workflows/code_review.py:38-55 | detect_issues raises only when "complexity_score" cannot be compared with 50 or "code" is not a str, and then writes nothing. Otherwise it writes only "issues" and "issue_count":<br>- the no-functions issue iff "function_count" == 0;<br>- the long-file issue iff "complexity_score" > 50;<br>- the long-lines issue iff some line is longer than 80;<br>- in that order, with their number, at most 3. |
| CodeReview.IterItems | app/workflows/code_review.py:60-63 | Iterating a list gives its items; a str gives, in order, one single-character str per character; anything else raises. |
| CodeReview.ContainsTest | app/workflows/code_review.py:64-68 | `needle in issue` succeeds exactly on a str or a list. |
| CodeReview.Suggestion | app/workflows/code_review.py:64-71 | A suggestion is found exactly for a str or list issue. |
| CodeReview.Suggestions | app/workflows/code_review.py:63-71 | The suggestions succeed exactly when every issue is a str or a list, one per issue. |
| CodeReview.SuggestionsPerIssue | app/workflows/code_review.py:63-71 | Each issue's suggestion is at the issue's own index. |
| CodeReview.PlusOne | app/workflows/code_review.py:74 | `v + 1` succeeds exactly on a number and gives the next int. |
| CodeReview.DecrementIfPositive | app/workflows/code_review.py:78-80 | Succeeds exactly on a number. A positive count goes down by one; any other is kept. |
| CodeReview.SuggestImprovementsTool | app/workflows/code_review.py:58-84 | The loop gives exactly `SuggestImprovements`, stopping at the first issue that raises. |
| CodeReview.SuggestionsPrefixFails | app/workflows/code_review.py:63-71 | Once a prefix of the issues raises, the whole list raises with the same error. |
| CodeReview.SuggestImprovementsContract | app/workflows/code_review.py:58-84 | When suggest_improvements returns, it wrote only these three keys and returned the state it was handed:<br>- "suggestions": one per issue, in order;<br>- "review_iterations": one higher;<br>- "issue_count": one lower when positive, otherwise unchanged, and never negative if it started non-negative. |
| CodeReview.SuggestImprovementsRaises | app/workflows/code_review.py:58-84 | It raises exactly when "issues" is not iterable, an issue is neither str nor list, or "review_iterations" or "issue_count" is not a number. In the first three cases the state is untouched. When only "issue_count" is not a number, the state has "review_iterations" already written, one higher. |
| CodeReview.IssueSuggestions | app/workflows/code_review.py:43-69 | Each issue text detect_issues reports gets the suggestion written for it, and no earlier rule catches it. |
| CodeReview.OnlyFirstIssueMentionsNoFunctions | app/workflows/code_review.py:43-64 | Only the no-functions issue contains "No functions". |
| CodeReview.OnlySecondIssueMentionsSplitting | app/workflows/code_review.py:46-66 | The long-file issue contains "long; consider splitting" and the long-lines issue does not. |
| CodeReview.SuggestionsForReported | app/workflows/code_review.py:63-71 | A list of reported issues gets its tailored suggestions, one per issue, in order. |
| CodeReview.SuggestImprovementsReturns | app/workflows/code_review.py:58-84 | When every step succeeds, the result is the state with the three keys written. |
| CodeReview.SuggestAfterReport | app/workflows/code_review.py:58-84 | On reported issues and their count, with a numeric "review_iterations", it returns the tailored suggestions, the next iteration count, and the count less one (0 stays 0). |
| CodeReview.DetectedReport | app/workflows/code_review.py:38-55 | detect_issues leaves reportable issues and their count, and does not touch "review_iterations". |
| CodeReview.DetectThenSuggest | app/workflows/code_review.py:38-84 | After detect_issues returns, suggest_improvements returns whenever "review_iterations" is a number. Each issue gets its tailored suggestion, in order, and "issue_count" goes down by one unless nothing was reported. |

Some specification functions carry no contract of their own; the rows
above state their properties:
- `Engine.Loop`: `LoopContinues`, `LoopBreaks`, `LoopRaises`,
  `LoopRaisesOnlyEdgeErrors`, `LoopStepsBounded` and `LoopLogAccounting`.
- `Engine.RunGraph`: `RunGraphExecution`, `RunGraphOf`, `RunGraphRaises`,
  `RunLogShape` and the whole-run lemmas.
- `Values.Equal`: `EqualSymmetric`, `EqualReflexive`, `CompareTrichotomy`
  and `EqualityConditionsNeverRaise`.
- `Values.Repr`, `Values.Exception.Text` and `Values.Text`: the log texts in
  `UnregisteredToolStopsRun`, `StartToolUnregistered`, `RaisingToolStopsRun`
  and `CycleLogsMaxStepsPlusOne`.
- `CodeReview.SplitLines`: `SplitLinesHaveNoBreaks`, `SplitLinesRoundTrip`
  and `SplitTerminated`.
- `CodeReview.Contains`: `ContainsOccurs`.
- `CodeReview.ExtractFunctions`, `CheckComplexity`, `DetectIssues` and
  `SuggestImprovements`: the `...Tool` method and the `...Contract` lemma of
  each, and `SuggestImprovementsRaises`, `DetectedReport` and
  `DetectThenSuggest`.

## Where the code may surprise

- One might expect the interpreter never to raise, since tool failures are
  caught and logged. The code can still raise:
  - building the node records indexes `node_data["tool_name"]` (KeyError);
  - resolving a conditional edge indexes `condition_key`, `operator` and
    `value` (KeyError), and an ordering condition can raise TypeError.

  Edge resolution runs outside the `try`, so all of these leave
  `run_graph_execution`. `RunGraph` and `RunGraphExecution` therefore return
  a result that may be an exception (see `RunGraphRaises`,
  `MissingToolNameRaises` and
  `ConditionErrorEscapes`).
- One might expect the previous state to be kept when a tool returns an
  "empty or absent" state. The code checks only `is None`: a tool returning
  `{}` replaces the state with `{}`. The model does the same.
- A tool that raises may already have changed the state dict in place. Those
  changes stay in the state the run reports, and in the log snapshot.
  `ToolOutcome` carries that dict.
- The step-limit entry's label is `current_node_name or "unknown"`, so an
  empty node name is also shown as "unknown" (`Label`).

## Left out

- Floats and dicts as state values. Values are None, bool, int, str and list.
  Arithmetic and comparison on floats would need an IEEE model, and no core
  operation needs them.
- `evaluate_quality_tool`, the HTTP layer (main.py), run storage, and the
  module-level `tool_registry` instance with its import-time registrations.
  These are outside the modelled core. `RunGraphExecution` takes a
  `ToolRegistry` object as a parameter instead, and the function `RunGraph`
  takes its table of handlers.
- `repr` escapes other than the quote, backslash, `\n`, `\r` and `\t`. Other
  non-printable characters in a tool name would show differently in the
  KeyError log text.
- `splitlines` is modelled with `'\n'` as the only line break. Python also
  splits at `\r`, `\r\n`, `\v`, `\f`, `\x1c`-`\x1e`, `\x85`, `\u2028` and
  `\u2029`.
- Pydantic validation of submitted graphs. Absent node fields are
  `Option`s, and edge shapes other than a plain name or a conditional record
  are `OtherShape`.
- Validation errors raised inside the run. engine.py line 79 builds each
  `NodeDefinition` through pydantic, so a node whose `tool_name` is not a
  str, or whose `config` is not a dict, raises a ValidationError out of
  `run_graph_execution`. `NodeData` cannot hold such a node, so
  `RunGraphRaises` lists only the exceptions of nodes it can represent.
- Config changes that persist within a run. engine.py lines 79-83 build one
  config dict per node for the whole run, and line 118 hands that same dict
  to the tool on every visit. A tool that changes its config in place sees
  the change on its next visit to that node. In the model a `ToolFunc`
  always receives the graph's unchanged config.
- The branch targets of a conditional edge are modelled as strings or
  absent. Any other JSON value there would be returned as the "next node" by
  the source and then looked up.
- Non-string `condition_key`, `operator` and `value` fields. A conditional
  edge's `conditionKey` and `operator` are strings. In the source a list or
  dict as `condition_key` makes `state.get` (engine.py line 16) raise
  `TypeError: unhashable type` before any comparison. The model cannot build
  such an edge, so that TypeError is not among the modelled ones, and a
  non-string `operator` is covered only as an unknown operator.
- Exception messages a tool raises are taken as given strings. The handler
  functions are parameters of type `ToolFunc`, which cannot raise anything
  else.
- Aliasing of the state dict. The source logs shallow copies
  (`state.copy()`, engine.py lines 98, 110, 126, 134 and 149) and hands one
  dict to every tool. The model's state is a value, so every snapshot is
  the state at that moment. A tool that later mutates a nested list inside
  the state would change earlier snapshots in the source, not in the model.
- The graph defaults. `Graph` has mandatory `edges` and `maxSteps` fields;
  the source's defaults for a graph without them (no edges, and
  `max_steps` 50, engine.py lines 71 and 73) are left to whoever builds the
  `Graph`. A graph without `nodes` or `start_node`, which raises KeyError in
  the source, cannot be built.
- Engine.CycleLogsMaxStepsPlusOne: proved for graphs in which every defined
  node has a registered, always-returning tool and a plain edge to another
  defined node. Cycles through conditional edges are not covered.
