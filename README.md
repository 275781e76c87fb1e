# Agent graphs: the deterministic core, in Dafny

This project models the small deterministic pieces of three LangGraph agent
scripts and proves properties about them. The language model, the search
engine, the tools and the graph runtime are all left abstract.

- **DAY5/p8.py, the scored revise loop.** A researcher writes notes, a
  writer drafts an answer and a reviewer scores it. The reviewer's reply is
  parsed line by line for `SCORE:`, `FEEDBACK:` and `IMPROVED:`, with a
  fallback when no usable score is found. The router sends the draft back to
  the writer until the score reaches 8 or three drafts exist
  (`revise_loop.dfy`, module `ReviseLoop`).
- **DAY5/usecase_example.py, a tool-calling agent.** It has two simulated
  tools, `web_search` and `weather_forecast`, that look their input up in
  fixed tables. The agent and tools nodes return partial states that the
  `operator.add` reducers append. The router looks at `agent_outcome`.
  `run_query` drives the cycle and reports the answer (`tool_agent.dfy`,
  module `ToolAgent`).
- **DAY3/react_langgraph_groq.py, a ReAct graph.** The tools node answers
  every tool call of the last AI message. The router reads the last message.
  The `messages` channel is reduced by concatenation. `web_search` extracts
  an answer from a decoded instant-answer reply. `run_agent` sets up the
  initial history and reports the content of the last message
  (`react_agent.dfy`, module `ReactAgent`).

Shared modules:
- `results.dfy` provides `Option` and `Result`. A missing dictionary key or
  a raised exception becomes `None` or `Err`.
- `messages.dfy` holds the LangChain message kinds the scripts read.
- `strings.dfy` holds the Python string operations the parsers rely on:
  `lower`, `in`, `startswith`, the single-pass `replace(tag, "")`, `strip`,
  `splitlines`, the argument-less `split`, `int` and `str`. Each is written
  out with its edge cases.

Every model reply, the researcher's notes, the tool executor and the HTTP
access are parameters of the members that use them. The results therefore
hold whatever the model answers. Three loops that build up a result are
methods with loops here: the reviewer's line scan, the tools node's dispatch
loop and the collection of related-topic texts. Each is proved against a
specification function, and the lemmas are stated about those functions. The
early-return table searches of the two simulated tools in
DAY5/usecase_example.py (the `for` loops with `all(...)` and `in` at lines
40-41 and 64-65) return a value and change nothing, so they are the recursive
first-match function `ToolAgent.FirstMatch` instead. The graph drivers
are loops over the node functions, bounded the same way the compiled graphs
are.

Two quirks of DAY3/react_langgraph_groq.py are kept as written:
- `should_continue` returns the label "tool" (line 208). The tools node is
  registered as "tools" (line 232), and `add_conditional_edges` gets no path
  map (line 236). `ReactAgent.ShouldContinue` returns "tool", and
  `ReactAgent.ToolLabel` records that this names no node.
- The tools node reads a call's input under the key "input" (line 173), and
  the agent node's progress output reads the same key for every requested
  call (line 159). DAY5/usecase_example.py reads the key "args" (line 106),
  the one LangChain's tool-call entries carry. `ToolCall` keeps both: `args`
  is always there and `input` is optional. A call without "input" makes both
  DAY3 nodes raise a KeyError, which is `ReactAgent.NodeError.MissingInput`.

## Model

| member | source | states |
|---|---|---|
| Strings.Lower | DAY5/usecase_example.py:39 | `lower()` keeps the length and maps each character through ASCII lower-casing, position by position |
| Strings.LowerOfEqualIgnoringCase | DAY5/usecase_example.py:39 | two strings that differ only in ASCII letter case lower to the same string |
| Strings.StartsWith | DAY5/p8.py:120-127 | `line.startswith(tag)` holds exactly when the tag is a prefix of the line |
| Strings.ContainsIff | DAY5/usecase_example.py:41 | the `in` scan succeeds exactly when the substring occurs at some index (both directions) |
| Strings.RemoveAll | DAY5/p8.py:122 | `replace(tag, "")` never makes a line longer |
| Strings.RemoveAllAbsent | DAY5/p8.py:122 | removing a tag whose first character never occurs leaves the line unchanged |
| Strings.RemoveAllLeading | DAY5/p8.py:122-128 | a leading tag is dropped and the single pass continues right after it |
| Strings.RemoveAllNoOccurrence | DAY5/p8.py:122 | removing a tag that occurs nowhere in the line leaves it unchanged |
| Strings.AbsentAfterBlank | DAY5/p8.py:122 | a blank put in front of a text that does not contain the tag does not create an occurrence of it |
| Strings.IsSpace | DAY5/p8.py:122 | `str.isspace()` on ASCII characters: blank, tab, line feed, vertical tab, form feed, carriage return and the separators 0x1C-0x1F, all at or below 0x20 and left unchanged by lower-casing |
| Strings.TrimLeft | DAY5/p8.py:122 | `lstrip()` returns a suffix with only whitespace cut off and no whitespace at its start |
| Strings.TrimRight | DAY5/p8.py:122 | `rstrip()` returns a prefix with only whitespace cut off and no whitespace at its end |
| Strings.StripIsTrimmedSlice | DAY5/p8.py:122 | `strip()` returns a slice of its input with whitespace cut off on both sides and none left at either end |
| Strings.StripUnpadded | DAY5/p8.py:122 | `strip()` leaves a string that has no whitespace at either end unchanged |
| Strings.Strip | DAY5/p8.py:122 | `strip()` never lengthens a string and leaves no whitespace at either end of its result |
| Strings.StripAfterSpace | DAY5/p8.py:122 | one leading whitespace character makes no difference to `strip()` |
| Strings.SplitLines | DAY5/p8.py:119 | `splitlines()` yields lines with no line break in them; the empty reply has no lines, and every other reply has at least one |
| Strings.SplitJoinedLines | DAY5/p8.py:119 | joining break-free lines with "\n" and splitting again gives the same lines back, when the final line is non-empty |
| Strings.Join | DAY3/react_langgraph_groq.py:84 | `sep.join(parts)`: "" for no parts and the part itself for one |
| Strings.JoinEnds | DAY3/react_langgraph_groq.py:84 | a join of at least one part starts with the first part and ends with the last |
| Strings.Words | DAY5/usecase_example.py:41 | `split()` yields non-empty words that contain no whitespace |
| Strings.WordsOfJoined | DAY5/usecase_example.py:41 | `split()` of words joined by single blanks gives the words back |
| Strings.ParseInt | DAY5/p8.py:121-124 | `int()` succeeds exactly on digits with an optional leading sign |
| Strings.ParseSigned | DAY5/p8.py:122 | a leading "-" negates the value of the digits and a leading "+" changes nothing |
| Strings.IntRoundTrip | DAY5/p8.py:122 | `int(str(n)) == n` for every integer |
| Messages.RequestedCalls | DAY3/react_langgraph_groq.py:157 | `hasattr(m, "tool_calls") and m.tool_calls`: the calls an AI message carries, and none for any other kind of message |
| ReviseLoop.Writer | DAY5/p8.py:61-86 | the writer stores the draft and sets the iteration to one more than before (a missing counter counts as 0); every other field is unchanged |
| ReviseLoop.ShouldContinue | DAY5/p8.py:146-158 | "end" exactly when the score is at least 8 or the iteration is at least 3, with missing keys read as 0 |
| ReviseLoop.TagValue | DAY5/p8.py:122-128 | `line.replace(tag, "").strip()`: never longer than the line, and with no whitespace left at either end |
| ReviseLoop.LineScore | DAY5/p8.py:120-124 | `int()` of the tag-removed, stripped line when `int()` accepts it, and 0 when `int()` raises |
| ReviseLoop.LastTagged | DAY5/p8.py:119-128 | finds the last line starting with the tag, or reports that no line does |
| ReviseLoop.TagsExclusive | DAY5/p8.py:120-127 | a line starts with at most one of the three tags, so the `elif` chain order cannot matter |
| ReviseLoop.LastTaggedSnoc | DAY5/p8.py:119-128 | one more line moves a tag's last occurrence only when that line carries the tag |
| ReviseLoop.ParsedSnoc | DAY5/p8.py:119-128 | one more line overwrites exactly the field its tag names; an untagged line changes nothing |
| ReviseLoop.ScanLines | DAY5/p8.py:114-128 | the loop leaves in `score`, `feedback` and `improved` the values of the last line with each tag, else 0, "" and the draft |
| ReviseLoop.ReviewOf | DAY5/p8.py:130-134 | the verdict never has score 0; a non-zero parsed score keeps the parsed values; otherwise the result is score 7, the fixed feedback and the whole reply |
| ReviseLoop.ParseReview | DAY5/p8.py:114-134 | the line scan followed by the fallback computes exactly `ReviewOf` |
| ReviseLoop.Reviewer | DAY5/p8.py:89-140 | the reviewer writes the verdict into `score`, `feedback` and `reviewed_answer`; the score is set and non-zero; question, notes, draft and iteration are unchanged |
| ReviseLoop.LastTaggedIs | DAY5/p8.py:119-128 | a tagged line after which no line carries the tag is the one `LastTagged` finds |
| ReviseLoop.LastLineWins | DAY5/p8.py:119-128 | when several lines carry the same tag, the last one decides that field |
| ReviseLoop.NoImprovedKeepsDraft | DAY5/p8.py:117-134 | with no "IMPROVED:" line and a usable score, the reviewed answer is the incoming draft |
| ReviseLoop.NoScoreLineFallsBack | DAY5/p8.py:130-134 | a reply with no "SCORE:" line gets score 7, the fixed feedback and the whole reply as the reviewed answer |
| ReviseLoop.ScoreTagRemoved | DAY5/p8.py:122 | removing the tag from "SCORE: n" leaves exactly " n" |
| ReviseLoop.ScoreLineRoundTrip | DAY5/p8.py:120-124 | the line "SCORE: n" scores n, for every integer n |
| ReviseLoop.SplitReplyLines | DAY5/p8.py:107-119 | a reply in the requested three-line format splits back into its three lines |
| ReviseLoop.ParseReplyLines | DAY5/p8.py:107-128 | its three lines parse to the score n, and to the tag-removed, stripped values of the feedback line and the improved line |
| ReviseLoop.TaggedLineValue | DAY5/p8.py:125-128 | a line written as "FEEDBACK: t" or "IMPROVED: t" has the value `t.strip()` whenever t does not itself contain that tag |
| ReviseLoop.WellFormedReply | DAY5/p8.py:107-134 | a reply in the requested format with a non-zero score is read with no fallback. Its score is n. Its feedback and improved answer are the written texts, stripped, whenever those texts do not contain their own tag, and otherwise the tag-removed line values |
| ReviseLoop.InitialState | DAY5/p8.py:195-203 | the graph starts with only the question set, the other texts empty and `score` and `iteration` both 0, so the router does not stop before the first draft |
| ReviseLoop.WriteAndReview | DAY5/p8.py:173-174 | one writer run then one reviewer run: one more iteration, the new draft stored, a non-zero score set, question and notes kept |
| ReviseLoop.RunGraph | DAY5/p8.py:164-205 | the graph stops after one to three drafts, whatever the model replies. It stops early only on a score of at least 8, every draft it sent back scored below 8, and the final state routes to "end" |
| ToolAgent.KeyMatchesIff | DAY5/usecase_example.py:41-65 | the search condition holds exactly when each blank-separated word of the key occurs somewhere in the lowered query, and the forecast condition exactly when the key itself occurs somewhere in the lowered city |
| ToolAgent.FirstMatch | DAY5/usecase_example.py:40-42 | returns the first entry in insertion order whose key matches, and earlier entries do not match; or reports that no entry matches |
| ToolAgent.WebSearch | DAY5/usecase_example.py:30-44 | returns the result of the first entry whose every key word occurs in the lowered query; else "Search results for '<query>'" with the query as given |
| ToolAgent.WeatherForecast | DAY5/usecase_example.py:56-68 | returns the first forecast whose key occurs in the lowered city name; else "Weather for <city>: Moderate conditions, ~20°C" |
| ToolAgent.LookupsIgnoreCase | DAY5/usecase_example.py:39-41 | inputs that differ only in letter case select the same search entry and the same forecast entry, and get the same answer when an entry matches |
| ToolAgent.Merge | DAY5/usecase_example.py:75-79 | the two list channels only append, keeping earlier entries in order; `agent_outcome` is overwritten only when the node returns it |
| ToolAgent.AgentNode | DAY5/usecase_example.py:83-118 | appends exactly the model's reply. A reply with tool calls turns its first call's name and args into the action; any other reply finishes with its content |
| ToolAgent.ExecuteTools | DAY5/usecase_example.py:122-142 | raises exactly when the outcome is not an action or the last message has no tool call. Otherwise it appends one tool message answering the first call's id and one (action, observation) step |
| ToolAgent.ShouldContinue | DAY5/usecase_example.py:149-154 | "end" exactly when `agent_outcome` is an `AgentFinish` |
| ToolAgent.AnswerOf | DAY5/usecase_example.py:209-213 | the answer is the finish output when the outcome is an `AgentFinish`, else "Agent did not complete" |
| ToolAgent.ToolsAfterContinue | DAY5/usecase_example.py:98-142 | when the agent's reply routes to "continue", the tools node cannot raise |
| ToolAgent.InitialState | DAY5/usecase_example.py:201-204 | the graph starts with the query as its only message, no steps and no `agent_outcome`, so the router does not stop before the agent has run |
| ToolAgent.RunQuery | DAY5/usecase_example.py:191-223 | a completed run ends on an `AgentFinish`, so the answer is that finish output and the `else` branch at lines 212-213 is never taken; the answer is the content of the last reply. The history starts with the query and holds two messages per tool round plus two. Every recorded observation is the executor's result for its action |
| ReactAgent.Reduce | DAY3/react_langgraph_groq.py:133-134 | the reducer keeps the old history as a prefix and appends the node's messages after it |
| ReactAgent.ReduceAllKeepsHistory | DAY3/react_langgraph_groq.py:133-134 | after any number of node outputs the earlier history is still a prefix, and the length grows by exactly their total size |
| ReactAgent.InputsEnd | DAY3/react_langgraph_groq.py:171-174 | counts the leading calls that carry an "input" key; the next call, if any, lacks it; the count is the number of calls exactly when every call has the key |
| ReactAgent.ToolOutput | DAY3/react_langgraph_groq.py:178-181 | a registered tool's output on the call's input, or "Error: Tool '<name>' not found." for any other name |
| ReactAgent.KnownCallsExact | DAY3/react_langgraph_groq.py:176-181 | the tools actually run are exactly the calls naming a registered tool, and there are never more of them than calls |
| ReactAgent.ToolNode | DAY3/react_langgraph_groq.py:163-193 | raises exactly on an empty history, on a last message that is not an AI message, or on a call with no "input" key; in that last case the tools of the calls before it have run. Otherwise it returns one tool message per tool call, in order, each answering its call's id and name with the tool's output or the not-found text |
| ReactAgent.UnknownToolsRunNothing | DAY3/react_langgraph_groq.py:178-181 | calls naming no registered tool run nothing and are each answered "Error: Tool '<name>' not found." |
| ReactAgent.ShouldContinue | DAY3/react_langgraph_groq.py:201-209 | "tool" exactly when the last message carries tool calls and END exactly when it does not; raises on an empty history |
| ReactAgent.AgentNode | DAY3/react_langgraph_groq.py:149-160 | appends exactly the model's reply, and raises instead exactly when a requested call has no "input" key |
| ReactAgent.RouteFollowsReply | DAY3/react_langgraph_groq.py:149-209 | after the agent node has appended a reply, the route depends only on that reply, and a tools node run next finds every call's "input" |
| ReactAgent.Leading | DAY3/react_langgraph_groq.py:78-80 | `RelatedTopics[:3]`: a prefix of the related topics, the first three or all of them when there are fewer, and none when the key is missing |
| ReactAgent.Texts | DAY3/react_langgraph_groq.py:79-82 | the collected summaries are never more than the topics looked at |
| ReactAgent.TextsExact | DAY3/react_langgraph_groq.py:79-82 | a text is collected exactly when some topic carries it as "Text" |
| ReactAgent.SummariesBounded | DAY3/react_langgraph_groq.py:78-82 | at most three summaries, each from one of the first three related topics, and none of those skipped |
| ReactAgent.Extract | DAY3/react_langgraph_groq.py:73-86 | a non-empty "Abstract" wins. Otherwise the texts of the first three related topics are joined by newlines when there are any. Otherwise the fixed no-results message is returned |
| ReactAgent.WebSearch | DAY3/react_langgraph_groq.py:65-89 | a failed request gives "Search error: <message>". A decoded reply gives its non-empty "Abstract", else the newline-joined texts of its first three related topics, else the no-results message |
| ReactAgent.InitialHistory | DAY3/react_langgraph_groq.py:283-288 | the history starts as the system prompt's message followed by the question |
| ReactAgent.FinalAnswer | DAY3/react_langgraph_groq.py:293-294 | the answer is the content of the last message; an empty history raises |
| ReactAgent.ReduceAllSnoc | DAY3/react_langgraph_groq.py:133-134 | reducing in one more output appends it to the history |
| ReactAgent.AnswerAfterRun | DAY3/react_langgraph_groq.py:283-294 | after any node outputs the system prompt and the question stay first and there is always an answer. It is the last message of the last output when that output is non-empty, and the question itself when nothing was added |

## Left out

- ReviseLoop.WriteAndReview: states only that a non-zero score is set, not which score the reply gives. That link is `ReviseLoop.Reviewer` and `ReviseLoop.ReviewOf`; repeating it in the driver loop's context makes that proof far costlier.
- ReviseLoop.RunGraph: follows from the step above, so it bounds the number of drafts and the score relation but does not tie each score to its reply.
- Strings.RemoveAll: its own contract bounds only the length. What `replace` removes is stated by `Strings.RemoveAllAbsent` and `Strings.RemoveAllLeading`. A tag occurring inside a line is removed too, as in Python, and `ReviseLoop.WellFormedReply` says what the feedback and improved answer are only for texts without their own tag.
- Strings.Lower: ASCII letters only. `str.lower()` on other Unicode letters is not modelled.
- Strings.SplitLines: breaks only at "\n", "\r" and "\r\n". The other separators Python's `splitlines()` accepts are not modelled.
- Strings.IsSpace: the ASCII whitespace set only; Unicode spaces are not included.
- Strings.ParseInt: its input is the already-stripped tag value. Underscores between digits and non-ASCII digits, which Python's `int()` also accepts, are not modelled.
- The language model calls are parameters, so nothing is said about what the model answers. This covers the researcher, writer and reviewer calls in DAY5/p8.py, `llm_with_tools.invoke` in DAY5/usecase_example.py and `llm.with_tools(...).invoke` in DAY3/react_langgraph_groq.py. Prompt texts are not modelled.
- `ToolExecutor.invoke` in DAY5/usecase_example.py and `tool_map[name].invoke` in DAY3/react_langgraph_groq.py are uninterpreted functions.
- The `calculator` tool (Python `eval`) and `python_repl` (`exec` with redirected output) run arbitrary code and are not modelled.
- The DuckDuckGo HTTP request and JSON decoding are the `fetch` parameter of `ReactAgent.WebSearch`. The researcher node of DAY5/p8.py (its web search and model call, lines 42-58) is reduced to its output, the `notes` parameter of `ReviseLoop.RunGraph`.
- ToolAgent.ShouldContinue: a `None` outcome stands both for a missing `agent_outcome` key and for the value None, and is read as the value. Python's `state["agent_outcome"]` (lines 151 and 210) raises a KeyError when the key is missing. `ToolAgent.RunQuery` never reaches that case, because the agent node sets the outcome before either is used.
- ToolAgent.AnswerOf: reads a `None` outcome the same way, for the same reason.
- The graph runtime itself: compilation, the recursion limit's exact default and streaming. `ToolAgent.RunQuery` takes the number of node runs allowed as a parameter. No driver is given for DAY3/react_langgraph_groq.py, because the "tool" label there names no node and the compiled graph's next step is not defined by the script.
- Printing, progress output and interactive or `__main__` code are not modelled.
- DAY5/p6.py, DAY5/p7.py and DAY5/p9.py are linear prompt pipelines. DAY5/RAG_CHAT_History_Groq.py is a Streamlit and vector-store application. DAY4/Sqlite_Ollama.py is SQLite access plus a model call. None of them is part of this model.
