/** The hand-wired ReAct graph of DAY3/react_langgraph_groq.py: the tools
    node that answers every tool call of the last AI message, the router
    after the agent, the concatenation reducer on `messages`, the answer
    extraction of `web_search` from an already-decoded reply, and the
    initial history and reported answer of `run_agent`. The model call, the
    HTTP request and the tools themselves are parameters. */
module ReactAgent {
  import opened Results
  import opened Strings
  import opened Messages

  // ---------------------------------------------------------------------
  // State reducer
  // ---------------------------------------------------------------------

  /** The reducer `lambda x, y: x + y` of the `messages` channel: the old
      history is kept in order and the node's messages follow it. */
  function Reduce(x: seq<Message>, y: seq<Message>): (r: seq<Message>)
    ensures |r| == |x| + |y| && r[..|x|] == x && r[|x|..] == y
  {
    x + y
  }

  /** The history after the nodes' outputs `outs` are reduced into `h` in turn. */
  function ReduceAll(h: seq<Message>, outs: seq<seq<Message>>): seq<Message>
    decreases |outs|
  {
    if outs == [] then h else ReduceAll(Reduce(h, outs[0]), outs[1..])
  }

  /** However many node outputs are reduced in, the earlier history stays a
      prefix, and the history grows by exactly their total length. */
  lemma {:induction false} ReduceAllKeepsHistory(h: seq<Message>, outs: seq<seq<Message>>)
    ensures h <= ReduceAll(h, outs)
    ensures |ReduceAll(h, outs)| == |h| + TotalLength(outs)
    decreases |outs|
  {
    if outs != [] {
      ReduceAllKeepsHistory(Reduce(h, outs[0]), outs[1..]);
    }
  }

  function TotalLength(outs: seq<seq<Message>>): nat
    decreases |outs|
  {
    if outs == [] then 0 else |outs[0]| + TotalLength(outs[1..])
  }

  // ---------------------------------------------------------------------
  // Tools node
  // ---------------------------------------------------------------------

  /** The names in `tool_map`. */
  const ToolNames: set<string> := {"web_search", "python_repl"}

  function UnknownTool(name: string): string
  {
    "Error: Tool '" + name + "' not found."
  }

  /** Every call carries an "input" key. */
  predicate HasInputs(calls: seq<ToolCall>)
  {
    forall i :: 0 <= i < |calls| ==> calls[i].input.Some?
  }

  /** How many leading calls carry an "input" key: reading `tool_call["input"]`
      raises a KeyError at the first call that does not. */
  function InputsEnd(calls: seq<ToolCall>): (k: nat)
    ensures k <= |calls|
    ensures forall i :: 0 <= i < k ==> calls[i].input.Some?
    ensures k < |calls| ==> calls[k].input.None?
    ensures k == |calls| <==> HasInputs(calls)
    decreases |calls|
  {
    if calls == [] || calls[0].input.None? then 0 else 1 + InputsEnd(calls[1..])
  }

  /** The output the tools node records for one call; `invoke` runs the
      named tool on the call's input. */
  function ToolOutput(call: ToolCall, invoke: (string, string) -> string): (out: string)
    requires call.input.Some?
    ensures call.name in ToolNames ==> out == invoke(call.name, call.input.value)
    ensures call.name !in ToolNames ==> out == UnknownTool(call.name)
  {
    if call.name in ToolNames then invoke(call.name, call.input.value) else UnknownTool(call.name)
  }

  /** The reply to one call: its output, the call's id and the tool's name. */
  function Answer(call: ToolCall, invoke: (string, string) -> string): Message
    requires call.input.Some?
  {
    ToolMessage(ToolOutput(call, invoke), call.id, Some(call.name))
  }

  /** The (name, input) pairs of the calls whose tool exists, in order. */
  function KnownCalls(calls: seq<ToolCall>): seq<(string, string)>
    requires HasInputs(calls)
    decreases |calls|
  {
    if calls == [] then []
    else
      var init := KnownCalls(calls[..|calls| - 1]);
      var c := calls[|calls| - 1];
      if c.name in ToolNames then init + [(c.name, c.input.value)] else init
  }

  /** The first call without an "input", after a prefix that has them all, is
      where `InputsEnd` stops. */
  lemma InputsEndAt(calls: seq<ToolCall>, i: nat)
    requires i < |calls| && HasInputs(calls[..i]) && calls[i].input.None?
    ensures InputsEnd(calls) == i && !HasInputs(calls)
  {
    forall k | 0 <= k < i ensures calls[k].input.Some? {
      assert calls[..i][k] == calls[k];
    }
  }

  /** Extending a prefix of calls by one call that has its "input" adds that
      call's pair exactly when it names a registered tool. */
  lemma KnownCallsStep(calls: seq<ToolCall>, i: nat)
    requires i < |calls| && HasInputs(calls[..i]) && calls[i].input.Some?
    ensures HasInputs(calls[..i + 1])
    ensures KnownCalls(calls[..i + 1]) ==
      KnownCalls(calls[..i]) + (if calls[i].name in ToolNames then [(calls[i].name, calls[i].input.value)] else [])
  {
    assert calls[..i + 1][..i] == calls[..i];
  }

  /** Every pair in `KnownCalls` names a registered tool and comes from a call,
      and a known call is never dropped. */
  lemma {:induction false} KnownCallsExact(calls: seq<ToolCall>)
    requires HasInputs(calls)
    ensures |KnownCalls(calls)| <= |calls|
    ensures forall p :: p in KnownCalls(calls) ==> p.0 in ToolNames
    ensures forall p :: p in KnownCalls(calls) <==>
              exists i :: 0 <= i < |calls| && calls[i].name in ToolNames && p == (calls[i].name, calls[i].input.value)
    decreases |calls|
  {
    if calls != [] {
      var init := calls[..|calls| - 1];
      KnownCallsExact(init);
      forall p | p in KnownCalls(calls)
        ensures exists i :: 0 <= i < |calls| && calls[i].name in ToolNames && p == (calls[i].name, calls[i].input.value)
      {
        if p in KnownCalls(init) {
          var i :| 0 <= i < |init| && init[i].name in ToolNames && p == (init[i].name, init[i].input.value);
          assert calls[i] == init[i];
        } else {
          var c := calls[|calls| - 1];
          assert c.name in ToolNames && p == (c.name, c.input.value);
        }
      }
      forall i | 0 <= i < |calls| && calls[i].name in ToolNames
        ensures (calls[i].name, calls[i].input.value) in KnownCalls(calls)
      {
        if i < |init| {
          assert init[i] == calls[i];
        }
      }
    }
  }

  /** Why a node raises. */
  datatype NodeError =
    | EmptyHistory   // `state["messages"][-1]` on an empty list
    | NotAnAIMessage // the last message has no `tool_calls` attribute
    | MissingInput   // a tool call has no "input" key

  /** `tool_node`: one tool message per tool call of the last AI message, in
      the same order, each answering its call by id and name; only calls to
      registered tools run a tool, and `invoked` lists those runs in order.
      A call without an "input" key raises, after the calls before it ran. */
  method ToolNode(messages: seq<Message>, invoke: (string, string) -> string)
    returns (results: Result<seq<Message>, NodeError>, invoked: seq<(string, string)>)
    ensures results == Err(EmptyHistory) <==> messages == []
    ensures results == Err(NotAnAIMessage) <==> messages != [] && !messages[|messages| - 1].AIMessage?
    ensures results == Err(MissingInput) <==>
      messages != [] && messages[|messages| - 1].AIMessage? && !HasInputs(messages[|messages| - 1].toolCalls)
    ensures results.Ok? ==>
      var calls := messages[|messages| - 1].toolCalls;
      HasInputs(calls) && |results.value| == |calls|
      && (forall i :: 0 <= i < |calls| ==>
            results.value[i] == Answer(calls[i], invoke))
      && invoked == KnownCalls(calls)
    ensures results == Err(MissingInput) ==>
      var calls := messages[|messages| - 1].toolCalls;
      invoked == KnownCalls(calls[..InputsEnd(calls)])
    ensures results == Err(EmptyHistory) || results == Err(NotAnAIMessage) ==> invoked == []
  {
    invoked := [];
    if messages == [] {
      return Err(EmptyHistory), invoked;
    }
    var last := messages[|messages| - 1];
    if !last.AIMessage? {
      return Err(NotAnAIMessage), invoked;
    }
    var calls := last.toolCalls;
    var out: seq<Message> := [];
    for i := 0 to |calls|
      invariant HasInputs(calls[..i])
      invariant |out| == i
      invariant forall k :: 0 <= k < i ==> out[k] == Answer(calls[k], invoke)
      invariant invoked == KnownCalls(calls[..i])
    {
      var call := calls[i];
      if call.input.None? {
        InputsEndAt(calls, i);
        return Err(MissingInput), invoked;
      }
      KnownCallsStep(calls, i);
      var output: string;
      if call.name in ToolNames {
        output := invoke(call.name, call.input.value);
        invoked := invoked + [(call.name, call.input.value)];
      } else {
        output := UnknownTool(call.name);
      }
      assert ToolMessage(output, call.id, Some(call.name)) == Answer(call, invoke);
      out := out + [ToolMessage(output, call.id, Some(call.name))];
    }
    assert calls[..|calls|] == calls;
    return Ok(out), invoked;
  }

  /** When no call names a registered tool, no tool runs and every call is
      answered with the not-found message. */
  lemma {:induction false} UnknownToolsRunNothing(calls: seq<ToolCall>, invoke: (string, string) -> string)
    requires HasInputs(calls)
    requires forall i :: 0 <= i < |calls| ==> calls[i].name !in ToolNames
    ensures KnownCalls(calls) == []
    ensures forall i :: 0 <= i < |calls| ==>
              Answer(calls[i], invoke).content == "Error: Tool '" + calls[i].name + "' not found."
    decreases |calls|
  {
    if calls != [] {
      var init := calls[..|calls| - 1];
      assert forall i :: 0 <= i < |init| ==> init[i] == calls[i];
      UnknownToolsRunNothing(init, invoke);
    }
  }

  /** `agent_node` with the model's reply as a parameter: it appends the
      reply. Its progress output reads the "input" key of every requested
      call, so a call without one raises before anything is appended. */
  function AgentNode(reply: Message): (r: Result<seq<Message>, NodeError>)
    ensures r.Ok? <==> HasInputs(RequestedCalls(reply))
    ensures r.Ok? ==> r.value == [reply]
    ensures r.Err? ==> r.error == MissingInput
  {
    if HasInputs(RequestedCalls(reply)) then Ok([reply]) else Err(MissingInput)
  }

  // ---------------------------------------------------------------------
  // Routing
  // ---------------------------------------------------------------------

  /** LangGraph's END label. */
  const EndLabel: string := "__end__"

  /** The label `should_continue` returns to go on to the tools. The node is
      registered under "tools", so this label names no node of the graph. */
  const ToolLabel: string := "tool"

  /** `should_continue`: "tool" exactly when the last message asks for
      tools, END otherwise; raises on an empty history. */
  function ShouldContinue(messages: seq<Message>): (r: Result<string, NodeError>)
    ensures r.Err? <==> messages == []
    ensures r.Ok? ==> (r.value == ToolLabel <==> RequestedCalls(messages[|messages| - 1]) != [])
    ensures r.Ok? ==> (r.value == EndLabel <==> RequestedCalls(messages[|messages| - 1]) == [])
  {
    if messages == [] then Err(EmptyHistory)
    else if RequestedCalls(messages[|messages| - 1]) != [] then Ok(ToolLabel)
    else Ok(EndLabel)
  }

  /** Once the agent node has appended a reply, routing looks only at that
      reply, whatever came before it, and a tools node run on the result
      cannot meet a call without an "input" key. */
  lemma RouteFollowsReply(h: seq<Message>, reply: Message)
    requires AgentNode(reply).Ok?
    ensures var m := Reduce(h, AgentNode(reply).value);
      ShouldContinue(m) == Ok(if RequestedCalls(reply) != [] then ToolLabel else EndLabel)
      && m[|m| - 1] == reply && HasInputs(RequestedCalls(m[|m| - 1]))
  {
    assert Reduce(h, [reply])[|h|] == reply;
  }

  // ---------------------------------------------------------------------
  // Search answer extraction
  // ---------------------------------------------------------------------

  /** One element of "RelatedTopics": its "Text", when the key is present. */
  datatype Topic = Topic(text: Option<string>)

  /** The decoded reply of the instant-answer endpoint, reduced to the two
      keys the extraction reads, each possibly missing. */
  datatype SearchReply = SearchReply(
    summary: Option<string>,               // the "Abstract" key (`abstract` is reserved in Dafny)
    relatedTopics: Option<seq<Topic>>)     // the "RelatedTopics" key

  const NoResults: string := "No results found. Try rephrasing your query."

  /** The texts of those topics that carry one, in order. */
  function Texts(topics: seq<Topic>): (r: seq<string>)
    ensures |r| <= |topics|
    decreases |topics|
  {
    if topics == [] then []
    else
      var init := Texts(topics[..|topics| - 1]);
      match topics[|topics| - 1].text
      case Some(t) => init + [t]
      case None => init
  }

  /** Every text comes from a topic, and no topic's text is skipped. */
  lemma {:induction false} TextsExact(topics: seq<Topic>)
    ensures forall t :: t in Texts(topics) <==> exists i :: 0 <= i < |topics| && topics[i].text == Some(t)
    decreases |topics|
  {
    if topics != [] {
      var init := topics[..|topics| - 1];
      TextsExact(init);
      forall t | t in Texts(topics)
        ensures exists i :: 0 <= i < |topics| && topics[i].text == Some(t)
      {
        if t in Texts(init) {
          var i :| 0 <= i < |init| && init[i].text == Some(t);
          assert topics[i] == init[i];
        } else {
          assert topics[|topics| - 1].text == Some(t);
        }
      }
      forall i | 0 <= i < |topics| && topics[i].text.Some?
        ensures topics[i].text.value in Texts(topics)
      {
        if i < |init| {
          assert init[i] == topics[i];
        }
      }
    }
  }

  /** The related topics the extraction looks at: the first three, if any. */
  function Leading(reply: SearchReply): (r: seq<Topic>)
    ensures |r| <= 3
    ensures reply.relatedTopics.None? ==> r == []
    ensures reply.relatedTopics.Some? ==> r <= reply.relatedTopics.value && (|r| == 3 || r == reply.relatedTopics.value)
  {
    match reply.relatedTopics
    case Some(ts) => if |ts| <= 3 then ts else ts[..3]
    case None => []
  }

  /** The summaries `web_search` collects: at most three, in order. */
  lemma SummariesBounded(reply: SearchReply)
    ensures |Texts(Leading(reply))| <= 3
    ensures forall t :: t in Texts(Leading(reply)) <==>
              exists i :: 0 <= i < |Leading(reply)| && i < 3 && Leading(reply)[i].text == Some(t)
  {
    TextsExact(Leading(reply));
  }

  /** The answer `web_search` extracts from a decoded reply: a non-empty
      "Abstract" first; else the texts among the first three related topics,
      one per line; else the fixed no-results message. */
  method Extract(reply: SearchReply) returns (answer: string)
    ensures reply.summary.Some? && reply.summary.value != [] ==> answer == reply.summary.value
    ensures !(reply.summary.Some? && reply.summary.value != []) && Texts(Leading(reply)) != [] ==>
              answer == Join(Texts(Leading(reply)), "\n")
    ensures !(reply.summary.Some? && reply.summary.value != []) && Texts(Leading(reply)) == [] ==>
              answer == NoResults
  {
    if reply.summary.Some? && reply.summary.value != [] {
      return reply.summary.value;
    }
    if reply.relatedTopics.Some? && reply.relatedTopics.value != [] {
      var topics := Leading(reply);
      var summaries: seq<string> := [];
      for i := 0 to |topics|
        invariant summaries == Texts(topics[..i])
      {
        assert topics[..i + 1][..i] == topics[..i];
        var topic := topics[i];
        if topic.text.Some? {
          summaries := summaries + [topic.text.value];
        }
      }
      assert topics[..|topics|] == topics;
      if summaries != [] {
        return Join(summaries, "\n");
      }
    }
    return NoResults;
  }

  /** `web_search` around the extraction: `fetch` is the HTTP request and
      JSON decoding, which either yields the reply or fails with a message. */
  method WebSearch(fetch: Result<SearchReply, string>) returns (answer: string)
    ensures fetch.Err? ==> answer == "Search error: " + fetch.error
    ensures fetch.Ok? && fetch.value.summary.Some? && fetch.value.summary.value != [] ==>
              answer == fetch.value.summary.value
    ensures (fetch.Ok? && Texts(Leading(fetch.value)) != []
              && !(fetch.value.summary.Some? && fetch.value.summary.value != [])) ==>
              answer == Join(Texts(Leading(fetch.value)), "\n")
    ensures (fetch.Ok? && Texts(Leading(fetch.value)) == []
              && !(fetch.value.summary.Some? && fetch.value.summary.value != [])) ==> answer == NoResults
  {
    match fetch
    case Err(e) => answer := "Search error: " + e;
    case Ok(reply) => answer := Extract(reply);
  }

  // ---------------------------------------------------------------------
  // Entry point
  // ---------------------------------------------------------------------

  /** The history `run_agent` starts the graph with. */
  function InitialHistory(systemPrompt: string, question: string): (r: seq<Message>)
    ensures |r| == 2 && r[0] == SystemMessage(systemPrompt) && r[1] == HumanMessage(question)
  {
    [SystemMessage(systemPrompt), HumanMessage(question)]
  }

  /** The answer `run_agent` reports: the content of the last message. */
  function FinalAnswer(messages: seq<Message>): (r: Result<string, NodeError>)
    ensures r.Err? <==> messages == []
    ensures r.Ok? ==> r.value == messages[|messages| - 1].content
  {
    if messages == [] then Err(EmptyHistory) else Ok(messages[|messages| - 1].content)
  }

  /** Reducing in one more output appends it to the history. */
  lemma {:induction false} ReduceAllSnoc(h: seq<Message>, outs: seq<seq<Message>>, o: seq<Message>)
    ensures ReduceAll(h, outs + [o]) == ReduceAll(h, outs) + o
    decreases |outs|
  {
    if outs == [] {
      assert [o][1..] == [];
    } else {
      assert (outs + [o])[0] == outs[0];
      assert (outs + [o])[1..] == outs[1..] + [o];
      ReduceAllSnoc(Reduce(h, outs[0]), outs[1..], o);
    }
  }

  /** Whatever the nodes add to the initial history, the system prompt and
      the question stay first and there is an answer: the content of the last
      message of the last output when that output is non-empty, and the
      question itself when nothing was added. */
  lemma AnswerAfterRun(systemPrompt: string, question: string, outs: seq<seq<Message>>)
    ensures var h := ReduceAll(InitialHistory(systemPrompt, question), outs);
      |h| >= 2 && h[0] == SystemMessage(systemPrompt) && h[1] == HumanMessage(question)
      && FinalAnswer(h).Ok?
      && (TotalLength(outs) == 0 ==> FinalAnswer(h).value == question)
      && (outs != [] && outs[|outs| - 1] != [] ==>
            FinalAnswer(h).value == outs[|outs| - 1][|outs[|outs| - 1]| - 1].content)
  {
    var init := InitialHistory(systemPrompt, question);
    ReduceAllKeepsHistory(init, outs);
    var h := ReduceAll(init, outs);
    assert h[..2] == init;
    assert h[0] == init[0] && h[1] == init[1];
    if TotalLength(outs) == 0 {
      assert h == init;
    }
    if outs != [] && outs[|outs| - 1] != [] {
      var front := outs[..|outs| - 1];
      var o := outs[|outs| - 1];
      assert outs == front + [o];
      ReduceAllSnoc(init, front, o);
      assert h == ReduceAll(init, front) + o;
    }
  }
}
