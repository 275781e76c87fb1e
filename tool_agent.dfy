/** The tool-calling agent of DAY5/usecase_example.py: two simulated tools
    that look a query up in a fixed table, the agent and tools nodes with the
    state reducers that append to `messages` and `intermediate_steps`, the
    router, and a driver over the agent <-> tools cycle. The model's replies
    and the tool executor are parameters. */
module ToolAgent {
  import opened Results
  import opened Strings
  import opened Messages

  // ---------------------------------------------------------------------
  // Simulated tools
  // ---------------------------------------------------------------------

  /** How a table key is matched against the lowered input. */
  datatype MatchRule =
    | AllWords   // every blank-separated word of the key is a substring
    | Substring  // the key itself is a substring

  /** Each of `words` is a substring of `lowered`. */
  predicate AllFound(words: seq<string>, lowered: string)
  {
    forall w :: w in words ==> Contains(lowered, w)
  }

  /** Every word is found by the scan exactly when each occurs somewhere. */
  lemma AllOccur(words: seq<string>, lowered: string)
    ensures AllFound(words, lowered) <==> forall w :: w in words ==> exists i :: OccursAt(lowered, w, i)
  {
    forall w | w in words { ContainsIff(lowered, w); }
  }

  predicate KeyMatches(rule: MatchRule, key: string, lowered: string)
  {
    match rule
    case AllWords => AllFound(Words(key), lowered)
    case Substring => Contains(lowered, key)
  }

  /** What the two match conditions mean: the key, or each of its
      blank-separated words, occurs somewhere in the lowered input. */
  lemma KeyMatchesIff(rule: MatchRule, key: string, lowered: string)
    ensures rule.Substring? ==> (KeyMatches(rule, key, lowered) <==> exists i :: OccursAt(lowered, key, i))
    ensures rule.AllWords? ==>
      (KeyMatches(rule, key, lowered) <==> forall w :: w in Words(key) ==> exists i :: OccursAt(lowered, w, i))
  {
    if rule.AllWords? {
      assert KeyMatches(rule, key, lowered) == AllFound(Words(key), lowered);
      AllOccur(Words(key), lowered);
    } else {
      ContainsIff(lowered, key);
    }
  }

  /** Index of the first entry, in insertion order, whose key matches. */
  function FirstMatch(table: seq<(string, string)>, rule: MatchRule, lowered: string): (r: Option<nat>)
    ensures r.Some? ==> r.value < |table| && KeyMatches(rule, table[r.value].0, lowered)
    ensures r.Some? ==> forall j :: 0 <= j < r.value ==> !KeyMatches(rule, table[j].0, lowered)
    ensures r.None? ==> forall j :: 0 <= j < |table| ==> !KeyMatches(rule, table[j].0, lowered)
    decreases |table|
  {
    if table == [] then None
    else if KeyMatches(rule, table[0].0, lowered) then Some(0)
    else
      match FirstMatch(table[1..], rule, lowered)
      case Some(k) => Some(k + 1)
      case None => None
  }

  /** The `search_db` of `web_search`, in insertion order. */
  const SearchTable: seq<(string, string)> := [
    ("tokyo weather april", "Tokyo in April: 14-20°C (57-68°F). Cherry blossom season peaks early-mid April."),
    ("tokyo activities april", "Top activities: Hanami at Ueno Park, Sumida River, temple visits, sakura foods."),
    ("paris hotels", "Budget hotels: Hotel du Nord (€120), Ibis Paris (€110).")
  ]

  /** The `forecasts` of `weather_forecast`, in insertion order. */
  const ForecastTable: seq<(string, string)> := [
    ("tokyo", "Tokyo: Partly cloudy, 18°C, Humidity: 65%"),
    ("paris", "Paris: Light rain, 12°C, Humidity: 78%"),
    ("new york", "New York: Sunny, 22°C, Humidity: 55%")
  ]

  /** The search entry `web_search` picks for `query`, if any. */
  function SearchEntry(query: string): Option<nat>
  {
    FirstMatch(SearchTable, AllWords, Lower(query))
  }

  /** The forecast entry `weather_forecast` picks for `city`, if any. */
  function ForecastEntry(city: string): Option<nat>
  {
    FirstMatch(ForecastTable, Substring, Lower(city))
  }

  /** `web_search`: the result of the first entry all of whose key words occur
      in the lowered query, else a message quoting the query as given. */
  function WebSearch(query: string): (r: string)
    ensures (exists k :: 0 <= k < |SearchTable| && r == SearchTable[k].1
               && KeyMatches(AllWords, SearchTable[k].0, Lower(query))
               && forall j :: 0 <= j < k ==> !KeyMatches(AllWords, SearchTable[j].0, Lower(query)))
            || ((forall j :: 0 <= j < |SearchTable| ==> !KeyMatches(AllWords, SearchTable[j].0, Lower(query)))
               && r == "Search results for '" + query + "'")
  {
    match SearchEntry(query)
    case Some(k) => SearchTable[k].1
    case None => "Search results for '" + query + "'"
  }

  /** `weather_forecast`: the first forecast whose key occurs in the lowered
      city name, else a default message naming the city as given. */
  function WeatherForecast(city: string): (r: string)
    ensures (exists k :: 0 <= k < |ForecastTable| && r == ForecastTable[k].1
               && Contains(Lower(city), ForecastTable[k].0)
               && forall j :: 0 <= j < k ==> !Contains(Lower(city), ForecastTable[j].0))
            || ((forall j :: 0 <= j < |ForecastTable| ==> !Contains(Lower(city), ForecastTable[j].0))
               && r == "Weather for " + city + ": Moderate conditions, ~20°C")
  {
    match ForecastEntry(city)
    case Some(k) => ForecastTable[k].1
    case None => "Weather for " + city + ": Moderate conditions, ~20°C"
  }

  /** Both lookups ignore letter case: inputs that differ only in case pick
      the same entry, and so give the same answer whenever an entry matches. */
  lemma LookupsIgnoreCase(a: string, b: string)
    requires EqualIgnoringCase(a, b)
    ensures SearchEntry(a) == SearchEntry(b)
    ensures ForecastEntry(a) == ForecastEntry(b)
    ensures SearchEntry(a).Some? ==> WebSearch(a) == WebSearch(b)
    ensures ForecastEntry(a).Some? ==> WeatherForecast(a) == WeatherForecast(b)
  {
    LowerOfEqualIgnoringCase(a, b);
  }

  // ---------------------------------------------------------------------
  // Graph state and its reducers
  // ---------------------------------------------------------------------

  /** An `AgentAction`: the tool to run and its input (its log is always ""). */
  datatype Action = Action(tool: string, toolInput: string)

  /** `AgentAction` or `AgentFinish` with its "output" return value. */
  datatype Outcome = Act(action: Action) | Finish(output: string)

  /** One entry of `intermediate_steps`: the action and its observation. */
  datatype Step = Step(action: Action, observation: string)

  /** The graph state. `outcome` is `None` both while `agent_outcome` has
      never been set (the initial state of `run_query` leaves it out) and when
      it holds the value None. */
  datatype AgentState = AgentState(messages: seq<Message>, outcome: Option<Outcome>, steps: seq<Step>)

  /** What a node returns: the lists to append, and the outcome if the node sets one. */
  datatype Update = Update(messages: seq<Message>, outcome: Option<Outcome>, steps: seq<Step>)

  /** LangGraph's merge of a node's update: `operator.add` on the two list
      channels, plain overwrite on `agent_outcome` when the node returns it. */
  function Merge(s: AgentState, u: Update): (r: AgentState)
    ensures |r.messages| == |s.messages| + |u.messages| && r.messages[..|s.messages|] == s.messages
    ensures r.messages[|s.messages|..] == u.messages
    ensures |r.steps| == |s.steps| + |u.steps| && r.steps[..|s.steps|] == s.steps
    ensures r.steps[|s.steps|..] == u.steps
    ensures r.outcome == if u.outcome.Some? then u.outcome else s.outcome
  {
    AgentState(s.messages + u.messages, if u.outcome.Some? then u.outcome else s.outcome, s.steps + u.steps)
  }

  // ---------------------------------------------------------------------
  // Nodes and routing
  // ---------------------------------------------------------------------

  /** The agent node; `llm` is the model bound to the tools. The reply is
      appended; if it asks for tools, the first call becomes the action,
      otherwise the reply's content becomes the final output. */
  function AgentNode(s: AgentState, llm: seq<Message> -> Message): (u: Update)
    ensures u.messages == [llm(s.messages)] && u.steps == [] && u.outcome.Some?
    ensures var calls := RequestedCalls(llm(s.messages));
      calls != [] ==> u.outcome.value == Act(Action(calls[0].name, calls[0].args))
    ensures RequestedCalls(llm(s.messages)) == [] ==> u.outcome.value == Finish(llm(s.messages).content)
  {
    var response := llm(s.messages);
    var calls := RequestedCalls(response);
    if calls != [] then
      Update([response], Some(Act(Action(calls[0].name, calls[0].args))), [])
    else
      Update([response], Some(Finish(response.content)), [])
  }

  /** Why the tools node raises. */
  datatype ToolsError =
    | NotAnAction      // `agent_outcome` is missing, None or an AgentFinish
    | NoToolCallFound  // no last message, or it carries no tool call

  /** The tools node; `invoke` is the tool executor. It runs the pending
      action and appends one tool message, answering the first tool call of
      the last message, and one step. */
  function ExecuteTools(s: AgentState, invoke: Action -> string): (r: Result<Update, ToolsError>)
    ensures r.Err? <==> !(s.outcome.Some? && s.outcome.value.Act?)
                        || s.messages == [] || RequestedCalls(s.messages[|s.messages| - 1]) == []
    ensures r.Ok? ==>
      var a := s.outcome.value.action;
      var id := RequestedCalls(s.messages[|s.messages| - 1])[0].id;
      r.value == Update([ToolMessage(invoke(a), id, None)], None, [Step(a, invoke(a))])
  {
    match s.outcome
    case Some(Act(a)) =>
      var observation := invoke(a);
      if s.messages == [] then Err(NoToolCallFound)
      else
        var calls := RequestedCalls(s.messages[|s.messages| - 1]);
        if calls == [] then Err(NoToolCallFound)
        else Ok(Update([ToolMessage(observation, calls[0].id, None)], None, [Step(a, observation)]))
    case _ => Err(NotAnAction)
  }

  /** The two labels of the conditional edge after the agent. */
  datatype Route = Continue | End

  /** `should_continue`. A `None` outcome is read as the value None, which is
      not an `AgentFinish`; with the key absent Python would raise a KeyError
      instead. The router only runs after the agent node, which always sets
      the outcome. */
  function ShouldContinue(s: AgentState): (r: Route)
    ensures r == End <==> s.outcome.Some? && s.outcome.value.Finish?
  {
    match s.outcome
    case Some(Finish(_)) => End
    case _ => Continue
  }

  const NotCompleted: string := "Agent did not complete"

  /** The answer `run_query` reports for a final state. A `None` outcome is
      read as the value None, as for the router; with the key absent Python
      would raise a KeyError instead. A completed run always has an outcome. */
  function AnswerOf(s: AgentState): (r: string)
    ensures s.outcome.Some? && s.outcome.value.Finish? ==> r == s.outcome.value.output
    ensures !(s.outcome.Some? && s.outcome.value.Finish?) ==> r == NotCompleted
  {
    match s.outcome
    case Some(Finish(out)) => out
    case _ => NotCompleted
  }

  // ---------------------------------------------------------------------
  // The whole graph
  // ---------------------------------------------------------------------

  /** The state `run_query` starts the graph with: the query alone, no
      outcome and no steps, so the router does not stop at once. */
  function InitialState(query: string): (s: AgentState)
    ensures s.messages == [HumanMessage(query)] && s.outcome.None? && s.steps == []
    ensures ShouldContinue(s) != End
  {
    AgentState([HumanMessage(query)], None, [])
  }

  /** After the agent node, a route other than "end" means the reply asked
      for a tool, so the tools node cannot fail. */
  lemma ToolsAfterContinue(s: AgentState, llm: seq<Message> -> Message, invoke: Action -> string)
    requires ShouldContinue(Merge(s, AgentNode(s, llm))) == Continue
    ensures ExecuteTools(Merge(s, AgentNode(s, llm)), invoke).Ok?
  {
    var t := Merge(s, AgentNode(s, llm));
    assert t.messages[|t.messages| - 1] == llm(s.messages);
  }

  /** The framework stopped the run before it reached END. */
  datatype GraphError = RecursionLimit

  /** `run_query`: runs agent, then tools and agent again while the agent
      asks for tools. `limit` is the number of node runs the framework allows
      before it raises. A completed run always ends on an `AgentFinish`, so
      `run_query` takes the finish output and never its `else` branch; that
      output is the model's last reply. Every tool round added one tool
      message and one step. */
  method RunQuery(query: string, llm: seq<Message> -> Message, invoke: Action -> string, limit: nat)
    returns (answer: Result<string, GraphError>, final: AgentState)
    ensures final.messages != [] && final.messages[0] == HumanMessage(query)
    ensures forall k :: 0 <= k < |final.steps| ==> final.steps[k].observation == invoke(final.steps[k].action)
    ensures answer.Ok? ==> ShouldContinue(final) == End && answer.value == AnswerOf(final)
    ensures answer.Ok? ==>
      final.outcome.Some? && final.outcome.value.Finish? && answer.value == final.outcome.value.output
    ensures answer.Ok? ==> answer.value == final.messages[|final.messages| - 1].content
    ensures answer.Ok? ==> |final.messages| == 2 * |final.steps| + 2
  {
    final := InitialState(query);
    var budget := limit;
    while true
      invariant final.messages != [] && final.messages[0] == HumanMessage(query)
      invariant |final.messages| == 2 * |final.steps| + 1
      invariant forall k :: 0 <= k < |final.steps| ==> final.steps[k].observation == invoke(final.steps[k].action)
      decreases budget
    {
      if budget == 0 {
        answer := Err(RecursionLimit);
        return;
      }
      var before := final;
      final := Merge(final, AgentNode(final, llm));
      budget := budget - 1;
      if ShouldContinue(final) == End {
        assert final.messages[|final.messages| - 1] == llm(before.messages);
        answer := Ok(AnswerOf(final));
        return;
      }
      if budget == 0 {
        answer := Err(RecursionLimit);
        return;
      }
      ToolsAfterContinue(before, llm, invoke);
      var update := ExecuteTools(final, invoke).value;
      final := Merge(final, update);
      budget := budget - 1;
    }
  }
}
