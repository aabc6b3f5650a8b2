/** `TaskPlanningAgent.create_plan`: the two-phase conversation with the
    provider, the dispatch of the tool calls of its first reply, and the
    `{goal, plan, status}` record that every path ends in.

    The network is an input, `World`: the provider answers a request, and
    the search and weather services answer the i-th tool call's argument.
    Every request the agent makes is recorded, in order, in a log of
    `Call`s, so that the number and the shape of the requests can be
    stated. */
module Planner {
  import opened Wrappers
  import opened Text
  import opened Json
  import opened Provider
  import Search
  import Weather

  /** The agent's settings, fixed when it is built: the configured model
      and the weather key ("" when unset). */
  datatype Config = Config(model: string, weatherApiKey: string)

  /** The services the agent talks to. */
  datatype World = World(
    complete: Request -> Reply,
    search: (nat, Value) -> Search.SearchReply,
    weather: (nat, Value) -> Weather.WeatherReply)

  /** One outbound request. */
  datatype Call =
    | ProviderCall(request: Request)
    | SearchCall(query: Value)
    | WeatherCall(location: Value)

  datatype Status = Success | Error

  /** The dictionary `create_plan` returns; `plan` is `None` when the
      provider's final `content` is `null`. */
  datatype PlanResult = PlanResult(goal: string, plan: Option<string>, status: Status)

  const WebSearchName := "web_search"
  const GetWeatherName := "get_weather"
  const Unavailable := "Function not available"
  const PlanErrorPrefix := "Error creating plan: "
  const UserPrefix := "Create a detailed plan for this goal: "
  /** The system message's text; its wording plays no part here. */
  const SystemPrompt: string

  /** The conversation the first request carries. */
  function Opening(goal: string): seq<Message>
  {
    [System(SystemPrompt), User(UserPrefix + goal)]
  }

  /** The first payload: the opening conversation, with the tools offered. */
  function FirstRequest(cfg: Config, goal: string): Request
  {
    Request(cfg.model, Opening(goal), true)
  }

  /** The record of the `except` branch. */
  function Failure(goal: string, message: string): (r: PlanResult)
    ensures r.plan.Some? && StartsWith(r.plan.value, PlanErrorPrefix)
  {
    StartsWithExtend(PlanErrorPrefix, PlanErrorPrefix, message);
    PlanResult(goal, Some(PlanErrorPrefix + message), Error)
  }

  /** What a provider reply settles, by the same rule on either call: its
      content on success, else the error the refusal or the exception gives. */
  function Settle(cfg: Config, goal: string, reply: Reply): PlanResult
  {
    match reply
    case Completed(content, _) => PlanResult(goal, content, Success)
    case Refused(status, errorObject, body) => Failure(goal, RefusalText(cfg.model, status, errorObject, body))
    case Failed(e) => Failure(goal, e)
  }

  /** A tool call whose arguments make the loop raise: undecodable ones
      always, non-object ones when the tool reads them. */
  predicate Rejects(tc: ToolCall)
  {
    || tc.arguments.Undecodable?
    || (tc.arguments.NonObject? && (tc.name == WebSearchName || tc.name == GetWeatherName))
  }

  /** The content of one tool message and the requests made to get it. */
  datatype Executed = Executed(content: string, log: seq<Call>)

  /** One pass of the loop body, for the tool call at position `i`. */
  function Execute(cfg: Config, world: World, i: nat, tc: ToolCall): (r: Result<Executed>)
    ensures r.Err? <==> Rejects(tc)
    ensures r.Err? ==> r.error == tc.arguments.error
    ensures r.Ok? && tc.name != WebSearchName && tc.name != GetWeatherName ==>
              r.value == Executed(Unavailable, [])
    ensures r.Ok? ==> forall c <- r.value.log :: !c.ProviderCall?
  {
    if tc.arguments.Undecodable? then Err(tc.arguments.error)
    else if tc.name == WebSearchName then
      if tc.arguments.NonObject? then Err(tc.arguments.error)
      else
        var query := Get(tc.arguments.fields, "query");
        var numResults := GetOr(tc.arguments.fields, "num_results", Int(5));
        Ok(Executed(Search.SearchText(query, numResults, world.search(i, query)), [SearchCall(query)]))
    else if tc.name == GetWeatherName then
      if tc.arguments.NonObject? then Err(tc.arguments.error)
      else
        var location := Get(tc.arguments.fields, "location");
        Ok(Executed(Weather.GetWeather(cfg.weatherApiKey, location, world.weather(i, location)),
                    if Weather.Requests(cfg.weatherApiKey) then [WeatherCall(location)] else []))
    else Ok(Executed(Unavailable, []))
  }

  /** What the two known tools run: `web_search` the search assembly on
      `query` and `num_results` (5 when absent), with one search request;
      `get_weather` the weather assembly on `location`, with one weather
      request exactly when a key is set. */
  lemma KnownToolsRun(cfg: Config, world: World, i: nat, tc: ToolCall)
    ensures var r := Execute(cfg, world, i, tc);
            && (r.Ok? && tc.name == WebSearchName ==>
              && tc.arguments.Object?
              && var query := Get(tc.arguments.fields, "query");
                 var numResults := GetOr(tc.arguments.fields, "num_results", Int(5));
                 r.value == Executed(Search.SearchText(query, numResults, world.search(i, query)), [SearchCall(query)]))
            && (r.Ok? && tc.name == GetWeatherName ==>
              && tc.arguments.Object?
              && var location := Get(tc.arguments.fields, "location");
                 && r.value.content == Weather.GetWeather(cfg.weatherApiKey, location, world.weather(i, location))
                 && (r.value.log == [WeatherCall(location)] <==> cfg.weatherApiKey != "")
                 && (r.value.log == [] <==> cfg.weatherApiKey == ""))
  {
  }

  /** Where the tool loop stands: the tool messages appended so far, the
      requests made, and the exception that stopped it, if any. */
  datatype Dispatch = Dispatch(messages: seq<Message>, log: seq<Call>, failure: Option<string>)

  /** The tool loop over `calls`, in emission order: one tool message per
      call until a call's arguments make it raise. It asks nothing of the
      provider. */
  function RunTools(cfg: Config, world: World, calls: seq<ToolCall>): (d: Dispatch)
    ensures |d.messages| <= |calls|
    ensures forall c <- d.log :: !c.ProviderCall?
    decreases |calls|
  {
    if calls == [] then Dispatch([], [], None)
    else
      var last := |calls| - 1;
      var d := RunTools(cfg, world, calls[..last]);
      if d.failure.Some? then d
      else match Execute(cfg, world, last, calls[last])
        case Err(e) => Dispatch(d.messages, d.log, Some(e))
        case Ok(x) => Dispatch(d.messages + [Tool(calls[last].id, calls[last].name, x.content)], d.log + x.log, None)
  }

  /** Every call gets its tool message, in emission order, tagged with the
      call's id and function name and holding its executor's text ("Function
      not available" for an unknown name), unless a call's arguments make the
      loop raise: then the messages stop just before the first such call and
      its exception is the failure. */
  lemma {:induction false} ToolMessagesCorrelate(cfg: Config, world: World, calls: seq<ToolCall>)
    ensures var d := RunTools(cfg, world, calls);
            && (d.failure.None? ==> |d.messages| == |calls|)
            && (forall k :: 0 <= k < |d.messages| ==>
                  && !Rejects(calls[k])
                  && d.messages[k] == Tool(calls[k].id, calls[k].name, Execute(cfg, world, k, calls[k]).value.content))
            && (forall k :: 0 <= k < |d.messages| && calls[k].name != WebSearchName && calls[k].name != GetWeatherName ==>
                  d.messages[k].content == Unavailable)
            && (d.failure.Some? ==>
                  && |d.messages| < |calls|
                  && Rejects(calls[|d.messages|])
                  && d.failure.value == calls[|d.messages|].arguments.error)
  {
    if calls != [] {
      var last := |calls| - 1;
      ToolMessagesCorrelate(cfg, world, calls[..last]);
      var d := RunTools(cfg, world, calls[..last]);
      if d.failure.Some? {
        assert calls[..last][|d.messages|] == calls[|d.messages|];
      }
      assert forall k :: 0 <= k < last ==> calls[..last][k] == calls[k];
    }
  }

  /** The requests of a run of calls none of which raises: each call's
      requests, in emission order. */
  function LoopRequests(cfg: Config, world: World, calls: seq<ToolCall>): seq<Call>
    requires forall k :: 0 <= k < |calls| ==> !Rejects(calls[k])
    decreases |calls|
  {
    if calls == [] then []
    else
      var last := |calls| - 1;
      LoopRequests(cfg, world, calls[..last]) + Execute(cfg, world, last, calls[last]).value.log
  }

  /** The loop's requests are those of the calls it handled, in emission
      order, and nothing else: no executor runs for a call at or after the
      one that raised. */
  lemma {:induction false} LoopRequestsInOrder(cfg: Config, world: World, calls: seq<ToolCall>)
    ensures var d := RunTools(cfg, world, calls);
            && (forall k :: 0 <= k < |d.messages| ==> !Rejects(calls[k]))
            && d.log == LoopRequests(cfg, world, calls[..|d.messages|])
  {
    ToolMessagesCorrelate(cfg, world, calls);
    if calls == [] {
      assert calls[..0] == [];
    } else {
      var last := |calls| - 1;
      var prefix := calls[..last];
      LoopRequestsInOrder(cfg, world, prefix);
      ToolMessagesCorrelate(cfg, world, prefix);
      var d := RunTools(cfg, world, prefix);
      assert prefix[..|d.messages|] == calls[..|d.messages|];
      if d.failure.None? && Execute(cfg, world, last, calls[last]).Ok? {
        assert calls[..|calls|] == calls;
        assert calls[..|calls|][..last] == prefix;
      }
    }
  }

  /** A provider request that raises (the POST fails, or a 200 body has no
      `choices[0].message`) ends the run with the error record carrying
      that exception's text. */
  lemma RaisingRequestsAreReported(cfg: Config, world: World, goal: string)
    ensures var run := Plan(cfg, world, goal);
            forall k :: 0 <= k < |run.log| && run.log[k].ProviderCall? && world.complete(run.log[k].request).Failed? ==>
              run.result == PlanResult(goal, Some(PlanErrorPrefix + world.complete(run.log[k].request).error), Error)
  {
    var first := FirstRequest(cfg, goal);
    var reply := world.complete(first);
    if reply.Completed? && reply.toolCalls != [] {
      var d := RunTools(cfg, world, reply.toolCalls);
      if d.failure.None? {
        var second := SecondRequest(cfg, goal, reply, d.messages);
        assert Plan(cfg, world, goal) ==
               Run(Settle(cfg, goal, world.complete(second)), [ProviderCall(first)] + d.log + [ProviderCall(second)]);
      }
    }
  }

  /** Once a prefix of the calls has raised, the rest are never looked at. */
  lemma {:induction false} FailureStops(cfg: Config, world: World, calls: seq<ToolCall>, j: nat)
    requires j <= |calls|
    requires RunTools(cfg, world, calls[..j]).failure.Some?
    ensures RunTools(cfg, world, calls) == RunTools(cfg, world, calls[..j])
  {
    if j < |calls| {
      var last := |calls| - 1;
      assert calls[..last][..j] == calls[..j];
      FailureStops(cfg, world, calls[..last], j);
    } else {
      assert calls[..j] == calls;
    }
  }

  /** The second payload: the whole conversation, with no tools offered. */
  function SecondRequest(cfg: Config, goal: string, reply: Reply, toolMessages: seq<Message>): Request
    requires reply.Completed?
  {
    Request(cfg.model, Opening(goal) + [Assistant(reply.content, reply.toolCalls)] + toolMessages, false)
  }

  /** The outcome of one `create_plan` call, with every request it made. */
  datatype Run = Run(result: PlanResult, log: seq<Call>)

  /** `create_plan(goal)`. The goal is echoed, an error plan carries the
      error prefix, the first request is the opening conversation with the
      tools, a provider request appears only first and last, and a first
      reply with no tool calls is the plan and the only request. */
  function Plan(cfg: Config, world: World, goal: string): (run: Run)
    ensures run.result.goal == goal
    ensures run.result.status == Error ==>
              run.result.plan.Some? && StartsWith(run.result.plan.value, PlanErrorPrefix)
    ensures |run.log| >= 1 && run.log[0] == ProviderCall(FirstRequest(cfg, goal))
    ensures forall k :: 0 < k < |run.log| - 1 ==> !run.log[k].ProviderCall?
    ensures var reply := world.complete(FirstRequest(cfg, goal));
            reply.Completed? && reply.toolCalls == [] ==>
              run == Run(PlanResult(goal, reply.content, Success), [ProviderCall(FirstRequest(cfg, goal))])
  {
    var first := FirstRequest(cfg, goal);
    var reply := world.complete(first);
    if !reply.Completed? || reply.toolCalls == [] then
      Run(Settle(cfg, goal, reply), [ProviderCall(first)])
    else
      var d := RunTools(cfg, world, reply.toolCalls);
      if d.failure.Some? then
        Run(Failure(goal, d.failure.value), [ProviderCall(first)] + d.log)
      else
        var second := SecondRequest(cfg, goal, reply, d.messages);
        Run(Settle(cfg, goal, world.complete(second)), [ProviderCall(first)] + d.log + [ProviderCall(second)])
  }

  /** A second provider request is made only after a first reply with
      tool calls, offers no tools, and carries the opening conversation
      unchanged, then the first reply's message, then exactly one tool
      message per tool call, in order, tagged with its id and name and
      holding that call's executor text: the messages the tool loop built. */
  lemma SecondRequestShape(cfg: Config, world: World, goal: string)
    requires var run := Plan(cfg, world, goal);
             |run.log| > 1 && run.log[|run.log| - 1].ProviderCall?
    ensures var run := Plan(cfg, world, goal);
            var reply := world.complete(FirstRequest(cfg, goal));
            var second := run.log[|run.log| - 1].request;
            && reply.Completed? && |reply.toolCalls| > 0
            && !second.offersTools && second.model == cfg.model
            && Opening(goal) <= second.messages
            && |second.messages| == |Opening(goal)| + 1 + |reply.toolCalls|
            && second.messages[2] == Assistant(reply.content, reply.toolCalls)
            && second.messages == Opening(goal) + [Assistant(reply.content, reply.toolCalls)]
                                   + RunTools(cfg, world, reply.toolCalls).messages
            && forall k :: 0 <= k < |reply.toolCalls| ==>
                 && !Rejects(reply.toolCalls[k])
                 && second.messages[3 + k] ==
                    Tool(reply.toolCalls[k].id, reply.toolCalls[k].name,
                         Execute(cfg, world, k, reply.toolCalls[k]).value.content)
  {
    ToolMessagesCorrelate(cfg, world, world.complete(FirstRequest(cfg, goal)).toolCalls);
  }

  /** A tool call whose arguments make the loop raise (arguments that are
      not JSON, or not an object for a known tool) ends the run: when call
      `k` is the first such, the record is the error with that exception's
      text, and no second provider request is made. */
  lemma RejectedToolCallIsReported(cfg: Config, world: World, goal: string, k: nat)
    requires var reply := world.complete(FirstRequest(cfg, goal));
             && reply.Completed? && k < |reply.toolCalls|
             && Rejects(reply.toolCalls[k])
             && forall j :: 0 <= j < k ==> !Rejects(reply.toolCalls[j])
    ensures var first := FirstRequest(cfg, goal);
            var calls := world.complete(first).toolCalls;
            var run := Plan(cfg, world, goal);
            && run.result == PlanResult(goal, Some(PlanErrorPrefix + calls[k].arguments.error), Error)
            && run.log == [ProviderCall(first)] + RunTools(cfg, world, calls).log
            && forall c <- run.log[1..] :: !c.ProviderCall?
  {
    var calls := world.complete(FirstRequest(cfg, goal)).toolCalls;
    ToolMessagesCorrelate(cfg, world, calls);
  }

  /** When no tool call raises, the loop's messages go out in a second
      request, and a completed second reply is the plan, with status
      success. */
  lemma ToolResultsBecomePlan(cfg: Config, world: World, goal: string)
    requires var reply := world.complete(FirstRequest(cfg, goal));
             && reply.Completed? && reply.toolCalls != []
             && forall j :: 0 <= j < |reply.toolCalls| ==> !Rejects(reply.toolCalls[j])
    ensures var first := FirstRequest(cfg, goal);
            var reply := world.complete(first);
            var d := RunTools(cfg, world, reply.toolCalls);
            var run := Plan(cfg, world, goal);
            var second := SecondRequest(cfg, goal, reply, d.messages);
            && run.log == [ProviderCall(first)] + d.log + [ProviderCall(second)]
            && (world.complete(second).Completed? ==>
                  run.result == PlanResult(goal, world.complete(second).content, Success))
  {
    var calls := world.complete(FirstRequest(cfg, goal)).toolCalls;
    ToolMessagesCorrelate(cfg, world, calls);
  }

  /** A refused provider request, first or second, ends the run with the
      error that refusal gives: the same rule on both calls. */
  lemma RefusalsAreReported(cfg: Config, world: World, goal: string)
    ensures var run := Plan(cfg, world, goal);
            forall k :: 0 <= k < |run.log| && run.log[k].ProviderCall? && world.complete(run.log[k].request).Refused? ==>
              var reply := world.complete(run.log[k].request);
              run.result == Failure(goal, RefusalText(cfg.model, reply.status, reply.errorObject, reply.body))
  {
    var first := FirstRequest(cfg, goal);
    var reply := world.complete(first);
    if reply.Completed? && reply.toolCalls != [] {
      var d := RunTools(cfg, world, reply.toolCalls);
      if d.failure.None? {
        var second := SecondRequest(cfg, goal, reply, d.messages);
        assert Plan(cfg, world, goal) ==
               Run(Settle(cfg, goal, world.complete(second)), [ProviderCall(first)] + d.log + [ProviderCall(second)]);
      }
    }
  }

  /** The error plan of a decommissioned-model refusal names the model. */
  lemma DecommissionedNamesModel(goal: string, model: string, status: int, errorObject: Option<ErrorObject>, body: string)
    requires Decommissioned(errorObject)
    ensures Contains(Failure(goal, RefusalText(model, status, errorObject, body)).plan.value, "'" + model + "'")
  {
    ContainsAfter(PlanErrorPrefix, RefusalText(model, status, errorObject, body), "'" + model + "'");
  }

  const ParisGoal := "Plan a 1-day trip to Paris"
  const LouvrePlan := "Visit the Louvre..."

  /** A provider that asks for the weather in Paris and then answers with
      a fixed plan: the plan is that answer, and the run makes exactly one
      weather lookup, for "Paris", between the two provider requests. */
  lemma ParisScenario(cfg: Config, world: World)
    requires cfg.weatherApiKey != ""
    requires world.complete(FirstRequest(cfg, ParisGoal)) ==
             Completed(None, [ToolCall("call_1", GetWeatherName, Object(map["location" := Str("Paris")]))])
    requires forall r: Request :: !r.offersTools ==> world.complete(r) == Completed(Some(LouvrePlan), [])
    ensures Plan(cfg, world, ParisGoal).result == PlanResult(ParisGoal, Some(LouvrePlan), Success)
    ensures var log := Plan(cfg, world, ParisGoal).log;
            |log| == 3 && log[1] == WeatherCall(Str("Paris")) && log[2].ProviderCall?
  {
    var calls := world.complete(FirstRequest(cfg, ParisGoal)).toolCalls;
    assert calls[..0] == [];
    assert WebSearchName[0] != GetWeatherName[0];
    assert Execute(cfg, world, 0, calls[0]).value.log == [WeatherCall(Str("Paris"))];
    assert RunTools(cfg, world, calls).log == [WeatherCall(Str("Paris"))];
  }

  /** `create_plan`, as the source runs it: the conversation is a list that
      grows by appends, and the tool calls are handled in a loop. */
  method CreatePlan(cfg: Config, world: World, goal: string) returns (result: PlanResult, log: seq<Call>)
    ensures Run(result, log) == Plan(cfg, world, goal)
  {
    var messages := Opening(goal);
    var first := Request(cfg.model, messages, true);
    log := [ProviderCall(first)];
    var reply := world.complete(first);
    if !reply.Completed? {
      result := Settle(cfg, goal, reply);
      return;
    }
    messages := messages + [Assistant(reply.content, reply.toolCalls)];
    if reply.toolCalls == [] {
      result := PlanResult(goal, reply.content, Success);
      return;
    }
    var failure: Option<string>;
    messages, log, failure := HandleToolCalls(cfg, world, reply.toolCalls, messages, log);
    if failure.Some? {
      result := Failure(goal, failure.value);
      return;
    }
    var second := Request(cfg.model, messages, false);
    log := log + [ProviderCall(second)];
    result := Settle(cfg, goal, world.complete(second));
  }

  /** The `for tool_call in message["tool_calls"]` loop: append one tool
      message per call and record the requests its executor makes, until a
      call raises, whose exception is then the failure. */
  method HandleToolCalls(cfg: Config, world: World, calls: seq<ToolCall>, conversation: seq<Message>, requests: seq<Call>)
    returns (messages: seq<Message>, log: seq<Call>, failure: Option<string>)
    ensures var d := RunTools(cfg, world, calls);
            messages == conversation + d.messages && log == requests + d.log && failure == d.failure
  {
    messages := conversation;
    log := requests;
    var i := 0;
    while i < |calls|
      invariant 0 <= i <= |calls|
      invariant RunTools(cfg, world, calls[..i]).failure.None?
      invariant messages == conversation + RunTools(cfg, world, calls[..i]).messages
      invariant log == requests + RunTools(cfg, world, calls[..i]).log
    {
      var call := calls[i];
      assert calls[..i + 1][..i] == calls[..i];
      var outcome := CallTool(cfg, world, i, call);
      if outcome.Err? {
        failure := Some(outcome.error);
        FailureStops(cfg, world, calls, i + 1);
        return;
      }
      log := log + outcome.value.log;
      messages := messages + [Tool(call.id, call.name, outcome.value.content)];
      i := i + 1;
    }
    assert calls[..|calls|] == calls;
    failure := None;
  }

  /** The body of the tool loop for the call at position `i`: decode the
      arguments, run the executor its name selects, or raise. */
  method CallTool(cfg: Config, world: World, i: nat, call: ToolCall) returns (outcome: Result<Executed>)
    ensures outcome == Execute(cfg, world, i, call)
  {
    var arguments := call.arguments;
    if arguments.Undecodable? {
      return Err(arguments.error);
    }
    if call.name == WebSearchName {
      if arguments.NonObject? {
        return Err(arguments.error);
      }
      var query := Get(arguments.fields, "query");
      var numResults := GetOr(arguments.fields, "num_results", Int(5));
      var content := Search.WebSearch(query, numResults, world.search(i, query));
      outcome := Ok(Executed(content, [SearchCall(query)]));
    } else if call.name == GetWeatherName {
      if arguments.NonObject? {
        return Err(arguments.error);
      }
      var location := Get(arguments.fields, "location");
      var requested: seq<Call> := [];
      if Weather.Requests(cfg.weatherApiKey) {
        requested := [WeatherCall(location)];
      }
      var content := Weather.GetWeather(cfg.weatherApiKey, location, world.weather(i, location));
      outcome := Ok(Executed(content, requested));
    } else {
      outcome := Ok(Executed(Unavailable, []));
    }
  }
}
