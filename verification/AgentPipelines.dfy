// The two pipelines in the form the program has them: loops that fill lists while they call the
// tool client. Each is proved to compute the function of AgentPlan that describes it.

module AgentPipelines {
  import opened Options
  import opened AgentPlan

  class ToolsClient {
    const world: World
    var calls: seq<Call>

    constructor (world: World)
      ensures this.world == world && calls == []
    {
      this.world := world;
      calls := [];
    }

    method Send(call: Call) returns (res: Response)
      modifies this
      ensures calls == old(calls) + [call] && res == world.answer(old(calls), call)
    {
      res := world.answer(calls, call);
      calls := calls + [call];
    }
  }

  // The loop of execute_plan. It gives up, without an outcome, where int() raises.
  method ExecutePlan(client: ToolsClient, steps: seq<Step>) returns (outcome: Option<Trace>)
    modifies client
    ensures outcome == LegacyRun(client.world, START.(calls := old(client.calls)), steps)
    ensures outcome.Some? ==> outcome.value.calls == client.calls
  {
    var w := client.world;
    var t := START.(calls := client.calls);
    ghost var start := t;
    for i := 0 to |steps|
      invariant t.calls == client.calls
      invariant LegacyRun(w, t, steps[i..]) == LegacyRun(w, start, steps)
    {
      assert steps[i..][0] == steps[i] && steps[i..][1..] == steps[i + 1..];
      var u := ExecuteStep(client, t, steps[i]);
      if u.None? {
        return None;
      }
      t := u.value;
    }
    outcome := Some(t);
  }

  method ExecuteStep(client: ToolsClient, t: Trace, s: Step) returns (outcome: Option<Trace>)
    requires t.calls == client.calls
    modifies client
    ensures outcome == LegacyStep(client.world, t, s)
    ensures outcome.Some? ==> outcome.value.calls == client.calls
  {
    var w := client.world;
    var calledTools, calledArgs := t.calledTools + [s.tool], t.calledArgs + s.args;
    var toolResults, retryCount, finalResponse := t.attempts, t.retryCount, t.response;
    var ok := true;
    if s.tool == PLACE {
      var quantity := ToInt(w, Get(s.args, "quantity", Int(1)));
      if quantity.None? {
        return None;
      }
      var item, address := Get(s.args, "item_name", Str("")), Get(s.args, "address", Str(""));
      ghost var tries := PlaceTries(w, t.calls, t.attempts, item, quantity.value, address);
      var res := client.Send(Place(item, quantity.value, address, 0));
      toolResults := toolResults + [Attempt(s.tool, Some(FromClient(res)), false)];
      var currentTry := 0;
      while !res.ok && currentTry < w.maxRetry
        invariant retryCount == t.retryCount + currentTry
        invariant RetryFrom(w, Tries(client.calls, toolResults, res, currentTry), item, quantity.value, address) ==
            tries
        decreases w.maxRetry - currentTry
      {
        currentTry := currentTry + 1;
        retryCount := retryCount + 1;
        res := client.Send(Place(item, quantity.value, address, currentTry));
        toolResults := toolResults + [Attempt(RetryName(s.tool, currentTry), Some(FromClient(res)), false)];
      }
      finalResponse := LegacyPlaceText(res);
      ok := res.ok;
    } else if s.tool == QUERY {
      var res := client.Send(Query(Get(s.args, "order_id", Str(""))));
      toolResults := toolResults + [Attempt(s.tool, Some(FromClient(res)), false)];
      finalResponse := if res.ok then "订单查询完成。" else "订单不存在或查询失败。";
      ok := res.ok;
    } else if s.tool == CANCEL {
      var res := client.Send(Cancel(Get(s.args, "order_id", Str(""))));
      toolResults := toolResults + [Attempt(s.tool, Some(FromClient(res)), false)];
      finalResponse := if res.ok then "订单取消完成。" else "订单取消失败。";
      ok := res.ok;
    } else {
      toolResults := toolResults + [Attempt(ASK, Some(Asked(None)), false)];
      finalResponse := "参数不足或请求不合理，请补充信息。";
    }
    var ending := Ending(if s.tool in [PLACE, QUERY, CANCEL] then s.tool else ASK, ok);
    outcome := Some(Trace(client.calls, calledTools, calledArgs, retryCount, toolResults, finalResponse,
      t.endings + [ending]));
  }

  // ToolExecutor._validate_params: the loop stops at the first field that is missing or ill-typed.
  method ValidateParams(schema: seq<Field>, params: Args) returns (valid: bool)
    ensures valid <==> forall f :: f in schema ==> FieldOk(f, params)
  {
    for i := 0 to |schema|
      invariant forall j :: 0 <= j < i ==> FieldOk(schema[j], params)
    {
      var f := schema[i];
      if f.required && f.name !in params {
        assert f in schema && !FieldOk(f, params);
        return false;
      }
      if f.name in params && !HasType(params[f.name], f.expected) {
        assert f in schema && !FieldOk(f, params);
        return false;
      }
    }
    valid := true;
  }

  // LegacyToolAdapter._execute_place_order.
  method ExecutePlaceOrder(client: ToolsClient, params: Args) returns (e: Execution)
    requires Accepted(Step(PLACE, params))
    modifies client
    ensures e == AdapterExecute(client.world, old(client.calls), Step(PLACE, params)) && client.calls == e.calls
  {
    assert Schema(PLACE).value[1] in Schema(PLACE).value;
    var w := client.world;
    var q := params["quantity"];
    var quantity := if q.Int? then q.n else if q.b then 1 else 0;
    var item, address := Get(params, "item_name", Str("")), Get(params, "address", Str(""));
    ghost var tries := PlaceTries(w, client.calls, [], item, quantity, address);
    var res := client.Send(Place(item, quantity, address, 0));
    var attempts := [Attempt(PLACE, Some(FromClient(res)), false)];
    assert [] + attempts == attempts;
    var currentTry := 0;
    while !res.ok && currentTry < w.maxRetry
      invariant RetryFrom(w, Tries(client.calls, attempts, res, currentTry), item, quantity, address) == tries
      decreases w.maxRetry - currentTry
    {
      currentTry := currentTry + 1;
      res := client.Send(Place(item, quantity, address, currentTry));
      attempts := attempts + [Attempt(RetryName(PLACE, currentTry), Some(FromClient(res)), false)];
    }
    var text := TEXT_ORDER_FAIL;
    if res.ok {
      text := if res.orderId.Some? && res.orderId.value != "" then TEXT_ORDER_OK + res.orderId.value
        else TEXT_ORDER_OK_SIMPLE;
    }
    e := Execution(client.calls, attempts, currentTry, text, res.ok);
  }

  // ToolExecutor.execute over the legacy registry: None is the error result it builds when the
  // tool is not registered or its params are refused.
  method ExecuteTool(client: ToolsClient, tool: string, params: Args) returns (result: Option<Execution>)
    modifies client
    ensures result.Some? <==> Accepted(Step(tool, params))
    ensures result.None? ==> client.calls == old(client.calls)
    ensures result.Some? ==>
      result.value == AdapterExecute(client.world, old(client.calls), Step(tool, params))
        && client.calls == result.value.calls
  {
    var schema := Schema(tool);
    if schema.None? {
      return None;
    }
    var valid := ValidateParams(schema.value, params);
    if !valid {
      return None;
    }
    assert Accepted(Step(tool, params));
    if tool == ASK {
      var answer := Asked(Some(Get(params, "reason", Str("missing args"))));
      result := Some(Execution(client.calls, [Attempt(ASK, Some(answer), false)], 0, TEXT_ASK_USER, true));
    } else if tool == PLACE {
      var e := ExecutePlaceOrder(client, params);
      result := Some(e);
    } else if tool == QUERY {
      var res := client.Send(Query(Get(params, "order_id", Str(""))));
      var text := if res.ok then TEXT_QUERY_OK else TEXT_QUERY_FAIL;
      result := Some(Execution(client.calls, [Attempt(tool, Some(FromClient(res)), false)], 0, text, res.ok));
    } else {
      var res := client.Send(Cancel(Get(params, "order_id", Str(""))));
      var text := if res.ok then TEXT_CANCEL_OK else TEXT_CANCEL_FAIL;
      result := Some(Execution(client.calls, [Attempt(tool, Some(FromClient(res)), false)], 0, text, res.ok));
    }
  }

  // ToolNode.execute.
  method RunToolNode(client: ToolsClient, steps: seq<Step>) returns (t: Trace)
    modifies client
    ensures t == PlatformRun(client.world, START.(calls := old(client.calls)), steps)
    ensures t.calls == client.calls
  {
    var w := client.world;
    t := START.(calls := client.calls);
    ghost var start := t;
    for i := 0 to |steps|
      invariant t.calls == client.calls
      invariant PlatformRun(w, t, steps[i..]) == PlatformRun(w, start, steps)
    {
      assert steps[i..][0] == steps[i] && steps[i..][1..] == steps[i + 1..];
      var s := steps[i];
      ghost var next := PlatformStep(w, t, s);
      var calledTools, calledArgs := t.calledTools + [s.tool], t.calledArgs + s.args;
      var e := ExecuteTool(client, s.tool, s.args);
      if e.Some? {
        t := Trace(client.calls, calledTools, calledArgs, t.retryCount + e.value.retries, t.attempts + e.value.attempts,
                   e.value.text, t.endings + [Ending(s.tool, e.value.ok)]);
      } else {
        t := Trace(client.calls, calledTools, calledArgs, t.retryCount, t.attempts + [Attempt(s.tool, None, true)],
                   TEXT_ASK_USER, t.endings + [Ending(s.tool, false)]);
      }
      assert t == next;
    }
  }
}
