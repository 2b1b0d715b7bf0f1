// One plan, two pipelines: execute_plan of agent-eval/scripts/run_agent_eval.py, and the
// ToolNode, ToolExecutor and LegacyToolAdapter of ai_platform that replace it.

module AgentPlan {
  import opened Options
  import opened Decimals

  const PLACE := "place_order"
  const QUERY := "query_order"
  const CANCEL := "cancel_order"
  const ASK := "ask_user"

  datatype Value = Str(s: string) | Int(n: int) | Bool(b: bool) | Other(id: nat)
  type Args = map<string, Value>
  datatype Step = Step(tool: string, args: Args)

  datatype Call =
    | Place(itemName: Value, quantity: int, address: Value, retryIndex: nat)
    | Query(orderId: Value)
    | Cancel(orderId: Value)

  // The parts of a client answer that the pipelines look at, and everything else as one payload.
  datatype Response = Response(ok: bool, orderId: Option<string>, payload: nat)

  datatype Result = FromClient(response: Response) | Asked(reason: Option<Value>)

  function ResultOk(r: Result): bool { r.Asked? || r.response.ok }

  datatype Attempt = Attempt(tool: string, result: Option<Result>, error: bool)

  // How a step ended: the tool it ran and whether the last result was ok.
  datatype Ending = Ending(tool: string, ok: bool)

  datatype Trace = Trace(
    calls: seq<Call>, calledTools: seq<string>, calledArgs: Args, retryCount: nat, attempts: seq<Attempt>,
    response: string, endings: seq<Ending>)

  const START := Trace([], [], map[], 0, [], "已处理。", [])

  // The world of a run: how the client answers after any history of calls, what int() makes of
  // values that are no integers, and AGENT_MAX_RETRY.
  datatype World = World(answer: (seq<Call>, Call) -> Response, convert: Value -> Option<int>, maxRetry: int)

  function Get(args: Args, name: string, default: Value): Value {
    if name in args then args[name] else default
  }

  function ToInt(w: World, v: Value): Option<int> {
    match v
    case Int(n) => Some(n)
    case Bool(b) => Some(if b then 1 else 0)
    case _ => w.convert(v)
  }

  function RetryName(tool: string, k: nat): string { tool + "_retry_" + NatText(k) }

  // ---- What both retry loops do, from attempt k with answer res on ----

  datatype Tries = Tries(calls: seq<Call>, attempts: seq<Attempt>, last: Response, retries: nat)

  function RetryFrom(w: World, t: Tries, item: Value, quantity: int, address: Value): Tries
    decreases w.maxRetry - t.retries
  {
    if t.last.ok || t.retries >= w.maxRetry then t
    else
      var k := t.retries + 1;
      var call := Place(item, quantity, address, k);
      var res := w.answer(t.calls, call);
      RetryFrom(w, Tries(t.calls + [call], t.attempts + [Attempt(RetryName(PLACE, k), Some(FromClient(res)), false)],
        res, k),
                item, quantity, address)
  }

  function PlaceTries(w: World, calls: seq<Call>, attempts: seq<Attempt>, item: Value, quantity: int,
      address: Value): Tries {
    var call := Place(item, quantity, address, 0);
    var res := w.answer(calls, call);
    RetryFrom(w, Tries(calls + [call], attempts + [Attempt(PLACE, Some(FromClient(res)), false)], res, 0), item,
      quantity, address)
  }

  function PlaceCalls(n: nat, item: Value, quantity: int, address: Value): seq<Call> {
    if n == 0 then [] else PlaceCalls(n - 1, item, quantity, address) + [Place(item, quantity, address, n - 1)]
  }

  // After calls numbered 0, ..., retries: all answers but the last were refusals, and `last` is the last.
  ghost predicate Tried(w: World, before: seq<Call>, t: Tries, item: Value, quantity: int, address: Value) {
    && t.calls == before + PlaceCalls(t.retries + 1, item, quantity, address)
    && t.last == w.answer(before + PlaceCalls(t.retries, item, quantity, address),
      Place(item, quantity, address, t.retries))
    && (forall i: nat :: i < t.retries ==>
          !w.answer(before + PlaceCalls(i, item, quantity, address), Place(item, quantity, address, i)).ok)
    && (t.retries > 0 ==> t.retries <= w.maxRetry)
  }

  lemma {:induction false} RetriesKeepTrying(w: World, before: seq<Call>, t: Tries, item: Value, quantity: int,
      address: Value)
    requires Tried(w, before, t, item, quantity, address)
    ensures
      var p := RetryFrom(w, t, item, quantity, address);
      Tried(w, before, p, item, quantity, address) && (p.last.ok || p.retries >= w.maxRetry)
    decreases w.maxRetry - t.retries
  {
    if !t.last.ok && t.retries < w.maxRetry {
      var k := t.retries + 1;
      var call := Place(item, quantity, address, k);
      var res := w.answer(t.calls, call);
      var next := Tries(t.calls + [call], t.attempts + [Attempt(RetryName(PLACE, k), Some(FromClient(res)), false)],
        res, k);
      assert next.calls == before + PlaceCalls(k + 1, item, quantity, address);
      RetriesKeepTrying(w, before, next, item, quantity, address);
    }
  }

  // The client is called with retry indices 0, 1, ..., and the calls stop exactly at the first answer
  // that is ok or when the retries are used up.
  lemma CallsStopAtFirstSuccess(w: World, before: seq<Call>, attempts: seq<Attempt>, item: Value, quantity: int,
      address: Value)
    ensures
      var p := PlaceTries(w, before, attempts, item, quantity, address);
      Tried(w, before, p, item, quantity, address) && (p.last.ok || p.retries >= w.maxRetry)
  {
    var call := Place(item, quantity, address, 0);
    var res := w.answer(before, call);
    assert PlaceCalls(1, item, quantity, address) == [call]
      && before + PlaceCalls(0, item, quantity, address) == before;
    RetriesKeepTrying(w, before,
      Tries(before + [call], attempts + [Attempt(PLACE, Some(FromClient(res)), false)], res, 0),
                      item, quantity, address);
  }

  // ---- execute_plan ----

  function LegacyPlaceText(r: Response): string {
    if r.ok then if r.orderId.Some? && r.orderId.value != "" then "已下单，订单号 " + r.orderId.value else "已下单。"
    else "下单失败，请稍后重试。"
  }

  // None when int() of the quantity raises.
  function LegacyStep(w: World, t: Trace, s: Step): Option<Trace> {
    var u := t.(calledTools := t.calledTools + [s.tool], calledArgs := t.calledArgs + s.args);
    if s.tool == PLACE then
      var quantity := ToInt(w, Get(s.args, "quantity", Int(1)));
      if quantity.None? then None
      else
        var p := PlaceTries(w, t.calls, t.attempts, Get(s.args, "item_name", Str("")), quantity.value,
          Get(s.args, "address", Str("")));
        Some(u.(calls := p.calls, attempts := p.attempts, retryCount := t.retryCount + p.retries,
                response := LegacyPlaceText(p.last), endings := t.endings + [Ending(PLACE, p.last.ok)]))
    else if s.tool == QUERY || s.tool == CANCEL then
      var id := Get(s.args, "order_id", Str(""));
      var call := if s.tool == QUERY then Query(id) else Cancel(id);
      var res := w.answer(t.calls, call);
      Some(u.(calls := t.calls + [call], attempts := t.attempts + [Attempt(s.tool, Some(FromClient(res)), false)],
              response := if s.tool == QUERY then if res.ok then "订单查询完成。" else "订单不存在或查询失败。"
                          else if res.ok then "订单取消完成。" else "订单取消失败。",
              endings := t.endings + [Ending(s.tool, res.ok)]))
    else
      Some(u.(attempts := t.attempts + [Attempt(ASK, Some(Asked(None)), false)], response := "参数不足或请求不合理，请补充信息。",
              endings := t.endings + [Ending(ASK, true)]))
  }

  function LegacyRun(w: World, t: Trace, steps: seq<Step>): Option<Trace>
    decreases |steps|
  {
    if steps == [] then Some(t)
    else
      var u := LegacyStep(w, t, steps[0]);
      if u.None? then None else LegacyRun(w, u.value, steps[1..])
  }

  // ---- ToolExecutor and LegacyToolAdapter ----

  datatype Type = StrType | IntType
  datatype Field = Field(name: string, expected: Type, required: bool)

  // isinstance; a Python bool is an int.
  predicate HasType(v: Value, t: Type) {
    match t
    case StrType => v.Str?
    case IntType => v.Int? || v.Bool?
  }

  function Schema(tool: string): Option<seq<Field>> {
    if tool == PLACE then Some([Field("item_name", StrType, true), Field("quantity", IntType, true),
      Field("address", StrType, true)])
    else if tool == QUERY || tool == CANCEL then Some([Field("order_id", StrType, true)])
    else if tool == ASK then Some([Field("reason", StrType, false)])
    else None
  }

  predicate FieldOk(f: Field, args: Args) {
    if f.name in args then HasType(args[f.name], f.expected) else !f.required
  }

  // The tool is registered and its params satisfy the declared schema.
  predicate Accepted(s: Step) {
    Schema(s.tool).Some? && forall f | f in Schema(s.tool).value :: FieldOk(f, s.args)
  }

  const TEXT_ASK_USER := "参数不足或请求不合理，请补充信息。"
  const TEXT_ORDER_OK := "已下单，订单号 "
  const TEXT_ORDER_OK_SIMPLE := "已下单。"
  const TEXT_ORDER_FAIL := "下单失败，请稍后重试。"
  const TEXT_QUERY_OK := "订单查询完成。"
  const TEXT_QUERY_FAIL := "订单不存在或查询失败。"
  const TEXT_CANCEL_OK := "订单取消完成。"
  const TEXT_CANCEL_FAIL := "订单取消失败。"

  datatype Execution = Execution(calls: seq<Call>, attempts: seq<Attempt>, retries: nat, text: string, ok: bool)

  function AdapterExecute(w: World, calls: seq<Call>, s: Step): Execution
    requires Accepted(s)
  {
    if s.tool == ASK then
      Execution(calls, [Attempt(ASK, Some(Asked(Some(Get(s.args, "reason", Str("missing args"))))), false)], 0,
        TEXT_ASK_USER, true)
    else if s.tool == PLACE then
      assert Schema(PLACE).value[0] in Schema(s.tool).value && Schema(PLACE).value[1] in Schema(s.tool).value;
      var quantity := s.args["quantity"];
      var p := PlaceTries(w, calls, [], Get(s.args, "item_name", Str("")), if quantity.Int? then quantity.n
        else if quantity.b then 1 else 0,
                          Get(s.args, "address", Str("")));
      Execution(p.calls, p.attempts, p.retries,
                if !p.last.ok then TEXT_ORDER_FAIL
                else if p.last.orderId.Some? && p.last.orderId.value != "" then TEXT_ORDER_OK + p.last.orderId.value
                else TEXT_ORDER_OK_SIMPLE,
                p.last.ok)
    else
      var id := Get(s.args, "order_id", Str(""));
      var call := if s.tool == QUERY then Query(id) else Cancel(id);
      var res := w.answer(calls, call);
      Execution(calls + [call], [Attempt(s.tool, Some(FromClient(res)), false)], 0,
                if s.tool == QUERY then if res.ok then TEXT_QUERY_OK else TEXT_QUERY_FAIL
                else if res.ok then TEXT_CANCEL_OK else TEXT_CANCEL_FAIL,
                res.ok)
  }

  // A rejected call reaches no client and has no attempts; the node records one entry with the error.
  function PlatformStep(w: World, t: Trace, s: Step): Trace {
    var u := t.(calledTools := t.calledTools + [s.tool], calledArgs := t.calledArgs + s.args);
    if Accepted(s) then
      var e := AdapterExecute(w, t.calls, s);
      u.(calls := e.calls, attempts := t.attempts + e.attempts, retryCount := t.retryCount + e.retries,
        response := e.text,
         endings := t.endings + [Ending(s.tool, e.ok)])
    else
      u.(attempts := t.attempts + [Attempt(s.tool, None, true)], response := TEXT_ASK_USER,
        endings := t.endings + [Ending(s.tool, false)])
  }

  function PlatformRun(w: World, t: Trace, steps: seq<Step>): Trace
    decreases |steps|
  {
    if steps == [] then t else PlatformRun(w, PlatformStep(w, t, steps[0]), steps[1..])
  }

  // ---- Equivalence ----

  // The adapter adds the reason to the result of ask_user.
  function Erased(attempts: seq<Attempt>): seq<Attempt> {
    seq(|attempts|, i requires 0 <= i < |attempts| =>
      var a := attempts[i];
      if a.result.Some? && a.result.value.Asked? then a.(result := Some(Asked(None))) else a)
  }

  ghost predicate SameTrace(t: Trace, u: Trace) {
    u == t.(attempts := u.attempts) && Erased(t.attempts) == Erased(u.attempts)
  }

  lemma {:induction false} RetryShifts(w: World, t: Tries, prefix: seq<Attempt>, item: Value, quantity: int,
      address: Value)
    ensures
      var p := RetryFrom(w, t, item, quantity, address);
      RetryFrom(w, t.(attempts := prefix + t.attempts), item, quantity, address) == p.(attempts := prefix + p.attempts)
    decreases w.maxRetry - t.retries
  {
    if !t.last.ok && t.retries < w.maxRetry {
      var k := t.retries + 1;
      var call := Place(item, quantity, address, k);
      var res := w.answer(t.calls, call);
      var a := [Attempt(RetryName(PLACE, k), Some(FromClient(res)), false)];
      RetryShifts(w, Tries(t.calls + [call], t.attempts + a, res, k), prefix, item, quantity, address);
      assert prefix + (t.attempts + a) == (prefix + t.attempts) + a;
    }
  }

  lemma ErasedConcat(a: seq<Attempt>, b: seq<Attempt>)
    ensures Erased(a + b) == Erased(a) + Erased(b)
  {
  }

  // An accepted step has the same effect in both pipelines.
  lemma StepsAgree(w: World, t: Trace, u: Trace, s: Step)
    requires SameTrace(t, u) && Accepted(s)
    ensures LegacyStep(w, t, s).Some? && SameTrace(LegacyStep(w, t, s).value, PlatformStep(w, u, s))
  {
    var e := AdapterExecute(w, u.calls, s);
    ErasedConcat(t.attempts, e.attempts);
    ErasedConcat(u.attempts, e.attempts);
    if s.tool == PLACE {
      assert Schema(PLACE).value[1] in Schema(s.tool).value;
      var quantity := s.args["quantity"];
      var n := if quantity.Int? then quantity.n else if quantity.b then 1 else 0;
      var item, address := Get(s.args, "item_name", Str("")), Get(s.args, "address", Str(""));
      var call := Place(item, n, address, 0);
      var res := w.answer(t.calls, call);
      var first := [Attempt(PLACE, Some(FromClient(res)), false)];
      RetryShifts(w, Tries(t.calls + [call], first, res, 0), t.attempts, item, n, address);
      assert [] + first == first;
    } else {
      ErasedConcat(t.attempts, [Attempt(s.tool, Some(Asked(None)), false)]);
    }
  }

  lemma {:induction false} RunsAgree(w: World, t: Trace, u: Trace, steps: seq<Step>)
    requires SameTrace(t, u) && forall s | s in steps :: Accepted(s)
    ensures LegacyRun(w, t, steps).Some? && SameTrace(LegacyRun(w, t, steps).value, PlatformRun(w, u, steps))
    decreases |steps|
  {
    if steps != [] {
      StepsAgree(w, t, u, steps[0]);
      RunsAgree(w, LegacyStep(w, t, steps[0]).value, PlatformStep(w, u, steps[0]), steps[1..]);
    }
  }

  // ---- And only accepted plans agree ----

  // Some recorded attempt has no result.
  ghost predicate Unanswered(attempts: seq<Attempt>) {
    exists i :: 0 <= i < |attempts| && attempts[i].result.None?
  }

  lemma {:induction false} RetriesAreAnswered(w: World, t: Tries, item: Value, quantity: int, address: Value)
    requires !Unanswered(t.attempts)
    ensures !Unanswered(RetryFrom(w, t, item, quantity, address).attempts)
    decreases w.maxRetry - t.retries
  {
    if !t.last.ok && t.retries < w.maxRetry {
      var k := t.retries + 1;
      var call := Place(item, quantity, address, k);
      var res := w.answer(t.calls, call);
      RetriesAreAnswered(w,
        Tries(t.calls + [call], t.attempts + [Attempt(RetryName(PLACE, k), Some(FromClient(res)), false)], res, k),
                         item, quantity, address);
    }
  }

  lemma {:induction false} LegacyAttemptsAreAnswered(w: World, t: Trace, steps: seq<Step>)
    requires !Unanswered(t.attempts) && LegacyRun(w, t, steps).Some?
    ensures !Unanswered(LegacyRun(w, t, steps).value.attempts)
    decreases |steps|
  {
    if steps != [] {
      var s := steps[0];
      if s.tool == PLACE {
        var item, address := Get(s.args, "item_name", Str("")), Get(s.args, "address", Str(""));
        var quantity := ToInt(w, Get(s.args, "quantity", Int(1))).value;
        var call := Place(item, quantity, address, 0);
        var res := w.answer(t.calls, call);
        RetriesAreAnswered(w,
          Tries(t.calls + [call], t.attempts + [Attempt(PLACE, Some(FromClient(res)), false)], res, 0),
                           item, quantity, address);
      }
      LegacyAttemptsAreAnswered(w, LegacyStep(w, t, s).value, steps[1..]);
    }
  }

  lemma StepKeepsAttempts(w: World, t: Trace, s: Step)
    ensures t.attempts <= PlatformStep(w, t, s).attempts
  {
  }

  lemma {:induction false} RejectionStaysUnanswered(w: World, t: Trace, steps: seq<Step>)
    requires Unanswered(t.attempts) || exists s :: s in steps && !Accepted(s)
    ensures Unanswered(PlatformRun(w, t, steps).attempts)
    decreases |steps|
  {
    if steps != [] {
      var u := PlatformStep(w, t, steps[0]);
      StepKeepsAttempts(w, t, steps[0]);
      if Unanswered(t.attempts) {
        var i :| 0 <= i < |t.attempts| && t.attempts[i].result.None?;
        assert u.attempts[i].result.None?;
      } else if !Accepted(steps[0]) {
        assert u.attempts[|t.attempts|].result.None?;
      }
      RejectionStaysUnanswered(w, u, steps[1..]);
    }
  }

  lemma AnsweredDiffers(a: seq<Attempt>, b: seq<Attempt>)
    requires !Unanswered(a) && Unanswered(b)
    ensures Erased(a) != Erased(b)
  {
    var i :| 0 <= i < |b| && b[i].result.None?;
    assert Erased(b)[i].result.None?;
    if i < |a| {
      assert Erased(a)[i].result.Some?;
    }
  }

  // The refactored pipeline reproduces execute_plan, client call by client call, on exactly the
  // plans whose every step names a registered tool and passes its schema.
  lemma SameExactlyOnAcceptedPlans(w: World, steps: seq<Step>)
    ensures
      var legacy := LegacyRun(w, START, steps);
      (legacy.Some? && SameTrace(legacy.value, PlatformRun(w, START, steps))) <==> forall s :: s in steps ==>
        Accepted(s)
  {
    var legacy := LegacyRun(w, START, steps);
    if forall s :: s in steps ==> Accepted(s) {
      RunsAgree(w, START, START, steps);
    } else if legacy.Some? {
      LegacyAttemptsAreAnswered(w, START, steps);
      RejectionStaysUnanswered(w, START, steps);
      AnsweredDiffers(legacy.value.attempts, PlatformRun(w, START, steps).attempts);
    }
  }

  // An order without a quantity: execute_plan orders one, the executor rejects the step and orders nothing.
  lemma MissingQuantityIsNotPreserved(w: World, item: string, address: string)
    ensures
      var plan := [Step(PLACE, map["item_name" := Str(item), "address" := Str(address)])];
      && PlatformRun(w, START, plan).calls == []
      && LegacyRun(w, START, plan).Some?
      && Place(Str(item), 1, Str(address), 0) in LegacyRun(w, START, plan).value.calls
  {
    var s := Step(PLACE, map["item_name" := Str(item), "address" := Str(address)]);
    assert Schema(PLACE).value[1] in Schema(s.tool).value;
    var call := Place(Str(item), 1, Str(address), 0);
    var res := w.answer([], call);
    var first := Tries([call], [Attempt(PLACE, Some(FromClient(res)), false)], res, 0);
    RetriesExtend(w, first, Str(item), 1, Str(address));
    assert RetryFrom(w, first, Str(item), 1, Str(address)).calls[0] == call;
    assert [] + [call] == [call] && [] + first.attempts == first.attempts;
    assert [s][1..] == [];
    assert LegacyStep(w, START, s).Some?;
    assert LegacyRun(w, LegacyStep(w, START, s).value, []) == LegacyStep(w, START, s);
    assert PlatformRun(w, PlatformStep(w, START, s), []) == PlatformStep(w, START, s);
  }

  lemma {:induction false} RetriesExtend(w: World, t: Tries, item: Value, quantity: int, address: Value)
    ensures t.calls <= RetryFrom(w, t, item, quantity, address).calls
    decreases w.maxRetry - t.retries
  {
    if !t.last.ok && t.retries < w.maxRetry {
      var k := t.retries + 1;
      var call := Place(item, quantity, address, k);
      var res := w.answer(t.calls, call);
      RetriesExtend(w, Tries(t.calls + [call],
        t.attempts + [Attempt(RetryName(PLACE, k), Some(FromClient(res)), false)], res, k),
                    item, quantity, address);
    }
  }

  // ---- What a plan sends and reports ----

  predicate HasText(args: Args, name: string) { name in args && args[name].Str? }

  // The steps that pass the executor, field by field.
  lemma AcceptedMeans(s: Step)
    ensures Accepted(s) <==>
            || (s.tool == "place_order" && HasText(s.args, "item_name") && HasText(s.args, "address")
              && "quantity" in s.args && (s.args["quantity"].Int? || s.args["quantity"].Bool?))
            || ((s.tool == "query_order" || s.tool == "cancel_order") && HasText(s.args, "order_id"))
            || (s.tool == "ask_user" && ("reason" in s.args ==> HasText(s.args, "reason")))
  {
    if s.tool == PLACE {
      var fields := Schema(PLACE).value;
      assert fields[0] in fields && fields[1] in fields && fields[2] in fields;
    } else if s.tool == QUERY || s.tool == CANCEL || s.tool == ASK {
      assert Schema(s.tool).value[0] in Schema(s.tool).value;
    }
  }

  // The integer that is ordered; a bool counts as 1 or 0.
  function Ordered(v: Value): int {
    match v
    case Int(n) => n
    case Bool(b) => if b then 1 else 0
    case _ => 0
  }

  // An accepted order reaches the client with the item, the quantity and the address of the plan.
  lemma OrderIsSentAsGiven(w: World, t: Trace, s: Step)
    requires s.tool == "place_order" && HasText(s.args, "item_name") && HasText(s.args, "address")
    requires "quantity" in s.args && (s.args["quantity"].Int? || s.args["quantity"].Bool?)
    ensures
      var item, address := s.args["item_name"], s.args["address"];
      t.calls + [Place(item, Ordered(s.args["quantity"]), address, 0)] <= PlatformStep(w, t, s).calls
  {
    AcceptedMeans(s);
    var item, n, address := s.args["item_name"], Ordered(s.args["quantity"]), s.args["address"];
    var call := Place(item, n, address, 0);
    var res := w.answer(t.calls, call);
    RetriesExtend(w, Tries(t.calls + [call], [] + [Attempt(PLACE, Some(FromClient(res)), false)], res, 0), item, n,
      address);
  }

  // An accepted query or cancellation is one call with the order id of the plan, and a question is none.
  lemma OtherStepsAreSentAsGiven(w: World, t: Trace, s: Step)
    requires Accepted(s)
    ensures s.tool == "query_order" ==>
        HasText(s.args, "order_id") && PlatformStep(w, t, s).calls == t.calls + [Query(s.args["order_id"])]
    ensures s.tool == "cancel_order" ==>
        HasText(s.args, "order_id") && PlatformStep(w, t, s).calls == t.calls + [Cancel(s.args["order_id"])]
    ensures s.tool == "ask_user" ==> PlatformStep(w, t, s).calls == t.calls
  {
    AcceptedMeans(s);
  }

  // The attempts of an order after the given ones: the first bears the tool's name, and retry i a name with
  // its number.
  ghost predicate Numbered(before: seq<Attempt>, t: Tries) {
    && |t.attempts| == |before| + t.retries + 1 && before <= t.attempts
    && forall i: nat | i <= t.retries ::
      t.attempts[|before| + i].tool == if i == 0 then "place_order" else "place_order_retry_" + NatText(i)
  }

  lemma {:induction false} RetriesAreNumbered(w: World, before: seq<Attempt>, t: Tries, item: Value, quantity: int,
      address: Value)
    requires Numbered(before, t)
    ensures Numbered(before, RetryFrom(w, t, item, quantity, address))
    decreases w.maxRetry - t.retries
  {
    if !t.last.ok && t.retries < w.maxRetry {
      var k := t.retries + 1;
      var call := Place(item, quantity, address, k);
      var res := w.answer(t.calls, call);
      var attempts := t.attempts + [Attempt(RetryName(PLACE, k), Some(FromClient(res)), false)];
      RetriesAreNumbered(w, before, Tries(t.calls + [call], attempts, res, k), item, quantity, address);
    }
  }

  lemma AttemptsAreNumbered(w: World, calls: seq<Call>, before: seq<Attempt>, item: Value, quantity: int,
      address: Value)
    ensures Numbered(before, PlaceTries(w, calls, before, item, quantity, address))
  {
    var call := Place(item, quantity, address, 0);
    var res := w.answer(calls, call);
    RetriesAreNumbered(w, before,
      Tries(calls + [call], before + [Attempt(PLACE, Some(FromClient(res)), false)], res, 0), item, quantity, address);
  }

  // The calls that are retries.
  function Retries(calls: seq<Call>): nat {
    if calls == [] then 0
    else
      var last := calls[|calls| - 1];
      Retries(calls[..|calls| - 1]) + if last.Place? && last.retryIndex > 0 then 1 else 0
  }

  lemma RetriesSnoc(calls: seq<Call>, call: Call)
    ensures Retries(calls + [call]) == Retries(calls) + if call.Place? && call.retryIndex > 0 then 1 else 0
  {
    assert (calls + [call])[..|calls|] == calls;
  }

  lemma {:induction false} RetriesOfOneOrder(before: seq<Call>, n: nat, item: Value, quantity: int, address: Value)
    requires n >= 1
    ensures Retries(before + PlaceCalls(n, item, quantity, address)) == Retries(before) + n - 1
  {
    var front, last := before + PlaceCalls(n - 1, item, quantity, address), Place(item, quantity, address, n - 1);
    assert before + PlaceCalls(n, item, quantity, address) == front + [last];
    RetriesSnoc(front, last);
    if n > 1 {
      RetriesOfOneOrder(before, n - 1, item, quantity, address);
    } else {
      assert front == before;
    }
  }

  lemma OrderCountsRetries(w: World, before: seq<Call>, attempts: seq<Attempt>, item: Value, quantity: int,
      address: Value)
    ensures
      var p := PlaceTries(w, before, attempts, item, quantity, address);
      Retries(p.calls) == Retries(before) + p.retries
  {
    CallsStopAtFirstSuccess(w, before, attempts, item, quantity, address);
    RetriesOfOneOrder(before, PlaceTries(w, before, attempts, item, quantity, address).retries + 1, item, quantity,
      address);
  }

  lemma PlatformStepCountsRetries(w: World, t: Trace, s: Step)
    requires t.retryCount == Retries(t.calls)
    ensures PlatformStep(w, t, s).retryCount == Retries(PlatformStep(w, t, s).calls)
  {
    if Accepted(s) && s.tool == PLACE {
      var fields := Schema(PLACE).value;
      assert fields[1] in fields;
      var q := s.args["quantity"];
      OrderCountsRetries(w, t.calls, [], Get(s.args, "item_name", Str("")), if q.Int? then q.n else if q.b then 1
        else 0,
        Get(s.args, "address", Str("")));
    } else if Accepted(s) && (s.tool == QUERY || s.tool == CANCEL) {
      var id := Get(s.args, "order_id", Str(""));
      RetriesSnoc(t.calls, if s.tool == QUERY then Query(id) else Cancel(id));
    }
  }

  lemma {:induction false} PlatformRunCountsRetries(w: World, t: Trace, steps: seq<Step>)
    requires t.retryCount == Retries(t.calls)
    ensures PlatformRun(w, t, steps).retryCount == Retries(PlatformRun(w, t, steps).calls)
    decreases |steps|
  {
    if steps != [] {
      PlatformStepCountsRetries(w, t, steps[0]);
      PlatformRunCountsRetries(w, PlatformStep(w, t, steps[0]), steps[1..]);
    }
  }

  // The reported retry count of an executed plan is the number of client calls that were retries.
  lemma RetryCountCountsCalls(w: World, steps: seq<Step>)
    ensures PlatformRun(w, START, steps).retryCount == Retries(PlatformRun(w, START, steps).calls)
  {
    PlatformRunCountsRetries(w, START, steps);
  }

  // The text of an accepted step names a failure exactly when the step ended in one.
  lemma TextTellsTheEnding(w: World, t: Trace, s: Step)
    requires Accepted(s)
    ensures
      var u := PlatformStep(w, t, s);
      var ok := u.endings[|t.endings|].ok;
      && (u.response == "下单失败，请稍后重试。" <==> s.tool == "place_order" && !ok)
      && (u.response == "订单不存在或查询失败。" <==> s.tool == "query_order" && !ok)
      && (u.response == "订单取消失败。" <==> s.tool == "cancel_order" && !ok)
  {
    assert TEXT_ORDER_OK[0] == '已' && TEXT_ORDER_FAIL[0] == '下' && TEXT_QUERY_FAIL[0] == '订';
    if Accepted(s) && s.tool == PLACE {
      var u := PlatformStep(w, t, s);
      assert u.response == TEXT_ORDER_FAIL || u.response[0] == '已';
    }
  }

  lemma {:induction false} OlderArgsStay(w: World, t: Trace, steps: seq<Step>, name: string)
    requires name in t.calledArgs && forall s | s in steps :: name !in s.args
    ensures name in PlatformRun(w, t, steps).calledArgs
    ensures PlatformRun(w, t, steps).calledArgs[name] == t.calledArgs[name]
    decreases |steps|
  {
    if steps != [] {
      assert steps[0] in steps;
      OlderArgsStay(w, PlatformStep(w, t, steps[0]), steps[1..], name);
    }
  }

  // The reported arguments are, name by name, those of the last step that has the name.
  lemma {:induction false} LastArgsWin(w: World, t: Trace, before: seq<Step>, s: Step, after: seq<Step>, name: string)
    requires name in s.args && forall u | u in after :: name !in u.args
    ensures
      var called := PlatformRun(w, t, before + [s] + after).calledArgs;
      name in called && called[name] == s.args[name]
    decreases |before|
  {
    var steps := before + [s] + after;
    if before == [] {
      assert steps[0] == s && steps[1..] == after;
      OlderArgsStay(w, PlatformStep(w, t, s), after, name);
    } else {
      assert steps[0] == before[0] && steps[1..] == before[1..] + [s] + after;
      LastArgsWin(w, PlatformStep(w, t, before[0]), before[1..], s, after, name);
    }
  }
}
