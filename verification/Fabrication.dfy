// ai_platform/evaluation/fabrication.py: which tools a trace shows to have succeeded, and why the
// retry entries written by the pipelines of AgentPlan are read back correctly.

module Fabrication {
  import opened Options
  import opened Decimals
  import opened AgentPlan

  const RETRY := "_retry_"

  predicate Digits(s: string) { s != "" && AllDigits(s) }

  // What "_retry_\d+$" matches at the start of s: "$" also stands before one final line feed.
  predicate RetrySuffix(s: string) {
    RETRY <= s && (Digits(s[7..]) || (s[|s| - 1] == '\n' && Digits(s[7..|s| - 1])))
  }

  predicate Splits(tool: string, b: nat) {
    0 < b <= |tool| && '\n' !in tool[..b] && RetrySuffix(tool[b..])
  }

  // The lazy quantifier tries the shortest base first.
  function FirstSplit(tool: string, b: nat): (r: Option<nat>)
    requires b <= |tool|
    ensures r.Some? ==> Splits(tool, r.value)
    ensures r.None? ==> forall c :: b <= c <= |tool| ==> !Splits(tool, c)
    decreases |tool| - b
  {
    if Splits(tool, b) then Some(b)
    else if b == |tool| then None
    else FirstSplit(tool, b + 1)
  }

  function BaseToolName(tool: string): string {
    match FirstSplit(tool, 0)
    case Some(b) => tool[..b]
    case None => tool
  }

  lemma SuffixCharacters(s: string, i: nat)
    requires RetrySuffix(s) && 7 <= i < |s|
    ensures IsDigit(s[i]) || (i == |s| - 1 && s[i] == '\n')
  {
    if i < |s| - 1 || s[|s| - 1] != '\n' {
      assert i - 7 < |s[7..]| && s[7..][i - 7] == s[i];
      if !Digits(s[7..]) {
        assert s[7..|s| - 1][i - 7] == s[i];
      }
    }
  }

  // A name holds at most one retry suffix, so lazy and greedy matching agree.
  lemma SplitIsUnique(s: string, a: nat, b: nat)
    requires a <= b <= |s| && RetrySuffix(s[a..]) && RetrySuffix(s[b..])
    ensures a == b
  {
    assert s[b] == s[b..][0] == RETRY[0] && s[b + 1] == s[b..][1] == RETRY[1];
    if a < b {
      var d := b - a;
      assert s[a..][d] == '_' && s[a..][d + 1] == 'r';
      if d < 7 {
        assert RETRY[d] == '_';
        assert d == 6;
        SuffixCharacters(s[a..], 7);
      } else {
        SuffixCharacters(s[a..], d);
      }
    }
  }

  lemma RetryNameSplits(tool: string, k: nat)
    ensures RetrySuffix(RetryName(tool, k)[|tool|..]) && RetryName(tool, k)[..|tool|] == tool
  {
    var suffix := RetryName(tool, k)[|tool|..];
    assert suffix == RETRY + NatText(k);
    assert suffix[7..] == NatText(k);
    NatRoundTrip(k);
  }

  // base_tool_name undoes the retry naming for every k, for exactly the names that are not empty
  // and hold no line feed.
  lemma BaseUndoesRetryName(tool: string, k: nat)
    ensures BaseToolName(RetryName(tool, k)) == tool <==> tool != "" && '\n' !in tool
  {
    var name := RetryName(tool, k);
    RetryNameSplits(tool, k);
    var found := FirstSplit(name, 0);
    if found.Some? {
      assert RetrySuffix(name[found.value..]);
      if found.value <= |tool| {
        SplitIsUnique(name, found.value, |tool|);
      } else {
        SplitIsUnique(name, |tool|, found.value);
      }
    } else {
      assert !Splits(name, |tool|);
      assert |name| > |tool|;
    }
  }

  lemma SplitNamesEndInADigit(tool: string, b: nat)
    requires Splits(tool, b)
    ensures IsDigit(tool[|tool| - 1]) || tool[|tool| - 1] == '\n'
  {
    var s := tool[b..];
    assert RETRY <= s && |s| > 7;
    SuffixCharacters(s, |s| - 1);
    assert s[|s| - 1] == tool[|tool| - 1];
  }

  lemma ToolNamesStay()
    ensures BaseToolName(PLACE) == PLACE && BaseToolName(QUERY) == QUERY && BaseToolName(CANCEL) == CANCEL
        && BaseToolName(ASK) == ASK
  {
    OtherNamesStay(PLACE);
    OtherNamesStay(QUERY);
    OtherNamesStay(CANCEL);
    OtherNamesStay(ASK);
  }

  // Only a name that ends in a digit or a line feed is ever shortened.
  lemma OtherNamesStay(tool: string)
    requires tool != "" && !IsDigit(tool[|tool| - 1]) && tool[|tool| - 1] != '\n'
    ensures BaseToolName(tool) == tool
  {
    if FirstSplit(tool, 0).Some? {
      SplitNamesEndInADigit(tool, FirstSplit(tool, 0).value);
    }
  }

  // ---- Entries of tool_results ----

  datatype Status = NoStatus | StatusBool(b: bool) | StatusInt(n: int) | StatusOther
  datatype Report = NoMapping | Mapping(ok: Option<bool>, status: Status)
  datatype Entry = NoEntry | Entry(tool: string, result: Report)

  // The ok field decides; without one, an integer status in 200..299 that is no bool.
  predicate ReportOk(r: Report) {
    r.Mapping? && (if r.ok.Some? then r.ok.value else r.status.StatusInt? && 200 <= r.status.n < 300)
  }

  predicate Succeeded(e: Entry) {
    e.Entry? && e.tool != "" && ReportOk(e.result)
  }

  function Successful(entries: seq<Entry>): set<string> {
    set e | e in entries && Succeeded(e) :: BaseToolName(e.tool)
  }

  // A name is reported exactly for an entry that names a tool and says ok, or says nothing about ok and has a
  // status from 200 to 299.
  lemma SuccessfulMeans(entries: seq<Entry>, name: string)
    ensures name in Successful(entries) <==>
            exists i ::
              && 0 <= i < |entries| && entries[i].Entry? && entries[i].tool != ""
                && BaseToolName(entries[i].tool) == name
              && entries[i].result.Mapping?
              && (entries[i].result.ok == Some(true)
                || (entries[i].result.ok == None
                  && exists n :: 200 <= n <= 299 && entries[i].result.status == StatusInt(n)))
  {
    if name in Successful(entries) {
      var e :| e in entries && Succeeded(e) && BaseToolName(e.tool) == name;
      var i :| 0 <= i < |entries| && entries[i] == e;
      assert e.result.ok == None ==> e.result.status == StatusInt(e.result.status.n);
    }
  }

  method SuccessfulTools(entries: seq<Entry>) returns (names: set<string>)
    ensures names == Successful(entries)
  {
    names := {};
    for i := 0 to |entries|
      invariant names == Successful(entries[..i])
    {
      assert entries[..i + 1] == entries[..i] + [entries[i]];
      SuccessfulConcat(entries[..i], [entries[i]]);
      if entries[i].Entry? && entries[i].tool != "" && ReportOk(entries[i].result) {
        names := names + {BaseToolName(entries[i].tool)};
      }
    }
    assert entries[..|entries|] == entries;
  }

  lemma SuccessfulConcat(a: seq<Entry>, b: seq<Entry>)
    ensures Successful(a + b) == Successful(a) + Successful(b)
  {
    forall e | e in a + b
      ensures e in a || e in b
    {
    }
    assert forall e :: e in a || e in b ==> e in a + b;
  }

  function ReportOf(a: Attempt): Report {
    if a.result.None? then NoMapping else Mapping(Some(ResultOk(a.result.value)), NoStatus)
  }

  // The tool_results list that the evaluator reads back from a trace.
  function Recorded(attempts: seq<Attempt>): seq<Entry> {
    seq(|attempts|, i requires 0 <= i < |attempts| => Entry(attempts[i].tool, ReportOf(attempts[i])))
  }

  function OkTools(attempts: seq<Attempt>): set<string> { Successful(Recorded(attempts)) }

  // The tools of the steps that ended ok.
  function EndedOk(endings: seq<Ending>): set<string> {
    set e | e in endings && e.ok :: e.tool
  }

  lemma OkToolsConcat(a: seq<Attempt>, b: seq<Attempt>)
    ensures OkTools(a + b) == OkTools(a) + OkTools(b)
  {
    assert Recorded(a + b) == Recorded(a) + Recorded(b);
    SuccessfulConcat(Recorded(a), Recorded(b));
  }

  lemma OkToolsOne(a: Attempt)
    ensures OkTools([a]) ==
            if a.tool != "" && a.result.Some? && ResultOk(a.result.value) then {BaseToolName(a.tool)} else {}
  {
    var e := Entry(a.tool, ReportOf(a));
    assert Recorded([a]) == [e];
    assert e in [e];
  }

  lemma EndedOkSnoc(endings: seq<Ending>, e: Ending)
    ensures EndedOk(endings + [e]) == EndedOk(endings) + if e.ok then {e.tool} else {}
  {
    assert forall f :: f in endings + [e] <==> f in endings || f == e;
  }

  // The loop stops at the first answer that is ok, so the last answer tells the outcome.
  lemma {:induction false} RetriesTell(w: World, t: Tries, item: Value, quantity: int, address: Value)
    requires t.last.ok ==> PLACE in OkTools(t.attempts)
    ensures
      var p := RetryFrom(w, t, item, quantity, address);
      OkTools(p.attempts) == OkTools(t.attempts) + if p.last.ok then {PLACE} else {}
    decreases w.maxRetry - t.retries
  {
    if !t.last.ok && t.retries < w.maxRetry {
      var k := t.retries + 1;
      var call := Place(item, quantity, address, k);
      var res := w.answer(t.calls, call);
      var a := Attempt(RetryName(PLACE, k), Some(FromClient(res)), false);
      OkToolsConcat(t.attempts, [a]);
      OkToolsOne(a);
      BaseUndoesRetryName(PLACE, k);
      RetriesTell(w, Tries(t.calls + [call], t.attempts + [a], res, k), item, quantity, address);
    }
  }

  lemma PlaceTells(w: World, calls: seq<Call>, attempts: seq<Attempt>, item: Value, quantity: int, address: Value)
    ensures
      var p := PlaceTries(w, calls, attempts, item, quantity, address);
      OkTools(p.attempts) == OkTools(attempts) + if p.last.ok then {PLACE} else {}
  {
    var call := Place(item, quantity, address, 0);
    var res := w.answer(calls, call);
    var a := Attempt(PLACE, Some(FromClient(res)), false);
    OkToolsConcat(attempts, [a]);
    OkToolsOne(a);
    ToolNamesStay();
    RetriesTell(w, Tries(calls + [call], attempts + [a], res, 0), item, quantity, address);
  }

  // A step that adds one attempt tells its ending by that attempt.
  lemma OneAttemptTells(attempts: seq<Attempt>, endings: seq<Ending>, a: Attempt, e: Ending)
    requires OkTools(attempts) == EndedOk(endings)
    requires a.tool == e.tool && (e.ok ==> a.tool != "" && BaseToolName(a.tool) == a.tool)
    requires e.ok <==> a.result.Some? && ResultOk(a.result.value)
    ensures OkTools(attempts + [a]) == EndedOk(endings + [e])
  {
    OkToolsConcat(attempts, [a]);
    OkToolsOne(a);
    EndedOkSnoc(endings, e);
  }

  lemma LegacyStepTells(w: World, t: Trace, s: Step)
    requires OkTools(t.attempts) == EndedOk(t.endings) && LegacyStep(w, t, s).Some?
    ensures OkTools(LegacyStep(w, t, s).value.attempts) == EndedOk(LegacyStep(w, t, s).value.endings)
  {
    var u := LegacyStep(w, t, s).value;
    if s.tool == PLACE {
      EndedOkSnoc(t.endings, u.endings[|t.endings|]);
      PlaceTells(w, t.calls, t.attempts, Get(s.args, "item_name", Str("")),
                 ToInt(w, Get(s.args, "quantity", Int(1))).value, Get(s.args, "address", Str("")));
    } else {
      ToolNamesStay();
      OneAttemptTells(t.attempts, t.endings, u.attempts[|t.attempts|], u.endings[|t.endings|]);
    }
  }

  lemma PlaceStepTells(w: World, t: Trace, s: Step)
    requires s.tool == PLACE && Accepted(s)
    ensures
      var e := AdapterExecute(w, t.calls, s);
      OkTools(t.attempts + e.attempts) == OkTools(t.attempts) + if e.ok then {PLACE} else {}
  {
    assert Schema(PLACE).value[1] in Schema(s.tool).value;
    var q := s.args["quantity"];
    var e := AdapterExecute(w, t.calls, s);
    PlaceTells(w, t.calls, [], Get(s.args, "item_name", Str("")), if q.Int? then q.n else if q.b then 1 else 0,
               Get(s.args, "address", Str("")));
    OkToolsConcat(t.attempts, e.attempts);
    assert OkTools([]) == {};
  }

  lemma PlatformStepTells(w: World, t: Trace, s: Step)
    requires OkTools(t.attempts) == EndedOk(t.endings)
    ensures OkTools(PlatformStep(w, t, s).attempts) == EndedOk(PlatformStep(w, t, s).endings)
  {
    if !Accepted(s) {
      OneAttemptTells(t.attempts, t.endings, Attempt(s.tool, None, true), Ending(s.tool, false));
    } else {
      AcceptedStepTells(w, t, s);
    }
  }

  lemma AcceptedStepTells(w: World, t: Trace, s: Step)
    requires OkTools(t.attempts) == EndedOk(t.endings) && Accepted(s)
    ensures OkTools(PlatformStep(w, t, s).attempts) == EndedOk(PlatformStep(w, t, s).endings)
  {
    var e := AdapterExecute(w, t.calls, s);
    if s.tool == PLACE {
      PlaceStepTells(w, t, s);
      EndedOkSnoc(t.endings, Ending(s.tool, e.ok));
    } else {
      ToolNamesStay();
      OneAttemptTells(t.attempts, t.endings, e.attempts[0], Ending(s.tool, e.ok));
    }
  }

  lemma {:induction false} LegacyRunTells(w: World, t: Trace, steps: seq<Step>)
    requires OkTools(t.attempts) == EndedOk(t.endings) && LegacyRun(w, t, steps).Some?
    ensures OkTools(LegacyRun(w, t, steps).value.attempts) == EndedOk(LegacyRun(w, t, steps).value.endings)
    decreases |steps|
  {
    if steps != [] {
      LegacyStepTells(w, t, steps[0]);
      LegacyRunTells(w, LegacyStep(w, t, steps[0]).value, steps[1..]);
    }
  }

  lemma {:induction false} PlatformRunTells(w: World, t: Trace, steps: seq<Step>)
    requires OkTools(t.attempts) == EndedOk(t.endings)
    ensures OkTools(PlatformRun(w, t, steps).attempts) == EndedOk(PlatformRun(w, t, steps).endings)
    decreases |steps|
  {
    if steps != [] {
      PlatformStepTells(w, t, steps[0]);
      PlatformRunTells(w, PlatformStep(w, t, steps[0]), steps[1..]);
    }
  }

  lemma {:induction false} EndingsFollowSteps(w: World, t: Trace, steps: seq<Step>)
    ensures
      var ends := PlatformRun(w, t, steps).endings;
      && t.endings <= ends && |ends| == |t.endings| + |steps|
      && forall i :: 0 <= i < |steps| ==> ends[|t.endings| + i].tool == steps[i].tool
    decreases |steps|
  {
    if steps != [] {
      var u := PlatformStep(w, t, steps[0]);
      EndingsFollowSteps(w, u, steps[1..]);
      assert u.endings[|t.endings|].tool == steps[0].tool;
      forall i | 1 <= i < |steps|
        ensures PlatformRun(w, t, steps).endings[|t.endings| + i].tool == steps[i].tool
      {
        assert steps[1..][i - 1] == steps[i];
      }
    }
  }

  // Whatever the plan and the client, successful_tools names exactly the tools of the steps that
  // ended ok, retries included, in both pipelines.
  lemma SuccessfulToolsAreTheOnesThatEndedOk(w: World, steps: seq<Step>)
    ensures OkTools(PlatformRun(w, START, steps).attempts) == EndedOk(PlatformRun(w, START, steps).endings)
    ensures
      var legacy := LegacyRun(w, START, steps);
      legacy.Some? ==> OkTools(legacy.value.attempts) == EndedOk(legacy.value.endings)
  {
    PlatformRunTells(w, START, steps);
    if LegacyRun(w, START, steps).Some? {
      LegacyRunTells(w, START, steps);
    }
  }

  // ---- observed_tools ----

  function Bases(tools: seq<string>): set<string> {
    set tool | tool in tools :: BaseToolName(tool)
  }

  function EntryTools(entries: seq<Entry>): set<string> {
    set e | e in entries && e.Entry? :: BaseToolName(e.tool)
  }

  method ObservedTools(calledTools: seq<string>, entries: seq<Entry>) returns (names: set<string>)
    ensures names == Bases(calledTools) + EntryTools(entries) - {""}
  {
    names := Bases(calledTools);
    for i := 0 to |entries|
      invariant names == Bases(calledTools) + EntryTools(entries[..i])
    {
      assert entries[..i + 1] == entries[..i] + [entries[i]];
      EntryToolsConcat(entries[..i], [entries[i]]);
      if entries[i].Entry? {
        names := names + {BaseToolName(entries[i].tool)};
      }
    }
    assert entries[..|entries|] == entries;
    names := names - {""};
  }

  lemma EntryToolsConcat(a: seq<Entry>, b: seq<Entry>)
    ensures EntryTools(a + b) == EntryTools(a) + EntryTools(b)
  {
    assert forall e :: e in a + b <==> e in a || e in b;
  }

  // The base names in the entries of a trace.
  function TriedTools(attempts: seq<Attempt>): set<string> { EntryTools(Recorded(attempts)) }

  lemma TriedToolsConcat(a: seq<Attempt>, b: seq<Attempt>)
    ensures TriedTools(a + b) == TriedTools(a) + TriedTools(b)
  {
    assert Recorded(a + b) == Recorded(a) + Recorded(b);
    EntryToolsConcat(Recorded(a), Recorded(b));
  }

  lemma TriedToolsOne(a: Attempt)
    ensures TriedTools([a]) == {BaseToolName(a.tool)}
  {
    assert Recorded([a]) == [Entry(a.tool, ReportOf(a))];
    assert Entry(a.tool, ReportOf(a)) in Recorded([a]);
  }

  lemma TriedToolsSnoc(attempts: seq<Attempt>, a: Attempt)
    ensures TriedTools(attempts + [a]) == TriedTools(attempts) + {BaseToolName(a.tool)}
  {
    TriedToolsConcat(attempts, [a]);
    TriedToolsOne(a);
  }

  // Another retry of an order tries no new tool.
  lemma RetryTriesPlace(attempts: seq<Attempt>, k: nat, result: Option<Result>)
    requires PLACE in TriedTools(attempts)
    ensures TriedTools(attempts + [Attempt(RetryName(PLACE, k), result, false)]) == TriedTools(attempts)
  {
    TriedToolsSnoc(attempts, Attempt(RetryName(PLACE, k), result, false));
    BaseUndoesRetryName(PLACE, k);
  }

  lemma {:induction false} RetriesTryOneTool(w: World, t: Tries, item: Value, quantity: int, address: Value)
    requires PLACE in TriedTools(t.attempts)
    ensures TriedTools(RetryFrom(w, t, item, quantity, address).attempts) == TriedTools(t.attempts)
    decreases w.maxRetry - t.retries
  {
    if !t.last.ok && t.retries < w.maxRetry {
      var k := t.retries + 1;
      var call := Place(item, quantity, address, k);
      var res := w.answer(t.calls, call);
      var attempts := t.attempts + [Attempt(RetryName(PLACE, k), Some(FromClient(res)), false)];
      RetryTriesPlace(t.attempts, k, Some(FromClient(res)));
      RetriesTryOneTool(w, Tries(t.calls + [call], attempts, res, k), item, quantity, address);
    }
  }

  lemma FirstTryTriesPlace(result: Option<Result>)
    ensures TriedTools([] + [Attempt(PLACE, result, false)]) == {PLACE}
  {
    var a := Attempt(PLACE, result, false);
    assert [] + [a] == [a];
    TriedToolsOne(a);
    ToolNamesStay();
  }

  lemma PlaceTriesOneTool(w: World, calls: seq<Call>, item: Value, quantity: int, address: Value)
    ensures TriedTools(PlaceTries(w, calls, [], item, quantity, address).attempts) == {PLACE}
  {
    var call := Place(item, quantity, address, 0);
    var res := w.answer(calls, call);
    FirstTryTriesPlace(Some(FromClient(res)));
    RetriesTryOneTool(w, Tries(calls + [call], [] + [Attempt(PLACE, Some(FromClient(res)), false)], res, 0), item,
      quantity, address);
  }

  lemma AcceptedOrderTriesPlace(w: World, calls: seq<Call>, s: Step)
    requires Accepted(s) && s.tool == PLACE
    ensures TriedTools(AdapterExecute(w, calls, s).attempts) == {PLACE}
  {
    assert Schema(PLACE).value[1] in Schema(s.tool).value;
    var q := s.args["quantity"];
    PlaceTriesOneTool(w, calls, Get(s.args, "item_name", Str("")), if q.Int? then q.n else if q.b then 1 else 0,
                      Get(s.args, "address", Str("")));
  }

  lemma AcceptedStepTriesItsTool(w: World, calls: seq<Call>, s: Step)
    requires Accepted(s)
    ensures TriedTools(AdapterExecute(w, calls, s).attempts) == {BaseToolName(s.tool)}
  {
    if s.tool == PLACE {
      ToolNamesStay();
      AcceptedOrderTriesPlace(w, calls, s);
    } else {
      TriedToolsOne(AdapterExecute(w, calls, s).attempts[0]);
    }
  }

  lemma BasesSnoc(tools: seq<string>, tool: string)
    ensures Bases(tools + [tool]) == Bases(tools) + {BaseToolName(tool)}
  {
    assert forall t :: t in tools + [tool] <==> t in tools || t == tool;
  }

  lemma StepTriesItsTool(w: World, t: Trace, s: Step)
    requires TriedTools(t.attempts) == Bases(t.calledTools)
    ensures TriedTools(PlatformStep(w, t, s).attempts) == Bases(PlatformStep(w, t, s).calledTools)
  {
    BasesSnoc(t.calledTools, s.tool);
    if Accepted(s) {
      AcceptedStepTriesItsTool(w, t.calls, s);
      TriedToolsConcat(t.attempts, AdapterExecute(w, t.calls, s).attempts);
    } else {
      var a := Attempt(s.tool, None, true);
      TriedToolsConcat(t.attempts, [a]);
      TriedToolsOne(a);
    }
  }

  lemma {:induction false} RunTriesCalledTools(w: World, t: Trace, steps: seq<Step>)
    requires TriedTools(t.attempts) == Bases(t.calledTools)
    ensures
      var u := PlatformRun(w, t, steps);
      TriedTools(u.attempts) == Bases(u.calledTools) && u.calledTools == t.calledTools + ToolsOf(steps)
    decreases |steps|
  {
    if steps == [] {
      assert t.calledTools + [] == t.calledTools;
    } else {
      StepTriesItsTool(w, t, steps[0]);
      RunTriesCalledTools(w, PlatformStep(w, t, steps[0]), steps[1..]);
      assert t.calledTools + [steps[0].tool] + ToolsOf(steps[1..]) == t.calledTools + ToolsOf(steps);
    }
  }

  function ToolsOf(steps: seq<Step>): seq<string> {
    if steps == [] then [] else [steps[0].tool] + ToolsOf(steps[1..])
  }

  lemma {:induction false} ErasedKeepsTools(a: seq<Attempt>, b: seq<Attempt>)
    requires Erased(a) == Erased(b)
    ensures TriedTools(a) == TriedTools(b)
  {
    assert |Erased(a)| == |a| && |Erased(b)| == |b|;
    if a == [] {
      assert b == a;
    } else {
      var n := |a| - 1;
      assert Erased(a[..n]) == Erased(a)[..n] && Erased(b[..n]) == Erased(b)[..n];
      assert Erased(a)[n].tool == a[n].tool && Erased(b)[n].tool == b[n].tool;
      ErasedKeepsTools(a[..n], b[..n]);
      TriedToolsSnoc(a[..n], a[n]);
      TriedToolsSnoc(b[..n], b[n]);
      assert a == a[..n] + [a[n]] && b == b[..n] + [b[n]];
    }
  }

  // observed_tools of an executed plan is the set of the base names of its steps' tools, for every plan in
  // the refactored pipeline and for every accepted one in the old loop.
  lemma ObservedToolsAreTheSteps(w: World, steps: seq<Step>)
    ensures
      var t := PlatformRun(w, START, steps);
      Bases(t.calledTools) + TriedTools(t.attempts) == Bases(ToolsOf(steps))
    ensures (forall s :: s in steps ==> Accepted(s)) ==>
      var legacy := LegacyRun(w, START, steps);
      legacy.Some? && Bases(legacy.value.calledTools) + TriedTools(legacy.value.attempts) == Bases(ToolsOf(steps))
  {
    RunTriesCalledTools(w, START, steps);
    assert [] + ToolsOf(steps) == ToolsOf(steps);
    if forall s :: s in steps ==> Accepted(s) {
      RunsAgree(w, START, START, steps);
      ErasedKeepsTools(LegacyRun(w, START, steps).value.attempts, PlatformRun(w, START, steps).attempts);
    }
  }
}
