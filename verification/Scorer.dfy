// ai_platform/evaluation/evaluator.py: the scoring loop over all cases and the matrix that breaks
// its rates down by behaviour dimension.

module Scorer {
  import opened Options
  import opened Multiples

  type Args = map<string, string>
  datatype Case = Case(
    category: string, expectedTools: seq<string>, calledTools: seq<string>, expectedArgs: Args, calledArgs: Args,
    retryCount: int, toolCallsCount: int, tokenUsage: int, findings: nat, plannerValid: bool, plannerFallback: bool,
    expectDenied: set<string>, deniedTools: set<string>)

  // What the scoring loop keeps of a case.
  datatype Scored = Scored(
    dimension: Dimension, toolScore: real, argScore: real, retryCount: int, toolCallsCount: int, tokenUsage: int,
      findings: nat,
    planned: bool,
    expectDenied: set<string>, deniedTools: set<string>)

  datatype Dimension = ToolSelection | Context | Permission | Security

  function DimensionOf(category: string): Dimension {
    if category == "context" then Context
    else if category == "permission" then Permission
    else if category == "attack" then Security
    else ToolSelection
  }

  function ToolMatch(c: Case): real { if c.expectedTools == c.calledTools then 1.0 else 0.0 }

  // The expected arguments that were passed with the expected value.
  function Matched(expected: Args, called: Args): set<string> {
    set key | key in expected && key in called && called[key] == expected[key]
  }

  function ArgMatch(c: Case): real {
    if c.expectedArgs == map[] || "missing_or_invalid" in c.expectedArgs then 1.0
    else |Matched(c.expectedArgs, c.calledArgs)| as real / |c.expectedArgs| as real
  }

  function Score(c: Case): Scored {
    Scored(DimensionOf(c.category), ToolMatch(c), ArgMatch(c), c.retryCount, c.toolCallsCount, c.tokenUsage, c.findings,
           c.plannerValid && !c.plannerFallback, c.expectDenied, c.deniedTools)
  }

  function Scores(cases: seq<Case>): seq<Scored> {
    if cases == [] then [] else Scores(cases[..|cases| - 1]) + [Score(cases[|cases| - 1])]
  }

  lemma ArgMatchIsAShare(c: Case)
    ensures 0.0 <= ArgMatch(c) <= 1.0
    ensures ArgMatch(c) == 1.0 <==> "missing_or_invalid" in c.expectedArgs || c.expectedArgs.Items <= c.calledArgs.Items
  {
    MatchedArgs(c.expectedArgs, c.calledArgs);
    if c.expectedArgs == map[] {
      assert c.expectedArgs.Items == {};
    } else {
      Fraction(|Matched(c.expectedArgs, c.calledArgs)|, |c.expectedArgs|);
    }
  }

  lemma Fraction(a: nat, b: nat)
    requires a <= b && b != 0
    ensures 0.0 <= a as real / b as real <= 1.0 && (a as real / b as real == 1.0 <==> a == b)
  {
  }

  lemma MatchedArgs(expected: Args, called: Args)
    ensures |Matched(expected, called)| <= |expected|
    ensures |Matched(expected, called)| == |expected| <==> expected.Items <= called.Items
  {
    var matched := Matched(expected, called);
    assert matched <= expected.Keys;
    SubsetSizes(matched, expected.Keys);
    if matched == expected.Keys {
      forall e | e in expected.Items
        ensures e in called.Items
      {
        assert e.0 in matched;
      }
    } else {
      var key :| key in expected.Keys && key !in matched;
      assert (key, expected[key]) in expected.Items;
    }
  }

  lemma {:induction false} SubsetSizes(a: set<string>, b: set<string>)
    requires a <= b
    ensures |a| <= |b| && (|a| == |b| ==> a == b)
  {
    if a != {} {
      var x :| x in a;
      SubsetSizes(a - {x}, b - {x});
    }
  }

  // ---- Selections of cases ----

  datatype Trait = In(d: Dimension) | RulePass | Retried | Flagged | Respected | Unplanned | Not(t: Trait)

  predicate Is(t: Trait, c: Scored) {
    match t
    case In(d) => c.dimension == d
    case RulePass => c.toolScore == 1.0 && c.argScore >= 0.8
    case Retried => c.retryCount > 0
    case Flagged => c.findings > 0
    case Respected => c.expectDenied == c.deniedTools
    case Unplanned => !c.planned
    case Not(u) => !Is(u, c)
  }

  function Where(cases: seq<Scored>, t: Trait): seq<Scored> {
    if cases == [] then []
    else Where(cases[..|cases| - 1], t) + if Is(t, cases[|cases| - 1]) then [cases[|cases| - 1]] else []
  }

  function Tokens(cases: seq<Scored>): seq<int> {
    if cases == [] then [] else Tokens(cases[..|cases| - 1]) + [cases[|cases| - 1].tokenUsage]
  }

  function CallCounts(cases: seq<Scored>): seq<int> {
    if cases == [] then [] else CallCounts(cases[..|cases| - 1]) + [cases[|cases| - 1].toolCallsCount]
  }

  function ToolScores(cases: seq<Scored>): seq<real> {
    if cases == [] then [] else ToolScores(cases[..|cases| - 1]) + [cases[|cases| - 1].toolScore]
  }

  function ArgScores(cases: seq<Scored>): seq<real> {
    if cases == [] then [] else ArgScores(cases[..|cases| - 1]) + [cases[|cases| - 1].argScore]
  }

  function Sum(s: seq<real>): real {
    if s == [] then 0.0 else Sum(s[..|s| - 1]) + s[|s| - 1]
  }

  function SumInt(s: seq<int>): int {
    if s == [] then 0 else SumInt(s[..|s| - 1]) + s[|s| - 1]
  }

  function TokenSum(cases: seq<Scored>): int { SumInt(Tokens(cases)) }

  lemma WhereSnoc(cases: seq<Scored>, c: Scored, t: Trait)
    ensures Where(cases + [c], t) == if Is(t, c) then Where(cases, t) + [c] else Where(cases, t)
  {
    assert (cases + [c])[..|cases|] == cases;
    assert Where(cases, t) + [] == Where(cases, t);
  }

  lemma NumbersSnoc(cases: seq<Scored>, c: Scored)
    ensures Tokens(cases + [c]) == Tokens(cases) + [c.tokenUsage]
    ensures CallCounts(cases + [c]) == CallCounts(cases) + [c.toolCallsCount]
  {
    assert (cases + [c])[..|cases|] == cases;
  }

  lemma ScoreListsSnoc(cases: seq<Scored>, c: Scored)
    ensures ToolScores(cases + [c]) == ToolScores(cases) + [c.toolScore]
    ensures ArgScores(cases + [c]) == ArgScores(cases) + [c.argScore]
  {
    assert (cases + [c])[..|cases|] == cases;
  }

  lemma SumSnoc(s: seq<real>, x: real)
    ensures Sum(s + [x]) == Sum(s) + x
  {
    assert (s + [x])[..|s|] == s;
  }

  lemma SumIntSnoc(s: seq<int>, x: int)
    ensures SumInt(s + [x]) == SumInt(s) + x
  {
    assert (s + [x])[..|s|] == s;
  }

  // ---- The dimension matrix ----

  datatype Stats = Stats(
    cases: nat, toolScores: seq<real>, argScores: seq<real>, taskSuccess: nat, hallucinationFlags: nat,
    permissionCorrect: nat, permissionCases: nat)

  const NO_STATS := Stats(0, [], [], 0, 0, 0, 0)

  // What the row of dimension d holds after these cases, all of that dimension.
  function StatsOf(d: Dimension, cases: seq<Scored>): Stats {
    Stats(|cases|, ToolScores(cases), ArgScores(cases), |Where(cases, RulePass)|, |Where(cases, Flagged)|,
          if d == Permission then |Where(cases, Respected)| else 0, if d == Permission then |cases| else 0)
  }

  // The row of d, if any, is computed from the cases of that dimension alone.
  ghost predicate RowTallied(stats: map<Dimension, Stats>, cases: seq<Scored>, d: Dimension) {
    && (d in stats <==> Where(cases, In(d)) != [])
    && (d in stats ==> stats[d] == StatsOf(d, Where(cases, In(d))))
  }

  ghost predicate Matrix(stats: map<Dimension, Stats>, cases: seq<Scored>) {
    forall d :: RowTallied(stats, cases, d)
  }

  // One more case in a row.
  function GrownRow(s: Stats, d: Dimension, c: Scored): Stats {
    Stats(s.cases + 1, s.toolScores + [c.toolScore], s.argScores + [c.argScore],
          s.taskSuccess + if Is(RulePass, c) then 1 else 0,
          s.hallucinationFlags + if Is(Flagged, c) then 1 else 0,
          s.permissionCorrect + if d == Permission && Is(Respected, c) then 1 else 0,
          s.permissionCases + if d == Permission then 1 else 0)
  }

  lemma StatsSnoc(d: Dimension, cases: seq<Scored>, c: Scored)
    ensures StatsOf(d, cases + [c]) == GrownRow(StatsOf(d, cases), d, c)
  {
    ScoreListsSnoc(cases, c);
    WhereSnoc(cases, c, RulePass);
    WhereSnoc(cases, c, Flagged);
    WhereSnoc(cases, c, Respected);
  }

  function RowBefore(stats: map<Dimension, Stats>, d: Dimension): Stats {
    if d in stats then stats[d] else NO_STATS
  }

  function GrownMatrix(stats: map<Dimension, Stats>, c: Scored): map<Dimension, Stats> {
    var d := c.dimension;
    stats[d := GrownRow(RowBefore(stats, d), d, c)]
  }

  lemma RowSnoc(stats: map<Dimension, Stats>, cases: seq<Scored>, c: Scored, d: Dimension)
    requires RowTallied(stats, cases, d)
    ensures RowTallied(GrownMatrix(stats, c), cases + [c], d)
  {
    WhereSnoc(cases, c, In(d));
    if c.dimension == d {
      assert RowBefore(stats, d) == StatsOf(d, Where(cases, In(d)));
      StatsSnoc(d, Where(cases, In(d)), c);
    }
  }

  lemma MatrixSnoc(stats: map<Dimension, Stats>, cases: seq<Scored>, c: Scored)
    requires Matrix(stats, cases)
    ensures Matrix(GrownMatrix(stats, c), cases + [c])
  {
    forall d
      ensures RowTallied(GrownMatrix(stats, c), cases + [c], d)
    {
      RowSnoc(stats, cases, c, d);
    }
  }

  // ---- The overall lists and counters ----

  datatype Tally = Tally(
    toolScores: seq<real>, argScores: seq<real>, tokens: seq<int>, taskSuccess: nat, hallucinationFlags: nat,
    tokensRulePass: seq<int>, tokensRuleFail: seq<int>, tokensWithRetry: seq<int>, tokensNoRetry: seq<int>,
    permissionCorrect: nat, permissionCaseCount: nat, callCounts: seq<int>, plannerInvalid: nat)

  const NO_TALLY := Tally([], [], [], 0, 0, [], [], [], [], 0, 0, [], 0)

  ghost predicate ScoresTallied(t: Tally, cases: seq<Scored>) {
    && t.toolScores == ToolScores(cases) && t.argScores == ArgScores(cases) && t.tokens == Tokens(cases)
    && t.taskSuccess == |Where(cases, RulePass)| && t.hallucinationFlags == |Where(cases, Flagged)|
  }

  // Two lists hold the tokens of the cases with a trait and of those without it.
  ghost predicate TokensSorted(yes: seq<int>, no: seq<int>, cases: seq<Scored>, t: Trait) {
    yes == Tokens(Where(cases, t)) && no == Tokens(Where(cases, Not(t)))
  }

  ghost predicate PermissionTallied(t: Tally, cases: seq<Scored>) {
    && t.permissionCorrect == |Where(Where(cases, In(Permission)), Respected)|
    && t.permissionCaseCount == |Where(cases, In(Permission))|
  }

  ghost predicate PlanningTallied(t: Tally, cases: seq<Scored>) {
    t.callCounts == CallCounts(cases) && t.plannerInvalid == |Where(cases, Unplanned)|
  }

  ghost predicate Tallied(t: Tally, cases: seq<Scored>) {
    && ScoresTallied(t, cases) && PermissionTallied(t, cases) && PlanningTallied(t, cases)
    && TokensSorted(t.tokensRulePass, t.tokensRuleFail, cases, RulePass)
    && TokensSorted(t.tokensWithRetry, t.tokensNoRetry, cases, Retried)
  }

  // One more case in the tally.
  function Grown(t: Tally, c: Scored): Tally {
    Tally(
      t.toolScores + [c.toolScore], t.argScores + [c.argScore], t.tokens + [c.tokenUsage],
      t.taskSuccess + if Is(RulePass, c) then 1 else 0, t.hallucinationFlags + if Is(Flagged, c) then 1 else 0,
      if Is(RulePass, c) then t.tokensRulePass + [c.tokenUsage] else t.tokensRulePass,
      if Is(RulePass, c) then t.tokensRuleFail else t.tokensRuleFail + [c.tokenUsage],
      if Is(Retried, c) then t.tokensWithRetry + [c.tokenUsage] else t.tokensWithRetry,
      if Is(Retried, c) then t.tokensNoRetry else t.tokensNoRetry + [c.tokenUsage],
      t.permissionCorrect + if Is(In(Permission), c) && Is(Respected, c) then 1 else 0,
      t.permissionCaseCount + if Is(In(Permission), c) then 1 else 0,
      t.callCounts + [c.toolCallsCount], t.plannerInvalid + if Is(Unplanned, c) then 1 else 0)
  }

  lemma ScoresSnoc(t: Tally, cases: seq<Scored>, c: Scored)
    requires ScoresTallied(t, cases)
    ensures ScoresTallied(Grown(t, c), cases + [c])
  {
    ScoreListsSnoc(cases, c);
    NumbersSnoc(cases, c);
    WhereSnoc(cases, c, RulePass);
    WhereSnoc(cases, c, Flagged);
  }

  lemma TokensWhereSnoc(cases: seq<Scored>, c: Scored, t: Trait)
    ensures Tokens(Where(cases + [c], t)) ==
            if Is(t, c) then Tokens(Where(cases, t)) + [c.tokenUsage] else Tokens(Where(cases, t))
  {
    WhereSnoc(cases, c, t);
    NumbersSnoc(Where(cases, t), c);
  }

  lemma SortedSnoc(yes: seq<int>, no: seq<int>, cases: seq<Scored>, c: Scored, t: Trait)
    requires TokensSorted(yes, no, cases, t)
    ensures TokensSorted(if Is(t, c) then yes + [c.tokenUsage] else yes, if Is(t, c) then no
        else no + [c.tokenUsage], cases + [c], t)
  {
    TokensWhereSnoc(cases, c, t);
    TokensWhereSnoc(cases, c, Not(t));
  }

  lemma PermissionSnoc(t: Tally, cases: seq<Scored>, c: Scored)
    requires PermissionTallied(t, cases)
    ensures PermissionTallied(Grown(t, c), cases + [c])
  {
    WhereSnoc(cases, c, In(Permission));
    WhereSnoc(Where(cases, In(Permission)), c, Respected);
  }

  lemma PlanningSnoc(t: Tally, cases: seq<Scored>, c: Scored)
    requires PlanningTallied(t, cases)
    ensures PlanningTallied(Grown(t, c), cases + [c])
  {
    NumbersSnoc(cases, c);
    WhereSnoc(cases, c, Unplanned);
  }

  lemma TalliedSnoc(t: Tally, cases: seq<Scored>, c: Scored)
    requires Tallied(t, cases)
    ensures Tallied(Grown(t, c), cases + [c])
  {
    ScoresSnoc(t, cases, c);
    SortedSnoc(t.tokensRulePass, t.tokensRuleFail, cases, c, RulePass);
    SortedSnoc(t.tokensWithRetry, t.tokensNoRetry, cases, c, Retried);
    PermissionSnoc(t, cases, c);
    PlanningSnoc(t, cases, c);
  }

  // The loop of ScoreEvaluator.evaluate.
  method ScoreCases(cases: seq<Case>) returns (t: Tally, stats: map<Dimension, Stats>)
    ensures Tallied(t, Scores(cases))
    ensures Matrix(stats, Scores(cases))
  {
    t, stats := NO_TALLY, map[];
    for i := 0 to |cases|
      invariant Tallied(t, Scores(cases[..i]))
      invariant Matrix(stats, Scores(cases[..i]))
    {
      var c := ScoreCase(cases[i]);
      assert cases[..i + 1][..i] == cases[..i];
      ghost var seen := Scores(cases[..i]);
      assert Scores(cases[..i + 1]) == seen + [c];
      TalliedSnoc(t, seen, c);
      MatrixSnoc(stats, seen, c);
      t := AddToTally(t, c);
      var row := AddToRow(if c.dimension in stats then stats[c.dimension] else NO_STATS, c.dimension, c);
      stats := stats[c.dimension := row];
    }
    assert cases[..|cases|] == cases;
  }

  // The part of the loop body that scores one case, arg_match's counting loop included.
  method ScoreCase(c: Case) returns (s: Scored)
    ensures s == Score(c)
  {
    var ts := if c.expectedTools == c.calledTools then 1.0 else 0.0;
    var ascore := 1.0;
    if c.expectedArgs != map[] && "missing_or_invalid" !in c.expectedArgs {
      var ok := CountMatches(c.expectedArgs, c.calledArgs);
      ascore := ok as real / |c.expectedArgs| as real;
    }
    var planned := !(!c.plannerValid || c.plannerFallback);
    s := Scored(DimensionOf(c.category), ts, ascore, c.retryCount, c.toolCallsCount, c.tokenUsage, c.findings, planned,
                c.expectDenied, c.deniedTools);
  }

  // Of a set of expected names, one is looked at.
  lemma OneNameLess(matched: set<string>, todo: set<string>, key: string)
    requires key in todo
    ensures |matched - (todo - {key})| == |matched - todo| + if key in matched then 1 else 0
  {
    if key in matched {
      assert matched - (todo - {key}) == (matched - todo) + {key};
    } else {
      assert matched - (todo - {key}) == matched - todo;
    }
  }

  method CountMatches(expected: Args, called: Args) returns (ok: nat)
    ensures ok == |Matched(expected, called)|
  {
    ok := 0;
    var todo := expected.Keys;
    ghost var matched := Matched(expected, called);
    assert matched - todo == {};
    while todo != {}
      invariant todo <= expected.Keys && ok == |matched - todo|
      decreases |todo|
    {
      var key :| key in todo;
      OneNameLess(matched, todo, key);
      if key in called && called[key] == expected[key] {
        ok := ok + 1;
      }
      todo := todo - {key};
    }
    assert matched - todo == matched;
  }

  // The part of the loop body that fills the overall lists.
  method AddToTally(before: Tally, c: Scored) returns (t: Tally)
    ensures t == Grown(before, c)
  {
    var ts, ascore := c.toolScore, c.argScore;
    t := before.(toolScores := before.toolScores + [ts], argScores := before.argScores + [ascore],
                 tokens := before.tokens + [c.tokenUsage], callCounts := before.callCounts + [c.toolCallsCount]);
    if ts == 1.0 && ascore >= 0.8 {
      t := t.(taskSuccess := t.taskSuccess + 1, tokensRulePass := t.tokensRulePass + [c.tokenUsage]);
    } else {
      t := t.(tokensRuleFail := t.tokensRuleFail + [c.tokenUsage]);
    }
    if c.retryCount > 0 {
      t := t.(tokensWithRetry := t.tokensWithRetry + [c.tokenUsage]);
    } else {
      t := t.(tokensNoRetry := t.tokensNoRetry + [c.tokenUsage]);
    }
    if c.findings > 0 {
      t := t.(hallucinationFlags := t.hallucinationFlags + 1);
    }
    if !c.planned {
      t := t.(plannerInvalid := t.plannerInvalid + 1);
    }
    if c.dimension == Permission {
      t := t.(permissionCaseCount := t.permissionCaseCount + 1);
      if c.expectDenied == c.deniedTools {
        t := t.(permissionCorrect := t.permissionCorrect + 1);
      }
    }
  }

  // The part that fills the row of the case's dimension.
  method AddToRow(before: Stats, dimension: Dimension, c: Scored) returns (row: Stats)
    ensures row == GrownRow(before, dimension, c)
  {
    var ts, ascore := c.toolScore, c.argScore;
    row := before.(cases := before.cases + 1, toolScores := before.toolScores + [ts],
      argScores := before.argScores + [ascore]);
    if ts == 1.0 && ascore >= 0.8 {
      row := row.(taskSuccess := row.taskSuccess + 1);
    }
    if c.findings > 0 {
      row := row.(hallucinationFlags := row.hallucinationFlags + 1);
    }
    if dimension == Permission {
      row := row.(permissionCases := row.permissionCases + 1);
      if c.expectDenied == c.deniedTools {
        row := row.(permissionCorrect := row.permissionCorrect + 1);
      }
    }
  }

  // ---- What a case contributes to each rate ----

  datatype Measure = One | Tool | Arg | Success | Hallucination

  function Value(m: Measure, c: Scored): real {
    match m
    case One => 1.0
    case Tool => c.toolScore
    case Arg => c.argScore
    case Success => if Is(RulePass, c) then 1.0 else 0.0
    case Hallucination => if Is(Flagged, c) then 1.0 else 0.0
  }

  function Total(cases: seq<Scored>, m: Measure): real {
    if cases == [] then 0.0 else Total(cases[..|cases| - 1], m) + Value(m, cases[|cases| - 1])
  }

  function InDimension(cases: seq<Scored>, d: Dimension, m: Measure): real { Total(Where(cases, In(d)), m) }

  lemma TotalSnoc(cases: seq<Scored>, c: Scored, m: Measure)
    ensures Total(cases + [c], m) == Total(cases, m) + Value(m, c)
  {
    assert (cases + [c])[..|cases|] == cases;
  }

  lemma InDimensionSnoc(cases: seq<Scored>, c: Scored, d: Dimension, m: Measure)
    ensures InDimension(cases + [c], d, m) ==
            InDimension(cases, d, m) + if c.dimension == d then Value(m, c) else 0.0
  {
    WhereSnoc(cases, c, In(d));
    TotalSnoc(Where(cases, In(d)), c, m);
  }

  function Across(f: Dimension -> real): real { f(ToolSelection) + f(Context) + f(Permission) + f(Security) }

  lemma {:induction false} DimensionsPartition(cases: seq<Scored>, m: Measure)
    ensures Total(cases, m) == Across(d => InDimension(cases, d, m))
  {
    if cases != [] {
      var init, c := cases[..|cases| - 1], cases[|cases| - 1];
      assert cases == init + [c];
      DimensionsPartition(init, m);
      TotalSnoc(init, c, m);
      InDimensionSnoc(init, c, ToolSelection, m);
      InDimensionSnoc(init, c, Context, m);
      InDimensionSnoc(init, c, Permission, m);
      InDimensionSnoc(init, c, Security, m);
    }
  }

  lemma {:induction false} ScoreTotals(cases: seq<Scored>)
    ensures |cases| as real == Total(cases, One)
    ensures Sum(ToolScores(cases)) == Total(cases, Tool) && Sum(ArgScores(cases)) == Total(cases, Arg)
  {
    if cases != [] {
      var init, c := cases[..|cases| - 1], cases[|cases| - 1];
      assert cases == init + [c];
      ScoreTotals(init);
      ScoreListsSnoc(init, c);
      SumSnoc(ToolScores(init), c.toolScore);
      SumSnoc(ArgScores(init), c.argScore);
    }
  }

  lemma {:induction false} CounterTotals(cases: seq<Scored>)
    ensures |Where(cases, RulePass)| as real == Total(cases, Success)
    ensures |Where(cases, Flagged)| as real == Total(cases, Hallucination)
  {
    if cases != [] {
      CounterTotals(cases[..|cases| - 1]);
    }
  }

  // ---- The report ----

  datatype Row = Row(
    cases: nat, toolAccuracy: real, argAccuracy: real, successRate: real, hallucinationRate: real,
    permissionAccuracy: Option<real>)

  datatype Report = Report(
    totalCases: nat, toolAccuracy: real, argAccuracy: real, successRate: real, hallucinationRate: real,
    avgTokenRulePass: Option<real>, avgTokenRuleFail: Option<real>, ruleFailCount: nat,
    avgTokenWithRetry: Option<real>, avgTokenNoRetry: Option<real>, retryCaseCount: nat, noRetryCaseCount: nat,
    retryTaxRatio: Option<real>, retryRate: real, avgToolCalls: real, avgTokens: real, plannerInvalidRate: real,
    permissionCaseCount: nat, permissionAccuracy: Option<real>, rows: map<Dimension, Row>)

  function RowRate(row: Row, m: Measure): real {
    match m
    case One => 1.0
    case Tool => row.toolAccuracy
    case Arg => row.argAccuracy
    case Success => row.successRate
    case Hallucination => row.hallucinationRate
  }

  function Rate(r: Report, m: Measure): real {
    match m
    case One => 1.0
    case Tool => r.toolAccuracy
    case Arg => r.argAccuracy
    case Success => r.successRate
    case Hallucination => r.hallucinationRate
  }

  // x is total divided by n.
  ghost predicate IsMean(x: real, total: real, n: nat) { Times(n, x) == total }

  // x is the mean, or absent when there is nothing to divide by.
  ghost predicate IsMeanOrNone(x: Option<real>, total: real, n: nat) {
    (x.Some? <==> n != 0) && (x.Some? ==> IsMean(x.value, total, n))
  }

  // The row of dimension d reports on the cases `own`.
  ghost predicate RowReports(row: Row, own: seq<Scored>, d: Dimension) {
    && row.cases == |own|
    && (forall m :: IsMean(RowRate(row, m), Total(own, m), |own|))
    && (if d == Permission then IsMeanOrNone(row.permissionAccuracy, |Where(own, Respected)| as real, |own|)
        else row.permissionAccuracy.None?)
  }

  ghost predicate RatesReported(r: Report, cases: seq<Scored>) {
    && r.totalCases == |cases|
    && (forall m :: IsMean(Rate(r, m), Total(cases, m), |cases|))
    && (cases == [] ==> r.toolAccuracy == r.argAccuracy == r.successRate == r.hallucinationRate == 0.0)
  }

  ghost predicate RowsReported(r: Report, cases: seq<Scored>) {
    forall d ::
      && (d in r.rows <==> Where(cases, In(d)) != [])
      && (d in r.rows ==> RowReports(r.rows[d], Where(cases, In(d)), d))
  }

  ghost predicate AverageReported(avg: Option<real>, cases: seq<Scored>) {
    IsMeanOrNone(avg, TokenSum(cases) as real, |cases|)
  }

  ghost predicate RuleTokensReported(r: Report, cases: seq<Scored>) {
    && AverageReported(r.avgTokenRulePass, Where(cases, RulePass))
    && AverageReported(r.avgTokenRuleFail, Where(cases, Not(RulePass)))
      && r.ruleFailCount == |Where(cases, Not(RulePass))|
  }

  ghost predicate RetryTokensReported(r: Report, cases: seq<Scored>) {
    && AverageReported(r.avgTokenWithRetry, Where(cases, Retried)) && r.retryCaseCount == |Where(cases, Retried)|
    && AverageReported(r.avgTokenNoRetry, Where(cases, Not(Retried)))
      && r.noRetryCaseCount == |Where(cases, Not(Retried))|
  }

  ghost predicate AveragesReported(r: Report, cases: seq<Scored>) {
    && IsMean(r.retryRate, |Where(cases, Retried)| as real, |cases|)
    && IsMean(r.avgToolCalls, SumInt(CallCounts(cases)) as real, |cases|)
    && IsMean(r.avgTokens, TokenSum(cases) as real, |cases|)
    && IsMean(r.plannerInvalidRate, |Where(cases, Unplanned)| as real, |cases|)
  }

  // The extra cost of a retried case, relative to an unretried one.
  ghost predicate TaxReported(tax: Option<real>, ar: Option<real>, an: Option<real>) {
    && (tax.Some? <==> ar.Some? && an.Some? && an.value > 0.0)
    && (tax.Some? ==> an.value * tax.value == ar.value - an.value)
  }

  ghost predicate PermissionReported(r: Report, cases: seq<Scored>) {
    var own := Where(cases, In(Permission));
    r.permissionCaseCount == |own| && IsMeanOrNone(r.permissionAccuracy, |Where(own, Respected)| as real, |own|)
  }

  ghost predicate Reports(r: Report, cases: seq<Scored>) {
    && RatesReported(r, cases) && RowsReported(r, cases) && RuleTokensReported(r, cases)
      && RetryTokensReported(r, cases)
    && AveragesReported(r, cases) && PermissionReported(r, cases)
    && TaxReported(r.retryTaxRatio, r.avgTokenWithRetry, r.avgTokenNoRetry)
  }

  method Mean(total: real, n: nat) returns (x: real)
    ensures n != 0 ==> IsMean(x, total, n)
    ensures n == 0 ==> x == total
  {
    x := total / (if n == 0 then 1 else n) as real;
    if n != 0 {
      TimesIsProduct(n, x);
      DivideBack(total, n as real);
    }
  }

  method MeanOrNone(total: real, n: nat) returns (x: Option<real>)
    ensures IsMeanOrNone(x, total, n)
  {
    if n == 0 {
      return None;
    }
    var value := Mean(total, n);
    x := Some(value);
  }

  method AvgOrNone(values: seq<int>) returns (avg: Option<real>)
    ensures IsMeanOrNone(avg, SumInt(values) as real, |values|)
  {
    avg := MeanOrNone(SumInt(values) as real, |values|);
  }

  method RetryTax(ar: Option<real>, an: Option<real>) returns (tax: Option<real>)
    ensures TaxReported(tax, ar, an)
  {
    if ar.None? || an.None? || an.value <= 0.0 {
      return None;
    }
    tax := Some((ar.value - an.value) / an.value);
    DivideBack(ar.value - an.value, an.value);
  }

  // One entry of dimension_breakdown.
  method BuildRow(s: Stats, ghost own: seq<Scored>, ghost d: Dimension) returns (row: Row)
    requires own != [] && s == StatsOf(d, own)
    ensures RowReports(row, own, d)
  {
    ScoreTotals(own);
    CounterTotals(own);
    var tool := Mean(Sum(s.toolScores), |s.toolScores|);
    var arg := Mean(Sum(s.argScores), |s.argScores|);
    var success := Mean(s.taskSuccess as real, s.cases);
    var hallucination := Mean(s.hallucinationFlags as real, s.cases);
    var permission := MeanOrNone(s.permissionCorrect as real, s.permissionCases);
    row := Row(s.cases, tool, arg, success, hallucination, permission);
    TimesOne(|own|);
    ScoresLength(own);
    forall m
      ensures IsMean(RowRate(row, m), Total(own, m), |own|)
    {
    }
  }

  method BuildRows(stats: map<Dimension, Stats>, ghost cases: seq<Scored>) returns (rows: map<Dimension, Row>)
    requires Matrix(stats, cases)
    ensures rows.Keys == stats.Keys
    ensures forall d :: d in rows ==> RowReports(rows[d], Where(cases, In(d)), d)
  {
    rows := map[];
    var todo := stats.Keys;
    while todo != {}
      invariant todo <= stats.Keys && rows.Keys == stats.Keys - todo
      invariant forall d :: d in rows ==> RowReports(rows[d], Where(cases, In(d)), d)
      decreases |todo|
    {
      var d :| d in todo;
      assert RowTallied(stats, cases, d);
      var row := BuildRow(stats[d], Where(cases, In(d)), d);
      rows := rows[d := row];
      todo := todo - {d};
    }
  }

  method Evaluate(cases: seq<Case>) returns (r: Report)
    ensures Reports(r, Scores(cases))
  {
    var t, stats := ScoreCases(cases);
    r := BuildReport(t, stats, Scores(cases));
  }

  // The dictionary that evaluate assembles after the loop.
  method BuildReport(t: Tally, stats: map<Dimension, Stats>, ghost cases: seq<Scored>) returns (r: Report)
    requires Tallied(t, cases) && Matrix(stats, cases)
    ensures Reports(r, cases)
  {
    ScoresLength(cases);
    var total := |t.toolScores|;
    ScoreTotals(cases);
    CounterTotals(cases);
    var tool := Mean(Sum(t.toolScores), total);
    var arg := Mean(Sum(t.argScores), total);
    var success := Mean(t.taskSuccess as real, total);
    var hallucination := Mean(t.hallucinationFlags as real, total);
    var pass := AvgOrNone(t.tokensRulePass);
    var fail := AvgOrNone(t.tokensRuleFail);
    var ar := AvgOrNone(t.tokensWithRetry);
    var an := AvgOrNone(t.tokensNoRetry);
    var tax := RetryTax(ar, an);
    var permission := MeanOrNone(t.permissionCorrect as real, t.permissionCaseCount);
    var retryRate, avgToolCalls, avgTokens, plannerInvalidRate := BuildAverages(t, total, cases);
    var rows := BuildRows(stats, cases);
    r := Report(total, tool, arg, success, hallucination, pass, fail, |t.tokensRuleFail|, ar, an,
                |t.tokensWithRetry|, |t.tokensNoRetry|, tax, retryRate, avgToolCalls, avgTokens, plannerInvalidRate,
                t.permissionCaseCount, permission, rows);
    TokenCounts(cases);
    RatesAreReported(r, cases);
    forall d
      ensures d in rows <==> Where(cases, In(d)) != []
    {
      assert RowTallied(stats, cases, d);
    }
  }

  // A retried case is counted by its token entry.
  method BuildAverages(t: Tally, total: nat, ghost cases: seq<Scored>)
    returns (retryRate: real, avgToolCalls: real, avgTokens: real, plannerInvalidRate: real)
    requires Tallied(t, cases) && total == |cases|
    ensures IsMean(retryRate, |Where(cases, Retried)| as real, |cases|)
    ensures IsMean(avgToolCalls, SumInt(CallCounts(cases)) as real, |cases|)
    ensures IsMean(avgTokens, TokenSum(cases) as real, |cases|)
    ensures IsMean(plannerInvalidRate, |Where(cases, Unplanned)| as real, |cases|)
  {
    TokensLength(Where(cases, Retried));
    retryRate := Mean(|t.tokensWithRetry| as real, total);
    avgToolCalls := Mean(SumInt(t.callCounts) as real, total);
    avgTokens := Mean(SumInt(t.tokens) as real, total);
    plannerInvalidRate := Mean(t.plannerInvalid as real, total);
  }

  lemma RatesAreReported(r: Report, cases: seq<Scored>)
    requires r.totalCases == |cases|
    requires IsMean(r.toolAccuracy, Total(cases, Tool), |cases|) && IsMean(r.argAccuracy, Total(cases, Arg), |cases|)
    requires IsMean(r.successRate, Total(cases, Success), |cases|)
    requires IsMean(r.hallucinationRate, Total(cases, Hallucination), |cases|)
    requires cases == [] ==> r.toolAccuracy == r.argAccuracy == r.successRate == r.hallucinationRate == 0.0
    ensures RatesReported(r, cases)
  {
    ScoreTotals(cases);
    TimesOne(|cases|);
    forall m
      ensures IsMean(Rate(r, m), Total(cases, m), |cases|)
    {
    }
  }

  lemma {:induction false} ScoresLength(cases: seq<Scored>)
    ensures |ToolScores(cases)| == |ArgScores(cases)| == |cases|
  {
    if cases != [] {
      ScoresLength(cases[..|cases| - 1]);
    }
  }

  lemma TokenCounts(cases: seq<Scored>)
    ensures forall t :: |Tokens(Where(cases, t))| == |Where(cases, t)|
  {
    forall t
      ensures |Tokens(Where(cases, t))| == |Where(cases, t)|
    {
      TokensLength(Where(cases, t));
    }
  }

  lemma {:induction false} TokensLength(cases: seq<Scored>)
    ensures |Tokens(cases)| == |cases|
  {
    if cases != [] {
      TokensLength(cases[..|cases| - 1]);
    }
  }

  // ---- The matrix is a partition ----

  // The rate of a row weighted with its number of cases; nothing where there is no row.
  function Weighted(r: Report, d: Dimension, m: Measure): real {
    if d in r.rows then Times(r.rows[d].cases, RowRate(r.rows[d], m)) else 0.0
  }

  lemma RowCarriesItsTotal(r: Report, cases: seq<Scored>, d: Dimension, m: Measure)
    requires RowsReported(r, cases)
    ensures Weighted(r, d, m) == InDimension(cases, d, m)
  {
    if d in r.rows {
      assert IsMean(RowRate(r.rows[d], m), Total(Where(cases, In(d)), m), |Where(cases, In(d))|);
    }
  }

  // The case counts of the rows add up to the total, and the case-weighted rates of the rows
  // reproduce every overall rate.
  lemma MatrixReproducesTheRates(r: Report, cases: seq<Scored>, m: Measure)
    requires RatesReported(r, cases) && RowsReported(r, cases)
    ensures Times(r.totalCases, Rate(r, m)) == Across(d => Weighted(r, d, m))
  {
    assert IsMean(Rate(r, m), Total(cases, m), |cases|);
    DimensionsPartition(cases, m);
    RowCarriesItsTotal(r, cases, ToolSelection, m);
    RowCarriesItsTotal(r, cases, Context, m);
    RowCarriesItsTotal(r, cases, Permission, m);
    RowCarriesItsTotal(r, cases, Security, m);
  }

  lemma MeansAgree(x: real, y: real, total: real, n: nat)
    requires n != 0 && IsMean(x, total, n) && IsMean(y, total, n)
    ensures x == y
  {
    if x < y {
      TimesIsStrict(n, x, y);
    } else if y < x {
      TimesIsStrict(n, y, x);
    }
  }

  // A row reports what a run on the cases of its dimension alone would have reported.
  lemma RowIsTheReportOfItsOwnCases(r: Report, alone: Report, cases: seq<Scored>, d: Dimension, m: Measure)
    requires RowsReported(r, cases) && RatesReported(alone, Where(cases, In(d))) && d in r.rows
    ensures r.rows[d].cases == alone.totalCases && RowRate(r.rows[d], m) == Rate(alone, m)
  {
    var own := Where(cases, In(d));
    MeansAgree(RowRate(r.rows[d], m), Rate(alone, m), Total(own, m), |own|);
  }

  // ---- The token lists split the cases ----

  lemma TokenBagSnoc(cases: seq<Scored>, c: Scored, t: Trait)
    ensures multiset(Tokens(Where(cases + [c], t))) ==
            multiset(Tokens(Where(cases, t))) + if Is(t, c) then multiset{c.tokenUsage} else multiset{}
  {
    TokensWhereSnoc(cases, c, t);
  }

  lemma {:induction false} TokensSplit(cases: seq<Scored>, t: Trait)
    ensures multiset(Tokens(Where(cases, t))) + multiset(Tokens(Where(cases, Not(t)))) == multiset(Tokens(cases))
  {
    if cases != [] {
      var init, c := cases[..|cases| - 1], cases[|cases| - 1];
      assert cases == init + [c];
      TokensSplit(init, t);
      NumbersSnoc(init, c);
      TokenBagSnoc(init, c, t);
      TokenBagSnoc(init, c, Not(t));
    }
  }

  lemma {:induction false} CountsSplit(cases: seq<Scored>, t: Trait)
    ensures |Where(cases, t)| + |Where(cases, Not(t))| == |cases|
  {
    if cases != [] {
      CountsSplit(cases[..|cases| - 1], t);
    }
  }

  lemma TokenSumSnoc(cases: seq<Scored>, c: Scored)
    ensures TokenSum(cases + [c]) == TokenSum(cases) + c.tokenUsage
  {
    NumbersSnoc(cases, c);
    SumIntSnoc(Tokens(cases), c.tokenUsage);
  }

  lemma {:induction false} TokenSumsSplit(cases: seq<Scored>, t: Trait)
    ensures TokenSum(Where(cases, t)) + TokenSum(Where(cases, Not(t))) == TokenSum(cases)
  {
    if cases != [] {
      var init, c := cases[..|cases| - 1], cases[|cases| - 1];
      assert cases == init + [c];
      TokenSumsSplit(init, t);
      TokenSumSnoc(init, c);
      WhereSnoc(init, c, t);
      WhereSnoc(init, c, Not(t));
      TokenSumSnoc(Where(init, if Is(t, c) then t else Not(t)), c);
    }
  }

  // Passing and failing cases, and retried and unretried ones, each account for every case once.
  lemma TokenListsSplitTheCases(t: Tally, cases: seq<Scored>)
    requires Tallied(t, cases)
    ensures multiset(t.tokensRulePass) + multiset(t.tokensRuleFail) == multiset(t.tokens)
    ensures multiset(t.tokensWithRetry) + multiset(t.tokensNoRetry) == multiset(t.tokens)
    ensures |t.tokensRulePass| == t.taskSuccess && |t.tokensRuleFail| == |cases| - t.taskSuccess
  {
    TokensSplit(cases, RulePass);
    TokensSplit(cases, Retried);
    CountsSplit(cases, RulePass);
    TokenCounts(cases);
  }

  // All tokens spent: every case at the unretried average, and on each retried one the difference
  // of the averages, which is the unretried average times the retry tax.
  lemma RetryTaxExplainsTheTokens(cases: seq<Scored>, ar: real, an: real)
    requires IsMean(ar, TokenSum(Where(cases, Retried)) as real, |Where(cases, Retried)|)
    requires IsMean(an, TokenSum(Where(cases, Not(Retried))) as real, |Where(cases, Not(Retried))|)
    ensures TokenSum(cases) as real == Times(|cases|, an) + Times(|Where(cases, Retried)|, ar - an)
  {
    CountsSplit(cases, Retried);
    TokenSumsSplit(cases, Retried);
    SurchargeOf(Where(cases, Retried), Where(cases, Not(Retried)), ar, an);
  }

  lemma SurchargeOf(with: seq<Scored>, without: seq<Scored>, ar: real, an: real)
    requires IsMean(ar, TokenSum(with) as real, |with|) && IsMean(an, TokenSum(without) as real, |without|)
    ensures (TokenSum(with) + TokenSum(without)) as real == Times(|with| + |without|, an) + Times(|with|, ar - an)
  {
    TimesOfSums(|with|, |without|, an, ar - an);
    assert an + (ar - an) == ar;
  }

  // ---- The rates in terms of the cases as they are recorded ----

  predicate ExactTools(c: Case) { c.expectedTools == c.calledTools }

  // All arguments count as passed, or four out of five of the expected ones were.
  predicate EnoughArgs(c: Case) {
    || c.expectedArgs == map[] || "missing_or_invalid" in c.expectedArgs
    || 10 * |set key | key in c.expectedArgs && key in c.calledArgs && c.calledArgs[key] == c.expectedArgs[key]|
      >= 8 * |c.expectedArgs|
  }

  lemma FourFifths(a: nat, b: nat)
    requires b != 0
    ensures a as real / b as real >= 0.8 <==> 10 * a >= 8 * b
  {
    var x := a as real / b as real;
    assert x * b as real == a as real;
    MultiplesKeepOrder(b as real, 0.8, x);
  }

  // What the scoring makes of one case.
  lemma TraitsOfACase(c: Case)
    ensures Score(c).toolScore == if ExactTools(c) then 1.0 else 0.0
    ensures Is(RulePass, Score(c)) <==> ExactTools(c) && EnoughArgs(c)
    ensures Is(Retried, Score(c)) <==> c.retryCount > 0
    ensures Is(Flagged, Score(c)) <==> c.findings > 0
    ensures Is(Respected, Score(c)) <==> c.expectDenied == c.deniedTools
    ensures Is(Unplanned, Score(c)) <==> !c.plannerValid || c.plannerFallback
    ensures Is(In(Context), Score(c)) <==> c.category == "context"
    ensures Is(In(Permission), Score(c)) <==> c.category == "permission"
    ensures Is(In(Security), Score(c)) <==> c.category == "attack"
  {
    if c.expectedArgs != map[] {
      FourFifths(|Matched(c.expectedArgs, c.calledArgs)|, |c.expectedArgs|);
    }
  }

  // How many cases pass each test.
  datatype Test = ToolsMatch | Passes | HasFinding

  predicate Meets(c: Case, t: Test) {
    match t
    case ToolsMatch => ExactTools(c)
    case Passes => ExactTools(c) && EnoughArgs(c)
    case HasFinding => c.findings > 0
  }

  function Meeting(cases: seq<Case>, t: Test): nat {
    if cases == [] then 0
    else Meeting(cases[..|cases| - 1], t) + if Meets(cases[|cases| - 1], t) then 1 else 0
  }

  function MeasureOf(t: Test): Measure {
    match t
    case ToolsMatch => Tool
    case Passes => Success
    case HasFinding => Hallucination
  }

  lemma {:induction false} TotalsCountCases(cases: seq<Case>, t: Test)
    ensures |Scores(cases)| == |cases| && Total(Scores(cases), MeasureOf(t)) == Meeting(cases, t) as real
  {
    if cases != [] {
      var init, c := cases[..|cases| - 1], cases[|cases| - 1];
      TotalsCountCases(init, t);
      TraitsOfACase(c);
      TotalSnoc(Scores(init), Score(c), MeasureOf(t));
    }
  }

  // The reported accuracy, success rate and hallucination rate are shares of the recorded cases.
  lemma RatesAreShares(r: Report, cases: seq<Case>)
    requires Reports(r, Scores(cases))
    ensures r.totalCases == |cases|
    ensures IsMean(r.toolAccuracy, Meeting(cases, ToolsMatch) as real, |cases|)
    ensures IsMean(r.successRate, Meeting(cases, Passes) as real, |cases|)
    ensures IsMean(r.hallucinationRate, Meeting(cases, HasFinding) as real, |cases|)
  {
    TotalsCountCases(cases, ToolsMatch);
    TotalsCountCases(cases, Passes);
    TotalsCountCases(cases, HasFinding);
    assert IsMean(Rate(r, Tool), Total(Scores(cases), Tool), |cases|);
    assert IsMean(Rate(r, Success), Total(Scores(cases), Success), |cases|);
    assert IsMean(Rate(r, Hallucination), Total(Scores(cases), Hallucination), |cases|);
  }
}
