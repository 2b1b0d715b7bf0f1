// agent-eval/scripts/judge_bias.py: each pair of answers is judged in both orders, and the
// first-position win rate is read as position bias.

module JudgeBias {
  import opened Options
  import opened Whitespace

  datatype Verdict = First | Second | Tie | Invalid
  datatype Side = A | B | Draw
  datatype Record = Record(verdict1: Verdict, verdict2: Verdict, side1: Option<Side>, side2: Option<Side>,
    reference: Option<Side>)
  datatype Case = Case(question: string, answerA: string, answerB: string, reference: Option<Side>)
  type Judge = (string, string, string) -> Verdict

  function VerdictToSide(v: Verdict, swapped: bool): Option<Side> {
    match v
    case Tie => Some(Draw)
    case First => Some(if swapped then B else A)
    case Second => Some(if swapped then A else B)
    case Invalid => None
  }

  function RunPair(judge: Judge, c: Case): Record {
    var v1 := judge(c.question, c.answerA, c.answerB);
    var v2 := judge(c.question, c.answerB, c.answerA);
    Record(v1, v2, VerdictToSide(v1, false), VerdictToSide(v2, true), c.reference)
  }

  function RunPairs(judge: Judge, cases: seq<Case>): seq<Record> {
    seq(|cases|, i requires 0 <= i < |cases| => RunPair(judge, cases[i]))
  }

  // ---- What the recorded sides mean ----

  // The answer that a verdict on two answers names.
  function Named(v: Verdict, first: string, second: string): Option<string> {
    match v
    case First => Some(first)
    case Second => Some(second)
    case _ => None
  }

  // A recorded side is the side of the answer that the judge named, in either order.
  lemma SidesAreTheNamedAnswers(judge: Judge, c: Case)
    requires c.answerA != c.answerB
    ensures
      var r := RunPair(judge, c);
      && (r.side1 == Some(A) <==>
        Named(judge(c.question, c.answerA, c.answerB), c.answerA, c.answerB) == Some(c.answerA))
      && (r.side1 == Some(B) <==>
        Named(judge(c.question, c.answerA, c.answerB), c.answerA, c.answerB) == Some(c.answerB))
      && (r.side2 == Some(A) <==>
        Named(judge(c.question, c.answerB, c.answerA), c.answerB, c.answerA) == Some(c.answerA))
      && (r.side2 == Some(B) <==>
        Named(judge(c.question, c.answerB, c.answerA), c.answerB, c.answerA) == Some(c.answerB))
  {
  }

  // ---- summarize ----

  datatype Summary = Summary(
    totalPairs: nat, usablePairs: nat, invalidPairs: nat, flipCount: nat, tieCount: nat,
    firstWins: nat, judgments: nat, labeled: nat, hits1: nat, hits2: nat,
    flipRate: Option<real>, firstWinRate: Option<real>, accuracy1: Option<real>, accuracy2: Option<real>)

  // A rate is absent when there is nothing to divide by.
  function Ratio(part: nat, whole: nat): Option<real> {
    if whole == 0 then None else Some(part as real / whole as real)
  }

  // What is counted. FirstWon1 and FirstWon2: the answer shown first won, which is A in the first
  // order and B in the second. FirstBoth: a pair flipped by choosing the first answer twice.
  datatype Trait =
    | Usable | Flipped | Tied | Labeled | FirstWon1 | FirstWon2 | Judged1 | Judged2 | Hit1 | Hit2 | FirstBoth

  predicate Decided(s: Option<Side>) { s == Some(A) || s == Some(B) }

  predicate Is(t: Trait, r: Record) {
    r.side1.Some? && r.side2.Some? &&
    match t
    case Usable => true
    case Flipped => r.side1 != r.side2
    case Tied => r.verdict1 == Tie
    case Labeled => Decided(r.reference)
    case FirstWon1 => r.side1 == Some(A)
    case FirstWon2 => r.side2 == Some(B)
    case Judged1 => Decided(r.side1)
    case Judged2 => Decided(r.side2)
    case Hit1 => Decided(r.reference) && r.side1 == r.reference
    case Hit2 => Decided(r.reference) && r.side2 == r.reference
    case FirstBoth => r.side1 == Some(A) && r.side2 == Some(B)
  }

  function Count(records: seq<Record>, t: Trait): nat {
    if records == [] then 0
    else Count(records[..|records| - 1], t) + if Is(t, records[|records| - 1]) then 1 else 0
  }

  function Filter(records: seq<Record>, t: Trait): (kept: seq<Record>)
    ensures |kept| == Count(records, t)
  {
    if records == [] then []
    else
      var last := records[|records| - 1];
      Filter(records[..|records| - 1], t) + if Is(t, last) then [last] else []
  }

  // The counting loop of summarize.
  method CountFirstPositions(usable: seq<Record>) returns (wins: nat, judgments: nat)
    requires forall i :: 0 <= i < |usable| ==> Is(Usable, usable[i])
    ensures wins == Count(usable, FirstWon1) + Count(usable, FirstWon2)
    ensures judgments == Count(usable, Judged1) + Count(usable, Judged2)
  {
    wins, judgments := 0, 0;
    for i := 0 to |usable|
      invariant wins == Count(usable[..i], FirstWon1) + Count(usable[..i], FirstWon2)
      invariant judgments == Count(usable[..i], Judged1) + Count(usable[..i], Judged2)
    {
      assert usable[..i + 1][..i] == usable[..i];
      var r := usable[i];
      if Decided(r.side1) {
        judgments := judgments + 1;
        wins := wins + if r.side1 == Some(A) then 1 else 0;
      }
      if Decided(r.side2) {
        judgments := judgments + 1;
        wins := wins + if r.side2 == Some(B) then 1 else 0;
      }
    }
    assert usable[..|usable|] == usable;
  }

  method Summarize(records: seq<Record>) returns (s: Summary)
    ensures s.totalPairs == |records| && s.usablePairs == Count(records, Usable)
        && s.usablePairs + s.invalidPairs == |records|
    ensures s.flipCount == Count(records, Flipped) && s.tieCount == Count(records, Tied)
    ensures s.firstWins == Count(records, FirstWon1) + Count(records, FirstWon2)
    ensures s.judgments == Count(records, Judged1) + Count(records, Judged2)
    ensures s.labeled == Count(records, Labeled) && s.hits1 == Count(records, Hit1) && s.hits2 == Count(records, Hit2)
    ensures s.flipRate == Ratio(s.flipCount, s.usablePairs) && s.firstWinRate == Ratio(s.firstWins, s.judgments)
    ensures s.accuracy1 == Ratio(s.hits1, s.labeled) && s.accuracy2 == Ratio(s.hits2, s.labeled)
  {
    var usable := Filter(records, Usable);
    var flips := Filter(usable, Flipped);
    var ties := Filter(usable, Tied);
    forall i | 0 <= i < |usable|
      ensures Is(Usable, usable[i])
    {
      KeptAre(records, Usable, i);
    }
    var wins, judgments := CountFirstPositions(usable);
    var labeled := Filter(usable, Labeled);
    UsableCounts(records);
    CountOfKept(usable, Labeled, Hit1);
    CountOfKept(usable, Labeled, Hit2);
    var hits1, hits2 := |Filter(labeled, Hit1)|, |Filter(labeled, Hit2)|;
    s := Summary(|records|, |usable|, |records| - |usable|, |flips|, |ties|, wins, judgments, |labeled|, hits1, hits2,
                 Ratio(|flips|, |usable|), Ratio(wins, judgments), Ratio(hits1, |labeled|), Ratio(hits2, |labeled|));
  }

  lemma {:induction false} KeptAre(records: seq<Record>, t: Trait, i: nat)
    requires i < |Filter(records, t)|
    ensures Is(t, Filter(records, t)[i])
  {
    var init := records[..|records| - 1];
    if i < |Filter(init, t)| {
      KeptAre(init, t, i);
    }
  }

  // Every count over the usable records is the count over all records.
  lemma UsableCounts(records: seq<Record>)
    ensures Count(records, Usable) <= |records|
    ensures forall t :: Count(Filter(records, Usable), t) == Count(records, t)
  {
    CountIsBounded(records, Usable);
    forall t
      ensures Count(Filter(records, Usable), t) == Count(records, t)
    {
      CountOfKept(records, Usable, t);
    }
  }

  lemma {:induction false} CountIsBounded(records: seq<Record>, t: Trait)
    ensures Count(records, t) <= |records|
  {
    if records != [] {
      CountIsBounded(records[..|records| - 1], t);
    }
  }

  lemma CountSnoc(records: seq<Record>, last: Record, t: Trait)
    ensures Count(records + [last], t) == Count(records, t) + if Is(t, last) then 1 else 0
  {
    assert (records + [last])[..|records|] == records;
  }

  lemma {:induction false} CountOfKept(records: seq<Record>, keep: Trait, t: Trait)
    requires forall i :: 0 <= i < |records| ==> (Is(t, records[i]) ==> Is(keep, records[i]))
    ensures Count(Filter(records, keep), t) == Count(records, t)
  {
    if records != [] {
      var init, last := records[..|records| - 1], records[|records| - 1];
      CountOfKept(init, keep, t);
      CountSnoc(Filter(init, keep), last, t);
      assert Filter(init, keep) + [] == Filter(init, keep);
    }
  }

  // ---- Bias is bounded by flips ----

  // How far first positions won more often than they lost, doubled as in 2 * wins - judgments.
  function Excess(records: seq<Record>): int {
    2 * (Count(records, FirstWon1) + Count(records, FirstWon2)) - (Count(records, Judged1) + Count(records, Judged2))
  }

  lemma {:induction false} ExcessBoundedByFlips(records: seq<Record>)
    ensures -2 * Count(records, Flipped) <= Excess(records) <= 2 * Count(records, Flipped)
    ensures Excess(records) == 2 * Count(records, Flipped) <==> forall r :: r in records && Is(Flipped, r) ==>
        Is(FirstBoth, r)
  {
    if records != [] {
      var init, last := records[..|records| - 1], records[|records| - 1];
      ExcessBoundedByFlips(init);
      assert records == init + [last];
      assert forall r :: r in records <==> r in init || r == last;
    }
  }

  lemma SplitQuotient(x: real, y: real, d: real)
    requires d > 0.0
    ensures (x + y) / d == x / d + y / d && d / 2.0 / d == 0.5
  {
  }

  lemma QuotientOrder(x: real, y: real, d: real)
    requires x <= y && d > 0.0
    ensures x / d <= y / d
  {
  }

  lemma NearHalf(w: real, f: real, d: real)
    requires d > 0.0 && d / 2.0 <= w + f && w <= d / 2.0 + f
    ensures 0.5 - f / d <= w / d <= 0.5 + f / d
  {
    SplitQuotient(d / 2.0, f, d);
    SplitQuotient(w, f, d);
    QuotientOrder(w, d / 2.0 + f, d);
    QuotientOrder(d / 2.0, w + f, d);
  }

  // The reported rate lies within flips per judgment of one half.
  lemma WinRateNearHalf(records: seq<Record>)
    ensures
      var wins := Count(records, FirstWon1) + Count(records, FirstWon2);
      var judgments := Count(records, Judged1) + Count(records, Judged2);
      var flips := Count(records, Flipped);
      judgments > 0 ==>
        var bias := Ratio(flips, judgments).value;
        0.5 - bias <= Ratio(wins, judgments).value <= 0.5 + bias
  {
    ExcessBoundedByFlips(records);
    if Count(records, Judged1) + Count(records, Judged2) > 0 {
      NearHalf((Count(records, FirstWon1) + Count(records, FirstWon2)) as real, Count(records, Flipped) as real,
               (Count(records, Judged1) + Count(records, Judged2)) as real);
    }
  }

  // The two reference accuracies cannot lie further apart than the flips among the pairs.
  lemma {:induction false} AccuraciesDifferByFlips(records: seq<Record>)
    ensures 0 - Count(records, Flipped) <= Count(records, Hit1) - Count(records, Hit2) <= Count(records, Flipped)
  {
    if records != [] {
      AccuraciesDifferByFlips(records[..|records| - 1]);
    }
  }

  // A judge that names the same answer in both orders, whenever both of its verdicts are valid.
  ghost predicate PositionBlind(judge: Judge) {
    forall q, a, b ::
      var s1, s2 := VerdictToSide(judge(q, a, b), false), VerdictToSide(judge(q, b, a), true);
      s1.Some? && s2.Some? ==> s1 == s2
  }

  lemma {:induction false} NoneCounted(records: seq<Record>, t: Trait)
    ensures Count(records, t) == 0 <==> forall r :: r in records ==> !Is(t, r)
  {
    if records != [] {
      NoneCounted(records[..|records| - 1], t);
      assert records == records[..|records| - 1] + [records[|records| - 1]];
    }
  }

  // Exactly the position-blind judges never flip, on whatever data; and then the first position
  // wins exactly half of the decided judgments.
  lemma BlindJudgesNeverFlip(judge: Judge)
    ensures PositionBlind(judge) <==> forall cases :: Count(RunPairs(judge, cases), Flipped) == 0
    ensures PositionBlind(judge) ==> forall cases :: Excess(RunPairs(judge, cases)) == 0
  {
    if PositionBlind(judge) {
      forall cases
        ensures Count(RunPairs(judge, cases), Flipped) == 0 && Excess(RunPairs(judge, cases)) == 0
      {
        NoneCounted(RunPairs(judge, cases), Flipped);
        ExcessBoundedByFlips(RunPairs(judge, cases));
      }
    } else {
      var q, a, b :|
        var s1, s2 := VerdictToSide(judge(q, a, b), false), VerdictToSide(judge(q, b, a), true);
        s1.Some? && s2.Some? && s1 != s2;
      var cases := [Case(q, a, b, None)];
      var records := RunPairs(judge, cases);
      assert records[0] in records && Is(Flipped, records[0]);
      NoneCounted(records, Flipped);
    }
  }

  // ---- Wins are verdicts for the answer shown first ----

  function FirstVerdicts(judge: Judge, c: Case): nat {
    var v1, v2 := judge(c.question, c.answerA, c.answerB), judge(c.question, c.answerB, c.answerA);
    if v1 == Invalid || v2 == Invalid then 0
    else (if v1 == First then 1 else 0) + (if v2 == First then 1 else 0)
  }

  function TotalFirstVerdicts(judge: Judge, cases: seq<Case>): nat {
    if cases == [] then 0
    else TotalFirstVerdicts(judge, cases[..|cases| - 1]) + FirstVerdicts(judge, cases[|cases| - 1])
  }

  lemma PairWins(judge: Judge, c: Case)
    ensures (if Is(FirstWon1, RunPair(judge, c)) then 1 else 0) + (if Is(FirstWon2, RunPair(judge, c)) then 1 else 0)
         == FirstVerdicts(judge, c)
  {
  }

  // The wins of the first position are the verdicts "first" in the pairs with two valid verdicts.
  lemma {:induction false} WinsAreFirstVerdicts(judge: Judge, cases: seq<Case>)
    ensures Count(RunPairs(judge, cases), FirstWon1) + Count(RunPairs(judge, cases), FirstWon2)
         == TotalFirstVerdicts(judge, cases)
  {
    if cases != [] {
      var init, last := cases[..|cases| - 1], cases[|cases| - 1];
      WinsAreFirstVerdicts(judge, init);
      PairWins(judge, last);
      assert RunPairs(judge, cases) == RunPairs(judge, init) + [RunPair(judge, last)];
      CountSnoc(RunPairs(judge, init), RunPair(judge, last), FirstWon1);
      CountSnoc(RunPairs(judge, init), RunPair(judge, last), FirstWon2);
    }
  }

  // A judge that always prefers what it is shown first wins every judgment for it and flips every pair.
  lemma AlwaysFirstIsAllBias(judge: Judge, cases: seq<Case>)
    requires forall q, x, y :: judge(q, x, y) == First
    ensures
      var records := RunPairs(judge, cases);
      && Count(records, FirstWon1) == Count(records, FirstWon2) == |cases|
      && Count(records, Judged1) == Count(records, Judged2) == Count(records, Flipped) == |cases|
  {
    AllCounted(RunPairs(judge, cases), FirstWon1);
    AllCounted(RunPairs(judge, cases), FirstWon2);
    AllCounted(RunPairs(judge, cases), Judged1);
    AllCounted(RunPairs(judge, cases), Judged2);
    AllCounted(RunPairs(judge, cases), Flipped);
  }

  // ---- stub_judge ----

  function StubJudge(question: string, first: string, second: string): Verdict {
    if |Strip(first)| == |Strip(second)| then Tie
    else if |Strip(first)| > |Strip(second)| then First
    else Second
  }

  lemma StubJudgeIsBlind()
    ensures PositionBlind(StubJudge)
  {
    forall q, a, b
      ensures VerdictToSide(StubJudge(q, a, b), false) == VerdictToSide(StubJudge(q, b, a), true)
    {
    }
  }

  lemma StubJudgeShowsNoBias(cases: seq<Case>)
    ensures Count(RunPairs(StubJudge, cases), Flipped) == 0 && Excess(RunPairs(StubJudge, cases)) == 0
    ensures Count(RunPairs(StubJudge, cases), Usable) == |cases|
  {
    StubJudgeIsBlind();
    BlindJudgesNeverFlip(StubJudge);
    AllCounted(RunPairs(StubJudge, cases), Usable);
  }

  lemma {:induction false} AllCounted(records: seq<Record>, t: Trait)
    requires forall r :: r in records ==> Is(t, r)
    ensures Count(records, t) == |records|
  {
    if records != [] {
      AllCounted(records[..|records| - 1], t);
    }
  }

  // The side of the longer answer, outer whitespace aside.
  function LongerSide(c: Case): Side {
    if |Strip(c.answerA)| > |Strip(c.answerB)| then A
    else if |Strip(c.answerA)| < |Strip(c.answerB)| then B
    else Draw
  }

  lemma StubJudgeTakesTheLonger(c: Case)
    ensures RunPair(StubJudge, c).side1 == RunPair(StubJudge, c).side2 == Some(LongerSide(c))
    ensures Is(Tied, RunPair(StubJudge, c)) <==> |Strip(c.answerA)| == |Strip(c.answerB)|
  {
  }

  // The cases with a reference, and those among them whose reference is the longer answer.
  function References(cases: seq<Case>, longer: bool): nat {
    if cases == [] then 0
    else
      var c := cases[|cases| - 1];
      References(cases[..|cases| - 1], longer)
      + if (c.reference == Some(A) || c.reference == Some(B)) && (longer ==> c.reference == Some(LongerSide(c)))
        then 1 else 0
  }

  lemma StubJudgeHits(c: Case)
    ensures
      var r := RunPair(StubJudge, c);
      && (Is(Labeled, r) <==> References([c], false) == 1) && (Is(Hit1, r) <==> References([c], true) == 1)
      && (Is(Hit2, r) <==> References([c], true) == 1)
  {
    StubJudgeTakesTheLonger(c);
  }

  lemma ReferencesSnoc(cases: seq<Case>, c: Case, longer: bool)
    ensures References(cases + [c], longer) == References(cases, longer) + References([c], longer)
  {
    assert (cases + [c])[..|cases|] == cases;
    assert [c][..0] == [];
  }

  lemma {:induction false} StubJudgeCounts(cases: seq<Case>, t: Trait, longer: bool)
    requires if longer then t == Hit1 || t == Hit2 else t == Labeled
    ensures Count(RunPairs(StubJudge, cases), t) == References(cases, longer)
  {
    if cases != [] {
      var init, last := cases[..|cases| - 1], cases[|cases| - 1];
      StubJudgeCounts(init, t, longer);
      assert cases == init + [last];
      assert RunPairs(StubJudge, cases) == RunPairs(StubJudge, init) + [RunPair(StubJudge, last)];
      ReferencesSnoc(init, last, longer);
      StubJudgeHits(last);
      CountSnoc(RunPairs(StubJudge, init), RunPair(StubJudge, last), t);
    }
  }

  // So both of its accuracies are the share of references that are the longer answer.
  lemma StubJudgeAccuracies(cases: seq<Case>)
    ensures
      var records := RunPairs(StubJudge, cases);
      && Count(records, Labeled) == References(cases, false)
      && Count(records, Hit1) == Count(records, Hit2) == References(cases, true)
  {
    StubJudgeCounts(cases, Labeled, false);
    StubJudgeCounts(cases, Hit1, true);
    StubJudgeCounts(cases, Hit2, true);
  }
}
