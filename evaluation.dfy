/**
 * The evaluation screen: the five-dimension chart, the rounded average score,
 * its verdict band, and the evaluate and reset handlers.
 */
module Evaluation {
  import opened Types
  import opened GeminiService

  /** The five scored dimensions, in chart order. */
  datatype Dimension = Policy | Requirement | Product | Logic | Business

  /** The dimensions in the order the chart lists them. */
  const ChartOrder: seq<Dimension> := [Policy, Requirement, Product, Logic, Business]

  /** The chart label of a dimension. */
  function Subject(d: Dimension): string
  {
    match d
    case Policy => "标准匹配"
    case Requirement => "需求契合"
    case Product => "产品适配"
    case Logic => "逻辑完整"
    case Business => "商务价值"
  }

  /** The score of one dimension. */
  function ScoreOf(s: Scores, d: Dimension): int
  {
    match d
    case Policy => s.policy
    case Requirement => s.requirement
    case Product => s.product
    case Logic => s.logic
    case Business => s.business
  }

  /** Every score lies in 0..100. */
  predicate InRange(s: Scores)
  {
    forall d: Dimension :: 0 <= ScoreOf(s, d) <= 100
  }

  /** One point of the radar chart. */
  datatype ChartPoint = ChartPoint(subject: string, a: int, fullMark: int)

  /** The chart data: one point per dimension in the fixed order, or nothing without a result. */
  function ChartData(result: Option<EvalResult>): (r: seq<ChartPoint>)
    ensures result.None? ==> r == []
    ensures result.Some? ==> |r| == |ChartOrder| == 5
    ensures result.Some? ==> forall k :: 0 <= k < |r| ==>
              r[k] == ChartPoint(Subject(ChartOrder[k]), ScoreOf(result.value.scores, ChartOrder[k]), 100)
  {
    match result
    case None => []
    case Some(res) =>
      var s := res.scores;
      [ ChartPoint("标准匹配", s.policy, 100),
        ChartPoint("需求契合", s.requirement, 100),
        ChartPoint("产品适配", s.product, 100),
        ChartPoint("逻辑完整", s.logic, 100),
        ChartPoint("商务价值", s.business, 100) ]
  }

  /** The five labels are distinct, so each dimension appears on the chart exactly once. */
  lemma ChartSubjectsDistinct(result: EvalResult, j: nat, k: nat)
    requires j < 5 && k < 5 && j != k
    ensures ChartData(Some(result))[j].subject != ChartData(Some(result))[k].subject
  {
    var c := ChartData(Some(result));
    assert c[0].subject[1] == '准';
    assert c[1].subject[1] == '求';
    assert c[2].subject[1] == '品';
    assert c[3].subject[1] == '辑';
    assert c[4].subject[1] == '务';
  }

  /** The sum of the five scores. */
  function Total(s: Scores): int
  {
    s.policy + s.requirement + s.product + s.logic + s.business
  }

  /**
   * `Math.round(total / 5)`: the integer nearest to the mean, halves rounded up;
   * 0 without a result.
   */
  function AverageScore(result: Option<EvalResult>): (r: int)
    ensures result.None? ==> r == 0
    ensures result.Some? ==> 10 * r - 5 <= 2 * Total(result.value.scores) < 10 * r + 5
  {
    match result
    case None => 0
    case Some(res) => (2 * Total(res.scores) + 5) / 10
  }

  /** The sum of the chart values. */
  function ChartSum(points: seq<ChartPoint>): int
  {
    if points == [] then 0 else points[0].a + ChartSum(points[1..])
  }

  /** The average shown is the rounded mean of exactly the five values the chart plots. */
  lemma AverageIsMeanOfChart(result: EvalResult)
    ensures 10 * AverageScore(Some(result)) - 5 <= 2 * ChartSum(ChartData(Some(result))) < 10 * AverageScore(Some(result)) + 5
  {
    var c := ChartData(Some(result));
    assert c[1..][1..] == c[2..] && c[2..][1..] == c[3..] && c[3..][1..] == c[4..] && c[4..][1..] == c[5..];
    assert ChartSum(c[4..]) == c[4].a;
    assert ChartSum(c[3..]) == c[3].a + c[4].a;
    assert ChartSum(c[2..]) == c[2].a + c[3].a + c[4].a;
    assert ChartSum(c[1..]) == c[1].a + c[2].a + c[3].a + c[4].a;
  }

  /** The smaller of two scores. */
  function Min(x: int, y: int): int { if x <= y then x else y }

  /** The larger of two scores. */
  function Max(x: int, y: int): int { if x <= y then y else x }

  /** The smallest of the five scores. */
  function MinScore(s: Scores): int
  {
    Min(Min(Min(Min(s.policy, s.requirement), s.product), s.logic), s.business)
  }

  /** The largest of the five scores. */
  function MaxScore(s: Scores): int
  {
    Max(Max(Max(Max(s.policy, s.requirement), s.product), s.logic), s.business)
  }

  /** The average lies between the smallest and the largest score (hence in 0..100 for scores in range). */
  lemma AverageBetweenMinAndMax(result: EvalResult)
    ensures MinScore(result.scores) <= AverageScore(Some(result)) <= MaxScore(result.scores)
  {
  }

  /** For scores in 0..100 the average is in 0..100 as well. */
  lemma AverageInRange(result: EvalResult)
    requires InRange(result.scores)
    ensures 0 <= AverageScore(Some(result)) <= 100
  {
    AverageBetweenMinAndMax(result);
    var s := result.scores;
    assert 0 <= ScoreOf(s, Policy) <= 100 && 0 <= ScoreOf(s, Requirement) <= 100 && 0 <= ScoreOf(s, Product) <= 100;
    assert 0 <= ScoreOf(s, Logic) <= 100 && 0 <= ScoreOf(s, Business) <= 100;
  }

  /** The three verdict bands. */
  datatype Verdict = HighStandard | BasicallyCompliant | NotFinal

  /** The label shown for a verdict. */
  function Label(v: Verdict): string
  {
    match v
    case HighStandard => "高标准符合"
    case BasicallyCompliant => "基本符合标准"
    case NotFinal => "不建议作为终稿"
  }

  /** The band of an average: above 80, 61 to 80, or 60 and below (both boundaries fall in the lower band). */
  function VerdictOf(average: int): (v: Verdict)
    ensures v == HighStandard <==> average > 80
    ensures v == BasicallyCompliant <==> 60 < average <= 80
    ensures v == NotFinal <==> average <= 60
  {
    if average > 80 then HighStandard
    else if average > 60 then BasicallyCompliant
    else NotFinal
  }

  /**
   * The verdict text shown beside the average of a result. Its band is read off
   * the total of the five scores: 403 and more, 303 to 402, or 302 and less.
   */
  function VerdictText(result: EvalResult): (r: string)
    ensures r == "高标准符合" <==> Total(result.scores) >= 403
    ensures r == "基本符合标准" <==> 303 <= Total(result.scores) <= 402
    ensures r == "不建议作为终稿" <==> Total(result.scores) <= 302
  {
    Label(VerdictOf(AverageScore(Some(result))))
  }

  /** The rank of a band, best first. */
  function Rank(v: Verdict): nat
  {
    match v
    case HighStandard => 2
    case BasicallyCompliant => 1
    case NotFinal => 0
  }

  /** A higher average never gets a worse verdict. */
  lemma VerdictMonotone(a: int, b: int)
    requires a <= b
    ensures Rank(VerdictOf(a)) <= Rank(VerdictOf(b))
  {
  }

  /** Every dimension above 80 gives the top verdict; every dimension at most 60 gives the bottom one. */
  lemma VerdictFromScores(result: EvalResult)
    ensures (forall d: Dimension :: ScoreOf(result.scores, d) >= 81) ==> VerdictOf(AverageScore(Some(result))) == HighStandard
    ensures (forall d: Dimension :: ScoreOf(result.scores, d) <= 60) ==> VerdictOf(AverageScore(Some(result))) == NotFinal
  {
    AverageBetweenMinAndMax(result);
    var s := result.scores;
    if forall d: Dimension :: ScoreOf(s, d) >= 81 {
      assert ScoreOf(s, Policy) >= 81 && ScoreOf(s, Requirement) >= 81 && ScoreOf(s, Product) >= 81;
      assert ScoreOf(s, Logic) >= 81 && ScoreOf(s, Business) >= 81;
    }
    if forall d: Dimension :: ScoreOf(s, d) <= 60 {
      assert ScoreOf(s, Policy) <= 60 && ScoreOf(s, Requirement) <= 60 && ScoreOf(s, Product) <= 60;
      assert ScoreOf(s, Logic) <= 60 && ScoreOf(s, Business) <= 60;
    }
  }

  /** The state of the evaluation screen. */
  class EvaluationPanel {
    var isEvaluating: bool
    var result: Option<EvalResult>
    var content: string
    var standard: string

    /** The empty screen. */
    constructor ()
      ensures !isEvaluating && result == None && content == "" && standard == ""
    {
      isEvaluating, result, content, standard := false, None, "", "";
    }

    /**
     * `handleEvaluate`: nothing happens without content; otherwise the service is
     * asked with the content and the standard (an empty standard gives the
     * generic request), a reply replaces the result, a failure leaves it, and the
     * busy flag ends false.
     */
    method Evaluate(model: string -> Reply<EvalResult>) returns (request: Option<string>)
      modifies this`isEvaluating, this`result
      ensures old(content) == "" ==> request == None && isEvaluating == old(isEvaluating) && result == old(result)
      ensures content != "" ==> request == Some(EvaluationPrompt(content, Some(standard))) && !isEvaluating
      ensures content != "" && model(request.value).Done? ==> result == Some(model(request.value).value)
      ensures content != "" && model(request.value).Thrown? ==> result == old(result)
    {
      if content == "" {
        return None;
      }
      isEvaluating := true;
      request := Some(EvaluationPrompt(content, Some(standard)));
      var reply := EvaluateSolution(content, Some(standard), model);
      if reply.Done? {
        result := Some(reply.value);
      }
      isEvaluating := false;
    }

    /** "Start a new review": result, content and standard are cleared. */
    method Reset()
      modifies this`result, this`content, this`standard
      ensures result == None && content == "" && standard == ""
    {
      result, content, standard := None, "", "";
    }
  }
}
