/**
 * The request texts the service sends to the language model, and what each of
 * its three operations returns or throws. The model itself is a function
 * parameter from request text to `Reply`: whatever it answers is taken as given.
 */
module GeminiService {
  import opened Types

  /** What an awaited call produced: a value, or an exception with its error. */
  datatype Reply<T> = Done(value: T) | Thrown(error: string)

  /** The five scored dimensions of the evaluation reply (scores are taken as integers). */
  datatype Scores = Scores(policy: int, requirement: int, product: int, logic: int, business: int)

  /** One improvement suggestion of the evaluation reply. */
  datatype Suggestion = Suggestion(dimension: string, advice: string, basis: string)

  /** The evaluation reply, as its response schema describes it. */
  datatype EvalResult = EvalResult(scores: Scores, suggestions: seq<Suggestion>)

  /** The background text used when the caller gives no context. */
  const DefaultContext: string := "通用企业数字化知识"

  /** What `analyzePolicy` answers when the model call fails. */
  const PolicyFallback: string := "政策解析服务暂时不可用，请稍后重试。"

  const GenerationHead: string := "需求描述："
  const GenerationMid: string := "\n\n知识背景："
  const ComparisonHead: string := "请将以下【待评审方案】与【编制标准】进行深度比对。找出方案中不符合标准、内容缺失或质量不佳的地方：\n\n【待评审方案】：\n"
  const ComparisonMid: string := "\n\n【编制标准】：\n"
  const GenericHead: string := "请评估以下方案内容并给出专业建议：\n\n"

  /** JavaScript truthiness of an optional string: present and non-empty. */
  predicate Truthy(s: Option<string>)
  {
    s.Some? && s.value != ""
  }

  /**
   * The request text of `generateSolution`: the demand, then the context, or the
   * default background when the context is missing or empty.
   */
  function GenerationContents(prompt: string, context: Option<string>): (r: string)
    ensures Truthy(context) ==> r == GenerationHead + prompt + GenerationMid + context.value
    ensures !Truthy(context) ==> r == GenerationHead + prompt + GenerationMid + DefaultContext
  {
    GenerationHead + prompt + GenerationMid + (if Truthy(context) then context.value else DefaultContext)
  }

  /** An empty context is treated exactly like a missing one. */
  lemma EmptyContextIsMissing(prompt: string)
    ensures GenerationContents(prompt, Some("")) == GenerationContents(prompt, None)
  {
  }

  /** Under one context, the request text determines the demand prompt: no two prompts are sent alike. */
  lemma GenerationContentsInjective(p1: string, p2: string, context: Option<string>)
    requires GenerationContents(p1, context) == GenerationContents(p2, context)
    ensures p1 == p2
  {
    var r := GenerationContents(p1, context);
    assert |p1| == |p2|;
    assert r[|GenerationHead|..|GenerationHead| + |p1|] == p1;
    assert GenerationContents(p2, context)[|GenerationHead|..|GenerationHead| + |p2|] == p2;
  }

  /**
   * The request text of `evaluateSolution`: the comparison request (content, then
   * standard) when a non-empty standard is given, otherwise the generic request.
   */
  function EvaluationPrompt(content: string, standard: Option<string>): (r: string)
    ensures Truthy(standard) ==> r == ComparisonHead + content + ComparisonMid + standard.value
    ensures !Truthy(standard) ==> r == GenericHead + content
  {
    if Truthy(standard) then ComparisonHead + content + ComparisonMid + standard.value
    else GenericHead + content
  }

  /** Without a usable standard the request does not depend on the standard at all. */
  lemma GenericPromptIgnoresStandard(content: string, s1: Option<string>, s2: Option<string>)
    requires !Truthy(s1) && !Truthy(s2)
    ensures EvaluationPrompt(content, s1) == EvaluationPrompt(content, s2)
  {
  }

  /**
   * `generateSolution`: one call with the generation request; its text is
   * returned and its error is re-thrown unchanged.
   */
  function GenerateSolution(prompt: string, context: Option<string>, model: string -> Reply<Option<string>>): (r: Reply<Option<string>>)
    ensures model(GenerationContents(prompt, context)).Thrown? ==> r == Thrown(model(GenerationContents(prompt, context)).error)
    ensures model(GenerationContents(prompt, context)).Done? ==> r == Done(model(GenerationContents(prompt, context)).value)
  {
    model(GenerationContents(prompt, context))
  }

  /**
   * `analyzePolicy`: the client is built before the `try`, so a failure to build
   * it (`clientFailure`) escapes; a failing model call is replaced by the fixed
   * fallback text. The model is given the policy name.
   */
  function AnalyzePolicy(policyName: string, clientFailure: Option<string>, model: string -> Reply<Option<string>>): (r: Reply<Option<string>>)
    ensures clientFailure.None? ==> r.Done?
    ensures clientFailure.Some? ==> r == Thrown(clientFailure.value)
    ensures clientFailure.None? && model(policyName).Thrown? ==> r == Done(Some(PolicyFallback))
    ensures clientFailure.None? && model(policyName).Done? ==> r == model(policyName)
  {
    if clientFailure.Some? then Thrown(clientFailure.value)
    else
      match model(policyName)
      case Done(text) => Done(text)
      case Thrown(_) => Done(Some(PolicyFallback))
  }

  /**
   * `evaluateSolution`: one call with the evaluation request; the parsed reply is
   * returned and its error is re-thrown unchanged.
   */
  function EvaluateSolution(content: string, standard: Option<string>, model: string -> Reply<EvalResult>): (r: Reply<EvalResult>)
    ensures model(EvaluationPrompt(content, standard)).Thrown? ==> r == Thrown(model(EvaluationPrompt(content, standard)).error)
    ensures model(EvaluationPrompt(content, standard)).Done? ==> r == Done(model(EvaluationPrompt(content, standard)).value)
  {
    model(EvaluationPrompt(content, standard))
  }
}
