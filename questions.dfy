/**
 * The question-generation proxies (netlify/functions/questions.js and the
 * `/api/questions` route of server.mjs): both wrap the lesson text in a fixed
 * instruction, ask for a JSON object, and reduce every failure to an empty
 * question list.
 */
module QuestionsProxy {
  import opened Wrappers
  import opened Types
  import opened Upstream

  /** The instruction that precedes the lesson material; it ends with the material's heading line. */
  const Instruction: string := "На основе материала ниже создай ровно 3 сложных ситуативных вопроса уровня Senior/Expert.\nТребования:\n1) Формат \"Ситуация -> Решение\".\n2) 4 варианта ответов, один верный.\n3) Подробное техническое объяснение.\nВерни JSON: {\"questions\":[{\"id\":\"string\",\"question\":\"string\",\"options\":[\"string\",\"string\",\"string\",\"string\"],\"correctAnswerIndex\":0,\"explanation\":\"string\"}...]}\nМатериал:\n"

  /** The system message of the question request. */
  const JsonOnly: string := "Ты генерируешь только корректный JSON без лишнего текста."

  /**
   * The first choice's content as the proxies see it: absent (replaced by
   * `'{}'`, which has no `questions`), not valid JSON, or a parsed object.
   */
  datatype ModelContent = Absent | Unparseable | Parsed(questions: QuestionsField)

  /** The status, the question list answered, and the request sent upstream, if any. */
  datatype QuestionsResult = QuestionsResult(sent: Option<seq<ApiMessage>>, status: int, questions: seq<QuizQuestion>)

  /** The prompt: the fixed instruction, then the lesson material verbatim. */
  function Prompt(material: string): (r: string)
    ensures |r| == |Instruction| + |material|
    ensures r[..|Instruction|] == Instruction && r[|Instruction|..] == material
  {
    Instruction + material
  }

  /** The two messages of the question request. */
  function QuestionsRequest(material: string): seq<ApiMessage> {
    [ApiMessage("system", Some(JsonOnly)), ApiMessage("user", Some(Prompt(material)))]
  }

  /** The questions of the model's content: its array if it is one, and otherwise none. */
  function Normalise(content: ModelContent): (r: seq<QuizQuestion>)
    ensures content.Parsed? && content.questions.Items? ==> r == content.questions.items
    ensures !(content.Parsed? && content.questions.Items?) ==> r == []
  {
    match content
    case Parsed(Items(items)) => items
    case _ => []
  }

  /** An absent content behaves as an object without `questions`. */
  lemma AbsentIsEmptyObject()
    ensures Normalise(Absent) == Normalise(Parsed(NotArray)) == []
  {
  }

  /**
   * The serverless questions function. `body` is the parsed event body
   * (`None` when `JSON.parse` throws), whose `lessonContext` may be absent.
   */
  function NetlifyQuestions(apiKey: Option<string>, body: Option<Option<string>>, upstream: Outcome<ModelContent>): (r: QuestionsResult)
    ensures MissingKey(apiKey) ==> r == QuestionsResult(None, 500, [])
    ensures !MissingKey(apiKey) ==> r.status == 200
    ensures !MissingKey(apiKey) && body.Some? ==> r.sent == Some(QuestionsRequest(OrElse(body.value, "")))
    ensures r.questions != [] ==> upstream.Ok? && r.questions == Normalise(upstream.body)
    ensures !MissingKey(apiKey) && body.Some? && upstream.Ok? ==> r.questions == Normalise(upstream.body)
  {
    if MissingKey(apiKey) then QuestionsResult(None, 500, [])
    else if body.None? then QuestionsResult(None, 200, [])
    else
      var request := QuestionsRequest(OrElse(body.value, ""));
      match upstream
      case Ok(content) => QuestionsResult(Some(request), 200, Normalise(content))
      case _ => QuestionsResult(Some(request), 200, [])
  }

  /** A template literal prints an absent value as `undefined`. */
  function Interpolate(x: Option<string>): string {
    x.GetOr("undefined")
  }

  /**
   * The Express `/api/questions` route: the context is interpolated as
   * posted, and every failure answers an empty list with the default
   * status. Without a key the provider client cannot be built, so nothing
   * is sent.
   */
  function ServerQuestions(apiKey: Option<string>, lessonContext: Option<string>, upstream: Outcome<ModelContent>): (r: QuestionsResult)
    ensures r.status == 200
    ensures apiKey.None? ==> r.sent == None && r.questions == []
    ensures apiKey.Some? ==> r.sent == Some(QuestionsRequest(Interpolate(lessonContext)))
    ensures apiKey.Some? && upstream.Ok? ==> r.questions == Normalise(upstream.body)
    ensures !(apiKey.Some? && upstream.Ok?) ==> r.questions == []
  {
    if apiKey.None? then QuestionsResult(None, 200, [])
    else
      var request := QuestionsRequest(Interpolate(lessonContext));
      match upstream
      case Ok(content) => QuestionsResult(Some(request), 200, Normalise(content))
      case _ => QuestionsResult(Some(request), 200, [])
  }

  /**
   * The two routes answer the same questions; their prompts differ only for
   * an absent context, which the serverless function sends as empty and the
   * Express route as the word `undefined`.
   */
  lemma RoutesAgree(apiKey: Option<string>, lessonContext: Option<string>, upstream: Outcome<ModelContent>)
    requires !MissingKey(apiKey)
    ensures NetlifyQuestions(apiKey, Some(lessonContext), upstream).questions == ServerQuestions(apiKey, lessonContext, upstream).questions
    ensures lessonContext.Some? ==>
              NetlifyQuestions(apiKey, Some(lessonContext), upstream) == ServerQuestions(apiKey, lessonContext, upstream)
    ensures lessonContext.None? ==>
              && NetlifyQuestions(apiKey, Some(lessonContext), upstream).sent == Some(QuestionsRequest(""))
              && ServerQuestions(apiKey, lessonContext, upstream).sent == Some(QuestionsRequest("undefined"))
  {
  }
}
