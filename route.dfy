/**
 * The `POST /api/chat` handler (app/api/chat/route.ts): validate the body,
 * check the credential, delegate to the service and map its outcome to an
 * HTTP response. The credential is a boolean parameter; the service is a
 * function parameter, and the result records the request it was handed, if
 * any, so that "never invoked" can be stated.
 */
module ChatRoute {

  import opened Wrappers
  import AiService

  /** The JSON body fields; a field the body lacks is `None`. */
  datatype Body = Body(question: Option<string>, mode: Option<string>, history: Option<seq<AiService.Exchange>>)

  /** What `await request.json()` gives: the parsed body, or the message of what it threw. */
  datatype Payload = Parsed(body: Body) | Malformed(message: string)

  datatype ResponseBody =
    | AnswerBody(answer: string, followUpQuestions: seq<string>)
    | ErrorBody(error: string)
    | ErrorDetailsBody(error: string, details: string)

  datatype HttpResponse = HttpResponse(status: nat, body: ResponseBody)

  /** The response, and the request the service was invoked with (`None` when it was not invoked). */
  datatype Handled = Handled(response: HttpResponse, delegated: Option<AiService.AIRequest>)

  type Service = AiService.AIRequest -> Result<AiService.AIResponse>

  const MissingFields := "Missing question or mode"
  const NotConfigured := "GROQ_API_KEY not configured"
  const ProcessingFailed := "AI processing failed"

  /** JavaScript truthiness of a string field: present and non-empty. */
  predicate Truthy(field: Option<string>)
  {
    field.Some? && field.value != ""
  }

  /**
   * The handler. A malformed body and a failure of the service both become
   * 500 "AI processing failed" carrying the thrown message; missing fields
   * give 400 before the credential is looked at; a missing credential gives
   * 500 without invoking the service; otherwise the service's response is
   * returned as is.
   */
  function Post(payload: Payload, credentialSet: bool, service: Service): (h: Handled)
    ensures payload.Malformed? ==>
      h == Handled(HttpResponse(500, ErrorDetailsBody(ProcessingFailed, payload.message)), None)
    ensures payload.Parsed? && !(Truthy(payload.body.question) && Truthy(payload.body.mode)) ==>
      h == Handled(HttpResponse(400, ErrorBody(MissingFields)), None)
    ensures payload.Parsed? && Truthy(payload.body.question) && Truthy(payload.body.mode) && !credentialSet ==>
      h == Handled(HttpResponse(500, ErrorBody(NotConfigured)), None)
    ensures payload.Parsed? && Truthy(payload.body.question) && Truthy(payload.body.mode) && credentialSet ==>
      var request := AiService.AIRequest(payload.body.question.value, payload.body.mode.value, payload.body.history);
      h.delegated == Some(request) &&
      match service(request)
      case Success(r) => h.response == HttpResponse(200, AnswerBody(r.answer, r.followUpQuestions))
      case Failure(m) => h.response == HttpResponse(500, ErrorDetailsBody(ProcessingFailed, m))
  {
    match payload
    case Malformed(message) =>
      Handled(HttpResponse(500, ErrorDetailsBody(ProcessingFailed, message)), None)
    case Parsed(body) =>
      if !Truthy(body.question) || !Truthy(body.mode) then
        Handled(HttpResponse(400, ErrorBody(MissingFields)), None)
      else if !credentialSet then
        Handled(HttpResponse(500, ErrorBody(NotConfigured)), None)
      else
        var request := AiService.AIRequest(body.question.value, body.mode.value, body.history);
        match service(request)
        case Success(r) => Handled(HttpResponse(200, AnswerBody(r.answer, r.followUpQuestions)), Some(request))
        case Failure(m) => Handled(HttpResponse(500, ErrorDetailsBody(ProcessingFailed, m)), Some(request))
  }

  /**
   * Every response is 200, 400 or 500; 200 comes exactly with an answer, and
   * the service is invoked exactly when the fields are present and the
   * credential is set.
   */
  lemma PostResponseShape(payload: Payload, credentialSet: bool, service: Service)
    ensures var h := Post(payload, credentialSet, service);
      h.response.status in {200, 400, 500} &&
      (h.response.status == 200 <==> h.response.body.AnswerBody?) &&
      (h.delegated.Some? <==>
        payload.Parsed? && Truthy(payload.body.question) && Truthy(payload.body.mode) && credentialSet)
  {
  }

  /** Validation comes first: missing fields give 400 whether or not the credential is set. */
  lemma ValidationPrecedesCredential(body: Body, service: Service)
    requires !Truthy(body.question) || !Truthy(body.mode)
    ensures Post(Parsed(body), false, service) == Post(Parsed(body), true, service)
    ensures Post(Parsed(body), false, service).response == HttpResponse(400, ErrorBody(MissingFields))
  {
  }

  /** The handler does not check the mode against the four names: any non-empty mode reaches the service. */
  lemma AnyTruthyModeDelegated(question: string, mode: string, service: Service)
    requires question != "" && mode != ""
    ensures Post(Parsed(Body(Some(question), Some(mode), None)), true, service).delegated ==
      Some(AiService.AIRequest(question, mode, None))
  {
  }

  /**
   * Handler and service together: a failed answer call reaches the caller as
   * 500 "AI processing failed" with details "AI processing failed: " and the
   * model's message, and a missing credential means no model call at all.
   */
  lemma PostWithAiService(body: Body, answerModel: AiService.AnswerModel, followUpModel: AiService.FollowUpModel)
    requires Truthy(body.question) && Truthy(body.mode)
    ensures var service := (r: AiService.AIRequest) => AiService.ProcessQuestionSpec(r, answerModel, followUpModel);
      var request := AiService.AIRequest(body.question.value, body.mode.value, body.history);
      var answer := answerModel(AiService.SystemPrompt(request.mode), AiService.EffectivePrompt(request.question, request.history));
      Post(Parsed(body), false, service).delegated.None? &&
      (answer.CallFailed? ==>
         Post(Parsed(body), true, service).response ==
         HttpResponse(500, ErrorDetailsBody(ProcessingFailed, "AI processing failed: " + answer.message))) &&
      (answer.Text? ==>
         Post(Parsed(body), true, service).response.status == 200 &&
         |Post(Parsed(body), true, service).response.body.followUpQuestions| <= 3)
  {
    AiService.ProcessQuestionOutcome(AiService.AIRequest(body.question.value, body.mode.value, body.history), answerModel, followUpModel);
  }
}
