/**
 * The server route `POST /api/analyze-body`: two guards that answer before
 * any provider call, the shared request and reply pipeline, and the mapping
 * of provider errors to HTTP statuses.
 */
module AnalyzeBodyRoute {
  import opened Wrappers
  import opened Numbers
  import opened Pipeline

  /** What `await request.json()` gave: the two destructured fields (`None`
      stands for any falsy value), or a thrown error's message. */
  datatype RequestBody =
    | Unreadable(message: Option<string>)
    | Body(photos: Option<PhotosInput>, userData: Option<UserDataInput>)

  datatype ResponseBody = ErrorBody(error: string) | AnalysisBody(analysis: JsonObject)

  datatype Response = Response(status: int, body: ResponseBody)

  /** The response, together with the provider call made on the way, if any. */
  datatype Handled = Handled(response: Response, call: Option<Call>)

  const IncompleteMessage: string := "Dados incompletos"
  const MissingKeyMessage: string :=
    "API key da OpenAI não configurada. Configure OPENAI_API_KEY nas variáveis de ambiente."
  const InvalidKeyMessage: string :=
    "Chave da API da OpenAI inválida. Verifique se você configurou a chave correta em OPENAI_API_KEY."
  const RateLimitMessage: string := "Limite de requisições atingido. Tente novamente em alguns instantes."
  const ProviderFaultMessage: string := "Erro no servidor da OpenAI. Tente novamente em alguns instantes."
  const GenericProviderMessage: string := "Erro ao processar análise com a OpenAI."
  const UnreadableMessage: string := "Não foi possível analisar as fotos. Tente novamente."

  /** `!process.env.OPENAI_API_KEY` is false: the variable is set and not
      empty; unset and the empty string are the two values that stop the route. */
  function KeyConfigured(env: Option<string>): (r: bool)
    ensures !r <==> env in {None, Some("")}
    ensures r ==> |env.value| >= 1
  {
    env.Some? && env.value != ""
  }

  /** The inner `catch`: 401, 429 and 500 keep their status with a fixed
      message; any other error (a parse error has no status at all) is a 500
      carrying its own message, or the default one when it has none. */
  function ErrorResponse(e: Failure): (r: Response)
    ensures r.status in {401, 429, 500}
    ensures r.status == 401 <==> e.status == Some(401)
    ensures r.status == 429 <==> e.status == Some(429)
    ensures r.body.ErrorBody?
    ensures e.status == Some(401) ==> r.body.error == InvalidKeyMessage
    ensures e.status == Some(429) ==> r.body.error == RateLimitMessage
    ensures e.status == Some(500) ==> r.body.error == ProviderFaultMessage
    ensures e.status !in {Some(401), Some(429), Some(500)} ==>
              r.body.error == OrElse(e.message, GenericProviderMessage)
  {
    if e.status == Some(401) then Response(401, ErrorBody(InvalidKeyMessage))
    else if e.status == Some(429) then Response(429, ErrorBody(RateLimitMessage))
    else if e.status == Some(500) then Response(500, ErrorBody(ProviderFaultMessage))
    else Response(500, ErrorBody(OrElse(e.message, GenericProviderMessage)))
  }

  /** Both guards passed: the two objects are there and a key is configured. */
  predicate Admitted(body: RequestBody, env: Option<string>) {
    body.Body? && body.photos.Some? && body.userData.Some? && KeyConfigured(env)
  }

  /** The request the route sends for an admitted body. */
  function RouteCall(body: RequestBody, env: Option<string>): Call
    requires Admitted(body, env)
  {
    Call(env.value, BuildRequest(body.photos.value, body.userData.value))
  }

  /** The provider's reply to the route's request, read and merged. */
  function RouteAttempt(body: RequestBody, env: Option<string>,
                        provider: ChatRequest -> ProviderOutcome,
                        parse: string -> ParseOutcome): Attempt
    requires Admitted(body, env)
  {
    CompleteAnalysis(provider(RouteCall(body, env).request), parse, RoundedBmi(body.userData.value))
  }

  /** `POST`, for any provider and any parser. */
  function Post(body: RequestBody, env: Option<string>,
                provider: ChatRequest -> ProviderOutcome,
                parse: string -> ParseOutcome): (h: Handled)
    // an unreadable body is a 500 with the error's message or the default
    ensures body.Unreadable? ==>
              h == Handled(Response(500, ErrorBody(OrElse(body.message, UnreadableMessage))), None)
    // the presence guard runs first and looks at nothing but presence
    ensures h.response.status == 400 <==> body.Body? && (body.photos.None? || body.userData.None?)
    ensures h.response.status == 400 ==> h == Handled(Response(400, ErrorBody(IncompleteMessage)), None)
    // then the key guard, still before any call
    ensures body.Body? && body.photos.Some? && body.userData.Some? && !KeyConfigured(env) ==>
              h == Handled(Response(500, ErrorBody(MissingKeyMessage)), None)
    // the provider is called exactly when both guards pass, with the shared request
    ensures h.call.Some? <==> Admitted(body, env)
    ensures h.call.Some? ==> h.call.value == RouteCall(body, env)
    // success: the merged object, with the rounded local BMI
    ensures h.response.status == 200 <==> Admitted(body, env) && RouteAttempt(body, env, provider, parse).Succeeded?
    ensures h.response.status == 200 ==>
              h.response.body == AnalysisBody(RouteAttempt(body, env, provider, parse).result) &&
              h.response.body.analysis["bmi"] == JNum(RoundedBmi(body.userData.value))
    // failure after the call: classified by status
    ensures Admitted(body, env) && RouteAttempt(body, env, provider, parse).Threw? ==>
              h.response == ErrorResponse(RouteAttempt(body, env, provider, parse).error)
  {
    match body
    case Unreadable(m) =>
      Handled(Response(500, ErrorBody(OrElse(m, UnreadableMessage))), None)
    case Body(photos, userData) =>
      if photos.None? || userData.None? then
        Handled(Response(400, ErrorBody(IncompleteMessage)), None)
      else if !KeyConfigured(env) then
        Handled(Response(500, ErrorBody(MissingKeyMessage)), None)
      else
        var call := Call(env.value, BuildRequest(photos.value, userData.value));
        match CompleteAnalysis(provider(call.request), parse, RoundedBmi(userData.value))
        case Succeeded(result) => Handled(Response(200, AnalysisBody(result)), Some(call))
        case Threw(e) => Handled(ErrorResponse(e), Some(call))
  }

  /** The BMI the prompt shows is the one the response returns. */
  lemma PromptAndResultShareBmi(body: RequestBody, env: Option<string>,
                                provider: ChatRequest -> ProviderOutcome,
                                parse: string -> ParseOutcome)
    requires Post(body, env, provider, parse).response.status == 200
    ensures var h := Post(body, env, provider, parse);
            h.call.Some? && h.response.body.AnalysisBody? &&
            h.response.body.analysis["bmi"] == JNum(h.call.value.request.parts[0].prompt.bmi)
  {
  }

  /** A reply the parser cannot read has no status, so it is a generic 500
      carrying the parser's message: no partial analysis is returned. */
  lemma MalformedReplyIsGeneric500(body: RequestBody, env: Option<string>,
                                   provider: ChatRequest -> ProviderOutcome,
                                   parse: string -> ParseOutcome)
    requires Admitted(body, env)
    requires provider(RouteCall(body, env).request).Completed?
    requires parse(ContentText(provider(RouteCall(body, env).request).content)).ParseFailed?
    ensures Post(body, env, provider, parse).response ==
              Response(500, ErrorBody(OrElse(Some(parse(ContentText(provider(RouteCall(body, env).request).content)).message),
                                             GenericProviderMessage)))
  {
  }

  /** The worked scenario: a 165 cm, 60 kg user; the reply's five fields come
      back unchanged, with `bmi` 22.0. */
  lemma WorkedScenario(photos: PhotosInput, reply: JsonObject, text: string,
                       provider: ChatRequest -> ProviderOutcome, parse: string -> ParseOutcome)
    requires text != ""
    requires forall r :: provider(r) == Completed(Some(text))
    requires parse(text) == Parsed(reply)
    ensures var u := UserDataInput(Some("female"), Some(28.0), Some(60.0), Some(165.0), Some("fat_loss"));
            var h := Post(Body(Some(photos), Some(u)), Some("key"), provider, parse);
            && h.response.status == 200
            && h.response.body.analysis == Merge(reply, Finite(22.0))
  {
  }
}
