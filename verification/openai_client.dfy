/**
 * The client-side library `analyzeBodyPhotos`: the same request and reply
 * pipeline as the route, but the client is built with the key or the empty
 * string (no presence check), and every failure becomes one generic error.
 */
module OpenAiClient {
  import opened Wrappers
  import opened Numbers
  import opened Types
  import opened Pipeline

  /** The library's declared user-data parameter: five fields, all present. */
  datatype ProfileInput = ProfileInput(gender: string, age: real, weight: real, height: real, goal: string)

  function AsUserDataInput(u: ProfileInput): (r: UserDataInput)
    ensures r.gender == Some(u.gender) && r.goal == Some(u.goal)
    ensures r.age == Some(u.age) && r.weight == Some(u.weight) && r.height == Some(u.height)
  {
    UserDataInput(Some(u.gender), Some(u.age), Some(u.weight), Some(u.height), Some(u.goal))
  }

  /** `process.env.OPENAI_API_KEY || ''`. */
  function ClientKey(env: Option<string>): (k: string)
    ensures env.Some? ==> k == env.value
    ensures env.None? ==> k == ""
  {
    OrElse(env, "")
  }

  const FailureMessage: string := "Não foi possível analisar as fotos. Tente novamente."

  /** The promise either resolves to the merged object or rejects with an `Error`. */
  datatype Outcome = Returned(analysis: JsonObject) | Thrown(message: string)

  /** The outcome, and the provider call, which is always made. */
  datatype Invocation = Invocation(outcome: Outcome, call: Call)

  function LibraryCall(photos: UserPhotos, userData: ProfileInput, env: Option<string>): Call {
    Call(ClientKey(env), BuildRequest(FromUserPhotos(photos), AsUserDataInput(userData)))
  }

  /** The provider's reply to the library's request, read and merged. */
  function LibraryAttempt(photos: UserPhotos, userData: ProfileInput, env: Option<string>,
                          provider: ChatRequest -> ProviderOutcome,
                          parse: string -> ParseOutcome): Attempt
  {
    CompleteAnalysis(provider(LibraryCall(photos, userData, env).request), parse,
                     RoundedBmi(AsUserDataInput(userData)))
  }

  function AnalyzeBodyPhotos(photos: UserPhotos, userData: ProfileInput, env: Option<string>,
                             provider: ChatRequest -> ProviderOutcome,
                             parse: string -> ParseOutcome): (r: Invocation)
    // no key check: the call is made whatever the environment holds
    ensures r.call.apiKey == (if env.Some? then env.value else "")
    ensures r.call.request == BuildRequest(FromUserPhotos(photos), AsUserDataInput(userData))
    // success: the merged object, with the rounded local BMI
    ensures r.outcome.Returned? <==> LibraryAttempt(photos, userData, env, provider, parse).Succeeded?
    ensures r.outcome.Returned? ==>
              r.outcome.analysis == LibraryAttempt(photos, userData, env, provider, parse).result &&
              r.outcome.analysis["bmi"] == JNum(RoundedBmi(AsUserDataInput(userData)))
    // every failure, provider or parser, is the same error
    ensures r.outcome.Thrown? ==> r.outcome.message == FailureMessage
  {
    var call := LibraryCall(photos, userData, env);
    match CompleteAnalysis(provider(call.request), parse, RoundedBmi(AsUserDataInput(userData)))
    case Succeeded(result) => Invocation(Returned(result), call)
    case Threw(_) => Invocation(Thrown(FailureMessage), call)
  }

  /** No status survives: a 401 and a 429 from the provider end the same way. */
  lemma FailuresIndistinguishable(photos: UserPhotos, userData: ProfileInput, env: Option<string>,
                                  p1: ChatRequest -> ProviderOutcome, p2: ChatRequest -> ProviderOutcome,
                                  parse: string -> ParseOutcome)
    requires p1(LibraryCall(photos, userData, env).request).Rejected?
    requires p2(LibraryCall(photos, userData, env).request).Rejected?
    ensures AnalyzeBodyPhotos(photos, userData, env, p1, parse).outcome ==
            AnalyzeBodyPhotos(photos, userData, env, p2, parse).outcome
  {
  }
}
