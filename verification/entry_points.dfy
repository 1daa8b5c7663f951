/**
 * The route and the library are two entry points over one pipeline: given
 * the same photos, user data and a configured key, they send the same
 * request and, when it succeeds, return the same object. They differ only
 * in how they report failure.
 */
module EntryPoints {
  import opened Wrappers
  import opened Types
  import opened Pipeline
  import opened AnalyzeBodyRoute
  import opened OpenAiClient

  function RouteBody(photos: UserPhotos, userData: ProfileInput): RequestBody {
    Body(Some(FromUserPhotos(photos)), Some(AsUserDataInput(userData)))
  }

  lemma SamePipeline(photos: UserPhotos, userData: ProfileInput, key: string,
                     provider: ChatRequest -> ProviderOutcome, parse: string -> ParseOutcome)
    requires key != ""
    ensures var h := Post(RouteBody(photos, userData), Some(key), provider, parse);
            var r := AnalyzeBodyPhotos(photos, userData, Some(key), provider, parse);
            && h.call == Some(r.call)
            && (h.response.status == 200 <==> r.outcome.Returned?)
            && (r.outcome.Returned? ==> h.response.body == AnalysisBody(r.outcome.analysis))
  {
  }

  /** Where the route refuses without calling (no key), the library still calls. */
  lemma MissingKeyOnlyStopsTheRoute(photos: UserPhotos, userData: ProfileInput,
                                    provider: ChatRequest -> ProviderOutcome, parse: string -> ParseOutcome)
    ensures Post(RouteBody(photos, userData), None, provider, parse).call.None?
    ensures AnalyzeBodyPhotos(photos, userData, None, provider, parse).call.apiKey == ""
  {
  }
}
