/**
 * The body-analysis request pipeline shared by the server route and the
 * client library: local BMI, the goal lookup, the interpolated prompt fields,
 * the five-part vision request, the reading of the model's reply and the
 * merge that always writes the local BMI over the model's.
 *
 * The provider call and `JSON.parse` are not modelled: each entry point takes
 * them as function parameters, so every statement below holds for any
 * provider and any parser.
 */
module Pipeline {
  import opened Wrappers
  import opened Numbers
  import opened Types

  // ---------------------------------------------------------------- JSON

  /** A JSON value as handed back by the parser and passed through unchanged. */
  datatype JsonValue =
    | JNull
    | JBool(b: bool)
    | JNum(n: Number)
    | JStr(s: string)
    | JArr(items: seq<JsonValue>)
    | JObj(fields: map<string, JsonValue>)

  type JsonObject = map<string, JsonValue>

  /** What `JSON.parse` of the model's content gives: an object, or a thrown
      `SyntaxError` with its message. */
  datatype ParseOutcome = Parsed(obj: JsonObject) | ParseFailed(message: string)

  /** The `status` and `message` properties of a thrown error, either possibly absent. */
  datatype Failure = Failure(status: Option<int>, message: Option<string>)

  /** JavaScript's `s || fallback` on a possibly absent string: the empty
      string is falsy too. */
  function OrElse(s: Option<string>, fallback: string): (r: string)
    ensures s.Some? && s.value != "" ==> r == s.value
    ensures s.None? || s.value == "" ==> r == fallback
  {
    if s.Some? && s.value != "" then s.value else fallback
  }

  // ---------------------------------------------------------------- inputs

  /** The photos object as received: the code reads the four views without
      checking that any of them is there. */
  datatype PhotosInput = PhotosInput(
    front: Option<string>,
    back: Option<string>,
    sideRight: Option<string>,
    sideLeft: Option<string>)
  {
    function At(p: PhotoPosition): Option<string> {
      match p
      case Front => front
      case Back => back
      case SideRight => sideRight
      case SideLeft => sideLeft
    }
  }

  /** A complete `UserPhotos` record seen as a received photos object. */
  function FromUserPhotos(photos: UserPhotos): (r: PhotosInput)
    ensures forall p :: r.At(p) == Some(photos.At(p))
  {
    PhotosInput(Some(photos.front), Some(photos.back), Some(photos.sideRight), Some(photos.sideLeft))
  }

  /** The user-data fields the pipeline reads, each possibly absent. */
  datatype UserDataInput = UserDataInput(
    gender: Option<string>,
    age: Option<real>,
    weight: Option<real>,
    height: Option<real>,
    goal: Option<string>)

  // ---------------------------------------------------------------- BMI

  /** `weight / ((height / 100) * (height / 100))`; dividing by a zero
      height gives an infinity of the weight's sign, or NaN for a zero weight. */
  function BodyMassIndex(weight: real, height: real): (r: Number)
    ensures r.Finite? <==> height != 0.0
    ensures r.Finite? ==> r.value * ((height / 100.0) * (height / 100.0)) == weight
    ensures r.Finite? && weight > 0.0 ==> r.value > 0.0
    ensures height == 0.0 ==> r == (if weight == 0.0 then NaN else Infinite(weight > 0.0))
  {
    var meters := height / 100.0;
    if height == 0.0 then (if weight == 0.0 then NaN else Infinite(weight > 0.0))
    else
      assert meters * meters > 0.0 by {
        if meters < 0.0 { assert (-meters) * (-meters) > 0.0; }
      }
      Finite(weight / (meters * meters))
  }

  /** The BMI of a received user-data object: a missing weight or height is
      `undefined`, and arithmetic on it is NaN. */
  function LocalBmi(u: UserDataInput): (r: Number)
    ensures r.Finite? <==> u.weight.Some? && u.height.Some? && u.height.value != 0.0
    ensures u.weight.Some? && u.height.Some? ==> r == BodyMassIndex(u.weight.value, u.height.value)
    ensures u.weight.None? || u.height.None? ==> r == NaN
  {
    if u.weight.Some? && u.height.Some? then BodyMassIndex(u.weight.value, u.height.value)
    else NaN
  }

  /** `parseFloat(bmi.toFixed(1))`, the one value used both in the prompt and in the result. */
  function RoundedBmi(u: UserDataInput): (r: Number)
    ensures r.Finite? <==> LocalBmi(u).Finite?
    ensures r.Finite? ==> r.value == Round1(LocalBmi(u).value)
  {
    RoundNumber(LocalBmi(u))
  }

  /** 70 kg at 175 cm: 22.857..., shown and returned as 22.9. */
  lemma BmiExample()
    ensures RoundedBmi(UserDataInput(None, None, Some(70.0), Some(175.0), None)) == Finite(22.9)
  {
  }

  // ---------------------------------------------------------------- goal lookup

  /** The fixed display phrase of each goal code. */
  function GoalPhrase(g: Goal): string {
    match g
    case MuscleGain => "Ganhar massa muscular"
    case FatLoss => "Perder gordura"
    case BodyRecomp => "Recomposição corporal (definir)"
    case Performance => "Melhorar desempenho esportivo"
  }

  /** `getGoalText`: a known goal code becomes its phrase, any other string
      is returned unchanged. */
  function GoalText(goal: string): (r: string)
    ensures goal in GoalCodes ==> r == GoalPhrase(GoalFromCode(goal).value)
    ensures goal !in GoalCodes ==> r == goal
    ensures r != ""  || goal == ""
  {
    match GoalFromCode(goal)
    case Some(g) => GoalPhrase(g)
    case None => goal
  }

  /** Distinct goals are shown with distinct phrases. */
  lemma GoalPhrasesDistinct(g1: Goal, g2: Goal)
    ensures GoalPhrase(g1) == GoalPhrase(g2) ==> g1 == g2
    ensures GoalText(GoalCode(g1)) == GoalPhrase(g1)
  {
  }

  /** Names every plain JavaScript object inherits from `Object.prototype`. */
  const InheritedNames: set<string> := {
    "constructor", "hasOwnProperty", "isPrototypeOf", "propertyIsEnumerable",
    "toLocaleString", "toString", "valueOf", "__proto__",
    "__defineGetter__", "__defineSetter__", "__lookupGetter__", "__lookupSetter__"
  }

  /** What `goals[goal] || goal` yields as written: the table is a plain
      object literal, so a bracket lookup also finds the inherited members,
      which are truthy and so win over the fallback. */
  datatype GoalLookup = Text(text: string) | InheritedMember(name: string)

  function GoalTextAsWritten(goal: string): (r: GoalLookup)
    ensures goal !in InheritedNames ==> r == Text(GoalText(goal))
    ensures goal in InheritedNames ==> r == InheritedMember(goal)
  {
    match GoalFromCode(goal)
    case Some(g) => Text(GoalPhrase(g))
    case None => if goal in InheritedNames then InheritedMember(goal) else Text(goal)
  }

  /** The as-written lookup breaks the passthrough promise for "toString",
      which is not a goal code; `GoalText` keeps it. */
  lemma GoalTextAsWrittenMissesPassthrough()
    ensures "toString" !in GoalCodes
    ensures GoalTextAsWritten("toString") != Text("toString")
    ensures GoalText("toString") == "toString"
  {
  }

  // ---------------------------------------------------------------- prompt

  /** `gender === 'male' ? 'Masculino' : 'Feminino'`. */
  function SexLabel(gender: Option<string>): (r: string)
    ensures r == "Masculino" <==> gender == Some("male")
    ensures r != "Masculino" ==> r == "Feminino"
  {
    if gender == Some("male") then "Masculino" else "Feminino"
  }

  /** Every `Gender` is shown by its own label: the binary test covers both. */
  lemma SexLabelCoversGender(g: Gender)
    ensures SexLabel(Some(GenderCode(g))) == (if g == Male then "Masculino" else "Feminino")
  {
  }

  /** The interpolated fields of the prompt, in order; the rest of its text is
      constant. A missing goal is interpolated as `undefined`. */
  datatype Prompt = Prompt(
    sex: string,
    age: Option<real>,
    weight: Option<real>,
    height: Option<real>,
    bmi: Number,
    goal: Option<string>)

  function BuildPrompt(u: UserDataInput): (p: Prompt)
    ensures p.bmi == RoundedBmi(u)
    ensures p.sex == SexLabel(u.gender)
    ensures p.goal.Some? <==> u.goal.Some?
    ensures u.goal.Some? ==> p.goal.value == GoalText(u.goal.value)
    ensures (p.age, p.weight, p.height) == (u.age, u.weight, u.height)
  {
    Prompt(SexLabel(u.gender), u.age, u.weight, u.height, RoundedBmi(u),
           if u.goal.Some? then Some(GoalText(u.goal.value)) else None)
  }

  // ---------------------------------------------------------------- request

  datatype Part = TextPart(prompt: Prompt) | ImagePart(url: Option<string>)

  /** A chat-completion request: one user message with its parts. */
  datatype ChatRequest = ChatRequest(
    model: string,
    role: string,
    parts: seq<Part>,
    responseFormat: string,
    maxTokens: int)

  /** A provider call: the key the client was built with, and the request. */
  datatype Call = Call(apiKey: string, request: ChatRequest)

  const ModelName: string := "gpt-4o"
  const ResponseFormat: string := "json_object"
  const MaxTokens: int := 1500

  /** The request: the prompt, then the four views in send order. */
  function BuildRequest(photos: PhotosInput, u: UserDataInput): (r: ChatRequest)
    ensures |r.parts| == 1 + |AllPositions|
    ensures r.parts[0] == TextPart(BuildPrompt(u))
    ensures forall i :: 0 <= i < |AllPositions| ==> r.parts[i + 1] == ImagePart(photos.At(AllPositions[i]))
    ensures r.model == "gpt-4o" && r.role == "user"
    ensures r.responseFormat == "json_object" && r.maxTokens == 1500
  {
    ChatRequest(
      ModelName, "user",
      [TextPart(BuildPrompt(u)),
       ImagePart(photos.front), ImagePart(photos.back),
       ImagePart(photos.sideRight), ImagePart(photos.sideLeft)],
      ResponseFormat, MaxTokens)
  }

  /** Reading the views back from a request's parts, by position alone. */
  function ViewsOf(r: ChatRequest): (v: Option<PhotosInput>)
    ensures v.Some? <==> |r.parts| == 5 && r.parts[0].TextPart? && forall i :: 1 <= i < 5 ==> r.parts[i].ImagePart?
    ensures v.Some? ==> forall i :: 0 <= i < |AllPositions| ==> r.parts[i + 1] == ImagePart(v.value.At(AllPositions[i]))
  {
    if |r.parts| == 5 && r.parts[0].TextPart?
       && r.parts[1].ImagePart? && r.parts[2].ImagePart?
       && r.parts[3].ImagePart? && r.parts[4].ImagePart?
    then Some(PhotosInput(r.parts[1].url, r.parts[2].url, r.parts[3].url, r.parts[4].url))
    else None
  }

  /** The order carries the meaning: each view is recovered from its
      position, so no view is dropped or put in another's place. */
  lemma RequestRoundTrip(photos: PhotosInput, u: UserDataInput)
    ensures ViewsOf(BuildRequest(photos, u)) == Some(photos)
    ensures BuildRequest(photos, u).parts[0].prompt == BuildPrompt(u)
  {
  }

  lemma BuildRequestInjective(p1: PhotosInput, p2: PhotosInput, u: UserDataInput)
    ensures BuildRequest(p1, u) == BuildRequest(p2, u) ==> p1 == p2
  {
  }

  // ---------------------------------------------------------------- reply

  /** What the provider call did: a reply with the first choice's content
      (possibly null), or a thrown error. */
  datatype ProviderOutcome = Completed(content: Option<string>) | Rejected(error: Failure)

  /** The text handed to `JSON.parse`: `content || '{}'`. */
  function ContentText(content: Option<string>): (t: string)
    ensures content.Some? && content.value != "" ==> t == content.value
    ensures content.None? || content.value == "" ==> t == "{}"
  {
    OrElse(content, "{}")
  }

  /** `{ ...analysis, bmi }`: every key of the model's object is kept, and
      `bmi` is set to the local value whatever the model put there. */
  function Merge(analysis: JsonObject, bmi: Number): (r: JsonObject)
    ensures r.Keys == analysis.Keys + {"bmi"}
    ensures r["bmi"] == JNum(bmi)
    ensures forall k :: k in analysis && k != "bmi" ==> r[k] == analysis[k]
  {
    analysis["bmi" := JNum(bmi)]
  }

  /** The model's own `bmi`, present or not and whatever its value, never reaches the result. */
  lemma MergeIgnoresModelBmi(analysis: JsonObject, modelBmi: JsonValue, bmi: Number)
    ensures Merge(analysis["bmi" := modelBmi], bmi) == Merge(analysis, bmi)
    ensures Merge(analysis - {"bmi"}, bmi) == Merge(analysis, bmi)
  {
  }

  /** The try block both entry points share once the request is sent. */
  datatype Attempt = Succeeded(result: JsonObject) | Threw(error: Failure)

  function CompleteAnalysis(reply: ProviderOutcome, parse: string -> ParseOutcome, bmi: Number): (a: Attempt)
    ensures reply.Rejected? ==> a == Threw(reply.error)
    ensures a.Succeeded? <==> reply.Completed? && parse(ContentText(reply.content)).Parsed?
    ensures a.Succeeded? ==> a.result == Merge(parse(ContentText(reply.content)).obj, bmi)
    ensures reply.Completed? && parse(ContentText(reply.content)).ParseFailed? ==>
              a == Threw(Failure(None, Some(parse(ContentText(reply.content)).message)))
  {
    match reply
    case Rejected(e) => Threw(e)
    case Completed(content) =>
      match parse(ContentText(content))
      case Parsed(obj) => Succeeded(Merge(obj, bmi))
      case ParseFailed(m) => Threw(Failure(None, Some(m)))
  }

  /** Missing or empty content is read as `'{}'`, so the result is `{bmi}` alone. */
  lemma EmptyContentGivesBmiOnly(content: Option<string>, parse: string -> ParseOutcome, bmi: Number)
    requires content.None? || content.value == ""
    requires parse("{}") == Parsed(map[])
    ensures CompleteAnalysis(Completed(content), parse, bmi) == Succeeded(map["bmi" := JNum(bmi)])
  {
  }

  // ---------------------------------------------------------------- result shape

  /** The keys the prompt asks the model for: every `BodyAnalysis` key but `bmi`. */
  const PromptedKeys: set<string> :=
    {"bodyFatPercentage", "bodyType", "muscleMassEstimate", "recommendations", "detailedAnalysis"}

  lemma PromptedKeysAndBmiAreAnalysisKeys()
    ensures PromptedKeys + {"bmi"} == AnalysisKeys
    ensures "bmi" !in PromptedKeys
  {
  }

  /** The strings of a JSON array whose items are all strings. */
  function StringsOf(items: seq<JsonValue>): (r: Option<seq<string>>)
    ensures r.Some? <==> forall i :: 0 <= i < |items| ==> items[i].JStr?
    ensures r.Some? ==> |r.value| == |items| && forall i :: 0 <= i < |items| ==> items[i] == JStr(r.value[i])
  {
    if items == [] then Some([])
    else if !items[0].JStr? then None
    else
      match StringsOf(items[1..])
      case None => None
      case Some(rest) => Some([items[0].s] + rest)
  }

  function StringValues(ss: seq<string>): (r: seq<JsonValue>)
    ensures |r| == |ss|
    ensures forall i :: 0 <= i < |ss| ==> r[i] == JStr(ss[i])
  {
    if ss == [] then [] else [JStr(ss[0])] + StringValues(ss[1..])
  }

  lemma {:induction false} StringsOfStringValues(ss: seq<string>)
    ensures StringsOf(StringValues(ss)) == Some(ss)
  {
    if ss != [] {
      StringsOfStringValues(ss[1..]);
      assert StringValues(ss)[1..] == StringValues(ss[1..]);
      assert [ss[0]] + ss[1..] == ss;
    }
  }

  function AsReal(v: JsonValue): Option<real> {
    if v.JNum? && v.n.Finite? then Some(v.n.value) else None
  }

  function AsString(v: JsonValue): Option<string> {
    if v.JStr? then Some(v.s) else None
  }

  function AsStrings(v: JsonValue): Option<seq<string>> {
    if v.JArr? then StringsOf(v.items) else None
  }

  /** Reading a result object as the `BodyAnalysis` its consumer expects:
      possible exactly when the six keys hold values of the declared types. */
  function AsBodyAnalysis(obj: JsonObject): (r: Option<BodyAnalysis>)
    ensures r.Some? ==> AnalysisKeys <= obj.Keys
    ensures r.Some? ==> forall k :: k in AnalysisKeys ==> obj[k] == AnalysisObject(r.value)[k]
    ensures AnalysisKeys <= obj.Keys
            && obj["bodyFatPercentage"].JNum? && obj["bodyFatPercentage"].n.Finite?
            && obj["bmi"].JNum? && obj["bmi"].n.Finite?
            && obj["bodyType"].JStr? && obj["muscleMassEstimate"].JStr?
            && obj["recommendations"].JArr?
            && (forall i :: 0 <= i < |obj["recommendations"].items| ==> obj["recommendations"].items[i].JStr?)
            && obj["detailedAnalysis"].JStr?
            ==> r.Some?
  {
    if AnalysisKeys <= obj.Keys
       && AsReal(obj["bodyFatPercentage"]).Some? && AsReal(obj["bmi"]).Some?
       && AsString(obj["bodyType"]).Some? && AsString(obj["muscleMassEstimate"]).Some?
       && AsStrings(obj["recommendations"]).Some? && AsString(obj["detailedAnalysis"]).Some?
    then
      var recs := AsStrings(obj["recommendations"]).value;
      assert obj["recommendations"].items == StringValues(recs);
      Some(BodyAnalysis(
        AsReal(obj["bodyFatPercentage"]).value, AsReal(obj["bmi"]).value,
        AsString(obj["bodyType"]).value, AsString(obj["muscleMassEstimate"]).value,
        recs, AsString(obj["detailedAnalysis"]).value))
    else None
  }

  /** A `BodyAnalysis` written as a JSON object. */
  function AnalysisObject(a: BodyAnalysis): (obj: JsonObject)
    ensures obj.Keys == AnalysisKeys
  {
    map[
      "bodyFatPercentage" := JNum(Finite(a.bodyFatPercentage)),
      "bmi" := JNum(Finite(a.bmi)),
      "bodyType" := JStr(a.bodyType),
      "muscleMassEstimate" := JStr(a.muscleMassEstimate),
      "recommendations" := JArr(StringValues(a.recommendations)),
      "detailedAnalysis" := JStr(a.detailedAnalysis)]
  }

  lemma AnalysisObjectRoundTrip(a: BodyAnalysis)
    ensures AsBodyAnalysis(AnalysisObject(a)) == Some(a)
  {
    StringsOfStringValues(a.recommendations);
  }

  /** When the model answers with the five prompted fields well typed, the
      merged result is a `BodyAnalysis` carrying the local BMI and the model's
      other five values unchanged. */
  lemma MergedReplyIsBodyAnalysis(reply: BodyAnalysis, modelFields: JsonObject, bmi: real)
    requires forall k :: k in PromptedKeys ==> k in modelFields && modelFields[k] == AnalysisObject(reply)[k]
    ensures AsBodyAnalysis(Merge(modelFields, Finite(bmi))) == Some(reply.(bmi := bmi))
  {
    var merged := Merge(modelFields, Finite(bmi));
    assert "bodyFatPercentage" in PromptedKeys && "bodyType" in PromptedKeys;
    assert "muscleMassEstimate" in PromptedKeys && "recommendations" in PromptedKeys;
    assert "detailedAnalysis" in PromptedKeys;
    StringsOfStringValues(reply.recommendations);
    assert merged["recommendations"] == JArr(StringValues(reply.recommendations));
  }
}
