/** The AI assistant client (`OpenRouterService`) as far as its answers do
    not come from the remote model: the keyword fallback used when no API
    key is configured or the request fails, the language-name table, and
    the error fallbacks of scheme generation, eligibility analysis and
    translation. What the remote service answers, and whether its JSON
    parses, are parameters. */
module Assistant {
  import opened Wrappers
  import opened Text

  datatype Message = Message(role: string, content: string)

  /** An eligibility analysis entry (`SchemeRecommendation`). */
  datatype SchemeRecommendation = SchemeRecommendation(
    schemeId: string,
    matchPercentage: int,
    reasoning: string,
    benefits: seq<string>,
    nextSteps: seq<string>)

  /** The JSON documents the fallback can answer with. */
  datatype Payload =
    | LocationPayload(latitude: real, longitude: real, address: string, district: string, state: string, country: string)
    | SchemesPayload(schemeNames: seq<string>)
    | RecommendationsPayload(recommendations: seq<SchemeRecommendation>)
    | TranslatePayload(translatedText: string, sourceLanguage: string, targetLanguage: string)
    | HelpPayload(intent: string, response: string, action: string)

  const PuneLocation := LocationPayload(18.5204, 73.8567, "Pune, Maharashtra, India", "Pune", "Maharashtra", "India")
  const SampleSchemes := SchemesPayload(["PM-KISAN Scheme", "Pradhan Mantri Fasal Bima Yojana"])
  const SampleRecommendation := SchemeRecommendation(
    "pm-kisan-1", 95, "Perfect match for small farmer with land holding under 2 hectares",
    ["Direct income support", "No application fee", "Automatic transfer"],
    ["Visit pmkisan.gov.in", "Complete online application", "Submit required documents"])
  const HelpAnswer := HelpPayload("help", "I'm here to help you with your farming needs. Please try again.", "help")

  /** `messages[messages.length - 1]?.content || ''`. */
  function LastContent(messages: seq<Message>): string
  {
    if |messages| == 0 then "" else messages[|messages| - 1].content
  }

  /** The keyword groups of the fallback, each a case-sensitive
      `includes` test on the message. */
  predicate AsksLocation(m: string) { Contains(m, "location") || Contains(m, "address") }
  predicate AsksSchemes(m: string) { Contains(m, "schemes") || Contains(m, "generate") }
  predicate AsksRecommendations(m: string) { Contains(m, "recommendations") || Contains(m, "eligibility") }
  predicate AsksTranslation(m: string) { Contains(m, "translate") }

  /** `getFallbackResponse`: keyword tests on the last message, in a fixed
      order; the first group that occurs decides the answer. */
  function FallbackFor(messages: seq<Message>): (r: Payload)
    ensures var m := LastContent(messages);
            AsksLocation(m) <==> r == PuneLocation
    ensures var m := LastContent(messages);
            r == SampleSchemes <==> !AsksLocation(m) && AsksSchemes(m)
    ensures var m := LastContent(messages);
            r == RecommendationsPayload([SampleRecommendation]) <==>
              !AsksLocation(m) && !AsksSchemes(m) && AsksRecommendations(m)
    ensures var m := LastContent(messages);
            r == TranslatePayload(m, "en", "hi") <==>
              !AsksLocation(m) && !AsksSchemes(m) && !AsksRecommendations(m) && AsksTranslation(m)
    ensures var m := LastContent(messages);
            r == HelpAnswer <==>
              !AsksLocation(m) && !AsksSchemes(m) && !AsksRecommendations(m) && !AsksTranslation(m)
    ensures r.RecommendationsPayload? ==> r == RecommendationsPayload([SampleRecommendation])
    ensures r.TranslatePayload? ==> r == TranslatePayload(LastContent(messages), "en", "hi")
    ensures r.HelpPayload? ==> r == HelpAnswer
  {
    var m := LastContent(messages);
    if AsksLocation(m) then PuneLocation
    else if AsksSchemes(m) then SampleSchemes
    else if AsksRecommendations(m) then RecommendationsPayload([SampleRecommendation])
    else if AsksTranslation(m) then TranslatePayload(m, "en", "hi")
    else HelpAnswer
  }

  /** Only the last message is inspected; no messages at all gets the help
      payload. */
  lemma FallbackReadsLastOnly(earlier: seq<Message>, last: Message)
    ensures FallbackFor(earlier + [last]) == FallbackFor([last])
    ensures FallbackFor([]) == HelpAnswer
  {
    NotInEmpty("location");
    NotInEmpty("address");
    NotInEmpty("schemes");
    NotInEmpty("generate");
    NotInEmpty("recommendations");
    NotInEmpty("eligibility");
    NotInEmpty("translate");
  }

  /** What the remote call did: answered with some content, or failed
      (network error or a non-OK status). */
  datatype Network = Answered(content: string) | Failed

  datatype Reply = FromFallback(payload: Payload) | FromRemote(content: string)

  /** `makeRequest`: without a key the fallback answers and the network is
      not consulted; a failed request also falls back. */
  function MakeRequest(apiKey: string, messages: seq<Message>, net: Network): (r: Reply)
    ensures apiKey == "" ==> r == FromFallback(FallbackFor(messages))
    ensures net.Failed? ==> r == FromFallback(FallbackFor(messages))
    ensures r.FromRemote? <==> apiKey != "" && net.Answered?
    ensures r.FromRemote? ==> r.content == net.content
  {
    if apiKey == "" then FromFallback(FallbackFor(messages))
    else match net
      case Failed => FromFallback(FallbackFor(messages))
      case Answered(c) => FromRemote(c)
  }

  /** The outcome of `JSON.parse` on a remote answer, reduced to the part
      the caller reads: unparsable (the call throws), or parsed to a value. */
  datatype Parse<T> = Unparsable | Parsed(value: T)

  // ------------------------------------------------------------ prompts

  // The prompt texts are written with the keywords the offline fallback
  // reacts to as separate literals; the value is the same string, and the
  // lemmas below can point at the keyword without scanning the text.

  const GeneratePrompt0 := "Generate 5-8 relevant government " + "schemes" + " for this farmer profile:\n          "
  const GeneratePrompt1 := "\n          \n          Provide response as JSON with this format:\n          {\n            \"schemes\": [\n              {\n                \"name\": \"Scheme Name\",\n                \"description\": \"Detailed description\",\n                \"benefits\": \"Benefits provided\",\n                \"eligibilityCriteria\": [\"criteria1\", \"criteria2\"],\n                \"requiredDocuments\": [\"doc1\", \"doc2\"],\n                \"applicationProcess\": \"How to apply\",\n                \"deadline\": \"2024-12-31\",\n                \"schemeType\": \"central/state\",\n                \"department\": \"Department name\",\n                \"benefitAmount\": 50000,\n                \"targetStates\": [\"state1\", \"state2\"],\n                \"targetCrops\": [\"crop1\", \"crop2\"],\n                \"landSizeMin\": 0.1,\n                \"landSizeMax\": 5.0,\n                \"ageMin\": 18,\n                \"ageMax\": 70,\n                \"applicableCategories\": [\"general\", \"obc\", \"sc\", \"st\"]\n              }\n            ]\n          }"

  const AnalyzePrompt0 := "Analyze eligibility for these " + "schemes" + ":\n          Farmer: "
  const AnalyzePrompt1 := "\n          Schemes: "
  const AnalyzePrompt2 := "\n          \n          Provide JSON response:\n          {\n            \"recommendations\": [\n              {\n                \"schemeId\": \"scheme_id\",\n                \"matchPercentage\": 85,\n                \"reasoning\": \"Why this scheme matches\",\n                \"benefits\": [\"benefit1\", \"benefit2\"],\n                \"nextSteps\": [\"step1\", \"step2\"]\n              }\n            ]\n          }"

  const TranslatePrompt0 := "Translate this text to "
  const TranslatePrompt1 := ":\n          \""
  const TranslatePrompt2 := "\"\n          \n          Provide JSON response:\n          {\n            \"" + "translate" + "dText\": \"translated content\",\n            \"sourceLanguage\": \"detected source language\",\n            \"targetLanguage\": \""
  const TranslatePrompt3 := "\"\n          }"

  const GenerateSystem := "You are an expert on Indian government agricultural schemes. \n          Generate relevant government schemes based on farmer profiles.\n          Focus on real, current schemes available in India."
  const AnalyzeSystem := "You are an agricultural advisor analyzing farmer eligibility for government schemes.\n          Calculate match percentages and provide reasoning for each scheme."
  const TranslateSystem := "You are a professional translator for Indian languages and agricultural content.\n          Translate accurately while preserving technical terms."

  function GenerateUserPrompt(profileJson: string): string
  {
    GeneratePrompt0 + profileJson + GeneratePrompt1
  }

  function AnalyzeUserPrompt(farmerJson: string, schemesJson: string): string
  {
    AnalyzePrompt0 + farmerJson + AnalyzePrompt1 + schemesJson + AnalyzePrompt2
  }

  function TranslateUserPrompt(text: string, targetLanguage: string): string
  {
    TranslatePrompt0 + LanguageName(targetLanguage) + TranslatePrompt1 + text + TranslatePrompt2 + targetLanguage + TranslatePrompt3
  }

  /** The scheme-generation prompt names "schemes". */
  lemma GeneratePromptNamesSchemes(profileJson: string)
    ensures Contains(GenerateUserPrompt(profileJson), "schemes")
  {
    var i := |"Generate 5-8 relevant government "|;
    assert GeneratePrompt0[i..i + 7] == "schemes";
    ContainsWitness(GeneratePrompt0, "schemes", i);
    ContainsPrefix(GeneratePrompt0, profileJson, "schemes");
    ContainsPrefix(GeneratePrompt0 + profileJson, GeneratePrompt1, "schemes");
  }

  /** The eligibility-analysis prompt names "schemes". */
  lemma AnalyzePromptNamesSchemes(farmerJson: string, schemesJson: string)
    ensures Contains(AnalyzeUserPrompt(farmerJson, schemesJson), "schemes")
  {
    var i := |"Analyze eligibility for these "|;
    assert AnalyzePrompt0[i..i + 7] == "schemes";
    ContainsWitness(AnalyzePrompt0, "schemes", i);
    ContainsPrefix(AnalyzePrompt0, farmerJson, "schemes");
    ContainsPrefix(AnalyzePrompt0 + farmerJson, AnalyzePrompt1, "schemes");
    ContainsPrefix(AnalyzePrompt0 + farmerJson + AnalyzePrompt1, schemesJson, "schemes");
    ContainsPrefix(AnalyzePrompt0 + farmerJson + AnalyzePrompt1 + schemesJson, AnalyzePrompt2, "schemes");
  }

  /** The translation prompt's JSON template names "translatedText", so it
      contains "translate" whatever the text. */
  lemma TranslatePromptNamesTranslate(text: string, target: string)
    ensures Contains(TranslateUserPrompt(text, target), "translate")
  {
    var before := TranslatePrompt0 + LanguageName(target) + TranslatePrompt1 + text;
    var after := target + TranslatePrompt3;
    assert Contains(TranslatePrompt2, "translate") by {
      var i := |"\"\n          \n          Provide JSON response:\n          {\n            \""|;
      assert TranslatePrompt2[i..i + 9] == "translate";
      ContainsWitness(TranslatePrompt2, "translate", i);
    }
    ContainsExtend(before, TranslatePrompt2, after, "translate");
    assert before + TranslatePrompt2 + after == TranslateUserPrompt(text, target);
  }

  // ---------------------------------------------------- generateSchemes

  /** A scheme as the generator returns it; only the fields the generator
      itself sets are kept besides the name. */
  datatype GeneratedScheme = GeneratedScheme(id: string, name: string, isActive: bool, createdAt: int, updatedAt: int)

  /** `getFallbackSchemes`. */
  function FallbackSchemes(newId: nat -> string, now: int): (r: seq<GeneratedScheme>)
    ensures |r| == 3
    ensures forall i :: 0 <= i < |r| ==> r[i].isActive && r[i].id == newId(i)
  {
    [GeneratedScheme(newId(0), "PM-KISAN Scheme", true, now, now),
     GeneratedScheme(newId(1), "Pradhan Mantri Fasal Bima Yojana", true, now, now),
     GeneratedScheme(newId(2), "Soil Health Card Scheme", true, now, now)]
  }

  /** `{ ...scheme, id, isActive: true, createdAt, updatedAt }` for each
      listed scheme name. */
  function Activate(names: seq<string>, newId: nat -> string, now: int): (r: seq<GeneratedScheme>)
    ensures |r| == |names|
    ensures forall i :: 0 <= i < |r| ==> r[i] == GeneratedScheme(newId(i), names[i], true, now, now)
  {
    seq(|names|, i requires 0 <= i < |names| => GeneratedScheme(newId(i), names[i], true, now, now))
  }

  /** `(result.schemes || result).map(…)` on a fallback document: only the
      sample-schemes document holds a list; any other makes `.map` throw,
      which yields the fallback schemes. */
  function SchemesFromPayload(p: Payload, newId: nat -> string, now: int): (r: seq<GeneratedScheme>)
    ensures forall i :: 0 <= i < |r| ==> r[i].isActive
    ensures p.SchemesPayload? ==>
      |r| == |p.schemeNames| && forall i :: 0 <= i < |r| ==> r[i].name == p.schemeNames[i] && r[i].id == newId(i)
    ensures !p.SchemesPayload? ==> r == FallbackSchemes(newId, now)
  {
    match p
    case SchemesPayload(names) => Activate(names, newId, now)
    case _ => FallbackSchemes(newId, now)
  }

  /** `generateSchemes`. `remote` is what parsing the remote answer gives:
      `Parsed(Some(names))` for a scheme list (under `schemes` or at the
      top level), `Parsed(None)` for JSON without one, which makes `.map`
      throw. Every path yields only active schemes. */
  function GenerateSchemes(apiKey: string, profileJson: string, net: Network,
                           remote: Parse<Option<seq<string>>>, newId: nat -> string, now: int): (r: seq<GeneratedScheme>)
    ensures forall i :: 0 <= i < |r| ==> r[i].isActive
    ensures apiKey == "" || net.Failed? ==> r == FallbackGeneration(profileJson, newId, now)
    ensures apiKey != "" && net.Answered? && remote.Parsed? && remote.value.Some? ==>
      r == Activate(remote.value.value, newId, now)
    ensures apiKey != "" && net.Answered? && !(remote.Parsed? && remote.value.Some?) ==>
      r == FallbackSchemes(newId, now)
  {
    var prompt := Message("user", GenerateUserPrompt(profileJson));
    match MakeRequest(apiKey, [Message("system", GenerateSystem), prompt], net)
    case FromFallback(p) =>
      FallbackReadsLastOnly([Message("system", GenerateSystem)], prompt);
      SchemesFromPayload(p, newId, now)
    case FromRemote(_) =>
      match remote
      case Parsed(Some(names)) => Activate(names, newId, now)
      case _ => FallbackSchemes(newId, now)
  }

  /** Generation answered by the fallback: the two sample schemes, unless
      the profile JSON mentions "location" or "address", in which case the
      location payload makes `.map` throw and the three fallback schemes
      are returned. */
  function FallbackGeneration(profileJson: string, newId: nat -> string, now: int): (r: seq<GeneratedScheme>)
    ensures var prompt := GenerateUserPrompt(profileJson);
            && (!Contains(prompt, "location") && !Contains(prompt, "address") ==>
                  r == Activate(SampleSchemes.schemeNames, newId, now) && |r| == 2)
            && (Contains(prompt, "location") || Contains(prompt, "address") ==>
                  r == FallbackSchemes(newId, now) && |r| == 3)
  {
    GeneratePromptNamesSchemes(profileJson);
    SchemesFromPayload(FallbackFor([Message("user", GenerateUserPrompt(profileJson))]), newId, now)
  }

  /** Without an API key the result does not depend on the network or on
      what parsing would give. */
  lemma GenerateWithoutKey(profileJson: string, net: Network, remote: Parse<Option<seq<string>>>, newId: nat -> string, now: int)
    ensures GenerateSchemes("", profileJson, net, remote, newId, now) == GenerateSchemes("", profileJson, Failed, Unparsable, newId, now)
    ensures |GenerateSchemes("", profileJson, net, remote, newId, now)| in {2, 3}
  {
  }

  // ------------------------------------------- analyzeSchemeEligibility

  const DefaultReasoning := "Based on your profile, this scheme appears suitable for your farming situation."

  /** The catch branch: one entry per scheme with a random percentage
      `Math.floor(Math.random() * 40) + 60`; `draws` are the random numbers. */
  function RandomRecommendations(schemeIds: seq<string>, draws: seq<real>): (r: seq<SchemeRecommendation>)
    requires |draws| == |schemeIds|
    requires forall i :: 0 <= i < |draws| ==> 0.0 <= draws[i] < 1.0
    ensures |r| == |schemeIds|
    ensures forall i :: 0 <= i < |r| ==> r[i].schemeId == schemeIds[i] && 60 <= r[i].matchPercentage <= 99
  {
    seq(|schemeIds|, i requires 0 <= i < |schemeIds| =>
      SchemeRecommendation(schemeIds[i], (draws[i] * 40.0).Floor + 60, DefaultReasoning,
        ["Financial support", "Government backing", "Easy application process"],
        ["Check eligibility", "Gather documents", "Submit application"]))
  }

  /** `result.recommendations || []` on a fallback document. */
  function RecommendationsIn(p: Payload): seq<SchemeRecommendation>
  {
    match p
    case RecommendationsPayload(list) => list
    case _ => []
  }

  /** `analyzeSchemeEligibility`. `remote` is what parsing the remote
      answer gives: `Parsed(Some(list))` when it has `recommendations`,
      `Parsed(None)` when it does not. */
  function AnalyzeSchemeEligibility(apiKey: string, farmerJson: string, schemesJson: string, schemeIds: seq<string>,
                                    net: Network, remote: Parse<Option<seq<SchemeRecommendation>>>,
                                    draws: seq<real>): (r: seq<SchemeRecommendation>)
    requires |draws| == |schemeIds|
    requires forall i :: 0 <= i < |draws| ==> 0.0 <= draws[i] < 1.0
    ensures apiKey == "" ==> r == []
    ensures net.Failed? ==> r == []
    ensures apiKey != "" && net.Answered? && remote.Unparsable? ==>
      |r| == |schemeIds| && forall i :: 0 <= i < |r| ==> r[i].schemeId == schemeIds[i] && 60 <= r[i].matchPercentage <= 99
    ensures apiKey != "" && net.Answered? && remote == Parsed(None) ==> r == []
    ensures apiKey != "" && net.Answered? && remote.Parsed? && remote.value.Some? ==> r == remote.value.value
  {
    var prompt := AnalyzeUserPrompt(farmerJson, schemesJson);
    var messages := [Message("system", AnalyzeSystem), Message("user", prompt)];
    AnalyzePromptNamesSchemes(farmerJson, schemesJson);
    FallbackReadsLastOnly([Message("system", AnalyzeSystem)], Message("user", prompt));
    match MakeRequest(apiKey, messages, net)
    case FromFallback(p) =>
      RecommendationsIn(p)
    case FromRemote(_) =>
      match remote
      case Unparsable => RandomRecommendations(schemeIds, draws)
      case Parsed(None) => []
      case Parsed(Some(list)) => list
  }

  // ---------------------------------------------------- translateContent

  datatype TranslationResponse = TranslationResponse(translatedText: string, sourceLanguage: string, targetLanguage: string)

  /** What `translateContent` resolves to: a translation-shaped object, or
      another fallback document passed through as it is. */
  datatype TranslateOutcome = Translation(response: TranslationResponse) | OtherDocument(payload: Payload)

  /** A fallback document as `translateContent` returns it. */
  function TranslationIn(p: Payload): TranslateOutcome
  {
    match p
    case TranslatePayload(t, s, l) => Translation(TranslationResponse(t, s, l))
    case _ => OtherDocument(p)
  }

  /** `translateContent`. `remote` is the parsed remote answer. A remote
      answer that does not parse echoes the input text, source language
      "unknown". */
  function TranslateContent(apiKey: string, text: string, targetLanguage: string, net: Network,
                            remote: Parse<TranslationResponse>): (r: TranslateOutcome)
    ensures apiKey != "" && net.Answered? && remote.Unparsable? ==>
      r == Translation(TranslationResponse(text, "unknown", targetLanguage))
    ensures apiKey != "" && net.Answered? && remote.Parsed? ==> r == Translation(remote.value)
    ensures r.OtherDocument? ==> !r.payload.HelpPayload? && !r.payload.TranslatePayload?
    ensures (apiKey == "" || net.Failed?) && r.Translation? ==>
      r.response == TranslationResponse(TranslateUserPrompt(text, targetLanguage), "en", "hi")
    ensures apiKey == "" || net.Failed? ==>
      r == TranslationIn(FallbackFor([Message("user", TranslateUserPrompt(text, targetLanguage))]))
    ensures apiKey == "" || net.Failed? ==>
      var m := TranslateUserPrompt(text, targetLanguage);
      r.Translation? <==> !AsksLocation(m) && !AsksSchemes(m) && !AsksRecommendations(m)
  {
    var prompt := TranslateUserPrompt(text, targetLanguage);
    var messages := [Message("system", TranslateSystem), Message("user", prompt)];
    TranslatePromptNamesTranslate(text, targetLanguage);
    FallbackReadsLastOnly([Message("system", TranslateSystem)], Message("user", prompt));
    match MakeRequest(apiKey, messages, net)
    case FromFallback(p) =>
      TranslationIn(p)
    case FromRemote(_) =>
      match remote
      case Unparsable => Translation(TranslationResponse(text, "unknown", targetLanguage))
      case Parsed(t) => Translation(t)
  }

  // ----------------------------------------------------- language names

  /** The eleven language codes the table knows. */
  const LanguageCodes: seq<string> := ["hi", "te", "ta", "bn", "gu", "mr", "pa", "kn", "ml", "or", "en"]
  const LanguageNames: seq<string> := ["Hindi", "Telugu", "Tamil", "Bengali", "Gujarati", "Marathi", "Punjabi",
                                       "Kannada", "Malayalam", "Odia", "English"]

  /** `getLanguageName`: the table entry, or "English" for any other code. */
  function LanguageName(code: string): (r: string)
    ensures r in LanguageNames
    ensures code !in LanguageCodes ==> r == "English"
    ensures forall i :: 0 <= i < |LanguageCodes| && LanguageCodes[i] == code ==> r == LanguageNames[i]
  {
    match code
    case "hi" => "Hindi"
    case "te" => "Telugu"
    case "ta" => "Tamil"
    case "bn" => "Bengali"
    case "gu" => "Gujarati"
    case "mr" => "Marathi"
    case "pa" => "Punjabi"
    case "kn" => "Kannada"
    case "ml" => "Malayalam"
    case "or" => "Odia"
    case _ => "English"
  }
}
