/** geminiClient.js, `getActionableInsights`: the configuration guards, the input
    text sent to the model, and the classification of what comes back. The HTTP
    post itself is an input: the reply the provider gave. */
module Insights {
  import opened Wrappers
  import opened Text

  /** The configuration keys the client reads. The four prefixes are compared with
      `startsWith`, which turns an undefined key into the text "undefined". */
  datatype GeminiConfig = GeminiConfig(
    apiKey: Option<string>,
    modelId: Option<string>,
    placeholderMessagePrefix: string,
    errorFetchingPrefix: string,
    socialPlaceholderPrefix: string,
    socialErrorMessagePrefix: string)

  /** `candidate.content.parts[i]`; `text` may be missing. */
  datatype Part = Part(text: Option<string>)
  /** `candidates[i]`: `parts` is `None` when `content` or `content.parts` is missing. */
  datatype Candidate = Candidate(parts: Option<seq<Part>>, finishReason: Option<string>)
  /** `response.data`: `candidates` may be missing. */
  datatype ResponseBody = ResponseBody(candidates: Option<seq<Candidate>>)

  /** The outcome of the HTTP post: a response (whose `data` may be missing), or a
      transport error with its HTTP status, the provider's error message and the
      error's own message. */
  datatype HttpReply =
    | Response(data: Option<ResponseBody>)
    | TransportError(status: Option<nat>, apiMessage: Option<string>, message: string)

  /** What the client answers, before it is rendered as text. */
  datatype Answer =
    | Insights(text: string)
    | ApiKeyMissing
    | ModelIdMissing
    | SafetyBlocked
    | UnexpectedFormat
    | ConnectFailed(status: Option<nat>, message: string)

  /** `${value}` of an optional number: its digits, or "undefined". */
  function Render(status: Option<nat>): string {
    if status.Some? then NatToString(status.value) else "undefined"
  }

  const ErrorMark: string := "Error: "

  /** The text returned for each answer: the model's text verbatim, or "Error: "
      followed by the sentence naming the category. */
  function Message(category: string, a: Answer): string {
    if a.Insights? then a.text else ErrorMark + ErrorDetail(category, a)
  }

  function ErrorDetail(category: string, a: Answer): string
    requires !a.Insights?
  {
    match a
    case ApiKeyMissing => "Gemini API key not configured. Cannot generate insights for " + category + "."
    case ModelIdMissing => "Gemini Model ID not configured internally. Cannot generate insights for " + category + "."
    case SafetyBlocked =>
      "Gemini content generation for " + category
      + " was blocked due to safety settings. The input or generated content may have triggered a safety filter."
    case UnexpectedFormat =>
      "Could not generate actionable insights for " + category + " due to an unexpected API response format."
    case ConnectFailed(status, message) =>
      "Failed to connect with the AI insights generation service for " + category
      + ". (Status: " + Render(status) + ", Message: " + message + ")"
  }

  /** Every answer other than generated insights is reported as text opening with
      "Error: ", which is how callers tell failures from content. */
  lemma ErrorsAreMarked(category: string, a: Answer)
    requires !a.Insights?
    ensures StartsWith(Message(category, a), ErrorMark)
  {
    ConcatStartsWith(ErrorMark, ErrorDetail(category, a));
  }

  /** The message a transport error reports: the provider's, else the error's own. */
  function ErrorMessage(reply: HttpReply): string
    requires reply.TransportError?
  {
    if Truthy(reply.apiMessage) then reply.apiMessage.value else reply.message
  }

  /** The intel text is worth sending: non-empty, neither placeholder nor error text. */
  predicate SubstantiveIntel(intel: Option<string>, cfg: GeminiConfig) {
    Truthy(intel) && !StartsWith(intel.value, cfg.placeholderMessagePrefix)
    && !StartsWith(intel.value, cfg.errorFetchingPrefix)
  }

  /** The social text is worth sending: non-empty, none of the three marker prefixes. */
  predicate SubstantiveSocial(social: Option<string>, cfg: GeminiConfig) {
    Truthy(social) && !StartsWith(social.value, cfg.socialPlaceholderPrefix)
    && !StartsWith(social.value, cfg.errorFetchingPrefix)
    && !StartsWith(social.value, cfg.socialErrorMessagePrefix)
  }

  const IntelUnavailable: string := "Intel News: Not available or contains placeholder/error.\n\n"
  const SocialUnavailable: string := "Twitter Content: Not available or contains placeholder/error.\n\n"

  function CategoryLine(category: string): string {
    "Category: " + category + "\n\n"
  }

  /** The intel part of the input: the text verbatim under its heading, or the
      "not available" line. */
  function IntelBlock(intel: Option<string>, cfg: GeminiConfig): string {
    if SubstantiveIntel(intel, cfg) then "Intel News:\n" + intel.value + "\n\n" else IntelUnavailable
  }

  function SocialBlock(social: Option<string>, cfg: GeminiConfig): string {
    if SubstantiveSocial(social, cfg) then "Twitter Content:\n" + social.value + "\n\n" else SocialUnavailable
  }

  /** Assembles `combinedInput` with `+=`, setting the two `hasSubstantive*` flags. */
  method BuildInput(intel: Option<string>, social: Option<string>, category: string, cfg: GeminiConfig)
    returns (combinedInput: string, hasSubstantiveIntel: bool, hasSubstantiveSocial: bool)
    ensures hasSubstantiveIntel <==> SubstantiveIntel(intel, cfg)
    ensures hasSubstantiveSocial <==> SubstantiveSocial(social, cfg)
    ensures combinedInput == CategoryLine(category) + IntelBlock(intel, cfg) + SocialBlock(social, cfg)
    ensures StartsWith(combinedInput, CategoryLine(category) + IntelBlock(intel, cfg))
  {
    combinedInput := "Category: " + category + "\n\n";
    hasSubstantiveIntel := false;
    hasSubstantiveSocial := false;
    ghost var line := combinedInput;
    if Truthy(intel) && !StartsWith(intel.value, cfg.placeholderMessagePrefix)
      && !StartsWith(intel.value, cfg.errorFetchingPrefix)
    {
      combinedInput := combinedInput + ("Intel News:\n" + intel.value + "\n\n");
      hasSubstantiveIntel := true;
    } else {
      combinedInput := combinedInput + IntelUnavailable;
    }
    assert combinedInput == line + IntelBlock(intel, cfg);
    ghost var head := combinedInput;
    if Truthy(social) && !StartsWith(social.value, cfg.socialPlaceholderPrefix)
      && !StartsWith(social.value, cfg.errorFetchingPrefix) && !StartsWith(social.value, cfg.socialErrorMessagePrefix)
    {
      combinedInput := combinedInput + ("Twitter Content:\n" + social.value + "\n\n");
      hasSubstantiveSocial := true;
    } else {
      combinedInput := combinedInput + SocialUnavailable;
    }
    assert combinedInput == head + SocialBlock(social, cfg);
    ConcatStartsWith(head, SocialBlock(social, cfg));
  }

  /** `parts.map(part => part.text).join("")`: `join` renders a missing text as "". */
  function JoinTexts(parts: seq<Part>): string {
    if parts == [] then "" else PartText(parts[0]) + JoinTexts(parts[1..])
  }

  function PartText(p: Part): string {
    if p.text.Some? then p.text.value else ""
  }

  /** The first candidate has at least one part: the only reply that yields text. */
  predicate HasContent(reply: HttpReply) {
    && reply.Response? && reply.data.Some?
    && reply.data.value.candidates.Some? && |reply.data.value.candidates.value| > 0
    && reply.data.value.candidates.value[0].parts.Some? && |reply.data.value.candidates.value[0].parts.value| > 0
  }

  function FirstCandidate(reply: HttpReply): Candidate
    requires HasContent(reply)
  {
    reply.data.value.candidates.value[0]
  }

  /** The source's finish-reason test: a reason is set, it is neither "STOP" nor
      "MAX_TOKENS", and it is "SAFETY"; only "SAFETY" passes. */
  predicate SafetyFinish(reason: Option<string>)
    ensures SafetyFinish(reason) <==> reason == Some("SAFETY")
  {
    assert "SAFETY" != "STOP" by { assert "SAFETY"[1] != "STOP"[1]; }
    assert "SAFETY" != "MAX_TOKENS" by { assert |"SAFETY"| != |"MAX_TOKENS"|; }
    Truthy(reason) && reason.value != "STOP" && reason.value != "MAX_TOKENS" && reason.value == "SAFETY"
  }

  /** What a reply becomes: the first candidate's joined text, unless it finished for
      safety reasons; the format error when there is no such text; the connection
      error for a transport failure. Finish reasons other than "SAFETY" keep the text. */
  function Classify(reply: HttpReply): (r: Answer)
    ensures HasContent(reply) && FirstCandidate(reply).finishReason == Some("SAFETY") ==> r == SafetyBlocked
    ensures HasContent(reply) && FirstCandidate(reply).finishReason != Some("SAFETY") ==>
      r == Insights(JoinTexts(FirstCandidate(reply).parts.value))
    ensures reply.Response? && !HasContent(reply) ==> r == UnexpectedFormat
    ensures reply.TransportError? ==> r == ConnectFailed(reply.status, ErrorMessage(reply))
  {
    if reply.TransportError? then ConnectFailed(reply.status, ErrorMessage(reply))
    else if !HasContent(reply) then UnexpectedFormat
    else
      var candidate := FirstCandidate(reply);
      var textResponse := JoinTexts(candidate.parts.value);
      if SafetyFinish(candidate.finishReason) then SafetyBlocked else Insights(textResponse)
  }

  /** `getActionableInsights(intelContent, socialContent, categoryName)`: the guards
      answer without a request; otherwise the input is assembled, `reply` is the
      provider's answer to it, and the answer is classified. It never throws. */
  method GetActionableInsights(cfg: GeminiConfig, intel: Option<string>, social: Option<string>, category: string,
                               reply: HttpReply)
    returns (result: string, request: Option<string>)
    ensures !Truthy(cfg.apiKey) ==> result == Message(category, ApiKeyMissing) && request.None?
    ensures Truthy(cfg.apiKey) && !Truthy(cfg.modelId) ==> result == Message(category, ModelIdMissing) && request.None?
    ensures Truthy(cfg.apiKey) && Truthy(cfg.modelId) ==>
      && request == Some(CategoryLine(category) + IntelBlock(intel, cfg) + SocialBlock(social, cfg))
      && result == Message(category, Classify(reply))
  {
    if !Truthy(cfg.apiKey) {
      return Message(category, ApiKeyMissing), None;
    }
    if !Truthy(cfg.modelId) {
      return Message(category, ModelIdMissing), None;
    }
    var combinedInput, hasSubstantiveIntel, hasSubstantiveSocial := BuildInput(intel, social, category, cfg);
    request := Some(combinedInput);
    result := Message(category, Classify(reply));
  }
}
