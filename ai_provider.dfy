/** The provider chain behind every AI-generated text (`generate_ai_content`):
    Groq first, Gemini when Groq cannot be used or fails, and a fixed
    message when neither answers. The SDK calls are parameters: `groq` maps
    an API key and a chat-completion request to what the Groq client
    returned or that it raised, and `gemini` does the same for a key and a
    prompt. The function itself never fails: every exception is turned into
    one of its four possible answers. */
module AiProvider {
  import opened Json
  import Text

  const GroqPlaceholder: string := "your_groq_api_key_here"
  const GeminiPlaceholder: string := "your_gemini_api_key_here"

  /** Prompts containing this phrase (ignoring case) ask for a JSON answer.
      It is written as two literals so that `MarkerIsLowerCase` can check
      each half separately; the value is the single phrase. */
  const JsonModeMarker: string := "personalized climate" + " education path"
  const JsonModePreamble: string := "Generate a JSON response for climate onboarding: "

  const SorryMessage: string := "Sorry, I couldn't generate a response."
  const UnavailableMessage: string :=
    "AI service is currently unavailable. Please ensure Groq API key is properly configured."

  /** The two environment variables the chain reads; `None` when unset. */
  datatype Environment = Environment(groqKey: Option<string>, geminiKey: Option<string>)

  /** A key counts as configured when it is set, non-empty and not the
      placeholder shipped in the example configuration. */
  predicate KeyConfigured(key: Option<string>, placeholder: string)
  {
    key.Some? && key.value != "" && key.value != placeholder
  }

  /** Unset, empty and placeholder keys are refused for both providers;
      every other value is used as the key. */
  lemma KeyConfiguredCases(key: string)
    ensures !KeyConfigured(None, GroqPlaceholder) && !KeyConfigured(None, GeminiPlaceholder)
    ensures !KeyConfigured(Some(""), GroqPlaceholder) && !KeyConfigured(Some(""), GeminiPlaceholder)
    ensures !KeyConfigured(Some(GroqPlaceholder), GroqPlaceholder)
    ensures !KeyConfigured(Some(GeminiPlaceholder), GeminiPlaceholder)
    ensures KeyConfigured(Some(key), GroqPlaceholder) <==> key != "" && key != GroqPlaceholder
    ensures KeyConfigured(Some(key), GeminiPlaceholder) <==> key != "" && key != GeminiPlaceholder
  {
  }

  predicate IsJsonMode(prompt: string)
  {
    Text.Contains(Text.Lower(prompt), JsonModeMarker)
  }

  datatype ChatMessage = ChatMessage(role: string, content: string)

  /** A Groq chat-completion request; temperature in tenths. */
  datatype GroqRequest = GroqRequest(
    model: string, messages: seq<ChatMessage>, temperatureTenths: nat, maxTokens: nat, jsonObject: bool)

  /** What a Groq call produced: the message content, or an exception
      (network, API, or a reply without content). */
  datatype GroqOutcome = GroqReplied(content: string) | GroqRaised

  /** What a Gemini call produced: `response.text` (possibly empty), or an
      exception (import, configuration, network or API). */
  datatype GeminiOutcome = GeminiReplied(text: string) | GeminiRaised

  /** The request sent to Groq: the large model in JSON-object mode for
      onboarding paths, the small chat model for everything else. */
  function GroqRequestFor(prompt: string, system: string): (r: GroqRequest)
    ensures r.jsonObject <==> IsJsonMode(prompt)
    ensures |r.messages| == 2
    ensures r.messages[0] == ChatMessage("system", system)
    ensures r.messages[1].role == "user"
    ensures r.messages[1].content == if r.jsonObject then JsonModePreamble + prompt else prompt
    ensures r.model == if r.jsonObject then "llama-3.1-70b-versatile" else "llama-3.1-8b-instant"
  {
    if IsJsonMode(prompt) then
      GroqRequest("llama-3.1-70b-versatile",
        [ChatMessage("system", system), ChatMessage("user", JsonModePreamble + prompt)], 7, 800, true)
    else
      GroqRequest("llama-3.1-8b-instant",
        [ChatMessage("system", system), ChatMessage("user", prompt)], 8, 500, false)
  }

  const GeminiQueryLabel: string := "\n\nUser Query: "

  /** The single prompt Gemini receives: the system message, a blank line
      and the user's prompt behind a label. Unlike the Groq request it is
      the same in JSON mode, with no preamble. */
  function GeminiPromptFor(prompt: string, system: string): (r: string)
    ensures |r| == |system| + |GeminiQueryLabel| + |prompt|
    ensures Text.StartsWith(r, system)
    ensures r[|system|..|system| + |GeminiQueryLabel|] == GeminiQueryLabel
    ensures r[|r| - |prompt|..] == prompt
  {
    system + GeminiQueryLabel + prompt
  }

  /** True when the Groq branch returns: its key is configured and the
      call produced content. */
  predicate GroqAnswers(prompt: string, system: string, env: Environment,
                        groq: (string, GroqRequest) -> GroqOutcome)
  {
    KeyConfigured(env.groqKey, GroqPlaceholder)
    && groq(env.groqKey.value, GroqRequestFor(prompt, system)).GroqReplied?
  }

  /** True when the Gemini branch returns: its key is configured and the
      call did not raise. */
  predicate GeminiAnswers(prompt: string, system: string, env: Environment,
                          gemini: (string, string) -> GeminiOutcome)
  {
    KeyConfigured(env.geminiKey, GeminiPlaceholder)
    && gemini(env.geminiKey.value, GeminiPromptFor(prompt, system)).GeminiReplied?
  }

  function GenerateAiContent(prompt: string, system: string, env: Environment,
                             groq: (string, GroqRequest) -> GroqOutcome,
                             gemini: (string, string) -> GeminiOutcome): (r: string)
    // Groq answers: its content, stripped.
    ensures GroqAnswers(prompt, system, env, groq) ==>
      r == Text.Strip(groq(env.groqKey.value, GroqRequestFor(prompt, system)).content)
    // Otherwise Gemini, whatever the reason Groq was skipped or failed.
    ensures !GroqAnswers(prompt, system, env, groq) && GeminiAnswers(prompt, system, env, gemini) ==>
      var text := gemini(env.geminiKey.value, GeminiPromptFor(prompt, system)).text;
      r == if text != "" then Text.Strip(text) else SorryMessage
    // Neither provider answers: the fixed notice.
    ensures !GroqAnswers(prompt, system, env, groq) && !GeminiAnswers(prompt, system, env, gemini) ==>
      r == UnavailableMessage
  {
    var groqReply :=
      if KeyConfigured(env.groqKey, GroqPlaceholder)
      then groq(env.groqKey.value, GroqRequestFor(prompt, system))
      else GroqRaised;  // the ValueError raised for a missing key lands in the same handler
    match groqReply
    case GroqReplied(content) => Text.Strip(content)
    case GroqRaised =>
      var geminiReply :=
        if KeyConfigured(env.geminiKey, GeminiPlaceholder)
        then gemini(env.geminiKey.value, GeminiPromptFor(prompt, system))
        else GeminiRaised;
      match geminiReply
      case GeminiReplied(text) => if text != "" then Text.Strip(text) else SorryMessage
      case GeminiRaised => UnavailableMessage
  }

  /** A missing or placeholder Groq key does not stop the Gemini fallback:
      the error raised for it is caught by the same handler as a failed
      Groq call, so the Groq client is never consulted and Gemini's reply
      is returned. */
  lemma MissingGroqKeyStillFallsBack(prompt: string, system: string, env: Environment,
                                     groq1: (string, GroqRequest) -> GroqOutcome,
                                     groq2: (string, GroqRequest) -> GroqOutcome,
                                     gemini: (string, string) -> GeminiOutcome)
    requires !KeyConfigured(env.groqKey, GroqPlaceholder)
    ensures GenerateAiContent(prompt, system, env, groq1, gemini)
         == GenerateAiContent(prompt, system, env, groq2, gemini)
    ensures GeminiAnswers(prompt, system, env, gemini) ==>
      var text := gemini(env.geminiKey.value, GeminiPromptFor(prompt, system)).text;
      GenerateAiContent(prompt, system, env, groq1, gemini) == if text != "" then Text.Strip(text) else SorryMessage
  {
  }

  /** When Groq does not answer and the Gemini key is unset, empty or the
      placeholder, Gemini is never called and the answer is the fixed
      notice, whatever the Gemini client would have said. */
  lemma MissingGeminiKeyMeansUnavailable(prompt: string, system: string, env: Environment,
                                         groq: (string, GroqRequest) -> GroqOutcome,
                                         gemini: (string, string) -> GeminiOutcome)
    requires !GroqAnswers(prompt, system, env, groq)
    requires !KeyConfigured(env.geminiKey, GeminiPlaceholder)
    ensures GenerateAiContent(prompt, system, env, groq, gemini) == UnavailableMessage
  {
  }

  /** Gemini's empty reply is replaced by the apology, but a reply of only
      whitespace is not empty and strips to the empty string. */
  lemma WhitespaceGeminiReplyIsEmpty(prompt: string, system: string, env: Environment,
                                     groq: (string, GroqRequest) -> GroqOutcome,
                                     gemini: (string, string) -> GeminiOutcome)
    requires !GroqAnswers(prompt, system, env, groq) && GeminiAnswers(prompt, system, env, gemini)
    requires var text := gemini(env.geminiKey.value, GeminiPromptFor(prompt, system)).text;
      text != "" && forall k :: 0 <= k < |text| ==> Text.IsSpace(text[k])
    ensures GenerateAiContent(prompt, system, env, groq, gemini) == ""
  {
  }

  /** The answer is always one of four things: Groq's stripped text,
      Gemini's stripped text, the apology or the unavailability notice. */
  lemma AnswerIsOneOfFour(prompt: string, system: string, env: Environment,
                          groq: (string, GroqRequest) -> GroqOutcome,
                          gemini: (string, string) -> GeminiOutcome)
    ensures var r := GenerateAiContent(prompt, system, env, groq, gemini);
      || (GroqAnswers(prompt, system, env, groq)
          && r == Text.Strip(groq(env.groqKey.value, GroqRequestFor(prompt, system)).content))
      || (GeminiAnswers(prompt, system, env, gemini)
          && r == Text.Strip(gemini(env.geminiKey.value, GeminiPromptFor(prompt, system)).text))
      || r == SorryMessage
      || r == UnavailableMessage
  {
  }

  /** Any prompt that contains the marker phrase, in any letter case,
      is sent in JSON mode. */
  lemma MarkerSelectsJsonMode(before: string, marker: string, after: string)
    requires Text.Lower(marker) == JsonModeMarker
    ensures IsJsonMode(before + marker + after)
  {
    Text.LowerAppend(before + marker, after);
    Text.LowerAppend(before, marker);
    Text.ContainsInside(Text.Lower(before), JsonModeMarker, Text.Lower(after));
  }

  lemma MarkerIsLowerCase()
    ensures Text.Lower(JsonModeMarker) == JsonModeMarker
  {
    var head, tail := "personalized climate", " education path";
    assert Text.NoUpper(head) && Text.NoUpper(tail);
    Text.NoUpperAppend(head, tail);
    Text.LowerOfNoUpper(JsonModeMarker);
  }
}
