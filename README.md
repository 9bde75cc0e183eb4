# EcoQuest backend core in Dafny

EcoQuest is a climate-education app. Its FastAPI backend (`backend/server.py`)
onboards users, computes a daily carbon footprint from four habits, and asks an
AI provider for lessons, scenarios and local actions. This project models the
deterministic logic of that backend, with the database and the AI SDK calls
taken out:

- **Impact calculator** (`impact.dfy`, module `Impact`). This covers
  `calculate_co2_impact` and `generate_suggestions`, and how the
  calculate-impact endpoint combines them. Footprints are exact integers in
  tenths of a kilogram (6.5 kg is 65), because every table constant has one
  decimal place. `generate_suggestions` is a method that appends to a sequence
  under four successive `if`s, as the source does. It is proved equal to a
  selection function, and the lemmas about that function state membership,
  length, emptiness and order.
- **AI provider chain** (`ai_provider.dfy`, module `AiProvider`). This is
  `generate_ai_content` as a total function. The Groq and Gemini calls are
  function-typed parameters that map a key and a request to a reply or to "it
  raised". Other pieces modelled here: the key-configured test, the JSON-mode
  routing on the lower-cased prompt, and the two fixed fallback strings.
- **Endpoint shaping** (`routes.dfy`, module `Routes`). This covers the
  onboarding reply with its fallback learning path, welcome text and welcome
  default. It also covers the onboarding prompt (to prove that it is always
  sent in JSON mode), the local-actions reply with its two canned actions, and
  the learning-content envelope with its topic default. The result of
  `json.loads` is an input of type `Option<Json>`, where `None` means it raised.
- **Supporting modules.** `json.dfy` (module `Json`) holds the JSON value
  type. `text.dfy` (module `Text`) holds the Python string operations the
  code relies on: `lower`, `title`, `strip`, `join`, substring `in` and
  `str(int)`, all on ASCII.

Where the code and its own comments or descriptions disagree, the model follows
the code:

- A missing or placeholder Groq key raises a `ValueError` inside the `try`
  (line 192). The `except` at line 237 catches it and falls back to Gemini,
  although the comment at line 239 says the fallback should not happen when
  the key is missing. `AiProvider.MissingGroqKeyStillFallsBack` states what
  the code does.
- After `json.loads` in onboarding, `.keys()` (line 303) runs inside the same
  `try`. So a reply that parses to a JSON list, string, number, boolean or null
  also takes the fallback path, not only text that fails to parse.
- In local actions, the `len(actions)` at line 462 is outside the inner `try`.
  A reply that parses to null, a boolean or a number therefore ends in HTTP 500.
  A parsed reply is passed through unchanged only when Python can take its
  length.
- The Gemini branch tests the raw `response.text` for emptiness before
  stripping (line 252). A whitespace-only reply therefore becomes the empty
  string, not the apology.

## Model

| member | source | states |
|---|---|---|
| `Impact.CalculateCo2Impact` | backend/server.py:149-167 | daily is the sum of the four table costs, unknown values costed at their defaults; weekly is exactly 7 times daily and yearly exactly 365 times daily; every input's daily footprint lies between 5.8 and 26.0 kg |
| `Impact.UnknownHabitsCostedAsDefaults` | backend/server.py:156-161 | an unrecognised transport, diet, energy or waste value costs exactly what car, meat, medium or average costs |
| `Impact.DailyBoundsAreTight` | backend/server.py:151-154 | the bounds 5.8 kg and 26.0 kg are both reached, so no input gives a zero footprint and neither bound can be improved |
| `Impact.GenerateSuggestions` | backend/server.py:169-181 | appending one tip per triggering habit to an empty list yields exactly the tips whose condition holds, in table order |
| `Impact.SuggestionMembership` | backend/server.py:172-179 | each tip is present exactly when its condition holds: transport "car", diet "meat", energy "high", waste "high" |
| `Impact.SuggestionsShape` | backend/server.py:169-181 | at most four suggestions; none exactly when no condition holds; they come in the fixed order car, meat, energy, waste |
| `Impact.UnknownHabitGetsNoTip` | backend/server.py:156-174 | an unrecognised transport and diet are costed as car and meat but get neither the biking nor the meat tip, unlike car and meat themselves |
| `Impact.KeptPositions` | backend/server.py:169-181 | the positions of the triggered tips are in range, triggered and strictly increasing, which is what makes the list ordered |
| `Impact.SelectAt` | backend/server.py:169-181 | the i-th suggestion is the tip at the i-th triggered position |
| `Impact.CalculateImpact` | backend/server.py:340-389 | the endpoint's reply carries the calculator's daily, weekly and yearly figures, the generated suggestions and the AI message, with weekly = 7 x daily and yearly = 365 x daily |
| `AiProvider.GroqRequestFor` | backend/server.py:197-232 | a prompt goes in JSON-object mode, to the 70b model with the onboarding preamble, exactly when its lower-cased text contains "personalized climate education path"; otherwise it goes to the 8b chat model with the prompt unchanged |
| `AiProvider.GenerateAiContent` | backend/server.py:183-261 | Groq's stripped text when its key is configured and it answers; otherwise Gemini's stripped text, or the apology when Gemini's text is empty; otherwise the unavailability notice; it never fails |
| `AiProvider.KeyConfiguredCases` | backend/server.py:191 | an unset, empty or placeholder key is refused, for Groq and for Gemini alike, and any other value is accepted as the key |
| `AiProvider.GeminiPromptFor` | backend/server.py:247 | Gemini receives the system message, then a blank line and "User Query: ", then the prompt itself, with no JSON preamble in any mode |
| `AiProvider.MissingGroqKeyStillFallsBack` | backend/server.py:190-254 | without a configured Groq key the Groq client has no influence on the answer, and Gemini's stripped reply (or the apology for an empty reply) is returned |
| `AiProvider.MissingGeminiKeyMeansUnavailable` | backend/server.py:241-261 | when Groq does not answer and the Gemini key is unset, empty or the placeholder, the answer is the unavailability notice whatever Gemini would say |
| `AiProvider.WhitespaceGeminiReplyIsEmpty` | backend/server.py:252 | a Gemini reply of only whitespace is not replaced by the apology and yields the empty string |
| `AiProvider.AnswerIsOneOfFour` | backend/server.py:188-261 | every answer is Groq's stripped text, Gemini's stripped text, the apology or the unavailability notice |
| `AiProvider.MarkerSelectsJsonMode` | backend/server.py:198 | any prompt containing the marker phrase in any letter case is routed to JSON mode |
| `Text.Lower` | backend/server.py:198 | lower-casing keeps the length and maps each character to its lower-case form |
| `Text.Strip` | backend/server.py:213 | the result is a contiguous slice of the input with only whitespace cut off before and after it, it has no whitespace at either end, and it is empty exactly when the input is all whitespace |
| `Text.TitleFrom` | backend/server.py:315 | title-casing upper-cases each letter not preceded by a letter and lower-cases the others |
| `Text.TitleOfLowerWord` | backend/server.py:315 | a lower-case word is title-cased by capitalising its first letter only |
| `Text.Join` | backend/server.py:284 | the joined text starts with the first piece, has the separator right after it when there are more, and is as long as the pieces plus one separator fewer than there are pieces |
| `Text.JoinSnoc` | backend/server.py:284 | appending a piece to a non-empty list appends the separator and that piece to the joined text; with the empty and one-piece cases this fixes the result for every list: all pieces in order, one separator between neighbours |
| `Text.JoinOneOrTwo` | backend/server.py:308 | joining one interest gives that interest, and joining two gives the first, ", " and the second |
| `Text.NatToDecimal` | backend/server.py:283 | the age is written as decimal digits with no leading zero that spell exactly its value |
| `Text.IntToDecimal` | backend/server.py:283 | an integer is written with a minus sign exactly when it is negative, followed by the digits that spell its magnitude |
| `Text.ContainsInside` | backend/server.py:198 | a string contains every piece that was concatenated into it |
| `Routes.OnboardingPromptIsJsonMode` | backend/server.py:282-297 | every onboarding prompt, whatever the request holds, is sent to Groq in JSON-object mode |
| `Routes.CompleteOnboarding` | backend/server.py:300-329 | the reply keeps the user id; a parsed JSON object is the path; anything else gives the fallback path and its welcome; the "Welcome to EcoQuest!" default appears only for a parsed object without a welcome_message |
| `Routes.FallbackPathShape` | backend/server.py:311-322 | the fallback path has four keys and exactly five modules, each titled in the fixed order and at progress 0 |
| `Routes.DeepDiveTitle` | backend/server.py:309-315 | the second module is the title-cased first interest plus " Deep Dive", and "Climate Deep Dive" without interests |
| `Routes.WelcomeNamesFirstTwo` | backend/server.py:308-312 | the fallback welcome names the first two interests joined by ", ", the only interest when there is one, and a fixed phrase when there are none |
| `Routes.WelcomeIgnoresLaterInterests` | backend/server.py:308 | interests after the second never change the fallback welcome |
| `Routes.GetLocalActions` | backend/server.py:441-463 | a failed parse gives the canned actions; a parsed string, list or object is passed through unchanged; a parsed null, boolean or number ends in HTTP 500 |
| `Routes.FallbackActionsShape` | backend/server.py:447-460 | the canned reply is exactly two actions, "easy" then "medium", each with title, description, impact and difficulty |
| `Routes.ParsedActionsPassThrough` | backend/server.py:441-463 | the reply succeeds exactly when parsing failed or the parsed value has a length, and then a parsed value reaches the client unchanged |
| `Routes.Topic` | backend/server.py:489 | the topic is "climate change" when the request has no topic key, and otherwise whatever the request carries there |
| `Routes.LearningEnvelope` | backend/server.py:527-533 | the reply has exactly one key: learning_content holding the parsed value when parsing succeeded, error with the fixed text otherwise |

## Left out

- Database access is not modelled: MongoDB inserts, lookups, upserts and the ping. The endpoint errors that only such calls can raise are left out with it.
- The Groq and Gemini SDK calls and the executor they run on are not modelled; only their outcomes appear, as function-typed parameters.
- FastAPI routing, CORS, request validation and HTTP exception mapping are left out, and so are the startup and shutdown hooks and `validate_environment`, which only logs.
- `uuid4` ids, timestamps and logging are left out. The user id is an input of `Routes.CompleteOnboarding`.
- Binary floating point is not modelled. The footprints are exact tenths, which is the value the float arithmetic approximates.
- `Text.Lower`, `Text.TitleFrom` and `Text.Strip` treat only ASCII letters and ASCII whitespace, where Python's `lower`, `title` and `strip` follow Unicode.
- JSON numbers are integers, and object member order and duplicate keys are not represented.
- Routes.CompleteOnboarding: returns a parsed `welcome_message` of any JSON type. It does not model the response model's check that the field is a string.
- Impact.CalculateImpact: takes the AI message as an input. The prompt that asks for it is not modelled.
- The prompts of the what-if, local-actions and learning-content endpoints are not modelled, and neither is the learning prompt's choice between a stored user and a general audience, which depends on the database. The onboarding prompt is modelled because it fixes the provider mode.
- The what-if endpoint, the user lookup and the root endpoint are not modelled. The first only wraps the provider's text under `scenario_response`, and the other two are a database read and a constant.
- A Groq reply without message content raises when `.strip()` is called on it. That case is modelled as the Groq call raising.
