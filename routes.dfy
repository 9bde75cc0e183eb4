/** The deterministic parts of three endpoints: the onboarding reply and its
    fallback learning path (`complete_onboarding`), the local-actions reply
    and its canned actions (`get_local_actions`), and the learning-content
    envelope and topic default (`get_learning_content`). What `json.loads`
    made of the AI text is an input: `None` when it raised. */
module Routes {
  import opened Json
  import Text
  import AiProvider

  datatype HttpError = HttpError(status: nat, detail: string)

  /** A reply body, or the HTTP error the endpoint raises instead. */
  datatype Response = Ok(body: map<string, Json>) | Err(error: HttpError)

  // ---------------------------------------------------------------------
  // Onboarding

  datatype OnboardingRequest = OnboardingRequest(
    age: int, interests: seq<string>, knowledgeLevel: string, learningStyle: string, location: Option<string>)

  datatype OnboardingResponse = OnboardingResponse(
    userId: string, personalizedPath: map<string, Json>, welcomeMessage: Json)

  const PromptHead: string := "\n        Create a "

  /** The prompt sent for a personalised path. It names the JSON-mode
      phrase right after its opening words. */
  function OnboardingPrompt(request: OnboardingRequest): string
  {
    PromptHead + AiProvider.JsonModeMarker + OnboardingPromptRest(request)
  }

  function OnboardingPromptRest(request: OnboardingRequest): string
  {
    " for a " + Text.IntToDecimal(request.age) + "-year-old with " + request.knowledgeLevel + " knowledge level.\n"
    + "        Their interests include: " + Text.Join(request.interests, ", ") + ".\n"
    + "        They prefer " + request.learningStyle + " learning style.\n"
    + "        \n"
    + "        Generate a JSON response with:\n"
    + "        - welcome_message: Encouraging welcome (max 100 words)\n"
    + "        - learning_modules: 5 modules tailored to their interests and level\n"
    + "        - first_quest: An engaging first activity\n"
    + "        - daily_tip: One practical climate tip\n"
    + "        \n"
    + "        Keep it motivational and age-appropriate.\n"
    + "        "
  }

  /** Every onboarding prompt is sent to Groq in JSON-object mode,
      whatever the request holds. */
  lemma OnboardingPromptIsJsonMode(request: OnboardingRequest)
    ensures AiProvider.IsJsonMode(OnboardingPrompt(request))
    ensures AiProvider.GroqRequestFor(OnboardingPrompt(request), OnboardingSystemMessage).jsonObject
  {
    AiProvider.MarkerIsLowerCase();
    AiProvider.MarkerSelectsJsonMode(PromptHead, AiProvider.JsonModeMarker, OnboardingPromptRest(request));
  }

  const OnboardingSystemMessage: string := "You are an expert climate educator creating personalized learning paths."

  const DefaultWelcome: string := "Welcome to EcoQuest!"
  const WelcomeLead: string := "Welcome to EcoQuest! Ready to become a climate hero? Based on your interests in "
  const WelcomeTail: string := ", we've created an exciting journey just for you!"
  const NoInterestsText: string := "climate change and sustainability"
  const NoInterestsTopic: string := "climate"
  const FirstQuest: string := "Calculate your carbon footprint and discover 3 easy ways to reduce it today!"
  const DailyTip: string :=
    "Did you know? Unplugging devices when not in use can save up to 10% on your electricity bill!"

  /** Python's `interests[:2]`. */
  function FirstTwo(interests: seq<string>): seq<string>
  {
    if |interests| <= 2 then interests else interests[..2]
  }

  function InterestsText(interests: seq<string>): string
  {
    if interests == [] then NoInterestsText else Text.Join(FirstTwo(interests), ", ")
  }

  function FallbackWelcome(interests: seq<string>): string
  {
    WelcomeLead + InterestsText(interests) + WelcomeTail
  }

  function FirstInterest(interests: seq<string>): string
  {
    if interests == [] then NoInterestsTopic else interests[0]
  }

  function FallbackModuleTitles(interests: seq<string>): seq<string>
  {
    ["Climate Basics", Text.Title(FirstInterest(interests)) + " Deep Dive",
     "Carbon Footprint", "Green Solutions", "Take Action"]
  }

  const FallbackModuleIcons: seq<string> := ["\U{1F30D}", "\U{1F50D}", "\U{1F463}", "\U{1F331}", "\U{26A1}"]

  function LearningModule(title: string, icon: string): Json
  {
    JObject(map["title" := JString(title), "icon" := JString(icon), "progress" := JNumber(0)])
  }

  /** The path used when the AI reply is not a JSON object. */
  function FallbackPath(interests: seq<string>): map<string, Json>
  {
    var titles := FallbackModuleTitles(interests);
    var icons := FallbackModuleIcons;
    map[
      "welcome_message" := JString(FallbackWelcome(interests)),
      "learning_modules" := JArray([
        LearningModule(titles[0], icons[0]),
        LearningModule(titles[1], icons[1]),
        LearningModule(titles[2], icons[2]),
        LearningModule(titles[3], icons[3]),
        LearningModule(titles[4], icons[4])]),
      "first_quest" := JString(FirstQuest),
      "daily_tip" := JString(DailyTip)
    ]
  }

  /** The onboarding reply for a stored user. A parsed reply is used as
      the path only when it is a JSON object: for any other value the
      `.keys()` call inside the parsing block raises, and the fallback
      path is taken just as for text that is not JSON. */
  function CompleteOnboarding(request: OnboardingRequest, userId: string, parsed: Option<Json>): (r: OnboardingResponse)
    ensures r.userId == userId
    ensures parsed.Some? && parsed.value.JObject? ==> r.personalizedPath == parsed.value.fields
    ensures !(parsed.Some? && parsed.value.JObject?) ==>
      r.personalizedPath == FallbackPath(request.interests)
      && r.welcomeMessage == JString(FallbackWelcome(request.interests))
    ensures "welcome_message" in r.personalizedPath ==> r.welcomeMessage == r.personalizedPath["welcome_message"]
    ensures "welcome_message" !in r.personalizedPath ==>
      parsed.Some? && parsed.value.JObject? && r.welcomeMessage == JString(DefaultWelcome)
  {
    var path := if parsed.Some? && parsed.value.JObject? then parsed.value.fields else FallbackPath(request.interests);
    OnboardingResponse(userId, path, Get(path, "welcome_message", JString(DefaultWelcome)))
  }

  /** The fallback path: four keys, five modules in a fixed order, every
      module at progress 0. */
  lemma FallbackPathShape(interests: seq<string>)
    ensures var path := FallbackPath(interests);
      && path.Keys == {"welcome_message", "learning_modules", "first_quest", "daily_tip"}
      && path["learning_modules"].JArray?
      && var modules := path["learning_modules"].items;
      && |modules| == 5
      && forall i :: 0 <= i < 5 ==>
           && modules[i].JObject?
           && modules[i].fields.Keys == {"title", "icon", "progress"}
           && modules[i].fields["title"] == JString(FallbackModuleTitles(interests)[i])
           && modules[i].fields["progress"] == JNumber(0)
  {
  }

  /** The second module is the first interest, title-cased, followed by
      " Deep Dive"; for a lower-case vocabulary word that means its first
      letter capitalised. With no interests it is "Climate Deep Dive". */
  lemma DeepDiveTitle(interests: seq<string>)
    ensures interests == [] ==> FallbackModuleTitles(interests)[1] == "Climate Deep Dive"
    ensures interests != [] && interests[0] != [] && (forall i :: 0 <= i < |interests[0]| ==> Text.IsLower(interests[0][i])) ==>
      FallbackModuleTitles(interests)[1]
        == [Text.UpperChar(interests[0][0])] + interests[0][1..] + " Deep Dive"
  {
    var w := NoInterestsTopic;
    assert forall i :: 0 <= i < |w| ==> Text.IsLower(w[i]);
    Text.TitleOfLowerWord(w);
    assert [Text.UpperChar(w[0])] + w[1..] + " Deep Dive" == "Climate Deep Dive";
    if interests != [] && interests[0] != [] && (forall i :: 0 <= i < |interests[0]| ==> Text.IsLower(interests[0][i])) {
      Text.TitleOfLowerWord(interests[0]);
    }
  }

  /** The fallback welcome names at most the first two interests, joined
      by ", ". */
  lemma WelcomeNamesFirstTwo(interests: seq<string>)
    ensures interests == [] ==> FallbackWelcome(interests) == WelcomeLead + NoInterestsText + WelcomeTail
    ensures |interests| == 1 ==> FallbackWelcome(interests) == WelcomeLead + interests[0] + WelcomeTail
    ensures |interests| >= 2 ==>
      FallbackWelcome(interests) == WelcomeLead + interests[0] + ", " + interests[1] + WelcomeTail
  {
    if interests != [] {
      var two := FirstTwo(interests);
      Text.JoinOneOrTwo(two, ", ");
      if |interests| >= 2 {
        assert two[0] == interests[0] && two[1] == interests[1];
      }
    }
  }

  /** Interests after the second never change the fallback welcome. */
  lemma WelcomeIgnoresLaterInterests(a: seq<string>, b: seq<string>)
    requires |a| >= 2 && |b| >= 2 && a[..2] == b[..2]
    ensures FallbackWelcome(a) == FallbackWelcome(b)
  {
    WelcomeNamesFirstTwo(a);
    WelcomeNamesFirstTwo(b);
    assert a[0] == a[..2][0] && a[1] == a[..2][1];
    assert b[0] == b[..2][0] && b[1] == b[..2][1];
  }

  // ---------------------------------------------------------------------
  // Local actions

  const LocalActionsFailure: HttpError := HttpError(500, "Local actions retrieval failed")

  function LocalAction(title: string, description: string, impact: string, difficulty: string): Json
  {
    JObject(map["title" := JString(title), "description" := JString(description),
                "impact" := JString(impact), "difficulty" := JString(difficulty)])
  }

  const FallbackActions: seq<Json> := [
    LocalAction("Join a local beach/park cleanup", "Connect with environmental groups in your area",
                "Remove 50+ pieces of litter per hour", "easy"),
    LocalAction("Start a community garden", "Transform unused space into green areas",
                "Absorb 40kg CO2 per year per plot", "medium")
  ]

  /** The shape clients expect: a non-empty list of objects that each carry
      a title, a description, an impact and a difficulty. */
  predicate WellFormedActions(actions: Json)
  {
    && actions.JArray?
    && |actions.items| > 0
    && forall a :: a in actions.items ==>
         a.JObject? && {"title", "description", "impact", "difficulty"} <= a.fields.Keys
  }

  /** The local-actions reply. A parsed reply is passed through whatever
      its shape, but counting it (`len(actions)`, outside the parsing
      block) raises on null, booleans and numbers, and the endpoint then
      answers with HTTP 500. */
  function GetLocalActions(parsed: Option<Json>): (r: Response)
    ensures parsed.None? ==> r == Ok(map["local_actions" := JArray(FallbackActions)])
    ensures parsed.Some? && HasLen(parsed.value) ==> r == Ok(map["local_actions" := parsed.value])
    ensures parsed.Some? && !HasLen(parsed.value) ==> r == Err(LocalActionsFailure)
  {
    var actions := if parsed.Some? then parsed.value else JArray(FallbackActions);
    if HasLen(actions) then Ok(map["local_actions" := actions]) else Err(LocalActionsFailure)
  }

  /** Without a parsable reply the client gets exactly the two canned
      actions, "easy" before "medium", in the shape it checks for. */
  lemma FallbackActionsShape()
    ensures var r := GetLocalActions(None);
      && r.Ok? && r.body.Keys == {"local_actions"}
      && var actions := r.body["local_actions"];
      && WellFormedActions(actions)
      && |actions.items| == 2
      && actions.items[0].fields["difficulty"] == JString("easy")
      && actions.items[1].fields["difficulty"] == JString("medium")
  {
  }

  /** A successful reply reaches the client unchanged exactly when Python
      can take its length; the canned actions are used only when parsing
      failed. */
  lemma ParsedActionsPassThrough(parsed: Option<Json>)
    ensures GetLocalActions(parsed).Ok? <==> parsed.None? || HasLen(parsed.value)
    ensures GetLocalActions(parsed).Ok? && parsed.Some? ==>
      GetLocalActions(parsed).body["local_actions"] == parsed.value
  {
  }

  // ---------------------------------------------------------------------
  // Learning content

  const DefaultTopic: string := "climate change"
  const LearningContentError: string := "Failed to generate structured learning content"

  /** `request.get("topic", "climate change")`: the topic is whatever the
      request carries under "topic", even null, and the default only when
      the key is absent. */
  function Topic(request: map<string, Json>): (r: Json)
    ensures "topic" !in request ==> r == JString(DefaultTopic)
    ensures "topic" in request ==> r == request["topic"]
  {
    Get(request, "topic", JString(DefaultTopic))
  }

  /** The learning-content reply carries exactly one of its two keys: the
      parsed content when parsing succeeded, the error text otherwise. */
  function LearningEnvelope(parsed: Option<Json>): (r: map<string, Json>)
    ensures |r| == 1
    ensures ("learning_content" in r) != ("error" in r)
    ensures "learning_content" in r <==> parsed.Some?
    ensures parsed.Some? ==> r["learning_content"] == parsed.value
    ensures parsed.None? ==> r["error"] == JString(LearningContentError)
  {
    match parsed
    case Some(content) => map["learning_content" := content]
    case None => map["error" := JString(LearningContentError)]
  }
}
