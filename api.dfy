/**
 * The AI gateway (`ApiService`): the system-prompt prepend and API-key check of `sendMessage`,
 * JSON extraction from reply text, the four structured generators with their error wrapping,
 * the prompt, component and test generators.
 *
 * The chat-completion request itself is the oracle `Gateway.transport`, which maps the final
 * message list to the reply content or to the error it throws; `JSON.parse` is one oracle per
 * artifact type, None standing for a parse that throws or yields a falsy value.
 */
module Api {
  import opened Wrappers
  import opened Text
  import opened Fences
  import opened ApiTypes

  /** What a failed call throws: an `Error` with its message, or some other value. */
  datatype ApiError = Thrown(message: string) | NotAnError

  /** `error instanceof Error ? error.message : 'Unknown error'` */
  function MessageOf(e: ApiError): string {
    match e
    case Thrown(m) => m
    case NotAnError => "Unknown error"
  }

  datatype Gateway = Gateway(
    apiKey: string,
    transport: seq<Message> -> Result<string, ApiError>,
    parsePitchDeck: string -> Option<PitchDeck>,
    parseVideoScript: string -> Option<VideoScript>,
    parseMvpKit: string -> Option<MvpKit>,
    parseChecklist: string -> Option<ProjectChecklist>)

  const KeyMissing := "API key not configured. Please set VITE_IO_API_KEY in your environment variables."

  const Persona := "You are an AI hackathon co-pilot that helps developers refine ideas, generate tech stacks, create prompts, build MVPs, create pitch decks, video scripts, and project checklists. Provide detailed, comprehensive, and actionable responses with proper formatting and structure."

  predicate StartsWithSystem(ms: seq<Message>) {
    |ms| > 0 && ms[0].role == System
  }

  /** The message list actually sent: the caller's list, behind the default persona unless it already opens with a system message. */
  function WithSystemPrompt(ms: seq<Message>): (r: seq<Message>)
    ensures StartsWithSystem(r)
    ensures |ms| <= |r| <= |ms| + 1 && r[|r| - |ms|..] == ms
    ensures r == ms <==> StartsWithSystem(ms)
    ensures |r| == |ms| + 1 ==> r[0] == Message(System, Persona)
  {
    if StartsWithSystem(ms) then ms else [Message(System, Persona)] + ms
  }

  lemma WithSystemPromptIdempotent(ms: seq<Message>)
    ensures WithSystemPrompt(WithSystemPrompt(ms)) == WithSystemPrompt(ms)
  {
  }

  /** `sendMessage`: the reply content, or what the request threw. */
  function SendMessage(g: Gateway, ms: seq<Message>): (r: Result<string, ApiError>)
    ensures g.apiKey == "" ==> r == Failure(Thrown(KeyMissing))
  {
    if g.apiKey == "" then Failure(Thrown(KeyMissing)) else g.transport(WithSystemPrompt(ms))
  }

  /** Without a key no request is made: the outcome does not depend on the transport at all. */
  lemma NoRequestWithoutKey(g: Gateway, other: seq<Message> -> Result<string, ApiError>, ms: seq<Message>)
    requires g.apiKey == ""
    ensures SendMessage(g, ms) == SendMessage(g.(transport := other), ms)
  {
  }

  /** With a key, the transport sees exactly the caller's list with the system prompt ensured. */
  lemma RequestSent(g: Gateway, ms: seq<Message>)
    requires g.apiKey != ""
    ensures SendMessage(g, ms) == g.transport(WithSystemPrompt(ms))
    ensures StartsWithSystem(ms) ==> SendMessage(g, ms) == g.transport(ms)
  {
  }

  /** `extractAndParseJson`: parse the first fenced block's capture, or the whole reply. */
  function ExtractAndParseJson<T>(text: string, parse: string -> Option<T>): Option<T> {
    parse(JsonCandidate(text))
  }

  /** A reply with a fenced block: what is parsed is the first block's body with its white space trimmed. */
  lemma ExtractFromBlock<T>(text: string, parse: string -> Option<T>, p: nat, f: nat)
    requires FenceAt(text, p) && forall i :: 0 <= i < p ==> !FenceAt(text, i)
    requires BodyStart(text, p) <= f && FenceAt(text, f)
    requires forall i :: BodyStart(text, p) <= i < f ==> !FenceAt(text, i)
    requires Trim(text[BodyStart(text, p)..f]) != ""
    ensures ExtractAndParseJson(text, parse) == parse(Trim(text[BodyStart(text, p)..f]))
  {
    CandidateIsTrimmedBody(text, p, f);
  }

  /** A reply without a fenced block is parsed whole. */
  lemma ExtractWithoutBlock<T>(text: string, parse: string -> Option<T>)
    requires forall p, f :: FenceAt(text, p) && FenceAt(text, f) ==> f < p + 4
    ensures ExtractAndParseJson(text, parse) == parse(text)
  {
    NoBlockWholeReply(text);
  }

  /**
   * The shared shape of the four structured generators: send the request, extract and parse
   * the reply, and re-throw every failure, parse failures included, behind the prefix.
   */
  function Structured<T>(g: Gateway, request: seq<Message>, parse: string -> Option<T>, parseError: string, prefix: string): (r: Result<T, ApiError>)
    ensures r.Success? <==> SendMessage(g, request).Success? && ExtractAndParseJson(SendMessage(g, request).value, parse).Some?
    ensures r.Success? ==> Some(r.value) == parse(JsonCandidate(SendMessage(g, request).value))
    ensures r.Failure? ==> r.error == Thrown(prefix + if SendMessage(g, request).Failure? then MessageOf(SendMessage(g, request).error) else parseError)
  {
    match SendMessage(g, request)
    case Failure(e) => Failure(Thrown(prefix + MessageOf(e)))
    case Success(reply) =>
      match ExtractAndParseJson(reply, parse)
      case Some(v) => Success(v)
      case None => Failure(Thrown(prefix + parseError))
  }

  function Quoted(s: string): string {
    "\"" + s + "\""
  }

  const MvpKitSystem := "You are an expert MVP generator. Your task is to generate a comprehensive MVP kit. Respond with a single, valid JSON object that conforms to the MVPKit interface. Do not include any text, markdown, or explanation outside of the JSON object."
  const PitchDeckSystem := "You are an expert pitch deck creator for hackathons. Generate comprehensive pitch deck content as a single, valid JSON object that conforms to the PitchDeck interface. Do not include any explanatory text outside the JSON object."
  const VideoScriptSystem := "You are an expert video script writer for product demos. Create an engaging script as a single, valid JSON object that conforms to the VideoScript interface. No text outside the JSON."
  const ChecklistSystem := "You are an expert project manager for hackathons. Generate a comprehensive project checklist as a single, valid JSON object conforming to the ProjectChecklist interface. No text outside the JSON."

  const MvpKitPrefix := "Failed to generate MVP kit: "
  const PitchDeckPrefix := "Failed to generate pitch deck: "
  const VideoScriptPrefix := "Failed to generate video script: "
  const ChecklistPrefix := "Failed to generate project checklist: "

  const MvpKitParseError := "Failed to parse MVP Kit from AI response. The response was not valid JSON."
  const PitchDeckParseError := "Failed to parse Pitch Deck from AI response. The response was not valid JSON."
  const VideoScriptParseError := "Failed to parse Video Script from AI response. The response was not valid JSON."
  const ChecklistParseError := "Failed to parse Project Checklist from AI response. The response was not valid JSON."

  const MvpKitUserHead := "Generate a complete MVP kit in the specified JSON format for this idea: "
  const MvpKitUserMiddle := "\n\nRefined description: "

  function MvpKitRequest(idea: string, refined: string): seq<Message> {
    [Message(System, MvpKitSystem),
     Message(User, MvpKitUserHead + Quoted(idea) + MvpKitUserMiddle + Quoted(refined))]
  }

  const PitchDeckUserHead := "Create a detailed pitch deck in the specified JSON format for this hackathon project: "
  const PitchDeckUserMiddle := "\n\nProject details: "

  function PitchDeckRequest(idea: string, refined: string): seq<Message> {
    [Message(System, PitchDeckSystem),
     Message(User, PitchDeckUserHead + Quoted(idea) + PitchDeckUserMiddle + Quoted(refined))]
  }

  const VideoScriptUserHead := "Create a detailed video script in the specified JSON format for this project: "
  const VideoScriptUserMiddle := "\n\nProject details: "

  function VideoScriptRequest(idea: string, refined: string): seq<Message> {
    [Message(System, VideoScriptSystem),
     Message(User, VideoScriptUserHead + Quoted(idea) + VideoScriptUserMiddle + Quoted(refined))]
  }

  const ChecklistUserHead := "Create a detailed project checklist in the specified JSON format for this hackathon project: "
  const ChecklistUserMiddle := "\n\nProject details: "

  function ChecklistRequest(idea: string, refined: string): seq<Message> {
    [Message(System, ChecklistSystem),
     Message(User, ChecklistUserHead + Quoted(idea) + ChecklistUserMiddle + Quoted(refined))]
  }

  /** `generateMVPKit`. */
  function GenerateMvpKit(g: Gateway, idea: string, refined: string): (r: Result<MvpKit, ApiError>)
    ensures r.Failure? ==> r.error.Thrown? && MvpKitPrefix <= r.error.message
    ensures g.apiKey == "" ==> r == Failure(Thrown(MvpKitPrefix + KeyMissing))
  {
    Structured(g, MvpKitRequest(idea, refined), g.parseMvpKit, MvpKitParseError, MvpKitPrefix)
  }

  /** `generatePitchDeck`. */
  function GeneratePitchDeck(g: Gateway, idea: string, refined: string): (r: Result<PitchDeck, ApiError>)
    ensures r.Failure? ==> r.error.Thrown? && PitchDeckPrefix <= r.error.message
    ensures g.apiKey == "" ==> r == Failure(Thrown(PitchDeckPrefix + KeyMissing))
  {
    Structured(g, PitchDeckRequest(idea, refined), g.parsePitchDeck, PitchDeckParseError, PitchDeckPrefix)
  }

  /** `generateVideoScript`. */
  function GenerateVideoScript(g: Gateway, idea: string, refined: string): (r: Result<VideoScript, ApiError>)
    ensures r.Failure? ==> r.error.Thrown? && VideoScriptPrefix <= r.error.message
    ensures g.apiKey == "" ==> r == Failure(Thrown(VideoScriptPrefix + KeyMissing))
  {
    Structured(g, VideoScriptRequest(idea, refined), g.parseVideoScript, VideoScriptParseError, VideoScriptPrefix)
  }

  /** `generateChecklist`, called with the idea and the refined description of the workflow. */
  function GenerateChecklist(g: Gateway, idea: string, refined: string): (r: Result<ProjectChecklist, ApiError>)
    ensures r.Failure? ==> r.error.Thrown? && ChecklistPrefix <= r.error.message
    ensures g.apiKey == "" ==> r == Failure(Thrown(ChecklistPrefix + KeyMissing))
  {
    Structured(g, ChecklistRequest(idea, refined), g.parseChecklist, ChecklistParseError, ChecklistPrefix)
  }

  /** A reply that reaches the parser but does not parse gives the artifact's own parse error behind the prefix. */
  lemma MvpKitParseFailure(g: Gateway, idea: string, refined: string)
    requires SendMessage(g, MvpKitRequest(idea, refined)).Success?
    requires g.parseMvpKit(JsonCandidate(SendMessage(g, MvpKitRequest(idea, refined)).value)).None?
    ensures GenerateMvpKit(g, idea, refined) == Failure(Thrown(MvpKitPrefix + MvpKitParseError))
  {
  }

  const PromptSystem := "You are an expert prompt engineer. Generate detailed, optimized prompts for development tools and AI assistants based on project requirements. Include specific technical details, constraints, and desired outcomes."

  const PromptUserHead := "Generate a detailed and optimized prompt for a "
  const PromptUserMiddle := " project with these requirements: "
  const PromptUserTail := "\n\nCreate a comprehensive prompt that includes technical specifications, design requirements, functionality details, and any specific constraints or preferences."

  function PromptRequest(projectType: string, requirements: string): seq<Message> {
    [Message(System, PromptSystem),
     Message(User, PromptUserHead + projectType + PromptUserMiddle + requirements + PromptUserTail)]
  }

  /** `generatePrompt`: the reply content as is; errors are not wrapped. */
  function GeneratePrompt(g: Gateway, projectType: string, requirements: string): (r: Result<string, ApiError>)
    ensures g.apiKey == "" ==> r == Failure(Thrown(KeyMissing))
    ensures g.apiKey != "" ==> r == g.transport(PromptRequest(projectType, requirements))
  {
    SendMessage(g, PromptRequest(projectType, requirements))
  }

  /** The framework wording used in the component prompts. */
  const FrameworkPrompts: map<string, string> := map[
    "react-tailwind" := "React with TailwindCSS",
    "chakra-ui" := "React with Chakra UI",
    "flutter" := "Flutter Widget",
    "react-native" := "React Native Component"]

  const DefaultFramework := "React with TailwindCSS"

  function FrameworkName(framework: string): (r: string)
    ensures r in FrameworkPrompts.Values
    ensures framework !in FrameworkPrompts ==> r == DefaultFramework
    ensures framework in FrameworkPrompts ==> r == FrameworkPrompts[framework]
  {
    if framework in FrameworkPrompts then FrameworkPrompts[framework] else FrameworkPrompts["react-tailwind"]
  }

  const ComponentSystemHead := "You are an expert frontend developer specializing in "
  const ComponentSystemTail := ". Your task is to generate a single file component. The code should be clean, production-ready, responsive, and accessible. Provide only the raw code, including all necessary imports and exports. Do not wrap it in markdown blocks or add any explanations."
  const ComponentUserTail := ". Ensure it is a complete, self-contained, and functional piece of code."

  function ComponentRequest(description: string, framework: string): seq<Message> {
    var name := FrameworkName(framework);
    [Message(System, ComponentSystemHead + name + ComponentSystemTail),
     Message(User, "Create a " + name + " component for: " + Quoted(description) + ComponentUserTail)]
  }

  const ComponentPrefix := "Failed to generate component: "

  /** `generateComponent`: the reply with its code fences removed and trimmed, or a wrapped error. */
  function GenerateComponent(g: Gateway, description: string, framework: string): (r: Result<string, ApiError>)
    ensures r.Success? <==> SendMessage(g, ComponentRequest(description, framework)).Success?
    ensures r.Success? ==> r.value == CleanCode(SendMessage(g, ComponentRequest(description, framework)).value)
    ensures r.Failure? ==> r.error == Thrown(ComponentPrefix + MessageOf(SendMessage(g, ComponentRequest(description, framework)).error))
  {
    match SendMessage(g, ComponentRequest(description, framework))
    case Success(reply) => Success(CleanCode(reply))
    case Failure(e) => Failure(Thrown(ComponentPrefix + MessageOf(e)))
  }

  /** Generated component code contains no triple backtick and no white space at either end. */
  lemma ComponentCodeIsClean(g: Gateway, description: string, framework: string)
    requires GenerateComponent(g, description, framework).Success?
    ensures NoFence(GenerateComponent(g, description, framework).value)
    ensures var c := GenerateComponent(g, description, framework).value; c == "" || (!IsSpace(c[0]) && !IsSpace(c[|c| - 1]))
  {
    CleanCodeProperties(SendMessage(g, ComponentRequest(description, framework)).value);
  }

  /** The test types `generateTests` knows, with their system prompts. */
  const TestSystemPrompts: map<string, string> := map[
    "unit" := "You are an expert test engineer. Generate Jest unit tests with comprehensive coverage, edge cases, and proper mocking. Return only the raw test code, without explanations or markdown.",
    "integration" := "You are an expert in integration testing. Generate Cypress tests for end-to-end workflows and UI interactions. Return only the raw test code, without explanations or markdown.",
    "api" := "You are an expert in API testing. Generate Supertest API tests for HTTP methods, status codes, and response validation. Return only the raw test code, without explanations or markdown."]

  const TestRequestIntros: map<string, string> := map[
    "unit" := "Generate Jest unit tests for this code:",
    "integration" := "Generate Cypress integration tests for this component/workflow:",
    "api" := "Generate Supertest API tests for this Express.js route/controller code:"]

  /** The test types with a system prompt; the loop skips every other type. */
  const TestTypes: set<string> := {"unit", "integration", "api"}

  predicate IsTestType(t: string) {
    t in TestTypes
  }

  const CodeLimit := 2000

  /**
   * `s.substring(0, n)`, with n counted in UTF-16 code units: the longest prefix of whole
   * characters that fits in n units.
   */
  function Prefix(s: string, n: nat): (r: string)
    ensures r <= s && Utf16Length(r) <= n
    ensures Utf16Length(s) <= n ==> r == s
  {
    if s == [] || Units(s[0]) > n then []
    else
      var rest := Prefix(s[1..], n - Units(s[0]));
      assert ([s[0]] + rest)[1..] == rest;
      [s[0]] + rest
  }

  /** The cut keeps as much as fits: when it stops short, the next character would not fit. */
  lemma {:induction false} PrefixMaximal(s: string, n: nat)
    ensures var r := Prefix(s, n); r != s ==> n < Utf16Length(r) + Units(s[|r|])
  {
    if s != [] && Units(s[0]) <= n {
      var m := n - Units(s[0]);
      var rest := Prefix(s[1..], m);
      var r := [s[0]] + rest;
      assert Prefix(s, n) == r;
      if r != s {
        assert rest != s[1..];
        PrefixMaximal(s[1..], m);
        assert r[1..] == rest;
        assert Utf16Length(r) == Units(s[0]) + Utf16Length(rest);
        assert s[|r|] == s[1..][|rest|];
      }
    }
  }

  function TestRequest(t: string, code: string): seq<Message>
    requires IsTestType(t)
  {
    [Message(System, TestSystemPrompts[t]),
     Message(User, TestRequestIntros[t] + "\n```\n" + Prefix(code, CodeLimit) + "\n```")]
  }

  /** The entry `generateTests` stores for one recognised test type. */
  function TestEntry(g: Gateway, code: string, t: string): string
    requires IsTestType(t)
  {
    match SendMessage(g, TestRequest(t, code))
    case Success(reply) => CleanCode(reply)
    case Failure(e) => "// Error generating " + t + " tests: " + MessageOf(e)
  }

  /** A test entry is either cleaned code from the reply or the error comment for that type. */
  lemma TestEntryShape(g: Gateway, code: string, t: string)
    requires IsTestType(t)
    ensures SendMessage(g, TestRequest(t, code)).Success? ==>
      TestEntry(g, code, t) == CleanCode(SendMessage(g, TestRequest(t, code)).value) && NoFence(TestEntry(g, code, t))
    ensures SendMessage(g, TestRequest(t, code)).Failure? ==>
      TestEntry(g, code, t) == "// Error generating " + t + " tests: " + MessageOf(SendMessage(g, TestRequest(t, code)).error)
  {
    if SendMessage(g, TestRequest(t, code)).Success? {
      CleanCodeProperties(SendMessage(g, TestRequest(t, code)).value);
    }
  }

  /** Only the first 2000 UTF-16 code units of the code reach the request. */
  lemma TestEntryUsesPrefix(g: Gateway, code1: string, code2: string, t: string)
    requires IsTestType(t)
    requires Prefix(code1, CodeLimit) == Prefix(code2, CodeLimit)
    ensures TestEntry(g, code1, t) == TestEntry(g, code2, t)
  {
  }

  /** Test requests already open with a system message, so nothing is prepended to them. */
  lemma TestRequestSentAsIs(t: string, code: string)
    requires IsTestType(t)
    ensures WithSystemPrompt(TestRequest(t, code)) == TestRequest(t, code)
  {
  }

  /**
   * `generateTests`: one entry per recognised type of the list, in a loop that skips the
   * unknown types and records a failing type's error instead of stopping.
   */
  method GenerateTests(g: Gateway, code: string, types: seq<string>) returns (tests: map<string, string>)
    ensures tests.Keys == set t | t in types && IsTestType(t)
    ensures forall t :: t in tests ==> IsTestType(t) && tests[t] == TestEntry(g, code, t)
  {
    tests := map[];
    for i := 0 to |types|
      invariant tests.Keys == set t | t in types[..i] && IsTestType(t)
      invariant forall t :: t in tests ==> IsTestType(t) && tests[t] == TestEntry(g, code, t)
    {
      var t := types[i];
      assert types[..i + 1] == types[..i] + [t];
      assert (set u | u in types[..i + 1] && IsTestType(u))
        == (set u | u in types[..i] && IsTestType(u)) + (if IsTestType(t) then {t} else {});
      if !IsTestType(t) {
        continue;
      }
      var entry := TestEntry(g, code, t);
      tests := tests[t := entry];
    }
    assert types[..|types|] == types;
  }
}
