/**
 * app/api/assistant/route.ts: the POST handler behind the chat widget. It picks a
 * language-model provider from the environment, sends it the system context, the
 * conversation history and the user's message, and otherwise answers with a keyword
 * responder over the knowledge base. The provider round trip is an input.
 */
module AssistantRoute {
  import opened Common
  import opened Strings
  import opened KeywordRules

  const FailedToGenerate := "Failed to generate response"

  /** The environment variables the handler reads. */
  datatype Env = Env(groqApiKey: Option<string>, togetherApiKey: Option<string>, useOllama: Option<string>)

  datatype KbProject = KbProject(name: string, description: string, achievements: seq<string>)

  /**
   * The parts of lib/knowledge-base.json the handler reads. `yearsExperience` is the
   * number as it prints in a template.
   */
  datatype KnowledgeBase = KnowledgeBase(
    name: string, role: string, location: string, email: string,
    summary: string, specializations: seq<string>, yearsExperience: string,
    aiMlFrameworks: seq<string>, aiMlExpertise: seq<string>,
    dataEngineeringLanguages: seq<string>, backendFrameworks: seq<string>,
    frontendFrameworks: seq<string>,
    projects: seq<KbProject>,
    availabilityStatus: string, availabilityPreferences: seq<string>,
    calendly: string)

  /** A chat message as sent to a provider; `content: None` is a member left out of the JSON. */
  datatype ChatMessage = ChatMessage(role: string, content: Option<string>)

  /** The parsed request body; a member that was not sent is `None`. */
  datatype RequestBody = RequestBody(message: Option<string>, conversationHistory: Option<seq<ChatMessage>>)

  datatype Provider = Groq | Together | Ollama | RuleBased

  /** The request made to a hosted or local model. */
  datatype ProviderCall = ProviderCall(provider: Provider, model: string, messages: seq<ChatMessage>)

  /** How the provider round trip ended: the reply's message content, or a throw. */
  datatype ProviderOutcome = Content(content: string) | ProviderThrew

  datatype Response = Reply(response: string, model: string) | ServerError(status: int, error: string)

  /** What one POST does: the provider request it makes, if any, and its response. */
  datatype Handled = Handled(call: Option<ProviderCall>, response: Response)

  predicate Truthy(o: Option<string>) {
    o.Some? && o.value != ""
  }

  /**
   * Provider priority: a Groq key, else a Together key, else `USE_OLLAMA === 'true'`,
   * else the rule-based responder.
   */
  function SelectProvider(env: Env): (p: Provider)
    ensures p == Groq <==> Truthy(env.groqApiKey)
    ensures p == Together <==> !Truthy(env.groqApiKey) && Truthy(env.togetherApiKey)
    ensures p == Ollama <==>
      !Truthy(env.groqApiKey) && !Truthy(env.togetherApiKey) && env.useOllama == Some("true")
    ensures p == RuleBased <==>
      !Truthy(env.groqApiKey) && !Truthy(env.togetherApiKey) && env.useOllama != Some("true")
  {
    if Truthy(env.groqApiKey) then Groq
    else if Truthy(env.togetherApiKey) then Together
    else if env.useOllama == Some("true") then Ollama
    else RuleBased
  }

  /** The label returned beside a reply. */
  function ModelLabel(p: Provider): (r: string)
    ensures p != RuleBased ==> "Llama 3 (" <= r
    ensures p == RuleBased ==> "Rule-based" <= r
  {
    match p
    case Groq => "Llama 3 (Groq)"
    case Together => "Llama 3 (Together)"
    case Ollama => "Llama 3 (Local)"
    case RuleBased => "Rule-based (Configure API for better responses)"
  }

  /** The model identifier sent to a provider. */
  function ModelId(p: Provider): (r: string)
    ensures r == "" <==> p == RuleBased
  {
    match p
    case Groq => "llama3-8b-8192"
    case Together => "meta-llama/Llama-3-8b-chat-hf"
    case Ollama => "llama3"
    case RuleBased => ""
  }

  function ProjectLines(ps: seq<KbProject>): (r: seq<string>)
    ensures |r| == |ps|
  {
    seq(|ps|, i requires 0 <= i < |ps| => "- " + ps[i].name + ": " + ps[i].description)
  }

  const ContextOpen := "You are an AI assistant representing "

  /** The system prompt built from the knowledge base. */
  function SystemContext(kb: KnowledgeBase): string {
    ContextOpen + kb.name + ContextBody(kb)
  }

  /** The system prompt opens with the name of the person it represents. */
  lemma SystemContextOpensWithName(kb: KnowledgeBase)
    ensures ContextOpen + kb.name <= SystemContext(kb)
  {
    var o := ContextOpen + kb.name;
    assert (o + ContextBody(kb))[..|o|] == o;
  }

  /** The system prompt after the name: role, background, skills, projects and the rules. */
  function ContextBody(kb: KnowledgeBase): string {
    ", an " + kb.role + ".\n\n" +
    "Background: " + kb.summary + "\n\n" +
    "Key Information:\n" +
    "- Specializations: " + Join(", ", kb.specializations) + "\n" +
    "- Years of Experience: " + kb.yearsExperience + "\n" +
    "- Location: " + kb.location + "\n" +
    "- Email: " + kb.email + "\n\n" +
    "Technical Skills:\n" +
    "- AI/ML: " + Join(", ", kb.aiMlFrameworks) + "\n" +
    "- Data Engineering: " + Join(", ", kb.dataEngineeringLanguages) + "\n" +
    "- Backend: " + Join(", ", kb.backendFrameworks) + "\n" +
    "- Frontend: " + Join(", ", kb.frontendFrameworks) + "\n\n" +
    "Notable Projects:\n" +
    Join("\n", ProjectLines(kb.projects)) + "\n\n" +
    "Current Status: " + kb.availabilityStatus + "\n\n" +
    Instructions
  }

  /** The fixed closing instructions of the system prompt. */
  const Instructions :=
    "When answering questions:\n" +
    "1. Speak in first person as if you are Jacob's AI assistant\n" +
    "2. Be helpful, professional, and friendly\n" +
    "3. Provide specific details from the knowledge base when relevant\n" +
    "4. If asked about something not in your knowledge, politely redirect to relevant information\n" +
    "5. Keep responses concise but informative"

  /**
   * The message list sent to every provider: the system context first, then the history
   * in its order, then the user's message.
   */
  function ChatMessages(context: string, history: seq<ChatMessage>, message: Option<string>): (r: seq<ChatMessage>)
    ensures |r| == |history| + 2
    ensures r[0] == ChatMessage("system", Some(context))
    ensures r[1..|r| - 1] == history
    ensures r[|r| - 1] == ChatMessage("user", message)
  {
    [ChatMessage("system", Some(context))] + history + [ChatMessage("user", message)]
  }

  /** The topics of the rule-based responder, `General` being its default. */
  datatype Topic = Experience | Skills | ProjectTopic | Contact | AiMl | General

  /** `generateRuleBasedResponse`'s if-chain, reduced to the branch it takes. */
  function TopicOf(message: string): (t: Topic)
    ensures var m := Lower(message);
      (Contains(m, "experience") || Contains(m, "background")) ==> t == Experience
    ensures var m := Lower(message);
      (!Contains(m, "experience") && !Contains(m, "background") && !Contains(m, "skill") && !Contains(m, "tech")
       && !Contains(m, "project") && !Contains(m, "contact") && !Contains(m, "hire") && !Contains(m, "available")
       && !Contains(m, "ai") && !Contains(m, "ml") && !Contains(m, "machine learning")) ==> t == General
  {
    var m := Lower(message);
    if Contains(m, "experience") || Contains(m, "background") then Experience
    else if Contains(m, "skill") || Contains(m, "tech") then Skills
    else if Contains(m, "project") then ProjectTopic
    else if Contains(m, "contact") || Contains(m, "hire") || Contains(m, "available") then Contact
    else if Contains(m, "ai") || Contains(m, "ml") || Contains(m, "machine learning") then AiMl
    else General
  }

  const TopicRules: seq<Rule<Topic>> := [
    Rule(["experience", "background"], Experience),
    Rule(["skill", "tech"], Skills),
    Rule(["project"], ProjectTopic),
    Rule(["contact", "hire", "available"], Contact),
    Rule(["ai", "ml", "machine learning"], AiMl)
  ]

  /** The if-chain is the first-match responder over `TopicRules` on the lower-cased message. */
  lemma {:induction false} TopicIsFirstMatch(message: string)
    ensures TopicOf(message) == Respond(TopicRules, Lower(message), General)
  {
    var m := Lower(message);
    FiresTwo(TopicRules[0], m);
    FiresTwo(TopicRules[1], m);
    FiresOne(TopicRules[2], m);
    FiresThree(TopicRules[3], m);
    FiresThree(TopicRules[4], m);
    if Fires(TopicRules[0], m) {
      FirstMatchWins(TopicRules, m, General, 0);
    } else if Fires(TopicRules[1], m) {
      FirstMatchWins(TopicRules, m, General, 1);
    } else if Fires(TopicRules[2], m) {
      FirstMatchWins(TopicRules, m, General, 2);
    } else if Fires(TopicRules[3], m) {
      FirstMatchWins(TopicRules, m, General, 3);
    } else if Fires(TopicRules[4], m) {
      FirstMatchWins(TopicRules, m, General, 4);
    } else {
      NoMatchGivesDefault(TopicRules, m, General);
    }
  }

  /** The topic does not depend on letter case. */
  lemma TopicIgnoresCase(message: string)
    ensures TopicOf(Lower(message)) == TopicOf(message)
  {
    LowerIdempotent(message);
  }

  /** The skills list: the first three AI/ML frameworks, then the first two backend ones. */
  function SkillList(kb: KnowledgeBase): (r: seq<string>)
    ensures |r| <= 5
    ensures Take(kb.aiMlFrameworks, 3) <= r
    ensures r[|Take(kb.aiMlFrameworks, 3)|..] == Take(kb.backendFrameworks, 2)
  {
    Take(kb.aiMlFrameworks, 3) + Take(kb.backendFrameworks, 2)
  }

  function ExperienceReply(kb: KnowledgeBase): string {
    kb.summary + " I have " + kb.yearsExperience + " years of experience specializing in "
    + Join(", ", Take(kb.specializations, 3)) + "."
  }

  function SkillsReply(kb: KnowledgeBase): string {
    "Jacob's core technical skills include " + Join(", ", SkillList(kb)) + ". He specializes in "
    + At(kb.specializations, 0) + " and " + At(kb.specializations, 1) + "."
  }

  function ProjectReply(p: KbProject): string {
    "One of Jacob's notable projects is the " + p.name + ", " + p.description
    + ". Key achievements include: " + Join(", ", Take(p.achievements, 2)) + "."
  }

  function ContactReply(kb: KnowledgeBase): string {
    "Jacob is " + Lower(kb.availabilityStatus) + "! You can reach him at " + kb.email
    + " or schedule a meeting at " + kb.calendly + ". He's interested in "
    + Join(", ", Take(kb.availabilityPreferences, 3)) + "."
  }

  function AiMlReply(kb: KnowledgeBase): string {
    "Jacob has extensive experience in AI/ML, particularly with "
    + Join(", ", Take(kb.aiMlFrameworks, 3)) + ". His expertise includes "
    + Join(", ", Take(kb.aiMlExpertise, 3)) + "."
  }

  function GeneralReply(kb: KnowledgeBase): string {
    "That's a great question! Jacob is an " + kb.role + " with expertise in "
    + At(kb.specializations, 0)
    + GeneralTail
  }

  const GeneralTail := ". Feel free to ask about his specific projects, technical skills, or professional experience. You can also check out the Projects section or contact him directly!"

  /** The reply text for a topic; the project reply fails when the knowledge base has no project. */
  function TopicReply(t: Topic, kb: KnowledgeBase): (r: Option<string>)
    ensures r.None? <==> t == ProjectTopic && kb.projects == []
  {
    match t
    case Experience => Some(ExperienceReply(kb))
    case Skills => Some(SkillsReply(kb))
    case ProjectTopic => if kb.projects == [] then None else Some(ProjectReply(kb.projects[0]))
    case Contact => Some(ContactReply(kb))
    case AiMl => Some(AiMlReply(kb))
    case General => Some(GeneralReply(kb))
  }

  /** `generateRuleBasedResponse`; `None` is the exception reading a missing first project. */
  function RuleBasedResponse(message: string, kb: KnowledgeBase): (r: Option<string>)
    ensures r.None? <==> TopicOf(message) == ProjectTopic && kb.projects == []
  {
    TopicReply(TopicOf(message), kb)
  }

  /**
   * The POST handler. A body that does not parse, a provider that throws, and a missing
   * message or project on the rule-based path all end in 500 "Failed to generate response".
   */
  function Post(body: Option<RequestBody>, env: Env, kb: KnowledgeBase, outcome: ProviderOutcome): (h: Handled)
    ensures h.response.ServerError? ==> h.response == ServerError(500, FailedToGenerate)
    ensures h.response.Reply? ==> h.response.model == ModelLabel(SelectProvider(env))
    ensures body.None? ==> h == Handled(None, ServerError(500, FailedToGenerate))
    ensures body.Some? ==> (h.call.Some? <==> SelectProvider(env) != RuleBased)
    ensures h.call.Some? ==>
      var b := body.value;
      var history := b.conversationHistory.GetOr([]);
      && h.call.value.provider == SelectProvider(env)
      && h.call.value.model == ModelId(SelectProvider(env))
      && h.call.value.messages == ChatMessages(SystemContext(kb), history, b.message)
      && (h.response.Reply? <==> outcome.Content?)
      && (outcome.Content? ==> h.response.response == outcome.content)
    ensures body.Some? && SelectProvider(env) == RuleBased ==>
      var b := body.value;
      h.response.Reply? <==> b.message.Some? && RuleBasedResponse(b.message.value, kb).Some?
    ensures body.Some? && SelectProvider(env) == RuleBased && h.response.Reply? ==>
      && body.value.message.Some?
      && RuleBasedResponse(body.value.message.value, kb).Some?
      && h.response.response == RuleBasedResponse(body.value.message.value, kb).value
      && h.call.None?
  {
    match body
    case None => Handled(None, ServerError(500, FailedToGenerate))
    case Some(b) =>
      var provider := SelectProvider(env);
      if provider != RuleBased then
        var messages := ChatMessages(SystemContext(kb), b.conversationHistory.GetOr([]), b.message);
        var call := Some(ProviderCall(provider, ModelId(provider), messages));
        match outcome
        case Content(c) => Handled(call, Reply(c, ModelLabel(provider)))
        case ProviderThrew => Handled(call, ServerError(500, FailedToGenerate))
      else if b.message.None? then Handled(None, ServerError(500, FailedToGenerate))
      else match RuleBasedResponse(b.message.value, kb)
        case Some(r) => Handled(None, Reply(r, ModelLabel(RuleBased)))
        case None => Handled(None, ServerError(500, FailedToGenerate))
  }

  /** A missing history is sent as an empty one: the provider gets exactly two messages. */
  lemma MissingHistoryIsEmpty(message: Option<string>, env: Env, kb: KnowledgeBase, outcome: ProviderOutcome)
    requires SelectProvider(env) != RuleBased
    ensures var h := Post(Some(RequestBody(message, None)), env, kb, outcome);
            h.call.Some? && h.call.value.messages ==
              [ChatMessage("system", Some(SystemContext(kb))), ChatMessage("user", message)]
  {
  }
}
