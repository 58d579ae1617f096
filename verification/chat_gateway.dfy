/** The completion endpoint: it resolves the persona's system prompt,
    forwards the conversation to the text-generation provider and turns the
    provider's answer (or failure) into the JSON reply the chat page reads.
    The provider is a parameter: any function from request to outcome. */
module ChatGateway {
  import opened Optional
  import opened Config
  import opened Conversations
  import ChatSession
  import Strings

  datatype Persona = Therapist | Business | Wellness | Creative | Finance | Career

  /** The registry's keys, in declaration order. */
  const RegistryIds: seq<string> := ["therapist", "business", "wellness", "creative", "finance", "career"]

  function PersonaId(p: Persona): string {
    match p
    case Therapist => "therapist"
    case Business => "business"
    case Wellness => "wellness"
    case Creative => "creative"
    case Finance => "finance"
    case Career => "career"
  }

  /** `expertPrompts[id]` as a persona, when the registry has the id. */
  function Lookup(id: string): (p: Option<Persona>)
    ensures p.Some? <==> id in RegistryIds
    ensures p.Some? ==> PersonaId(p.value) == id
  {
    if id == "therapist" then Some(Therapist)
    else if id == "business" then Some(Business)
    else if id == "wellness" then Some(Wellness)
    else if id == "creative" then Some(Creative)
    else if id == "finance" then Some(Finance)
    else if id == "career" then Some(Career)
    else None
  }

  /** Every persona is registered under its own id, and the registry holds
      exactly six distinct ids. */
  lemma RegistryRoundTrip(p: Persona)
    ensures Lookup(PersonaId(p)) == Some(p)
    ensures PersonaId(p) in RegistryIds
    ensures |RegistryIds| == 6
    ensures forall i, j :: 0 <= i < j < |RegistryIds| ==> RegistryIds[i] != RegistryIds[j]
  {
  }

  /** Every persona the chat page offers is registered. */
  lemma PagePersonasRegistered()
    ensures forall id :: id in ChatSession.PagePersonas ==> Lookup(id).Some?
  {
  }

  /** The names every plain JavaScript object inherits from
      `Object.prototype`.  Indexing the registry with one of them yields the
      inherited member, a truthy value, instead of `undefined`. */
  const InheritedKeys: seq<string> := [
    "constructor", "__defineGetter__", "__defineSetter__", "hasOwnProperty",
    "__lookupGetter__", "__lookupSetter__", "isPrototypeOf", "propertyIsEnumerable",
    "toString", "valueOf", "__proto__", "toLocaleString"]

  /** What is sent as the system prompt: a persona's prompt (the texts
      themselves are not reproduced; a prompt is identified by its persona),
      or the inherited member the registry yields for an inherited name. */
  datatype Prompt = PersonaPrompt(persona: Persona) | InheritedMember(name: string)

  /** `expertPrompts[expert.id] || expertPrompts.therapist`: a registered id
      gets its persona's prompt, an inherited name passes the inherited
      member on, and only the remaining ids fall back to the therapist. */
  function SystemPrompt(expertId: string): (pr: Prompt)
    ensures expertId in RegistryIds ==> pr.PersonaPrompt? && PersonaId(pr.persona) == expertId
    ensures expertId in InheritedKeys ==> pr == InheritedMember(expertId)
    ensures expertId !in RegistryIds && expertId !in InheritedKeys ==> pr == PersonaPrompt(Therapist)
  {
    match Lookup(expertId)
    case Some(p) => PersonaPrompt(p)
    case None => if expertId in InheritedKeys then InheritedMember(expertId) else PersonaPrompt(Therapist)
  }

  /** The therapist's prompt goes out exactly for the therapist itself and
      for the ids that are neither registered nor inherited. */
  lemma TherapistFallbackIff(expertId: string)
    ensures SystemPrompt(expertId) == PersonaPrompt(Therapist) <==>
              expertId == "therapist" || (expertId !in RegistryIds && expertId !in InheritedKeys)
  {
    if expertId in InheritedKeys {
      assert expertId !in RegistryIds;
    }
  }

  const ModelName := "claude-sonnet-4-20250514"
  const MaxTokens: nat := 1024
  const ConfigError := "API key not configured. Please set ANTHROPIC_API_KEY in your .env.local file."
  const NonTextApology := "I apologize, but I had trouble generating a response."
  const GenericFailure := "Failed to process request"
  const MissingExpertError := "Cannot read properties of undefined (reading 'id')"
  const MissingContentError := "Cannot read properties of undefined (reading 'type')"
  const MissingMessagesError := "Cannot read properties of undefined (reading 'map')"

  datatype ProviderRequest = ProviderRequest(model: string, maxTokens: nat, system: Prompt, messages: seq<Message>)

  datatype Block = TextBlock(text: string) | OtherBlock

  /** The provider either answers with content blocks or throws. */
  datatype ProviderOutcome = Content(blocks: seq<Block>) | Threw(message: string)

  /** The body's `expert` field: absent, or an object whose `id` may itself
      be absent. */
  datatype Expert = NoExpert | ExpertObject(id: Option<string>)

  /** The request body: the conversation (`None` when the body has no
      `messages`) and the `expert` field; or a body that does not parse. */
  datatype Body = Parsed(messages: Option<seq<Message>>, expert: Expert) | Unparsable(message: string)

  /** The body the chat page posts: the list and the selected persona. */
  function PageBody(msgs: seq<Message>, expertId: string): Body {
    Parsed(Some(msgs), ExpertObject(Some(expertId)))
  }

  /** `expert.id` used as a property key: an absent id is converted to the
      key "undefined". */
  function PromptKey(id: Option<string>): string {
    id.GetOr("undefined")
  }

  datatype Reply = MessageReply(message: string) | ErrorReply(error: string)

  datatype Response = Response(status: nat, reply: Reply)

  /** `messages.map(m => ({ role: m.role, content: m.content }))` */
  function Forward(msgs: seq<Message>): (out: seq<Message>)
    ensures |out| == |msgs|
    ensures forall i :: 0 <= i < |msgs| ==> out[i].role == msgs[i].role && out[i].content == msgs[i].content
  {
    if |msgs| == 0 then [] else [Message(msgs[0].role, msgs[0].content)] + Forward(msgs[1..])
  }

  /** The provider call for a persona and a conversation. */
  function ProviderCall(expertId: string, msgs: seq<Message>): (q: ProviderRequest)
    ensures q.model == ModelName && q.maxTokens == MaxTokens
    ensures q.system == SystemPrompt(expertId)
    ensures q.messages == msgs
  {
    var fwd := Forward(msgs);
    assert fwd == msgs;
    ProviderRequest(ModelName, MaxTokens, SystemPrompt(expertId), fwd)
  }

  /** A caught error's reply: its message, or a generic text when empty. */
  function Failure(message: string): (r: Response)
    ensures r.status == 500 && r.reply.ErrorReply? && r.reply.error != ""
  {
    Response(500, ErrorReply(if message == "" then GenericFailure else message))
  }

  /** `POST /api/chat`.  A missing key is reported before the provider is
      asked anything; then a missing `expert` and a missing `messages` throw,
      in that order, before the provider is called; every thrown error
      becomes a 500 carrying its message; a non-text first block becomes
      the fixed apology. */
  function HandleChat(env: Env, body: Body, provider: ProviderRequest -> ProviderOutcome): (r: Response)
    ensures body.Unparsable? ==> r == Failure(body.message)
    ensures body.Parsed? && Truthy(env, AnthropicApiKey).None? ==> r == Response(500, ErrorReply(ConfigError))
    ensures body.Parsed? && Truthy(env, AnthropicApiKey).Some? && body.expert.NoExpert? ==>
              r == Failure(MissingExpertError)
    ensures body.Parsed? && Truthy(env, AnthropicApiKey).Some? && body.expert.ExpertObject? && body.messages.None? ==>
              r == Failure(MissingMessagesError)
    ensures body.Parsed? && Truthy(env, AnthropicApiKey).Some? && body.expert.ExpertObject? && body.messages.Some? ==>
              var outcome := provider(ProviderCall(PromptKey(body.expert.id), body.messages.value));
              && (outcome.Threw? ==> r == Failure(outcome.message))
              && (outcome.Content? && |outcome.blocks| == 0 ==> r == Failure(MissingContentError))
              && (outcome.Content? && |outcome.blocks| > 0 && outcome.blocks[0].TextBlock? ==>
                    r == Response(200, MessageReply(outcome.blocks[0].text)))
              && (outcome.Content? && |outcome.blocks| > 0 && outcome.blocks[0].OtherBlock? ==>
                    r == Response(200, MessageReply(NonTextApology)))
    ensures r.status == 200 || r.status == 500
  {
    match body
    case Unparsable(message) => Failure(message)
    case Parsed(messages, expert) =>
      if Truthy(env, AnthropicApiKey).None? then Response(500, ErrorReply(ConfigError))
      else
        match expert
        case NoExpert => Failure(MissingExpertError)
        case ExpertObject(id) =>
          match messages
          case None => Failure(MissingMessagesError)
          case Some(msgs) =>
            match provider(ProviderCall(PromptKey(id), msgs))
            case Threw(message) => Failure(message)
            case Content(blocks) =>
              if |blocks| == 0 then Failure(MissingContentError)
              else
                match blocks[0]
                case TextBlock(text) => Response(200, MessageReply(text))
                case OtherBlock => Response(200, MessageReply(NonTextApology))
  }

  /** An `expert` object without an `id` is answered exactly as the
      therapist would be: the key "undefined" is neither registered nor
      inherited. */
  lemma ExpertWithoutIdIsTherapist(env: Env, messages: Option<seq<Message>>, provider: ProviderRequest -> ProviderOutcome)
    ensures HandleChat(env, Parsed(messages, ExpertObject(None)), provider)
              == HandleChat(env, Parsed(messages, ExpertObject(Some("therapist"))), provider)
  {
    assert SystemPrompt("undefined") == PersonaPrompt(Therapist);
  }

  /** Without a key the answer does not depend on the provider at all. */
  lemma MissingKeyNeverCallsProvider(env: Env, messages: Option<seq<Message>>, expert: Expert,
                                     p1: ProviderRequest -> ProviderOutcome, p2: ProviderRequest -> ProviderOutcome)
    requires Truthy(env, AnthropicApiKey).None?
    ensures HandleChat(env, Parsed(messages, expert), p1) == HandleChat(env, Parsed(messages, expert), p2)
  {
  }

  /** What the chat page takes from a response: the message of a 200, and
      nothing (a failed request) otherwise. */
  function ClientReply(r: Response): (reply: Option<string>)
    ensures reply.Some? <==> r.status == 200 && r.reply.MessageReply?
  {
    if r.status == 200 && r.reply.MessageReply? then Some(r.reply.message) else None
  }

  /** A send whose gateway call fails for any reason (a missing key, a
      thrown provider error, an empty content list) still keeps the user's
      message on screen, followed by the page's apology, and stores
      nothing. */
  lemma GatewayFailureKeepsUserTurn(s: ChatSession.Session, db: ChatSession.Db, env: Env,
                                    provider: ProviderRequest -> ProviderOutcome, saved: ChatSession.SaveReply)
    requires && !s.isLoading && Strings.Trim(s.input) != ""
             && ClientReply(HandleChat(env, PageBody(ChatSession.BeginSend(s).1.value.newMessages, s.expertId), provider)).None?
    ensures var (s1, f) := ChatSession.BeginSend(s);
            f.Some? &&
            var reply := ClientReply(HandleChat(env, PageBody(f.value.newMessages, s.expertId), provider));
            var (s2, db2) := ChatSession.CompleteSend(s1, db, f.value, reply, saved);
            && s2.messages == s.messages + [Message(User, Strings.Trim(s.input)), Message(Assistant, ChatSession.Apology)]
            && db2 == db
  {
    var (s1, f) := ChatSession.BeginSend(s);
    var reply := ClientReply(HandleChat(env, PageBody(f.value.newMessages, s.expertId), provider));
    ChatSession.SendKeepsUserTurn(s, db, reply, saved);
  }

  /** Without a key every send fails, whatever the provider would say. */
  lemma MissingKeyFailsEverySend(env: Env, msgs: seq<Message>, expertId: string,
                                 provider: ProviderRequest -> ProviderOutcome)
    requires Truthy(env, AnthropicApiKey).None?
    ensures ClientReply(HandleChat(env, PageBody(msgs, expertId), provider)).None?
  {
  }
}
