/** The `process-ai` handler of the main process: whether a client can be
    built from the stored key, how the system prompt and the user message are
    shaped from the panel's text, prompt and mail context, the request that is
    sent, and how an upstream failure is turned into the message the panel
    sees. The upstream chat-completion call is an oracle. */
module AiRequest {
  import opened Wrappers
  import opened Text

  const BasePrompt: string := "You are a helpful AI assistant for email and text processing."
  const ComposeAddendum: string :=
    " The user is composing an email. Provide concise, professional assistance."
  const MailboxAddendum: string :=
    " The user is working with email threads. Help them understand and respond to conversations."
  const ClosingPrompt: string := " Keep responses concise and actionable."

  const TextHeader: string := "Text to process:\n"
  const TaskHeader: string := "\n\nTask: "

  const DefaultModel: string := "gpt-4"
  const MaxTokens: nat := 1000
  const Temperature: real := 0.7

  const NotConfigured: string :=
    "OpenAI API key not configured. Please add your API key in settings."
  const InvalidKey: string := "Invalid API key. Please check your OpenAI API key in settings."
  const RateLimited: string := "Rate limit exceeded. Please try again in a moment."
  const Unavailable: string := "OpenAI service unavailable. Please try again later."
  const FailedPrefix: string := "AI processing failed: "

  datatype Role = System | User

  datatype Message = Message(role: Role, content: string)

  datatype ChatRequest = ChatRequest(
    model: string,
    messages: seq<Message>,
    maxTokens: nat,
    temperature: real)

  /** What the upstream client threw: an HTTP status when it had one, and its
      message. A malformed response (no choices) is a status-less error too. */
  datatype ApiError = ApiError(status: Option<int>, message: string)

  /** The upstream call: the reply text, or the error it threw. */
  type Upstream = ChatRequest -> Result<string, ApiError>

  /** The main process's state: the key held by the store and the key the
      current client was built with, if any. */
  datatype AiState = AiState(storedKey: Option<string>, client: Option<string>)

  /** The stored key is truthy: present and not the empty string. */
  predicate KeyUsable(key: Option<string>) {
    key.Some? && key.value != ""
  }

  /** `initializeOpenAI`: builds a client from a truthy stored key and keeps
      the old client otherwise. */
  function InitializeClient(st: AiState): (r: AiState)
    ensures r.storedKey == st.storedKey
    ensures KeyUsable(st.storedKey) ==> r.client == st.storedKey
    ensures !KeyUsable(st.storedKey) ==> r.client == st.client
  {
    if KeyUsable(st.storedKey) then st.(client := st.storedKey) else st
  }

  /** `set-config` for the key `openai-api-key`: the store is updated and the
      client rebuilt. */
  function SetApiKey(st: AiState, key: Option<string>): (r: AiState)
    ensures r.storedKey == key
    ensures KeyUsable(key) ==> r.client == key
  {
    InitializeClient(st.(storedKey := key))
  }

  /** Clearing the key does not drop a client already built: requests keep
      going out with the old key. */
  lemma ClearingKeyKeepsClient(st: AiState)
    requires st.client.Some?
    ensures SetApiKey(st, Some("")).client == st.client
    ensures SetApiKey(st, None).client == st.client
  {
  }

  /** The system prompt for the mail context type (`None` when the context is
      falsy or has no type). */
  function SystemPrompt(contextType: Option<string>): (r: string)
    ensures contextType == Some("compose") ==> r == BasePrompt + ComposeAddendum + ClosingPrompt
    ensures contextType == Some("mailbox") ==> r == BasePrompt + MailboxAddendum + ClosingPrompt
    ensures contextType != Some("compose") && contextType != Some("mailbox") ==>
      r == BasePrompt + ClosingPrompt
  {
    var addendum :=
      if contextType == Some("compose") then ComposeAddendum
      else if contextType == Some("mailbox") then MailboxAddendum
      else "";
    BasePrompt + addendum + ClosingPrompt
  }

  /** Every context type other than compose and mailbox, `viewer`
      included, gets the same prompt as no context at all. */
  lemma OtherContextsShareThePlainPrompt(contextType: Option<string>)
    requires contextType != Some("compose") && contextType != Some("mailbox")
    ensures SystemPrompt(contextType) == SystemPrompt(None)
    ensures SystemPrompt(Some("viewer")) == SystemPrompt(None)
  {
  }

  /** The user message: the text and the task when the text is not blank,
      the prompt alone otherwise. */
  function UserMessage(text: string, prompt: string): (r: string)
    ensures IsBlank(text) ==> r == prompt
    ensures !IsBlank(text) ==> r == TextHeader + text + TaskHeader + prompt
  {
    TrimEmptyIffBlank(text);
    if Trim(text) != "" then TextHeader + text + TaskHeader + prompt else prompt
  }

  /** The prompt always ends the user message. */
  lemma PromptEndsUserMessage(text: string, prompt: string)
    ensures var m := UserMessage(text, prompt);
      |m| >= |prompt| && m[|m| - |prompt|..] == prompt
  {
    if !IsBlank(text) {
      SuffixOfConcat(TextHeader + text + TaskHeader, prompt);
    }
  }

  /** A non-blank text can be read back from the user message right after
      the header. */
  lemma TextFollowsHeader(text: string, prompt: string)
    requires !IsBlank(text)
    ensures var m := UserMessage(text, prompt);
      StartsWith(m, TextHeader) && m[|TextHeader|..|TextHeader| + |text|] == text
  {
    var h, rest := TextHeader, TaskHeader + prompt;
    assert UserMessage(text, prompt) == h + (text + rest) by {
      ConcatAssoc3(h, text, TaskHeader, prompt);
    }
    PrefixOfConcat(h, text + rest);
    PrefixOfConcat(text, rest);
  }

  lemma SuffixOfConcat(a: string, b: string)
    ensures (a + b)[|a|..] == b
  {
  }

  lemma PrefixOfConcat(a: string, b: string)
    ensures (a + b)[..|a|] == a && (a + b)[|a|..] == b
  {
  }

  lemma ConcatAssoc3(a: string, b: string, c: string, d: string)
    ensures a + b + c + d == a + (b + (c + d))
  {
  }

  /** The request sent upstream: the chosen model (`gpt-4` when none is
      stored), a system and a user message, 1000 tokens at temperature 0.7. */
  function BuildRequest(model: Option<string>, text: string, prompt: string,
                        contextType: Option<string>): (r: ChatRequest)
    ensures r.model == model.GetOr(DefaultModel)
    ensures |r.messages| == 2
    ensures r.messages[0] == Message(System, SystemPrompt(contextType))
    ensures r.messages[1] == Message(User, UserMessage(text, prompt))
    ensures r.maxTokens == 1000 && r.temperature == 0.7
  {
    ChatRequest(model.GetOr(DefaultModel),
                [Message(System, SystemPrompt(contextType)),
                 Message(User, UserMessage(text, prompt))],
                MaxTokens, Temperature)
  }

  /** The errors the handler throws, one per message it can produce. */
  datatype AiFailure =
    | KeyMissing
    | KeyRejected
    | RateLimit
    | ServiceDown
    | CallFailed(message: string)
  {
    /** The message of the thrown error. */
    function Text(): string {
      match this
      case KeyMissing => NotConfigured
      case KeyRejected => InvalidKey
      case RateLimit => RateLimited
      case ServiceDown => Unavailable
      case CallFailed(m) => FailedPrefix + m
    }
  }

  /** The error thrown for an upstream failure: 401, 429 and exactly 500 have
      their own messages, everything else keeps the upstream message. */
  function MapError(e: ApiError): (f: AiFailure)
    ensures f != KeyMissing
    ensures e.status == Some(401) ==> f == KeyRejected
    ensures e.status == Some(429) ==> f == RateLimit
    ensures e.status == Some(500) ==> f == ServiceDown
    ensures e.status !in {Some(401), Some(429), Some(500)} ==> f == CallFailed(e.message)
  {
    match e.status
    case Some(401) => KeyRejected
    case Some(429) => RateLimit
    case Some(500) => ServiceDown
    case _ => CallFailed(e.message)
  }

  /** Each fixed error comes from exactly one status; in particular only 500
      itself, and no other 5xx status, reads as "unavailable", and the
      upstream message survives exactly when no fixed error applies. */
  lemma MapErrorClassifies(e: ApiError)
    ensures MapError(e) == KeyRejected <==> e.status == Some(401)
    ensures MapError(e) == RateLimit <==> e.status == Some(429)
    ensures MapError(e) == ServiceDown <==> e.status == Some(500)
    ensures MapError(e).CallFailed? <==> e.status !in {Some(401), Some(429), Some(500)}
    ensures MapError(e).CallFailed? ==> MapError(e).Text() == FailedPrefix + e.message
  {
  }

  /** The handler's outcome: the state afterwards, the request it sent (none
      when it never reached the client) and the reply or the error message. */
  datatype AiOutcome = AiOutcome(state: AiState, sent: Option<ChatRequest>,
                                 result: Result<string, AiFailure>)

  /** `process-ai`: builds the client lazily, fails with the not-configured
      message before any request when it still has none, and otherwise sends
      the request and maps its failure. */
  function ProcessAi(st: AiState, model: Option<string>, text: string, prompt: string,
                     contextType: Option<string>, upstream: Upstream): (r: AiOutcome)
    ensures r.state.storedKey == st.storedKey
    ensures r.state.client.Some? <==> st.client.Some? || KeyUsable(st.storedKey)
    ensures r.sent.None? <==> r.state.client.None?
    ensures r.sent.None? ==> r.result == Failure(KeyMissing)
    ensures r.sent.Some? ==>
      r.sent.value == BuildRequest(model, text, prompt, contextType)
      && match upstream(r.sent.value)
         case Success(reply) => r.result == Success(reply)
         case Failure(e) => r.result == Failure(MapError(e))
  {
    var st' := if st.client.Some? then st else InitializeClient(st);
    if st'.client.None? then
      AiOutcome(st', None, Failure(KeyMissing))
    else
      var req := BuildRequest(model, text, prompt, contextType);
      match upstream(req)
      case Success(reply) => AiOutcome(st', Some(req), Success(reply))
      case Failure(e) => AiOutcome(st', Some(req), Failure(MapError(e)))
  }

  /** An existing client is reused as is, even when the stored key has
      changed behind it, and a failing upstream never yields a reply. */
  lemma ExistingClientReused(st: AiState, model: Option<string>, text: string, prompt: string,
                             contextType: Option<string>, upstream: Upstream)
    requires st.client.Some?
    ensures ProcessAi(st, model, text, prompt, contextType, upstream).state == st
    ensures var req := BuildRequest(model, text, prompt, contextType);
      upstream(req).Failure? ==>
        ProcessAi(st, model, text, prompt, contextType, upstream).result.Failure?
  {
  }
}
