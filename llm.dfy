/** Choosing a summarising backend and the Ollama protocol around its HTTP call
    (internal/llm/llm.go and ollama.go).

    The HTTP exchanges themselves (the Claude client, sending the Ollama request) are not part of
    this model: what a server answers is an input. `NewClaude`, called by llm.New, is not among
    the package's files (internal/llm/claude.go defines `New(cfg, apiKey)` instead), so whether it
    succeeds is an input too. */
module Llm {
  import opened Errors
  import opened Strings
  import opened Config

  /** The two backends and the settings each one keeps. */
  datatype Generator =
    | Claude(model: string, maxTokens: int)
    | Ollama(baseURL: string, model: string)

  function UnknownBackend(backend: string): string
  {
    "unknown llm backend: " + backend + " (supported: claude, ollama)"
  }

  /** NewOllama: the model is required; one trailing '/' is dropped from the base URL, which may
      be empty. */
  function NewOllama(cfg: OllamaConfig): (r: Result<Generator>)
    ensures r.Ok? <==> cfg.model != ""
    ensures r.Err? ==> r.error == Message("ollama model not configured")
    ensures r.Ok? ==> r.value.Ollama? && r.value.model == cfg.model
    ensures r.Ok? ==> r.value.baseURL + "/" == cfg.baseURL || (r.value.baseURL == cfg.baseURL && !HasSuffix(cfg.baseURL, "/"))
  {
    if cfg.model == "" then Err(Message("ollama model not configured"))
    else Ok(Ollama(TrimSuffix(cfg.baseURL, "/"), cfg.model))
  }

  /** Only one trailing separator goes: "http://host//" keeps one. */
  lemma NewOllamaTrimsOnce()
    ensures NewOllama(OllamaConfig("http://localhost:11434/", "llama3")).value.baseURL == "http://localhost:11434"
    ensures NewOllama(OllamaConfig("http://h//", "llama3")).value.baseURL == "http://h/"
    ensures NewOllama(OllamaConfig("", "llama3")) == Ok(Ollama("", "llama3"))
  {
    assert "http://localhost:11434/"[|"http://localhost:11434/"| - 1..] == "/";
    assert "http://h//"[|"http://h//"| - 1..] == "/";
  }

  /** llm.New: dispatch on the backend tag. `claudeInit` is what NewClaude returns. */
  function New(cfg: LLMConfig, claudeInit: Outcome): (r: Result<Generator>)
    ensures cfg.backend == "" ==> r == Err(Message("llm backend not configured"))
    ensures cfg.backend == "claude" ==> (r.Ok? <==> claudeInit.Pass?)
    ensures cfg.backend == "claude" && claudeInit.Fail? ==> r == Err(claudeInit.error)
    ensures cfg.backend == "claude" && r.Ok? ==> r.value == Claude(cfg.claude.model, cfg.claude.maxTokens)
    ensures cfg.backend == "ollama" ==> r == NewOllama(cfg.ollama)
    ensures cfg.backend !in {"", "claude", "ollama"} ==> r == Err(Message(UnknownBackend(cfg.backend)))
  {
    if cfg.backend == "" then Err(Message("llm backend not configured"))
    else if cfg.backend == "claude" then
      if claudeInit.Fail? then Err(claudeInit.error) else Ok(Claude(cfg.claude.model, cfg.claude.maxTokens))
    else if cfg.backend == "ollama" then NewOllama(cfg.ollama)
    else Err(Message(UnknownBackend(cfg.backend)))
  }

  /** Once ApplyDefaults has run the backend is never empty, so llm.New fails only for a Claude
      client that cannot be built, an Ollama configuration without a model, or an unknown tag. */
  lemma DefaultsRuleOutMissingBackend(cfg: LLMConfig, claudeInit: Outcome)
    ensures var l := DefaultLLM(cfg);
      New(l, claudeInit).Err? ==>
        || (l.backend == "claude" && claudeInit.Fail?)
        || (l.backend == "ollama" && l.ollama.model == "")
        || New(l, claudeInit) == Err(Message(UnknownBackend(l.backend)))
  {
  }

  // ---------------------------------------------------------------------------------------
  // Ollama's chat protocol

  datatype ChatMessage = ChatMessage(role: string, content: string)
  datatype ChatRequest = ChatRequest(model: string, messages: seq<ChatMessage>, stream: bool)
  datatype ChatResponse = ChatResponse(message: ChatMessage, error: string)

  /** The endpoint of the chat API. */
  function ChatURL(g: Generator): string
    requires g.Ollama?
  {
    g.baseURL + "/api/chat"
  }

  /** With a base URL given with or without its trailing '/', the endpoint is the same. */
  lemma ChatURLIgnoresTrailingSlash(base: string, model: string)
    requires model != "" && !HasSuffix(base, "/")
    ensures ChatURL(NewOllama(OllamaConfig(base + "/", model)).value) == ChatURL(NewOllama(OllamaConfig(base, model)).value)
  {
    assert HasSuffix(base + "/", "/") by {
      assert (base + "/")[|base + "/"| - 1..] == "/";
    }
    assert (base + "/")[..|base + "/"| - 1] == base;
  }

  /** The request body: the model, one user message carrying the prompt, no streaming. */
  function ChatRequestFor(g: Generator, prompt: string): (r: ChatRequest)
    requires g.Ollama?
    ensures r.model == g.model && !r.stream
    ensures |r.messages| == 1 && r.messages[0].role == "user" && r.messages[0].content == prompt
  {
    ChatRequest(g.model, [ChatMessage("user", prompt)], false)
  }

  /** What comes back from sending a request: a failure to send it or to read the answer, or a
      status, the body as text and the body decoded (or the decoding error). */
  datatype HttpReply =
    | SendFailed(failure: Error)
    | ReadFailed(failure: Error)
    | Reply(status: int, body: string, decoded: Result<ChatResponse>)

  /** The decision of Generate once the server has answered: a status other than 200 is an
      error, then a decoding failure, then a non-empty error field; otherwise the content. */
  function Decide(reply: HttpReply): (r: Result<string>)
    ensures r.Ok? <==> reply.Reply? && reply.status == 200 && reply.decoded.Ok? && reply.decoded.value.error == ""
    ensures r.Ok? ==> r.value == reply.decoded.value.message.content
    ensures reply.Reply? && reply.status != 200 ==>
      r == Err(Message("ollama API returned status " + IntToString(reply.status) + ": " + reply.body))
    ensures reply.Reply? && reply.status == 200 && reply.decoded.Ok? && reply.decoded.value.error != "" ==>
      r == Err(Message("ollama API error: " + reply.decoded.value.error))
  {
    match reply
    case SendFailed(e) => Err(Wrapped("failed to send request", e))
    case ReadFailed(e) => Err(Wrapped("failed to read response", e))
    case Reply(status, body, decoded) =>
      if status != 200 then Err(Message("ollama API returned status " + IntToString(status) + ": " + body))
      else if decoded.Err? then Err(Wrapped("failed to parse response", decoded.error))
      else if decoded.value.error != "" then Err(Message("ollama API error: " + decoded.value.error))
      else Ok(decoded.value.message.content)
  }

  /** The servers: the Claude client's answer to a prompt, and the Ollama server's reply to a
      request sent to an endpoint. */
  datatype Servers = Servers(claude: string -> Result<string>, ollama: (string, ChatRequest) -> HttpReply)

  /** Generator.Generate. Encoding the request cannot fail for these string and boolean fields. */
  function Generate(g: Generator, prompt: string, servers: Servers): (r: Result<string>)
    ensures g.Claude? ==> r == servers.claude(prompt)
    ensures g.Ollama? ==> r == Decide(servers.ollama(ChatURL(g), ChatRequestFor(g, prompt)))
  {
    match g
    case Claude(_, _) => servers.claude(prompt)
    case Ollama(_, _) => Decide(servers.ollama(ChatURL(g), ChatRequestFor(g, prompt)))
  }
}
