/** The `/chat` and `/health` endpoints: validating the request, forwarding
    it to the workflow webhook when one is configured, and mapping what the
    webhook did to the reply, with the keyword responder as the fallback. */
module Dispatch {
  import opened Options
  import opened Text
  import opened Responder

  /** The module-level settings: the webhook URL (`None` when unset) and the
      language-model API key (empty when unset). */
  datatype Config = Config(webhookUrl: Option<string>, apiKey: string)

  /** The `message` member of a JSON request body: absent (or `null`), a
      string, or some other JSON value whose Python truthiness is given. */
  datatype Field = Missing | Str(value: string) | NonText(truthy: bool)

  /** The request as the handler sees it: not declared as JSON; declared as
      JSON but not parseable; a JSON value that is not an object (a list, a
      string, a number, `null`); or a JSON object. */
  datatype Request = NonJson | Unparsable | NonObject | JsonObject(message: Field)

  /** What the webhook call did. `Delivered` carries the `status` and
      `message` members of the JSON reply, each possibly absent; `TimedOut` is
      `requests.exceptions.Timeout`; `RequestFailed` any other
      `RequestException` (refused connection, an error status raised by
      `raise_for_status`, an undecodable body); `Faulted` any other exception
      (a reply that is JSON but not an object). */
  datatype Upstream =
    | Delivered(status: Option<string>, message: Option<string>)
    | TimedOut
    | RequestFailed
    | Faulted

  /** The JSON reply and its HTTP code. */
  datatype ChatResponse = ChatResponse(botResponse: string, status: string, note: Option<string>, httpCode: int)

  /** What the endpoint answers: a reply of its own, the framework's
      internal-server-error page (500) after an uncaught exception, or the
      framework's bad-request page (400) when reading a body that does not
      parse. */
  datatype ChatResult = Respond(response: ChatResponse) | ServerError | BadRequestPage

  /** What validation leaves: the stripped prompt, or the result to answer with. */
  datatype Validated = Valid(prompt: string) | Rejected(result: ChatResult)

  const NotJsonReply := "Request must be JSON."
  const InvalidMessageReply := "Please enter a valid message."
  const DefaultWorkflowMessage := "Workflow executed successfully."
  const WorkflowIssuePrefix := "Workflow issue: "
  const TimeoutSuffix := " (n8n timeout, using fallback)"
  const UnavailableNote := "n8n unavailable, using fallback"

  /** `if N8N_WEBHOOK_URL:`: a URL that is set and non-empty. */
  predicate WebhookEnabled(cfg: Config) {
    cfg.webhookUrl.Some? && |cfg.webhookUrl.value| > 0
  }

  /** The checks at the top of `chat`: a JSON body, then a truthy `message`
      whose stripped text is non-empty. Reading `message` from a body that
      does not parse makes the framework answer 400; from a JSON value that
      is not an object it raises (no `get`), as does stripping a truthy
      non-string `message`. */
  function Validate(req: Request): (v: Validated)
    ensures v.Valid? <==> req.JsonObject? && req.message.Str? && exists i | 0 <= i < |req.message.value| :: !IsSpace(req.message.value[i])
    ensures v.Valid? ==> |v.prompt| > 0 && v.prompt == Strip(req.message.value)
    ensures v.Rejected? && v.result.Respond? ==>
      v.result.response == ChatResponse(if req.NonJson? then NotJsonReply else InvalidMessageReply, "error", None, 400)
    ensures v.Rejected? && v.result.ServerError? <==>
      req.NonObject? || (req.JsonObject? && req.message.NonText? && req.message.truthy)
    ensures v.Rejected? && v.result.BadRequestPage? <==> req.Unparsable?
  {
    match req
    case NonJson => Rejected(Respond(ChatResponse(NotJsonReply, "error", None, 400)))
    case Unparsable => Rejected(BadRequestPage)
    case NonObject => Rejected(ServerError)
    case JsonObject(Missing) => Rejected(Respond(ChatResponse(InvalidMessageReply, "error", None, 400)))
    case JsonObject(NonText(truthy)) =>
      if truthy then Rejected(ServerError)
      else Rejected(Respond(ChatResponse(InvalidMessageReply, "error", None, 400)))
    case JsonObject(Str(s)) =>
      StripBlank(s);
      if Strip(s) == "" then Rejected(Respond(ChatResponse(InvalidMessageReply, "error", None, 400)))
      else Valid(Strip(s))
  }

  /** The payload forwarded to the webhook; `timestamp` and `sessionId` stand
      for the clock reading and the fresh UUID. */
  datatype WebhookPayload = WebhookPayload(userPrompt: string, timestamp: string, sessionId: string, userId: string, text: string)

  /** What is forwarded, if anything: a payload exactly when the request is
      valid and a webhook is configured, carrying the stripped prompt twice. */
  function Outbound(cfg: Config, req: Request, timestamp: string, sessionId: string): (r: Option<WebhookPayload>)
    ensures r.Some? <==> WebhookEnabled(cfg) && Validate(req).Valid?
    ensures r.Some? ==> r.value.userPrompt == r.value.text == Validate(req).prompt && r.value.userId == "mock_user_id"
    ensures r.Some? ==> r.value.timestamp == timestamp && r.value.sessionId == sessionId
  {
    match Validate(req)
    case Valid(prompt) =>
      if WebhookEnabled(cfg) then Some(WebhookPayload(prompt, timestamp, sessionId, "mock_user_id", prompt)) else None
    case Rejected(_) => None
  }

  /** The reply built from a webhook that answered. */
  function WorkflowReply(status: Option<string>, message: Option<string>): (r: ChatResponse)
    ensures r.status == status.GetOr("success") && r.note == None && r.httpCode == 200
    ensures r.status == "success" ==> r.botResponse == message.GetOr(DefaultWorkflowMessage)
    ensures r.status != "success" ==> r.botResponse == WorkflowIssuePrefix + message.GetOr(DefaultWorkflowMessage)
  {
    var text := message.GetOr(DefaultWorkflowMessage);
    var st := status.GetOr("success");
    ChatResponse(if st == "success" then text else WorkflowIssuePrefix + text, st, None, 200)
  }

  /** `chat`. `up` is what the webhook call did (unused when none is
      configured), `llm` what the language-model call produced and `clock`
      the formatted date and time for the clock reply. */
  function Chat(cfg: Config, req: Request, up: Upstream, llm: Completion, clock: string): (r: ChatResult)
    ensures r.ServerError? <==> req.NonObject? || (req.JsonObject? && req.message.NonText? && req.message.truthy)
    ensures r.BadRequestPage? <==> req.Unparsable?
    ensures r.Respond? ==> (r.response.httpCode == 400 <==> Validate(req).Rejected?)
    ensures r.Respond? ==> r.response.httpCode == 200 || r.response.httpCode == 400
  {
    match Validate(req)
    case Rejected(result) => result
    case Valid(prompt) => Respond(Forward(cfg, prompt, up, llm, clock))
  }

  /** The part of `chat` after validation, for the stripped prompt: the
      webhook's answer mapped to a reply, or the fallback responder. */
  function Forward(cfg: Config, prompt: string, up: Upstream, llm: Completion, clock: string): (r: ChatResponse)
    ensures r.httpCode == 200
    ensures !WebhookEnabled(cfg) || !up.Delivered? ==> r.status == "success"
    ensures !WebhookEnabled(cfg) ==> r == ChatResponse(AiResponse(cfg.apiKey, prompt, llm, clock), "success", None, 200)
  {
    if WebhookEnabled(cfg) then
      match up
      case Delivered(status, message) => WorkflowReply(status, message)
      case TimedOut => ChatResponse(AiResponse(cfg.apiKey, prompt, llm, clock) + TimeoutSuffix, "success", None, 200)
      case RequestFailed => ChatResponse(AiResponse(cfg.apiKey, prompt, llm, clock), "success", Some(UnavailableNote), 200)
      case Faulted => ChatResponse(AiResponse(cfg.apiKey, prompt, llm, clock), "success", None, 200)
    else
      ChatResponse(AiResponse(cfg.apiKey, prompt, llm, clock), "success", None, 200)
  }

  /** A non-JSON body, or a `message` that is absent, falsy, or only
      whitespace, is refused with 400 and status "error". */
  lemma RejectsInvalid(cfg: Config, req: Request, up: Upstream, llm: Completion, clock: string)
    requires req.NonJson? || (req.JsonObject? && (req.message.Missing? || (req.message.NonText? && !req.message.truthy)
      || (req.message.Str? && forall i | 0 <= i < |req.message.value| :: IsSpace(req.message.value[i]))))
    ensures Chat(cfg, req, up, llm, clock) ==
      Respond(ChatResponse(if req.NonJson? then NotJsonReply else InvalidMessageReply, "error", None, 400))
  {
  }

  /** The prompt is stripped before any use: padding a message with
      whitespace changes neither the reply nor the payload. */
  lemma StrippedBeforeUse(cfg: Config, s: string, up: Upstream, llm: Completion, clock: string, timestamp: string, sessionId: string)
    ensures Chat(cfg, JsonObject(Str(s)), up, llm, clock) == Chat(cfg, JsonObject(Str(Strip(s))), up, llm, clock)
    ensures Outbound(cfg, JsonObject(Str(s)), timestamp, sessionId) == Outbound(cfg, JsonObject(Str(Strip(s))), timestamp, sessionId)
  {
    ValidateStrips(s);
  }

  lemma ValidateStrips(s: string)
    ensures Validate(JsonObject(Str(s))) == Validate(JsonObject(Str(Strip(s))))
  {
    StripIdempotent(s);
    StripBlank(s);
    StripBlank(Strip(s));
  }

  /** A webhook that answers decides the reply alone: its message (or the
      default) verbatim when its status is "success", prefixed with
      "Workflow issue: " otherwise, its status echoed, and always HTTP 200,
      even when the status is "error". */
  lemma DeliveredReply(cfg: Config, req: Request, status: Option<string>, message: Option<string>, llm: Completion, clock: string)
    requires WebhookEnabled(cfg) && Validate(req).Valid?
    ensures Chat(cfg, req, Delivered(status, message), llm, clock) == Respond(WorkflowReply(status, message))
    ensures Chat(cfg, req, Delivered(Some("error"), message), llm, clock).response.httpCode == 200
    ensures Chat(cfg, req, Delivered(Some("error"), message), llm, clock).response.status == "error"
  {
  }

  /** Every webhook failure falls back to `get_ai_response` with HTTP 200 and
      status "success": a timeout adds the fallback suffix, a request error
      the note, anything else neither. */
  lemma FallbackReplies(cfg: Config, prompt: string, llm: Completion, clock: string)
    requires WebhookEnabled(cfg)
    ensures var text := AiResponse(cfg.apiKey, prompt, llm, clock);
      && Forward(cfg, prompt, TimedOut, llm, clock) == ChatResponse(text + TimeoutSuffix, "success", None, 200)
      && Forward(cfg, prompt, RequestFailed, llm, clock) == ChatResponse(text, "success", Some(UnavailableNote), 200)
      && Forward(cfg, prompt, Faulted, llm, clock) == ChatResponse(text, "success", None, 200)
  {
  }

  /** Without a webhook the outcome of a webhook call is irrelevant: every
      valid message gets `get_ai_response` of its stripped text with HTTP
      200, status "success" and no note, a reply that is non-empty unless
      the language model itself answered with empty text. */
  lemma WithoutWebhook(cfg: Config, req: Request, up: Upstream, up': Upstream, llm: Completion, clock: string)
    requires !WebhookEnabled(cfg) && Validate(req).Valid?
    ensures Chat(cfg, req, up, llm, clock) == Chat(cfg, req, up', llm, clock)
    ensures Chat(cfg, req, up, llm, clock) ==
      Respond(ChatResponse(AiResponse(cfg.apiKey, Validate(req).prompt, llm, clock), "success", None, 200))
    ensures var r := Chat(cfg, req, up, llm, clock);
      && r.Respond? && r.response.httpCode == 200 && r.response.status == "success" && r.response.note == None
      && (|cfg.apiKey| == 0 || llm.NoCompletion? ==> |r.response.botResponse| > 0)
  {
  }

  /** The `/health` report. */
  datatype Health = Health(status: string, service: string, timestamp: string, n8nConfigured: bool, openAiConfigured: bool)

  /** `health`: `n8n_configured` tests the URL against `None`, while `chat`
      tests its truthiness. */
  function HealthReport(cfg: Config, timestamp: string): (r: Health)
    ensures r.status == "healthy" && r.service == "AI Chatbot Backend" && r.timestamp == timestamp
    ensures r.n8nConfigured <==> cfg.webhookUrl.Some?
    ensures r.openAiConfigured <==> |cfg.apiKey| > 0
  {
    Health("healthy", "AI Chatbot Backend", timestamp, cfg.webhookUrl.Some?, |cfg.apiKey| > 0)
  }

  /** `/health` reports the webhook as configured while `chat` does not use
      it exactly when the URL is set to the empty string. */
  lemma HealthDisagreesOnEmptyUrl(cfg: Config, timestamp: string)
    ensures HealthReport(cfg, timestamp).n8nConfigured && !WebhookEnabled(cfg) <==> cfg.webhookUrl == Some("")
  {
  }
}
