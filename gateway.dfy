/**
 * The `handler` of the prompt endpoint: it checks that the provider key is
 * configured, reads the request body with its defaults, validates the
 * arguments and the built prompt in a fixed order, and only then asks the
 * completion provider, whose outcome it turns into the response. Each early
 * return of the source writes one response and stops; here each is a
 * `Reject` decision. The provider is a function parameter, so that what the
 * handler does not ask it cannot change the response.
 */
module Gateway {
  import opened Optional
  import opened JsString
  import opened PromptBuilder

  /** The JSON body the handler writes: `{ result }`, `{ error: { message } }`,
      or the provider's own error body, relayed as it came. */
  datatype Body =
    | Completion(result: string)
    | Failure(message: string)
    | Relayed(data: string)

  datatype Response = Response(status: int, body: Body)

  /** The request body fields the handler reads; `None` stands for a field
      that is absent, `null` or otherwise falsy. */
  datatype RequestBody = RequestBody(
    question: Option<string>,
    topicType: Option<string>,
    promptType: Option<string>,
    content: Option<string>,
    temperature: Option<real>)

  /** The arguments of `openai.createCompletion`. */
  datatype CompletionRequest = CompletionRequest(model: string, prompt: string, temperature: real, maxTokens: nat)

  /** How the completion call ended: with the generated choices, with an error
      that carries the provider's HTTP response, or with an error that does
      not (a network failure, say). */
  datatype ProviderOutcome =
    | Completed(choices: seq<string>)
    | FailedWithResponse(status: int, data: string)
    | FailedWithoutResponse

  /** Either an early response, or the request to send to the provider. */
  datatype Decision = Reject(response: Response) | Forward(request: CompletionRequest)

  const Model: string := "text-davinci-003"
  const MaxTokens: nat := 550

  const MissingKeyMessage: string := "OpenAI API key not configured, please follow instructions in README.md"
  const InvalidArgsMessage: string := "Invalid args"
  const InvalidPromptMessage: string := "Invalid prompt"
  const RequestFailedMessage: string := "An error occurred during your request."

  /** `configuration.apiKey` is truthy: present and not the empty string. A key
      of spaces counts as configured. */
  predicate KeyConfigured(apiKey: Option<string>) {
    apiKey.Some? && apiKey.value != ""
  }

  /** `field || ''`. */
  function OrEmpty(field: Option<string>): (r: string)
    ensures field.Some? ==> r == field.value
    ensures r == "" <==> field.None? || field == Some("")
  {
    match field
    case None => ""
    case Some(s) => s
  }

  /** `req.body.temperature || 1`: an absent temperature and an explicit zero
      both become 1; any other value is passed on. */
  function EffectiveTemperature(temperature: Option<real>): (r: real)
    ensures temperature.None? || temperature == Some(0.0) ==> r == 1.0
    ensures temperature.Some? && temperature.value != 0.0 ==> r == temperature.value
    ensures r != 0.0
  {
    match temperature
    case None => 1.0
    case Some(t) => if t == 0.0 then 1.0 else t
  }

  /** Some of the three required arguments is blank after defaulting. */
  predicate MissingArgs(body: RequestBody) {
    IsEmpty(OrEmpty(body.question)) || IsEmpty(OrEmpty(body.topicType)) || IsEmpty(OrEmpty(body.promptType))
  }

  /** The prompt the handler builds from the defaulted fields. */
  function PromptOf(body: RequestBody): string {
    GetPrompt(OrEmpty(body.topicType), OrEmpty(body.promptType), OrEmpty(body.question), OrEmpty(body.content))
  }

  /** The checks before the provider call, in the source's order: the key,
      then the three arguments, then the prompt. The prompt is rejected
      exactly when the action identifier is not one of the twenty, and a
      forwarded request carries the built prompt, the model, the effective
      temperature and the token limit. */
  function Validate(apiKey: Option<string>, body: RequestBody): (d: Decision)
    ensures !KeyConfigured(apiKey) ==> d == Reject(Response(500, Failure(MissingKeyMessage)))
    ensures KeyConfigured(apiKey) && MissingArgs(body) ==> d == Reject(Response(400, Failure(InvalidArgsMessage)))
    ensures KeyConfigured(apiKey) && !MissingArgs(body) && OrEmpty(body.promptType) !in ActionIdentifiers
            ==> d == Reject(Response(400, Failure(InvalidPromptMessage)))
    ensures d.Forward? <==> KeyConfigured(apiKey) && !MissingArgs(body) && OrEmpty(body.promptType) in ActionIdentifiers
    ensures d.Forward? ==>
      && d.request.prompt == PromptOf(body) && !IsEmpty(d.request.prompt)
      && d.request.model == Model && d.request.maxTokens == MaxTokens
      && d.request.temperature == EffectiveTemperature(body.temperature)
  {
    if !KeyConfigured(apiKey) then
      Reject(Response(500, Failure(MissingKeyMessage)))
    else if MissingArgs(body) then
      Reject(Response(400, Failure(InvalidArgsMessage)))
    else if IsEmpty(PromptOf(body)) then
      Reject(Response(400, Failure(InvalidPromptMessage)))
    else
      Forward(CompletionRequest(Model, PromptOf(body), EffectiveTemperature(body.temperature), MaxTokens))
  }

  /** The response to the provider's outcome: the first choice with 200, the
      provider's own status and body when its error carries a response, and
      the generic 500 otherwise. An empty list of choices makes
      `choices[0].text` throw inside the `try`, and that error carries no
      response either. */
  function Respond(outcome: ProviderOutcome): (r: Response)
    ensures r.body.Completion? <==> outcome.Completed? && |outcome.choices| > 0
    ensures r.body.Completion? ==> r.status == 200 && r.body.result == outcome.choices[0]
    ensures r.body.Relayed? <==> outcome.FailedWithResponse?
    ensures outcome.FailedWithResponse? ==> r.status == outcome.status && r.body.data == outcome.data
    ensures r.body.Failure? ==> r == Response(500, Failure(RequestFailedMessage))
  {
    match outcome
    case Completed(choices) =>
      if |choices| > 0 then Response(200, Completion(choices[0]))
      else Response(500, Failure(RequestFailedMessage))
    case FailedWithResponse(status, data) => Response(status, Relayed(data))
    case FailedWithoutResponse => Response(500, Failure(RequestFailedMessage))
  }

  /** `handler(req, res)`: the response it writes, given the configured key,
      the request body and the provider. A completion is returned only for a
      request that passed every check, and its text is the provider's. */
  function Handle(apiKey: Option<string>, body: RequestBody, provider: CompletionRequest -> ProviderOutcome): (r: Response)
    ensures r.body.Completion? ==>
      && Validate(apiKey, body).Forward?
      && r.status == 200
      && provider(Validate(apiKey, body).request).Completed?
      && r.body.result in provider(Validate(apiKey, body).request).choices
  {
    match Validate(apiKey, body)
    case Reject(response) => response
    case Forward(request) => Respond(provider(request))
  }

  /** Without a key the handler answers 500 with the configuration message,
      whatever the body and the provider. */
  lemma MissingKeyAlwaysFails(apiKey: Option<string>, body: RequestBody, provider: CompletionRequest -> ProviderOutcome)
    requires !KeyConfigured(apiKey)
    ensures Handle(apiKey, body, provider) == Response(500, Failure(MissingKeyMessage))
  {
  }

  /** The provider is consulted only when every check passes: a rejected
      request gets the same response whatever the provider would answer, and
      a rejection is always a 400 or a 500 with a message of the handler's
      own. */
  lemma RejectIgnoresProvider(apiKey: Option<string>, body: RequestBody, p1: CompletionRequest -> ProviderOutcome, p2: CompletionRequest -> ProviderOutcome)
    requires !(KeyConfigured(apiKey) && !MissingArgs(body) && OrEmpty(body.promptType) in ActionIdentifiers)
    ensures Handle(apiKey, body, p1) == Handle(apiKey, body, p2)
    ensures Handle(apiKey, body, p1).status in {400, 500} && Handle(apiKey, body, p1).body.Failure?
  {
  }

  /** A non-blank topic outside the three known ones is accepted and gets the
      default persona. */
  lemma UnknownTopicAccepted(apiKey: Option<string>, body: RequestBody)
    requires KeyConfigured(apiKey) && !MissingArgs(body)
    requires OrEmpty(body.topicType) !in TopicNames
    requires OrEmpty(body.promptType) in ActionIdentifiers
    ensures Validate(apiKey, body).Forward?
    ensures Validate(apiKey, body).request.prompt
      == Build(ParseAction(OrEmpty(body.promptType)).value, Default, OrEmpty(body.question), OrEmpty(body.content))
  {
  }

  /** A valid request whose completion has choices is answered 200 with the
      first choice's text. */
  lemma CompletionReturned(apiKey: Option<string>, body: RequestBody, provider: CompletionRequest -> ProviderOutcome)
    requires KeyConfigured(apiKey) && !MissingArgs(body) && OrEmpty(body.promptType) in ActionIdentifiers
    requires provider(Validate(apiKey, body).request).Completed?
    requires |provider(Validate(apiKey, body).request).choices| > 0
    ensures Handle(apiKey, body, provider) == Response(200, Completion(provider(Validate(apiKey, body).request).choices[0]))
  {
  }

  /** A valid request whose provider fails without a response, or completes
      with no choices, gets the generic 500. */
  lemma ProviderFailureSummarised(apiKey: Option<string>, body: RequestBody, provider: CompletionRequest -> ProviderOutcome)
    requires Validate(apiKey, body).Forward?
    requires provider(Validate(apiKey, body).request) in {FailedWithoutResponse, Completed([])}
    ensures Handle(apiKey, body, provider) == Response(500, Failure(RequestFailedMessage))
  {
  }

  /** A provider error that carries a response reaches the client with the
      provider's status and body unchanged. */
  lemma ProviderErrorRelayed(apiKey: Option<string>, body: RequestBody, provider: CompletionRequest -> ProviderOutcome)
    requires Validate(apiKey, body).Forward?
    requires provider(Validate(apiKey, body).request).FailedWithResponse?
    ensures Handle(apiKey, body, provider).status == provider(Validate(apiKey, body).request).status
    ensures Handle(apiKey, body, provider).body == Relayed(provider(Validate(apiKey, body).request).data)
  {
  }
}
