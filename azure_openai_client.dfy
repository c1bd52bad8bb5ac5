/**
 * The Azure OpenAI wrapper (tyni_wispr/azure_openai_client.py): configuration
 * resolution from arguments and environment, validation order, the request a
 * chat completion sends, and the length guard on enhanced text.
 * The SDK call itself is an abstract function from request to outcome.
 */
module AzureClient {
  import opened Wrappers
  import opened Text

  const ApiKeyVar := "AZUREAI_API_KEY"
  const EndpointVar := "AZUREAI_ENDPOINT"
  const ApiVersionVar := "AZUREAI_API_VERSION"
  const DeploymentNameVar := "AZUREAI_DEPLOYMENT_NAME"
  const ModelVar := "AZUREAI_MODEL"
  const DefaultApiVersion := "2024-12-01-preview"
  const DefaultModelName := "gpt-4o"

  /** Process environment: variable name to value. */
  type Env = map<string, string>

  /** The optional constructor arguments. */
  datatype Settings = Settings(
    apiKey: Option<string>,
    endpoint: Option<string>,
    apiVersion: Option<string>,
    deploymentName: Option<string>,
    modelName: Option<string>)

  const NoSettings := Settings(None, None, None, None, None)

  /** A constructed client; its fields never change after construction. */
  datatype AzureOpenAIClient = AzureOpenAIClient(
    apiKey: string,
    endpoint: string,
    apiVersion: string,
    deploymentName: string,
    modelName: string)

  /** The ValueErrors of `__init__`, and the SDK refusing its arguments. */
  datatype ConfigError = MissingApiKey | MissingEndpoint | MissingDeploymentName | SdkRejected

  /** Python truthiness of an optional string. */
  predicate Truthy(o: Option<string>) {
    o.Some? && o.value != []
  }

  /** `os.getenv(name)`. */
  function GetEnv(env: Env, name: string): Option<string> {
    if name in env then Some(env[name]) else None
  }

  /** `arg or os.getenv(name)`. */
  function ArgOrEnv(arg: Option<string>, env: Env, name: string): (r: Option<string>)
    ensures Truthy(arg) ==> r == arg
    ensures !Truthy(arg) ==> r == GetEnv(env, name)
  {
    if Truthy(arg) then arg else GetEnv(env, name)
  }

  /** `arg or os.getenv(name, default)`: the default is used only when the variable is unset. */
  function ArgOrEnvDefault(arg: Option<string>, env: Env, name: string, default: string): (r: string)
    ensures Truthy(arg) ==> r == arg.value
    ensures !Truthy(arg) && name in env ==> r == env[name]
    ensures !Truthy(arg) && name !in env ==> r == default
  {
    if Truthy(arg) then arg.value else if name in env then env[name] else default
  }

  /**
   * `AzureOpenAIClient.__init__`: each setting from its argument if truthy, else
   * from the environment; the key, endpoint and deployment are then checked in
   * that order. `sdkAccepts` says whether the SDK constructor returns normally.
   */
  function NewClient(settings: Settings, env: Env, sdkAccepts: bool): (r: Result<AzureOpenAIClient, ConfigError>)
    ensures !Truthy(ArgOrEnv(settings.apiKey, env, ApiKeyVar)) <==> r == Failure(MissingApiKey)
    ensures r == Failure(MissingEndpoint)
        <==> Truthy(ArgOrEnv(settings.apiKey, env, ApiKeyVar)) && !Truthy(ArgOrEnv(settings.endpoint, env, EndpointVar))
    ensures r == Failure(MissingDeploymentName)
        <==> && Truthy(ArgOrEnv(settings.apiKey, env, ApiKeyVar))
             && Truthy(ArgOrEnv(settings.endpoint, env, EndpointVar))
             && !Truthy(ArgOrEnv(settings.deploymentName, env, DeploymentNameVar))
    ensures r.Success? <==>
      && Truthy(ArgOrEnv(settings.apiKey, env, ApiKeyVar))
      && Truthy(ArgOrEnv(settings.endpoint, env, EndpointVar))
      && Truthy(ArgOrEnv(settings.deploymentName, env, DeploymentNameVar))
      && sdkAccepts
    ensures r.Success? ==>
      && Some(r.value.apiKey) == ArgOrEnv(settings.apiKey, env, ApiKeyVar)
      && Some(r.value.endpoint) == ArgOrEnv(settings.endpoint, env, EndpointVar)
      && Some(r.value.deploymentName) == ArgOrEnv(settings.deploymentName, env, DeploymentNameVar)
      && r.value.apiVersion == ArgOrEnvDefault(settings.apiVersion, env, ApiVersionVar, DefaultApiVersion)
      && r.value.modelName == ArgOrEnvDefault(settings.modelName, env, ModelVar, DefaultModelName)
  {
    var apiKey := ArgOrEnv(settings.apiKey, env, ApiKeyVar);
    var endpoint := ArgOrEnv(settings.endpoint, env, EndpointVar);
    var apiVersion := ArgOrEnvDefault(settings.apiVersion, env, ApiVersionVar, DefaultApiVersion);
    var deploymentName := ArgOrEnv(settings.deploymentName, env, DeploymentNameVar);
    var modelName := ArgOrEnvDefault(settings.modelName, env, ModelVar, DefaultModelName);
    if !Truthy(apiKey) then Failure(MissingApiKey)
    else if !Truthy(endpoint) then Failure(MissingEndpoint)
    else if !Truthy(deploymentName) then Failure(MissingDeploymentName)
    else if !sdkAccepts then Failure(SdkRejected)
    else Success(AzureOpenAIClient(apiKey.value, endpoint.value, apiVersion, deploymentName.value, modelName))
  }

  /** A successfully built client holds non-empty key, endpoint and deployment name. */
  predicate ValidClient(c: AzureOpenAIClient) {
    c.apiKey != [] && c.endpoint != [] && c.deploymentName != []
  }

  lemma NewClientIsValid(settings: Settings, env: Env, sdkAccepts: bool)
    requires NewClient(settings, env, sdkAccepts).Success?
    ensures ValidClient(NewClient(settings, env, sdkAccepts).value)
  {
  }

  /** With nothing passed and the variables unset, the version and model fall back to their defaults. */
  lemma DefaultsWhenUnset(env: Env, sdkAccepts: bool)
    requires ApiVersionVar !in env && ModelVar !in env
    requires NewClient(NoSettings, env, sdkAccepts).Success?
    ensures NewClient(NoSettings, env, sdkAccepts).value.apiVersion == DefaultApiVersion
    ensures NewClient(NoSettings, env, sdkAccepts).value.modelName == DefaultModelName
  {
  }

  /** A variable that is set, even to the empty string, wins over the default. */
  lemma SetVariableBeatsDefault(env: Env, sdkAccepts: bool)
    requires ApiVersionVar in env
    requires NewClient(NoSettings, env, sdkAccepts).Success?
    ensures NewClient(NoSettings, env, sdkAccepts).value.apiVersion == env[ApiVersionVar]
  {
  }

  // ---------------------------------------------------------------------------
  // Chat completions
  // ---------------------------------------------------------------------------

  datatype Role = System | User
  datatype Message = Message(role: Role, content: string)

  /** The arguments of `client.chat.completions.create`. */
  datatype ChatRequest = ChatRequest(model: string, messages: seq<Message>, maxTokens: int, temperature: real, topP: real)

  /** What the SDK call does: raise, or return a response with the content of each choice. */
  datatype ChatOutcome = Raised | Response(choices: seq<Option<string>>)

  /** The request chat_completion sends: the given deployment if truthy, the client's otherwise. */
  function CompletionRequest(client: AzureOpenAIClient, messages: seq<Message>, deployment: Option<string>,
                             maxTokens: int, temperature: real, topP: real): (r: ChatRequest)
    ensures Truthy(deployment) ==> r.model == deployment.value
    ensures !Truthy(deployment) ==> r.model == client.deploymentName
    ensures r.messages == messages && r.maxTokens == maxTokens && r.temperature == temperature && r.topP == topP
  {
    ChatRequest(if Truthy(deployment) then deployment.value else client.deploymentName,
                messages, maxTokens, temperature, topP)
  }

  /** chat_completion: the SDK's response, or None if the call raised. */
  function ChatCompletion(client: AzureOpenAIClient, messages: seq<Message>, deployment: Option<string>,
                          maxTokens: int, temperature: real, topP: real,
                          api: ChatRequest -> ChatOutcome): (r: Option<seq<Option<string>>>)
    ensures var outcome := api(CompletionRequest(client, messages, deployment, maxTokens, temperature, topP));
            && (outcome.Raised? <==> r.None?)
            && (outcome.Response? ==> r == Some(outcome.choices))
  {
    match api(CompletionRequest(client, messages, deployment, maxTokens, temperature, topP))
    case Raised => None
    case Response(choices) => Some(choices)
  }

  /** The messages simple_chat sends: the system message, then the user's prompt. */
  function ChatMessages(systemMessage: string, prompt: string): (m: seq<Message>)
    ensures |m| == 2 && m[0].role == System && m[1].role == User
    ensures m[0].content == systemMessage && m[1].content == prompt
  {
    [Message(System, systemMessage), Message(User, prompt)]
  }

  /** `response.choices[0]` on a response without choices. */
  datatype ChatError = NoChoices

  /**
   * simple_chat: None when chat_completion gave None, otherwise the first
   * choice's content (itself possibly None); a response without choices raises.
   */
  function SimpleChat(client: AzureOpenAIClient, prompt: string, deployment: Option<string>, systemMessage: string,
                      maxTokens: int, temperature: real, api: ChatRequest -> ChatOutcome): (r: Result<Option<string>, ChatError>)
    ensures var outcome := api(CompletionRequest(client, ChatMessages(systemMessage, prompt), deployment, maxTokens, temperature, 1.0));
            && (outcome.Raised? ==> r == Success(None))
            && (outcome.Response? && outcome.choices == [] ==> r == Failure(NoChoices))
            && (outcome.Response? && outcome.choices != [] ==> r == Success(outcome.choices[0]))
  {
    match ChatCompletion(client, ChatMessages(systemMessage, prompt), deployment, maxTokens, temperature, 1.0, api)
    case None => Success(None)
    case Some(choices) => if choices == [] then Failure(NoChoices) else Success(choices[0])
  }

  /**
   * The sanity check shared by both Azure enhancement paths: a reply is taken,
   * stripped, only if it is non-empty and its unstripped length is below three
   * times the input's; otherwise the input comes back.
   */
  function GuardAzureReply(text: string, reply: Option<string>): (r: string)
    ensures reply.Some? && reply.value != [] && |reply.value| < 3 * |text| ==> r == Strip(reply.value)
    ensures !(reply.Some? && reply.value != [] && |reply.value| < 3 * |text|) ==> r == text
  {
    if reply.Some? && reply.value != [] && |reply.value| < 3 * |text| then Strip(reply.value) else text
  }

  /** Whatever comes back is the input or a stripped text shorter than three times the input. */
  lemma GuardAzureReplyBounded(text: string, reply: Option<string>)
    ensures var r := GuardAzureReply(text, reply);
            r == text || (IsStripped(r) && |r| < 3 * |text|)
  {
    if reply.Some? {
      StripFacts(reply.value);
    }
  }

  /** Because the length test looks at the unstripped reply, a whitespace-only reply yields "". */
  lemma WhitespaceReplyGivesEmpty(text: string, reply: string)
    requires reply != [] && AllSpace(reply) && |reply| < 3 * |text|
    ensures GuardAzureReply(text, Some(reply)) == []
  {
    StripEmptyIff(reply);
  }

  /** The system message of enhance_text: three lines, joined by newlines. */
  const EnhanceTextSystemMessage :=
    "Please fix any punctuation errors and rewrite the following text for brevity and clarity while preserving the original meaning. Specifically,\n"
    + "substitute 'Christy' to 'Christie', 'Bradon' to 'Braden', and 'Jorrell' or 'Jarell' to 'Jorel'. Return *only* ASCII characters. Do not include any\n"
    + "non-ASCII characters in the output. **ONLY use the following punctuation characters**: . , ? ! ; : ' \" ( ) [ ] { } < > / \\ - _ = + * & ^ % $ # @ ~ ` |"

  /** enhance_text: the guarded reply of a simple_chat at temperature 0.3 and at most 250 tokens; the input on any failure. */
  function EnhanceText(client: AzureOpenAIClient, text: string, deployment: Option<string>,
                       api: ChatRequest -> ChatOutcome): (r: string)
    ensures var reply := SimpleChat(client, text, deployment, EnhanceTextSystemMessage, 250, 0.3, api);
            && (reply.Failure? ==> r == text)
            && (reply.Success? ==> r == GuardAzureReply(text, reply.value))
  {
    match SimpleChat(client, text, deployment, EnhanceTextSystemMessage, 250, 0.3, api)
    case Failure(_) => text
    case Success(reply) => GuardAzureReply(text, reply)
  }

  /** get_client_info: endpoint, version, deployment and model; the API key is never among the keys. */
  function GetClientInfo(c: AzureOpenAIClient): (info: map<string, string>)
    ensures info.Keys == {"endpoint", "api_version", "deployment_name", "model_name"}
    ensures "api_key" !in info
    ensures info["endpoint"] == c.endpoint && info["api_version"] == c.apiVersion
    ensures info["deployment_name"] == c.deploymentName && info["model_name"] == c.modelName
  {
    map["endpoint" := c.endpoint, "api_version" := c.apiVersion,
        "deployment_name" := c.deploymentName, "model_name" := c.modelName]
  }

  /** The information does not depend on the key at all. */
  lemma ClientInfoIndependentOfKey(c: AzureOpenAIClient, otherKey: string)
    ensures GetClientInfo(c) == GetClientInfo(c.(apiKey := otherKey))
  {
  }
}
