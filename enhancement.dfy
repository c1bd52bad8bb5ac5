/**
 * LLM enhancement (tyni_wispr/enhancement.py): the two factories, the Ollama
 * probe, dispatch between the backends and the Ollama length guard.
 * HTTP calls are abstract: probe outcomes are values, generate is a function
 * from request to outcome.
 */
module Enhancement {
  import opened Wrappers
  import opened Text
  import opened AzureClient

  const DefaultOllamaModel := "gemma3:12b"
  const DefaultOllamaUrl := "http://localhost:11434"

  /** The outcome of `GET {base_url}/api/tags`; `names` is None when the body cannot be read as a model list. */
  datatype TagsOutcome =
    | TagsConnectionError
    | TagsTimeout
    | TagsOtherError
    | TagsResponse(status: int, names: Option<seq<string>>)

  /** The payload of `POST {base_url}/api/generate`. */
  datatype GenerateRequest = GenerateRequest(url: string, model: string, prompt: string, stream: bool, temperature: real, maxTokens: int)

  /**
   * The outcome of that request; `response` is the body's "response" field
   * ("" when the field is absent), None when the body cannot be read.
   */
  datatype GenerateOutcome =
    | GenerateConnectionError
    | GenerateTimeout
    | GenerateOtherError
    | GenerateResponse(status: int, response: Option<string>)

  /** `enhance` with neither backend available raises RuntimeError. */
  datatype EnhanceError = NoClientAvailable

  /** The instruction enhance_ollama puts before the text, and the system message enhance_azure_openai sends: the same three sentences. */
  const OllamaInstruction :=
    "Fix any punctuation errors and rewrite the following text to improve brevity and clarity while preserving the original meaning. "
    + "Keep slang where appropriate and only use standard ASCII characters. ONLY return revised text."
  const AzureSystemMessage := OllamaInstruction

  /** The Ollama guard: the reply is stripped first, then kept iff non-empty and shorter than three times the input. */
  function GuardOllamaReply(text: string, reply: string): (r: string)
    ensures var s := Strip(reply); s != [] && |s| < 3 * |text| ==> r == s
    ensures var s := Strip(reply); !(s != [] && |s| < 3 * |text|) ==> r == text
  {
    var s := Strip(reply);
    if s != [] && |s| < 3 * |text| then s else text
  }

  /** Unlike the Azure guard, the Ollama guard never turns non-empty input into "", and what it keeps is stripped. */
  lemma GuardOllamaReplyFacts(text: string, reply: string)
    ensures var r := GuardOllamaReply(text, reply);
            && (text != [] ==> r != [])
            && (r != text ==> IsStripped(r) && 0 < |r| < 3 * |text|)
  {
    StripFacts(reply);
  }

  /** The boundary of the guard: for a ten-character input a 29-character reply is kept and a 30-character one is not. */
  lemma GuardOllamaBoundary(text: string, reply: string)
    requires |text| == 10 && reply != [] && IsStripped(reply)
    ensures |reply| == 29 ==> GuardOllamaReply(text, reply) == reply
    ensures |reply| == 30 ==> GuardOllamaReply(text, reply) == text
  {
    StripOfStripped(reply);
  }

  /** The attributes of an LLMEnhancer, as a value: what enhance and its helpers depend on. */
  datatype EnhancerState = EnhancerState(
    model: Option<string>,
    baseUrl: Option<string>,
    ollamaAvailable: bool,
    azureClient: Option<AzureOpenAIClient>,
    azureAvailable: bool)

  /** `enhance` can only fail when neither backend is usable. */
  predicate CanEnhance(s: EnhancerState) {
    (s.azureAvailable && s.azureClient.Some?) || s.ollamaAvailable
  }

  /** The request enhance_ollama sends. */
  function OllamaRequest(s: EnhancerState, text: string): (req: GenerateRequest)
    requires s.baseUrl.Some? && s.model.Some?
    ensures req.url == s.baseUrl.value + "/api/generate" && req.model == s.model.value
    ensures req.prompt == OllamaInstruction + "\n\n" + text
    ensures !req.stream && req.temperature == 0.3 && req.maxTokens == 150
  {
    GenerateRequest(s.baseUrl.value + "/api/generate", s.model.value, OllamaInstruction + "\n\n" + text, false, 0.3, 150)
  }

  /**
   * enhance_ollama: the input unchanged when Ollama is not available or the
   * request fails; otherwise the guarded reply of a 200 response.
   */
  function EnhanceOllama(s: EnhancerState, text: string, generate: GenerateRequest -> GenerateOutcome): (r: string)
    ensures !s.ollamaAvailable ==> r == text
    ensures s.ollamaAvailable && s.baseUrl.Some? && s.model.Some? ==>
      var o := generate(OllamaRequest(s, text));
      && (o.GenerateResponse? && o.status == 200 && o.response.Some? ==> r == GuardOllamaReply(text, o.response.value))
      && (!(o.GenerateResponse? && o.status == 200 && o.response.Some?) ==> r == text)
    ensures r == text || (IsStripped(r) && r != [] && |r| < 3 * |text|)
  {
    if !s.ollamaAvailable || s.baseUrl.None? || s.model.None? then text
    else
      match generate(OllamaRequest(s, text))
      case GenerateResponse(200, Some(reply)) =>
        GuardOllamaReplyFacts(text, reply);
        GuardOllamaReply(text, reply)
      case _ => text
  }

  /**
   * enhance_azure_openai: the input unchanged when Azure is not available, the
   * chat fails or the reply fails the guard; otherwise the stripped reply.
   */
  function EnhanceAzureOpenAI(s: EnhancerState, text: string, api: ChatRequest -> ChatOutcome): (r: string)
    ensures !(s.azureAvailable && s.azureClient.Some?) ==> r == text
    ensures s.azureAvailable && s.azureClient.Some? ==>
      var reply := SimpleChat(s.azureClient.value, text, None, AzureSystemMessage, 250, 0.3, api);
      && (reply.Failure? ==> r == text)
      && (reply.Success? ==> r == GuardAzureReply(text, reply.value))
    ensures r == text || (IsStripped(r) && |r| < 3 * |text|)
  {
    if !s.azureAvailable || s.azureClient.None? then text
    else
      match SimpleChat(s.azureClient.value, text, None, AzureSystemMessage, 250, 0.3, api)
      case Failure(_) => text
      case Success(reply) =>
        GuardAzureReplyBounded(text, reply);
        GuardAzureReply(text, reply)
  }

  /** enhance: Azure if it is available with a client, else Ollama if available, else RuntimeError. */
  function Enhance(s: EnhancerState, text: string, api: ChatRequest -> ChatOutcome, generate: GenerateRequest -> GenerateOutcome)
    : (r: Result<string, EnhanceError>)
    ensures r.Failure? <==> !CanEnhance(s)
    ensures s.azureAvailable && s.azureClient.Some? ==> r == Success(EnhanceAzureOpenAI(s, text, api))
    ensures !(s.azureAvailable && s.azureClient.Some?) && s.ollamaAvailable ==> r == Success(EnhanceOllama(s, text, generate))
  {
    if s.azureAvailable && s.azureClient.Some? then Success(EnhanceAzureOpenAI(s, text, api))
    else if s.ollamaAvailable then Success(EnhanceOllama(s, text, generate))
    else Failure(NoClientAvailable)
  }

  class LLMEnhancer {
    var model: Option<string>
    var baseUrl: Option<string>
    var ollamaAvailable: bool
    var azureClient: Option<AzureOpenAIClient>
    var azureAvailable: bool

    /** for_ollama: Ollama configured but not yet probed, Azure disabled. */
    constructor ForOllama(model: string, baseUrl: string)
      ensures this.model == Some(model) && this.baseUrl == Some(baseUrl)
      ensures !ollamaAvailable
      ensures azureClient == None && !azureAvailable
    {
      this.model := Some(model);
      this.baseUrl := Some(baseUrl);
      ollamaAvailable := false;
      azureClient := None;
      azureAvailable := false;
    }

    /** for_azure_openai: Ollama disabled; Azure available iff the client could be built. */
    constructor ForAzureOpenAI(settings: Settings, env: Env, sdkAccepts: bool)
      ensures model == None && baseUrl == None && !ollamaAvailable
      ensures azureAvailable <==> NewClient(settings, env, sdkAccepts).Success?
      ensures azureAvailable ==> azureClient == Some(NewClient(settings, env, sdkAccepts).value)
      ensures !azureAvailable ==> azureClient == None
    {
      model := None;
      baseUrl := None;
      ollamaAvailable := false;
      var client := NewClient(settings, env, sdkAccepts);
      if client.Success? {
        azureClient := Some(client.value);
        azureAvailable := true;
      } else {
        azureClient := None;
        azureAvailable := false;
      }
    }

    /** The current attributes, as a value. */
    function State(): EnhancerState
      reads this
    {
      EnhancerState(model, baseUrl, ollamaAvailable, azureClient, azureAvailable)
    }

    /**
     * is_ollama_running: true, and ollama_available set, iff the probe answered
     * 200 with a model list naming the configured model; false in every other case.
     */
    method IsOllamaRunning(probe: TagsOutcome) returns (running: bool)
      modifies this`ollamaAvailable
      ensures running <==> probe.TagsResponse? && probe.status == 200 && probe.names.Some?
                           && model.Some? && model.value in probe.names.value
      ensures ollamaAvailable == running
    {
      if probe.TagsResponse? && probe.status == 200 && probe.names.Some? {
        if model.Some? && model.value in probe.names.value {
          ollamaAvailable := true;
          return true;
        }
      }
      ollamaAvailable := false;
      running := false;
    }
  }
}
