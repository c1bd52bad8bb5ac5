/**
 * Model loading (tyni_wispr/models.py): the GPU-to-CPU fallback of
 * load_whisper and the backend precedence of load_enhancer_llm.
 */
module Models {
  import opened Wrappers
  import opened AzureClient
  import opened Enhancement

  datatype Device = Cuda | Cpu

  /** The devices tried, in order, and the one the model was loaded on (None: the exception propagated). */
  datatype WhisperLoad = WhisperLoad(attempts: seq<Device>, loaded: Option<Device>)

  /**
   * load_whisper: cuda when it is available, cpu otherwise; a failure on cuda is
   * retried once on cpu, a failure on cpu propagates. `loads(d)` says whether
   * constructing the model on d returns normally.
   */
  function LoadWhisper(cudaAvailable: bool, loads: Device -> bool): (r: WhisperLoad)
    ensures 1 <= |r.attempts| <= 2
    ensures r.attempts[0] == Cuda <==> cudaAvailable
    ensures Cpu in r.attempts <==> !cudaAvailable || !loads(Cuda)
    ensures r.loaded == Some(Cuda) <==> cudaAvailable && loads(Cuda)
    ensures r.loaded == Some(Cpu) <==> (!cudaAvailable || !loads(Cuda)) && loads(Cpu)
    ensures r.loaded.Some? ==> r.loaded.value == r.attempts[|r.attempts| - 1] && loads(r.loaded.value)
  {
    var first := if cudaAvailable then Cuda else Cpu;
    if loads(first) then WhisperLoad([first], Some(first))
    else if first == Cuda then WhisperLoad([Cuda, Cpu], if loads(Cpu) then Some(Cpu) else None)
    else WhisperLoad([Cpu], None)
  }

  /** The command-line options load_enhancer_llm uses. */
  datatype EnhancerOptions = EnhancerOptions(useOllama: bool, useAzure: bool, ollamaModel: string, ollamaUrl: string)

  /** The Ollama probe reports the configured model as available. */
  predicate OllamaSelected(opts: EnhancerOptions, probe: TagsOutcome) {
    && opts.useOllama
    && probe.TagsResponse? && probe.status == 200 && probe.names.Some?
    && opts.ollamaModel in probe.names.value
  }

  /** The Azure client can be built from the environment alone (for_azure_openai is called without arguments). */
  predicate AzureSelected(opts: EnhancerOptions, env: Env, sdkAccepts: bool) {
    opts.useAzure && NewClient(NoSettings, env, sdkAccepts).Success?
  }

  /**
   * load_enhancer_llm: Ollama first when its flag is set, kept iff the probe
   * finds the model; Azure only if no enhancer was obtained and its flag is set,
   * kept iff the client is available; None otherwise.
   */
  method LoadEnhancerLLM(opts: EnhancerOptions, probe: TagsOutcome, env: Env, sdkAccepts: bool)
    returns (enhancer: LLMEnhancer?)
    ensures enhancer != null ==> fresh(enhancer) && CanEnhance(enhancer.State())
    ensures enhancer == null <==> !OllamaSelected(opts, probe) && !AzureSelected(opts, env, sdkAccepts)
    ensures enhancer != null && OllamaSelected(opts, probe) ==>
      && enhancer.model == Some(opts.ollamaModel) && enhancer.baseUrl == Some(opts.ollamaUrl)
      && enhancer.ollamaAvailable && !enhancer.azureAvailable
    ensures enhancer != null && !OllamaSelected(opts, probe) ==>
      && enhancer.model == None && !enhancer.ollamaAvailable
      && enhancer.azureAvailable && enhancer.azureClient == Some(NewClient(NoSettings, env, sdkAccepts).value)
  {
    enhancer := null;
    if opts.useOllama {
      enhancer := new LLMEnhancer.ForOllama(opts.ollamaModel, opts.ollamaUrl);
      var running := enhancer.IsOllamaRunning(probe);
      if !running {
        enhancer := null;
      }
    }
    if enhancer == null && opts.useAzure {
      enhancer := new LLMEnhancer.ForAzureOpenAI(NoSettings, env, sdkAccepts);
      if !enhancer.azureAvailable {
        enhancer := null;
      }
    }
  }

  // ---------------------------------------------------------------------------
  // The attribute load_enhancer_llm reads for the Ollama URL
  // ---------------------------------------------------------------------------

  /** A value in the argparse namespace. */
  datatype ArgValue = Flag(b: bool) | Text(s: string)

  /** The attributes argparse sets for the options of tyni_wispr/config.py (the `dest` of each option). */
  const ParsedAttributes: set<string> :=
    {"model", "log_performance", "help", "silent", "llm_enhance_ollama", "ollama_model",
     "ollama_url", "llm_enhance_azure_openai", "corrections_config"}

  /** A namespace as parse_arguments returns it: exactly those attributes, flags as booleans, the rest as text. */
  predicate ParsedNamespace(ns: map<string, ArgValue>) {
    && ns.Keys == ParsedAttributes
    && (forall k | k in {"log_performance", "help", "silent", "llm_enhance_ollama", "llm_enhance_azure_openai"} :: ns[k].Flag?)
    && (forall k | k in {"model", "ollama_model", "ollama_url", "corrections_config"} :: ns[k].Text?)
  }

  /** `args.<name>` on a namespace without that attribute. */
  datatype AttributeError = AttributeError(name: string)

  /** Reading one text attribute of the namespace. */
  function TextAttribute(ns: map<string, ArgValue>, name: string): (r: Result<string, AttributeError>)
    ensures name in ns && ns[name].Text? ==> r == Success(ns[name].s)
    ensures name !in ns ==> r == Failure(AttributeError(name))
  {
    if name !in ns then Failure(AttributeError(name))
    else if ns[name].Text? then Success(ns[name].s)
    else Success([])
  }

  /** The options load_enhancer_llm gathers when it looks the URL up under `urlAttribute`. */
  function EnhancerOptionsVia(ns: map<string, ArgValue>, urlAttribute: string): Result<EnhancerOptions, AttributeError>
    requires ParsedNamespace(ns)
  {
    var useOllama := ns["llm_enhance_ollama"].b;
    var useAzure := ns["llm_enhance_azure_openai"].b;
    if !useOllama then Success(EnhancerOptions(false, useAzure, [], []))
    else
      var model := ns["ollama_model"].s;
      match TextAttribute(ns, urlAttribute)
      case Failure(e) => Failure(e)
      case Success(url) => Success(EnhancerOptions(true, useAzure, model, url))
  }

  /** As written, load_enhancer_llm reads `args.ollama_base_url`. */
  function EnhancerOptionsAsWritten(ns: map<string, ArgValue>): Result<EnhancerOptions, AttributeError>
    requires ParsedNamespace(ns)
  {
    EnhancerOptionsVia(ns, "ollama_base_url")
  }

  /** As evidently intended: the attribute argparse sets for `--ollama-url`. */
  function EnhancerOptionsFromArgs(ns: map<string, ArgValue>): (r: Result<EnhancerOptions, AttributeError>)
    requires ParsedNamespace(ns)
    ensures r.Success?
    ensures r.value.useOllama == ns["llm_enhance_ollama"].b && r.value.useAzure == ns["llm_enhance_azure_openai"].b
    ensures r.value.useOllama ==> r.value.ollamaModel == ns["ollama_model"].s && r.value.ollamaUrl == ns["ollama_url"].s
  {
    EnhancerOptionsVia(ns, "ollama_url")
  }

  /** Whenever `--llm-enhance-ollama` is given, the as-written lookup raises AttributeError before any probe. */
  lemma OllamaFlagRaisesAsWritten(ns: map<string, ArgValue>)
    requires ParsedNamespace(ns) && ns["llm_enhance_ollama"] == Flag(true)
    ensures EnhancerOptionsAsWritten(ns) == Failure(AttributeError("ollama_base_url"))
  {
    assert "ollama_base_url" !in ParsedAttributes;
  }
}
