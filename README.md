# Tyni-Wispr in Dafny

Tyni-Wispr is a push-to-talk dictation tool. While a hotkey is held, it records
16 kHz mono int16 audio from the microphone. When the hotkey is released, it:

1. turns the captured chunks into normalised float samples;
2. transcribes them with a Whisper model;
3. optionally rewrites the transcript with an LLM (a local Ollama server or Azure OpenAI);
4. post-processes it (whole-word name corrections from a JSON table, an
   optional LanguageTool pass, a capitalised first letter);
5. types the result, followed by one space, into the active window.

Escape cancels a recording. An overlay shows the recording and transcribing
phases. Ctrl-C ends the program.

This project models, in Dafny:

- **the package pipeline** (`tyni_wispr/`):
  - the corrections loader and post-processor (module `Utils`; `re.sub` with `\b`
    word boundaries is modelled as a left-to-right scan for non-overlapping
    whole-word matches);
  - the Azure OpenAI wrapper (`AzureClient`);
  - the enhancer class (`Enhancement.LLMEnhancer`);
  - the model loaders (`Models`);
  - the audio recorder class (`Audio.AudioRecorder`);
  - the transcript assembly (`Transcription`);
  - the hotkey loop of `main` (`MainLoop`). It is written as imperative
    methods over the recorder object and proved against functional
    specifications of one cycle and of the whole run.
- **the older single-file script** `tyni-wispr.py` (`LegacyScript`):
  - its press-to-start / press-to-stop loop over a closure-state session object;
  - its own transcript cleaning and performance-log condition;
  - its exception handling, which never leaves the loop.
- **the requirements parsing in `setup.py`** (`Setup`): a loop that sorts
  `requirements.txt` lines into regular requirements, PyTorch requirements
  and extra index URLs. PyTorch is installed as a regular requirement only
  when there is no extra index URL.

Python `str.strip`, `isspace`, `upper` and `startswith` are modelled once, in
`Text`. `Option` and `Result` are in `Wrappers`.

Everything outside the process is a parameter:

- the remote services (the Azure chat API, Ollama's generate endpoint,
  LanguageTool) are functions from request to outcome;
- probes (Ollama's tag list, whether the SDK accepts the client settings,
  whether CUDA is present, whether a model loads on a device) are plain values;
- the keyboard is a sequence of polls;
- the microphone is the chunks that the stream callback delivers.

The observable behaviour of a run is a trace of effects:

- overlay shown and hidden;
- calls to the enhancer and the post-processor;
- performance log rows;
- text typed.

## Model

| member | source | states |
|---|---|---|
| Text.Strip | tyni_wispr/utils.py:102 | `str.strip()`: the leading whitespace is removed, then the trailing whitespace (TrimLeft, then TrimRight); StripFacts, StripEmptyIff and StripIdempotent state what it gives |
| Text.StripFacts | tyni_wispr/utils.py:102 | `strip()` leaves no leading or trailing whitespace and never lengthens the text |
| Text.StripEmptyIff | tyni_wispr/utils.py:102-106 | the stripped text is empty exactly when the text is all whitespace |
| Text.StripIdempotent | tyni_wispr/utils.py:102 | stripping twice is stripping once |
| Text.UpperChar | tyni_wispr/utils.py:127 | `upper()` on one character maps a-z to A-Z (code point minus 32) and leaves every other character alone |
| Text.UpperFirst | tyni_wispr/utils.py:127 | `text[0].upper() + text[1:]` keeps the length and the tail and upper-cases only the first character |
| Utils.LoadCorrections | tyni_wispr/utils.py:54-89 | a file that parses to a JSON object gives that object's entries; a missing, unparsable or non-object file gives the default table `{"  ": " "}` |
| Utils.SubstituteFrom | tyni_wispr/utils.py:114 | `re.sub(r'\b' + re.escape(key) + r'\b', value, t)` from position p on: at a whole-word match the value is emitted and the match skipped; an empty key matches at every word boundary, with one character copied after it; every other character is copied |
| Utils.ReplaceWord | tyni_wispr/utils.py:114 | one correction on the whole text: SubstituteFrom from position 0, for a value without backslashes |
| Utils.ApplyCorrections | tyni_wispr/utils.py:112-114 | the loop over `corrections.items()`: each entry's ReplaceWord is applied to the previous entry's output, in table order |
| Utils.CopyUntilMatch | tyni_wispr/utils.py:114 | the substitution copies unchanged every position where no whole-word match starts |
| Utils.NoWholeWordUnchanged | tyni_wispr/utils.py:114 | with no whole-word occurrence of the key, the replacement leaves the text unchanged |
| Utils.NoMatchInLongerWord | tyni_wispr/utils.py:113-114 | a key that is only the prefix of a longer word has no whole-word match there |
| Utils.PrefixOfLongerWordUntouched | tyni_wispr/utils.py:113-114 | in "key keyXYZ" only the standalone key is replaced; the longer word is left as it was |
| Utils.ChristyExample | tyni_wispr/utils.py:113-114 | correcting "Christy" to "Christie" turns "Christy Christyson" into "Christie Christyson" |
| Utils.ApplyCorrectionsAppend | tyni_wispr/utils.py:112-114 | applying two tables one after the other is applying their concatenation: corrections run in table order, each on the previous one's output |
| Utils.ApplyCorrectionsStep | tyni_wispr/utils.py:112-114 | after k+1 entries the text is the k-entry result with entry k's whole-word replacement applied |
| Utils.DefaultTableCollapsesOnlyDoubleSpaces | tyni_wispr/utils.py:64-114 | with the default table, exactly two spaces between words become one; one space, or three or more, are left unchanged |
| Utils.GrammarPass | tyni_wispr/utils.py:117-124 | LanguageTool's correction replaces the text when it succeeds; when it fails, the text is kept |
| Utils.Capitalise | tyni_wispr/utils.py:127 | raises IndexError exactly on the empty text; otherwise upper-cases the first character and keeps the rest and the length |
| Utils.PostProcessResult | tyni_wispr/utils.py:91-129 | post_process_transcription as a value: "" for a blank text; otherwise Capitalise of GrammarPass of ApplyCorrections of the loaded table on the stripped text |
| Utils.PostProcessTranscription | tyni_wispr/utils.py:91-129 | the method's steps give the result of strip, empty check, corrections, grammar pass and capitalisation, in that order |
| Utils.BlankInputGivesEmpty | tyni_wispr/utils.py:102-106 | an all-whitespace transcript gives "" without loading corrections |
| Utils.LanguageToolFailureKeepsCorrectedText | tyni_wispr/utils.py:112-127 | when LanguageTool always fails, the result is the corrected stripped text, capitalised |
| Utils.ResultStartsUpper | tyni_wispr/utils.py:126-127 | a non-empty post-processed result never starts with a lower-case ASCII letter |
| Utils.CorrectionToEmptyRaises | tyni_wispr/utils.py:105-127 | the empty check runs before the corrections: "um" with the correction um -> "" raises IndexError at the capitalisation |
| AzureClient.ArgOrEnv | tyni_wispr/azure_openai_client.py:42-45 | a truthy argument wins; otherwise the environment variable is used (absent when unset) |
| AzureClient.ArgOrEnvDefault | tyni_wispr/azure_openai_client.py:44-46 | a truthy argument wins, then a set environment variable, then the default |
| AzureClient.NewClient | tyni_wispr/azure_openai_client.py:24-63 | the missing-key, missing-endpoint and missing-deployment errors each hold exactly under their condition, checked in that order; success holds exactly when all three are truthy and the SDK accepts them; a client keeps the resolved values |
| AzureClient.NewClientIsValid | tyni_wispr/azure_openai_client.py:48-56 | every client that was built has a non-empty key, endpoint and deployment name |
| AzureClient.DefaultsWhenUnset | tyni_wispr/azure_openai_client.py:44-46 | with the variables unset, the API version is 2024-12-01-preview and the model is gpt-4o |
| AzureClient.SetVariableBeatsDefault | tyni_wispr/azure_openai_client.py:44 | a set AZUREAI_API_VERSION overrides the default version |
| AzureClient.CompletionRequest | tyni_wispr/azure_openai_client.py:89-95 | the request goes to the given deployment when it is truthy, else to the client's deployment; messages and sampling parameters are passed unchanged |
| AzureClient.ChatCompletion | tyni_wispr/azure_openai_client.py:65-100 | an exception from the API gives None; a response gives its choices |
| AzureClient.ChatMessages | tyni_wispr/azure_openai_client.py:121-124 | exactly two messages: the system message, then the user prompt |
| AzureClient.SimpleChat | tyni_wispr/azure_openai_client.py:102-129 | a failed completion gives None; a response without choices raises; otherwise the first choice's content |
| AzureClient.GuardAzureReply | tyni_wispr/azure_openai_client.py:167-173 | a non-empty reply shorter than three times the input is returned stripped; otherwise the input |
| AzureClient.GuardAzureReplyBounded | tyni_wispr/azure_openai_client.py:167-173 | the result is the input, or stripped text shorter than three times the input |
| AzureClient.WhitespaceReplyGivesEmpty | tyni_wispr/azure_openai_client.py:167-168 | because the length test looks at the unstripped reply, a short whitespace-only reply gives "" |
| AzureClient.EnhanceText | tyni_wispr/azure_openai_client.py:131-173 | the guarded reply of a chat at temperature 0.3 and at most 250 tokens; the input when the chat raises |
| AzureClient.GetClientInfo | tyni_wispr/azure_openai_client.py:175-182 | exactly the endpoint, API version, deployment and model keys with the client's values; the key is never included |
| AzureClient.ClientInfoIndependentOfKey | tyni_wispr/azure_openai_client.py:175-182 | changing the API key does not change the client info |
| Enhancement.LLMEnhancer.ForOllama | tyni_wispr/enhancement.py:11-30 | sets the model and base URL; the enhancer starts with Ollama unavailable and no Azure client |
| Enhancement.LLMEnhancer.ForAzureOpenAI | tyni_wispr/enhancement.py:33-67 | Azure is available exactly when the client is built, and then the client is kept; no Ollama settings |
| Enhancement.LLMEnhancer.IsOllamaRunning | tyni_wispr/enhancement.py:69-102 | true exactly for a 200 tag list that names the configured model; the flag records the answer |
| Enhancement.EnhanceAzureOpenAI | tyni_wispr/enhancement.py:112-143 | without an available client the input comes back; otherwise `simple_chat` is called with the source's system message, at temperature 0.3 and at most 250 tokens; a chat that raises gives the input and a reply goes through GuardAzureReply, so the result is the input or stripped text shorter than three times it |
| Enhancement.OllamaRequest | tyni_wispr/enhancement.py:159-171 | POST to base URL + /api/generate with the model, the source's three-sentence instruction, a blank line and the text; no streaming, temperature 0.3, 150 tokens |
| Enhancement.GuardOllamaReply | tyni_wispr/enhancement.py:177-180 | the stripped reply is kept when non-empty and shorter than three times the input; otherwise the input |
| Enhancement.GuardOllamaReplyFacts | tyni_wispr/enhancement.py:177-180 | a non-empty input never gives "", and anything other than the input is stripped, non-empty and shorter than three times the input |
| Enhancement.GuardOllamaBoundary | tyni_wispr/enhancement.py:179 | for a ten-character input, a 29-character reply is kept and a 30-character one is refused |
| Enhancement.EnhanceOllama | tyni_wispr/enhancement.py:145-189 | unavailable Ollama gives the input; otherwise a 200 response with a readable body gives GuardOllamaReply of its `response` field, and every other outcome (another status, an unreadable body, a connection error, a timeout) gives the input; the result is the input or stripped, non-empty text shorter than three times it |
| Enhancement.Enhance | tyni_wispr/enhancement.py:104-110 | an available Azure client is used first, then an available Ollama; with neither, enhance raises RuntimeError, and only then |
| Models.LoadWhisper | tyni_wispr/models.py:7-38 | with CUDA the GPU is tried first and the CPU only after it fails; without CUDA only the CPU; the device loaded is the last one tried |
| Models.LoadEnhancerLLM | tyni_wispr/models.py:40-80 | an enhancer is returned exactly when Ollama was asked for and runs, or failing that, Azure was asked for and is configured; Ollama takes precedence, and the enhancer returned can always enhance |
| Models.TextAttribute | tyni_wispr/models.py:65 | reading an attribute that the parser did not define raises AttributeError |
| Models.EnhancerOptionsFromArgs | tyni_wispr/models.py:64-73 | reading the options the parser defines (ollama_url) never fails and copies the flags, model and URL |
| Models.OllamaFlagRaisesAsWritten | tyni_wispr/models.py:65 | as written, `-e` (`--llm-enhance-ollama`) makes `load_enhancer_llm` raise AttributeError for `ollama_base_url` |
| Audio.FlattenAppend | tyni_wispr/audio.py:57 | concatenating two buffers concatenates their samples |
| Audio.FlattenLength | tyni_wispr/audio.py:57-60 | a buffer of c-channel frames flattens to frames times c samples |
| Audio.Normalize | tyni_wispr/audio.py:59 | each sample is divided by 32768, so every value lies in [-1, 1) and keeps its position |
| Audio.NormalizeAppend | tyni_wispr/audio.py:59 | normalising is element-wise, so it distributes over concatenation |
| Audio.ReadAudioFromBuffer | tyni-wispr.py:286-303 | the samples are the concatenated chunks scaled by 1/32768, and the duration is their count over the sample rate |
| Audio.Duration | tyni_wispr/audio.py:62 | the duration times the sample rate is the sample count |
| Audio.ReadAudioLength | tyni_wispr/audio.py:57-62 | the sample count is frames times channels, and the duration follows from it |
| Audio.ReadAudioAppend | tyni_wispr/audio.py:57-60 | the audio of two buffers read together is the audio of each, concatenated |
| Audio.AudioRecorder.constructor | tyni_wispr/audio.py:9-14 | keeps the sample rate and channels; empty buffer, not recording, no stream |
| Audio.AudioRecorder.StartStream | tyni_wispr/audio.py:16-24 | the stream is running; buffer and recording flag unchanged |
| Audio.AudioRecorder.StopStream | tyni_wispr/audio.py:26-30 | a stream that exists is closed; without one nothing happens |
| Audio.AudioRecorder.StartRecording | tyni_wispr/audio.py:32-35 | the buffer is emptied and recording is on |
| Audio.AudioRecorder.StopRecording | tyni_wispr/audio.py:37-40 | recording is off and the buffer, unchanged, is returned |
| Audio.AudioRecorder.AudioCallback | tyni_wispr/audio.py:42-45 | a chunk is appended exactly when recording; nothing else changes |
| Audio.AudioRecorder.Deliver | tyni_wispr/audio.py:42-45 | a run of callbacks appends all their chunks, in order, exactly when recording |
| Audio.AudioRecorder.ProcessAudioBuffer | tyni_wispr/audio.py:47-63 | an empty buffer gives (None, 0); otherwise the buffer's normalised samples and duration |
| Transcription.Join | tyni_wispr/transcription.py:18 | `" ".join(texts)`: the segment texts with one space between neighbours; JoinLength, JoinPart and JoinSeparator state its layout |
| Transcription.JoinLength | tyni_wispr/transcription.py:18 | a join is the parts' lengths plus one separator between each pair of neighbours |
| Transcription.JoinPart | tyni_wispr/transcription.py:18 | part i appears verbatim at its offset in the joined text |
| Transcription.JoinSeparator | tyni_wispr/transcription.py:18 | the character before every later part is the separating space |
| Transcription.JoinSnoc | tyni_wispr/transcription.py:18 | one more segment adds a space and its text |
| Transcription.TranscribeAudio | tyni_wispr/transcription.py:4-28 | segments give their stripped join; out-of-memory re-raises after clearing the cache exactly when CUDA is available; other errors re-raise |
| Transcription.TranscriptStripped | tyni_wispr/transcription.py:18 | a transcript never starts or ends with whitespace, and no segments give "" |
| Transcription.EmptyTranscriptIff | tyni_wispr/transcription.py:18 | the transcript is empty exactly when the joined segments are all whitespace |
| Transcription.LeadingSpaceSegments | tyni_wispr/transcription.py:18 | two segments " a" and " b" give "a  b": the join adds a second space between them |
| MainLoop.FirstBreak | tyni_wispr/main.py:62-71 | the poll that ends recording is the first one that sees cancel or a released hotkey |
| MainLoop.PollUntilRelease | tyni_wispr/main.py:62-71 | the poll loop stops at the first break, reports whether it was a cancel, and the buffer holds exactly the chunks delivered until then |
| MainLoop.FinishSpec | tyni_wispr/main.py:122-140 | post-processing is called first; its failure aborts the cycle; otherwise the cycle completes with the post-processed text |
| MainLoop.FinishCycle | tyni_wispr/main.py:122-140 | the method produces FinishSpec's outcome and effects |
| MainLoop.TranscriptSpec | tyni_wispr/main.py:105-140 | an empty transcript ends the cycle; otherwise it is enhanced and finished |
| MainLoop.ProcessTranscript | tyni_wispr/main.py:105-140 | the method produces TranscriptSpec's outcome and effects |
| MainLoop.CaptureSpec | tyni_wispr/main.py:85-140 | the transcribing overlay comes first; an empty buffer ends the cycle with "no audio" |
| MainLoop.TranscribeCaptured | tyni_wispr/main.py:85-140 | the method produces CaptureSpec's outcome and effects for the recorder's buffer |
| MainLoop.RunCycle | tyni_wispr/main.py:52-140 | one press-to-release cycle produces CycleSpec's outcome and effects; the recorder keeps its stream and holds the captured chunks |
| MainLoop.CycleSpec | tyni_wispr/main.py:52-140 | one iteration of the outer loop as a value: the recording overlay, then still recording (no poll broke), cancelled (overlay hidden) or, after hiding the overlay, the captured buffer handed to CaptureSpec |
| MainLoop.CycleStages | tyni_wispr/main.py:57-94 | a cycle is still recording, cancelled or empty exactly under its poll and buffer conditions, and always shows the recording overlay first |
| MainLoop.CanceledCycleDoesNothing | tyni_wispr/main.py:74-79 | a cancelled cycle only shows and hides the overlay |
| MainLoop.EmptyBufferSkipsTranscription | tyni_wispr/main.py:88-94 | an empty buffer shows the transcribing overlay, hides it, and does nothing else |
| MainLoop.EmptyTranscriptSkipsTheRest | tyni_wispr/main.py:105-107 | an empty transcript hides the overlay and never enhances, post-processes, logs or types |
| MainLoop.EnhancerCalledOnlyWhenPresent | tyni_wispr/main.py:111-122 | the enhancer is called exactly when there is one and the text is non-empty, and post-processing gets its output |
| MainLoop.LogRecordsPostProcessedLength | tyni_wispr/main.py:129-130 | a log row appears exactly when logging is on, and it records the post-processed length |
| MainLoop.TypedTextIsPostProcessedPlusSpace | tyni_wispr/main.py:133-140 | the overlay is hidden before typing, and the text typed is the non-empty post-processed text plus one space |
| MainLoop.PostProcessFailureStopsTheCycle | tyni_wispr/main.py:122 | a post-processing exception ends the cycle right after the call |
| MainLoop.UsableEnhancerNeverRaises | tyni_wispr/main.py:111-113 | an enhancer from load_enhancer_llm never makes a cycle raise |
| MainLoop.Combine | tyni_wispr/main.py:51-143 | how the cycles make up the run: their effects are concatenated until a cycle raises (the run crashes with its error) or is never released (the interrupt); the end of the input stands for the interrupt |
| MainLoop.LoopSpec | tyni_wispr/main.py:42-143 | the try block as a value: Combine of every cycle's CycleSpec |
| MainLoop.CombineStep | tyni_wispr/main.py:51-143 | a cycle that raises or is interrupted ends the loop with its effects; any other cycle is followed by the rest |
| MainLoop.CombineCrash | tyni_wispr/main.py:51-143 | a crash is the error of the first raising cycle, and no raising cycle means an interrupt |
| MainLoop.CrashIsFirstRaise | tyni_wispr/main.py:51-143 | the run crashes with the first cycle error, after only finished cycles; with no error it ends at the interrupt |
| MainLoop.RunLoop | tyni_wispr/main.py:42-143 | the loop's exit and effects are LoopSpec's for the cycles |
| MainLoop.RunApp | tyni_wispr/main.py:13-146 | the enhancer options are read from the parsed arguments through the corrected `ollama_url` lookup; enhancer, then Whisper; a load failure ends before the stream; otherwise the loop runs on a 16 kHz mono recorder, the overlay is hidden last and the stream is closed |
| LegacyScript.CleanTranscript | tyni-wispr.py:322-327 | "" exactly for an all-whitespace text; otherwise the stripped text with its first character upper-cased |
| LegacyScript.CleanTranscriptFacts | tyni-wispr.py:322-327 | a non-empty cleaned transcript is stripped and does not start in lower case |
| LegacyScript.CleanTranscriptIdempotent | tyni-wispr.py:322-327 | cleaning a cleaned transcript changes nothing |
| LegacyScript.TranscribeAudio | tyni-wispr.py:305-336 | returns the cleaned text; a log row exists exactly for non-empty text with logging on and model and duration given, and it records the model, length and duration |
| LegacyScript.WhisperEffects | tyni-wispr.py:106-118 | the try/except as a value: the log row and the cleaned text typed with a space; out-of-memory reported, with the cache cleared on cuda; any other error reported; nothing escapes |
| LegacyScript.ProcessSpec | tyni-wispr.py:103-120 | the empty-buffer warning, or the model called on the buffer's audio followed by WhisperEffects for its duration |
| LegacyScript.ScriptSpec | tyni-wispr.py:90-123 | the toggle loop as a value: each cycle stopped by a second press adds ProcessSpec of what it recorded; an interrupt while recording ends the run |
| LegacyScript.TypedTranscriptAllowed | tyni-wispr.py:109-110 | typed text is a non-empty stripped transcript that does not start in lower case, plus one space |
| LegacyScript.WhisperEffectsAllowed | tyni-wispr.py:106-118 | whatever the model does, the effects that follow are allowed; the cache is cleared only on cuda |
| LegacyScript.ProcessSpecFacts | tyni-wispr.py:103-120 | an empty buffer gives only the warning; otherwise the model is called first on the buffer's audio |
| LegacyScript.ScriptEffectsAllowed | tyni-wispr.py:90-123 | every effect of a whole run is allowed |
| LegacyScript.ToggleSession.constructor | tyni-wispr.py:68-71 | empty buffer, not recording, no stream |
| LegacyScript.ToggleSession.RecordAudioBuffer | tyni-wispr.py:73-84 | a chunk is appended exactly when recording |
| LegacyScript.ToggleSession.Deliver | tyni-wispr.py:73-84 | a run of callbacks appends all their chunks exactly when recording |
| LegacyScript.HandleWhisper | tyni-wispr.py:106-118 | the try/except produces WhisperEffects: log and type, or report out-of-memory (clearing the cache on cuda), or report the error |
| LegacyScript.ProcessBuffer | tyni-wispr.py:103-120 | the buffer branch produces ProcessSpec |
| LegacyScript.RunScript | tyni-wispr.py:87-127 | the loop's effects are ScriptSpec's; the stream is closed at the end |
| Setup.ClassifyLine | setup.py:17-27 | one line's branch: the line is stripped, then skipped when blank or a comment, else an index URL (the stripped rest), a torch requirement, a dropped option or a regular requirement, tested in the source's order |
| Setup.Partition | setup.py:14-27 | the three lists after the loop: each line's kind appended to its list, in file order |
| Setup.InstallRequires | setup.py:28-43 | the fallback list for a missing file; otherwise the regular requirements, followed by the torch ones only when no index URL was read |
| Setup.ClassifyLineFacts | setup.py:16-27 | a stripped line is skipped exactly when blank or a comment; regular and torch requirements are the stripped line; a URL is stripped |
| Setup.ReadRequirementLines | setup.py:14-27 | the loop's three lists are the partition of the lines |
| Setup.ParseRequirements | setup.py:14-43 | a file gives its partition, with torch appended to the requirements only without index URLs; a missing file gives the nine fallback requirements |
| Setup.CollectAppend | setup.py:16-27 | collecting classified lines distributes over concatenation |
| Setup.PartitionAppend | setup.py:16-27 | the lists of two files read one after the other are the concatenated lists |
| Setup.CollectMembership | setup.py:18-27 | a string is in each list exactly when a line of that kind carries it |
| Setup.PartitionMembership | setup.py:18-27 | a string is in each list exactly when some line classifies to that kind with it |
| Setup.PartitionPrefixes | setup.py:23-27 | regular requirements never start with "torch" and PyTorch ones always do |
| Setup.TorchInstalledIff | setup.py:41-43 | a PyTorch requirement is installed exactly when there is no extra index URL, and every regular requirement is installed |
| Setup.TorchLine | setup.py:23-25 | a stripped line starting with "torch" is a PyTorch requirement |
| Setup.TorchaudioIsTorch | setup.py:23-25 | "torchaudio" counts as a PyTorch requirement too |
| Setup.NumpyIsRegular | setup.py:26-27 | "numpy" is a regular requirement |
| Setup.OptionLine | setup.py:26 | a line starting with "--" that is not an index URL is dropped |
| Setup.UrlLine | setup.py:19-22 | an index-URL line gives the URL after the option |
| Setup.IndexUrlKeepsTorchOut | setup.py:14-43 | a file with an index URL installs the regular requirement but not the torch one |
| Setup.TorchAppendedWithoutIndexUrl | setup.py:14-43 | a file without an index URL installs torch after the regular requirements |

## Left out

- I/O is not modelled: printing, the console messages, file reading and JSON
  parsing (the parsed file is an input), writing the default corrections file,
  and the CSV writing of `log_performance` (a log row is an effect). Timing is
  not modelled either (durations appear only as the audio duration).
- The recording overlay (`ui.py`) is not part of this model. Its show and hide
  calls are trace effects.
- The sleep between polls, the keyboard wait before a press and threading are
  not modelled. Concurrency between the audio callback and the main thread is
  reduced to chunks delivered between polls.
- Utils.ReplaceWord: `\b` is modelled over an abstract word-character
  predicate. Replacement values must not contain a backslash, so that
  `re.sub`'s template escapes need not be modelled. Table values are strings;
  non-string JSON values are not modelled.
- Text.UpperChar: upper-cases the ASCII letters only, not full Unicode case
  mapping. Text.UpperFirst and Utils.Capitalise keep the length only because
  of this: Python's `"ß".upper()` is `"SS"`.
- Text.IsSpace: covers the characters Python's `str.isspace` accepts that are
  listed there (ASCII whitespace, the separators U+1C-U+1F and the Unicode space
  characters); no Unicode database is consulted.
- Audio.Normalize: uses exact real division. The float32 rounding of
  `astype(np.float32) / 32768.0` is not modelled.
- Audio.Duration: requires a positive sample rate. The source divides by the
  rate it was given, which is always 16000.
- Audio.ReadAudioFromBuffer: requires a non-empty buffer, as both of its
  callers guarantee. `np.concatenate` on an empty list raises, and that path
  is not reached.
- Enhancement.OllamaRequest: the request timeout and the HTTP transport are
  not modelled.
- The script's `load_model` (openai-whisper, `tyni-wispr.py:253-284`) follows
  the same CUDA-then-CPU policy as Models.LoadWhisper, which stands for both.
  The script's `parse_arguments` and `show_help` are argument handling and
  not modelled.
- `config.py` argument parsing is reduced to the attribute names that the
  parser defines.
- `setup()` itself and the reading of README.md for the long description are
  left out of `setup.py`. An `--extra-index-url` line with nothing after it
  still counts as an (empty) URL, as in the source.
- MainLoop.RunApp: an exception raised inside a cycle (by transcription,
  enhancement or post-processing) is not caught by the `while` loop
  (`tyni_wispr/main.py:42-143`) and ends `main` after the `finally` block; the
  model does the same.
- MainLoop.RunApp: reads the enhancer options through the corrected `ollama_url`
  lookup (Models.EnhancerOptionsFromArgs). As written, `-e` makes the call at
  `tyni_wispr/main.py:27` raise AttributeError before Whisper loads and before
  the `try`, so no `finally` runs. That raise is shown by
  Models.OllamaFlagRaisesAsWritten, and RunApp has no exit for it.
- MainLoop.RunCycle: running out of polls while the hotkey is held is a
  StillRecording outcome. It stands for the process being interrupted in that
  state.
- MainLoop.CycleSpec: the enhancer's state is a snapshot taken at load time.
  The post-processor is the abstract function that Utils models. The log row
  records only whether enhancement ran, not its duration.

## Findings

| source | as written | input that shows it | evidently intended | confidence | as-written member | corrected member |
|---|---|---|---|---|---|---|
| tyni_wispr/models.py:65 | `load_enhancer_llm` reads `args.ollama_base_url`, but the parser (`tyni_wispr/config.py:65-70`) defines `--ollama-url`, stored as `ollama_url` | running with `--llm-enhance-ollama` (`-e`, `tyni_wispr/config.py:55`) | read `args.ollama_url` (also at line 70) | not executed | Models.OllamaFlagRaisesAsWritten | Models.EnhancerOptionsFromArgs |
