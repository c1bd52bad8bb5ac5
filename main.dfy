/**
 * The hold-to-record controller of tyni_wispr/main.py: start-up, the cycle
 * loop (record while the hotkey is held, then transcribe, enhance,
 * post-process, log and type) and the cleanup that runs on every exit.
 *
 * The keyboard, the overlay window, the CSV log and the typing are
 * abstract: each poll of the keys is an input value, and the calls the
 * program makes on its collaborators are recorded as a trace of effects.
 */
module MainLoop {
  import opened Wrappers
  import opened Text
  import opened Utils
  import opened AzureClient
  import opened Enhancement
  import opened Models
  import opened Audio
  import opened Transcription

  const SampleRate: nat := 16000
  const Channels: nat := 1

  /** One pass of the inner polling loop: the chunks the stream delivered since the previous poll, then the two key states. */
  datatype Poll = Poll(arrivals: seq<Chunk>, cancel: bool, held: bool)

  /** The poll that ends recording: cancel pressed, or the hotkey no longer held. */
  predicate Breaks(p: Poll) {
    p.cancel || !p.held
  }

  /** The index of the first poll that ends recording; |polls| when none does. */
  function FirstBreak(polls: seq<Poll>): (k: nat)
    ensures k <= |polls|
    ensures forall i | 0 <= i < k :: !Breaks(polls[i])
    ensures k < |polls| ==> Breaks(polls[k])
  {
    if polls == [] then 0
    else if Breaks(polls[0]) then 0
    else 1 + FirstBreak(polls[1..])
  }

  /** All chunks delivered during the given polls, in order. */
  function Arrived(polls: seq<Poll>): seq<Chunk> {
    if polls == [] then [] else Arrived(polls[..|polls| - 1]) + polls[|polls| - 1].arrivals
  }

  /** The chunks captured in a cycle: those delivered up to and including the poll that ends recording. */
  function Captured(polls: seq<Poll>): seq<Chunk> {
    var k := FirstBreak(polls);
    if k < |polls| then Arrived(polls[..k + 1]) else Arrived(polls)
  }

  predicate ShapedPolls(polls: seq<Poll>, channels: nat) {
    forall i | 0 <= i < |polls| :: Shaped(polls[i].arrivals, channels)
  }

  /**
   * What the collaborators do during one cycle. `postProcess` is the
   * post-processing this cycle performs, as a function of the text it is
   * given; CycleReady ties it to the corrections file and LanguageTool of the
   * cycle (the file is read again on every call).
   */
  datatype CycleInput = CycleInput(
    polls: seq<Poll>,
    transcription: TranscribeOutcome,
    corrections: CorrectionsFile,
    languageTool: string -> Option<string>,
    postProcess: string -> Result<string, PostProcessError>)

  /** postProcess is post_process_transcription on the cycle's corrections file (with literal values) and LanguageTool. */
  ghost predicate PostProcessFor(c: CycleInput, isWord: char -> bool) {
    && LiteralTable(LoadCorrections(c.corrections))
    && forall t {:trigger PostProcessResult(t, c.corrections, isWord, c.languageTool)} ::
         c.postProcess(t) == PostProcessResult(t, c.corrections, isWord, c.languageTool)
  }

  /** The inputs every cycle meets: chunks of the recorder's width, and postProcess as above. */
  ghost predicate CycleReady(c: CycleInput, channels: nat, isWord: char -> bool) {
    ShapedPolls(c.polls, channels) && PostProcessFor(c, isWord)
  }

  /** Options fixed for the whole run. */
  datatype AppConfig = AppConfig(
    logPerformance: bool,
    cudaAvailable: bool,
    isWord: char -> bool,
    api: ChatRequest -> ChatOutcome,
    generate: GenerateRequest -> GenerateOutcome)

  datatype OverlayMode = RecordingMode | TranscribingMode

  /** The calls a cycle makes on its collaborators, in order. */
  datatype Effect =
    | ShowOverlay(mode: OverlayMode)
    | HideOverlay
    | TranscribeCall(audio: seq<real>)
    | EnhanceCall(text: string)
    | PostProcessCall(text: string)
    | LogRow(textLength: nat, duration: real, enhanced: bool)
    | TypeText(text: string)

  /** An exception that escapes the cycle. */
  datatype AppError =
    | TranscribeError(t: TranscriptionError)
    | EnhancementError(e: EnhanceError)
    | PostProcessFailure(p: PostProcessError)

  datatype CycleOutcome =
    | StillRecording
    | Canceled
    | NoAudio
    | EmptyTranscript
    | Completed(text: string)
    | Aborted(error: AppError)

  /** The tail of a cycle once a non-empty transcript exists, given what post-processing returned: logging, hiding, typing. */
  function FinishSpec(text: string, post: Result<string, PostProcessError>, duration: real, enhanced: bool, logPerformance: bool)
    : (r: (CycleOutcome, seq<Effect>))
    ensures post.Success? ==> r.0 == Completed(post.value)
    ensures post.Failure? ==> r.0 == Aborted(PostProcessFailure(post.error))
    ensures r.1 != [] && r.1[0] == PostProcessCall(text)
  {
    var pre := [PostProcessCall(text)];
    match post
    case Failure(e) => (Aborted(PostProcessFailure(e)), pre)
    case Success(final) =>
      var log := if logPerformance then [LogRow(|final|, duration, enhanced)] else [];
      var typed := if final != [] then [TypeText(final + " ")] else [];
      (Completed(final), pre + log + [HideOverlay] + typed)
  }

  /** From the transcript on: the early exit for "", the enhancer when there is one, then post-processing and FinishSpec. */
  function TranscriptSpec(text: string, duration: real, input: CycleInput, cfg: AppConfig, enhancer: Option<EnhancerState>)
    : (r: (CycleOutcome, seq<Effect>))
    ensures r.0 == EmptyTranscript <==> text == []
    ensures r.0.EmptyTranscript? || r.0.Completed? || r.0.Aborted?
    ensures r.1 != []
  {
    if text == [] then (EmptyTranscript, [HideOverlay])
    else if enhancer.None? then FinishSpec(text, input.postProcess(text), duration, false, cfg.logPerformance)
    else
      match Enhance(enhancer.value, text, cfg.api, cfg.generate)
      case Failure(e) => (Aborted(EnhancementError(e)), [EnhanceCall(text)])
      case Success(enhanced) =>
        var rest := FinishSpec(enhanced, input.postProcess(enhanced), duration, true, cfg.logPerformance);
        (rest.0, [EnhanceCall(text)] + rest.1)
  }

  /** One iteration of the outer loop of main, as a function of its inputs. */
  function CycleSpec(input: CycleInput, cfg: AppConfig, enhancer: Option<EnhancerState>, samplerate: nat)
    : (CycleOutcome, seq<Effect>)
    requires samplerate > 0
  {
    var k := FirstBreak(input.polls);
    if k == |input.polls| then (StillRecording, [ShowOverlay(RecordingMode)])
    else if input.polls[k].cancel then (Canceled, [ShowOverlay(RecordingMode), HideOverlay])
    else
      var rest := CaptureSpec(Captured(input.polls), input, cfg, enhancer, samplerate);
      (rest.0, [ShowOverlay(RecordingMode), HideOverlay] + rest.1)
  }

  /** After the hotkey is released: nothing more for an empty buffer, otherwise transcription and TranscriptSpec. */
  function CaptureSpec(captured: seq<Chunk>, input: CycleInput, cfg: AppConfig, enhancer: Option<EnhancerState>, samplerate: nat)
    : (r: (CycleOutcome, seq<Effect>))
    requires samplerate > 0
    ensures r.0 == NoAudio <==> captured == []
    ensures !r.0.StillRecording? && !r.0.Canceled?
    ensures |r.1| >= 2 && r.1[0] == ShowOverlay(TranscribingMode)
  {
    if captured == [] then (NoAudio, [ShowOverlay(TranscribingMode), HideOverlay])
    else
      var audio := ReadAudioFromBuffer(captured, samplerate);
      var pre := [ShowOverlay(TranscribingMode), TranscribeCall(audio.samples)];
      match TranscribeAudio(input.transcription, cfg.cudaAvailable)
      case Failure(e) => (Aborted(TranscribeError(e)), pre)
      case Success(text) =>
        var rest := TranscriptSpec(text, audio.duration, input, cfg, enhancer);
        (rest.0, pre + rest.1)
  }

  /**
   * The inner polling loop of main: deliver what the stream sent, then look
   * at the cancel key first and the hotkey second. `stopped` is false when the
   * polls run out while the hotkey is still held.
   */
  method PollUntilRelease(rec: AudioRecorder, polls: seq<Poll>) returns (stopped: bool, canceled: bool)
    requires rec.Valid() && rec.recording && rec.audioBuffer == [] && ShapedPolls(polls, rec.channels)
    modifies rec
    ensures rec.Valid() && rec.recording && rec.stream == old(rec.stream)
    ensures stopped <==> FirstBreak(polls) < |polls|
    ensures canceled <==> stopped && polls[FirstBreak(polls)].cancel
    ensures rec.audioBuffer == Captured(polls)
  {
    var i := 0;
    stopped, canceled := false, false;
    ghost var k := FirstBreak(polls);
    while !stopped && i < |polls|
      invariant 0 <= i <= |polls|
      invariant rec.Valid() && rec.recording && rec.stream == old(rec.stream)
      invariant !stopped ==> i <= k && rec.audioBuffer == Arrived(polls[..i]) && !canceled
      invariant stopped ==> i == k < |polls| && rec.audioBuffer == Arrived(polls[..i + 1]) && canceled == polls[i].cancel
      decreases |polls| - i + (if stopped then 0 else 1)
    {
      rec.Deliver(polls[i].arrivals);
      assert polls[..i + 1][..i] == polls[..i];
      if polls[i].cancel {
        canceled := true;
        stopped := true;
      } else if !polls[i].held {
        stopped := true;
      } else {
        i := i + 1;
      }
    }
    if !stopped {
      assert polls[..i] == polls;
    }
  }

  // The methods from here to RunCycle are the cycle's statements in the order
  // main runs them: they call the PostProcessTranscription method and the
  // recorder's methods, which the functions FinishSpec, TranscriptSpec and
  // CaptureSpec cannot. Those functions are the same stages as values, so that
  // the lemmas below and RunLoop's invariant can speak about them; each
  // method's ensures ties the two together.

  /** Post-processing, logging, hiding and typing, once the text to post-process is known. */
  method FinishCycle(cfg: AppConfig, input: CycleInput, text: string, duration: real, enhanced: bool)
    returns (outcome: CycleOutcome, effects: seq<Effect>)
    requires PostProcessFor(input, cfg.isWord)
    ensures (outcome, effects) == FinishSpec(text, input.postProcess(text), duration, enhanced, cfg.logPerformance)
  {
    var post := PostProcessTranscription(text, input.corrections, cfg.isWord, input.languageTool);
    assert post == input.postProcess(text);
    if post.Failure? {
      return Aborted(PostProcessFailure(post.error)), [PostProcessCall(text)];
    }
    var final := post.value;
    var log := if cfg.logPerformance then [LogRow(|final|, duration, enhanced)] else [];
    var typed := if final != [] then [TypeText(final + " ")] else [];
    return Completed(final), [PostProcessCall(text)] + log + [HideOverlay] + typed;
  }

  /** From a transcript on: the early exit for "", the enhancer when there is one, then FinishCycle. */
  method ProcessTranscript(enhancer: Option<EnhancerState>, cfg: AppConfig, input: CycleInput, transcript: string, duration: real)
    returns (outcome: CycleOutcome, effects: seq<Effect>)
    requires PostProcessFor(input, cfg.isWord)
    ensures (outcome, effects) == TranscriptSpec(transcript, duration, input, cfg, enhancer)
  {
    if transcript == [] {
      return EmptyTranscript, [HideOverlay];
    }
    if enhancer.None? {
      outcome, effects := FinishCycle(cfg, input, transcript, duration, false);
      return;
    }
    var result := Enhance(enhancer.value, transcript, cfg.api, cfg.generate);
    if result.Failure? {
      return Aborted(EnhancementError(result.error)), [EnhanceCall(transcript)];
    }
    var tail;
    outcome, tail := FinishCycle(cfg, input, result.value, duration, true);
    effects := [EnhanceCall(transcript)] + tail;
  }

  /** After release (lines 87-104 of main): read the buffer, transcribe, then ProcessTranscript. */
  method TranscribeCaptured(rec: AudioRecorder, enhancer: Option<EnhancerState>, cfg: AppConfig, input: CycleInput)
    returns (outcome: CycleOutcome, trace: seq<Effect>)
    requires rec.samplerate > 0 && PostProcessFor(input, cfg.isWord)
    ensures (outcome, trace) == CaptureSpec(rec.audioBuffer, input, cfg, enhancer, rec.samplerate)
  {
    var processed := rec.ProcessAudioBuffer();
    if processed.0.None? {
      return NoAudio, [ShowOverlay(TranscribingMode), HideOverlay];
    }
    trace := [ShowOverlay(TranscribingMode), TranscribeCall(processed.0.value)];
    var transcript := TranscribeAudio(input.transcription, cfg.cudaAvailable);
    if transcript.Failure? {
      return Aborted(TranscribeError(transcript.error)), trace;
    }
    var effects;
    outcome, effects := ProcessTranscript(enhancer, cfg, input, transcript.value, processed.1);
    trace := trace + effects;
  }

  /**
   * One cycle of main: arm the recorder, poll until cancel or release,
   * disarm, then process what was captured.
   */
  method RunCycle(rec: AudioRecorder, enhancer: Option<EnhancerState>, cfg: AppConfig, input: CycleInput)
    returns (outcome: CycleOutcome, trace: seq<Effect>)
    requires rec.Valid() && rec.samplerate > 0
    requires CycleReady(input, rec.channels, cfg.isWord)
    modifies rec
    ensures rec.Valid() && rec.stream == old(rec.stream)
    ensures (outcome, trace) == CycleSpec(input, cfg, enhancer, rec.samplerate)
    ensures rec.audioBuffer == Captured(input.polls)
    ensures rec.recording <==> outcome.StillRecording?
  {
    rec.StartRecording();
    var stopped, canceled := PollUntilRelease(rec, input.polls);
    ghost var spec := CycleSpec(input, cfg, enhancer, rec.samplerate);
    if !stopped {
      return StillRecording, [ShowOverlay(RecordingMode)];
    }
    var _ := rec.StopRecording();
    if canceled {
      return Canceled, [ShowOverlay(RecordingMode), HideOverlay];
    }
    var rest;
    outcome, rest := TranscribeCaptured(rec, enhancer, cfg, input);
    trace := [ShowOverlay(RecordingMode), HideOverlay] + rest;
    assert spec == (outcome, trace);
  }

  // ---------------------------------------------------------------------------
  // Properties of one cycle
  // ---------------------------------------------------------------------------

  /**
   * Which stage ended a cycle: the hotkey never released, cancel seen at the
   * poll that ended recording (cancel is looked at before the hotkey), or
   * nothing captured; every cycle starts by showing the recording overlay.
   */
  lemma CycleStages(input: CycleInput, cfg: AppConfig, enhancer: Option<EnhancerState>, samplerate: nat)
    requires samplerate > 0
    ensures var r := CycleSpec(input, cfg, enhancer, samplerate);
            var k := FirstBreak(input.polls);
            && (r.0 == StillRecording <==> k == |input.polls|)
            && (r.0 == Canceled <==> k < |input.polls| && input.polls[k].cancel)
            && (r.0 == NoAudio <==> k < |input.polls| && !input.polls[k].cancel && Captured(input.polls) == [])
            && r.1 != [] && r.1[0] == ShowOverlay(RecordingMode)
  {
  }

  /** A cancelled cycle only shows and hides the overlay: no transcription, enhancement, post-processing, logging or typing. */
  lemma CanceledCycleDoesNothing(input: CycleInput, cfg: AppConfig, enhancer: Option<EnhancerState>, samplerate: nat)
    requires samplerate > 0
    requires CycleSpec(input, cfg, enhancer, samplerate).0 == Canceled
    ensures CycleSpec(input, cfg, enhancer, samplerate).1 == [ShowOverlay(RecordingMode), HideOverlay]
  {
  }

  /** When nothing was captured the overlay is hidden and the transcriber is never called. */
  lemma EmptyBufferSkipsTranscription(input: CycleInput, cfg: AppConfig, enhancer: Option<EnhancerState>, samplerate: nat)
    requires samplerate > 0
    requires var k := FirstBreak(input.polls); k < |input.polls| && !input.polls[k].cancel
    requires Captured(input.polls) == []
    ensures CycleSpec(input, cfg, enhancer, samplerate) ==
      (NoAudio, [ShowOverlay(RecordingMode), HideOverlay, ShowOverlay(TranscribingMode), HideOverlay])
  {
    assert [ShowOverlay(RecordingMode), HideOverlay] + [ShowOverlay(TranscribingMode), HideOverlay]
        == [ShowOverlay(RecordingMode), HideOverlay, ShowOverlay(TranscribingMode), HideOverlay];
  }

  /** The calls made after transcription. */
  predicate Downstream(e: Effect) {
    e.EnhanceCall? || e.PostProcessCall? || e.LogRow? || e.TypeText?
  }

  /** An empty transcript ends the cycle with the overlay hidden, before enhancement, post-processing, logging and typing. */
  lemma EmptyTranscriptSkipsTheRest(input: CycleInput, cfg: AppConfig, enhancer: Option<EnhancerState>, samplerate: nat)
    requires samplerate > 0
    requires CycleSpec(input, cfg, enhancer, samplerate).0 == EmptyTranscript
    ensures var t := CycleSpec(input, cfg, enhancer, samplerate).1;
            t[|t| - 1] == HideOverlay && forall i | 0 <= i < |t| :: !Downstream(t[i])
  {
  }

  /** The enhancer is called exactly when there is one and the transcript is non-empty; without one the transcript goes straight to post-processing. */
  lemma EnhancerCalledOnlyWhenPresent(text: string, duration: real, input: CycleInput, cfg: AppConfig, enhancer: Option<EnhancerState>)
    ensures var t := TranscriptSpec(text, duration, input, cfg, enhancer).1;
            (t != [] && t[0] == EnhanceCall(text)) <==> (text != [] && enhancer.Some?)
    ensures text != [] && enhancer.None? ==>
            TranscriptSpec(text, duration, input, cfg, enhancer).1[0] == PostProcessCall(text)
    ensures text != [] && enhancer.Some? && CanEnhance(enhancer.value) ==>
            var t := TranscriptSpec(text, duration, input, cfg, enhancer).1;
            |t| >= 2 && t[1] == PostProcessCall(Enhance(enhancer.value, text, cfg.api, cfg.generate).value)
  {
  }

  /** A log row is written only when logging is on, and it records the length of the post-processed text. */
  lemma LogRecordsPostProcessedLength(text: string, post: Result<string, PostProcessError>, duration: real, enhanced: bool, logPerformance: bool)
    ensures var (o, t) := FinishSpec(text, post, duration, enhanced, logPerformance);
            forall i | 0 <= i < |t| && t[i].LogRow? ::
              logPerformance && post.Success? && o == Completed(post.value) && t[i] == LogRow(|post.value|, duration, enhanced)
    ensures var (o, t) := FinishSpec(text, post, duration, enhanced, logPerformance);
            logPerformance && post.Success? ==> LogRow(|post.value|, duration, enhanced) in t
  {
  }

  /** The overlay is hidden before typing; the text typed is the post-processed text plus one space, and only when it is non-empty. */
  lemma TypedTextIsPostProcessedPlusSpace(text: string, post: Result<string, PostProcessError>, duration: real, enhanced: bool, logPerformance: bool)
    ensures var (o, t) := FinishSpec(text, post, duration, enhanced, logPerformance);
            forall i | 0 <= i < |t| && t[i].TypeText? ::
              post.Success? && post.value != [] && t[i] == TypeText(post.value + " ") && i == |t| - 1 && t[i - 1] == HideOverlay
    ensures var (o, t) := FinishSpec(text, post, duration, enhanced, logPerformance);
            post.Success? && post.value != [] ==> t[|t| - 1] == TypeText(post.value + " ")
  {
  }

  /** A post-processing failure ends the cycle right after the call: nothing is logged, hidden or typed. */
  lemma PostProcessFailureStopsTheCycle(text: string, post: Result<string, PostProcessError>, duration: real, enhanced: bool, logPerformance: bool)
    ensures FinishSpec(text, post, duration, enhanced, logPerformance).0.Aborted? <==> post.Failure?
    ensures post.Failure? ==> FinishSpec(text, post, duration, enhanced, logPerformance).1 == [PostProcessCall(text)]
  {
  }

  /** An enhancer obtained from LoadEnhancerLLM can always enhance, so enhancement never raises in a cycle. */
  lemma UsableEnhancerNeverRaises(input: CycleInput, cfg: AppConfig, enhancer: Option<EnhancerState>, samplerate: nat)
    requires samplerate > 0
    requires enhancer.Some? ==> CanEnhance(enhancer.value)
    ensures !CycleSpec(input, cfg, enhancer, samplerate).0.Aborted? ||
            !CycleSpec(input, cfg, enhancer, samplerate).0.error.EnhancementError?
  {
  }

  // ---------------------------------------------------------------------------
  // The whole run
  // ---------------------------------------------------------------------------

  /** How main ends: Ctrl-C (or the end of the input), an exception that escapes a cycle, or a failure before the loop. */
  datatype ExitReason = Interrupted | Crashed(error: AppError) | WhisperLoadFailed

  /** The result of one cycle: its outcome and the effects it had. */
  type CycleResult = (CycleOutcome, seq<Effect>)

  /** Each cycle's result on its own inputs. */
  function CycleResults(cycles: seq<CycleInput>, cfg: AppConfig, enhancer: Option<EnhancerState>, samplerate: nat)
    : (rs: seq<CycleResult>)
    requires samplerate > 0
    ensures |rs| == |cycles|
    ensures forall i | 0 <= i < |cycles| :: rs[i] == CycleSpec(cycles[i], cfg, enhancer, samplerate)
  {
    seq(|cycles|, i requires 0 <= i < |cycles| => CycleSpec(cycles[i], cfg, enhancer, samplerate))
  }

  /**
   * How the results of successive cycles make up the run: cycles run until
   * one raises; a cycle whose hotkey is never released waits until the
   * interrupt; the end of the input stands for the interrupt.
   */
  function Combine(rs: seq<CycleResult>): (ExitReason, seq<Effect>) {
    if rs == [] then (Interrupted, [])
    else
      var (o, t) := rs[0];
      if o.Aborted? then (Crashed(o.error), t)
      else if o.StillRecording? then (Interrupted, t)
      else
        var (e, rest) := Combine(rs[1..]);
        (e, t + rest)
  }

  /** The cycle loop of main as a function of its inputs. */
  function LoopSpec(cycles: seq<CycleInput>, cfg: AppConfig, enhancer: Option<EnhancerState>, samplerate: nat)
    : (ExitReason, seq<Effect>)
    requires samplerate > 0
  {
    Combine(CycleResults(cycles, cfg, enhancer, samplerate))
  }

  /** Unfolding Combine at position i. */
  lemma CombineStep(rs: seq<CycleResult>, i: nat)
    requires i < |rs|
    ensures var (o, t) := rs[i];
            var rest := Combine(rs[i + 1..]);
            Combine(rs[i..]) ==
              if o.Aborted? then (Crashed(o.error), t)
              else if o.StillRecording? then (Interrupted, t)
              else (rest.0, t + rest.1)
  {
    assert rs[i..][0] == rs[i] && rs[i..][1..] == rs[i + 1..];
  }

  /**
   * A run crashes with the error of the first cycle that raises, every cycle
   * before it having completed; it ends by the interrupt when no cycle raises;
   * the loop never reports a start-up failure.
   */
  lemma {:induction false} CombineCrash(rs: seq<CycleResult>)
    ensures Combine(rs).0.Crashed? ==>
      exists i | 0 <= i < |rs| ::
        && rs[i].0 == Aborted(Combine(rs).0.error)
        && forall j | 0 <= j < i :: !rs[j].0.Aborted? && !rs[j].0.StillRecording?
    ensures (forall i | 0 <= i < |rs| :: !rs[i].0.Aborted?) ==> Combine(rs).0 == Interrupted
    ensures Combine(rs).0 != WhisperLoadFailed
  {
    if rs != [] {
      var tail := rs[1..];
      CombineCrash(tail);
      var (o, t) := rs[0];
      if !o.Aborted? && !o.StillRecording? {
        assert Combine(rs).0 == Combine(tail).0;
        if Combine(rs).0.Crashed? {
          var k :| 0 <= k < |tail| && tail[k].0 == Aborted(Combine(tail).0.error)
                   && forall j | 0 <= j < k :: !tail[j].0.Aborted? && !tail[j].0.StillRecording?;
          assert rs[k + 1] == tail[k];
          forall j | 0 <= j < k + 1 ensures !rs[j].0.Aborted? && !rs[j].0.StillRecording? {
            if j > 0 {
              assert rs[j] == tail[j - 1];
            }
          }
        }
        if forall i | 0 <= i < |rs| :: !rs[i].0.Aborted? {
          forall i | 0 <= i < |tail| ensures !tail[i].0.Aborted? {
            assert tail[i] == rs[i + 1];
          }
        }
      }
    }
  }

  /** CombineCrash for the cycles of a run. */
  lemma CrashIsFirstRaise(cycles: seq<CycleInput>, cfg: AppConfig, enhancer: Option<EnhancerState>, samplerate: nat)
    requires samplerate > 0
    ensures var exit := LoopSpec(cycles, cfg, enhancer, samplerate).0;
            exit.Crashed? ==>
              exists i | 0 <= i < |cycles| ::
                && CycleSpec(cycles[i], cfg, enhancer, samplerate).0 == Aborted(exit.error)
                && forall j | 0 <= j < i :: CycleSpec(cycles[j], cfg, enhancer, samplerate).0.Completed? ||
                                              CycleSpec(cycles[j], cfg, enhancer, samplerate).0 in {Canceled, NoAudio, EmptyTranscript}
    ensures (forall i | 0 <= i < |cycles| :: !CycleSpec(cycles[i], cfg, enhancer, samplerate).0.Aborted?) ==>
      LoopSpec(cycles, cfg, enhancer, samplerate).0 == Interrupted
  {
    var rs := CycleResults(cycles, cfg, enhancer, samplerate);
    CombineCrash(rs);
  }

  /** The try block of main: cycles until one raises or the input ends. */
  method RunLoop(rec: AudioRecorder, enhancer: Option<EnhancerState>, cfg: AppConfig, cycles: seq<CycleInput>)
    returns (exit: ExitReason, trace: seq<Effect>)
    requires rec.Valid() && rec.samplerate > 0
    requires forall i {:trigger CycleReady(cycles[i], rec.channels, cfg.isWord)} | 0 <= i < |cycles| :: CycleReady(cycles[i], rec.channels, cfg.isWord)
    modifies rec
    ensures (exit, trace) == LoopSpec(cycles, cfg, enhancer, rec.samplerate)
    ensures rec.Valid() && rec.stream == old(rec.stream)
  {
    ghost var rs := CycleResults(cycles, cfg, enhancer, rec.samplerate);
    var i := 0;
    var done := false;
    exit := Interrupted;
    trace := [];
    assert rs[0..] == rs;
    assert trace + Combine(rs).1 == Combine(rs).1;
    while !done && i < |cycles|
      invariant 0 <= i <= |cycles|
      invariant rec.Valid() && rec.stream == old(rec.stream)
      invariant !done ==> exit == Interrupted
      invariant !done ==> Combine(rs) == (Combine(rs[i..]).0, trace + Combine(rs[i..]).1)
      invariant done ==> Combine(rs) == (exit, trace)
      decreases |cycles| - i + (if done then 0 else 1)
    {
      ghost var before := trace;
      var o, t := RunCycle(rec, enhancer, cfg, cycles[i]);
      assert rs[i] == (o, t);
      CombineStep(rs, i);
      if o.Aborted? {
        exit, trace, done := Crashed(o.error), trace + t, true;
      } else if o.StillRecording? {
        exit, trace, done := Interrupted, trace + t, true;
      } else {
        trace := trace + t;
        i := i + 1;
        assert before + (t + Combine(rs[i..]).1) == trace + Combine(rs[i..]).1;
      }
    }
    if !done {
      assert rs[i..] == [];
      assert trace + [] == trace;
    }
  }

  /**
   * main: the enhancer is loaded first, then Whisper; a Whisper failure ends
   * the program before the stream or the try block. Otherwise a 16 kHz mono
   * recorder's stream is started and the loop runs; the last effect is always
   * the overlay being hidden and the stream is left closed. The enhancer
   * options are read from the parsed arguments through the corrected
   * `ollama_url` lookup.
   */
  method RunApp(args: map<string, ArgValue>, probe: TagsOutcome, env: Env, sdkAccepts: bool,
                loads: Device -> bool, cfg: AppConfig, cycles: seq<CycleInput>)
    returns (exit: ExitReason, trace: seq<Effect>, enhancer: Option<EnhancerState>, rec: AudioRecorder?)
    requires ParsedNamespace(args)
    requires forall i {:trigger CycleReady(cycles[i], Channels, cfg.isWord)} | 0 <= i < |cycles| :: CycleReady(cycles[i], Channels, cfg.isWord)
    ensures LoadWhisper(cfg.cudaAvailable, loads).loaded.None? <==> exit == WhisperLoadFailed
    ensures exit == WhisperLoadFailed ==> trace == [] && rec == null
    ensures exit != WhisperLoadFailed ==>
      && rec != null && rec.stream == Closed && rec.samplerate == SampleRate && rec.channels == Channels
      && trace == LoopSpec(cycles, cfg, enhancer, SampleRate).1 + [HideOverlay]
      && exit == LoopSpec(cycles, cfg, enhancer, SampleRate).0
    ensures var opts := EnhancerOptionsFromArgs(args).value;
            enhancer.None? <==> !OllamaSelected(opts, probe) && !AzureSelected(opts, env, sdkAccepts)
    ensures enhancer.Some? ==> CanEnhance(enhancer.value)
  {
    var opts := EnhancerOptionsFromArgs(args).value;
    var loaded := LoadEnhancerLLM(opts, probe, env, sdkAccepts);
    enhancer := if loaded == null then None else Some(loaded.State());
    var whisper := LoadWhisper(cfg.cudaAvailable, loads);
    if whisper.loaded.None? {
      return WhisperLoadFailed, [], enhancer, null;
    }
    rec := new AudioRecorder(SampleRate, Channels);
    rec.StartStream();
    exit, trace := RunLoop(rec, enhancer, cfg, cycles);
    // the finally block
    trace := trace + [HideOverlay];
    rec.StopStream();
    assert exit != WhisperLoadFailed by {
      CombineCrash(CycleResults(cycles, cfg, enhancer, SampleRate));
    }
  }
}
