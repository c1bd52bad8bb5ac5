/**
 * The original single-file program (tyni-wispr.py): a two-press toggle loop
 * over the nonlocal `audio_buffer` and `recording`, the stream callback that
 * appends while armed, and transcribe_audio's cleaning and logging rule.
 * Whisper is abstract: what model.transcribe returns or raises is an input
 * value. load_model follows the same device policy as Models.LoadWhisper.
 */
module LegacyScript {
  import opened Wrappers
  import opened Text
  import opened Models
  import opened Audio

  const ScriptSampleRate: nat := 16000
  const ScriptChannels: nat := 1

  /** What model.transcribe does: return result["text"], raise CUDA out-of-memory, or raise another exception. */
  datatype WhisperResult = TextResult(text: string) | WhisperOutOfMemory | WhisperError

  /** One row of transcription_performance.csv, without the timings. */
  datatype LogEntry = LogEntry(model: string, textLength: nat, audioDuration: real)

  /** The text transcribe_audio returns: "" when the model's text is blank, otherwise stripped with its first character upper-cased. */
  function CleanTranscript(raw: string): (t: string)
    ensures t == [] <==> AllSpace(raw)
    ensures t != [] ==> |t| == |Strip(raw)| && t[0] == UpperChar(Strip(raw)[0]) && t[1..] == Strip(raw)[1..]
  {
    StripEmptyIff(raw);
    var s := Strip(raw);
    if s == [] then [] else UpperFirst(s)
  }

  /** A cleaned transcript has no whitespace at either end and does not start with a lower-case ASCII letter. */
  lemma CleanTranscriptFacts(raw: string)
    ensures var t := CleanTranscript(raw);
            t != [] ==> IsStripped(t) && !('a' <= t[0] <= 'z')
  {
    var t := CleanTranscript(raw);
    var s := Strip(raw);
    StripFacts(raw);
    if t != [] {
      assert !IsSpace(s[0]) && !IsSpace(s[|s| - 1]);
      if |t| > 1 {
        assert t[|t| - 1] == t[1..][|t| - 2] == s[1..][|s| - 2] == s[|s| - 1];
      }
    }
  }

  /** Cleaning is idempotent: a cleaned transcript passed through the model's cleaning again is unchanged. */
  lemma CleanTranscriptIdempotent(raw: string)
    ensures CleanTranscript(CleanTranscript(raw)) == CleanTranscript(raw)
  {
    var t := CleanTranscript(raw);
    if t != [] {
      CleanTranscriptFacts(raw);
      StripOfStripped(t);
      var u := CleanTranscript(t);
      assert u[0] == UpperChar(t[0]) == t[0];
      assert u == [u[0]] + u[1..];
      assert t == [t[0]] + t[1..];
    }
  }

  /**
   * transcribe_audio: the cleaned text, and the row it logs. A row is written
   * only for non-empty text, with logging enabled and both the model name and
   * the duration given; it records the cleaned text's length.
   */
  function TranscribeAudio(raw: string, logging: bool, modelSize: Option<string>, audioDuration: Option<real>)
    : (r: (string, Option<LogEntry>))
    ensures r.0 == CleanTranscript(raw)
    ensures r.1.Some? <==> r.0 != [] && logging && modelSize.Some? && audioDuration.Some?
    ensures r.1.Some? ==> r.1.value == LogEntry(modelSize.value, |r.0|, audioDuration.value)
  {
    var text := CleanTranscript(raw);
    if text == [] then ([], None)
    else if logging && modelSize.Some? && audioDuration.Some? then (text, Some(LogEntry(modelSize.value, |text|, audioDuration.value)))
    else (text, None)
  }

  /** What one pass of the loop does to the outside world. */
  datatype ScriptEffect =
    | NoAudioWarning
    | Transcribed(audio: seq<real>)
    | Logged(entry: LogEntry)
    | Typed(text: string)
    | OutOfMemoryReported
    | CacheCleared
    | ErrorReported

  /** One turn of the toggle loop: the chunks delivered before the first press and between the presses, whether the second press came, and what Whisper did. */
  datatype ToggleCycle = ToggleCycle(idle: seq<Chunk>, recorded: seq<Chunk>, stopped: bool, whisper: WhisperResult)

  /**
   * What happens once the model has been called on audio of the given
   * duration: the cleaned text's log row, then the text typed with a trailing
   * space when non-empty; out-of-memory is reported and clears the cache only
   * on cuda; any other exception is reported. Nothing escapes the loop.
   */
  function WhisperEffects(whisper: WhisperResult, device: Device, logging: bool, modelSize: string, duration: real)
    : seq<ScriptEffect>
  {
    match whisper
    case TextResult(raw) =>
      var r := TranscribeAudio(raw, logging, Some(modelSize), Some(duration));
      (if r.1.Some? then [Logged(r.1.value)] else []) + (if r.0 != [] then [Typed(r.0 + " ")] else [])
    case WhisperOutOfMemory => [OutOfMemoryReported] + (if device == Cuda then [CacheCleared] else [])
    case WhisperError => [ErrorReported]
  }

  /** After the second press: a warning for an empty buffer; otherwise the model is called on the buffer's audio. */
  function ProcessSpec(buffer: seq<Chunk>, whisper: WhisperResult, device: Device, logging: bool, modelSize: string)
    : seq<ScriptEffect>
  {
    if buffer == [] then [NoAudioWarning]
    else
      var audio := ReadAudioFromBuffer(buffer, ScriptSampleRate);
      [Transcribed(audio.samples)] + WhisperEffects(whisper, device, logging, modelSize, audio.duration)
  }

  /** The whole loop: each completed toggle processes what was recorded between its presses; an interrupt while recording ends the run. */
  function ScriptSpec(cycles: seq<ToggleCycle>, device: Device, logging: bool, modelSize: string): seq<ScriptEffect> {
    if cycles == [] || !cycles[0].stopped then []
    else ProcessSpec(cycles[0].recorded, cycles[0].whisper, device, logging, modelSize) + ScriptSpec(cycles[1..], device, logging, modelSize)
  }

  /** The effects a run may have: typed text is non-empty stripped text that does not start in lower case, plus one space; the cache is cleared only on cuda; rows only with logging, naming the model. */
  predicate AllowedEffect(e: ScriptEffect, device: Device, logging: bool, modelSize: string) {
    && (e.Typed? ==> |e.text| >= 2 && e.text[|e.text| - 1] == ' ' && IsStripped(e.text[..|e.text| - 1]) && !('a' <= e.text[0] <= 'z'))
    && (e.CacheCleared? ==> device == Cuda)
    && (e.Logged? ==> logging && e.entry.model == modelSize && e.entry.textLength > 0)
  }

  /** Typing a non-empty cleaned transcript plus its space is an allowed effect. */
  lemma TypedTranscriptAllowed(raw: string, device: Device, logging: bool, modelSize: string)
    requires CleanTranscript(raw) != []
    ensures AllowedEffect(Typed(CleanTranscript(raw) + " "), device, logging, modelSize)
  {
    var t := CleanTranscript(raw);
    CleanTranscriptFacts(raw);
    assert (t + " ")[..|t|] == t;
  }

  /** Whatever the model does, the effects that follow are allowed. */
  lemma WhisperEffectsAllowed(whisper: WhisperResult, device: Device, logging: bool, modelSize: string, duration: real)
    ensures AllAllowed(WhisperEffects(whisper, device, logging, modelSize, duration), device, logging, modelSize)
  {
    if whisper.TextResult? {
      var r := TranscribeAudio(whisper.text, logging, Some(modelSize), Some(duration));
      var logged: seq<ScriptEffect> := if r.1.Some? then [Logged(r.1.value)] else [];
      var typed: seq<ScriptEffect> := if r.0 != [] then [Typed(r.0 + " ")] else [];
      if r.0 != [] {
        TypedTranscriptAllowed(whisper.text, device, logging, modelSize);
      }
      AllAllowedConcat(logged, typed, device, logging, modelSize);
    }
  }

  /** An empty buffer skips reading and transcription; otherwise the model is called first, on the buffer's audio, and everything after is allowed. */
  lemma ProcessSpecFacts(buffer: seq<Chunk>, whisper: WhisperResult, device: Device, logging: bool, modelSize: string)
    ensures var es := ProcessSpec(buffer, whisper, device, logging, modelSize);
            && (es == [NoAudioWarning] <==> buffer == [])
            && (buffer != [] ==> es[0] == Transcribed(ReadAudioFromBuffer(buffer, ScriptSampleRate).samples))
            && AllAllowed(es, device, logging, modelSize)
  {
    if buffer != [] {
      var audio := ReadAudioFromBuffer(buffer, ScriptSampleRate);
      var rest := WhisperEffects(whisper, device, logging, modelSize, audio.duration);
      WhisperEffectsAllowed(whisper, device, logging, modelSize, audio.duration);
      var es := [Transcribed(audio.samples)] + rest;
      forall i | 0 <= i < |es| ensures AllowedEffect(es[i], device, logging, modelSize) {
        if i > 0 {
          assert es[i] == rest[i - 1];
        }
      }
    }
  }

  /** Every effect in the sequence is allowed. */
  predicate AllAllowed(es: seq<ScriptEffect>, device: Device, logging: bool, modelSize: string) {
    forall i | 0 <= i < |es| :: AllowedEffect(es[i], device, logging, modelSize)
  }

  lemma AllAllowedConcat(a: seq<ScriptEffect>, b: seq<ScriptEffect>, device: Device, logging: bool, modelSize: string)
    requires AllAllowed(a, device, logging, modelSize) && AllAllowed(b, device, logging, modelSize)
    ensures AllAllowed(a + b, device, logging, modelSize)
  {
    var es := a + b;
    forall i | 0 <= i < |es| ensures AllowedEffect(es[i], device, logging, modelSize) {
      if i < |a| {
        assert es[i] == a[i];
      } else {
        assert es[i] == b[i - |a|];
      }
    }
  }

  /** Every effect of a whole run is allowed. */
  lemma {:induction false} ScriptEffectsAllowed(cycles: seq<ToggleCycle>, device: Device, logging: bool, modelSize: string)
    ensures AllAllowed(ScriptSpec(cycles, device, logging, modelSize), device, logging, modelSize)
  {
    if cycles != [] && cycles[0].stopped {
      ProcessSpecFacts(cycles[0].recorded, cycles[0].whisper, device, logging, modelSize);
      ScriptEffectsAllowed(cycles[1..], device, logging, modelSize);
      AllAllowedConcat(ProcessSpec(cycles[0].recorded, cycles[0].whisper, device, logging, modelSize),
                       ScriptSpec(cycles[1..], device, logging, modelSize), device, logging, modelSize);
    }
  }

  /** The variables main shares with the stream callback, and the stream itself. */
  class ToggleSession {
    var audioBuffer: seq<Chunk>
    var recording: bool
    var streamOpen: bool

    /** Before the stream is opened: empty buffer, disarmed. */
    constructor ()
      ensures audioBuffer == [] && !recording && !streamOpen
    {
      audioBuffer := [];
      recording := false;
      streamOpen := false;
    }

    /** Every buffered chunk is mono. */
    ghost predicate Valid()
      reads this
    {
      Shaped(audioBuffer, ScriptChannels)
    }

    /** record_audio_buffer: a copy of the chunk is appended while armed; otherwise nothing changes. */
    method RecordAudioBuffer(indata: Chunk)
      requires Valid() && Shaped([indata], ScriptChannels)
      modifies this
      ensures Valid()
      ensures audioBuffer == if old(recording) then old(audioBuffer) + [indata] else old(audioBuffer)
      ensures recording == old(recording) && streamOpen == old(streamOpen)
    {
      if recording {
        audioBuffer := audioBuffer + [indata];
      }
    }

    /** The stream calling back once per chunk, in order. */
    method Deliver(chunks: seq<Chunk>)
      requires Valid() && Shaped(chunks, ScriptChannels)
      modifies this
      ensures Valid()
      ensures audioBuffer == if old(recording) then old(audioBuffer) + chunks else old(audioBuffer)
      ensures recording == old(recording) && streamOpen == old(streamOpen)
    {
      for k := 0 to |chunks|
        invariant Valid()
        invariant audioBuffer == if recording then old(audioBuffer) + chunks[..k] else old(audioBuffer)
        invariant recording == old(recording) && streamOpen == old(streamOpen)
      {
        assert Shaped([chunks[k]], ScriptChannels) by {
          forall j | 0 <= j < |chunks[k]| ensures |[chunks[k]][0][j]| == ScriptChannels {
          }
        }
        RecordAudioBuffer(chunks[k]);
        assert chunks[..k + 1] == chunks[..k] + [chunks[k]];
      }
      assert chunks[..|chunks|] == chunks;
    }
  }

  // HandleWhisper and ProcessBuffer are the statements of the loop body, which
  // RunScript runs against the session object; WhisperEffects and ProcessSpec
  // are the same branches as values, so that ScriptSpec and the lemmas about
  // allowed effects can speak about them. Each method's ensures ties the two
  // together.

  /** The try block of main around transcribe_audio and its two handlers, for audio of the given duration. */
  method HandleWhisper(whisper: WhisperResult, device: Device, logging: bool, modelSize: string, duration: real)
    returns (effects: seq<ScriptEffect>)
    ensures effects == WhisperEffects(whisper, device, logging, modelSize, duration)
  {
    effects := [];
    match whisper {
      case TextResult(raw) =>
        var transcribed := TranscribeAudio(raw, logging, Some(modelSize), Some(duration));
        var text, log := transcribed.0, transcribed.1;
        if log.Some? {
          effects := [Logged(log.value)];
        }
        if text != [] {
          effects := effects + [Typed(text + " ")];
        } else {
          assert effects + [] == effects;
        }
      case WhisperOutOfMemory =>
        effects := [OutOfMemoryReported];
        if device == Cuda {
          effects := effects + [CacheCleared];
        }
      case WhisperError =>
        effects := [ErrorReported];
    }
  }

  /** After the second press: warn about an empty buffer, otherwise read it and hand the audio to the model. */
  method ProcessBuffer(buffer: seq<Chunk>, whisper: WhisperResult, device: Device, logging: bool, modelSize: string)
    returns (effects: seq<ScriptEffect>)
    ensures effects == ProcessSpec(buffer, whisper, device, logging, modelSize)
  {
    if buffer == [] {
      return [NoAudioWarning];
    }
    var audio := ReadAudioFromBuffer(buffer, ScriptSampleRate);
    var rest := HandleWhisper(whisper, device, logging, modelSize, audio.duration);
    effects := [Transcribed(audio.samples)] + rest;
  }

  /**
   * main after load_model: open the stream, then toggle until interrupted;
   * the finally block closes the stream. Chunks that arrive while disarmed
   * are dropped, and each toggle processes exactly what arrived between its
   * two presses.
   */
  method RunScript(session: ToggleSession, device: Device, logging: bool, modelSize: string, cycles: seq<ToggleCycle>)
    returns (effects: seq<ScriptEffect>)
    requires session.Valid() && !session.recording && !session.streamOpen
    requires forall i | 0 <= i < |cycles| :: Shaped(cycles[i].idle, ScriptChannels) && Shaped(cycles[i].recorded, ScriptChannels)
    modifies session
    ensures effects == ScriptSpec(cycles, device, logging, modelSize)
    ensures !session.streamOpen
  {
    session.streamOpen := true;
    var i := 0;
    var done := false;
    effects := [];
    assert cycles[0..] == cycles;
    while !done && i < |cycles|
      invariant 0 <= i <= |cycles|
      invariant session.Valid() && session.streamOpen
      invariant !done ==> !session.recording
      invariant !done ==> ScriptSpec(cycles, device, logging, modelSize) == effects + ScriptSpec(cycles[i..], device, logging, modelSize)
      invariant done ==> ScriptSpec(cycles, device, logging, modelSize) == effects
      decreases |cycles| - i + (if done then 0 else 1)
    {
      var c := cycles[i];
      assert cycles[i..][0] == c && cycles[i..][1..] == cycles[i + 1..];
      session.Deliver(c.idle);
      // first press
      session.audioBuffer := [];
      session.recording := true;
      session.Deliver(c.recorded);
      assert session.audioBuffer == c.recorded;
      if !c.stopped {
        // interrupted while recording
        done := true;
        assert effects + [] == effects;
      } else {
        // second press
        session.recording := false;
        var more := ProcessBuffer(session.audioBuffer, c.whisper, device, logging, modelSize);
        assert effects + (more + ScriptSpec(cycles[i + 1..], device, logging, modelSize))
            == (effects + more) + ScriptSpec(cycles[i + 1..], device, logging, modelSize);
        effects := effects + more;
        i := i + 1;
      }
    }
    if !done {
      assert cycles[i..] == [];
      assert effects + [] == effects;
    }
    // finally
    session.streamOpen := false;
  }
}
