/**
 * Audio capture (tyni_wispr/audio.py, and read_audio_from_buffer in
 * tyni-wispr.py): the recorder's arm/disarm flag and chunk buffer, and the
 * conversion of the captured int16 chunks into normalised samples.
 * The sound device is abstract: the stream's callback is a method the
 * caller invokes with each chunk, between the recorder's other calls.
 */
module Audio {
  import opened Wrappers

  newtype int16 = x: int | -32768 <= x < 32768

  /** One sample per channel. */
  type Frame = seq<int16>

  /** One block of frames, as the stream hands it to the callback. */
  type Chunk = seq<Frame>

  /** Every frame of every chunk has one sample per channel. */
  predicate Shaped(chunks: seq<Chunk>, channels: nat) {
    forall i, j | 0 <= i < |chunks| && 0 <= j < |chunks[i]| :: |chunks[i][j]| == channels
  }

  /** The samples of one chunk, frame by frame (flatten of a 2-D block). */
  function ChunkSamples(c: Chunk): seq<int16> {
    if c == [] then [] else ChunkSamples(c[..|c| - 1]) + c[|c| - 1]
  }

  /** np.concatenate along axis 0, then flatten: all samples, chunk after chunk. */
  function Flatten(chunks: seq<Chunk>): seq<int16> {
    if chunks == [] then [] else Flatten(chunks[..|chunks| - 1]) + ChunkSamples(chunks[|chunks| - 1])
  }

  /** The number of frames in all chunks together. */
  function FrameCount(chunks: seq<Chunk>): nat {
    if chunks == [] then 0 else FrameCount(chunks[..|chunks| - 1]) + |chunks[|chunks| - 1]|
  }

  /** Concatenation keeps chunk order: the samples of a + b are those of a followed by those of b. */
  lemma {:induction false} FlattenAppend(a: seq<Chunk>, b: seq<Chunk>)
    ensures Flatten(a + b) == Flatten(a) + Flatten(b)
  {
    if b == [] {
      assert a + b == a;
    } else {
      var b', last := b[..|b| - 1], b[|b| - 1];
      var ab := a + b;
      assert ab[..|ab| - 1] == a + b' && ab[|ab| - 1] == last;
      assert Flatten(ab) == Flatten(a + b') + ChunkSamples(last);
      FlattenAppend(a, b');
      assert Flatten(b) == Flatten(b') + ChunkSamples(last);
    }
  }

  /** A chunk of n frames of width w contributes n * w samples. */
  lemma {:induction false} ChunkSamplesLength(c: Chunk, channels: nat)
    requires forall j | 0 <= j < |c| :: |c[j]| == channels
    ensures |ChunkSamples(c)| == |c| * channels
  {
    if c != [] {
      var init := c[..|c| - 1];
      assert forall j | 0 <= j < |init| :: init[j] == c[j];
      ChunkSamplesLength(init, channels);
      assert |ChunkSamples(c)| == |ChunkSamples(init)| + channels;
      Distribute(|init|, 1, channels);
    }
  }

  /** The flattened buffer holds (total frames) * channels samples. */
  lemma {:induction false} FlattenLength(chunks: seq<Chunk>, channels: nat)
    requires Shaped(chunks, channels)
    ensures |Flatten(chunks)| == FrameCount(chunks) * channels
  {
    if chunks != [] {
      var init, last := chunks[..|chunks| - 1], chunks[|chunks| - 1];
      ShapedSplit(chunks, channels, last);
      FlattenLength(init, channels);
      ChunkSamplesLength(last, channels);
      LengthStep(chunks, |Flatten(init)|, FrameCount(init), |ChunkSamples(last)|, |last|, channels);
    }
  }

  lemma LengthStep(chunks: seq<Chunk>, f: nat, frames: nat, s: nat, l: nat, channels: nat)
    requires chunks != []
    requires f == |Flatten(chunks[..|chunks| - 1])| && frames == FrameCount(chunks[..|chunks| - 1])
    requires s == |ChunkSamples(chunks[|chunks| - 1])| && l == |chunks[|chunks| - 1]|
    requires f == frames * channels && s == l * channels
    ensures |Flatten(chunks)| == FrameCount(chunks) * channels
  {
    assert |Flatten(chunks)| == f + s;
    assert FrameCount(chunks) == frames + l;
    Distribute(frames, l, channels);
  }

  /** The chunks before the last are shaped, and so is the last one. */
  lemma ShapedSplit(chunks: seq<Chunk>, channels: nat, last: Chunk)
    requires chunks != [] && Shaped(chunks, channels) && last == chunks[|chunks| - 1]
    ensures Shaped(chunks[..|chunks| - 1], channels)
    ensures forall j | 0 <= j < |last| :: |last[j]| == channels
  {
    var init := chunks[..|chunks| - 1];
    forall i, j | 0 <= i < |init| && 0 <= j < |init[i]| ensures |init[i][j]| == channels {
      assert init[i] == chunks[i];
    }
  }

  lemma Distribute(a: nat, b: nat, c: nat)
    ensures a * c + b * c == (a + b) * c
  {
  }

  /** astype(float32) / 32768.0, with exact reals: each value is its sample scaled down, and lies in [-1, 1). */
  function Normalize(s: seq<int16>): (r: seq<real>)
    ensures |r| == |s|
    ensures forall i | 0 <= i < |r| :: r[i] * 32768.0 == s[i] as real
    ensures forall i | 0 <= i < |r| :: -1.0 <= r[i] < 1.0
  {
    seq(|s|, i requires 0 <= i < |s| => s[i] as int as real / 32768.0)
  }

  /** Normalised samples and their duration in seconds. */
  datatype AudioData = AudioData(samples: seq<real>, duration: real)

  /**
   * read_audio_from_buffer (and the non-empty branch of process_audio_buffer):
   * the samples of all chunks in order, scaled by 1/32768, and a duration of
   * length / samplerate. np.concatenate raises on an empty list, which both
   * callers rule out first.
   */
  function ReadAudioFromBuffer(buffer: seq<Chunk>, samplerate: nat): (a: AudioData)
    requires buffer != [] && samplerate > 0
    ensures |a.samples| == |Flatten(buffer)|
    ensures forall i | 0 <= i < |a.samples| :: a.samples[i] * 32768.0 == Flatten(buffer)[i] as real
    ensures a.duration == Duration(|a.samples|, samplerate)
  {
    var samples := Normalize(Flatten(buffer));
    AudioData(samples, Duration(|samples|, samplerate))
  }

  /** `len(samples) / samplerate` as true division: the duration in seconds of n samples. */
  function Duration(n: nat, samplerate: nat): (d: real)
    requires samplerate > 0
    ensures d * samplerate as real == n as real
  {
    n as real / samplerate as real
  }

  /** With one sample per channel per frame, the output length is frames * channels and the duration follows from it. */
  lemma ReadAudioLength(buffer: seq<Chunk>, samplerate: nat, channels: nat)
    requires buffer != [] && samplerate > 0 && Shaped(buffer, channels)
    ensures |ReadAudioFromBuffer(buffer, samplerate).samples| == FrameCount(buffer) * channels
    ensures ReadAudioFromBuffer(buffer, samplerate).duration == Duration(FrameCount(buffer) * channels, samplerate)
  {
    FlattenLength(buffer, channels);
  }

  /** The audio of two recordings captured back to back is the audio of the first followed by that of the second. */
  lemma ReadAudioAppend(a: seq<Chunk>, b: seq<Chunk>, samplerate: nat)
    requires a != [] && b != [] && samplerate > 0
    ensures ReadAudioFromBuffer(a + b, samplerate).samples
         == ReadAudioFromBuffer(a, samplerate).samples + ReadAudioFromBuffer(b, samplerate).samples
  {
    FlattenAppend(a, b);
    NormalizeAppend(Flatten(a), Flatten(b));
  }

  /** Scaling works sample by sample, so it distributes over concatenation. */
  lemma NormalizeAppend(x: seq<int16>, y: seq<int16>)
    ensures Normalize(x + y) == Normalize(x) + Normalize(y)
  {
    var l, r := Normalize(x + y), Normalize(x) + Normalize(y);
    forall i | 0 <= i < |l| ensures l[i] == r[i] {
      if i < |x| {
        assert (x + y)[i] == x[i] && r[i] == Normalize(x)[i];
      } else {
        assert (x + y)[i] == y[i - |x|] && r[i] == Normalize(y)[i - |x|];
      }
    }
  }

  datatype StreamState = NoStream | Running | Closed

  class AudioRecorder {
    const samplerate: nat
    const channels: nat
    var audioBuffer: seq<Chunk>
    var recording: bool
    var stream: StreamState

    /** Every buffered chunk has the recorder's channel count. */
    ghost predicate Valid()
      reads this
    {
      Shaped(audioBuffer, channels)
    }

    /** `__init__`: empty buffer, disarmed, no stream. */
    constructor (samplerate: nat, channels: nat)
      ensures Valid()
      ensures this.samplerate == samplerate && this.channels == channels
      ensures audioBuffer == [] && !recording && stream == NoStream
    {
      this.samplerate := samplerate;
      this.channels := channels;
      audioBuffer := [];
      recording := false;
      stream := NoStream;
    }

    /** start_stream: the input stream is opened and running; buffer and flag are untouched. */
    method StartStream()
      modifies this
      ensures stream == Running
      ensures audioBuffer == old(audioBuffer) && recording == old(recording)
    {
      stream := Running;
    }

    /** stop_stream: stops and closes a stream that was started; does nothing when none was. */
    method StopStream()
      modifies this
      ensures old(stream) == NoStream ==> stream == NoStream
      ensures old(stream) != NoStream ==> stream == Closed
      ensures audioBuffer == old(audioBuffer) && recording == old(recording)
    {
      if stream != NoStream {
        stream := Closed;
      }
    }

    /** start_recording: the buffer is cleared and capture is armed. */
    method StartRecording()
      modifies this
      ensures Valid()
      ensures audioBuffer == [] && recording
      ensures stream == old(stream)
    {
      audioBuffer := [];
      recording := true;
    }

    /** stop_recording: capture is disarmed and the buffer is returned as it is. */
    method StopRecording() returns (captured: seq<Chunk>)
      modifies this
      ensures !recording
      ensures captured == audioBuffer == old(audioBuffer)
      ensures stream == old(stream)
    {
      recording := false;
      captured := audioBuffer;
    }

    /** _audio_callback: one copy of the chunk is appended while armed; otherwise nothing changes. */
    method AudioCallback(indata: Chunk)
      requires Valid() && Shaped([indata], channels)
      modifies this
      ensures Valid()
      ensures audioBuffer == if old(recording) then old(audioBuffer) + [indata] else old(audioBuffer)
      ensures recording == old(recording) && stream == old(stream)
    {
      if recording {
        audioBuffer := audioBuffer + [indata];
      }
    }

    /** The stream delivering several chunks in a row, one callback per chunk. */
    method Deliver(chunks: seq<Chunk>)
      requires Valid() && Shaped(chunks, channels)
      modifies this
      ensures Valid()
      ensures audioBuffer == if old(recording) then old(audioBuffer) + chunks else old(audioBuffer)
      ensures recording == old(recording) && stream == old(stream)
    {
      for k := 0 to |chunks|
        invariant Valid()
        invariant audioBuffer == if recording then old(audioBuffer) + chunks[..k] else old(audioBuffer)
        invariant recording == old(recording) && stream == old(stream)
      {
        assert Shaped([chunks[k]], channels) by {
          forall j | 0 <= j < |chunks[k]| ensures |[chunks[k]][0][j]| == channels {
          }
        }
        AudioCallback(chunks[k]);
        assert chunks[..k + 1] == chunks[..k] + [chunks[k]];
      }
      assert chunks[..|chunks|] == chunks;
    }

    /**
     * process_audio_buffer: (None, 0) for an empty buffer; otherwise the
     * buffer read as audio at the recorder's sample rate. The buffer is not changed.
     */
    function ProcessAudioBuffer(): (r: (Option<seq<real>>, real))
      reads this
      requires samplerate > 0
      ensures r.0 == None <==> audioBuffer == []
      ensures r.0 == None ==> r.1 == 0.0
      ensures r.0.Some? ==> r == (Some(ReadAudioFromBuffer(audioBuffer, samplerate).samples),
                                   ReadAudioFromBuffer(audioBuffer, samplerate).duration)
    {
      if audioBuffer == [] then (None, 0.0)
      else
        var a := ReadAudioFromBuffer(audioBuffer, samplerate);
        (Some(a.samples), a.duration)
    }
  }
}
