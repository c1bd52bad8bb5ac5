/**
 * Transcript assembly (tyni_wispr/transcription.py): the segment texts joined
 * with single spaces and stripped; exceptions raised by the model are re-raised,
 * out-of-memory after clearing the GPU cache when CUDA is available.
 * The Whisper model is abstract: its outcome is an input value.
 */
module Transcription {
  import opened Wrappers
  import opened Text

  /** What iterating model.transcribe(audio) produces: the segment texts, or the exception raised. */
  datatype TranscribeOutcome =
    | Segments(texts: seq<string>)
    | CudaOutOfMemory
    | OtherFailure

  /** The exception transcribe_audio re-raises; for out-of-memory, whether the cache was cleared first. */
  datatype TranscriptionError = GpuOutOfMemory(cacheCleared: bool) | TranscriptionFailed

  /** `" ".join(parts)`. */
  function Join(parts: seq<string>): string {
    if parts == [] then []
    else if |parts| == 1 then parts[0]
    else Join(parts[..|parts| - 1]) + " " + parts[|parts| - 1]
  }

  /** Where part i starts in the joined text: the lengths of the earlier parts, each followed by one separator. */
  function Offset(parts: seq<string>, i: nat): nat
    requires i <= |parts|
  {
    if i == 0 then 0 else Offset(parts, i - 1) + |parts[i - 1]| + 1
  }

  lemma {:induction false} OffsetOfPrefix(parts: seq<string>, n: nat, i: nat)
    requires i <= n <= |parts|
    ensures Offset(parts[..n], i) == Offset(parts, i)
  {
    if i > 0 {
      OffsetOfPrefix(parts, n, i - 1);
      assert parts[..n][i - 1] == parts[i - 1];
    }
  }

  lemma {:induction false} OffsetMonotone(parts: seq<string>, i: nat, k: nat)
    requires i <= k <= |parts|
    ensures Offset(parts, i) <= Offset(parts, k)
  {
    if i < k {
      OffsetMonotone(parts, i, k - 1);
    }
  }

  /** Joining adds exactly one separator between neighbours and nothing else. */
  lemma {:induction false} JoinLength(parts: seq<string>)
    requires parts != []
    ensures |Join(parts)| + 1 == Offset(parts, |parts|)
  {
    var n := |parts|;
    if n > 1 {
      JoinLength(parts[..n - 1]);
      OffsetOfPrefix(parts, n - 1, n - 1);
    }
  }

  /**
   * Part i sits at Offset(parts, i) in the joined text; with JoinLength and
   * JoinSeparator this says the parts are laid end to end with exactly one
   * space between neighbours.
   */
  lemma {:induction false} JoinPart(parts: seq<string>, i: nat)
    requires 0 <= i < |parts|
    ensures Offset(parts, i) + |parts[i]| <= |Join(parts)|
    ensures Join(parts)[Offset(parts, i)..Offset(parts, i) + |parts[i]|] == parts[i]
  {
    var n := |parts|;
    if n == 1 {
      assert Join(parts) == parts[0];
    } else if i == n - 1 {
      JoinPartLast(parts);
    } else {
      var init := parts[..n - 1];
      var u, j := Join(init), Join(parts);
      assert j == u + " " + parts[n - 1];
      var o := Offset(parts, i);
      JoinPart(init, i);
      OffsetOfPrefix(parts, n - 1, i);
      assert init[i] == parts[i];
      assert j[o..o + |parts[i]|] == u[o..o + |parts[i]|];
    }
  }

  /** The last part ends the joined text, right after the last separator. */
  lemma JoinPartLast(parts: seq<string>)
    requires |parts| > 1
    ensures Offset(parts, |parts| - 1) + |parts[|parts| - 1]| == |Join(parts)|
    ensures Join(parts)[Offset(parts, |parts| - 1)..] == parts[|parts| - 1]
  {
    var n := |parts|;
    var init := parts[..n - 1];
    var u, j := Join(init), Join(parts);
    assert j == u + " " + parts[n - 1];
    JoinLength(init);
    OffsetOfPrefix(parts, n - 1, n - 1);
    assert Offset(parts, n - 1) == |u| + 1;
    assert j[|u| + 1..] == parts[n - 1];
  }

  /** The character just before part i (i >= 1) is the separating space. */
  lemma {:induction false} JoinSeparator(parts: seq<string>, i: nat)
    requires 1 <= i < |parts|
    ensures 0 < Offset(parts, i) <= |Join(parts)|
    ensures Join(parts)[Offset(parts, i) - 1] == ' '
  {
    var n := |parts|;
    var init := parts[..n - 1];
    var u := Join(init);
    JoinLength(init);
    OffsetOfPrefix(parts, n - 1, i);
    if i < n - 1 {
      JoinSeparator(init, i);
      assert Join(parts)[..|u|] == u;
    } else {
      OffsetOfPrefix(parts, n - 1, n - 1);
    }
  }

  /** Appending a segment appends a separator and its text. */
  lemma JoinSnoc(parts: seq<string>, s: string)
    requires parts != []
    ensures Join(parts + [s]) == Join(parts) + " " + s
  {
    assert (parts + [s])[..|parts|] == parts;
  }

  /**
   * transcribe_audio: the stripped join of the segment texts, or the error
   * re-raised; on out-of-memory the cache is cleared exactly when CUDA is available.
   */
  function TranscribeAudio(outcome: TranscribeOutcome, cudaAvailable: bool): (r: Result<string, TranscriptionError>)
    ensures r.Success? <==> outcome.Segments?
    ensures outcome.Segments? ==> r.value == Strip(Join(outcome.texts))
    ensures outcome.CudaOutOfMemory? ==> r == Failure(GpuOutOfMemory(cudaAvailable))
    ensures outcome.OtherFailure? ==> r == Failure(TranscriptionFailed)
  {
    match outcome
    case Segments(texts) => Success(Strip(Join(texts)))
    case CudaOutOfMemory => Failure(GpuOutOfMemory(cudaAvailable))
    case OtherFailure => Failure(TranscriptionFailed)
  }

  /** A transcript never starts or ends with whitespace, and no segments give "". */
  lemma TranscriptStripped(texts: seq<string>, cudaAvailable: bool)
    ensures var r := TranscribeAudio(Segments(texts), cudaAvailable);
            r.Success? && IsStripped(r.value) && |r.value| <= |Join(texts)|
    ensures texts == [] ==> TranscribeAudio(Segments(texts), cudaAvailable) == Success([])
  {
    StripFacts(Join(texts));
  }

  /** The transcript is empty exactly when the joined segments are all whitespace. */
  lemma EmptyTranscriptIff(texts: seq<string>, cudaAvailable: bool)
    ensures TranscribeAudio(Segments(texts), cudaAvailable) == Success([]) <==> AllSpace(Join(texts))
  {
    StripEmptyIff(Join(texts));
  }

  /**
   * Whisper's usual segments, each with one leading space before stripped
   * text, give their texts separated by double spaces: the join adds one
   * space, strip removes only the first.
   */
  lemma LeadingSpaceSegments(a: string, b: string, cudaAvailable: bool)
    requires a != [] && b != [] && IsStripped(a) && IsStripped(b)
    ensures TranscribeAudio(Segments([" " + a, " " + b]), cudaAvailable) == Success(a + "  " + b)
  {
    var parts := [" " + a, " " + b];
    assert parts[..1] == [" " + a];
    var j := Join(parts);
    var t := a + "  " + b;
    assert Join(parts[..1]) == " " + a;
    assert j == (" " + a) + " " + (" " + b);
    assert j == " " + t;
    assert j[1..] == t;
    assert t[0] == a[0] && t[|t| - 1] == b[|b| - 1];
    assert TrimLeft(j) == TrimLeft(t) == t;
    StripOfStripped(t);
  }
}
