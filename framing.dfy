/**
 * Fixed-size framing of a pending sample buffer, as the voice-activity detectors do it:
 * the buffer is cut into whole frames from the front and the remainder, shorter than
 * one frame, is kept for the next call.
 */
module Framing {
  import opened Samples

  /** The per-frame verdicts of a model answering a speech probability per frame:
      speech when the probability reaches the threshold. */
  function SpeechVerdicts(probs: seq<real>, threshold: real): (v: seq<bool>)
    ensures |v| == |probs|
    ensures forall i :: 0 <= i < |probs| ==> v[i] == (probs[i] >= threshold)
  {
    seq(|probs|, i requires 0 <= i < |probs| => probs[i] >= threshold)
  }

  /** Raising the threshold only turns speech verdicts into silence, never the reverse. */
  lemma SpeechVerdictsMonotone(probs: seq<real>, lo: real, hi: real)
    requires lo <= hi
    ensures forall i :: 0 <= i < |probs| && SpeechVerdicts(probs, hi)[i] ==> SpeechVerdicts(probs, lo)[i]
  {
  }

  /** Each frame's verdict depends on its own probability alone: judging two batches of
      frames one after the other gives the verdicts of judging them together. */
  lemma SpeechVerdictsAppend(a: seq<real>, b: seq<real>, threshold: real)
    ensures SpeechVerdicts(a + b, threshold) == SpeechVerdicts(a, threshold) + SpeechVerdicts(b, threshold)
  {
  }

  /** Some verdict is speech exactly when some probability reaches the threshold. */
  lemma SpeechVerdictsSomeSpeech(probs: seq<real>, threshold: real)
    ensures true in SpeechVerdicts(probs, threshold) <==> exists i :: 0 <= i < |probs| && probs[i] >= threshold
  {
    var v := SpeechVerdicts(probs, threshold);
    if true in v {
      var i :| 0 <= i < |v| && v[i];
      assert probs[i] >= threshold;
    }
  }

  /** The whole frames of `buf`, in order. */
  function Frames(buf: seq<Sample>, size: nat): seq<Chunk>
    requires size > 0
    decreases |buf|
  {
    if |buf| < size then [] else [buf[..size]] + Frames(buf[size..], size)
  }

  /** What is left of `buf` once its whole frames are cut off. */
  function Tail(buf: seq<Sample>, size: nat): seq<Sample>
    requires size > 0
    decreases |buf|
  {
    if |buf| < size then buf else Tail(buf[size..], size)
  }

  /** Cutting `buf` yields the frames, in order, followed by the tail: together they give
      back `buf`. */
  lemma {:induction false} FramesConcat(buf: seq<Sample>, size: nat)
    requires size > 0
    ensures Concat(Frames(buf, size)) + Tail(buf, size) == buf
    decreases |buf|
  {
    if |buf| >= size {
      var rest := buf[size..];
      FramesConcat(rest, size);
      var fs := Frames(buf, size);
      assert fs[1..] == Frames(rest, size);
      assert Concat(fs) == buf[..size] + Concat(Frames(rest, size));
      assert buf == buf[..size] + rest;
    }
  }

  /** Cutting `buf` yields ⌊|buf|/size⌋ frames of exactly `size` samples (stated without
      division: the frames cover all but fewer than `size` samples) and a tail shorter than
      one frame. */
  lemma {:induction false} FramesCount(buf: seq<Sample>, size: nat)
    requires size > 0
    ensures |Frames(buf, size)| * size + |Tail(buf, size)| == |buf|
    ensures forall i :: 0 <= i < |Frames(buf, size)| ==> |Frames(buf, size)[i]| == size
    ensures |Tail(buf, size)| < size
    decreases |buf|
  {
    if |buf| >= size {
      var rest := buf[size..];
      FramesCount(rest, size);
      var fs := Frames(buf, size);
      assert |fs| * size == |Frames(rest, size)| * size + size;
      assert forall i :: 1 <= i < |fs| ==> fs[i] == Frames(rest, size)[i - 1];
    }
  }

  lemma FramesSplit(buf: seq<Sample>, size: nat)
    requires size > 0
    ensures |Frames(buf, size)| * size + |Tail(buf, size)| == |buf|
    ensures forall i :: 0 <= i < |Frames(buf, size)| ==> |Frames(buf, size)[i]| == size
    ensures |Tail(buf, size)| < size
    ensures Concat(Frames(buf, size)) + Tail(buf, size) == buf
  {
    FramesConcat(buf, size);
    FramesCount(buf, size);
  }

  /** The remainder is the suffix of `buf` that follows its last whole frame. */
  lemma TailIsSuffix(buf: seq<Sample>, size: nat)
    requires size > 0
    ensures |Frames(buf, size)| * size <= |buf|
    ensures Tail(buf, size) == buf[|Frames(buf, size)| * size..]
  {
    FramesSplit(buf, size);
    var n := |Concat(Frames(buf, size))|;
    assert buf[n..] == Tail(buf, size);
  }

  /** Cutting one frame off the front of a pending buffer whose frames are the suffix
      `fr[k..]` of a frame list leaves the suffix `fr[k + 1..]` and the same tail. */
  lemma FramesAdvance(buf: seq<Sample>, fr: seq<Chunk>, k: nat, size: nat)
    requires size > 0 && |buf| >= size
    requires k <= |fr| && Frames(buf, size) == fr[k..]
    ensures k < |fr| && fr[k] == buf[..size]
    ensures Frames(buf[size..], size) == fr[k + 1..]
    ensures Tail(buf[size..], size) == Tail(buf, size)
  {
    assert Frames(buf, size) == [buf[..size]] + Frames(buf[size..], size);
    assert fr[k..][1..] == fr[k + 1..];
  }

  /** A buffer shorter than a frame has no frames and is its own tail. */
  lemma FramesShort(buf: seq<Sample>, size: nat)
    requires size > 0 && |buf| < size
    ensures Frames(buf, size) == [] && Tail(buf, size) == buf
  {
  }
}
