/**
 * Audio samples and chunk lists as the listening side sees them: mono float samples,
 * chunks of them as delivered by the microphone, and the concatenation that
 * `np.concatenate` performs on a chunk list.
 */
module Samples {
  import opened Wrappers

  type Sample = real
  type Chunk = seq<Sample>

  /** The in-order concatenation of a list of chunks. */
  function Concat(chunks: seq<Chunk>): seq<Sample>
  {
    if |chunks| == 0 then [] else chunks[0] + Concat(chunks[1..])
  }

  /** The number of samples held by a list of chunks. */
  function TotalLength(chunks: seq<Chunk>): nat
  {
    if |chunks| == 0 then 0 else |chunks[0]| + TotalLength(chunks[1..])
  }

  lemma {:induction false} ConcatAppend(a: seq<Chunk>, b: seq<Chunk>)
    ensures Concat(a + b) == Concat(a) + Concat(b)
  {
    if |a| == 0 {
      assert a + b == b;
    } else {
      assert (a + b)[1..] == a[1..] + b;
      ConcatAppend(a[1..], b);
    }
  }

  lemma {:induction false} ConcatLength(chunks: seq<Chunk>)
    ensures |Concat(chunks)| == TotalLength(chunks)
  {
    if |chunks| > 0 {
      ConcatLength(chunks[1..]);
    }
  }

  /** The concatenation is empty exactly when every chunk is empty. */
  lemma {:induction false} ConcatEmpty(chunks: seq<Chunk>)
    ensures Concat(chunks) == [] <==> forall i :: 0 <= i < |chunks| ==> chunks[i] == []
  {
    if |chunks| > 0 {
      ConcatEmpty(chunks[1..]);
      assert forall i :: 1 <= i < |chunks| ==> chunks[i] == chunks[1..][i - 1];
    }
  }

  /** The last `n` elements of `s` (all of `s` if it is shorter): Python's `s[-n:]` for n > 0. */
  function Last<T>(s: seq<T>, n: nat): (r: seq<T>)
  {
    if |s| <= n then s else s[|s| - n..]
  }

  /** Keeping the last `n` elements, then appending and keeping the last `n` again, keeps
      the last `n` elements of the whole history. */
  lemma LastAppend<T>(s: seq<T>, t: seq<T>, n: nat)
    ensures Last(Last(s, n) + t, n) == Last(s + t, n)
  {
    if |s| > n {
      var k := |s| - n;
      assert Last(s, n) + t == (s + t)[k..];
      if |Last(s, n) + t| > n {
        assert Last(Last(s, n) + t, n) == (s + t)[|s + t| - n..];
      }
    }
  }

  /** What a speech recognizer returns (listen/transcriber_base.py). */
  datatype Transcription = Transcription(text: string, language: string, confidence: real)

  /** A speech recognizer: samples in, a transcription out, or the message of the
      exception it raised. */
  type Asr = seq<Sample> -> Result<Transcription, string>
}
