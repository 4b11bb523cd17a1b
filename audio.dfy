/**
 * The microphone capture object of listen/audio.py: a running flag, an optional handle on
 * the OS input stream, and the list of captured chunks, capped at MAX_BUFFER_CHUNKS with
 * the newest chunks kept. The OS stream itself is represented by the calls made on it.
 */
module Audio {
  import opened Wrappers
  import opened Samples

  const SAMPLE_RATE: int := 16000
  const CHANNELS: int := 1
  const BLOCK_SIZE: int := 512
  /** About ten minutes of audio at 16 kHz in blocks of 512 samples. */
  const MAX_BUFFER_CHUNKS: nat := 18750

  /** The parameters an input stream is opened with. */
  datatype Stream = InputStream(sampleRate: int, channels: int, blockSize: int)

  /** The stream the capture opens: 16 kHz, mono, 512-sample blocks. */
  const MIC_STREAM := InputStream(SAMPLE_RATE, CHANNELS, BLOCK_SIZE)

  /** How an attempt to open the microphone goes: the stream constructor or its `start()`
      may raise (a DeviceError), with the exception's message. */
  datatype OpenAttempt = Opens | ConstructorRaises(msg: string) | StartRaises(msg: string)

  datatype DeviceError = DeviceError(msg: string)

  /** Calls made on the OS input stream, in the order they are made. */
  datatype StreamCall = Construct(stream: Stream) | StartStream | StopStream | CloseStream

  /** The chunk list after one audio callback: the new chunk appended and, past the cap,
      trimmed to the newest MAX_BUFFER_CHUNKS chunks. */
  function Appended(buffer: seq<Chunk>, chunk: Chunk): seq<Chunk>
  {
    var b := buffer + [chunk];
    if |b| > MAX_BUFFER_CHUNKS then b[|b| - MAX_BUFFER_CHUNKS..] else b
  }

  /** Appending to the newest chunks of a history keeps the newest chunks of the extended
      history: after any number of callbacks the buffer holds the last min(n, MAX) chunks
      received, in order. */
  lemma {:induction false} AppendedKeepsNewest(received: seq<Chunk>, chunk: Chunk)
    ensures Appended(Last(received, MAX_BUFFER_CHUNKS), chunk) == Last(received + [chunk], MAX_BUFFER_CHUNKS)
    ensures |Appended(Last(received, MAX_BUFFER_CHUNKS), chunk)| <= MAX_BUFFER_CHUNKS
  {
    LastAppend(received, [chunk], MAX_BUFFER_CHUNKS);
  }

  class AudioCapture {
    /** Whether an `on_audio` callback was given to the constructor. */
    const hasOnAudio: bool
    var stream: Option<Stream>
    var isRunning: bool
    var buffer: seq<Chunk>
    /** Every chunk the callback delivered since the buffer was last emptied. */
    ghost var received: seq<Chunk>
    var calls: seq<StreamCall>
    /** The chunks handed to the `on_audio` callback, in order. */
    var forwarded: seq<Chunk>

    ghost predicate Valid()
      reads this
    {
      && (stream.Some? <==> isRunning)
      && buffer == Last(received, MAX_BUFFER_CHUNKS)
    }

    constructor (hasOnAudio: bool)
      ensures Valid()
      ensures this.hasOnAudio == hasOnAudio
      ensures stream == None && !isRunning && buffer == [] && calls == [] && forwarded == []
    {
      this.hasOnAudio := hasOnAudio;
      stream := None;
      isRunning := false;
      buffer := [];
      received := [];
      calls := [];
      forwarded := [];
    }

    /** Drops the stream handle, releasing the microphone. The stream's own `stop()` and
        `close()` are attempted and any exception they raise is swallowed, so the handle
        is dropped whatever they do. */
    method ForceCloseStream()
      modifies this`stream, this`calls
      ensures stream == None
      ensures calls == old(calls) + (if old(stream).Some? then [StopStream, CloseStream] else [])
    {
      if stream.Some? {
        calls := calls + [StopStream, CloseStream];
        stream := None;
      }
    }

    /** One block delivered by the OS: append with the cap, then hand it to `on_audio`. */
    method AudioCallback(chunk: Chunk)
      requires Valid()
      modifies this`buffer, this`received, this`forwarded
      ensures Valid()
      ensures received == old(received) + [chunk]
      ensures buffer == Appended(old(buffer), chunk)
      ensures |buffer| <= MAX_BUFFER_CHUNKS
      ensures forwarded == old(forwarded) + (if hasOnAudio then [chunk] else [])
    {
      AppendedKeepsNewest(received, chunk);
      buffer := buffer + [chunk];
      if |buffer| > MAX_BUFFER_CHUNKS {
        buffer := buffer[|buffer| - MAX_BUFFER_CHUNKS..];
      }
      received := received + [chunk];
      if hasOnAudio {
        forwarded := forwarded + [chunk];
      }
    }

    /** Opens the microphone unless already running. The buffer is emptied first; a
        failure to open rolls back to not running with no stream and re-raises. */
    method Start(attempt: OpenAttempt) returns (r: Outcome<DeviceError>)
      requires Valid()
      modifies this`isRunning, this`buffer, this`received, this`stream, this`calls
      ensures Valid()
      ensures old(isRunning) ==> r == Pass && unchanged(this)
      ensures !old(isRunning) ==> buffer == []
      ensures !old(isRunning) && attempt.Opens? ==>
        r == Pass && isRunning && stream == Some(MIC_STREAM)
        && calls == old(calls) + [Construct(MIC_STREAM), StartStream]
      ensures !old(isRunning) && attempt.ConstructorRaises? ==>
        r == Fail(DeviceError(attempt.msg)) && !isRunning && stream == None && calls == old(calls)
      ensures !old(isRunning) && attempt.StartRaises? ==>
        r == Fail(DeviceError(attempt.msg)) && !isRunning && stream == None
        && calls == old(calls) + [Construct(MIC_STREAM), StartStream, StopStream, CloseStream]
    {
      if isRunning {
        return Pass;
      }
      isRunning := true;
      buffer := [];
      received := [];
      match attempt
      case Opens =>
        stream := Some(MIC_STREAM);
        calls := calls + [Construct(MIC_STREAM), StartStream];
        r := Pass;
      case ConstructorRaises(msg) =>
        isRunning := false;
        ForceCloseStream();
        r := Fail(DeviceError(msg));
      case StartRaises(msg) =>
        stream := Some(MIC_STREAM);
        calls := calls + [Construct(MIC_STREAM), StartStream];
        isRunning := false;
        ForceCloseStream();
        r := Fail(DeviceError(msg));
    }

    /** Releases the microphone; a no-op when not running. */
    method Stop()
      requires Valid()
      modifies this`isRunning, this`stream, this`calls
      ensures Valid()
      ensures !isRunning && stream == None
      ensures !old(isRunning) ==> unchanged(this)
      ensures old(isRunning) ==> calls == old(calls) + [StopStream, CloseStream]
    {
      if !isRunning {
        return;
      }
      isRunning := false;
      ForceCloseStream();
    }

    /** All buffered audio, concatenated in order (empty if none), leaving the buffer empty. */
    method GetBuffer() returns (audio: seq<Sample>)
      requires Valid()
      modifies this`buffer, this`received
      ensures Valid()
      ensures audio == Concat(old(buffer))
      ensures audio == Concat(Last(old(received), MAX_BUFFER_CHUNKS))
      ensures buffer == []
    {
      if |buffer| == 0 {
        return [];
      }
      audio := Concat(buffer);
      buffer := [];
      received := [];
    }

    method ClearBuffer()
      requires Valid()
      modifies this`buffer, this`received
      ensures Valid()
      ensures buffer == []
    {
      buffer := [];
      received := [];
    }

    /** Stops and, if it was running before, starts again. */
    method Restart(attempt: OpenAttempt) returns (r: Outcome<DeviceError>)
      requires Valid()
      modifies this`isRunning, this`buffer, this`received, this`stream, this`calls
      ensures Valid()
      ensures !old(isRunning) ==> r == Pass && unchanged(this)
      ensures old(isRunning) ==> buffer == [] && (isRunning <==> attempt.Opens?) && (r == Pass <==> attempt.Opens?)
      ensures old(isRunning) && attempt.Opens? ==>
        stream == Some(MIC_STREAM) && calls == old(calls) + [StopStream, CloseStream, Construct(MIC_STREAM), StartStream]
      ensures old(isRunning) && attempt.ConstructorRaises? ==>
        r == Fail(DeviceError(attempt.msg)) && stream == None && calls == old(calls) + [StopStream, CloseStream]
      ensures old(isRunning) && attempt.StartRaises? ==>
        && r == Fail(DeviceError(attempt.msg)) && stream == None
        && calls == old(calls) + [StopStream, CloseStream, Construct(MIC_STREAM), StartStream, StopStream, CloseStream]
    {
      var wasRunning := isRunning;
      Stop();
      if wasRunning {
        r := Start(attempt);
      } else {
        r := Pass;
      }
    }
  }

  /** The module-level capture instance of listen/audio.py. */
  class CaptureRegistry {
    var capture: AudioCapture?

    ghost predicate Valid()
      reads this, capture
    {
      capture != null ==> capture.Valid()
    }

    constructor ()
      ensures capture == null
    {
      capture := null;
    }

    /** The existing instance, or a fresh one (created without an `on_audio` callback). */
    method GetCapture() returns (c: AudioCapture)
      requires Valid()
      modifies this
      ensures Valid()
      ensures capture == c
      ensures old(capture) != null ==> c == old(capture)
      ensures old(capture) == null ==> fresh(c) && !c.isRunning && c.stream == None && c.buffer == []
    {
      if capture == null {
        capture := new AudioCapture(false);
      }
      c := capture;
    }

    /** Stops the instance, if any, releasing the microphone, and forgets it. */
    method DestroyCapture()
      requires Valid()
      modifies this, capture
      ensures capture == null
      ensures old(capture) != null ==> !old(capture).isRunning && old(capture).stream == None && old(capture).Valid()
    {
      if capture != null {
        capture.Stop();
        capture := null;
      }
    }
  }
}
