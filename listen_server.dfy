/**
 * The listening server of listen/mcp_server.py: module-level state (listening flag,
 * chunk buffer, last transcription, the "transcription ready" event, lazily created
 * components) and the handlers and tools that update it. The microphone, the voice
 * activity detector, the transcriber and the coordinator are abstract collaborators:
 * what is asked of them is an ordered trace, what they answer is an input. The detector's
 * speech callbacks are methods the environment calls.
 */
module ListenServer {
  import opened Wrappers
  import opened Samples

  /** What the server asks of its collaborators, in order. */
  datatype Event =
    | VadFed(chunk: Chunk) | AudioStarted | AudioStopped | VadReset
    | TtsStopSignalled | SpeechReported
    | CoordinatorListening(on: bool)
    | Transcribed(samples: nat)

  /** What creating the detector and the transcriber does (either constructor may raise). */
  datatype InitAttempt = InitAttempt(vad: Outcome<string>, transcriber: Outcome<string>)

  /** The statuses the tools answer; `ReplyText` gives their text. */
  datatype Reply =
    | AlreadyListening | ListeningStarted | StartError(msg: string)
    | NotListening | ListeningStopped
    | TimedOut | NoTranscription | Text(text: string)
    | NoAudioBuffered | TranscriptionFailed

  function ReplyText(r: Reply): string
  {
    match r
    case AlreadyListening => "Already listening."
    case ListeningStarted => "Listening started. Speak now - I'll transcribe after 2s of silence."
    case StartError(msg) => "Error starting listening: " + msg
    case NotListening => "Not currently listening."
    case ListeningStopped => "Listening stopped."
    case TimedOut => "[Timeout: No speech detected]"
    case NoTranscription => "[No transcription available]"
    case Text(text) => text
    case NoAudioBuffered => "[No audio buffered]"
    case TranscriptionFailed => "[Transcription failed]"
  }

  class ListenServer {
    var listening: bool
    var buffer: seq<Chunk>
    var lastTranscription: Option<Transcription>
    /** The `_transcription_ready` event. */
    var ready: bool
    var haveAudio: bool
    var haveVad: bool
    var haveTranscriber: bool
    var trace: seq<Event>

    /** While listening every component exists. */
    ghost predicate Valid()
      reads this
    {
      listening ==> haveAudio && haveVad && haveTranscriber
    }

    constructor ()
      ensures Valid()
      ensures !listening && buffer == [] && lastTranscription.None? && !ready
      ensures !haveAudio && !haveVad && !haveTranscriber && trace == []
    {
      listening := false;
      buffer := [];
      lastTranscription := None;
      ready := false;
      haveAudio := false;
      haveVad := false;
      haveTranscriber := false;
      trace := [];
    }

    /** `_on_audio_chunk`: ignored unless listening with a detector; otherwise buffered,
        then handed to the detector. */
    method OnAudioChunk(chunk: Chunk)
      modifies this`buffer, this`trace
      ensures !(old(listening) && haveVad) ==> buffer == old(buffer) && trace == old(trace)
      ensures old(listening) && haveVad ==> buffer == old(buffer) + [chunk] && trace == old(trace) + [VadFed(chunk)]
    {
      if !listening || !haveVad {
        return;
      }
      buffer := buffer + [chunk];
      trace := trace + [VadFed(chunk)];
    }

    /** `_on_speech_start`: drops the audio buffered so far, then interrupts speech. */
    method OnSpeechStart()
      modifies this`buffer, this`trace
      ensures buffer == []
      ensures trace == old(trace) + [TtsStopSignalled, SpeechReported]
    {
      buffer := [];
      trace := trace + [TtsStopSignalled, SpeechReported];
    }

    /** `_on_speech_end`: with audio buffered, takes it all; with a transcriber and
        non-empty audio, transcribes it, stores the result and sets the ready event. A
        raising transcriber is the failure, after the buffer was taken. */
    method OnSpeechEnd(asr: Asr) returns (r: Outcome<string>)
      modifies this`buffer, this`trace, this`lastTranscription, this`ready
      ensures old(buffer) == [] ==> r == Pass && unchanged(this)
      ensures old(buffer) != [] ==> buffer == []
      ensures old(buffer) != [] ==>
        var audio := Concat(old(buffer));
        if haveTranscriber && |audio| > 0 then
          && trace == old(trace) + [Transcribed(|audio|)]
          && match asr(audio)
             case Success(t) => r == Pass && lastTranscription == Some(t) && ready
             case Failure(msg) => r == Fail(msg) && lastTranscription == old(lastTranscription) && ready == old(ready)
        else
          r == Pass && trace == old(trace) && lastTranscription == old(lastTranscription) && ready == old(ready)
    {
      if buffer == [] {
        return Pass;
      }
      var audio := Concat(buffer);
      buffer := [];
      if haveTranscriber && |audio| > 0 {
        trace := trace + [Transcribed(|audio|)];
        var result := asr(audio);
        if result.Failure? {
          return Fail(result.error);
        }
        lastTranscription := Some(result.value);
        ready := true;
      }
      r := Pass;
    }

    /** `_initialize_components`: creates each missing component in turn; a raising
        constructor stops the creation there. */
    method InitializeComponents(init: InitAttempt) returns (r: Outcome<string>)
      modifies this`haveAudio, this`haveVad, this`haveTranscriber
      ensures haveAudio
      ensures haveVad <==> old(haveVad) || init.vad.Pass?
      ensures haveTranscriber <==> old(haveTranscriber) || (haveVad && init.transcriber.Pass?)
      ensures r.Pass? <==> haveVad && haveTranscriber
      ensures !old(haveVad) && init.vad.Fail? ==> r == init.vad
      ensures haveVad && !old(haveTranscriber) && init.transcriber.Fail? ==> r == init.transcriber
    {
      haveAudio := true;
      if !haveVad {
        if init.vad.Fail? {
          return init.vad;
        }
        haveVad := true;
      }
      if !haveTranscriber {
        if init.transcriber.Fail? {
          return init.transcriber;
        }
        haveTranscriber := true;
      }
      r := Pass;
    }

    /** `start_listening`: answers "Already listening." while listening; otherwise
        creates the components, listens, clears the ready event and opens the microphone.
        Any failure of those steps leaves the server not listening and is reported. */
    method StartListening(init: InitAttempt, audioStart: Outcome<string>) returns (reply: Reply)
      requires Valid()
      modifies this
      ensures Valid()
      ensures old(listening) ==> reply == AlreadyListening && unchanged(this)
      ensures !old(listening) ==> buffer == old(buffer) && lastTranscription == old(lastTranscription)
      ensures !old(listening) && reply != ListeningStarted ==> !listening && reply.StartError? && trace == old(trace) + (if haveTranscriber && haveVad then [AudioStarted] else [])
      ensures !old(listening) ==>
        (reply == ListeningStarted <==>
          (old(haveVad) || init.vad.Pass?) && (old(haveTranscriber) || init.transcriber.Pass?) && audioStart.Pass?)
      ensures reply == ListeningStarted ==> listening && !ready && trace == old(trace) + [AudioStarted, CoordinatorListening(true)]
    {
      if listening {
        return AlreadyListening;
      }
      var created := InitializeComponents(init);
      if created.Fail? {
        return StartError(created.error);
      }
      listening := true;
      ready := false;
      trace := trace + [AudioStarted];
      if audioStart.Fail? {
        listening := false;
        return StartError(audioStart.error);
      }
      trace := trace + [CoordinatorListening(true)];
      reply := ListeningStarted;
    }

    /** `stop_listening`: answers "Not currently listening." when not listening;
        otherwise stops listening, the microphone and the detector. */
    method StopListening() returns (reply: Reply)
      requires Valid()
      modifies this`listening, this`trace
      ensures Valid()
      ensures !old(listening) ==> reply == NotListening && unchanged(this)
      ensures old(listening) ==>
                && reply == ListeningStopped && !listening
                && trace == old(trace) + [AudioStopped, VadReset, CoordinatorListening(false)]
    {
      if !listening {
        return NotListening;
      }
      listening := false;
      trace := trace + [AudioStopped, VadReset, CoordinatorListening(false)];
      reply := ListeningStopped;
    }

    /** `get_transcription`: when waiting, the ready event is cleared and `arrived` is
        what another thread stores before the timeout (None: the wait timed out).
        Without a transcription the answer is the "none available" status. */
    method GetTranscription(wait: bool, arrived: Option<Transcription>) returns (reply: Reply)
      modifies this`ready, this`lastTranscription
      ensures wait && arrived.None? ==> reply == TimedOut && !ready && lastTranscription == old(lastTranscription)
      ensures wait && arrived.Some? ==> reply == Text(arrived.value.text) && ready && lastTranscription == arrived
      ensures !wait ==> unchanged(this)
      ensures !wait ==> reply == (if lastTranscription.None? then NoTranscription else Text(lastTranscription.value.text))
    {
      if wait {
        ready := false;
        if arrived.None? {
          return TimedOut;
        }
        lastTranscription := arrived;
        ready := true;
      }
      if lastTranscription.None? {
        return NoTranscription;
      }
      reply := Text(lastTranscription.value.text);
    }

    /** `transcribe_now`: "[No audio buffered]" without audio; otherwise takes the
        buffer first, creates the components when there is no transcriber (a raising
        constructor is the failure), and transcribes non-empty audio. */
    method TranscribeNow(init: InitAttempt, asr: Asr) returns (r: Result<Reply, string>)
      modifies this`buffer, this`trace, this`lastTranscription, this`haveAudio, this`haveVad, this`haveTranscriber
      ensures old(buffer) == [] ==> r == Success(NoAudioBuffered) && unchanged(this)
      ensures old(buffer) != [] ==> buffer == [] && haveTranscriber == (old(haveTranscriber) || (haveVad && init.transcriber.Pass?))
      ensures old(buffer) != [] ==>
        var audio := Concat(old(buffer));
        if haveTranscriber && |audio| > 0 then
          && trace == old(trace) + [Transcribed(|audio|)]
          && match asr(audio)
             case Success(t) => r == Success(Text(t.text)) && lastTranscription == Some(t)
             case Failure(msg) => r == Failure(msg) && lastTranscription == old(lastTranscription)
        else
          && trace == old(trace) && lastTranscription == old(lastTranscription)
          && (r.Success? ==> r.value == TranscriptionFailed)
          && (r.Failure? ==> !old(haveTranscriber))
    {
      if buffer == [] {
        return Success(NoAudioBuffered);
      }
      var audio := Concat(buffer);
      buffer := [];
      if !haveTranscriber {
        var created := InitializeComponents(init);
        if created.Fail? {
          return Failure(created.error);
        }
      }
      if haveTranscriber && |audio| > 0 {
        trace := trace + [Transcribed(|audio|)];
        var result := asr(audio);
        if result.Failure? {
          return Failure(result.error);
        }
        lastTranscription := Some(result.value);
        return Success(Text(result.value.text));
      }
      r := Success(TranscriptionFailed);
    }
  }
}
