/**
 * The push-to-talk recorder of listen/simple_ptt.py: start opens the microphone, stop
 * takes what was recorded, releases the microphone, saves the audio and transcribes it.
 * The transcriber engines, the clock that names the audio file and the file system are
 * collaborators: which engines can be loaded is an input, the chosen engine's answer is
 * an input function, and what the recorder does to the outside world is an ordered trace.
 */
module SimplePtt {
  import opened Wrappers
  import opened Samples
  import Audio

  /** The two speech-to-text engines, in order of preference. */
  datatype Engine = Parakeet | SpeechAnalyzer

  /** Which engines can be used: the Parakeet wrapper module listen/parakeet_transcriber.py
      imports (it needs only numpy and local modules; parakeet-mlx itself is imported
      later, when the first transcription loads the model), the SpeechAnalyzer module
      imports, and `is_speechanalyzer_available()` holds. */
  datatype Engines = Engines(parakeetWrapperImports: bool, analyzerImportable: bool, analyzerAvailable: bool)

  /** `_get_transcriber`: a cached engine is kept; otherwise Parakeet if its wrapper imports,
      then SpeechAnalyzer if it imports and is available, and otherwise none. */
  function ChooseTranscriber(cached: Option<Engine>, env: Engines): Option<Engine>
  {
    if cached.Some? then cached
    else if env.parakeetWrapperImports then Some(Parakeet)
    else if env.analyzerImportable && env.analyzerAvailable then Some(SpeechAnalyzer)
    else None
  }

  /** Parakeet is preferred whenever its wrapper imports; SpeechAnalyzer is used only when
      the wrapper does not import and it both imports and is available; a chosen engine
      stays chosen whatever becomes importable later. */
  lemma TranscriberFallback(cached: Option<Engine>, env: Engines, later: Engines)
    ensures cached.None? ==> (ChooseTranscriber(cached, env) == Some(Parakeet) <==> env.parakeetWrapperImports)
    ensures cached.None? ==> (ChooseTranscriber(cached, env) == Some(SpeechAnalyzer) <==>
      !env.parakeetWrapperImports && env.analyzerImportable && env.analyzerAvailable)
    ensures ChooseTranscriber(cached, env).None? <==>
      cached.None? && !env.parakeetWrapperImports && !(env.analyzerImportable && env.analyzerAvailable)
    ensures ChooseTranscriber(cached, env).Some? ==>
      ChooseTranscriber(ChooseTranscriber(cached, env), later) == ChooseTranscriber(cached, env)
  {
  }

  /** Why `stop()` raises: no engine could be loaded (a RuntimeError), or the engine's
      `transcribe` raised with a message. */
  datatype StopError = NoTranscriber | TranscriptionFailed(msg: string)

  function StopErrorMessage(e: StopError): string
  {
    match e
    case NoTranscriber =>
      "No STT transcriber available. Install with:\n"
        + "  - Parakeet (recommended): pip install parakeet-mlx\n"
        + "  - SpeechAnalyzer: Requires macOS 26+ and CLI build"
    case TranscriptionFailed(msg) => msg
  }

  /** What the recorder does outside itself, in order. */
  datatype Event =
    | ClearAudio | StartAudio
    | TakeBuffer(samples: nat) | ReleaseMic
    | SaveAudio(path: string) | Transcribe(engine: Engine, samples: nat)
    | Notify(text: string) | DeleteAudio(path: string)

  /** `output_dir / f"ptt_{timestamp}.flac"`. */
  function AudioPath(outputDir: string, timestamp: string): string
  {
    outputDir + "/ptt_" + timestamp + ".flac"
  }

  /** The part of `stop()` after the microphone is released. */
  datatype Finish = Finish(r: Result<Option<string>, StopError>, events: seq<Event>, transcriber: Option<Engine>,
                           lastTranscription: Option<string>, lastAudioPath: Option<string>)

  /** Empty audio answers None and touches nothing; otherwise the file is saved at
      `path` first, then the engine is chosen, then it transcribes; only a successful
      transcription becomes the last transcription and reaches the callback. */
  function Transcribed(samples: seq<Sample>, cached: Option<Engine>, lastText: Option<string>, lastPath: Option<string>,
                       env: Engines, asr: Asr, path: string, notify: bool): Finish
  {
    if samples == [] then Finish(Success(None), [], cached, lastText, lastPath)
    else
      var engine := ChooseTranscriber(cached, env);
      if engine.None? then Finish(Failure(NoTranscriber), [SaveAudio(path)], engine, lastText, Some(path))
      else
        var events := [SaveAudio(path), Transcribe(engine.value, |samples|)];
        match asr(samples)
        case Failure(msg) => Finish(Failure(TranscriptionFailed(msg)), events, engine, lastText, Some(path))
        case Success(t) =>
          Finish(Success(Some(t.text)), events + (if notify then [Notify(t.text)] else []), engine, Some(t.text), Some(path))
  }

  /** The ImportError the Parakeet model loader raises when parakeet-mlx is missing. */
  const PARAKEET_MLX_MISSING := "parakeet-mlx not installed. Run: pip install parakeet-mlx"

  /** A missing parakeet-mlx is not a reason to fall back: the wrapper imports, so
      Parakeet is chosen and kept, and the stop fails with the loader's ImportError once
      the saved audio reaches it. SpeechAnalyzer is never tried. */
  lemma ParakeetMlxMissingIsNoFallback(samples: seq<Sample>, lastText: Option<string>, lastPath: Option<string>,
                                       env: Engines, asr: Asr, path: string, notify: bool)
    requires env.parakeetWrapperImports && samples != [] && asr(samples) == Failure(PARAKEET_MLX_MISSING)
    ensures var f := Transcribed(samples, None, lastText, lastPath, env, asr, path, notify);
      && f.r == Failure(TranscriptionFailed(PARAKEET_MLX_MISSING)) && f.transcriber == Some(Parakeet)
      && f.events == [SaveAudio(path), Transcribe(Parakeet, |samples|)] && f.lastTranscription == lastText
  {
  }

  /** The recorder's fields and trace after a call reflect `f`, starting from trace `t0`. */
  predicate Finished(f: Finish, r: Result<Option<string>, StopError>, t0: seq<Event>, trace: seq<Event>,
                     transcriber: Option<Engine>, lastTranscription: Option<string>, lastAudioPath: Option<string>)
  {
    r == f.r && trace == t0 + f.events && transcriber == f.transcriber
    && lastTranscription == f.lastTranscription && lastAudioPath == f.lastAudioPath
  }

  /** The promises of `stop()` after the microphone is released: audio is saved before
      any engine sees it; empty audio is the only way to answer None; only a successful
      transcription replaces the last one and reaches the callback; a missing engine is
      reported as such. */
  lemma TranscribedOutcome(samples: seq<Sample>, cached: Option<Engine>, lastText: Option<string>,
                           lastPath: Option<string>, env: Engines, asr: Asr, path: string, notify: bool)
    ensures var f := Transcribed(samples, cached, lastText, lastPath, env, asr, path, notify);
      && (f.r == Success(None) <==> samples == [])
      && (samples == [] ==> f.events == [] && f.lastAudioPath == lastPath)
      && (samples != [] ==> f.lastAudioPath == Some(path) && |f.events| > 0 && f.events[0] == SaveAudio(path))
      && (f.r == Failure(NoTranscriber) <==> samples != [] && ChooseTranscriber(cached, env).None?)
      && (f.r.Success? && f.r.value.Some? ==> f.lastTranscription == f.r.value)
      && (f.r.Failure? ==> f.lastTranscription == lastText)
      && ((exists i :: 0 <= i < |f.events| && f.events[i].Notify?) <==> notify && f.r.Success? && samples != [])
  {
    var f := Transcribed(samples, cached, lastText, lastPath, env, asr, path, notify);
    if samples != [] && ChooseTranscriber(cached, env).Some? && asr(samples).Success? && notify {
      assert f.events[2].Notify?;
    }
  }

  class SimplePTTRecorder {
    const outputDir: string
    const hasOnTranscriptionReady: bool
    /** The recorder's own microphone capture. */
    const audio: Audio.AudioCapture
    var isRecording: bool
    var transcriber: Option<Engine>
    var lastTranscription: Option<string>
    var lastAudioPath: Option<string>
    var trace: seq<Event>

    ghost predicate Valid()
      reads this, audio
    {
      audio.Valid() && (isRecording <==> audio.isRunning)
    }

    /** Defaults in the source: the output directory is /tmp/claude-ptt, no callback. */
    constructor (outputDir: string, hasOnTranscriptionReady: bool)
      ensures Valid() && fresh(audio)
      ensures this.outputDir == outputDir && this.hasOnTranscriptionReady == hasOnTranscriptionReady
      ensures !isRecording && transcriber.None? && lastTranscription.None? && lastAudioPath.None? && trace == []
      ensures !audio.hasOnAudio && audio.buffer == []
    {
      this.outputDir := outputDir;
      this.hasOnTranscriptionReady := hasOnTranscriptionReady;
      audio := new Audio.AudioCapture(false);
      isRecording := false;
      transcriber := None;
      lastTranscription := None;
      lastAudioPath := None;
      trace := [];
    }

    /** `_get_transcriber`: the cached engine, or the first that can be used, cached. */
    method GetTranscriber(env: Engines) returns (r: Result<Engine, StopError>)
      modifies this`transcriber
      ensures transcriber == ChooseTranscriber(old(transcriber), env)
      ensures transcriber.Some? ==> r == Success(transcriber.value)
      ensures transcriber.None? ==> r == Failure(NoTranscriber)
    {
      if transcriber.None? {
        if env.parakeetWrapperImports {
          transcriber := Some(Parakeet);
          return Success(Parakeet);
        }
        if env.analyzerImportable && env.analyzerAvailable {
          transcriber := Some(SpeechAnalyzer);
          return Success(SpeechAnalyzer);
        }
        return Failure(NoTranscriber);
      }
      r := Success(transcriber.value);
    }

    /** `start()`: while recording nothing happens; otherwise the capture buffer is
        emptied, the microphone opened (its error is raised, leaving the recorder not
        recording) and the recorder records. */
    method Start(attempt: Audio.OpenAttempt) returns (r: Outcome<Audio.DeviceError>)
      requires Valid()
      modifies this`isRecording, this`trace, audio`isRunning, audio`buffer, audio`received, audio`stream, audio`calls
      ensures Valid()
      ensures old(isRecording) ==> r == Pass && unchanged(this) && unchanged(audio)
      ensures !old(isRecording) ==>
        && trace == old(trace) + [ClearAudio, StartAudio]
        && audio.buffer == []
        && (r.Pass? <==> attempt.Opens?)
        && (isRecording <==> attempt.Opens?)
    {
      if isRecording {
        return Pass;
      }
      audio.ClearBuffer();
      trace := trace + [ClearAudio, StartAudio];
      r := audio.Start(attempt);
      if r.Fail? {
        return;
      }
      isRecording := true;
    }

    /** What `stop()` does once the microphone is released, as a function: `Transcribed`
        gives the outcome, the events and the new transcriber and transcription fields. */
    method SaveAndTranscribe(samples: seq<Sample>, env: Engines, asr: Asr, timestamp: string)
      returns (r: Result<Option<string>, StopError>)
      modifies this`trace, this`transcriber, this`lastTranscription, this`lastAudioPath
      ensures Finished(Transcribed(samples, old(transcriber), old(lastTranscription), old(lastAudioPath), env, asr,
                                   AudioPath(outputDir, timestamp), hasOnTranscriptionReady),
                       r, old(trace), trace, transcriber, lastTranscription, lastAudioPath)
    {
      if |samples| == 0 {
        return Success(None);
      }
      var path := AudioPath(outputDir, timestamp);
      trace := trace + [SaveAudio(path)];
      lastAudioPath := Some(path);
      var engine := GetTranscriber(env);
      if engine.Failure? {
        return Failure(engine.error);
      }
      trace := trace + [Transcribe(engine.value, |samples|)];
      var result := asr(samples);
      if result.Failure? {
        return Failure(TranscriptionFailed(result.error));
      }
      lastTranscription := Some(result.value.text);
      if hasOnTranscriptionReady {
        trace := trace + [Notify(result.value.text)];
      }
      r := Success(Some(result.value.text));
    }

    /** `stop()`: when not recording it answers None and changes nothing. Otherwise it
        stops recording, takes the buffered audio and releases the microphone, and only
        then saves, transcribes and reports the audio as `Transcribed` says. */
    method Stop(env: Engines, asr: Asr, timestamp: string) returns (r: Result<Option<string>, StopError>)
      requires Valid()
      modifies this`isRecording, this`trace, this`transcriber, this`lastTranscription, this`lastAudioPath,
        audio`isRunning, audio`buffer, audio`received, audio`stream, audio`calls
      ensures Valid()
      ensures !old(isRecording) ==> r == Success(None) && unchanged(this) && unchanged(audio)
      ensures old(isRecording) ==>
        && !isRecording && !audio.isRunning && audio.stream == None && audio.buffer == []
        && Finished(Transcribed(Concat(old(audio.buffer)), old(transcriber), old(lastTranscription), old(lastAudioPath),
                                env, asr, AudioPath(outputDir, timestamp), hasOnTranscriptionReady),
                    r, old(trace) + [TakeBuffer(|Concat(old(audio.buffer))|), ReleaseMic],
                    trace, transcriber, lastTranscription, lastAudioPath)
    {
      if !isRecording {
        return Success(None);
      }
      isRecording := false;
      var samples := audio.GetBuffer();
      trace := trace + [TakeBuffer(|samples|)];
      audio.Stop();
      trace := trace + [ReleaseMic];
      r := SaveAndTranscribe(samples, env, asr, timestamp);
    }

    /** `clear()`: forgets the last transcription; the saved audio file, if it still
        exists, is deleted and forgotten. */
    method Clear(fileExists: bool)
      modifies this`lastTranscription, this`lastAudioPath, this`trace
      ensures lastTranscription.None?
      ensures old(lastAudioPath).Some? && fileExists ==>
        lastAudioPath.None? && trace == old(trace) + [DeleteAudio(old(lastAudioPath).value)]
      ensures !(old(lastAudioPath).Some? && fileExists) ==>
        lastAudioPath == old(lastAudioPath) && trace == old(trace)
    {
      lastTranscription := None;
      if lastAudioPath.Some? && fileExists {
        trace := trace + [DeleteAudio(lastAudioPath.value)];
        lastAudioPath := None;
      }
    }
  }

  /** The module-level recorder of listen/simple_ptt.py, next to the module-level
      microphone capture of listen/audio.py. */
  class PttRecorderRegistry {
    var recorder: SimplePTTRecorder?
    const captures: Audio.CaptureRegistry

    ghost predicate Valid()
      reads this, recorder, if recorder != null then {recorder.audio} else {}, captures, captures.capture
    {
      (recorder != null ==> recorder.Valid()) && captures.Valid()
    }

    constructor (captures: Audio.CaptureRegistry)
      ensures recorder == null && this.captures == captures
    {
      recorder := null;
      this.captures := captures;
    }

    /** `get_simple_ptt`: the existing recorder, or a new one in /tmp/claude-ptt. */
    method GetSimplePtt(hasOnTranscriptionReady: bool) returns (p: SimplePTTRecorder)
      requires Valid()
      modifies this
      ensures Valid()
      ensures recorder == p
      ensures old(recorder) != null ==> p == old(recorder)
      ensures old(recorder) == null ==>
        && fresh(p) && !p.isRecording && p.hasOnTranscriptionReady == hasOnTranscriptionReady
        && p.outputDir == "/tmp/claude-ptt" && p.transcriber.None? && p.lastTranscription.None?
        && p.lastAudioPath.None? && p.trace == []
    {
      if recorder == null {
        recorder := new SimplePTTRecorder("/tmp/claude-ptt", hasOnTranscriptionReady);
      }
      p := recorder;
    }

    /** `destroy_simple_ptt`: a recording in progress is stopped first (an error from
        that stop is raised and nothing else happens); then the module-level capture is
        destroyed and the recorder forgotten. */
    method DestroySimplePtt(env: Engines, asr: Asr, timestamp: string) returns (r: Outcome<StopError>)
      requires Valid()
      modifies this, recorder, if recorder != null then {recorder.audio} else {}, captures, captures.capture
      ensures old(recorder) == null ==> r == Pass && recorder == null && captures.capture == old(captures.capture)
      ensures old(recorder) != null && r.Fail? ==> old(recorder.isRecording) && recorder == old(recorder)
      ensures old(recorder) != null && r.Pass? ==> recorder == null && captures.capture == null
      ensures old(recorder) != null ==> !old(recorder).isRecording && !old(recorder).audio.isRunning
    {
      if recorder == null {
        return Pass;
      }
      if recorder.isRecording {
        var s := recorder.Stop(env, asr, timestamp);
        if s.Failure? {
          return Fail(s.error);
        }
      }
      captures.DestroyCapture();
      recorder := null;
      r := Pass;
    }
  }
}
