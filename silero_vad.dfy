/**
 * The ONNX Silero detector of listen/silero_vad.py. Incoming samples accumulate in a
 * pending buffer that is cut into 512-sample frames; each frame, with the 64-sample
 * context of the previous one prepended, goes to the model, and its speech probability,
 * compared with the threshold, drives the debounced state machine of module Debounce.
 * The model's probabilities are inputs: `probs[i]` is what the model returns for the
 * i-th frame of a call.
 */
module SileroVad {
  import opened Wrappers
  import opened Samples
  import opened Framing
  import opened Debounce

  const SAMPLE_RATE: int := 16000
  /** 32 ms at 16 kHz. */
  const CHUNK_SIZE: nat := 512
  const CONTEXT_SIZE: nat := 64

  datatype InferenceError = WrongChunkSize(got: nat)

  /** Why the constructor raises: onnxruntime does not import (an ImportError), the model
      file does not exist (a FileNotFoundError naming the path), or ONNX Runtime cannot
      open a session on it. */
  datatype CreateError = OnnxMissing | ModelNotFound(path: string) | SessionFailed(msg: string)

  /** The text of the raised error. */
  function ErrorMessage(e: CreateError): string
  {
    match e
    case OnnxMissing => "onnxruntime not installed. Run: pip install onnxruntime-coreml"
    case ModelNotFound(path) =>
      "Silero VAD model not found at " + path + ". "
        + "Download with: wget https://github.com/snakers4/silero-vad/raw/master/src/silero_vad/data/silero_vad.onnx"
    case SessionFailed(msg) => msg
  }

  /** The places `_find_model` looks, in order: beside the module (in `data/` and
      directly), in the user's cache, and in /tmp. The first is also the default. */
  function ModelLocations(moduleDir: string, home: string): (locs: seq<string>)
    ensures |locs| == 4
  {
    [moduleDir + "/data/silero_vad.onnx", moduleDir + "/silero_vad.onnx",
     home + "/.cache/silero_vad/silero_vad.onnx", "/tmp/silero_vad.onnx"]
  }

  /** The first of `locs` that exists among `files`, else `default`. */
  function FirstExisting(locs: seq<string>, files: set<string>, default: string): (p: string)
    ensures p == default || (p in locs && p in files)
    decreases |locs|
  {
    if locs == [] then default
    else if locs[0] in files then locs[0]
    else FirstExisting(locs[1..], files, default)
  }

  /** When some location exists, the choice is the earliest one that does. */
  lemma {:induction false} FirstExistingIsFirst(locs: seq<string>, files: set<string>, default: string, k: nat)
    requires k < |locs| && locs[k] in files
    ensures FirstExisting(locs, files, default) in files
    ensures exists i :: 0 <= i <= k && locs[i] == FirstExisting(locs, files, default) && forall j :: 0 <= j < i ==> locs[j] !in files
    decreases |locs|
  {
    if locs[0] in files {
      assert locs[0] == FirstExisting(locs, files, default);
    } else {
      FirstExistingIsFirst(locs[1..], files, default, k - 1);
      var i :| 0 <= i <= k - 1 && locs[1..][i] == FirstExisting(locs[1..], files, default)
               && forall j :: 0 <= j < i ==> locs[1..][j] !in files;
      assert locs[i + 1] == FirstExisting(locs, files, default);
      assert forall j :: 0 <= j < i + 1 ==> locs[j] !in files by {
        forall j | 0 <= j < i + 1
          ensures locs[j] !in files
        {
          if j > 0 {
            assert locs[j] == locs[1..][j - 1];
          }
        }
      }
    }
  }

  /** `_find_model`: the first location that exists, else the `data/` location. */
  function FindModel(moduleDir: string, home: string, files: set<string>): string
  {
    FirstExisting(ModelLocations(moduleDir, home), files, ModelLocations(moduleDir, home)[0])
  }

  /** An explicit path is used as given; otherwise `_find_model` chooses. */
  function ModelPath(modelPath: Option<string>, moduleDir: string, home: string, files: set<string>): string
  {
    if modelPath.Some? then modelPath.value else FindModel(moduleDir, home, files)
  }

  /** Without an explicit path, the model is found whenever any of the four locations
      holds it, and a found location is one of them. */
  lemma FindModelFinds(moduleDir: string, home: string, files: set<string>)
    ensures (exists i :: 0 <= i < 4 && ModelLocations(moduleDir, home)[i] in files) <==>
              FindModel(moduleDir, home, files) in files
    ensures FindModel(moduleDir, home, files) in ModelLocations(moduleDir, home)
  {
    var locs := ModelLocations(moduleDir, home);
    if exists i :: 0 <= i < 4 && locs[i] in files {
      var i :| 0 <= i < 4 && locs[i] in files;
      FirstExistingIsFirst(locs, files, locs[0], i);
    }
  }

  function Zeros(n: nat): (z: seq<Sample>)
    ensures |z| == n && forall i :: 0 <= i < n ==> z[i] == 0.0
  {
    seq(n, i => 0.0)
  }

  /** Feeding one more frame to the model keeps the context equal to the last 64 samples
      of everything fed so far. */
  lemma ContextStep(c0: seq<Sample>, done: seq<Chunk>, frame: Chunk)
    ensures Last(Last(c0 + Concat(done), CONTEXT_SIZE) + frame, CONTEXT_SIZE) == Last(c0 + Concat(done + [frame]), CONTEXT_SIZE)
  {
    ConcatAppend(done, [frame]);
    LastAppend(c0 + Concat(done), frame, CONTEXT_SIZE);
    assert Concat([frame]) == frame;
    assert c0 + Concat(done + [frame]) == (c0 + Concat(done)) + frame;
  }

  class SileroVAD {
    const config: Config
    const speechThreshold: real
    var isSpeaking: bool
    var speechFrameCount: nat
    var lastSpeechTime: Option<int>
    var silenceTimer: Option<int>
    /** The last 64 samples fed to the model. */
    var context: seq<Sample>
    /** Samples received but not yet framed. */
    var audioBuffer: seq<Sample>
    var notices: seq<Notice>

    function State(): Detector
      reads this
    {
      Detector(isSpeaking, speechFrameCount, lastSpeechTime, silenceTimer)
    }

    ghost predicate Valid()
      reads this
    {
      Inv(config, State()) && |context| == CONTEXT_SIZE && |audioBuffer| < CHUNK_SIZE
    }

    /** The state `__init__` sets up once its checks have passed. Defaults in the source:
        timeout 1.5 s, threshold 0.5, one frame to confirm speech. */
    constructor (silenceTimeoutMs: int, speechThreshold: real, notifyStart: bool, notifyEnd: bool, minSpeechFrames: int)
      ensures Valid()
      ensures config == Config(silenceTimeoutMs, minSpeechFrames, notifyStart, notifyEnd)
      ensures this.speechThreshold == speechThreshold
      ensures State() == Quiet && audioBuffer == [] && context == Zeros(CONTEXT_SIZE) && notices == []
    {
      config := Config(silenceTimeoutMs, minSpeechFrames, notifyStart, notifyEnd);
      this.speechThreshold := speechThreshold;
      isSpeaking := false;
      speechFrameCount := 0;
      lastSpeechTime := None;
      silenceTimer := None;
      context := Zeros(CONTEXT_SIZE);
      audioBuffer := [];
      notices := [];
    }

    /** `__init__` with its raising paths, in the source's order: the onnxruntime import,
        then the model file (an explicit path, or the one `_find_model` chooses among
        `files`), then the session. `sessionError` is what `_create_session` raises, if
        anything. */
    static method Create(modelPath: Option<string>, moduleDir: string, home: string, files: set<string>,
                         onnxAvailable: bool, sessionError: Option<string>,
                         silenceTimeoutMs: int, speechThreshold: real, notifyStart: bool, notifyEnd: bool,
                         minSpeechFrames: int)
      returns (r: Result<SileroVAD, CreateError>)
      ensures !onnxAvailable ==> r == Failure(OnnxMissing)
      ensures onnxAvailable ==>
        var path := ModelPath(modelPath, moduleDir, home, files);
        && (path !in files ==> r == Failure(ModelNotFound(path)))
        && (path in files && sessionError.Some? ==> r == Failure(SessionFailed(sessionError.value)))
        && (path in files && sessionError.None? ==>
              && r.Success? && fresh(r.value) && r.value.Valid()
              && r.value.config == Config(silenceTimeoutMs, minSpeechFrames, notifyStart, notifyEnd)
              && r.value.speechThreshold == speechThreshold && r.value.State() == Quiet
              && r.value.audioBuffer == [] && r.value.context == Zeros(CONTEXT_SIZE) && r.value.notices == [])
    {
      if !onnxAvailable {
        return Failure(OnnxMissing);
      }
      var path := ModelPath(modelPath, moduleDir, home, files);
      if path !in files {
        return Failure(ModelNotFound(path));
      }
      if sessionError.Some? {
        return Failure(SessionFailed(sessionError.value));
      }
      var d := new SileroVAD(silenceTimeoutMs, speechThreshold, notifyStart, notifyEnd, minSpeechFrames);
      r := Success(d);
    }

    /** `_run_inference`: rejects a frame that is not CHUNK_SIZE samples; otherwise feeds
        context ++ frame to the model (whose answer is `prob`) and keeps the last 64
        samples of that input as the next context. */
    method RunInference(frame: Chunk, prob: real) returns (r: Result<real, InferenceError>)
      modifies this`context
      ensures |frame| != CHUNK_SIZE ==> r == Failure(WrongChunkSize(|frame|)) && context == old(context)
      ensures |frame| == CHUNK_SIZE ==> r == Success(prob) && context == Last(old(context) + frame, CONTEXT_SIZE)
    {
      if |frame| != CHUNK_SIZE {
        return Failure(WrongChunkSize(|frame|));
      }
      var x := context + frame;
      context := x[|x| - CONTEXT_SIZE..];
      r := Success(prob);
    }

    /** `_trigger_speech_end`. */
    method TriggerSpeechEnd()
      modifies this`isSpeaking, this`silenceTimer, this`speechFrameCount, this`notices
      ensures State() == EndSpeech(config, old(State())).det
      ensures notices == old(notices) + EndSpeech(config, old(State())).notices
    {
      isSpeaking := false;
      silenceTimer := None;
      speechFrameCount := 0;
      if config.notifyEnd {
        notices := notices + [SpeechEnded];
      }
    }

    /** `_handle_speech_detected`: records the time, counts the frame, cancels any timer,
        and confirms speech once the counter reaches min_speech_frames. */
    method HandleSpeechDetected(now: int)
      modifies this`isSpeaking, this`silenceTimer, this`speechFrameCount, this`lastSpeechTime, this`notices
      ensures State() == OnSpeech(config, old(State()), now).det
      ensures notices == old(notices) + OnSpeech(config, old(State()), now).notices
    {
      lastSpeechTime := Some(now);
      speechFrameCount := speechFrameCount + 1;
      if silenceTimer.Some? {
        silenceTimer := None;
      }
      if !isSpeaking && speechFrameCount >= config.minSpeechFrames {
        isSpeaking := true;
        if config.notifyStart {
          notices := notices + [SpeechStarted];
        }
      }
    }

    /** `_handle_silence_detected`: zeroes the counter; while speaking, ends speech once
        the timeout has elapsed, or else arms a timer for the remaining silence if none is
        armed. */
    method HandleSilenceDetected(now: int)
      modifies this`isSpeaking, this`silenceTimer, this`speechFrameCount, this`notices
      ensures State() == OnSilence(config, old(State()), now).det
      ensures notices == old(notices) + OnSilence(config, old(State()), now).notices
    {
      speechFrameCount := 0;
      if isSpeaking && Truthy(lastSpeechTime) {
        var silenceDuration := now - lastSpeechTime.value;
        if silenceDuration >= config.silenceTimeoutMs {
          TriggerSpeechEnd();
        } else if silenceTimer.None? {
          var remaining := config.silenceTimeoutMs - silenceDuration;
          silenceTimer := Some(now + remaining);
        }
      }
    }

    /** `_check_silence_timeout`: what a silence timer runs when it fires at `now`. */
    method CheckSilenceTimeout(now: int)
      requires Valid()
      modifies this`isSpeaking, this`silenceTimer, this`speechFrameCount, this`notices
      ensures Valid()
      ensures State() == OnTimer(config, old(State()), now).det
      ensures notices == old(notices) + OnTimer(config, old(State()), now).notices
    {
      if isSpeaking && Truthy(lastSpeechTime) {
        var silenceDuration := now - lastSpeechTime.value;
        if silenceDuration >= config.silenceTimeoutMs {
          TriggerSpeechEnd();
        }
      }
    }

    /** One frame's verdict dispatched to the speech or the silence handler. */
    method HandleFrame(speech: bool, now: int)
      requires Inv(config, State())
      modifies this`isSpeaking, this`silenceTimer, this`speechFrameCount, this`lastSpeechTime, this`notices
      ensures Inv(config, State())
      ensures State() == OnFrame(config, old(State()), speech, now).det
      ensures notices == old(notices) + OnFrame(config, old(State()), speech, now).notices
    {
      StepsKeepInv(config, State(), speech, now);
      if speech {
        HandleSpeechDetected(now);
      } else {
        HandleSilenceDetected(now);
      }
    }

    /** Where a `process_audio` call stands after its first `k` frames: the pending
        buffer holds the remaining frames `fr[k..]` and the same tail, the context is the
        last 64 samples fed so far, and the detector and its notices are those of the
        first `k` verdicts. */
    ghost predicate Progress(fr: seq<Chunk>, tail: seq<Sample>, c0: seq<Sample>, d0: Detector, n0: seq<Notice>, vs: seq<bool>, k: nat, now: int)
      reads this
    {
      && k <= |fr| == |vs|
      && Frames(audioBuffer, CHUNK_SIZE) == fr[k..]
      && Tail(audioBuffer, CHUNK_SIZE) == tail
      && |context| == CONTEXT_SIZE
      && context == Last(c0 + Concat(fr[..k]), CONTEXT_SIZE)
      && Inv(config, State())
      && State() == Run(config, d0, vs[..k], now).det
      && notices == n0 + Run(config, d0, vs[..k], now).notices
    }

    /** One pass of the `process_audio` loop: cuts the first frame off the pending
        buffer, feeds it to the model (answer `prob`) and dispatches the verdict. */
    method ConsumeFrame(prob: real, now: int, ghost fr: seq<Chunk>, ghost tail: seq<Sample>, ghost c0: seq<Sample>, ghost d0: Detector, ghost n0: seq<Notice>, ghost vs: seq<bool>, ghost k: nat)
      returns (speech: bool)
      requires Progress(fr, tail, c0, d0, n0, vs, k, now) && |audioBuffer| >= CHUNK_SIZE
      requires k < |vs| ==> vs[k] == (prob >= speechThreshold)
      modifies this
      ensures k < |vs| && speech == vs[k]
      ensures Progress(fr, tail, c0, d0, n0, vs, k + 1, now)
      ensures |audioBuffer| < |old(audioBuffer)|
    {
      FramesAdvance(audioBuffer, fr, k, CHUNK_SIZE);
      ContextStep(c0, fr[..k], fr[k]);
      assert fr[..k + 1] == fr[..k] + [fr[k]];
      RunExtend(config, d0, vs, k, now);
      ghost var s := Run(config, d0, vs[..k], now);
      var frame := audioBuffer[..CHUNK_SIZE];
      audioBuffer := audioBuffer[CHUNK_SIZE..];
      var r := RunInference(frame, prob);
      speech := r.value >= speechThreshold;
      ghost var t := OnFrame(config, s.det, speech, now);
      HandleFrame(speech, now);
      assert notices == n0 + (s.notices + t.notices) by {
        assert notices == (n0 + s.notices) + t.notices;
      }
    }

    /** `process_audio`: appends the chunk, handles every whole frame in order and keeps
        the rest; true iff some frame of this call was speech. */
    method ProcessAudio(chunk: Chunk, probs: seq<real>, now: int) returns (detected: bool)
      requires Valid()
      requires |probs| == |Frames(audioBuffer + chunk, CHUNK_SIZE)|
      modifies this
      ensures Valid()
      ensures detected <==> exists i :: 0 <= i < |probs| && probs[i] >= speechThreshold
      ensures audioBuffer == Tail(old(audioBuffer) + chunk, CHUNK_SIZE)
      ensures context == Last(old(context) + Concat(Frames(old(audioBuffer) + chunk, CHUNK_SIZE)), CONTEXT_SIZE)
      ensures State() == Run(config, old(State()), SpeechVerdicts(probs, speechThreshold), now).det
      ensures notices == old(notices) + Run(config, old(State()), SpeechVerdicts(probs, speechThreshold), now).notices
    {
      audioBuffer := audioBuffer + chunk;
      ghost var fr := Frames(audioBuffer, CHUNK_SIZE);
      ghost var tail := Tail(audioBuffer, CHUNK_SIZE);
      ghost var d0 := State();
      ghost var n0 := notices;
      ghost var c0 := context;
      ghost var vs := SpeechVerdicts(probs, speechThreshold);
      detected := false;
      var k := 0;
      while |audioBuffer| >= CHUNK_SIZE
        invariant Progress(fr, tail, c0, d0, n0, vs, k, now)
        invariant detected <==> exists i :: 0 <= i < k && vs[i]
        decreases |audioBuffer|
      {
        var speech := ConsumeFrame(probs[k], now, fr, tail, c0, d0, n0, vs, k);
        if speech {
          detected := true;
        }
        assert detected <==> exists i :: 0 <= i < k + 1 && vs[i] by {
          if !speech {
            assert forall i :: 0 <= i < k + 1 && vs[i] ==> i < k;
          }
        }
        k := k + 1;
      }
      FramesShort(audioBuffer, CHUNK_SIZE);
      assert k == |fr|;
      assert vs[..k] == vs && fr[..k] == fr;
    }

    /** `reset()`: quiet state, no pending samples, a zero context, no armed timer. */
    method Reset()
      modifies this
      ensures Valid()
      ensures State() == Quiet && audioBuffer == [] && context == Zeros(CONTEXT_SIZE)
      ensures notices == old(notices)
    {
      isSpeaking := false;
      lastSpeechTime := None;
      speechFrameCount := 0;
      audioBuffer := [];
      context := Zeros(CONTEXT_SIZE);
      if silenceTimer.Some? {
        silenceTimer := None;
      }
    }
  }
}
