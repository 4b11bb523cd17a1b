/**
 * The torch Silero detector of listen/vad.py. It must be started (which loads the model
 * once) before it handles audio; it frames the pending samples into 512-sample frames and
 * ends speech only after enough silence that follows enough speech. The model's
 * per-frame speech probabilities are inputs.
 */
module Vad {
  import opened Wrappers
  import opened Samples
  import opened Framing
  import Debounce

  const SILERO_SAMPLE_RATE: nat := 16000
  const SILERO_CHUNK_MS: nat := 32
  const SILERO_CHUNK_SAMPLES: nat := SILERO_SAMPLE_RATE * SILERO_CHUNK_MS / 1000

  const DEFAULT_SPEECH_THRESHOLD: real := 0.3
  const DEFAULT_SILENCE_DURATION_MS: int := 1500
  const MIN_SPEECH_DURATION_MS: int := 300

  lemma ChunkSamplesIs512()
    ensures SILERO_CHUNK_SAMPLES == 512
  {
  }

  const TORCH_MISSING_MESSAGE := "Silero VAD requires PyTorch + torchaudio. Install with: pip install torch torchaudio"

  /** What loading the model from torch hub does: succeeds, finds torch missing, or
      raises some other error. */
  datatype LoadAttempt = Loads | TorchMissing | HubRaises(msg: string)

  /** Fixed settings: the silence that ends speech, the speech needed before silence can
      end it, and whether the callbacks are set. */
  datatype Config = Config(silenceDurationMs: int, minSpeechDurationMs: int, notifyStart: bool, notifyEnd: bool)

  /** The speech-tracking part of the detector: speaking flag, start of the current
      utterance and time of the last speech frame. */
  datatype Tracker = Tracker(speaking: bool, start: Option<int>, last: Option<int>)

  datatype Step = Step(tr: Tracker, notices: seq<Debounce.Notice>)

  const Silent := Tracker(false, None, None)

  /** Python truthiness of `_speech_start_time`: set, and not 0.0. */
  predicate Truthy(t: Option<int>)
  {
    t.Some? && t.value != 0
  }

  /** A speaking detector always knows when the utterance started and when speech was
      last heard. */
  ghost predicate Inv(t: Tracker)
  {
    t.speaking ==> t.start.Some? && t.last.Some?
  }

  /** A speech frame at `now`: records the time; a silent detector starts speaking. */
  function OnSpeech(c: Config, t: Tracker, now: int): Step
  {
    if t.speaking then Step(t.(last := Some(now)), [])
    else Step(Tracker(true, Some(now), Some(now)), if c.notifyStart then [Debounce.SpeechStarted] else [])
  }

  /** A silence frame at `now`: a speaking detector stops once the silence and the speech
      before it are both long enough. */
  function OnSilence(c: Config, t: Tracker, now: int): Step
  {
    if t.speaking && t.last.Some? then
      var silence := now - t.last.value;
      var speech := if Truthy(t.start) then now - t.start.value else 0;
      if silence >= c.silenceDurationMs && speech >= c.minSpeechDurationMs then
        Step(Tracker(false, None, t.last), if c.notifyEnd then [Debounce.SpeechEnded] else [])
      else Step(t, [])
    else Step(t, [])
  }

  function OnFrame(c: Config, t: Tracker, speech: bool, now: int): Step
  {
    if speech then OnSpeech(c, t, now) else OnSilence(c, t, now)
  }

  /** The frames of one `process_audio` call handled in order, all at time `now`. */
  function Run(c: Config, t: Tracker, verdicts: seq<bool>, now: int): Step
  {
    if |verdicts| == 0 then Step(t, [])
    else
      var s := Run(c, t, verdicts[..|verdicts| - 1], now);
      var u := OnFrame(c, s.tr, verdicts[|verdicts| - 1], now);
      Step(u.tr, s.notices + u.notices)
  }

  lemma RunExtend(c: Config, t: Tracker, verdicts: seq<bool>, k: nat, now: int)
    requires k < |verdicts|
    ensures Run(c, t, verdicts[..k + 1], now) ==
      var s := Run(c, t, verdicts[..k], now);
      var u := OnFrame(c, s.tr, verdicts[k], now);
      Step(u.tr, s.notices + u.notices)
  {
    assert verdicts[..k + 1][..k] == verdicts[..k];
  }

  // ---- properties of one frame ----

  /** Every frame keeps the invariant. */
  lemma FrameKeepsInv(c: Config, t: Tracker, speech: bool, now: int)
    requires Inv(t)
    ensures Inv(OnFrame(c, t, speech, now).tr)
  {
  }

  /** Every speech frame records its time; the silent-to-speaking flip also records the
      start time and is the only frame that starts the start callback. */
  lemma SpeechFrame(c: Config, t: Tracker, now: int)
    ensures OnSpeech(c, t, now).tr.speaking && OnSpeech(c, t, now).tr.last == Some(now)
    ensures !t.speaking ==> OnSpeech(c, t, now).tr.start == Some(now)
    ensures t.speaking ==> OnSpeech(c, t, now).tr.start == t.start
    ensures OnSpeech(c, t, now).notices == (if !t.speaking && c.notifyStart then [Debounce.SpeechStarted] else [])
  {
  }

  /** A frame ends speech exactly when it is silence, speech was heard, at least
      silence_duration_ms have passed since then, and the utterance lasted at least
      min_speech_duration_ms (counted as 0 when its start is unset or zero); speech that
      ends drops its start time. */
  lemma EndRule(c: Config, t: Tracker, speech: bool, now: int)
    requires t.speaking
    ensures !OnFrame(c, t, speech, now).tr.speaking <==>
      && !speech && t.last.Some?
      && now - t.last.value >= c.silenceDurationMs
      && (if Truthy(t.start) then now - t.start.value else 0) >= c.minSpeechDurationMs
    ensures !OnFrame(c, t, speech, now).tr.speaking ==>
      OnFrame(c, t, speech, now).tr.start.None?
      && OnFrame(c, t, speech, now).notices == (if c.notifyEnd then [Debounce.SpeechEnded] else [])
  {
  }

  /** A silent detector stays silent on silence, with nothing recorded. */
  lemma SilentSilence(c: Config, t: Tracker, now: int)
    requires !t.speaking
    ensures OnSilence(c, t, now) == Step(t, [])
  {
  }

  lemma {:induction false} RunKeepsInv(c: Config, t: Tracker, verdicts: seq<bool>, now: int)
    requires Inv(t)
    ensures Inv(Run(c, t, verdicts, now).tr)
  {
    if |verdicts| > 0 {
      RunKeepsInv(c, t, verdicts[..|verdicts| - 1], now);
      FrameKeepsInv(c, Run(c, t, verdicts[..|verdicts| - 1], now).tr, verdicts[|verdicts| - 1], now);
    }
  }

  /** With both callbacks set, each callback fires exactly once per transition: the
      callbacks of a run alternate start/end, consistent with the speaking flag before
      and after the run. */
  lemma {:induction false} RunAlternates(c: Config, t: Tracker, verdicts: seq<bool>, now: int)
    requires c.notifyStart && c.notifyEnd
    ensures Debounce.Alternates(t.speaking, Run(c, t, verdicts, now).notices)
    ensures Run(c, t, verdicts, now).tr.speaking == ((|Run(c, t, verdicts, now).notices| % 2 == 0) == t.speaking)
  {
    if |verdicts| > 0 {
      var init := verdicts[..|verdicts| - 1];
      RunAlternates(c, t, init, now);
      var s := Run(c, t, init, now);
      var u := OnFrame(c, s.tr, verdicts[|verdicts| - 1], now);
      assert u.notices == [] || u.notices == [if s.tr.speaking then Debounce.SpeechEnded else Debounce.SpeechStarted];
      assert u.notices != [] <==> u.tr.speaking != s.tr.speaking;
      var all := s.notices + u.notices;
      forall i | 0 <= i < |all|
        ensures all[i] == (if (i % 2 == 0) == t.speaking then Debounce.SpeechEnded else Debounce.SpeechStarted)
      {
        if i < |s.notices| {
          assert all[i] == s.notices[i];
        }
      }
    }
  }

  class SileroVAD {
    const speechThreshold: real
    const config: Config
    var modelLoaded: bool
    var isRunning: bool
    var isSpeaking: bool
    var speechStartTime: Option<int>
    var lastSpeechTime: Option<int>
    /** Samples received but not yet framed. */
    var audioBuffer: seq<Sample>
    var notices: seq<Debounce.Notice>

    function Tracking(): Tracker
      reads this
    {
      Tracker(isSpeaking, speechStartTime, lastSpeechTime)
    }

    ghost predicate Valid()
      reads this
    {
      (isRunning ==> modelLoaded) && (!isRunning ==> !isSpeaking) && Inv(Tracking()) && |audioBuffer| < SILERO_CHUNK_SAMPLES
    }

    /** Defaults in the source: threshold 0.3, 1500 ms of silence, 300 ms of speech. */
    constructor (speechThreshold: real, silenceDurationMs: int, minSpeechDurationMs: int, notifyStart: bool, notifyEnd: bool)
      ensures Valid()
      ensures this.speechThreshold == speechThreshold
      ensures config == Config(silenceDurationMs, minSpeechDurationMs, notifyStart, notifyEnd)
      ensures !modelLoaded && !isRunning && Tracking() == Silent && audioBuffer == [] && notices == []
    {
      this.speechThreshold := speechThreshold;
      config := Config(silenceDurationMs, minSpeechDurationMs, notifyStart, notifyEnd);
      modelLoaded := false;
      isRunning := false;
      isSpeaking := false;
      speechStartTime := None;
      lastSpeechTime := None;
      audioBuffer := [];
      notices := [];
    }

    /** `_load_model`: loads once; a failure leaves the model unloaded and is raised. */
    method LoadModel(load: LoadAttempt) returns (r: Outcome<string>)
      modifies this`modelLoaded
      ensures old(modelLoaded) ==> r == Pass && modelLoaded
      ensures !old(modelLoaded) ==> match load
        case Loads => r == Pass && modelLoaded
        case TorchMissing => r == Fail(TORCH_MISSING_MESSAGE) && !modelLoaded
        case HubRaises(msg) => r == Fail(msg) && !modelLoaded
    {
      if modelLoaded {
        return Pass;
      }
      match load {
        case Loads =>
          modelLoaded := true;
          r := Pass;
        case TorchMissing =>
          r := Fail(TORCH_MISSING_MESSAGE);
        case HubRaises(msg) =>
          r := Fail(msg);
      }
    }

    /** `start()`: a running detector is left alone; otherwise the model is loaded (a
        failure is raised with nothing else changed) and the detector runs, silent, with
        no times and no pending samples. */
    method Start(load: LoadAttempt) returns (r: Outcome<string>)
      requires Valid()
      modifies this
      ensures Valid()
      ensures notices == old(notices)
      ensures old(isRunning) ==> r == Pass && unchanged(this)
      ensures !old(isRunning) && r.Fail? ==>
        !modelLoaded && !isRunning && Tracking() == old(Tracking()) && audioBuffer == old(audioBuffer)
      ensures !old(isRunning) && r.Pass? ==>
        modelLoaded && isRunning && Tracking() == Silent && audioBuffer == []
      ensures !old(isRunning) ==> (r.Pass? <==> old(modelLoaded) || load.Loads?)
    {
      if isRunning {
        return Pass;
      }
      r := LoadModel(load);
      if r.Fail? {
        return;
      }
      isRunning := true;
      isSpeaking := false;
      speechStartTime := None;
      lastSpeechTime := None;
      audioBuffer := [];
    }

    /** `stop()`: a stopped detector (which is never speaking) is left alone; otherwise it
        stops, silent. The times and pending samples stay as they were. */
    method Stop()
      requires Valid()
      modifies this`isRunning, this`isSpeaking
      ensures Valid()
      ensures !isRunning && !isSpeaking
      ensures !old(isRunning) ==> unchanged(this)
    {
      if !isRunning {
        return;
      }
      isRunning := false;
      isSpeaking := false;
    }

    /** Where a `process_audio` call stands after its first `k` frames. */
    ghost predicate Progress(fr: seq<Chunk>, tail: seq<Sample>, t0: Tracker, n0: seq<Debounce.Notice>, vs: seq<bool>, k: nat, now: int)
      reads this
    {
      && k <= |fr| == |vs|
      && Frames(audioBuffer, SILERO_CHUNK_SAMPLES) == fr[k..]
      && Tail(audioBuffer, SILERO_CHUNK_SAMPLES) == tail
      && Inv(Tracking())
      && Tracking() == Run(config, t0, vs[..k], now).tr
      && notices == n0 + Run(config, t0, vs[..k], now).notices
    }

    /** One pass of the `process_audio` loop: cuts the first frame off the pending buffer,
        takes the model's probability `prob` for it and updates the speech tracking. */
    method ConsumeFrame(prob: real, now: int, ghost fr: seq<Chunk>, ghost tail: seq<Sample>, ghost t0: Tracker, ghost n0: seq<Debounce.Notice>, ghost vs: seq<bool>, ghost k: nat)
      returns (speech: bool)
      requires Progress(fr, tail, t0, n0, vs, k, now) && |audioBuffer| >= SILERO_CHUNK_SAMPLES
      requires k < |vs| ==> vs[k] == (prob >= speechThreshold)
      modifies this`audioBuffer, this`isSpeaking, this`speechStartTime, this`lastSpeechTime, this`notices
      ensures k < |vs| && speech == vs[k]
      ensures Progress(fr, tail, t0, n0, vs, k + 1, now)
      ensures |audioBuffer| < |old(audioBuffer)|
    {
      FramesAdvance(audioBuffer, fr, k, SILERO_CHUNK_SAMPLES);
      RunExtend(config, t0, vs, k, now);
      ghost var s := Run(config, t0, vs[..k], now);
      FrameKeepsInv(config, s.tr, vs[k], now);
      ghost var u := OnFrame(config, s.tr, vs[k], now);
      audioBuffer := audioBuffer[SILERO_CHUNK_SAMPLES..];
      speech := prob >= speechThreshold;
      if speech {
        lastSpeechTime := Some(now);
        if !isSpeaking {
          isSpeaking := true;
          speechStartTime := Some(now);
          if config.notifyStart {
            notices := notices + [Debounce.SpeechStarted];
          }
        }
      } else if isSpeaking && lastSpeechTime.Some? {
        var silenceDuration := now - lastSpeechTime.value;
        var speechDuration := if Truthy(speechStartTime) then now - speechStartTime.value else 0;
        if silenceDuration >= config.silenceDurationMs && speechDuration >= config.minSpeechDurationMs {
          isSpeaking := false;
          speechStartTime := None;
          if config.notifyEnd {
            notices := notices + [Debounce.SpeechEnded];
          }
        }
      }
      assert notices == old(notices) + u.notices;
      assert notices == n0 + (s.notices + u.notices) by {
        assert notices == (n0 + s.notices) + u.notices;
      }
    }

    /** `process_audio`: a stopped detector (or one without a model) ignores the chunk and
        answers false; a running one appends it, handles every whole frame in order and
        keeps the rest, answering whether some frame was speech. */
    method ProcessAudio(chunk: Chunk, probs: seq<real>, now: int) returns (detected: bool)
      requires Valid()
      requires isRunning && modelLoaded ==> |probs| == |Frames(audioBuffer + chunk, SILERO_CHUNK_SAMPLES)|
      modifies this`audioBuffer, this`isSpeaking, this`speechStartTime, this`lastSpeechTime, this`notices
      ensures Valid()
      ensures !(old(isRunning) && modelLoaded) ==> !detected && unchanged(this)
      ensures old(isRunning) && modelLoaded ==>
        && (detected <==> exists i :: 0 <= i < |probs| && probs[i] >= speechThreshold)
        && audioBuffer == Tail(old(audioBuffer) + chunk, SILERO_CHUNK_SAMPLES)
        && Tracking() == Run(config, old(Tracking()), SpeechVerdicts(probs, speechThreshold), now).tr
        && notices == old(notices) + Run(config, old(Tracking()), SpeechVerdicts(probs, speechThreshold), now).notices
    {
      if !isRunning || !modelLoaded {
        return false;
      }
      audioBuffer := audioBuffer + chunk;
      ghost var fr := Frames(audioBuffer, SILERO_CHUNK_SAMPLES);
      ghost var tail := Tail(audioBuffer, SILERO_CHUNK_SAMPLES);
      ghost var t0 := Tracking();
      ghost var n0 := notices;
      ghost var vs := SpeechVerdicts(probs, speechThreshold);
      detected := false;
      var k := 0;
      while |audioBuffer| >= SILERO_CHUNK_SAMPLES
        invariant Progress(fr, tail, t0, n0, vs, k, now)
        invariant detected <==> exists i :: 0 <= i < k && vs[i]
        decreases |audioBuffer|
      {
        var speech := ConsumeFrame(probs[k], now, fr, tail, t0, n0, vs, k);
        if speech {
          detected := true;
        }
        assert detected <==> exists i :: 0 <= i < k + 1 && vs[i] by {
          if !speech {
            assert forall i :: 0 <= i < k + 1 && vs[i] ==> i < k;
          }
        }
        k := k + 1;
      }
      FramesShort(audioBuffer, SILERO_CHUNK_SAMPLES);
      assert k == |fr|;
      assert vs[..k] == vs;
    }
  }
}
