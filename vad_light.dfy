/**
 * The WebRTC detector of listen/vad_light.py. It frames the pending samples into 30 ms
 * (480-sample) frames and runs the same debounced state machine as the Silero detector
 * (module Debounce), with no model context. The classifier's per-frame answer is an
 * input: speech, non-speech, or an exception, which the source counts as silence.
 */
module VadLight {
  import opened Wrappers
  import opened Samples
  import opened Framing
  import opened Debounce

  const SAMPLE_RATE: nat := 16000
  const FRAME_DURATION_MS: nat := 30
  const FRAME_SIZE: nat := SAMPLE_RATE * FRAME_DURATION_MS / 1000

  lemma FrameSizeIs480()
    ensures FRAME_SIZE == 480
  {
  }

  const DEFAULT_TRIGGER_WORDS: seq<string> :=
    ["stop", "terminé", "fini", "ok", "c'est tout", "that's it", "done", "end", "over", "go"]

  /** Why the constructor raises: the classifier rejects the aggressiveness mode. */
  datatype CreateError = InvalidMode(mode: int)

  /** What `is_speech` does for one frame: answers yes or no, or raises. */
  datatype Classification = Speech | NonSpeech | Raised

  /** The verdict the loop acts on: a raised classifier counts as silence. */
  function IsSpeech(cl: Classification): bool
  {
    cl.Speech?
  }

  function Verdicts(cls: seq<Classification>): (v: seq<bool>)
    ensures |v| == |cls|
    ensures forall i :: 0 <= i < |cls| ==> v[i] == IsSpeech(cls[i])
  {
    seq(|cls|, i requires 0 <= i < |cls| => IsSpeech(cls[i]))
  }

  /** A raising frame anywhere in a call gives the same verdicts as a plain non-speech
      frame there. */
  lemma VerdictsRaisedAsSilence(cls: seq<Classification>, i: nat)
    requires i < |cls| && cls[i] == Raised
    ensures Verdicts(cls) == Verdicts(cls[i := NonSpeech])
  {
  }

  /** Verdicts are per frame: classifying two batches one after the other gives the
      verdicts of classifying them together. */
  lemma VerdictsAppend(a: seq<Classification>, b: seq<Classification>)
    ensures Verdicts(a + b) == Verdicts(a) + Verdicts(b)
  {
  }

  /** Some verdict is speech exactly when the classifier answered speech for some frame;
      a raise never counts. */
  lemma VerdictsSomeSpeech(cls: seq<Classification>)
    ensures true in Verdicts(cls) <==> Speech in cls
  {
    var v := Verdicts(cls);
    if true in v {
      var i :| 0 <= i < |v| && v[i];
      assert cls[i] == Speech;
    }
    if Speech in cls {
      var i :| 0 <= i < |cls| && cls[i] == Speech;
      assert v[i];
    }
  }

  /** A frame whose classification raised is handled exactly like a non-speech frame. */
  lemma RaisedIsSilence(c: Config, d: Detector, now: int)
    ensures OnFrame(c, d, IsSpeech(Raised), now) == OnFrame(c, d, IsSpeech(NonSpeech), now) == OnSilence(c, d, now)
  {
  }

  /** `trigger_words or DEFAULT_TRIGGER_WORDS`: an absent or empty list gives the default. */
  function TriggerWords(given: Option<seq<string>>): (w: seq<string>)
    ensures given.Some? && given.value != [] ==> w == given.value
    ensures given.None? || given.value == [] ==> w == DEFAULT_TRIGGER_WORDS
  {
    if given.Some? && given.value != [] then given.value else DEFAULT_TRIGGER_WORDS
  }

  /** The detector always has trigger words: the given list or the defaults, which
      include "stop". The choice is stable: passing the chosen list back in chooses it
      again. */
  lemma TriggerWordsChosen(given: Option<seq<string>>)
    ensures TriggerWords(given) != []
    ensures given.Some? ==> TriggerWords(given) == given.value || "stop" in TriggerWords(given)
    ensures TriggerWords(Some(TriggerWords(given))) == TriggerWords(given)
  {
  }

  class WebRTCVAD {
    const config: Config
    /** WebRTC aggressiveness 0-3, handed to the classifier and not used by the model. */
    const aggressiveness: int
    const triggerWords: seq<string>
    var isSpeaking: bool
    var speechFrameCount: nat
    var lastSpeechTime: Option<int>
    var silenceTimer: Option<int>
    /** Samples received but not yet framed. */
    var audioBuffer: seq<Sample>
    var notices: seq<Notice>

    function State(): Detector
      reads this
    {
      Detector(isSpeaking, speechFrameCount, lastSpeechTime, silenceTimer)
    }

    ghost predicate Valid()
      reads this
    {
      Inv(config, State()) && |audioBuffer| < FRAME_SIZE
    }

    /** The state `__init__` sets up once the classifier is created. Defaults in the
        source: timeout 1.5 s, aggressiveness 3, three frames to confirm speech. */
    constructor (silenceTimeoutMs: int, aggressiveness: int, notifyStart: bool, notifyEnd: bool,
                 triggerWords: Option<seq<string>>, minSpeechFrames: int)
      ensures Valid()
      ensures config == Config(silenceTimeoutMs, minSpeechFrames, notifyStart, notifyEnd)
      ensures this.aggressiveness == aggressiveness && this.triggerWords == TriggerWords(triggerWords)
      ensures State() == Quiet && audioBuffer == [] && notices == []
    {
      config := Config(silenceTimeoutMs, minSpeechFrames, notifyStart, notifyEnd);
      this.aggressiveness := aggressiveness;
      this.triggerWords := TriggerWords(triggerWords);
      isSpeaking := false;
      speechFrameCount := 0;
      lastSpeechTime := None;
      silenceTimer := None;
      audioBuffer := [];
      notices := [];
    }

    /** `__init__` with its raising path: `webrtcvad.Vad(speech_threshold)` accepts only
        the aggressiveness modes 0 to 3. */
    static method Create(silenceTimeoutMs: int, aggressiveness: int, notifyStart: bool, notifyEnd: bool,
                         triggerWords: Option<seq<string>>, minSpeechFrames: int)
      returns (r: Result<WebRTCVAD, CreateError>)
      ensures !(0 <= aggressiveness <= 3) ==> r == Failure(InvalidMode(aggressiveness))
      ensures 0 <= aggressiveness <= 3 ==>
        && r.Success? && fresh(r.value) && r.value.Valid()
        && r.value.config == Config(silenceTimeoutMs, minSpeechFrames, notifyStart, notifyEnd)
        && r.value.aggressiveness == aggressiveness && r.value.triggerWords == TriggerWords(triggerWords)
        && r.value.State() == Quiet && r.value.audioBuffer == [] && r.value.notices == []
    {
      if !(0 <= aggressiveness <= 3) {
        return Failure(InvalidMode(aggressiveness));
      }
      var d := new WebRTCVAD(silenceTimeoutMs, aggressiveness, notifyStart, notifyEnd, triggerWords, minSpeechFrames);
      r := Success(d);
    }

    /** `_trigger_speech_end`. */
    method TriggerSpeechEnd()
      modifies this`isSpeaking, this`silenceTimer, this`speechFrameCount, this`notices
      ensures State() == EndSpeech(config, old(State())).det
      ensures notices == old(notices) + EndSpeech(config, old(State())).notices
    {
      isSpeaking := false;
      silenceTimer := None;
      speechFrameCount := 0;
      if config.notifyEnd {
        notices := notices + [SpeechEnded];
      }
    }

    /** `_handle_speech_detected`. */
    method HandleSpeechDetected(now: int)
      modifies this`isSpeaking, this`silenceTimer, this`speechFrameCount, this`lastSpeechTime, this`notices
      ensures State() == OnSpeech(config, old(State()), now).det
      ensures notices == old(notices) + OnSpeech(config, old(State()), now).notices
    {
      lastSpeechTime := Some(now);
      speechFrameCount := speechFrameCount + 1;
      if silenceTimer.Some? {
        silenceTimer := None;
      }
      if !isSpeaking && speechFrameCount >= config.minSpeechFrames {
        isSpeaking := true;
        if config.notifyStart {
          notices := notices + [SpeechStarted];
        }
      }
    }

    /** `_handle_silence_detected`. */
    method HandleSilenceDetected(now: int)
      modifies this`isSpeaking, this`silenceTimer, this`speechFrameCount, this`notices
      ensures State() == OnSilence(config, old(State()), now).det
      ensures notices == old(notices) + OnSilence(config, old(State()), now).notices
    {
      speechFrameCount := 0;
      if isSpeaking && Truthy(lastSpeechTime) {
        var silenceDuration := now - lastSpeechTime.value;
        if silenceDuration >= config.silenceTimeoutMs {
          TriggerSpeechEnd();
        } else if silenceTimer.None? {
          var remaining := config.silenceTimeoutMs - silenceDuration;
          silenceTimer := Some(now + remaining);
        }
      }
    }

    /** `_check_silence_timeout`: what a silence timer runs when it fires at `now`. */
    method CheckSilenceTimeout(now: int)
      requires Valid()
      modifies this`isSpeaking, this`silenceTimer, this`speechFrameCount, this`notices
      ensures Valid()
      ensures State() == OnTimer(config, old(State()), now).det
      ensures notices == old(notices) + OnTimer(config, old(State()), now).notices
    {
      StepsKeepInv(config, State(), false, now);
      if isSpeaking && Truthy(lastSpeechTime) {
        var silenceDuration := now - lastSpeechTime.value;
        if silenceDuration >= config.silenceTimeoutMs {
          TriggerSpeechEnd();
        }
      }
    }

    method HandleFrame(speech: bool, now: int)
      requires Inv(config, State())
      modifies this`isSpeaking, this`silenceTimer, this`speechFrameCount, this`lastSpeechTime, this`notices
      ensures Inv(config, State())
      ensures State() == OnFrame(config, old(State()), speech, now).det
      ensures notices == old(notices) + OnFrame(config, old(State()), speech, now).notices
    {
      StepsKeepInv(config, State(), speech, now);
      if speech {
        HandleSpeechDetected(now);
      } else {
        HandleSilenceDetected(now);
      }
    }

    /** Where a `process_audio` call stands after its first `k` frames. */
    ghost predicate Progress(fr: seq<Chunk>, tail: seq<Sample>, d0: Detector, n0: seq<Notice>, vs: seq<bool>, k: nat, now: int)
      reads this
    {
      && k <= |fr| == |vs|
      && Frames(audioBuffer, FRAME_SIZE) == fr[k..]
      && Tail(audioBuffer, FRAME_SIZE) == tail
      && Inv(config, State())
      && State() == Run(config, d0, vs[..k], now).det
      && notices == n0 + Run(config, d0, vs[..k], now).notices
    }

    /** One pass of the `process_audio` loop: cuts the first frame off the pending
        buffer, classifies it (answer `cl`) and dispatches the verdict. */
    method ConsumeFrame(cl: Classification, now: int, ghost fr: seq<Chunk>, ghost tail: seq<Sample>, ghost d0: Detector, ghost n0: seq<Notice>, ghost vs: seq<bool>, ghost k: nat)
      returns (speech: bool)
      requires Progress(fr, tail, d0, n0, vs, k, now) && |audioBuffer| >= FRAME_SIZE
      requires k < |vs| ==> vs[k] == IsSpeech(cl)
      modifies this
      ensures k < |vs| && speech == vs[k]
      ensures Progress(fr, tail, d0, n0, vs, k + 1, now)
      ensures |audioBuffer| < |old(audioBuffer)|
    {
      FramesAdvance(audioBuffer, fr, k, FRAME_SIZE);
      RunExtend(config, d0, vs, k, now);
      ghost var s := Run(config, d0, vs[..k], now);
      audioBuffer := audioBuffer[FRAME_SIZE..];
      speech := cl == Speech;
      ghost var t := OnFrame(config, s.det, speech, now);
      HandleFrame(speech, now);
      assert notices == n0 + (s.notices + t.notices) by {
        assert notices == (n0 + s.notices) + t.notices;
      }
    }

    /** `process_audio`: appends the chunk, handles every whole frame in order and keeps
        the rest; true iff some frame of this call was classified as speech. */
    method ProcessAudio(chunk: Chunk, cls: seq<Classification>, now: int) returns (detected: bool)
      requires Valid()
      requires |cls| == |Frames(audioBuffer + chunk, FRAME_SIZE)|
      modifies this
      ensures Valid()
      ensures detected <==> Speech in cls
      ensures audioBuffer == Tail(old(audioBuffer) + chunk, FRAME_SIZE)
      ensures State() == Run(config, old(State()), Verdicts(cls), now).det
      ensures notices == old(notices) + Run(config, old(State()), Verdicts(cls), now).notices
    {
      audioBuffer := audioBuffer + chunk;
      ghost var fr := Frames(audioBuffer, FRAME_SIZE);
      ghost var tail := Tail(audioBuffer, FRAME_SIZE);
      ghost var d0 := State();
      ghost var n0 := notices;
      ghost var vs := Verdicts(cls);
      detected := false;
      var k := 0;
      while |audioBuffer| >= FRAME_SIZE
        invariant Progress(fr, tail, d0, n0, vs, k, now)
        invariant detected <==> exists i :: 0 <= i < k && vs[i]
        decreases |audioBuffer|
      {
        var speech := ConsumeFrame(cls[k], now, fr, tail, d0, n0, vs, k);
        if speech {
          detected := true;
        }
        assert detected <==> exists i :: 0 <= i < k + 1 && vs[i] by {
          if !speech {
            assert forall i :: 0 <= i < k + 1 && vs[i] ==> i < k;
          }
        }
        k := k + 1;
      }
      FramesShort(audioBuffer, FRAME_SIZE);
      assert k == |fr|;
      assert vs[..k] == vs;
      assert (exists i :: 0 <= i < |vs| && vs[i]) <==> Speech in cls by {
        if Speech in cls {
          var i :| 0 <= i < |cls| && cls[i] == Speech;
          assert vs[i];
        }
      }
    }

    /** `reset()`: quiet state, no pending samples, no armed timer. */
    method Reset()
      modifies this
      ensures Valid()
      ensures State() == Quiet && audioBuffer == []
      ensures notices == old(notices)
    {
      isSpeaking := false;
      lastSpeechTime := None;
      speechFrameCount := 0;
      audioBuffer := [];
      if silenceTimer.Some? {
        silenceTimer := None;
      }
    }

    /** The `is_speaking` property. */
    function IsSpeakingNow(): (b: bool)
      reads this
      ensures b == State().speaking
      ensures Valid() && silenceTimer.Some? ==> b && Truthy(lastSpeechTime)
    {
      isSpeaking
    }
  }
}
