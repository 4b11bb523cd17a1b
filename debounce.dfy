/**
 * The speech/silence state machine that listen/silero_vad.py and listen/vad_light.py
 * share line for line: a counter of consecutive speech frames confirms the start of
 * speech, and a silence timer, armed once per stretch of silence, confirms its end. The
 * `threading.Timer` becomes the time it is due to fire (`silenceTimer`), and wall-clock
 * time an explicit reading `now` in milliseconds.
 */
module Debounce {
  import opened Wrappers

  /** A detector's fixed settings: silence timeout, frames needed to confirm speech, and
      whether the start and end callbacks are set. */
  datatype Config = Config(silenceTimeoutMs: int, minSpeechFrames: int, notifyStart: bool, notifyEnd: bool)

  /** The mutable part of a detector: speaking flag, consecutive speech frame counter,
      time of the last speech frame, and the due time of the armed silence timer. */
  datatype Detector = Detector(speaking: bool, frameCount: nat, lastSpeech: Option<int>, silenceTimer: Option<int>)

  /** A callback thread started by the detector. */
  datatype Notice = SpeechStarted | SpeechEnded

  /** A detector state and the callbacks one step started. */
  datatype Step = Step(det: Detector, notices: seq<Notice>)

  /** Python truthiness of `_last_speech_time`: set, and not 0.0. */
  predicate Truthy(t: Option<int>)
  {
    t.Some? && t.value != 0
  }

  /** The state of a new detector and of one after `reset()`. */
  const Quiet := Detector(false, 0, None, None)

  /** An armed timer always belongs to a stretch of speech and is due exactly one silence
      timeout after the last speech frame. */
  ghost predicate Inv(c: Config, d: Detector)
  {
    d.silenceTimer.Some? ==>
      d.speaking && Truthy(d.lastSpeech) && d.silenceTimer.value == d.lastSpeech.value + c.silenceTimeoutMs
  }

  /** `_trigger_speech_end`: not speaking, no timer, counter zeroed, end callback started. */
  function EndSpeech(c: Config, d: Detector): Step
  {
    Step(Detector(false, 0, d.lastSpeech, None), if c.notifyEnd then [SpeechEnded] else [])
  }

  /** `_handle_speech_detected`. */
  function OnSpeech(c: Config, d: Detector, now: int): Step
  {
    var count := d.frameCount + 1;
    var flips := !d.speaking && count >= c.minSpeechFrames;
    Step(Detector(d.speaking || flips, count, Some(now), None),
         if flips && c.notifyStart then [SpeechStarted] else [])
  }

  /** `_handle_silence_detected`. */
  function OnSilence(c: Config, d: Detector, now: int): Step
  {
    var d1 := d.(frameCount := 0);
    if d.speaking && Truthy(d.lastSpeech) then
      var silence := now - d.lastSpeech.value;
      if silence >= c.silenceTimeoutMs then EndSpeech(c, d1)
      else if d.silenceTimer.None? then Step(d1.(silenceTimer := Some(now + (c.silenceTimeoutMs - silence))), [])
      else Step(d1, [])
    else Step(d1, [])
  }

  /** `_check_silence_timeout`, run when a silence timer fires. */
  function OnTimer(c: Config, d: Detector, now: int): Step
  {
    if d.speaking && Truthy(d.lastSpeech) && now - d.lastSpeech.value >= c.silenceTimeoutMs then EndSpeech(c, d)
    else Step(d, [])
  }

  function OnFrame(c: Config, d: Detector, speech: bool, now: int): Step
  {
    if speech then OnSpeech(c, d, now) else OnSilence(c, d, now)
  }

  /** The frames of one `process_audio` call handled in order, all at time `now`. */
  function Run(c: Config, d: Detector, verdicts: seq<bool>, now: int): Step
  {
    if |verdicts| == 0 then Step(d, [])
    else
      var s := Run(c, d, verdicts[..|verdicts| - 1], now);
      var t := OnFrame(c, s.det, verdicts[|verdicts| - 1], now);
      Step(t.det, s.notices + t.notices)
  }

  /** One more frame extends a run by one step. */
  lemma RunExtend(c: Config, d: Detector, verdicts: seq<bool>, k: nat, now: int)
    requires k < |verdicts|
    ensures Run(c, d, verdicts[..k + 1], now) ==
      var s := Run(c, d, verdicts[..k], now);
      var t := OnFrame(c, s.det, verdicts[k], now);
      Step(t.det, s.notices + t.notices)
  {
    assert verdicts[..k + 1][..k] == verdicts[..k];
  }

  // ---- properties of one step ----

  /** Every handler keeps the timer invariant. */
  lemma StepsKeepInv(c: Config, d: Detector, speech: bool, now: int)
    requires Inv(c, d)
    ensures Inv(c, OnFrame(c, d, speech, now).det)
    ensures Inv(c, OnTimer(c, d, now).det)
    ensures Inv(c, EndSpeech(c, d).det)
  {
  }

  /** A speech frame counts itself, records its time and disarms any timer; speaking
      starts exactly when it was off and the counter reaches min_speech_frames, and only
      that start notifies. */
  lemma SpeechFrame(c: Config, d: Detector, now: int)
    ensures var s := OnSpeech(c, d, now);
      && s.det.frameCount == d.frameCount + 1 && s.det.lastSpeech == Some(now) && s.det.silenceTimer.None?
      && (s.det.speaking <==> d.speaking || d.frameCount + 1 >= c.minSpeechFrames)
      && (s.notices != [] <==> !d.speaking && s.det.speaking && c.notifyStart)
      && (s.notices != [] ==> s.notices == [SpeechStarted])
  {
  }

  /** A silence frame zeroes the counter. While speaking it ends speech once the timeout
      has elapsed, and otherwise arms a timer only if none is armed; when not speaking it
      changes nothing else. */
  lemma SilenceFrame(c: Config, d: Detector, now: int)
    requires Inv(c, d)
    ensures OnSilence(c, d, now).det.frameCount == 0
    ensures !d.speaking ==> OnSilence(c, d, now) == Step(d.(frameCount := 0), [])
    ensures d.speaking && Truthy(d.lastSpeech) && now - d.lastSpeech.value >= c.silenceTimeoutMs ==>
      OnSilence(c, d, now) == EndSpeech(c, d)
    ensures d.speaking && Truthy(d.lastSpeech) && now - d.lastSpeech.value < c.silenceTimeoutMs ==>
      OnSilence(c, d, now).det.speaking && OnSilence(c, d, now).notices == []
      && OnSilence(c, d, now).det.silenceTimer == Some(d.lastSpeech.value + c.silenceTimeoutMs)
  {
  }

  /** Speech never ends early: a frame or a timer that ends speech comes at least one
      silence timeout after the last speech frame. */
  lemma EndNeverEarly(c: Config, d: Detector, speech: bool, now: int)
    requires d.speaking
    ensures !OnFrame(c, d, speech, now).det.speaking ==>
      !speech && Truthy(d.lastSpeech) && now >= d.lastSpeech.value + c.silenceTimeoutMs
    ensures !OnTimer(c, d, now).det.speaking ==>
      Truthy(d.lastSpeech) && now >= d.lastSpeech.value + c.silenceTimeoutMs
  {
  }

  /** Speech is not ended late either: an armed timer that fires when it is due ends it. */
  lemma TimerDueEnds(c: Config, d: Detector, now: int)
    requires Inv(c, d)
    requires d.silenceTimer.Some? && now >= d.silenceTimer.value
    ensures OnTimer(c, d, now) == EndSpeech(c, d)
    ensures !OnTimer(c, d, now).det.speaking && OnTimer(c, d, now).det.silenceTimer.None?
  {
  }

  // ---- properties of a run of frames ----

  /** The consecutive-speech counter after a run: the number of speech verdicts at the
      end of the run, continuing from the counter before it if the run is all speech. */
  function TrailingSpeech(start: nat, verdicts: seq<bool>): nat
  {
    if |verdicts| == 0 then start
    else if verdicts[|verdicts| - 1] then TrailingSpeech(start, verdicts[..|verdicts| - 1]) + 1
    else 0
  }

  lemma {:induction false} RunKeepsInv(c: Config, d: Detector, verdicts: seq<bool>, now: int)
    requires Inv(c, d)
    ensures Inv(c, Run(c, d, verdicts, now).det)
  {
    if |verdicts| > 0 {
      RunKeepsInv(c, d, verdicts[..|verdicts| - 1], now);
      StepsKeepInv(c, Run(c, d, verdicts[..|verdicts| - 1], now).det, verdicts[|verdicts| - 1], now);
    }
  }

  lemma {:induction false} RunCounter(c: Config, d: Detector, verdicts: seq<bool>, now: int)
    ensures Run(c, d, verdicts, now).det.frameCount == TrailingSpeech(d.frameCount, verdicts)
  {
    if |verdicts| > 0 {
      RunCounter(c, d, verdicts[..|verdicts| - 1], now);
    }
  }

  /** The counter is at least k exactly when the last k verdicts are all speech (for k not
      beyond the run and a counter that starts at zero). */
  lemma {:induction false} TrailingSpeechMeansRun(verdicts: seq<bool>, k: nat)
    requires k <= |verdicts|
    ensures TrailingSpeech(0, verdicts) >= k <==> forall i :: |verdicts| - k <= i < |verdicts| ==> verdicts[i]
  {
    if k > 0 {
      var init := verdicts[..|verdicts| - 1];
      TrailingSpeechMeansRun(init, k - 1);
      assert forall i :: 0 <= i < |init| ==> init[i] == verdicts[i];
    }
  }

  /** Speaking is confirmed only on a speech frame that brings the counter to
      min_speech_frames: starting from a quiet counter, that many uninterrupted speech
      frames end the run. */
  lemma FlipNeedsSpeechRun(c: Config, d: Detector, verdicts: seq<bool>, now: int)
    requires d.frameCount == 0 && !d.speaking
    requires 0 <= c.minSpeechFrames <= |verdicts| && |verdicts| > 0
    requires !Run(c, d, verdicts[..|verdicts| - 1], now).det.speaking && Run(c, d, verdicts, now).det.speaking
    ensures forall i :: |verdicts| - c.minSpeechFrames <= i < |verdicts| ==> verdicts[i]
  {
    var init := verdicts[..|verdicts| - 1];
    RunCounter(c, d, init, now);
    TrailingSpeechMeansRun(verdicts, c.minSpeechFrames);
  }

  /** Whether a list of callbacks alternates start/end, beginning with an end when the
      detector is speaking and with a start when it is not. */
  predicate Alternates(speaking: bool, notices: seq<Notice>)
  {
    forall i :: 0 <= i < |notices| ==> notices[i] == (if (i % 2 == 0) == speaking then SpeechEnded else SpeechStarted)
  }

  /** With both callbacks set, each callback fires exactly once per transition: the
      callbacks of any run alternate start/end, consistent with the speaking flag before
      and after the run. */
  lemma {:induction false} RunAlternates(c: Config, d: Detector, verdicts: seq<bool>, now: int)
    requires c.notifyStart && c.notifyEnd
    ensures Alternates(d.speaking, Run(c, d, verdicts, now).notices)
    ensures Run(c, d, verdicts, now).det.speaking == ((|Run(c, d, verdicts, now).notices| % 2 == 0) == d.speaking)
  {
    if |verdicts| > 0 {
      var init := verdicts[..|verdicts| - 1];
      RunAlternates(c, d, init, now);
      var s := Run(c, d, init, now);
      var t := OnFrame(c, s.det, verdicts[|verdicts| - 1], now);
      assert t.notices == [] || t.notices == [if s.det.speaking then SpeechEnded else SpeechStarted];
      assert t.notices != [] <==> t.det.speaking != s.det.speaking;
      var all := s.notices + t.notices;
      forall i | 0 <= i < |all|
        ensures all[i] == (if (i % 2 == 0) == d.speaking then SpeechEnded else SpeechStarted)
      {
        if i < |s.notices| {
          assert all[i] == s.notices[i];
        }
      }
    }
  }
}
