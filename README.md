# Voice session control, modelled in Dafny

This project models the control logic of a voice assistant toolkit: a speaking side that
queues text for macOS `say` (or synthesises it with Kokoro through mlx-audio), and a
listening side that captures the microphone, detects speech with one of three
voice-activity detectors, records push-to-talk sessions and transcribes them. The two sides
coordinate through a stop marker so that a user who starts talking interrupts the
assistant.

One Dafny module per source file, plus four shared modules:

- `Wrappers`: `Option`, `Result`, `Outcome`.
- `Samples`: audio samples, chunks and their concatenation, a transcription and the
  speech-to-text engine as a function from samples to a result.
- `Framing`: how a pending sample buffer is cut into fixed-size frames and a remainder.
- `Text`: the Python string operations the sources use (`split`, `join`, whitespace
  `split()`, `strip()`, `lower()`, `str(int)`).

Collaborators that do I/O or inference are abstract:

- A classifier or model answer is an input. This covers a speech probability per frame,
  a WebRTC verdict or exception per frame, a transcription result and the audio chunks
  of the Kokoro pipeline.
- What the code asks of the outside world (stream calls, saves, transcriptions,
  callbacks, terminated processes) is appended to an ordered trace field.
- Wall-clock time is an integer number of milliseconds `now`. One reading serves all the
  frames of one `process_audio` call.
- A `threading.Timer` is the time it is due (`silenceTimer`), plus a method the
  environment calls when it fires.
- The `/tmp/claude-voice-stop` marker file is a boolean.
- Python truthiness is written out where the source relies on it: an unset or zero
  timestamp is false, and so is an empty voice or language string.

Module-level singletons (`get_capture`, `get_simple_ptt`, `create_ptt_controller`) are
registry classes holding the instance.

## Model

| member | source | states |
|---|---|---|
| Audio.AppendedKeepsNewest | listen/audio.py:71-89 | appending a chunk to the newest MAX_BUFFER_CHUNKS of a history gives the newest MAX_BUFFER_CHUNKS of the extended history, never more than the cap |
| Audio.AudioCapture.constructor | listen/audio.py:36-48 | a new capture is not running, has no stream, an empty buffer and no stream calls |
| Audio.AudioCapture.ForceCloseStream | listen/audio.py:54-69 | the stream handle is always dropped; stop and close are attempted only when there was a stream, and their failures are swallowed |
| Audio.AudioCapture.AudioCallback | listen/audio.py:71-89 | the buffer holds the last min(n, 18750) chunks received, in order, and the chunk is forwarded iff an `on_audio` callback was given |
| Audio.AudioCapture.Start | listen/audio.py:91-115 | no change when already running. Otherwise the buffer is emptied and the 16 kHz mono 512-block stream is opened. A constructor or start failure re-raises its message and rolls back to not running with no stream, after stop/close were attempted on a constructed stream |
| Audio.AudioCapture.Stop | listen/audio.py:117-132 | a no-op when not running; otherwise not running, no stream, and stop then close called on the stream |
| Audio.AudioCapture.GetBuffer | listen/audio.py:134-147 | returns the in-order concatenation of every buffered chunk (the newest 18750 received), empty when none, and leaves the buffer empty |
| Audio.AudioCapture.ClearBuffer | listen/audio.py:149-152 | the buffer is empty afterwards |
| Audio.AudioCapture.Restart | listen/audio.py:159-164 | a stopped capture is left alone. A running one is stopped and closed, then reopened with the calls of `Start`; it ends running iff reopening succeeds, with an empty buffer, and a failure re-raises its message |
| Audio.CaptureRegistry.GetCapture | listen/audio.py:188-193 | the existing instance is returned, or a fresh stopped one is created and kept |
| Audio.CaptureRegistry.DestroyCapture | listen/audio.py:196-207 | the instance, if any, ends stopped with no stream, and the registry forgets it |
| Framing.SpeechVerdictsMonotone | listen/silero_vad.py:199-200 | raising the speech threshold only turns speech verdicts into silence, never the reverse |
| Framing.SpeechVerdictsAppend | listen/silero_vad.py:194-206 | each frame's verdict depends on its own probability alone, so judging two batches one after the other gives the verdicts of judging them together |
| Framing.SpeechVerdictsSomeSpeech | listen/silero_vad.py:199-200 | some verdict is speech exactly when some probability reaches the threshold (the rule both Silero detectors use, also listen/vad.py:179) |
| Framing.FramesSplit | listen/silero_vad.py:194-196 | the frames cut from a buffer are ⌊len/size⌋ frames of exactly `size` samples, the remainder is shorter than `size`, and frames followed by remainder give back the buffer |
| Framing.FramesAdvance | listen/vad_light.py:86-88 | cutting the first frame off the buffer leaves the remaining frames and the same remainder |
| Text.JoinSplit | mcp_server.py:185 | joining the parts of a split with the separator gives back the string |
| Text.LowerIdempotent | listen/ptt_controller.py:159 | lower-casing twice is lower-casing once |
| Text.NatToStringRoundTrip | mcp_server.py:35 | the decimal rendering of a number is all digits and reads back as the number |
| Debounce.StepsKeepInv | listen/silero_vad.py:210-261 | every handler, the timer check and speech end keep the invariant: an armed timer means speaking, a truthy last-speech time and a due time one timeout after it |
| Debounce.SpeechFrame | listen/silero_vad.py:210-225 | a speech frame counts itself, records its time and disarms the timer. Speaking turns on exactly when it was off and the counter reaches min_speech_frames, and only that flip notifies the start callback |
| Debounce.SilenceFrame | listen/silero_vad.py:227-244 | a silence frame zeroes the counter. When not speaking nothing else changes. While speaking it ends speech once the timeout elapsed, else keeps speaking with the timer due one timeout after the last speech, arming only when none was armed |
| Debounce.EndNeverEarly | listen/silero_vad.py:227-252 | a frame or a timer that ends speech comes on silence at least one timeout after the last speech frame |
| Debounce.TimerDueEnds | listen/silero_vad.py:246-261 | an armed timer that fires when due ends speech and disarms itself |
| Debounce.RunKeepsInv | listen/silero_vad.py:194-206 | any run of frames keeps the timer invariant |
| Debounce.RunCounter | listen/silero_vad.py:212-230 | after a run the counter is the number of trailing speech frames, continuing the old count when the run is all speech |
| Debounce.TrailingSpeechMeansRun | listen/vad_light.py:111-130 | a counter starting at zero reaches k iff the last k frames were all speech |
| Debounce.FlipNeedsSpeechRun | listen/vad_light.py:111-124 | from a quiet detector, the frame that turns speaking on ends min_speech_frames uninterrupted speech frames |
| Debounce.RunAlternates | listen/silero_vad.py:210-261 | with both callbacks set, the callbacks of any run alternate start/end, consistent with the speaking flag before and after |
| SileroVad.ContextStep | listen/silero_vad.py:160-173 | after each frame the context is the last 64 samples of everything fed so far |
| SileroVad.FirstExisting | listen/silero_vad.py:109-114 | the chosen path is the default or one of the locations that exists |
| SileroVad.FirstExistingIsFirst | listen/silero_vad.py:109-111 | when some location exists, the chosen path exists and is the earliest location that does |
| SileroVad.FindModelFinds | listen/silero_vad.py:99-114 | without an explicit path, the model is found iff one of the four locations holds it, and the path chosen is one of them |
| SileroVad.SileroVAD.Create | listen/silero_vad.py:40-97 | the ImportError without onnxruntime, then the FileNotFoundError naming the chosen path, then a session failure, in the source's order; otherwise a quiet detector with the given settings |
| SileroVad.SileroVAD.constructor | listen/silero_vad.py:64-97 | a new detector is quiet, with a zero context of 64 samples and no pending samples |
| SileroVad.SileroVAD.RunInference | listen/silero_vad.py:142-176 | a frame that is not 512 samples is rejected with its length and the context unchanged; otherwise the model's answer is returned and the context becomes the last 64 samples of context ++ frame |
| SileroVad.SileroVAD.TriggerSpeechEnd | listen/silero_vad.py:254-261 | not speaking, no timer and a zero counter; the end callback is notified iff set |
| SileroVad.SileroVAD.HandleSpeechDetected | listen/silero_vad.py:210-225 | the new state and notices are those of `Debounce.OnSpeech` |
| SileroVad.SileroVAD.HandleSilenceDetected | listen/silero_vad.py:227-244 | the new state and notices are those of `Debounce.OnSilence` |
| SileroVad.SileroVAD.CheckSilenceTimeout | listen/silero_vad.py:246-252 | the new state and notices are those of `Debounce.OnTimer`, and the invariant is kept |
| SileroVad.SileroVAD.HandleFrame | listen/silero_vad.py:201-206 | a verdict goes to the speech or the silence handler, keeping the invariant |
| SileroVad.SileroVAD.ConsumeFrame | listen/silero_vad.py:194-206 | one loop pass: cuts the next frame, gets its verdict and advances the run by one frame |
| SileroVad.SileroVAD.ProcessAudio | listen/silero_vad.py:178-208 | pending ++ chunk is cut into whole 512-sample frames handled in order. The remainder stays pending and the context is the last 64 samples fed. The detector and notices are the run of the verdicts, and the answer is true iff some frame's probability reached the threshold |
| SileroVad.SileroVAD.Reset | listen/silero_vad.py:263-277 | quiet state, no timer, no pending samples and a zero context |
| VadLight.FrameSizeIs480 | listen/vad_light.py:28-30 | 16000 × 30 / 1000 = 480 samples per frame |
| VadLight.VerdictsRaisedAsSilence | listen/vad_light.py:93-99 | a raising frame anywhere in a call gives the same verdicts as a non-speech frame in its place |
| VadLight.VerdictsAppend | listen/vad_light.py:86-104 | verdicts are per frame: classifying two batches one after the other gives the verdicts of classifying them together |
| VadLight.VerdictsSomeSpeech | listen/vad_light.py:93-104 | some verdict is speech exactly when the classifier answered speech for some frame; a raise never counts |
| VadLight.RaisedIsSilence | listen/vad_light.py:96-104 | a frame whose classifier raised is handled exactly as a silence frame |
| VadLight.TriggerWordsChosen | listen/vad_light.py:55 | the detector always has trigger words, the given list or the defaults (which include "stop"); passing the chosen list back in chooses it again |
| VadLight.WebRTCVAD.Create | listen/vad_light.py:32-69 | an aggressiveness outside 0-3 is rejected, as `webrtcvad.Vad` does; otherwise a quiet detector with the given settings and trigger words |
| VadLight.WebRTCVAD.constructor | listen/vad_light.py:52-69 | a new detector is quiet, with no pending samples, the given settings and the trigger words |
| VadLight.WebRTCVAD.TriggerSpeechEnd | listen/vad_light.py:153-160 | the new state and notices are those of `Debounce.EndSpeech` |
| VadLight.WebRTCVAD.HandleSpeechDetected | listen/vad_light.py:109-124 | the new state and notices are those of `Debounce.OnSpeech` |
| VadLight.WebRTCVAD.HandleSilenceDetected | listen/vad_light.py:126-143 | the new state and notices are those of `Debounce.OnSilence` |
| VadLight.WebRTCVAD.CheckSilenceTimeout | listen/vad_light.py:145-151 | the new state and notices are those of `Debounce.OnTimer`, and the invariant is kept |
| VadLight.WebRTCVAD.HandleFrame | listen/vad_light.py:101-104 | a verdict goes to the speech or the silence handler, keeping the invariant |
| VadLight.WebRTCVAD.ConsumeFrame | listen/vad_light.py:86-104 | one loop pass: cuts the next frame, classifies it and advances the run by one frame |
| VadLight.WebRTCVAD.ProcessAudio | listen/vad_light.py:71-107 | pending ++ chunk is cut into whole 480-sample frames handled in order and the remainder stays pending. The detector and notices are the run of the verdicts, and the answer is true iff some frame was classified as speech |
| VadLight.WebRTCVAD.Reset | listen/vad_light.py:162-171 | quiet state, no timer and no pending samples |
| VadLight.WebRTCVAD.IsSpeakingNow | listen/vad_light.py:173-177 | the speaking flag of the detector; it is true whenever a silence timer is pending, which is never without a truthy last-speech time |
| Vad.ChunkSamplesIs512 | listen/vad.py:24-26 | 16000 × 32 / 1000 = 512 samples per frame |
| Vad.FrameKeepsInv | listen/vad.py:179-214 | every frame keeps the invariant that a speaking detector has start and last-speech times |
| Vad.SpeechFrame | listen/vad.py:182-193 | every speech frame records its time. The silent-to-speaking flip records the start time, and only it notifies the start callback |
| Vad.EndRule | listen/vad.py:195-214 | speech ends iff the frame is silence, at least silence_duration_ms passed since the last speech and the utterance lasted at least min_speech_duration_ms (0 when its start is unset or zero). An ending clears the start time and notifies the end callback iff set |
| Vad.SilentSilence | listen/vad.py:195-197 | silence on a silent detector changes nothing |
| Vad.RunKeepsInv | listen/vad.py:168-214 | any run of frames keeps the invariant |
| Vad.RunAlternates | listen/vad.py:182-214 | with both callbacks set, the callbacks of any run alternate start/end, consistent with the speaking flag |
| Vad.SileroVAD.constructor | listen/vad.py:45-80 | a new detector has no model, is stopped and silent, with no pending samples |
| Vad.SileroVAD.LoadModel | listen/vad.py:82-116 | a loaded model is kept. Otherwise the load succeeds, or fails with the torch message or the hub's own error, leaving no model |
| Vad.SileroVAD.Start | listen/vad.py:118-135 | a running detector is left alone. Otherwise start succeeds iff a model was loaded or loads, then runs silent with no times and no pending samples. A failure is raised with nothing else changed |
| Vad.SileroVAD.Stop | listen/vad.py:137-145 | afterwards not running and not speaking; a no-op when already stopped |
| Vad.SileroVAD.ConsumeFrame | listen/vad.py:168-214 | one loop pass: cuts the next frame, takes its probability and advances the run by one frame |
| Vad.SileroVAD.ProcessAudio | listen/vad.py:147-216 | stopped or without a model it answers false and changes nothing. Otherwise whole 512-sample frames are handled in order and the remainder is kept. The tracking and notices are the run of the verdicts, and the answer is true iff some probability reached the threshold |
| PttController.KeyMapRoundTrip | listen/ptt_controller.py:52-66 | looking a name up in the key table and naming a key are inverse, in both directions; every listed special key has a name that looks it up |
| PttController.KeyMapInjective | listen/ptt_controller.py:52-66 | no two names of the key table map to the same key |
| PttController.ParseCombo | listen/ptt_controller.py:68-77 | "m+c" parses to the table entry of m and, when c is one character, c lower-cased, else no character |
| PttController.ParseSingle | listen/ptt_controller.py:68-77 | a string without "+" parses to its table entry and no character |
| PttController.KeyCharIgnoresCase | listen/ptt_controller.py:156-161 | a character key is matched regardless of case: a char and its lower-cased form give the same character, of the char's length, which is its own normal form |
| PttController.Track | listen/ptt_controller.py:179-187 | a press only adds to the held set, and only the binding's modifier or character |
| PttController.Untrack | listen/ptt_controller.py:227-233 | a release only removes from the held set |
| PttController.PressKeepsInv | listen/ptt_controller.py:173-198 | a press keeps held items within the binding and keeps "triggered means held" |
| PttController.ReleaseKeepsInv | listen/ptt_controller.py:225-237 | a release keeps the same invariant |
| PttController.PressingTheBindingHolds | listen/ptt_controller.py:163-190 | pressing the modifier makes a single-key binding held; pressing the modifier and the character of a combo, in either order, makes the combo held |
| PttController.ReleaseRearms | listen/ptt_controller.py:225-237 | releasing the modifier, or the combo's character, clears the trigger |
| PttController.ReleaseOtherKey | listen/ptt_controller.py:225-237 | releasing a key the binding does not use changes nothing |
| PttController.NoFireOnceTriggered | listen/ptt_controller.py:193-196 | once triggered, no further press fires until a release |
| PttController.FiresAtMostOnce | listen/ptt_controller.py:193-198 | while no key is released, repeated presses fire at most once |
| PttController.ToggleRoundTrip | listen/ptt_controller.py:200-223 | two firings return to the same state; a firing changes the state iff it is not idle and never activates or deactivates the controller |
| PttController.ToggleEventsMatch | listen/ptt_controller.py:145-154 | a firing's callbacks are exactly the state-change callback of the new state, if the state changes, followed by the matching start/stop hook |
| PttController.PTTController.constructor | listen/ptt_controller.py:96-128 | a new controller is idle with no listener, no held keys and no trigger |
| PttController.PTTController.Create | listen/ptt_controller.py:96-128 | fails with the pynput error when pynput is missing, and with "Unknown key" when the modifier is not in the table; otherwise an idle controller with the default or given config and the parsed binding |
| PttController.PTTController.SetState | listen/ptt_controller.py:145-154 | the state is the new one, and the state-change callback runs iff the state really changed |
| PttController.PTTController.RecordPress | listen/ptt_controller.py:179-187 | the held set is `Track` of the key |
| PttController.PTTController.Toggle | listen/ptt_controller.py:200-223 | the state is toggled, with the callbacks of `ToggleEvents` |
| PttController.PTTController.OnKeyPress | listen/ptt_controller.py:173-223 | the key tracking advances by the press; when the press fires, the state toggles with its callbacks, otherwise state and callbacks are unchanged |
| PttController.PTTController.OnKeyRelease | listen/ptt_controller.py:225-237 | the key tracking follows the release, and the trigger clears once the binding is no longer held |
| PttController.PTTController.Start | listen/ptt_controller.py:239-263 | with a listener nothing happens. Otherwise the state is listening and the listener is created and started; a failure is returned with the listener installed only if it was created |
| PttController.PTTController.Stop | listen/ptt_controller.py:265-286 | without a listener nothing happens. Otherwise a recording gets its stop hook, then the listener is stopped and removed, then the state becomes idle |
| PttController.PTTController.ForceStopRecording | listen/ptt_controller.py:288-298 | a recording moves to listening with the stop hook; in any other state nothing happens |
| PttController.PttRegistry.Create | listen/ptt_controller.py:310-314 | fails with the pynput error, then with "Unknown key" for an unknown modifier, keeping the old controller. Otherwise the new controller replaces it: idle, no listener, no events, the defaulted configuration and the parsed binding |
| PttController.PttRegistry.Destroy | listen/ptt_controller.py:317-322 | the controller, if any, is stopped and forgotten. Without a listener its state and events are unchanged. With one it gets the stop hook when recording with that hook set, then the listener stop, then becomes idle with the state-change callback |
| SimplePtt.TranscriberFallback | listen/simple_ptt.py:62-101 | Parakeet iff its wrapper module imports; SpeechAnalyzer iff that wrapper does not import and SpeechAnalyzer imports and is available; none iff neither; a chosen engine stays chosen |
| SimplePtt.ParakeetMlxMissingIsNoFallback | listen/parakeet_transcriber.py:59-70 | without parakeet-mlx the wrapper still imports, so Parakeet is chosen and cached, and the stop fails with the loader's ImportError after saving; SpeechAnalyzer is never tried |
| SimplePtt.TranscribedOutcome | listen/simple_ptt.py:150-177 | None iff the audio is empty, which touches nothing. Otherwise the file is saved before any engine sees the audio. "No transcriber" is reported iff no engine can be chosen. Only a success becomes the last transcription, and the callback runs iff it is set and the transcription succeeded |
| SimplePtt.SimplePTTRecorder.constructor | listen/simple_ptt.py:36-60 | a new recorder is not recording, has no engine and no transcription, and its own capture is fresh and empty |
| SimplePtt.SimplePTTRecorder.GetTranscriber | listen/simple_ptt.py:62-101 | the cached engine becomes `ChooseTranscriber`, and the answer is that engine or the "no transcriber" error |
| SimplePtt.SimplePTTRecorder.Start | listen/simple_ptt.py:113-124 | no change while recording. Otherwise the buffer is cleared and the microphone started, and recording begins iff the microphone opened |
| SimplePtt.SimplePTTRecorder.SaveAndTranscribe | listen/simple_ptt.py:150-177 | the outcome, events and fields are those of `Transcribed` for the audio path under the output directory |
| SimplePtt.SimplePTTRecorder.Stop | listen/simple_ptt.py:126-177 | None with no side effects when not recording. Otherwise recording stops, the buffer is taken and the microphone released before anything else, and the rest is `Transcribed` of the taken audio |
| SimplePtt.SimplePTTRecorder.Clear | listen/simple_ptt.py:179-184 | the last transcription is forgotten; an existing saved file is deleted and forgotten |
| SimplePtt.PttRecorderRegistry.GetSimplePtt | listen/simple_ptt.py:191-198 | the existing recorder, or a fresh one in /tmp/claude-ptt that is not recording, with no engine, no transcription, no saved file and an empty trace |
| SimplePtt.PttRecorderRegistry.DestroySimplePtt | listen/simple_ptt.py:201-220 | a recording is stopped first and its error is raised with the recorder kept; otherwise the module capture is destroyed and the recorder forgotten, and the microphone is off either way |
| Coordination.MarkerLaws | shared/coordination.py:16-92 | each marker operation is idempotent; a check right after a signal answers true, and one right after a check or a clear answers false |
| Coordination.ChecksOnAbsent | shared/coordination.py:52-64 | checks on an absent marker all answer false |
| Coordination.SignalsCoalesce | shared/coordination.py:44-64 | any number of signals before a series of checks give exactly one true check, the first, then false |
| Coordination.StopSignal.SignalStopSpeaking | shared/coordination.py:16-49 | calls the speaking server's stop when it imports, otherwise touches the marker; true unless the chosen action raised |
| Coordination.StopSignal.CheckStopSignal | shared/coordination.py:52-64 | true iff the marker was present, and it is absent afterwards |
| Coordination.StopSignal.ClearStopSignal | shared/coordination.py:86-92 | the marker is absent afterwards unless the removal raised; an absent marker stays absent |
| Coordination.VoiceCoordinator.constructor | shared/coordination.py:104-106 | neither listening nor speaking |
| Coordination.VoiceCoordinator.StartListening | shared/coordination.py:108-110 | sets only the listening flag |
| Coordination.VoiceCoordinator.StopListening | shared/coordination.py:112-114 | clears only the listening flag |
| Coordination.VoiceCoordinator.StartSpeaking | shared/coordination.py:116-118 | sets only the speaking flag |
| Coordination.VoiceCoordinator.StopSpeaking | shared/coordination.py:120-122 | clears only the speaking flag |
| Coordination.VoiceCoordinator.OnSpeechDetected | shared/coordination.py:128-135 | signals stop iff its own flag is set or a `say` process runs, through the direct stop or the marker; otherwise nothing changes |
| ListenServer.ListenServer.constructor | listen/mcp_server.py:36-48 | not listening, nothing buffered, no transcription, no components |
| ListenServer.ListenServer.OnAudioChunk | listen/mcp_server.py:36-48 | ignored unless listening with a detector; otherwise the chunk is buffered, then fed to the detector |
| ListenServer.ListenServer.OnSpeechStart | listen/mcp_server.py:51-61 | the buffer is emptied, then speech is interrupted, then the speech is reported |
| ListenServer.ListenServer.OnSpeechEnd | listen/mcp_server.py:64-78 | nothing when nothing is buffered. Otherwise the buffer is taken and emptied. With a transcriber and non-empty audio it is transcribed, and a success is stored with the ready event set; a raising transcriber is the failure |
| ListenServer.ListenServer.InitializeComponents | listen/mcp_server.py:81-96 | creates the capture, then each missing component; a raising constructor stops there and is reported; success iff both detector and transcriber exist |
| ListenServer.ListenServer.StartListening | listen/mcp_server.py:99-131 | "Already listening." changes nothing. Otherwise it starts iff the components can be created and the microphone opens, and then listening, the ready event cleared, the coordinator told. Any failure leaves it not listening with an error reply |
| ListenServer.ListenServer.StopListening | listen/mcp_server.py:134-159 | "Not currently listening." changes nothing; otherwise not listening, with the microphone stopped, the detector reset and the coordinator told, in that order |
| ListenServer.ListenServer.GetTranscription | listen/mcp_server.py:162-188 | with wait, the timeout sentinel when nothing arrives, else the arrived text; without wait, the stored text or "[No transcription available]", changing nothing |
| ListenServer.ListenServer.TranscribeNow | listen/mcp_server.py:219-244 | "[No audio buffered]" changes nothing. Otherwise the buffer is emptied before components are created and the audio is transcribed. A success is stored and returned, and creation or transcription errors are failures |
| SayServer.WithSilenceShape | mcp_server.py:66-87 | the queued text is the text followed by " [[slnc 300]]" |
| SayServer.PreviewShape | mcp_server.py:90-91 | the preview is the text when at most 50 characters, else its first 50 followed by "...", and never longer than 53 |
| SayServer.CommandShape | mcp_server.py:34-38 | the command is say, -r and the rate, then -v and the voice exactly when a voice is given, then the text last |
| SayServer.VoiceLines | mcp_server.py:184-190 | never more entries than lines |
| SayServer.VoiceSource | mcp_server.py:184 | at most 20 lines of the stripped output |
| SayServer.VoiceLinesFaithful | mcp_server.py:184-190 | one entry per non-blank line, each "- name (lang)" built from a non-blank line |
| SayServer.SayServer.constructor | mcp_server.py:22-62 | an empty queue, no process and no worker, which satisfies the worker invariant |
| SayServer.SayServer.Speak | mcp_server.py:69-91 | the worker runs, the text with its pause joins the end of the queue with voice and rate, and the reply is "Added to queue:" with the preview; the status size grows by one and the speaking answer is unchanged |
| SayServer.SayServer.WorkerTake | mcp_server.py:22-45 | an empty queue leaves the worker waiting. Otherwise the head is removed; the sentinel ends the worker and an item starts `say` with its command, after which the status answers speaking with one item fewer |
| SayServer.SayServer.ProcessExits | mcp_server.py:47 | the process, if any, is no longer alive, so the status answers silent |
| SayServer.SayServer.WorkerFinish | mcp_server.py:47-52 | the slot is empty and the worker is free; the status answers silent |
| SayServer.SayServer.StopSpeaking | mcp_server.py:122-148 | the queue is empty and the reply counts the items removed. A live process is terminated and the slot emptied with "Stopped."; otherwise "Nothing playing." and the slot is kept. Either way the status afterwards is silent with an empty queue |
| SayServer.SayServer.Skip | mcp_server.py:151-166 | a live process is terminated with the queue untouched; otherwise "No message currently playing." and nothing changes. The status afterwards is silent |
| SayServer.SayServer.ListVoices | mcp_server.py:169-192 | the loop's entries are `VoiceLines` of the first 20 lines of the stripped output |
| SayServer.SayServer.QueueStatus | mcp_server.py:195-211 | "Speaking" iff a process exists and is alive, and the queue size. Every method keeps the invariant that a process in the slot belongs to the live worker waiting on it, so a speaking status means the worker is busy with that process |
| MlxAudioTts.LookupAppend | say/mlx_audio_tts.py:148-150 | merging a table into another answers from the later table first |
| MlxAudioTts.LookupFinds | say/mlx_audio_tts.py:148-150 | a table answers for an id iff some entry has that id, and the answer is that entry's name |
| MlxAudioTts.EnglishTablesShape | say/mlx_audio_tts.py:63-95 | every American and British voice id starts with its language code, and every voice has a name |
| MlxAudioTts.OtherTablesShape | say/mlx_audio_tts.py:96-145 | the same for the other seven tables |
| MlxAudioTts.TableCodes | say/mlx_audio_tts.py:50-145 | the voice tables are exactly the nine language codes, each one character, and their ids start with it |
| MlxAudioTts.MergeByPrefix | say/mlx_audio_tts.py:148-150 | merging nine tables keyed by distinct first characters answers an id from its own table alone |
| MlxAudioTts.VoicesIsUnion | say/mlx_audio_tts.py:148-150 | VOICES answers for an id what the table of its first character answers, and nothing for an id no language claims |
| MlxAudioTts.VoicesNamed | say/mlx_audio_tts.py:148-150 | every voice of VOICES has a display name |
| MlxAudioTts.LanguageFromVoice | say/mlx_audio_tts.py:202-207 | the language is always one character |
| MlxAudioTts.VoiceLanguage | say/mlx_audio_tts.py:202-207 | the language of every voice of a table is that table's code |
| MlxAudioTts.DefaultsBelong | say/mlx_audio_tts.py:153-163 | each language's default voice is one of its voices and speaks it; other languages fall back to "af_heart" |
| MlxAudioTts.VoiceNameShape | say/mlx_audio_tts.py:332-335 | a known voice answers its non-empty name from VOICES, an unknown one the id itself |
| MlxAudioTts.ListVoicesShape | say/mlx_audio_tts.py:337-350 | every voice listed for a language speaks it; an unknown language lists nothing; no language lists VOICES |
| MlxAudioTts.CatalogueExamples | tests/test_mlx_audio_tts.py:26-80 | the voices, names and speeds the tests accept and reject |
| MlxAudioTts.MLXAudioTTS.constructor | say/mlx_audio_tts.py:165-200 | no model, pipeline or language yet |
| MlxAudioTts.MLXAudioTTS.Create | say/mlx_audio_tts.py:165-200 | fails iff mlx-audio is missing, the voice is not in VOICES, or the speed is outside [0.5, 2.0], with that error; otherwise an unloaded instance |
| MlxAudioTts.MLXAudioTTS.LoadModel | say/mlx_audio_tts.py:209-223 | the language defaults to the voice's. The model is reloaded, as a new model, iff there is no pipeline or it speaks another language; otherwise it is reused |
| MlxAudioTts.MLXAudioTTS.Synthesize | say/mlx_audio_tts.py:225-256 | the pipeline speaks the voice's language, reused when it already did. No chunks is the "Failed to synthesize" error; otherwise the concatenated chunks at 24000 Hz |
| MlxAudioTts.MLXAudioTTS.UnloadModel | say/mlx_audio_tts.py:326-330 | no model, pipeline or language afterwards |

## Left out

- Inference and engines: the ONNX session, torch hub, webrtcvad, Kokoro, Parakeet and the SpeechAnalyzer CLI are foreign calls. Their answers are inputs.
- Threads, locks and timers:
  - daemon-thread callbacks are entries of a notice list;
  - a `threading.Timer` is a due time plus a method to call when it fires;
  - `speech_worker`'s blocking `get` and `wait` are split into steps the environment calls.
- Wall-clock time: one integer millisecond reading `now` per call, shared by all frames of one `process_audio`.
- Floating-point conversions are not modelled. These are the float→int16 scaling before WebRTC, `rate = int(speed * 175)` (the rate is an integer input) and the audio duration logging.
- Logging is left out entirely.
- File system and processes: writing the FLAC file, deleting the saved file, `pgrep`, `afplay` and `say` appear only as trace events or inputs. The stop marker is a boolean.
- SimplePtt.SimplePTTRecorder.constructor: creating the output directory (`mkdir(parents=True, exist_ok=True)`) is not modelled; the recorder only keeps the path.
- SimplePtt.ChooseTranscriber: the import that can fail is that of the Parakeet wrapper, which needs no parakeet-mlx. A missing parakeet-mlx surfaces as a failing transcription (`ParakeetMlxMissingIsNoFallback`), not as the SpeechAnalyzer fallback or the "No STT transcriber" error, which the source's docstring suggests.
- Coordination.VoiceCoordinator.IsSpeaking: whether `pgrep -x say` finds a process is an input.
- `__del__`, `list_devices`, `is_running`, `listening_status`, `get_vad`/`destroy_vad`, `is_silero_available` and `get_silero_vad` are not modelled. They are accessors, device listings or singletons outside the control logic.
- `speak_and_wait` is not modelled. It joins the queue, which is concurrency.
- `synthesize_to_file`, `play` and `speak` of mlx_audio_tts.py are not modelled. They are file and audio-device I/O.
- The Parakeet idle checker is not modelled, because it is a background thread.
- `_create_session` of silero_vad.py is an input: whether opening the session raises. The choice between the CoreML and the CPU provider, and its messages, are not modelled.
- VadLight.WebRTCVAD.Create: the ImportError of `import webrtcvad` happens when the module is imported, not in the constructor, and is not modelled.
- SayServer.SayServer.Skip and SayServer.SayServer.StopSpeaking: `terminate()` is treated as ending the process at once. In the source `poll()` can still answer None just after `terminate()`, so `queue_status` may briefly still say "Speaking".
- ListenServer.ListenServer: listen/mcp_server.py builds its detector with arguments listen/vad.py does not accept, and calls a `reset()` that listen/vad.py does not define. The server is therefore modelled against an abstract detector with trace events, not against module Vad.
- SimplePtt.PttRecorderRegistry.DestroySimplePtt: the source destroys the module-level capture of listen/audio.py, which is not the recorder's own capture. The model keeps the two apart and states only that the recorder's microphone is off.
- VadLight.WebRTCVAD: the trigger words are stored but not used by the detector, as in the source.
- MlxAudioTts.Validate: the speed error is `SpeedOutOfRange(speed)`, not the formatted float message. The unsupported-voice error does not render the list of ids.
- MlxAudioTts.MLXAudioTTS.LoadModel: a failing model load or pipeline construction is not modelled. Loading always succeeds and gives a new model number.
- Text.Lower: only ASCII letters are lower-cased; Unicode case mapping is not modelled.
- SimplePtt.SimplePTTRecorder.Clear: the file deletion is a trace event guarded by an input saying whether the file exists.
