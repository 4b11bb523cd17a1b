/**
 * The coordination between the speaking and the listening servers of
 * shared/coordination.py: a stop marker that the listener sets and the speaker
 * consumes, and a coordinator holding the two activity flags that decides when the
 * listener interrupts speech. The marker file is a boolean; whether the speaking server's
 * module imports, and whether a `say` process is running, are inputs.
 */
module Coordination {
  /** The operations on the marker. */
  datatype MarkerOp = Touch | Check | Clear

  /** The marker after `op`, and what a check answers (false for the others). */
  datatype Applied = Applied(present: bool, answer: bool)

  function Apply(present: bool, op: MarkerOp): (a: Applied)
    ensures op.Check? ==> (a.answer <==> present)
    ensures !op.Check? ==> !a.answer
    ensures a.present <==> op.Touch?
  {
    match op
    case Touch => Applied(true, false)
    case Check => Applied(false, present)
    case Clear => Applied(false, false)
  }

  /** Each operation is idempotent on the marker. A check right after a signal answers
      true, and a check right after a check or a clear answers false. */
  lemma MarkerLaws(present: bool, op: MarkerOp)
    ensures Apply(Apply(present, op).present, op).present == Apply(present, op).present
    ensures Apply(Apply(present, Touch).present, Check).answer
    ensures !Apply(Apply(present, Check).present, Check).answer
    ensures !Apply(Apply(present, Clear).present, Check).answer
  {
  }

  /** The answers of the checks among `ops`, in order. */
  function Answers(present: bool, ops: seq<MarkerOp>): (r: seq<bool>)
    decreases |ops|
  {
    if ops == [] then []
    else
      var a := Apply(present, ops[0]);
      (if ops[0].Check? then [a.answer] else []) + Answers(a.present, ops[1..])
  }

  function Touches(n: nat): (ops: seq<MarkerOp>)
    ensures |ops| == n && forall i :: 0 <= i < n ==> ops[i] == Touch
  {
    seq(n, i => Touch)
  }

  function Checks(n: nat): (ops: seq<MarkerOp>)
    ensures |ops| == n && forall i :: 0 <= i < n ==> ops[i] == Check
  {
    seq(n, i => Check)
  }

  /** A run of checks on an absent marker answers false every time. */
  lemma {:induction false} ChecksOnAbsent(m: nat)
    ensures Answers(false, Checks(m)) == seq(m, i => false)
  {
    if m > 0 {
      assert Checks(m)[1..] == Checks(m - 1);
      ChecksOnAbsent(m - 1);
    }
  }

  /** However many times the marker is signalled before the checks, exactly the first
      check answers true and every later one false. */
  lemma {:induction false} SignalsCoalesce(present: bool, n: nat, m: nat)
    requires n > 0 && m > 0
    decreases n
    ensures Answers(present, Touches(n) + Checks(m)) == [true] + seq(m - 1, i => false)
  {
    if n == 1 {
      var ops := Touches(1) + Checks(m);
      assert ops[0] == Touch && ops[1..] == Checks(m);
      assert Checks(m)[1..] == Checks(m - 1);
      ChecksOnAbsent(m - 1);
    } else {
      var ops := Touches(n) + Checks(m);
      assert ops[0] == Touch && ops[1..] == Touches(n - 1) + Checks(m);
      SignalsCoalesce(true, n - 1, m);
    }
  }

  /** What `from mcp_server import stop_speaking` does: the module imports and its
      `stop_speaking()` returns or raises, or the import fails. */
  datatype SayModule = Importable(stopRaises: bool) | NotImportable

  /** The stop marker `/tmp/claude-voice-stop`, and the direct stops requested. */
  class StopSignal {
    var present: bool
    var directStops: nat

    constructor (present: bool)
      ensures this.present == present && directStops == 0
    {
      this.present := present;
      directStops := 0;
    }

    /** `signal_stop_speaking`: calls the speaking server's stop directly when it
        imports, otherwise touches the marker; false when either raises. */
    method SignalStopSpeaking(say: SayModule, touchRaises: bool) returns (ok: bool)
      modifies this
      ensures say.Importable? ==>
                directStops == old(directStops) + 1 && present == old(present) && (ok <==> !say.stopRaises)
      ensures say.NotImportable? ==>
                && directStops == old(directStops) && (ok <==> !touchRaises)
                && present == (if touchRaises then old(present) else Apply(old(present), Touch).present)
    {
      if say.Importable? {
        directStops := directStops + 1;
        return !say.stopRaises;
      }
      if touchRaises {
        return false;
      }
      present := true;
      ok := true;
    }

    /** `check_stop_signal`: consumes the marker. */
    method CheckStopSignal() returns (b: bool)
      modifies this`present
      ensures Applied(present, b) == Apply(old(present), Check)
      ensures b == old(present) && !present
    {
      b := present;
      if present {
        present := false;
      }
    }

    /** `clear_stop_signal`: removes the marker; a failing removal is ignored. */
    method ClearStopSignal(unlinkRaises: bool)
      modifies this`present
      ensures !unlinkRaises ==> present == Apply(old(present), Clear).present
      ensures !old(present) ==> !present
      ensures unlinkRaises ==> present == old(present)
    {
      if present && !unlinkRaises {
        present := false;
      }
    }
  }

  /** `VoiceCoordinator`: whether the listener and the speaker are active. */
  class VoiceCoordinator {
    var listening: bool
    var speaking: bool

    constructor ()
      ensures !listening && !speaking
    {
      listening := false;
      speaking := false;
    }

    method StartListening()
      modifies this`listening
      ensures listening
    {
      listening := true;
    }

    method StopListening()
      modifies this`listening
      ensures !listening
    {
      listening := false;
    }

    method StartSpeaking()
      modifies this`speaking
      ensures speaking
    {
      speaking := true;
    }

    method StopSpeaking()
      modifies this`speaking
      ensures !speaking
    {
      speaking := false;
    }

    /** The `is_speaking` property; `sayRunning` is what `pgrep -x say` finds (false
        when it cannot run). */
    function IsSpeaking(sayRunning: bool): bool
      reads this
    {
      speaking || sayRunning
    }

    /** `on_speech_detected`: the listener interrupts speech exactly when something is
        speaking. */
    method OnSpeechDetected(sayRunning: bool, signal: StopSignal, say: SayModule, touchRaises: bool)
      modifies signal
      ensures !IsSpeaking(sayRunning) ==> unchanged(signal)
      ensures IsSpeaking(sayRunning) && say.Importable? ==>
        signal.directStops == old(signal.directStops) + 1 && signal.present == old(signal.present)
      ensures IsSpeaking(sayRunning) && say.NotImportable? ==>
                signal.directStops == old(signal.directStops) && signal.present == (old(signal.present) || !touchRaises)
    {
      if IsSpeaking(sayRunning) {
        var _ := signal.SignalStopSpeaking(say, touchRaises);
      }
    }
  }
}
