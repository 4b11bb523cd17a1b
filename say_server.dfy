/**
 * The speaking server of mcp_server.py: a FIFO of utterances consumed by one worker
 * that runs `/usr/bin/say` per item, and the tools that enqueue, stop, skip and report.
 * The `say` process is a slot holding the command it runs and whether it is still
 * alive; the worker's blocking waits are split into steps the environment calls.
 */
module SayServer {
  import opened Wrappers
  import opened Text

  const TRAILING_SILENCE_MS: nat := 300
  const PREVIEW_LENGTH: nat := 50
  const MAX_VOICES: nat := 20

  /** One utterance: its text (already suffixed with the trailing pause), the optional
      voice and the words-per-minute rate. */
  datatype Item = Item(text: string, voice: Option<string>, rate: int)

  /** `f"{text} [[slnc {TRAILING_SILENCE_MS}]]"`. */
  function WithSilence(text: string): string
  {
    text + " [[slnc " + NatToString(TRAILING_SILENCE_MS) + "]]"
  }

  /** The utterance text keeps the spoken text as its prefix and ends in the pause command. */
  lemma WithSilenceShape(text: string)
    ensures WithSilence(text) == text + " [[slnc 300]]"
  {
    assert NatToString(300) == NatToString(30) + ['0'];
    assert NatToString(30) == NatToString(3) + ['0'];
  }

  /** The first 50 characters followed by "..." when the text is longer, else the text. */
  function Preview(text: string): string
  {
    if |text| > PREVIEW_LENGTH then text[..PREVIEW_LENGTH] + "..." else text
  }

  lemma PreviewShape(text: string)
    ensures |Preview(text)| <= PREVIEW_LENGTH + 3
    ensures |text| <= PREVIEW_LENGTH ==> Preview(text) == text
    ensures |text| > PREVIEW_LENGTH ==> |Preview(text)| == PREVIEW_LENGTH + 3 && Preview(text)[PREVIEW_LENGTH..] == "..."
    ensures |text| > PREVIEW_LENGTH ==> Preview(text)[..PREVIEW_LENGTH] == text[..PREVIEW_LENGTH]
  {
  }

  /** A voice is passed on only when it is given and non-empty (Python truthiness). */
  predicate HasVoice(voice: Option<string>)
  {
    voice.Some? && voice.value != ""
  }

  /** The command the worker runs for an item. */
  function Command(item: Item): seq<string>
  {
    ["/usr/bin/say", "-r", IntToString(item.rate)]
      + (if HasVoice(item.voice) then ["-v", item.voice.value] else [])
      + [item.text]
  }

  /** The rate follows `-r`, the voice follows `-v` exactly when one is given, and the
      text is the last argument. */
  lemma CommandShape(item: Item)
    ensures var cmd := Command(item);
      && |cmd| == (if HasVoice(item.voice) then 6 else 4)
      && cmd[0] == "/usr/bin/say" && cmd[1] == "-r" && cmd[2] == IntToString(item.rate)
      && (HasVoice(item.voice) ==> cmd[3] == "-v" && cmd[4] == item.voice.value)
      && cmd[|cmd| - 1] == item.text
  {
  }

  /** `- name (lang)` from the first two words of a line of `say -v ?`. */
  function VoiceEntry(words: seq<string>): string
    requires words != []
  {
    "- " + words[0] + " (" + (if |words| > 1 then words[1] else "") + ")"
  }

  /** The entries of the non-blank lines, in order. */
  function VoiceLines(lines: seq<string>): (r: seq<string>)
    ensures |r| <= |lines|
  {
    if lines == [] then []
    else
      var last := lines[|lines| - 1];
      VoiceLines(lines[..|lines| - 1]) + (if Words(last) == [] then [] else [VoiceEntry(Words(last))])
  }

  /** The lines `list_voices` looks at: the first 20 of the stripped output. */
  function VoiceSource(stdout: string): (lines: seq<string>)
    ensures |lines| <= MAX_VOICES
  {
    var all := Split(Strip(stdout), '\n');
    if |all| <= MAX_VOICES then all else all[..MAX_VOICES]
  }

  /** The number of lines that hold a word. */
  function NonBlank(lines: seq<string>): nat
  {
    if lines == [] then 0
    else NonBlank(lines[..|lines| - 1]) + (if Words(lines[|lines| - 1]) == [] then 0 else 1)
  }

  /** Every entry comes from a non-blank line, and there is one entry per non-blank line. */
  lemma {:induction false} VoiceLinesFaithful(lines: seq<string>)
    ensures |VoiceLines(lines)| == NonBlank(lines)
    ensures forall k :: 0 <= k < |VoiceLines(lines)| ==>
      exists i :: 0 <= i < |lines| && Words(lines[i]) != [] && VoiceLines(lines)[k] == VoiceEntry(Words(lines[i]))
  {
    if lines != [] {
      var n := |lines| - 1;
      var init := lines[..n];
      VoiceLinesFaithful(init);
      assert forall i :: 0 <= i < n ==> init[i] == lines[i];
      forall k | 0 <= k < |VoiceLines(lines)|
        ensures exists i :: 0 <= i < |lines| && Words(lines[i]) != [] && VoiceLines(lines)[k] == VoiceEntry(Words(lines[i]))
      {
        if k < |VoiceLines(init)| {
          var i :| 0 <= i < n && Words(init[i]) != [] && VoiceLines(init)[k] == VoiceEntry(Words(init[i]));
          assert VoiceLines(lines)[k] == VoiceLines(init)[k];
          assert lines[i] == init[i];
        } else {
          assert VoiceLines(lines)[k] == VoiceEntry(Words(lines[n]));
        }
      }
    }
  }

  /** The `current_process` slot: the command of the `say` process last started, and
      whether it is still running (`poll() is None`). */
  datatype Process = Process(cmd: seq<string>, alive: bool)

  /** The statuses the tools answer; `ReplyText` gives their text. */
  datatype Reply =
    | Queued(preview: string)
    | Stopped(cleared: nat) | NothingPlaying(cleared: nat)
    | Skipped | NoMessage
    | Voices(entries: seq<string>)
    | Status(speaking: bool, size: nat)

  function ReplyText(r: Reply): string
  {
    match r
    case Queued(preview) => "Added to queue: " + preview
    case Stopped(n) => "Stopped. " + NatToString(n) + " message(s) cleared from queue."
    case NothingPlaying(n) => "Nothing playing. " + NatToString(n) + " message(s) cleared from queue."
    case Skipped => "Current message skipped, moving to next."
    case NoMessage => "No message currently playing."
    case Voices(entries) => "Available voices:\n" + Join(entries, "\n")
    case Status(speaking, size) =>
      "Status: " + (if speaking then "Speaking" else "Silent") + "\nMessages in queue: " + NatToString(size)
  }

  class SayServer {
    /** The queue; None is the worker's stop sentinel. */
    var queue: seq<Option<Item>>
    var current: Option<Process>
    var workerAlive: bool
    /** The worker started a process and waits for it to end. */
    var workerWaiting: bool
    /** Processes terminated by a tool, in order. */
    var terminated: seq<seq<string>>

    constructor ()
      ensures Valid()
      ensures queue == [] && current.None? && !workerAlive && !workerWaiting && terminated == []
    {
      queue := [];
      current := None;
      workerAlive := false;
      workerWaiting := false;
      terminated := [];
    }

    /** A process in the slot is the one the live worker started and waits on. */
    predicate Valid()
      reads this
    {
      current.Some? ==> workerAlive && workerWaiting
    }

    /** A `say` process exists and is still running. */
    predicate Playing()
      reads this
    {
      current.Some? && current.value.alive
    }

    /** `speak`: makes sure the worker runs, enqueues the text with its trailing pause,
        and answers with a preview of the text. */
    method Speak(text: string, voice: Option<string>, rate: int) returns (reply: Reply)
      modifies this`queue, this`workerAlive
      ensures workerAlive
      ensures queue == old(queue) + [Some(Item(WithSilence(text), voice, rate))]
      ensures reply == Queued(Preview(text))
      ensures old(Valid()) ==> Valid()
      ensures QueueStatus() == Status(old(Playing()), |old(queue)| + 1)
    {
      workerAlive := true;
      queue := queue + [Some(Item(WithSilence(text), voice, rate))];
      reply := Queued(Preview(text));
    }

    /** One turn of `speech_worker` when it is free: an empty queue leaves it waiting, the
        sentinel ends it, and an item starts `say` with the item's command. */
    method WorkerTake()
      requires workerAlive && !workerWaiting
      modifies this`queue, this`current, this`workerAlive, this`workerWaiting
      ensures old(queue) == [] ==> unchanged(this)
      ensures old(queue) != [] ==> queue == old(queue)[1..]
      ensures old(queue) != [] && old(queue)[0].None? ==> !workerAlive && current == old(current) && !workerWaiting
      ensures old(queue) != [] && old(queue)[0].Some? ==>
        workerAlive && workerWaiting && current == Some(Process(Command(old(queue)[0].value), true))
      ensures old(Valid()) ==> Valid()
      ensures old(queue) != [] && old(queue)[0].Some? ==> QueueStatus() == Status(true, |old(queue)| - 1)
    {
      if queue == [] {
        return;
      }
      var item := queue[0];
      queue := queue[1..];
      if item.None? {
        workerAlive := false;
        return;
      }
      current := Some(Process(Command(item.value), true));
      workerWaiting := true;
    }

    /** The `say` process ends on its own. */
    method ProcessExits()
      modifies this`current
      ensures current == (if old(current).Some? then Some(old(current).value.(alive := false)) else None)
      ensures old(Valid()) ==> Valid()
      ensures QueueStatus() == Status(false, |queue|)
    {
      if current.Some? {
        current := Some(current.value.(alive := false));
      }
    }

    /** The worker's wait returns: the slot is emptied and the worker is free again. */
    method WorkerFinish()
      requires workerWaiting
      modifies this`current, this`workerWaiting
      ensures current.None? && !workerWaiting
      ensures Valid() && QueueStatus() == Status(false, |queue|)
    {
      current := None;
      workerWaiting := false;
    }

    /** `stop_speaking`: drains the queue, counting what it removed, then terminates a
        running process and empties the slot. */
    method StopSpeaking() returns (reply: Reply)
      modifies this`queue, this`current, this`terminated
      ensures queue == []
      ensures old(Playing()) ==>
                reply == Stopped(|old(queue)|) && current.None? && terminated == old(terminated) + [old(current).value.cmd]
      ensures !old(Playing()) ==>
                reply == NothingPlaying(|old(queue)|) && current == old(current) && terminated == old(terminated)
      ensures old(Valid()) ==> Valid()
      ensures QueueStatus() == Status(false, 0)
    {
      var cleared: nat := 0;
      while queue != []
        invariant cleared + |queue| == |old(queue)|
        invariant current == old(current) && terminated == old(terminated)
        decreases |queue|
      {
        queue := queue[1..];
        cleared := cleared + 1;
      }
      if Playing() {
        terminated := terminated + [current.value.cmd];
        current := None;
        return Stopped(cleared);
      }
      reply := NothingPlaying(cleared);
    }

    /** `skip`: terminates a running process and leaves the queue as it is. */
    method Skip() returns (reply: Reply)
      modifies this`current, this`terminated
      ensures old(Playing()) ==>
                && reply == Skipped && terminated == old(terminated) + [old(current).value.cmd]
                && current == Some(old(current).value.(alive := false))
      ensures !old(Playing()) ==> reply == NoMessage && unchanged(this)
      ensures old(Valid()) ==> Valid()
      ensures QueueStatus() == Status(false, |queue|)
    {
      if Playing() {
        terminated := terminated + [current.value.cmd];
        current := Some(current.value.(alive := false));
        return Skipped;
      }
      reply := NoMessage;
    }

    /** `list_voices`: one entry per non-blank line among the first 20 lines of the
        output of `say -v ?` (given as `stdout`). */
    method ListVoices(stdout: string) returns (reply: Reply)
      ensures reply == Voices(VoiceLines(VoiceSource(stdout)))
    {
      var lines := VoiceSource(stdout);
      var voices: seq<string> := [];
      for i := 0 to |lines|
        invariant voices == VoiceLines(lines[..i])
      {
        var parts := Words(lines[i]);
        if parts != [] {
          voices := voices + [VoiceEntry(parts)];
        }
        assert lines[..i + 1][..i] == lines[..i];
      }
      assert lines[..|lines|] == lines;
      reply := Voices(voices);
    }

    /** `queue_status`: whether `say` is running, and how many items wait. */
    function QueueStatus(): (r: Reply)
      reads this
      ensures r.Status? && (r.speaking <==> Playing()) && r.size == |queue|
      ensures Valid() && r.speaking ==> workerAlive && workerWaiting && current.value.alive
    {
      Status(Playing(), |queue|)
    }
  }
}
