/**
 * The push-to-talk hotkey controller of listen/ptt_controller.py. A key binding is a
 * modifier key, optionally combined with a character key ("cmd_r+m"). The controller
 * tracks which of the bound keys are held, fires once each time the binding becomes
 * held, and a firing toggles between listening and recording. Keyboard events arrive as
 * method calls; the keyboard listener thread is a slot that is installed or not.
 */
module PttController {
  import opened Wrappers
  import opened Text

  datatype PTTState = Idle | Listening | Recording

  /** The special keys pynput names in the key table, and any other special key. */
  datatype SpecialKey = CmdR | CmdL | AltR | AltL | CtrlR | CtrlL | ShiftR | ShiftL | F13 | F14 | F15 | Space
                      | OtherSpecial(code: int)

  /** A key event's key: a special key, or a key code whose character may be unset. */
  datatype Key = Special(special: SpecialKey) | Character(ch: Option<string>)

  /** What the controller records as held: its modifier, or a character. */
  datatype PressedItem = Mod(key: SpecialKey) | Ch(c: string)

  const KEY_MAP: map<string, SpecialKey> := map[
    "cmd_r" := CmdR, "cmd_l" := CmdL, "alt_r" := AltR, "alt_l" := AltL,
    "ctrl_r" := CtrlR, "ctrl_l" := CtrlL, "shift_r" := ShiftR, "shift_l" := ShiftL,
    "f13" := F13, "f14" := F14, "f15" := F15, "space" := Space]

  /** `KEY_MAP.get(name)`. */
  function KeyMapGet(name: string): (r: Option<SpecialKey>)
    ensures r.Some? <==> name in KEY_MAP
    ensures r.Some? ==> r.value == KEY_MAP[name] && !r.value.OtherSpecial?
  {
    if name in KEY_MAP then Some(KEY_MAP[name]) else None
  }

  /** The name pynput gives a special key, if the table lists it. */
  function KeyName(k: SpecialKey): Option<string>
  {
    match k
    case CmdR => Some("cmd_r")
    case CmdL => Some("cmd_l")
    case AltR => Some("alt_r")
    case AltL => Some("alt_l")
    case CtrlR => Some("ctrl_r")
    case CtrlL => Some("ctrl_l")
    case ShiftR => Some("shift_r")
    case ShiftL => Some("shift_l")
    case F13 => Some("f13")
    case F14 => Some("f14")
    case F15 => Some("f15")
    case Space => Some("space")
    case OtherSpecial(_) => None
  }

  /** Looking a name up in the table and naming a key are inverse: a name gives a key
      exactly when that key is named by it. Every special key except the unlisted ones
      has a name, so each can be bound. */
  lemma KeyMapRoundTrip(name: string, k: SpecialKey)
    ensures KeyMapGet(name) == Some(k) <==> KeyName(k) == Some(name)
    ensures !k.OtherSpecial? ==> KeyName(k).Some? && KeyMapGet(KeyName(k).value) == Some(k)
  {
  }

  /** The table names twelve distinct keys, so a looked-up key determines its name. */
  lemma KeyMapInjective(a: string, b: string)
    requires a in KEY_MAP && b in KEY_MAP && KEY_MAP[a] == KEY_MAP[b]
    ensures a == b
  {
  }

  /** The result of `parse_combo_key`: the modifier (unset for an unknown name) and the
      character of a combo. */
  datatype Parsed = Parsed(modifier: Option<SpecialKey>, charKey: Option<string>)

  /** `parse_combo_key`: with a "+", the modifier is looked up from the part before it
      and the part after it, lower-cased, is the character if it is one character long;
      without one, the whole string names the modifier. */
  function ParseComboKey(s: string): Parsed
  {
    if '+' in s then
      SplitAtSeparator(s, '+');
      var parts := Split(s, '+');
      Parsed(KeyMapGet(parts[0]), if |parts[1]| == 1 then Some(Lower(parts[1])) else None)
    else Parsed(KeyMapGet(s), None)
  }

  /** "m+c" parses to the table entry of m, and to c lower-cased when c is a single
      character (and to no character otherwise). */
  lemma ParseCombo(m: string, c: string)
    requires '+' !in m && '+' !in c
    ensures ParseComboKey(m + "+" + c) == Parsed(KeyMapGet(m), if |c| == 1 then Some(Lower(c)) else None)
  {
    var s := m + "+" + c;
    assert s == m + ['+'] + c;
    assert s[|m|] == '+';
    SplitAfterPrefix(m, '+', c);
    SplitNoSeparator(c, '+');
    assert Split(s, '+') == [m, c];
  }

  /** A string without "+" is a single key with no character. */
  lemma ParseSingle(s: string)
    requires '+' !in s
    ensures ParseComboKey(s) == Parsed(KeyMapGet(s), None)
  {
  }

  /** Why the constructor raises: pynput is missing (a RuntimeError), or the key's
      modifier is not in the table (a ValueError naming the key). */
  datatype CreateError = PynputMissing | UnknownKey(key: string)

  /** The text of the raised error. */
  function ErrorMessage(e: CreateError): string
  {
    match e
    case PynputMissing => "pynput is required for PTT. Install with: pip install pynput"
    case UnknownKey(key) =>
      "Unknown key: " + key + ". Available: ['cmd_r', 'cmd_l', 'alt_r', 'alt_l', 'ctrl_r', 'ctrl_l', "
        + "'shift_r', 'shift_l', 'f13', 'f14', 'f15', 'space'] or combos like 'cmd_r+m'"
  }

  /** A binding the constructor accepted: a known modifier and an optional character. */
  datatype Binding = Binding(modifier: SpecialKey, charKey: Option<string>)

  /** `_get_key_char`: the lower-cased character of a character key, if it has one. */
  function KeyChar(key: Key): (r: Option<string>)
    ensures r.Some? ==> key.Character? && key.ch.Some? && key.ch.value != "" && r.value == Lower(key.ch.value)
    ensures r.Some? ==> r.value != ""
    ensures key.Character? && key.ch.Some? && key.ch.value != "" ==> r.Some?
  {
    match key
    case Special(_) => None
    case Character(ch) => if ch.Some? && ch.value != "" then Some(Lower(ch.value)) else None
  }

  /** A key's character is matched without regard to case: the upper- and lower-case
      forms of a character give the same character, of the same length, and that
      character is its own normal form. */
  lemma KeyCharIgnoresCase(s: string)
    ensures KeyChar(Character(Some(Lower(s)))) == KeyChar(Character(Some(s)))
    ensures KeyChar(Character(Some(s))).Some? ==> |KeyChar(Character(Some(s))).value| == |s|
    ensures KeyChar(Character(Some(s))).Some? ==>
              KeyChar(Character(Some(KeyChar(Character(Some(s))).value))) == KeyChar(Character(Some(s)))
  {
    LowerIdempotent(s);
  }

  /** The items a binding can ever record as held. */
  function Relevant(b: Binding): set<PressedItem>
  {
    {Mod(b.modifier)} + (if b.charKey.Some? then {Ch(b.charKey.value)} else {})
  }

  /** The held set after a key press: the modifier, or the binding's character, is added. */
  function Track(b: Binding, pressed: set<PressedItem>, key: Key): (r: set<PressedItem>)
    ensures pressed <= r && r - pressed <= Relevant(b)
  {
    if key == Special(b.modifier) then pressed + {Mod(b.modifier)}
    else
      var c := KeyChar(key);
      if c.Some? && Some(c.value) == b.charKey then pressed + {Ch(c.value)} else pressed
  }

  /** The held set after a key release: the modifier, or any character, is removed. */
  function Untrack(b: Binding, pressed: set<PressedItem>, key: Key): (r: set<PressedItem>)
    ensures r <= pressed
  {
    if key == Special(b.modifier) then pressed - {Mod(b.modifier)}
    else
      var c := KeyChar(key);
      if c.Some? then pressed - {Ch(c.value)} else pressed
  }

  /** `_check_combo`. */
  predicate Held(b: Binding, pressed: set<PressedItem>)
  {
    if b.charKey.None? then Mod(b.modifier) in pressed
    else Mod(b.modifier) in pressed && Ch(b.charKey.value) in pressed
  }

  /** The key tracking of a controller: held items and the edge-trigger flag. */
  datatype Keys = Keys(pressed: set<PressedItem>, triggered: bool)

  /** Whether a press fires the binding: it completes the combo, which had not fired yet. */
  predicate Fires(b: Binding, ks: Keys, key: Key)
  {
    Held(b, Track(b, ks.pressed, key)) && !ks.triggered
  }

  function Press(b: Binding, ks: Keys, key: Key): Keys
  {
    var p := Track(b, ks.pressed, key);
    Keys(p, ks.triggered || Held(b, p))
  }

  function Release(b: Binding, ks: Keys, key: Key): Keys
  {
    var p := Untrack(b, ks.pressed, key);
    Keys(p, ks.triggered && Held(b, p))
  }

  /** Held items are the binding's own, and a fired trigger means the combo is held. */
  predicate KeysInv(b: Binding, ks: Keys)
  {
    ks.pressed <= Relevant(b) && (ks.triggered ==> Held(b, ks.pressed))
  }

  lemma PressKeepsInv(b: Binding, ks: Keys, key: Key)
    requires KeysInv(b, ks)
    ensures KeysInv(b, Press(b, ks, key))
  {
  }

  lemma ReleaseKeepsInv(b: Binding, ks: Keys, key: Key)
    requires KeysInv(b, ks)
    ensures KeysInv(b, Release(b, ks, key))
  {
  }

  /** Pressing the modifier makes a single-key binding held; pressing the modifier and the
      character of a combo, in either order, makes the combo held. */
  lemma PressingTheBindingHolds(b: Binding, ks: Keys, c: string)
    requires b.charKey.Some? ==> c != "" && Lower(c) == b.charKey.value
    ensures b.charKey.None? ==> Held(b, Track(b, ks.pressed, Special(b.modifier)))
    ensures b.charKey.Some? ==> Held(b, Track(b, Track(b, ks.pressed, Character(Some(c))), Special(b.modifier)))
    ensures b.charKey.Some? ==> Held(b, Track(b, Track(b, ks.pressed, Special(b.modifier)), Character(Some(c))))
  {
  }

  /** Releasing the modifier, or the character of a combo, breaks the binding and re-arms
      the trigger. */
  lemma ReleaseRearms(b: Binding, ks: Keys, c: string)
    requires b.charKey.Some? ==> c != "" && Lower(c) == b.charKey.value
    ensures !Release(b, ks, Special(b.modifier)).triggered
    ensures b.charKey.Some? ==> !Release(b, ks, Character(Some(c))).triggered
  {
  }

  /** Releasing a key the binding does not use changes nothing. */
  lemma ReleaseOtherKey(b: Binding, ks: Keys, key: Key)
    requires KeysInv(b, ks)
    requires key != Special(b.modifier) && (KeyChar(key).Some? ==> Some(KeyChar(key).value) != b.charKey)
    ensures Release(b, ks, key) == ks
  {
  }

  /** The number of firings in a series of presses with no release in between. */
  function FireCount(b: Binding, ks: Keys, keys: seq<Key>): nat
    decreases |keys|
  {
    if |keys| == 0 then 0
    else (if Fires(b, ks, keys[0]) then 1 else 0) + FireCount(b, Press(b, ks, keys[0]), keys[1..])
  }

  lemma {:induction false} NoFireOnceTriggered(b: Binding, ks: Keys, keys: seq<Key>)
    requires ks.triggered
    ensures FireCount(b, ks, keys) == 0
    decreases |keys|
  {
    if |keys| > 0 {
      NoFireOnceTriggered(b, Press(b, ks, keys[0]), keys[1..]);
    }
  }

  /** While the keys stay down, repeated presses fire at most once. */
  lemma {:induction false} FiresAtMostOnce(b: Binding, ks: Keys, keys: seq<Key>)
    ensures FireCount(b, ks, keys) <= 1
    decreases |keys|
  {
    if |keys| > 0 {
      if Fires(b, ks, keys[0]) {
        NoFireOnceTriggered(b, Press(b, ks, keys[0]), keys[1..]);
      } else {
        FiresAtMostOnce(b, Press(b, ks, keys[0]), keys[1..]);
      }
    }
  }

  /** The state a firing moves to: listening starts recording, recording stops it, and an
      idle controller stays idle. */
  function Toggled(s: PTTState): PTTState
  {
    match s
    case Idle => Idle
    case Listening => Recording
    case Recording => Listening
  }

  /** Firing twice comes back to the same state, and never activates or deactivates the
      controller. */
  lemma ToggleRoundTrip(s: PTTState)
    ensures Toggled(Toggled(s)) == s
    ensures (Toggled(s) == Idle) <==> (s == Idle)
    ensures Toggled(s) != s <==> s != Idle
  {
  }

  /** `PTTConfig`: the key string and which callbacks are set. */
  datatype PTTConfig = PTTConfig(key: string, hasOnStartRecording: bool, hasOnStopRecording: bool, hasOnStateChange: bool)

  const DEFAULT_CONFIG := PTTConfig("cmd_r", false, false, false)

  /** `config or PTTConfig()`. */
  function ConfigOrDefault(config: Option<PTTConfig>): PTTConfig
  {
    if config.Some? then config.value else DEFAULT_CONFIG
  }

  /** What the controller does to the outside world, in order. */
  datatype Event = StateChanged(to: PTTState) | StartRecordingHook | StopRecordingHook | ListenerStarted | ListenerStopped

  /** The keyboard listener slot: none, or a listener object, started or not. */
  datatype ListenerSlot = NoListener | Installed(started: bool)

  /** What creating and starting a keyboard listener does. */
  datatype ListenerAttempt = ListenerStarts | ConstructorRaises(msg: string) | StartRaises(msg: string)

  /** The callbacks of one firing from state `s`: the state change, then the hook. */
  function ToggleEvents(cfg: PTTConfig, s: PTTState): seq<Event>
  {
    match s
    case Idle => []
    case Listening => (if cfg.hasOnStateChange then [StateChanged(Recording)] else [])
                      + (if cfg.hasOnStartRecording then [StartRecordingHook] else [])
    case Recording => (if cfg.hasOnStateChange then [StateChanged(Listening)] else [])
                      + (if cfg.hasOnStopRecording then [StopRecordingHook] else [])
  }

  /** The state-change callback runs only when the state really changes. */
  function SetStateEvents(cfg: PTTConfig, from: PTTState, to: PTTState): seq<Event>
  {
    if from != to && cfg.hasOnStateChange then [StateChanged(to)] else []
  }

  /** A firing's callbacks are exactly the state change to the toggled state and the
      matching hook. */
  lemma ToggleEventsMatch(cfg: PTTConfig, s: PTTState)
    ensures ToggleEvents(cfg, s) == SetStateEvents(cfg, s, Toggled(s))
      + (if s == Listening && cfg.hasOnStartRecording then [StartRecordingHook]
         else if s == Recording && cfg.hasOnStopRecording then [StopRecordingHook] else [])
  {
  }

  class PTTController {
    const config: PTTConfig
    const binding: Binding
    var state: PTTState
    var listener: ListenerSlot
    var pressed: set<PressedItem>
    var comboTriggered: bool
    var events: seq<Event>

    function KeyTracking(): Keys
      reads this
    {
      Keys(pressed, comboTriggered)
    }

    ghost predicate Valid()
      reads this
    {
      KeysInv(binding, KeyTracking())
    }

    constructor (config: PTTConfig, binding: Binding)
      ensures Valid()
      ensures this.config == config && this.binding == binding
      ensures state == Idle && listener == NoListener && pressed == {} && !comboTriggered && events == []
    {
      this.config := config;
      this.binding := binding;
      state := Idle;
      listener := NoListener;
      pressed := {};
      comboTriggered := false;
      events := [];
    }

    /** `PTTController(config)`: needs pynput, defaults the configuration, and rejects a
        key whose modifier is not in the key table. */
    static method Create(config: Option<PTTConfig>, pynputAvailable: bool) returns (r: Result<PTTController, CreateError>)
      ensures !pynputAvailable ==> r == Failure(PynputMissing)
      ensures pynputAvailable ==>
        var cfg := ConfigOrDefault(config);
        var parsed := ParseComboKey(cfg.key);
        && (parsed.modifier.None? ==> r == Failure(UnknownKey(cfg.key)))
        && (parsed.modifier.Some? ==>
              && r.Success? && fresh(r.value) && r.value.Valid()
              && r.value.config == cfg && r.value.binding == Binding(parsed.modifier.value, parsed.charKey)
              && r.value.state == Idle && r.value.listener == NoListener && r.value.events == [])
    {
      if !pynputAvailable {
        return Failure(PynputMissing);
      }
      var cfg := ConfigOrDefault(config);
      var parsed := ParseComboKey(cfg.key);
      if parsed.modifier.None? {
        return Failure(UnknownKey(cfg.key));
      }
      var c := new PTTController(cfg, Binding(parsed.modifier.value, parsed.charKey));
      r := Success(c);
    }

    /** `is_recording`. */
    predicate IsRecording()
      reads this
    {
      state == Recording
    }

    /** `is_active`: listening or recording. */
    predicate IsActive()
      reads this
    {
      state != Idle
    }

    /** `_set_state`. */
    method SetState(newState: PTTState)
      modifies this`state, this`events
      ensures state == newState
      ensures events == old(events) + SetStateEvents(config, old(state), newState)
    {
      var oldState := state;
      state := newState;
      if oldState != newState && config.hasOnStateChange {
        events := events + [StateChanged(newState)];
      }
    }

    /** The key tracking part of `_on_key_press`: the modifier, or the binding's own
        character, joins the held set. */
    method RecordPress(key: Key)
      modifies this`pressed
      ensures pressed == Track(binding, old(pressed), key)
    {
      if key == Special(binding.modifier) {
        pressed := pressed + {Mod(binding.modifier)};
      } else {
        var c := KeyChar(key);
        if c.Some? && Some(c.value) == binding.charKey {
          pressed := pressed + {Ch(c.value)};
        }
      }
    }

    /** The firing part of `_on_key_press`: listening starts recording, recording stops
        it, each followed by its hook. */
    method Toggle()
      modifies this`state, this`events
      ensures state == Toggled(old(state))
      ensures events == old(events) + ToggleEvents(config, old(state))
    {
      if state == Listening {
        SetState(Recording);
        if config.hasOnStartRecording {
          events := events + [StartRecordingHook];
        }
      } else if state == Recording {
        SetState(Listening);
        if config.hasOnStopRecording {
          events := events + [StopRecordingHook];
        }
      }
    }

    /** `_on_key_press`: records the key if it belongs to the binding; when that makes
        the binding held and it has not fired yet, it fires and toggles the state. */
    method OnKeyPress(key: Key)
      requires Valid()
      modifies this`pressed, this`comboTriggered, this`state, this`events
      ensures Valid()
      ensures KeyTracking() == Press(binding, old(KeyTracking()), key)
      ensures Fires(binding, old(KeyTracking()), key) ==>
        state == Toggled(old(state)) && events == old(events) + ToggleEvents(config, old(state))
      ensures !Fires(binding, old(KeyTracking()), key) ==> state == old(state) && events == old(events)
    {
      PressKeepsInv(binding, KeyTracking(), key);
      RecordPress(key);
      if !Held(binding, pressed) {
        return;
      }
      if comboTriggered {
        return;
      }
      comboTriggered := true;
      Toggle();
    }

    /** `_on_key_release`: forgets the key, and re-arms the trigger once the binding is no
        longer held. */
    method OnKeyRelease(key: Key)
      requires Valid()
      modifies this`pressed, this`comboTriggered
      ensures Valid()
      ensures KeyTracking() == Release(binding, old(KeyTracking()), key)
    {
      ReleaseKeepsInv(binding, KeyTracking(), key);
      if key == Special(binding.modifier) {
        pressed := pressed - {Mod(binding.modifier)};
      } else {
        var c := KeyChar(key);
        if c.Some? {
          pressed := pressed - {Ch(c.value)};
        }
      }
      if !Held(binding, pressed) {
        comboTriggered := false;
      }
    }

    /** `start()`: with a listener already installed nothing happens. Otherwise the state
        becomes listening and a keyboard listener is created and started; an error is
        raised, with the state already listening and the listener installed only if it
        was created. */
    method Start(attempt: ListenerAttempt) returns (r: Outcome<string>)
      modifies this`state, this`events, this`listener
      ensures old(listener) != NoListener ==>
        r == Pass && state == old(state) && events == old(events) && listener == old(listener)
      ensures old(listener) == NoListener ==>
        && state == Listening
        && match attempt
          case ListenerStarts =>
            r == Pass && listener == Installed(true)
            && events == old(events) + SetStateEvents(config, old(state), Listening) + [ListenerStarted]
          case ConstructorRaises(msg) =>
            r == Fail(msg) && listener == NoListener
            && events == old(events) + SetStateEvents(config, old(state), Listening)
          case StartRaises(msg) =>
            r == Fail(msg) && listener == Installed(false)
            && events == old(events) + SetStateEvents(config, old(state), Listening)
    {
      if listener != NoListener {
        return Pass;
      }
      SetState(Listening);
      match attempt {
        case ListenerStarts =>
          listener := Installed(true);
          events := events + [ListenerStarted];
          r := Pass;
        case ConstructorRaises(msg) =>
          r := Fail(msg);
        case StartRaises(msg) =>
          listener := Installed(false);
          r := Fail(msg);
      }
    }

    /** `stop()`: without a listener nothing happens. Otherwise a recording in progress
        gets its stop hook, the listener is stopped and removed, and the state becomes
        idle. */
    method Stop()
      modifies this`state, this`events, this`listener
      ensures old(listener) == NoListener ==> state == old(state) && events == old(events) && listener == NoListener
      ensures old(listener) != NoListener ==>
        && state == Idle && listener == NoListener
        && events == old(events)
             + (if old(state) == Recording && config.hasOnStopRecording then [StopRecordingHook] else [])
             + [ListenerStopped]
             + SetStateEvents(config, old(state), Idle)
    {
      if listener == NoListener {
        return;
      }
      if state == Recording && config.hasOnStopRecording {
        events := events + [StopRecordingHook];
      }
      events := events + [ListenerStopped];
      listener := NoListener;
      SetState(Idle);
    }

    /** `force_stop_recording`: a recording stops (back to listening, with the stop
        hook); in any other state nothing happens. */
    method ForceStopRecording()
      modifies this`state, this`events
      ensures old(state) == Recording ==>
        state == Listening && events == old(events) + ToggleEvents(config, Recording)
      ensures old(state) != Recording ==> state == old(state) && events == old(events)
    {
      if state == Recording {
        SetState(Listening);
        if config.hasOnStopRecording {
          events := events + [StopRecordingHook];
        }
      }
    }
  }

  /** The module-level controller of `create_ptt_controller`/`destroy_ptt_controller`. */
  class PttRegistry {
    var controller: PTTController?

    constructor ()
      ensures controller == null
    {
      controller := null;
    }

    /** `get_ptt_controller`. */
    function Get(): PTTController?
      reads this
    {
      controller
    }

    /** `create_ptt_controller`: a controller that fails to construct leaves the
        registry as it was; otherwise the new one replaces it. */
    method Create(config: Option<PTTConfig>, pynputAvailable: bool) returns (r: Result<PTTController, CreateError>)
      modifies this
      ensures r.Failure? ==> controller == old(controller)
      ensures r.Success? ==> controller == r.value && fresh(r.value) && r.value.Valid() && r.value.state == Idle
      ensures r.Success? <==> pynputAvailable && ParseComboKey(ConfigOrDefault(config).key).modifier.Some?
      ensures !pynputAvailable ==> r == Failure(PynputMissing)
      ensures pynputAvailable && ParseComboKey(ConfigOrDefault(config).key).modifier.None? ==>
        r == Failure(UnknownKey(ConfigOrDefault(config).key))
      ensures r.Success? ==>
        var parsed := ParseComboKey(ConfigOrDefault(config).key);
        && r.value.config == ConfigOrDefault(config)
        && r.value.binding == Binding(parsed.modifier.value, parsed.charKey)
        && r.value.listener == NoListener && r.value.events == []
    {
      r := PTTController.Create(config, pynputAvailable);
      if r.Success? {
        controller := r.value;
      }
    }

    /** `destroy_ptt_controller`: stops the controller, if any, and forgets it. */
    method Destroy()
      modifies this, controller
      ensures controller == null
      ensures old(controller) != null ==> old(controller).listener == NoListener
      ensures old(controller) != null && old(controller.listener) == NoListener ==>
        var c := old(controller);
        c.state == old(c.state) && c.events == old(c.events)
      ensures old(controller) != null && old(controller.listener) != NoListener ==>
        var c := old(controller);
        && c.state == Idle
        && c.events == old(c.events)
             + (if old(c.state) == Recording && c.config.hasOnStopRecording then [StopRecordingHook] else [])
             + [ListenerStopped]
             + SetStateEvents(c.config, old(c.state), Idle)
    {
      if controller != null {
        controller.Stop();
        controller := null;
      }
    }
  }
}
