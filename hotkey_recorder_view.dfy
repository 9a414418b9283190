/** Capturing a new dictation shortcut (Sources/UI/HotkeyRecorderView.swift): while
    capturing, a local key-down monitor decides for each key whether it cancels, is
    ignored, or becomes the new shortcut. */
module HotkeyCapture {
  import opened Wrappers
  import opened HotkeyConfigs
  import Hotkeys

  /** A `UInt16` key code, as `NSEvent.keyCode` carries it. */
  type EventKeyCode = n: int | 0 <= n < 0x1_0000

  /** The eight key codes of the modifier keys themselves. */
  const ModifierKeyCodes: set<int> :=
    {KeyShift, KeyRightShift, KeyControl, KeyRightControl, KeyOption, KeyRightOption, KeyCommand, KeyRightCommand}

  /** What the monitor does with one key-down. */
  datatype Capture = Cancel | Ignore | Accept(config: HotkeyConfig)

  /** The monitor's decision: Escape cancels whatever the modifiers; a key without any of
      ⌃⌥⇧⌘, or a modifier key itself, is ignored; any other key becomes the shortcut with
      the held modifiers among those four. */
  function Decide(keyCode: EventKeyCode, flags: ModifierFlags): (c: Capture)
    ensures c.Cancel? <==> keyCode == KeyEscape
    ensures c.Ignore? <==> keyCode != KeyEscape && (flags & ShortcutMask == 0 || keyCode in ModifierKeyCodes)
    ensures c.Accept? ==> c.config == HotkeyConfig(keyCode, flags & ShortcutMask)
  {
    var modifiers := flags & ShortcutMask;
    if keyCode == KeyEscape then Cancel
    else if modifiers == 0 then Ignore
    else if keyCode in ModifierKeyCodes then Ignore
    else Accept(HotkeyConfig(keyCode, modifiers))
  }

  /** Every accepted shortcut needs at least one of ⌃⌥⇧⌘, uses no other flag, and its key
      is neither Escape nor a modifier key. */
  lemma AcceptedConfigIsUsable(keyCode: EventKeyCode, flags: ModifierFlags)
    requires Decide(keyCode, flags).Accept?
    ensures var config := Decide(keyCode, flags).config;
      && config.modifiers != 0
      && config.modifiers & ShortcutMask == config.modifiers
      && config.keyCode != KeyEscape && config.keyCode !in ModifierKeyCodes
  {
  }

  /** The modifiers held while capturing a shortcut are exactly the ones that keep its
      hold going: the same flags never count as releasing it. */
  lemma CapturedModifiersHoldTheShortcut(keyCode: EventKeyCode, flags: ModifierFlags)
    requires Decide(keyCode, flags).Accept?
    ensures !Hotkeys.ModifiersReleased(Decide(keyCode, flags).config, flags)
  {
  }

  /** The view's state: the bound shortcut, whether it is capturing, the monitor it
      holds, and (as the event system sees it) every monitor still installed. */
  datatype Session = Session(config: HotkeyConfig, isRecording: bool, eventMonitor: Option<nat>, installed: set<nat>)

  /** A monitor is installed exactly while capturing, and it is the one the view holds. */
  predicate MonitorInvariant(s: Session) {
    && (s.isRecording <==> s.eventMonitor.Some?)
    && s.installed == (if s.eventMonitor.Some? then {s.eventMonitor.value} else {})
  }

  /** `startRecording()` as written: a fresh monitor `id` is installed and held, replacing
      any monitor held before without removing it. */
  function StartAsWritten(s: Session, id: nat): (r: Session)
    ensures r.isRecording && r.eventMonitor == Some(id) && r.config == s.config
    ensures s.installed <= r.installed && r.installed - s.installed <= {id}
  {
    s.(isRecording := true, eventMonitor := Some(id), installed := s.installed + {id})
  }

  /** `stopRecording()`: capturing ends and the held monitor, if any, is removed. */
  function Stop(s: Session): (r: Session)
    ensures !r.isRecording && r.eventMonitor.None? && r.config == s.config
  {
    match s.eventMonitor
    case Some(m) => s.(isRecording := false, eventMonitor := None, installed := s.installed - {m})
    case None => s.(isRecording := false)
  }

  /** A second click on the shortcut button while capturing installs a second monitor;
      after the capture ends the first one is still installed, and it goes on swallowing
      every key-down of the app's windows and rebinding the shortcut. */
  lemma DoubleStartLeaksMonitor(config: HotkeyConfig)
    ensures var s := Stop(StartAsWritten(StartAsWritten(Session(config, false, None, {}), 0), 1));
      && !s.isRecording && s.installed == {0} && !MonitorInvariant(s)
  {
    var s1 := StartAsWritten(Session(config, false, None, {}), 0);
    var s2 := StartAsWritten(s1, 1);
    assert s2.installed == {0, 1};
    assert s2.installed - {1} == {0};
  }

  /** `startRecording()` as intended: a monitor already held is removed before the fresh
      one is installed. */
  function Start(s: Session, id: nat): (r: Session)
    ensures r.isRecording && r.eventMonitor == Some(id) && r.config == s.config
  {
    StartAsWritten(Stop(s), id)
  }

  /** The written start differs from the intended one only on a click made while a
      monitor is held: from any session that holds none, the two agree. */
  lemma StartAsWrittenWhenNoneHeld(s: Session, id: nat)
    requires s.eventMonitor.None?
    ensures StartAsWritten(s, id) == Start(s, id)
    ensures MonitorInvariant(s) ==> MonitorInvariant(StartAsWritten(s, id))
  {
    assert Stop(s) == s.(isRecording := false);
  }

  /** Starting and stopping keep exactly one monitor installed while capturing and none
      otherwise, however often the button is clicked. */
  lemma StartStopKeepInvariant(s: Session, id: nat)
    requires MonitorInvariant(s)
    ensures MonitorInvariant(Start(s, id)) && Start(s, id).installed == {id}
    ensures MonitorInvariant(Stop(s)) && Stop(s).installed == {}
  {
    if s.eventMonitor.Some? {
      assert s.installed - {s.eventMonitor.value} == {};
    }
  }

  /** The monitor's handling of one key-down: a cancel or an accepted shortcut ends the
      capture; an ignored key changes nothing. */
  function KeyDown(s: Session, keyCode: EventKeyCode, flags: ModifierFlags): (r: Session)
    ensures Decide(keyCode, flags).Ignore? ==> r == s
    ensures !Decide(keyCode, flags).Ignore? ==> !r.isRecording && r.eventMonitor.None?
    ensures r.config == if Decide(keyCode, flags).Accept? then Decide(keyCode, flags).config else s.config
  {
    match Decide(keyCode, flags)
    case Cancel => Stop(s)
    case Ignore => s
    case Accept(config) => Stop(s.(config := config))
  }

  /** Escape keeps the shortcut; an accepted key becomes it; either way capturing ends,
      and an ignored key keeps capturing. */
  lemma KeyDownOutcome(s: Session, keyCode: EventKeyCode, flags: ModifierFlags)
    requires MonitorInvariant(s)
    ensures var r := KeyDown(s, keyCode, flags);
      && MonitorInvariant(r)
      && (keyCode == KeyEscape ==> r.config == s.config && !r.isRecording)
      && (Decide(keyCode, flags).Ignore? ==> r == s)
      && (Decide(keyCode, flags).Accept? ==> r.config == HotkeyConfig(keyCode, flags & ShortcutMask) && !r.isRecording)
  {
    StartStopKeepInvariant(s, 0);
    StartStopKeepInvariant(s.(config := HotkeyConfig(keyCode, flags & ShortcutMask)), 0);
  }

  /** The reset button is shown exactly when the shortcut is not ⌥Space. */
  function ShowsReset(config: HotkeyConfig): bool {
    config != Default
  }

  class HotkeyRecorderView {
    var config: HotkeyConfig
    var isRecording: bool
    var eventMonitor: Option<nat>
    /** The monitors installed with the event system. */
    ghost var installed: set<nat>

    ghost function Current(): Session
      reads this
    {
      Session(config, isRecording, eventMonitor, installed)
    }

    constructor (config: HotkeyConfig)
      ensures Current() == Session(config, false, None, {}) && MonitorInvariant(Current())
    {
      this.config := config;
      isRecording := false;
      eventMonitor := None;
      installed := {};
    }

    /** `stopRecording()`. */
    method StopRecording()
      modifies this`isRecording, this`eventMonitor, this`installed
      ensures Current() == Stop(old(Current()))
    {
      isRecording := false;
      if eventMonitor.Some? {
        installed := installed - {eventMonitor.value};
        eventMonitor := None;
      }
    }

    /** `startRecording()`: installs monitor `id` and holds it, without removing a monitor
        still held from an earlier click. */
    method StartRecording(id: nat)
      modifies this`isRecording, this`eventMonitor, this`installed
      ensures Current() == StartAsWritten(old(Current()), id)
    {
      isRecording := true;
      eventMonitor := Some(id);
      installed := installed + {id};
    }

    /** The monitor closure, run for a key-down while capturing; the event is swallowed. */
    method HandleKeyDown(keyCode: EventKeyCode, flags: ModifierFlags)
      modifies this`config, this`isRecording, this`eventMonitor, this`installed
      ensures Current() == KeyDown(old(Current()), keyCode, flags)
    {
      var modifiers := flags & ShortcutMask;
      if keyCode == KeyEscape {
        StopRecording();
        return;
      }
      if modifiers == 0 {
        return;
      }
      if keyCode in ModifierKeyCodes {
        return;
      }
      config := HotkeyConfig(keyCode, modifiers);
      StopRecording();
    }

    /** The reset button's action. */
    method ResetToDefault()
      modifies this`config
      ensures config == Default && !ShowsReset(config)
    {
      config := Default;
    }
  }
}
