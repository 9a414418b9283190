/** Edge detection for the dictation shortcut (`HotkeyManager` in
    Sources/Hotkeys/HotkeyManager.swift). A single `isKeyDown` flag turns the shortcut's
    key-down and key-up callbacks, and the global key-up and modifier-change events, into
    exactly one `startRecording` and one `stopRecordingAndTranscribe` call per hold. */
module Hotkeys {
  import opened HotkeyConfigs

  /** The calls the manager makes on the app state. */
  datatype Call = StartRecording | StopRecordingAndTranscribe

  /** What reaches the manager: the shortcut's own callbacks, the global monitor's events
      (a modifier change carries the flags now held, a key-up its key code), and the
      notification that the configured shortcut changed (carrying the new one). */
  datatype Event =
    | HotKeyDown
    | HotKeyUp
    | FlagsChanged(flags: ModifierFlags)
    | GlobalKeyUp(keyCode: int)
    | ConfigChanged(config: HotkeyConfig)

  datatype State = State(isKeyDown: bool, config: HotkeyConfig)

  /** Whether a modifier change ends a hold: the held flags, restricted to the four
      shortcut flags, no longer contain the configured ones. */
  predicate ModifiersReleased(config: HotkeyConfig, flags: ModifierFlags) {
    !Contains(flags & ShortcutMask, config.modifiers)
  }

  /** The manager's reaction to one event: its next state and the calls it makes. */
  function Step(s: State, e: Event): (r: (State, seq<Call>))
    ensures r.0.config == if e.ConfigChanged? then e.config else s.config
    ensures e.HotKeyDown? ==> r.0.isKeyDown
    ensures e.HotKeyUp? ==> !r.0.isKeyDown
    ensures StartRecording in r.1 ==> e.HotKeyDown? && !s.isKeyDown
  {
    match e
    case HotKeyDown =>
      if s.isKeyDown then (s, []) else (s.(isKeyDown := true), [StartRecording])
    case HotKeyUp =>
      if s.isKeyDown then (s.(isKeyDown := false), [StopRecordingAndTranscribe]) else (s, [])
    case FlagsChanged(flags) =>
      if ModifiersReleased(s.config, flags) && s.isKeyDown
      then (s.(isKeyDown := false), [StopRecordingAndTranscribe]) else (s, [])
    case GlobalKeyUp(keyCode) =>
      if keyCode == s.config.keyCode && s.isKeyDown
      then (s.(isKeyDown := false), [StopRecordingAndTranscribe]) else (s, [])
    case ConfigChanged(config) =>
      (s.(config := config), [])
  }

  /** The manager's reaction to a sequence of events. */
  function Run(s: State, events: seq<Event>): (r: (State, seq<Call>))
    ensures |r.1| <= |events|
    ensures (forall i :: 0 <= i < |events| ==> !events[i].HotKeyDown?) ==>
      StartRecording !in r.1 && (r.0.isKeyDown ==> s.isKeyDown)
    decreases |events|
  {
    if |events| == 0 then (s, [])
    else
      var first := Step(s, events[0]);
      var rest := Run(first.0, events[1..]);
      (rest.0, first.1 + rest.1)
  }

  /** The call expected at position `i` of the calls made from a state whose flag is
      `held`: starts and stops alternate, beginning with a stop if a hold is under way. */
  function Expected(held: bool, i: nat): Call {
    if (i % 2 == 0) != held then StartRecording else StopRecordingAndTranscribe
  }

  predicate Alternates(calls: seq<Call>, held: bool) {
    forall i :: 0 <= i < |calls| ==> calls[i] == Expected(held, i)
  }

  /** One event makes at most one call, the one that flips the flag. */
  lemma StepFlipsOnCall(s: State, e: Event)
    ensures var (s', c) := Step(s, e);
      && |c| <= 1
      && (|c| == 1 <==> s'.isKeyDown != s.isKeyDown)
      && (|c| == 1 ==> c[0] == Expected(s.isKeyDown, 0))
  {
  }

  /** After one call the flag has flipped, and the expectation moves on by one place. */
  lemma ExpectedAfterFlip(held: bool, i: nat)
    requires i >= 1
    ensures Expected(!held, i - 1) == Expected(held, i)
    ensures ((i - 1) % 2 == 1) == (i % 2 == 0)
  {
  }

  /** Over any event sequence the calls alternate strictly, a start first when no hold
      was under way, and the flag at the end says whether a hold is still open. */
  lemma {:induction false} RunAlternates(s: State, events: seq<Event>)
    ensures var (s', calls) := Run(s, events);
      && Alternates(calls, s.isKeyDown)
      && s'.isKeyDown == (s.isKeyDown != (|calls| % 2 == 1))
    decreases |events|
  {
    if |events| > 0 {
      var (s1, c1) := Step(s, events[0]);
      var (s2, c2) := Run(s1, events[1..]);
      StepFlipsOnCall(s, events[0]);
      RunAlternates(s1, events[1..]);
      var calls := c1 + c2;
      if |c1| == 0 {
        assert calls == c2;
      } else {
        forall i | 0 <= i < |calls| ensures calls[i] == Expected(s.isKeyDown, i) {
          if i >= 1 {
            assert calls[i] == c2[i - 1];
            ExpectedAfterFlip(s.isKeyDown, i);
          }
        }
        ExpectedAfterFlip(s.isKeyDown, |calls|);
      }
    }
  }

  /** A press then a release of the configured shortcut, from rest, makes exactly one
      start and then one stop, and leaves the manager at rest. */
  lemma PressThenRelease(config: HotkeyConfig)
    ensures Run(State(false, config), [HotKeyDown, HotKeyUp]) == (State(false, config), [StartRecording, StopRecordingAndTranscribe])
  {
    var s0 := State(false, config);
    var s1 := s0.(isKeyDown := true);
    assert [HotKeyDown, HotKeyUp][1..] == [HotKeyUp];
    assert [HotKeyUp][1..] == [];
    assert Run(s0, []) == (s0, []);
    assert Step(s1, HotKeyUp) == (s0, [StopRecordingAndTranscribe]);
    assert Run(s1, [HotKeyUp]) == (s0, [StopRecordingAndTranscribe] + []);
    assert [StopRecordingAndTranscribe] + [] == [StopRecordingAndTranscribe];
    assert [StartRecording] + [StopRecordingAndTranscribe] == [StartRecording, StopRecordingAndTranscribe];
  }

  /** Key-down auto-repeat while held makes no call. */
  lemma RepeatedKeyDownIgnored(s: State, n: nat)
    requires s.isKeyDown
    ensures Run(s, seq(n, _ => HotKeyDown)) == (s, [])
    decreases n
  {
    var events := seq(n, _ => HotKeyDown);
    if n > 0 {
      assert events[0] == HotKeyDown;
      assert events[1..] == seq(n - 1, _ => HotKeyDown);
      RepeatedKeyDownIgnored(s, n - 1);
      var none: seq<Call> := [];
      assert Run(s, events) == (s, none + none);
      assert none + none == none;
    }
  }

  class HotkeyManager {
    var isKeyDown: bool
    var currentConfig: HotkeyConfig
    /** The calls made on the app state so far. */
    ghost var sent: seq<Call>

    function Snapshot(): State
      reads this
    {
      State(isKeyDown, currentConfig)
    }

    /** `init()`: at rest, watching the app state's current shortcut. */
    constructor (config: HotkeyConfig)
      ensures !isKeyDown && currentConfig == config && sent == []
    {
      isKeyDown := false;
      currentConfig := config;
      sent := [];
    }

    /** `handleKeyDown()`: only the first key-down of a hold starts a recording. */
    method HandleKeyDown()
      modifies this`isKeyDown, this`sent
      ensures isKeyDown
      ensures sent == old(sent) + (if old(isKeyDown) then [] else [StartRecording])
    {
      if isKeyDown {
        return;
      }
      isKeyDown := true;
      sent := sent + [StartRecording];
    }

    /** `handleKeyUp()`: ends an open hold, exactly once. */
    method HandleKeyUp()
      modifies this`isKeyDown, this`sent
      ensures !isKeyDown
      ensures sent == old(sent) + (if old(isKeyDown) then [StopRecordingAndTranscribe] else [])
    {
      if !isKeyDown {
        return;
      }
      isKeyDown := false;
      sent := sent + [StopRecordingAndTranscribe];
    }

    /** `handleGlobalEvent(_:)` for a modifier change: the hold ends when the held
        shortcut flags stop containing the configured ones. */
    method HandleFlagsChanged(flags: ModifierFlags)
      modifies this`isKeyDown, this`sent
      ensures isKeyDown == (old(isKeyDown) && !ModifiersReleased(currentConfig, flags))
      ensures sent == old(sent) + (if old(isKeyDown) && ModifiersReleased(currentConfig, flags) then [StopRecordingAndTranscribe] else [])
    {
      var requiredModifiers := currentConfig.modifiers;
      var currentModifiers := flags & ShortcutMask;
      if !Contains(currentModifiers, requiredModifiers) && isKeyDown {
        HandleKeyUp();
      }
    }

    /** `handleGlobalEvent(_:)` for a key-up: only the configured key ends the hold. */
    method HandleGlobalKeyUp(keyCode: int)
      modifies this`isKeyDown, this`sent
      ensures isKeyDown == (old(isKeyDown) && keyCode != currentConfig.keyCode)
      ensures sent == old(sent) + (if old(isKeyDown) && keyCode == currentConfig.keyCode then [StopRecordingAndTranscribe] else [])
    {
      if keyCode == currentConfig.keyCode {
        if isKeyDown {
          HandleKeyUp();
        }
      }
    }

    /** `handleConfigChange()`: adopts a different shortcut; an open hold stays open. */
    method HandleConfigChange(newConfig: HotkeyConfig)
      modifies this`currentConfig
      ensures currentConfig == newConfig
    {
      if newConfig == currentConfig {
        return;
      }
      currentConfig := newConfig;
    }

    method Handle(e: Event)
      modifies this`isKeyDown, this`currentConfig, this`sent
      ensures Snapshot() == Step(old(Snapshot()), e).0
      ensures sent == old(sent) + Step(old(Snapshot()), e).1
    {
      match e {
        case HotKeyDown => HandleKeyDown();
        case HotKeyUp => HandleKeyUp();
        case FlagsChanged(flags) => HandleFlagsChanged(flags);
        case GlobalKeyUp(keyCode) => HandleGlobalKeyUp(keyCode);
        case ConfigChanged(config) => HandleConfigChange(config);
      }
    }

    /** Delivering events one after another, as the main actor does. */
    method HandleAll(events: seq<Event>)
      modifies this`isKeyDown, this`currentConfig, this`sent
      ensures Snapshot() == Run(old(Snapshot()), events).0
      ensures sent == old(sent) + Run(old(Snapshot()), events).1
      ensures Alternates(sent[|old(sent)|..], old(isKeyDown))
    {
      var i := 0;
      ghost var made: seq<Call> := [];
      assert events[i..] == events;
      assert sent == old(sent) + made;
      assert made + Run(Snapshot(), events).1 == Run(Snapshot(), events).1;
      while i < |events|
        invariant 0 <= i <= |events|
        invariant sent == old(sent) + made
        invariant Run(old(Snapshot()), events) == (Run(Snapshot(), events[i..]).0, made + Run(Snapshot(), events[i..]).1)
      {
        ghost var before := Snapshot();
        Handle(events[i]);
        assert events[i..][1..] == events[i + 1..];
        ghost var step := Step(before, events[i]);
        ghost var rest := Run(Snapshot(), events[i + 1..]);
        assert Run(before, events[i..]) == (rest.0, step.1 + rest.1);
        assert made + (step.1 + rest.1) == (made + step.1) + rest.1;
        made := made + step.1;
        i := i + 1;
      }
      assert events[i..] == [];
      assert sent[|old(sent)|..] == made;
      RunAlternates(old(Snapshot()), events);
    }
  }
}
