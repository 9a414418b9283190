/** The dictation shortcut (`HotkeyConfig` in Sources/AppState.swift): a key code and a
    modifier set, its menu rendering (`displayString`, `keyName`) and its persistence in
    the user defaults (`save`, `load`). */
module HotkeyConfigs {
  import opened Wrappers
  import Text

  /** `NSEvent.ModifierFlags`, by its 64-bit raw value. */
  type ModifierFlags = bv64

  const ShiftFlag: ModifierFlags := 1 << 17
  const ControlFlag: ModifierFlags := 1 << 18
  const OptionFlag: ModifierFlags := 1 << 19
  const CommandFlag: ModifierFlags := 1 << 20

  /** The four flags a shortcut may use: [.control, .option, .shift, .command]. */
  const ShortcutMask: ModifierFlags := ControlFlag | OptionFlag | ShiftFlag | CommandFlag

  /** `OptionSet.contains`: every flag of `member` is set in `flags`. */
  predicate Contains(flags: ModifierFlags, member: ModifierFlags) {
    flags & member == member
  }

  /** Virtual key codes of the Carbon HIToolbox (`kVK_*`). */
  const KeyReturn := 36
  const KeyTab := 48
  const KeySpace := 49
  const KeyDelete := 51
  const KeyEscape := 53
  const KeyRightCommand := 54
  const KeyCommand := 55
  const KeyShift := 56
  const KeyOption := 58
  const KeyControl := 59
  const KeyRightShift := 60
  const KeyRightOption := 61
  const KeyRightControl := 62
  const KeyF5 := 96
  const KeyF6 := 97
  const KeyF7 := 98
  const KeyF3 := 99
  const KeyF8 := 100
  const KeyF9 := 101
  const KeyF11 := 103
  const KeyF10 := 109
  const KeyF12 := 111
  const KeyF4 := 118
  const KeyF2 := 120
  const KeyF1 := 122

  /** A `UInt32` key code. */
  type KeyCode = n: int | 0 <= n < 0x1_0000_0000

  datatype HotkeyConfig = HotkeyConfig(keyCode: KeyCode, modifiers: ModifierFlags)

  /** ⌥Space. */
  const Default: HotkeyConfig := HotkeyConfig(KeySpace, OptionFlag)

  /** The keys `keyName` names itself, without asking the keyboard layout. */
  const FixedKeyNames: map<int, string> := map[
    KeySpace := "Space", KeyReturn := "↩", KeyTab := "⇥", KeyDelete := "⌫", KeyEscape := "⎋",
    KeyF1 := "F1", KeyF2 := "F2", KeyF3 := "F3", KeyF4 := "F4", KeyF5 := "F5", KeyF6 := "F6",
    KeyF7 := "F7", KeyF8 := "F8", KeyF9 := "F9", KeyF10 := "F10", KeyF11 := "F11", KeyF12 := "F12"]

  /** The current keyboard layout's upper-cased translation of a key code, `None` when
      the layout gives no characters for it. */
  type Layout = KeyCode -> Option<string>

  /** `keyName`: a fixed name for the seventeen named keys, otherwise the layout's
      characters, otherwise "Key <code>". */
  function KeyName(keyCode: KeyCode, layout: Layout): (r: string)
    ensures keyCode in FixedKeyNames ==> r == FixedKeyNames[keyCode]
    ensures keyCode !in FixedKeyNames && layout(keyCode).Some? ==> r == layout(keyCode).value
    ensures keyCode !in FixedKeyNames && layout(keyCode).None? ==> r == "Key " + Text.NatToString(keyCode)
    ensures layout(keyCode) != Some([]) ==> |r| > 0
  {
    if keyCode in FixedKeyNames then FixedKeyNames[keyCode]
    else match layout(keyCode)
      case Some(chars) => chars
      case None => "Key " + Text.NatToString(keyCode)
  }

  const ControlGlyph := '⌃'
  const OptionGlyph := '⌥'
  const ShiftGlyph := '⇧'
  const CommandGlyph := '⌘'

  function GlyphIf(flags: ModifierFlags, flag: ModifierFlags, glyph: char): string {
    if Contains(flags, flag) then [glyph] else []
  }

  /** The modifier part of `displayString`: ⌃, ⌥, ⇧, ⌘ in that order, each when set. */
  function ModifierGlyphs(flags: ModifierFlags): string {
    GlyphIf(flags, ControlFlag, ControlGlyph) + GlyphIf(flags, OptionFlag, OptionGlyph) +
    GlyphIf(flags, ShiftFlag, ShiftGlyph) + GlyphIf(flags, CommandFlag, CommandGlyph)
  }

  /** `displayString`: the modifier glyphs followed by the key name. */
  function DisplayString(config: HotkeyConfig, layout: Layout): (r: string)
    ensures var name := KeyName(config.keyCode, layout);
      |name| <= |r| <= |name| + 4 && r[|r| - |name|..] == name
  {
    ModifierGlyphs(config.modifiers) + KeyName(config.keyCode, layout)
  }

  predicate IsGlyph(c: char) {
    c == ControlGlyph || c == OptionGlyph || c == ShiftGlyph || c == CommandGlyph
  }

  /** Reads one optional glyph at the front of `s`. */
  function ReadGlyph(s: string, glyph: char, flag: ModifierFlags): (ModifierFlags, string) {
    if |s| > 0 && s[0] == glyph then (flag, s[1..]) else (0, s)
  }

  /** Reads the glyphs ⌃, ⌥, ⇧, ⌘ at the front of a rendered shortcut, each at most once
      and in that order; gives the flags read and the rest of the string. */
  function ReadModifierGlyphs(s: string): (ModifierFlags, string) {
    var control := ReadGlyph(s, ControlGlyph, ControlFlag);
    var option := ReadGlyph(control.1, OptionGlyph, OptionFlag);
    var shift := ReadGlyph(option.1, ShiftGlyph, ShiftFlag);
    var command := ReadGlyph(shift.1, CommandGlyph, CommandFlag);
    (control.0 | option.0 | shift.0 | command.0, command.1)
  }

  /** An optional glyph in front of `rest` is read back as its flag, leaving `rest`. */
  lemma ReadGlyphAfter(flags: ModifierFlags, flag: ModifierFlags, glyph: char, rest: string)
    requires rest == [] || rest[0] != glyph
    ensures ReadGlyph(GlyphIf(flags, flag, glyph) + rest, glyph, flag)
         == (if Contains(flags, flag) then flag else 0, rest)
    ensures var s := GlyphIf(flags, flag, glyph) + rest; s == [] || s[0] == glyph || s[0] == rest[0]
  {
    if Contains(flags, flag) {
      assert (GlyphIf(flags, flag, glyph) + rest)[1..] == rest;
    } else {
      assert GlyphIf(flags, flag, glyph) + rest == rest;
    }
  }

  /** The flag `flag` if it is set in `flags`, else none. */
  function FlagIf(flags: ModifierFlags, flag: ModifierFlags): ModifierFlags {
    if Contains(flags, flag) then flag else 0
  }

  /** The four flags, each taken when set, are the flags masked to the shortcut ones. */
  lemma MaskedFlags(f: ModifierFlags)
    ensures FlagIf(f, ControlFlag) | FlagIf(f, OptionFlag) | FlagIf(f, ShiftFlag) | FlagIf(f, CommandFlag)
         == f & ShortcutMask
  {
  }

  /** Regroups a concatenation of five strings to the right. */
  lemma Regroup(a: string, b: string, c: string, d: string, e: string)
    ensures a + b + c + d + e == a + (b + (c + (d + e)))
  {
    assert a + b + c + d + e == a + (b + c + d + e);
    assert b + c + d + e == b + (c + (d + e));
  }

  /** Reading the glyphs back off the rendered modifiers gives each flag that is set. */
  lemma GlyphsReadBack(f: ModifierFlags, name: string)
    requires name == [] || !IsGlyph(name[0])
    ensures ReadModifierGlyphs(ModifierGlyphs(f) + name)
         == (FlagIf(f, ControlFlag) | FlagIf(f, OptionFlag) | FlagIf(f, ShiftFlag) | FlagIf(f, CommandFlag), name)
  {
    var gc, go, gs, gm := GlyphIf(f, ControlFlag, ControlGlyph), GlyphIf(f, OptionFlag, OptionGlyph),
                          GlyphIf(f, ShiftFlag, ShiftGlyph), GlyphIf(f, CommandFlag, CommandGlyph);
    var r3 := gm + name;
    var r2 := gs + r3;
    var r1 := go + r2;
    ReadGlyphAfter(f, CommandFlag, CommandGlyph, name);
    ReadGlyphAfter(f, ShiftFlag, ShiftGlyph, r3);
    ReadGlyphAfter(f, OptionFlag, OptionGlyph, r2);
    ReadGlyphAfter(f, ControlFlag, ControlGlyph, r1);
    Regroup(gc, go, gs, gm, name);
    var control := ReadGlyph(gc + r1, ControlGlyph, ControlFlag);
    var option := ReadGlyph(control.1, OptionGlyph, OptionFlag);
    var shift := ReadGlyph(option.1, ShiftGlyph, ShiftFlag);
    var command := ReadGlyph(shift.1, CommandGlyph, CommandFlag);
    assert control == (FlagIf(f, ControlFlag), r1);
    assert option == (FlagIf(f, OptionFlag), r2);
    assert shift == (FlagIf(f, ShiftFlag), r3);
    assert command == (FlagIf(f, CommandFlag), name);
  }

  /** The rendering is faithful: reading the glyphs back from `displayString` recovers
      exactly the four shortcut flags of the configuration and leaves the key name, as long
      as the key name does not itself begin with a modifier glyph (no named key does). */
  lemma DisplayStringReadsBack(config: HotkeyConfig, layout: Layout)
    requires var name := KeyName(config.keyCode, layout); name == [] || !IsGlyph(name[0])
    ensures ReadModifierGlyphs(DisplayString(config, layout))
         == (config.modifiers & ShortcutMask, KeyName(config.keyCode, layout))
  {
    GlyphsReadBack(config.modifiers, KeyName(config.keyCode, layout));
    MaskedFlags(config.modifiers);
  }

  /** A value stored in the user defaults. */
  datatype StoredValue = Number(n: int) | StoredString(s: string)

  type Defaults = map<string, StoredValue>

  const KeyCodeDefaultsKey := "hotkeyKeyCode"
  const ModifiersDefaultsKey := "hotkeyModifiers"

  /** `object(forKey:) as? UInt32`: a stored number that a `UInt32` holds exactly. */
  function AsUInt32(d: Defaults, key: string): (r: Option<KeyCode>)
    ensures r.Some? <==> key in d && d[key].Number? && 0 <= d[key].n < 0x1_0000_0000
  {
    if key in d && d[key].Number? && 0 <= d[key].n < 0x1_0000_0000 then Some(d[key].n) else None
  }

  /** `object(forKey:) as? UInt`: a stored number that a 64-bit `UInt` holds exactly. */
  function AsUInt(d: Defaults, key: string): (r: Option<bv64>)
    ensures r.Some? <==> key in d && d[key].Number? && 0 <= d[key].n < 0x1_0000_0000_0000_0000
  {
    if key in d && d[key].Number? && 0 <= d[key].n < 0x1_0000_0000_0000_0000 then Some(d[key].n as bv64) else None
  }

  /** `save()`: writes the key code and the raw modifier value, touching no other key. */
  function Save(config: HotkeyConfig, d: Defaults): (d': Defaults)
    ensures d'.Keys == d.Keys + {KeyCodeDefaultsKey, ModifiersDefaultsKey}
    ensures forall k :: k in d && k != KeyCodeDefaultsKey && k != ModifiersDefaultsKey ==> d'[k] == d[k]
  {
    d[KeyCodeDefaultsKey := Number(config.keyCode)][ModifiersDefaultsKey := Number(config.modifiers as int)]
  }

  /** `load()`: each part read back when stored with a fitting type, else Space and ⌥. */
  function Load(d: Defaults): (r: HotkeyConfig)
    ensures AsUInt32(d, KeyCodeDefaultsKey).Some? ==> r.keyCode == d[KeyCodeDefaultsKey].n
    ensures AsUInt32(d, KeyCodeDefaultsKey).None? ==> r.keyCode == Default.keyCode
    ensures AsUInt(d, ModifiersDefaultsKey).Some? ==> r.modifiers == AsUInt(d, ModifiersDefaultsKey).value
    ensures AsUInt(d, ModifiersDefaultsKey).None? ==> r.modifiers == Default.modifiers
  {
    var keyCode := match AsUInt32(d, KeyCodeDefaultsKey) case Some(k) => k case None => KeySpace;
    var modifiers := match AsUInt(d, ModifiersDefaultsKey) case Some(m) => m case None => OptionFlag;
    HotkeyConfig(keyCode, modifiers)
  }

  /** Loading after saving gives back the saved configuration, whatever else is stored. */
  lemma LoadAfterSave(config: HotkeyConfig, d: Defaults)
    ensures Load(Save(config, d)) == config
  {
    var d' := Save(config, d);
    assert d'[KeyCodeDefaultsKey] == Number(config.keyCode);
    assert d'[ModifiersDefaultsKey] == Number(config.modifiers as int);
  }

  /** With neither key stored, `load()` gives the default shortcut. */
  lemma LoadWithoutKeysIsDefault(d: Defaults)
    requires KeyCodeDefaultsKey !in d && ModifiersDefaultsKey !in d
    ensures Load(d) == Default
  {
  }
}
