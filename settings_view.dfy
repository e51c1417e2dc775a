/**
 * The non-view logic of ClipZen/SettingsView.swift: how a shortcut is shown,
 * the recording of a new shortcut from key events, and the reset to defaults.
 */
module ShortcutSettings {
  import opened Common
  import opened Events
  import Theme
  import LocalizationHelper

  /**
   * A shortcut as `formatShortcut` sees it: the key code and the modifier
   * flags of `cocoaModifiers`.
   */
  datatype ShortcutKey = ShortcutKey(keyCode: nat, modifiers: set<ModifierFlag>)

  /** The four modifier symbols in the order they are shown: ⌃ ⌥ ⇧ ⌘. */
  const SymbolOrder: string := "⌃⌥⇧⌘"

  /** The position of a modifier symbol in SymbolOrder (4 for any other character). */
  function Rank(c: char): nat {
    if c == '⌃' then 0 else if c == '⌥' then 1 else if c == '⇧' then 2 else if c == '⌘' then 3 else 4
  }

  /**
   * The modifier part of `formatShortcut`: a symbol per present modifier, each
   * once, in the order control, option, shift, command.
   */
  function ModifierSymbols(modifiers: set<ModifierFlag>): (r: string)
    ensures '⌃' in r <==> Control in modifiers
    ensures '⌥' in r <==> Option in modifiers
    ensures '⇧' in r <==> Shift in modifiers
    ensures '⌘' in r <==> Command in modifiers
    ensures forall i :: 0 <= i < |r| ==> r[i] in SymbolOrder
    ensures forall i, j :: 0 <= i < j < |r| ==> Rank(r[i]) < Rank(r[j])
    ensures r == [] <==> modifiers * ShortcutModifiers == {}
  {
    NoShortcutModifiers(modifiers);
    (if Control in modifiers then "⌃" else "")
    + (if Option in modifiers then "⌥" else "")
    + (if Shift in modifiers then "⇧" else "")
    + (if Command in modifiers then "⌘" else "")
  }

  lemma NoShortcutModifiers(modifiers: set<ModifierFlag>)
    ensures modifiers * ShortcutModifiers == {} <==>
            Control !in modifiers && Option !in modifiers && Shift !in modifiers && Command !in modifiers
  {
    var shared := modifiers * ShortcutModifiers;
    if shared != {} {
      var m :| m in shared;
    }
    assert Control in modifiers ==> Control in shared;
    assert Option in modifiers ==> Option in shared;
    assert Shift in modifiers ==> Shift in shared;
    assert Command in modifiers ==> Command in shared;
  }

  /** No symbol string reads "Yok", so that placeholder only ever stands for "no modifiers". */
  lemma SymbolsAreNeverPlaceholder(modifiers: set<ModifierFlag>)
    ensures ModifierSymbols(modifiers) != "Yok"
  {
    var r := ModifierSymbols(modifiers);
    assert r == [] || r[0] in SymbolOrder;
  }

  /**
   * `formatShortcut`: the modifier symbols, or "Yok" when there are none,
   * then the key's name from `keyCodeMap` when it has one; with no modifiers
   * a named key shows alone.
   */
  function FormatShortcut(shortcut: ShortcutKey, keyCodeMap: map<int, string>): (r: string)
    ensures shortcut.modifiers * ShortcutModifiers == {} && shortcut.keyCode !in keyCodeMap ==> r == "Yok"
    ensures shortcut.modifiers * ShortcutModifiers == {} && shortcut.keyCode in keyCodeMap ==>
              r == keyCodeMap[shortcut.keyCode]
    ensures shortcut.modifiers * ShortcutModifiers != {} ==>
              r == ModifierSymbols(shortcut.modifiers) +
                   (if shortcut.keyCode in keyCodeMap then keyCodeMap[shortcut.keyCode] else "")
  {
    SymbolsAreNeverPlaceholder(shortcut.modifiers);
    var symbols := ModifierSymbols(shortcut.modifiers);
    var description := if symbols == "" then "Yok" else symbols;
    if shortcut.keyCode in keyCodeMap then
      var key := keyCodeMap[shortcut.keyCode];
      if description != "Yok" then description + key else key
    else
      description
  }

  /** The errors the recorder shows. */
  datatype ShortcutError = ModifierRequired | InvalidModifiers | HotKeyExists | Unavailable(status: int)

  /** The Escape key. */
  const EscapeKeyCode: nat := 53
  /** `noErr`. */
  const NoErr: int := 0
  /** `kHIErrorInvalidModifiers`. */
  const InvalidModifiersStatus: int := -9868
  /** `kHIErrorHotKeyExists`. */
  const HotKeyExistsStatus: int := -9870

  /** The error for a `RegisterEventHotKey` status; none for `noErr`. */
  function StatusError(status: int): (r: Option<ShortcutError>)
    ensures r.None? <==> status == NoErr
    ensures status == InvalidModifiersStatus ==> r == Some(InvalidModifiers)
    ensures status == HotKeyExistsStatus ==> r == Some(HotKeyExists)
    ensures status !in {NoErr, InvalidModifiersStatus, HotKeyExistsStatus} ==> r == Some(Unavailable(status))
  {
    if status == NoErr then None
    else if status == InvalidModifiersStatus then Some(InvalidModifiers)
    else if status == HotKeyExistsStatus then Some(HotKeyExists)
    else Some(Unavailable(status))
  }

  /** The shortcut a key event proposes: its key code and the four shortcut modifiers it carries. */
  function Candidate(event: KeyEvent): ShortcutKey {
    ShortcutKey(event.keyCode, event.modifierFlags * ShortcutModifiers)
  }

  /** The three `@State` fields the recorder changes. */
  datatype Recorder = Recorder(isRecording: bool, error: Option<ShortcutError>, current: ShortcutKey)

  /**
   * `handleKeyEvent`; `register` stands for the trial `RegisterEventHotKey`
   * call and gives its status for the candidate shortcut.
   */
  function KeyHandled(s: Recorder, event: KeyEvent, register: ShortcutKey -> int): (r: Recorder)
    ensures !s.isRecording ==> r == s
    ensures s.isRecording && event.keyCode == EscapeKeyCode ==> r == Recorder(false, None, s.current)
    ensures s.isRecording && event.keyCode != EscapeKeyCode && event.eventType == FlagsChanged ==> r == s
    ensures s.isRecording && event.keyCode != EscapeKeyCode && event.eventType == KeyDown &&
            event.modifierFlags * ShortcutModifiers == {} ==>
              r == Recorder(true, Some(ModifierRequired), s.current)
    ensures s.isRecording && event.keyCode != EscapeKeyCode && event.eventType == KeyDown &&
            event.modifierFlags * ShortcutModifiers != {} ==>
              var status := register(Candidate(event));
              r == if status == NoErr then Recorder(false, None, Candidate(event))
                   else Recorder(true, StatusError(status), s.current)
    ensures r.current != s.current ==>
              r.current.modifiers != {} && r.current.modifiers <= ShortcutModifiers &&
              register(r.current) == NoErr && r.error == None && !r.isRecording
  {
    if !s.isRecording then s
    else if event.keyCode == EscapeKeyCode then s.(isRecording := false, error := None)
    else if event.eventType == FlagsChanged then s
    else
      var modifiers := event.modifierFlags * ShortcutModifiers;
      if modifiers == {} then s.(error := Some(ModifierRequired))
      else
        var newShortcut := ShortcutKey(event.keyCode, modifiers);
        var status := register(newShortcut);
        if status == NoErr then s.(error := None, current := newShortcut, isRecording := false)
        else s.(error := StatusError(status))
  }

  /** The settings screen's state, less the opacity slider. */
  class SettingsView {
    var themeMode: Theme.ThemeMode
    var selectedLanguage: LocalizationHelper.Language
    var isRecordingShortcut: bool
    var shortcutError: Option<ShortcutError>
    var currentShortcut: ShortcutKey
    /** `ShortcutKey.default`. */
    const defaultShortcut: ShortcutKey

    function RecorderState(): Recorder
      reads this
    {
      Recorder(isRecordingShortcut, shortcutError, currentShortcut)
    }

    /**
     * `init`: the stored "shortcutKey" data when it decodes, else the default;
     * the theme read back from its raw value (default system); not recording.
     */
    constructor (storedShortcut: Option<Bytes>, decode: Bytes -> Option<ShortcutKey>, defaultShortcut: ShortcutKey,
                 storedTheme: Option<string>, selectedLanguage: LocalizationHelper.Language)
      ensures storedShortcut.Some? && decode(storedShortcut.value).Some? ==>
                currentShortcut == decode(storedShortcut.value).value
      ensures !(storedShortcut.Some? && decode(storedShortcut.value).Some?) ==> currentShortcut == defaultShortcut
      ensures storedTheme.Some? && Theme.FromRawValue(storedTheme.value).Some? ==>
                themeMode == Theme.FromRawValue(storedTheme.value).value
      ensures !(storedTheme.Some? && Theme.FromRawValue(storedTheme.value).Some?) ==> themeMode == Theme.System
      ensures !isRecordingShortcut && shortcutError == None
      ensures this.selectedLanguage == selectedLanguage && this.defaultShortcut == defaultShortcut
    {
      this.defaultShortcut := defaultShortcut;
      if storedShortcut.Some? && decode(storedShortcut.value).Some? {
        currentShortcut := decode(storedShortcut.value).value;
      } else {
        currentShortcut := defaultShortcut;
      }
      themeMode := if storedTheme.Some? then Theme.FromRawValue(storedTheme.value).GetOr(Theme.System) else Theme.System;
      this.selectedLanguage := selectedLanguage;
      isRecordingShortcut := false;
      shortcutError := None;
    }

    /** The shortcut button: toggles recording and clears the error. */
    method ToggleRecording()
      modifies this`isRecordingShortcut, this`shortcutError
      ensures isRecordingShortcut == !old(isRecordingShortcut) && shortcutError == None
    {
      isRecordingShortcut := !isRecordingShortcut;
      shortcutError := None;
    }

    /** `handleKeyEvent`. */
    method HandleKeyEvent(event: KeyEvent, register: ShortcutKey -> int)
      modifies this`isRecordingShortcut, this`shortcutError, this`currentShortcut
      ensures RecorderState() == KeyHandled(old(RecorderState()), event, register)
    {
      if !isRecordingShortcut {
        return;
      }
      if event.keyCode == EscapeKeyCode {
        isRecordingShortcut := false;
        shortcutError := None;
        return;
      }
      if event.eventType == FlagsChanged {
        return;
      }
      var modifiers := event.modifierFlags * ShortcutModifiers;
      if modifiers == {} {
        shortcutError := Some(ModifierRequired);
        return;
      }
      var newShortcut := ShortcutKey(event.keyCode, modifiers);
      var status := register(newShortcut);
      if status == NoErr {
        shortcutError := None;
        currentShortcut := newShortcut;
        isRecordingShortcut := false;
      } else {
        shortcutError := StatusError(status);
      }
    }

    /** `resetToDefaults`: system theme, system language, default shortcut. */
    method ResetToDefaults()
      modifies this`themeMode, this`selectedLanguage, this`currentShortcut
      ensures themeMode == Theme.System && selectedLanguage == LocalizationHelper.System
      ensures currentShortcut == defaultShortcut
    {
      themeMode := Theme.System;
      selectedLanguage := LocalizationHelper.System;
      currentShortcut := defaultShortcut;
    }
  }
}
