# ClipZen core, modelled in Dafny

ClipZen is a macOS menu-bar clipboard manager. This project models the logic behind it:

- **Clipboard history** (`ClipboardHistory`). This is the polling tick, which compares the pasteboard's change count with the last one seen. A string takes priority over TIFF data. A new item goes to the front of a history that holds at most fifty entries, and an id already present is ignored. The module also covers the copy back to the pasteboard, and the delete and clear operations as the unit tests call them.
- **History search** (`HistorySearch`). This is the search filter of the history window, over the Core Data record shape.
- **Localization** (`Localization`, `Languages`, `LocalizationHelper`). This covers:
  - the string tables, with a lookup that falls back from the current table to the English table to the key itself;
  - the loading loop and the translation-completeness check;
  - the language setter with its no-op guard and persistence;
  - the mapping from the system locale to a language, in both revisions of the `Language` enum.
- **Shortcut settings** (`ShortcutSettings`). This covers how a shortcut is displayed (modifier symbols ⌃⌥⇧⌘, the "Yok" placeholder) and the recording state machine that turns a key event and a trial hot-key registration status into a new shortcut or an error. In this revision `handleKeyEvent` is private and SettingsView installs no event monitor (the only monitors are in KeyboardShortcuts.swift), so the recorder can be switched on but never receives a key; the model describes what it would do with one.
- **Global key dispatch** (`GlobalShortcuts`). Command+V pastes the newest item and Command+Shift+V opens the history window, which also pastes.
- **Enumerations** (`ItemTypes`, `Theme`). These are the item kinds with their raw values, icons and colours, and the theme mode with its colour scheme.

State that the Swift code updates in place is modelled as Dafny classes:
- `ClipboardManager`, `Pasteboard`, `LocalizationManager`, `SettingsView` and `KeyboardShortcuts`.
- Each method's postcondition ties the new state to a specification function of the old state, such as `Polled`, `Inserted`, `Without`, `ValidationOf`, `KeyHandled` or `Dispatch`, or states it outright (the loading loop leaves `old(stringTables) + found`, proved through the loop invariant `Loaded`).
- The properties the program relies on are lemmas about those functions. Examples are the bounded-FIFO history, distinct ids, order preservation and idempotence of the filter, and completeness of validation.

Calls into frameworks become parameters:
- `String(data:encoding:)`, `localizedCaseInsensitiveContains`, `String(format:)`, `NSLocalizedString` and the bundle lookup;
- the JSON decoding of the stored shortcut and the `RegisterEventHotKey` status;
- the locale's language and region codes, the system appearance, and the fresh `UUID`.

The pasteboard's contents and change count are the inputs of a tick. The main-queue hop in `addItem` is taken as synchronous.

The repository holds two revisions of several types, and each is modelled in its own module:
- `ClipboardItemType` is two cases in ClipboardManager.swift and four in ClipboardItemType.swift.
- `Language` has eleven cases in Language.swift and twelve, with `system`, in LocalizationHelper.swift.
- The history item is a struct with `content: Any` in ClipboardManager.swift. The search filter works on the Core Data record, where every attribute is optional.

## Model

| member | source | states |
|---|---|---|
| ClipboardHistory.SameItem | ClipZen/ClipboardManager.swift:80-82 | two items are equal exactly when their ids are, whatever their kind and content |
| ClipboardHistory.HasId | ClipZen/ClipboardManager.swift:44 | the id check of `addItem` holds exactly when some entry has that id |
| ClipboardHistory.HasIdMeansEqualPresent | ClipZen/ClipboardManager.swift:44 | the id test of `addItem` holds exactly when the history holds an item equal (by `==`) to the new one |
| ClipboardHistory.Inserted | ClipZen/ClipboardManager.swift:41-53 | an item whose id is present leaves the history as it was; a fresh item is at index 0 followed by the old items in order, and the length grows by one below fifty and stays put at fifty (the oldest is dropped) |
| ClipboardHistory.InsertedWellFormed | ClipZen/ClipboardManager.swift:44-50 | inserting keeps the history at most fifty long with pairwise distinct ids |
| ClipboardHistory.Observed | ClipZen/ClipboardManager.swift:32-36 | a tick records an item exactly when a string or TIFF data is present; a string wins and gives a text item with that string, otherwise an image item with the data |
| ClipboardHistory.Polled | ClipZen/ClipboardManager.swift:27-37 | an unchanged change count leaves both fields alone; a changed one always stores the new count, adds nothing when there is no payload, and otherwise inserts the observed item |
| ClipboardHistory.PolledWellFormed | ClipZen/ClipboardManager.swift:27-53 | a tick keeps the history invariant |
| ClipboardHistory.PollingTwiceAddsNothing | ClipZen/ClipboardManager.swift:29-30 | a second tick that sees the same change count changes nothing, whatever the payload |
| ClipboardHistory.Written | ClipZen/ClipboardManager.swift:60-69 | after clearing, a text item with string content writes that string, an image item with data content writes that TIFF data, and any other combination writes nothing |
| ClipboardHistory.CopyThenObserve | ClipZen/ClipboardManager.swift:32-69 | what copying writes is read back by a tick as an item of the same kind and content |
| ClipboardHistory.RestoredItemIsCapturedAgain | ClipZen/ClipboardManager.swift:27-70 | copying an item back does not update `lastChangeCount`, so the next tick records it again as a new front entry |
| ClipboardHistory.InsertAllKeepsNewest | ClipZen/ClipboardManager.swift:44-50 | after capturing items with fresh distinct ids, the history is exactly the fifty newest captures, newest first (FIFO eviction) |
| ClipboardHistory.FiftyOneCaptures | ClipZen/ClipboardManager.swift:47-50 | fifty-one captures into an empty history leave fifty, the last capture in front and the first one gone |
| ClipboardHistory.Without | ClipZenTests/ClipboardManagerTests.swift:93-98 | deletion keeps exactly the entries with a different id |
| ClipboardHistory.WithoutRemovesOne | ClipZenTests/ClipboardManagerTests.swift:93-98 | deleting a present item from a history with distinct ids removes exactly one entry, so deleting the only item leaves none |
| ClipboardHistory.WithoutKeepsWellFormed | ClipZenTests/ClipboardManagerTests.swift:93-98 | deletion keeps the history invariant |
| ClipboardHistory.Pasteboard.ClearContents | ClipZen/ClipboardManager.swift:58 | clearing empties the pasteboard and advances its change count |
| ClipboardHistory.ClipboardManager.constructor | ClipZen/ClipboardManager.swift:14-17 | an empty history starting from the pasteboard's current change count |
| ClipboardHistory.ClipboardManager.CheckForChanges | ClipZen/ClipboardManager.swift:27-38 | the new state is `Polled` of the old state, and the history invariant is kept |
| ClipboardHistory.ClipboardManager.AddItem | ClipZen/ClipboardManager.swift:41-53 | the new history is `Inserted` of the old one, and the invariant is kept |
| ClipboardHistory.ClipboardManager.CopyToPasteboard | ClipZen/ClipboardManager.swift:56-70 | the pasteboard's change count advances and its contents become `Written(item)`; only the pasteboard is modified |
| ClipboardHistory.ClipboardManager.DeleteItem | ClipZenTests/ClipboardManagerTests.swift:93-98 | the history becomes `Without(old history, item)`, invariant kept |
| ClipboardHistory.ClipboardManager.ClearHistory | ClipZenTests/ClipboardManagerTests.swift:125-128 | the history becomes empty |
| ItemTypes.FromRawValue | ClipZen/ClipboardItemType.swift:3-7 | `init(rawValue:)` gives a case exactly when that case's raw value is the string, and none for any string other than the four |
| ItemTypes.RawValueRoundTrip | ClipZen/ClipboardItemType.swift:3-7 | every case's raw value reads back as that case |
| ItemTypes.IconNamesDistinct | ClipZen/ClipboardItemType.swift:9-20 | two cases share an icon symbol only when they are the same case |
| ItemTypes.ColorsDistinct | ClipZen/ClipboardItemType.swift:22-33 | two cases share a colour only when they are the same case |
| Theme.FromRawValue | ClipZen/ThemeMode.swift:4-7 | the three raw values read back as their cases; any other string gives none |
| Theme.ColorSchemeOf | ClipZen/ThemeMode.swift:9-20 | light gives light and dark gives dark; system gives dark exactly when the appearance best-matches darkAqua |
| Theme.ExplicitThemeIgnoresAppearance | ClipZen/ThemeMode.swift:11-14 | for light and dark the colour scheme does not depend on the appearance |
| Languages.AllCasesComplete | ClipZen/Language.swift:3-14 | `allCases` lists every language |
| Languages.FromRawValue | ClipZen/Language.swift:3-14 | `init(rawValue:)` gives a case exactly when that case's raw value is the string |
| Languages.RawValueRoundTrip | ClipZen/Language.swift:3-14 | every case's raw value reads back as that case, so the eleven raw values are distinct |
| Languages.DisplayNamesDistinct | ClipZen/Language.swift:16-30 | display names are distinct per case |
| Languages.SystemLanguage | ClipZen/Language.swift:40-70 | codes tr, en, de, fr, es, it, ja and ko give their case; zh gives Traditional Chinese for region TW or HK and Simplified otherwise; every other code (ru included) and a missing code's default "en" give English, so Russian is never chosen |
| Languages.RegionMattersOnlyForChinese | ClipZen/Language.swift:52-69 | the region code changes the result only for language code "zh" |
| LocalizationHelper.FromRawValue | ClipZen/LocalizationHelper.swift:3-15 | `init(rawValue:)`, "system" included, gives a case exactly when its raw value is the string |
| LocalizationHelper.RawValueRoundTrip | ClipZen/LocalizationHelper.swift:3-15 | the twelve raw values round-trip and so are distinct |
| LocalizationHelper.SystemDefault | ClipZen/LocalizationHelper.swift:17-20 | the case whose raw value is the locale code (default "en"), else English |
| LocalizationHelper.BareChineseGivesEnglish | ClipZen/LocalizationHelper.swift:17-20 | a bare "zh" locale gives English, not a Chinese script |
| LocalizationHelper.BundleOf | ClipZen/LocalizationHelper.swift:29-34 | system selects the main bundle; every other case asks for the `<rawValue>.lproj` resource |
| LocalizationHelper.BundleRequestsDistinct | ClipZen/LocalizationHelper.swift:29-34 | two different languages never ask for the same resource |
| LocalizationHelper.LocalizedString | ClipZen/LocalizationHelper.swift:37-43 | without arguments the looked-up string is returned unformatted; with arguments it is formatted |
| Localization.LocalizedString | ClipZen/LocalizationManager.swift:136-146 | the current table's translation when it has the key, else the English one, each formatted only when there are arguments; else the key itself, unformatted |
| Localization.LocalizationManager.Localized | ClipZen/LocalizationManager.swift:136-146 | on the manager's own state: the current language's translation, else the English one, formatted only when there are arguments, else the key |
| Localization.NoProblemsExactlyWhenCovered | ClipZen/LocalizationManager.swift:104-120 | the walk over languages reports nothing exactly when each language is English or has a table holding every English key |
| Localization.CompleteExactlyWhenTranslated | ClipZen/LocalizationManager.swift:95-128 | validation passes exactly when there is an English table and every language has a table containing every English key; without an English table it never passes |
| Localization.CompleteMeansOwnTranslation | ClipZen/LocalizationManager.swift:95-146 | when validation passes, every English key is answered from the current language's own table |
| Localization.ValidateTranslations | ClipZen/LocalizationManager.swift:95-128 | no English table stops at once; otherwise the missing tables and missing key sets are reported in `allCases` order, and the result is Complete exactly when there is an English table and everything is translated |
| Localization.LoadedAt | ClipZen/LocalizationManager.swift:82-86 | after the loading loop a language has a table exactly when it had one or its strings file was found, and a found file replaces the old table |
| Localization.LoadedAllCases | ClipZen/LocalizationManager.swift:82-86 | a loading pass over all languages overwrites exactly the found tables and keeps the rest |
| Localization.LocalizationManager.constructor | ClipZen/LocalizationManager.swift:48-58 | the saved language when it is a valid raw value, otherwise the system language; tables loaded; nothing persisted |
| Localization.LocalizationManager.LoadTranslations | ClipZen/LocalizationManager.swift:80-87 | the tables become the old tables overridden by the found ones |
| Localization.LocalizationManager.LoadAndValidateTranslations | ClipZen/LocalizationManager.swift:80-93 | load, then report the validation of the loaded tables |
| Localization.LocalizationManager.SetLanguage | ClipZen/LocalizationManager.swift:130-134 | the current language changes nothing; another language becomes current and, through its `didSet`, the tables are reloaded and validated, and its raw value is persisted under "language" |
| HistorySearch.Filter | ClipZen/FloatingWindow.swift:90-96 | an item is kept exactly when it is in the history and the match rule holds, and each kept record occurs as often as in the history |
| HistorySearch.FilteredItems | ClipZen/FloatingWindow.swift:86-97 | an empty search shows the whole history; otherwise an item with UTF-8 text is kept exactly when the text contains the search (its filename is never consulted), and an item without text exactly when it has a filename containing it; every kept record occurs as often as in the history |
| HistorySearch.FilterIsSubsequence | ClipZen/FloatingWindow.swift:90 | the filter keeps the history's relative order |
| HistorySearch.FilteredItemsIsSubsequence | ClipZen/FloatingWindow.swift:86-97 | the shown list is a subsequence of the history |
| HistorySearch.FilterIdempotent | ClipZen/FloatingWindow.swift:90-96 | filtering again with the same search changes nothing |
| HistorySearch.FilteredItemsIdempotent | ClipZen/FloatingWindow.swift:86-97 | the shown list, filtered again with the same search, is unchanged |
| ShortcutSettings.ModifierSymbols | ClipZen/SettingsView.swift:259-265 | each of ⌃⌥⇧⌘ appears exactly when its modifier is present, once, in that order; the string is empty exactly when none of the four is present |
| ShortcutSettings.SymbolsAreNeverPlaceholder | ClipZen/SettingsView.swift:268-274 | no symbol string equals "Yok", so the placeholder test only detects "no modifiers" |
| ShortcutSettings.FormatShortcut | ClipZen/SettingsView.swift:257-282 | no modifiers and an unmapped key give "Yok"; no modifiers and a mapped key give the key name alone; otherwise the symbols followed by the key name when mapped |
| ShortcutSettings.StatusError | ClipZen/SettingsView.swift:237-249 | `noErr` gives no error; -9868, -9870 and every other status give three distinct errors |
| ShortcutSettings.KeyHandled | ClipZen/SettingsView.swift:191-255 | not recording: nothing changes; Escape stops recording and clears the error; a flags-changed event changes nothing; no shortcut modifier sets the modifier-required error; otherwise `noErr` installs the candidate and stops, any other status sets its error; the shortcut only ever changes to a candidate with modifiers that registered |
| ShortcutSettings.SettingsView.constructor | ClipZen/SettingsView.swift:5-31 | the stored shortcut when it decodes, else the default; the stored theme when its raw value is valid, else system; not recording, no error |
| ShortcutSettings.SettingsView.ToggleRecording | ClipZen/SettingsView.swift:76-79 | recording flips and the error is cleared |
| ShortcutSettings.SettingsView.HandleKeyEvent | ClipZen/SettingsView.swift:191-255 | the three recorder fields become `KeyHandled` of their old values |
| ShortcutSettings.SettingsView.ResetToDefaults | ClipZen/SettingsView.swift:284-290 | system theme, system language and the default shortcut |
| GlobalShortcuts.Dispatch | ClipZen/KeyboardShortcuts.swift:21-37 | the window opens exactly on Command+Shift+V; the newest item is copied exactly on Command+V with a registered, non-empty history; the copy comes first; without Command or without V nothing happens |
| GlobalShortcuts.CommandShiftVAlsoCopies | ClipZen/KeyboardShortcuts.swift:23-35 | Command+Shift+V with a non-empty history both copies the newest item and opens the window |
| GlobalShortcuts.KeyboardShortcuts.constructor | ClipZen/KeyboardShortcuts.swift:6 | no manager registered |
| GlobalShortcuts.KeyboardShortcuts.Register | ClipZen/KeyboardShortcuts.swift:8-9 | the manager is stored |
| GlobalShortcuts.KeyboardShortcuts.HandleKeyEvent | ClipZen/KeyboardShortcuts.swift:21-37 | the actions taken are `Dispatch` of the event and the registered history; a copy writes the newest item to the pasteboard as `copyToPasteboard` does, and otherwise the pasteboard is untouched |

## Left out

- Timers, `DispatchQueue` hops, notification posting and observers, `UserDefaults` synchronisation, window appearance updates and all SwiftUI/AppKit view code. These are I/O, threading or UI. A tick is a method call, and `addItem`'s insertion is synchronous.
- Core Data persistence and the `filename`/`fileExtension` capture of files. The modelled ClipboardManager revision captures only strings and TIFF data.
- The item timestamp (`Date()`). No modelled behaviour reads it.
- The window opacity and its `0.9` default. It is floating point and only styles the view.
- `Language.bundle`, `updateBundle` and the `Bundle` extensions (`languageBundle`, `setLanguageBundle`, `currentLanguageBundle`, `loadAndSetBundle`). They hold and set a framework bundle, with no logic beyond the lookup that `LocalizationHelper.BundleOf` shows.
- The `displayName` of LocalizationHelper's `Language`. It is a `Locale` and `NSLocalizedString` query.
- The Turkish error and status strings of the shortcut recorder and the validation printouts. Errors are modelled as datatype cases, and validation returns a `Validation` value instead of printing and calling `assertionFailure`.
- Localization.ValidateTranslations: runs unconditionally. The source runs it only in DEBUG builds, where a failure stops the program through `assertionFailure`.
- `ShortcutKey`'s Carbon/Cocoa modifier conversion, its JSON encoding, and `KeyCodeMap`. These are not part of this model. A shortcut is its key code and Cocoa modifier set, and the key-name map is a parameter of `FormatShortcut`.
- Persisting `currentShortcut` on change through `onChange`. It is a UI observer that writes JSON.
- The trial `RegisterEventHotKey`/`UnregisterEventHotKey` calls. Their status is the `register` parameter.
- `FloatingWindow.deleteItem`. It only delegates to the manager, whose deletion is `ClipboardManager.DeleteItem`.
- GlobalShortcuts.KeyboardShortcuts.HandleKeyEvent: returns `ShowHistoryWindow` instead of opening the window, because `FloatingWindowManager` is UI. Installing the global and local event monitors in `register` is not modelled either.
- Suppression of a restored item's re-capture. The code does not implement it: `copyToPasteboard` leaves `lastChangeCount` alone, so the next tick records the restored item again (`RestoredItemIsCapturedAgain`).
