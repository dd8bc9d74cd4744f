# Key dispatcher and clipboard history of a soft keyboard

This project is a Dafny model of the two stateful parts of an Android soft
keyboard (an `InputMethodService`):

- **The key dispatcher** of `KeyboardIME.kt`. `onKey` turns a key code into
  text commits, key events, deletions, notices and a hide request. What it
  does depends on the one-shot modifiers Ctrl and Alt, the shift latch
  (`caps`, `capsLock`) and the active layout (English, Russian,
  programming, symbols). The model also covers the helpers `handleShift`,
  `deleteWord`, `switchToMode`, `switchLanguage` and `showModifierState`,
  the delete-repeat flag that `onPress` and `onRelease` drive, and the
  labels of the clipboard menu.
- **The clipboard history** of `ClipboardManager.kt`. It holds at most five
  snippets, newest first, with no duplicates, in a key-value store under
  the keys `clip_0` to `clip_4`.

Files:

- `text.dfy` (module `TextUnits`): text as UTF-16 code units, as the JVM
  holds it, with Kotlin's `toChar`, `isWhitespace`, `isBlank`, a letter
  test and upper-casing.
- `clipboard.dfy` (module `Clipboard`): the store as a map from slot index
  to text, the read-back and write-back functions, and the class
  `ClipboardHistory` with `GetHistory`, `SaveToHistory` and `ClearHistory`.
- `clipboard_properties.dfy` (module `ClipboardProperties`): the history
  invariants.
- `keyboard.dfy` (module `Keyboard`): the emitted actions, the service
  state `ImeState`, the pure specification `Dispatch` of `onKey`, and the
  class `KeyboardIme`. Each method of the class except `RepeatTick` is
  proved against these specification functions. `RepeatTick` states only
  that a posted callback deletes one unit and stays posted.
- `keyboard_properties.dfy` (module `KeyboardProperties`): the dispatcher's
  properties and the invariant `Valid` that every operation keeps.

The input connection is a parameter. `None` means there is no connection.
`Some(before)` means there is one, and `before` is the text before the
cursor. The Android key codes `KEYCODE_DELETE`, `SHIFT`, `DONE`,
`MODE_CHANGE` and `CANCEL` are -5, -1, -4, -2 and -3. The `KeyEvent` key
codes are Android's values (`KEYCODE_F1` = 131, and so on). Each
`Keyboard` object has its own `isShifted` flag, so the model keeps the set
of shifted layouts. Each `onPress` of delete posts one more repeat
callback, and `removeCallbacks` removes all of them. The model therefore
counts the posted callbacks in `pendingRepeats`.

Three behaviours of `onKey` and `onPress` are easy to miss:

- An unmatched code such as -117 is not ignored. It falls into the `else`
  branch of `onKey` and is committed as `primaryCode.toChar()`, its low
  16 bits, here 0xFF8B (`KeyboardProperties.UnmatchedCodeCommits`).
- A second tap of a mode button returns to the layout of the language
  preference. From the programming layout, "123" shows the symbols. A
  second tap of "123" then goes to the Russian or English layout, not back
  to the programming one.
- Ctrl+Delete and the extended keys do not clear an armed Ctrl.
  `onPress` does not guard against re-arming the repeat
  (`KeyboardProperties.PressDeleteTwice`).

## Model

| member | source | states |
|---|---|---|
| `TextUnits.ToChar` | app/src/main/java/com/dasakami/keyboard/KeyboardIME.kt:299 | `Int.toChar()` keeps the code modulo 2^16, and a code in 0..65535 is its own unit |
| `TextUnits.IsWhitespace` | app/src/main/java/com/dasakami/keyboard/KeyboardIME.kt:364 | `isWhitespace()`: the JVM's whitespace units, the breaking and no-break spaces, line and paragraph separators |
| `TextUnits.IsBlank` | app/src/main/java/com/dasakami/keyboard/ClipboardManager.kt:10 | `isBlank()`: the text is empty or every unit is whitespace |
| `TextUnits.IsLetter` | app/src/main/java/com/dasakami/keyboard/KeyboardIME.kt:310 | `Character.isLetter` on the Latin and Cyrillic letters of the two language layouts |
| `TextUnits.ToUpper` | app/src/main/java/com/dasakami/keyboard/KeyboardIME.kt:310-312 | a lower-case letter becomes the capital of the same letter, which `ToLower` maps back to it. Every other unit is kept |
| `TextUnits.Take` | app/src/main/java/com/dasakami/keyboard/ClipboardManager.kt:16 | `take(n)` gives the first min(n, length) elements, unchanged |
| `TextUnits.TakeLast` | app/src/main/java/com/dasakami/keyboard/KeyboardIME.kt:359 | `getTextBeforeCursor(n, 0)` gives the last min(n, length) units before the cursor |
| `Clipboard.ReadSlots` | app/src/main/java/com/dasakami/keyboard/ClipboardManager.kt:28-32 | reading slots 0..n-1 yields at most n entries |
| `Clipboard.History` | app/src/main/java/com/dasakami/keyboard/ClipboardManager.kt:26-34 | the history read back from any store has at most 5 entries |
| `Clipboard.Written` | app/src/main/java/com/dasakami/keyboard/ClipboardManager.kt:17-21 | after clear and write-back, the store holds exactly the keys 0..n-1, and key i holds entry i |
| `Clipboard.RemoveFirst` | app/src/main/java/com/dasakami/keyboard/ClipboardManager.kt:13 | `remove(text)` leaves a list without `text` unchanged and otherwise shortens it by one |
| `Clipboard.ReadSlotsWritten` | app/src/main/java/com/dasakami/keyboard/ClipboardManager.kt:19-32 | reading the first n slots of a written list gives its first n entries |
| `Clipboard.HistoryRoundTrip` | app/src/main/java/com/dasakami/keyboard/ClipboardManager.kt:16-33 | writing a list of at most 5 entries and reading it back gives the same list, in order |
| `Clipboard.ClipboardHistory.constructor` | app/src/main/java/com/dasakami/keyboard/ClipboardManager.kt:6-7 | the history is opened over an existing store |
| `Clipboard.ClipboardHistory.GetHistory` | app/src/main/java/com/dasakami/keyboard/ClipboardManager.kt:26-34 | the loop returns the present slots among 0..4 in slot order: at most 5 entries, each stored under one of those keys |
| `Clipboard.ClipboardHistory.SaveToHistory` | app/src/main/java/com/dasakami/keyboard/ClipboardManager.kt:9-24 | blank text leaves the store unchanged. Other text replaces the whole store with the moved-to-front, truncated list, and `getHistory` then reads back exactly that list |
| `Clipboard.ClipboardHistory.Rewrite` | app/src/main/java/com/dasakami/keyboard/ClipboardManager.kt:17-23 | clear, then put item i under key i: the store is exactly the written list |
| `Clipboard.ClipboardHistory.ClearHistory` | app/src/main/java/com/dasakami/keyboard/ClipboardManager.kt:36-38 | the store is empty and the history reads back empty, however often it is cleared |
| `Clipboard.Saved` | app/src/main/java/com/dasakami/keyboard/ClipboardManager.kt:12-16 | the list a non-blank save writes back: the old list without the first copy of the text, the text in front, cut to 5. Its properties are the `ClipboardProperties` lemmas |
| `ClipboardProperties.RemoveFirstMultiset` | app/src/main/java/com/dasakami/keyboard/ClipboardManager.kt:13 | `remove` takes out exactly one copy of the text, if there is one |
| `ClipboardProperties.RemoveFirstAt` | app/src/main/java/com/dasakami/keyboard/ClipboardManager.kt:13 | `remove` splices out the first occurrence and keeps the others in order |
| `ClipboardProperties.SavedContents` | app/src/main/java/com/dasakami/keyboard/ClipboardManager.kt:12-16 | after a save the text is entry 0, there are at most 5 entries, and every entry is the text or was already in the history |
| `ClipboardProperties.SavedFresh` | app/src/main/java/com/dasakami/keyboard/ClipboardManager.kt:12-16 | a new text goes in front, and the oldest entry is dropped once there are more than 5 |
| `ClipboardProperties.SavedMovesToFront` | app/src/main/java/com/dasakami/keyboard/ClipboardManager.kt:13-16 | saving an entry already present moves it to the front. It is not duplicated, nothing is evicted, and the others keep their order |
| `ClipboardProperties.SavedNoDuplicates` | app/src/main/java/com/dasakami/keyboard/ClipboardManager.kt:13-16 | a history without duplicates stays without duplicates |
| `ClipboardProperties.SavedIdempotent` | app/src/main/java/com/dasakami/keyboard/ClipboardManager.kt:12-16 | saving the same text twice in a row equals saving it once |
| `ClipboardProperties.SaveAllDistinct` | app/src/main/java/com/dasakami/keyboard/ClipboardManager.kt:12-16 | saving distinct, new, non-blank texts leaves the newest five, newest first, ahead of the old entries |
| `ClipboardProperties.SixSavesEvictOldest` | app/src/main/java/com/dasakami/keyboard/ClipboardManager.kt:14-16 | six distinct saves into an empty history give [s6, s5, s4, s3, s2] |
| `ClipboardProperties.SaveTwiceSingleEntry` | app/src/main/java/com/dasakami/keyboard/ClipboardManager.kt:12-16 | saving s twice into an empty history gives [s] |
| `ClipboardProperties.SaveAllBlank` | app/src/main/java/com/dasakami/keyboard/ClipboardManager.kt:10 | blank texts never change the history |
| `Keyboard.LanguageLayout` | app/src/main/java/com/dasakami/keyboard/KeyboardIME.kt:76 | the Russian layout exactly when the language is "ru", otherwise the English one |
| `Keyboard.SwitchedLanguage` | app/src/main/java/com/dasakami/keyboard/KeyboardIME.kt:146 | the new language is always "en" or "ru", and it is "ru" exactly when the old one was "en" |
| `Keyboard.LanguageSwitched` | app/src/main/java/com/dasakami/keyboard/KeyboardIME.kt:145-152 | the state after `switchLanguage`: the language always changes, the layout is the new language's, and nothing else changes |
| `Keyboard.InitialState` | app/src/main/java/com/dasakami/keyboard/KeyboardIME.kt:29-77 | the start state: shift, caps lock, Ctrl, Alt and the repeat off, no layout shifted, the layout of the saved language |
| `Keyboard.ModeLayout` | app/src/main/java/com/dasakami/keyboard/KeyboardIME.kt:154-165 | "code" and "symbols" select their layout unless it is already active. If it is, they select the layout of the current language. Any other mode selects English |
| `Keyboard.ModifierNotice` | app/src/main/java/com/dasakami/keyboard/KeyboardIME.kt:396-404 | no notice when nothing is armed, otherwise "Ctrl", "Alt" or "Ctrl+Alt" followed by " активен" |
| `Keyboard.TrailingRun` | app/src/main/java/com/dasakami/keyboard/KeyboardIME.kt:362-368 | the word count never exceeds the text's length |
| `Keyboard.DeleteWordActions` | app/src/main/java/com/dasakami/keyboard/KeyboardIME.kt:357-370 | no text before the cursor gives no action, otherwise exactly one deletion of at most 100 units and at most the text's length |
| `Keyboard.FunctionKey` | app/src/main/java/com/dasakami/keyboard/KeyboardIME.kt:286-289 | codes -120 .. -131 map onto F1 .. F12 with offset -120 - code |
| `Keyboard.FixedAction` | app/src/main/java/com/dasakami/keyboard/KeyboardIME.kt:271-296 | exactly the codes -103..-116, -120..-131, -200 and -201 have a fixed action |
| `Keyboard.SoundFor` | app/src/main/java/com/dasakami/keyboard/KeyboardIME.kt:413-418 | delete, done and space get their own sound effects, every other code the standard one |
| `Keyboard.ShiftStep` | app/src/main/java/com/dasakami/keyboard/KeyboardIME.kt:336-355 | one step of the latch: caps lock implies caps afterwards, the current layout is shifted exactly when caps is set, and the latch state always changes |
| `Keyboard.OtherKeyStep` | app/src/main/java/com/dasakami/keyboard/KeyboardIME.kt:298-332 | the `else` branch: an armed Ctrl or Alt gives a combination as the first action, otherwise a commit. Caps lock and the layout are unchanged |
| `Keyboard.KeyStep` | app/src/main/java/com/dasakami/keyboard/KeyboardIME.kt:254-333 | the `when` on the key code: no key changes the language or the delete repeat, and caps lock ⇒ caps is kept |
| `Keyboard.Dispatch` | app/src/main/java/com/dasakami/keyboard/KeyboardIME.kt:250-334 | `onKey` as a function: no connection means no effect, otherwise the feedback and then `KeyStep`. Its properties are the `KeyboardProperties` lemmas |
| `Keyboard.Pressed` | app/src/main/java/com/dasakami/keyboard/KeyboardIME.kt:436-441 | `onPress` as a function of the state, proved about in `PressDeleteTwice` and `PressKeepsValid` |
| `Keyboard.Released` | app/src/main/java/com/dasakami/keyboard/KeyboardIME.kt:443-448 | `onRelease` as a function of the state, proved about in `ReleaseDisarms` |
| `Keyboard.Label` | app/src/main/java/com/dasakami/keyboard/KeyboardIME.kt:175-177 | a label keeps the first 30 units of its entry and is at most 33 units long. An entry of at most 30 units is shown whole, and a longer one is cut to 30 units plus "..." |
| `Keyboard.MenuFor` | app/src/main/java/com/dasakami/keyboard/KeyboardIME.kt:167-183 | an empty history gives the empty notice. Otherwise there is one label per entry, and choosing a label commits the full, untruncated entry |
| `Keyboard.KeyboardIme.constructor` | app/src/main/java/com/dasakami/keyboard/KeyboardIME.kt:29-77 | at start nothing is armed or shifted, and the layout is the one of the saved language |
| `Keyboard.KeyboardIme.SwitchLanguage` | app/src/main/java/com/dasakami/keyboard/KeyboardIME.kt:145-152 | flips the language preference, shows its layout and announces it, and changes nothing else |
| `Keyboard.KeyboardIme.SwitchToMode` | app/src/main/java/com/dasakami/keyboard/KeyboardIME.kt:154-165 | only the layout changes, to `ModeLayout` |
| `Keyboard.KeyboardIme.HandleShift` | app/src/main/java/com/dasakami/keyboard/KeyboardIME.kt:336-355 | performs one step of the three-state latch, sets the current layout's shift flag to `caps`, and shows the caps-lock notices |
| `Keyboard.KeyboardIme.DeleteWord` | app/src/main/java/com/dasakami/keyboard/KeyboardIME.kt:357-370 | the backward scan over at most 100 units deletes exactly the trailing run of non-whitespace, and nothing at all when there is no text |
| `Keyboard.KeyboardIme.ShowModifierState` | app/src/main/java/com/dasakami/keyboard/KeyboardIME.kt:396-404 | emits the modifier notice, and nothing exactly when no modifier is armed |
| `Keyboard.KeyboardIme.OnKey` | app/src/main/java/com/dasakami/keyboard/KeyboardIME.kt:250-334 | the new state and the emitted actions are those of `Dispatch` |
| `Keyboard.KeyboardIme.HandleKey` | app/src/main/java/com/dasakami/keyboard/KeyboardIME.kt:254-333 | the `when` on the key code: new state and actions are those of `KeyStep` |
| `Keyboard.KeyboardIme.OtherKey` | app/src/main/java/com/dasakami/keyboard/KeyboardIME.kt:298-332 | the `else` branch: a Ctrl or Alt combination, or the case-transformed character |
| `Keyboard.KeyboardIme.OnPress` | app/src/main/java/com/dasakami/keyboard/KeyboardIME.kt:436-441 | delete arms the repeat and posts one more callback. Other keys change nothing |
| `Keyboard.KeyboardIme.OnRelease` | app/src/main/java/com/dasakami/keyboard/KeyboardIME.kt:443-448 | releasing delete while deleting disarms the repeat and removes every posted callback. Other keys change nothing |
| `Keyboard.KeyboardIme.RepeatTick` | app/src/main/java/com/dasakami/keyboard/KeyboardIME.kt:44-49 | a posted callback deletes one unit when a connection exists, and stays posted |
| `Keyboard.KeyboardIme.ShowClipboardMenu` | app/src/main/java/com/dasakami/keyboard/KeyboardIME.kt:167-177 | the menu is built from the current history: labels as `Label`, entries untruncated |
| `KeyboardProperties.Valid` | app/src/main/java/com/dasakami/keyboard/KeyboardIME.kt:29-77 | the invariant: caps lock ⇒ caps, a posted repeat ⇒ the repeat is armed, and a language layout on screen is the one of the language preference |
| `KeyboardProperties.InitialStateValid` | app/src/main/java/com/dasakami/keyboard/KeyboardIME.kt:76 | the start state satisfies the invariant |
| `KeyboardProperties.NoConnectionNoEffect` | app/src/main/java/com/dasakami/keyboard/KeyboardIME.kt:251 | without an input connection there is no feedback, no action and no state change |
| `KeyboardProperties.FeedbackFirst` | app/src/main/java/com/dasakami/keyboard/KeyboardIME.kt:252 | with a connection, the feedback request is the first action |
| `KeyboardProperties.DispatchKeepsValid` | app/src/main/java/com/dasakami/keyboard/KeyboardIME.kt:250-334 | every key keeps caps lock ⇒ shift and the language-layout agreement, and leaves the language and the repeat state unchanged |
| `KeyboardProperties.ShiftShowsCaps` | app/src/main/java/com/dasakami/keyboard/KeyboardIME.kt:336-355 | after shift, caps lock ⇒ caps, and the current layout is shifted exactly when caps is set. Nothing else changes |
| `KeyboardProperties.ShiftLatchSequence` | app/src/main/java/com/dasakami/keyboard/KeyboardIME.kt:336-355 | plain → shifted → caps-locked → plain, with the "ВКЛ" and "ВЫКЛ" notices |
| `KeyboardProperties.ShiftCycle` | app/src/main/java/com/dasakami/keyboard/KeyboardIME.kt:336-355 | three taps return every valid latch state to itself |
| `KeyboardProperties.ShiftKeyIsLatch` | app/src/main/java/com/dasakami/keyboard/KeyboardIME.kt:262-264 | the shift key does only `handleShift` after the feedback |
| `KeyboardProperties.NonNegativeCodesAreOther` | app/src/main/java/com/dasakami/keyboard/KeyboardIME.kt:254-298 | every non-negative code reaches the `else` branch |
| `KeyboardProperties.UnmatchedCodeCommits` | app/src/main/java/com/dasakami/keyboard/KeyboardIME.kt:298-313 | -117 is committed as the unit 0xFF8B, not ignored |
| `KeyboardProperties.PrintableCommit` | app/src/main/java/com/dasakami/keyboard/KeyboardIME.kt:310-330 | with no modifier armed: one character is committed, and it is upper-cased exactly when it is a letter and caps or caps lock is on. A plain shift is cleared after this one character, and caps lock stays |
| `KeyboardProperties.NonLetterUnchanged` | app/src/main/java/com/dasakami/keyboard/KeyboardIME.kt:310-313 | a non-letter is committed unchanged |
| `KeyboardProperties.ShiftedLetterUpperCase` | app/src/main/java/com/dasakami/keyboard/KeyboardIME.kt:310-313 | a lower-case letter typed under shift or caps lock is committed as `ToUpper` of it, the capital of the same letter |
| `KeyboardProperties.CtrlCombination` | app/src/main/java/com/dasakami/keyboard/KeyboardIME.kt:301-304 | with Ctrl armed: exactly one Ctrl combination and no commit. Only Ctrl is cleared, and an armed Alt stays armed and is announced |
| `KeyboardProperties.AltCombination` | app/src/main/java/com/dasakami/keyboard/KeyboardIME.kt:305-308 | with only Alt armed: exactly one Alt combination, and only Alt is cleared |
| `KeyboardProperties.CtrlToggleTwice` | app/src/main/java/com/dasakami/keyboard/KeyboardIME.kt:269 | -101 flips Ctrl and announces it, and two taps restore the state |
| `KeyboardProperties.AltToggleTwice` | app/src/main/java/com/dasakami/keyboard/KeyboardIME.kt:270 | -102 flips Alt and announces it, and two taps restore the state |
| `KeyboardProperties.DeleteKey` | app/src/main/java/com/dasakami/keyboard/KeyboardIME.kt:255-260 | delete removes 1 unit without Ctrl and the trailing word with Ctrl. It changes no flag, so Ctrl stays armed |
| `KeyboardProperties.TrailingRunCharacterized` | app/src/main/java/com/dasakami/keyboard/KeyboardIME.kt:362-368 | the counted run is the unique length n for which the last n units are non-whitespace and the unit before them is whitespace (or the text starts there) |
| `KeyboardProperties.DeleteWordHelloWorld` | app/src/main/java/com/dasakami/keyboard/KeyboardIME.kt:357-370 | Ctrl+Delete on "hello world" deletes 5 units |
| `KeyboardProperties.HelloWorldRun` | app/src/main/java/com/dasakami/keyboard/KeyboardIME.kt:362-368 | the trailing word of "hello world" is 5 units long |
| `KeyboardProperties.DeleteWordAtWhitespace` | app/src/main/java/com/dasakami/keyboard/KeyboardIME.kt:359-369 | no text gives no deletion, and text ending in whitespace gives a deletion of 0 |
| `KeyboardProperties.DeleteWordBounded` | app/src/main/java/com/dasakami/keyboard/KeyboardIME.kt:357-370 | a word deletion removes at most 100 units, never more than the text, and only trailing non-whitespace |
| `KeyboardProperties.ExtendedKeysKeepState` | app/src/main/java/com/dasakami/keyboard/KeyboardIME.kt:271-296 | the extended codes change no flag and no layout |
| `KeyboardProperties.FunctionKeys` | app/src/main/java/com/dasakami/keyboard/KeyboardIME.kt:286-289 | code -120 - k sends F1 + k, so -120 is F1 and -131 is F12 |
| `KeyboardProperties.CopyPasteIgnoreModifiers` | app/src/main/java/com/dasakami/keyboard/KeyboardIME.kt:291-296 | -200 and -201 send Ctrl+C and Ctrl+V whatever is armed |
| `KeyboardProperties.ModeToggleTwice` | app/src/main/java/com/dasakami/keyboard/KeyboardIME.kt:154-165 | selecting a mode twice from the language layout comes back to it |
| `KeyboardProperties.ModeButtonsKeepValid` | app/src/main/java/com/dasakami/keyboard/KeyboardIME.kt:154-165 | the code and symbols buttons keep the invariant |
| `KeyboardProperties.ModeChangeKey` | app/src/main/java/com/dasakami/keyboard/KeyboardIME.kt:266 | the mode-change key toggles the symbols layout and changes nothing else |
| `KeyboardProperties.LanguageSwitchedTwice` | app/src/main/java/com/dasakami/keyboard/KeyboardIME.kt:145-152 | switching keeps the invariant and shows the new language's layout. Two switches restore "en" or "ru" |
| `KeyboardProperties.PressDeleteTwice` | app/src/main/java/com/dasakami/keyboard/KeyboardIME.kt:436-440 | pressing delete twice posts two repeat callbacks: there is no guard against re-arming |
| `KeyboardProperties.ReleaseDisarms` | app/src/main/java/com/dasakami/keyboard/KeyboardIME.kt:443-448 | releasing delete leaves no repeat armed or pending. Other codes change nothing, and the invariant holds |
| `KeyboardProperties.PressKeepsValid` | app/src/main/java/com/dasakami/keyboard/KeyboardIME.kt:436-441 | pressing keeps the invariant, and keys other than delete change nothing |

## Left out

- View and dialog construction is not modelled: `onCreateInputView` beyond the layout choice, `createControlPanel`, `createPanelButton`, `showQuickSettings`, `openSettings`, `applySettings` and `dpToPx`. This is Android UI, bitmap loading and file access.
- `playFeedback` and `vibrate` are reduced to a `Feedback(sound)` request. Whether the vibration and sound settings let it vibrate or click, and for how long, is not modelled.
- The timing of the delete repeat (first callback after 500 ms, then every 50 ms) is not modelled. Only the `isDeleting` flag and the number of posted callbacks are kept.
- Registering a clipboard-change listener on every typed character (KeyboardIME.kt:315-324) is not modelled. It is an asynchronous Android callback, and its non-blank filter repeats the guard of `saveToHistory`.
- The "history cleared" Toast and the wiring of the dialog's Clear button (KeyboardIME.kt:184-187), `invalidateAllKeys`, and showing a layout on the view are display-only and not modelled. The empty-history notice is modelled as `EmptyHistory`.
- The language preference is assumed to change only through `switchLanguage`. The settings screen's Reset (MainActivity.kt:200-201, then `reset()` at KeyboardPreferences.kt:61-62) clears it, so `currentLanguage` reads "en" while the Russian layout may still show. That write is not modelled, so `KeyboardProperties.Valid` holds only for states reached through the input method's own operations.
- `onText`, `swipeLeft` and `swipeUp` do nothing. `swipeRight` and `swipeDown` only call `switchLanguage` and `requestHideSelf`, so they are not modelled separately.
- MainActivity.kt, KeyboardPreferences.kt and CustomKeyboardView.kt are not part of this model. They hold the settings screen, the preference wrapper with its colour themes, and an empty `onDraw`.
- Persistence is not modelled. The preference store is an in-memory map keyed by slot index, not by the string `clip_i`, and the asynchronous write of `apply()` is ignored.
- A `null` from `getTextBeforeCursor` is treated like empty text. The source handles both alike with `isNullOrEmpty`.
- A second `onCreateInputView` is not modelled. It resets the layout to the language's one and builds four fresh, unshifted `Keyboard` objects (KeyboardIME.kt:71-76), while `caps`, `capsLock`, `ctrlPressed` and `altPressed` keep their values. This affects only what is shown.
- The nullable `keyboard` field before the input view exists is not modelled: the class is created with its layout already chosen.
- TextUnits.IsLetter: recognises only the ASCII Latin letters and the Cyrillic block U+0400..U+045F, not every Unicode letter that `Character.isLetter` accepts.
- TextUnits.ToUpper: upper-cases only those letters. Other scripts are left unchanged, and `Character.toUpperCase` would change some of them.
- TextUnits.IsWhitespace: a fixed table of the JVM's whitespace units (Unicode 6.3 or later), not the platform's own Unicode tables.
