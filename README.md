# Keybind registry and tick trigger engine

A Dafny model of the core of the *common-utils* client mod: the keybind
editor screen (`KeybindScreen`). The screen holds an ordered list of key
bindings. Each binding pairs one key (stored upper-case) with a chat message,
and may also require Ctrl and/or Shift. The editor's buttons add an entry,
toggle an entry's modifier flags, or delete an entry, and the list is saved
after every change. At the end of every game tick a callback checks the
keyboard. While no screen is open, it sends the message of every binding
whose combination has just been pressed. It fires on the rising edge, using
the set of `key:ctrl:shift` identifiers that were active on the previous
tick. While a screen is open, it clears that set.

Files and modules:

- `java_strings.dfy`, module `JavaStrings`: the Java string operations the code relies on: `toUpperCase`, `toLowerCase`, `length()` in UTF-16 code units, and the text of a boolean in string concatenation.
- `entries.dfy`, module `Entries`: the `Entry` record and its `key:ctrl:shift` identifier, with a proof that the identifier is injective. It also holds the "Bind Key" validation and the add, toggle and remove edits as functions on the list.
- `trigger.dfy`, module `Trigger`: the input snapshot and what one unblocked tick computes. `Firing` gives the positions of the entries that send, in send order. `ActiveIds` gives the identifiers remembered for the next tick. The lemmas state the edge-triggering properties.
- `keybind_screen.dfy`, module `Screen`: the class `KeybindScreen`. Its fields are `keybinds` (a `seq`), `keysPressed` (a `set`) and a ghost log of saved lists. Its methods are the button callbacks and the `Tick` loop, each proved against the functions above. The module ends with a client scenario.

The host is abstracted to an `Input` value with three parts:

- whether a screen is open;
- the set of GLFW key codes held down;
- the host's lookup from a translation key such as `key.keyboard.r` to a key code.

The source does not show what the host returns for a key name it cannot
resolve. The model assumes code -1, which never counts as pressed (see
"## Left out"). `Tick` returns the messages it would send instead of calling
the host's chat-send function.

## Model

| member | source | states |
|---|---|---|
| `JavaStrings.BoolToString` | src/main/java/com/commonutils/KeybindScreen.java:96 | the text string concatenation gives a boolean, "true" or "false" (a definition, no contract) |
| `JavaStrings.SpecialUpper` | src/main/java/com/commonutils/KeybindScreen.java:62 | the table of upper-case mappings that expand one character into several: the sharp s, the Latin letters and ligatures, and the Armenian ligatures (a definition, no contract) |
| `JavaStrings.SpecialUpperStable` | src/main/java/com/commonutils/KeybindScreen.java:62 | each expanding mapping yields at least two BMP characters, none of which upper-casing changes again |
| `JavaStrings.UpperChar` | src/main/java/com/commonutils/KeybindScreen.java:62 | a small ASCII letter upper-cases to its capital; a character upper-cases to exactly one character unless it has an expanding mapping; every output character is stable under upper-casing; a non-expanding character stays in or out of the BMP |
| `JavaStrings.ToUpperCase` | src/main/java/com/commonutils/KeybindScreen.java:62 | `toUpperCase` never shortens a string, and its result holds only characters that upper-casing leaves alone; for a string without expanding characters it keeps the length and maps each small ASCII letter to its capital and every other character to itself |
| `JavaStrings.ToLowerCase` | src/main/java/com/commonutils/KeybindScreen.java:85 | `toLowerCase` keeps the length, turns each ASCII capital into its small letter (code + 32), leaves no ASCII capital, and changes nothing else |
| `JavaStrings.Utf16Length` | src/main/java/com/commonutils/KeybindScreen.java:64 | `length()` lies between the number of characters and twice that number |
| `JavaStrings.StableUnchanged` | src/main/java/com/commonutils/KeybindScreen.java:62 | a string of characters that upper-casing leaves alone is its own upper case |
| `JavaStrings.ToUpperCaseIdempotent` | src/main/java/com/commonutils/KeybindScreen.java:62 | upper-casing an upper-cased key changes nothing, so stored keys are upper-case |
| `JavaStrings.Utf16LengthOne` | src/main/java/com/commonutils/KeybindScreen.java:64 | `length()` equals 1 exactly for one BMP character |
| `JavaStrings.UpperCaseIsOneUnit` | src/main/java/com/commonutils/KeybindScreen.java:62-64 | for the modelled upper-casing, `toUpperCase().length() == 1` holds exactly for one BMP character without an expanding mapping |
| `Entries.NewEntry` | src/main/java/com/commonutils/KeybindScreen.java:179-189 | a new entry keeps the given key and message and requires neither Ctrl nor Shift |
| `Entries.Id` | src/main/java/com/commonutils/KeybindScreen.java:96 | the identifier `key:ctrl:shift` of an entry (a definition, no contract; its meaning is in `IdInjective`) |
| `Entries.IdInjective` | src/main/java/com/commonutils/KeybindScreen.java:96 | two entries have the same `key:ctrl:shift` identifier exactly when they agree on key, Ctrl flag and Shift flag |
| `Entries.Flip` | src/main/java/com/commonutils/KeybindScreen.java:120-134 | flipping keeps key and message and changes exactly the chosen flag |
| `Entries.FlipChangesId` | src/main/java/com/commonutils/KeybindScreen.java:120-134 | toggling a modifier gives the entry an identifier different from the one it had |
| `Entries.AcceptsBinding` | src/main/java/com/commonutils/KeybindScreen.java:62-64 | the "Bind Key" test: the upper-cased key has `length()` 1 and the message is not empty (a definition, no contract; its meaning is in `AcceptsBindingIff`) |
| `Entries.AcceptsBindingIff` | src/main/java/com/commonutils/KeybindScreen.java:62-64 | for the modelled upper-casing, "Bind Key" accepts exactly a one-character BMP key without an expanding upper-case mapping, together with a non-empty message |
| `Entries.AddBinding` | src/main/java/com/commonutils/KeybindScreen.java:62-65 | a rejected add leaves the list unchanged. An accepted add keeps every earlier entry and appends one entry. Its key is the upper-cased typed key, which is a single character that upper-casing leaves unchanged. Its message is the given non-empty message, and it requires no modifiers |
| `Entries.ToggleAt` | src/main/java/com/commonutils/KeybindScreen.java:120-134 | a toggle keeps the length and every other entry, and inverts exactly the chosen flag of the chosen entry |
| `Entries.ToggleTwice` | src/main/java/com/commonutils/KeybindScreen.java:122 | toggling the same flag of the same entry twice restores the list |
| `Entries.RemoveAt` | src/main/java/com/commonutils/KeybindScreen.java:137 | removal shortens the list by one and keeps the other entries in their relative order; the multiset of entries loses exactly the removed one |
| `Trigger.TranslationKey` | src/main/java/com/commonutils/KeybindScreen.java:85 | the lookup name is `key.keyboard.` followed by the key character by character with each ASCII capital lowered, so no ASCII capital is left |
| `Trigger.TranslationKeyIgnoresCase` | src/main/java/com/commonutils/KeybindScreen.java:85 | two key names are looked up under the same name exactly when they have the same length and agree up to the case of ASCII letters |
| `Trigger.LetterKeyLookup` | src/main/java/com/commonutils/KeybindScreen.java:62-85 | a letter typed in either case is stored as the same capital, and that stored key is looked up as `key.keyboard.` plus the small letter |
| `Trigger.IsKeyPressed` | src/main/java/com/commonutils/KeybindScreen.java:86 | a code counts as held when the host reports it held; the assumed unknown-key code -1 never does (a definition, no contract) |
| `Trigger.KeyDown` | src/main/java/com/commonutils/KeybindScreen.java:85-86 | the entry's key counts as held when its looked-up code is held (a definition, no contract) |
| `Trigger.ShiftDown` | src/main/java/com/commonutils/KeybindScreen.java:87 | Shift counts as held when GLFW key 340 or 344 is held (a definition, no contract) |
| `Trigger.CtrlDown` | src/main/java/com/commonutils/KeybindScreen.java:88 | Ctrl counts as held when GLFW key 341 or 345 is held (a definition, no contract) |
| `Trigger.Matches` | src/main/java/com/commonutils/KeybindScreen.java:90-98 | an entry matches when its key is held, Shift is held if it requires Shift, and Ctrl is held if it requires Ctrl (a definition, no contract; its meaning is in `Firing` and `ActiveIds`) |
| `Trigger.Fires` | src/main/java/com/commonutils/KeybindScreen.java:98-100 | an entry fires when it matches and its identifier was not active on the previous tick (a definition, no contract; its meaning is in `Firing`) |
| `Trigger.Firing` | src/main/java/com/commonutils/KeybindScreen.java:84-103 | the positions whose messages are sent are strictly increasing (list order), and a position is among them exactly when its entry's key is held, its required Shift and Ctrl are held, and its identifier was not active on the previous tick |
| `Trigger.Messages` | src/main/java/com/commonutils/KeybindScreen.java:101 | the messages of the entries at the given positions, in that order (a definition, no contract) |
| `Trigger.ActiveIds` | src/main/java/com/commonutils/KeybindScreen.java:96-106 | an identifier is remembered for the next tick exactly when some entry with that identifier matches the current input |
| `Trigger.NoneFiring` | src/main/java/com/commonutils/KeybindScreen.java:98-102 | when no entry fires, nothing is sent |
| `Trigger.SameIdSameMatch` | src/main/java/com/commonutils/KeybindScreen.java:90-98 | entries sharing an identifier match the same inputs |
| `Trigger.NoRefireWhileHeld` | src/main/java/com/commonutils/KeybindScreen.java:98-106 | a second unblocked tick with the same input sends nothing |
| `Trigger.RearmAfterRelease` | src/main/java/com/commonutils/KeybindScreen.java:98-106 | an entry that did not match on one tick fires on the next tick in which it matches |
| `Trigger.RearmAfterBlocked` | src/main/java/com/commonutils/KeybindScreen.java:105-108 | after a tick with a screen open, an entry fires exactly when it matches |
| `Trigger.DuplicatesFireTogether` | src/main/java/com/commonutils/KeybindScreen.java:84-100 | when one entry fires, every entry with the same identifier fires on the same tick |
| `Trigger.CtrlDisambiguation` | src/main/java/com/commonutils/KeybindScreen.java:87-98 | of two entries on one held key, the unmodified one fires, and the one requiring Ctrl fires exactly when Ctrl is held |
| `Trigger.UnresolvedKeyIsInert` | src/main/java/com/commonutils/KeybindScreen.java:85-86 | under the assumed code -1 for an unresolvable key name, such an entry never fires; its identifier is remembered only because of another entry with the same identifier |
| `Screen.KeybindScreen.constructor` | src/main/java/com/commonutils/KeybindScreen.java:32-41 | a new screen holds the loaded bindings, no active identifiers and no saves |
| `Screen.KeybindScreen.Save` | src/main/java/com/commonutils/KeybindScreen.java:157-166 | one save records the whole current list and changes nothing else |
| `Screen.KeybindScreen.Add` | src/main/java/com/commonutils/KeybindScreen.java:61-71 | reports whether the binding was accepted, changes the list as `AddBinding` says, and saves once exactly when it accepted |
| `Screen.KeybindScreen.ToggleCtrl` | src/main/java/com/commonutils/KeybindScreen.java:120-126 | the list becomes `ToggleAt(old list, i, Ctrl)`, the active set is kept, and exactly one save of the new list follows |
| `Screen.KeybindScreen.ToggleShift` | src/main/java/com/commonutils/KeybindScreen.java:128-134 | the list becomes `ToggleAt(old list, i, Shift)`, the active set is kept, and exactly one save of the new list follows |
| `Screen.KeybindScreen.Remove` | src/main/java/com/commonutils/KeybindScreen.java:136-140 | the list becomes `RemoveAt(old list, i)`, the active set is kept, and exactly one save of the new list follows |
| `Screen.KeybindScreen.Tick` | src/main/java/com/commonutils/KeybindScreen.java:79-110 | never changes the list. With a screen open it sends nothing and clears the active set. Otherwise it sends the messages at `Firing` in that order, and the active set becomes `ActiveIds` of the input |
| `Screen.ShiftBindingScenario` | src/main/java/com/commonutils/KeybindScreen.java:61-134 | a Shift+R binding created through the editor sends its message on the press, not while held, not for R without Shift or Shift alone, and again after a release |

## Left out

- JSON persistence: Gson encoding and file I/O are not modelled. `saved` logs every list handed to the writer. A failed write, which the source catches and prints, is not modelled. The constructor takes the loaded list as a parameter. It is given the empty list in three cases: the file is absent, opening it fails with an I/O error (caught at KeybindScreen.java:174), or Gson yields null for an empty file. A malformed file makes Gson throw a syntax exception that the I/O catch does not handle, so no screen is built; that path is not modelled. Loaded entries with a null key or message are not modelled.
- Widget layout, rendering and feedback: the text fields, button dimensions, tooltips, the close button, the "Bound key" chat notice, clearing the fields and rebuilding the widgets with `init()` are user-interface code.
- Host input and dispatch: `InputUtil.fromTranslationKey`, `isKeyPressed` and `sendChatMessage` are host calls. They are replaced by the `Input` snapshot and the returned list of messages. The model assumes that the GLFW state does not change during one callback. The source does not show what `fromTranslationKey(...).getCode()` does for a key name the host does not know. The model assumes it gives code -1, which is never pressed, so such an entry is inert. If the host instead throws for such a name, the exception ends that tick's callback before the later entries are checked and before `keysPressed` is replaced; that path is not modelled.
- Callback registration: registering the tick callback and the `registeredKeyCallback` guard are left out. So is the fact that every `/cu` command builds a new screen (src/main/java/com/commonutils/CommonUtils.java:22), which registers one more callback with its own list. With several callbacks, one press can send a message once per screen built.
- Entries are values. Flipping a flag of the entry object is modelled as replacing the entry at its position. This is equivalent because every entry object is created fresh and occurs once in the list.
- Remove, ToggleCtrl, ToggleShift: these address the entry by position. The source's buttons hold the entry object itself, and `ArrayList.remove(Object)` finds it by identity. Each button exists only for an entry that is in the list, which is the `requires i < |keybinds|`.
- JavaStrings.ToUpperCase: models the ASCII letters and the expanding mappings listed in `SpecialUpper` (sharp s, the Latin letters and ligatures, the Armenian ligatures). It leaves out the other expanding mappings of the Unicode special casings, mainly Greek: the letters with dialytika and tonos U+0390 and U+03B0 (three characters each), and the letters with a breathing mark or iota subscript, such as U+1F80 and U+1FB3. The code rejects those as keys at KeybindScreen.java:64; the model's `AcceptsBinding` accepts them. One-to-one mappings of non-ASCII letters (such as e with acute to its capital) and locale-dependent mappings (such as the Turkish dotted i) are not modelled either; for these the stored key differs from Java's, though the acceptance test does not.
- Entries.AcceptsBindingIff: characterises acceptance only for the modelled upper-casing; a key with one of the Greek expanding mappings above is accepted by the model and rejected by the code.
- JavaStrings.ToLowerCase: lowers ASCII capitals only.
- The key check differs from a plain "one character" rule. The code tests the UTF-16 length of the upper-cased text. So a character whose upper case expands (a sharp s becomes "SS") and any character outside the Basic Multilingual Plane are rejected. For the mappings it models, the model does the same.
