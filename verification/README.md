# hotkeyz key-sequence compiler, modelled in Dafny

hotkeyz drives the Windows keyboard from short key-sequence strings such as
`aBc`, `<ctrl+c>`, `<lt>` or `<win+>23<win->`. Its core compiler,
`parse_str` in `src/keyboard.rs`, turns such a string into a list of key
events (`KeyDown(vk)` / `KeyUp(vk)` on 8-bit virtual-key codes). It reads
the string one character at a time:

- Outside `<...>`, every character is typed as a literal. Shift is pressed
  or released around it as its layout entry requires.
- Inside a bracket, key names are collected together with the `+` and `-`
  separators that follow them. At `>` the group is emitted in one of three
  forms:
  - a single name, typed like a literal;
  - a trailing-operator list such as `<win+>`, one bare press or release per
    name;
  - a combination such as `<ctrl+c>`: press all names in order, then release
    them in reverse order.

The same compiler feeds two other operations. Hotkey registration reads the
leading presses of the compiled events as modifier flags plus one main key.
Waiting for keys to come up reduces the compiled events to a set of distinct
keys.

The model is organised as follows:

- `key_types.dfy`:
  - the event type and the virtual-key constants;
  - the modifier classes;
  - the `KeyState` bookkeeping record, with its press and release updates.
- `key_names.dfy`:
  - the key-name table and the escape table;
  - character resolution (`parse_char`, with the platform's layout lookup
    passed in as the function `scan`);
  - key-name resolution (`parse_part`).
- `key_emit.dfy`: the three `push_key_*` helpers as methods, and the event
  sequences that the group forms produce.
- `key_parser.dfy`:
  - the compiler as a state machine (`Step` and `Run`) whose fold over the
    string is `Compile`;
  - `ParseStr`, the loop of `parse_str`, proved to return `Compile`.
- `key_parser_props.dfy`: what each input form compiles to, stated for all
  inputs.
- `key_parser_examples.dfy`: concrete strings under a US layout.
- `hotkey.dfy`, `hotkey_props.dfy`, `hotkey_examples.dfy`:
  - the hotkey fold, as the loop `HotkeyFold`, proved equal to the
    declarative `HotkeyOf`;
  - the properties of `HotkeyOf`.
- `wait_keys.dfy`: the key set of `wait_keys_up`, as a loop proved equal to a
  set comprehension.

Integers are modelled as follows:

- Virtual-key codes are a `newtype` over 0..255.
- The layout lookup's result is a signed 16-bit `newtype`.
- Hotkey flags are `bv32`, with the platform's values: `MOD_ALT` = 1,
  `MOD_CONTROL` = 2, `MOD_SHIFT` = 4, `MOD_WIN` = 8.
- `parse_char` decodes with Euclidean `%` and `/` by powers of two. For
  those divisors this equals the source's two's-complement masks `& 0xFF` and
  `& 0x0100`.

Details of the code's behaviour that the model keeps as written:

- An unterminated `<` group at the end of the input is dropped without an
  error (`UnclosedGroupEmitsNothing`, `UnclosedGroupDropped`).
- `<ctrl+->` fails at the separator check, "expected key name before '+' or
  '-'". It does not fail as a mixed-operator group.
- `push_key_up` clears the slot of the key's class even when a different key
  of that class was recorded.
- Shift that literal typing pressed stays held at the end of the input: `A`
  compiles to Down(shift), Down(a), Up(a).
- The hotkey fold detects a second main key through its `vk != 0` check. A
  main key with code 0 therefore does not count as seen (`AcceptedMains`).

## Model

| member | source | states |
|---|---|---|
| KeyTypes.ModifierOf | src/keyboard.rs:513-527 | A key belongs to the shift, ctrl, alt or win class exactly when the matching `is_*_key` holds. It has no class exactly when none holds, so the four predicates are pairwise disjoint. |
| KeyTypes.KeyState.WithSlot | src/keyboard.rs:314-332 | Setting one slot of the bookkeeping record sets that slot and leaves the other three as they were. |
| KeyTypes.PressedTouchesOnlyItsClass | src/keyboard.rs:529-543 | A press records the key in the slot of its own class and changes no other slot. A key of no class changes nothing. |
| KeyTypes.ReleasedTouchesOnlyItsClass | src/keyboard.rs:545-559 | A release clears the slot of the key's class, whatever key it held, and changes no other slot. |
| KeyTypes.ReplayAppend | src/keyboard.rs:529-559 | Applying the bookkeeping of two event runs in turn is applying it to their concatenation. |
| KeyNames.KeyNameToVk | src/keyboard.rs:184-307 | Every name in the key-name table is at least two characters long, so a one-character token never hits the table. |
| KeyNames.EscapeNamesAreNotKeyNames | src/keyboard.rs:184-311 | `lt`, `gt`, `minus` and `plus` are not in the key-name table, so the escape table is reached for them. |
| KeyNames.ParseChar | src/keyboard.rs:454-465 | Resolving a character fails exactly when the layout lookup returns -1, and then with the scan error for that character. |
| KeyNames.ParseCharDecodes | src/keyboard.rs:462-463 | For any lookup result other than -1, the virtual key is its low byte and the shift flag is bit 8, whatever the higher bits hold. |
| KeyNames.Utf8LengthIsOne | src/keyboard.rs:498 | A token's UTF-8 byte length is 1 exactly when it is one ASCII character. So a single non-ASCII character fails the length check. |
| KeyNames.ParsePartCases | src/keyboard.rs:489-511 | Key-name resolution covers five cases: (1) the empty token fails with "expected key name"; (2) a table name gives its code without shift; (3) an escape name resolves its character; (4) a one-byte token resolves its character; (5) every other token fails as an unknown key name. |
| KeyEmit.PushKeyDown | src/keyboard.rs:529-543 | Appends exactly one press of the key and records it in its class slot. |
| KeyEmit.PushKeyUp | src/keyboard.rs:545-559 | Appends exactly one release of the key and clears its class slot. |
| KeyEmit.PushKeyDownAndUp | src/keyboard.rs:467-486 | Appends the literal typing of the key, with its shift adjustment, and updates the shift slot. |
| KeyEmit.LiteralTyping | src/keyboard.rs:467-486 | Literal typing ends with the key's down/up pair. Shift is pressed first only when the key needs shift and shift is not held. It is released first, using the recorded key, only when the key needs no shift and shift is held. Afterwards the shift slot is clear when the key needs no shift, keeps the held key when shift was already held, and otherwise records the generic shift key that a later unshifted character releases. No other slot changes. |
| KeyEmit.ComboEventsFlat | src/keyboard.rs:419-429 | A combination presses every key in listed order and then releases every key in reverse order. |
| KeyEmit.ComboReleasesItsModifiers | src/keyboard.rs:419-429 | After a combination, the slot of every class it names is cleared. Every other slot is unchanged. |
| KeyParser.ParseStr | src/keyboard.rs:334-433 | The compiler loop returns exactly `Compile`, the fold of the one-character transition over the string, including every error. Its loop invariant keeps one separator per resolved name inside a bracket, which is why the two length `assert_eq!`s never fire. |
| KeyParser.RunFrom | src/keyboard.rs:343 | Compiling from position i is one transition on character i, then compiling from i + 1. An error stops the fold. |
| KeyParser.AllPlus | src/keyboard.rs:413-417 | The combination check passes exactly when no separator is `-`. |
| KeyParser.EmitOps | src/keyboard.rs:398-408 | A trailing-operator group appends, per name in order, a press for `+` or a release for `-`. The bookkeeping follows those events. |
| KeyParser.EmitCombo | src/keyboard.rs:419-429 | A combination group appends the nested combination events of its names. The bookkeeping follows those events. |
| KeyParserProperties.RunAppend | src/keyboard.rs:343-431 | Compiling a concatenation compiles the first part, then the second from where the first stopped. |
| KeyParserProperties.RunToken | src/keyboard.rs:357-362 | Inside a bracket, non-delimiter characters only extend the pending name. |
| KeyParserProperties.RunTokenAndSeparator | src/keyboard.rs:364-377 | A name followed by `+` or `-` adds one resolved part and one separator. |
| KeyParserProperties.RunSeparated | src/keyboard.rs:357-377 | A sequence of names, each followed by its separator, adds all their resolved parts and all their separators, in order. |
| KeyParserProperties.RunGroupBody | src/keyboard.rs:344-377 | After `<` and such a sequence, the machine is inside the bracket, holding those parts and separators. |
| KeyParserProperties.Pluses | src/keyboard.rs:413-417 | The separators of a combination are n `+` signs, with no `-` among them. |
| KeyParserProperties.CloseAfterLast | src/keyboard.rs:364-368 | At `>`, a pending last name is resolved and added before the group closes. |
| KeyParserProperties.Combination | src/keyboard.rs:411-430 | `<k1+...+kn>`, for n >= 2 valid names, emits the nested combination events of their codes: Down k1 ... Down kn, then Up kn ... Up k1. Shift flags are ignored, the bookkeeping follows the events, and the bracket is closed. |
| KeyParserProperties.MinusInCombinationFails | src/keyboard.rs:411-417 | A combination with any `-` separator fails, as `<ctrl-c>` does. |
| KeyParserProperties.TrailingOperators | src/keyboard.rs:398-409 | When every name is followed by a separator, one press or release per name is emitted, in order, and nothing else. |
| KeyParserProperties.SingleName | src/keyboard.rs:385-396 | A single-name group types its key exactly as a literal character would be typed. |
| KeyParserProperties.SeparatorNeedsKey | src/keyboard.rs:370-375 | A separator right after `<` or right after another separator fails with "expected key name before '+' or '-'". |
| KeyParserProperties.EmptyGroupFails | src/keyboard.rs:380-383 | `<>` fails with "expect key name after '<'". |
| KeyParserProperties.UnclosedGroupEmitsNothing | src/keyboard.rs:343-362 | Inside a bracket that no `>` closes, no event is emitted and the bookkeeping is unchanged. So an unterminated group at the end of the input is dropped. |
| KeyParserProperties.ShiftedRun | src/keyboard.rs:344-354 | A run of characters that all need shift presses shift at most once, before the first of them, and never releases it. |
| KeyParserProperties.UnshiftedRun | src/keyboard.rs:344-354 | A run of characters that need no shift, typed while shift is up, emits just their down/up pairs. |
| KeyParserProperties.RunThen | src/keyboard.rs:343 | Compiling two pieces in turn is compiling their concatenation. |
| KeyParserProperties.RunOne | src/keyboard.rs:343 | Compiling one character is one transition. |
| KeyParserProperties.RunSnoc | src/keyboard.rs:343 | Compiling one more character is one more transition. |
| KeyParserExamples.MixedCaseTyping | src/keyboard.rs:565-568 | `aBc` emits a, then shift pressed around B, then shift released before c. |
| KeyParserExamples.ShiftLeftHeld | src/keyboard.rs:473-476 | `A` presses shift and leaves it held at the end of the input. |
| KeyParserExamples.ExampleTokens | src/keyboard.rs:489-511 | `ctrl`, `win` and `c` resolve to the ctrl, left-win and C codes. |
| KeyParserExamples.CtrlCEvents | src/keyboard.rs:419-429 | The combination events of ctrl and c are Down ctrl, Down c, Up c, Up ctrl. |
| KeyParserExamples.CtrlC | src/keyboard.rs:411-430 | `<ctrl+c>` compiles to Down ctrl, Down c, Up c, Up ctrl. |
| KeyParserExamples.CtrlMinusC | src/keyboard.rs:413-417 | `<ctrl-c>` fails because a combination cannot contain `-`. |
| KeyParserExamples.LoneSeparator | src/keyboard.rs:370-375 | `<+>` fails at the separator check. |
| KeyParserExamples.DoubleSeparator | src/keyboard.rs:370-375 | `<ctrl+->` fails at the separator check. |
| KeyParserExamples.NoKeyInGroup | src/keyboard.rs:380-383 | `<>` fails with no key name. |
| KeyParserExamples.PressWin | src/keyboard.rs:398-408 | `<win+>` presses left-win and records it. |
| KeyParserExamples.TypeDigits | src/keyboard.rs:344-354 | `23`, typed while win is held, emits the two down/up pairs. |
| KeyParserExamples.ReleaseWin | src/keyboard.rs:398-408 | `<win->` releases left-win and clears its slot. |
| KeyParserExamples.PressWinAndType | src/keyboard.rs:343-408 | `<win+>23` presses win and then types 2 and 3. |
| KeyParserExamples.WinHeldWhileTyping | src/keyboard.rs:583-587 | `<win+>23<win->` presses win, types 2 and 3 while win is held, then releases win. |
| KeyParserExamples.EscapedLessThan | src/keyboard.rs:571-575 | `<lt>` types `<`, which is shift with the comma key. |
| KeyParserExamples.UnclosedGroupDropped | src/keyboard.rs:343-362 | `a<ctrl` emits only a; the open group is dropped. |
| KeyParserExamples.NonAsciiToken | src/keyboard.rs:498-500 | `<é>` fails as an unknown key name: the character is one character long but two UTF-8 bytes. |
| Hotkeys.CountAppend | src/keyboard.rs:96-127 | The number of keys of a class in a concatenation is the sum of the numbers in the two parts. |
| Hotkeys.MainsAppend | src/keyboard.rs:122-127 | The main keys of a concatenation are those of the first part followed by those of the second. |
| Hotkeys.CountPositive | src/keyboard.rs:96-121 | A class is counted exactly when some pressed key belongs to it. |
| Hotkeys.ModifierFlags | src/keyboard.rs:96-121 | Each flag of the hotkey is set exactly when a key of its class is pressed. No bit outside the four flags is ever set. |
| Hotkeys.DownsStopAtRelease | src/keyboard.rs:95-130 | The fold reads the presses up to the first release and nothing after it. |
| Hotkeys.SnocCount | src/keyboard.rs:96-121 | One more key raises the count of its own class by one and no other count. |
| Hotkeys.SnocMains | src/keyboard.rs:122-127 | One more key is a main key exactly when it has no class. |
| Hotkeys.ModifiersSnoc | src/keyboard.rs:96-121 | One more key of a class ORs that class's flag into the flags so far. |
| Hotkeys.RecordClass | src/keyboard.rs:96-121 | Recording the first key of a class in its slot keeps every slot set exactly for the classes seen. |
| Hotkeys.RecordModifier | src/keyboard.rs:96-121 | Recording the first key of a class keeps the fold invariant, with the class's flag added. |
| Hotkeys.RecordMain | src/keyboard.rs:122-127 | Recording a main key while none is recorded keeps the fold invariant. |
| Hotkeys.SecondOfClass | src/keyboard.rs:97-119 | A second key of an already recorded class makes the hotkey invalid, whatever follows. |
| Hotkeys.SecondMain | src/keyboard.rs:123-125 | A second main key, after a non-zero one, makes the hotkey invalid, whatever follows. |
| Hotkeys.FoldDone | src/keyboard.rs:133-135 | When the presses run out, the hotkey is the recorded flags and main key. If no main key was recorded, it is invalid. |
| Hotkeys.HotkeyFold | src/keyboard.rs:90-135 | The fold returns exactly `HotkeyOf` of the events: the flags of the classes pressed and the one main key, or "Invalid hotkey". |
| Hotkeys.ParseHotkey | src/keyboard.rs:89-135 | Hotkey text gives the compiler's error, or the fold's verdict on the compiled events. |
| HotkeyProperties.AcceptedHotkey | src/keyboard.rs:90-135 | An accepted hotkey's key is a pressed, non-zero key of no class. No class was pressed twice, and each flag is set exactly when its class was pressed. |
| HotkeyProperties.MainsAreKeys | src/keyboard.rs:122-127 | Every main key is a pressed key of no class. |
| HotkeyProperties.ModifierAndKey | src/keyboard.rs:90-135 | One modifier followed by one non-zero main key gives that class's flag with that key. |
| HotkeyProperties.ComboDowns | src/keyboard.rs:419-429 | The fold reads every press of a combination: all of them come before its first release. |
| HotkeyProperties.ComboHotkey | src/keyboard.rs:90-135 | A combination registers as the hotkey of exactly the keys it names. |
| HotkeyExamples.CtrlY | src/keyboard.rs:589-597 | The events of `<ctrl+y>` give MOD_CONTROL with Y. |
| HotkeyExamples.CtrlCText | src/keyboard.rs:89-135 | The text `<ctrl+c>` compiles to its combination, which gives MOD_CONTROL with C. |
| HotkeyExamples.ModifiersOnly | src/keyboard.rs:133-135 | The presses of `<ctrl+alt+>` alone give no main key, so the hotkey is invalid. |
| HotkeyExamples.CtrlTwice | src/keyboard.rs:104-109 | Left ctrl followed by generic ctrl is a repeated class, so the hotkey is invalid. |
| HotkeyExamples.TwoMainKeys | src/keyboard.rs:123-125 | Two main keys are invalid. |
| HotkeyExamples.ReleaseEndsTheHotkey | src/keyboard.rs:128-130 | Only the presses before the first release are read. |
| WaitKeys.KeysTouched | src/keyboard.rs:63-69 | A key is in the set exactly when the events press or release it. |
| WaitKeys.KeySet | src/keyboard.rs:63-69 | The set-building loop returns exactly the keys the events touch. |
| WaitKeys.KeysTouchedAppend | src/keyboard.rs:63-69 | The keys of concatenated events are the union of the keys of each part. |
| WaitKeys.KeysTouchedIgnoresOrder | src/keyboard.rs:63-69 | Event sequences with the same events have the same keys, whatever the order or the repetition. |
| WaitKeys.ComboTouchesItsKeys | src/keyboard.rs:419-429 | A combination touches exactly the keys it names. |
| WaitKeys.WaitKeysUp | src/keyboard.rs:61-69 | Waiting for keys gives the compiler's error, or the keys of the compiled events. |

## Left out

- `input_keys` and `input`: sending the events through `SendInput` is platform I/O.
- The polling loop of `wait_keys_up`: `GetAsyncKeyState`, the 1 ms sleeps and the 30-second timeout are platform I/O and a clock. The model stops at the key set.
- The platform half of `hotkey_register`: the global atom, `RegisterHotKey` and their errors. Also `hotkey_unregister` and `hotkey_wait`. These are all calls into the operating system. The model stops at the flags and the key that would be registered.
- `VkKeyScanW`: the layout lookup is the parameter `scan`. Its real table, and the cause of its failures, are not part of this model. The examples fix a US layout for the characters they use. The source passes the character to the lookup truncated to 16 bits (`c as _`), which drops characters above U+FFFF to their low 16 bits; since that truncated value is a function of the character, the abstract `scan` covers it.
- `mod_keys_up`: never called, so it is not modelled.
- The tests at the end of `src/keyboard.rs`: they drive the platform. Their strings appear as examples.
- `src/mouse.rs`, `src/window.rs`, `src/exports.rs`, `src/lib.rs` and the Deno bindings: outside the compiler. They are not part of this model.
- Error messages: they are modelled as one error variant per distinct message, without the message text. Every hotkey error is the single `InvalidHotkey`.
- KeyNames.KeyNameToVk: the table is modelled as a lookup function over its 122 names. Its contract states only the length bound that resolution needs. The entries themselves are data.
- KeyParserProperties.Combination: stated for groups of at least two non-empty names, each free of delimiters. Groups of other shapes are covered by SingleName, TrailingOperators, SeparatorNeedsKey and EmptyGroupFails.
