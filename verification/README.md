# Raw-input keyboard sink: key labels and the release filter

The program registers a message-only window for raw keyboard input and, for
every `WM_INPUT` message, decides in its window procedure `wind_proc` whether
to print a "Key pressed" line. The line carries the label that `key_to_string`
gives the virtual-key code, together with the event's flags. This project
models those two pieces of decision logic as pure Dafny functions and proves
what they do.

- `prelude.dfy` (module `Prelude`): `u8`, `u16` and `u32` as range-checked
  newtypes, Rust's `as u8` narrowing, and an `Option` type.
- `key_labels.dfy` (module `KeyLabels`): `KeyToString`, the label of a 16-bit
  virtual-key code. Letters `0x41..=0x5A` print as `A`..`Z` and digits
  `0x30..=0x39` as `0`..`9`. Eight named keys print as words. Every other code
  prints as the sentinel "Unknown". The byte arithmetic of the letter and digit
  arms is written in `u8`, so Dafny itself checks that it never overflows.
  `NamedKeys` is a separate table of the named keys. `CodeOf` reads a label
  back to its code. Lemmas tie the three together: the table agrees with
  `KeyToString`, labels round-trip in both directions, labels are injective,
  and there are exactly 44 recognised codes (26 letters, 10 digits, 8 named
  keys).
- `wind_proc.dfy` (module `WindProc`): `Classify`, the outcome of one call of
  the window procedure. An outcome is one of three things. `Dropped` prints
  nothing and returns 0. `Printed` prints one line and falls through to
  `DefWindowProcA`. `PassedOn` prints nothing and falls through.

The code treats only flags exactly equal to 1 (`RI_KEY_BREAK`) as a key
release. The model follows the code here, not the wider wording "a release
event produces no output". See "## Findings".

## Model

| member | source | states |
|---|---|---|
| Prelude.NarrowToU8 | src/main.rs:122-123 | `as u8` keeps a code below 0x100 unchanged and never makes it larger |
| KeyLabels.LetterByte | src/main.rs:122 | for a letter code, `key as u8 - 0x41 + b'A'` does not overflow u8 and gives the byte `'A' + (k - 0x41)`, which lies in `'A'..='Z'` |
| KeyLabels.DigitByte | src/main.rs:123 | for a digit code, `key as u8 - 0x30 + b'0'` does not overflow u8 and gives the byte `'0' + (k - 0x30)`, which lies in `'0'..='9'` |
| KeyLabels.KeyToString | src/main.rs:120-134 | total on all 16-bit codes and never empty; a letter code gives the one-character string `'A' + (k - 0x41)`, a digit code gives `'0' + (k - 0x30)` |
| KeyLabels.FindLabel | src/main.rs:124-131 | table lookup by code: no result exactly when no row has the code, and otherwise the label of a row with that code |
| KeyLabels.FindCode | src/main.rs:124-131 | table lookup by label: no result exactly when no row has the label, and otherwise the code of a row with that label |
| KeyLabels.CodeOf | src/main.rs:120-133 | reading a label back only ever yields one of the recognised codes |
| KeyLabels.NamedCodesWellFormed | src/main.rs:124-131 | the eight named codes are distinct and none lies in the letter or digit range |
| KeyLabels.NamedLabelsWellFormed | src/main.rs:124-131 | the eight named labels are distinct, each is longer than one character, and none is "Unknown" |
| KeyLabels.NamedArmsMatchTable | src/main.rs:124-132 | outside the letter and digit ranges, the label is the table entry for the code, or "Unknown" when the table has none |
| KeyLabels.NamedKeyLabel | src/main.rs:124-131 | each named key's code is printed as that key's word: 0x0D "Enter", 0x10 "Shift", 0x11 "Ctrl", 0x12 "Alt", 0x14 "Caps lock", 0x08 "Backspace", 0x20 "Space", 0x1B "Escape" |
| KeyLabels.NamedKeyReadBack | src/main.rs:124-131 | reading back a named key's word gives that key's code |
| KeyLabels.UnknownExactlyWhenUnrecognised | src/main.rs:120-133 | the label is "Unknown" if and only if the code is not recognised |
| KeyLabels.LabelLength | src/main.rs:122-131 | the label is one character if and only if the code is a letter or digit code |
| KeyLabels.LabelRoundTrip | src/main.rs:120-133 | reading back the label of a recognised code gives that code; reading back "Unknown" gives nothing |
| KeyLabels.CodeRoundTrip | src/main.rs:120-133 | every string that reads back as a code is exactly the label printed for that code |
| KeyLabels.LabelsInjective | src/main.rs:122-131 | two recognised codes with the same label are the same code |
| KeyLabels.RecognisedCount | src/main.rs:121-131 | exactly 44 codes are recognised |
| WindProc.Classify | src/main.rs:22-59 | a keyboard `WM_INPUT` event is dropped if and only if its flags equal 1; it is printed with `key_to_string(vkey)` and its flags if and only if the flags differ from 1; nothing else is dropped or printed |
| WindProc.ClassifyObservable | src/main.rs:46-59 | each call prints at most one line, which carries the key's label and flags; only a dropped keyboard event skips the default procedure |
| WindProc.NonKeyboardPassesOn | src/main.rs:22-59 | a non-`WM_INPUT` message, or raw input from a non-keyboard device, prints nothing and reaches the default procedure |
| WindProc.OtherMessagesIgnorePayload | src/main.rs:22 | for a message other than `WM_INPUT`, the outcome does not depend on the raw-input payload |
| WindProc.ClassifyByBreakBit | src/main.rs:50-53 | the intended filter: a keyboard event is dropped if and only if its break bit is set |
| WindProc.IntendedFilterPrintsOnlyPresses | src/main.rs:50-55 | under the intended filter, no printed line carries the break bit, and a release prints nothing |
| WindProc.FiltersDisagreeOnPrefixedReleases | src/main.rs:50-55 | the written and intended filters differ exactly on keyboard releases whose flags have the break bit and are not equal to 1 |
| WindProc.ExtendedReleaseIsPrinted | src/main.rs:50-55 | the right Ctrl release (vkey 0x11, flags 3) is printed as the press "Ctrl" by the written filter and dropped by the intended one |

## Left out

- Window-class registration, message-only window creation and `RegisterRawInputDevices` (src/main.rs:62-108): one-shot operating-system calls with no decision logic.
- The `GetMessageA` / `TranslateMessage` / `DispatchMessageA` loop (src/main.rs:110-117): a blocking message pump whose end is decided by the operating system. Each call of `Classify` models one dispatched message.
- The two `GetRawInputData` calls, the buffer sizing and the reinterpretation of bytes as `RAWINPUT` (src/main.rs:23-44): foreign calls and raw memory layout. The decoded header type, virtual-key code and flags are the model's input, as `RawInput`.
- `println!` formatting and console output (src/main.rs:55, 72, 91, 100): a printed line is modelled as the value `KeyLine(label, flags)`, not as text.
- `DefWindowProcA`: opaque. An outcome records only whether the message reaches it, not what it returns.
- Wrap-around of `u8` arithmetic in a Rust release build: the model uses checked `u8` arithmetic, as a debug build does. The matched ranges never reach an overflow, so the two behaviours agree wherever the letter and digit arms run.

## Findings

| source | as written | input that shows it | evidently intended | confidence | as-written member | corrected member |
|---|---|---|---|---|---|---|
| src/main.rs:50 | a keyboard event counts as a release only when `flags == 1` | right Ctrl released: vkey 0x11, flags 3 (`RI_KEY_BREAK` and `RI_KEY_E0`) is printed as "Key pressed: Ctrl" | drop every event whose `RI_KEY_BREAK` bit is set, as the comment on the branch says | medium, not executed | WindProc.ExtendedReleaseIsPrinted | WindProc.IntendedFilterPrintsOnlyPresses |
