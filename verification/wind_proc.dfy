/**
 The decision the window procedure `wind_proc` (src/main.rs) takes for each
 message it receives.

 The raw-input payload is taken as already decoded into its header type, its
 virtual-key code and its flags; how the bytes are fetched is not modelled.
 `DefWindowProcA` is opaque: an outcome only records whether the message is
 handed on to it.
 */
module WindProc {
  import opened Prelude
  import opened KeyLabels

  /** The window message that announces raw input (`WM_INPUT`). */
  const WmInput: u32 := 0x00FF

  /** Raw-input header type of a keyboard event (`RIM_TYPEKEYBOARD`). */
  const RimTypeKeyboard: u32 := 1

  /** Keyboard flag bits: `RI_KEY_BREAK` (key up) and `RI_KEY_E0` (extended-key prefix). */
  const RiKeyBreak: u16 := 1
  const RiKeyE0: u16 := 2

  /** The fields of a RAWINPUT record the procedure reads. */
  datatype RawInput = RawInput(dwType: u32, vkey: u16, flags: u16)

  /** One "Key pressed" line: the label of the key and the flags it came with. */
  datatype KeyLine = KeyLine(name: string, flags: u16)

  /**
   What one call of the procedure does:
   - `Dropped`: nothing is printed and 0 is returned at once;
   - `Printed(line)`: one line is printed, then the message goes to the default procedure;
   - `PassedOn`: nothing is printed and the message goes to the default procedure.
   */
  datatype Outcome = Dropped | Printed(line: KeyLine) | PassedOn

  /** The lines written to standard output. */
  function Output(o: Outcome): seq<KeyLine> {
    match o
    case Printed(line) => [line]
    case _ => []
  }

  /** Whether `DefWindowProcA` is called and decides the return value. */
  predicate ReachesDefault(o: Outcome) {
    !o.Dropped?
  }

  predicate IsKeyboardInput(msg: u32, raw: RawInput) {
    msg == WmInput && raw.dwType == RimTypeKeyboard
  }

  /**
   The procedure as written: a keyboard event is dropped only when its flags
   are exactly `RI_KEY_BREAK`; `raw` is consulted only for `WM_INPUT`.
   */
  function Classify(msg: u32, raw: RawInput): (o: Outcome)
    ensures o.Dropped? <==> IsKeyboardInput(msg, raw) && raw.flags == RiKeyBreak
    ensures o.Printed? <==> IsKeyboardInput(msg, raw) && raw.flags != RiKeyBreak
    ensures o.Printed? ==> o.line.name == KeyToString(raw.vkey) && o.line.flags == raw.flags
  {
    if msg == WmInput && raw.dwType == RimTypeKeyboard then
      if raw.flags == 1 then Dropped
      else Printed(KeyLine(KeyToString(raw.vkey), raw.flags))
    else PassedOn
  }

  /**
   Every call prints at most one line; a line is printed exactly when the
   message is not dropped and is a keyboard event, and a dropped message is
   the only one that skips the default procedure.
   */
  lemma ClassifyObservable(msg: u32, raw: RawInput)
    ensures |Output(Classify(msg, raw))| <= 1
    ensures !ReachesDefault(Classify(msg, raw)) <==> Output(Classify(msg, raw)) == [] && IsKeyboardInput(msg, raw)
    ensures |Output(Classify(msg, raw))| == 1 ==>
      Output(Classify(msg, raw))[0] == KeyLine(KeyToString(raw.vkey), raw.flags)
  {
  }

  /** A message other than `WM_INPUT`, or raw input from another device, prints nothing and falls through. */
  lemma NonKeyboardPassesOn(msg: u32, raw: RawInput)
    requires !IsKeyboardInput(msg, raw)
    ensures Output(Classify(msg, raw)) == [] && ReachesDefault(Classify(msg, raw))
  {
  }

  /** For a message other than `WM_INPUT` the payload is never looked at. */
  lemma OtherMessagesIgnorePayload(msg: u32, a: RawInput, b: RawInput)
    requires msg != WmInput
    ensures Classify(msg, a) == Classify(msg, b) == PassedOn
  {
  }

  /** Whether the flags carry the key-up bit, whatever the E0/E1 prefix bits say. */
  predicate IsBreak(flags: u16) {
    flags as int % 2 == RiKeyBreak as int
  }

  /**
   The release filter as evidently intended: a keyboard event is dropped
   whenever its `RI_KEY_BREAK` bit is set, so that releases of keys sent with
   an E0 or E1 prefix are dropped too.
   */
  function ClassifyByBreakBit(msg: u32, raw: RawInput): (o: Outcome)
    ensures o.Dropped? <==> IsKeyboardInput(msg, raw) && IsBreak(raw.flags)
    ensures o.Printed? <==> IsKeyboardInput(msg, raw) && !IsBreak(raw.flags)
    ensures o.Printed? ==> o.line == KeyLine(KeyToString(raw.vkey), raw.flags)
  {
    if msg == WmInput && raw.dwType == RimTypeKeyboard then
      if raw.flags % 2 == 1 then Dropped
      else Printed(KeyLine(KeyToString(raw.vkey), raw.flags))
    else PassedOn
  }

  /** Under the intended filter no printed line ever comes from a key release. */
  lemma IntendedFilterPrintsOnlyPresses(msg: u32, raw: RawInput)
    ensures forall line | line in Output(ClassifyByBreakBit(msg, raw)) :: !IsBreak(line.flags)
    ensures IsBreak(raw.flags) ==> Output(ClassifyByBreakBit(msg, raw)) == []
  {
  }

  /**
   The filter as written and the intended one disagree exactly on keyboard
   releases that carry a prefix bit as well: flags that have the break bit
   set but are not exactly `RI_KEY_BREAK`.
   */
  lemma FiltersDisagreeOnPrefixedReleases(msg: u32, raw: RawInput)
    ensures Classify(msg, raw) != ClassifyByBreakBit(msg, raw) <==>
      IsKeyboardInput(msg, raw) && IsBreak(raw.flags) && raw.flags != RiKeyBreak
  {
  }

  /**
   The release of right Ctrl arrives with flags `RI_KEY_BREAK | RI_KEY_E0` = 3.
   The procedure as written prints it as a key press labelled "Ctrl".
   */
  lemma ExtendedReleaseIsPrinted()
    ensures IsBreak(RiKeyBreak + RiKeyE0)
    ensures Classify(WmInput, RawInput(RimTypeKeyboard, 0x11, RiKeyBreak + RiKeyE0))
      == Printed(KeyLine("Ctrl", 3))
    ensures ClassifyByBreakBit(WmInput, RawInput(RimTypeKeyboard, 0x11, RiKeyBreak + RiKeyE0))
      == Dropped
  {
  }
}
