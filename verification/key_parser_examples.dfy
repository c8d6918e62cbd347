/**
 * The compiler on concrete inputs, over a sample character scan with the
 * virtual-key codes of a US keyboard layout.
 */
module KeyParserExamples {
  import opened KeyTypes
  import opened KeyNames
  import opened KeyEmit
  import opened KeyParser
  import opened KeyParserProperties

  /**
   * A US-layout character scan: letters map to their key (upper case needs
   * shift), digits to theirs, `<`, `>` and `+` are shifted punctuation keys,
   * `-` is unshifted; every other character has no key.
   */
  function UsScan(c: char): Short {
    if 'a' <= c <= 'z' then (c as int - 'a' as int + 0x41) as Short
    else if 'A' <= c <= 'Z' then (c as int - 'A' as int + 0x141) as Short
    else if '0' <= c <= '9' then (c as int - '0' as int + 0x30) as Short
    else if c == '<' then 0x1BC
    else if c == '>' then 0x1BE
    else if c == '+' then 0x1BB
    else if c == '-' then 0xBD
    else -1
  }

  const VkA: VirtualKey := 0x41
  const VkB: VirtualKey := 0x42
  const VkC: VirtualKey := 0x43

  /** Literal typing presses shift once for the upper-case letter and releases it before the next lower-case one. */
  lemma MixedCaseTyping()
    ensures Compile(UsScan, "aBc") == Ok([KeyDown(VkA), KeyUp(VkA),
                                          KeyDown(VkShift), KeyDown(VkB), KeyUp(VkB), KeyUp(VkShift),
                                          KeyDown(VkC), KeyUp(VkC)])
  {
    var m1 := Start.(result := Start.result + [KeyDown(VkA), KeyUp(VkA)]);
    var m2 := m1.(result := m1.result + [KeyDown(VkShift), KeyDown(VkB), KeyUp(VkB)],
                  state := InitialKeyState.(shift := VkShift));
    var m3 := m2.(result := m2.result + [KeyUp(VkShift), KeyDown(VkC), KeyUp(VkC)], state := InitialKeyState);
    assert Step(UsScan, Start, 'a') == Ok(m1);
    assert Step(UsScan, m1, 'B') == Ok(m2);
    assert Step(UsScan, m2, 'c') == Ok(m3);
    assert Run(UsScan, m3, []) == Ok(m3);
    assert Run(UsScan, m2, "c") == Ok(m3);
    assert Run(UsScan, m1, "Bc") == Ok(m3);
    assert Run(UsScan, Start, "aBc") == Ok(m3);
    assert m3.result == [KeyDown(VkA), KeyUp(VkA), KeyDown(VkShift), KeyDown(VkB), KeyUp(VkB), KeyUp(VkShift),
                         KeyDown(VkC), KeyUp(VkC)];
  }

  const Ctrl := Resolved(VkControl, false)
  const LWin := Resolved(VkLWin, false)
  const C := Resolved(VkC, false)

  /** The tokens of the examples resolve through the name table or the scan. */
  lemma ExampleTokens()
    ensures Resolves(UsScan, ["ctrl"], [Ctrl])
    ensures Resolves(UsScan, ["win"], [LWin])
    ensures PlainToken("c") && ParsePart(UsScan, "c") == Ok(C)
  {
    assert ParsePart(UsScan, "ctrl") == Ok(Ctrl);
    assert ParsePart(UsScan, "win") == Ok(LWin);
  }

  /** The events of the combination ctrl, c. */
  lemma CtrlCEvents()
    ensures ComboEvents(KeysOf([Ctrl] + [C])) == [KeyDown(VkControl), KeyDown(VkC), KeyUp(VkC), KeyUp(VkControl)]
  {
    assert KeysOf([Ctrl] + [C]) == [VkControl, VkC];
    ComboEventsFlat([VkControl, VkC]);
  }

  /** The combination `<ctrl+c>` nests: ctrl goes down, c goes down and up, ctrl comes up. */
  lemma CtrlC()
    ensures Compile(UsScan, "<ctrl+c>") == Ok([KeyDown(VkControl), KeyDown(VkC), KeyUp(VkC), KeyUp(VkControl)])
  {
    ExampleTokens();
    assert Pluses(1) == [true];
    assert ['<'] + Interleave(["ctrl"], [true]) + "c" + ['>'] == "<ctrl+c>";
    Combination(UsScan, Start, ["ctrl"], "c", [Ctrl], C);
    CtrlCEvents();
    assert Start.result + ComboEvents(KeysOf([Ctrl] + [C])) == ComboEvents(KeysOf([Ctrl] + [C]));
  }

  /** A `-` inside a combination fails: `<ctrl-c>` is not a key sequence. */
  lemma CtrlMinusC()
    ensures Compile(UsScan, "<ctrl-c>") == Err(MinusInCombination)
  {
    ExampleTokens();
    assert ['<'] + Interleave(["ctrl"], [false]) + "c" + ['>'] == "<ctrl-c>";
    MinusInCombinationFails(UsScan, Start, ["ctrl"], [false], "c", [Ctrl], C);
  }

  /** A separator right after `<` fails: `<+>`. */
  lemma LoneSeparator()
    ensures Compile(UsScan, "<+>") == Err(MissingKeyBeforeSeparator)
  {
    var m0 := Start.(inBracket := true, parts := [], seps := []);
    assert Step(UsScan, Start, '<') == Ok(m0);
    SeparatorNeedsKey(UsScan, m0, '+');
    assert "<+>"[1..] == "+>";
    assert Run(UsScan, Start, "<+>") == Run(UsScan, m0, "+>");
  }

  /** A separator right after another separator fails: `<ctrl+->`. */
  lemma DoubleSeparator()
    ensures Compile(UsScan, "<ctrl+->") == Err(MissingKeyBeforeSeparator)
  {
    ExampleTokens();
    var body := ['<'] + Interleave(["ctrl"], [true]) + [];
    RunGroupBody(UsScan, Start, ["ctrl"], [true], [Ctrl], []);
    var m1 := Start.(inBracket := true, part := [], parts := [Ctrl], seps := [true]);
    RunSnoc(UsScan, Start, body, m1, '-');
    SeparatorNeedsKey(UsScan, m1, '-');
    RunAppend(UsScan, Start, body + ['-'], ">");
    assert body + ['-'] + ">" == "<ctrl+->";
  }

  /** A group without any key fails: `<>`. */
  lemma NoKeyInGroup()
    ensures Compile(UsScan, "<>") == Err(MissingKeyAfterBracket)
  {
    EmptyGroupFails(UsScan, Start);
  }

  /** The machine after `<win+>`: the left Windows key is down and recorded in its slot. */
  const WinDown := Machine([KeyDown(VkLWin)], InitialKeyState.(win := VkLWin), false, [], [LWin], [true])

  lemma PressWin()
    ensures Run(UsScan, Start, "<win+>") == Ok(WinDown)
  {
    ExampleTokens();
    TrailingOperators(UsScan, Start, ["win"], [true], [LWin]);
    var down := OpEvents([LWin], [true]);
    assert down == [KeyDown(VkLWin)];
    assert ['<'] + Interleave(["win"], [true]) + ['>'] == "<win+>";
    assert Start.result + down == [KeyDown(VkLWin)];
    ReplaySnoc(Start.state, [], KeyDown(VkLWin));
  }

  /** The machine after `<win+>23`. */
  const WinDownTyped := WinDown.(result := [KeyDown(VkLWin), KeyDown(0x32), KeyUp(0x32), KeyDown(0x33), KeyUp(0x33)])

  lemma TypeDigits()
    ensures Run(UsScan, WinDown, "23") == Ok(WinDownTyped)
  {
    UnshiftedRun(UsScan, WinDown, "23", [0x32, 0x33]);
    assert Pairs([0x32, 0x33]) == [KeyDown(0x32), KeyUp(0x32), KeyDown(0x33), KeyUp(0x33)];
    assert WinDown.result + Pairs([0x32, 0x33]) == WinDownTyped.result;
  }

  lemma ReleaseWin()
    ensures Run(UsScan, WinDownTyped, "<win->")
         == Ok(WinDownTyped.(result := WinDownTyped.result + [KeyUp(VkLWin)], state := InitialKeyState, seps := [false]))
  {
    ExampleTokens();
    TrailingOperators(UsScan, WinDownTyped, ["win"], [false], [LWin]);
    var up := OpEvents([LWin], [false]);
    assert up == [KeyUp(VkLWin)];
    assert ['<'] + Interleave(["win"], [false]) + ['>'] == "<win->";
    ReplaySnoc(WinDownTyped.state, [], KeyUp(VkLWin));
  }

  lemma PressWinAndType()
    ensures Run(UsScan, Start, "<win+>23") == Ok(WinDownTyped)
  {
    PressWin();
    TypeDigits();
    RunThen(UsScan, Start, "<win+>", "23", WinDown, Ok(WinDownTyped));
    assert "<win+>" + "23" == "<win+>23";
  }

  /**
   * Trailing operators hold a key across literal typing: `<win+>23<win->`
   * presses the left Windows key, types 2 and 3, then releases it.
   */
  lemma WinHeldWhileTyping()
    ensures Compile(UsScan, "<win+>23<win->")
         == Ok([KeyDown(VkLWin), KeyDown(0x32), KeyUp(0x32), KeyDown(0x33), KeyUp(0x33), KeyUp(VkLWin)])
  {
    var final := WinDownTyped.(result := WinDownTyped.result + [KeyUp(VkLWin)], state := InitialKeyState, seps := [false]);
    PressWinAndType();
    ReleaseWin();
    SplitWinText();
    RunThen(UsScan, Start, "<win+>23", "<win->", WinDownTyped, Ok(final));
    assert final.result == [KeyDown(VkLWin), KeyDown(0x32), KeyUp(0x32), KeyDown(0x33), KeyUp(0x33), KeyUp(VkLWin)];
  }

  /**
   * The text of the example, split where its two groups meet. Kept apart
   * from `WinHeldWhileTyping` so that the literal concatenation is proved
   * without the compiler's definitions in scope, which would otherwise be
   * unfolded on the literal text at large and variable cost.
   */
  lemma SplitWinText()
    ensures "<win+>23" + "<win->" == "<win+>23<win->"
  {
  }

  /**
   * An escape name types its character: `<lt>` types `<`, which needs shift
   * on this layout. The shift it presses is left held at the end of the input.
   */
  lemma EscapedLessThan()
    ensures Compile(UsScan, "<lt>") == Ok([KeyDown(VkShift), KeyDown(0xBC), KeyUp(0xBC)])
  {
    var lt := Resolved(0xBC, true);
    EscapeNamesAreNotKeyNames("lt");
    assert ParsePart(UsScan, "lt") == Ok(lt);
    SingleName(UsScan, Start, "lt", lt);
    assert ['<'] + "lt" + ['>'] == "<lt>";
    assert Start.result + [KeyDown(VkShift), KeyDown(0xBC), KeyUp(0xBC)] == [KeyDown(VkShift), KeyDown(0xBC), KeyUp(0xBC)];
  }

  /** An upper-case letter at the end of the input leaves shift pressed: no release is emitted for it. */
  lemma ShiftLeftHeld()
    ensures Compile(UsScan, "A") == Ok([KeyDown(VkShift), KeyDown(VkA), KeyUp(VkA)])
  {
    var m1 := Start.(result := Start.result + [KeyDown(VkShift), KeyDown(VkA), KeyUp(VkA)],
                     state := Start.state.(shift := VkShift));
    assert Step(UsScan, Start, 'A') == Ok(m1);
    RunOne(UsScan, Start, 'A');
    assert Start.result + [KeyDown(VkShift), KeyDown(VkA), KeyUp(VkA)] == [KeyDown(VkShift), KeyDown(VkA), KeyUp(VkA)];
  }

  /** A group still open at the end of the input is dropped without error: `a<ctrl` only types a. */
  lemma UnclosedGroupDropped()
    ensures Compile(UsScan, "a<ctrl") == Ok([KeyDown(VkA), KeyUp(VkA)])
  {
    var m1 := Start.(result := Start.result + [KeyDown(VkA), KeyUp(VkA)]);
    var m2 := m1.(inBracket := true, parts := [], seps := []);
    assert Step(UsScan, Start, 'a') == Ok(m1);
    assert Step(UsScan, m1, '<') == Ok(m2);
    RunToken(UsScan, m2, "ctrl");
    assert "a<ctrl"[1..] == "<ctrl" && "<ctrl"[1..] == "ctrl";
    assert Run(UsScan, Start, "a<ctrl") == Run(UsScan, m1, "<ctrl");
    assert Run(UsScan, m1, "<ctrl") == Run(UsScan, m2, "ctrl");
    assert Start.result + [KeyDown(VkA), KeyUp(VkA)] == [KeyDown(VkA), KeyUp(VkA)];
  }

  /** A single non-ASCII character is more than one byte long and is not a key name: `<é>` fails. */
  lemma NonAsciiToken()
    ensures Compile(UsScan, "<\U{e9}>") == Err(UnknownKeyName("\U{e9}"))
  {
    var m0 := Start.(inBracket := true, parts := [], seps := []);
    RunOne(UsScan, Start, '<');
    RunToken(UsScan, m0, "\U{e9}");
    var m1 := m0.(part := m0.part + "\U{e9}");
    RunAppend(UsScan, Start, "<", "\U{e9}");
    RunSnoc(UsScan, Start, "<\U{e9}", m1, '>');
    ParsePartCases(UsScan, "\U{e9}");
    assert m1.part == "\U{e9}";
  }
}
