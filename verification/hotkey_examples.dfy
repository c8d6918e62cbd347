/**
 * The hotkey fold on concrete key sequences, with the US layout of
 * `KeyParserExamples`.
 */
module HotkeyExamples {
  import opened KeyTypes
  import opened KeyNames
  import opened KeyEmit
  import opened KeyParser
  import opened Hotkeys
  import opened HotkeyProperties
  import Us = KeyParserExamples

  const VkY: VirtualKey := 0x59

  /** `<ctrl+y>` registers Ctrl as modifier and Y as the key. */
  lemma CtrlY()
    ensures HotkeyOf(ComboEvents([VkControl, VkY])) == Ok(Hotkey(ModControl, VkY))
  {
    ComboHotkey([VkControl, VkY]);
    ModifierAndKey(VkControl, Ctrl, VkY);
  }

  /** The whole text `<ctrl+c>` compiles to a combination that folds to Ctrl with C. */
  lemma CtrlCText()
    ensures Compile(Us.UsScan, "<ctrl+c>") == Ok(ComboEvents([VkControl, Us.VkC]))
    ensures HotkeyOf(ComboEvents([VkControl, Us.VkC])) == Ok(Hotkey(ModControl, Us.VkC))
  {
    Us.CtrlC();
    Us.CtrlCEvents();
    assert KeysOf([Us.Ctrl] + [Us.C]) == [VkControl, Us.VkC];
    ComboHotkey([VkControl, Us.VkC]);
    ModifierAndKey(VkControl, Ctrl, Us.VkC);
  }

  /** Modifiers alone, as `<ctrl+alt+>` presses them, are no hotkey. */
  lemma ModifiersOnly()
    ensures HotkeyOf([KeyDown(VkControl), KeyDown(VkMenu)]) == Err(InvalidHotkey)
  {
    var keys := [VkControl, VkMenu];
    DownsStopAtRelease([KeyDown(VkControl), KeyDown(VkMenu)], 0, []);
    assert Downs([KeyDown(VkControl), KeyDown(VkMenu)]) == keys;
    assert [] + [VkControl] == [VkControl] && [VkControl] + [VkMenu] == keys;
    SnocMains([], VkControl);
    SnocMains([VkControl], VkMenu);
  }

  /** Left and generic Ctrl are the same class, so pressing both is invalid. */
  lemma CtrlTwice()
    ensures HotkeyOfKeys([VkLControl, VkControl, Us.VkC]) == Err(InvalidHotkey)
  {
    var keys := [VkLControl, VkControl, Us.VkC];
    assert [] + [VkLControl] == [VkLControl] && [VkLControl] + [VkControl] == keys[..2] && keys[..2] + [Us.VkC] == keys;
    SnocCount([], VkLControl, Ctrl);
    SnocCount([VkLControl], VkControl, Ctrl);
    SnocCount(keys[..2], Us.VkC, Ctrl);
  }

  /** Two main keys are invalid. */
  lemma TwoMainKeys()
    ensures HotkeyOfKeys([VkControl, Us.VkA, Us.VkB]) == Err(InvalidHotkey)
  {
    var keys := [VkControl, Us.VkA, Us.VkB];
    assert [] + [VkControl] == [VkControl] && [VkControl] + [Us.VkA] == keys[..2] && keys[..2] + [Us.VkB] == keys;
    SnocMains([], VkControl);
    SnocMains([VkControl], Us.VkA);
    SnocMains(keys[..2], Us.VkB);
    assert Mains(keys) == [Us.VkA, Us.VkB];
  }

  /** Only the presses before the first release are read: Ctrl down, A typed, B typed is Ctrl with A. */
  lemma ReleaseEndsTheHotkey()
    ensures HotkeyOf([KeyDown(VkControl), KeyDown(Us.VkA), KeyUp(Us.VkA), KeyDown(Us.VkB), KeyUp(Us.VkB)])
         == Ok(Hotkey(ModControl, Us.VkA))
  {
    var presses := [KeyDown(VkControl), KeyDown(Us.VkA)];
    DownsStopAtRelease(presses, Us.VkA, [KeyDown(Us.VkB), KeyUp(Us.VkB)]);
    assert presses + [KeyUp(Us.VkA)] + [KeyDown(Us.VkB), KeyUp(Us.VkB)]
        == [KeyDown(VkControl), KeyDown(Us.VkA), KeyUp(Us.VkA), KeyDown(Us.VkB), KeyUp(Us.VkB)];
    assert Downs(presses) == [VkControl, Us.VkA];
    ModifierAndKey(VkControl, Ctrl, Us.VkA);
  }
}
