/**
 * What the hotkey fold makes of a key sequence: the meaning of an accepted
 * hotkey, and the hotkey of a combination such as `<ctrl+alt+c>`.
 */
module HotkeyProperties {
  import opened KeyTypes
  import opened KeyEmit
  import opened Hotkeys

  /**
   * An accepted hotkey names a non-zero key of no modifier class that was
   * pressed, no class was pressed twice, and each modifier flag is set
   * exactly when a key of its class was pressed.
   */
  lemma AcceptedHotkey(keys: seq<VirtualKey>, h: Hotkey, m: Modifier)
    requires HotkeyOfKeys(keys) == Ok(h)
    ensures h.vk != 0 && h.vk in keys && ModifierOf(h.vk) == None
    ensures Count(keys, m) <= 1
    ensures h.modifiers & MaskOf(m) != 0 <==> exists i :: 0 <= i < |keys| && ModifierOf(keys[i]) == Some(m)
  {
    ModifierFlags(keys, m);
    MainsAreKeys(keys);
    var mains := Mains(keys);
    assert h.vk == mains[|mains| - 1];
  }

  /** Every main key is one of the keys and has no modifier class. */
  lemma {:induction false} MainsAreKeys(keys: seq<VirtualKey>)
    ensures forall k :: k in Mains(keys) ==> k in keys && ModifierOf(k) == None
    decreases |keys|
  {
    if keys != [] {
      var init := keys[..|keys| - 1];
      MainsAreKeys(init);
      assert forall k :: k in init ==> k in keys;
    }
  }

  /**
   * One modifier key followed by one main key, as `<ctrl+y>` presses them:
   * the hotkey is the flag of the modifier's class with that main key.
   */
  lemma ModifierAndKey(mk: VirtualKey, m: Modifier, k: VirtualKey)
    requires ModifierOf(mk) == Some(m) && ModifierOf(k) == None && k != 0
    ensures HotkeyOfKeys([mk, k]) == Ok(Hotkey(MaskOf(m), k))
  {
    var one, two := [mk], [mk, k];
    assert [] + [mk] == one && one + [k] == two;
    forall m' | true
      ensures Count(two, m') == (if m' == m then 1 else 0)
    {
      SnocCount([], mk, m');
      SnocCount(one, k, m');
    }
    SnocMains([], mk);
    SnocMains(one, k);
    ModifiersSnoc([], mk, m, 0);
    assert Modifiers(two) == Modifiers(one);
  }

  /** The presses of a combination all come before its first release. */
  lemma ComboDowns(keys: seq<VirtualKey>)
    ensures Downs(ComboEvents(keys)) == keys
  {
    ComboEventsFlat(keys);
    var presses := Presses(keys);
    if keys == [] {
      assert ComboEvents(keys) == [];
    } else {
      var releases := Releases(keys);
      assert releases == [KeyUp(keys[|keys| - 1])] + releases[1..];
      assert ComboEvents(keys) == presses + [KeyUp(keys[|keys| - 1])] + releases[1..];
      DownsStopAtRelease(presses, keys[|keys| - 1], releases[1..]);
      assert Downs(presses) == keys;
    }
  }

  /** A combination registers as the hotkey of the keys it names. */
  lemma ComboHotkey(keys: seq<VirtualKey>)
    ensures HotkeyOf(ComboEvents(keys)) == HotkeyOfKeys(keys)
  {
    ComboDowns(keys);
  }
}
