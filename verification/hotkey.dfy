/**
 * The hotkey fold of `hotkey_register` (src/keyboard.rs): a key sequence is
 * compiled, then its leading presses are read as modifiers plus one main key.
 * The registration with the platform is not part of this model; the fold's
 * result is the modifier flags and the main key it would register.
 */
module Hotkeys {
  import opened KeyTypes
  import opened KeyNames
  import opened KeyEmit
  import opened KeyParser

  // The platform's hotkey modifier flags (`HOT_KEY_MODIFIERS`, a 32-bit set).
  const ModAlt: bv32 := 0x1
  const ModControl: bv32 := 0x2
  const ModShift: bv32 := 0x4
  const ModWin: bv32 := 0x8

  /** The flag a modifier class contributes. */
  function MaskOf(m: Modifier): bv32 {
    match m
    case Shift => ModShift
    case Ctrl => ModControl
    case Alt => ModAlt
    case Win => ModWin
  }

  /** What the fold hands to the registration: the modifier flags and the main key. */
  datatype Hotkey = Hotkey(modifiers: bv32, vk: VirtualKey)

  /** The keys pressed before the first release, in order: the only events the fold reads. */
  function Downs(inputs: seq<KeyInput>): seq<VirtualKey> {
    if inputs == [] || inputs[0].KeyUp? then []
    else [inputs[0].key] + Downs(inputs[1..])
  }

  /** How many of `keys` belong to modifier class `m`. */
  function Count(keys: seq<VirtualKey>, m: Modifier): nat
    decreases |keys|
  {
    if keys == [] then 0
    else Count(keys[..|keys| - 1], m) + (if ModifierOf(keys[|keys| - 1]) == Some(m) then 1 else 0)
  }

  /** The keys that belong to no modifier class, in order. */
  function Mains(keys: seq<VirtualKey>): seq<VirtualKey>
    decreases |keys|
  {
    if keys == [] then []
    else Mains(keys[..|keys| - 1]) + (if ModifierOf(keys[|keys| - 1]) == None then [keys[|keys| - 1]] else [])
  }

  /** The flags of the modifier classes among `keys`. */
  function Modifiers(keys: seq<VirtualKey>): bv32 {
    (if Count(keys, Shift) > 0 then ModShift else 0)
    | (if Count(keys, Ctrl) > 0 then ModControl else 0)
    | (if Count(keys, Alt) > 0 then ModAlt else 0)
    | (if Count(keys, Win) > 0 then ModWin else 0)
  }

  /**
   * The main keys the fold accepts: at least one, the last is non-zero, and
   * every earlier one is zero. The fold keeps the main key in a variable
   * that starts at zero and rejects a main key only when that variable is
   * already non-zero, so a main key of code 0 does not count as seen.
   */
  predicate AcceptedMains(mains: seq<VirtualKey>) {
    && mains != []
    && mains[|mains| - 1] != 0
    && forall j :: 0 <= j < |mains| - 1 ==> mains[j] == 0
  }

  /**
   * The hotkey that a list of pressed keys denotes. Each modifier class may
   * be pressed at most once, and the main keys must be accepted; the result
   * is the flags of the classes pressed and the last main key.
   */
  function HotkeyOfKeys(keys: seq<VirtualKey>): Result<Hotkey> {
    var mains := Mains(keys);
    if exists m :: Count(keys, m) > 1 then Err(InvalidHotkey)
    else if !AcceptedMains(mains) then Err(InvalidHotkey)
    else Ok(Hotkey(Modifiers(keys), mains[|mains| - 1]))
  }

  /** The hotkey a compiled key sequence denotes: only the presses before the first release count. */
  function HotkeyOf(inputs: seq<KeyInput>): Result<Hotkey> {
    HotkeyOfKeys(Downs(inputs))
  }

  lemma {:induction false} CountAppend(a: seq<VirtualKey>, b: seq<VirtualKey>, m: Modifier)
    ensures Count(a + b, m) == Count(a, m) + Count(b, m)
    decreases |b|
  {
    if b == [] {
      assert a + b == a;
    } else {
      var b' := b[..|b| - 1];
      assert (a + b)[..|a + b| - 1] == a + b';
      CountAppend(a, b', m);
    }
  }

  lemma {:induction false} MainsAppend(a: seq<VirtualKey>, b: seq<VirtualKey>)
    ensures Mains(a + b) == Mains(a) + Mains(b)
    decreases |b|
  {
    if b == [] {
      assert a + b == a;
    } else {
      var b' := b[..|b| - 1];
      assert (a + b)[..|a + b| - 1] == a + b';
      MainsAppend(a, b');
    }
  }

  /** A class is counted exactly when one of the keys belongs to it. */
  lemma {:induction false} CountPositive(keys: seq<VirtualKey>, m: Modifier)
    ensures Count(keys, m) > 0 <==> exists i :: 0 <= i < |keys| && ModifierOf(keys[i]) == Some(m)
    decreases |keys|
  {
    if keys != [] {
      var init := keys[..|keys| - 1];
      CountPositive(init, m);
      if exists i :: 0 <= i < |init| && ModifierOf(init[i]) == Some(m) {
        var i :| 0 <= i < |init| && ModifierOf(init[i]) == Some(m);
        assert keys[i] == init[i];
      }
      if exists i :: 0 <= i < |keys| && ModifierOf(keys[i]) == Some(m) {
        var i :| 0 <= i < |keys| && ModifierOf(keys[i]) == Some(m);
        if i < |init| {
          assert init[i] == keys[i];
        }
      }
    }
  }

  /** Each flag of the result is set exactly when a key of its class is pressed. */
  lemma ModifierFlags(keys: seq<VirtualKey>, m: Modifier)
    ensures Modifiers(keys) & MaskOf(m) != 0 <==> exists i :: 0 <= i < |keys| && ModifierOf(keys[i]) == Some(m)
    ensures Modifiers(keys) & !(ModShift | ModControl | ModAlt | ModWin) == 0
  {
    CountPositive(keys, m);
  }

  /** Events after the first release are never read. */
  lemma {:induction false} DownsStopAtRelease(a: seq<KeyInput>, k: VirtualKey, b: seq<KeyInput>)
    requires forall i :: 0 <= i < |a| ==> a[i].KeyDown?
    ensures Downs(a + [KeyUp(k)] + b) == Downs(a)
    ensures |Downs(a)| == |a| && forall i :: 0 <= i < |a| ==> Downs(a)[i] == a[i].key
    decreases |a|
  {
    if a == [] {
      assert (a + [KeyUp(k)] + b)[0] == KeyUp(k);
    } else {
      DownsStopAtRelease(a[1..], k, b);
      assert (a + [KeyUp(k)] + b)[1..] == a[1..] + [KeyUp(k)] + b;
    }
  }

  /** The last main key so far, or 0 when there is none: the fold's `vk` variable. */
  function LastMain(keys: seq<VirtualKey>): VirtualKey {
    var mains := Mains(keys);
    if mains == [] then 0 else mains[|mains| - 1]
  }

  /** The class slot of `m` is set exactly when one key of class `m` has been read, and no more than one has. */
  ghost predicate ClassInv(keys: seq<VirtualKey>, state: KeyState, m: Modifier) {
    Count(keys, m) <= 1 && (state.Slot(m) != NotPressed) == (Count(keys, m) == 1)
  }

  /** The class invariant of all four classes. */
  ghost predicate ClassesInv(keys: seq<VirtualKey>, state: KeyState) {
    && ClassInv(keys, state, Shift) && ClassInv(keys, state, Ctrl)
    && ClassInv(keys, state, Alt) && ClassInv(keys, state, Win)
  }

  /** Every main key before the last one is zero. */
  predicate ZeroBeforeLast(mains: seq<VirtualKey>) {
    forall j :: 0 <= j < |mains| - 1 ==> mains[j] == 0
  }

  /**
   * What the fold's variables say about the keys read so far: no class
   * twice, a class slot set exactly for the classes seen, the flags of those
   * classes, the last main key, and only zero main keys before it.
   */
  ghost predicate FoldInv(keys: seq<VirtualKey>, state: KeyState, modifiers: bv32, vk: VirtualKey) {
    && ClassesInv(keys, state)
    && modifiers == Modifiers(keys)
    && vk == LastMain(keys)
    && ZeroBeforeLast(Mains(keys))
  }

  /** One more key: its class count goes up by one exactly when it belongs to the class. */
  lemma SnocCount(keys: seq<VirtualKey>, key: VirtualKey, m: Modifier)
    ensures Count(keys + [key], m) == Count(keys, m) + (if ModifierOf(key) == Some(m) then 1 else 0)
  {
    assert (keys + [key])[..|keys|] == keys;
  }

  /** One more key: it is a main key exactly when it has no class. */
  lemma SnocMains(keys: seq<VirtualKey>, key: VirtualKey)
    ensures Mains(keys + [key]) == if ModifierOf(key) == None then Mains(keys) + [key] else Mains(keys)
  {
    assert (keys + [key])[..|keys|] == keys;
    assert Mains(keys) + [] == Mains(keys);
  }

  /** One more key of class `m` adds the flag of `m`. */
  lemma ModifiersSnoc(keys: seq<VirtualKey>, key: VirtualKey, m: Modifier, modifiers: bv32)
    requires modifiers == Modifiers(keys) && ModifierOf(key) == Some(m)
    ensures Modifiers(keys + [key]) == modifiers | MaskOf(m)
  {
    SnocCount(keys, key, Shift);
    SnocCount(keys, key, Ctrl);
    SnocCount(keys, key, Alt);
    SnocCount(keys, key, Win);
    var s := if Count(keys, Shift) > 0 then ModShift else 0;
    var c := if Count(keys, Ctrl) > 0 then ModControl else 0;
    var a := if Count(keys, Alt) > 0 then ModAlt else 0;
    var w := if Count(keys, Win) > 0 then ModWin else 0;
    match m
    case Shift => assert Modifiers(keys + [key]) == ModShift | c | a | w;
    case Ctrl => assert Modifiers(keys + [key]) == s | ModControl | a | w;
    case Alt => assert Modifiers(keys + [key]) == s | c | ModAlt | w;
    case Win => assert Modifiers(keys + [key]) == s | c | a | ModWin;
  }

  /** Recording a first key of class `m` in its slot keeps the class invariants. */
  lemma RecordClass(keys: seq<VirtualKey>, key: VirtualKey, m: Modifier, state: KeyState, marker: VirtualKey)
    requires ClassesInv(keys, state)
    requires ModifierOf(key) == Some(m) && state.Slot(m) == NotPressed && marker != NotPressed
    ensures ClassesInv(keys + [key], state.WithSlot(m, marker))
  {
    SnocCount(keys, key, Shift);
    SnocCount(keys, key, Ctrl);
    SnocCount(keys, key, Alt);
    SnocCount(keys, key, Win);
  }

  /** Recording a first key of class `m` keeps the fold's invariant. */
  lemma RecordModifier(keys: seq<VirtualKey>, key: VirtualKey, m: Modifier, state: KeyState, modifiers: bv32,
                       vk: VirtualKey, marker: VirtualKey)
    requires FoldInv(keys, state, modifiers, vk)
    requires ModifierOf(key) == Some(m) && state.Slot(m) == NotPressed && marker != NotPressed
    ensures FoldInv(keys + [key], state.WithSlot(m, marker), modifiers | MaskOf(m), vk)
  {
    RecordClass(keys, key, m, state, marker);
    ModifiersSnoc(keys, key, m, modifiers);
    SnocMains(keys, key);
  }

  /** Recording a main key while none is recorded keeps the fold's invariant. */
  lemma RecordMain(keys: seq<VirtualKey>, key: VirtualKey, state: KeyState, modifiers: bv32)
    requires FoldInv(keys, state, modifiers, 0)
    requires ModifierOf(key) == None
    ensures FoldInv(keys + [key], state, modifiers, key)
  {
    SnocCount(keys, key, Shift);
    SnocCount(keys, key, Ctrl);
    SnocCount(keys, key, Alt);
    SnocCount(keys, key, Win);
    SnocMains(keys, key);
    var mains := Mains(keys + [key]);
    forall j | 0 <= j < |mains| - 1
      ensures mains[j] == 0
    {
      if j == |Mains(keys)| - 1 {
        assert mains[j] == LastMain(keys);
      }
    }
  }

  /** A second key of a recorded class makes the hotkey invalid, whatever follows. */
  lemma SecondOfClass(keys: seq<VirtualKey>, key: VirtualKey, m: Modifier, state: KeyState, modifiers: bv32,
                      vk: VirtualKey, rest: seq<VirtualKey>)
    requires FoldInv(keys, state, modifiers, vk)
    requires ModifierOf(key) == Some(m) && state.Slot(m) != NotPressed
    ensures HotkeyOfKeys(keys + [key] + rest) == Err(InvalidHotkey)
  {
    SnocCount(keys, key, m);
    CountAppend(keys + [key], rest, m);
    assert Count(keys + [key] + rest, m) > 1;
  }

  /** A second non-zero main key makes the hotkey invalid, whatever follows. */
  lemma SecondMain(keys: seq<VirtualKey>, key: VirtualKey, state: KeyState, modifiers: bv32, vk: VirtualKey,
                   rest: seq<VirtualKey>)
    requires FoldInv(keys, state, modifiers, vk)
    requires ModifierOf(key) == None && vk != 0
    ensures HotkeyOfKeys(keys + [key] + rest) == Err(InvalidHotkey)
  {
    SnocMains(keys, key);
    MainsAppend(keys + [key], rest);
    var all := Mains(keys + [key] + rest);
    assert all[|Mains(keys)| - 1] == vk;
    assert !AcceptedMains(all);
  }

  /** When the presses run out, the fold's variables are the hotkey, or no main key was seen. */
  lemma FoldDone(keys: seq<VirtualKey>, state: KeyState, modifiers: bv32, vk: VirtualKey)
    requires FoldInv(keys, state, modifiers, vk)
    ensures HotkeyOfKeys(keys) == if vk == 0 then Err(InvalidHotkey) else Ok(Hotkey(modifiers, vk))
  {
    forall m
      ensures Count(keys, m) <= 1
    {
      match m
      case Shift =>
      case Ctrl =>
      case Alt =>
      case Win =>
    }
  }

  /**
   * `hotkey_register` up to the registration: read key presses until the
   * first release, record each modifier class (failing on a second key of
   * a class already recorded) and the main key (failing on a second main key),
   * then fail if no main key was recorded.
   */
  method HotkeyFold(inputs: seq<KeyInput>) returns (r: Result<Hotkey>)
    ensures r == HotkeyOf(inputs)
  {
    var state := InitialKeyState;
    var modifiers: bv32 := 0;
    var vk: VirtualKey := 0;
    ghost var keys: seq<VirtualKey> := [];
    var i := 0;
    while i < |inputs|
      invariant 0 <= i <= |inputs|
      invariant Downs(inputs) == keys + Downs(inputs[i..])
      invariant FoldInv(keys, state, modifiers, vk)
    {
      assert inputs[i..][0] == inputs[i] && inputs[i..][1..] == inputs[i + 1..];
      if inputs[i].KeyUp? {
        break;
      }
      var key := inputs[i].key;
      ghost var rest := Downs(inputs[i + 1..]);
      assert Downs(inputs) == keys + [key] + rest;
      if IsShiftKey(key) {
        if state.shift != NotPressed {
          SecondOfClass(keys, key, Shift, state, modifiers, vk, rest);
          return Err(InvalidHotkey);
        }
        RecordModifier(keys, key, Shift, state, modifiers, vk, VkShift);
        modifiers := modifiers | ModShift;
        state := state.(shift := VkShift);
      } else if IsCtrlKey(key) {
        if state.ctrl != NotPressed {
          SecondOfClass(keys, key, Ctrl, state, modifiers, vk, rest);
          return Err(InvalidHotkey);
        }
        RecordModifier(keys, key, Ctrl, state, modifiers, vk, VkControl);
        modifiers := modifiers | ModControl;
        state := state.(ctrl := VkControl);
      } else if IsAltKey(key) {
        if state.alt != NotPressed {
          SecondOfClass(keys, key, Alt, state, modifiers, vk, rest);
          return Err(InvalidHotkey);
        }
        RecordModifier(keys, key, Alt, state, modifiers, vk, VkMenu);
        modifiers := modifiers | ModAlt;
        state := state.(alt := VkMenu);
      } else if IsWinKey(key) {
        if state.win != NotPressed {
          SecondOfClass(keys, key, Win, state, modifiers, vk, rest);
          return Err(InvalidHotkey);
        }
        RecordModifier(keys, key, Win, state, modifiers, vk, VkLWin);
        modifiers := modifiers | ModWin;
        state := state.(win := VkLWin);
      } else {
        if vk != 0 {
          SecondMain(keys, key, state, modifiers, vk, rest);
          return Err(InvalidHotkey);
        }
        RecordMain(keys, key, state, modifiers);
        vk := key;
      }
      keys := keys + [key];
      i := i + 1;
    }
    assert Downs(inputs) == keys;
    FoldDone(keys, state, modifiers, vk);
    if vk == 0 {
      return Err(InvalidHotkey);
    }
    return Ok(Hotkey(modifiers, vk));
  }

  /** The hotkey text compiled and folded: the compiler's error, or the fold's verdict on its events. */
  method ParseHotkey(scan: Scanner, s: string) returns (r: Result<Hotkey>)
    ensures r == match Compile(scan, s) case Err(e) => Err(e) case Ok(inputs) => HotkeyOf(inputs)
  {
    var inputs := ParseStr(scan, s);
    if inputs.Err? {
      return Err(inputs.error);
    }
    r := HotkeyFold(inputs.value);
  }
}
