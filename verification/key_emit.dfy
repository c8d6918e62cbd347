/**
 * Appending key events while keeping the modifier bookkeeping up to date
 * (`push_key_down_and_up`, `push_key_down`, `push_key_up` of src/keyboard.rs),
 * and the event sequences the two multi-key bracket forms produce.
 */
module KeyEmit {
  import opened KeyTypes
  import opened KeyNames

  /**
   * Typing one resolved key as a literal: the events `push_key_down_and_up`
   * appends and the bookkeeping it leaves.
   */
  function TypeKey(vk: VirtualKey, shift: bool, st: KeyState): (seq<KeyInput>, KeyState) {
    if shift && st.shift == NotPressed then
      ([KeyDown(VkShift), KeyDown(vk), KeyUp(vk)], st.(shift := VkShift))
    else if !shift && st.shift != NotPressed then
      ([KeyUp(st.shift), KeyDown(vk), KeyUp(vk)], st.(shift := NotPressed))
    else
      ([KeyDown(vk), KeyUp(vk)], st)
  }

  /**
   * Literal typing always ends with the key going down and up. Shift is
   * pressed before it only when the key needs shift and shift is not held,
   * and released before it only when the key does not need shift and shift
   * is held; afterwards the shift slot is clear when the key needed no
   * shift, keeps the held key when shift was already held, and otherwise
   * records the generic shift key, and no other slot changes.
   */
  lemma LiteralTyping(vk: VirtualKey, shift: bool, st: KeyState)
    ensures var (events, st') := TypeKey(vk, shift, st);
      && 2 <= |events| <= 3 && events[|events| - 2..] == [KeyDown(vk), KeyUp(vk)]
      && (|events| == 3 <==> shift != (st.shift != NotPressed))
      && (|events| == 3 && shift ==> events[0] == KeyDown(VkShift))
      && (|events| == 3 && !shift ==> events[0] == KeyUp(st.shift))
      && st'.shift == (if !shift then NotPressed else if st.shift != NotPressed then st.shift else VkShift)
      && (shift && st.shift != NotPressed ==> st' == st)
      && st' == st.(shift := st'.shift)
  {
  }

  /** The virtual keys of a list of resolved parts, in order. */
  function KeysOf(parts: seq<Resolved>): seq<VirtualKey> {
    seq(|parts|, i requires 0 <= i < |parts| => parts[i].vk)
  }

  /**
   * A combination such as `<ctrl+shift+c>`: the first key goes down, the
   * rest of the combination is played, the first key comes up.
   */
  function ComboEvents(keys: seq<VirtualKey>): seq<KeyInput> {
    if keys == [] then []
    else [KeyDown(keys[0])] + ComboEvents(keys[1..]) + [KeyUp(keys[0])]
  }

  /** Every key pressed, in listed order. */
  function Presses(keys: seq<VirtualKey>): seq<KeyInput> {
    seq(|keys|, i requires 0 <= i < |keys| => KeyDown(keys[i]))
  }

  /** Every key released, in reverse listed order. */
  function Releases(keys: seq<VirtualKey>): seq<KeyInput> {
    seq(|keys|, i requires 0 <= i < |keys| => KeyUp(keys[|keys| - 1 - i]))
  }

  /**
   * Flattened, the nested combination presses every key in listed order and
   * then releases them in reverse order: the last key pressed is the first
   * released.
   */
  lemma {:induction false} ComboEventsFlat(keys: seq<VirtualKey>)
    ensures ComboEvents(keys) == Presses(keys) + Releases(keys)
    decreases |keys|
  {
    if keys != [] {
      var rest := keys[1..];
      ComboEventsFlat(rest);
      assert Presses(keys) == [KeyDown(keys[0])] + Presses(rest);
      assert Releases(keys) == Releases(rest) + [KeyUp(keys[0])];
    }
  }

  /** A trailing-operator list such as `<win+>` or `<ctrl+shift->`: one bare press (`+`) or release (`-`) per part. */
  function OpEvents(parts: seq<Resolved>, seps: seq<bool>): seq<KeyInput>
    requires |seps| <= |parts|
  {
    seq(|seps|, i requires 0 <= i < |seps| => if seps[i] then KeyDown(parts[i].vk) else KeyUp(parts[i].vk))
  }

  /** `push_key_down`: append a press and record the key in its class slot. */
  method PushKeyDown(vk: VirtualKey, inputs: seq<KeyInput>, state: KeyState)
    returns (inputs': seq<KeyInput>, state': KeyState)
    ensures inputs' == inputs + [KeyDown(vk)]
    ensures state' == Pressed(state, vk)
  {
    inputs' := inputs + [KeyDown(vk)];
    state' := state;
    if IsShiftKey(vk) {
      state' := state'.(shift := vk);
    }
    if IsCtrlKey(vk) {
      state' := state'.(ctrl := vk);
    }
    if IsAltKey(vk) {
      state' := state'.(alt := vk);
    }
    if IsWinKey(vk) {
      state' := state'.(win := vk);
    }
  }

  /** `push_key_up`: append a release and clear the key's class slot. */
  method PushKeyUp(vk: VirtualKey, inputs: seq<KeyInput>, state: KeyState)
    returns (inputs': seq<KeyInput>, state': KeyState)
    ensures inputs' == inputs + [KeyUp(vk)]
    ensures state' == Released(state, vk)
  {
    inputs' := inputs + [KeyUp(vk)];
    state' := state;
    if IsShiftKey(vk) {
      state' := state'.(shift := NotPressed);
    }
    if IsCtrlKey(vk) {
      state' := state'.(ctrl := NotPressed);
    }
    if IsAltKey(vk) {
      state' := state'.(alt := NotPressed);
    }
    if IsWinKey(vk) {
      state' := state'.(win := NotPressed);
    }
  }

  /** `push_key_down_and_up`: type one resolved key as a literal. */
  method PushKeyDownAndUp(vk: VirtualKey, shift: bool, inputs: seq<KeyInput>, state: KeyState)
    returns (inputs': seq<KeyInput>, state': KeyState)
    ensures inputs' == inputs + TypeKey(vk, shift, state).0
    ensures state' == TypeKey(vk, shift, state).1
  {
    inputs', state' := inputs, state;
    ghost var pre: seq<KeyInput> := [];
    if shift && state'.shift == NotPressed {
      inputs' := inputs' + [KeyDown(VkShift)];
      pre := [KeyDown(VkShift)];
      state' := state'.(shift := VkShift);
    }
    if !shift && state'.shift != NotPressed {
      inputs' := inputs' + [KeyUp(state'.shift)];
      pre := [KeyUp(state.shift)];
      state' := state'.(shift := NotPressed);
    }
    assert inputs' == inputs + pre;
    inputs' := inputs' + [KeyDown(vk)];
    inputs' := inputs' + [KeyUp(vk)];
    assert inputs' == inputs + (pre + [KeyDown(vk), KeyUp(vk)]);
    assert TypeKey(vk, shift, state).0 == pre + [KeyDown(vk), KeyUp(vk)];
  }

  /** Replaying one more event applies it to the bookkeeping so far. */
  lemma ReplaySnoc(st: KeyState, events: seq<KeyInput>, e: KeyInput)
    ensures Replay(st, events + [e]) == Apply(Replay(st, events), e)
  {
    assert (events + [e])[..|events|] == events;
  }

  /**
   * After a combination, every key it names has been released: the slot of
   * each modifier class it touches is cleared and the others are unchanged.
   */
  lemma {:induction false} ComboReleasesItsModifiers(st: KeyState, keys: seq<VirtualKey>, m: Modifier)
    ensures Replay(st, ComboEvents(keys)).Slot(m)
            == if exists k :: k in keys && ModifierOf(k) == Some(m) then NotPressed else st.Slot(m)
    decreases |keys|
  {
    if keys != [] {
      var k0 := keys[0];
      var rest := keys[1..];
      var inner := ComboEvents(rest);
      assert ComboEvents(keys) == [KeyDown(k0)] + inner + [KeyUp(k0)];
      ReplayAppend(st, [KeyDown(k0)] + inner, [KeyUp(k0)]);
      ReplayAppend(st, [KeyDown(k0)], inner);
      ReplaySnoc(st, [], KeyDown(k0));
      ReplaySnoc(Replay(st, [KeyDown(k0)] + inner), [], KeyUp(k0));
      var st1 := Pressed(st, k0);
      assert Replay(st, [KeyDown(k0)]) == st1;
      ComboReleasesItsModifiers(st1, rest, m);
      PressedTouchesOnlyItsClass(st, k0, m);
      ReleasedTouchesOnlyItsClass(Replay(st1, inner), k0, m);
      if exists k :: k in keys && ModifierOf(k) == Some(m) {
        var k :| k in keys && ModifierOf(k) == Some(m);
        if k != k0 {
          assert k in rest;
        }
      } else {
        assert forall k :: k in rest ==> k in keys;
      }
    }
  }
}
