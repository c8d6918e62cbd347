/**
 * Values shared by the key-sequence compiler of src/keyboard.rs: virtual-key
 * codes, the key events it emits, its errors, and the four-slot modifier
 * record (`KeyState`) with the way a single event changes it.
 */
module KeyTypes {

  /** A Windows virtual-key code as the compiler stores it: one byte (`u8`). */
  newtype VirtualKey = k: int | 0 <= k < 0x100

  /** One atomic key transition; the order of a sequence of them is the order of physical transitions. */
  datatype KeyInput = KeyDown(key: VirtualKey) | KeyUp(key: VirtualKey)

  /** The reasons the compiler and the hotkey fold give up, one per failing site of the source. */
  datatype Error =
    | ScanFailed(c: char)                // the platform has no key producing c
    | EmptyKeyName                       // parse_part on an empty token
    | UnknownKeyName(name: string)       // token is no name, no escape name and not one byte long
    | MissingKeyBeforeSeparator          // '+' or '-' not preceded by a freshly resolved key
    | MissingKeyAfterBracket             // '>' closing a group without any key
    | MinusInCombination                 // a combination such as <ctrl-c>
    | InvalidHotkey                      // the hotkey fold rejects the key list

  datatype Option<T> = None | Some(value: T)

  datatype Result<T> = Ok(value: T) | Err(error: Error) {
    predicate IsFailure() { Err? }

    function PropagateFailure<U>(): Result<U>
      requires Err?
    {
      Err(error)
    }

    function Extract(): T
      requires Ok?
    {
      value
    }
  }

  // Virtual-key codes of the modifier keys, generic and left/right-specific.
  const VkShift: VirtualKey := 0x10
  const VkControl: VirtualKey := 0x11
  const VkMenu: VirtualKey := 0x12
  const VkLShift: VirtualKey := 0xA0
  const VkRShift: VirtualKey := 0xA1
  const VkLControl: VirtualKey := 0xA2
  const VkRControl: VirtualKey := 0xA3
  const VkLMenu: VirtualKey := 0xA4
  const VkRMenu: VirtualKey := 0xA5
  const VkLWin: VirtualKey := 0x5B
  const VkRWin: VirtualKey := 0x5C

  predicate IsShiftKey(vk: VirtualKey) { vk == VkShift || vk == VkLShift || vk == VkRShift }

  predicate IsCtrlKey(vk: VirtualKey) { vk == VkControl || vk == VkLControl || vk == VkRControl }

  predicate IsAltKey(vk: VirtualKey) { vk == VkMenu || vk == VkLMenu || vk == VkRMenu }

  predicate IsWinKey(vk: VirtualKey) { vk == VkLWin || vk == VkRWin }

  /** The four modifier classes, one per slot of `KeyState`. */
  datatype Modifier = Shift | Ctrl | Alt | Win

  /**
   * The modifier class of a key. The four predicates never hold together,
   * so each key has at most one class, and a key has none exactly when no
   * predicate holds.
   */
  function ModifierOf(vk: VirtualKey): (m: Option<Modifier>)
    ensures m == Some(Shift) <==> IsShiftKey(vk)
    ensures m == Some(Ctrl) <==> IsCtrlKey(vk)
    ensures m == Some(Alt) <==> IsAltKey(vk)
    ensures m == Some(Win) <==> IsWinKey(vk)
    ensures m == None <==> !(IsShiftKey(vk) || IsCtrlKey(vk) || IsAltKey(vk) || IsWinKey(vk))
  {
    if IsShiftKey(vk) then Some(Shift)
    else if IsCtrlKey(vk) then Some(Ctrl)
    else if IsAltKey(vk) then Some(Alt)
    else if IsWinKey(vk) then Some(Win)
    else None
  }

  /** Slot value meaning "not pressed"; any other value is the key held for that class. */
  const NotPressed: VirtualKey := 0

  /** Which key of each modifier class the compiler considers held. */
  datatype KeyState = KeyState(shift: VirtualKey, ctrl: VirtualKey, alt: VirtualKey, win: VirtualKey) {

    function Slot(m: Modifier): VirtualKey {
      match m
      case Shift => shift
      case Ctrl => ctrl
      case Alt => alt
      case Win => win
    }

    function WithSlot(m: Modifier, v: VirtualKey): (r: KeyState)
      ensures r.Slot(m) == v
      ensures forall n :: n != m ==> r.Slot(n) == Slot(n)
    {
      match m
      case Shift => this.(shift := v)
      case Ctrl => this.(ctrl := v)
      case Alt => this.(alt := v)
      case Win => this.(win := v)
    }
  }

  /** The record every compile and every hotkey fold starts from (`KeyState::new`). */
  const InitialKeyState := KeyState(NotPressed, NotPressed, NotPressed, NotPressed)

  /** Bookkeeping of `push_key_down`: the key's own class slot now holds it. */
  function Pressed(st: KeyState, vk: VirtualKey): KeyState {
    match ModifierOf(vk)
    case None => st
    case Some(m) => st.WithSlot(m, vk)
  }

  /** Bookkeeping of `push_key_up`: the key's own class slot is cleared, whatever key it held. */
  function Released(st: KeyState, vk: VirtualKey): KeyState {
    match ModifierOf(vk)
    case None => st
    case Some(m) => st.WithSlot(m, NotPressed)
  }

  /** The bookkeeping that one emitted event implies. */
  function Apply(st: KeyState, e: KeyInput): KeyState {
    match e
    case KeyDown(k) => Pressed(st, k)
    case KeyUp(k) => Released(st, k)
  }

  /** The bookkeeping a run of emitted events implies, applied left to right. */
  function Replay(st: KeyState, events: seq<KeyInput>): KeyState
    decreases |events|
  {
    if events == [] then st
    else Apply(Replay(st, events[..|events| - 1]), events[|events| - 1])
  }

  /** Pressing a key changes only the slot of its own class, and only to that key. */
  lemma PressedTouchesOnlyItsClass(st: KeyState, vk: VirtualKey, m: Modifier)
    ensures Pressed(st, vk).Slot(m) == if ModifierOf(vk) == Some(m) then vk else st.Slot(m)
  {
  }

  /** Releasing a key clears only the slot of its own class. */
  lemma ReleasedTouchesOnlyItsClass(st: KeyState, vk: VirtualKey, m: Modifier)
    ensures Released(st, vk).Slot(m) == if ModifierOf(vk) == Some(m) then NotPressed else st.Slot(m)
  {
  }

  /** Replaying a concatenation replays the first part, then the second. */
  lemma {:induction false} ReplayAppend(st: KeyState, a: seq<KeyInput>, b: seq<KeyInput>)
    ensures Replay(st, a + b) == Replay(Replay(st, a), b)
    decreases |b|
  {
    if b == [] {
      assert a + b == a;
    } else {
      var b' := b[..|b| - 1];
      assert (a + b)[..|a + b| - 1] == a + b';
      ReplayAppend(st, a, b');
    }
  }
}
