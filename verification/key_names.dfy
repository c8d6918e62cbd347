/**
 * Resolving characters and bracket tokens to virtual keys (src/keyboard.rs):
 * the key-name table, the escape-name table, the decoding of the platform's
 * character scan (`parse_char`) and the token resolver (`parse_part`).
 */
module KeyNames {
  import opened KeyTypes

  /**
   * The key-name table (`KEY_NAME_TO_VK`) as a lookup by literal name:
   * `Some(vk)` for a name of the table, `None` otherwise. Every name of the
   * table has at least two characters; the table is split by the first
   * character of the name so that a lookup only compares against a few names.
   */
  function KeyNameToVk(name: string): (r: Option<VirtualKey>)
    ensures r.Some? ==> |name| >= 2
  {
    if |name| < 2 then None
    else if name[0] <= 'c' then KeyNamesAToC(name)
    else if name[0] <= 'h' then KeyNamesDToH(name)
    else if name[0] <= 'm' then KeyNamesIToM(name)
    else if name[0] <= 'p' then KeyNamesNToP(name)
    else if name[0] <= 'v' then KeyNamesQToV(name)
    else KeyNamesWToZ(name)
  }

  /** The names of the table that start with `a` to `c`. */
  function KeyNamesAToC(name: string): Option<VirtualKey> {
    match name
    case "backspace" => Some(0x08)
    case "bs" => Some(0x08)
    case "clear" => Some(0x0C)
    case "ctrl" => Some(0x11)
    case "alt" => Some(0x12)
    case "caps" => Some(0x14)
    case "convert" => Some(0x1C)
    case "accept" => Some(0x1E)
    case "apps" => Some(0x5D)
    case "add" => Some(0x6B)
    case "browser_back" => Some(0xA6)
    case "browser_forward" => Some(0xA7)
    case "browser_refresh" => Some(0xA8)
    case "browser_stop" => Some(0xA9)
    case "browser_search" => Some(0xAA)
    case "browser_favorites" => Some(0xAB)
    case "browser_home" => Some(0xAC)
    case "attn" => Some(0xF6)
    case "crsel" => Some(0xF7)
    case _ => None
  }

  /** The names of the table that start with `d` to `h`. */
  function KeyNamesDToH(name: string): Option<VirtualKey> {
    match name
    case "enter" => Some(0x0D)
    case "hangul" => Some(0x15)
    case "final" => Some(0x18)
    case "hanja" => Some(0x19)
    case "esc" => Some(0x1B)
    case "end" => Some(0x23)
    case "home" => Some(0x24)
    case "down" => Some(0x28)
    case "execute" => Some(0x2B)
    case "delete" => Some(0x2E)
    case "del" => Some(0x2E)
    case "help" => Some(0x2F)
    case "decimal" => Some(0x6E)
    case "divide" => Some(0x6F)
    case "f1" => Some(0x70)
    case "f2" => Some(0x71)
    case "f3" => Some(0x72)
    case "f4" => Some(0x73)
    case "f5" => Some(0x74)
    case "f6" => Some(0x75)
    case "f7" => Some(0x76)
    case "f8" => Some(0x77)
    case "f9" => Some(0x78)
    case "f10" => Some(0x79)
    case "f11" => Some(0x7A)
    case "f12" => Some(0x7B)
    case "f13" => Some(0x7C)
    case "f14" => Some(0x7D)
    case "f15" => Some(0x7E)
    case "f16" => Some(0x7F)
    case "f17" => Some(0x80)
    case "f18" => Some(0x81)
    case "f19" => Some(0x82)
    case "f20" => Some(0x83)
    case "f21" => Some(0x84)
    case "f22" => Some(0x85)
    case "f23" => Some(0x86)
    case "f24" => Some(0x87)
    case "exsel" => Some(0xF8)
    case "ereof" => Some(0xF9)
    case _ => None
  }

  /** The names of the table that start with `i` to `m`. */
  function KeyNamesIToM(name: string): Option<VirtualKey> {
    match name
    case "kana" => Some(0x15)
    case "ime_on" => Some(0x16)
    case "junja" => Some(0x17)
    case "kanji" => Some(0x19)
    case "ime_off" => Some(0x1A)
    case "modechange" => Some(0x1F)
    case "left" => Some(0x25)
    case "insert" => Some(0x2D)
    case "ins" => Some(0x2D)
    case "lwin" => Some(0x5B)
    case "multiply" => Some(0x6A)
    case "lshift" => Some(0xA0)
    case "lctrl" => Some(0xA2)
    case "lalt" => Some(0xA4)
    case "media_next_track" => Some(0xB0)
    case "media_prev_track" => Some(0xB1)
    case "media_stop" => Some(0xB2)
    case "media_play_pause" => Some(0xB3)
    case "launch_mail" => Some(0xB4)
    case "launch_media_select" => Some(0xB5)
    case "launch_app1" => Some(0xB6)
    case "launch_app2" => Some(0xB7)
    case _ => None
  }

  /** The names of the table that start with `n` to `p`. */
  function KeyNamesNToP(name: string): Option<VirtualKey> {
    match name
    case "pause" => Some(0x13)
    case "nonconvert" => Some(0x1D)
    case "pageup" => Some(0x21)
    case "pagedown" => Some(0x22)
    case "print" => Some(0x2A)
    case "ps" => Some(0x2C)
    case "printscreen" => Some(0x2C)
    case "numpad0" => Some(0x60)
    case "numpad1" => Some(0x61)
    case "numpad2" => Some(0x62)
    case "numpad3" => Some(0x63)
    case "numpad4" => Some(0x64)
    case "numpad5" => Some(0x65)
    case "numpad6" => Some(0x66)
    case "numpad7" => Some(0x67)
    case "numpad8" => Some(0x68)
    case "numpad9" => Some(0x69)
    case "numlock" => Some(0x90)
    case "play" => Some(0xFA)
    case "pa1" => Some(0xFD)
    case "oem_clear" => Some(0xFE)
    case _ => None
  }

  /** The names of the table that start with `q` to `v`. */
  function KeyNamesQToV(name: string): Option<VirtualKey> {
    match name
    case "tab" => Some(0x09)
    case "return" => Some(0x0D)
    case "shift" => Some(0x10)
    case "space" => Some(0x20)
    case "up" => Some(0x26)
    case "right" => Some(0x27)
    case "select" => Some(0x29)
    case "rwin" => Some(0x5C)
    case "sleep" => Some(0x5F)
    case "separator" => Some(0x6C)
    case "subtract" => Some(0x6D)
    case "scroll" => Some(0x91)
    case "rshift" => Some(0xA1)
    case "rctrl" => Some(0xA3)
    case "ralt" => Some(0xA5)
    case "volume_mute" => Some(0xAD)
    case "volume_down" => Some(0xAE)
    case "volume_up" => Some(0xAF)
    case _ => None
  }

  /** The names of the table that start with `w` to `z`. */
  function KeyNamesWToZ(name: string): Option<VirtualKey> {
    match name
    case "win" => Some(0x5B)
    case "zoom" => Some(0xFB)
    case _ => None
  }

  /** Names that stand for the four characters the bracket syntax reserves (`ESCAPED_KEY_NAME_TO_CHAR`). */
  const EscapedKeyNameToChar: map<string, char> :=
    map["lt" := '<', "gt" := '>', "minus" := '-', "plus" := '+']

  /** The raw signed 16-bit value `VkKeyScanW` returns. */
  newtype Short = x: int | -0x8000 <= x < 0x8000

  /**
   * The platform's character scan (`VkKeyScanW`): its low byte is the virtual
   * key, bit 8 says shift is needed, and -1 means no key produces the character.
   * It is a parameter of every operation that resolves characters.
   */
  type Scanner = char -> Short

  /** A resolved key: its virtual-key code and whether shift must be held to produce it. */
  datatype Resolved = Resolved(vk: VirtualKey, shift: bool)

  /**
   * `parse_char`: decode the scan of `c`. The low byte and bit 8 are taken with
   * Euclidean `%` and `/` by powers of two, which agree with masking the
   * two's-complement value as the source does.
   */
  function ParseChar(scan: Scanner, c: char): (r: Result<Resolved>)
    ensures r.Err? <==> scan(c) == -1
    ensures r.Err? ==> r.error == ScanFailed(c)
  {
    var ret := scan(c) as int;
    if ret == -1 then Err(ScanFailed(c))
    else Ok(Resolved((ret % 0x100) as VirtualKey, (ret / 0x100) % 2 == 1))
  }

  /**
   * Decoding recovers the key and the shift flag from any scan value built
   * from them, whatever the remaining shift-state bits of the high byte.
   */
  lemma ParseCharDecodes(scan: Scanner, c: char, vk: VirtualKey, shift: bool, rest: int)
    requires -0x40 <= rest < 0x40
    requires scan(c) as int == vk as int + (if shift then 0x100 else 0) + 0x200 * rest
    requires scan(c) != -1
    ensures ParseChar(scan, c) == Ok(Resolved(vk, shift))
  {
  }

  /** Number of bytes of `c` in UTF-8, the unit of Rust's `str::len`. */
  function Utf8CharLength(c: char): nat {
    if c as int < 0x80 then 1
    else if c as int < 0x800 then 2
    else if c as int < 0x1_0000 then 3
    else 4
  }

  /** Rust's `str::len`: the UTF-8 byte length of a string. */
  function Utf8Length(s: string): nat {
    if s == [] then 0 else Utf8CharLength(s[0]) + Utf8Length(s[1..])
  }

  /** A string is one byte long exactly when it is a single ASCII character. */
  lemma {:induction false} Utf8LengthIsOne(s: string)
    ensures Utf8Length(s) == 1 <==> |s| == 1 && s[0] as int < 0x80
  {
    if |s| >= 2 {
      assert s[1..] != [];
      assert Utf8Length(s[1..]) >= Utf8CharLength(s[1]);
    }
  }

  /** The escape names are not table names. */
  lemma EscapeNamesAreNotKeyNames(s: string)
    ensures s in EscapedKeyNameToChar ==> KeyNameToVk(s) == None
  {
    assert KeyNameToVk("lt") == None && KeyNameToVk("gt") == None;
    assert KeyNameToVk("minus") == None && KeyNameToVk("plus") == None;
  }

  /**
   * `parse_part`: resolve one bracket token. The empty token fails; a table
   * name resolves to its key; an escape name, or a token one byte long,
   * resolves through the character scan; anything else is an unknown name.
   */
  function ParsePart(scan: Scanner, s: string): Result<Resolved> {
    if Utf8Length(s) == 0 then Err(EmptyKeyName)
    else if KeyNameToVk(s).Some? then Ok(Resolved(KeyNameToVk(s).value, false))
    else if s !in EscapedKeyNameToChar && Utf8Length(s) != 1 then Err(UnknownKeyName(s))
    else
      var ch := if s in EscapedKeyNameToChar then EscapedKeyNameToChar[s] else s[0];
      ParseChar(scan, ch)
  }

  /**
   * The cases of `parse_part`, which do not overlap: only the empty token is
   * empty, table names resolve without shift, escape names and single ASCII
   * characters go through the scan, and a non-empty token that is none of
   * these is an unknown name (so is a single non-ASCII character, which is
   * more than one byte long).
   */
  lemma ParsePartCases(scan: Scanner, s: string)
    ensures s == [] ==> ParsePart(scan, s) == Err(EmptyKeyName)
    ensures KeyNameToVk(s).Some? ==> ParsePart(scan, s) == Ok(Resolved(KeyNameToVk(s).value, false))
    ensures s in EscapedKeyNameToChar ==> ParsePart(scan, s) == ParseChar(scan, EscapedKeyNameToChar[s])
    ensures |s| == 1 && s[0] as int < 0x80 ==> ParsePart(scan, s) == ParseChar(scan, s[0])
    ensures s != [] && KeyNameToVk(s) == None && s !in EscapedKeyNameToChar && !(|s| == 1 && s[0] as int < 0x80)
            ==> ParsePart(scan, s) == Err(UnknownKeyName(s))
  {
    Utf8LengthIsOne(s);
    EscapeNamesAreNotKeyNames(s);
  }
}
