/**
 * The key-sequence compiler (`parse_str` of src/keyboard.rs): a
 * character-by-character state machine that types plain characters as
 * literals and, between `<` and `>`, collects key tokens and the `+`/`-`
 * separators that follow them, then emits the group in one of three forms.
 *
 * `Step` is one transition of the machine and `Compile` folds it over the
 * input; `ParseStr` is the loop of the source, proved to compute `Compile`.
 */
module KeyParser {
  import opened KeyTypes
  import opened KeyNames
  import opened KeyEmit

  /** Everything `parse_str` keeps between two characters. */
  datatype Machine = Machine(
    result: seq<KeyInput>,   // events emitted so far
    state: KeyState,         // modifier bookkeeping
    inBracket: bool,         // between `<` and `>`
    part: string,            // the token being collected
    parts: seq<Resolved>,    // the group's resolved tokens
    seps: seq<bool>)         // the separator after each token, true for `+`

  const Start := Machine([], InitialKeyState, false, [], [], [])

  /** Characters that end a token inside a bracket. */
  predicate IsGroupDelimiter(c: char) {
    c == '>' || c == '-' || c == '+'
  }

  /** Resolve the pending token, if any, and add it to the group's parts. */
  function ResolvePending(scan: Scanner, m: Machine): Result<Machine> {
    if m.part == [] then Ok(m)
    else
      var p :- ParsePart(scan, m.part);
      Ok(m.(part := [], parts := m.parts + [p]))
  }

  /**
   * The closing `>`: a group without parts fails; a single part is typed as
   * a literal; when every part is followed by a separator each part is a
   * bare press or release; otherwise the group is a combination, which may
   * not contain `-`.
   */
  function CloseGroup(m: Machine): Result<Machine> {
    if m.parts == [] then Err(MissingKeyAfterBracket)
    else if m.seps == [] then
      var (events, st) := TypeKey(m.parts[0].vk, m.parts[0].shift, m.state);
      Ok(m.(result := m.result + events, state := st, inBracket := false))
    else if |m.parts| == |m.seps| then
      var events := OpEvents(m.parts, m.seps);
      Ok(m.(result := m.result + events, state := Replay(m.state, events), inBracket := false))
    else if false in m.seps then Err(MinusInCombination)
    else
      var events := ComboEvents(KeysOf(m.parts));
      Ok(m.(result := m.result + events, state := Replay(m.state, events), inBracket := false))
  }

  /** One character of the input. */
  function Step(scan: Scanner, m: Machine, c: char): Result<Machine> {
    if !m.inBracket then
      if c == '<' then Ok(m.(inBracket := true, parts := [], seps := []))
      else
        var r :- ParseChar(scan, c);
        var (events, st) := TypeKey(r.vk, r.shift, m.state);
        Ok(m.(result := m.result + events, state := st))
    else if !IsGroupDelimiter(c) then Ok(m.(part := m.part + [c]))
    else
      var m' :- ResolvePending(scan, m);
      if c == '>' then CloseGroup(m')
      else if |m'.seps| >= |m'.parts| then Err(MissingKeyBeforeSeparator)
      else Ok(m'.(seps := m'.seps + [c == '+']))
  }

  /** The machine after the whole of `s`, or the first error. */
  function Run(scan: Scanner, m: Machine, s: string): Result<Machine>
    decreases |s|
  {
    if s == [] then Ok(m)
    else
      var m' :- Step(scan, m, s[0]);
      Run(scan, m', s[1..])
  }

  /**
   * The events `parse_str` returns for `s`. A group still open at the end of
   * the input is dropped without error.
   */
  function Compile(scan: Scanner, s: string): Result<seq<KeyInput>> {
    var m :- Run(scan, Start, s);
    Ok(m.result)
  }

  /** Running from position `i` is one step followed by running from `i + 1`. */
  lemma RunFrom(scan: Scanner, m: Machine, s: string, i: nat)
    requires i < |s|
    ensures Run(scan, m, s[i..]) ==
      match Step(scan, m, s[i])
      case Err(e) => Err(e)
      case Ok(m') => Run(scan, m', s[i + 1..])
  {
    assert s[i..][0] == s[i];
    assert s[i..][1..] == s[i + 1..];
  }

  /**
   * `parse_str`. Besides computing `Compile`, the loop keeps the invariant
   * that inside a bracket there is one separator per resolved part, so the
   * source's two `assert_eq!` checks never fire.
   */
  method ParseStr(scan: Scanner, s: string) returns (r: Result<seq<KeyInput>>)
    ensures r == Compile(scan, s)
  {
    var result: seq<KeyInput> := [];
    var inBracket := false;
    var state := InitialKeyState;
    var part: string := [];
    var parts: seq<Resolved> := [];
    var seps: seq<bool> := [];

    for i := 0 to |s|
      invariant inBracket ==> |seps| == |parts|
      invariant Run(scan, Start, s) == Run(scan, Machine(result, state, inBracket, part, parts, seps), s[i..])
    {
      var c := s[i];
      ghost var m := Machine(result, state, inBracket, part, parts, seps);
      RunFrom(scan, m, s, i);

      if !inBracket {
        if c == '<' {
          inBracket := true;
          parts := [];
          seps := [];
          continue;
        }
        var rc := ParseChar(scan, c);
        if rc.Err? {
          return Err(rc.error);
        }
        result, state := PushKeyDownAndUp(rc.value.vk, rc.value.shift, result, state);
        continue;
      }

      if c != '>' && c != '-' && c != '+' {
        part := part + [c];
        continue;
      }

      if part != [] {
        var rp := ParsePart(scan, part);
        if rp.Err? {
          return Err(rp.error);
        }
        part := [];
        parts := parts + [rp.value];
      }
      ghost var m1 := Machine(result, state, inBracket, part, parts, seps);
      assert ResolvePending(scan, m) == Ok(m1);

      if c == '+' || c == '-' {
        if |seps| >= |parts| {
          return Err(MissingKeyBeforeSeparator);
        }
        seps := seps + [c == '+'];
        continue;
      }

      if parts == [] {
        return Err(MissingKeyAfterBracket);
      }

      if seps == [] {
        assert |parts| == 1;
        result, state := PushKeyDownAndUp(parts[0].vk, parts[0].shift, result, state);
        inBracket := false;
        continue;
      }

      if |parts| == |seps| {
        result, state := EmitOps(parts, seps, result, state);
        inBracket := false;
        continue;
      }

      assert |parts| == |seps| + 1;
      var plusOnly := AllPlus(seps);
      if !plusOnly {
        return Err(MinusInCombination);
      }
      result, state := EmitCombo(parts, result, state);
      inBracket := false;
    }
    assert s[|s|..] == [];
    return Ok(result);
  }

  /** The check of `parse_str` that a combination has no `-` separator. */
  method AllPlus(seps: seq<bool>) returns (ok: bool)
    ensures ok <==> false !in seps
  {
    for j := 0 to |seps|
      invariant forall k :: 0 <= k < j ==> seps[k]
    {
      if !seps[j] {
        return false;
      }
    }
    return true;
  }

  /** The trailing-operator loop of `parse_str`: a bare press or release per part. */
  method EmitOps(parts: seq<Resolved>, seps: seq<bool>, inputs: seq<KeyInput>, state: KeyState)
    returns (inputs': seq<KeyInput>, state': KeyState)
    requires |seps| == |parts|
    ensures inputs' == inputs + OpEvents(parts, seps)
    ensures state' == Replay(state, OpEvents(parts, seps))
  {
    inputs', state' := inputs, state;
    ghost var emitted: seq<KeyInput> := [];
    for j := 0 to |seps|
      invariant |emitted| == j
      invariant forall k :: 0 <= k < j ==> emitted[k] == if seps[k] then KeyDown(parts[k].vk) else KeyUp(parts[k].vk)
      invariant inputs' == inputs + emitted
      invariant state' == Replay(state, emitted)
    {
      var e := if seps[j] then KeyDown(parts[j].vk) else KeyUp(parts[j].vk);
      ReplaySnoc(state, emitted, e);
      if seps[j] {
        inputs', state' := PushKeyDown(parts[j].vk, inputs', state');
      } else {
        inputs', state' := PushKeyUp(parts[j].vk, inputs', state');
      }
      emitted := emitted + [e];
    }
    assert emitted == OpEvents(parts, seps);
  }

  /** The combination loops of `parse_str`: press every part in order, then release them in reverse order. */
  method EmitCombo(parts: seq<Resolved>, inputs: seq<KeyInput>, state: KeyState)
    returns (inputs': seq<KeyInput>, state': KeyState)
    ensures inputs' == inputs + ComboEvents(KeysOf(parts))
    ensures state' == Replay(state, ComboEvents(KeysOf(parts)))
  {
    var n := |parts|;
    ghost var keys := KeysOf(parts);
    inputs', state' := inputs, state;
    ghost var emitted: seq<KeyInput> := [];
    for j := 0 to n
      invariant emitted == Presses(keys)[..j]
      invariant inputs' == inputs + emitted
      invariant state' == Replay(state, emitted)
    {
      ReplaySnoc(state, emitted, KeyDown(parts[j].vk));
      inputs', state' := PushKeyDown(parts[j].vk, inputs', state');
      emitted := emitted + [KeyDown(parts[j].vk)];
    }
    for j := 0 to n
      invariant emitted == Presses(keys) + Releases(keys)[..j]
      invariant inputs' == inputs + emitted
      invariant state' == Replay(state, emitted)
    {
      ReplaySnoc(state, emitted, KeyUp(parts[n - 1 - j].vk));
      inputs', state' := PushKeyUp(parts[n - 1 - j].vk, inputs', state');
      assert Releases(keys)[..j + 1] == Releases(keys)[..j] + [KeyUp(parts[n - 1 - j].vk)];
      emitted := emitted + [KeyUp(parts[n - 1 - j].vk)];
    }
    assert Releases(keys)[..n] == Releases(keys);
    ComboEventsFlat(keys);
  }
}
