/**
 * What the key-sequence compiler does with whole pieces of input: literal
 * runs, bracket groups in each of their three forms, and the malformed
 * groups it rejects. Each lemma runs the machine of `KeyParser` over the
 * text of the piece.
 */
module KeyParserProperties {
  import opened KeyTypes
  import opened KeyNames
  import opened KeyEmit
  import opened KeyParser

  /** Outside any bracket with no token pending, as after `Start` and after every group. */
  predicate Idle(m: Machine) {
    !m.inBracket && m.part == []
  }

  /** A bracket token that stops at the next delimiter: non-empty, without `>`, `+` or `-`. */
  predicate PlainToken(t: string) {
    t != [] && forall i :: 0 <= i < |t| ==> !IsGroupDelimiter(t[i])
  }

  function SepChar(plus: bool): char {
    if plus then '+' else '-'
  }

  /** Tokens each followed by its separator: `Interleave(["ctrl", "alt"], [true, false]) == "ctrl+alt-"`. */
  function Interleave(tokens: seq<string>, ops: seq<bool>): string
    requires |tokens| == |ops|
  {
    if tokens == [] then [] else tokens[0] + [SepChar(ops[0])] + Interleave(tokens[1..], ops[1..])
  }

  /** Each key typed as a literal without shift: down then up, key after key. */
  function Pairs(keys: seq<VirtualKey>): seq<KeyInput> {
    if keys == [] then [] else [KeyDown(keys[0]), KeyUp(keys[0])] + Pairs(keys[1..])
  }

  /** Running over a concatenation runs over the first part, then over the second from where it stopped. */
  lemma {:induction false} RunAppend(scan: Scanner, m: Machine, a: string, b: string)
    ensures Run(scan, m, a + b) ==
      match Run(scan, m, a)
      case Err(e) => Err(e)
      case Ok(m') => Run(scan, m', b)
    decreases |a|
  {
    if a == [] {
      assert a + b == b;
    } else {
      assert (a + b)[0] == a[0];
      assert (a + b)[1..] == a[1..] + b;
      match Step(scan, m, a[0])
      case Err(e) =>
      case Ok(m1) => RunAppend(scan, m1, a[1..], b);
    }
  }

  /** Inside a bracket, characters other than delimiters only extend the pending token. */
  lemma {:induction false} RunToken(scan: Scanner, m: Machine, t: string)
    requires m.inBracket
    requires forall i :: 0 <= i < |t| ==> !IsGroupDelimiter(t[i])
    ensures Run(scan, m, t) == Ok(m.(part := m.part + t))
    decreases |t|
  {
    if t == [] {
      assert m.part + t == m.part;
    } else {
      var m1 := m.(part := m.part + [t[0]]);
      assert Step(scan, m, t[0]) == Ok(m1);
      RunToken(scan, m1, t[1..]);
      assert m1.part + t[1..] == m.part + t;
    }
  }

  /** Running over two pieces in turn is running over their concatenation. */
  lemma RunThen(scan: Scanner, m: Machine, a: string, b: string, m1: Machine, r: Result<Machine>)
    requires Run(scan, m, a) == Ok(m1) && Run(scan, m1, b) == r
    ensures Run(scan, m, a + b) == r
  {
    RunAppend(scan, m, a, b);
  }

  /** Running over a single character is one step. */
  lemma RunOne(scan: Scanner, m: Machine, c: char)
    ensures Run(scan, m, [c]) == Step(scan, m, c)
  {
    assert [c][1..] == [];
  }

  /** Running over one more character is one more step. */
  lemma RunSnoc(scan: Scanner, m: Machine, body: string, m1: Machine, c: char)
    requires Run(scan, m, body) == Ok(m1)
    ensures Run(scan, m, body + [c]) == Step(scan, m1, c)
  {
    RunAppend(scan, m, body, [c]);
    assert [c][1..] == [];
  }

  /** Every token is a plain token and resolves to the matching part. */
  predicate Resolves(scan: Scanner, tokens: seq<string>, resolved: seq<Resolved>)
    decreases |tokens|
  {
    && |tokens| == |resolved|
    && (tokens != [] ==>
          && PlainToken(tokens[0])
          && ParsePart(scan, tokens[0]) == Ok(resolved[0])
          && Resolves(scan, tokens[1..], resolved[1..]))
  }

  /** After a separator-terminated token, the group has one more part and one more separator. */
  lemma RunTokenAndSeparator(scan: Scanner, m: Machine, t: string, plus: bool, p: Resolved)
    requires m.inBracket && m.part == [] && |m.seps| == |m.parts|
    requires PlainToken(t) && ParsePart(scan, t) == Ok(p)
    ensures Run(scan, m, t + [SepChar(plus)]) == Ok(m.(parts := m.parts + [p], seps := m.seps + [plus]))
  {
    RunToken(scan, m, t);
    var m1 := m.(part := m.part + t);
    RunSnoc(scan, m, t, m1, SepChar(plus));
    assert m1 == m.(part := t);
    assert ResolvePending(scan, m1) == Ok(m.(parts := m.parts + [p]));
  }

  /**
   * Tokens each followed by a separator: every token is resolved and added
   * to the group's parts, and every separator is recorded after it.
   */
  lemma {:induction false} RunSeparated(scan: Scanner, m: Machine, tokens: seq<string>, ops: seq<bool>,
                                        resolved: seq<Resolved>)
    requires m.inBracket && m.part == [] && |m.seps| == |m.parts|
    requires |ops| == |tokens| && Resolves(scan, tokens, resolved)
    ensures Run(scan, m, Interleave(tokens, ops)) == Ok(m.(parts := m.parts + resolved, seps := m.seps + ops))
    decreases |tokens|
  {
    if tokens == [] {
      assert m.parts + resolved == m.parts && m.seps + ops == m.seps;
    } else {
      var head := tokens[0] + [SepChar(ops[0])];
      RunAppend(scan, m, head, Interleave(tokens[1..], ops[1..]));
      RunTokenAndSeparator(scan, m, tokens[0], ops[0], resolved[0]);
      var m1 := m.(parts := m.parts + [resolved[0]], seps := m.seps + [ops[0]]);
      RunSeparated(scan, m1, tokens[1..], ops[1..], resolved[1..]);
      assert m1.parts + resolved[1..] == m.parts + resolved;
      assert m1.seps + ops[1..] == m.seps + ops;
    }
  }

  /**
   * The body of a group up to its closing `>`: after `<`, tokens with their
   * separators and a last token without one, the machine is inside the
   * bracket with those parts and separators and the last token pending.
   */
  lemma RunGroupBody(scan: Scanner, m: Machine, tokens: seq<string>, ops: seq<bool>, resolved: seq<Resolved>,
                     last: string)
    requires Idle(m)
    requires |ops| == |tokens| && Resolves(scan, tokens, resolved)
    requires forall i :: 0 <= i < |last| ==> !IsGroupDelimiter(last[i])
    ensures Run(scan, m, ['<'] + Interleave(tokens, ops) + last)
         == Ok(m.(inBracket := true, part := last, parts := resolved, seps := ops))
  {
    var m0 := m.(inBracket := true, parts := [], seps := []);
    RunOne(scan, m, '<');
    RunAppend(scan, m, ['<'], Interleave(tokens, ops));
    RunSeparated(scan, m0, tokens, ops, resolved);
    var m1 := m0.(parts := resolved, seps := ops);
    assert m0.parts + resolved == resolved && m0.seps + ops == ops;
    RunAppend(scan, m, ['<'] + Interleave(tokens, ops), last);
    RunToken(scan, m1, last);
    assert m1.part + last == last;
  }

  /** All `+`: the separators of a combination such as `<ctrl+alt+del>`. */
  function Pluses(n: nat): (ops: seq<bool>)
    ensures |ops| == n && false !in ops
  {
    seq(n, _ => true)
  }

  /** Closing a group whose last token is still pending resolves that token first. */
  lemma CloseAfterLast(scan: Scanner, m: Machine, last: string, p: Resolved)
    requires m.inBracket && m.part == last
    requires PlainToken(last) && ParsePart(scan, last) == Ok(p)
    ensures Step(scan, m, '>') == CloseGroup(m.(part := [], parts := m.parts + [p]))
  {
    assert ResolvePending(scan, m) == Ok(m.(part := [], parts := m.parts + [p]));
  }

  /**
   * Combination nesting. For `<k1+...+kn>` with n >= 2 the group emits
   * `Down(k1) ... Down(kn), Up(kn) ... Up(k1)` (the shift flags of the parts
   * are ignored), its bookkeeping follows those events, and the machine is
   * back outside the bracket.
   */
  lemma Combination(scan: Scanner, m: Machine, firsts: seq<string>, last: string, resolved: seq<Resolved>, p: Resolved)
    requires Idle(m)
    requires |firsts| >= 1 && Resolves(scan, firsts, resolved)
    requires PlainToken(last) && ParsePart(scan, last) == Ok(p)
    ensures var events := ComboEvents(KeysOf(resolved + [p]));
      Run(scan, m, ['<'] + Interleave(firsts, Pluses(|firsts|)) + last + ['>'])
      == Ok(m.(result := m.result + events, state := Replay(m.state, events),
               parts := resolved + [p], seps := Pluses(|firsts|)))
  {
    var ops := Pluses(|firsts|);
    var body := ['<'] + Interleave(firsts, ops) + last;
    RunGroupBody(scan, m, firsts, ops, resolved, last);
    var m1 := m.(inBracket := true, part := last, parts := resolved, seps := ops);
    RunSnoc(scan, m, body, m1, '>');
    CloseAfterLast(scan, m1, last, p);
    var m2 := m1.(part := [], parts := resolved + [p]);
    assert |m2.parts| == |ops| + 1 && m2.seps != [] && false !in m2.seps;
    var events := ComboEvents(KeysOf(resolved + [p]));
    assert CloseGroup(m2) == Ok(m2.(result := m.result + events, state := Replay(m.state, events), inBracket := false));
  }

  /** `-` inside a combination: one more part than separators and some separator `-` fails, as `<ctrl-c>` does. */
  lemma MinusInCombinationFails(scan: Scanner, m: Machine, firsts: seq<string>, ops: seq<bool>, last: string,
                                resolved: seq<Resolved>, p: Resolved)
    requires Idle(m)
    requires |ops| == |firsts| >= 1 && false in ops && Resolves(scan, firsts, resolved)
    requires PlainToken(last) && ParsePart(scan, last) == Ok(p)
    ensures Run(scan, m, ['<'] + Interleave(firsts, ops) + last + ['>']) == Err(MinusInCombination)
  {
    var body := ['<'] + Interleave(firsts, ops) + last;
    RunGroupBody(scan, m, firsts, ops, resolved, last);
    var m1 := m.(inBracket := true, part := last, parts := resolved, seps := ops);
    RunSnoc(scan, m, body, m1, '>');
    CloseAfterLast(scan, m1, last, p);
    var m2 := m1.(part := [], parts := resolved + [p]);
    assert |m2.parts| == |ops| + 1 && m2.seps != [];
  }

  /**
   * Trailing-operator form. When every part is followed by a separator, as
   * in `<win+>` or `<ctrl+alt->`, the group emits exactly one event per part,
   * in order: a press for `+`, a release for `-`, and nothing else.
   */
  lemma TrailingOperators(scan: Scanner, m: Machine, tokens: seq<string>, ops: seq<bool>, resolved: seq<Resolved>)
    requires Idle(m)
    requires |ops| == |tokens| >= 1 && Resolves(scan, tokens, resolved)
    ensures var events := OpEvents(resolved, ops);
      && |events| == |ops|
      && (forall i :: 0 <= i < |ops| ==> events[i] == if ops[i] then KeyDown(resolved[i].vk) else KeyUp(resolved[i].vk))
      && Run(scan, m, ['<'] + Interleave(tokens, ops) + ['>'])
         == Ok(m.(result := m.result + events, state := Replay(m.state, events), parts := resolved, seps := ops))
  {
    var body := ['<'] + Interleave(tokens, ops);
    RunGroupBody(scan, m, tokens, ops, resolved, []);
    assert body + [] == body;
    var m1 := m.(inBracket := true, part := [], parts := resolved, seps := ops);
    RunSnoc(scan, m, body, m1, '>');
    assert ResolvePending(scan, m1) == Ok(m1);
  }

  /** Single name: `<pagedown>` or `<lt>` types its one part exactly like a literal character. */
  lemma SingleName(scan: Scanner, m: Machine, token: string, p: Resolved)
    requires Idle(m)
    requires PlainToken(token) && ParsePart(scan, token) == Ok(p)
    ensures var (events, st) := TypeKey(p.vk, p.shift, m.state);
      Run(scan, m, ['<'] + token + ['>'])
      == Ok(m.(result := m.result + events, state := st, parts := [p], seps := []))
  {
    var m0 := m.(inBracket := true, parts := [], seps := []);
    RunOne(scan, m, '<');
    RunAppend(scan, m, ['<'], token);
    RunToken(scan, m0, token);
    var m1 := m0.(part := m0.part + token);
    assert m1 == m0.(part := token);
    RunSnoc(scan, m, ['<'] + token, m1, '>');
    CloseAfterLast(scan, m1, token, p);
    assert m1.(part := [], parts := m1.parts + [p]).parts == [p];
  }

  /**
   * A separator not immediately preceded by a freshly resolved part fails:
   * right after `<` (as in `<+>`) or right after another separator (as in
   * `<ctrl+->`).
   */
  lemma SeparatorNeedsKey(scan: Scanner, m: Machine, c: char)
    requires m.inBracket && m.part == [] && |m.seps| == |m.parts|
    requires c == '+' || c == '-'
    ensures Step(scan, m, c) == Err(MissingKeyBeforeSeparator)
  {
  }

  /** A group closed with no part at all, as `<>`, fails. */
  lemma EmptyGroupFails(scan: Scanner, m: Machine)
    requires Idle(m)
    ensures Run(scan, m, "<>") == Err(MissingKeyAfterBracket)
  {
    var m0 := m.(inBracket := true, parts := [], seps := []);
    assert Step(scan, m, '<') == Ok(m0);
    assert Step(scan, m0, '>') == Err(MissingKeyAfterBracket);
    assert "<>"[1..] == ">";
  }

  /**
   * Inside a bracket that is never closed nothing is emitted: as long as
   * the input has no `>`, the events and the bookkeeping stay as they were
   * and the machine stays inside the bracket. So an unterminated group at
   * the end of the input is dropped without error.
   */
  lemma {:induction false} UnclosedGroupEmitsNothing(scan: Scanner, m: Machine, s: string)
    requires m.inBracket
    requires forall i :: 0 <= i < |s| ==> s[i] != '>'
    ensures Run(scan, m, s).Ok? ==>
      var m' := Run(scan, m, s).value;
      m'.inBracket && m'.result == m.result && m'.state == m.state
    decreases |s|
  {
    if s != [] {
      match Step(scan, m, s[0])
      case Err(_) =>
      case Ok(m1) =>
        assert m1.inBracket && m1.result == m.result && m1.state == m.state;
        UnclosedGroupEmitsNothing(scan, m1, s[1..]);
    }
  }

  /**
   * A run of plain characters that all need shift presses shift once at
   * most, before the first of them, and never releases it: each character
   * is then just a down/up pair.
   */
  lemma {:induction false} ShiftedRun(scan: Scanner, m: Machine, s: string, keys: seq<VirtualKey>)
    requires Idle(m)
    requires |s| == |keys| >= 1
    requires forall i :: 0 <= i < |s| ==> s[i] != '<' && ParseChar(scan, s[i]) == Ok(Resolved(keys[i], true))
    ensures var held := m.state.shift != NotPressed;
      Run(scan, m, s) == Ok(m.(
        result := m.result + (if held then [] else [KeyDown(VkShift)]) + Pairs(keys),
        state := if held then m.state else m.state.(shift := VkShift)))
    decreases |s|
  {
    var held := m.state.shift != NotPressed;
    var pre := if held then [] else [KeyDown(VkShift)];
    var st1 := if held then m.state else m.state.(shift := VkShift);
    if held {
      assert pre + [KeyDown(keys[0]), KeyUp(keys[0])] == [KeyDown(keys[0]), KeyUp(keys[0])];
    } else {
      assert pre + [KeyDown(keys[0]), KeyUp(keys[0])] == [KeyDown(VkShift), KeyDown(keys[0]), KeyUp(keys[0])];
    }
    assert TypeKey(keys[0], true, m.state) == (pre + [KeyDown(keys[0]), KeyUp(keys[0])], st1);
    var m1 := m.(result := m.result + (pre + [KeyDown(keys[0]), KeyUp(keys[0])]), state := st1);
    assert s[0] != '<' && ParseChar(scan, s[0]) == Ok(Resolved(keys[0], true));
    assert Step(scan, m, s[0]) == Ok(m1);
    assert Run(scan, m, s) == Run(scan, m1, s[1..]);
    assert Pairs(keys) == [KeyDown(keys[0]), KeyUp(keys[0])] + Pairs(keys[1..]);
    if |s| == 1 {
      assert Pairs(keys[1..]) == [];
      assert m1.result == m.result + pre + Pairs(keys);
    } else {
      forall i | 0 <= i < |s| - 1
        ensures s[1..][i] != '<' && ParseChar(scan, s[1..][i]) == Ok(Resolved(keys[1..][i], true))
      {
        assert s[1..][i] == s[i + 1] && keys[1..][i] == keys[i + 1];
      }
      ShiftedRun(scan, m1, s[1..], keys[1..]);
      assert m1.state.shift != NotPressed;
      assert m1.result + [] + Pairs(keys[1..]) == m.result + pre + Pairs(keys);
    }
  }

  /**
   * A run of plain characters that need no shift, typed while shift is not
   * held, is just their down/up pairs.
   */
  lemma {:induction false} UnshiftedRun(scan: Scanner, m: Machine, s: string, keys: seq<VirtualKey>)
    requires Idle(m) && m.state.shift == NotPressed
    requires |s| == |keys|
    requires forall i :: 0 <= i < |s| ==> s[i] != '<' && ParseChar(scan, s[i]) == Ok(Resolved(keys[i], false))
    ensures Run(scan, m, s) == Ok(m.(result := m.result + Pairs(keys)))
    decreases |s|
  {
    if s == [] {
      assert m.result + Pairs(keys) == m.result;
    } else {
      var m1 := m.(result := m.result + [KeyDown(keys[0]), KeyUp(keys[0])]);
      assert Step(scan, m, s[0]) == Ok(m1);
      forall i | 0 <= i < |s| - 1
        ensures s[1..][i] != '<' && ParseChar(scan, s[1..][i]) == Ok(Resolved(keys[1..][i], false))
      {
        assert s[1..][i] == s[i + 1] && keys[1..][i] == keys[i + 1];
      }
      UnshiftedRun(scan, m1, s[1..], keys[1..]);
      assert m1.result + Pairs(keys[1..]) == m.result + Pairs(keys);
    }
  }
}
