/**
 * The keys `wait_keys_up` (src/keyboard.rs) waits for: the compiled key
 * sequence is reduced to the set of distinct keys it presses or releases.
 * The polling of the keyboard and its timeout are not part of this model.
 */
module WaitKeys {
  import opened KeyTypes
  import opened KeyNames
  import opened KeyEmit
  import opened KeyParser

  /** The distinct keys a sequence of events presses or releases. */
  function KeysTouched(inputs: seq<KeyInput>): (keys: set<VirtualKey>)
    ensures forall k :: k in keys <==> KeyDown(k) in inputs || KeyUp(k) in inputs
  {
    set e | e in inputs :: e.key
  }

  /** The set-building loop of `wait_keys_up`: every event adds its key. */
  method KeySet(inputs: seq<KeyInput>) returns (keys: set<VirtualKey>)
    ensures keys == KeysTouched(inputs)
  {
    keys := {};
    for i := 0 to |inputs|
      invariant keys == KeysTouched(inputs[..i])
    {
      assert inputs[..i + 1] == inputs[..i] + [inputs[i]];
      match inputs[i]
      case KeyDown(key) => keys := keys + {key};
      case KeyUp(key) => keys := keys + {key};
    }
    assert inputs[..|inputs|] == inputs;
  }

  /** The keys of two runs of events are the keys of each. */
  lemma KeysTouchedAppend(a: seq<KeyInput>, b: seq<KeyInput>)
    ensures KeysTouched(a + b) == KeysTouched(a) + KeysTouched(b)
  {
    forall k | k in KeysTouched(a + b)
      ensures k in KeysTouched(a) + KeysTouched(b)
    {
      var e :| e in a + b && e.key == k;
    }
  }

  /**
   * The set does not depend on the order of the events or on how often a
   * key occurs: event sequences with the same events have the same keys.
   */
  lemma KeysTouchedIgnoresOrder(a: seq<KeyInput>, b: seq<KeyInput>)
    requires forall e :: e in a <==> e in b
    ensures KeysTouched(a) == KeysTouched(b)
  {
    forall k | k in KeysTouched(a)
      ensures k in KeysTouched(b)
    {
      var e :| e in a && e.key == k;
      assert e in b;
    }
  }

  /** A combination touches exactly the keys it names. */
  lemma ComboTouchesItsKeys(keys: seq<VirtualKey>)
    ensures KeysTouched(ComboEvents(keys)) == set k | k in keys
  {
    ComboEventsFlat(keys);
    var events := Presses(keys) + Releases(keys);
    forall k | k in keys
      ensures k in KeysTouched(events)
    {
      var i :| 0 <= i < |keys| && keys[i] == k;
      assert events[i] == KeyDown(k);
    }
    forall k | k in KeysTouched(events)
      ensures k in keys
    {
      var e :| e in events && e.key == k;
      var i :| 0 <= i < |events| && events[i] == e;
      if i < |keys| {
        assert e == KeyDown(keys[i]);
      } else {
        assert e == KeyUp(keys[|keys| - 1 - (i - |keys|)]);
      }
    }
  }

  /** `wait_keys_up` up to the polling: the compiler's error, or the keys to wait for. */
  method WaitKeysUp(scan: Scanner, s: string) returns (r: Result<set<VirtualKey>>)
    ensures r == match Compile(scan, s) case Err(e) => Err(e) case Ok(inputs) => Ok(KeysTouched(inputs))
  {
    var inputs := ParseStr(scan, s);
    if inputs.Err? {
      return Err(inputs.error);
    }
    var keys := KeySet(inputs.value);
    return Ok(keys);
  }
}
