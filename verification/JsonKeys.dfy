/** Keeping field keys apart from the reserved keys of the JSON formatter (formatters/json.go). */
module JsonKeys {

  /** The configurable key names of the formatter. */
  class Json {
    var keyTimestamp: string
    var keyLevel: string
    var keyMsg: string
    var keyStacktrace: string
    var keyCaller: string

    constructor (timestamp: string, level: string, msg: string, stacktrace: string, caller: string)
      ensures keyTimestamp == timestamp && keyLevel == level && keyMsg == msg
      ensures keyStacktrace == stacktrace && keyCaller == caller
    {
      keyTimestamp, keyLevel, keyMsg, keyStacktrace, keyCaller := timestamp, level, msg, stacktrace, caller;
    }

    /** The keys prefixCollision looks at; the caller key is not among them. */
    function Reserved(): set<string>
      reads this
    {
      {keyTimestamp, keyLevel, keyMsg, keyStacktrace}
    }

    method ApplyDefaultKeyNames()
      modifies this
      ensures if old(keyTimestamp) == "" then keyTimestamp == "timestamp" else keyTimestamp == old(keyTimestamp)
      ensures if old(keyLevel) == "" then keyLevel == "level" else keyLevel == old(keyLevel)
      ensures if old(keyMsg) == "" then keyMsg == "msg" else keyMsg == old(keyMsg)
      ensures if old(keyStacktrace) == "" then keyStacktrace == "stacktrace" else keyStacktrace == old(keyStacktrace)
      ensures if old(keyCaller) == "" then keyCaller == "caller" else keyCaller == old(keyCaller)
      ensures "" !in Reserved() && keyCaller != ""
    {
      if keyTimestamp == "" { keyTimestamp := "timestamp"; }
      if keyLevel == "" { keyLevel := "level"; }
      if keyMsg == "" { keyMsg := "msg"; }
      if keyStacktrace == "" { keyStacktrace := "stacktrace"; }
      if keyCaller == "" { keyCaller := "caller"; }
    }
  }

  function Underscores(n: nat): string { if n == 0 then "" else "_" + Underscores(n - 1) }

  /** Longer than every reserved key. */
  ghost function Bound(reserved: set<string>): (b: nat)
    ensures forall k :: k in reserved ==> |k| < b
  {
    if reserved == {} then 0
    else
      var k :| k in reserved;
      var b := Bound(reserved - {k});
      assert reserved == (reserved - {k}) + {k};
      if |k| < b then b else |k| + 1
  }

  /** prefixCollision, on the key alone: the other parts of the field are copied. */
  function PrefixCollision(key: string, reserved: set<string>): string
    decreases Bound(reserved) - |key|
  {
    if key in reserved then PrefixCollision("_" + key, reserved) else key
  }

  /** How many underscores it adds. */
  ghost function Added(key: string, reserved: set<string>): nat
    decreases Bound(reserved) - |key|
  {
    if key in reserved then 1 + Added("_" + key, reserved) else 0
  }

  lemma {:induction false} UnderscoresMove(n: nat, key: string)
    ensures Underscores(n) + ("_" + key) == Underscores(n + 1) + key
  {
    if n > 0 {
      UnderscoresMove(n - 1, key);
      assert Underscores(n) + ("_" + key) == "_" + (Underscores(n - 1) + ("_" + key));
    }
  }

  /** The result is the key under the least number of underscores that is not reserved. */
  lemma {:induction false} LeastPrefix(key: string, reserved: set<string>)
    ensures PrefixCollision(key, reserved) == Underscores(Added(key, reserved)) + key
    ensures PrefixCollision(key, reserved) !in reserved
    ensures forall n :: 0 <= n < Added(key, reserved) ==> Underscores(n) + key in reserved
    decreases Bound(reserved) - |key|
  {
    if key in reserved {
      LeastPrefix("_" + key, reserved);
      UnderscoresMove(Added("_" + key, reserved), key);
      forall n | 0 <= n < Added(key, reserved) ensures Underscores(n) + key in reserved {
        if n == 0 {
          assert Underscores(0) + key == key;
        } else {
          UnderscoresMove(n - 1, key);
        }
      }
    } else {
      assert Underscores(0) + key == key;
    }
  }

  /** A key shorter than every candidate plays no part. */
  lemma {:induction false} DropShorter(key: string, reserved: set<string>, k: string)
    requires |k| < |key|
    ensures Added(key, reserved) == Added(key, reserved - {k})
    decreases Bound(reserved) - |key|
  {
    if key in reserved {
      DropShorter("_" + key, reserved, k);
    }
  }

  /** One underscore for each reserved key at most, since candidates only get longer: no more than four. */
  lemma {:induction false} AddedAtMost(key: string, reserved: set<string>)
    ensures Added(key, reserved) <= |reserved|
    decreases |reserved|
  {
    if key in reserved {
      DropShorter("_" + key, reserved, key);
      AddedAtMost("_" + key, reserved - {key});
    }
  }

  lemma FourSuffice(key: string, a: string, b: string, c: string, d: string)
    ensures var r := {a, b, c, d}; Added(key, r) <= 4 && PrefixCollision(key, r) !in r
  {
    AddedAtMost(key, {a, b, c, d});
    LeastPrefix(key, {a, b, c, d});
    assert {a, b, c, d} == {a} + {b} + {c} + {d};
    assert |{a, b, c, d}| <= 4;
  }

  /** Fields with different keys can only end up under the same key if one differs by leading underscores. */
  lemma CollisionOnlyByUnderscores(k1: string, k2: string, reserved: set<string>)
    requires PrefixCollision(k1, reserved) == PrefixCollision(k2, reserved)
    ensures exists n :: k1 == Underscores(n) + k2 || k2 == Underscores(n) + k1
  {
    var a, b := Added(k1, reserved), Added(k2, reserved);
    LeastPrefix(k1, reserved);
    LeastPrefix(k2, reserved);
    if a <= b { Cancel(a, b - a, k1, k2); } else { Cancel(b, a - b, k2, k1); }
  }

  lemma {:induction false} Cancel(n: nat, m: nat, k1: string, k2: string)
    requires Underscores(n) + k1 == Underscores(n + m) + k2
    ensures k1 == Underscores(m) + k2
  {
    if n > 0 {
      assert Underscores(n) + k1 == "_" + (Underscores(n - 1) + k1);
      assert Underscores(n + m) + k2 == "_" + (Underscores(n + m - 1) + k2);
      assert ("_" + (Underscores(n - 1) + k1))[1..] == Underscores(n - 1) + k1;
      assert ("_" + (Underscores(n + m - 1) + k2))[1..] == Underscores(n + m - 1) + k2;
      Cancel(n - 1, m, k1, k2);
    } else {
      assert "" + k1 == k1;
    }
  }
}
