/** The JSON values exchanged between the backend and the frontend, and the
    objects' field lookup and update. Both sides see the same values: the
    backend builds them as Python dicts and lists, the frontend reads them as
    JavaScript objects and arrays. */
module JsonValue {

  datatype Option<+T> = None | Some(value: T)

  type Digit = d: int | 0 <= d < 10

  /** An IEEE-754 double. A finite one is kept in the form that both
      ECMA-262 (section 6.1.6.1.20, Number::toString) and Python's `repr` start from:
      the shortest decimal significand `0.d1 d2 ... dk` and the decimal point
      position `point`, so the value is `(-1)^negative * 0.d1...dk * 10^point`.
      Zero has no digits. */
  datatype Number =
    | Finite(negative: bool, digits: seq<Digit>, point: int)
    | NaN
    | PosInf
    | NegInf
  {
    /** Zero (positive or negative). */
    predicate IsZero()
    {
      Finite? && forall i :: 0 <= i < |digits| ==> digits[i] == 0
    }

    /** The shortest form: no leading and no trailing zero digit. */
    predicate Canonical()
    {
      Finite? ==> (digits == [] || (digits[0] != 0 && digits[|digits| - 1] != 0))
    }
  }

  /** An object keeps its members in insertion order, as both a Python dict
      and the property list of a JavaScript object do. Keys are distinct in
      every object either side builds; lookups take the first match. */
  datatype Json =
    | Null
    | Bool(b: bool)
    | Num(n: Number)
    | Str(s: string)
    | Arr(items: seq<Json>)
    | Obj(fields: seq<(string, Json)>)

  function Keys(fields: seq<(string, Json)>): (ks: seq<string>)
    ensures |ks| == |fields|
    ensures forall i :: 0 <= i < |fields| ==> ks[i] == fields[i].0
  {
    seq(|fields|, i requires 0 <= i < |fields| => fields[i].0)
  }

  predicate HasKey(fields: seq<(string, Json)>, key: string)
  {
    key in Keys(fields)
  }

  predicate UniqueKeys(fields: seq<(string, Json)>)
  {
    forall i, j :: 0 <= i < j < |fields| ==> fields[i].0 != fields[j].0
  }

  /** Python `d.get(key)` / JavaScript `o[key]` on an object's members. */
  function Get(fields: seq<(string, Json)>, key: string): (r: Option<Json>)
    ensures r.None? <==> !HasKey(fields, key)
    ensures r.Some? ==> (key, r.value) in fields
  {
    if fields == [] then None
    else if fields[0].0 == key then Some(fields[0].1)
    else
      assert Keys(fields) == [fields[0].0] + Keys(fields[1..]);
      Get(fields[1..], key)
  }

  /** Python `d[key] = v`: the value of an existing key is replaced where it
      stands; a new key goes at the end. */
  function Set(fields: seq<(string, Json)>, key: string, v: Json): (r: seq<(string, Json)>)
  {
    if fields == [] then [(key, v)]
    else if fields[0].0 == key then [(key, v)] + fields[1..]
    else [fields[0]] + Set(fields[1..], key, v)
  }

  lemma {:induction false} GetAfterSet(fields: seq<(string, Json)>, key: string, v: Json, other: string)
    ensures Get(Set(fields, key, v), key) == Some(v)
    ensures other != key ==> Get(Set(fields, key, v), other) == Get(fields, other)
    decreases |fields|
  {
    if fields != [] && fields[0].0 != key {
      GetAfterSet(fields[1..], key, v, other);
      assert Set(fields, key, v)[1..] == Set(fields[1..], key, v);
    }
  }

  /** Two writes to one key leave the second value. */
  lemma {:induction false} SetTwice(fields: seq<(string, Json)>, key: string, a: Json, b: Json)
    ensures Set(Set(fields, key, a), key, b) == Set(fields, key, b)
    decreases |fields|
  {
    if fields != [] && fields[0].0 != key {
      SetTwice(fields[1..], key, a, b);
      assert Set(fields, key, a)[1..] == Set(fields[1..], key, a);
    }
  }

  /** Writing a key's own value back changes nothing. */
  lemma {:induction false} SetCurrentValue(fields: seq<(string, Json)>, key: string)
    requires HasKey(fields, key)
    ensures Set(fields, key, Get(fields, key).value) == fields
    decreases |fields|
  {
    assert Keys(fields) == [fields[0].0] + Keys(fields[1..]);
    if fields[0].0 != key {
      SetCurrentValue(fields[1..], key);
    }
  }

  /** `Set` leaves every member's key where it was, and a new key goes at
      the end. */
  lemma {:induction false} SetKeyPositions(fields: seq<(string, Json)>, key: string, v: Json)
    ensures |Set(fields, key, v)| == if HasKey(fields, key) then |fields| else |fields| + 1
    ensures forall i :: 0 <= i < |fields| ==> Set(fields, key, v)[i].0 == fields[i].0
    ensures !HasKey(fields, key) ==> Set(fields, key, v)[|fields|].0 == key
    decreases |fields|
  {
    if fields != [] && fields[0].0 != key {
      var tail := fields[1..];
      SetKeyPositions(tail, key, v);
      assert Keys(fields) == [fields[0].0] + Keys(tail);
      assert HasKey(fields, key) == HasKey(tail, key);
      var r := Set(fields, key, v);
      assert r == [fields[0]] + Set(tail, key, v);
      forall i | 0 < i < |fields| ensures r[i].0 == fields[i].0 {
        assert r[i] == Set(tail, key, v)[i - 1] && fields[i] == tail[i - 1];
      }
      if !HasKey(fields, key) {
        assert r[|fields|] == Set(tail, key, v)[|tail|];
      }
    } else if fields != [] {
      assert HasKey(fields, key) by { assert Keys(fields)[0] == key; }
    }
  }

  /** Setting a key keeps the key order: an existing key stays where it is,
      a new one is appended. */
  lemma KeysAfterSet(fields: seq<(string, Json)>, key: string, v: Json)
    ensures Keys(Set(fields, key, v)) == if HasKey(fields, key) then Keys(fields) else Keys(fields) + [key]
  {
    SetKeyPositions(fields, key, v);
    var a := Keys(Set(fields, key, v));
    var b := if HasKey(fields, key) then Keys(fields) else Keys(fields) + [key];
    assert |a| == |b|;
    forall i | 0 <= i < |a| ensures a[i] == b[i] {
    }
  }

  /** JavaScript property access `v.key` for the fixed member names the
      components read (`label`, `value`, `data`, ...): an object's member, and
      `undefined` on every other value (none of these names is a property of
      strings, arrays, numbers or booleans). */
  function Field(v: Option<Json>, key: string): (r: Option<Json>)
    ensures r.Some? ==> v.Some? && v.value.Obj? && HasKey(v.value.fields, key)
  {
    if v.Some? && v.value.Obj? then Get(v.value.fields, key) else None
  }
}
