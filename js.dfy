/** The parts of JavaScript's value semantics that the frontend components
    rely on: truthiness and `||`, `typeof`, `String(v)`, the order of
    `Object.keys`, and `JSON.stringify`. Section numbers refer to ECMA-262. */
module Js {
  import opened JsonValue
  import opened Text

  /** ToBoolean (section 7.1.2); `None` is `undefined`. */
  predicate Truthy(v: Option<Json>)
  {
    match v
    case None => false
    case Some(Null) => false
    case Some(Bool(b)) => b
    case Some(Num(n)) => !n.NaN? && !n.IsZero()
    case Some(Str(s)) => s != ""
    case Some(Arr(_)) => true
    case Some(Obj(_)) => true
  }

  /** `a || b`: the left operand if it is truthy, else the right one. */
  function Or(a: Option<Json>, b: Option<Json>): Option<Json>
  {
    if Truthy(a) then a else b
  }

  /** The `typeof` operator (section 13.5.3). */
  function TypeOf(v: Option<Json>): string
  {
    match v
    case None => "undefined"
    case Some(Bool(_)) => "boolean"
    case Some(Num(_)) => "number"
    case Some(Str(_)) => "string"
    case Some(_) => "object"
  }

  function DigitString(ds: seq<Digit>): (r: string)
    ensures |r| == |ds| && AllDigits(r)
  {
    seq(|ds|, i requires 0 <= i < |ds| => DigitChar(ds[i]))
  }

  function Zeros(n: nat): (r: string)
    ensures |r| == n && AllDigits(r)
  {
    seq(n, i => '0')
  }

  /** Number::toString (section 6.1.6.1.20) of a non-zero magnitude with
      significand digits `ds` and decimal point position `n`. */
  function MagnitudeToString(ds: seq<Digit>, n: int): string
    requires |ds| > 0
  {
    var k := |ds|;
    if k <= n <= 21 then DigitString(ds) + Zeros(n - k)
    else if 0 < n <= 21 then DigitString(ds[..n]) + "." + DigitString(ds[n..])
    else if -6 < n <= 0 then "0." + Zeros(-n) + DigitString(ds)
    else
      var e := n - 1;
      var exponent := "e" + (if e > 0 then "+" else "-") + NatToString(if e > 0 then e else -e);
      if k == 1 then DigitString(ds) + exponent
      else DigitString(ds[..1]) + "." + DigitString(ds[1..]) + exponent
  }

  /** `String(x)` of a number (section 6.1.6.1.20). */
  function NumberToString(x: Number): string
  {
    match x
    case NaN => "NaN"
    case PosInf => "Infinity"
    case NegInf => "-Infinity"
    case Finite(negative, ds, n) =>
      if x.IsZero() then "0"
      else (if negative then "-" else "") + MagnitudeToString(ds, n)
  }

  /** `String(v)` (section 7.1.17, ToString); an array is joined with commas,
      its `null` elements giving empty text (section 23.1.3.18). */
  function JsString(v: Json): string
  {
    match v
    case Null => "null"
    case Bool(b) => if b then "true" else "false"
    case Num(x) => NumberToString(x)
    case Str(s) => s
    case Arr(items) =>
      Join(seq(|items|, i requires 0 <= i < |items| => if items[i].Null? then "" else JsString(items[i])), ",")
    case Obj(_) => "[object Object]"
  }

  /** `0 < x` for a number. */
  predicate PositiveNumber(x: Number)
  {
    x.PosInf? || (x.Finite? && !x.negative && !x.IsZero())
  }

  /** `v > 0` (section 7.2.13, IsLessThan with the operands swapped): the
      value is converted to a primitive and then to a number. ToNumber of a
      string (section 7.1.4.1.1) is the parameter `toNumber`; an array is
      converted through its joined text, an object through
      `"[object Object]"`, which is NaN. */
  predicate GreaterThanZero(v: Option<Json>, toNumber: string -> Number)
  {
    match v
    case None => false
    case Some(Null) => false
    case Some(Bool(b)) => b
    case Some(Num(x)) => PositiveNumber(x)
    case Some(Str(s)) => PositiveNumber(toNumber(s))
    case Some(Arr(_)) => PositiveNumber(toNumber(JsString(v.value)))
    case Some(Obj(_)) => false
  }

  /** An array index (section 6.1.7): the canonical numeral of an integer below 2^32 - 1. */
  predicate IsArrayIndex(k: string)
  {
    |k| > 0 && AllDigits(k) && (k[0] != '0' || |k| == 1) && DecimalValue(k) < 0xFFFF_FFFF
  }

  function IndexValue(k: string): nat
  {
    if IsArrayIndex(k) then DecimalValue(k) else 0
  }

  function IndexMembers(fs: seq<(string, Json)>): (r: seq<(string, Json)>)
    ensures forall i :: 0 <= i < |r| ==> IsArrayIndex(r[i].0)
  {
    if fs == [] then []
    else (if IsArrayIndex(fs[0].0) then [fs[0]] else []) + IndexMembers(fs[1..])
  }

  function NamedMembers(fs: seq<(string, Json)>): (r: seq<(string, Json)>)
    ensures forall i :: 0 <= i < |r| ==> !IsArrayIndex(r[i].0)
  {
    if fs == [] then []
    else (if IsArrayIndex(fs[0].0) then [] else [fs[0]]) + NamedMembers(fs[1..])
  }

  lemma {:induction false} MembersPartition(fs: seq<(string, Json)>)
    ensures multiset(IndexMembers(fs)) + multiset(NamedMembers(fs)) == multiset(fs)
    decreases |fs|
  {
    if fs != [] {
      MembersPartition(fs[1..]);
      assert fs == [fs[0]] + fs[1..];
    }
  }

  /** With no array-index key, the named members are all of them, in order. */
  lemma {:induction false} NamedMembersAll(fs: seq<(string, Json)>)
    requires forall i :: 0 <= i < |fs| ==> !IsArrayIndex(fs[i].0)
    ensures NamedMembers(fs) == fs && IndexMembers(fs) == []
    decreases |fs|
  {
    if fs != [] {
      NamedMembersAll(fs[1..]);
      assert fs == [fs[0]] + fs[1..];
    }
  }

  predicate SortedByIndex(s: seq<(string, Json)>)
  {
    forall i, j :: 0 <= i < j < |s| ==> IndexValue(s[i].0) <= IndexValue(s[j].0)
  }

  function InsertByIndex(p: (string, Json), sorted: seq<(string, Json)>): (r: seq<(string, Json)>)
    ensures multiset(r) == multiset(sorted) + multiset{p}
    ensures |r| == |sorted| + 1
    ensures r[0] == p || (sorted != [] && r[0] == sorted[0])
  {
    if sorted == [] then [p]
    else if IndexValue(p.0) <= IndexValue(sorted[0].0) then [p] + sorted
    else
      assert sorted == [sorted[0]] + sorted[1..];
      [sorted[0]] + InsertByIndex(p, sorted[1..])
  }

  lemma {:induction false} InsertKeepsSorted(p: (string, Json), sorted: seq<(string, Json)>)
    requires SortedByIndex(sorted)
    ensures SortedByIndex(InsertByIndex(p, sorted))
    decreases |sorted|
  {
    if sorted != [] && IndexValue(p.0) > IndexValue(sorted[0].0) {
      var tail := sorted[1..];
      var rest := InsertByIndex(p, tail);
      InsertKeepsSorted(p, tail);
      assert IndexValue(sorted[0].0) <= IndexValue(rest[0].0) by {
        if rest[0] != p { assert rest[0] == sorted[1]; }
      }
      var r := InsertByIndex(p, sorted);
      assert r[0] == sorted[0];
      forall k | 0 < k < |r| ensures r[k] == rest[k - 1] {
      }
      forall i, j | 0 <= i < j < |r| ensures IndexValue(r[i].0) <= IndexValue(r[j].0) {
        if i > 0 {
          assert r[i] == rest[i - 1] && r[j] == rest[j - 1];
        } else if j > 1 {
          assert r[j] == rest[j - 1];
          assert IndexValue(rest[0].0) <= IndexValue(rest[j - 1].0);
        }
      }
    }
  }

  function SortByIndex(s: seq<(string, Json)>): (r: seq<(string, Json)>)
    ensures SortedByIndex(r)
    ensures multiset(r) == multiset(s)
  {
    if s == [] then []
    else
      assert s == [s[0]] + s[1..];
      var sortedTail := SortByIndex(s[1..]);
      InsertKeepsSorted(s[0], sortedTail);
      InsertByIndex(s[0], sortedTail)
  }

  /** An ordinary object's own members in the order of OrdinaryOwnPropertyKeys
      (section 10.1.11.1): array-index keys ascending, then the other keys in
      insertion order. */
  function OrderedFields(fields: seq<(string, Json)>): (r: seq<(string, Json)>)
    ensures multiset(r) == multiset(fields)
  {
    MembersPartition(fields);
    SortByIndex(IndexMembers(fields)) + NamedMembers(fields)
  }

  /** `Object.keys` of an object. */
  function ObjectKeys(fields: seq<(string, Json)>): seq<string>
  {
    Keys(OrderedFields(fields))
  }

  /** `Object.keys` lists the object's keys, each as often as the object has it. */
  lemma ObjectKeysSameKeys(fields: seq<(string, Json)>)
    ensures |ObjectKeys(fields)| == |fields|
    ensures forall k :: k in ObjectKeys(fields) <==> HasKey(fields, k)
  {
    var ordered := OrderedFields(fields);
    assert |ordered| == |multiset(ordered)| == |multiset(fields)| == |fields|;
    forall k ensures k in ObjectKeys(fields) ==> HasKey(fields, k) {
      if k in ObjectKeys(fields) {
        var i :| 0 <= i < |ordered| && ordered[i].0 == k;
        assert ordered[i] in multiset(fields);
        var j :| 0 <= j < |fields| && fields[j] == ordered[i];
        assert Keys(fields)[j] == k;
      }
    }
    forall k ensures HasKey(fields, k) ==> k in ObjectKeys(fields) {
      if HasKey(fields, k) {
        var j :| 0 <= j < |fields| && Keys(fields)[j] == k;
        assert fields[j] in multiset(ordered);
        var i :| 0 <= i < |ordered| && ordered[i] == fields[j];
        assert ObjectKeys(fields)[i] == k;
      }
    }
  }

  /** An object with no array-index key lists its keys in insertion order. */
  lemma ObjectKeysInsertionOrder(fields: seq<(string, Json)>)
    requires forall i :: 0 <= i < |fields| ==> !IsArrayIndex(fields[i].0)
    ensures ObjectKeys(fields) == Keys(fields)
  {
    NamedMembersAll(fields);
    assert OrderedFields(fields) == fields;
  }

  /** One character of a JSON string literal (QuoteJSONString, section 25.5.2.3). */
  function EscapeChar(c: char): string
  {
    if c == '"' then "\\\""
    else if c == '\\' then "\\\\"
    else if c == '\U{8}' then "\\b"
    else if c == '\t' then "\\t"
    else if c == '\n' then "\\n"
    else if c == '\U{C}' then "\\f"
    else if c == '\r' then "\\r"
    else if c < ' ' then "\\u00" + [HexDigit(c as int / 16), HexDigit(c as int % 16)]
    else [c]
  }

  function Quote(s: string): string
  {
    "\"" + Escaped(s) + "\""
  }

  function Escaped(s: string): string
  {
    if s == [] then "" else EscapeChar(s[0]) + Escaped(s[1..])
  }

  /** `JSON.stringify(v)` (section 25.5.2) without indentation; non-finite
      numbers become `null`, members follow `Object.keys` order. */
  function Stringify(v: Json): string
  {
    match v
    case Null => "null"
    case Bool(b) => if b then "true" else "false"
    case Num(x) => if x.Finite? then NumberToString(x) else "null"
    case Str(s) => Quote(s)
    case Arr(items) =>
      "[" + Join(seq(|items|, i requires 0 <= i < |items| => Stringify(items[i])), ",") + "]"
    case Obj(fields) =>
      var ordered := OrderedFields(fields);
      "{" + Join(seq(|ordered|, i requires 0 <= i < |ordered| =>
        assert ordered[i] in multiset(ordered); MemberText(ordered[i], v)), ",") + "}"
  }

  function MemberText(p: (string, Json), parent: Json): string
    requires parent.Obj? && p in parent.fields
    decreases parent, 0
  {
    Quote(p.0) + ":" + Stringify(p.1)
  }
}
