/** The chart renderer (frontend/src/components/ChartRenderer.tsx): the guard
    checks, the choice of the x and y data keys and the chart-type switch.
    What the drawing library does with its input is not modelled. */
module ChartRenderer {
  import opened JsonValue
  import opened Js
  import opened Text

  datatype ChartKind = Bar | Line | Pie

  /** What the component returns. A key is `None` when it is `undefined`
      (inference on a first row without keys). */
  datatype ChartView =
    | NoChart
    | InvalidData(dataType: string)
    | KeysTypeError
    | Unsupported(chartType: Option<Json>, title: Option<Json>)
    | Rendered(kind: ChartKind, xKey: Option<Json>, yKey: Option<Json>, rows: seq<Json>, title: Option<Json>)

  /** ToPropertyKey (section 7.1.19 of ECMA-262) of a key value. */
  function PropertyKey(k: Json): string
  {
    JsString(k)
  }

  function IndexKeys(n: nat): (ks: seq<string>)
    ensures |ks| == n
    ensures forall i :: 0 <= i < n ==> ks[i] == NatToString(i)
  {
    seq(n, i requires 0 <= i < n => NatToString(i))
  }

  /** `Object.keys(item)` for an item other than `null`: an object's keys in
      property order, the indices of an array or of a string, nothing for a
      number or a boolean. */
  function OwnKeys(item: Json): seq<string>
  {
    match item
    case Obj(fields) => ObjectKeys(fields)
    case Arr(items) => IndexKeys(|items|)
    case Str(s) => IndexKeys(|s|)
    case _ => []
  }

  /** `Object.prototype.hasOwnProperty.call(item, key)`: arrays and strings
      also own `length`. */
  predicate HasOwn(item: Json, key: string)
  {
    match item
    case Obj(fields) => HasKey(fields, key)
    case Arr(items) => key == "length" || (IsArrayIndex(key) && DecimalValue(key) < |items|)
    case Str(s) => key == "length" || (IsArrayIndex(key) && DecimalValue(key) < |s|)
    case _ => false
  }

  /** `item[key]` for an index or member key. */
  function Member(item: Json, key: string): Option<Json>
  {
    match item
    case Obj(fields) => Get(fields, key)
    case Arr(items) => if IsArrayIndex(key) && DecimalValue(key) < |items| then Some(items[DecimalValue(key)]) else None
    case Str(s) => if IsArrayIndex(key) && DecimalValue(key) < |s| then Some(Str([s[DecimalValue(key)]])) else None
    case _ => None
  }

  /** `keys.find(k => typeof item[k] === t)`. */
  function FindKeyOfType(item: Json, keys: seq<string>, t: string): (r: Option<string>)
    ensures r.Some? ==> r.value in keys && TypeOf(Member(item, r.value)) == t
  {
    if keys == [] then None
    else if TypeOf(Member(item, keys[0])) == t then Some(keys[0])
    else FindKeyOfType(item, keys[1..], t)
  }

  /** The search finds nothing exactly when no key has the requested type. */
  lemma {:induction false} FindKeyOfTypeNone(item: Json, keys: seq<string>, t: string)
    ensures FindKeyOfType(item, keys, t).None? <==> forall j :: 0 <= j < |keys| ==> TypeOf(Member(item, keys[j])) != t
    decreases |keys|
  {
    if keys != [] {
      FindKeyOfTypeNone(item, keys[1..], t);
      assert forall j :: 0 < j < |keys| ==> keys[j] == keys[1..][j - 1];
    }
  }

  /** A key it finds has no key of the requested type before it. */
  lemma {:induction false} FindKeyOfTypeIsFirst(item: Json, keys: seq<string>, t: string) returns (i: nat)
    requires FindKeyOfType(item, keys, t).Some?
    ensures i < |keys| && keys[i] == FindKeyOfType(item, keys, t).value
    ensures forall j :: 0 <= j < i ==> TypeOf(Member(item, keys[j])) != t
    decreases |keys|
  {
    if TypeOf(Member(item, keys[0])) == t {
      i := 0;
    } else {
      var k := FindKeyOfTypeIsFirst(item, keys[1..], t);
      i := k + 1;
      assert forall j :: 0 < j <= k ==> keys[j] == keys[1..][j - 1];
    }
  }

  /** JavaScript `a || b` on possibly `undefined` strings. */
  function OrKey(a: Option<string>, b: Option<string>): Option<string>
  {
    if a.Some? && a.value != "" then a else b
  }

  function KeyAt(keys: seq<string>, i: nat): Option<string>
  {
    if i < |keys| then Some(keys[i]) else None
  }

  /** The inferred x key: the first string-valued key, else the first key. */
  function InferX(item: Json): Option<string>
  {
    var keys := OwnKeys(item);
    OrKey(FindKeyOfType(item, keys, "string"), KeyAt(keys, 0))
  }

  /** The inferred y key: the first number-valued key, else the second key,
      else the first. */
  function InferY(item: Json): Option<string>
  {
    var keys := OwnKeys(item);
    OrKey(OrKey(FindKeyOfType(item, keys, "number"), KeyAt(keys, 1)), KeyAt(keys, 0))
  }

  function AsKey(k: Option<string>): Option<Json>
  {
    if k.Some? then Some(Str(k.value)) else None
  }

  /** The keys after the inference step on a non-null first row: a key the row
      owns is kept, a missing one is replaced by the inferred one. */
  function ResolveKeys(first: Json, xKey: Json, yKey: Json): (Option<Json>, Option<Json>)
  {
    var xExists := HasOwn(first, PropertyKey(xKey));
    var yExists := HasOwn(first, PropertyKey(yKey));
    if xExists && yExists then (Some(xKey), Some(yKey))
    else
      (if xExists then Some(xKey) else AsKey(InferX(first)),
       if yExists then Some(yKey) else AsKey(InferY(first)))
  }

  function KindOf(chartType: Option<Json>): Option<ChartKind>
  {
    match chartType
    case Some(Str("bar")) => Some(Bar)
    case Some(Str("line")) => Some(Line)
    case Some(Str("pie")) => Some(Pie)
    case _ => None
  }

  /** The ChartRenderer component on its `data` prop. */
  function RenderChart(data: Option<Json>): (r: ChartView)
    ensures r.NoChart? <==> !Truthy(data) || !Truthy(Field(data, "data"))
    ensures r.InvalidData? <==> Truthy(data) && Truthy(Field(data, "data")) && !Field(data, "data").value.Arr?
    ensures r.Rendered? ==> Some(Arr(r.rows)) == Field(data, "data") && KindOf(Field(data, "type")) == Some(r.kind)
  {
    if !Truthy(data) || !Truthy(Field(data, "data")) then NoChart
    else
      var rows := Field(data, "data").value;
      var xKey := Or(Field(data, "x_key"), Some(Str("label"))).value;
      var yKey := Or(Field(data, "y_key"), Some(Str("value"))).value;
      var title := Field(data, "title");
      if !rows.Arr? then InvalidData(TypeOf(Some(rows)))
      else if |rows.items| > 0 && rows.items[0] == Null then KeysTypeError
      else
        var keys := if |rows.items| > 0 then ResolveKeys(rows.items[0], xKey, yKey) else (Some(xKey), Some(yKey));
        match KindOf(Field(data, "type"))
        case Some(kind) => Rendered(kind, keys.0, keys.1, rows.items, title)
        case None => Unsupported(Field(data, "type"), title)
  }

  /** An empty row list is truthy: it renders with the declared or default keys. */
  lemma EmptyRowsUseDefaults(data: Option<Json>)
    requires Truthy(data) && Field(data, "data") == Some(Arr([]))
    requires KindOf(Field(data, "type")).Some?
    ensures var r := RenderChart(data);
      && r.Rendered? && r.rows == []
      && r.xKey == Or(Field(data, "x_key"), Some(Str("label")))
      && r.yKey == Or(Field(data, "y_key"), Some(Str("value")))
  {
  }

  /** Exactly three type strings name a chart kind. */
  lemma KindOfOnlyThree(chartType: Option<Json>)
    ensures KindOf(chartType).Some? <==>
      chartType == Some(Str("bar")) || chartType == Some(Str("line")) || chartType == Some(Str("pie"))
  {
  }

  /** Only "bar", "line" and "pie" draw a chart; any other type, "scatter"
      included, reaches the unsupported branch. */
  lemma OnlyThreeKinds(data: Option<Json>)
    requires Truthy(data) && Truthy(Field(data, "data")) && Field(data, "data").value.Arr?
    requires Field(data, "data").value.items == [] || Field(data, "data").value.items[0] != Null
    ensures RenderChart(data).Rendered? <==>
      Field(data, "type") == Some(Str("bar")) || Field(data, "type") == Some(Str("line")) || Field(data, "type") == Some(Str("pie"))
    ensures !RenderChart(data).Rendered? ==> RenderChart(data) == Unsupported(Field(data, "type"), Field(data, "title"))
  {
    KindOfOnlyThree(Field(data, "type"));
  }

  /** "scatter" is not one of them. */
  lemma ScatterUnsupported(data: Option<Json>)
    requires Truthy(data) && Truthy(Field(data, "data")) && Field(data, "data").value.Arr?
    requires Field(data, "data").value.items == [] || Field(data, "data").value.items[0] != Null
    requires Field(data, "type") == Some(Str("scatter"))
    ensures RenderChart(data) == Unsupported(Some(Str("scatter")), Field(data, "title"))
  {
    OnlyThreeKinds(data);
    assert "scatter" != "bar" && "scatter" != "line" && "scatter" != "pie";
  }

  /** A key the first row owns is never replaced; a missing one is the
      inferred key. */
  lemma PresentKeysKept(first: Json, xKey: Json, yKey: Json)
    ensures var (x, y) := ResolveKeys(first, xKey, yKey);
      && (HasOwn(first, PropertyKey(xKey)) ==> x == Some(xKey))
      && (HasOwn(first, PropertyKey(yKey)) ==> y == Some(yKey))
      && (!HasOwn(first, PropertyKey(xKey)) ==> x == AsKey(InferX(first)))
      && (!HasOwn(first, PropertyKey(yKey)) ==> y == AsKey(InferY(first)))
  {
  }

  /** Without declared keys the defaults `label` and `value` are checked
      against the first row and inferred when it lacks them. */
  lemma UndeclaredKeysResolved(data: Option<Json>, first: Json, rest: seq<Json>)
    requires Truthy(data) && Field(data, "data") == Some(Arr([first] + rest)) && first != Null
    requires !Truthy(Field(data, "x_key")) && !Truthy(Field(data, "y_key"))
    requires KindOf(Field(data, "type")).Some?
    ensures var keys := ResolveKeys(first, Str("label"), Str("value"));
      RenderChart(data) == Rendered(KindOf(Field(data, "type")).value, keys.0, keys.1, [first] + rest, Field(data, "title"))
  {
    var items := [first] + rest;
    assert items[0] == first;
    RenderedFirstRow(data, items);
    assert Or(Field(data, "x_key"), Some(Str("label"))).value == Str("label");
    assert Or(Field(data, "y_key"), Some(Str("value"))).value == Str("value");
  }

  lemma RenderedFirstRow(data: Option<Json>, items: seq<Json>)
    requires Truthy(data) && Field(data, "data") == Some(Arr(items)) && |items| > 0 && items[0] != Null
    requires KindOf(Field(data, "type")).Some?
    ensures var keys := ResolveKeys(items[0], Or(Field(data, "x_key"), Some(Str("label"))).value,
                                    Or(Field(data, "y_key"), Some(Str("value"))).value);
      RenderChart(data) == Rendered(KindOf(Field(data, "type")).value, keys.0, keys.1, items, Field(data, "title"))
  {
  }

  /** Position `i` holds the first key whose value has type `t`. */
  predicate FirstOfType(item: Json, keys: seq<string>, t: string, i: int)
  {
    0 <= i < |keys| && TypeOf(Member(item, keys[i])) == t
    && forall j :: 0 <= j < i ==> TypeOf(Member(item, keys[j])) != t
  }

  /** The search returns the first key of the requested type. */
  lemma {:induction false} FindKeyOfTypeAt(item: Json, keys: seq<string>, t: string, i: int)
    requires FirstOfType(item, keys, t, i)
    ensures FindKeyOfType(item, keys, t) == Some(keys[i])
    decreases i
  {
    if i > 0 {
      assert TypeOf(Member(item, keys[0])) != t;
      assert FirstOfType(item, keys[1..], t, i - 1) by {
        forall j | 0 <= j < i - 1 ensures TypeOf(Member(item, keys[1..][j])) != t {
          assert keys[1..][j] == keys[j + 1];
        }
      }
      FindKeyOfTypeAt(item, keys[1..], t, i - 1);
    }
  }

  /** The inferred x key is the first key whose value is a string, unless
      that key is the empty string (which `||` skips); then, and when no
      value is a string, it is the first key, and `undefined` for a row
      without keys. */
  lemma InferXIsFirstStringKey(item: Json)
    ensures var keys := OwnKeys(item);
      && (keys == [] ==> InferX(item).None?)
      && (forall i :: FirstOfType(item, keys, "string", i) && keys[i] != "" ==> InferX(item) == Some(keys[i]))
      && (forall i :: FirstOfType(item, keys, "string", i) && keys[i] == "" ==> InferX(item) == Some(keys[0]))
      && ((forall k :: k in keys ==> TypeOf(Member(item, k)) != "string") && keys != [] ==> InferX(item) == Some(keys[0]))
  {
    var keys := OwnKeys(item);
    FindKeyOfTypeNone(item, keys, "string");
    forall i | FirstOfType(item, keys, "string", i) ensures FindKeyOfType(item, keys, "string") == Some(keys[i]) {
      FindKeyOfTypeAt(item, keys, "string", i);
    }
  }

  /** The key `||` falls back to when no usable number-valued key exists:
      the second key unless it is missing or empty, else the first. */
  function FallbackY(keys: seq<string>): Option<string>
  {
    if |keys| >= 2 && keys[1] != "" then Some(keys[1])
    else if keys != [] then Some(keys[0])
    else None
  }

  /** The inferred y key is the first key whose value is a number, unless
      that key is the empty string; then, and when no value is a number, it
      is the second key, else the first. */
  lemma InferYFallsBack(item: Json)
    ensures var keys := OwnKeys(item);
      && (keys == [] ==> InferY(item).None?)
      && (forall i :: FirstOfType(item, keys, "number", i) && keys[i] != "" ==> InferY(item) == Some(keys[i]))
      && (forall i :: FirstOfType(item, keys, "number", i) && keys[i] == "" ==> InferY(item) == FallbackY(keys))
      && ((forall k :: k in keys ==> TypeOf(Member(item, k)) != "number") ==> InferY(item) == FallbackY(keys))
      && (|keys| >= 2 && keys[1] != "" ==> FallbackY(keys) == Some(keys[1]))
      && (|keys| == 1 || (|keys| >= 2 && keys[1] == "") ==> FallbackY(keys) == Some(keys[0]))
  {
    var keys := OwnKeys(item);
    var f := FindKeyOfType(item, keys, "number");
    assert InferY(item) == OrKey(OrKey(f, KeyAt(keys, 1)), KeyAt(keys, 0));
    assert OrKey(KeyAt(keys, 1), KeyAt(keys, 0)) == FallbackY(keys);
    FindKeyOfTypeNone(item, keys, "number");
    forall i | FirstOfType(item, keys, "number", i) ensures f == Some(keys[i]) {
      FindKeyOfTypeAt(item, keys, "number", i);
    }
  }

  /** A row object without array-index keys offers its keys for inference in
      the order they were written. */
  lemma NamedRowKeys(fields: seq<(string, Json)>)
    requires forall i :: 0 <= i < |fields| ==> !IsArrayIndex(fields[i].0)
    ensures OwnKeys(Obj(fields)) == Keys(fields)
  {
    ObjectKeysInsertionOrder(fields);
  }

  function MonthRow(): Json
  {
    Obj([("month", Str("Jan")), ("revenue", Num(Finite(false, [1], 3)))])
  }

  lemma MonthRowNamedKeys()
    ensures forall i :: 0 <= i < |MonthRow().fields| ==> !IsArrayIndex(MonthRow().fields[i].0)
  {
    assert !IsDigit("month"[0]) && !IsDigit("revenue"[0]);
    assert !IsArrayIndex("month") && !IsArrayIndex("revenue");
  }

  lemma MonthRowKeys()
    ensures OwnKeys(MonthRow()) == ["month", "revenue"]
  {
    MonthRowNamedKeys();
    NamedRowKeys(MonthRow().fields);
  }

  lemma MonthRowMembers()
    ensures Member(MonthRow(), "month") == Some(Str("Jan"))
    ensures Member(MonthRow(), "revenue") == Some(Num(Finite(false, [1], 3)))
  {
    assert "month" != "revenue";
  }

  lemma MonthRowFinds()
    ensures FindKeyOfType(MonthRow(), ["month", "revenue"], "string") == Some("month")
    ensures FindKeyOfType(MonthRow(), ["month", "revenue"], "number") == Some("revenue")
  {
    MonthRowMembers();
    var keys := ["month", "revenue"];
    assert keys[1..] == ["revenue"];
    assert TypeOf(Member(MonthRow(), "month")) == "string";
    assert TypeOf(Member(MonthRow(), "revenue")) == "number";
  }

  /** Inference on the row `{month: "Jan", revenue: 100}`. */
  lemma MonthRowInference()
    ensures InferX(MonthRow()) == Some("month") && InferY(MonthRow()) == Some("revenue")
  {
    MonthRowKeys();
    MonthRowFinds();
  }

  /** On that row the default keys `label` and `value` are missing and
      inference picks `month` and `revenue`. */
  lemma MonthRevenueKeys()
    ensures ResolveKeys(MonthRow(), Str("label"), Str("value")) == (Some(Str("month")), Some(Str("revenue")))
  {
    assert !HasOwn(MonthRow(), "label") && !HasOwn(MonthRow(), "value");
    assert PropertyKey(Str("label")) == "label" && PropertyKey(Str("value")) == "value";
    MonthRowInference();
  }

  /** A bar chart whose first row is `{month: "Jan", revenue: 100}` and that
      declares no keys is drawn over `month` and `revenue`. */
  lemma MonthRevenueExample(data: Option<Json>, rest: seq<Json>)
    requires Truthy(data) && Field(data, "data") == Some(Arr([MonthRow()] + rest))
    requires Field(data, "type") == Some(Str("bar"))
    requires Field(data, "x_key").None? && Field(data, "y_key").None?
    ensures RenderChart(data) == Rendered(Bar, Some(Str("month")), Some(Str("revenue")), [MonthRow()] + rest, Field(data, "title"))
  {
    UndeclaredKeysResolved(data, MonthRow(), rest);
    MonthRevenueKeys();
  }
}
