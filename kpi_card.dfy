/** The KPI card (frontend/src/components/KPICard.tsx): from a loosely typed
    payload to the label, value and trend it shows. */
module KpiCard {
  import opened JsonValue
  import opened Js
  import opened Text

  datatype TrendClass = Positive | Negative | Neutral

  /** The big figure: numbers go through the locale formatter (not modelled),
      everything else through `String(value)`. */
  datatype Display = Localized(n: Number) | Plain(text: string)

  datatype KpiView =
    | InvalidKpi
    | Card(name: Json, value: Json, display: Display, trend: Option<Json>, trendClass: TrendClass)
  {
    /** The card prints the trend line only for a truthy trend. */
    predicate ShowsTrendLine()
    {
      Card? && Truthy(trend)
    }
  }

  const NotAvailable := Str("N/A")
  const UnknownLabel := Str("Unknown")

  /** The nested object consulted when the top-level `value` is `undefined`:
      `data.kpi` if truthy, else `data.payload` if truthy, else none. */
  function NestedSource(data: Option<Json>): (r: Option<Json>)
    ensures r.Some? ==> Field(data, "value").None? && Truthy(r)
    ensures Field(data, "value").None? && Truthy(Field(data, "kpi")) ==> r == Field(data, "kpi")
    ensures Field(data, "value").None? && !Truthy(Field(data, "kpi")) ==>
      r == (if Truthy(Field(data, "payload")) then Field(data, "payload") else None)
  {
    if Field(data, "value").Some? then None
    else if Truthy(Field(data, "kpi")) then Field(data, "kpi")
    else if Truthy(Field(data, "payload")) then Field(data, "payload")
    else None
  }

  function ResolvedLabel(data: Option<Json>): Json
  {
    var top := Or(Or(Field(data, "label"), Field(data, "title")), Some(UnknownLabel));
    var nested := NestedSource(data);
    var chosen := if nested.Some? then Or(Field(nested, "label"), top) else top;
    chosen.value
  }

  function ResolvedValue(data: Option<Json>): Option<Json>
  {
    var nested := NestedSource(data);
    if nested.Some? then Field(nested, "value") else Field(data, "value")
  }

  function ResolvedTrend(data: Option<Json>): Option<Json>
  {
    var top := Or(Field(data, "trend"), Field(data, "change"));
    var nested := NestedSource(data);
    if nested.Some? then Or(Field(nested, "trend"), top) else top
  }

  /** The trend test: positive when the text has `+`, or its lowercase form has
      `up` or `increase`; otherwise negative when it has `-`, `down` or
      `decrease`; otherwise neutral. */
  function Classify(text: string): TrendClass
  {
    var lower := Lower(text);
    if Contains(text, "+") || Contains(lower, "up") || Contains(lower, "increase") then Positive
    else if Contains(text, "-") || Contains(lower, "down") || Contains(lower, "decrease") then Negative
    else Neutral
  }

  function DisplayOf(value: Json): Display
  {
    if value.Num? then Localized(value.n) else Plain(JsString(value))
  }

  /** The KPICard component up to rendering. */
  function NormalizeKpi(data: Option<Json>): (r: KpiView)
    ensures r.InvalidKpi? <==> !Truthy(data)
    ensures r.Card? ==> Truthy(Some(r.name)) && r.value != Null
    ensures r.Card? ==> r.display == DisplayOf(r.value)
  {
    if !Truthy(data) then InvalidKpi
    else
      var raw := ResolvedValue(data);
      var value := if raw.None? || raw == Some(Null) then NotAvailable else raw.value;
      var trend := ResolvedTrend(data);
      var trendClass := if Truthy(trend) then Classify(JsString(trend.value)) else Neutral;
      Card(ResolvedLabel(data), value, DisplayOf(value), trend, trendClass)
  }

  /** The label is the first truthy of the nested label (on the nested path),
      `data.label` and `data.title`, else "Unknown"; an empty string falls
      through. */
  lemma LabelFallback(data: Option<Json>)
    requires Truthy(data)
    ensures var r := NormalizeKpi(data);
      var nested := NestedSource(data);
      && (nested.Some? && Truthy(Field(nested, "label")) ==> r.name == Field(nested, "label").value)
      && (!(nested.Some? && Truthy(Field(nested, "label"))) && Truthy(Field(data, "label")) ==> r.name == Field(data, "label").value)
      && (!(nested.Some? && Truthy(Field(nested, "label"))) && !Truthy(Field(data, "label")) && Truthy(Field(data, "title"))
          ==> r.name == Field(data, "title").value)
      && (!(nested.Some? && Truthy(Field(nested, "label"))) && !Truthy(Field(data, "label")) && !Truthy(Field(data, "title"))
          ==> r.name == UnknownLabel)
  {
  }

  /** When the top-level `value` is present (even `null`), nothing nested is
      read: label and trend come from the top level. */
  lemma TopLevelValueWins(data: Option<Json>)
    requires Truthy(data) && Field(data, "value").Some?
    ensures var r := NormalizeKpi(data);
      && r.value == (if Field(data, "value") == Some(Null) then NotAvailable else Field(data, "value").value)
      && r.name == Or(Or(Field(data, "label"), Field(data, "title")), Some(UnknownLabel)).value
      && r.trend == Or(Field(data, "trend"), Field(data, "change"))
  {
  }

  /** Without a top-level `value`, the nested object supplies the value and
      overrides the trend: the trend is the nested `trend` if truthy, else
      `data.trend || data.change`; the value is the nested `value`, or "N/A"
      when it is undefined or null. With no nested object the trend is the
      top-level one and the value is "N/A". */
  lemma NestedPath(data: Option<Json>)
    requires Truthy(data) && Field(data, "value").None?
    ensures var r := NormalizeKpi(data);
      var nested := NestedSource(data);
      var top := Or(Field(data, "trend"), Field(data, "change"));
      && (nested.Some? ==> r.trend == Or(Field(nested, "trend"), top))
      && (nested.Some? && Field(nested, "value").Some? && Field(nested, "value") != Some(Null)
          ==> r.value == Field(nested, "value").value)
      && (nested.Some? && (Field(nested, "value").None? || Field(nested, "value") == Some(Null))
          ==> r.value == NotAvailable)
      && (nested.None? ==> r.trend == top && r.value == NotAvailable)
  {
  }

  /** A missing or null value shows "N/A"; any other value, `0` and `""`
      included, is kept as it is. */
  lemma MissingValueIsNotAvailable(data: Option<Json>)
    requires Truthy(data)
    ensures var raw := ResolvedValue(data);
      && (raw.None? || raw == Some(Null) ==> NormalizeKpi(data).value == NotAvailable)
      && (raw.Some? && raw != Some(Null) ==> NormalizeKpi(data).value == raw.value)
  {
  }

  /** A numeric zero at the top level is shown as a number, not replaced. */
  lemma ZeroValueKept(data: Option<Json>, zero: Number)
    requires Truthy(data) && zero.IsZero() && Field(data, "value") == Some(Num(zero))
    ensures NormalizeKpi(data).value == Num(zero)
    ensures NormalizeKpi(data).display == Localized(zero)
  {
  }

  lemma SameNestedSource(d: Option<Json>, e: Option<Json>)
    requires Field(d, "value") == Field(e, "value") && Field(d, "kpi") == Field(e, "kpi")
    requires Field(d, "payload") == Field(e, "payload")
    ensures NestedSource(d) == NestedSource(e)
  {
  }

  lemma SameParts(d: Option<Json>, e: Option<Json>)
    requires Truthy(d) == Truthy(e) && NestedSource(d) == NestedSource(e)
    requires Field(d, "value") == Field(e, "value")
    requires Field(d, "label") == Field(e, "label") && Field(d, "title") == Field(e, "title")
    requires Field(d, "trend") == Field(e, "trend") && Field(d, "change") == Field(e, "change")
    ensures NormalizeKpi(d) == NormalizeKpi(e)
  {
    SameLabel(d, e);
    SameValueAndTrend(d, e);
    CardFromParts(d, e);
  }

  lemma SameLabel(d: Option<Json>, e: Option<Json>)
    requires NestedSource(d) == NestedSource(e)
    requires Field(d, "label") == Field(e, "label") && Field(d, "title") == Field(e, "title")
    ensures ResolvedLabel(d) == ResolvedLabel(e)
  {
  }

  lemma SameValueAndTrend(d: Option<Json>, e: Option<Json>)
    requires NestedSource(d) == NestedSource(e) && Field(d, "value") == Field(e, "value")
    requires Field(d, "trend") == Field(e, "trend") && Field(d, "change") == Field(e, "change")
    ensures ResolvedValue(d) == ResolvedValue(e) && ResolvedTrend(d) == ResolvedTrend(e)
  {
  }

  lemma CardFromParts(d: Option<Json>, e: Option<Json>)
    requires Truthy(d) == Truthy(e) && ResolvedLabel(d) == ResolvedLabel(e)
    requires ResolvedValue(d) == ResolvedValue(e) && ResolvedTrend(d) == ResolvedTrend(e)
    ensures NormalizeKpi(d) == NormalizeKpi(e)
  {
  }

  /** The card reads only the members `value`, `kpi`, `payload`, `label`,
      `title`, `trend` and `change` of its data. */
  lemma NormalizeKpiReadsOnly(d: Option<Json>, e: Option<Json>)
    requires Truthy(d) == Truthy(e)
    requires Field(d, "value") == Field(e, "value") && Field(d, "kpi") == Field(e, "kpi")
    requires Field(d, "payload") == Field(e, "payload")
    requires Field(d, "label") == Field(e, "label") && Field(d, "title") == Field(e, "title")
    requires Field(d, "trend") == Field(e, "trend") && Field(d, "change") == Field(e, "change")
    ensures NormalizeKpi(d) == NormalizeKpi(e)
  {
    SameNestedSource(d, e);
    SameParts(d, e);
  }

  /** With `value` undefined and a truthy `kpi`, the `payload` member is never
      read: replacing it changes nothing. */
  lemma PayloadIgnoredWhenKpiPresent(fields: seq<(string, Json)>, other: Json)
    requires Field(Some(Obj(fields)), "value").None? && Truthy(Field(Some(Obj(fields)), "kpi"))
    ensures NormalizeKpi(Some(Obj(Set(fields, "payload", other)))) == NormalizeKpi(Some(Obj(fields)))
  {
    var d := Some(Obj(fields));
    var e := Some(Obj(Set(fields, "payload", other)));
    GetAfterSet(fields, "payload", other, "value");
    GetAfterSet(fields, "payload", other, "kpi");
    GetAfterSet(fields, "payload", other, "label");
    GetAfterSet(fields, "payload", other, "title");
    GetAfterSet(fields, "payload", other, "trend");
    GetAfterSet(fields, "payload", other, "change");
    assert NestedSource(e) == NestedSource(d);
    SameParts(e, d);
  }

  /** A falsy trend (absent, empty, zero) gives the neutral icon and no trend line. */
  lemma FalsyTrendIsNeutral(data: Option<Json>)
    requires Truthy(data) && !Truthy(ResolvedTrend(data))
    ensures NormalizeKpi(data).trendClass == Neutral
    ensures !NormalizeKpi(data).ShowsTrendLine()
  {
  }

  /** Lowercasing never creates or removes a `+` or `-`. */
  lemma {:induction false} LowerKeepsSign(t: string, sign: char)
    requires sign == '+' || sign == '-'
    ensures sign in Lower(t) <==> sign in t
    decreases |t|
  {
    if t != [] {
      LowerKeepsSign(t[1..], sign);
      assert t == [t[0]] + t[1..];
      assert Lower(t) == LowerChar(t[0]) + Lower(t[1..]);
      assert sign in LowerChar(t[0]) <==> t[0] == sign;
    }
  }

  /** The classification does not depend on letter case. */
  lemma ClassifyIgnoresCase(t: string)
    ensures Classify(Lower(t)) == Classify(t)
  {
    LowerIdempotent(t);
    LowerKeepsSign(t, '+');
    LowerKeepsSign(t, '-');
    ContainsChar(t, '+');
    ContainsChar(t, '-');
    ContainsChar(Lower(t), '+');
    ContainsChar(Lower(t), '-');
  }

  /** The positive markers are tested first: a text with both `+` and `-`
      is positive. */
  lemma PositiveBeforeNegative(t: string)
    requires Contains(t, "+") && Contains(t, "-")
    ensures Classify(t) == Positive
  {
  }

  function RevenueData(): Json
  {
    Obj([("kpi", Obj([("label", Str("Revenue")), ("value", Num(Finite(false, [5], 4))), ("trend", Str("+12%"))]))])
  }

  lemma RevenueInnerLookups()
    ensures var inner := Some(Obj([("label", Str("Revenue")), ("value", Num(Finite(false, [5], 4))), ("trend", Str("+12%"))]));
      && Field(inner, "label") == Some(Str("Revenue"))
      && Field(inner, "value") == Some(Num(Finite(false, [5], 4)))
      && Field(inner, "trend") == Some(Str("+12%"))
  {
    var fields := [("label", Str("Revenue")), ("value", Num(Finite(false, [5], 4))), ("trend", Str("+12%"))];
    assert "label"[0] != "value"[0] && "label"[0] != "trend"[0] && "value"[0] != "trend"[0];
    assert fields[1..] == [("value", Num(Finite(false, [5], 4))), ("trend", Str("+12%"))];
    assert fields[2..] == [("trend", Str("+12%"))];
  }

  lemma RevenueLookups()
    ensures ResolvedLabel(Some(RevenueData())) == Str("Revenue")
    ensures ResolvedValue(Some(RevenueData())) == Some(Num(Finite(false, [5], 4)))
    ensures ResolvedTrend(Some(RevenueData())) == Some(Str("+12%"))
  {
    var inner := Obj([("label", Str("Revenue")), ("value", Num(Finite(false, [5], 4))), ("trend", Str("+12%"))]);
    var data := Some(RevenueData());
    assert Field(data, "value").None? && Field(data, "kpi") == Some(inner);
    assert NestedSource(data) == Some(inner);
    RevenueInnerLookups();
  }

  /** The example card `{kpi: {label: "Revenue", value: 5000, trend: "+12%"}}`. */
  lemma RevenueExample()
    ensures var n5000 := Finite(false, [5], 4);
      NormalizeKpi(Some(RevenueData())) == Card(Str("Revenue"), Num(n5000), Localized(n5000), Some(Str("+12%")), Positive)
  {
    assert Classify("+12%") == Positive by {
      assert Contains("+12%", "+");
    }
    RevenueLookups();
  }
}
