/** How `/chat` (backend/main.py) turns the agent's parsed answer into its
    reply: the widget list is shaped, chart widgets are normalised in place,
    and the result is sent as a dashboard or as text. Python's `str()` of a
    value that is not a string, and the text of the `AttributeError` raised
    by `.get` on a widget that is not a dict, are given as parameters. */
module ChatWidgets {
  import opened JsonValue
  import opened Text
  import JsonCleaning

  /** `str(v)`: a string is itself; any other value goes through `pyStr`. */
  function PyText(v: Json, pyStr: Json -> string): string
  {
    if v.Str? then v.s else pyStr(v)
  }

  /** A dict with a `kpi` or `chart` key becomes the list of those two
      members, `kpi` first, leaving out the absent one. */
  function Regrouped(data: Json): Json
  {
    if data.Obj? && (HasKey(data.fields, "kpi") || HasKey(data.fields, "chart")) then
      var kpi := if HasKey(data.fields, "kpi") then [Get(data.fields, "kpi").value] else [];
      var chart := if HasKey(data.fields, "chart") then [Get(data.fields, "chart").value] else [];
      Arr(kpi + chart)
    else data
  }

  /** `final_widgets`: a list as it is; a dict with `vis_type` as the only
      widget; a dict with `type` wrapped as the payload of a `kpi` widget (for
      type "kpi") or a `chart` widget (any other type); nothing otherwise. */
  function FinalWidgets(data: Json): seq<Json>
  {
    var d := Regrouped(data);
    if d.Arr? then d.items
    else if d.Obj? && HasKey(d.fields, "vis_type") then [d]
    else if d.Obj? && HasKey(d.fields, "type") then
      var visType := if Get(d.fields, "type") == Some(Str("kpi")) then "kpi" else "chart";
      [Obj([("vis_type", Str(visType)), ("payload", d)])]
    else []
  }

  /** The chart payload with a "bar" type added when it has none. */
  function WithType(payload: seq<(string, Json)>): (r: seq<(string, Json)>)
    ensures Get(r, "type") == if HasKey(payload, "type") then Get(payload, "type") else Some(Str("bar"))
  {
    GetAfterSet(payload, "type", Str("bar"), "type");
    if HasKey(payload, "type") then payload else Set(payload, "type", Str("bar"))
  }

  /** The chart payload after post-processing: a missing `type` is added as
      "bar", the type is replaced by its lowercased text, and "column" by
      "bar". */
  function NormalizeChartPayload(payload: seq<(string, Json)>, pyStr: Json -> string): seq<(string, Json)>
  {
    var withType := WithType(payload);
    var lowered := Set(withType, "type", Str(Lower(PyText(Get(withType, "type").value, pyStr))));
    if Lower(PyText(Get(withType, "type").value, pyStr)) == "column" then Set(lowered, "type", Str("bar")) else lowered
  }

  /** A widget is a chart with a dict payload. */
  predicate IsChartWithPayload(w: Json)
  {
    && w.Obj? && Get(w.fields, "vis_type") == Some(Str("chart"))
    && HasKey(w.fields, "payload") && Get(w.fields, "payload").value.Obj?
  }

  /** One pass of the post-processing loop over a dict widget. */
  function NormalizeWidget(w: Json, pyStr: Json -> string): (r: Json)
    requires w.Obj?
    ensures r.Obj?
  {
    if IsChartWithPayload(w) then
      var payload := Get(w.fields, "payload").value.fields;
      Obj(Set(w.fields, "payload", Obj(NormalizeChartPayload(payload, pyStr))))
    else w
  }

  /** The index of the first widget that is not a dict, where `.get` raises. */
  function FirstNonObject(ws: seq<Json>): (r: Option<nat>)
    ensures r.Some? ==> r.value < |ws| && !ws[r.value].Obj? && forall j :: 0 <= j < r.value ==> ws[j].Obj?
    ensures r.None? ==> forall j :: 0 <= j < |ws| ==> ws[j].Obj?
  {
    if ws == [] then None
    else if !ws[0].Obj? then Some(0)
    else match FirstNonObject(ws[1..])
      case None => None
      case Some(k) => Some(k + 1)
  }

  /** Every widget of an all-dict list, normalised. */
  function NormalizeAll(ws: seq<Json>, pyStr: Json -> string): (r: seq<Json>)
    requires forall j :: 0 <= j < |ws| ==> ws[j].Obj?
    ensures |r| == |ws|
  {
    seq(|ws|, i requires 0 <= i < |ws| => NormalizeWidget(ws[i], pyStr))
  }

  /** The widget list after the loop: all of it normalised, or, when a
      widget is not a dict, the widgets before it normalised and the rest
      untouched. */
  function PostProcessed(ws: seq<Json>, pyStr: Json -> string): (r: seq<Json>)
    ensures |r| == |ws|
  {
    match FirstNonObject(ws)
    case None => NormalizeAll(ws, pyStr)
    case Some(k) => NormalizeAll(ws[..k], pyStr) + ws[k..]
  }

  /** A reply body `{"type": kind, "payload": payload}`. */
  function TypedReply(kind: string, payload: Json): (r: Json)
    ensures r.Obj? && Get(r.fields, "type") == Some(Str(kind)) && Get(r.fields, "payload") == Some(payload)
  {
    Obj([("type", Str(kind)), ("payload", payload)])
  }

  /** Cleaning a reply body cleans its payload and keeps its kind. */
  lemma CleanTypedReply(kind: string, payload: Json)
    ensures JsonCleaning.CleanForJson(TypedReply(kind, payload)) == TypedReply(kind, JsonCleaning.CleanForJson(payload))
  {
    var fields := TypedReply(kind, payload).fields;
    assert JsonCleaning.CleanForJson(TypedReply(kind, payload)).fields
      == [(fields[0].0, JsonCleaning.CleanForJson(fields[0].1)), (fields[1].0, JsonCleaning.CleanForJson(fields[1].1))];
  }

  /** The reply of `/chat` for the parsed answer `data`: a dashboard of the
      normalised widgets, the text of `data` when there are none, or the
      failure text when a widget is not a dict. */
  function ChatReply(data: Json, pyStr: Json -> string, attributeError: Json -> string): Json
  {
    var ws := FinalWidgets(data);
    match FirstNonObject(ws)
    case Some(k) => TypedReply("text", Str("Analysis failed: " + attributeError(ws[k])))
    case None =>
      if |ws| > 0 then JsonCleaning.CleanForJson(TypedReply("dashboard", Arr(NormalizeAll(ws, pyStr))))
      else JsonCleaning.CleanForJson(TypedReply("text", Str(PyText(Regrouped(data), pyStr))))
  }

  // ------------------------------------------------------------ the imperative loop

  /** The body of the post-processing loop for one dict widget: a chart's
      payload gets a "bar" type when it has none, then its type lowercased,
      then "column" replaced by "bar". */
  method NormalizeChart(widget: Json, pyStr: Json -> string) returns (w: Json)
    requires widget.Obj?
    ensures w == NormalizeWidget(widget, pyStr)
  {
    w := widget;
    if IsChartWithPayload(widget) {
      var payload := Get(widget.fields, "payload").value.fields;
      if !HasKey(payload, "type") {
        payload := Set(payload, "type", Str("bar"));
      }
      GetAfterSet(Get(widget.fields, "payload").value.fields, "type", Str("bar"), "type");
      var text := Lower(PyText(Get(payload, "type").value, pyStr));
      payload := Set(payload, "type", Str(text));
      if text == "column" {
        payload := Set(payload, "type", Str("bar"));
      }
      w := Obj(Set(widget.fields, "payload", Obj(payload)));
    }
  }

  /** The post-processing loop: each widget is normalised in place; the loop
      stops at the first widget that is not a dict, whose index is returned. */
  method PostProcess(widgets: array<Json>, pyStr: Json -> string) returns (failedAt: Option<nat>)
    modifies widgets
    ensures failedAt == FirstNonObject(old(widgets[..]))
    ensures widgets[..] == PostProcessed(old(widgets[..]), pyStr)
  {
    ghost var ws := widgets[..];
    var i := 0;
    while i < widgets.Length
      invariant 0 <= i <= widgets.Length
      invariant forall j :: 0 <= j < i ==> ws[j].Obj?
      invariant widgets[..i] == NormalizeAll(ws[..i], pyStr)
      invariant widgets[i..] == ws[i..]
    {
      var widget := widgets[i];
      assert widget == ws[i..][0];
      if !widget.Obj? {
        assert widgets[..] == widgets[..i] + widgets[i..];
        return Some(i);
      }
      var normalized := NormalizeChart(widget, pyStr);
      widgets[i] := normalized;
      assert widgets[..i + 1] == widgets[..i] + [normalized];
      assert ws[..i + 1] == ws[..i] + [ws[i]];
      assert widgets[i + 1..] == ws[i..][1..];
      i := i + 1;
    }
    assert widgets[..] == widgets[..i];
    assert ws == ws[..i];
    return None;
  }

  /** `/chat` from the parsed answer on: the widgets are put in an array and
      post-processed, then the reply is built. */
  method Reply(data: Json, pyStr: Json -> string, attributeError: Json -> string) returns (reply: Json)
    ensures reply == ChatReply(data, pyStr, attributeError)
  {
    var ws := FinalWidgets(data);
    var widgets := new Json[|ws|](i requires 0 <= i < |ws| => ws[i]);
    assert widgets[..] == ws;
    var failedAt := PostProcess(widgets, pyStr);
    if failedAt.Some? {
      return TypedReply("text", Str("Analysis failed: " + attributeError(ws[failedAt.value])));
    }
    if widgets.Length > 0 {
      return JsonCleaning.CleanForJson(TypedReply("dashboard", Arr(widgets[..])));
    }
    return JsonCleaning.CleanForJson(TypedReply("text", Str(PyText(Regrouped(data), pyStr))));
  }

  // ------------------------------------------------------------ properties

  /** The `kpi` member comes before the `chart` member, and a dict with only
      one of them gives one widget. */
  lemma KpiBeforeChart(data: Json)
    requires data.Obj? && (HasKey(data.fields, "kpi") || HasKey(data.fields, "chart"))
    ensures HasKey(data.fields, "kpi") && HasKey(data.fields, "chart") ==>
      FinalWidgets(data) == [Get(data.fields, "kpi").value, Get(data.fields, "chart").value]
    ensures !HasKey(data.fields, "chart") ==> FinalWidgets(data) == [Get(data.fields, "kpi").value]
    ensures !HasKey(data.fields, "kpi") ==> FinalWidgets(data) == [Get(data.fields, "chart").value]
  {
  }

  /** A list is the widget list as it stands. */
  lemma ListIsWidgetList(items: seq<Json>)
    ensures FinalWidgets(Arr(items)) == items
  {
  }

  /** A dict that is itself a widget is the only widget. */
  lemma WidgetDictAlone(data: Json)
    requires data.Obj? && !HasKey(data.fields, "kpi") && !HasKey(data.fields, "chart")
    requires HasKey(data.fields, "vis_type")
    ensures FinalWidgets(data) == [data]
  {
  }

  /** A dict with a `type` but no `vis_type` is wrapped whole as the payload
      of one widget, a KPI exactly when its type is the string "kpi". */
  lemma TypedDictWrapped(data: Json)
    requires data.Obj? && !HasKey(data.fields, "kpi") && !HasKey(data.fields, "chart")
    requires !HasKey(data.fields, "vis_type") && HasKey(data.fields, "type")
    ensures |FinalWidgets(data)| == 1
    ensures var w := FinalWidgets(data)[0];
      && w.Obj? && Get(w.fields, "payload") == Some(data)
      && (Get(w.fields, "vis_type") == Some(Str("kpi")) <==> Get(data.fields, "type") == Some(Str("kpi")))
      && (Get(w.fields, "vis_type") == Some(Str("kpi")) || Get(w.fields, "vis_type") == Some(Str("chart")))
  {
  }

  /** Anything else gives no widget: scalars, and dicts with none of the
      keys `kpi`, `chart`, `vis_type` and `type`. */
  lemma NoWidgets(data: Json)
    requires !data.Arr?
    requires data.Obj? ==>
      !HasKey(data.fields, "kpi") && !HasKey(data.fields, "chart") && !HasKey(data.fields, "vis_type") && !HasKey(data.fields, "type")
    ensures FinalWidgets(data) == []
  {
  }

  /** The three writes to a chart payload's `type` come to one: the
      lowercased text of its type ("bar" when it had none), with "column"
      read as "bar". */
  lemma NormalizedPayloadIsOneSet(payload: seq<(string, Json)>, pyStr: Json -> string)
    ensures var withType := WithType(payload);
      var l := Lower(PyText(Get(withType, "type").value, pyStr));
      NormalizeChartPayload(payload, pyStr) == Set(withType, "type", Str(if l == "column" then "bar" else l))
  {
    var withType := WithType(payload);
    var l := Lower(PyText(Get(withType, "type").value, pyStr));
    SetTwice(withType, "type", Str(l), Str("bar"));
  }

  lemma BarIsLowerForm()
    ensures IsLowerForm("bar") && Lower("bar") == "bar"
  {
    var bar := "bar";
    forall i | 0 <= i < |bar| ensures !('A' <= bar[i] <= 'Z') && bar[i] != '\U{212A}' && bar[i] != '\U{130}' {
      assert bar[i] == 'b' || bar[i] == 'a' || bar[i] == 'r';
    }
    LowerOfLowerForm(bar);
  }

  /** The written type is in lower case and never "column". */
  lemma AliasedTypeLowerForm(v: Json, pyStr: Json -> string)
    ensures var l := Lower(PyText(v, pyStr));
      var t := if l == "column" then "bar" else l;
      IsLowerForm(t) && t != "column"
  {
    LowerIsLowerForm(PyText(v, pyStr));
    BarIsLowerForm();
  }

  /** After normalisation a chart payload has a string type that is in lower
      case and never "column": "bar" when it had none, the lowercased old
      type otherwise with "column" read as "bar". */
  lemma ChartTypeNormalized(payload: seq<(string, Json)>, pyStr: Json -> string)
    ensures var p := NormalizeChartPayload(payload, pyStr);
      && Get(p, "type").Some? && Get(p, "type").value.Str?
      && IsLowerForm(Get(p, "type").value.s) && Get(p, "type").value.s != "column"
    ensures !HasKey(payload, "type") ==> Get(NormalizeChartPayload(payload, pyStr), "type") == Some(Str("bar"))
    ensures HasKey(payload, "type") ==>
      var l := Lower(PyText(Get(payload, "type").value, pyStr));
      Get(NormalizeChartPayload(payload, pyStr), "type") == Some(Str(if l == "column" then "bar" else l))
  {
    var withType := if HasKey(payload, "type") then payload else Set(payload, "type", Str("bar"));
    GetAfterSet(payload, "type", Str("bar"), "type");
    var v := Get(withType, "type").value;
    var l := Lower(PyText(v, pyStr));
    NormalizedPayloadIsOneSet(payload, pyStr);
    GetAfterSet(withType, "type", Str(if l == "column" then "bar" else l), "type");
    AliasedTypeLowerForm(v, pyStr);
    if !HasKey(payload, "type") {
      BarIsLowerForm();
    }
  }

  /** Normalisation touches only the chart's `type`: every other member
      keeps its value and its place, and a new `type` member goes last. */
  lemma ChartOtherMembersKept(payload: seq<(string, Json)>, pyStr: Json -> string)
    ensures forall k :: k != "type" ==> Get(NormalizeChartPayload(payload, pyStr), k) == Get(payload, k)
    ensures Keys(NormalizeChartPayload(payload, pyStr)) ==
      if HasKey(payload, "type") then Keys(payload) else Keys(payload) + ["type"]
  {
    var withType := WithType(payload);
    KeysAfterSet(payload, "type", Str("bar"));
    var l := Lower(PyText(Get(withType, "type").value, pyStr));
    var t := Str(if l == "column" then "bar" else l);
    NormalizedPayloadIsOneSet(payload, pyStr);
    KeysAfterSet(withType, "type", t);
    forall k | k != "type"
      ensures Get(NormalizeChartPayload(payload, pyStr), k) == Get(payload, k)
    {
      GetAfterSet(payload, "type", Str("bar"), k);
      GetAfterSet(withType, "type", t, k);
    }
  }

  /** A normalised chart payload is left as it is by a second pass. */
  lemma ChartPayloadIdempotent(payload: seq<(string, Json)>, pyStr: Json -> string)
    ensures NormalizeChartPayload(NormalizeChartPayload(payload, pyStr), pyStr) == NormalizeChartPayload(payload, pyStr)
  {
    var p := NormalizeChartPayload(payload, pyStr);
    ChartTypeNormalized(payload, pyStr);
    var t := Get(p, "type").value.s;
    LowerOfLowerForm(t);
    assert Lower(PyText(Get(p, "type").value, pyStr)) == t;
    NormalizedPayloadIsOneSet(p, pyStr);
    SetCurrentValue(p, "type");
  }

  /** Normalising a widget twice is normalising it once; widgets that are
      not charts with a dict payload are left as they are. */
  lemma NormalizeIdempotent(w: Json, pyStr: Json -> string)
    requires w.Obj?
    ensures NormalizeWidget(NormalizeWidget(w, pyStr), pyStr) == NormalizeWidget(w, pyStr)
    ensures !IsChartWithPayload(w) ==> NormalizeWidget(w, pyStr) == w
  {
    if IsChartWithPayload(w) {
      var p := NormalizeChartPayload(Get(w.fields, "payload").value.fields, pyStr);
      var f := Set(w.fields, "payload", Obj(p));
      GetAfterSet(w.fields, "payload", Obj(p), "vis_type");
      GetAfterSet(w.fields, "payload", Obj(p), "payload");
      assert IsChartWithPayload(Obj(f));
      ChartPayloadIdempotent(Get(w.fields, "payload").value.fields, pyStr);
      SetCurrentValue(f, "payload");
    }
  }

  /** The reply is a dashboard exactly when there are widgets and all of
      them are dicts; otherwise it is text. */
  lemma ReplyKind(data: Json, pyStr: Json -> string, attributeError: Json -> string)
    ensures var r := ChatReply(data, pyStr, attributeError);
      && r.Obj?
      && (Get(r.fields, "type") == Some(Str("dashboard"))
          <==> |FinalWidgets(data)| > 0 && forall j :: 0 <= j < |FinalWidgets(data)| ==> FinalWidgets(data)[j].Obj?)
      && (Get(r.fields, "type") == Some(Str("dashboard")) || Get(r.fields, "type") == Some(Str("text")))
  {
    var ws := FinalWidgets(data);
    if FirstNonObject(ws).None? {
      if |ws| > 0 {
        CleanTypedReply("dashboard", Arr(NormalizeAll(ws, pyStr)));
      } else {
        CleanTypedReply("text", Str(PyText(Regrouped(data), pyStr)));
      }
    }
  }

  /** A dashboard's payload holds every widget, normalised and cleaned, in
      the order of the widget list. */
  lemma DashboardPayload(data: Json, pyStr: Json -> string, attributeError: Json -> string)
    requires |FinalWidgets(data)| > 0 && FirstNonObject(FinalWidgets(data)).None?
    ensures var r := ChatReply(data, pyStr, attributeError);
      && r.Obj? && Get(r.fields, "payload").Some? && Get(r.fields, "payload").value.Arr?
      && var items := Get(r.fields, "payload").value.items;
      && |items| == |FinalWidgets(data)|
      && forall j :: 0 <= j < |items| ==> items[j] == JsonCleaning.CleanForJson(NormalizeWidget(FinalWidgets(data)[j], pyStr))
  {
    CleanTypedReply("dashboard", Arr(NormalizeAll(FinalWidgets(data), pyStr)));
  }

  /** A widget that is not a dict fails the whole reply, naming the first
      such widget; a reply without widgets is the text of the answer. */
  lemma FailureAndText(data: Json, pyStr: Json -> string, attributeError: Json -> string)
    ensures FirstNonObject(FinalWidgets(data)).Some? ==>
      var k := FirstNonObject(FinalWidgets(data)).value;
      ChatReply(data, pyStr, attributeError) == TypedReply("text", Str("Analysis failed: " + attributeError(FinalWidgets(data)[k])))
    ensures FinalWidgets(data) == [] ==>
      ChatReply(data, pyStr, attributeError) == TypedReply("text", JsonCleaning.CleanForJson(Str(PyText(data, pyStr))))
  {
    if FinalWidgets(data) == [] {
      CleanTypedReply("text", Str(PyText(Regrouped(data), pyStr)));
    }
  }
}
