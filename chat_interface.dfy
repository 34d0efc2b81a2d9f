/** The chat panel (frontend/src/components/ChatInterface.tsx): the file
    list and its selection, adding and deleting files, sending a question and
    turning the backend's reply into a transcript entry, and the widget
    dispatch of the transcript. Each handler is one atomic step; the results
    of the backend calls it awaits are parameters. */
module ChatInterface {
  import opened JsonValue
  import opened Js
  import opened Text
  import KpiCard
  import ChartRenderer

  datatype FileItem = FileItem(id: string, filename: string, source: string)

  datatype Role = User | Assistant

  /** A transcript entry; `content` and `widgets` hold whatever the reply
      carried (`None` is `undefined`). */
  datatype Message = Message(role: Role, content: Option<Json>, widgets: Option<Json>)

  datatype AddTab = Upload | Url

  /** How an awaited backend call settled: with its parsed body, or rejected
      with an error whose `message` is given. */
  datatype Reply = Ok(data: Json) | Failed(message: string)

  /** The backend call `handleAddFile` makes. */
  datatype AddCall = UploadCall | ConnectCall(url: string)

  /** The body of the `/chat` request: the question and the file id, which
      is left out (`undefined`) when the selection is falsy. */
  datatype ChatRequest = ChatRequest(query: string, fileId: Option<Json>)

  /** The component state. */
  datatype Panel = Panel(
    files: seq<FileItem>,
    selectedFileId: Option<Json>,
    messages: seq<Message>,
    query: string,
    loading: bool,
    isAdding: bool,
    showAddPanel: bool,
    urlInput: string,
    addTab: AddTab,
    dataConnected: bool,
    alerts: seq<string>)

  const AnalysisIntro := "Here is the analysis:"
  const TextFallback := "Analysis complete."
  const ChatError := "Sorry, there was an error processing your request."
  const DeleteFailed := "Failed to delete file."
  const AddFailedPrefix := "Failed to add file: "
  const DefaultLimit := 12

  function InitialPanel(isConnected: bool): Panel
  {
    Panel([], None, [], "", false, false, false, "", Upload, isConnected, [])
  }

  /** `list.find(f => f.id === sel)` finds an item. */
  predicate Listed(list: seq<FileItem>, sel: Option<Json>)
  {
    sel.Some? && exists i :: 0 <= i < |list| && sel.value == Str(list[i].id)
  }

  // ---------------------------------------------------------------- refresh

  /** The selection after `refreshFiles` fetched `list`: a non-empty list
      replaces a falsy or unlisted selection by its last (newest) file; an
      empty list leaves the selection alone. */
  function SelectionAfterRefresh(sel: Option<Json>, list: seq<FileItem>): (r: Option<Json>)
    ensures |list| > 0 ==> Listed(list, r)
    ensures list == [] ==> r == sel
  {
    if |list| > 0 && (!Truthy(sel) || !Listed(list, sel)) then Some(Str(list[|list| - 1].id)) else sel
  }

  /** `refreshFiles()`; `fetched` is `None` when `getFiles` fails. */
  function Refreshed(p: Panel, fetched: Option<seq<FileItem>>): Panel
  {
    if fetched.None? then p
    else
      var list := fetched.value;
      p.(files := list,
         selectedFileId := SelectionAfterRefresh(p.selectedFileId, list),
         dataConnected := p.dataConnected || |list| > 0)
  }

  /** After a successful refresh with files, the list is the fetched one and
      the selection names one of its files. */
  lemma RefreshSelectsListedFile(p: Panel, list: seq<FileItem>)
    requires |list| > 0
    ensures var q := Refreshed(p, Some(list));
      q.files == list && Listed(list, q.selectedFileId) && q.dataConnected && q.messages == p.messages
  {
  }

  /** A truthy selection that is in the fetched list is kept. */
  lemma RefreshKeepsListedSelection(p: Panel, list: seq<FileItem>)
    requires Truthy(p.selectedFileId) && Listed(list, p.selectedFileId)
    ensures Refreshed(p, Some(list)).selectedFileId == p.selectedFileId
  {
  }

  /** An empty list empties the file list but keeps the selection, which
      then names no listed file. */
  lemma RefreshEmptyKeepsDanglingSelection(p: Panel)
    ensures var q := Refreshed(p, Some([]));
      q.files == [] && q.selectedFileId == p.selectedFileId && !Listed(q.files, q.selectedFileId)
  {
  }

  /** A failed fetch changes nothing. */
  lemma RefreshFailureChangesNothing(p: Panel)
    ensures Refreshed(p, None) == p
  {
  }

  /** Refreshing twice with the same list is refreshing once. */
  lemma RefreshIdempotent(p: Panel, fetched: Option<seq<FileItem>>)
    ensures Refreshed(Refreshed(p, fetched), fetched) == Refreshed(p, fetched)
  {
    if fetched.Some? && |fetched.value| > 0 {
      var list := fetched.value;
      var sel := SelectionAfterRefresh(p.selectedFileId, list);
      assert Listed(list, sel);
      if !Truthy(sel) {
        assert sel == Some(Str(list[|list| - 1].id));
      }
    }
  }

  // ---------------------------------------------------------------- add

  /** The backend call `handleAddFile` makes: an upload when the upload tab
      has a file, a connect when the URL tab has a non-blank URL. */
  function AddCallFor(p: Panel, hasFile: bool): Option<AddCall>
  {
    if p.addTab == Upload && hasFile then Some(UploadCall)
    else if p.addTab == Url && p.urlInput != "" && Trim(p.urlInput, IsJsSpace) != "" then Some(ConnectCall(p.urlInput))
    else None
  }

  /** `handleAddFile()`; `reply` is how the upload or connect call settled
      and `fetched` what the refresh after a success fetched. `isAdding` is
      set on entry and cleared by the `finally` block on every way out. */
  function Added(p: Panel, hasFile: bool, reply: Reply, fetched: Option<seq<FileItem>>): Panel
  {
    var q := p.(isAdding := true);
    var r := match AddCallFor(p, hasFile)
      case None => q
      case Some(call) => Settled(q, call, reply, fetched);
    r.(isAdding := false)
  }

  lemma AddedWithoutCall(p: Panel, hasFile: bool, reply: Reply, fetched: Option<seq<FileItem>>)
    requires AddCallFor(p, hasFile).None?
    ensures Added(p, hasFile, reply, fetched) == p.(isAdding := false)
  {
  }

  lemma AddedWithCall(p: Panel, hasFile: bool, reply: Reply, fetched: Option<seq<FileItem>>)
    requires AddCallFor(p, hasFile).Some?
    ensures Added(p, hasFile, reply, fetched) ==
      Settled(p.(isAdding := true), AddCallFor(p, hasFile).value, reply, fetched).(isAdding := false)
  {
  }

  /** The awaited call settled: a rejection alerts its message; a success
      clears the URL field (for a connect) and, when the reply has a truthy
      `file_id`, refreshes the list, selects that id and closes the panel. */
  function Settled(p: Panel, call: AddCall, reply: Reply, fetched: Option<seq<FileItem>>): Panel
  {
    if reply.Failed? then p.(alerts := p.alerts + [AddFailedPrefix + reply.message])
    else
      var q := if call.ConnectCall? then p.(urlInput := "") else p;
      var id := Field(Some(reply.data), "file_id");
      if Truthy(id) then Refreshed(q, fetched).(selectedFileId := id, showAddPanel := false) else q
  }

  /** The backend is called only for an upload with a file or a URL that is
      not blank. */
  lemma AddCallsBackendOnlyWithInput(p: Panel, hasFile: bool)
    ensures AddCallFor(p, hasFile).Some? <==>
      (p.addTab == Upload && hasFile) || (p.addTab == Url && Trim(p.urlInput, IsJsSpace) != "")
  {
    if p.urlInput == "" {
      TrimEmptyIff(p.urlInput, IsJsSpace);
    }
  }

  /** Every way out of `handleAddFile` leaves `isAdding` false, and the
      transcript is not touched. */
  lemma AddEndsNotAdding(p: Panel, hasFile: bool, reply: Reply, fetched: Option<seq<FileItem>>)
    ensures Added(p, hasFile, reply, fetched).isAdding == false
    ensures Added(p, hasFile, reply, fetched).messages == p.messages
  {
    if AddCallFor(p, hasFile).Some? {
      SettledKeepsMessages(p.(isAdding := true), AddCallFor(p, hasFile).value, reply, fetched);
    }
  }

  lemma SettledKeepsMessages(p: Panel, call: AddCall, reply: Reply, fetched: Option<seq<FileItem>>)
    ensures Settled(p, call, reply, fetched).messages == p.messages
  {
    if reply.Ok? {
      var q := if call.ConnectCall? then p.(urlInput := "") else p;
      assert Refreshed(q, fetched).messages == p.messages;
    }
  }

  /** A reply with a truthy `file_id` selects exactly that id, listed or
      not, and closes the panel; the file list is the refreshed one. */
  lemma AddSelectsReturnedId(p: Panel, hasFile: bool, data: Json, fetched: Option<seq<FileItem>>)
    requires AddCallFor(p, hasFile).Some? && Truthy(Field(Some(data), "file_id"))
    ensures var q := Added(p, hasFile, Ok(data), fetched);
      && q.selectedFileId == Field(Some(data), "file_id")
      && !q.showAddPanel
      && q.files == (if fetched.Some? then fetched.value else p.files)
  {
  }

  /** A failed add shows an alert with the error's message and changes
      neither the files nor the selection (nor the URL typed). */
  lemma AddFailureKeepsFiles(p: Panel, hasFile: bool, message: string, fetched: Option<seq<FileItem>>)
    requires AddCallFor(p, hasFile).Some?
    ensures var q := Added(p, hasFile, Failed(message), fetched);
      && q.files == p.files && q.selectedFileId == p.selectedFileId && q.urlInput == p.urlInput
      && q.alerts == p.alerts + ["Failed to add file: " + message]
  {
  }

  // ---------------------------------------------------------------- delete

  /** The selection after deleting `fileId` and fetching `list`: if the
      deleted file was selected, the last listed file or none; otherwise
      unchanged. */
  function SelectionAfterDelete(sel: Option<Json>, fileId: string, list: seq<FileItem>): Option<Json>
  {
    if sel == Some(Str(fileId)) then
      if |list| > 0 then Some(Str(list[|list| - 1].id)) else None
    else sel
  }

  /** `handleDeleteFile()`: `confirmed` is the answer to the confirmation,
      `deleted` whether the delete call succeeded, `fetched` the list fetched
      after it (`None` when that fetch fails). */
  function Deleted(p: Panel, fileId: string, confirmed: bool, deleted: bool, fetched: Option<seq<FileItem>>): Panel
  {
    if !confirmed then p
    else if !deleted || fetched.None? then p.(alerts := p.alerts + [DeleteFailed])
    else
      var list := fetched.value;
      p.(files := list, selectedFileId := SelectionAfterDelete(p.selectedFileId, fileId, list))
  }

  /** Declining the confirmation changes nothing. */
  lemma DeclineChangesNothing(p: Panel, fileId: string, deleted: bool, fetched: Option<seq<FileItem>>)
    ensures Deleted(p, fileId, false, deleted, fetched) == p
  {
  }

  /** A failed delete or refetch only adds the alert. */
  lemma DeleteFailureOnlyAlerts(p: Panel, fileId: string, deleted: bool, fetched: Option<seq<FileItem>>)
    requires !deleted || fetched.None?
    ensures Deleted(p, fileId, true, deleted, fetched) == p.(alerts := p.alerts + ["Failed to delete file."])
  {
  }

  /** Deleting the selected file selects the last remaining file, or nothing
      when none remain; deleting another file keeps the selection. */
  lemma DeleteReselects(p: Panel, fileId: string, list: seq<FileItem>)
    ensures var q := Deleted(p, fileId, true, true, Some(list));
      && q.files == list && q.messages == p.messages
      && (p.selectedFileId == Some(Str(fileId)) && |list| > 0 ==> Listed(list, q.selectedFileId))
      && (p.selectedFileId == Some(Str(fileId)) && list == [] ==> q.selectedFileId.None?)
      && (p.selectedFileId != Some(Str(fileId)) ==> q.selectedFileId == p.selectedFileId)
  {
  }

  /** When the refetched list no longer has the deleted file, the deleted
      id is not left selected. */
  lemma DeletedIdNotSelected(p: Panel, fileId: string, list: seq<FileItem>)
    requires forall i :: 0 <= i < |list| ==> list[i].id != fileId
    ensures Deleted(p, fileId, true, true, Some(list)).selectedFileId != Some(Str(fileId))
  {
    if p.selectedFileId == Some(Str(fileId)) && |list| > 0 {
      assert list[|list| - 1].id != fileId;
    }
  }

  // ---------------------------------------------------------------- send

  predicate BlankQuery(p: Panel)
  {
    Trim(p.query, IsJsSpace) == ""
  }

  /** `selectedFileId || undefined`. */
  function RequestFileId(sel: Option<Json>): Option<Json>
  {
    if Truthy(sel) then sel else None
  }

  function SendRequest(p: Panel): Option<ChatRequest>
  {
    if BlankQuery(p) then None else Some(ChatRequest(p.query, RequestFileId(p.selectedFileId)))
  }

  function UserMessage(query: string): Message
  {
    Message(User, Some(Str(query)), None)
  }

  /** The assistant entry for a settled `/chat` call. A rejected call, or a
      `null` body (whose `type` cannot be read), gives the fixed error text
      without widgets. */
  function AssistantMessage(reply: Reply): (m: Message)
    ensures m.role == Assistant
  {
    if reply.Failed? || reply.data == Null then Message(Assistant, Some(Str(ChatError)), None)
    else
      var kind := Field(Some(reply.data), "type");
      var payload := Field(Some(reply.data), "payload");
      if kind == Some(Str("dashboard")) || kind == Some(Str("widget")) then
        Message(Assistant, Some(Str(AnalysisIntro)), Or(payload, Some(Arr([]))))
      else if kind == Some(Str("text")) then
        Message(Assistant, Or(payload, Some(Str(TextFallback))), Some(Arr([])))
      else
        var content := if payload.Some? && payload.value.Str? then payload
          else if payload.None? then None
          else Some(Str(Stringify(payload.value)));
        Message(Assistant, content, Some(Arr([])))
  }

  /** The first half of `handleSend`, up to the awaited call. */
  function Begun(p: Panel): Panel
  {
    if BlankQuery(p) then p
    else p.(messages := p.messages + [UserMessage(p.query)], query := "", loading := true)
  }

  lemma BegunNonBlank(p: Panel)
    requires !BlankQuery(p)
    ensures Begun(p) == Panel(p.files, p.selectedFileId, p.messages + [UserMessage(p.query)], "", true,
                              p.isAdding, p.showAddPanel, p.urlInput, p.addTab, p.dataConnected, p.alerts)
  {
  }

  /** The second half, once the call has settled. */
  function Finished(p: Panel, reply: Reply): Panel
  {
    p.(messages := p.messages + [AssistantMessage(reply)], loading := false)
  }

  /** `handleSend()` as one step. */
  function Sent(p: Panel, reply: Reply): Panel
  {
    if BlankQuery(p) then p else Finished(Begun(p), reply)
  }

  /** A blank or white-space query does nothing. */
  lemma BlankQueryIsNoOp(p: Panel, reply: Reply)
    requires forall i :: 0 <= i < |p.query| ==> IsJsSpace(p.query[i])
    ensures Sent(p, reply) == p && SendRequest(p).None?
  {
    TrimEmptyIff(p.query, IsJsSpace);
  }

  /** Otherwise exactly two entries are appended: the untrimmed question
      and the reply. */
  lemma SendAppendsTwoMessages(p: Panel, reply: Reply)
    requires Trim(p.query, IsJsSpace) != ""
    ensures Sent(p, reply).messages == p.messages + [Message(User, Some(Str(p.query)), None), AssistantMessage(reply)]
  {
    var b := Begun(p);
    assert b.messages == p.messages + [UserMessage(p.query)];
    assert Sent(p, reply) == Finished(b, reply);
    AppendTwo(p.messages, UserMessage(p.query), AssistantMessage(reply));
  }

  lemma AppendTwo<T>(s: seq<T>, a: T, b: T)
    ensures (s + [a]) + [b] == s + [a, b]
  {
  }

  /** A sent question clears the input and ends loading, keeps the files and
      the selection, and the request carries the question and the selection
      if truthy. */
  lemma SendClearsInput(p: Panel, reply: Reply)
    requires Trim(p.query, IsJsSpace) != ""
    ensures var q := Sent(p, reply);
      && q.query == "" && !q.loading
      && q.files == p.files && q.selectedFileId == p.selectedFileId
      && SendRequest(p) == Some(ChatRequest(p.query, if Truthy(p.selectedFileId) then p.selectedFileId else None))
  {
    assert Sent(p, reply) == Finished(Begun(p), reply);
  }

  /** A dashboard or widget reply shows the fixed introduction and the
      payload (or no widgets) as its widgets. */
  lemma DashboardReply(data: Json)
    requires Field(Some(data), "type") in {Some(Str("dashboard")), Some(Str("widget"))}
    ensures AssistantMessage(Ok(data)).content == Some(Str("Here is the analysis:"))
    ensures AssistantMessage(Ok(data)).widgets == Or(Field(Some(data), "payload"), Some(Arr([])))
  {
  }

  /** A text reply shows its payload, or "Analysis complete." when the
      payload is falsy. */
  lemma TextReply(data: Json)
    requires Field(Some(data), "type") == Some(Str("text"))
    ensures Truthy(Field(Some(data), "payload")) ==> AssistantMessage(Ok(data)).content == Field(Some(data), "payload")
    ensures !Truthy(Field(Some(data), "payload")) ==> AssistantMessage(Ok(data)).content == Some(Str("Analysis complete."))
  {
    assert "text" != "dashboard" && "text" != "widget";
  }

  /** Any other reply shows a string payload as it is and any other payload
      as its JSON text. */
  lemma OtherReply(data: Json)
    requires data != Null
    requires Field(Some(data), "type") !in {Some(Str("dashboard")), Some(Str("widget")), Some(Str("text"))}
    ensures var payload := Field(Some(data), "payload");
      && (payload.Some? && payload.value.Str? ==> AssistantMessage(Ok(data)).content == payload)
      && (payload.Some? && !payload.value.Str? ==> AssistantMessage(Ok(data)).content == Some(Str(Stringify(payload.value))))
  {
  }

  /** A rejected call and a `null` body both give the fixed error text and
      no widgets. */
  lemma ErrorReply(message: string)
    ensures AssistantMessage(Failed(message)) == Message(Assistant, Some(Str("Sorry, there was an error processing your request.")), None)
    ensures AssistantMessage(Ok(Null)) == AssistantMessage(Failed(message))
  {
  }

  /** The send button is disabled while loading or for a blank query; the
      text input only when no file is selected. */
  predicate SendButtonDisabled(p: Panel)
  {
    p.loading || BlankQuery(p)
  }

  predicate InputDisabled(p: Panel)
  {
    !Truthy(p.selectedFileId)
  }

  /** Nothing stops a second send while one is in flight: the Enter key
      calls `handleSend` even though the button is disabled, and the second
      question is appended before the first answer. */
  lemma EnterSendsWhileLoading(p: Panel, second: string)
    requires Trim(p.query, IsJsSpace) != "" && Trim(second, IsJsSpace) != ""
    ensures var q := Begun(p).(query := second);
      && SendButtonDisabled(q)
      && Begun(q).messages == p.messages + [UserMessage(p.query), UserMessage(second)]
      && Begun(q).loading
  {
  }

  /** `handleSend` does no file check of its own: without a selection the
      input is disabled, yet a question already typed (or sent by Enter) goes
      out without a file id, and the backend then uses its active file. */
  lemma SendWithoutSelection(p: Panel)
    requires !Truthy(p.selectedFileId) && Trim(p.query, IsJsSpace) != ""
    ensures InputDisabled(p) && !SendButtonDisabled(p) == !p.loading
    ensures SendRequest(p) == Some(ChatRequest(p.query, None))
  {
  }

  // ---------------------------------------------------------------- file names

  /** `truncateFilename(name, limit)`. */
  function TruncateFilename(name: string, limit: nat): string
  {
    if name == "" then "Unknown"
    else if |name| <= limit then name
    else name[..limit] + "..."
  }

  /** A non-empty name is shown whole when it fits; a longer one shows its
      first `limit` characters and an ellipsis, `limit + 3` in all. */
  lemma TruncateShowsPrefix(name: string, limit: nat)
    requires name != ""
    ensures var r := TruncateFilename(name, limit);
      && (|name| <= limit ==> r == name)
      && (|name| > limit ==> |r| == limit + 3 && r[..limit] == name[..limit] && r[limit..] == "...")
  {
  }

  /** No shown name is longer than `limit + 3`, except the placeholder. */
  lemma TruncateBound(name: string, limit: nat)
    ensures name == "" ==> TruncateFilename(name, limit) == "Unknown"
    ensures name != "" ==> |TruncateFilename(name, limit)| <= limit + 3
  {
  }

  // ---------------------------------------------------------------- widgets

  datatype WidgetView =
    | KpiWidget(kpi: KpiCard.KpiView)
    | ChartWidget(chart: ChartRenderer.ChartView)
    | NoWidget

  /** What a transcript entry shows below its text: nothing, one view per
      widget, or a render-time `TypeError`. */
  datatype WidgetsView = NoWidgets | WidgetList(views: seq<WidgetView>) | RenderTypeError

  /** One widget of the list: a `kpi` widget goes to the KPI card, a `chart`
      widget to the chart renderer, with its payload; anything else shows
      nothing. */
  function RenderWidget(w: Json): WidgetView
  {
    var visType := Field(Some(w), "vis_type");
    var payload := Field(Some(w), "payload");
    if visType == Some(Str("kpi")) then KpiWidget(KpiCard.NormalizeKpi(payload))
    else if visType == Some(Str("chart")) then ChartWidget(ChartRenderer.RenderChart(payload))
    else NoWidget
  }

  /** The callback of `map` applied to each widget. */
  function RenderEach(items: seq<Json>): (r: seq<WidgetView>)
    ensures |r| == |items|
  {
    seq(|items|, i requires 0 <= i < |items| => RenderWidget(items[i]))
  }

  /** `widgets && widgets.length > 0 && widgets.map(...)`. The `length` of an
      array counts its widgets, of a string its characters, of an object it
      is the object's `length` member, and numbers and booleans have none.
      Mapping throws a `TypeError` on a `null` widget, whose `vis_type`
      cannot be read, and on any value that is not an array, which has no
      `map`. `toNumber` is JavaScript's ToNumber of a string. */
  function RenderWidgets(widgets: Option<Json>, toNumber: string -> Number): (r: WidgetsView)
    ensures r.WidgetList? <==>
      widgets.Some? && widgets.value.Arr? && |widgets.value.items| > 0 && Null !in widgets.value.items
    ensures r.WidgetList? ==> |r.views| == |widgets.value.items|
    ensures r.RenderTypeError? <==>
      || (widgets.Some? && widgets.value.Arr? && Null in widgets.value.items)
      || (widgets.Some? && widgets.value.Str? && widgets.value.s != "")
      || (widgets.Some? && widgets.value.Obj? && GreaterThanZero(Get(widgets.value.fields, "length"), toNumber))
  {
    if !Truthy(widgets) then NoWidgets
    else match widgets.value
      case Arr(items) =>
        if |items| == 0 then NoWidgets
        else if Null in items then RenderTypeError
        else WidgetList(RenderEach(items))
      case Str(_) => RenderTypeError
      case Obj(fields) => if GreaterThanZero(Get(fields, "length"), toNumber) then RenderTypeError else NoWidgets
      case _ => NoWidgets
  }

  /** The widgets are shown in order, a KPI widget as the KPI card of its
      payload and a chart widget as the chart of its payload. */
  lemma WidgetsInOrder(items: seq<Json>, i: nat, toNumber: string -> Number)
    requires Null !in items && i < |items|
    ensures var r := RenderWidgets(Some(Arr(items)), toNumber);
      && r.WidgetList? && |r.views| == |items|
      && (Field(Some(items[i]), "vis_type") == Some(Str("kpi")) ==>
            r.views[i] == KpiWidget(KpiCard.NormalizeKpi(Field(Some(items[i]), "payload"))))
      && (Field(Some(items[i]), "vis_type") == Some(Str("chart")) ==>
            r.views[i] == ChartWidget(ChartRenderer.RenderChart(Field(Some(items[i]), "payload"))))
  {
  }

  /** Error replies and text replies show no widgets. */
  lemma NoWidgetsForErrorsAndText(message: string, data: Json, toNumber: string -> Number)
    requires Field(Some(data), "type") == Some(Str("text"))
    ensures RenderWidgets(AssistantMessage(Failed(message)).widgets, toNumber) == NoWidgets
    ensures RenderWidgets(AssistantMessage(Ok(data)).widgets, toNumber) == NoWidgets
  {
    assert "text" != "dashboard" && "text" != "widget";
  }

  // ---------------------------------------------------------------- the component

  /** The component's state variables and its handlers. */
  class ChatPanel {
    var files: seq<FileItem>
    var selectedFileId: Option<Json>
    var messages: seq<Message>
    var query: string
    var loading: bool
    var isAdding: bool
    var showAddPanel: bool
    var urlInput: string
    var addTab: AddTab
    var dataConnected: bool
    var alerts: seq<string>

    function State(): Panel
      reads this
    {
      Panel(files, selectedFileId, messages, query, loading, isAdding, showAddPanel, urlInput, addTab,
            dataConnected, alerts)
    }

    constructor(isConnected: bool)
      ensures State() == InitialPanel(isConnected)
    {
      files := [];
      selectedFileId := None;
      messages := [];
      query := "";
      loading := false;
      isAdding := false;
      showAddPanel := false;
      urlInput := "";
      addTab := Upload;
      dataConnected := isConnected;
      alerts := [];
    }

    method RefreshFiles(fetched: Option<seq<FileItem>>)
      modifies this
      ensures State() == Refreshed(old(State()), fetched)
    {
      if fetched.Some? {
        var list := fetched.value;
        files := list;
        if |list| > 0 {
          if !Truthy(selectedFileId) || !Listed(list, selectedFileId) {
            selectedFileId := Some(Str(list[|list| - 1].id));
          }
          dataConnected := true;
        }
      }
    }

    method HandleAddFile(hasFile: bool, reply: Reply, fetched: Option<seq<FileItem>>) returns (call: Option<AddCall>)
      modifies this
      ensures call == AddCallFor(old(State()), hasFile)
      ensures State() == Added(old(State()), hasFile, reply, fetched)
    {
      ghost var p := State();
      isAdding := true;
      call := ChooseAddCall(hasFile);
      if call.None? {
        isAdding := false;
        AddedWithoutCall(p, hasFile, reply, fetched);
        return;
      }
      AddedWithCall(p, hasFile, reply, fetched);
      SettleAdd(call.value, reply, fetched);
    }

    /** Which backend call the add handler makes, if any: the upload of the
        picked file, or the connect call for a URL that is not blank. */
    method ChooseAddCall(hasFile: bool) returns (call: Option<AddCall>)
      ensures call == AddCallFor(State(), hasFile)
    {
      if addTab == Upload && hasFile {
        call := Some(UploadCall);
      } else if addTab == Url && urlInput != "" {
        if Trim(urlInput, IsJsSpace) == "" {
          return None;
        }
        call := Some(ConnectCall(urlInput));
      } else {
        call := None;
      }
    }

    /** From the awaited call to the end of the `finally` block. */
    method SettleAdd(call: AddCall, reply: Reply, fetched: Option<seq<FileItem>>)
      modifies this
      ensures State() == Settled(old(State()), call, reply, fetched).(isAdding := false)
    {
      if reply.Failed? {
        alerts := alerts + [AddFailedPrefix + reply.message];
      } else {
        if call.ConnectCall? {
          urlInput := "";
        }
        var id := Field(Some(reply.data), "file_id");
        if Truthy(id) {
          RefreshFiles(fetched);
          selectedFileId := id;
          showAddPanel := false;
        }
      }
      isAdding := false;
    }

    method HandleDeleteFile(fileId: string, confirmed: bool, deleted: bool, fetched: Option<seq<FileItem>>)
      modifies this
      ensures State() == Deleted(old(State()), fileId, confirmed, deleted, fetched)
    {
      if !confirmed {
        return;
      }
      if !deleted || fetched.None? {
        alerts := alerts + [DeleteFailed];
        return;
      }
      var list := fetched.value;
      files := list;
      if selectedFileId == Some(Str(fileId)) {
        if |list| > 0 {
          selectedFileId := Some(Str(list[|list| - 1].id));
        } else {
          selectedFileId := None;
        }
      }
    }

    /** `handleSend` up to the awaited call; returns the request it sends. */
    method BeginSend() returns (request: Option<ChatRequest>)
      modifies this
      ensures request == SendRequest(old(State()))
      ensures State() == Begun(old(State()))
    {
      if Trim(query, IsJsSpace) == "" {
        return None;
      }
      BegunNonBlank(State());
      var userMessage := UserMessage(query);
      messages := messages + [userMessage];
      request := Some(ChatRequest(query, if Truthy(selectedFileId) then selectedFileId else None));
      query := "";
      loading := true;
    }

    /** `handleSend` after the call settled with `reply`. */
    method FinishSend(reply: Reply)
      modifies this
      ensures State() == Finished(old(State()), reply)
    {
      var assistantMessage := AssistantMessage(reply);
      messages := messages + [assistantMessage];
      loading := false;
    }

    method HandleSend(reply: Reply) returns (request: Option<ChatRequest>)
      modifies this
      ensures request == SendRequest(old(State()))
      ensures State() == Sent(old(State()), reply)
    {
      request := BeginSend();
      if request.Some? {
        FinishSend(reply);
      }
    }

    /** Enter without Shift sends, whatever the state of the send button. */
    method HandleKeyPress(key: string, shift: bool, reply: Reply) returns (request: Option<ChatRequest>)
      modifies this
      ensures key == "Enter" && !shift ==> request == SendRequest(old(State())) && State() == Sent(old(State()), reply)
      ensures !(key == "Enter" && !shift) ==> request.None? && State() == old(State())
    {
      if key == "Enter" && !shift {
        request := HandleSend(reply);
      } else {
        request := None;
      }
    }
  }
}
