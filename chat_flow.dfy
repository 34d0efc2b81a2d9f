/** The `/chat` reply as the chat panel shows it: what backend/main.py sends
    and what frontend/src/components/ChatInterface.tsx makes of it. */
module ChatFlow {
  import opened JsonValue
  import opened Js
  import JsonCleaning
  import ChatWidgets
  import ChatInterface

  /** A dashboard reply reaches the panel as an assistant message with the
      analysis intro whose widget list is the reply's payload: one entry for
      every shaped widget, in order, each normalised and cleaned. */
  lemma DashboardShownAsWidgets(data: Json, pyStr: Json -> string, attributeError: Json -> string)
    requires |ChatWidgets.FinalWidgets(data)| > 0
    requires ChatWidgets.FirstNonObject(ChatWidgets.FinalWidgets(data)).None?
    ensures var m := ChatInterface.AssistantMessage(ChatInterface.Ok(ChatWidgets.ChatReply(data, pyStr, attributeError)));
      var ws := ChatWidgets.FinalWidgets(data);
      && m.content == Some(Str(ChatInterface.AnalysisIntro))
      && m.widgets.Some? && m.widgets.value.Arr? && |m.widgets.value.items| == |ws|
      && forall j :: 0 <= j < |ws| ==>
        m.widgets.value.items[j] == JsonCleaning.CleanForJson(ChatWidgets.NormalizeWidget(ws[j], pyStr))
  {
    var r := ChatWidgets.ChatReply(data, pyStr, attributeError);
    ChatWidgets.ReplyKind(data, pyStr, attributeError);
    ChatWidgets.DashboardPayload(data, pyStr, attributeError);
    assert Field(Some(r), "type") == Some(Str("dashboard"));
    ChatInterface.DashboardReply(r);
    assert Truthy(Field(Some(r), "payload"));
  }

  /** A reply that failed on a widget that is not a dict is shown as text:
      the failure message itself. */
  lemma FailureShownAsText(data: Json, pyStr: Json -> string, attributeError: Json -> string)
    requires ChatWidgets.FirstNonObject(ChatWidgets.FinalWidgets(data)).Some?
    ensures var k := ChatWidgets.FirstNonObject(ChatWidgets.FinalWidgets(data)).value;
      var m := ChatInterface.AssistantMessage(ChatInterface.Ok(ChatWidgets.ChatReply(data, pyStr, attributeError)));
      && m.content == Some(Str("Analysis failed: " + attributeError(ChatWidgets.FinalWidgets(data)[k])))
      && m.widgets == Some(Arr([]))
  {
    ChatWidgets.FailureAndText(data, pyStr, attributeError);
  }
}
