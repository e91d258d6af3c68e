/** What the recorder reads out of an event message of the extension. */
module EventReading {
  import opened Prelude
  import opened Json
  import Bridge
  import opened RecorderState

  /** An event the extension sends is taken for that event, of that target; one without a name is ignored. */
  lemma EventIsRead(targetId: string, name: string, params: Option<Json>)
    ensures var message := Bridge.EventJson(targetId, name, params);
            if name == "" then Decode(message) == OtherMsg
            else Decode(message) == EventMsg(CdpEvent(name, Some(targetId), DecodeParams(params), message))
  {
    var inner := [Member("targetId", Some(JString(targetId))), Member("method", Some(JString(name))), Member("params", params)];
    var members := [Member("method", Some(JString("forwardCDPEvent"))), Member("params", Some(Object(inner)))];
    ObjectProp(members, 0);
    ObjectProp(members, 1);
    ObjectProp(inner, 0);
    ObjectProp(inner, 1);
    ObjectProp(inner, 2);
  }

  /** The text at a member that is a string, and of one that is missing, null or a number. */
  predicate TextRead(v: Option<Json>, text: string) {
    match v
    case None => text == ""
    case Some(JNull) => text == ""
    case Some(JString(s)) => text == s
    case Some(JNumber(n)) => text == Print(JNumber(n), 0, 0)
    case _ => true
  }

  function Member2(v: Json, outer: string, key: string): Option<Json> {
    if Prop(v, outer).Some? then Prop(Prop(v, outer).value, key) else None
  }

  predicate IsObject(v: Option<Json>) { v.Some? && (v.value.JObject? || v.value.JArray?) }

  /** Each part of the params is read from its own member. */
  lemma ParamsAreRead(v: Json)
    ensures var p := DecodeParams(Some(v));
            && p.all == v
            && TextRead(Prop(v, "requestId"), p.requestId)
            && p.headers == (if IsObject(Prop(v, "headers")) then Prop(v, "headers") else None)
            && TextRead(Member2(v, "request", "url"), p.requestUrl)
            && TextRead(Member2(v, "request", "method"), p.requestMethod)
            && (Member2(v, "request", "hasPostData") in [None, Some(JNull), Some(JBool(false))] ==> !p.hasPostData)
            && (Member2(v, "request", "hasPostData") == Some(JBool(true)) ==> p.hasPostData)
            && TextRead(Member2(v, "response", "url"), p.responseUrl)
    ensures var p, status, errorText := DecodeParams(Some(v)), Member2(v, "response", "status"), Prop(v, "errorText");
            && p.status == (if status.Some? && (status.value.JNumber? || status.value.JDecimal?) then status else None)
            && p.errorText == (if errorText == Some(JNull) then None else errorText)
            && (Prop(v, "canceled") in [None, Some(JNull), Some(JBool(false))] ==> !p.canceled)
            && (Prop(v, "canceled") == Some(JBool(true)) ==> p.canceled)
            && p.url == (if Prop(v, "url").Some? && Prop(v, "url").value.JString? then Some(Prop(v, "url").value.s) else None)
  {
  }
}
