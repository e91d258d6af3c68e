/** The messages exchanged by HTTP clients, the relay and the extension, with the guards on each side. */
module Messages {
  import opened Prelude
  import opened Json

  /** One WebSocket connection between relay and extension, named on both sides. */
  type SocketId = nat

  // ---- commands ----

  /** `ExtensionCommandMessage`: params stays JSON, as the relay forwards it. */
  datatype Command = Command(id: nat, kind: string, params: Json)

  function CommandJson(c: Command): Json {
    Object([Member("method", Some(JString(c.kind))), Member("params", Some(c.params)), Member("id", Some(JNumber(c.id)))])
  }

  predicate IsMethod(v: Option<Json>) { v == Some(JString("cdp")) || v == Some(JString("tab")) }

  predicate HasType(v: Json, t: string) { Prop(v, "type") == Some(JString(t)) }

  predicate IsNumber(v: Option<Json>) { v.Some? && (v.value.JNumber? || v.value.JDecimal?) }

  predicate IsText(v: Option<Json>) { v.Some? && v.value.JString? }

  /** `params` is a record with a string `method`. */
  predicate HasParams(v: Json) {
    var params := Prop(v, "params");
    params.Some? && IsRecord(params.value) && IsText(Prop(params.value, "method"))
  }

  /** The optional members of `params` have their declared types. */
  predicate WellTyped(params: Json) {
    && (Prop(params, "params").Some? ==> IsRecord(Prop(params, "params").value))
    && (Prop(params, "targetId").Some? ==> Prop(params, "targetId").value.JString?)
  }

  /** `isExtensionCommandMessage`, the same on both sides of the socket. */
  predicate IsCommandMessage(v: Json) {
    && IsRecord(v)
    && IsNumber(Prop(v, "id"))
    && IsMethod(Prop(v, "method"))
    && HasParams(v)
    && WellTyped(Prop(v, "params").value)
  }

  predicate IsClientEnvelope(v: Json) {
    if !IsRecord(v) then false
    else if HasType(v, "ping") then true
    else
      && HasType(v, "command")
      && (Prop(v, "id").Some? ==> IsNumber(Prop(v, "id")))
      && IsMethod(Prop(v, "method"))
      && HasParams(v)
  }

  datatype Parsed = Accept(kind: string, params: Json) | Reject(code: string)

  /** `parseHttpCommandBody`, apart from the id it draws for an accepted body. */
  function ParseHttpCommandBody(body: Json): Parsed {
    if !IsRecord(body) then Reject("INVALID_COMMAND_BODY")
    else if IsCommandMessage(body) then Accept(Prop(body, "method").value.s, Prop(body, "params").value)
    else if IsClientEnvelope(body) then
      if !HasType(body, "command") then Reject("INVALID_COMMAND_BODY")
      else Accept(Prop(body, "method").value.s, Prop(body, "params").value)
    else
      var kind, params := Prop(body, "method"), Prop(body, "params");
      if !IsMethod(kind) then Reject("INVALID_COMMAND_METHOD")
      else if params.None? || !IsRecord(params.value) then Reject("INVALID_COMMAND_PARAMS")
      else if !IsText(Prop(params.value, "method")) then Reject("INVALID_COMMAND_PARAMS")
      else
        var inner, target := Prop(params.value, "params"), Prop(params.value, "targetId");
        if inner.Some? && !IsRecord(inner.value) then Reject("INVALID_COMMAND_PARAMS")
        else if target.Some? && !target.value.JString? then Reject("INVALID_COMMAND_TARGET_ID")
        else
          Accept(kind.value.s,
                 Object([Member("method", Prop(params.value, "method")), Member("params", inner),
                         Member("targetId", target)]))
  }

  /** The envelope path: a `type: "command"` body whose id is absent or a number. */
  predicate IsCommandEnvelope(body: Json) {
    HasType(body, "command") && (Prop(body, "id").Some? ==> IsNumber(Prop(body, "id")))
  }

  /** Which bodies the relay accepts: a method and params with a method text; with well-typed optional
      params, unless it is a ping without a numeric id, or else as a command envelope. */
  lemma AcceptedBodies(body: Json)
    ensures ParseHttpCommandBody(body).Accept? <==>
            && Prop(body, "method") in [Some(JString("cdp")), Some(JString("tab"))]
            && Prop(body, "params").Some?
            && var params := Prop(body, "params").value;
               var inner, target, verb := Prop(params, "params"), Prop(params, "targetId"), Prop(params, "method");
               && verb.Some? && verb.value.JString?
               && var id, kind := Prop(body, "id"), Prop(body, "type");
                  var numbered := id.Some? && (id.value.JNumber? || id.value.JDecimal?);
                  if (inner.None? || inner.value.JObject? || inner.value.JArray?) && (target.None? || target.value.JString?)
                  then kind != Some(JString("ping")) || numbered
                  else kind == Some(JString("command")) && (id.None? || numbered)
  {
  }

  /** With which code any other body is refused. */
  lemma RefusedBodies(body: Json)
    requires !ParseHttpCommandBody(body).Accept?
    ensures var params := if Prop(body, "params").Some? then Prop(body, "params").value else JNull;
            var inner, verb := Prop(params, "params"), Prop(params, "method");
            ParseHttpCommandBody(body).code ==
            if !(body.JObject? || body.JArray?) || Prop(body, "type") == Some(JString("ping")) then "INVALID_COMMAND_BODY"
            else if Prop(body, "method") !in [Some(JString("cdp")), Some(JString("tab"))] then "INVALID_COMMAND_METHOD"
            else if verb.None? || !verb.value.JString? then "INVALID_COMMAND_PARAMS"
            else if inner.Some? && !(inner.value.JObject? || inner.value.JArray?) then "INVALID_COMMAND_PARAMS"
            else "INVALID_COMMAND_TARGET_ID"
  {
  }

  /** An accepted command asks for what its body asked for. */
  lemma AcceptedMeaning(body: Json)
    requires ParseHttpCommandBody(body).Accept?
    ensures var cmd := ParseHttpCommandBody(body);
            && Prop(body, "method") == Some(JString(cmd.kind))
            && Prop(body, "params").Some?
            && forall key :: key in ["method", "params", "targetId"] ==>
                 Prop(cmd.params, key) == Prop(Prop(body, "params").value, key)
  {
    AcceptedBodies(body);
    var params := Prop(body, "params").value;
    var members := [Member("method", Prop(params, "method")), Member("params", Prop(params, "params")),
                    Member("targetId", Prop(params, "targetId"))];
    ObjectProp(members, 0);
    ObjectProp(members, 1);
    ObjectProp(members, 2);
  }

  lemma CommandProps(c: Command)
    ensures Prop(CommandJson(c), "method") == Some(JString(c.kind))
    ensures Prop(CommandJson(c), "params") == Some(c.params)
    ensures Prop(CommandJson(c), "id") == Some(JNumber(c.id))
  {
    var members :=
      [Member("method", Some(JString(c.kind))), Member("params", Some(c.params)), Member("id", Some(JNumber(c.id)))];
    ObjectProp(members, 0);
    ObjectProp(members, 1);
    ObjectProp(members, 2);
  }

  /** The extension takes an accepted command exactly when its optional params are well typed, so
      the only commands lost at the extension are the ill-typed command envelopes. */
  lemma GuardAgreement(body: Json, id: nat)
    requires ParseHttpCommandBody(body).Accept?
    ensures var cmd := ParseHttpCommandBody(body);
            IsCommandMessage(CommandJson(Command(id, cmd.kind, cmd.params))) <==>
            !(IsCommandEnvelope(body) && !WellTyped(Prop(body, "params").value))
  {
    AcceptedBodies(body);
    AcceptedMeaning(body);
    var cmd := ParseHttpCommandBody(body);
    CommandProps(Command(id, cmd.kind, cmd.params));
    assert forall key :: key in ["method", "params", "targetId"] ==>
             Prop(cmd.params, key) == Prop(Prop(body, "params").value, key);
    assert "method" in ["method", "params", "targetId"] && "params" in ["method", "params", "targetId"];
    assert "targetId" in ["method", "params", "targetId"];
  }

  /** Such an envelope: accepted by the relay, refused by the extension. */
  lemma IllTypedEnvelope(id: nat) returns (body: Json)
    ensures body == Object([Member("type", Some(JString("command"))), Member("method", Some(JString("cdp"))),
                            Member("params", Some(Object([Member("method", Some(JString("m"))),
                                                          Member("params", Some(JNumber(5)))])))])
    ensures var cmd := ParseHttpCommandBody(body);
            cmd.Accept? && !IsCommandMessage(CommandJson(Command(id, cmd.kind, cmd.params)))
  {
    var inner := [Member("method", Some(JString("m"))), Member("params", Some(JNumber(5)))];
    var members := [Member("type", Some(JString("command"))), Member("method", Some(JString("cdp"))),
                    Member("params", Some(Object(inner)))];
    body := Object(members);
    ObjectProp(members, 0);
    ObjectProp(members, 1);
    ObjectProp(members, 2);
    AbsentKey(members, "id");
    ObjectProp(inner, 0);
    ObjectProp(inner, 1);
    AcceptedBodies(body);
    GuardAgreement(body, id);
  }

  // ---- replies ----

  datatype ErrorInfo = ErrorInfo(code: string, message: string, details: Option<Json>, cause: Option<string>)

  datatype Response = Response(id: int, result: Option<Json>, error: Option<string>, errorInfo: Option<ErrorInfo>)

  predicate IsErrorInfo(v: Json) {
    && IsRecord(v)
    && IsText(Prop(v, "code"))
    && IsText(Prop(v, "message"))
    && (Prop(v, "details").Some? ==> IsRecord(Prop(v, "details").value))
    && (Prop(v, "cause").Some? ==> Prop(v, "cause").value.JString?)
  }

  function TextOf(v: Option<Json>): Option<string> {
    if IsText(v) then Some(v.value.s) else None
  }

  function DecodeErrorInfo(v: Json): ErrorInfo
    requires IsErrorInfo(v)
  {
    ErrorInfo(Prop(v, "code").value.s, Prop(v, "message").value.s, Prop(v, "details"), TextOf(Prop(v, "cause")))
  }

  predicate IsResponse(v: Json) {
    && IsRecord(v)
    && IsNumber(Prop(v, "id"))
    && (Prop(v, "error").Some? ==> Prop(v, "error").value.JString?)
    && (Prop(v, "errorInfo").Some? ==> IsErrorInfo(Prop(v, "errorInfo").value))
  }

  /** An id that is no integer belongs to no command, like -1. */
  function IdOf(v: Json): int { if v.JNumber? then v.n else -1 }

  function DecodeResponse(v: Json): Response
    requires IsResponse(v)
  {
    Response(IdOf(Prop(v, "id").value), Prop(v, "result"), TextOf(Prop(v, "error")),
             if Prop(v, "errorInfo").Some? then Some(DecodeErrorInfo(Prop(v, "errorInfo").value)) else None)
  }

  function TextJson(v: Option<string>): Option<Json> {
    if v.Some? then Some(JString(v.value)) else None
  }

  function ErrorInfoMembers(e: ErrorInfo): seq<Member> {
    [Member("code", Some(JString(e.code))), Member("message", Some(JString(e.message))),
     Member("details", e.details), Member("cause", TextJson(e.cause))]
  }

  function ErrorInfoJson(e: ErrorInfo): Json { Object(ErrorInfoMembers(e)) }

  function ResponseMembers(r: Response): seq<Member> {
    [Member("id", Some(JNumber(r.id))), Member("result", r.result), Member("error", TextJson(r.error)),
     Member("errorInfo", if r.errorInfo.Some? then Some(ErrorInfoJson(r.errorInfo.value)) else None)]
  }

  function ResponseJson(r: Response): Json { Object(ResponseMembers(r)) }

  /** `details` is an object when present, as `ExtensionErrorInfo` declares. */
  predicate ValidInfo(e: ErrorInfo) { e.details.Some? ==> IsRecord(e.details.value) }

  lemma ErrorInfoRoundTrip(e: ErrorInfo)
    requires ValidInfo(e)
    ensures IsErrorInfo(ErrorInfoJson(e)) && DecodeErrorInfo(ErrorInfoJson(e)) == e
  {
    ObjectProp(ErrorInfoMembers(e), 0);
    ObjectProp(ErrorInfoMembers(e), 1);
    ObjectProp(ErrorInfoMembers(e), 2);
    ObjectProp(ErrorInfoMembers(e), 3);
  }

  /** The relay's guard takes every reply the extension encodes, and reads back the same reply. */
  lemma ResponseRoundTrip(r: Response)
    requires r.errorInfo.Some? ==> ValidInfo(r.errorInfo.value)
    ensures IsResponse(ResponseJson(r)) && DecodeResponse(ResponseJson(r)) == r
  {
    if r.errorInfo.Some? {
      ErrorInfoRoundTrip(r.errorInfo.value);
    }
    ObjectProp(ResponseMembers(r), 0);
    ObjectProp(ResponseMembers(r), 1);
    ObjectProp(ResponseMembers(r), 2);
    ObjectProp(ResponseMembers(r), 3);
  }

  /** Whatever the relay's guard takes for a reply, nothing of its four members is lost or made up by decoding. */
  lemma DecodedReplyIsComplete(v: Json)
    requires IsResponse(v) && Prop(v, "id").value.JNumber?
    ensures var again := ResponseJson(DecodeResponse(v));
            && Prop(again, "id") == Prop(v, "id")
            && Prop(again, "result") == Prop(v, "result")
            && Prop(again, "error") == Prop(v, "error")
            && (Prop(again, "errorInfo").Some? <==> Prop(v, "errorInfo").Some?)
            && (Prop(v, "errorInfo").Some? ==>
                  forall key :: key in ["code", "message", "details", "cause"] ==>
                    Prop(Prop(again, "errorInfo").value, key) == Prop(Prop(v, "errorInfo").value, key))
  {
    var r := DecodeResponse(v);
    ObjectProp(ResponseMembers(r), 0);
    ObjectProp(ResponseMembers(r), 1);
    ObjectProp(ResponseMembers(r), 2);
    ObjectProp(ResponseMembers(r), 3);
    if r.errorInfo.Some? {
      DecodedInfoIsComplete(Prop(v, "errorInfo").value);
    }
  }

  lemma DecodedInfoIsComplete(v: Json)
    requires IsErrorInfo(v)
    ensures forall key :: key in ["code", "message", "details", "cause"] ==>
              Prop(ErrorInfoJson(DecodeErrorInfo(v)), key) == Prop(v, key)
  {
    var e := DecodeErrorInfo(v);
    ObjectProp(ErrorInfoMembers(e), 0);
    ObjectProp(ErrorInfoMembers(e), 1);
    ObjectProp(ErrorInfoMembers(e), 2);
    ObjectProp(ErrorInfoMembers(e), 3);
  }

  // ---- what the extension answers ----

  /** A failure raised while a command runs: structured, a native `Error`, or anything else as text. */
  datatype Thrown = Structured(info: ErrorInfo) | Native(message: string) | Other(text: string)

  datatype Outcome = Returned(result: Option<Json>) | Failed(error: Thrown)

  function MessageOf(error: Thrown): string {
    match error
    case Structured(info) => info.message
    case Native(message) => message
    case Other(text) => text
  }

  function NonEmpty(s: Option<string>): Option<string> { if s == Some("") then None else s }

  /** `toExtensionErrorInfo` without a fallback. */
  function ToErrorInfo(error: Thrown): ErrorInfo {
    match error
    case Structured(info) => info.(cause := NonEmpty(info.cause))
    case _ => ErrorInfo("UNEXPECTED_ERROR", MessageOf(error), None, NonEmpty(Some(MessageOf(error))))
  }

  /** The reply of `handleMessage` for a command that ran to the given outcome. */
  function ReplyFor(id: int, outcome: Outcome): Response {
    match outcome
    case Returned(result) => Response(id, result, None, None)
    case Failed(error) => Response(id, None, Some(ToErrorInfo(error).message), Some(ToErrorInfo(error)))
  }

  /** The reply tells how the command ended: its result and nothing else, or no result and the failure's
      own text, with its code and details if it has them. */
  predicate Reports(r: Response, id: int, outcome: Outcome) {
    && r.id == id
    && match outcome
       case Returned(result) => r.result == result && r.error == None && r.errorInfo == None
       case Failed(Structured(info)) =>
         && r.result == None && r.error == Some(info.message) && r.errorInfo.Some?
         && r.errorInfo.value.code == info.code && r.errorInfo.value.message == info.message
         && r.errorInfo.value.details == info.details
         && r.errorInfo.value.cause == (if info.cause == Some("") then None else info.cause)
       case Failed(Native(text)) => ReportsText(r, text)
       case Failed(Other(text)) => ReportsText(r, text)
  }

  /** A failure that is no structured one is told by its text, which is its cause too unless empty. */
  predicate ReportsText(r: Response, text: string) {
    && r.result == None && r.error == Some(text) && r.errorInfo.Some?
    && r.errorInfo.value == ErrorInfo("UNEXPECTED_ERROR", text, None, if text == "" then None else Some(text))
  }

  lemma ReplyReports(id: int, outcome: Outcome)
    ensures Reports(ReplyFor(id, outcome), id, outcome)
  {
  }

  predicate ValidOutcome(outcome: Outcome) {
    outcome.Failed? && outcome.error.Structured? ==> ValidInfo(outcome.error.info)
  }

  /** `makeErrorResponse`, the relay's own replies. */
  function ErrorResponse(id: int, info: ErrorInfo): Response { Response(id, None, Some(info.message), Some(info)) }

  // ---- what reaches the relay on a socket ----

  datatype Inbound = Reply(response: Response) | EventOrLog | Unknown

  predicate IsEvent(v: Json) {
    && Prop(v, "method") == Some(JString("forwardCDPEvent"))
    && HasParams(v)
    && WellTyped(Prop(v, "params").value)
  }

  predicate IsLog(v: Json) {
    && Prop(v, "method") == Some(JString("log"))
    && Prop(v, "params").Some?
    && IsRecord(Prop(v, "params").value)
    && IsText(Prop(Prop(v, "params").value, "level"))
    && var args := Prop(Prop(v, "params").value, "args");
       args.Some? && args.value.JArray? && forall a :: a in args.value.items ==> a.JString?
  }

  function Classify(v: Json): Inbound {
    if IsResponse(v) then Reply(DecodeResponse(v))
    else if IsEvent(v) || IsLog(v) then EventOrLog
    else Unknown
  }

  /** A log message with a level and texts. */
  function LogMembers(level: string, args: seq<Json>): seq<Member> {
    [Member("method", Some(JString("log"))), Member("params", Some(Object(LogParams(level, args))))]
  }

  function LogParams(level: string, args: seq<Json>): seq<Member> {
    [Member("level", Some(JString(level))), Member("args", Some(JArray(args)))]
  }

  /** A log is passed on exactly if all its arguments are texts. */
  lemma LogsAreTexts(level: string, args: seq<Json>)
    ensures Classify(Object(LogMembers(level, args))) == if forall a :: a in args ==> a.JString? then EventOrLog else Unknown
  {
    ObjectProp(LogMembers(level, args), 0);
    ObjectProp(LogMembers(level, args), 1);
    AbsentKey(LogMembers(level, args), "id");
    ObjectProp(LogParams(level, args), 0);
    ObjectProp(LogParams(level, args), 1);
  }

  // ---- the HTTP answer to a command ----

  function ResponseErrorInfo(r: Response): Option<ErrorInfo> {
    if r.errorInfo.Some? then r.errorInfo
    else if r.error.Some? then Some(ErrorInfo("UNSTRUCTURED_EXTENSION_ERROR", r.error.value, None, None))
    else None
  }

  function StatusOf(r: Response): nat {
    match ResponseErrorInfo(r)
    case None => 200
    case Some(info) =>
      if info.code in {"INVALID_JSON", "INVALID_COMMAND_BODY", "INVALID_COMMAND_METHOD", "INVALID_COMMAND_PARAMS",
                       "INVALID_COMMAND_TARGET_ID", "MISSING_TARGET_ID", "INVALID_PORT", "INVALID_CREATE_TAB_URL",
                       "UNKNOWN_TAB_METHOD"} then 400
      else if info.code == "NO_ACTIVE_TAB" then 404
      else if info.code == "PORT_CHANGE_WHILE_ACTIVE" then 409
      else if info.code in {"EXTENSION_NOT_CONNECTED", "RELAY_NOT_CONNECTED"} then 503
      else if info.code in {"COMMAND_TIMEOUT", "RELAY_CONNECT_TIMEOUT"} then 504
      else 502
  }

  /** The `ok` member of the HTTP body: the error text is absent or empty. */
  predicate BodyOk(r: Response) { r.error.None? || r.error.value == "" }

  /** The status of a reply without an error, and of every error code with a status of its own; an error that is
      only a text, and any other code, is a bad gateway. */
  lemma StatusOfCodes(r: Response)
    ensures r.error == None && r.errorInfo == None ==> StatusOf(r) == 200
    ensures r.errorInfo == None && r.error.Some? ==> StatusOf(r) == 502
    ensures r.errorInfo.Some? ==>
              var code := r.errorInfo.value.code;
              StatusOf(r) ==
              if code == "NO_ACTIVE_TAB" then 404
              else if code == "PORT_CHANGE_WHILE_ACTIVE" then 409
              else if code in ["EXTENSION_NOT_CONNECTED", "RELAY_NOT_CONNECTED"] then 503
              else if code in ["COMMAND_TIMEOUT", "RELAY_CONNECT_TIMEOUT"] then 504
              else if code in ["INVALID_JSON", "INVALID_COMMAND_BODY", "INVALID_COMMAND_METHOD", "INVALID_COMMAND_PARAMS",
                               "INVALID_COMMAND_TARGET_ID", "MISSING_TARGET_ID", "INVALID_PORT", "INVALID_CREATE_TAB_URL",
                               "UNKNOWN_TAB_METHOD"] then 400
              else 502
  {
  }

  /** The body's `ok` and the HTTP status tell the same story, except for an error whose text is empty. */
  lemma OkMatchesStatus(r: Response)
    ensures (BodyOk(r) <==> StatusOf(r) == 200) <==> !(BodyOk(r) && (r.error.Some? || r.errorInfo.Some?))
  {
  }

  /** For replies of the extension: they disagree exactly when a command failed with an empty message. */
  lemma ReplyOkMatchesStatus(id: int, outcome: Outcome)
    ensures var r := ReplyFor(id, outcome);
            (BodyOk(r) <==> StatusOf(r) == 200) <==> !(outcome.Failed? && MessageOf(outcome.error) == "")
  {
  }

  /** Such a failure: an error without a message is answered 502, with an `ok` body. */
  lemma SilentFailure(id: int) returns (outcome: Outcome)
    ensures outcome == Failed(Native("")) && ValidOutcome(outcome)
    ensures BodyOk(ReplyFor(id, outcome)) && StatusOf(ReplyFor(id, outcome)) == 502
  {
    outcome := Failed(Native(""));
  }
}
