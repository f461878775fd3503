/** The reply view: an agent's free-text reply to a number, sent through the
    provider and logged. The provider call is an oracle. */
module Reply {
  import opened Wrappers
  import opened PyStrings
  import opened Http
  import opened MessageLog

  /** One element of the `messages` list of the provider's answer. */
  datatype SentMessage = SentMessage(id: Option<string>)

  /** The provider's decoded answer: a JSON object (with its `messages`
      list, possibly absent) or some other JSON value. */
  datatype ApiResponse = NotAnObject | ApiObject(messages: Option<seq<SentMessage>>)

  /** The outcome of the send: the decoded answer, an HTTP error status, or
      any other failure (missing credentials, network, bad JSON). */
  datatype SendResult = Delivered(response: ApiResponse) | HttpError | OtherError

  /** The decoded request body: its `mobile` and `text` keys. */
  datatype ReplyBody = ReplyBody(mobile: Option<string>, text: Option<string>)

  /** A request to the view; `body` is `None` when it does not decode to a
      JSON object. */
  datatype ReplyRequest = ReplyRequest(verb: Method, body: Option<ReplyBody>)

  datatype ReplyResponse =
    | ReplyOk(apiResponse: ApiResponse)   // 200, {"status": "ok", "api_response": ...}
    | PostRequired                        // 400
    | MobileAndTextRequired               // 400
    | HttpFailure                         // 500, {"error": "HTTP error", ...}
    | OtherFailure                        // 500, {"error": ...}

  function ReplyStatus(r: ReplyResponse): int {
    match r
    case ReplyOk(_) => 200
    case PostRequired => 400
    case MobileAndTextRequired => 400
    case _ => 500
  }

  /** The response, the (number, text) handed to the provider if a send was
      attempted, and the row logged if any. */
  datatype ReplyResult = ReplyResult(
    response: ReplyResponse,
    sentTo: Option<(string, string)>,
    logged: Option<LogRecord>)

  /** Whether the answer carries a non-empty `messages` list. */
  predicate HasSentMessages(resp: ApiResponse) {
    resp.ApiObject? && resp.messages.Some? && |resp.messages.value| > 0
  }

  /** The provider message id: the `id` of the first element of a non-empty
      `messages` list, otherwise the empty string. */
  function SentMessageId(resp: ApiResponse): (id: string)
    ensures HasSentMessages(resp) ==> id == resp.messages.value[0].id.GetOr("")
    ensures !HasSentMessages(resp) ==> id == ""
    ensures id != "" ==> HasSentMessages(resp) && resp.messages.value[0].id == Some(id)
  {
    if HasSentMessages(resp) then resp.messages.value[0].id.GetOr("") else ""
  }

  /** The row written for a reply that the provider accepted. */
  function ReplyRecord(mobile: string, text: string, msgId: string): (row: LogRecord)
    ensures row.status == "Delivered" <==> msgId != ""
    ensures row.status == "Sent" <==> msgId == ""
    ensures row.mobile == mobile && row.text == text && row.messageId == msgId
  {
    LogRecord(
      customerName := Some(""),
      mobile := mobile,
      templateName := "manual",
      text := text,
      status := if msgId != "" then "Delivered" else "Sent",
      messageId := msgId,
      messageType := "Sent",
      contentType := None,
      media := None)
  }

  function SendReply(req: ReplyRequest, formatMobile: string -> string, send: (string, string) -> SendResult)
    : (r: ReplyResult)
    ensures req.verb != POST ==> r == ReplyResult(PostRequired, None, None)
    ensures req.verb == POST && req.body.None? ==> r == ReplyResult(OtherFailure, None, None)
    ensures req.verb == POST && req.body.Some? ==>
              var mobile := req.body.value.mobile.GetOr("");
              var text := req.body.value.text.GetOr("");
              && ((IsBlank(mobile) || IsBlank(text)) <==> r.response == MobileAndTextRequired)
              && ((IsBlank(mobile) || IsBlank(text)) ==> r.sentTo.None? && r.logged.None?)
              && (r.sentTo.Some? <==> !IsBlank(mobile) && !IsBlank(text))
              && (r.sentTo.Some? ==> r.sentTo.value == (formatMobile(Strip(mobile)), Strip(text)))
    ensures (req.verb == POST && req.body.Some?
             && (IsBlank(req.body.value.mobile.GetOr("")) || IsBlank(req.body.value.text.GetOr(""))))
            ==> ReplyStatus(r.response) == 400
    ensures r.sentTo.Some? ==>
              match send(r.sentTo.value.0, r.sentTo.value.1)
              case Delivered(resp) =>
                && r.response == ReplyOk(resp)
                && r.logged == Some(ReplyRecord(r.sentTo.value.0, r.sentTo.value.1, SentMessageId(resp)))
              case HttpError => r.response == HttpFailure && r.logged.None? && ReplyStatus(r.response) == 500
              case OtherError => r.response == OtherFailure && r.logged.None? && ReplyStatus(r.response) == 500
    ensures r.logged.Some? <==> r.response.ReplyOk?
    ensures r.logged.Some? ==>
              && r.sentTo.Some?
              && send(r.sentTo.value.0, r.sentTo.value.1) == Delivered(r.response.apiResponse)
              && r.logged.value.mobile == r.sentTo.value.0
              && r.logged.value.text == r.sentTo.value.1
              && r.logged.value.messageId == SentMessageId(r.response.apiResponse)
              && (r.logged.value.status == "Delivered" <==> r.logged.value.messageId != "")
  {
    if req.verb != POST then ReplyResult(PostRequired, None, None)
    else if req.body.None? then ReplyResult(OtherFailure, None, None)
    else
      var mobile := Strip(req.body.value.mobile.GetOr(""));
      var text := Strip(req.body.value.text.GetOr(""));
      if mobile == "" || text == "" then ReplyResult(MobileAndTextRequired, None, None)
      else
        var to := formatMobile(mobile);
        match send(to, text)
        case HttpError => ReplyResult(HttpFailure, Some((to, text)), None)
        case OtherError => ReplyResult(OtherFailure, Some((to, text)), None)
        case Delivered(resp) =>
          ReplyResult(ReplyOk(resp), Some((to, text)), Some(ReplyRecord(to, text, SentMessageId(resp))))
  }

  /** A mobile made only of whitespace is rejected before anything is sent. */
  lemma WhitespaceMobileRejected(req: ReplyRequest, formatMobile: string -> string,
                                 send: (string, string) -> SendResult)
    requires req.verb == POST && req.body.Some?
    requires AllSpace(req.body.value.mobile.GetOr(""))
    ensures var r := SendReply(req, formatMobile, send);
            r.response == MobileAndTextRequired && r.sentTo.None? && r.logged.None?
  {
    var m := req.body.value.mobile.GetOr("");
    BlankIffAllSpace(m);
  }
}
