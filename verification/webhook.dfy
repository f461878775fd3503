/** The webhook view: the GET verification handshake and the POST loop that
    turns every inbound message into one log row. */
module Webhook {
  import opened Wrappers
  import opened PyStrings
  import opened Http
  import opened Media
  import opened MessageLog
  import opened Payload

  /** What the view needs from its surroundings: the configured verify
      token, the phone-number normaliser (`format_mobile`, whose body is not
      part of this model, so it is left uninterpreted) and the media API. */
  datatype Env = Env(verifyToken: string, formatMobile: string -> string, media: MediaApi)

  /** The exceptions that end a POST: an undecodable body, or a `KeyError`
      on a sub-object the view indexes with `[...]`. */
  datatype WebhookError = UndecodableBody | MissingText | MissingButton | MissingListReply

  datatype WebhookReply =
    | ChallengeEcho(challenge: Option<string>)   // 200, {"hub.challenge": challenge}
    | InvalidVerification                        // 400
    | Acknowledged                               // 200, {"status": "received"}
    | WebhookFailed(error: WebhookError)         // 400, {"error": ...}
    | UnsupportedMethod                          // 400

  function StatusCode(r: WebhookReply): int {
    match r
    case ChallengeEcho(_) => 200
    case Acknowledged => 200
    case _ => 400
  }

  // ---------------------------------------------------------------------
  // GET: verification handshake
  // ---------------------------------------------------------------------

  /** The challenge is echoed exactly when `hub.mode` is `subscribe` and
      `hub.verify_token` equals the configured token. */
  function Handshake(query: Query, verifyToken: string): (r: WebhookReply)
    ensures r.ChallengeEcho? || r == InvalidVerification
    ensures r.ChallengeEcho? <==>
              QueryGet(query, "hub.mode") == Some("subscribe")
              && QueryGet(query, "hub.verify_token") == Some(verifyToken)
    ensures r.ChallengeEcho? ==> r.challenge == QueryGet(query, "hub.challenge")
  {
    var mode := QueryGet(query, "hub.mode");
    var token := QueryGet(query, "hub.verify_token");
    var challenge := QueryGet(query, "hub.challenge");
    if mode == Some("subscribe") && token == Some(verifyToken) then ChallengeEcho(challenge)
    else InvalidVerification
  }

  /** A request without a `hub.verify_token` is rejected, even when the
      configured token is empty. */
  lemma HandshakeNeedsToken(query: Query, verifyToken: string)
    requires forall i :: 0 <= i < |query| ==> query[i].0 != "hub.verify_token"
    ensures Handshake(query, verifyToken) == InvalidVerification
  {
  }

  // ---------------------------------------------------------------------
  // POST: one message
  // ---------------------------------------------------------------------

  /** Whether and for which id a message's media is downloaded. */
  datatype MediaRequest = NoMedia | Fetch(mediaId: Option<string>)

  /** The type-dependent part of a log row. */
  datatype Draft = Draft(contentType: string, text: string, media: MediaRequest)

  const NoMediaObject := MediaObject(None, None)
  const NoInteractive := InteractiveObject(None, None, None)

  /** The type dispatch of the view: content type, text (or placeholder
      text) and media id of one message, or the `KeyError` it raises. */
  function Classify(m: Message): (r: Result<Draft, WebhookError>)
    ensures r.Err? <==>
              || (KindOf(m.msgType) == TextKind && m.text.None?)
              || (KindOf(m.msgType) == InteractiveKind && InteractiveMissesReply(m.interactive.GetOr(NoInteractive)))
    ensures r.Ok? ==> r.value.contentType == ContentTypeOf(KindOf(m.msgType))
    ensures r.Ok? ==>
              (r.value.media.Fetch? <==> KindOf(m.msgType) in {ImageKind, DocumentKind, VideoKind, AudioKind})
  {
    match KindOf(m.msgType)
    case TextKind =>
      if m.text.None? then Err(MissingText)
      else Ok(Draft("text", m.text.value.body.GetOr(""), NoMedia))
    case InteractiveKind =>
      var it := m.interactive.GetOr(NoInteractive);
      if it.kind == Some("button") then
        if it.button.None? then Err(MissingButton)
        else Ok(Draft("interactive", it.button.value.text.GetOr(""), NoMedia))
      else if it.kind == Some("list_reply") then
        if it.listReply.None? then Err(MissingListReply)
        else Ok(Draft("interactive", it.listReply.value.title.GetOr(""), NoMedia))
      else
        Ok(Draft("interactive", "", NoMedia))
    case ImageKind =>
      var info := m.image.GetOr(NoMediaObject);
      Ok(Draft("image", "[Image received: " + PyStr(info.id) + "]", Fetch(info.id)))
    case DocumentKind =>
      var info := m.document.GetOr(NoMediaObject);
      Ok(Draft("document", info.filename.GetOr("[Document]"), Fetch(info.id)))
    case VideoKind =>
      var info := m.video.GetOr(NoMediaObject);
      Ok(Draft("video", "[Video]", Fetch(info.id)))
    case AudioKind =>
      var info := m.audio.GetOr(NoMediaObject);
      Ok(Draft("audio", "[Audio]", Fetch(info.id)))
    case UnknownKind =>
      Ok(Draft("unknown", "", NoMedia))
  }

  /** An interactive reply whose `type` names a sub-object that is absent. */
  predicate InteractiveMissesReply(it: InteractiveObject) {
    || (it.kind == Some("button") && it.button.None?)
    || (it.kind == Some("list_reply") && it.listReply.None?)
  }

  /** The customer name logged for the messages of one `value`: the first
      contact's profile name; `None` (Python's `None`) when that contact
      has no profile or no name; the empty string when there are no
      contacts. */
  function CustomerName(contacts: seq<Contact>): (name: Option<string>)
    ensures |contacts| == 0 ==> name == Some("")
    ensures |contacts| > 0 ==>
              (name.Some? <==> contacts[0].profile.Some? && contacts[0].profile.value.name.Some?)
    ensures |contacts| > 0 && name.Some? ==> name == contacts[0].profile.value.name
  {
    if |contacts| == 0 then Some("")
    else contacts[0].profile.GetOr(Profile(None)).name
  }

  /** The log row for one message, with the media downloaded before the row
      is written, or the error that aborts the batch. */
  function NormalizeMessage(m: Message, contacts: seq<Contact>, env: Env): (r: Result<LogRecord, WebhookError>)
    ensures r.Err? <==> Classify(m).Err?
    ensures r.Err? ==> r.error == Classify(m).error
    ensures r.Ok? ==>
              && r.value.status == "Received"
              && r.value.messageType == "Received"
              && r.value.templateName == "incoming"
              && r.value.mobile == env.formatMobile(m.fromNumber.GetOr(""))
              && r.value.messageId == m.id.GetOr("")
              && r.value.customerName == CustomerName(contacts)
              && r.value.contentType == Some(ContentTypeOf(KindOf(m.msgType)))
  {
    match Classify(m)
    case Err(e) => Err(e)
    case Ok(d) =>
      var media := match d.media
        case NoMedia => None
        case Fetch(id) => DownloadMedia(env.media, id);
      Ok(LogRecord(
        customerName := CustomerName(contacts),
        mobile := env.formatMobile(m.fromNumber.GetOr("")),
        templateName := "incoming",
        text := d.text,
        status := "Received",
        messageType := "Received",
        messageId := m.id.GetOr(""),
        contentType := Some(d.contentType),
        media := media))
  }

  // Per-type mapping, stated on the raw message fields.

  /** A text message (also one without a `type`) logs `text.body`, or the
      empty string; without a `text` object it raises. */
  lemma TextMapping(m: Message, contacts: seq<Contact>, env: Env)
    requires m.msgType.None? || m.msgType == Some("text")
    ensures m.text.None? ==> NormalizeMessage(m, contacts, env) == Err(MissingText)
    ensures m.text.Some? ==>
              var r := NormalizeMessage(m, contacts, env);
              r.Ok? && r.value.contentType == Some("text")
              && r.value.text == m.text.value.body.GetOr("") && r.value.media.None?
  {
  }

  /** An interactive message logs the button text for `button` replies, the
      list title for `list_reply` replies, and the empty string for any
      other reply type; a missing sub-object raises. */
  lemma InteractiveMapping(m: Message, contacts: seq<Contact>, env: Env)
    requires m.msgType == Some("interactive")
    ensures var it := m.interactive.GetOr(NoInteractive);
            var r := NormalizeMessage(m, contacts, env);
            && (it.kind == Some("button") && it.button.None? ==> r == Err(MissingButton))
            && (it.kind == Some("list_reply") && it.listReply.None? ==> r == Err(MissingListReply))
            && (!InteractiveMissesReply(it) ==>
                  r.Ok? && r.value.contentType == Some("interactive") && r.value.media.None?
                  && r.value.text == (if it.kind == Some("button") then it.button.value.text.GetOr("")
                                      else if it.kind == Some("list_reply") then it.listReply.value.title.GetOr("")
                                      else ""))
  {
  }

  /** Media messages always log a row, with placeholder text, and carry the
      file exactly when the two-step download succeeds. */
  lemma MediaMapping(m: Message, contacts: seq<Contact>, env: Env)
    requires KindOf(m.msgType) in {ImageKind, DocumentKind, VideoKind, AudioKind}
    ensures var r := NormalizeMessage(m, contacts, env);
            var info := MediaOf(m);
            && r.Ok?
            && r.value.media == DownloadMedia(env.media, info.id)
            && r.value.text == (match KindOf(m.msgType)
                                case ImageKind => "[Image received: " + PyStr(info.id) + "]"
                                case DocumentKind => info.filename.GetOr("[Document]")
                                case VideoKind => "[Video]"
                                case _ => "[Audio]")
  {
  }

  /** The media object a media message carries, by its kind. */
  function MediaOf(m: Message): MediaObject {
    match KindOf(m.msgType)
    case ImageKind => m.image.GetOr(NoMediaObject)
    case DocumentKind => m.document.GetOr(NoMediaObject)
    case VideoKind => m.video.GetOr(NoMediaObject)
    case AudioKind => m.audio.GetOr(NoMediaObject)
    case _ => NoMediaObject
  }

  /** Any other `type` logs content type `unknown`, empty text and no media. */
  lemma UnknownMapping(m: Message, contacts: seq<Contact>, env: Env)
    requires m.msgType.Some? && m.msgType.value !in KnownTypes
    ensures var r := NormalizeMessage(m, contacts, env);
            r.Ok? && r.value.contentType == Some("unknown") && r.value.text == "" && r.value.media.None?
  {
  }

  /** An image whose download fails at the first step is still logged, with
      its placeholder text and no file. */
  lemma ImageLoggedWhenDownloadFails(m: Message, contacts: seq<Contact>, env: Env)
    requires m.msgType == Some("image")
    requires env.media.fetchMeta(PyStr(m.image.GetOr(NoMediaObject).id)).None?
    ensures var r := NormalizeMessage(m, contacts, env);
            && r.Ok?
            && r.value.contentType == Some("image")
            && r.value.text == "[Image received: " + PyStr(m.image.GetOr(NoMediaObject).id) + "]"
            && r.value.media.None?
  {
  }

  // ---------------------------------------------------------------------
  // POST: the batch
  // ---------------------------------------------------------------------

  /** One message together with the contacts of the `value` it came in. */
  datatype Item = Item(message: Message, contacts: seq<Contact>)

  /** The messages of one `value`, each paired with that value's contacts. */
  function MessageItems(msgs: seq<Message>, contacts: seq<Contact>): (items: seq<Item>)
    ensures |items| == |msgs|
    ensures forall i :: 0 <= i < |msgs| ==> items[i] == Item(msgs[i], contacts)
  {
    seq(|msgs|, i requires 0 <= i < |msgs| => Item(msgs[i], contacts))
  }

  const NoValue := Value(None, None)

  function ValueItems(v: Value): seq<Item> {
    MessageItems(v.messages.GetOr([]), v.contacts.GetOr([]))
  }

  function ChangeItems(changes: seq<Change>): seq<Item> {
    if |changes| == 0 then []
    else ValueItems(changes[0].value.GetOr(NoValue)) + ChangeItems(changes[1..])
  }

  function EntryItems(entries: seq<Entry>): seq<Item> {
    if |entries| == 0 then []
    else ChangeItems(entries[0].changes.GetOr([])) + EntryItems(entries[1..])
  }

  /** Every message of the body in nested order: entries, then changes, then
      messages. Absent lists contribute nothing. */
  function BodyItems(body: WebhookBody): seq<Item> {
    EntryItems(body.entry.GetOr([]))
  }

  /** What a batch leaves behind: the rows written, and whether it ran to the
      end or stopped at an error. */
  datatype BatchOutcome =
    | Completed(logged: seq<LogRecord>)
    | Aborted(logged: seq<LogRecord>, error: WebhookError)

  /** `o` is what processing `items` in order, stopping at the first error,
      leaves: the rows of a prefix of the items, one per item; the batch
      completes when the prefix is everything, and otherwise the next item
      is the one that raised. */
  ghost predicate Explains(items: seq<Item>, env: Env, o: BatchOutcome) {
    && |o.logged| <= |items|
    && (forall i :: 0 <= i < |o.logged| ==>
          NormalizeMessage(items[i].message, items[i].contacts, env) == Ok(o.logged[i]))
    && (o.Completed? <==> |o.logged| == |items|)
    && (o.Aborted? ==>
          NormalizeMessage(items[|o.logged|].message, items[|o.logged|].contacts, env) == Err(o.error))
  }

  /** Runs `rest` after `first` unless `first` aborted. */
  function Then(first: BatchOutcome, rest: BatchOutcome): BatchOutcome {
    match first
    case Aborted(_, _) => first
    case Completed(xs) =>
      match rest
      case Completed(ys) => Completed(xs + ys)
      case Aborted(ys, e) => Aborted(xs + ys, e)
  }

  /** `for msg in messages:` of one `value`. */
  function ProcessMessages(msgs: seq<Message>, contacts: seq<Contact>, env: Env): BatchOutcome {
    if |msgs| == 0 then Completed([])
    else
      match NormalizeMessage(msgs[0], contacts, env)
      case Err(e) => Aborted([], e)
      case Ok(row) => Then(Completed([row]), ProcessMessages(msgs[1..], contacts, env))
  }

  /** The body of `for change in entry.get("changes", [])`. */
  function ProcessValue(v: Value, env: Env): BatchOutcome {
    ProcessMessages(v.messages.GetOr([]), v.contacts.GetOr([]), env)
  }

  function ProcessChanges(changes: seq<Change>, env: Env): BatchOutcome {
    if |changes| == 0 then Completed([])
    else Then(ProcessValue(changes[0].value.GetOr(NoValue), env), ProcessChanges(changes[1..], env))
  }

  function ProcessEntries(entries: seq<Entry>, env: Env): BatchOutcome {
    if |entries| == 0 then Completed([])
    else Then(ProcessChanges(entries[0].changes.GetOr([]), env), ProcessEntries(entries[1..], env))
  }

  /** The POST loop over a decoded body. */
  function ProcessBody(body: WebhookBody, env: Env): BatchOutcome {
    ProcessEntries(body.entry.GetOr([]), env)
  }

  /** Sequencing two batches explains the concatenation of their items. */
  lemma ThenExplains(a: seq<Item>, b: seq<Item>, env: Env, oa: BatchOutcome, ob: BatchOutcome)
    requires Explains(a, env, oa) && Explains(b, env, ob)
    ensures Explains(a + b, env, Then(oa, ob))
  {
    var o := Then(oa, ob);
    if oa.Completed? {
      assert |oa.logged| == |a|;
      forall i | |a| <= i < |o.logged|
        ensures NormalizeMessage((a + b)[i].message, (a + b)[i].contacts, env) == Ok(o.logged[i])
      {
        assert (a + b)[i] == b[i - |a|];
        assert o.logged[i] == ob.logged[i - |a|];
      }
      if o.Aborted? {
        assert (a + b)[|o.logged|] == b[|ob.logged|];
      }
    } else {
      assert (a + b)[|oa.logged|] == a[|oa.logged|];
    }
  }

  lemma {:induction false} ProcessMessagesExplains(msgs: seq<Message>, contacts: seq<Contact>, env: Env)
    ensures Explains(MessageItems(msgs, contacts), env, ProcessMessages(msgs, contacts, env))
  {
    if |msgs| > 0 {
      var items := MessageItems(msgs, contacts);
      match NormalizeMessage(msgs[0], contacts, env)
      case Err(e) =>
      case Ok(row) =>
        ProcessMessagesExplains(msgs[1..], contacts, env);
        assert items == [Item(msgs[0], contacts)] + MessageItems(msgs[1..], contacts);
        ThenExplains([Item(msgs[0], contacts)], MessageItems(msgs[1..], contacts), env,
                     Completed([row]), ProcessMessages(msgs[1..], contacts, env));
    }
  }

  lemma {:induction false} ProcessChangesExplains(changes: seq<Change>, env: Env)
    ensures Explains(ChangeItems(changes), env, ProcessChanges(changes, env))
  {
    if |changes| > 0 {
      var v := changes[0].value.GetOr(NoValue);
      ProcessMessagesExplains(v.messages.GetOr([]), v.contacts.GetOr([]), env);
      ProcessChangesExplains(changes[1..], env);
      ThenExplains(ValueItems(v), ChangeItems(changes[1..]), env,
                   ProcessValue(v, env), ProcessChanges(changes[1..], env));
    }
  }

  lemma {:induction false} ProcessEntriesExplains(entries: seq<Entry>, env: Env)
    ensures Explains(EntryItems(entries), env, ProcessEntries(entries, env))
  {
    if |entries| > 0 {
      ProcessChangesExplains(entries[0].changes.GetOr([]), env);
      ProcessEntriesExplains(entries[1..], env);
      ThenExplains(ChangeItems(entries[0].changes.GetOr([])), EntryItems(entries[1..]), env,
                   ProcessChanges(entries[0].changes.GetOr([]), env), ProcessEntries(entries[1..], env));
    }
  }

  /** The nested loops log exactly one row per message in nested order and
      stop at the first message that raises; rows written before it stay. */
  lemma ProcessBodyExplains(body: WebhookBody, env: Env)
    ensures Explains(BodyItems(body), env, ProcessBody(body, env))
  {
    ProcessEntriesExplains(body.entry.GetOr([]), env);
  }

  // ---------------------------------------------------------------------
  // The view
  // ---------------------------------------------------------------------

  /** A request to the webhook. `body` is `None` when it does not decode to
      a JSON object. */
  datatype WebhookRequest = WebhookRequest(verb: Method, query: Query, body: Option<WebhookBody>)

  /** The reply, and the rows the request appended to the log. */
  datatype WebhookResult = WebhookResult(reply: WebhookReply, logged: seq<LogRecord>)

  function HandleWebhook(req: WebhookRequest, env: Env): (r: WebhookResult)
    ensures req.verb != POST ==> r.logged == []
    ensures req.verb == GET ==> r.reply == Handshake(req.query, env.verifyToken)
    ensures req.verb == OtherMethod ==> r.reply == UnsupportedMethod
    ensures req.verb == POST && req.body.None? ==> r == WebhookResult(WebhookFailed(UndecodableBody), [])
    ensures req.verb == POST && req.body.Some? ==>
              var items := BodyItems(req.body.value);
              && |r.logged| <= |items|
              && (forall i :: 0 <= i < |r.logged| ==>
                    NormalizeMessage(items[i].message, items[i].contacts, env) == Ok(r.logged[i]))
              && (r.reply == Acknowledged <==> |r.logged| == |items|)
              && (r.reply != Acknowledged ==>
                    r.reply.WebhookFailed?
                    && NormalizeMessage(items[|r.logged|].message, items[|r.logged|].contacts, env)
                       == Err(r.reply.error))
  {
    match req.verb
    case GET => WebhookResult(Handshake(req.query, env.verifyToken), [])
    case POST =>
      (match req.body
       case None => WebhookResult(WebhookFailed(UndecodableBody), [])
       case Some(body) =>
         ProcessBodyExplains(body, env);
         match ProcessBody(body, env)
         case Completed(rows) => WebhookResult(Acknowledged, rows)
         case Aborted(rows, e) => WebhookResult(WebhookFailed(e), rows))
    case OtherMethod => WebhookResult(UnsupportedMethod, [])
  }

  /** A message that raises drops every later message of the body: the
      reply is 400 and only the rows of the messages before it are kept. */
  lemma FailingMessageEndsBatch(req: WebhookRequest, env: Env, k: nat)
    requires req.verb == POST && req.body.Some?
    requires k < |BodyItems(req.body.value)|
    requires NormalizeMessage(BodyItems(req.body.value)[k].message, BodyItems(req.body.value)[k].contacts, env).Err?
    ensures var r := HandleWebhook(req, env);
            StatusCode(r.reply) == 400 && |r.logged| <= k
  {
  }
}
