/** The inbound webhook body of the WhatsApp Cloud API, as the webhook view
    reads it: `entry -> changes -> value -> messages / contacts`. Each field
    the view reads with `.get(key, default)` or `[key]` is an `Option`,
    `None` meaning the key is absent. */
module Payload {
  import opened Wrappers

  datatype TextObject = TextObject(body: Option<string>)
  datatype ButtonObject = ButtonObject(text: Option<string>)
  datatype ListReplyObject = ListReplyObject(title: Option<string>)

  /** The `interactive` object: its `type` tag and the two reply shapes the
      view reads. */
  datatype InteractiveObject = InteractiveObject(
    kind: Option<string>,
    button: Option<ButtonObject>,
    listReply: Option<ListReplyObject>)

  /** The `image`, `document`, `video` and `audio` objects: the media id,
      and (read for documents only) the file name. */
  datatype MediaObject = MediaObject(id: Option<string>, filename: Option<string>)

  datatype Message = Message(
    fromNumber: Option<string>,
    id: Option<string>,
    msgType: Option<string>,
    text: Option<TextObject>,
    interactive: Option<InteractiveObject>,
    image: Option<MediaObject>,
    document: Option<MediaObject>,
    video: Option<MediaObject>,
    audio: Option<MediaObject>)

  datatype Profile = Profile(name: Option<string>)
  datatype Contact = Contact(profile: Option<Profile>)

  datatype Value = Value(messages: Option<seq<Message>>, contacts: Option<seq<Contact>>)
  datatype Change = Change(value: Option<Value>)
  datatype Entry = Entry(changes: Option<seq<Change>>)
  datatype WebhookBody = WebhookBody(entry: Option<seq<Entry>>)

  /** The closed set of message kinds the view distinguishes. */
  datatype Kind = TextKind | InteractiveKind | ImageKind | DocumentKind | VideoKind | AudioKind | UnknownKind

  /** The `type` tags with a branch of their own. */
  const KnownTypes: set<string> := {"text", "interactive", "image", "document", "video", "audio"}

  /** Dispatch on `msg.get("type", "text")`. */
  function KindOf(msgType: Option<string>): (k: Kind)
    ensures msgType.None? ==> k == TextKind
    ensures k == UnknownKind <==> msgType.Some? && msgType.value !in KnownTypes
  {
    match msgType.GetOr("text")
    case "text" => TextKind
    case "interactive" => InteractiveKind
    case "image" => ImageKind
    case "document" => DocumentKind
    case "video" => VideoKind
    case "audio" => AudioKind
    case _ => UnknownKind
  }

  /** The `content_type` logged for each kind. */
  function ContentTypeOf(k: Kind): string {
    match k
    case TextKind => "text"
    case InteractiveKind => "interactive"
    case ImageKind => "image"
    case DocumentKind => "document"
    case VideoKind => "video"
    case AudioKind => "audio"
    case UnknownKind => "unknown"
  }

  /** The logged content type names the kind it came from: reading it back
      as a `type` tag gives the same kind, so no two kinds share a name. */
  lemma ContentTypeNamesKind(k: Kind)
    ensures KindOf(Some(ContentTypeOf(k))) == k
  {
  }

  /** A tag that is one of the six known ones is logged under its own name. */
  lemma KnownTagIsItsContentType(t: string)
    requires t in KnownTypes
    ensures ContentTypeOf(KindOf(Some(t))) == t
  {
  }
}
