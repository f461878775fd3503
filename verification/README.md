# WhatsApp messaging views — a Dafny model

This project models the message-handling logic of the `messaging` views of a
Django application that sends WhatsApp messages through the WhatsApp Cloud
API and records every message sent or received in a log table
(`SmsWhatsAppLog`). The modelled parts are:

- the **webhook** (`whatsapp_webhook`): the GET verification handshake and the
  POST loop that walks `entry -> changes -> value -> messages / contacts`,
  dispatches on each message's `type` tag (text, interactive, image, document,
  video, audio, anything else) and appends one log row per message;
- the **media download** (`download_whatsapp_media`): the two-step lookup and
  download and the file name `whatsapp_<id>.<ext>`;
- the **chat history** (`chat_messages_api`): the rows of one number, with
  placeholder texts shown as short labels and a missing content type shown as
  `text`;
- the **contact list** (`chat_dashboard`): numbers grouped by their newest row,
  normalised, with repeats removed in order;
- the **reply** (`send_reply_api`): input validation, the send, the provider
  message id and the logged status.

The log table is an append-only sequence of `LogRecord`s whose order is
creation order. The HTTP calls to the provider are oracles passed in as
functions (`MediaApi`, the `send` parameter of `SendReply`), and so is the
phone-number normaliser `format_mobile`, whose body is not part of this model:
it is an arbitrary `string -> string` function and nothing (not even
idempotence) is assumed of it. Request bodies are modelled after JSON
decoding, as datatypes whose `Option` fields say whether a key is present;
a body that does not decode to a JSON object is `None`.

Modules: `Wrappers` (Option/Result), `PyStrings` (Python's `strip`,
`startswith`, `split`, `str`), `Http` (method, query string), `Media`,
`MessageLog`, `Payload` (the webhook body), `Webhook`, `Chat`, `Reply`.

A POST is not isolated per message. The view aborts the whole request at the
first message that raises a `KeyError` (a text message without `text`, an
interactive `button` or `list_reply` reply without its sub-object), answers
400, and skips every later message of the body. The rows already written for
earlier messages stay, because no transaction wraps the request (the settings
do not enable `ATOMIC_REQUESTS`). This is `Webhook.HandleWebhook` and
`Webhook.FailingMessageEndsBatch`.

## Model

| member | source | states |
|---|---|---|
| Webhook.Handshake | messaging/views.py:251-257 | The challenge is echoed exactly when `hub.mode` is `subscribe` and `hub.verify_token` equals the configured token; every other request gets the invalid-verification reply. |
| Webhook.HandshakeNeedsToken | messaging/views.py:253-255 | A request without `hub.verify_token` is rejected, even if the configured token is empty. |
| Http.QueryGet | messaging/views.py:252-254 | A query parameter is absent exactly when no pair carries its key; a found value belongs to a pair with that key. |
| Http.QueryGetIsLast | messaging/views.py:252-254 | For a repeated key the value read is the one of its last occurrence. |
| Payload.KindOf | messaging/views.py:272-321 | A missing `type` is a text message; a tag outside the six known ones is exactly the unknown kind. |
| Payload.ContentTypeNamesKind | messaging/views.py:274-321 | The logged content type identifies the kind: read back as a tag it gives the same kind. |
| Webhook.Classify | messaging/views.py:272-321 | A message raises exactly when it is text without `text`, or interactive whose `button`/`list_reply` sub-object is missing; otherwise its content type is its kind's name and media is fetched exactly for image, document, video and audio. |
| Webhook.CustomerName | messaging/views.py:325 | The name is the first contact's profile name, `None` if that contact lacks one, and the empty string when there are no contacts. |
| Webhook.NormalizeMessage | messaging/views.py:269-333 | A message either raises (as the dispatch does) or yields a row with status and message type `Received`, template `incoming`, the normalised sender, the message id (default empty), the customer name and the content type. |
| Webhook.TextMapping | messaging/views.py:278-280 | Text (also untyped) messages log `text.body` or the empty string, with no media; without a `text` object they raise. |
| Webhook.InteractiveMapping | messaging/views.py:283-289 | Interactive messages log the button text, the list-reply title, or the empty string for other reply types; a missing sub-object raises. |
| Webhook.MediaMapping | messaging/views.py:291-321 | Media messages always yield a row with the placeholder text (`[Image received: <id>]`, file name or `[Document]`, `[Video]`, `[Audio]`) and carry exactly what the download returns. |
| Webhook.UnknownMapping | messaging/views.py:273-275 | Any other type logs content type `unknown`, empty text and no media. |
| Webhook.ImageLoggedWhenDownloadFails | messaging/views.py:292-297 | An image whose metadata lookup fails is still logged, with its placeholder and no file. |
| Webhook.ProcessMessagesExplains | messaging/views.py:269-333 | The loop over one value's messages logs one row per message in order and stops at the first one that raises. |
| Webhook.ProcessChangesExplains | messaging/views.py:264-269 | The loop over changes logs the rows of each value's messages in order, stopping at the first error. |
| Webhook.ProcessEntriesExplains | messaging/views.py:263-269 | The loop over entries logs the rows of each entry's changes in order, stopping at the first error. |
| Webhook.ProcessBodyExplains | messaging/views.py:262-339 | The POST loop logs exactly one row per message in nested order (entries, changes, messages), absent lists contributing nothing, up to the first message that raises; the batch completes exactly when every message was logged. |
| Webhook.HandleWebhook | messaging/views.py:251-347 | GET answers the handshake and logs nothing; other methods are refused; an undecodable POST body is a 400 with no rows; a decodable one logs a prefix of its messages and answers `received` exactly when the prefix is all of them, else 400 with the error of the next message. |
| Webhook.FailingMessageEndsBatch | messaging/views.py:343-345 | A message that raises makes the reply 400 and no message from it onwards is logged. |
| Media.Extension | messaging/views.py:368-369 | The extension contains no `/`, and is `bin` when the MIME type has no `/`. |
| Media.ExtensionAfterLastSlash | messaging/views.py:369 | When the MIME type has a `/`, the extension is exactly the text after its last `/`. |
| Media.FileNameDeterminesId | messaging/views.py:374 | For media ids without a `.`, two equal file names come from the same id and extension. |
| Media.DownloadMedia | messaging/views.py:353-380 | A file is returned exactly when the lookup answers, names a URL, and the download answers; it is named `whatsapp_<id>.<ext>` and holds the downloaded bytes; any failure gives `None`. |
| PyStrings.JoinSplit | messaging/views.py:369 | Splitting on a separator loses nothing: the pieces joined back give the string. |
| PyStrings.LastPieceFollowsLastSeparator | messaging/views.py:369 | The last piece of a split is the text after the last separator. |
| PyStrings.Strip | messaging/views.py:199-200 | The stripped string is the infix left after removing whitespace from both ends, and neither of its ends is whitespace. |
| PyStrings.BlankIffAllSpace | messaging/views.py:199-202 | A string is empty after stripping exactly when it is all whitespace. |
| Chat.DisplayText | messaging/views.py:162-170 | Texts starting with `[Image received`, `[Audio`, `[Video`, `[Document` become the matching label, the first match winning; other texts are unchanged and a missing text is empty. |
| Chat.DisplayIdempotent | messaging/views.py:162-170 | Displaying a displayed text again changes nothing. |
| Chat.DisplayContentType | messaging/views.py:180 | An empty or missing content type is shown as `text`, any other unchanged. |
| Chat.WebhookPlaceholdersDisplayAsLabels | messaging/views.py:162-170 | The placeholder the webhook writes for image, video and audio messages, and for documents without a file name, is shown as its label. |
| Chat.PlaceholderLikeTextIsRelabelled | messaging/views.py:162-170 | Any text message whose body begins with one of the four placeholder prefixes is shown as one of the labels, never as the customer's own text. |
| Chat.RowsFor | messaging/views.py:154 | The history holds exactly the log rows of the normalised number. |
| Chat.ChatMessages | messaging/views.py:153-182 | The history has one entry per row of the normalised number, each for that number. |
| Chat.AppendExtendsHistory | messaging/views.py:154 | Appending a row adds its entry at the end of its own number's history and changes no other history. |
| Chat.Dedup | messaging/views.py:131-137 | Each element is kept once, the kept set is the input set, and the order is that of first occurrences. |
| Chat.ContactList | messaging/views.py:131-137 | The contact list holds each normalised number once, exactly the normalised input numbers, ordered by first occurrence. |
| Chat.RecentMobiles | messaging/views.py:124-129 | The grouped numbers are the log's distinct numbers, newest row first. |
| Chat.Dashboard | messaging/views.py:120-137 | The dashboard lists every normalised number of the log exactly once, in the de-duplicated order of the grouped numbers (newest conversation first, first occurrence kept after normalisation). |
| Reply.SentMessageId | messaging/views.py:210-212 | The message id is the `id` of the first element of a non-empty `messages` list, else empty. |
| Reply.ReplyRecord | messaging/views.py:214-222 | The reply row's status is `Delivered` exactly when the message id is non-empty, `Sent` otherwise. |
| Reply.SendReply | messaging/views.py:194-228 | Non-POST is refused; a blank mobile or text is rejected before any send; otherwise the stripped text goes to the normalised number; a successful send answers 200 and logs a row carrying that number, text, the answer's message id and the matching status; an HTTP error or any other failure answers 500 and logs nothing. |
| Reply.WhitespaceMobileRejected | messaging/views.py:199-203 | A mobile made only of whitespace is rejected with nothing sent or logged. |

## Left out

- HTTP transport of `send_whatsapp_text` and `download_whatsapp_media`: each call is an oracle that answers or fails; the URLs, headers, bearer token and 30-second timeouts are not modelled.
- Django ORM and storage: the log is an append-only sequence; `log.media_file.save` is assumed to succeed and to keep the requested file name (a storage backend may rename or fail), and media URLs are shown as the stored file name.
- JSON decoding and type confusion: bodies are modelled after decoding; a body that is not a JSON object is one error case, and values of an unexpected JSON type (a list where an object is expected, `null` where a string is) are not modelled.
- Webhook.CustomerName: a first contact without a profile name gives Python's `None`; the log model is not part of this model, and the insert is assumed to accept `None` (a NOT NULL column would make it raise and end the batch with 400).
- Reply.SendReply: `str(payload.get("mobile", ""))` also accepts a numeric or `null` mobile (giving its decimal text or `None`); the request body models `mobile` only as a string or absent.
- The `print` diagnostics of the webhook's error handler and of the media download's failure path are console output and are not modelled.
- `format_mobile`: not part of this model, kept uninterpreted and assumed not to raise.
- Webhook.HandleWebhook: the 400 body carries `str(e)` of the exception; the model keeps the error kind, not its message text.
- Chat.ChatMessages: the row `id` and `sent_at` columns are not modelled; the log order stands for `sent_at` order, and ties between equal timestamps are not modelled.
- Chat.RecentMobiles: the database grouping and ordering by `Max("sent_at")` is modelled as distinct numbers ordered by their last row in the log.
- Reply.SendReply: the 500 bodies carry exception text, modelled as two error kinds; an answer whose first `messages` element is not an object is not modelled.
- Bulk upload and dispatch (`upload_and_send`): spreadsheet parsing, file storage and handing the job to a background worker; the dispatch loop itself is in `messaging/tasks.py`, which is not part of this model.
- `job_status`: a floating-point percentage.
- Report downloads and `export_received_messages_to_excel`: fixed file paths and spreadsheet building.
- Settings and configuration loading: the verify token is a parameter.
