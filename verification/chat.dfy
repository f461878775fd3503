/** The chat screens: the message history of one number (with placeholder
    texts turned into short labels) and the contact list of the dashboard. */
module Chat {
  import opened Wrappers
  import opened PyStrings
  import opened MessageLog
  import opened Payload
  import Webhook

  // ---------------------------------------------------------------------
  // Display mapping of the history view
  // ---------------------------------------------------------------------

  const ImageLabel := "\U{1F4F7} Image"
  const AudioLabel := "\U{1F3A7} Audio"
  const VideoLabel := "\U{1F3AC} Video"
  const DocumentLabel := "\U{1F4C4} Document"

  /** Whether a stored text starts like one of the webhook's placeholders. */
  predicate HasPlaceholderPrefix(t: string) {
    || StartsWith(t, "[Image received")
    || StartsWith(t, "[Audio")
    || StartsWith(t, "[Video")
    || StartsWith(t, "[Document")
  }

  /** The text shown for a stored message: placeholder-like texts become a
      label (the first matching prefix wins), anything else is shown as is,
      and a missing text as the empty string. */
  function DisplayText(stored: Option<string>): (shown: string)
    ensures var t := stored.GetOr("");
            && (StartsWith(t, "[Image received") ==> shown == ImageLabel)
            && (!StartsWith(t, "[Image received") && StartsWith(t, "[Audio") ==> shown == AudioLabel)
            && ((!StartsWith(t, "[Image received") && !StartsWith(t, "[Audio") && StartsWith(t, "[Video"))
                  ==> shown == VideoLabel)
            && ((!StartsWith(t, "[Image received") && !StartsWith(t, "[Audio") && !StartsWith(t, "[Video")
                 && StartsWith(t, "[Document")) ==> shown == DocumentLabel)
            && (!HasPlaceholderPrefix(t) ==> shown == t)
    ensures stored.None? ==> shown == ""
  {
    var t := stored.GetOr("");
    if StartsWith(t, "[Image received") then ImageLabel
    else if StartsWith(t, "[Audio") then AudioLabel
    else if StartsWith(t, "[Video") then VideoLabel
    else if StartsWith(t, "[Document") then DocumentLabel
    else t
  }

  /** Labels are left alone when displayed again. */
  lemma DisplayIdempotent(stored: Option<string>)
    ensures DisplayText(Some(DisplayText(stored))) == DisplayText(stored)
  {
    var shown := DisplayText(stored);
    if HasPlaceholderPrefix(stored.GetOr("")) {
      assert shown in {ImageLabel, AudioLabel, VideoLabel, DocumentLabel};
      assert shown[0] != '[';
    }
  }

  /** `content_type or "text"`: an empty or missing content type reads as
      text, any other is shown unchanged. */
  function DisplayContentType(stored: Option<string>): (shown: string)
    ensures shown != ""
    ensures stored.Some? && stored.value != "" ==> shown == stored.value
    ensures stored.None? || stored == Some("") ==> shown == "text"
  {
    if stored.None? || stored.value == "" then "text" else stored.value
  }

  /** Every placeholder the webhook writes for image, video and audio
      messages, and for documents without a file name, displays as its
      label. */
  lemma WebhookPlaceholdersDisplayAsLabels(m: Message, contacts: seq<Contact>, env: Webhook.Env)
    requires KindOf(m.msgType) in {ImageKind, VideoKind, AudioKind}
             || (KindOf(m.msgType) == DocumentKind && Webhook.MediaOf(m).filename.None?)
    ensures var r := Webhook.NormalizeMessage(m, contacts, env);
            && r.Ok?
            && DisplayText(Some(r.value.text)) ==
                 match KindOf(m.msgType)
                 case ImageKind => ImageLabel
                 case VideoKind => VideoLabel
                 case AudioKind => AudioLabel
                 case _ => DocumentLabel
  {
    var r := Webhook.NormalizeMessage(m, contacts, env);
    Webhook.MediaMapping(m, contacts, env);
    var t := r.value.text;
    match KindOf(m.msgType)
    case ImageKind =>
      assert t == "[Image received" + (": " + PyStr(Webhook.MediaOf(m).id) + "]");
    case VideoKind =>
      assert t[1] == 'V' && !StartsWith(t, "[Audio");
    case AudioKind =>
      assert t[1] == 'A' && !StartsWith(t, "[Image received");
    case DocumentKind =>
      assert t[1] == 'D' && !StartsWith(t, "[Audio") && !StartsWith(t, "[Video");
    case _ =>
  }

  /** The four labels the history view shows instead of a placeholder. */
  const Labels: set<string> := {ImageLabel, AudioLabel, VideoLabel, DocumentLabel}

  /** A text message whose body begins like a placeholder is displayed as a
      label, never as what the customer wrote. */
  lemma PlaceholderLikeTextIsRelabelled(m: Message, contacts: seq<Contact>, env: Webhook.Env, t: string)
    requires m.msgType.None? || m.msgType == Some("text")
    requires m.text == Some(TextObject(Some(t)))
    requires HasPlaceholderPrefix(t)
    ensures var r := Webhook.NormalizeMessage(m, contacts, env);
            && r.Ok?
            && r.value.text == t
            && DisplayText(Some(r.value.text)) in Labels
            && DisplayText(Some(r.value.text)) != t
  {
    Webhook.TextMapping(m, contacts, env);
    assert t[0] == '[';
    var shown := DisplayText(Some(t));
    assert shown in Labels;
    assert shown[0] != '[';
  }

  // ---------------------------------------------------------------------
  // History of one number
  // ---------------------------------------------------------------------

  /** One entry of the history as the view returns it; the file is named
      by its stored file name. */
  datatype ChatMessage = ChatMessage(
    customerName: Option<string>,
    mobile: string,
    text: string,
    messageType: string,
    messageId: string,
    contentType: string,
    mediaFile: string)

  function View(row: LogRecord): ChatMessage {
    ChatMessage(
      row.customerName, row.mobile, DisplayText(Some(row.text)), row.messageType,
      row.messageId, DisplayContentType(row.contentType),
      if row.media.Some? then row.media.value.filename else "")
  }

  /** The rows whose mobile is `key`, in log order. */
  function RowsFor(log: Log, key: string): (rows: Log)
    ensures forall r :: r in rows <==> r in log && r.mobile == key
    ensures |rows| <= |log|
  {
    if |log| == 0 then []
    else
      var front := RowsFor(log[..|log| - 1], key);
      var last := log[|log| - 1];
      assert log == log[..|log| - 1] + [last];
      if last.mobile == key then front + [last] else front
  }

  /** The history of a number: its rows, oldest first, as displayed. */
  function ChatMessages(log: Log, mobile: string, formatMobile: string -> string): (msgs: seq<ChatMessage>)
    ensures |msgs| == |RowsFor(log, formatMobile(mobile))|
    ensures forall i :: 0 <= i < |msgs| ==> msgs[i].mobile == formatMobile(mobile)
  {
    var rows := RowsFor(log, formatMobile(mobile));
    seq(|rows|, i requires 0 <= i < |rows| => assert rows[i] in rows; View(rows[i]))
  }

  /** Appending a row to the log adds its view at the end of its own
      number's history and leaves every other history unchanged. */
  lemma AppendExtendsHistory(log: Log, row: LogRecord, mobile: string, formatMobile: string -> string)
    ensures ChatMessages(log + [row], mobile, formatMobile) ==
              ChatMessages(log, mobile, formatMobile)
              + (if row.mobile == formatMobile(mobile) then [View(row)] else [])
  {
    assert (log + [row])[..|log|] == log;
  }

  // ---------------------------------------------------------------------
  // Contact list of the dashboard
  // ---------------------------------------------------------------------

  predicate NoDuplicates(xs: seq<string>) {
    forall i, j :: 0 <= i < j < |xs| ==> xs[i] != xs[j]
  }

  /** Position of the first occurrence of `x` in `xs`. */
  function FirstIndex(xs: seq<string>, x: string): (k: nat)
    requires x in xs
    ensures k < |xs| && xs[k] == x && x !in xs[..k]
  {
    if xs[0] == x then 0
    else
      var k := FirstIndex(xs[1..], x);
      assert xs[..k + 1] == [xs[0]] + xs[1..][..k];
      k + 1
  }

  /** The first occurrence of `x` in a prefix is its first occurrence in
      the whole sequence. */
  lemma FirstIndexInPrefix(xs: seq<string>, n: nat, x: string)
    requires n <= |xs| && x in xs[..n]
    ensures FirstIndex(xs[..n], x) == FirstIndex(xs, x)
  {
    var a, b := FirstIndex(xs[..n], x), FirstIndex(xs, x);
    assert xs[..n][..a] == xs[..a];
  }

  /** Order-preserving removal of repeats: each element once, at the place
      of its first occurrence. */
  function Dedup(xs: seq<string>): (r: seq<string>)
    ensures forall x :: x in r <==> x in xs
    ensures NoDuplicates(r)
    ensures forall i, j :: 0 <= i < j < |r| ==> FirstIndex(xs, r[i]) < FirstIndex(xs, r[j])
  {
    if |xs| == 0 then []
    else
      var front := xs[..|xs| - 1];
      var last := xs[|xs| - 1];
      var r := Dedup(front);
      assert xs == front + [last];
      forall y | y in r ensures FirstIndex(front, y) == FirstIndex(xs, y) {
        FirstIndexInPrefix(xs, |xs| - 1, y);
      }
      if last in r then r
      else
        assert FirstIndex(xs, last) == |xs| - 1;
        r + [last]
  }

  /** `format_mobile(str(m))` applied to every raw mobile. */
  function NormalizeAll(mobiles: seq<string>, formatMobile: string -> string): (ns: seq<string>)
    ensures |ns| == |mobiles|
    ensures forall i :: 0 <= i < |mobiles| ==> ns[i] == formatMobile(mobiles[i])
  {
    seq(|mobiles|, i requires 0 <= i < |mobiles| => formatMobile(mobiles[i]))
  }

  /** The loop of the dashboard over the grouped numbers: it keeps each
      normalised number once, at its first occurrence, and keeps exactly
      the normalised numbers of the input. */
  method ContactList(mobiles: seq<string>, formatMobile: string -> string) returns (list: seq<string>)
    ensures list == Dedup(NormalizeAll(mobiles, formatMobile))
    ensures NoDuplicates(list)
    ensures forall x :: x in list <==> exists i :: 0 <= i < |mobiles| && formatMobile(mobiles[i]) == x
    ensures forall i, j :: 0 <= i < j < |list| ==>
              FirstIndex(NormalizeAll(mobiles, formatMobile), list[i])
              < FirstIndex(NormalizeAll(mobiles, formatMobile), list[j])
  {
    var seen: set<string> := {};
    list := [];
    var i := 0;
    while i < |mobiles|
      invariant 0 <= i <= |mobiles|
      invariant list == Dedup(NormalizeAll(mobiles[..i], formatMobile))
      invariant forall x :: x in seen <==> x in list
    {
      var normalized := formatMobile(mobiles[i]);
      assert NormalizeAll(mobiles[..i + 1], formatMobile)
             == NormalizeAll(mobiles[..i], formatMobile) + [normalized];
      if normalized !in seen {
        seen := seen + {normalized};
        list := list + [normalized];
      }
      i := i + 1;
    }
    assert mobiles[..i] == mobiles;
    var ns := NormalizeAll(mobiles, formatMobile);
    forall x | x in list ensures exists i :: 0 <= i < |mobiles| && formatMobile(mobiles[i]) == x {
      var k := FirstIndex(ns, x);
      assert formatMobile(mobiles[k]) == x;
    }
    forall x | exists i :: 0 <= i < |mobiles| && formatMobile(mobiles[i]) == x ensures x in list {
      var k :| 0 <= k < |mobiles| && formatMobile(mobiles[k]) == x;
      assert ns[k] == x;
    }
  }

  /** Position of the last occurrence of `x` in `xs`. */
  function LastIndex(xs: seq<string>, x: string): (k: nat)
    requires x in xs
    ensures k < |xs| && xs[k] == x && x !in xs[k + 1..]
  {
    if xs[|xs| - 1] == x then |xs| - 1
    else
      var k := LastIndex(xs[..|xs| - 1], x);
      assert xs[k + 1..] == xs[..|xs| - 1][k + 1..] + [xs[|xs| - 1]];
      k
  }

  /** The first occurrence in the reversed sequence is the last occurrence
      in the original. */
  lemma FirstInReverseIsLast(xs: seq<string>, rev: seq<string>, x: string)
    requires |rev| == |xs| && forall i :: 0 <= i < |xs| ==> rev[i] == xs[|xs| - 1 - i]
    requires x in xs
    ensures x in rev && FirstIndex(rev, x) == |xs| - 1 - LastIndex(xs, x)
  {
    var b := LastIndex(xs, x);
    assert rev[|xs| - 1 - b] == x;
    var a := FirstIndex(rev, x);
  }

  /** The numbers of the log grouped by raw mobile and ordered by their
      latest row, newest first (rows later in the log are newer). */
  function RecentMobiles(log: Log): (ms: seq<string>)
    ensures NoDuplicates(ms)
    ensures forall m :: m in ms <==> m in Mobiles(log)
    ensures forall i, j :: 0 <= i < j < |ms| ==>
              LastIndex(Mobiles(log), ms[i]) > LastIndex(Mobiles(log), ms[j])
  {
    var raw := Mobiles(log);
    var newestFirst := seq(|raw|, i requires 0 <= i < |raw| => raw[|raw| - 1 - i]);
    assert forall i :: 0 <= i < |raw| ==> raw[i] == newestFirst[|raw| - 1 - i];
    var ms := Dedup(newestFirst);
    forall m | m in ms ensures FirstIndex(newestFirst, m) == |raw| - 1 - LastIndex(raw, m) {
      FirstInReverseIsLast(raw, newestFirst, m);
    }
    ms
  }

  /** The dashboard's contact list over the log. */
  method Dashboard(log: Log, formatMobile: string -> string) returns (list: seq<string>)
    ensures list == Dedup(NormalizeAll(RecentMobiles(log), formatMobile))
    ensures NoDuplicates(list)
    ensures forall x :: x in list <==> exists i :: 0 <= i < |log| && formatMobile(log[i].mobile) == x
  {
    var grouped := RecentMobiles(log);
    list := ContactList(grouped, formatMobile);
    forall x | x in list ensures exists i :: 0 <= i < |log| && formatMobile(log[i].mobile) == x {
      var k :| 0 <= k < |grouped| && formatMobile(grouped[k]) == x;
      assert grouped[k] in Mobiles(log);
    }
    forall x | exists i :: 0 <= i < |log| && formatMobile(log[i].mobile) == x ensures x in list {
      var k :| 0 <= k < |log| && formatMobile(log[k].mobile) == x;
      assert log[k].mobile in Mobiles(log);
      var j :| 0 <= j < |grouped| && grouped[j] == log[k].mobile;
    }
  }
}
