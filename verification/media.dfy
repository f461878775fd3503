/** Media retrieval for inbound messages: the two-step download from the
    provider (metadata lookup, then content download) and the file name
    given to what comes back. The HTTP calls are an oracle: each step
    either answers or fails, for whatever reason (status, timeout, bad
    JSON). */
module Media {
  import opened Wrappers
  import opened PyStrings

  newtype byte = x: int | 0 <= x < 256

  /** What the metadata lookup yields: the `url` and `mime_type` keys of
      its JSON answer, each possibly absent. */
  datatype MediaMeta = MediaMeta(url: Option<string>, mimeType: Option<string>)

  /** The provider's media endpoints. `fetchMeta` is keyed by the media id
      as it appears in the request URL; `fetchContent` by the download URL. */
  datatype MediaApi = MediaApi(
    fetchMeta: string -> Option<MediaMeta>,
    fetchContent: string -> Option<seq<byte>>)

  /** A downloaded file: the name it is saved under and its bytes. */
  datatype MediaFile = MediaFile(filename: string, content: seq<byte>)

  /** The file extension derived from a MIME type: the text after the last
      `/`, or `bin` when there is no `/`. */
  function Extension(mimeType: string): (ext: string)
    ensures '/' !in ext
    ensures '/' !in mimeType ==> ext == "bin"
  {
    if '/' in mimeType then
      var parts := Split(mimeType, '/');
      parts[|parts| - 1]
    else
      "bin"
  }

  /** When the MIME type has a `/`, the extension is exactly what follows
      its last `/`. */
  lemma ExtensionAfterLastSlash(mimeType: string)
    requires '/' in mimeType
    ensures var ext := Extension(mimeType);
            && |ext| < |mimeType|
            && mimeType[|mimeType| - |ext| - 1] == '/'
            && mimeType[|mimeType| - |ext|..] == ext
  {
    LastPieceFollowsLastSeparator(mimeType, '/');
  }

  /** The name a downloaded file is saved under. */
  function MediaFileName(mediaId: string, mimeType: string): string {
    "whatsapp_" + mediaId + "." + Extension(mimeType)
  }

  /** Position of the first `.` in `s`. */
  function FirstDot(s: string): nat
    requires '.' in s
  {
    if s[0] == '.' then 0 else 1 + FirstDot(s[1..])
  }

  lemma {:induction false} DotAfterId(id: string, ext: string)
    requires '.' !in id
    ensures FirstDot(id + "." + ext) == |id|
  {
    if |id| > 0 {
      assert (id + "." + ext)[1..] == id[1..] + "." + ext;
      DotAfterId(id[1..], ext);
    }
  }

  /** A dot-free id followed by `.` can be read back from the result. */
  lemma SplitAtFirstDot(id1: string, ext1: string, id2: string, ext2: string)
    requires '.' !in id1 && '.' !in id2
    requires id1 + "." + ext1 == id2 + "." + ext2
    ensures id1 == id2 && ext1 == ext2
  {
    var a := id1 + "." + ext1;
    DotAfterId(id1, ext1);
    DotAfterId(id2, ext2);
    assert id1 == a[..|id1|];
    assert ext1 == a[|id1| + 1..];
  }

  /** File names do not collide across media ids: for ids without a `.`,
      equal file names mean equal ids (and equal extensions). */
  lemma FileNameDeterminesId(id1: string, mime1: string, id2: string, mime2: string)
    requires '.' !in id1 && '.' !in id2
    requires MediaFileName(id1, mime1) == MediaFileName(id2, mime2)
    ensures id1 == id2
    ensures Extension(mime1) == Extension(mime2)
  {
    var prefix := "whatsapp_";
    var e1, e2 := Extension(mime1), Extension(mime2);
    var a, b := id1 + "." + e1, id2 + "." + e2;
    assert MediaFileName(id1, mime1) == prefix + a;
    assert MediaFileName(id2, mime2) == prefix + b;
    assert a == (prefix + a)[|prefix|..];
    assert b == (prefix + b)[|prefix|..];
    SplitAtFirstDot(id1, e1, id2, e2);
  }

  /** Downloads the media with the given id. The id is rendered with
      Python's `str` (an absent id becomes `None`) both in the lookup and
      in the file name. Any failure of either step yields `None`. */
  function DownloadMedia(api: MediaApi, mediaId: Option<string>): (r: Option<MediaFile>)
    ensures api.fetchMeta(PyStr(mediaId)).None? ==> r.None?
    ensures r.Some? <==>
              && api.fetchMeta(PyStr(mediaId)).Some?
              && api.fetchMeta(PyStr(mediaId)).value.url.Some?
              && api.fetchContent(api.fetchMeta(PyStr(mediaId)).value.url.value).Some?
    ensures r.Some? ==>
              var meta := api.fetchMeta(PyStr(mediaId)).value;
              && r.value.filename == MediaFileName(PyStr(mediaId), meta.mimeType.GetOr(""))
              && Some(r.value.content) == api.fetchContent(meta.url.value)
  {
    var id := PyStr(mediaId);
    match api.fetchMeta(id)
    case None => None
    case Some(meta) =>
      var ext := Extension(meta.mimeType.GetOr(""));
      match meta.url
      case None => None
      case Some(url) =>
        match api.fetchContent(url)
        case None => None
        case Some(bytes) => Some(MediaFile("whatsapp_" + id + "." + ext, bytes))
  }
}
