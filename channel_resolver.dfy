/**
 * Turning a YouTube URL into a channel id (`resolveChannelId`) and reading the
 * two YouTube search replies the lookup service depends on (`searchYouTubeChannel`
 * and `checkIfLive`). The HTTP calls themselves are outside the model: a search is
 * a function from the query to the reply it gets, and a reply is either the parsed
 * body's `items` field or a thrown error.
 */
module ChannelResolver {
  import opened Wrappers
  import opened Text

  /** The `snippet` of one search hit; `channelId` may be missing. */
  datatype Snippet = Snippet(channelId: Option<string>)

  /** One entry of a search reply's `items`; `snippet` may be missing. */
  datatype SearchItem = SearchItem(snippet: Option<Snippet>)

  /**
   * What a YouTube search call produces: `Thrown` when the request or reading its
   * body throws, otherwise the body's `items` (None when it is absent or not an array).
   */
  datatype ApiReply = Thrown | Reply(items: Option<seq<SearchItem>>)

  /** The delimiters of `split(/[/?#]/)`. */
  const URL_DELIMS: set<char> := {'/', '?', '#'}

  const CHANNEL_MARK: string := "/channel/"
  const HANDLE_MARK: string := "/@"
  const DOMAIN_MARK: string := "youtube.com/"

  /**
   * `url.split(mark)[1].split(/[/?#]/)[0]`: the text after the first `mark` up to
   * the first delimiter or the next `mark`, whichever comes first.
   */
  function SegmentAfter(url: string, mark: string): (r: string)
    requires mark != [] && Includes(url, mark)
    ensures r <= AfterFirst(url, mark)
    ensures forall i :: 0 <= i < |r| ==> r[i] !in URL_DELIMS
    ensures forall j :: 0 <= j < |r| ==> !OccursAt(AfterFirst(url, mark), mark, j)
    ensures var rest := AfterFirst(url, mark);
      |r| < |rest| ==> rest[|r|] in URL_DELIMS || OccursAt(rest, mark, |r|)
  {
    var rest := AfterFirst(url, mark);
    var head := SplitHead(rest, mark);
    var r := CutAt(head, URL_DELIMS);
    assert |r| < |rest| ==> rest[|r|] in URL_DELIMS || OccursAt(rest, mark, |r|) by {
      if |r| < |head| {
        assert rest[|r|] == head[|r|];
      }
    }
    r
  }

  /** The four facts of SegmentAfter's contract determine its result. */
  lemma SegmentAfterUnique(url: string, mark: string, seg: string)
    requires mark != [] && Includes(url, mark)
    requires seg <= AfterFirst(url, mark)
    requires forall i :: 0 <= i < |seg| ==> seg[i] !in URL_DELIMS
    requires forall j :: 0 <= j < |seg| ==> !OccursAt(AfterFirst(url, mark), mark, j)
    requires var rest := AfterFirst(url, mark);
      |seg| < |rest| ==> rest[|seg|] in URL_DELIMS || OccursAt(rest, mark, |seg|)
    ensures SegmentAfter(url, mark) == seg
  {
    var rest := AfterFirst(url, mark);
    var r := SegmentAfter(url, mark);
    assert |r| == |seg|;
  }

  /** Which of the three URL shapes a candidate link has, with the text extracted from it. */
  datatype ChannelRef =
    | ChannelPath(id: string)
    | HandlePath(handle: string)
    | CustomPath(name: string)
    | Unrecognised

  /** The text a shape carries (empty for Unrecognised). */
  function RefText(r: ChannelRef): string {
    match r
    case ChannelPath(id) => id
    case HandlePath(h) => h
    case CustomPath(n) => n
    case Unrecognised => ""
  }

  /**
   * The shape tests of `resolveChannelId`, first match wins: `/channel/`, then `/@`,
   * then `youtube.com/`. The extracted text never holds a `/`, `?` or `#`.
   */
  function Classify(url: string): (r: ChannelRef)
    ensures r.ChannelPath? <==> Includes(url, CHANNEL_MARK)
    ensures r.HandlePath? <==> !Includes(url, CHANNEL_MARK) && Includes(url, HANDLE_MARK)
    ensures r.CustomPath? <==>
      !Includes(url, CHANNEL_MARK) && !Includes(url, HANDLE_MARK) && Includes(url, DOMAIN_MARK)
    ensures forall i :: 0 <= i < |RefText(r)| ==> RefText(r)[i] !in URL_DELIMS
  {
    if Includes(url, CHANNEL_MARK) then ChannelPath(SegmentAfter(url, CHANNEL_MARK))
    else if Includes(url, HANDLE_MARK) then HandlePath(SegmentAfter(url, HANDLE_MARK))
    else if Includes(url, DOMAIN_MARK) then CustomPath(SegmentAfter(url, DOMAIN_MARK))
    else Unrecognised
  }

  /** The first item's `snippet.channelId`, when every part of that path is present. */
  function FirstChannelId(items: seq<SearchItem>): Option<string> {
    if items == [] then None
    else match items[0].snippet
      case None => None
      case Some(sn) => sn.channelId
  }

  /**
   * `searchYouTubeChannel`: `item && item.snippet && item.snippet.channelId || null`.
   * A thrown call yields None too, because `resolveChannelId` catches it.
   */
  function SearchYouTubeChannel(reply: ApiReply): (r: Option<string>)
    ensures r.Some? ==> r.value != ""
    ensures r.Some? ==> reply.Reply? && reply.items.Some? && FirstChannelId(reply.items.value) == r
    ensures (reply.Reply? && reply.items.Some? && FirstChannelId(reply.items.value).Some?
             && FirstChannelId(reply.items.value).value != "") ==> r.Some?
  {
    match reply
    case Thrown => None
    case Reply(items) =>
      if items.None? then None
      else match FirstChannelId(items.value)
        case None => None
        case Some(id) => if id == "" then None else Some(id)
  }

  /**
   * `resolveChannelId`: a `/channel/` URL yields its id without any search; a
   * handle or custom name is searched for; anything else yields None (null).
   * `search` is the reply the channel search gives to each query.
   */
  function ResolveChannelId(url: string, search: string -> ApiReply): (r: Option<string>)
    ensures Includes(url, CHANNEL_MARK) ==> r == Some(Classify(url).id)
    ensures Classify(url).HandlePath? ==> r == SearchYouTubeChannel(search(Classify(url).handle))
    ensures Classify(url).CustomPath? ==> r == SearchYouTubeChannel(search(Classify(url).name))
    ensures Classify(url).Unrecognised? ==> r.None?
    ensures r.Some? ==> (r.value == "" ==> Includes(url, CHANNEL_MARK))
  {
    match Classify(url)
    case ChannelPath(id) => Some(id)
    case HandlePath(handle) => SearchYouTubeChannel(search(handle))
    case CustomPath(name) => SearchYouTubeChannel(search(name))
    case Unrecognised => None
  }

  /**
   * `checkIfLive`: `Array.isArray(items) && items.length > 0`; None stands for
   * the thrown error, which the handler does not catch locally.
   */
  function CheckIfLive(reply: ApiReply): (r: Option<bool>)
    ensures r.None? <==> reply.Thrown?
    ensures r == Some(true) <==> reply.Reply? && reply.items.Some? && |reply.items.value| > 0
  {
    match reply
    case Thrown => None
    case Reply(items) => Some(items.Some? && |items.value| > 0)
  }

  /**
   * `url.split(mark)[1].split(/[/?#]/)[0]` picks out `seg` when `url` is
   * `prefix + mark + seg + tail`, `mark` first occurs after `prefix`, `mark`
   * starts with `/`, `seg` holds no delimiter and `tail` is empty or starts with one.
   */
  lemma {:induction false} SegmentAfterPicksSegment(url: string, mark: string, prefix: string, seg: string, tail: string)
    requires mark != [] && mark[0] == '/'
    requires url == prefix + mark + seg + tail
    requires forall j :: 0 <= j < |prefix| ==> !OccursAt(url, mark, j)
    requires forall i :: 0 <= i < |seg| ==> seg[i] !in URL_DELIMS
    requires tail == [] || tail[0] in URL_DELIMS
    ensures Includes(url, mark) && SegmentAfter(url, mark) == seg
  {
    assert url[|prefix|..|prefix| + |mark|] == mark;
    assert OccursAt(url, mark, |prefix|);
    var rest := AfterFirst(url, mark);
    assert |url| - |rest| - |mark| == |prefix|;
    assert rest == seg + tail;
    CutAtSplitHead(rest, mark, URL_DELIMS);
    CutAtUnique(rest, URL_DELIMS, seg);
  }

  /** A `/channel/<id>` URL resolves to exactly `id`, whatever the search would answer. */
  lemma DirectIdExtracted(url: string, prefix: string, id: string, tail: string, search: string -> ApiReply)
    requires url == prefix + CHANNEL_MARK + id + tail
    requires forall j :: 0 <= j < |prefix| ==> !OccursAt(url, CHANNEL_MARK, j)
    requires forall i :: 0 <= i < |id| ==> id[i] !in URL_DELIMS
    requires tail == [] || tail[0] in URL_DELIMS
    ensures ResolveChannelId(url, search) == Some(id)
  {
    SegmentAfterPicksSegment(url, CHANNEL_MARK, prefix, id, tail);
  }

  /** A `/@<handle>` URL without `/channel/` resolves to what the search for `handle` returns. */
  lemma HandleSearched(url: string, prefix: string, handle: string, tail: string, search: string -> ApiReply)
    requires url == prefix + HANDLE_MARK + handle + tail
    requires !Includes(url, CHANNEL_MARK)
    requires forall j :: 0 <= j < |prefix| ==> !OccursAt(url, HANDLE_MARK, j)
    requires forall i :: 0 <= i < |handle| ==> handle[i] !in URL_DELIMS
    requires tail == [] || tail[0] in URL_DELIMS
    ensures ResolveChannelId(url, search) == SearchYouTubeChannel(search(handle))
  {
    SegmentAfterPicksSegment(url, HANDLE_MARK, prefix, handle, tail);
  }

  /** An occurrence in a suffix of `s` is an occurrence in `s`, shifted. */
  lemma OccursInSuffix(s: string, start: nat, sub: string, j: nat)
    requires start <= |s|
    ensures OccursAt(s[start..], sub, j) <==> OccursAt(s, sub, start + j)
  {
    if start + j + |sub| <= |s| {
      assert s[start..][j..j + |sub|] == s[start + j..start + j + |sub|];
    }
  }

  /**
   * A `youtube.com/<name>` URL with neither `/channel/` nor `/@` resolves to what
   * the search for `name` returns; `name` ends at a delimiter, the end, or the
   * next `youtube.com/`.
   */
  lemma CustomNameSearched(url: string, prefix: string, name: string, tail: string, search: string -> ApiReply)
    requires url == prefix + DOMAIN_MARK + name + tail
    requires !Includes(url, CHANNEL_MARK) && !Includes(url, HANDLE_MARK)
    requires forall j :: 0 <= j < |prefix| ==> !OccursAt(url, DOMAIN_MARK, j)
    requires forall j :: |prefix| + |DOMAIN_MARK| <= j < |prefix| + |DOMAIN_MARK| + |name| ==> !OccursAt(url, DOMAIN_MARK, j)
    requires forall i :: 0 <= i < |name| ==> name[i] !in URL_DELIMS
    requires tail == [] || tail[0] in URL_DELIMS || OccursAt(url, DOMAIN_MARK, |prefix| + |DOMAIN_MARK| + |name|)
    ensures ResolveChannelId(url, search) == SearchYouTubeChannel(search(name))
  {
    var start := |prefix| + |DOMAIN_MARK|;
    AfterFirstOfPrefix(url, prefix, DOMAIN_MARK, name + tail);
    var rest := AfterFirst(url, DOMAIN_MARK);
    assert rest == url[start..];
    forall j | 0 <= j < |name| ensures !OccursAt(rest, DOMAIN_MARK, j) {
      OccursInSuffix(url, start, DOMAIN_MARK, j);
    }
    OccursInSuffix(url, start, DOMAIN_MARK, |name|);
    SegmentAfterUnique(url, DOMAIN_MARK, name);
  }

  /** `https://youtube.com/fooyoutube.com/x`. */
  const REPEATED_DOMAIN_URL: string := "https://" + DOMAIN_MARK + "foo" + DOMAIN_MARK + "x"

  /** `https://youtube.com/fooyoutube.com/x` is cut at its second `youtube.com/`: `foo` is searched. */
  lemma RepeatedDomainCutsName(search: string -> ApiReply)
    ensures ResolveChannelId(REPEATED_DOMAIN_URL, search) == SearchYouTubeChannel(search("foo"))
  {
    var scheme, tail := "https://", DOMAIN_MARK + "x";
    var url := scheme + DOMAIN_MARK + "foo" + tail;
    assert url == REPEATED_DOMAIN_URL;
    assert !Includes(url, CHANNEL_MARK) && !Includes(url, HANDLE_MARK) by {
      assert 'a' !in url && '@' !in url;
      MissingCharExcludes(url, CHANNEL_MARK, 3);
      MissingCharExcludes(url, HANDLE_MARK, 1);
    }
    assert forall j :: 0 <= j < 8 ==> !OccursAt(url, DOMAIN_MARK, j) by {
      assert url[..8] == scheme;
      NoOccurrenceBefore(url, DOMAIN_MARK, 0, 8);
    }
    assert forall j :: 20 <= j < 23 ==> !OccursAt(url, DOMAIN_MARK, j) by {
      var rest := url[20..];
      assert rest == "foo" + tail && rest[..3] == "foo";
      NoOccurrenceBefore(rest, DOMAIN_MARK, 0, 3);
      forall j | 20 <= j < 23 ensures !OccursAt(url, DOMAIN_MARK, j) {
        OccursInSuffix(url, 20, DOMAIN_MARK, j - 20);
      }
    }
    assert OccursAt(url, DOMAIN_MARK, 23) by {
      assert url[23..35] == DOMAIN_MARK;
    }
    CustomNameSearched(url, scheme, "foo", tail, search);
  }

  /** A handle whose search has no usable first hit (or throws) is not found. */
  lemma UnresolvableHandleNotFound(url: string, search: string -> ApiReply)
    requires Classify(url).HandlePath?
    requires search(Classify(url).handle).Thrown?
      || search(Classify(url).handle).items.None?
      || FirstChannelId(search(Classify(url).handle).items.value).None?
      || FirstChannelId(search(Classify(url).handle).items.value) == Some("")
    ensures ResolveChannelId(url, search).None?
  {
  }

  /** `https://youtube.com/channel/XYZ`. */
  const EXAMPLE_CHANNEL_URL: string := "https://youtube.com" + CHANNEL_MARK + "XYZ"

  /** A concrete direct-id link: `https://youtube.com/channel/XYZ` resolves to `XYZ`. */
  lemma ExampleChannelUrlResolves(search: string -> ApiReply)
    ensures ResolveChannelId(EXAMPLE_CHANNEL_URL, search) == Some("XYZ")
  {
    var prefix := "https://youtube.com";
    var url := prefix + CHANNEL_MARK + "XYZ";
    assert forall j :: 0 <= j < |prefix| ==> !OccursAt(url, CHANNEL_MARK, j) by {
      assert url[..22] == prefix + "/ch";
      NoOccurrenceBefore(url, CHANNEL_MARK, 3, 19);
    }
    DirectIdExtracted(url, prefix, "XYZ", "", search);
  }
}
