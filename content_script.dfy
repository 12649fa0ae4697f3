/**
 * The watcher that runs on every poll of a Twitch page: it detects the channel
 * name from the page path, applies a local daily cap and a seven-day local cache,
 * picks the most likely YouTube link on the page and asks the lookup service
 * about it. Extension storage, the page's links, the clock and the service's
 * reply are inputs; `localStorage` is two maps held by a `Watcher`.
 */
module ContentScript {
  import opened Wrappers
  import opened Text

  const CACHE_DAYS: int := 7
  /** Service calls the watcher makes per calendar day. */
  const DAILY_LIMIT: int := 10
  /** Seven days in milliseconds. */
  const CACHE_TTL_MS: int := CACHE_DAYS * 24 * 60 * 60 * 1000

  /** The class `[a-zA-Z0-9_]`. */
  predicate IsWordChar(c: char) {
    ('a' <= c <= 'z') || ('A' <= c <= 'Z') || ('0' <= c <= '9') || c == '_'
  }

  /** A character of a lowercased Twitch name. */
  predicate IsNameChar(c: char) {
    ('a' <= c <= 'z') || ('0' <= c <= '9') || c == '_'
  }

  /**
   * The channel name on a page: the path must be `/` followed by one or more
   * word characters and nothing else; the name comes back lowercased.
   */
  function MatchTwitchUsername(path: string): (r: Option<string>)
    ensures r.Some? <==> |path| >= 2 && path[0] == '/' && forall i :: 1 <= i < |path| ==> IsWordChar(path[i])
    ensures r.Some? ==> |r.value| == |path| - 1 && r.value == ToLower(path[1..])
    ensures r.Some? ==> forall i :: 0 <= i < |r.value| ==> IsNameChar(r.value[i])
  {
    if |path| >= 2 && path[0] == '/' && forall i :: 1 <= i < |path| ==> IsWordChar(path[i])
    then Some(ToLower(path[1..]))
    else None
  }

  /** `links[k]` is the first link whose lowercased text includes `needle`. */
  predicate FirstMatch(links: seq<string>, needle: string, k: int) {
    && 0 <= k < |links|
    && Includes(ToLower(links[k]), needle)
    && forall j :: 0 <= j < k ==> !Includes(ToLower(links[j]), needle)
  }

  /** `links.findIndex(l => l.toLowerCase().includes(needle))`, with None for -1. */
  function FindIncluding(links: seq<string>, needle: string): (r: Option<nat>)
    ensures r.Some? ==> FirstMatch(links, needle, r.value)
    ensures r.None? ==> forall j :: 0 <= j < |links| ==> !Includes(ToLower(links[j]), needle)
  {
    if links == [] then None
    else if Includes(ToLower(links[0]), needle) then Some(0)
    else
      var rest := FindIncluding(links[1..], needle);
      if rest.None? then None
      else
        assert forall j :: 1 <= j < |links| ==> links[1..][j - 1] == links[j];
        Some(rest.value + 1)
  }

  /**
   * `pickBestYoutubeLink`: the first link containing `/<user>`, else the first
   * containing `<user>`, else the first link, all compared in lower case.
   * A found link that is the empty string is falsy and falls through, as `if (exact)` and `if (partial)` do.
   */
  function PickBestYoutubeLink(links: seq<string>, user: string): (r: Option<string>)
    ensures r.Some? <==> links != []
    ensures r.Some? ==> r.value in links
  {
    var lower := ToLower(user);
    var exact := FindIncluding(links, "/" + lower);
    if exact.Some? && links[exact.value] != "" then Some(links[exact.value])
    else
      var partial := FindIncluding(links, lower);
      if partial.Some? && links[partial.value] != "" then Some(links[partial.value])
      else if links == [] then None
      else Some(links[0])
  }

  /** Only the empty needle is included in the empty string. */
  lemma EmptyIncludesOnlyEmpty(needle: string)
    requires Includes(ToLower(""), needle)
    ensures needle == ""
  {
    var i :| OccursAt(ToLower(""), needle, i);
  }

  /** The first match, when there is one, is unique. */
  lemma FirstMatchUnique(links: seq<string>, needle: string, k1: int, k2: int)
    requires FirstMatch(links, needle, k1) && FirstMatch(links, needle, k2)
    ensures k1 == k2
  {
  }

  /** First tier of `pickBestYoutubeLink`: the first link containing `/<user>` wins. */
  lemma PickPrefersPathMatch(links: seq<string>, user: string, k: int)
    requires FirstMatch(links, "/" + ToLower(user), k)
    ensures PickBestYoutubeLink(links, user) == Some(links[k])
  {
    var exact := FindIncluding(links, "/" + ToLower(user));
    FirstMatchUnique(links, "/" + ToLower(user), k, exact.value);
    if links[k] == "" {
      EmptyIncludesOnlyEmpty("/" + ToLower(user));
    }
  }

  /** Second tier: with no link containing `/<user>`, the first link containing `<user>` wins. */
  lemma PickFallsBackToNameMatch(links: seq<string>, user: string, k: int)
    requires forall j :: 0 <= j < |links| ==> !Includes(ToLower(links[j]), "/" + ToLower(user))
    requires FirstMatch(links, ToLower(user), k)
    ensures PickBestYoutubeLink(links, user) == Some(links[k])
  {
    var lower := ToLower(user);
    var partial := FindIncluding(links, lower);
    FirstMatchUnique(links, lower, k, partial.value);
    if links[k] == "" {
      EmptyIncludesOnlyEmpty(lower);
      assert OccursAt(ToLower(links[0]), lower, 0);
    }
  }

  /** Third tier: with no link containing `<user>` at all, the first link is chosen. */
  lemma PickFallsBackToFirst(links: seq<string>, user: string)
    requires links != []
    requires forall j :: 0 <= j < |links| ==> !Includes(ToLower(links[j]), ToLower(user))
    ensures PickBestYoutubeLink(links, user) == Some(links[0])
  {
    var lower := ToLower(user);
    var exact := FindIncluding(links, "/" + lower);
    if exact.Some? {
      IncludesTail(ToLower(links[exact.value]), "/", lower);
    }
  }

  /** A string that includes `head + tail` includes `tail`. */
  lemma IncludesTail(s: string, head: string, tail: string)
    requires Includes(s, head + tail)
    ensures Includes(s, tail)
  {
    var i :| OccursAt(s, head + tail, i);
    assert s[i + |head|..i + |head| + |tail|] == (head + tail)[|head|..];
    assert OccursAt(s, tail, i + |head|);
  }

  /**
   * The watcher passes a name it has already lowercased; lowercasing it again
   * inside `pickBestYoutubeLink` changes nothing.
   */
  lemma PickIgnoresNameCase(links: seq<string>, user: string)
    ensures PickBestYoutubeLink(links, ToLower(user)) == PickBestYoutubeLink(links, user)
  {
    ToLowerIdempotent(user);
  }

  /** `url.split(/[?#]/)[0]`: the link without its query and fragment. */
  function StripQueryAndHash(url: string): (r: string)
    ensures r <= url
    ensures '?' !in r && '#' !in r
    ensures |r| < |url| ==> url[|r|] == '?' || url[|r|] == '#'
  {
    CutAt(url, {'?', '#'})
  }

  /** A `youroute-cache` entry. */
  datatype CacheEntry = CacheEntry(
    youtubeUrl: Option<string>,
    isLive: Option<bool>,
    channelId: Option<string>,
    lastChecked: int)

  /** The fields of the service's JSON reply the watcher reads; an error body has none of them. */
  datatype ServiceReply = ServiceReply(youtubeUrl: Option<string>, isLive: Option<bool>, channelId: Option<string>)

  /** The fetch of the service and the parse of its body: a reply, or a thrown error. */
  datatype FetchOutcome = Threw | Parsed(reply: ServiceReply)

  /** The two query parameters sent to the lookup service. */
  datatype ServiceQuery = ServiceQuery(twitch: string, ytUrl: string)

  datatype Banner = NoBanner | ShowBanner(youtubeUrl: Option<string>)

  /** Where one run of the watcher stopped. */
  datatype RunResult =
    | Off
    | NotAChannel
    | SameChannel
    | LocalLimitReached
    | CacheUsed(banner: Banner)
    | NoLinks
    | NoUsableLink
    | Called(query: ServiceQuery, banner: Banner)

  /** `usage[today] || 0`. */
  function TodayCount(usage: map<string, int>, today: string): (n: int)
    ensures today in usage ==> n == usage[today]
    ensures today !in usage ==> n == 0
  {
    Get(usage, today).GetOr(0)
  }

  /** The cached entry for `user` is younger than seven days. */
  predicate CacheFresh(localCache: map<string, CacheEntry>, user: string, now: int) {
    user in localCache && now - localCache[user].lastChecked < CACHE_TTL_MS
  }

  /** The banner for a live flag: shown only when the flag is `true`. */
  function BannerFor(isLive: Option<bool>, youtubeUrl: Option<string>): (b: Banner)
    ensures b.ShowBanner? <==> isLive == Some(true)
    ensures b.ShowBanner? ==> b.youtubeUrl == youtubeUrl
  {
    if isLive == Some(true) then ShowBanner(youtubeUrl) else NoBanner
  }

  /** The run gets past the enabled check and the channel-change check. */
  predicate Proceeds(enabled: bool, path: string, lastChannel: Option<string>) {
    enabled && MatchTwitchUsername(path).Some? && MatchTwitchUsername(path) != lastChannel
  }

  class Watcher {
    /** The last channel name acted on, module state of the content script. */
    var lastChannel: Option<string>
    /** The `youroute-usage` store: date string to number of service calls that day. */
    var usage: map<string, int>
    /** The `youroute-cache` store: channel name to the service's last answer. */
    var localCache: map<string, CacheEntry>

    /**
     * What the watcher's writes keep true: no day's usage is above the daily
     * limit, and the remembered channel is a lowercased Twitch name.
     */
    ghost predicate Valid()
      reads this
    {
      && (forall d :: d in usage ==> usage[d] <= DAILY_LIMIT)
      && (lastChannel.Some? ==> forall i :: 0 <= i < |lastChannel.value| ==> IsNameChar(lastChannel.value[i]))
    }

    /** A freshly loaded content script over whatever `localStorage` already holds. */
    constructor (usage: map<string, int>, localCache: map<string, CacheEntry>)
      requires forall d :: d in usage ==> usage[d] <= DAILY_LIMIT
      ensures this.lastChannel == None && this.usage == usage && this.localCache == localCache
      ensures Valid()
    {
      this.lastChannel := None;
      this.usage := usage;
      this.localCache := localCache;
    }

    /**
     * One poll (`runExtensionLogic`). `enabled` is the stored toggle, `path` the
     * page path, `links` the YouTube links on the page once it has loaded, and
     * `outcome` what fetching and parsing the service's reply gives.
     */
    method RunExtensionLogic(enabled: bool, path: string, today: string, now: int,
                             links: seq<string>, outcome: FetchOutcome) returns (r: RunResult)
      modifies this
      ensures old(Valid()) ==> Valid()
      ensures !enabled ==> r == Off
      ensures enabled && MatchTwitchUsername(path).None? ==> r == NotAChannel
      ensures enabled && MatchTwitchUsername(path).Some? && MatchTwitchUsername(path) == old(lastChannel) ==>
        r == SameChannel
      ensures lastChannel == (if Proceeds(enabled, path, old(lastChannel)) then MatchTwitchUsername(path) else old(lastChannel))
      ensures !(r.Called? && outcome.Parsed?) ==> usage == old(usage) && localCache == old(localCache)
      ensures Proceeds(enabled, path, old(lastChannel)) ==>
        var user := MatchTwitchUsername(path).value;
        var count := TodayCount(old(usage), today);
        if count >= DAILY_LIMIT then
          r == LocalLimitReached
        else if CacheFresh(old(localCache), user, now) then
          r == CacheUsed(BannerFor(old(localCache)[user].isLive, old(localCache)[user].youtubeUrl))
        else if links == [] then
          r == NoLinks
        else
          var best := PickBestYoutubeLink(links, user).value;
          if best == "" then
            r == NoUsableLink
          else
            var query := ServiceQuery(user, StripQueryAndHash(best));
            match outcome
            case Threw => r == Called(query, NoBanner)
            case Parsed(reply) =>
              && r == Called(query, BannerFor(reply.isLive, reply.youtubeUrl))
              && usage == old(usage)[today := count + 1]
              && localCache == old(localCache)[user := CacheEntry(reply.youtubeUrl, reply.isLive, reply.channelId, now)]
    {
      if !enabled {
        return Off;
      }

      var match_ := MatchTwitchUsername(path);
      if match_.None? {
        return NotAChannel;
      }
      if match_ == lastChannel {
        return SameChannel;
      }
      lastChannel := match_;
      var twitchUsername := match_.value;
      assert forall i :: 0 <= i < |twitchUsername| ==> IsNameChar(twitchUsername[i]);

      r := LookUpChannel(twitchUsername, today, now, links, outcome);
    }

    /**
     * The part of a poll after a new channel name was taken: the local quota,
     * the seven-day cache, the link choice and the call to the service.
     */
    method LookUpChannel(user: string, today: string, now: int, links: seq<string>, outcome: FetchOutcome)
        returns (r: RunResult)
      modifies this`usage, this`localCache
      ensures (forall d :: d in old(usage) ==> old(usage)[d] <= DAILY_LIMIT) ==>
        forall d :: d in usage ==> usage[d] <= DAILY_LIMIT
      ensures !(r.Called? && outcome.Parsed?) ==> usage == old(usage) && localCache == old(localCache)
      ensures var count := TodayCount(old(usage), today);
        if count >= DAILY_LIMIT then
          r == LocalLimitReached
        else if CacheFresh(old(localCache), user, now) then
          r == CacheUsed(BannerFor(old(localCache)[user].isLive, old(localCache)[user].youtubeUrl))
        else if links == [] then
          r == NoLinks
        else
          var best := PickBestYoutubeLink(links, user).value;
          if best == "" then
            r == NoUsableLink
          else
            var query := ServiceQuery(user, StripQueryAndHash(best));
            match outcome
            case Threw => r == Called(query, NoBanner)
            case Parsed(reply) =>
              && r == Called(query, BannerFor(reply.isLive, reply.youtubeUrl))
              && usage == old(usage)[today := count + 1]
              && localCache == old(localCache)[user := CacheEntry(reply.youtubeUrl, reply.isLive, reply.channelId, now)]
    {
      var todayCount := TodayCount(usage, today);
      if todayCount >= DAILY_LIMIT {
        return LocalLimitReached;
      }

      if user in localCache && now - localCache[user].lastChecked < CACHE_TTL_MS {
        var cached := localCache[user];
        return CacheUsed(BannerFor(cached.isLive, cached.youtubeUrl));
      }

      r := AskService(user, today, todayCount, now, links, outcome);
    }

    /**
     * The part of a poll past the quota and the cache: pick a link, ask the
     * service, and on a parsed reply count the call and cache the answer.
     */
    method AskService(user: string, today: string, todayCount: int, now: int, links: seq<string>,
                      outcome: FetchOutcome) returns (r: RunResult)
      modifies this`usage, this`localCache
      ensures !(r.Called? && outcome.Parsed?) ==> usage == old(usage) && localCache == old(localCache)
      ensures
        if links == [] then
          r == NoLinks
        else
          var best := PickBestYoutubeLink(links, user).value;
          if best == "" then
            r == NoUsableLink
          else
            var query := ServiceQuery(user, StripQueryAndHash(best));
            match outcome
            case Threw => r == Called(query, NoBanner)
            case Parsed(reply) =>
              && r == Called(query, BannerFor(reply.isLive, reply.youtubeUrl))
              && usage == old(usage)[today := todayCount + 1]
              && localCache == old(localCache)[user := CacheEntry(reply.youtubeUrl, reply.isLive, reply.channelId, now)]
    {
      if |links| == 0 {
        return NoLinks;
      }
      var bestLink := PickBestYoutubeLink(links, user);
      if bestLink.value == "" {
        return NoUsableLink;
      }
      var query := ServiceQuery(user, StripQueryAndHash(bestLink.value));

      match outcome {
        case Threw =>
          r := Called(query, NoBanner);
        case Parsed(data) =>
          usage := usage[today := todayCount + 1];
          localCache := localCache[user := CacheEntry(data.youtubeUrl, data.isLive, data.channelId, now)];
          r := Called(query, BannerFor(data.isLive, data.youtubeUrl));
      }
    }
  }

  /**
   * Two polls of the same channel page in a row: whatever the first did, the
   * second stops at the channel-change check.
   */
  method PollSamePageTwice(w: Watcher, path: string, today: string, now: int,
                           links: seq<string>, first: FetchOutcome, second: FetchOutcome)
      returns (r1: RunResult, r2: RunResult)
    requires MatchTwitchUsername(path).Some?
    modifies w
    ensures r2 == SameChannel
    ensures w.lastChannel == MatchTwitchUsername(path)
    ensures r1 == SameChannel <==> old(w.lastChannel) == MatchTwitchUsername(path)
  {
    r1 := w.RunExtensionLogic(true, path, today, now, links, first);
    ghost var usageAfterFirst, cacheAfterFirst := w.usage, w.localCache;
    r2 := w.RunExtensionLogic(true, path, today, now, links, second);
    assert w.usage == usageAfterFirst && w.localCache == cacheAfterFirst;
  }
}
