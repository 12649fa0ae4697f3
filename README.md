# YouRoute: a Dafny model of the channel lookup service and the page watcher

YouRoute shows a banner on a Twitch channel page when the same streamer is also
live on YouTube. It has two halves, and this project models the decision logic
of both.

- **The `checkStreamer` lookup service** (`functions/index.js`). It is an HTTP
  handler with four stages:
  - a per-IP daily quota, kept in the `ipUsage` collection and enforced by a
    Firestore transaction with lazy day rollover;
  - validation of the `twitch` and `ytUrl` parameters;
  - a one-week cache of resolved channels in the `streamerLinks` collection;
  - channel-id resolution (`resolveChannelId`), the live check (`checkIfLive`)
    and a whole-record write.

  Each exit has its own status code: 429, 400, 200 from the cache, 404, 200
  after a refresh, or 500.
- **The content script** (`content.js`). On every poll it:
  - reads the channel name from the page path;
  - skips the name it last acted on (`lastChannel`);
  - applies a local daily cap (`youroute-usage`, a date→count map) and a
    seven-day local cache (`youroute-cache`, a name→entry map);
  - picks the most likely YouTube link on the page (`pickBestYoutubeLink`) and
    strips its query and fragment;
  - calls the service and stores its answer.

Module layout:

- `wrappers.dfy` (`Wrappers`): `Option`, which stands for JavaScript's
  `null`/`undefined`, and map lookup.
- `text.dfy` (`Text`): the JavaScript string operations the code relies on.
  These are `indexOf`/`includes`, `split(sep)[0]`, the text after the first
  `sep`, `split(/[...]/)[0]`, `trim` and `toLowerCase`, each with a contract.
  `split(sep)[1]` is written as `split(sep)[0]` of the text after the first `sep`.
- `channel_resolver.dfy` (`ChannelResolver`): `resolveChannelId`,
  `searchYouTubeChannel` and `checkIfLive`. A YouTube search is a function
  parameter from the query to the reply it gets. A reply is either `Thrown` or
  the body's `items`.
- `streamer_lookup.dfy` (`StreamerLookup`): class `LookupService`, whose two
  map fields stand for the two Firestore collections. `CheckStreamer` is the
  handler, written with early returns and split into stages (`ChargeQuota`,
  `ValidateAndServe`, `ServeLookup`, `RefreshLookup`). Each stage is specified by
  a predicate (`Handled`, `Served`, `Refreshed`), and lemmas about those
  predicates state what every exit has in common. `RunQuotaTransaction` is the
  transaction body, modelled as one atomic step. Lemmas about the quota
  functions are in the same file.
- `content_script.dfy` (`ContentScript`): class `Watcher`, with `lastChannel`
  and the two `localStorage` maps as fields. `RunExtensionLogic` is one poll.
  The pure link picker, the path match and the URL strip are functions.

These values come from outside and are parameters of the model:
- the date string `today` and the clock `now` in milliseconds;
- the extension toggle;
- the page path and the page's YouTube links;
- the replies of the YouTube searches and of the service fetch;
- whether a Firestore operation throws (`StoreFaults`).

Behaviours of the code that the model keeps:
- The quota unit is spent before the parameters are validated. A request
  without `ytUrl` returns 400, and its `ipUsage` record is still written
  (functions/index.js:27-57).
- The link picker compares the whole lowercased link, not only its path, with
  `/<name>` and `<name>` (content.js:111-113).
- A search that throws inside `resolveChannelId` is caught there. The result is
  404, not 500. Only a live check that throws, or a store operation that throws,
  gives 500 (functions/index.js:133-136, 87, 106-108).
- The watcher has no retry by polling. `lastChannel` is set before the cap, the
  cache and the call. So a run that hits the cap, finds no links, or whose call
  fails is not repeated until the page changes to a different channel
  (content.js:35-36). There is no status check either: a 500 or 404 error body
  is stored in the local cache for seven days, with no live flag
  (content.js:84-94).

## Model

| member | source | states |
|---|---|---|
| `Text.IndexOf` | functions/index.js:121 | The result is the first position where the substring occurs; None means it occurs nowhere. |
| `Text.Includes` | functions/index.js:121-128 | `includes` holds exactly when some position holds an occurrence. |
| `Text.SplitHead` | functions/index.js:22 | `split(sep)[0]` is a prefix that stops at the first occurrence of `sep`: no occurrence starts inside it, and `sep` follows it when it is shorter than the input. It does not contain `sep`. |
| `Text.AfterFirst` | functions/index.js:122 | The text after the first occurrence of the separator: a suffix, with no earlier occurrence. |
| `Text.CutAt` | functions/index.js:122 | `split(/[...]/)[0]` is the longest prefix without a stop character: a prefix, stop-free, and followed by a stop or the end. |
| `Text.CutAtUnique` | functions/index.js:122 | Those three facts determine the cut. |
| `Text.CutAtSplitHead` | functions/index.js:122 | When the separator starts with a delimiter, `split(sep)[1].split(/[/?#]/)[0]` is the rest cut at the first delimiter. |
| `Text.Trim` | functions/index.js:23 | `trim` returns a contiguous piece of the input. Only whitespace lies before and after it, and its ends are not whitespace. |
| `Text.TrimUnique` | functions/index.js:23 | Any piece of the input with only whitespace around it, non-empty and with no whitespace at its ends, is what `trim` returns. |
| `Text.TrimOfPadded` | functions/index.js:23 | `trim` of whitespace, then such a piece, then whitespace, is the piece. |
| `Text.TrimEmptyIffAllWhitespace` | functions/index.js:21-23 | `trim` gives the empty string exactly when the input is all whitespace, which is when `|| req.socket.remoteAddress` takes over. |
| `Text.ToLower` | functions/index.js:53 | Lowercasing keeps the length and maps each character. |
| `ChannelResolver.SegmentAfter` | functions/index.js:122 | `url.split(mark)[1].split(/[/?#]/)[0]`: a prefix of the text after the first `mark` that holds no `/`, `?` or `#` and no start of another `mark`. It is followed by a delimiter, by the next `mark`, or by the end. |
| `ChannelResolver.SegmentAfterUnique` | functions/index.js:122 | Those facts determine the segment: any string meeting them is the one extracted. |
| `ChannelResolver.Classify` | functions/index.js:121-132 | URL shapes are tested in precedence order, each an if-and-only-if: `/channel/`, then `/@` without `/channel/`, then `youtube.com/` without either. Otherwise the URL is unrecognised. Extracted text holds no delimiter. |
| `ChannelResolver.SearchYouTubeChannel` | functions/index.js:144-151 | Yields the first item's `snippet.channelId` when items, item, snippet and id are all present and the id is non-empty. Otherwise null, which covers a thrown call. |
| `ChannelResolver.ResolveChannelId` | functions/index.js:119-137 | A `/channel/` URL gives the extracted id with no search. A handle URL gives the search's answer for the extracted handle, and a custom URL the answer for the extracted name (see `HandleSearched` and `CustomNameSearched` for which text that is). An unrecognised URL gives null. Only the direct path can give an empty id. |
| `ChannelResolver.CheckIfLive` | functions/index.js:158-164 | True iff `items` is an array and is non-empty. None iff the call throws. |
| `ChannelResolver.SegmentAfterPicksSegment` | functions/index.js:122-124 | For `prefix + mark + seg + tail`, with the first mark after the prefix, a delimiter-free `seg` and `tail` empty or starting with a delimiter, the extraction yields exactly `seg`. |
| `ChannelResolver.DirectIdExtracted` | functions/index.js:121-122 | A `/channel/<id>` URL resolves to exactly `id`, whatever search is given. |
| `ChannelResolver.HandleSearched` | functions/index.js:123-125 | A `/@<handle>` URL without `/channel/` resolves to the search result for exactly `handle`. |
| `ChannelResolver.CustomNameSearched` | functions/index.js:126-131 | A `youtube.com/<name>` URL without `/channel/` or `/@` resolves to the search result for exactly `name`. Here `youtube.com/` first occurs right before `name`, `name` is delimiter-free and holds no start of another `youtube.com/`, and `name` is followed by the end, a delimiter or the next `youtube.com/`. |
| `ChannelResolver.RepeatedDomainCutsName` | functions/index.js:127-130 | `https://youtube.com/fooyoutube.com/x` searches for `foo`: `split("youtube.com/")[1]` stops at the second `youtube.com/`. |
| `ChannelResolver.UnresolvableHandleNotFound` | functions/index.js:123-125 | A handle whose search throws, lacks `items`, has no usable first hit, or whose first hit has an empty `channelId`, resolves to null. |
| `ChannelResolver.ExampleChannelUrlResolves` | functions/index.js:121-122 | `https://youtube.com/channel/XYZ` resolves to `XYZ`. |
| `StreamerLookup.ClientIp` | functions/index.js:21-23 | When the first comma-separated entry of `x-forwarded-for` has a non-whitespace character, the key is that entry with all the whitespace around it removed: it sits in the entry with only whitespace before and after it, and neither of its ends is whitespace. It is also non-empty, comma-free, and a substring of the header. When that entry is only whitespace (or the header is absent), the key is the socket address. |
| `StreamerLookup.FirstEntryDeterminesKey` | functions/index.js:21-23 | Any key meeting that description is the one `ClientIp` gives, so the contract fixes the key. |
| `StreamerLookup.ClientIpWithoutHeader` | functions/index.js:21-23 | Without the header, the key is the socket address. |
| `StreamerLookup.ClientIpFromProxyChain` | functions/index.js:21-23 | The header ` 1.2.3.4 , 5.6.7.8` gives the key `1.2.3.4`: its first entry, trimmed. |
| `StreamerLookup.Rollover` | functions/index.js:30-36 | The effective record is dated today. A missing record, or one dated another day, counts 0. A record dated today is kept as is. |
| `StreamerLookup.Admission` | functions/index.js:38-42 | Admits iff the effective count is below DAILY_LIMIT (10). The written record is `{today, effective+1}`, so its count never exceeds the limit. |
| `StreamerLookup.ValidateParams` | functions/index.js:53-57 | Accepts iff `twitch` and `ytUrl` are both present and non-empty, with `twitch` lowercased. |
| `StreamerLookup.HoursSinceAgrees` | functions/index.js:67-69 | The fractional-hours test `(now - lastChecked) / 3600000 < 168` agrees with the integer test `now - lastChecked < 604800000` ms. |
| `StreamerLookup.FreshnessWindow` | functions/index.js:12 | A record six days old is fresh, and one eight days old is stale. |
| `StreamerLookup.CachedBody` | functions/index.js:70-76 | A cache hit returns `cached: true` with the stored `youtubeUrl` and `channelId`. `isLive` is true only when `isLiveCached` is true, so a missing value gives false. |
| `StreamerLookup.LookupService.RunQuotaTransaction` | functions/index.js:28-43 | A store fault or a refusal leaves `ipUsage` unchanged. Admission, exactly when `Admission` admits, writes only the caller's record. |
| `StreamerLookup.LookupService.ChargeQuota` | functions/index.js:21-50 | The quota step for the caller's key: `TransactionFailed` on a store fault, `DailyLimitExceeded` when `Admission` refuses, and admission exactly when `Admits` holds, in which case only that key's record is rewritten. Counts stay within the limit. |
| `StreamerLookup.LookupService.CheckStreamer` | functions/index.js:15-110 | The exits, in order, and the state after each: 500 on a quota-store fault and 429 at the limit, both with `ipUsage` untouched; otherwise one quota unit is spent. Then 400 for missing parameters; 500 on a cache-read fault; 200 `cached: true` for a fresh record; 404 for a null or empty id; 500 for a failed live check or cache write; otherwise 200 `cached: false` with `youtubeUrl = ytUrl` and a whole-record write. `streamerLinks` changes only on that last path. The status is always 200, 400, 404, 429 or 500. Both stores' invariants are kept. |
| `StreamerLookup.LookupService.ValidateAndServe` | functions/index.js:53-109 | `Handled`: missing or empty `twitch`/`ytUrl` gives 400 with `streamerLinks` untouched; otherwise the lowercased name and the URL go to the cache-and-resolve stage (`Served`). |
| `StreamerLookup.LookupService.ServeLookup` | functions/index.js:59-78 | `Served`: 500 on a read fault with nothing written; the stored record as is, with `cached: true`, when it is younger than a week; otherwise the refresh stage (`Refreshed`). |
| `StreamerLookup.LookupService.RefreshLookup` | functions/index.js:80-105 | `Refreshed`: 404 for a null or empty id; 500 when the live search throws or the write fails, with nothing written; otherwise the record `{twitch, channelId, youtubeUrl: ytUrl, verified: true, isLiveCached, lastChecked: now}` is written whole and returned with `cached: false`. |
| `StreamerLookup.RefreshedWrite` | functions/index.js:80-105 | Every exit of the refresh stage is 200, 404 or 500. Records stay keyed by their own Twitch name. Any change is the one whole-record write under `twitch` with a non-empty id, and the 200 `cached: false` answer reports it. |
| `StreamerLookup.ServedWrite` | functions/index.js:59-109 | The same three facts for the whole cache-and-resolve stage, cache hits and read faults included. |
| `StreamerLookup.HandledWrite` | functions/index.js:53-109 | Once the quota admitted: the status is 200, 400, 404 or 500, records stay keyed by their name, and a change is only the whole-record write for the requested `ytUrl` that an uncached 200 answer reports. |
| `StreamerLookup.AdmitManyCount` | functions/index.js:28-43 | Take `n` same-day requests handled one after another, starting from effective count `c`. Exactly `min(n, max(0, 10 - c))` are admitted, and the stored count becomes `c` plus that number. |
| `StreamerLookup.AdmitManyFromNewDay` | functions/index.js:30-42 | From a new day (no record, or one dated another day), `n` requests admit `min(n, 10)` and leave that count stored. |
| `StreamerLookup.RepeatLookupServedFromCache` | functions/index.js:59-105 | First request for `foo` with `/channel/XYZ`: 200 with `channelId XYZ` and `cached: false`. A second request within the week: 200 `cached: true` with the same URL and id, even when every external call would throw. |
| `StreamerLookup.LookupNewStreamer` | functions/index.js:79-105 | On empty stores, the example request resolves `/channel/XYZ`, stores the record dated 1000 under `foo`, spends one quota unit, and answers 200 `cached: false`. |
| `StreamerLookup.LookupCachedStreamer` | functions/index.js:64-77 | With that record stored, the same request a second later answers from the record with `cached: true`, although every external call would throw. |
| `ContentScript.MatchTwitchUsername` | content.js:33-34 | A name is found iff the path is `/` followed by one or more `[A-Za-z0-9_]` and nothing else. The name is that text lowercased, so it uses only `[a-z0-9_]`. |
| `ContentScript.FindIncluding` | content.js:111-113 | `find` returns the first link whose lowercased text includes the needle. None means no link does. |
| `ContentScript.PickBestYoutubeLink` | content.js:109-116 | On a non-empty list the result is always an element of `links`. On an empty list there is none. |
| `ContentScript.PickPrefersPathMatch` | content.js:110-112 | The first link containing `/<user>`, case-insensitively, is chosen. |
| `ContentScript.PickFallsBackToNameMatch` | content.js:113-114 | With no `/<user>` link, the first link containing `<user>` is chosen. |
| `ContentScript.PickFallsBackToFirst` | content.js:115 | With no link containing `<user>`, `links[0]` is chosen. |
| `ContentScript.PickIgnoresNameCase` | content.js:110 | The picker lowercases the name itself, so a name and its lowercased form pick the same link. |
| `ContentScript.StripQueryAndHash` | content.js:73 | The link is cut before its first `?` or `#`. The result is a prefix holding neither character. |
| `ContentScript.TodayCount` | content.js:42 | `usage[today]`, with a missing entry counting 0. |
| `ContentScript.BannerFor` | content.js:54 | The banner is shown iff the live flag is `true`, and it carries the entry's URL. |
| `ContentScript.Watcher.RunExtensionLogic` | content.js:24-101 | When disabled, or on a non-channel path or the same channel, nothing changes. Otherwise `lastChannel` is set first. At `usage[today] >= 10`: no call, storage unchanged. On a cache entry younger than 7 days: no call, banner iff its `isLive`. No links, or an empty chosen link: stop. Otherwise the query is (name, stripped best link). A thrown fetch changes neither map. A parsed reply, even an error body, sets only `usage[today]` to count+1 and only `localCache[name]` to the whole new entry. |
| `ContentScript.Watcher.LookUpChannel` | content.js:39-100 | The stages after a new channel name: the local cap, the seven-day cache, the link choice, the stripped query, and the update of both maps only on a parsed reply. No day's count is pushed above 10. |
| `ContentScript.Watcher.AskService` | content.js:58-100 | The stage after the cap and the cache: no links stops with `NoLinks`, an empty chosen link with `NoUsableLink`. Otherwise the query is (name, best link without query and fragment). A thrown fetch gives no banner and changes neither map. A parsed reply, even an error body, sets `usage[today]` to the count plus one and `localCache[name]` to the whole new entry, and shows the banner iff its `isLive` is true. |
| `ContentScript.PollSamePageTwice` | content.js:35-36 | A second poll of the same channel page stops at the channel-change check, whatever the first poll did. |

## Left out

- `popup.js`: the toggle UI. Its stored flag is the `enabled` parameter of `RunExtensionLogic`.
- `showBanner` and `waitForDOM` (DOM construction and `setTimeout` polling). A banner is a `Banner` value in the result. The links are the ones found after the wait.
- The `setInterval` schedule, and `getEnabled`'s storage callback.
- The HTTP requests themselves: `fetch`, `axios.get`, and URL/query building with `encodeURIComponent` and `URLSearchParams`. Their outcomes are parameters.
- Firestore concurrency, contention retries and the isolation of the transaction. Each transaction is one atomic step. `AdmitManyCount` covers only requests handled one after another.
- Parsing of clocks and dates. `today` is an opaque string, and `now` and `lastChecked` are integer milliseconds. So an unparsable stored `lastChecked` (NaN, which never counts as fresh) is not modelled.
- Express/CORS header setup, module initialisation, logging, and JSON (de)serialisation of `localStorage`.
- JavaScript values of unexpected types: array-valued query parameters, non-numeric stored counts, null array entries, non-boolean `isLive`, and an undefined `remoteAddress`.
- Races between runs of the watcher. Browser tabs share `localStorage`. Within one tab, `setInterval` (content.js:178) starts a new run while an earlier one is still waiting at `waitForDOM` or `fetch` (content.js:59, 77), for example after a channel change. Both runs read `usage` and `localCache` before either writes, so one increment or one cache entry is lost. Each `RunExtensionLogic` call is one atomic step here.
- Text.ToLower: maps only the ASCII letters A-Z. Full Unicode case mapping, which can also change the length, is not modelled. The watcher's names are ASCII by the path pattern, so there it affects only the case-insensitive comparison of non-ASCII link text. The service, though, lowercases the `twitch` parameter of any caller (functions/index.js:53). For `twitch=ÉRIC` JavaScript gives `éric` and the model gives `Éric`, so the `streamerLinks` key and the answer's `twitch` differ from the service's.
- StreamerLookup.HoursSinceAgrees: states the fractional-hours test over exact reals, not IEEE doubles.
- Firestore document-id rules. `db.collection("ipUsage").doc(ip)` (functions/index.js:25) runs before the `try`, so a first `x-forwarded-for` entry such as `a/b` makes the handler throw without a JSON answer. `ClientIp` accepts any such key. `.doc(twitch)` (functions/index.js:61) reads `twitch` as a `/`-separated document path. An even number of parts (such as `a/b`) or an empty part (such as `a//b`) throws inside the `try`, giving 500. The model reaches that 500 only through the `cacheRead` fault of `StoreFaults`. An odd number of parts (such as `a/b/c`) names a nested document and behaves like any other key, as in the model. A leading or trailing `/` is dropped, so `a/` and `a` share one record, which the model keeps apart.
- Strings are sequences of Unicode scalar values, not of UTF-16 code units. A character outside the Basic Multilingual Plane is one `char` here and two code units in JavaScript, and a lone surrogate cannot occur at all. For such text the model's positions and lengths differ from JavaScript's.
