/**
 * The `checkStreamer` HTTP handler: a per-IP daily quota kept in the `ipUsage`
 * collection, parameter validation, a one-week cache of resolved channels in the
 * `streamerLinks` collection, then channel resolution, the live check and a
 * whole-record write. The two collections are maps; the quota transaction is one
 * atomic step on its map.
 */
module StreamerLookup {
  import opened Wrappers
  import opened Text
  import opened ChannelResolver

  /** Requests one IP may make per calendar day. */
  const DAILY_LIMIT: int := 10
  /** Age, in hours, below which a stored channel record is served as is. */
  const HOURS_TO_WAIT: int := 24 * 7
  const MS_PER_HOUR: int := 1000 * 60 * 60
  /** HOURS_TO_WAIT hours in milliseconds. */
  const FRESH_FOR_MS: int := HOURS_TO_WAIT * MS_PER_HOUR

  /** An `ipUsage` document. */
  datatype QuotaRecord = QuotaRecord(date: string, count: int)

  /** A `streamerLinks` document; `isLiveCached` may be missing from old documents. */
  datatype StreamerRecord = StreamerRecord(
    twitch: string,
    channelId: string,
    youtubeUrl: string,
    verified: bool,
    isLiveCached: Option<bool>,
    lastChecked: int)

  /** The parts of an incoming GET request the handler reads. */
  datatype Request = Request(
    forwardedFor: Option<string>,
    remoteAddress: string,
    twitch: Option<string>,
    ytUrl: Option<string>)

  /** Which Firestore operations throw during this request. */
  datatype StoreFaults = StoreFaults(quotaTransaction: bool, cacheRead: bool, cacheWrite: bool)

  /**
   * Everything the handler takes from outside the stores: today's date string,
   * the clock in milliseconds, the channel search and live search replies, and store faults.
   */
  datatype Env = Env(
    today: string,
    now: int,
    search: string -> ApiReply,
    liveSearch: string -> ApiReply,
    faults: StoreFaults)

  datatype LookupBody = LookupBody(
    twitch: string,
    youtubeUrl: string,
    isLive: bool,
    channelId: string,
    cached: bool)

  datatype Response = Found(body: LookupBody) | Failure(status: int, error: string) {
    function Status(): int {
      if Found? then 200 else status
    }
  }

  const LIMIT_EXCEEDED: Response := Failure(429, "Daily limit exceeded")
  const MISSING_PARAMS: Response := Failure(400, "Missing twitch or ytUrl")
  const INVALID_URL: Response := Failure(404, "Invalid YouTube URL")
  const INTERNAL_ERROR: Response := Failure(500, "Internal error")

  /** What the quota transaction reports. */
  datatype QuotaVerdict = Admitted | DailyLimitExceeded | TransactionFailed

  /**
   * `ip` is `entry` with the whitespace around it removed (so neither end of `ip`
   * is whitespace), or `remoteAddress` when `entry` is only whitespace.
   */
  ghost predicate TrimmedOr(entry: string, remoteAddress: string, ip: string) {
    && (AllWhitespace(entry) ==> ip == remoteAddress)
    && (!AllWhitespace(entry) ==>
          && ip != "" && !IsJsWhitespace(ip[0]) && !IsJsWhitespace(ip[|ip| - 1])
          && exists i :: TrimmedAt(entry, ip, i))
  }

  /**
   * The caller's IP: the first comma-separated entry of `x-forwarded-for`, trimmed,
   * or the socket's remote address when that entry is empty.
   */
  function ClientIp(forwardedFor: Option<string>, remoteAddress: string): (ip: string)
    ensures TrimmedOr(SplitHead(forwardedFor.GetOr(""), ","), remoteAddress, ip)
    ensures ip == remoteAddress || (ip != "" && ',' !in ip && Includes(forwardedFor.GetOr(""), ip))
  {
    var header := forwardedFor.GetOr("");
    var head := SplitHead(header, ",");
    var first := Trim(head);
    TrimMeetsTrimmedOr(head, remoteAddress);
    if first == "" then remoteAddress
    else
      IncludesTransitive(header, head, first);
      NoCommaInside(head, first);
      first
  }

  /** The trimmed entry, or the socket address when that is empty, meets TrimmedOr. */
  lemma TrimMeetsTrimmedOr(entry: string, remoteAddress: string)
    ensures var first := Trim(entry);
      TrimmedOr(entry, remoteAddress, if first == "" then remoteAddress else first)
  {
    var first := Trim(entry);
    TrimEmptyIffAllWhitespace(entry);
    if first != "" {
      var i :| TrimmedAt(entry, first, i);
    }
  }

  /** TrimmedOr holds of one key at most. */
  lemma TrimmedOrUnique(entry: string, remoteAddress: string, a: string, b: string)
    requires TrimmedOr(entry, remoteAddress, a) && TrimmedOr(entry, remoteAddress, b)
    ensures a == b
  {
    if !AllWhitespace(entry) {
      var i :| TrimmedAt(entry, a, i);
      var j :| TrimmedAt(entry, b, j);
      TrimmedAtUnique(entry, a, i, b, j);
    }
  }

  /** ClientIp's contract fixes the key: only the trimmed first entry, or the socket address, meets it. */
  lemma FirstEntryDeterminesKey(forwardedFor: Option<string>, remoteAddress: string, ip: string)
    requires TrimmedOr(SplitHead(forwardedFor.GetOr(""), ","), remoteAddress, ip)
    ensures ip == ClientIp(forwardedFor, remoteAddress)
  {
    TrimmedOrUnique(SplitHead(forwardedFor.GetOr(""), ","), remoteAddress, ip, ClientIp(forwardedFor, remoteAddress));
  }

  /** Without an `x-forwarded-for` header the caller is identified by the socket address. */
  lemma ClientIpWithoutHeader(remoteAddress: string)
    ensures ClientIp(None, remoteAddress) == remoteAddress
  {
    assert SplitHead("", ",") == "";
  }

  /** A proxy chain: the first entry, without its padding, is the caller. */
  lemma ClientIpFromProxyChain(remoteAddress: string)
    ensures ClientIp(Some(" 1.2.3.4 , 5.6.7.8"), remoteAddress) == "1.2.3.4"
  {
    ProxyChainHead();
    PaddedAddressTrim();
  }

  lemma ProxyChainHead()
    ensures SplitHead(" 1.2.3.4 , 5.6.7.8", ",") == " 1.2.3.4 "
  {
    var first := " 1.2.3.4 ";
    var header := first + ", 5.6.7.8";
    assert header == " 1.2.3.4 , 5.6.7.8";
    assert header[..9] == first;
    NoOccurrenceBefore(header, ",", 0, 9);
    assert OccursAt(header, ",", 9) by { assert header[9..10] == ","; }
  }

  lemma PaddedAddressTrim()
    ensures Trim(" 1.2.3.4 ") == "1.2.3.4"
  {
    var core := "1.2.3.4";
    assert " " + core + " " == " 1.2.3.4 ";
    assert core[0] == '1' && core[|core| - 1] == '4';
    TrimOfPadded(" ", core, " ");
  }

  /** A substring of a substring is a substring. */
  lemma IncludesTransitive(outer: string, mid: string, inner: string)
    requires Includes(outer, mid) && Includes(mid, inner)
    ensures Includes(outer, inner)
  {
    var i :| OccursAt(outer, mid, i);
    var j :| OccursAt(mid, inner, j);
    forall k | 0 <= k < |inner| ensures outer[i + j + k] == inner[k] {
      assert inner[k] == mid[j + k] == outer[i + j + k];
    }
    assert outer[i + j..i + j + |inner|] == inner;
    assert OccursAt(outer, inner, i + j);
  }

  /** A substring of a comma-free string is comma-free. */
  lemma NoCommaInside(outer: string, inner: string)
    requires !Includes(outer, ",") && Includes(outer, inner)
    ensures ',' !in inner
  {
    var i :| OccursAt(outer, inner, i);
    forall k | 0 <= k < |inner| ensures inner[k] != ',' {
      assert outer[i + k..i + k + 1] == [inner[k]];
      assert Includes(outer, [inner[k]]) by { assert OccursAt(outer, [inner[k]], i + k); }
    }
  }

  /**
   * Lazy day rollover (functions/index.js:30-36): a missing record or one dated another day
   * counts as zero uses today; a record dated today is kept.
   */
  function Rollover(stored: Option<QuotaRecord>, today: string): (q: QuotaRecord)
    ensures q.date == today
    ensures stored.Some? && stored.value.date == today ==> q == stored.value
    ensures stored.None? || stored.value.date != today ==> q.count == 0
  {
    match stored
    case None => QuotaRecord(today, 0)
    case Some(rec) => if rec.date != today then QuotaRecord(today, 0) else rec
  }

  /**
   * The quota transaction's decision: None when today's count has reached the
   * limit, otherwise the record it writes, one use more than before and never over the limit.
   */
  function Admission(stored: Option<QuotaRecord>, today: string): (r: Option<QuotaRecord>)
    ensures r.Some? <==> Rollover(stored, today).count < DAILY_LIMIT
    ensures r.Some? ==> r.value.date == today && r.value.count == Rollover(stored, today).count + 1
    ensures r.Some? ==> r.value.count <= DAILY_LIMIT
  {
    var q := Rollover(stored, today);
    if q.count >= DAILY_LIMIT then None else Some(QuotaRecord(q.date, q.count + 1))
  }

  /**
   * Parameter validation (functions/index.js:53-57): `twitch` is lowercased, and either
   * parameter missing or empty rejects the request.
   */
  function ValidateParams(req: Request): (r: Option<(string, string)>)
    ensures r.Some? <==> req.twitch.Some? && req.twitch.value != "" && req.ytUrl.Some? && req.ytUrl.value != ""
    ensures r.Some? ==> r.value == (ToLower(req.twitch.value), req.ytUrl.value)
  {
    var twitch := ToLower(req.twitch.GetOr(""));
    if twitch == "" || req.ytUrl.None? || req.ytUrl.value == "" then None
    else Some((twitch, req.ytUrl.value))
  }

  /** A stored record is fresh while it is less than HOURS_TO_WAIT hours old. */
  predicate IsFresh(lastChecked: int, now: int) {
    now - lastChecked < FRESH_FOR_MS
  }

  /** The handler computes the age in fractional hours; that test agrees with IsFresh. */
  lemma HoursSinceAgrees(lastChecked: int, now: int)
    ensures ((now - lastChecked) as real / (MS_PER_HOUR as real) < HOURS_TO_WAIT as real)
            <==> IsFresh(lastChecked, now)
  {
    var d := (now - lastChecked) as real;
    var h := d / 3600000.0;
    assert d == h * 3600000.0;
  }

  /** A record six days old is fresh; one eight days old is stale. */
  lemma FreshnessWindow(now: int)
    ensures IsFresh(now - 6 * 24 * MS_PER_HOUR, now)
    ensures !IsFresh(now - 8 * 24 * MS_PER_HOUR, now)
  {
  }

  /** The body returned from a fresh cached record; `isLiveCached` defaults to false. */
  function CachedBody(twitch: string, rec: StreamerRecord): (b: LookupBody)
    ensures b.cached && b.twitch == twitch
    ensures b.youtubeUrl == rec.youtubeUrl && b.channelId == rec.channelId
    ensures b.isLive <==> rec.isLiveCached == Some(true)
  {
    LookupBody(twitch, rec.youtubeUrl, rec.isLiveCached.GetOr(false), rec.channelId, true)
  }

  /** The quota transaction admits this request. */
  ghost predicate Admits(ipUsage: map<string, QuotaRecord>, req: Request, env: Env) {
    !env.faults.quotaTransaction
    && Admission(Get(ipUsage, ClientIp(req.forwardedFor, req.remoteAddress)), env.today).Some?
  }

  /** No stored count is above the daily limit. */
  predicate QuotaBounded(ipUsage: map<string, QuotaRecord>) {
    forall ip :: ip in ipUsage ==> ipUsage[ip].count <= DAILY_LIMIT
  }

  /** Every channel record sits under its own Twitch name. */
  predicate KeyedByTwitch(streamerLinks: map<string, StreamerRecord>) {
    forall t :: t in streamerLinks ==> streamerLinks[t].twitch == t
  }

  /**
   * What the handler does once quota and parameters passed, from the
   * `streamerLinks` collection `before` to `after`: a store fault on the read
   * gives 500; a fresh record is served as is; otherwise an unresolvable URL
   * gives 404, a failed live search or a failed write gives 500, and a success
   * writes the whole record and answers with it.
   */
  predicate Served(before: map<string, StreamerRecord>, after: map<string, StreamerRecord>,
                   twitch: string, ytUrl: string, env: Env, resp: Response) {
    if env.faults.cacheRead then
      resp == INTERNAL_ERROR && after == before
    else if twitch in before && IsFresh(before[twitch].lastChecked, env.now) then
      resp == Found(CachedBody(twitch, before[twitch])) && after == before
    else
      Refreshed(before, after, twitch, ytUrl, env, resp)
  }

  /**
   * The handler past the cache: an unresolvable URL gives 404, a failed live
   * search or a failed write gives 500, and a success writes the whole record
   * and answers with it.
   */
  predicate Refreshed(before: map<string, StreamerRecord>, after: map<string, StreamerRecord>,
                      twitch: string, ytUrl: string, env: Env, resp: Response) {
    var id := ResolveChannelId(ytUrl, env.search);
    if id.None? || id.value == "" then
      resp == INVALID_URL && after == before
    else
      var live := CheckIfLive(env.liveSearch(id.value));
      if live.None? || env.faults.cacheWrite then
        resp == INTERNAL_ERROR && after == before
      else
        && after == before[twitch := StreamerRecord(twitch, id.value, ytUrl, true, live, env.now)]
        && resp == Found(LookupBody(twitch, ytUrl, live.value, id.value, false))
  }

  /**
   * What the handler does once the quota admitted the request: missing
   * parameters give 400 without touching `streamerLinks`, otherwise Served.
   */
  predicate Handled(before: map<string, StreamerRecord>, after: map<string, StreamerRecord>,
                    req: Request, env: Env, resp: Response) {
    match ValidateParams(req)
    case None => resp == MISSING_PARAMS && after == before
    case Some((twitch, ytUrl)) => Served(before, after, twitch, ytUrl, env, resp)
  }

  /**
   * What every exit past the cache has in common: the status is 200, 404 or 500,
   * the keys stay the Twitch names, and a change is one whole-record write for
   * `twitch`, reported by the 200 answer.
   */
  lemma RefreshedWrite(before: map<string, StreamerRecord>, after: map<string, StreamerRecord>,
                       twitch: string, ytUrl: string, env: Env, resp: Response)
    requires Refreshed(before, after, twitch, ytUrl, env, resp)
    ensures resp.Status() in {200, 404, 500}
    ensures KeyedByTwitch(before) ==> KeyedByTwitch(after)
    ensures after != before ==>
      && resp == Found(LookupBody(twitch, ytUrl, resp.body.isLive, resp.body.channelId, false))
      && resp.body.channelId != ""
      && after == before[twitch := StreamerRecord(
           twitch, resp.body.channelId, ytUrl, true, Some(resp.body.isLive), env.now)]
  {
  }

  /** The same for every exit once quota and parameters passed, cache hits included. */
  lemma ServedWrite(before: map<string, StreamerRecord>, after: map<string, StreamerRecord>,
                    twitch: string, ytUrl: string, env: Env, resp: Response)
    requires Served(before, after, twitch, ytUrl, env, resp)
    ensures resp.Status() in {200, 404, 500}
    ensures KeyedByTwitch(before) ==> KeyedByTwitch(after)
    ensures after != before ==>
      && resp == Found(LookupBody(twitch, ytUrl, resp.body.isLive, resp.body.channelId, false))
      && resp.body.channelId != ""
      && after == before[twitch := StreamerRecord(
           twitch, resp.body.channelId, ytUrl, true, Some(resp.body.isLive), env.now)]
  {
    if !env.faults.cacheRead && !(twitch in before && IsFresh(before[twitch].lastChecked, env.now)) {
      RefreshedWrite(before, after, twitch, ytUrl, env, resp);
    }
  }

  /**
   * Once the quota admitted the request: the status is 200, 400, 404 or 500, the
   * keys stay the Twitch names, and the only change is a whole-record write of a
   * non-empty channel for the requested URL, which the uncached 200 answer reports.
   */
  lemma HandledWrite(before: map<string, StreamerRecord>, after: map<string, StreamerRecord>,
                     req: Request, env: Env, resp: Response)
    requires Handled(before, after, req, env, resp)
    ensures resp.Status() in {200, 400, 404, 500}
    ensures KeyedByTwitch(before) ==> KeyedByTwitch(after)
    ensures after != before ==>
      && resp.Found? && !resp.body.cached && resp.body.channelId != ""
      && req.ytUrl == Some(resp.body.youtubeUrl)
      && after == before[resp.body.twitch := StreamerRecord(
           resp.body.twitch, resp.body.channelId, resp.body.youtubeUrl, true, Some(resp.body.isLive), env.now)]
  {
    var params := ValidateParams(req);
    if params.Some? {
      ServedWrite(before, after, params.value.0, params.value.1, env, resp);
    }
  }

  class LookupService {
    /** The `ipUsage` collection, keyed by caller IP. */
    var ipUsage: map<string, QuotaRecord>
    /** The `streamerLinks` collection, keyed by lowercased Twitch name. */
    var streamerLinks: map<string, StreamerRecord>

    /** What the handler's writes keep true. */
    ghost predicate Valid()
      reads this
    {
      QuotaBounded(ipUsage) && KeyedByTwitch(streamerLinks)
    }

    constructor (ipUsage: map<string, QuotaRecord>, streamerLinks: map<string, StreamerRecord>)
      requires QuotaBounded(ipUsage) && KeyedByTwitch(streamerLinks)
      ensures this.ipUsage == ipUsage && this.streamerLinks == streamerLinks
      ensures Valid()
    {
      this.ipUsage := ipUsage;
      this.streamerLinks := streamerLinks;
    }

    /**
     * The Firestore transaction of functions/index.js:28-43, as one atomic step: read the
     * caller's record, roll it over, refuse at the limit, else write it back
     * with one more use. A store fault aborts it without a write.
     */
    method RunQuotaTransaction(ip: string, today: string, fails: bool) returns (verdict: QuotaVerdict)
      modifies this`ipUsage
      ensures fails ==> verdict == TransactionFailed && ipUsage == old(ipUsage)
      ensures !fails ==>
        var a := Admission(Get(old(ipUsage), ip), today);
        && (verdict == Admitted <==> a.Some?)
        && (verdict == DailyLimitExceeded <==> a.None?)
        && ipUsage == (if a.Some? then old(ipUsage)[ip := a.value] else old(ipUsage))
      ensures QuotaBounded(old(ipUsage)) ==> QuotaBounded(ipUsage)
    {
      if fails {
        return TransactionFailed;
      }
      var date, count;
      if ip in ipUsage {
        date, count := ipUsage[ip].date, ipUsage[ip].count;
      } else {
        date, count := today, 0;
      }
      if date != today {
        date, count := today, 0;
      }
      if count >= DAILY_LIMIT {
        return DailyLimitExceeded;
      }
      ipUsage := ipUsage[ip := QuotaRecord(date, count + 1)];
      verdict := Admitted;
    }

    /** The quota transaction for the caller of `req`, on the `ipUsage` record of its IP. */
    method ChargeQuota(req: Request, env: Env) returns (verdict: QuotaVerdict)
      modifies this`ipUsage
      ensures var ip := ClientIp(req.forwardedFor, req.remoteAddress);
        var a := Admission(Get(old(ipUsage), ip), env.today);
        && (env.faults.quotaTransaction ==> verdict == TransactionFailed)
        && (!env.faults.quotaTransaction && a.None? ==> verdict == DailyLimitExceeded)
        && (verdict == Admitted <==> Admits(old(ipUsage), req, env))
        && ipUsage == (if Admits(old(ipUsage), req, env) then old(ipUsage)[ip := a.value] else old(ipUsage))
      ensures QuotaBounded(old(ipUsage)) ==> QuotaBounded(ipUsage)
    {
      var ip := ClientIp(req.forwardedFor, req.remoteAddress);
      verdict := RunQuotaTransaction(ip, env.today, env.faults.quotaTransaction);
    }

    /**
     * The `checkStreamer` request handler: quota, then validation, then the
     * cache, then resolve, live check and a whole-record write, with early
     * exits 500/429/400/500/200-cached/404/500.
     */
    method CheckStreamer(req: Request, env: Env) returns (resp: Response)
      modifies this
      ensures old(Valid()) ==> Valid()
      // the quota transaction
      ensures var a := Admission(Get(old(ipUsage), ClientIp(req.forwardedFor, req.remoteAddress)), env.today);
        && (env.faults.quotaTransaction ==> resp == INTERNAL_ERROR)
        && (!env.faults.quotaTransaction && a.None? ==> resp == LIMIT_EXCEEDED)
        && ipUsage == (if Admits(old(ipUsage), req, env)
                       then old(ipUsage)[ClientIp(req.forwardedFor, req.remoteAddress) := a.value]
                       else old(ipUsage))
      // validation comes after the quota unit is spent
      ensures !Admits(old(ipUsage), req, env) ==> streamerLinks == old(streamerLinks)
      ensures Admits(old(ipUsage), req, env) ==> Handled(old(streamerLinks), streamerLinks, req, env, resp)
      // what every exit has in common
      ensures resp.Status() in {200, 400, 404, 429, 500}
      ensures streamerLinks != old(streamerLinks) ==>
        && resp.Found? && !resp.body.cached && resp.body.channelId != ""
        && req.ytUrl == Some(resp.body.youtubeUrl)
        && streamerLinks == old(streamerLinks)[resp.body.twitch := StreamerRecord(
             resp.body.twitch, resp.body.channelId, resp.body.youtubeUrl, true, Some(resp.body.isLive), env.now)]
    {
      var verdict := ChargeQuota(req, env);
      if verdict == DailyLimitExceeded {
        return LIMIT_EXCEEDED;
      } else if verdict == TransactionFailed {
        return INTERNAL_ERROR;
      }

      resp := ValidateAndServe(req, env);
      HandledWrite(old(streamerLinks), streamerLinks, req, env, resp);
    }

    /** The handler after the quota admitted the request: validation, then ServeLookup. */
    method ValidateAndServe(req: Request, env: Env) returns (resp: Response)
      modifies this`streamerLinks
      ensures Handled(old(streamerLinks), streamerLinks, req, env, resp)
    {
      var params := ValidateParams(req);
      if params.None? {
        return MISSING_PARAMS;
      }
      resp := ServeLookup(params.value.0, params.value.1, env);
    }

    /**
     * The handler after the quota and the parameters passed: a failed cache read
     * gives 500, a fresh record is served as is, anything else goes to RefreshLookup.
     */
    method ServeLookup(twitch: string, ytUrl: string, env: Env) returns (resp: Response)
      modifies this`streamerLinks
      ensures Served(old(streamerLinks), streamerLinks, twitch, ytUrl, env, resp)
    {
      if env.faults.cacheRead {
        return INTERNAL_ERROR;
      }
      if twitch in streamerLinks {
        var data := streamerLinks[twitch];
        if IsFresh(data.lastChecked, env.now) {
          return Found(LookupBody(twitch, data.youtubeUrl, data.isLiveCached.GetOr(false), data.channelId, true));
        }
      }

      resp := RefreshLookup(twitch, ytUrl, env);
    }

    /** Resolve the channel, check whether it is live, and write the whole record. */
    method RefreshLookup(twitch: string, ytUrl: string, env: Env) returns (resp: Response)
      modifies this`streamerLinks
      ensures Refreshed(old(streamerLinks), streamerLinks, twitch, ytUrl, env, resp)
    {
      var channelId := ResolveChannelId(ytUrl, env.search);
      if channelId.None? || channelId.value == "" {
        return INVALID_URL;
      }

      var isLive := CheckIfLive(env.liveSearch(channelId.value));
      if isLive.None? {
        return INTERNAL_ERROR;
      }

      if env.faults.cacheWrite {
        return INTERNAL_ERROR;
      }
      streamerLinks := streamerLinks[twitch := StreamerRecord(twitch, channelId.value, ytUrl, true, isLive, env.now)];
      resp := Found(LookupBody(twitch, ytUrl, isLive.value, channelId.value, false));
    }
  }

  function Min(a: int, b: int): int { if a <= b then a else b }
  function Max(a: int, b: int): int { if a >= b then a else b }

  /**
   * `n` requests from one IP on one day, handled one after another (as the
   * transaction serialises them): the final stored record and the number admitted.
   */
  function AdmitMany(stored: Option<QuotaRecord>, today: string, n: nat): (Option<QuotaRecord>, nat)
    decreases n
  {
    if n == 0 then (stored, 0)
    else
      var a := Admission(stored, today);
      var (final, k) := AdmitMany(if a.Some? then a else stored, today, n - 1);
      (final, if a.Some? then k + 1 else k)
  }

  /**
   * Of `n` same-day requests, exactly as many are admitted as the limit leaves
   * room for, and the stored count grows by exactly that many.
   */
  lemma {:induction false} AdmitManyCount(stored: Option<QuotaRecord>, today: string, n: nat)
    ensures var c := Rollover(stored, today).count;
      && AdmitMany(stored, today, n).1 == Min(n, Max(0, DAILY_LIMIT - c))
      && Rollover(AdmitMany(stored, today, n).0, today).count == c + AdmitMany(stored, today, n).1
    decreases n
  {
    if n > 0 {
      var a := Admission(stored, today);
      AdmitManyCount(if a.Some? then a else stored, today, n - 1);
    }
  }

  /** Starting from a new day, `n` requests admit `min(n, DAILY_LIMIT)` and leave that count stored. */
  lemma AdmitManyFromNewDay(stored: Option<QuotaRecord>, today: string, n: nat)
    requires stored.None? || stored.value.date != today
    ensures AdmitMany(stored, today, n).1 == Min(n, DAILY_LIMIT)
    ensures Rollover(AdmitMany(stored, today, n).0, today).count == Min(n, DAILY_LIMIT)
  {
    AdmitManyCount(stored, today, n);
  }

  /**
   * A first request for `foo` with a `/channel/XYZ` link, on empty stores,
   * resolves `XYZ` without a search and writes the record; a second request
   * within the week is served from the cache, even when every external call
   * would now throw.
   */
  method RepeatLookupServedFromCache(liveReply: ApiReply) returns (first: Response, second: Response)
    requires liveReply.Reply?
    ensures first == Found(LookupBody("foo", EXAMPLE_CHANNEL_URL, CheckIfLive(liveReply) == Some(true), "XYZ", false))
    ensures second == Found(LookupBody("foo", EXAMPLE_CHANNEL_URL, CheckIfLive(liveReply) == Some(true), "XYZ", true))
  {
    var service := new LookupService(map[], map[]);
    first := LookupNewStreamer(service, liveReply);
    second := LookupCachedStreamer(service, CheckIfLive(liveReply));
  }

  /** The example request for the example channel URL, from an address with no proxy header. */
  function ExampleRequest(): Request {
    Request(None, "203.0.113.7", Some("Foo"), Some(EXAMPLE_CHANNEL_URL))
  }

  /** First lookup of a streamer on an empty store: resolved, checked live and stored. */
  method LookupNewStreamer(service: LookupService, liveReply: ApiReply) returns (first: Response)
    requires liveReply.Reply?
    requires service.ipUsage == map[] && service.streamerLinks == map[]
    modifies service
    ensures first == Found(LookupBody("foo", EXAMPLE_CHANNEL_URL, CheckIfLive(liveReply) == Some(true), "XYZ", false))
    ensures service.streamerLinks == map["foo" := StreamerRecord("foo", "XYZ", EXAMPLE_CHANNEL_URL, true, CheckIfLive(liveReply), 1000)]
    ensures service.ipUsage == map["203.0.113.7" := QuotaRecord("2026-10-15", 1)]
  {
    assert ToLower("Foo") == "foo";
    var req := ExampleRequest();
    ClientIpWithoutHeader("203.0.113.7");
    assert Admission(Get(service.ipUsage, "203.0.113.7"), "2026-10-15") == Some(QuotaRecord("2026-10-15", 1));
    var env := Env("2026-10-15", 1000, _ => Thrown, _ => liveReply, StoreFaults(false, false, false));
    ExampleChannelUrlResolves(env.search);
    assert Admits(service.ipUsage, req, env);
    assert ValidateParams(req) == Some(("foo", EXAMPLE_CHANNEL_URL));
    first := service.CheckStreamer(req, env);
  }

  /** The same lookup a second later is answered from the stored record, with every external call failing. */
  method LookupCachedStreamer(service: LookupService, live: Option<bool>) returns (second: Response)
    requires service.streamerLinks == map["foo" := StreamerRecord("foo", "XYZ", EXAMPLE_CHANNEL_URL, true, live, 1000)]
    requires service.ipUsage == map["203.0.113.7" := QuotaRecord("2026-10-15", 1)]
    modifies service
    ensures second == Found(LookupBody("foo", EXAMPLE_CHANNEL_URL, live == Some(true), "XYZ", true))
  {
    assert ToLower("Foo") == "foo";
    var req := ExampleRequest();
    ClientIpWithoutHeader("203.0.113.7");
    var env := Env("2026-10-15", 2000, _ => Thrown, _ => Thrown, StoreFaults(false, false, false));
    assert Admission(Get(service.ipUsage, "203.0.113.7"), "2026-10-15") == Some(QuotaRecord("2026-10-15", 2));
    assert Admits(service.ipUsage, req, env);
    assert ValidateParams(req) == Some(("foo", EXAMPLE_CHANNEL_URL));
    assert IsFresh(1000, 2000);
    second := service.CheckStreamer(req, env);
  }
}
