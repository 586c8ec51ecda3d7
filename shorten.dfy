/**
 * ShortenURL: the request handler. Its checks run in a fixed order and the
 * first one that fails decides the response: URL syntax, forbidden
 * domain, (scheme normalisation), identifier resolution, lookup of the
 * identifier, quota, rate limit, expiry default, and finally the one
 * write of the mapping. Counters and mappings live in the same database.
 */
module Shorten {
  import opened Wrappers
  import opened GoInt
  import opened Strconv
  import opened KeyValue
  import opened RateLimit

  /** The parsed JSON body; `expiry` is in hours, 0 when the client gave none. */
  datatype Request = Request(url: string, customShort: string, expiry: Int64)

  /** The success body: url, short, expiry (hours), rate_limit, rate_limit_reset (minutes). */
  datatype Response = Response(url: string, short: string, expiry: Int64, rateRemaining: int, rateLimitReset: int)

  /** What the handler answers; the HTTP status is noted with each kind. */
  datatype Answer =
    | Shortened(response: Response)                  // 200
    | InvalidUrl                                     // 400 "invalid URL"
    | DomainRefused                                  // 503 "haha... nice try"
    | ShortInUse                                     // 403 "URL short already in use"
    | LimitFailed(error: LimitError, resetMinutes: int) // 503, the limiter's error
    | WriteFailed                                    // 500 "unable to connect to server"

  /** The values the handler reads from the environment. */
  datatype Config = Config(apiQuota: string, domain: string)

  /** govalidator.IsURL, helpers.RemoveDomainError and helpers.EnforceHTTP, whose code is not modelled. */
  datatype Validators = Validators(isUrl: string -> bool, removeDomainError: string -> bool, enforceHttp: string -> string)

  /** Which of the handler's own commands hit a connection failure. */
  datatype RequestFaults = RequestFaults(onLookup: bool, limiter: LimitFaults, onWrite: bool)

  const NoFaults := RequestFaults(false, NoLimitFaults, false)

  datatype Handled = Handled(state: State, answer: Answer)

  /** The default quota when API_QUOTA is not a Go int. */
  const DefaultQuota: Int64 := 100

  /** The default lifetime of a mapping, in hours. */
  const DefaultExpiry: Int64 := 24

  /** The largest expiry in hours for which expiry*3600*time.Second does not overflow. */
  const MaxExpiryHours: int := MaxInt64 / (3600 * Second)

  /** The identifier: the first six characters of a fresh UUID unless the client chose one. */
  function ResolveId(customShort: string, uuid: string): (id: string)
    requires |uuid| >= 6
    ensures |id| >= 1
    ensures customShort == "" ==> |id| == 6 && id <= uuid
    ensures customShort != "" ==> id == customShort
  {
    if customShort == "" then uuid[..6] else customShort
  }

  /** The quota: API_QUOTA when Atoi accepts it, otherwise 100. */
  function QuotaOf(apiQuota: string): (q: Int64)
    ensures Atoi(apiQuota).None? ==> q == DefaultQuota
    ensures Atoi(apiQuota).Some? ==> q == Atoi(apiQuota).value
  {
    var parsed := Atoi(apiQuota);
    if parsed.None? then DefaultQuota else parsed.value
  }

  /** The expiry in hours after defaulting: never 0. */
  function ExpiryOf(expiry: Int64): (hours: Int64)
    ensures hours != 0
    ensures expiry == 0 ==> hours == DefaultExpiry
    ensures expiry != 0 ==> hours == expiry
  {
    if expiry == 0 then DefaultExpiry else expiry
  }

  /** body.Expiry*3600*time.Second, with Go's wrap-around at each multiplication. */
  function MappingTtl(hours: Int64): (d: Duration)
    ensures (d - hours * 3600 * Second) % Modulus64 == 0
    ensures -MaxExpiryHours <= hours <= MaxExpiryHours ==> d == hours * 3600 * Second
  {
    var perHour := Mul64(hours, 3600);
    var d := Mul64(perHour, Second);
    CongruentScaled(hours * 3600, perHour, Second);
    CongruentChain(hours * 3600 * Second, perHour * Second, d);
    assert -MaxExpiryHours <= hours <= MaxExpiryHours ==> perHour == hours * 3600 && -MaxInt64 <= perHour * Second <= MaxInt64;
    d
  }

  /** A reset duration in whole minutes: exp / time.Nanosecond / time.Minute. */
  function ResetMinutes(exp: Duration): (m: int)
    ensures exp >= 0 ==> 0 <= m && m * Minute <= exp < m * Minute + Minute
    ensures exp < 0 ==> m <= 0 && m * Minute - Minute < exp <= m * Minute
  {
    Quo(Quo(exp, Nanosecond), Minute)
  }

  /** The error body's rate_limit_reset exactly as written: exp / time.Second / time.Minute. */
  function ErrorResetAsWritten(exp: Duration): (m: int)
    ensures m == 0
  {
    var seconds := Quo(exp, Second);
    assert -10_000_000_000 < seconds < 10_000_000_000;
    Quo(seconds, Minute)
  }

  /**
   * The database state and answer ShortenURL produces. A failed GET of the
   * identifier counts as "not in use": its error is discarded.
   */
  function Shorten(s: State, cfg: Config, v: Validators, body: Request, ip: string, uuid: string, f: RequestFaults): (h: Handled)
    requires |uuid| >= 6
    ensures !Passes(v, body) ==> h.state == s
    ensures Passes(v, body) ==> |h.state.log| > |s.log| && h.state.log[|h.state.log| - 1] == Close
  {
    if !v.isUrl(body.url) then Handled(s, InvalidUrl)
    else if !v.removeDomainError(body.url) then Handled(s, DomainRefused)
    else
      var url := v.enforceHttp(body.url);
      var id := ResolveId(body.customShort, uuid);
      var lookup := GetCmd(OpenCmd(s, 0), id, f.onLookup);
      var val := if lookup.reply.Text? then lookup.reply.text else "";
      if val != "" then Handled(CloseCmd(lookup.state), ShortInUse)
      else Admitted(lookup.state, cfg, url, id, body.expiry, ip, f)
  }

  /** The rest of ShortenURL once the identifier is found free: rate limit, then the write. */
  function Admitted(s: State, cfg: Config, url: string, id: string, expiry: Int64, ip: string, f: RequestFaults): (h: Handled)
    ensures h.answer.Shortened? || h.answer.LimitFailed? || h.answer.WriteFailed?
    ensures h.answer.LimitFailed? ==> h.answer.resetMinutes == 0
    ensures h.answer.Shortened? ==> h.answer.response.rateLimitReset == 30 && h.answer.response.short == cfg.domain + "/" + id
    ensures |h.state.log| > |s.log| + 1 && h.state.log[..|s.log| + 1] == s.log + [Get(ip)]
    ensures h.state.log[|h.state.log| - 1] == Close
  {
    var limit := Limit(s, ip, QuotaOf(cfg.apiQuota), f.limiter);
    var r := limit.result;
    if r.err.Some? then Handled(CloseCmd(limit.state), LimitFailed(r.err.value, ErrorResetAsWritten(r.reset)))
    else
      var hours := ExpiryOf(expiry);
      var write := SetCmd(limit.state, id, url, MappingTtl(hours), f.onWrite);
      if write.reply.Failed? then Handled(CloseCmd(write.state), WriteFailed)
      else
        Handled(CloseCmd(write.state),
                Shortened(Response(url, cfg.domain + "/" + id, hours, r.remaining, ResetMinutes(r.reset))))
  }

  /** ShortenURL, step by step against the database; the client is closed on every path after it is opened. */
  method ShortenURL(db: Database, cfg: Config, v: Validators, body: Request, ip: string, uuid: string, f: RequestFaults)
    returns (answer: Answer)
    requires |uuid| >= 6
    modifies db
    ensures db.Snapshot() == Shorten(old(db.Snapshot()), cfg, v, body, ip, uuid, f).state
    ensures answer == Shorten(old(db.Snapshot()), cfg, v, body, ip, uuid, f).answer
  {
    if !v.isUrl(body.url) {
      return InvalidUrl;
    }
    if !v.removeDomainError(body.url) {
      return DomainRefused;
    }
    var url := body.url;
    url := v.enforceHttp(url);

    var id: string;
    if body.customShort == "" {
      id := uuid[..6];
    } else {
      id := body.customShort;
    }

    ghost var s0 := db.Snapshot();
    db.Open(0);
    var got := db.Get(id, f.onLookup);
    var val := if got.Text? then got.text else "";
    ghost var s1 := db.Snapshot();
    if val != "" {
      db.Close();
      return ShortInUse;
    }

    var quota: Int64;
    var parsed := Atoi(cfg.apiQuota);
    if parsed.None? {
      quota := DefaultQuota;
    } else {
      quota := parsed.value;
    }
    assert quota == QuotaOf(cfg.apiQuota);
    assert Shorten(s0, cfg, v, body, ip, uuid, f) == Admitted(s1, cfg, url, id, body.expiry, ip, f);
    var r := HandleRateLimit(db, ip, quota, f.limiter);
    if r.err.Some? {
      db.Close();
      return LimitFailed(r.err.value, ErrorResetAsWritten(r.reset));
    }

    var expiry := body.expiry;
    if expiry == 0 {
      expiry := DefaultExpiry;
    }
    var written := db.Set(id, url, Mul64(Mul64(expiry, 3600), Second), f.onWrite);
    if written.Failed? {
      db.Close();
      return WriteFailed;
    }

    db.Close();
    return Shortened(Response(url, cfg.domain + "/" + id, expiry, r.remaining, ResetMinutes(r.reset)));
  }

  // ---------------------------------------------------------------------
  // Pure pieces

  /**
   * An unset or malformed API_QUOTA gives 100; a formatted int64 gives
   * itself back, and so does a value with a '+' sign or leading zeros.
   */
  lemma QuotaSetting(n: Int64)
    ensures QuotaOf("") == DefaultQuota && QuotaOf("ten") == DefaultQuota
    ensures QuotaOf(Itoa(n)) == n
    ensures QuotaOf("+50") == 50 && QuotaOf("050") == 50
  {
    AtoiItoa(n);
    assert "+50"[1..] == "50";
    assert ParseDigits("050") == Some(50) by {
      assert "050"[..2] == "05" && "05"[..1] == "0";
    }
    assert ParseDigits("50") == Some(50) by {
      assert "50"[..1] == "5";
    }
  }

  /** Without overflow, the mapping lives exactly `hours` * 3600 seconds. */
  lemma MappingLifetime(hours: Int64, previous: Option<nat>)
    requires 1 <= hours <= MaxExpiryHours
    ensures MappingTtl(hours) == hours * 3600 * Second
    ensures SetLifetime(previous, MappingTtl(hours)) == Some(hours * 3600 * 1000)
  {
    assert 3600 * Second * MaxExpiryHours <= MaxInt64;
    assert hours * 3600 * Second <= MaxExpiryHours * 3600 * Second;
  }

  /**
   * A negative expiry down to -MaxExpiryHours gives a negative duration, so
   * the mapping is stored without any expiry.
   */
  lemma NegativeExpiry(hours: Int64, previous: Option<nat>)
    requires -MaxExpiryHours <= hours <= -1
    ensures MappingTtl(hours) == hours * 3600 * Second < 0
    ensures SetLifetime(previous, MappingTtl(hours)) == None
  {
    assert hours * 3600 * Second <= -3600 * Second;
  }

  /**
   * Go's int64 multiplication wraps: one hour past MaxExpiryHours the
   * duration turns negative (no expiry), and one hour below -MaxExpiryHours
   * it turns positive, so that mapping does get a lifetime.
   */
  lemma MappingLifetimeWraps(previous: Option<nat>)
    ensures MappingTtl(MaxExpiryHours + 1) < 0
    ensures SetLifetime(previous, MappingTtl(MaxExpiryHours + 1)) == None
    ensures MappingTtl(-MaxExpiryHours - 1) > 0
    ensures SetLifetime(previous, MappingTtl(-MaxExpiryHours - 1)).Some?
  {
    assert MaxExpiryHours == 2562047;
    assert Mul64(2562048, 3600) == 9223372800;
    assert Mul64(9223372800, Second) == -9223371273709551616;
    assert Mul64(-2562048, 3600) == -9223372800;
    assert Mul64(-9223372800, Second) == 9223371273709551616;
  }

  /** The success body reports the full 30-minute window as 30 minutes. */
  lemma ResetOfWindow()
    ensures ResetMinutes(Window) == 30
  {
  }

  /** ResetMinutes is the whole number of minutes in a remaining window of 0 to 30 minutes. */
  lemma ResetMinutesBounds(exp: Duration)
    requires 0 <= exp <= Window
    ensures 0 <= ResetMinutes(exp) <= 30
    ensures ResetMinutes(exp) * Minute <= exp < (ResetMinutes(exp) + 1) * Minute
  {
  }

  // ---------------------------------------------------------------------
  // One request

  predicate Passes(v: Validators, body: Request)
  {
    v.isUrl(body.url) && v.removeDomainError(body.url)
  }

  /**
   * A URL that is not a URL, or that names the forbidden domain, is refused
   * before any client is created: nothing is stored and no command is issued.
   */
  lemma RejectedBeforeStore(s: State, cfg: Config, v: Validators, body: Request, ip: string, uuid: string, f: RequestFaults)
    requires |uuid| >= 6 && !Passes(v, body)
    ensures Shorten(s, cfg, v, body, ip, uuid, f).state == s
    ensures Shorten(s, cfg, v, body, ip, uuid, f).answer == if !v.isUrl(body.url) then InvalidUrl else DomainRefused
  {
  }

  /**
   * An identifier already mapped to a non-empty value is refused with 403:
   * nothing is stored, and the commands issued are only the lookup between
   * opening and closing the client, so no quota is consumed.
   */
  lemma InUseConsumesNoQuota(s: State, cfg: Config, v: Validators, body: Request, ip: string, uuid: string, f: RequestFaults)
    requires |uuid| >= 6 && Passes(v, body) && !f.onLookup
    requires var id := ResolveId(body.customShort, uuid); id in s.data && s.data[id].value != ""
    ensures Shorten(s, cfg, v, body, ip, uuid, f).answer == ShortInUse
    ensures Shorten(s, cfg, v, body, ip, uuid, f).state.data == s.data
    ensures Shorten(s, cfg, v, body, ip, uuid, f).state.log ==
            s.log + [Open(0), Get(ResolveId(body.customShort, uuid)), Close]
  {
  }

  /**
   * An identifier that is missing or holds the empty string is free: the
   * request goes on to the rate limiter, whose first command is GET of the
   * client's IP.
   */
  lemma FreeIdReachesLimiter(s: State, cfg: Config, v: Validators, body: Request, ip: string, uuid: string, f: RequestFaults)
    requires |uuid| >= 6 && Passes(v, body)
    requires var id := ResolveId(body.customShort, uuid); id !in s.data || s.data[id].value == ""
    ensures Shorten(s, cfg, v, body, ip, uuid, f).answer != ShortInUse
    ensures |Shorten(s, cfg, v, body, ip, uuid, f).state.log| > |s.log| + 2
    ensures Shorten(s, cfg, v, body, ip, uuid, f).state.log[|s.log| + 2] == Get(ip)
  {
    var id := ResolveId(body.customShort, uuid);
    var lookup := GetCmd(OpenCmd(s, 0), id, f.onLookup);
    assert |lookup.state.log| == |s.log| + 2;
    var h := Admitted(lookup.state, cfg, v.enforceHttp(body.url), id, body.expiry, ip, f);
    assert Shorten(s, cfg, v, body, ip, uuid, f) == h;
    assert h.state.log[..|lookup.state.log| + 1] == lookup.state.log + [Get(ip)];
    assert h.state.log[|s.log| + 2] == (lookup.state.log + [Get(ip)])[|s.log| + 2];
  }

  /**
   * Any request that does not end in success writes no mapping: every key
   * other than the client's own counter keeps its entry.
   */
  lemma NoMappingWithoutSuccess(s: State, cfg: Config, v: Validators, body: Request, ip: string, uuid: string, f: RequestFaults)
    requires |uuid| >= 6
    requires !Shorten(s, cfg, v, body, ip, uuid, f).answer.Shortened?
    ensures var d := Shorten(s, cfg, v, body, ip, uuid, f).state.data;
            forall k :: k != ip ==> (k in d <==> k in s.data) && (k in s.data ==> d[k] == s.data[k])
  {
    if Passes(v, body) {
      var id := ResolveId(body.customShort, uuid);
      var lookup := GetCmd(OpenCmd(s, 0), id, f.onLookup);
      var limit := Limit(lookup.state, ip, QuotaOf(cfg.apiQuota), f.limiter);
      LimitFrame(lookup.state, ip, QuotaOf(cfg.apiQuota), f.limiter);
      CommandFrame(limit.state, id, v.enforceHttp(body.url), MappingTtl(ExpiryOf(body.expiry)), f.onWrite);
    }
  }

  /**
   * A refusal by the rate limiter reports a reset of 0, whatever the error:
   * the error body divides the duration by time.Second and then by time.Minute.
   */
  lemma LimitFailureReset(s: State, cfg: Config, v: Validators, body: Request, ip: string, uuid: string, f: RequestFaults)
    requires |uuid| >= 6
    requires Shorten(s, cfg, v, body, ip, uuid, f).answer.LimitFailed?
    ensures var a := Shorten(s, cfg, v, body, ip, uuid, f).answer;
            a.resetMinutes == 0
  {
  }

  /**
   * Success: the mapping id -> EnforceHTTP(url) is stored with a lifetime of
   * expiry*3600 seconds (24 hours when the request gave 0), on top of the
   * limiter's update; the identifier is the UUID prefix or the custom short;
   * the response carries DOMAIN + "/" + id, the limiter's remaining count and
   * a reset of 30 minutes.
   */
  lemma SuccessResponse(s: State, cfg: Config, v: Validators, body: Request, ip: string, uuid: string, f: RequestFaults)
    requires |uuid| >= 6
    requires Shorten(s, cfg, v, body, ip, uuid, f).answer.Shortened?
    ensures var h := Shorten(s, cfg, v, body, ip, uuid, f);
            var id := if body.customShort == "" then uuid[..6] else body.customShort;
            var lookup := GetCmd(OpenCmd(s, 0), id, f.onLookup);
            var limit := Limit(lookup.state, ip, QuotaOf(cfg.apiQuota), f.limiter);
            var hours := if body.expiry == 0 then 24 else body.expiry;
            var url := v.enforceHttp(body.url);
            var previous := if id in limit.state.data then limit.state.data[id].ttl else None;
            && h.state.data == limit.state.data[id := Entry(url, SetLifetime(previous, MappingTtl(hours)))]
            && h.state.log == limit.state.log + [Set(id, url, MappingTtl(hours)), Close]
            && h.answer.response == Response(url, cfg.domain + "/" + id, hours, limit.result.remaining, 30)
  {
    var id := ResolveId(body.customShort, uuid);
    var lookup := GetCmd(OpenCmd(s, 0), id, f.onLookup);
    SuccessResetsWindow(lookup.state, ip, QuotaOf(cfg.apiQuota), f.limiter);
  }

  /** Without a lookup failure, success means the identifier was free beforehand. */
  lemma FreshOnSuccess(s: State, cfg: Config, v: Validators, body: Request, ip: string, uuid: string, f: RequestFaults)
    requires |uuid| >= 6 && !f.onLookup
    requires Shorten(s, cfg, v, body, ip, uuid, f).answer.Shortened?
    ensures var id := ResolveId(body.customShort, uuid); id !in s.data || s.data[id].value == ""
  {
  }

  /**
   * The lookup's error is discarded, so when that GET fails an identifier in
   * use is overwritten: here for a first request from `ip`, with no other fault.
   */
  lemma LookupFailureOverwrites(s: State, cfg: Config, v: Validators, body: Request, ip: string, uuid: string)
    requires |uuid| >= 6 && Passes(v, body)
    requires ip !in s.data && ip != ResolveId(body.customShort, uuid)
    ensures var h := Shorten(s, cfg, v, body, ip, uuid, RequestFaults(true, NoLimitFaults, false));
            var id := ResolveId(body.customShort, uuid);
            h.answer.Shortened? && id in h.state.data && h.state.data[id].value == v.enforceHttp(body.url)
  {
    var id := ResolveId(body.customShort, uuid);
    var lookup := GetCmd(OpenCmd(s, 0), id, true);
    FirstRequest(lookup.state, ip, QuotaOf(cfg.apiQuota), NoLimitFaults);
  }

  /**
   * Counters and mappings share one keyspace: while a key equal to the
   * client's IP holds something that is not an int (a mapping, say), every
   * request from that IP that reaches the limiter is refused.
   */
  lemma SharedKeyLockout(s: State, cfg: Config, v: Validators, body: Request, ip: string, uuid: string, f: RequestFaults)
    requires |uuid| >= 6 && Passes(v, body) && !f.onLookup && !f.limiter.onGet
    requires var id := ResolveId(body.customShort, uuid); id != ip && (id !in s.data || s.data[id].value == "")
    requires ip in s.data && Atoi(s.data[ip].value).None?
    ensures Shorten(s, cfg, v, body, ip, uuid, f).answer == LimitFailed(NotNumeric, 0)
    ensures Shorten(s, cfg, v, body, ip, uuid, f).state.data == s.data
  {
  }

  /**
   * After a success, reading the identifier returns the stored URL; when the
   * expiry does not overflow, the mapping is gone once its lifetime has run out.
   */
  lemma ReadBackThenLapse(s: State, cfg: Config, v: Validators, body: Request, ip: string, uuid: string, f: RequestFaults)
    requires |uuid| >= 6
    requires Shorten(s, cfg, v, body, ip, uuid, f).answer.Shortened?
    ensures var after := Shorten(s, cfg, v, body, ip, uuid, f).state;
            var id := ResolveId(body.customShort, uuid);
            && GetCmd(after, id, false).reply == Text(v.enforceHttp(body.url))
            && (1 <= ExpiryOf(body.expiry) <= MaxExpiryHours ==>
                  GetCmd(State(Lapse(after.data, id), after.log), id, false).reply == Nil)
  {
    SuccessResponse(s, cfg, v, body, ip, uuid, f);
    var id := ResolveId(body.customShort, uuid);
    var lookup := GetCmd(OpenCmd(s, 0), id, f.onLookup);
    var limit := Limit(lookup.state, ip, QuotaOf(cfg.apiQuota), f.limiter);
    var previous := if id in limit.state.data then limit.state.data[id].ttl else None;
    if 1 <= ExpiryOf(body.expiry) <= MaxExpiryHours {
      MappingLifetime(ExpiryOf(body.expiry), previous);
    }
  }

  /**
   * An exhausted counter with its full window left: the error body says
   * rate_limit_reset 0, though the window's remaining minutes are 30.
   */
  lemma ExceededReportsZero(s: State, cfg: Config, v: Validators, body: Request, ip: string, uuid: string)
    requires |uuid| >= 6 && Passes(v, body)
    requires var id := ResolveId(body.customShort, uuid); id != ip && (id !in s.data || s.data[id].value == "")
    requires ip in s.data && s.data[ip] == Entry("0", Some(WindowMillis))
    ensures Shorten(s, cfg, v, body, ip, uuid, NoFaults).answer == LimitFailed(Exceeded, 0)
    ensures TtlReply(s.data, ip) == Window && ResetMinutes(TtlReply(s.data, ip)) == 30
  {
    assert Atoi("0") == Some(0);
  }
}
