/**
 * handleRateLimit: one counter per client IP in the shared database, with
 * a sliding 30-minute window. The first request of a window stores the
 * full quota; each later request with a positive counter decrements it
 * and restarts the window; a counter at or below zero refuses the request
 * and reports the counter's remaining lifetime.
 */
module RateLimit {
  import opened Wrappers
  import opened GoInt
  import opened Strconv
  import opened KeyValue

  /** 30*60*time.Second, used both as the counter's lifetime and as the reset returned. */
  const Window: Duration := 30 * 60 * Second

  /** The window as Redis stores it, in milliseconds. */
  const WindowMillis: nat := 1_800_000

  datatype LimitError =
    | StoreFault   // a Redis error or connection failure
    | NotNumeric   // the stored counter is not a Go int
    | Exceeded     // "rate limit exceeded"

  /** The Go triple (remaining int, reset time.Duration, err error). */
  datatype LimitResult = LimitResult(remaining: int, reset: Duration, err: Option<LimitError>)

  /** Which of the limiter's commands hit a connection failure. */
  datatype LimitFaults = LimitFaults(onGet: bool, onSet: bool, onDecr: bool, onExpire: bool, onTtl: bool)

  const NoLimitFaults := LimitFaults(false, false, false, false, false)

  datatype Outcome = Outcome(state: State, result: LimitResult)

  function Refused(s: State, e: LimitError): Outcome
  {
    Outcome(s, LimitResult(0, 0, Some(e)))
  }

  /**
   * The state and result handleRateLimit produces for client `ip`. Its
   * first command is GET of the IP; a success always reports the full
   * window; "rate limit exceeded" reports 0 remaining; any other error
   * is the zero triple.
   */
  function Limit(s: State, ip: string, quota: Int64, f: LimitFaults): (o: Outcome)
    ensures |o.state.log| > |s.log| && o.state.log[..|s.log|] == s.log && o.state.log[|s.log|] == Get(ip)
    ensures o.result.err.None? ==> o.result.reset == Window
    ensures o.result.err == Some(Exceeded) ==> o.result.remaining == 0
    ensures o.result.err.Some? && o.result.err != Some(Exceeded) ==> o.result == LimitResult(0, 0, o.result.err)
  {
    var got := GetCmd(s, ip, f.onGet);
    if got.reply.Nil? then
      var stored := SetCmd(got.state, ip, Itoa(quota), Window, f.onSet);
      if stored.reply.Failed? then Refused(stored.state, StoreFault)
      else Outcome(stored.state, LimitResult(quota, Window, None))
    else if !got.reply.Text? then Refused(got.state, StoreFault)
    else
      var parsed := Atoi(got.reply.text);
      if parsed.None? then Refused(got.state, NotNumeric)
      else
        var remaining := parsed.value;
        if remaining <= 0 then
          var ttl := TtlCmd(got.state, ip, f.onTtl);
          if ttl.reply.Remaining? then Outcome(ttl.state, LimitResult(0, ttl.reply.d, Some(Exceeded)))
          else Refused(ttl.state, StoreFault)
        else
          var decr := DecrCmd(got.state, ip, f.onDecr);
          if decr.reply.Failed? then Refused(decr.state, StoreFault)
          else
            var expire := ExpireCmd(decr.state, ip, Window, f.onExpire);
            if expire.reply.Failed? then Refused(expire.state, StoreFault)
            else Outcome(expire.state, LimitResult(remaining - 1, Window, None))
  }

  /** handleRateLimit, command by command against the database. */
  method HandleRateLimit(db: Database, ip: string, quota: Int64, f: LimitFaults) returns (r: LimitResult)
    modifies db
    ensures db.Snapshot() == Limit(old(db.Snapshot()), ip, quota, f).state
    ensures r == Limit(old(db.Snapshot()), ip, quota, f).result
  {
    var val := db.Get(ip, f.onGet);
    if val.Nil? {
      var stored := db.Set(ip, Itoa(quota), Window, f.onSet);
      if stored.Failed? {
        return LimitResult(0, 0, Some(StoreFault));
      }
      return LimitResult(quota, Window, None);
    } else if !val.Text? {
      return LimitResult(0, 0, Some(StoreFault));
    }

    var remaining := Atoi(val.text);
    if remaining.None? {
      return LimitResult(0, 0, Some(NotNumeric));
    }
    if remaining.value <= 0 {
      var ttl := db.Ttl(ip, f.onTtl);
      if !ttl.Remaining? {
        return LimitResult(0, 0, Some(StoreFault));
      }
      return LimitResult(0, ttl.d, Some(Exceeded));
    }

    var decr := db.Decr(ip, f.onDecr);
    if decr.Failed? {
      return LimitResult(0, 0, Some(StoreFault));
    }
    var expire := db.Expire(ip, Window, f.onExpire);
    if expire.Failed? {
      return LimitResult(0, 0, Some(StoreFault));
    }
    return LimitResult(remaining.value - 1, Window, None);
  }

  // ---------------------------------------------------------------------
  // One call

  /** Both ways the window is written (SET ... EX and EXPIRE) store 30 minutes. */
  lemma WindowLifetime(previous: Option<nat>)
    ensures SetLifetime(previous, Window) == Some(WindowMillis)
    ensures ExpireSeconds(Window) * 1000 == WindowMillis
    ensures TtlReply(map["" := Entry("", Some(WindowMillis))], "") == Window
  {
  }

  /** Only the client's own key can change; every other key keeps its entry. */
  lemma LimitFrame(s: State, ip: string, quota: Int64, f: LimitFaults)
    ensures var d := Limit(s, ip, quota, f).state.data;
            forall k :: k != ip ==> (k in d <==> k in s.data) && (k in s.data ==> d[k] == s.data[k])
  {
  }

  /** First request of a window: the full quota is stored for 30 minutes and returned. */
  lemma FirstRequest(s: State, ip: string, quota: Int64, f: LimitFaults)
    requires ip !in s.data && !f.onGet && !f.onSet
    ensures Limit(s, ip, quota, f).result == LimitResult(quota, Window, None)
    ensures Limit(s, ip, quota, f).state.data == s.data[ip := Entry(Itoa(quota), Some(WindowMillis))]
    ensures Limit(s, ip, quota, f).state.log == s.log + [Get(ip), Set(ip, Itoa(quota), Window)]
  {
  }

  /** A positive counter is decremented, its window restarted, and the new value returned. */
  lemma Decrement(s: State, ip: string, quota: Int64, f: LimitFaults, v: Int64)
    requires ip in s.data && s.data[ip].value == Itoa(v) && v > 0
    requires !f.onGet && !f.onDecr && !f.onExpire
    ensures Limit(s, ip, quota, f).result == LimitResult(v - 1, Window, None)
    ensures Limit(s, ip, quota, f).state.data == s.data[ip := Entry(Itoa(v - 1), Some(WindowMillis))]
  {
    AtoiItoa(v);
  }

  /**
   * A counter at or below zero: nothing is stored, and the result carries the
   * counter's remaining lifetime and "rate limit exceeded".
   */
  lemma Exhausted(s: State, ip: string, quota: Int64, f: LimitFaults)
    requires ip in s.data && Atoi(s.data[ip].value).Some? && Atoi(s.data[ip].value).value <= 0
    requires !f.onGet && !f.onTtl
    ensures Limit(s, ip, quota, f).result == LimitResult(0, TtlReply(s.data, ip), Some(Exceeded))
    ensures Limit(s, ip, quota, f).state.data == s.data
  {
  }

  /** A stored value that is not a Go int is an error, and nothing is stored. */
  lemma NonNumericCounter(s: State, ip: string, quota: Int64, f: LimitFaults)
    requires ip in s.data && Atoi(s.data[ip].value).None? && !f.onGet
    ensures Limit(s, ip, quota, f).result == LimitResult(0, 0, Some(NotNumeric))
    ensures Limit(s, ip, quota, f).state.data == s.data
  {
  }

  /**
   * A positive counter Atoi accepts but Redis does not count with (say "+5"):
   * DECR fails, so the request is refused as a store error and nothing changes.
   */
  lemma NonCanonicalCounter(s: State, ip: string, quota: Int64, f: LimitFaults)
    requires ip in s.data && Atoi(s.data[ip].value).Some? && Atoi(s.data[ip].value).value > 0
    requires !Canonical(s.data[ip].value) && !f.onGet
    ensures Limit(s, ip, quota, f).result == LimitResult(0, 0, Some(StoreFault))
    ensures Limit(s, ip, quota, f).state.data == s.data
  {
  }

  /**
   * A failing EXPIRE after a successful DECR: the call reports an error
   * although the counter has already been decremented.
   */
  lemma DecrementedThenFailed(s: State, ip: string, quota: Int64, f: LimitFaults, v: Int64)
    requires ip in s.data && s.data[ip].value == Itoa(v) && v > 0
    requires !f.onGet && !f.onDecr && f.onExpire
    ensures Limit(s, ip, quota, f).result == LimitResult(0, 0, Some(StoreFault))
    ensures Limit(s, ip, quota, f).state.data == s.data[ip := Entry(Itoa(v - 1), s.data[ip].ttl)]
  {
    AtoiItoa(v);
  }

  /** Every successful call leaves the window at exactly 30 minutes. */
  lemma SuccessResetsWindow(s: State, ip: string, quota: Int64, f: LimitFaults)
    requires Limit(s, ip, quota, f).result.err.None?
    ensures Limit(s, ip, quota, f).result.reset == Window
    ensures ip in Limit(s, ip, quota, f).state.data
    ensures Limit(s, ip, quota, f).state.data[ip].ttl == Some(WindowMillis)
  {
    WindowLifetime(None);
    var got := GetCmd(s, ip, f.onGet);
    if !got.reply.Nil? {
      assert got.reply.Text?;
      var remaining := Atoi(got.reply.text).value;
      assert remaining > 0;
      var decr := DecrCmd(got.state, ip, f.onDecr);
      assert ip in decr.state.data;
    }
  }

  // ---------------------------------------------------------------------
  // A run of consecutive calls from one client, without faults or expiry

  /**
   * `states[j]` is the state before call j and `results[j]` what call j
   * returned, each call made by the same client with the same quota.
   */
  ghost predicate IsRun(states: seq<State>, results: seq<LimitResult>, ip: string, quota: Int64)
  {
    |states| == |results| + 1 &&
    forall j {:trigger results[j]} :: 0 <= j < |results| ==>
      Limit(states[j], ip, quota, NoLimitFaults) == Outcome(states[j + 1], results[j])
  }

  /** The counter after `k` >= 1 calls starting from a missing key. */
  function Counter(quota: int, k: nat): int
  {
    if k <= quota + 1 then quota - k + 1 else Min(quota, 0)
  }

  /** One fault-free call on a counter `c` holding a fresh window. */
  lemma CallOnCounter(s: State, ip: string, quota: Int64, c: Int64)
    requires ip in s.data && s.data[ip] == Entry(Itoa(c), Some(WindowMillis))
    ensures var o := Limit(s, ip, quota, NoLimitFaults);
            ip in o.state.data &&
            o.state.data[ip] == Entry(Itoa(if c > 0 then c - 1 else c), Some(WindowMillis)) &&
            o.result == if c > 0 then LimitResult(c - 1, Window, None)
                        else LimitResult(0, Window, Some(Exceeded))
  {
    AtoiItoa(c);
    if c > 0 {
      Decrement(s, ip, quota, NoLimitFaults, c);
    } else {
      Exhausted(s, ip, quota, NoLimitFaults);
      WindowLifetime(None);
      assert TtlReply(s.data, ip) == Window;
    }
  }

  /** After `k` >= 1 calls of a run that began without a counter, the key holds Counter(quota, k). */
  lemma {:induction false} CounterAfter(states: seq<State>, results: seq<LimitResult>, ip: string, quota: Int64, k: nat)
    requires IsRun(states, results, ip, quota) && ip !in states[0].data
    requires 1 <= k < |states|
    ensures ip in states[k].data && states[k].data[ip] == Entry(Itoa(Counter(quota, k)), Some(WindowMillis))
    ensures MinInt64 <= Counter(quota, k) <= MaxInt64
    ensures quota >= 0 ==> 0 <= Counter(quota, k) <= quota
  {
    assert Limit(states[k - 1], ip, quota, NoLimitFaults) == Outcome(states[k], results[k - 1]);
    if k == 1 {
      FirstRequest(states[0], ip, quota, NoLimitFaults);
    } else {
      CounterAfter(states, results, ip, quota, k - 1);
      var c := Counter(quota, k - 1);
      assert Counter(quota, k) == if c > 0 then c - 1 else c;
      CallOnCounter(states[k - 1], ip, quota, c);
    }
  }

  /** What call `j` of a run that began without a counter returns. */
  lemma CallResult(states: seq<State>, results: seq<LimitResult>, ip: string, quota: Int64, j: nat)
    requires IsRun(states, results, ip, quota) && ip !in states[0].data
    requires j < |results|
    ensures results[j].err.None? <==> j <= Max(quota, 0)
    ensures j <= Max(quota, 0) ==> results[j].remaining == quota - j
    ensures j > Max(quota, 0) ==> results[j] == LimitResult(0, Window, Some(Exceeded))
  {
    assert Limit(states[j], ip, quota, NoLimitFaults) == Outcome(states[j + 1], results[j]);
    if j == 0 {
      FirstRequest(states[0], ip, quota, NoLimitFaults);
    } else {
      CounterAfter(states, results, ip, quota, j);
      CallOnCounter(states[j], ip, quota, Counter(quota, j));
    }
  }

  /**
   * Consecutive fault-free calls from a client with no counter: calls
   * 0 .. max(quota, 0) succeed, call j returning quota - j (for quota >= 0
   * that is quota + 1 calls, returning quota, quota - 1, ..., 0); every
   * later call is refused with the full 30-minute window as its reset; and
   * for quota >= 0 the stored counter stays between 0 and quota.
   */
  lemma QuotaRun(states: seq<State>, results: seq<LimitResult>, ip: string, quota: Int64)
    requires IsRun(states, results, ip, quota) && ip !in states[0].data
    ensures forall j :: 0 <= j < |results| ==> (results[j].err.None? <==> j <= Max(quota, 0))
    ensures forall j :: 0 <= j < |results| && j <= Max(quota, 0) ==> results[j].remaining == quota - j
    ensures forall j :: Max(quota, 0) < j < |results| ==> results[j] == LimitResult(0, Window, Some(Exceeded))
    ensures quota >= 0 ==> forall k :: 1 <= k < |states| ==>
      ip in states[k].data && Atoi(states[k].data[ip].value).Some? &&
      0 <= Atoi(states[k].data[ip].value).value <= quota
  {
    forall j | 0 <= j < |results|
      ensures (results[j].err.None? <==> j <= Max(quota, 0))
      ensures j <= Max(quota, 0) ==> results[j].remaining == quota - j
      ensures j > Max(quota, 0) ==> results[j] == LimitResult(0, Window, Some(Exceeded))
    {
      CallResult(states, results, ip, quota, j);
    }
    forall k | 1 <= k < |states|
      ensures quota >= 0 ==> ip in states[k].data && Atoi(states[k].data[ip].value).Some? &&
                             0 <= Atoi(states[k].data[ip].value).value <= quota
    {
      CounterAfter(states, results, ip, quota, k);
      AtoiItoa(Counter(quota, k));
    }
  }

  /** Once the counter's window has run out, the next call starts a new window with the full quota. */
  lemma WindowReopens(s: State, ip: string, quota: Int64, f: LimitFaults)
    requires ip in s.data && s.data[ip].ttl.Some? && !f.onGet && !f.onSet
    ensures Limit(State(Lapse(s.data, ip), s.log), ip, quota, f).result == LimitResult(quota, Window, None)
  {
  }
}
