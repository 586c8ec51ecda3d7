/**
 * The Redis database the handler talks to, reduced to the commands it
 * issues (GET, SET with expiration, DECR, EXPIRE, TTL) as go-redis sends
 * them. Every key holds a string and an optional remaining lifetime in
 * milliseconds. Each command is appended to a log, so that which commands
 * a request issued can be stated; a command may be told to fail (a
 * connection error), in which case it changes nothing.
 */
module KeyValue {
  import opened Wrappers
  import opened GoInt
  import opened Strconv

  /** A stored string with its remaining lifetime in milliseconds (None: no expiry). */
  datatype Entry = Entry(value: string, ttl: Option<nat>)

  datatype Command =
    | Open(db: nat)
    | Close
    | Get(key: string)
    | Set(key: string, value: string, expiration: Duration)
    | Decr(key: string)
    | Expire(key: string, expiration: Duration)
    | Ttl(key: string)

  datatype Reply =
    | Nil                     // GET of a missing key (redis.Nil)
    | Text(text: string)      // GET of a present key
    | Number(n: int)          // DECR and EXPIRE
    | Remaining(d: Duration)  // TTL, as go-redis returns it
    | Done                    // SET, and opening or closing a client
    | Failed                  // any error reply or connection error

  datatype State = State(data: map<string, Entry>, log: seq<Command>)

  datatype Step = Step(state: State, reply: Reply)

  /** go-redis's KeepTTL sentinel for SET. */
  const KeepTtl: Duration := -1

  /**
   * Lifetime after SET with expiration `d`: go-redis sends EX seconds or
   * PX milliseconds for d > 0 (at least one millisecond), KEEPTTL for
   * KeepTtl, and nothing otherwise, which leaves the key without expiry.
   */
  function SetLifetime(previous: Option<nat>, d: Duration): (t: Option<nat>)
    ensures d > 0 ==> t.Some? && t.value >= 1 && t.value * Millisecond <= Max(d, Millisecond)
    ensures d >= Millisecond ==> t.value * Millisecond <= d < t.value * Millisecond + Millisecond
    ensures d <= 0 && d != KeepTtl ==> t == None
    ensures d == KeepTtl ==> t == previous
  {
    if d > 0 then Some(if d < Millisecond then 1 else Quo(d, Millisecond))
    else if d == KeepTtl then previous
    else None
  }

  /** go-redis's rounding of an EXPIRE duration to whole seconds. */
  function ExpireSeconds(d: Duration): (sec: int)
    ensures 0 < d < Second ==> sec == 1
    ensures d >= Second ==> sec >= 1 && sec * Second <= d < sec * Second + Second
    ensures d <= 0 ==> sec <= 0 && (sec == 0 <==> d > -Second)
  {
    if 0 < d < Second then 1 else Quo(d, Second)
  }

  /** Lifetimes up to this many milliseconds (about 285 years) have a TTL reply that does not wrap. */
  const MaxTtlMillis: nat := 9_000_000_000_000

  /**
   * TTL reply: -2 for a missing key and -1 for a key without expiry (go-redis
   * passes both through as nanoseconds); otherwise Redis rounds the
   * remaining milliseconds to seconds and go-redis scales them by Second.
   */
  function TtlReply(data: map<string, Entry>, key: string): (r: Duration)
    ensures key !in data ==> r == -2
    ensures key in data && data[key].ttl.None? ==> r == -1
    ensures key in data && data[key].ttl.Some? && data[key].ttl.value <= MaxTtlMillis ==>
      r >= 0 && r % Second == 0 &&
      (r / Second) * 1000 <= data[key].ttl.value + 500 < (r / Second) * 1000 + 1000
  {
    if key !in data then -2
    else if data[key].ttl.None? then -1
    else Wrap64((data[key].ttl.value + 500) / 1000 * Second)
  }

  /** A command appended to the log; the data are unchanged. */
  function Logged(s: State, c: Command): (t: State)
    ensures t.data == s.data && t.log == s.log + [c]
  {
    State(s.data, s.log + [c])
  }

  /** Connection failures: the command is logged and fails without effect. */
  function Down(s: State, c: Command): Step
  {
    Step(Logged(s, c), Failed)
  }

  /** Creating a client (database.CreateClient), which never fails. */
  function OpenCmd(s: State, db: nat): State
  {
    Logged(s, Open(db))
  }

  /** Closing the client. */
  function CloseCmd(s: State): State
  {
    Logged(s, Close)
  }

  /** GET: the stored string, or redis.Nil for a missing key. */
  function GetCmd(s: State, k: string, down: bool): Step
  {
    if down then Down(s, Get(k))
    else Step(Logged(s, Get(k)), if k in s.data then Text(s.data[k].value) else Nil)
  }

  /** SET with an expiration: the key now holds `v`, its lifetime per SetLifetime. */
  function SetCmd(s: State, k: string, v: string, d: Duration, down: bool): Step
  {
    if down then Down(s, Set(k, v, d))
    else
      var previous := if k in s.data then s.data[k].ttl else None;
      Step(State(s.data[k := Entry(v, SetLifetime(previous, d))], s.log + [Set(k, v, d)]), Done)
  }

  /**
   * DECR: a missing key becomes "-1" without expiry; a canonical integer
   * above the int64 minimum is decremented and keeps its lifetime;
   * anything else is an error reply and changes nothing.
   */
  function DecrCmd(s: State, k: string, down: bool): Step
  {
    var log := s.log + [Decr(k)];
    if down then Down(s, Decr(k))
    else if k !in s.data then Step(State(s.data[k := Entry(Itoa(-1), None)], log), Number(-1))
    else if Canonical(s.data[k].value) && Atoi(s.data[k].value).value > MinInt64 then
      var n := Atoi(s.data[k].value).value - 1;
      Step(State(s.data[k := Entry(Itoa(n), s.data[k].ttl)], log), Number(n))
    else Step(State(s.data, log), Failed)
  }

  /**
   * EXPIRE: a missing key is left alone (reply 0); a duration of zero
   * seconds or less deletes the key; otherwise the lifetime is replaced.
   */
  function ExpireCmd(s: State, k: string, d: Duration, down: bool): Step
  {
    var log := s.log + [Expire(k, d)];
    if down then Down(s, Expire(k, d))
    else if k !in s.data then Step(State(s.data, log), Number(0))
    else if ExpireSeconds(d) <= 0 then Step(State(s.data - {k}, log), Number(1))
    else Step(State(s.data[k := Entry(s.data[k].value, Some(ExpireSeconds(d) * 1000))], log), Number(1))
  }

  /** TTL: the remaining lifetime as TtlReply gives it. */
  function TtlCmd(s: State, k: string, down: bool): Step
  {
    if down then Down(s, Ttl(k))
    else Step(Logged(s, Ttl(k)), Remaining(TtlReply(s.data, k)))
  }

  /** Commands touch only their own key, and a failed command changes nothing. */
  lemma CommandFrame(s: State, k: string, v: string, d: Duration, down: bool)
    ensures forall t :: t in [GetCmd(s, k, down), SetCmd(s, k, v, d, down), DecrCmd(s, k, down),
                              ExpireCmd(s, k, d, down), TtlCmd(s, k, down)] ==>
      (t.reply.Failed? ==> t.state.data == s.data) &&
      forall j :: j != k ==> (j in t.state.data <==> j in s.data) &&
                             (j in s.data ==> t.state.data[j] == s.data[j])
  {
  }

  /** The lifetime of `key` runs out: a key with an expiry disappears. */
  function Lapse(data: map<string, Entry>, key: string): (d: map<string, Entry>)
    ensures key in data && data[key].ttl.Some? ==> key !in d
    ensures !(key in data && data[key].ttl.Some?) ==> d == data
    ensures forall k :: k != key ==> (k in d <==> k in data) && (k in data ==> d[k] == data[k])
  {
    if key in data && data[key].ttl.Some? then data - {key} else data
  }

  /** Reading a key right after a successful SET returns what was stored. */
  lemma SetThenGet(s: State, k: string, v: string, d: Duration)
    ensures GetCmd(SetCmd(s, k, v, d, false).state, k, false).reply == Text(v)
  {
  }

  /** Reading twice in a row gives the same answer and changes nothing stored. */
  lemma GetIdempotent(s: State, k: string)
    ensures var first := GetCmd(s, k, false);
            var second := GetCmd(first.state, k, false);
            first.reply == second.reply && second.state.data == s.data
  {
  }

  /** A key SET with a positive expiration is gone once that lifetime has run out. */
  lemma SetThenLapse(s: State, k: string, v: string, d: Duration)
    requires d > 0
    ensures var after := SetCmd(s, k, v, d, false).state;
            GetCmd(State(Lapse(after.data, k), after.log), k, false).reply == Nil
  {
  }

  /** A Redis database shared by all requests. */
  class Database {
    var data: map<string, Entry>
    var log: seq<Command>

    constructor ()
      ensures data == map[] && log == []
    {
      data := map[];
      log := [];
    }

    function Snapshot(): State
      reads this
    {
      State(data, log)
    }

    method Open(db: nat)
      modifies this
      ensures Snapshot() == OpenCmd(old(Snapshot()), db)
    {
      log := log + [Command.Open(db)];
    }

    method Close()
      modifies this
      ensures Snapshot() == CloseCmd(old(Snapshot()))
    {
      log := log + [Command.Close];
    }

    method Get(k: string, down: bool) returns (reply: Reply)
      modifies this
      ensures Snapshot() == GetCmd(old(Snapshot()), k, down).state
      ensures reply == GetCmd(old(Snapshot()), k, down).reply
    {
      var step := GetCmd(Snapshot(), k, down);
      data, log, reply := step.state.data, step.state.log, step.reply;
    }

    method Set(k: string, v: string, d: Duration, down: bool) returns (reply: Reply)
      modifies this
      ensures Snapshot() == SetCmd(old(Snapshot()), k, v, d, down).state
      ensures reply == SetCmd(old(Snapshot()), k, v, d, down).reply
    {
      var step := SetCmd(Snapshot(), k, v, d, down);
      data, log, reply := step.state.data, step.state.log, step.reply;
    }

    method Decr(k: string, down: bool) returns (reply: Reply)
      modifies this
      ensures Snapshot() == DecrCmd(old(Snapshot()), k, down).state
      ensures reply == DecrCmd(old(Snapshot()), k, down).reply
    {
      var step := DecrCmd(Snapshot(), k, down);
      data, log, reply := step.state.data, step.state.log, step.reply;
    }

    method Expire(k: string, d: Duration, down: bool) returns (reply: Reply)
      modifies this
      ensures Snapshot() == ExpireCmd(old(Snapshot()), k, d, down).state
      ensures reply == ExpireCmd(old(Snapshot()), k, d, down).reply
    {
      var step := ExpireCmd(Snapshot(), k, d, down);
      data, log, reply := step.state.data, step.state.log, step.reply;
    }

    method Ttl(k: string, down: bool) returns (reply: Reply)
      modifies this
      ensures Snapshot() == TtlCmd(old(Snapshot()), k, down).state
      ensures reply == TtlCmd(old(Snapshot()), k, down).reply
    {
      var step := TtlCmd(Snapshot(), k, down);
      data, log, reply := step.state.data, step.state.log, step.reply;
    }

    /** Time passes until `key` expires. */
    method Elapse(key: string)
      modifies this
      ensures data == Lapse(old(data), key) && log == old(log)
    {
      data := Lapse(data, key);
    }
  }
}
