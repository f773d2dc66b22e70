/**
 * The fast counter store. One Redis server holds every counter; the Ruby
 * service reaches it through the global `$redis`, which is either a real client
 * or, when the server could not be reached at boot, a `NullRedis` whose every
 * command answers nil. The Go service always holds a real client.
 */
module Redis {

  /** What `$redis` holds. */
  datatype Handle = RealRedis | NullRedis

  /**
   * How the store behaves for one caller: a real client on a reachable server
   * (Live), the `NullRedis` stand-in (Null), or a real client whose server is
   * unreachable, so that every command raises (Failing).
   */
  datatype Mode = Live | Null | Failing

  function ModeOf(h: Handle, up: bool): Mode {
    if h == NullRedis then Null else if up then Live else Failing
  }

  /**
   * A command's answer as the caller receives it. `Raised` stands for the
   * connection error a real client raises in Ruby and returns as `err` in Go.
   */
  datatype Reply = Int(n: int) | Bool(b: bool) | Status(s: string) | Nil | Raised

  /** Ruby truthiness of a returned value: only `nil` and `false` are falsy. */
  predicate Truthy(r: Reply)
    requires !r.Raised?
  {
    !(r.Nil? || r == Bool(false))
  }

  /** `value.to_i` on what GET returned: nil becomes 0. */
  function ToI(r: Reply): int
    requires r.Int? || r.Nil?
  {
    if r.Int? then r.n else 0
  }

  /** The Redis server: one key space of integer counters, and whether it can be reached. */
  class Server {
    var data: map<string, int>
    var up: bool

    constructor (data0: map<string, int>, up0: bool)
      ensures data == data0 && up == up0
    {
      data := data0;
      up := up0;
    }
  }

  /** The value INCR starts from: an absent key counts as 0. */
  function Counter(data: map<string, int>, key: string): int {
    if key in data then data[key] else 0
  }

  /** The key space after `INCR key`: that one counter goes up by one, nothing else moves. */
  function AfterIncr(data: map<string, int>, key: string): (d: map<string, int>)
    ensures key in d && d[key] == Counter(data, key) + 1
    ensures forall k :: k != key ==> (k in d <==> k in data)
    ensures forall k :: k != key ==> Counter(d, k) == Counter(data, k)
  {
    data[key := Counter(data, key) + 1]
  }

  /** The key space after `SETNX key v` (Go's `SetNX`): written only when the key is absent. */
  function AfterSetNX(data: map<string, int>, key: string, v: int): (d: map<string, int>)
    ensures key in d && d.Keys == data.Keys + {key}
    ensures key in data ==> d == data
    ensures key !in data ==> d[key] == v && forall k :: k != key && k in data ==> d[k] == data[k]
    ensures forall k :: k != key ==> Counter(d, k) == Counter(data, k)
  {
    if key in data then data else data[key := v]
  }

  /** A second SETNX on the same key, with any value, changes nothing. */
  lemma SetNXIdempotent(data: map<string, int>, key: string, v: int, w: int)
    ensures AfterSetNX(AfterSetNX(data, key, v), key, w) == AfterSetNX(data, key, v)
  {
  }

  /** The key space after `n` successive `INCR key`. */
  function IncrTimes(data: map<string, int>, key: string, n: nat): map<string, int> {
    if n == 0 then data else AfterIncr(IncrTimes(data, key, n - 1), key)
  }

  /** The replies of `n` successive `INCR key`, in the order they are issued. */
  function IncrReplies(data: map<string, int>, key: string, n: nat): seq<int> {
    if n == 0 then [] else IncrReplies(data, key, n - 1) + [Counter(IncrTimes(data, key, n - 1), key) + 1]
  }

  /** After `n` INCRs the counter has moved by exactly `n`, and no other counter has moved. */
  lemma {:induction false} IncrTimesMovesOneCounter(data: map<string, int>, key: string, n: nat)
    ensures Counter(IncrTimes(data, key, n), key) == Counter(data, key) + n
    ensures forall k :: k != key ==> Counter(IncrTimes(data, key, n), k) == Counter(data, k)
  {
    if n > 0 {
      IncrTimesMovesOneCounter(data, key, n - 1);
    }
  }

  /** Successive INCRs on one key answer c+1, c+2, ..., c+n, where c is the value before them. */
  lemma {:induction false} IncrRepliesConsecutive(data: map<string, int>, key: string, n: nat)
    ensures |IncrReplies(data, key, n)| == n
    ensures forall i :: 0 <= i < n ==> IncrReplies(data, key, n)[i] == Counter(data, key) + i + 1
  {
    if n > 0 {
      IncrRepliesConsecutive(data, key, n - 1);
      IncrTimesMovesOneCounter(data, key, n - 1);
    }
  }

  /** So the numbers issued on one key are strictly increasing, hence distinct. */
  lemma IncrRepliesIncreasing(data: map<string, int>, key: string, n: nat)
    ensures forall i, j :: 0 <= i < j < |IncrReplies(data, key, n)| ==>
      IncrReplies(data, key, n)[i] < IncrReplies(data, key, n)[j]
  {
    IncrRepliesConsecutive(data, key, n);
  }

  /** On an absent or zero-initialised key they are exactly 1, 2, ..., n. */
  lemma FreshKeyRepliesFromOne(data: map<string, int>, key: string, n: nat)
    requires key !in data || data[key] == 0
    ensures forall i :: 0 <= i < |IncrReplies(data, key, n)| ==> IncrReplies(data, key, n)[i] == i + 1
  {
    IncrRepliesConsecutive(data, key, n);
  }

  // ---------------------------------------------------------------------------
  // The commands the services issue

  /** `INCR key`: atomically add one and return the new value. */
  method Incr(h: Handle, s: Server, key: string) returns (r: Reply)
    modifies s`data
    ensures ModeOf(h, s.up) == Live ==>
      r == Int(Counter(old(s.data), key) + 1) && s.data == AfterIncr(old(s.data), key)
    ensures ModeOf(h, s.up) == Null ==> r == Nil && s.data == old(s.data)
    ensures ModeOf(h, s.up) == Failing ==> r == Raised && s.data == old(s.data)
  {
    match ModeOf(h, s.up)
    case Live =>
      s.data := AfterIncr(s.data, key);
      r := Int(s.data[key]);
    case Null =>
      r := Nil;
    case Failing =>
      r := Raised;
  }

  /** `GET key`: the stored value, or nil for an absent key. */
  method Get(h: Handle, s: Server, key: string) returns (r: Reply)
    ensures ModeOf(h, s.up) == Live ==> r == (if key in s.data then Int(s.data[key]) else Nil)
    ensures ModeOf(h, s.up) == Null ==> r == Nil
    ensures ModeOf(h, s.up) == Failing ==> r == Raised
  {
    match ModeOf(h, s.up)
    case Live =>
      r := if key in s.data then Int(s.data[key]) else Nil;
    case Null =>
      r := Nil;
    case Failing =>
      r := Raised;
  }

  /** `SET key v`: overwrite unconditionally. */
  method Set(h: Handle, s: Server, key: string, v: int) returns (r: Reply)
    modifies s`data
    ensures ModeOf(h, s.up) == Live ==> r == Status("OK") && s.data == old(s.data)[key := v]
    ensures ModeOf(h, s.up) == Null ==> r == Nil && s.data == old(s.data)
    ensures ModeOf(h, s.up) == Failing ==> r == Raised && s.data == old(s.data)
  {
    match ModeOf(h, s.up)
    case Live =>
      s.data := s.data[key := v];
      r := Status("OK");
    case Null =>
      r := Nil;
    case Failing =>
      r := Raised;
  }

  /** `SETNX key v` (Go's `SetNX` with no expiry): write only if absent. */
  method SetNX(h: Handle, s: Server, key: string, v: int) returns (r: Reply)
    modifies s`data
    ensures ModeOf(h, s.up) == Live ==>
      r == Bool(key !in old(s.data)) && s.data == AfterSetNX(old(s.data), key, v)
    ensures ModeOf(h, s.up) == Null ==> r == Nil && s.data == old(s.data)
    ensures ModeOf(h, s.up) == Failing ==> r == Raised && s.data == old(s.data)
  {
    match ModeOf(h, s.up)
    case Live =>
      r := Bool(key !in s.data);
      s.data := AfterSetNX(s.data, key, v);
    case Null =>
      r := Nil;
    case Failing =>
      r := Raised;
  }

  /**
   * `exists(key)` in the redis-rb 5 client: the NUMBER of the given keys that
   * exist, so 0 or 1 here. Both are truthy in Ruby.
   */
  method Exists(h: Handle, s: Server, key: string) returns (r: Reply)
    ensures ModeOf(h, s.up) == Live ==> r == Int(if key in s.data then 1 else 0) && Truthy(r)
    ensures ModeOf(h, s.up) == Null ==> r == Nil && !Truthy(r)
    ensures ModeOf(h, s.up) == Failing ==> r == Raised
  {
    match ModeOf(h, s.up)
    case Live =>
      r := Int(if key in s.data then 1 else 0);
    case Null =>
      r := Nil;
    case Failing =>
      r := Raised;
  }

  /** `exists?(key)`: true or false, so its truthiness is the key's presence. */
  method ExistsQ(h: Handle, s: Server, key: string) returns (r: Reply)
    ensures ModeOf(h, s.up) == Live ==> r == Bool(key in s.data) && (Truthy(r) <==> key in s.data)
    ensures ModeOf(h, s.up) == Null ==> r == Nil && !Truthy(r)
    ensures ModeOf(h, s.up) == Failing ==> r == Raised
  {
    match ModeOf(h, s.up)
    case Live =>
      r := Bool(key in s.data);
    case Null =>
      r := Nil;
    case Failing =>
      r := Raised;
  }

  /** `PING`. `NullRedis` defines it to answer 'PONG' whatever the server's state. */
  method Ping(h: Handle, s: Server) returns (r: Reply)
    ensures h == NullRedis ==> r == Status("PONG")
    ensures h == RealRedis ==> r == (if s.up then Status("PONG") else Raised)
  {
    if h == NullRedis || s.up {
      r := Status("PONG");
    } else {
      r := Raised;
    }
  }

  /** `NullRedis#respond_to_missing?`: it claims to answer every method name. */
  function NullRespondsTo(methodName: string): (responds: bool)
    ensures responds
  {
    true
  }

  // ---------------------------------------------------------------------------
  // Boot and health

  /**
   * config/initializers/redis.rb: build a client and ping it; if that raises,
   * install `NullRedis` so that boot carries on.
   */
  method Install(s: Server) returns (h: Handle)
    ensures h == NullRedis <==> !s.up
    ensures ModeOf(h, s.up) != Failing
  {
    var pong := Ping(RealRedis, s);
    if pong.Raised? {
      h := NullRedis;
    } else {
      h := RealRedis;
    }
  }

  /** The health controller's Redis check: `$redis.ping == 'PONG'`, false if it raises. */
  method CheckRedis(h: Handle, s: Server) returns (ok: bool)
    ensures ok <==> h == NullRedis || s.up
  {
    var pong := Ping(h, s);
    ok := pong == Status("PONG");
  }
}
