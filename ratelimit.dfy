// The in-memory fixed-window rate limiter of the contact endpoint: a table
// from client key to a window record, at most `RateLimitMax` admissions per
// window, and a window that is reset lazily by the first call after it ends.
// The clock is a parameter (`now`, in milliseconds).

module RateLimit {

  const RateLimitMax: nat := 5
  /** One hour, in milliseconds. */
  const RateLimitWindowMs: nat := 60 * 60 * 1000

  /** `{ count, resetTime }`. */
  datatype Window = Window(count: nat, resetTime: int)

  /** The answer of one call and the table it leaves behind. */
  datatype Outcome = Outcome(allowed: bool, table: map<string, Window>)

  /** One call of `checkRateLimit(key)` at time `now`. */
  function Check(table: map<string, Window>, key: string, now: int): (o: Outcome)
    ensures key in o.table && o.table == table[key := o.table[key]]
    ensures o.allowed <==> key !in table || now > table[key].resetTime || table[key].count < RateLimitMax
    ensures !o.allowed ==> o.table == table
    ensures o.allowed ==> 1 <= o.table[key].count && now <= o.table[key].resetTime
    ensures (key in table ==> table[key].count <= RateLimitMax) ==> o.table[key].count <= RateLimitMax
  {
    if key !in table || now > table[key].resetTime then
      Outcome(true, table[key := Window(1, now + RateLimitWindowMs)])
    else if table[key].count >= RateLimitMax then
      Outcome(false, table)
    else
      Outcome(true, table[key := Window(table[key].count + 1, table[key].resetTime)])
  }

  /** The class invariant: no record has admitted more than the limit. */
  predicate CountsBounded(table: map<string, Window>)
  {
    forall k :: k in table ==> table[k].count <= RateLimitMax
  }

  /** The limiter keeps its invariant. */
  lemma CheckKeepsBounded(table: map<string, Window>, key: string, now: int)
    requires CountsBounded(table)
    ensures CountsBounded(Check(table, key, now).table)
  {
    var o := Check(table, key, now);
    forall k | k in o.table ensures o.table[k].count <= RateLimitMax {
      if k != key {
        assert o.table[k] == table[k];
      }
    }
  }

  /** A full window refuses even at exactly its reset time: the reset
      needs `now > resetTime`. */
  lemma FullWindowRefusesAtResetTime(table: map<string, Window>, key: string)
    requires key in table && table[key].count == RateLimitMax
    ensures !Check(table, key, table[key].resetTime).allowed
    ensures Check(table, key, table[key].resetTime + 1) == Outcome(true, table[key := Window(1, table[key].resetTime + 1 + RateLimitWindowMs)])
  {
  }

  /** A request: the client key and the time it arrives. */
  datatype Call = Call(key: string, now: int)

  /** How many of `calls`, made in order against `table`, were admitted for
      `key` (calls for other keys go through the same table). */
  function AdmittedFor(table: map<string, Window>, calls: seq<Call>, key: string): (n: nat)
    ensures n <= |calls|
    decreases |calls|
  {
    if calls == [] then 0
    else
      var o := Check(table, calls[0].key, calls[0].now);
      (if calls[0].key == key && o.allowed then 1 else 0) + AdmittedFor(o.table, calls[1..], key)
  }

  /** While a window is open, a key is admitted at most as many more times
      as the window has left, however the calls of other keys interleave. */
  lemma {:induction false} WithinOpenWindow(table: map<string, Window>, calls: seq<Call>, key: string)
    requires key in table && table[key].count <= RateLimitMax
    requires forall i | 0 <= i < |calls| && calls[i].key == key :: calls[i].now <= table[key].resetTime
    ensures AdmittedFor(table, calls, key) <= RateLimitMax - table[key].count
    decreases |calls|
  {
    if calls != [] {
      var o := Check(table, calls[0].key, calls[0].now);
      assert o.table[key] == if calls[0].key == key && o.allowed then Window(table[key].count + 1, table[key].resetTime) else table[key];
      forall i | 0 <= i < |calls[1..]| && calls[1..][i].key == key
        ensures calls[1..][i].now <= o.table[key].resetTime
      {
        assert calls[1..][i] == calls[i + 1];
      }
      WithinOpenWindow(o.table, calls[1..], key);
    }
  }

  /** The call that opens a window, together with every later call for the
      same key up to the window's end, is admitted at most five times. */
  lemma AtMostMaxPerWindow(table: map<string, Window>, calls: seq<Call>, key: string)
    requires |calls| > 0 && calls[0].key == key
    requires key !in table || calls[0].now > table[key].resetTime
    requires forall i | 0 <= i < |calls| && calls[i].key == key :: calls[i].now <= calls[0].now + RateLimitWindowMs
    ensures AdmittedFor(table, calls, key) <= RateLimitMax
  {
    var o := Check(table, key, calls[0].now);
    assert o.table[key] == Window(1, calls[0].now + RateLimitWindowMs);
    forall i | 0 <= i < |calls[1..]| && calls[1..][i].key == key
      ensures calls[1..][i].now <= o.table[key].resetTime
    {
      assert calls[1..][i] == calls[i + 1];
    }
    WithinOpenWindow(o.table, calls[1..], key);
  }

  /** The table after `calls`, made in order. */
  function After(table: map<string, Window>, calls: seq<Call>): map<string, Window>
    decreases |calls|
  {
    if calls == [] then table
    else After(Check(table, calls[0].key, calls[0].now).table, calls[1..])
  }

  /** Calls for one key inside its open window, no more than it has left,
      each count one more and leave every other key alone. */
  lemma {:induction false} OpenWindowCounts(table: map<string, Window>, key: string, calls: seq<Call>)
    requires key in table && table[key].count + |calls| <= RateLimitMax
    requires forall i | 0 <= i < |calls| :: calls[i].key == key && calls[i].now <= table[key].resetTime
    ensures key in After(table, calls)
    ensures After(table, calls)[key] == Window(table[key].count + |calls|, table[key].resetTime)
    ensures forall k :: k != key ==> (k in After(table, calls) <==> k in table)
    decreases |calls|
  {
    if calls != [] {
      var t := Check(table, key, calls[0].now).table;
      assert t[key] == Window(table[key].count + 1, table[key].resetTime);
      forall i | 0 <= i < |calls[1..]|
        ensures calls[1..][i].key == key && calls[1..][i].now <= t[key].resetTime
      {
        assert calls[1..][i] == calls[i + 1];
      }
      OpenWindowCounts(t, key, calls[1..]);
    }
  }

  /** Five requests from one address inside an hour leave the sixth in that
      hour refused, while an address not seen before still gets through. */
  lemma SixthInWindowRefused(table: map<string, Window>, key: string, other: string, calls: seq<Call>, last: int)
    requires |calls| == 5 && forall i | 0 <= i < 5 :: calls[i].key == key
    requires key !in table || calls[0].now > table[key].resetTime
    requires forall i | 0 <= i < 5 :: calls[i].now <= calls[0].now + RateLimitWindowMs
    requires last <= calls[0].now + RateLimitWindowMs
    requires other != key && other !in table
    ensures !Check(After(table, calls), key, last).allowed
    ensures Check(After(table, calls), other, last).allowed
  {
    var t := Check(table, key, calls[0].now).table;
    assert t[key] == Window(1, calls[0].now + RateLimitWindowMs);
    forall i | 0 <= i < |calls[1..]|
      ensures calls[1..][i].key == key && calls[1..][i].now <= t[key].resetTime
    {
      assert calls[1..][i] == calls[i + 1];
    }
    OpenWindowCounts(t, key, calls[1..]);
    assert After(table, calls) == After(t, calls[1..]);
  }

  /** `rateLimitMap` and `checkRateLimit`. */
  class RateLimiter {
    var table: map<string, Window>

    ghost predicate Valid()
      reads this
    {
      CountsBounded(table)
    }

    /** A cold start: the map is empty. */
    constructor()
      ensures table == map[] && Valid()
    {
      table := map[];
    }

    /** Opens a fresh window for a new key or an expired one, refuses a key
        whose window is full, and otherwise counts one more request. */
    method CheckRateLimit(clientIp: string, now: int) returns (allowed: bool)
      requires Valid()
      modifies this
      ensures Valid()
      ensures allowed == Check(old(table), clientIp, now).allowed
      ensures table == Check(old(table), clientIp, now).table
    {
      CheckKeepsBounded(table, clientIp, now);
      if clientIp !in table || now > table[clientIp].resetTime {
        table := table[clientIp := Window(1, now + RateLimitWindowMs)];
        return true;
      }
      var record := table[clientIp];
      if record.count >= RateLimitMax {
        return false;
      }
      table := table[clientIp := record.(count := record.count + 1)];
      return true;
    }
  }
}
