/** The Redis fixed-window rate limiter. Times are milliseconds. */
module RateLimiter {
  import opened Domain

  const SECOND := 1000000000
  const MILLISECOND := 1000000

  /** Go's integer division, which truncates toward zero. */
  function Quotient(n: int, d: int): (q: int)
    requires d > 0
    ensures n >= 0 ==> q * d <= n < q * d + d
    ensures n < 0 ==> q * d - d < n <= q * d
  {
    if n >= 0 then n / d else -((-n) / d)
  }

  /** A Redis counter; INCR alone leaves it with no expiry. */
  datatype Counter = Counter(count: nat, expires: Option<int>)

  /** Redis drops a key once the clock is past its expiry. */
  predicate Live(c: Option<Counter>, now: int)
  {
    c.Some? && (c.value.expires.Some? ==> now <= c.value.expires.value)
  }

  datatype Reply = Reply(counter: Option<Counter>, count: nat, ttl: int)

  /** The whole script, which Redis runs at one instant; an expiry that is not in the future deletes the key. */
  function Script(c: Option<Counter>, now: int, window: int): Reply
  {
    var count := if Live(c, now) then c.value.count + 1 else 1;
    var expires := if Live(c, now) then c.value.expires else None;
    if expires.Some? then Reply(Some(Counter(count, expires)), count, expires.value - now)
    else Reply(if window <= 0 then None else Some(Counter(count, Some(now + window))), count, window)
  }

  /** Seconds until reset, from a reply's milliseconds, rounded up. */
  function ResetSeconds(ttl: int): int
  {
    Quotient(ttl * MILLISECOND + SECOND - 1, SECOND)
  }

  function Remaining(limit: int, count: nat): nat
  {
    if limit - count > 0 then limit - count else 0
  }

  function Key(scope: string, ip: string): string
  {
    "rate:" + scope + ":" + ip
  }

  datatype Decision =
    | Unlimited
    | Pass(left: nat, reset: int)
    | TooManyRequests(left: nat, reset: int)

  class Limiter {
    var counters: map<string, Counter>

    constructor ()
      ensures counters == map[]
    {
      counters := map[];
    }

    function CounterOf(key: string): Option<Counter>
      reads this
    {
      if key in counters then Some(counters[key]) else None
    }

    /** One run of the script, command by command. */
    method Hit(key: string, window: int, now: int) returns (count: nat, ttl: int)
      modifies this
      ensures var r := Script(old(CounterOf(key)), now, Quotient(window, MILLISECOND));
        count == r.count && ttl == r.ttl * MILLISECOND && CounterOf(key) == r.counter
      ensures counters - {key} == old(counters) - {key}
    {
      var ms := Quotient(window, MILLISECOND);
      if key in counters && counters[key].expires.Some? && counters[key].expires.value < now {
        counters := counters - {key};
      }
      if key in counters {
        counters := counters[key := counters[key].(count := counters[key].count + 1)];
      } else {
        counters := counters[key := Counter(1, None)];
      }
      count := counters[key].count;
      var pttl := if counters[key].expires.Some? then counters[key].expires.value - now else -1;
      if pttl < 0 {
        if ms <= 0 {
          counters := counters - {key};
        } else {
          counters := counters[key := counters[key].(expires := Some(now + ms))];
        }
        pttl := ms;
      }
      ttl := pttl * MILLISECOND;
    }

    /** The middleware: passes when Redis fails, refuses above the limit. */
    method Limit(scope: string, ip: string, limit: int, window: int, now: int, answers: bool) returns (d: Decision)
      modifies this
      ensures !answers ==> d == Unlimited && counters == old(counters)
      ensures answers ==>
        var r := Script(old(CounterOf(Key(scope, ip))), now, Quotient(window, MILLISECOND));
        && CounterOf(Key(scope, ip)) == r.counter
        && (r.count <= limit ==> d == Pass(Remaining(limit, r.count), ResetSeconds(r.ttl)))
        && (r.count > limit ==> d == TooManyRequests(0, ResetSeconds(r.ttl)))
      ensures counters - {Key(scope, ip)} == old(counters) - {Key(scope, ip)}
    {
      if !answers {
        return Unlimited;
      }
      var count, ttl := Hit(Key(scope, ip), window, now);
      var reset := Quotient(ttl + SECOND - 1, SECOND);
      var left := if limit - count > 0 then limit - count else 0;
      if count > limit {
        return TooManyRequests(left, reset);
      }
      return Pass(left, reset);
    }
  }

  /** Two scopes, and two clients of one scope, never share a counter. */
  lemma {:induction false} KeysAreDistinct(scope: string, ip: string, scope': string, ip': string)
    requires Key(scope, ip) == Key(scope', ip') && ':' !in scope && ':' !in scope'
    ensures scope == scope' && ip == ip'
  {
    var tail, tail' := scope + ":" + ip, scope' + ":" + ip';
    assert Key(scope, ip) == "rate:" + tail && Key(scope', ip') == "rate:" + tail';
    assert tail == Key(scope, ip)[5..] && tail' == Key(scope', ip')[5..];
    ScopeEnds(scope, ip, scope', ip');
  }

  lemma {:induction false} ScopeEnds(scope: string, ip: string, scope': string, ip': string)
    requires scope + ":" + ip == scope' + ":" + ip' && ':' !in scope && ':' !in scope'
    ensures scope == scope' && ip == ip'
  {
    var k, k' := scope + ":" + ip, scope' + ":" + ip';
    assert k[|scope|] == ':' && k'[|scope'|] == ':';
    assert forall i :: 0 <= i < |scope| ==> k[i] == scope[i];
    assert forall i :: 0 <= i < |scope'| ==> k'[i] == scope'[i];
    assert |scope| == |scope'|;
    assert scope == k[..|scope|] && scope' == k'[..|scope'|];
    assert ip == k[|scope| + 1..] && ip' == k'[|scope'| + 1..];
  }
}

/** What the limiter guarantees over every sequence of requests of one client. */
module RateBounds {
  import opened Domain
  import opened RateLimiter

  /** Limit and window, the window in milliseconds. */
  datatype Policy = Policy(limit: int, window: int)

  predicate Sorted(times: seq<int>)
  {
    forall i, j :: 0 <= i < j < |times| ==> times[i] <= times[j]
  }

  /** The counter after requests at `times`. */
  function After(p: Policy, times: seq<int>): Option<Counter>
    decreases |times|, 1
  {
    if times == [] then None else LastReply(p, times).counter
  }

  /** The script's answer to the last request. */
  function LastReply(p: Policy, times: seq<int>): Reply
    requires times != []
    decreases |times|, 0
  {
    Script(After(p, times[..|times| - 1]), times[|times| - 1], p.window)
  }

  predicate LastPasses(p: Policy, times: seq<int>)
    requires times != []
  {
    LastReply(p, times).count <= p.limit
  }

  /** How many requests in [from, from + window) were let through. */
  function Passed(p: Policy, times: seq<int>, from: int): nat
  {
    if times == [] then 0
    else
      var t := times[|times| - 1];
      Passed(p, times[..|times| - 1], from) + (if from <= t < from + p.window && LastPasses(p, times) then 1 else 0)
  }

  /** Every counter the script leaves behind expires within one window. */
  lemma {:induction false} CountersExpire(p: Policy, times: seq<int>)
    requires p.window >= 1 && Sorted(times) && times != []
    ensures var c := After(p, times);
      var last := times[|times| - 1];
      && c.Some? && c.value.count >= 1 && c.value.expires.Some?
      && last <= c.value.expires.value <= last + p.window
    decreases |times|
  {
    var before := times[..|times| - 1];
    if before != [] {
      assert before[|before| - 1] == times[|times| - 2] <= times[|times| - 1];
      CountersExpire(p, before);
    } else {
      assert After(p, before) == None;
    }
  }

  /** A counter someone left without expiry gets one on its next request. */
  lemma MissingExpiryIsRepaired(c: Counter, now: int, window: int)
    requires window >= 1 && c.expires.None?
    ensures Script(Some(c), now, window).counter == Some(Counter(c.count + 1, Some(now + window)))
  {
  }

  function Min(a: int, b: int): int
  {
    if a <= b then a else b
  }

  /** What the requests so far used up, by when the current window start. */
  lemma {:induction false} Usage(p: Policy, times: seq<int>, from: int)
    requires p.limit >= 1 && p.window >= 1 && Sorted(times) && times != []
    ensures var c := After(p, times);
      var passed := Passed(p, times, from);
      && c.Some? && c.value.expires.Some? && c.value.count >= 1
      && var start := c.value.expires.value - p.window;
         var used := Min(c.value.count, p.limit);
         && (times[|times| - 1] < from ==> passed == 0)
         && (start < from ==> passed <= used - 1)
         && (from <= start < from + p.window ==> passed <= p.limit - 1 + used)
         && passed <= 2 * p.limit - 1
    decreases |times|
  {
    CountersExpire(p, times);
    var before := times[..|times| - 1];
    if before != [] {
      assert before[|before| - 1] == times[|times| - 2] <= times[|times| - 1];
      CountersExpire(p, before);
      Usage(p, before, from);
    } else {
      assert After(p, before) == None;
    }
  }

  /** Any half-open interval one window long lets through at most twice the limit less one. */
  lemma RateBound(p: Policy, times: seq<int>, from: int)
    requires p.limit >= 1 && p.window >= 1 && Sorted(times)
    ensures Passed(p, times, from) <= 2 * p.limit - 1
  {
    if times != [] {
      Usage(p, times, from);
    }
  }

  function Copies(t: int, k: nat): seq<int>
  {
    seq(k, _ => t)
  }

  /** Requests that arrive before the expiry only raise the count. */
  lemma {:induction false} SameWindow(p: Policy, times: seq<int>, more: seq<int>)
    requires var c := After(p, times); c.Some? && c.value.expires.Some? && forall t :: t in more ==> t <= c.value.expires.value
    ensures var c := After(p, times); After(p, times + more) == Some(Counter(c.value.count + |more|, c.value.expires))
    decreases |more|
  {
    if more == [] {
      assert times + more == times;
    } else {
      var init := more[..|more| - 1];
      assert forall t :: t in init ==> t in more;
      SameWindow(p, times, init);
      assert (times + more)[..|times + more| - 1] == times + init;
      assert more[|more| - 1] in more;
    }
  }

  /** The advertised remainder is exact: of the requests before the reset, that many pass and no more. */
  lemma RemainingIsExact(p: Policy, times: seq<int>, more: seq<int>)
    requires p.window >= 1 && times != [] && Sorted(times) && more != []
    requires forall t :: t in more ==> t <= times[|times| - 1] + LastReply(p, times).ttl
    ensures LastPasses(p, times + more) <==> |more| <= Remaining(p.limit, LastReply(p, times).count)
  {
    CountersExpire(p, times);
    SameWindow(p, times, more);
    assert LastReply(p, times + more).count == LastReply(p, times).count + |more|;
  }

  lemma {:induction false} BurstPasses(p: Policy, times: seq<int>, from: int, t: int, k: nat)
    requires var c := After(p, times); c.Some? && c.value.expires.Some? && t <= c.value.expires.value && c.value.count + k <= p.limit
    requires from <= t < from + p.window
    ensures Passed(p, times + Copies(t, k), from) == Passed(p, times, from) + k
    decreases k
  {
    if k == 0 {
      assert times + Copies(t, k) == times;
    } else {
      var all := times + Copies(t, k);
      assert all[..|all| - 1] == times + Copies(t, k - 1);
      BurstPasses(p, times, from, t, k - 1);
      SameWindow(p, times, Copies(t, k));
    }
  }

  /** The bound is reached by every policy with a window of two milliseconds or more. */
  lemma RateBoundIsTight(p: Policy, from: int)
    requires p.limit >= 1 && p.window >= 2
    ensures var times := [from - 2] + Copies(from, p.limit - 1) + Copies(from + p.window - 1, p.limit);
      Sorted(times) && Passed(p, times, from) == 2 * p.limit - 1
  {
    hide Passed, After;
    var first := [from - 2];
    var late := from + p.window - 1;
    var mid := first + Copies(from, p.limit - 1);
    var next := mid + [late];
    EarlyBurst(p, from);
    LateRequest(p, from, mid);
    BurstPasses(p, next, from, late, p.limit - 1);
    assert next + Copies(late, p.limit - 1) == mid + Copies(late, p.limit);
  }

  /** One request before the interval leaves room for all but one within it. */
  lemma EarlyBurst(p: Policy, from: int)
    requires p.limit >= 1 && p.window >= 2
    ensures var mid := [from - 2] + Copies(from, p.limit - 1);
      After(p, mid) == Some(Counter(p.limit, Some(from - 2 + p.window))) && Passed(p, mid, from) == p.limit - 1
  {
    var first := [from - 2];
    assert first[..0] == [] && After(p, []) == None && Passed(p, first, from) == 0;
    assert After(p, first) == Some(Counter(1, Some(from - 2 + p.window)));
    BurstPasses(p, first, from, from, p.limit - 1);
    SameWindow(p, first, Copies(from, p.limit - 1));
  }

  /** The interval's last instant is past that window and opens the next. */
  lemma LateRequest(p: Policy, from: int, times: seq<int>)
    requires p.limit >= 1 && p.window >= 2
    requires After(p, times).Some? && After(p, times).value.expires == Some(from - 2 + p.window)
    ensures var late := from + p.window - 1;
      && After(p, times + [late]) == Some(Counter(1, Some(late + p.window)))
      && Passed(p, times + [late], from) == Passed(p, times, from) + 1
  {
    var late := from + p.window - 1;
    assert (times + [late])[..|times + [late]| - 1] == times;
  }

  /** Returning at the very instant of an expiry that fell on a whole second. */
  predicate TooEarly(times: seq<int>, ttl: int, retry: int)
    requires times != []
  {
    ttl % 1000 == 0 && retry == times[|times| - 1] + ttl
  }

  /** After the advertised seconds the refusing window is over, whoever came in between, unless too early. */
  lemma RefusingWindowIsOverIff(p: Policy, times: seq<int>, between: seq<int>, retry: int)
    requires p.window >= 1 && times != [] && Sorted(times + between + [retry]) && !LastPasses(p, times)
    requires retry >= times[|times| - 1] + 1000 * ResetSeconds(LastReply(p, times).ttl)
    ensures After(p, times).Some? && After(p, times + between + [retry]).Some?
    ensures After(p, times + between + [retry]).value.expires == After(p, times).value.expires <==> TooEarly(times, LastReply(p, times).ttl, retry)
  {
    var all := times + between + [retry];
    assert forall i :: 0 <= i < |times| ==> times[i] == all[i];
    CountersExpire(p, times);
    CountersExpire(p, all);
    SecondsRoundUp(LastReply(p, times).ttl);
    if TooEarly(times, LastReply(p, times).ttl, retry) {
      forall t | t in between + [retry]
        ensures t <= retry
      {
        var i :| 0 <= i < |between + [retry]| && (between + [retry])[i] == t;
        assert all[|times| + i] == t;
      }
      SameWindow(p, times, between + [retry]);
      assert times + (between + [retry]) == all;
    }
  }

  /** A refused client that waits them alone is then let through, unless too early. */
  lemma RetryPassesIff(p: Policy, times: seq<int>, retry: int)
    requires p.limit >= 1 && p.window >= 1 && Sorted(times) && times != [] && !LastPasses(p, times)
    requires retry >= times[|times| - 1] + 1000 * ResetSeconds(LastReply(p, times).ttl)
    ensures LastPasses(p, times + [retry]) <==> !TooEarly(times, LastReply(p, times).ttl, retry)
  {
    CountersExpire(p, times);
    assert (times + [retry])[..|times|] == times;
    SecondsRoundUp(LastReply(p, times).ttl);
  }

  lemma SecondsRoundUp(ttl: int)
    requires ttl >= 0
    ensures ttl <= 1000 * ResetSeconds(ttl) < ttl + 1000
    ensures 1000 * ResetSeconds(ttl) == ttl <==> ttl % 1000 == 0
  {
  }

  /** Without a whole millisecond of window nothing is ever refused; with one, the limit bites. */
  lemma LimitsIff(p: Policy)
    requires p.limit >= 1
    ensures (exists times :: Sorted(times) && times != [] && !LastPasses(p, times)) <==> p.window >= 1
  {
    if p.window >= 1 {
      var first := [0];
      assert first[..0] == [] && After(p, []) == None;
      SameWindow(p, first, Copies(0, p.limit));
      var times := first + Copies(0, p.limit);
      assert Sorted(times) && !LastPasses(p, times);
    } else {
      forall times | Sorted(times) && times != []
        ensures LastPasses(p, times)
      {
        NeverCounts(p, times[..|times| - 1]);
      }
    }
  }

  lemma NeverCounts(p: Policy, times: seq<int>)
    requires p.window < 1
    ensures After(p, times) == None
    decreases |times|
  {
    if times != [] {
      NeverCounts(p, times[..|times| - 1]);
    }
  }
}
