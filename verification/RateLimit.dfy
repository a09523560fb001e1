/** The sliding-window limiter keeps few timestamps, yet decides as if it kept them all. */
module RateLimit {
  import opened Options
  import opened Sets

  /** The times after the cutoff, in order. */
  function InWindow(times: seq<int>, cutoff: int): (r: seq<int>)
    ensures |r| <= |times|
  {
    if times == [] then []
    else
      var before, last := InWindow(times[..|times| - 1], cutoff), times[|times| - 1];
      if last > cutoff then before + [last] else before
  }

  datatype Verdict = Verdict(allowed: bool, retryAfter: int)

  /** The rule on the full history of admissions: fewer than `limit` in the last interval. */
  function Judge(history: seq<int>, limit: int, now: int, interval: int): Verdict {
    var recent := InWindow(history, now - interval);
    if |recent| < limit then Verdict(true, 0)
    else Verdict(false, if recent == [] then interval else recent[0] + interval - now)
  }

  ghost predicate Ordered(times: seq<int>, clock: int) {
    && (forall i, j :: 0 <= i < j < |times| ==> times[i] <= times[j])
    && (forall i :: 0 <= i < |times| ==> times[i] <= clock)
  }

  function TimesOf(m: map<string, seq<int>>, key: string): seq<int> {
    if key in m then m[key] else []
  }

  lemma {:induction false} WindowTwice(times: seq<int>, first: int, second: int)
    requires first <= second
    ensures InWindow(InWindow(times, first), second) == InWindow(times, second)
  {
    if times != [] {
      var n := |times| - 1;
      WindowTwice(times[..n], first, second);
      if times[n] > first {
        var kept := InWindow(times[..n], first);
        assert (kept + [times[n]])[..|kept|] == kept;
      }
    }
  }

  lemma {:induction false} WindowOrdered(times: seq<int>, cutoff: int, clock: int)
    requires Ordered(times, clock)
    ensures Ordered(InWindow(times, cutoff), clock)
  {
    if times != [] {
      WindowOrdered(times[..|times| - 1], cutoff, times[|times| - 1]);
    }
  }

  lemma {:induction false} NothingRecent(times: seq<int>, cutoff: int)
    requires Ordered(times, cutoff)
    ensures InWindow(times, cutoff) == []
  {
    if times != [] {
      NothingRecent(times[..|times| - 1], cutoff);
    }
  }

  lemma {:induction false} WindowLast(times: seq<int>, at: int, cutoff: int)
    ensures InWindow(times + [at], cutoff) == if at > cutoff then InWindow(times, cutoff) + [at] else InWindow(times, cutoff)
  {
    assert (times + [at])[..|times|] == times;
  }

  /** The kept times are ordered, and for what is after the cutoff they are the full history. */
  ghost predicate Agrees(kept: seq<int>, history: seq<int>, cutoff: int, clock: int) {
    Ordered(kept, clock) && InWindow(kept, cutoff) == InWindow(history, cutoff)
  }

  ghost predicate Faithful(windows: map<string, seq<int>>, history: map<string, seq<int>>, cutoff: int, clock: int) {
    forall key :: key in windows || key in history ==> Agrees(TimesOf(windows, key), TimesOf(history, key), cutoff, clock)
  }

  lemma {:induction false} AgreesAt(windows: map<string, seq<int>>, history: map<string, seq<int>>, cutoff: int, clock: int, key: string)
    requires Faithful(windows, history, cutoff, clock)
    ensures Agrees(TimesOf(windows, key), TimesOf(history, key), cutoff, clock)
  {
  }

  lemma {:induction false} AgreesLater(kept: seq<int>, history: seq<int>, cutoff: int, clock: int, cutoff': int, clock': int)
    requires Agrees(kept, history, cutoff, clock) && cutoff <= cutoff' && clock <= clock'
    ensures Agrees(kept, history, cutoff', clock')
  {
    WindowTwice(kept, cutoff, cutoff');
    WindowTwice(history, cutoff, cutoff');
  }

  lemma {:induction false} FaithfulLater(windows: map<string, seq<int>>, history: map<string, seq<int>>, cutoff: int, clock: int, cutoff': int, clock': int)
    requires Faithful(windows, history, cutoff, clock) && cutoff <= cutoff' && clock <= clock'
    ensures Faithful(windows, history, cutoff', clock')
  {
    hide Agrees;
    forall key | key in windows || key in history
      ensures Agrees(TimesOf(windows, key), TimesOf(history, key), cutoff', clock')
    {
      AgreesLater(TimesOf(windows, key), TimesOf(history, key), cutoff, clock, cutoff', clock');
    }
  }

  /** Only one key changes, and it still agrees. */
  lemma {:induction false} FaithfulChange(windows: map<string, seq<int>>, history: map<string, seq<int>>, windows': map<string, seq<int>>,
                       history': map<string, seq<int>>, cutoff: int, clock: int, key: string)
    requires Faithful(windows, history, cutoff, clock)
    requires forall other :: other != key ==> TimesOf(windows', other) == TimesOf(windows, other) && TimesOf(history', other) == TimesOf(history, other)
    requires Agrees(TimesOf(windows', key), TimesOf(history', key), cutoff, clock)
    ensures Faithful(windows', history', cutoff, clock)
  {
    forall other | other in windows' || other in history'
      ensures Agrees(TimesOf(windows', other), TimesOf(history', other), cutoff, clock)
    {
      AgreesAt(windows, history, cutoff, clock, other);
    }
  }

  lemma {:induction false} StaleAgrees(kept: seq<int>, history: seq<int>, cutoff: int, clock: int)
    requires Agrees(kept, history, cutoff, clock) && (kept == [] || kept[|kept| - 1] <= cutoff)
    ensures Agrees([], history, cutoff, clock)
  {
    NothingRecent(kept, cutoff);
  }

  lemma {:induction false} RecentAgrees(kept: seq<int>, history: seq<int>, cutoff: int, clock: int)
    requires Agrees(kept, history, cutoff, clock)
    ensures Agrees(InWindow(kept, cutoff), history, cutoff, clock)
  {
    WindowTwice(kept, cutoff, cutoff);
    WindowOrdered(kept, cutoff, clock);
  }

  lemma {:induction false} AdmittedAgrees(kept: seq<int>, history: seq<int>, cutoff: int, clock: int)
    requires Agrees(kept, history, cutoff, clock)
    ensures Agrees(kept + [clock], history + [clock], cutoff, clock)
  {
    WindowLast(kept, clock, cutoff);
    WindowLast(history, clock, cutoff);
  }

  /** The newest time is still in the window. */
  predicate InUse(times: seq<int>, cutoff: int) {
    times != [] && times[|times| - 1] > cutoff
  }

  class LocalRateLimitBackend {
    const interval: int
    var windows: map<string, seq<int>>
    var lastSweep: Option<int>

    ghost var history: map<string, seq<int>>   // every admission
    ghost var clock: int

    /** For what is still in the window, the kept times are the full history. */
    ghost predicate Valid()
      reads this
    {
      Faithful(windows, history, clock - interval, clock)
    }

    constructor (interval: int, now: int)
      ensures Valid() && history == map[] && clock == now && this.interval == interval
    {
      this.interval, windows, lastSweep, history, clock := interval, map[], None, map[], now;
    }

    /** Drops exactly the keys whose newest time left the window, at most once per interval. */
    method Sweep(now: int)
      requires Valid() && clock == now
      modifies `windows, `lastSweep
      ensures Valid() && forall key :: key in windows ==> key in old(windows) && windows[key] == old(windows)[key]
      ensures old(lastSweep).Some? && now - old(lastSweep).value < interval ==> windows == old(windows)
      ensures old(lastSweep).None? || now - old(lastSweep).value >= interval ==>
                forall key :: key in old(windows) ==>
                  (key in windows <==> old(windows)[key] != [] && old(windows)[key][|old(windows)[key]| - 1] + interval > now)
    {
      hide Faithful, InWindow, Ordered;
      if lastSweep.Some? && now - lastSweep.value < interval {
        return;
      }
      lastSweep := Some(now);
      var rest := windows.Keys;
      while |rest| > 0
        invariant Valid() && rest <= windows.Keys
        invariant forall key :: key in windows ==> key in old(windows) && windows[key] == old(windows)[key]
        invariant forall key :: key in old(windows) && key !in rest ==> (key in windows <==> InUse(old(windows)[key], now - interval))
        decreases |rest|
      {
        var key := Pick(rest);
        var times := windows[key];
        if |times| == 0 || times[|times| - 1] <= now - interval {
          DropKey(key);
        }
        rest := rest - {key};
      }
    }

    method DropKey(key: string)
      requires Valid() && key in windows && !InUse(windows[key], clock - interval)
      modifies `windows
      ensures Valid() && windows == old(windows) - {key}
    {
      hide Faithful, Agrees, InWindow, Ordered;
      AgreesAt(windows, history, clock - interval, clock, key);
      StaleAgrees(windows[key], TimesOf(history, key), clock - interval, clock);
      FaithfulChange(windows, history, windows - {key}, history, clock - interval, clock, key);
      windows := windows - {key};
    }

    method Recent(times: seq<int>, cutoff: int) returns (valid: seq<int>)
      ensures valid == InWindow(times, cutoff)
    {
      valid := [];
      for i := 0 to |times|
        invariant valid == InWindow(times[..i], cutoff)
      {
        assert times[..i + 1][..i] == times[..i];
        if times[i] > cutoff {
          valid := valid + [times[i]];
        }
      }
      assert times[..|times|] == times;
    }

    /** The times of a key in the window, which are those of its full history. */
    method ValidTimes(key: string, now: int) returns (valid: seq<int>)
      requires Valid() && clock == now
      ensures valid == InWindow(TimesOf(history, key), now - interval)
      ensures Agrees(valid, TimesOf(history, key), now - interval, now)
    {
      hide Faithful, InWindow, Ordered;
      valid := Recent(if key in windows then windows[key] else [], now - interval);
      AgreesAt(windows, history, now - interval, now, key);
      RecentAgrees(TimesOf(windows, key), TimesOf(history, key), now - interval, now);
    }

    /** Decides exactly as the full history would, and records an admission. */
    method Allow(key: string, limit: int, now: int) returns (verdict: Verdict)
      requires Valid() && now >= clock
      modifies this
      ensures Valid() && clock == now
      ensures verdict == Judge(TimesOf(old(history), key), limit, now, interval)
      ensures history == if verdict.allowed then old(history)[key := TimesOf(old(history), key) + [now]] else old(history)
    {
      hide Faithful, Agrees, InWindow, Ordered;
      FaithfulLater(windows, history, clock - interval, clock, now - interval, now);
      clock := now;
      Sweep(now);
      var valid := ValidTimes(key, now);
      if |valid| >= limit {
        KeepTimes(key, valid);
        return Verdict(false, if |valid| > 0 then valid[0] + interval - now else interval);
      }
      Admit(key, valid, now);
      verdict := Verdict(true, 0);
    }

    method KeepTimes(key: string, valid: seq<int>)
      requires Valid() && Agrees(valid, TimesOf(history, key), clock - interval, clock)
      modifies `windows
      ensures Valid()
    {
      hide Faithful, Agrees, InWindow, Ordered;
      ghost var after := if |valid| == 0 then windows - {key} else windows[key := valid];
      FaithfulChange(windows, history, after, history, clock - interval, clock, key);
      if |valid| == 0 {
        windows := windows - {key};
      } else {
        windows := windows[key := valid];
      }
    }

    method Admit(key: string, valid: seq<int>, now: int)
      requires Valid() && now == clock && Agrees(valid, TimesOf(history, key), clock - interval, clock)
      modifies `windows, `history
      ensures Valid() && history == old(history)[key := TimesOf(old(history), key) + [clock]]
    {
      hide Faithful, Agrees, InWindow, Ordered;
      AdmittedAgrees(valid, TimesOf(history, key), clock - interval, clock);
      ghost var after := history[key := TimesOf(history, key) + [now]];
      FaithfulChange(windows, history, windows[key := valid + [now]], after, clock - interval, clock, key);
      windows := windows[key := valid + [now]];
      history := after;
    }
  }

  // ---- What the limit means ----

  datatype Call = Call(key: string, limit: int, at: int)

  /** The admissions of every key after a run of calls. */
  function Admissions(calls: seq<Call>, interval: int): map<string, seq<int>> {
    if calls == [] then map[]
    else
      var before, c := Admissions(calls[..|calls| - 1], interval), calls[|calls| - 1];
      var times := TimesOf(before, c.key);
      if Judge(times, c.limit, c.at, interval).allowed then before[c.key := times + [c.at]] else before
  }

  /** How many times lie in (lo, hi]. */
  function Count(times: seq<int>, lo: int, hi: int): nat {
    if times == [] then 0
    else Count(times[..|times| - 1], lo, hi) + if lo < times[|times| - 1] <= hi then 1 else 0
  }

  lemma {:induction false} CountInWindow(times: seq<int>, lo: int, hi: int, cutoff: int)
    requires cutoff <= lo
    ensures Count(times, lo, hi) <= |InWindow(times, cutoff)|
  {
    if times != [] {
      CountInWindow(times[..|times| - 1], lo, hi, cutoff);
    }
  }

  /** At each admission no more than `limit` lie in the interval that ends with it. */
  ghost predicate Bounded(times: seq<int>, limit: int, interval: int) {
    times == [] || (Bounded(times[..|times| - 1], limit, interval) && |InWindow(times, times[|times| - 1] - interval)| <= limit)
  }

  lemma {:induction false} EveryWindow(times: seq<int>, limit: int, interval: int, start: int)
    requires Bounded(times, limit, interval) && limit >= 0
    ensures Count(times, start, start + interval) <= limit
  {
    if times != [] {
      var last := times[|times| - 1];
      EveryWindow(times[..|times| - 1], limit, interval, start);
      if start < last <= start + interval {
        CountInWindow(times, start, start + interval, last - interval);
      }
    }
  }

  lemma {:induction false} AdmissionsBounded(calls: seq<Call>, interval: int, limit: int, key: string)
    requires forall i :: 0 <= i < |calls| && calls[i].key == key ==> calls[i].limit <= limit
    ensures Bounded(TimesOf(Admissions(calls, interval), key), limit, interval)
  {
    if calls != [] {
      var c := calls[|calls| - 1];
      AdmissionsBounded(calls[..|calls| - 1], interval, limit, key);
      var times := TimesOf(Admissions(calls[..|calls| - 1], interval), c.key);
      if c.key == key && Judge(times, c.limit, c.at, interval).allowed {
        OneMoreBounded(times, c.at, limit, interval);
      }
    }
  }

  lemma {:induction false} OneMoreBounded(times: seq<int>, at: int, limit: int, interval: int)
    requires Bounded(times, limit, interval) && |InWindow(times, at - interval)| < limit
    ensures Bounded(times + [at], limit, interval)
  {
    WindowLast(times, at, at - interval);
    hide InWindow;
    assert (times + [at])[..|times|] == times;
  }

  /** With a fixed limit no window of that length, wherever it starts, holds more admissions. */
  lemma {:induction false} NoWindowOverLimit(calls: seq<Call>, interval: int, limit: nat, key: string, start: int)
    requires forall i :: 0 <= i < |calls| && calls[i].key == key ==> calls[i].limit <= limit
    ensures Count(TimesOf(Admissions(calls, interval), key), start, start + interval) <= limit
  {
    AdmissionsBounded(calls, interval, limit, key);
    EveryWindow(TimesOf(Admissions(calls, interval), key), limit, interval, start);
  }

  /**
     A caller is refused exactly when the limit is used up by the interval before
     the call, and told to wait until the oldest time in it leaves, or a whole
     interval when there is none.
   */
  lemma {:induction false} RefusedOnlyAtLimit(history: seq<int>, limit: int, now: int, interval: int)
    requires Ordered(history, now)
    ensures var v := Judge(history, limit, now, interval);
            && (v.allowed <==> Count(history, now - interval, now) < limit) && (v.allowed ==> v.retryAfter == 0)
            && (!v.allowed ==>
                  if Count(history, now - interval, now) == 0 then v.retryAfter == interval
                  else Oldest(history, now - interval, now + v.retryAfter - interval))
  {
    CountAll(history, now - interval, now);
    WindowFirst(history, now - interval);
    hide Count, InWindow, Ordered, Oldest;
  }

  /** The first of the times after the cutoff. */
  ghost predicate Oldest(times: seq<int>, cutoff: int, time: int) {
    exists i :: FirstAfter(times, cutoff, i) && times[i] == time
  }

  ghost predicate FirstAfter(times: seq<int>, cutoff: int, i: int) {
    0 <= i < |times| && times[i] > cutoff && forall j :: 0 <= j < i ==> times[j] <= cutoff
  }

  lemma {:induction false} WindowFirst(times: seq<int>, cutoff: int)
    ensures InWindow(times, cutoff) != [] ==> Oldest(times, cutoff, InWindow(times, cutoff)[0])
    ensures InWindow(times, cutoff) == [] ==> forall i :: 0 <= i < |times| ==> times[i] <= cutoff
  {
    if times != [] {
      var n := |times| - 1;
      WindowFirst(times[..n], cutoff);
      assert forall i :: 0 <= i < n ==> times[..n][i] == times[i];
      if InWindow(times[..n], cutoff) != [] {
        var i :| FirstAfter(times[..n], cutoff, i) && times[..n][i] == InWindow(times[..n], cutoff)[0];
        assert FirstAfter(times, cutoff, i);
      } else if times[n] > cutoff {
        assert FirstAfter(times, cutoff, n);
      }
    }
  }

  lemma {:induction false} CountAll(times: seq<int>, lo: int, hi: int)
    requires Ordered(times, hi)
    ensures Count(times, lo, hi) == |InWindow(times, lo)|
  {
    if times != [] {
      CountAll(times[..|times| - 1], lo, hi);
    }
  }

  /**
     After the advised wait a refused caller is admitted, if no one else was
     meanwhile, exactly when fewer admissions than the limit came after the
     oldest one in the window. With a limit of zero there is no such wait.
   */
  lemma {:induction false} WaitHelpsWhen(history: seq<int>, limit: int, now: int, interval: int)
    requires !Judge(history, limit, now, interval).allowed
    ensures var wait := Judge(history, limit, now, interval).retryAfter;
            var recent := InWindow(history, now - interval);
            Judge(history, limit, now + wait, interval).allowed <==> recent != [] && |InWindow(history, recent[0])| < limit
  {
    var wait := Judge(history, limit, now, interval).retryAfter;
    var recent := InWindow(history, now - interval);
    hide InWindow;
    if recent != [] {
      assert now + wait - interval == recent[0];
    }
  }

  /** While the limit of a key is not lowered, the advised wait always helps. */
  lemma {:induction false} WaitHelps(calls: seq<Call>, interval: int, limit: int, key: string, now: int)
    requires forall i :: 0 <= i < |calls| && calls[i].key == key ==> calls[i].limit <= limit
    requires InTime(calls, now) && limit >= 1 && interval >= 0
    ensures var times := TimesOf(Admissions(calls, interval), key);
            var v := Judge(times, limit, now, interval);
            v.allowed || (v.retryAfter > 0 && Judge(times, limit, now + v.retryAfter, interval).allowed)
  {
    var times := TimesOf(Admissions(calls, interval), key);
    var recent := InWindow(times, now - interval);
    hide InWindow, Ordered, Bounded, Count;
    if |recent| >= limit {
      WaitHelpsWhen(times, limit, now, interval);
      AdmissionsOrdered(calls, interval, key, now);
      AdmissionsBounded(calls, interval, limit, key);
      EveryWindow(times, limit, interval, now - interval);
      CountAll(times, now - interval, now);
      WindowAbove(times, now - interval);
      WindowTwice(times, now - interval, recent[0]);
      FirstLeaves(recent, recent[0]);
    }
  }

  /** When the limit was lowered, the advised wait can be too short. */
  lemma {:induction false} LoweredLimit()
    ensures var calls := [Call("key", 3, 1), Call("key", 3, 2), Call("key", 3, 3)];
            var times := TimesOf(Admissions(calls, 10), "key");
            && Judge(times, 1, 5, 10) == Verdict(false, 6)
            && Judge(times, 1, 5 + 6, 10) == Verdict(false, 1)
  {
    var c1, c2, c3 := Call("key", 3, 1), Call("key", 3, 2), Call("key", 3, 3);
    LastCall([], c1, 10);
    LastCall([c1], c2, 10);
    LastCall([c1, c2], c3, 10);
    assert TimesOf(Admissions([], 10), "key") == [];
    OneTwoThree(5 - 10);
    OneTwoThree(11 - 10);
    hide Admissions, InWindow;
    assert [] + [c1] == [c1] && [c1] + [c2] == [c1, c2] && [c1, c2] + [c3] == [c1, c2, c3];
    assert TimesOf(Admissions([c1, c2, c3], 10), "key") == [1, 2, 3];
  }

  lemma {:induction false} OneTwoThree(cutoff: int)
    ensures cutoff < 1 ==> InWindow([1, 2, 3], cutoff) == [1, 2, 3]
    ensures cutoff == 1 ==> InWindow([1, 2, 3], cutoff) == [2, 3]
  {
    WindowLast([], 1, cutoff);
    WindowLast([1], 2, cutoff);
    WindowLast([1, 2], 3, cutoff);
    assert InWindow([], cutoff) == [];
    hide InWindow;
    assert [] + [1] == [1] && [1] + [2] == [1, 2] && [1, 2] + [3] == [1, 2, 3] && [2] + [3] == [2, 3] && [] + [2] == [2];
  }

  lemma {:induction false} LastCall(calls: seq<Call>, c: Call, interval: int)
    ensures var times := TimesOf(Admissions(calls, interval), c.key);
            TimesOf(Admissions(calls + [c], interval), c.key)
            == if |InWindow(times, c.at - interval)| < c.limit then times + [c.at] else times
  {
    assert (calls + [c])[..|calls|] == calls;
  }

  /** The calls come in the order of their times, the last one no later than `now`. */
  ghost predicate InTime(calls: seq<Call>, now: int) {
    && (forall i, j :: 0 <= i < j < |calls| ==> calls[i].at <= calls[j].at)
    && (forall i :: 0 <= i < |calls| ==> calls[i].at <= now)
  }

  lemma {:induction false} AdmissionsOrdered(calls: seq<Call>, interval: int, key: string, now: int)
    requires InTime(calls, now)
    ensures Ordered(TimesOf(Admissions(calls, interval), key), now)
  {
    if calls != [] {
      var c := calls[|calls| - 1];
      AdmissionsOrdered(calls[..|calls| - 1], interval, key, c.at);
    }
  }

  lemma {:induction false} WindowAbove(times: seq<int>, cutoff: int)
    ensures forall i :: 0 <= i < |InWindow(times, cutoff)| ==> InWindow(times, cutoff)[i] > cutoff
  {
    if times != [] {
      WindowAbove(times[..|times| - 1], cutoff);
    }
  }

  lemma {:induction false} FirstLeaves(times: seq<int>, cutoff: int)
    requires times != [] && times[0] <= cutoff
    ensures |InWindow(times, cutoff)| < |times|
  {
    if |times| > 1 {
      FirstLeaves(times[..|times| - 1], cutoff);
    }
  }
}
