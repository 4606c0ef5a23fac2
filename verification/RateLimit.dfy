/** The AI service's sliding-window limiter. */
module RateLimit {
  import opened Collections

  /** The settings after the constructor's bounds, and the accepted times per key. */
  datatype Limiter = Limiter(limit: nat, window: real, maxKeys: nat, hits: map<string, seq<real>>)
  {
    predicate Valid() {
      window >= 1.0 && maxKeys >= 1 && |hits| <= maxKeys
    }
  }

  function NewLimiter(limit: int, windowSeconds: real, maxKeys: int): (l: Limiter)
    ensures l.Valid() && l.hits == map[]
    ensures limit >= 0 ==> l.limit == limit
    ensures limit < 0 ==> l.limit == 0
    ensures windowSeconds >= 1.0 ==> l.window == windowSeconds
    ensures maxKeys >= 1 ==> l.maxKeys == maxKeys
  {
    Limiter(if limit < 0 then 0 else limit, if windowSeconds < 1.0 then 1.0 else windowSeconds,
            if maxKeys < 1 then 1 else maxKeys, map[])
  }

  /** Pops the times up to the cutoff off the front. */
  function DropOld(hits: seq<real>, cutoff: real): (r: seq<real>)
    ensures |r| <= |hits| && r == hits[|hits| - |r|..]
  {
    if hits != [] && hits[0] <= cutoff then DropOld(hits[1..], cutoff) else hits
  }

  function Ceil(x: real): int {
    -((-x).Floor)
  }

  predicate Clears(l: Limiter, key: string) {
    key !in l.hits && |l.hits| >= l.maxKeys
  }

  /** The key's times that still count at this moment. */
  function Recent(l: Limiter, key: string, now: real): seq<real> {
    if key in l.hits && !Clears(l, key) then DropOld(l.hits[key], now - l.window) else []
  }

  function Table(l: Limiter, key: string): map<string, seq<real>> {
    if Clears(l, key) then map[] else l.hits
  }

  datatype Decision = Decision(limiter: Limiter, allowed: bool, retryAfter: int)

  function Allow(l: Limiter, key: string, now: real): Decision {
    if l.limit == 0 then Decision(l, true, 0)
    else
      var recent := Recent(l, key, now);
      if |recent| >= l.limit then
        var wait := Ceil(recent[0] + l.window - now);
        Decision(l.(hits := Table(l, key)[key := recent]), false, if wait < 1 then 1 else wait)
      else Decision(l.(hits := Table(l, key)[key := recent + [now]]), true, 0)
  }

  // ----- runs -----

  datatype Call = Call(key: string, now: real)

  function Run(l: Limiter, calls: seq<Call>): Limiter {
    if calls == [] then l
    else
      var last := calls[|calls| - 1];
      Allow(Run(l, calls[..|calls| - 1]), last.key, last.now).limiter
  }

  /** The times at which the key was let in, since the table was last cleared. */
  function AcceptedTimes(l: Limiter, calls: seq<Call>, key: string): seq<real> {
    if calls == [] then []
    else
      var front, last := calls[..|calls| - 1], calls[|calls| - 1];
      var before := Run(l, front);
      var kept := if Clears(before, last.key) then [] else AcceptedTimes(l, front, key);
      if last.key == key && Allow(before, last.key, last.now).allowed then kept + [last.now] else kept
  }

  /** No call comes with a time more than delta before that of an earlier call; with delta 0 the calls are in order. */
  ghost predicate Disordered(calls: seq<Call>, delta: real) {
    delta >= 0.0 && forall i, j :: 0 <= i <= j < |calls| ==> calls[i].now <= calls[j].now + delta
  }

  ghost predicate NearOrder(times: seq<real>, delta: real) {
    forall i, j :: 0 <= i <= j < |times| ==> times[i] <= times[j] + delta
  }

  /** How many of the times lie in (from, from + window]. */
  function CountIn(times: seq<real>, from: real, window: real): nat {
    if times == [] then 0
    else
      var last := times[|times| - 1];
      CountIn(times[..|times| - 1], from, window) + (if from < last <= from + window then 1 else 0)
  }

  // ----- the invariant -----

  /** Accepted times that are `limit` or more apart in the list are at least `gap` apart in time. */
  ghost predicate Spaced(times: seq<real>, limit: nat, gap: real) {
    forall i, j :: 0 <= i && i + limit <= j < |times| ==> times[i] + gap <= times[j]
  }

  /** The stored times are the accepted ones, less some that had run out by `latest`. */
  ghost predicate Stores(hits: seq<real>, times: seq<real>, latest: real, window: real) {
    && |hits| <= |times| && hits == times[|times| - |hits|..]
    && (forall i :: 0 <= i < |times| - |hits| ==> times[i] + window <= latest)
  }

  ghost predicate Tracks(hits: seq<real>, times: seq<real>, latest: real, limit: nat, window: real, delta: real) {
    && NearOrder(times, delta)
    && (forall i :: 0 <= i < |times| ==> times[i] <= latest)
    && Spaced(times, limit, window - delta)
    && Stores(hits, times, latest, window)
    && |hits| <= limit
  }

  function Max(a: real, b: real): real {
    if a < b then b else a
  }

  lemma {:induction false} DropOldDropsOld(hits: seq<real>, cutoff: real)
    ensures var r := DropOld(hits, cutoff);
            && (forall i :: 0 <= i < |hits| - |r| ==> hits[i] <= cutoff)
            && (r != [] ==> r[0] > cutoff)
    decreases |hits|
  {
    if hits != [] && hits[0] <= cutoff {
      DropOldDropsOld(hits[1..], cutoff);
    }
  }

  lemma SuffixOfSuffix(times: seq<real>, a: nat, b: nat)
    requires a + b <= |times|
    ensures times[a..][b..] == times[a + b..]
  {
  }

  /** Dropping what has run out keeps the stored times the tail of the accepted ones. */
  lemma DroppedStores(hits: seq<real>, times: seq<real>, latest: real, window: real, now: real)
    requires Stores(hits, times, latest, window)
    ensures Stores(DropOld(hits, now - window), times, Max(latest, now), window)
  {
    hide DropOld;
    var recent := DropOld(hits, now - window);
    DropOldDropsOld(hits, now - window);
    SuffixOfSuffix(times, |times| - |hits|, |hits| - |recent|);
    forall i | 0 <= i < |times| - |recent|
      ensures times[i] + window <= Max(latest, now)
    {
      if i >= |times| - |hits| {
        assert times[i] == hits[i - (|times| - |hits|)];
      }
    }
  }

  /** Dropping keeps the invariant, whenever the call comes. */
  lemma RecentTracks(hits: seq<real>, times: seq<real>, latest: real, limit: nat, window: real, delta: real, now: real)
    requires Tracks(hits, times, latest, limit, window, delta)
    ensures Tracks(DropOld(hits, now - window), times, Max(latest, now), limit, window, delta)
  {
    hide DropOld, NearOrder, Spaced, Stores;
    DroppedStores(hits, times, latest, window, now);
  }

  /**
   What is left after dropping is at most what counts in the window that ends now,
   taken delta wider at both ends, and at least what counts in the one that ends
   delta later.
   */
  lemma RecentIsCounted(recent: seq<real>, times: seq<real>, latest: real, limit: nat, window: real, delta: real, now: real)
    requires Tracks(recent, times, latest, limit, window, delta) && now <= latest <= now + delta
    requires recent != [] ==> recent[0] > now - window
    ensures CountIn(times, now - window + delta, window) <= |recent|
    ensures |recent| <= CountIn(times, now - window - delta, window + delta + delta)
  {
    hide CountIn, Spaced;
    var k := |times| - |recent|;
    CountSplit(times, k, now - window + delta, window);
    CountNone(times[..k], now - window + delta, window);
    CountAtMost(recent, now - window + delta, window);
    CountSplit(times, k, now - window - delta, window + delta + delta);
    forall i | 0 <= i < |recent|
      ensures now - window - delta < recent[i] <= now + delta
    {
      assert recent[0] == times[k] && recent[i] == times[k + i];
    }
    CountAll(recent, now - window - delta, window + delta + delta);
  }

  lemma {:induction false} CountSplit(times: seq<real>, k: nat, from: real, window: real)
    requires k <= |times|
    ensures CountIn(times, from, window) == CountIn(times[..k], from, window) + CountIn(times[k..], from, window)
    decreases |times|
  {
    if k < |times| {
      var front := times[..|times| - 1];
      CountSplit(front, k, from, window);
      assert front[..k] == times[..k] && front[k..] == times[k..][..|times| - k - 1];
    } else {
      assert times[..k] == times;
    }
  }

  lemma {:induction false} CountNone(times: seq<real>, from: real, window: real)
    requires forall i :: 0 <= i < |times| ==> times[i] <= from
    ensures CountIn(times, from, window) == 0
    decreases |times|
  {
    if times != [] {
      CountNone(times[..|times| - 1], from, window);
    }
  }

  lemma {:induction false} CountAll(times: seq<real>, from: real, window: real)
    requires forall i :: 0 <= i < |times| ==> from < times[i] <= from + window
    ensures CountIn(times, from, window) == |times|
    decreases |times|
  {
    if times != [] {
      CountAll(times[..|times| - 1], from, window);
    }
  }

  lemma {:induction false} CountAtMost(times: seq<real>, from: real, window: real)
    ensures CountIn(times, from, window) <= |times|
    decreases |times|
  {
    if times != [] {
      CountAtMost(times[..|times| - 1], from, window);
    }
  }

  /** In a spaced list no window as long as the gap holds more than `limit` times. */
  lemma {:induction false} SpacedMeansFew(times: seq<real>, limit: nat, from: real, gap: real)
    requires Spaced(times, limit, gap) && limit > 0
    ensures CountIn(times, from, gap) <= limit
    decreases |times|
  {
    if |times| <= limit {
      CountAtMost(times, from, gap);
    } else {
      var front, last := times[..|times| - 1], times[|times| - 1];
      if from < last <= from + gap {
        var k := |times| - limit;
        forall i | 0 <= i < k
          ensures times[i] <= from
        {
          assert times[i] + gap <= times[|times| - 1];
        }
        CountSplit(times, k, from, gap);
        CountNone(times[..k], from, gap);
        CountAtMost(times[k..], from, gap);
      } else {
        assert Spaced(front, limit, gap);
        SpacedMeansFew(front, limit, from, gap);
      }
    }
  }

  /** Letting one more in while fewer than `limit` are stored keeps everything. */
  lemma AcceptTracks(recent: seq<real>, times: seq<real>, latest: real, limit: nat, window: real, delta: real, now: real)
    requires Tracks(recent, times, latest, limit, window, delta) && now <= latest <= now + delta && |recent| < limit
    ensures Tracks(recent + [now], times + [now], latest, limit, window, delta)
  {
    var longer := times + [now];
    forall i, j | 0 <= i && i + limit <= j < |longer|
      ensures longer[i] + (window - delta) <= longer[j]
    {
      if j == |times| {
        assert i < |times| - |recent|;
      }
    }
    assert recent + [now] == longer[|longer| - |recent| - 1..];
  }

  ghost predicate Consistent(l: Limiter, s: Limiter, calls: seq<Call>, latest: real, delta: real) {
    && l.limit > 0 && s == Run(l, calls) && s.limit == l.limit && s.window == l.window && s.maxKeys == l.maxKeys
    && s.Valid()
    && (forall key :: key in s.hits ==> Tracks(s.hits[key], AcceptedTimes(l, calls, key), latest, l.limit, l.window, delta))
    && (forall key :: key !in s.hits ==> AcceptedTimes(l, calls, key) == [])
  }

  lemma TracksLater(hits: seq<real>, times: seq<real>, latest: real, limit: nat, window: real, delta: real, later: real)
    requires Tracks(hits, times, latest, limit, window, delta) && latest <= later
    ensures Tracks(hits, times, later, limit, window, delta)
  {
  }

  lemma EmptyTracks(latest: real, limit: nat, window: real, delta: real)
    ensures Tracks([], [], latest, limit, window, delta)
  {
  }

  lemma TableGrows(table: map<string, seq<real>>, key: string, v: seq<real>, n: nat)
    requires |table| <= n && (key in table || |table| < n)
    ensures |table[key := v]| <= n
  {
    KeysCount(table);
    KeysCount(table[key := v]);
    if key in table {
      assert table[key := v].Keys == table.Keys;
    } else {
      assert table[key := v].Keys == table.Keys + {key};
    }
  }

  /** The table stays within its bound: a new key at the bound empties it first. */
  lemma TableBounded(l: Limiter, key: string, now: real)
    requires l.Valid()
    ensures Allow(l, key, now).limiter.Valid()
  {
    hide Recent, Ceil;
    if l.limit != 0 {
      TableGrows(Table(l, key), key, Recent(l, key, now), l.maxKeys);
      TableGrows(Table(l, key), key, Recent(l, key, now) + [now], l.maxKeys);
    }
  }

  lemma KeysCount(m: map<string, seq<real>>)
    ensures |m| == |m.Keys|
  {
  }

  /** The key of the call: what is stored for it before, and how its list grows. */
  lemma CallTracks(l: Limiter, s: Limiter, calls: seq<Call>, latest: real, delta: real, call: Call)
    requires Consistent(l, s, calls, latest, delta) && latest <= call.now + delta && delta >= 0.0
    ensures var kept := if Clears(s, call.key) then [] else AcceptedTimes(l, calls, call.key);
            var recent := Recent(s, call.key, call.now);
            var d := Allow(s, call.key, call.now);
            && Tracks(recent, kept, Max(latest, call.now), l.limit, l.window, delta)
            && (recent != [] ==> recent[0] > call.now - l.window)
            && call.key in d.limiter.hits
            && Tracks(d.limiter.hits[call.key], if d.allowed then kept + [call.now] else kept,
                      Max(latest, call.now), l.limit, l.window, delta)
  {
    hide Tracks, AcceptedTimes, Run, DropOld;
    var kept := if Clears(s, call.key) then [] else AcceptedTimes(l, calls, call.key);
    var recent := Recent(s, call.key, call.now);
    if call.key in s.hits {
      RecentTracks(s.hits[call.key], kept, latest, l.limit, l.window, delta, call.now);
      DropOldDropsOld(s.hits[call.key], call.now - l.window);
    } else {
      EmptyTracks(Max(latest, call.now), l.limit, l.window, delta);
    }
    if |recent| < l.limit {
      AcceptTracks(recent, kept, Max(latest, call.now), l.limit, l.window, delta, call.now);
    }
  }

  lemma CallKeeps(l: Limiter, s: Limiter, calls: seq<Call>, latest: real, delta: real, call: Call)
    requires Consistent(l, s, calls, latest, delta) && latest <= call.now + delta && delta >= 0.0
    ensures Consistent(l, Allow(s, call.key, call.now).limiter, calls + [call], Max(latest, call.now), delta)
  {
    hide Tracks, CountIn, Clears, Recent;
    var s' := Allow(s, call.key, call.now).limiter;
    var longer := calls + [call];
    assert longer[..|calls|] == calls;
    TableBounded(s, call.key, call.now);
    CallTracks(l, s, calls, latest, delta, call);
    forall key | key in s'.hits
      ensures Tracks(s'.hits[key], AcceptedTimes(l, longer, key), Max(latest, call.now), l.limit, l.window, delta)
    {
      if key != call.key {
        TracksLater(s.hits[key], AcceptedTimes(l, calls, key), latest, l.limit, l.window, delta, Max(latest, call.now));
      }
    }
  }

  lemma {:induction false} RunIsConsistent(l: Limiter, calls: seq<Call>, latest: real, delta: real)
    requires l.Valid() && l.limit > 0 && l.hits == map[] && Disordered(calls, delta)
    requires forall i :: 0 <= i < |calls| ==> calls[i].now <= latest
    ensures Consistent(l, Run(l, calls), calls, latest, delta)
    decreases |calls|
  {
    hide Allow, AcceptedTimes, Tracks;
    if calls == [] {
      assert forall key :: AcceptedTimes(l, calls, key) == [] by { NoCallsNoTimes(l); }
    } else {
      var front, last := calls[..|calls| - 1], calls[|calls| - 1];
      var before := if latest < last.now + delta then latest else last.now + delta;
      RunIsConsistent(l, front, before, delta);
      CallKeeps(l, Run(l, front), front, before, delta, last);
      assert front + [last] == calls;
      ConsistentLater(l, Run(l, calls), calls, Max(before, last.now), delta, latest);
    }
  }

  lemma NoCallsNoTimes(l: Limiter)
    ensures forall key :: AcceptedTimes(l, [], key) == []
  {
  }

  lemma ConsistentLater(l: Limiter, s: Limiter, calls: seq<Call>, latest: real, delta: real, later: real)
    requires Consistent(l, s, calls, latest, delta) && latest <= later
    ensures Consistent(l, s, calls, later, delta)
  {
    hide Tracks, AcceptedTimes, Run;
    forall key | key in s.hits
      ensures Tracks(s.hits[key], AcceptedTimes(l, calls, key), later, l.limit, l.window, delta)
    {
      TracksLater(s.hits[key], AcceptedTimes(l, calls, key), latest, l.limit, l.window, delta, later);
    }
  }

  // ----- what the limiter guarantees -----

  /**
   With times at most delta out of order, a call is let in when fewer than `limit`
   were let in for its key in the window that ends now, taken delta wider at both
   ends, and only when fewer were in the one that ends delta later; both counted
   since the table was last cleared (and this very call clears it if it must).
   */
  lemma AllowsWithin(l: Limiter, calls: seq<Call>, key: string, now: real, delta: real)
    requires l.Valid() && l.limit > 0 && l.hits == map[] && Disordered(calls + [Call(key, now)], delta)
    ensures var s := Run(l, calls);
            var kept := if Clears(s, key) then [] else AcceptedTimes(l, calls, key);
            && (CountIn(kept, now - l.window - delta, l.window + delta + delta) < l.limit ==> Allow(s, key, now).allowed)
            && (Allow(s, key, now).allowed ==> CountIn(kept, now - l.window + delta, l.window) < l.limit)
  {
    hide CountIn, AcceptedTimes, Run, Clears, Recent, Tracks, Ceil, Table;
    var longer := calls + [Call(key, now)];
    assert forall i :: 0 <= i < |calls| ==> longer[i] == calls[i];
    assert longer[|calls|].now == now;
    var s := Run(l, calls);
    RunIsConsistent(l, calls, now + delta, delta);
    CallTracks(l, s, calls, now + delta, delta, Call(key, now));
    RecentIsCounted(Recent(s, key, now), if Clears(s, key) then [] else AcceptedTimes(l, calls, key),
                    now + delta, l.limit, l.window, delta, now);
  }

  /** With calls in order of time both windows are the one that ends now. */
  lemma AllowsExactly(l: Limiter, calls: seq<Call>, key: string, now: real)
    requires l.Valid() && l.limit > 0 && l.hits == map[] && Disordered(calls + [Call(key, now)], 0.0)
    ensures var s := Run(l, calls);
            var kept := if Clears(s, key) then [] else AcceptedTimes(l, calls, key);
            Allow(s, key, now).allowed <==> CountIn(kept, now - l.window, l.window) < l.limit
  {
    hide CountIn, AcceptedTimes, Run, Clears, Disordered, Allow;
    AllowsWithin(l, calls, key, now, 0.0);
  }

  /**
   Between two clearings, with times at most delta out of order, no window delta
   shorter than the limiter's lets more than `limit` calls of a key in.
   */
  lemma NoWindowHoldsMore(l: Limiter, calls: seq<Call>, key: string, from: real, delta: real)
    requires l.Valid() && l.limit > 0 && l.hits == map[] && Disordered(calls, delta)
    ensures CountIn(AcceptedTimes(l, calls, key), from, l.window - delta) <= l.limit
  {
    hide CountIn, AcceptedTimes, Run;
    var latest := if calls == [] then 0.0 else calls[|calls| - 1].now + delta;
    RunIsConsistent(l, calls, latest, delta);
    if key in Run(l, calls).hits {
      SpacedMeansFew(AcceptedTimes(l, calls, key), l.limit, from, l.window - delta);
    } else {
      CountNone([], from, l.window - delta);
    }
  }

  lemma OneMoreCall(l: Limiter, calls: seq<Call>, key: string, now: real)
    requires !Clears(Run(l, calls), key)
    ensures var d, longer := Allow(Run(l, calls), key, now), calls + [Call(key, now)];
            && Run(l, longer) == d.limiter
            && AcceptedTimes(l, longer, key) == AcceptedTimes(l, calls, key) + (if d.allowed then [now] else [])
  {
    hide Allow, Clears;
    assert (calls + [Call(key, now)])[..|calls|] == calls;
  }

  lemma OneKeyIsAllowed(s: Limiter, key: string, hits: seq<real>, now: real)
    requires s.Valid() && s.hits == map[key := hits] && |DropOld(hits, now - s.window)| < s.limit
    ensures !Clears(s, key)
    ensures Allow(s, key, now) == Decision(s.(hits := map[key := DropOld(hits, now - s.window) + [now]]), true, 0)
  {
    hide DropOld, Ceil;
  }

  /** Four calls of a key with a limit of two, the last of them delta out of order. */
  function LateCalls(key: string, window: real, delta: real): seq<Call> {
    [Call(key, 0.0)] + [Call(key, 0.0)] + [Call(key, window)] + [Call(key, window - delta)]
  }

  lemma FirstCallIsLetIn(l: Limiter, key: string, t: real)
    requires l.limit > 0 && l.Valid() && l.hits == map[]
    ensures Run(l, [Call(key, t)]) == l.(hits := map[key := [t]]) && AcceptedTimes(l, [Call(key, t)], key) == [t]
  {
    hide Allow, Run, AcceptedTimes, Clears, Recent;
    NothingYet(l, key);
    FirstHit(l, key, t);
    OneMoreCall(l, [], key, t);
    assert [] + [Call(key, t)] == [Call(key, t)] && [] + [t] == [t];
  }

  /** One more call of the only key in the table, while fewer than `limit` times are left after dropping. */
  lemma OneMoreIsLetIn(l: Limiter, calls: seq<Call>, key: string, hits: seq<real>, now: real)
    requires l.Valid() && Run(l, calls) == l.(hits := map[key := hits]) && |DropOld(hits, now - l.window)| < l.limit
    ensures var longer := calls + [Call(key, now)];
            && Run(l, longer) == l.(hits := map[key := DropOld(hits, now - l.window) + [now]])
            && AcceptedTimes(l, longer, key) == AcceptedTimes(l, calls, key) + [now]
  {
    hide Allow, Run, AcceptedTimes, Clears, DropOld, Recent;
    KeysCount(map[key := hits]);
    assert map[key := hits].Keys == {key};
    OneKeyIsAllowed(Run(l, calls), key, hits, now);
    OneMoreCall(l, calls, key, now);
  }

  lemma DropsNone(time: real, ago: real)
    requires ago > 0.0
    ensures DropOld([time], time - ago) == [time]
  {
  }

  /** Two calls at one time are let in when the limit is two. */
  lemma TwoAtOnce(l: Limiter, key: string, t: real)
    requires l.limit == 2 && l.Valid() && l.hits == map[]
    ensures var two := [Call(key, t)] + [Call(key, t)];
            Run(l, two) == l.(hits := map[key := [t] + [t]]) && AcceptedTimes(l, two, key) == [t] + [t]
  {
    hide Allow, Run, AcceptedTimes, DropOld;
    FirstCallIsLetIn(l, key, t);
    DropsNone(t, l.window);
    OneMoreIsLetIn(l, [Call(key, t)], key, [t], t);
  }

  /** When all stored times have run out, the next call is let in and is the only one left. */
  lemma NextAfterAll(l: Limiter, calls: seq<Call>, key: string, hits: seq<real>, now: real)
    requires l.Valid() && l.limit > 0 && Run(l, calls) == l.(hits := map[key := hits])
    requires forall i :: 0 <= i < |hits| ==> hits[i] <= now - l.window
    ensures Run(l, calls + [Call(key, now)]) == l.(hits := map[key := [now]])
    ensures AcceptedTimes(l, calls + [Call(key, now)], key) == AcceptedTimes(l, calls, key) + [now]
  {
    hide Allow, Run, AcceptedTimes, DropOld;
    OldOnesGo(hits, now - l.window);
    OneMoreIsLetIn(l, calls, key, hits, now);
    assert [] + [now] == [now];
  }

  /** A call delta before the only stored time is let in, too. */
  lemma NextIsLate(l: Limiter, calls: seq<Call>, key: string, last: real, delta: real)
    requires l.limit == 2 && l.Valid() && Run(l, calls) == l.(hits := map[key := [last]]) && 0.0 < delta
    ensures AcceptedTimes(l, calls + [Call(key, last - delta)], key) == AcceptedTimes(l, calls, key) + [last - delta]
  {
    hide Allow, Run, AcceptedTimes, DropOld;
    DropsNone(last, l.window + delta);
    OneMoreIsLetIn(l, calls, key, [last], last - delta);
  }

  lemma LateCallsAreLetIn(key: string, window: real, delta: real)
    requires 0.0 < delta <= window && window >= 1.0
    ensures AcceptedTimes(Limiter(2, window, 1, map[]), LateCalls(key, window, delta), key)
         == [0.0] + [0.0] + [window] + [window - delta]
  {
    hide Run, AcceptedTimes;
    var l := Limiter(2, window, 1, map[]);
    var two := [Call(key, 0.0)] + [Call(key, 0.0)];
    TwoAtOnce(l, key, 0.0);
    NextAfterAll(l, two, key, [0.0] + [0.0], window);
    NextIsLate(l, two + [Call(key, window)], key, window, delta);
  }

  lemma NothingYet(l: Limiter, key: string)
    requires l.Valid() && l.hits == map[]
    ensures Run(l, []) == l && AcceptedTimes(l, [], key) == [] && !Clears(l, key)
  {
  }

  lemma {:induction false} OldOnesGo(hits: seq<real>, cutoff: real)
    requires forall i :: 0 <= i < |hits| ==> hits[i] <= cutoff
    ensures DropOld(hits, cutoff) == []
    decreases |hits|
  {
    if hits != [] {
      OldOnesGo(hits[1..], cutoff);
    }
  }

  /**
   The bound is tight: for every disorder up to the window there is a run in which
   any window longer than `window - delta` can hold more calls than the limit.
   */
  lemma BoundIsTight(key: string, window: real, delta: real, longer: real)
    requires 0.0 < delta <= window && window >= 1.0 && longer > window - delta
    ensures var l := Limiter(2, window, 1, map[]);
            var calls := LateCalls(key, window, delta);
            && l.Valid() && Disordered(calls, delta)
            && CountIn(AcceptedTimes(l, calls, key), window - delta - longer, longer) > l.limit
  {
    hide CountIn, AcceptedTimes;
    LateCallsAreLetIn(key, window, delta);
    var times := [0.0] + [0.0] + [window] + [window - delta];
    var from := window - delta - longer;
    CountSplit(times, 3, from, longer);
    CountSplit(times[..3], 2, from, longer);
    CountAll(times[..3][..2], from, longer);
    CountAll(times[3..], from, longer);
  }

  /** Whatever the calls, their times and the limit, the table never outgrows its bound. */
  lemma {:induction false} TableNeverOutgrows(l: Limiter, calls: seq<Call>)
    requires l.Valid()
    ensures Run(l, calls).Valid() && Run(l, calls).maxKeys == l.maxKeys
    decreases |calls|
  {
    hide Allow;
    if calls != [] {
      var front, last := calls[..|calls| - 1], calls[|calls| - 1];
      TableNeverOutgrows(l, front);
      TableBounded(Run(l, front), last.key, last.now);
      AllowKeepsSettings(Run(l, front), last.key, last.now);
    }
  }

  lemma AllowKeepsSettings(l: Limiter, key: string, now: real)
    ensures var l' := Allow(l, key, now).limiter;
            l'.limit == l.limit && l'.window == l.window && l'.maxKeys == l.maxKeys
  {
    hide Recent, Ceil, Table;
  }

  lemma CeilIsLeast(x: real, n: int)
    ensures Ceil(x) <= n <==> x <= n as real
  {
  }

  /** No key ever has more than `limit` stored times. */
  lemma {:induction false} ListsAreShort(l: Limiter, calls: seq<Call>)
    requires l.limit > 0 && l.hits == map[]
    ensures var s := Run(l, calls);
            s.limit == l.limit && forall key :: key in s.hits ==> |s.hits[key]| <= l.limit
    decreases |calls|
  {
    hide DropOld, Ceil;
    if calls != [] {
      ListsAreShort(l, calls[..|calls| - 1]);
    }
  }

  /**
   The retry delay of a refusal is the least whole number of seconds, at least 1,
   after which the key is let in, whatever the times.
   */
  lemma RetryIsLeast(l: Limiter, calls: seq<Call>, key: string, now: real, wait: nat)
    requires l.Valid() && l.limit > 0 && l.hits == map[]
    requires !Allow(Run(l, calls), key, now).allowed && wait >= 1
    ensures var d := Allow(Run(l, calls), key, now);
            d.retryAfter >= 1
            && (Allow(d.limiter, key, now + wait as real).allowed <==> d.retryAfter <= wait)
  {
    hide Run, Allow;
    ListsAreShort(l, calls);
    TableNeverOutgrows(l, calls);
    RefusalAnswers(Run(l, calls), key, now, wait);
  }

  lemma RefusalAnswers(s: Limiter, key: string, now: real, wait: nat)
    requires s.Valid() && s.limit > 0 && !Allow(s, key, now).allowed && wait >= 1
    requires key in s.hits ==> |s.hits[key]| <= s.limit
    ensures var d := Allow(s, key, now);
            d.retryAfter >= 1 && (Allow(d.limiter, key, now + wait as real).allowed <==> d.retryAfter <= wait)
  {
    hide Recent, Ceil;
    var d := Allow(s, key, now);
    var recent := Recent(s, key, now);
    RecentIsShort(s, key, now);
    assert d.limiter.hits[key] == recent && |recent| == s.limit;
    CeilIsLeast(recent[0] + s.window - now, wait);
    TableBounded(s, key, now);
    RefusedWaits(d.limiter, key, recent, now, wait);
  }

  lemma RecentIsShort(l: Limiter, key: string, now: real)
    requires key in l.hits ==> |l.hits[key]| <= l.limit
    ensures |Recent(l, key, now)| <= l.limit
  {
    hide DropOld;
  }

  /** A full key is let in later exactly when its oldest counted time has run out by then. */
  lemma RefusedWaits(l: Limiter, key: string, recent: seq<real>, now: real, wait: nat)
    requires l.Valid() && l.limit > 0 && key in l.hits && l.hits[key] == recent && |recent| == l.limit
    ensures Allow(l, key, now + wait as real).allowed <==> recent[0] + l.window - now <= wait as real
  {
    var cutoff := now + wait as real - l.window;
    if recent[0] <= cutoff {
      assert |DropOld(recent, cutoff)| <= |recent[1..]|;
    }
  }

  // ----- when the table is cleared -----

  function KeysOf(calls: seq<Call>): set<string> {
    set i | 0 <= i < |calls| :: calls[i].key
  }

  /** Whether any call of the run finds the table full and clears it. */
  predicate ClearsTable(l: Limiter, calls: seq<Call>) {
    calls != []
    && var front, last := calls[..|calls| - 1], calls[|calls| - 1];
       ClearsTable(l, front) || (l.limit > 0 && Clears(Run(l, front), last.key))
  }

  /** Without a limit every call is let in, and nothing is remembered. */
  lemma NoLimitNoMemory(l: Limiter, key: string, now: real)
    requires l.limit == 0
    ensures Allow(l, key, now) == Decision(l, true, 0)
  {
  }

  lemma KeysGrow(calls: seq<Call>, call: Call)
    ensures KeysOf(calls + [call]) == KeysOf(calls) + {call.key}
  {
    var longer := calls + [call];
    forall k | k in KeysOf(calls) + {call.key}
      ensures k in KeysOf(longer)
    {
      if k in KeysOf(calls) {
        var i :| 0 <= i < |calls| && calls[i].key == k;
        assert longer[i].key == k;
      } else {
        assert longer[|calls|].key == k;
      }
    }
  }

  /** Until a clearing, the table has exactly the keys that have called; keys go only with one. */
  lemma {:induction false} TableHoldsTheKeys(l: Limiter, calls: seq<Call>)
    requires l.Valid() && l.hits == map[] && l.limit > 0
    ensures Run(l, calls).limit == l.limit && Run(l, calls).maxKeys == l.maxKeys
    ensures if ClearsTable(l, calls) then |KeysOf(calls)| > l.maxKeys else Run(l, calls).hits.Keys == KeysOf(calls)
    decreases |calls|
  {
    hide KeysOf, Allow;
    if calls == [] {
      assert KeysOf([]) == {} by { NoCallsNoKeys(); }
    } else {
      var front, last := calls[..|calls| - 1], calls[|calls| - 1];
      var s := Run(l, front);
      TableHoldsTheKeys(l, front);
      AllowKeepsSettings(s, last.key, last.now);
      assert front + [last] == calls;
      KeysGrow(front, last);
      KeysCount(s.hits);
      if ClearsTable(l, front) {
        SubsetIsSmaller(KeysOf(front), KeysOf(calls));
      } else if !Clears(s, last.key) {
        AllowAddsTheKey(s, last.key, last.now);
      }
    }
  }

  lemma NoCallsNoKeys()
    ensures KeysOf([]) == {}
  {
  }

  lemma AllowAddsTheKey(l: Limiter, key: string, now: real)
    requires l.limit > 0 && !Clears(l, key)
    ensures Allow(l, key, now).limiter.hits.Keys == l.hits.Keys + {key}
  {
    hide Recent, Ceil;
  }

  /** A run clears the table exactly if there is a limit and more than `maxKeys` different keys call. */
  lemma ClearsExactly(l: Limiter, calls: seq<Call>)
    requires l.Valid() && l.hits == map[]
    ensures ClearsTable(l, calls) <==> l.limit > 0 && |KeysOf(calls)| > l.maxKeys
  {
    hide Allow, KeysOf;
    if l.limit > 0 {
      TableHoldsTheKeys(l, calls);
      TableNeverOutgrows(l, calls);
      KeysCount(Run(l, calls).hits);
    } else {
      NoLimitNoClearing(l, calls);
    }
  }

  lemma {:induction false} NoLimitNoClearing(l: Limiter, calls: seq<Call>)
    requires l.limit == 0
    ensures !ClearsTable(l, calls) && Run(l, calls) == l
    decreases |calls|
  {
    if calls != [] {
      NoLimitNoClearing(l, calls[..|calls| - 1]);
      NoLimitNoMemory(l, calls[|calls| - 1].key, calls[|calls| - 1].now);
    }
  }

  /** All times at which the key was let in, clearings or not. */
  function AllAccepted(l: Limiter, calls: seq<Call>, key: string): seq<real> {
    if calls == [] then []
    else
      var front, last := calls[..|calls| - 1], calls[|calls| - 1];
      var before := AllAccepted(l, front, key);
      if last.key == key && Allow(Run(l, front), last.key, last.now).allowed then before + [last.now] else before
  }

  lemma {:induction false} NothingForgotten(l: Limiter, calls: seq<Call>, key: string)
    requires l.limit > 0 && !ClearsTable(l, calls)
    ensures AcceptedTimes(l, calls, key) == AllAccepted(l, calls, key)
    decreases |calls|
  {
    if calls != [] {
      hide Allow, Clears;
      NothingForgotten(l, calls[..|calls| - 1], key);
    }
  }

  /** With at most `maxKeys` different keys, the same over all calls ever let in. */
  lemma FewKeysNoWindowHoldsMore(l: Limiter, calls: seq<Call>, key: string, from: real, delta: real)
    requires l.Valid() && l.limit > 0 && l.hits == map[] && Disordered(calls, delta) && |KeysOf(calls)| <= l.maxKeys
    ensures CountIn(AllAccepted(l, calls, key), from, l.window - delta) <= l.limit
  {
    hide CountIn, AcceptedTimes, AllAccepted, Run, KeysOf;
    ClearsExactly(l, calls);
    NothingForgotten(l, calls, key);
    NoWindowHoldsMore(l, calls, key, from, delta);
  }

  /** Clearing forgets: with a table of one key, two keys taking turns let the first one in twice within a window. */
  lemma ClearingForgets()
    ensures var l := NewLimiter(1, 60.0, 1);
            var d1 := Allow(l, "a", 0.0);
            var d2 := Allow(d1.limiter, "b", 1.0);
            var d3 := Allow(d2.limiter, "a", 2.0);
            d1.allowed && d2.allowed && d3.allowed && !Allow(d1.limiter, "a", 2.0).allowed
  {
    var l := NewLimiter(1, 60.0, 1);
    assert l == Limiter(1, 60.0, 1, map[]);
    var d1 := Allow(l, "a", 0.0);
    FirstHit(l, "a", 0.0);
    KeysCount(d1.limiter.hits);
    assert d1.limiter.hits.Keys == {"a"};
    var d2 := Allow(d1.limiter, "b", 1.0);
    FirstHit(d1.limiter, "b", 1.0);
    KeysCount(d2.limiter.hits);
    assert d2.limiter.hits.Keys == {"b"};
    FirstHit(d2.limiter, "a", 2.0);
    assert DropOld([0.0], 2.0 - 60.0) == [0.0];
  }

  lemma FirstHit(l: Limiter, key: string, now: real)
    requires l.limit > 0 && key !in l.hits && (l.hits == map[] || |l.hits| >= l.maxKeys)
    ensures Allow(l, key, now) == Decision(l.(hits := map[key := [now]]), true, 0)
  {
    hide Ceil;
    assert Recent(l, key, now) == [];
    assert [] + [now] == [now];
  }

  // ----- the limiter object -----

  class SlidingWindowLimiter {
    const limit: nat
    const windowSeconds: real
    const maxKeys: nat
    var hits: map<string, seq<real>>

    constructor (limit: int, windowSeconds: real, maxKeys: int)
      ensures View() == NewLimiter(limit, windowSeconds, maxKeys)
    {
      this.limit := if limit < 0 then 0 else limit;
      this.windowSeconds := if windowSeconds < 1.0 then 1.0 else windowSeconds;
      this.maxKeys := if maxKeys < 1 then 1 else maxKeys;
      hits := map[];
    }

    function View(): Limiter
      reads this
    {
      Limiter(limit, windowSeconds, maxKeys, hits)
    }

    /** `allow`, with the time given. */
    method AllowCall(key: string, now: real) returns (allowed: bool, retryAfter: int)
      modifies this`hits
      ensures Decision(View(), allowed, retryAfter) == Allow(old(View()), key, now)
    {
      hide DropOld, Ceil;
      if limit == 0 {
        return true, 0;
      }
      if key !in hits && |hits| >= maxKeys {
        hits := map[];
      }
      var mine := [];
      if key in hits {
        mine := PopOld(hits[key], now - windowSeconds);
      }
      hits := hits[key := mine];
      if |mine| >= limit {
        var wait := Ceil(mine[0] + windowSeconds - now);
        return false, if wait < 1 then 1 else wait;
      }
      hits := hits[key := mine + [now]];
      return true, 0;
    }
  }

  /** Pops the times up to the cutoff off the front, one by one. */
  method PopOld(hits: seq<real>, cutoff: real) returns (mine: seq<real>)
    ensures mine == DropOld(hits, cutoff)
  {
    mine := hits;
    while mine != [] && mine[0] <= cutoff
      invariant DropOld(mine, cutoff) == DropOld(hits, cutoff)
      decreases |mine|
    {
      mine := mine[1..];
    }
  }
}
