/** Sliding-window limiters: the request limiter of a route, and the three windows a
    realtime message has to pass. Clocks do not run backwards. */
module Limiter {
  import opened Syntax

  type Times = seq<real>

  /** How many of the times lie in a closed interval. */
  function CountIn(ts: Times, lo: real, hi: real): nat {
    if ts == [] then 0
    else CountIn(ts[..|ts| - 1], lo, hi) + (if lo <= ts[|ts| - 1] <= hi then 1 else 0)
  }

  /** Drops the times before `lo` from the front. */
  function DropOld(ts: Times, lo: real): (r: Times)
    ensures |r| <= |ts|
  {
    if ts != [] && ts[0] < lo then DropOld(ts[1..], lo) else ts
  }

  function Recent(ts: Times, lo: real): Times {
    if ts == [] then []
    else
      var before := Recent(ts[..|ts| - 1], lo);
      if ts[|ts| - 1] >= lo then before + [ts[|ts| - 1]] else before
  }

  predicate Sorted(ts: Times) {
    forall i, j :: 0 <= i < j < |ts| ==> ts[i] <= ts[j]
  }

  /** The window holds the accepted times except some that were older than the window at
      the time of the last call. */
  ghost predicate Holds(bucket: Times, accepted: Times, window: real, last: real) {
    && Sorted(accepted) && (forall i :: 0 <= i < |accepted| ==> accepted[i] <= last)
    && |bucket| <= |accepted| && bucket == accepted[|accepted| - |bucket|..]
    && forall i :: 0 <= i < |accepted| - |bucket| ==> accepted[i] < last - window
  }

  /** Every closed interval as long as the window holds at most `limit` accepted times. */
  ghost predicate Bounded(accepted: Times, window: real, limit: nat) {
    forall a :: InWindow(accepted, a, window) <= limit
  }

  /** How many accepted times lie in the closed interval that starts at `a`. */
  function InWindow(ts: Times, a: real, window: real): nat {
    CountIn(ts, a, a + window)
  }

  // Counting.

  lemma {:induction false} CountSplit(ts: Times, d: nat, lo: real, hi: real)
    requires d <= |ts| && forall i :: 0 <= i < d ==> ts[i] < lo
    ensures CountIn(ts, lo, hi) <= |ts| - d
    decreases |ts|
  {
    if |ts| > d {
      CountSplit(ts[..|ts| - 1], d, lo, hi);
    } else {
      CountNone(ts, lo, hi);
    }
  }

  lemma {:induction false} CountNone(ts: Times, lo: real, hi: real)
    requires forall i :: 0 <= i < |ts| ==> ts[i] < lo
    ensures CountIn(ts, lo, hi) == 0
    decreases |ts|
  {
    if ts != [] { CountNone(ts[..|ts| - 1], lo, hi); }
  }

  lemma {:induction false} DropIsSuffix(ts: Times, lo: real)
    requires Sorted(ts)
    ensures var d := |ts| - |DropOld(ts, lo)|;
            DropOld(ts, lo) == ts[d..] && (forall i :: 0 <= i < d ==> ts[i] < lo)
            && (forall i :: d <= i < |ts| ==> ts[i] >= lo)
    decreases |ts|
  {
    if ts != [] && ts[0] < lo {
      var rest := ts[1..];
      DropIsSuffix(rest, lo);
      var d := |rest| - |DropOld(rest, lo)|;
      assert rest[d..] == ts[d + 1..];
      forall i | 0 <= i < d + 1 ensures ts[i] < lo { if i > 0 { assert ts[i] == rest[i - 1]; } }
      forall i | d + 1 <= i < |ts| ensures ts[i] >= lo { assert ts[i] == rest[i - 1]; }
    }
  }

  lemma {:induction false} RecentIs(ts: Times, d: nat, lo: real)
    requires d <= |ts| && (forall i :: 0 <= i < d ==> ts[i] < lo) && (forall i :: d <= i < |ts| ==> ts[i] >= lo)
    ensures Recent(ts, lo) == ts[d..]
    decreases |ts|
  {
    if ts != [] {
      var n := |ts| - 1;
      if d <= n {
        RecentIs(ts[..n], d, lo);
        assert ts[..n][d..] + [ts[n]] == ts[d..];
      } else {
        RecentIs(ts[..n], n, lo);
      }
    }
  }

  /** Dropping from the front and filtering are the same on sorted times. */
  lemma RecentIsDropOld(ts: Times, lo: real)
    requires Sorted(ts)
    ensures Recent(ts, lo) == DropOld(ts, lo)
  {
    DropIsSuffix(ts, lo);
    RecentIs(ts, |ts| - |DropOld(ts, lo)|, lo);
  }

  // One call.

  /** The bucket after pruning, at a later time. */
  lemma Prunes(bucket: Times, accepted: Times, window: real, last: real, now: real)
    requires Holds(bucket, accepted, window, last) && last <= now
    ensures Sorted(bucket) && Holds(DropOld(bucket, now - window), accepted, window, now)
  {
    hide DropOld;
    var d := |accepted| - |bucket|;
    assert forall i :: 0 <= i < |bucket| ==> bucket[i] == accepted[d + i];
    DropIsSuffix(bucket, now - window);
    var e := |bucket| - |DropOld(bucket, now - window)|;
    assert bucket[e..] == accepted[d + e..];
    forall i | 0 <= i < d + e ensures accepted[i] < now - window { if i >= d { assert accepted[i] == bucket[i - d]; } }
  }

  lemma Keeps(bucket: Times, accepted: Times, window: real, last: real, now: real)
    requires Holds(bucket, accepted, window, last) && last <= now
    ensures Holds(bucket, accepted, window, now)
  {
  }

  /** Accepting a call while the pruned bucket is below the limit keeps the bound. */
  lemma Accepts(bucket: Times, accepted: Times, window: real, limit: nat, now: real)
    requires Holds(bucket, accepted, window, now) && Bounded(accepted, window, limit)
    requires |bucket| < limit
    ensures Holds(bucket + [now], accepted + [now], window, now) && Bounded(accepted + [now], window, limit)
  {
    hide CountIn, Sorted;
    var d := |accepted| - |bucket|;
    var all := accepted + [now];
    AppendSorted(accepted, now);
    assert bucket + [now] == all[d..];
    forall i | 0 <= i < d ensures all[i] < now - window { assert all[i] == accepted[i]; }
    forall a: real ensures InWindow(all, a, window) <= limit {
      CountAppend(accepted, now, a, a + window);
      if a <= now <= a + window {
        assert forall i :: 0 <= i < d ==> accepted[i] < a;
        CountSplit(accepted, d, a, a + window);
      } else {
        assert InWindow(accepted, a, window) <= limit;
      }
    }
  }

  lemma AppendSorted(ts: Times, t: real)
    requires Sorted(ts) && forall i :: 0 <= i < |ts| ==> ts[i] <= t
    ensures Sorted(ts + [t])
  {
  }

  lemma CountAppend(ts: Times, t: real, lo: real, hi: real)
    ensures CountIn(ts + [t], lo, hi) == CountIn(ts, lo, hi) + (if lo <= t <= hi then 1 else 0)
  {
    assert (ts + [t])[..|ts|] == ts;
  }

  lemma NothingYet(window: real, limit: nat, now: real)
    ensures Holds([], [], window, now) && Bounded([], window, limit)
  {
    var none: Times := [];
    assert none[0..] == none;
  }

  // Runs of the request limiter.

  datatype Request = Request(key: string, now: real)

  predicate Clocked(calls: seq<Request>) {
    forall i, j :: 0 <= i < j < |calls| ==> calls[i].now <= calls[j].now
  }

  function Allows(bucket: Times, window: real, limit: nat, now: real): bool {
    |DropOld(bucket, now - window)| < limit
  }

  function BucketAfter(bucket: Times, window: real, limit: nat, now: real): Times {
    var pruned := DropOld(bucket, now - window);
    if |pruned| < limit then pruned + [now] else pruned
  }

  /** The bucket of a key after some calls. */
  function Bucket(calls: seq<Request>, key: string, window: real, limit: nat): Times {
    if calls == [] then []
    else
      var b := Bucket(calls[..|calls| - 1], key, window, limit);
      var c := calls[|calls| - 1];
      if c.key == key then BucketAfter(b, window, limit, c.now) else b
  }

  /** The times at which calls for a key were let through. */
  function Accepted(calls: seq<Request>, key: string, window: real, limit: nat): Times {
    if calls == [] then []
    else
      var before := calls[..|calls| - 1];
      var c := calls[|calls| - 1];
      var ts := Accepted(before, key, window, limit);
      if c.key == key && Allows(Bucket(before, key, window, limit), window, limit, c.now) then ts + [c.now] else ts
  }

  lemma {:induction false} RunHolds(calls: seq<Request>, key: string, window: real, limit: nat, now: real)
    requires Clocked(calls) && (calls != [] ==> calls[|calls| - 1].now <= now)
    ensures Holds(Bucket(calls, key, window, limit), Accepted(calls, key, window, limit), window, now)
    ensures Bounded(Accepted(calls, key, window, limit), window, limit)
    decreases |calls|
  {
    hide Holds, Bounded;
    if calls == [] {
      NothingYet(window, limit, now);
    } else {
      var before := calls[..|calls| - 1];
      var c := calls[|calls| - 1];
      RunHolds(before, key, window, limit, c.now);
      var b, ts := Bucket(before, key, window, limit), Accepted(before, key, window, limit);
      if c.key == key {
        Prunes(b, ts, window, c.now, c.now);
        var pruned := DropOld(b, c.now - window);
        if |pruned| < limit { Accepts(pruned, ts, window, limit, c.now); }
      }
      Keeps(Bucket(calls, key, window, limit), Accepted(calls, key, window, limit), window, c.now, now);
    }
  }

  /** Over every sequence of calls, every closed interval as long as the window holds at
      most `limit` calls that were let through for a key. */
  lemma WindowBound(calls: seq<Request>, key: string, window: real, limit: nat, a: real)
    requires Clocked(calls)
    ensures CountIn(Accepted(calls, key, window, limit), a, a + window) <= limit
  {
    RunHolds(calls, key, window, limit, if calls == [] then 0.0 else calls[|calls| - 1].now);
    assert InWindow(Accepted(calls, key, window, limit), a, window) <= limit;
  }

  // When a call is let through.

  lemma {:induction false} CountTail(ts: Times, d: nat, lo: real, hi: real)
    requires d <= |ts| && (forall i :: 0 <= i < d ==> ts[i] < lo) && (forall i :: d <= i < |ts| ==> lo <= ts[i] <= hi)
    ensures CountIn(ts, lo, hi) == |ts| - d
    decreases |ts|
  {
    if |ts| > d {
      CountTail(ts[..|ts| - 1], d, lo, hi);
    } else {
      CountNone(ts, lo, hi);
    }
  }

  /** What is left of a bucket is what was let through within the window up to now. */
  lemma PrunedCounts(bucket: Times, accepted: Times, window: real, last: real, now: real)
    requires Holds(bucket, accepted, window, last) && last <= now
    ensures |DropOld(bucket, now - window)| == CountIn(accepted, now - window, now)
    ensures |Recent(bucket, now - window)| == CountIn(accepted, now - window, now)
  {
    hide DropOld, Recent, CountIn;
    Prunes(bucket, accepted, window, last, now);
    RecentIsDropOld(bucket, now - window);
    DropIsSuffix(bucket, now - window);
    var pruned := DropOld(bucket, now - window);
    var d := |accepted| - |pruned|;
    forall i | d <= i < |accepted| ensures now - window <= accepted[i] <= now {
      assert accepted[i] == pruned[i - d] == bucket[|bucket| - |pruned| + (i - d)];
    }
    CountTail(accepted, d, now - window, now);
  }

  /** A call is let through exactly when fewer than the limit were let through within the window up to it. */
  lemma AllowsExact(calls: seq<Request>, key: string, window: real, limit: nat, now: real)
    requires Clocked(calls) && (calls != [] ==> calls[|calls| - 1].now <= now)
    ensures Allows(Bucket(calls, key, window, limit), window, limit, now)
       <==> CountIn(Accepted(calls, key, window, limit), now - window, now) < limit
  {
    hide Bucket, Accepted, Holds, CountIn;
    RunHolds(calls, key, window, limit, now);
    PrunedCounts(Bucket(calls, key, window, limit), Accepted(calls, key, window, limit), window, now, now);
  }

  // Clocks that run backwards.

  /** How many accepted calls of a key a call at `now` would find forgotten. */
  function Forgotten(calls: seq<Request>, key: string, window: real, limit: nat, now: real): int {
    |Accepted(calls, key, window, limit)| - |DropOld(Bucket(calls, key, window, limit), now - window)|
  }

  lemma {:induction false} DropsFront(ts: Times, lo: real)
    ensures DropOld(ts, lo) == ts[|ts| - |DropOld(ts, lo)|..]
  {
    if ts != [] && ts[0] < lo {
      DropsFront(ts[1..], lo);
      assert ts[1..][|ts[1..]| - |DropOld(ts, lo)|..] == ts[|ts| - |DropOld(ts, lo)|..];
    }
  }

  predicate Suffix(b: Times, ts: Times) {
    |b| <= |ts| && b == ts[|ts| - |b|..]
  }

  /** Whatever the clock does, the bucket is the end of what was accepted. */
  lemma {:induction false} BucketIsSuffix(calls: seq<Request>, key: string, window: real, limit: nat)
    ensures Suffix(Bucket(calls, key, window, limit), Accepted(calls, key, window, limit))
    decreases |calls|
  {
    hide DropOld, Suffix;
    if calls == [] {
      NoSuffix();
    } else {
      var before, c := calls[..|calls| - 1], calls[|calls| - 1];
      BucketIsSuffix(before, key, window, limit);
      if key == c.key {
        var b, ts := Bucket(before, key, window, limit), Accepted(before, key, window, limit);
        SuffixKept(b, ts, window, limit, c.now);
      }
    }
  }

  lemma NoSuffix()
    ensures Suffix([], [])
  {
  }

  lemma SuffixKept(b: Times, ts: Times, window: real, limit: nat, now: real)
    requires Suffix(b, ts)
    ensures Suffix(DropOld(b, now - window), ts)
    ensures Suffix(BucketAfter(b, window, limit, now), ts + (if Allows(b, window, limit, now) then [now] else []))
    ensures Suffix(BucketAfter(b, window, limit, now), if Allows(b, window, limit, now) then ts + [now] else ts)
  {
    hide DropOld;
    var p := DropOld(b, now - window);
    DropsFront(b, now - window);
    assert p == ts[|ts| - |p|..];
    assert p + [now] == (ts + [now])[|ts| - |p|..];
    assert ts + [] == ts;
  }

  lemma {:induction false} CountOutside(ts: Times, d: nat, lo: real, hi: real)
    requires d <= |ts| && forall i :: 0 <= i < d ==> !(lo <= ts[i] <= hi)
    ensures CountIn(ts, lo, hi) <= |ts| - d
    decreases |ts|
  {
    if |ts| > d {
      CountOutside(ts[..|ts| - 1], d, lo, hi);
    } else if ts != [] {
      CountOutside(ts[..|ts| - 1], |ts| - 1, lo, hi);
    }
  }

  /** For every clock: the call that breaks the bound is let through into an interval that was
      full already, and it reaches back, within one window, to a call that was forgotten. */
  lemma BreaksExactly(before: seq<Request>, c: Request, window: real, limit: nat)
    requires Bounded(Accepted(before, c.key, window, limit), window, limit)
    ensures var ts := Accepted(before, c.key, window, limit);
            var allowed := Allows(Bucket(before, c.key, window, limit), window, limit, c.now);
            !Bounded(Accepted(before + [c], c.key, window, limit), window, limit)
            <==> allowed && exists a :: a <= c.now <= a + window && InWindow(ts, a, window) == limit
    ensures !Bounded(Accepted(before + [c], c.key, window, limit), window, limit) ==>
              exists j :: 0 <= j < Forgotten(before, c.key, window, limit, c.now) <= |Accepted(before, c.key, window,
                                                                                               limit)|
                          && c.now - window <= Accepted(before, c.key, window, limit)[j] <= c.now + window
  {
    hide Bucket, Accepted, DropOld, CountIn;
    var b, ts := Bucket(before, c.key, window, limit), Accepted(before, c.key, window, limit);
    var pruned := DropOld(b, c.now - window);
    Answered(before, c, window, limit);
    if |pruned| < limit {
      OneMore(ts, c.now, window, limit);
      if a :| a <= c.now <= a + window && InWindow(ts, a, window) == limit {
        BucketIsSuffix(before, c.key, window, limit);
        SuffixKept(b, ts, window, limit, c.now);
        var d := |ts| - |pruned|;
        if forall j :: 0 <= j < d ==> !(c.now - window <= ts[j] <= c.now + window) {
          CountOutside(ts, d, a, a + window);
        }
      }
    } else {
      assert ts + [] == ts;
    }
  }

  lemma OneMore(ts: Times, now: real, window: real, limit: nat)
    requires Bounded(ts, window, limit)
    ensures !Bounded(ts + [now], window, limit)
       <==> exists a :: a <= now <= a + window && InWindow(ts, a, window) == limit
  {
    hide CountIn;
    forall a: real ensures InWindow(ts + [now], a, window)
                        == InWindow(ts, a, window) + (if a <= now <= a + window then 1 else 0) {
      CountAppend(ts, now, a, a + window);
    }
    if a :| a <= now <= a + window && InWindow(ts, a, window) == limit {
      assert InWindow(ts + [now], a, window) > limit;
    }
    if !Bounded(ts + [now], window, limit) {
      var a :| InWindow(ts + [now], a, window) > limit;
      assert InWindow(ts, a, window) <= limit;
    }
  }

  /** Such calls exist: a call at 25 forgets those at 10 and 11, and when the clock then
      falls back to 12 a third call of the interval from 5 to 15 is let through. */
  lemma ClockMatters()
    ensures var calls := [Request("k", 10.0), Request("k", 11.0), Request("k", 25.0), Request("k", 12.0)];
            !Clocked(calls) && CountIn(Accepted(calls, "k", 10.0, 2), 5.0, 15.0) == 3
  {
    var a, b, c, d := Request("k", 10.0), Request("k", 11.0), Request("k", 25.0), Request("k", 12.0);
    var calls := [a, b, c, d];
    assert calls[3].now < calls[2].now;
    var none: Times := [];
    assert Bucket([], "k", 10.0, 2) == none && Accepted([], "k", 10.0, 2) == none;
    hide Bucket, Accepted, CountIn, DropOld;
    DropsNothing();
    OneRequest([], a, [a], 10.0, 2, none, none, none);
    OneRequest([a], b, [a, b], 10.0, 2, [10.0], [10.0], [10.0]);
    OneRequest([a, b], c, [a, b, c], 10.0, 2, [10.0, 11.0], [10.0, 11.0], none);
    OneRequest([a, b, c], d, calls, 10.0, 2, [25.0], [10.0, 11.0, 25.0], [25.0]);
    CountsThree();
  }

  lemma OneRequest(before: seq<Request>, c: Request, calls: seq<Request>, window: real, limit: nat, b: Times, ts: Times,
                   pruned: Times)
    requires calls == before + [c] && b == Bucket(before, c.key, window, limit)
             && ts == Accepted(before, c.key, window, limit)
    requires pruned == DropOld(b, c.now - window) && |pruned| < limit
    ensures Bucket(calls, c.key, window, limit) == pruned + [c.now]
            && Accepted(calls, c.key, window, limit) == ts + [c.now]
  {
    assert calls[..|before|] == before;
  }

  lemma DropsNothing()
    ensures DropOld([], 0.0) == [] && DropOld([10.0], 1.0) == [10.0] && DropOld([10.0, 11.0], 15.0) == []
            && DropOld([25.0], 2.0) == [25.0]
  {
    assert [10.0, 11.0][1..] == [11.0];
    assert DropOld([11.0], 15.0) == [];
  }

  lemma CountsThree()
    ensures CountIn([10.0, 11.0, 25.0, 12.0], 5.0, 15.0) == 3
  {
    CountAppend([], 10.0, 5.0, 15.0);
    CountAppend([10.0], 11.0, 5.0, 15.0);
    CountAppend([10.0, 11.0], 25.0, 5.0, 15.0);
    CountAppend([10.0, 11.0, 25.0], 12.0, 5.0, 15.0);
    var none: Times := [];
    assert none + [10.0] == [10.0] && [10.0] + [11.0] == [10.0, 11.0] && [10.0, 11.0] + [25.0] == [10.0, 11.0, 25.0];
    assert [10.0, 11.0, 25.0] + [12.0] == [10.0, 11.0, 25.0, 12.0];
  }

  // The limiters as they are written.

  class RequestLimiter {
    const window: real
    const limit: nat
    var buckets: map<string, Times>
    ghost var calls: seq<Request>

    constructor (window: real, limit: nat)
      ensures this.window == window && this.limit == limit && calls == [] && Valid()
    {
      this.window, this.limit, buckets, calls := window, limit, map[], [];
    }

    ghost predicate Valid()
      reads this
    {
      && Clocked(calls)
      && forall key :: (if key in buckets then buckets[key] else []) == Bucket(calls, key, window, limit)
    }

    method Allow(key: string, now: real) returns (ok: bool)
      requires Valid() && (calls != [] ==> calls[|calls| - 1].now <= now)
      modifies this
      ensures Valid() && calls == old(calls) + [Request(key, now)]
      ensures Accepted(calls, key, window, limit)
           == Accepted(old(calls), key, window, limit) + (if ok then [now] else [])
      ensures Bounded(Accepted(calls, key, window, limit), window, limit)
      ensures ok <==> CountIn(Accepted(old(calls), key, window, limit), now - window, now) < limit
    {
      hide Bucket, Accepted, Bounded, Holds, CountIn;
      hide DropOld;
      AllowsExact(calls, key, window, limit, now);
      ghost var before := calls;
      var bucket := Prune(if key in buckets then buckets[key] else [], now - window);
      ok := |bucket| < limit;
      if ok { bucket := bucket + [now]; }
      buckets := buckets[key := bucket];
      calls := calls + [Request(key, now)];
      Answered(before, Request(key, now), window, limit);
      RunHolds(calls, key, window, limit, now);
    }

    /** Takes the times before `lo` off the front. */
    method Prune(full: Times, lo: real) returns (bucket: Times)
      ensures bucket == DropOld(full, lo)
    {
      bucket := full;
      while bucket != [] && bucket[0] < lo
        invariant DropOld(bucket, lo) == DropOld(full, lo)
        decreases |bucket|
      {
        bucket := bucket[1..];
      }
    }
  }

  /** One more request: what happens to its own key and to the others. */
  lemma Answered(before: seq<Request>, c: Request, window: real, limit: nat)
    ensures var calls := before + [c];
            var b := Bucket(before, c.key, window, limit);
            && Bucket(calls, c.key, window, limit) == BucketAfter(b, window, limit, c.now)
            && Accepted(calls, c.key, window, limit)
               == Accepted(before, c.key, window, limit) + (if Allows(b, window, limit, c.now) then [c.now] else [])
            && forall key :: key != c.key ==>
                               && Bucket(calls, key, window, limit) == Bucket(before, key, window, limit)
                               && Accepted(calls, key, window, limit) == Accepted(before, key, window, limit)
  {
    assert (before + [c])[..|before|] == before;
  }

  // The three windows of a realtime message.

  /** An empty user or room stands for none. */
  datatype Message = Message(conn: nat, channel: string, user: string, room: string, now: real)

  /** Rooms are counted by channel and name. */
  function RoomKey(m: Message): string {
    m.channel + ":" + m.room
  }

  function Of<K(==)>(buckets: map<K, Times>, key: K): Times {
    if key in buckets then buckets[key] else []
  }

  /** One kind of window: the buckets, and the times ever counted under each key. */
  ghost predicate WindowsOk<K(!new)>(buckets: map<K, Times>, counted: map<K, Times>, window: real, limit: nat,
                                     last: real) {
    forall key :: Holds(Of(buckets, key), Of(counted, key), window, last) && Bounded(Of(counted, key), window, limit)
  }

  /** Every interval holds at most as many of the first times as of the second. */
  ghost predicate Fewer(a: Times, b: Times) {
    forall lo, hi :: CountIn(a, lo, hi) <= CountIn(b, lo, hi)
  }

  /** The pruned bucket of a key is below its limit. */
  predicate Room<K(==)>(buckets: map<K, Times>, key: K, window: real, limit: nat, now: real) {
    |Recent(Of(buckets, key), now - window)| < limit
  }

  /** There is room under a key exactly when fewer than the limit were counted under it within the
      window up to now. */
  lemma RoomExact<K(!new)>(buckets: map<K, Times>, counted: map<K, Times>, key: K, window: real, limit: nat, last: real,
                           now: real)
    requires WindowsOk(buckets, counted, window, limit, last) && last <= now
    ensures Room(buckets, key, window, limit, now)
       <==> CountIn(Of(counted, key), now - window, now) < limit
  {
    hide Holds, Bounded, CountIn, Recent;
    assert Holds(Of(buckets, key), Of(counted, key), window, last);
    PrunedCounts(Of(buckets, key), Of(counted, key), window, last, now);
  }

  /** Rooms of channels whose names hold no colon are told apart; a colon can make two rooms one. */
  lemma RoomsApart(m: Message, m': Message)
    requires ':' !in m.channel && ':' !in m'.channel
    ensures RoomKey(m) == RoomKey(m') <==> m.channel == m'.channel && m.room == m'.room
  {
    ColonAt(m.channel, m.room);
    ColonAt(m'.channel, m'.room);
    var key, key' := RoomKey(m), RoomKey(m');
    assert key[..FirstColon(key)] == m.channel && key'[..FirstColon(key')] == m'.channel;
    assert key[FirstColon(key) + 1..] == m.room && key'[FirstColon(key') + 1..] == m'.room;
  }

  function FirstColon(s: string): (k: nat)
    ensures k <= |s|
  {
    if s == "" || s[0] == ':' then 0 else 1 + FirstColon(s[1..])
  }

  lemma {:induction false} ColonAt(channel: string, room: string)
    requires ':' !in channel
    ensures FirstColon(channel + ":" + room) == |channel|
    decreases |channel|
  {
    if channel == "" {
      assert ("" + ":" + room)[0] == ':';
    } else {
      assert (channel + ":" + room)[1..] == channel[1..] + ":" + room;
      ColonAt(channel[1..], room);
    }
  }

  lemma RoomsConfused()
    ensures RoomKey(Message(0, "a", "", "b:c", 0.0)) == RoomKey(Message(0, "a:b", "", "c", 0.0))
  {
    assert RoomKey(Message(0, "a", "", "b:c", 0.0)) == "a:b:c";
  }

  /** Counting a call under its key. */
  lemma Counts<K(!new)>(buckets: map<K, Times>, counted: map<K, Times>, key: K, window: real, limit: nat, last: real,
                        now: real)
    requires WindowsOk(buckets, counted, window, limit, last) && last <= now
    ensures var pruned := Recent(Of(buckets, key), now - window);
            && WindowsOk(buckets[key := pruned], counted, window, limit, now)
            && WindowsOk(buckets, counted, window, limit, now)
            && (|pruned| < limit ==>
                  WindowsOk(buckets[key := pruned + [now]], counted[key := Of(counted, key) + [now]], window, limit,
                            now))
  {
    hide Holds, Bounded;
    var pruned := Recent(Of(buckets, key), now - window);
    forall k: K
      ensures Holds(Of(buckets, k), Of(counted, k), window, now) && Bounded(Of(counted, k), window, limit)
    {
      assert Holds(Of(buckets, k), Of(counted, k), window, last);
      Keeps(Of(buckets, k), Of(counted, k), window, last, now);
    }
    assert Holds(Of(buckets, key), Of(counted, key), window, last);
    Prunes(Of(buckets, key), Of(counted, key), window, last, now);
    RecentIsDropOld(Of(buckets, key), now - window);
    if |pruned| < limit {
      Accepts(pruned, Of(counted, key), window, limit, now);
      var b, c := buckets[key := pruned + [now]], counted[key := Of(counted, key) + [now]];
      forall k: K ensures Holds(Of(b, k), Of(c, k), window, now) && Bounded(Of(c, k), window, limit) {
        if k != key { assert Of(b, k) == Of(buckets, k) && Of(c, k) == Of(counted, k); }
      }
    }
  }

  function TimesOfConn(passed: seq<Message>, conn: nat): Times {
    if passed == [] then []
    else
      var m := passed[|passed| - 1];
      TimesOfConn(passed[..|passed| - 1], conn) + (if m.conn == conn then [m.now] else [])
  }

  function TimesOfUser(passed: seq<Message>, user: string): Times {
    if passed == [] then []
    else
      var m := passed[|passed| - 1];
      TimesOfUser(passed[..|passed| - 1], user) + (if m.user != "" && m.user == user then [m.now] else [])
  }

  function TimesOfRoom(passed: seq<Message>, room: string): Times {
    if passed == [] then []
    else
      var m := passed[|passed| - 1];
      TimesOfRoom(passed[..|passed| - 1], room) + (if m.room != "" && RoomKey(m) == room then [m.now] else [])
  }

  lemma FewerGrows(a: Times, b: Times, t: real)
    requires Fewer(a, b)
    ensures Fewer(a, b + [t]) && Fewer(a + [t], b + [t]) && a + [] == a
  {
    forall lo: real, hi: real ensures CountIn(a, lo, hi) <= CountIn(b + [t], lo, hi)
                                      && CountIn(a + [t], lo, hi) <= CountIn(b + [t], lo, hi) {
      CountAppend(a, t, lo, hi);
      CountAppend(b, t, lo, hi);
      assert CountIn(a, lo, hi) <= CountIn(b, lo, hi);
    }
  }

  function Counted<K(==)>(counted: map<K, Times>, key: K, yes: bool, now: real): map<K, Times> {
    if yes then counted[key := Of(counted, key) + [now]] else counted
  }

  ghost predicate ConnsFewer(passed: seq<Message>, counted: map<nat, Times>) {
    forall c :: Fewer(TimesOfConn(passed, c), Of(counted, c))
  }

  ghost predicate UsersFewer(passed: seq<Message>, counted: map<string, Times>) {
    forall u :: Fewer(TimesOfUser(passed, u), Of(counted, u))
  }

  ghost predicate RoomsFewer(passed: seq<Message>, counted: map<string, Times>) {
    forall r :: Fewer(TimesOfRoom(passed, r), Of(counted, r))
  }

  lemma ConnFewer(passed: seq<Message>, counted: map<nat, Times>, m: Message, yes: bool, ok: bool)
    requires ConnsFewer(passed, counted) && (ok ==> yes)
    ensures ConnsFewer(passed + (if ok then [m] else []), Counted(counted, m.conn, yes, m.now))
  {
    hide Fewer;
    assert (passed + [m])[..|passed|] == passed && passed + [] == passed;
    forall c ensures Fewer(TimesOfConn(passed + (if ok then [m] else []), c),
                           Of(Counted(counted, m.conn, yes, m.now), c)) {
      FewerGrows(TimesOfConn(passed, c), Of(counted, c), m.now);
    }
  }

  lemma UserFewer(passed: seq<Message>, counted: map<string, Times>, m: Message, yes: bool, ok: bool)
    requires UsersFewer(passed, counted) && (ok && m.user != "" ==> yes)
    ensures UsersFewer(passed + (if ok then [m] else []), Counted(counted, m.user, yes, m.now))
  {
    hide Fewer;
    assert (passed + [m])[..|passed|] == passed && passed + [] == passed;
    forall u ensures Fewer(TimesOfUser(passed + (if ok then [m] else []), u),
                           Of(Counted(counted, m.user, yes, m.now), u)) {
      FewerGrows(TimesOfUser(passed, u), Of(counted, u), m.now);
    }
  }

  lemma RoomFewer(passed: seq<Message>, counted: map<string, Times>, m: Message, yes: bool, ok: bool)
    requires RoomsFewer(passed, counted) && (ok && m.room != "" ==> yes)
    ensures RoomsFewer(passed + (if ok then [m] else []), Counted(counted, RoomKey(m), yes, m.now))
  {
    hide Fewer;
    assert (passed + [m])[..|passed|] == passed && passed + [] == passed;
    forall r ensures Fewer(TimesOfRoom(passed + (if ok then [m] else []), r),
                           Of(Counted(counted, RoomKey(m), yes, m.now), r)) {
      FewerGrows(TimesOfRoom(passed, r), Of(counted, r), m.now);
    }
  }

  /** The times that passed are bounded as the times counted are. */
  lemma BoundedByCounted(a: Times, b: Times, window: real, limit: nat)
    requires Fewer(a, b) && Bounded(b, window, limit)
    ensures Bounded(a, window, limit)
  {
    forall x: real ensures InWindow(a, x, window) <= limit {
      assert InWindow(b, x, window) <= limit;
    }
  }

  class MessageLimiter {
    const window: real
    const maxConn: nat
    const maxUser: nat
    const maxRoom: nat
    var conns: map<nat, Times>
    var users: map<string, Times>
    var rooms: map<string, Times>
    ghost var last: real
    ghost var passed: seq<Message>
    ghost var byConn: map<nat, Times>
    ghost var byUser: map<string, Times>
    ghost var byRoom: map<string, Times>

    constructor (window: real, maxConn: nat, maxUser: nat, maxRoom: nat)
      ensures this.window == window && this.maxConn == maxConn && this.maxUser == maxUser && this.maxRoom == maxRoom
      ensures passed == [] && last == 0.0 && Valid()
    {
      this.window, this.maxConn, this.maxUser, this.maxRoom := window, maxConn, maxUser, maxRoom;
      conns, users, rooms, last, passed := map[], map[], map[], 0.0, [];
      byConn, byUser, byRoom := map[], map[], map[];
      NothingYet(window, maxConn, 0.0);
      NothingYet(window, maxUser, 0.0);
      NothingYet(window, maxRoom, 0.0);
    }

    ghost predicate Valid()
      reads this
    {
      && WindowsOk(conns, byConn, window, maxConn, last)
      && WindowsOk(users, byUser, window, maxUser, last)
      && WindowsOk(rooms, byRoom, window, maxRoom, last)
      && ConnsFewer(passed, byConn) && UsersFewer(passed, byUser) && RoomsFewer(passed, byRoom)
    }

    method CountConn(conn: nat, now: real) returns (ok: bool)
      requires WindowsOk(conns, byConn, window, maxConn, last) && last <= now
      modifies this`conns, this`byConn
      ensures ok <==> Room(old(conns), conn, window, maxConn, now)
      ensures WindowsOk(conns, byConn, window, maxConn, now) && byConn == Counted(old(byConn), conn, ok, now)
    {
      hide WindowsOk, Recent;
      Counts(conns, byConn, conn, window, maxConn, last, now);
      var recent := Recent(Of(conns, conn), now - window);
      ok := |recent| < maxConn;
      conns := conns[conn := if ok then recent + [now] else recent];
      byConn := Counted(byConn, conn, ok, now);
    }

    method CountUser(user: string, now: real) returns (ok: bool)
      requires WindowsOk(users, byUser, window, maxUser, last) && last <= now
      modifies this`users, this`byUser
      ensures ok <==> Room(old(users), user, window, maxUser, now)
      ensures WindowsOk(users, byUser, window, maxUser, now) && byUser == Counted(old(byUser), user, ok, now)
    {
      hide WindowsOk, Recent;
      Counts(users, byUser, user, window, maxUser, last, now);
      var recent := Recent(Of(users, user), now - window);
      ok := |recent| < maxUser;
      if ok { users := users[user := recent + [now]]; }
      byUser := Counted(byUser, user, ok, now);
    }

    method CountRoom(room: string, now: real) returns (ok: bool)
      requires WindowsOk(rooms, byRoom, window, maxRoom, last) && last <= now
      modifies this`rooms, this`byRoom
      ensures ok <==> Room(old(rooms), room, window, maxRoom, now)
      ensures WindowsOk(rooms, byRoom, window, maxRoom, now) && byRoom == Counted(old(byRoom), room, ok, now)
    {
      hide WindowsOk, Recent;
      Counts(rooms, byRoom, room, window, maxRoom, last, now);
      var recent := Recent(Of(rooms, room), now - window);
      ok := |recent| < maxRoom;
      if ok { rooms := rooms[room := recent + [now]]; }
      byRoom := Counted(byRoom, room, ok, now);
    }

    /** A message passes if its connection, its user and its room have room for it. An
        earlier window counts it even when a later one turns it away. */
    method Validate(m: Message) returns (ok: bool)
      requires Valid() && last <= m.now
      modifies this
      ensures Valid() && last == m.now
      ensures ok <==> Room(old(conns), m.conn, window, maxConn, m.now)
                      && (m.user != "" ==> Room(old(users), m.user, window, maxUser, m.now))
                      && (m.room != "" ==> Room(old(rooms), RoomKey(m), window, maxRoom, m.now))
      ensures passed == old(passed) + (if ok then [m] else [])
    {
      hide WindowsOk, ConnsFewer, UsersFewer, RoomsFewer, Room;
      Counts(users, byUser, m.user, window, maxUser, last, m.now);
      Counts(rooms, byRoom, RoomKey(m), window, maxRoom, last, m.now);
      ghost var countedUser, countedRoom := false, false;
      var connOk := CountConn(m.conn, m.now);
      ok := connOk;
      if ok && m.user != "" {
        ok := CountUser(m.user, m.now);
        countedUser := ok;
      }
      if ok && m.room != "" {
        ok := CountRoom(RoomKey(m), m.now);
        countedRoom := ok;
      }
      ConnFewer(passed, old(byConn), m, connOk, ok);
      UserFewer(passed, old(byUser), m, countedUser, ok);
      RoomFewer(passed, old(byRoom), m, countedRoom, ok);
      passed := passed + (if ok then [m] else []);
      last := m.now;
    }

    /** No connection, user or room gets more messages through any interval as long as the
        window than its limit. */
    lemma PassedBounded(c: nat, u: string, r: string)
      requires Valid()
      ensures Bounded(TimesOfConn(passed, c), window, maxConn)
      ensures Bounded(TimesOfUser(passed, u), window, maxUser)
      ensures Bounded(TimesOfRoom(passed, r), window, maxRoom)
    {
      BoundedByCounted(TimesOfConn(passed, c), Of(byConn, c), window, maxConn);
      BoundedByCounted(TimesOfUser(passed, u), Of(byUser, u), window, maxUser);
      BoundedByCounted(TimesOfRoom(passed, r), Of(byRoom, r), window, maxRoom);
    }
  }
}
