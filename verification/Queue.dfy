/** The event queue of a connection, and the replay of a channel's history into it. */
module Queue {
  import opened Syntax

  /** A queued event; presence events carry no cursor. */
  datatype Item = Item(cursor: Option<int>, text: string)

  function CursorOf(x: Item): int {
    if x.cursor.Some? then x.cursor.value else 0
  }

  /** The place in front of the first event with a larger cursor. */
  function PlaceFor(q: seq<Item>, c: int): (k: nat)
    ensures k <= |q|
    ensures forall i :: 0 <= i < k ==> q[i].cursor.None? || q[i].cursor.value <= c
    ensures k < |q| ==> q[k].cursor.Some? && q[k].cursor.value > c
  {
    if q == [] then 0
    else if q[0].cursor.Some? && q[0].cursor.value > c then 0
    else 1 + PlaceFor(q[1..], c)
  }

  function Insert(q: seq<Item>, x: Item): (r: seq<Item>)
    ensures |r| == |q| + 1
  {
    if CursorOf(x) > 0 then
      var k := PlaceFor(q, CursorOf(x));
      q[..k] + [x] + q[k..]
    else q + [x]
  }

  /** Only the last `limit` events are kept. */
  function Trim(q: seq<Item>, limit: nat): (r: seq<Item>)
    ensures |r| == if |q| > limit then limit else |q|
  {
    if |q| > limit then q[|q| - limit..] else q
  }

  /** Positive cursors never go down. */
  predicate Ordered(q: seq<Item>) {
    forall i, j :: 0 <= i < j < |q| && CursorOf(q[i]) > 0 && CursorOf(q[j]) > 0 ==> CursorOf(q[i]) <= CursorOf(q[j])
  }

  lemma InsertOrdered(q: seq<Item>, x: Item)
    requires Ordered(q)
    ensures Ordered(Insert(q, x))
  {
    if CursorOf(x) > 0 { BetweenOrdered(q, PlaceFor(q, CursorOf(x)), x); }
  }

  /** An event stands behind the smaller cursors and before the larger ones. */
  lemma BetweenOrdered(q: seq<Item>, k: nat, x: Item)
    requires Ordered(q) && k <= |q| && CursorOf(x) > 0
    requires forall i :: 0 <= i < k ==> CursorOf(q[i]) <= CursorOf(x)
    requires k < |q| ==> CursorOf(q[k]) > CursorOf(x)
    ensures Ordered(q[..k] + [x] + q[k..])
  {
    hide CursorOf;
    var r := q[..k] + [x] + q[k..];
    forall i, j | 0 <= i < j < |r| && CursorOf(r[i]) > 0 && CursorOf(r[j]) > 0
      ensures CursorOf(r[i]) <= CursorOf(r[j]) {
      assert r[i] == if i < k then q[i] else if i == k then x else q[i - 1];
      assert r[j] == if j < k then q[j] else if j == k then x else q[j - 1];
      assert k < j ==> CursorOf(q[j - 1]) >= CursorOf(q[k]);
    }
  }

  /** The two ways an event is added. */
  lemma InsertIs(q: seq<Item>, x: Item)
    ensures var c := CursorOf(x);
            Insert(q, x) == if c > 0 && q != [] then q[..PlaceFor(q, c)] + [x] + q[PlaceFor(q, c)..] else q + [x]
  {
    hide PlaceFor;
    if q == [] { assert q[..PlaceFor(q, CursorOf(x))] == [] && [] + [x] + [] == [x] == q + [x]; }
  }

  lemma TrimOrdered(q: seq<Item>, limit: nat)
    ensures Ordered(q) ==> Ordered(Trim(q, limit))
  {
  }

  // What is kept.

  /** Of too many events the front ones go: none that is kept is smaller than one that is dropped. */
  lemma DropsSmallest(q: seq<Item>, limit: nat, i: nat, j: nat)
    requires Ordered(q) && i + |Trim(q, limit)| < |q| && j < |Trim(q, limit)|
    ensures CursorOf(q[i]) > 0 && CursorOf(Trim(q, limit)[j]) > 0 ==> CursorOf(q[i]) <= CursorOf(Trim(q, limit)[j])
    ensures Trim(q, limit)[j] == q[|q| - |Trim(q, limit)| + j]
  {
  }

  /** An arrival that no waiting event comes after is the last of the queue, if there is room for
      any; one without a cursor comes last in any case. */
  lemma NewestStays(q: seq<Item>, x: Item, limit: nat)
    requires limit > 0 && (CursorOf(x) > 0 ==> forall i :: 0 <= i < |q| ==> CursorOf(q[i]) <= CursorOf(x))
    ensures var r := After(q, Arrive(x, limit)); r != [] && r[|r| - 1] == x
  {
    if CursorOf(x) > 0 { NoneLarger(q, CursorOf(x)); }
  }

  lemma {:induction false} NoneLarger(q: seq<Item>, c: int)
    requires c > 0 && forall i :: 0 <= i < |q| ==> CursorOf(q[i]) <= c
    ensures PlaceFor(q, c) == |q|
  {
    if q != [] {
      forall i | 0 <= i < |q| - 1 ensures CursorOf(q[1..][i]) <= c { assert q[1..][i] == q[i + 1]; }
      NoneLarger(q[1..], c);
    }
  }

  /** The events that were waiting stay as they are, in the same order, around the arrival. */
  lemma OthersStay(q: seq<Item>, x: Item) returns (k: nat)
    ensures k <= |q| && Insert(q, x)[k] == x && Insert(q, x)[..k] + Insert(q, x)[k + 1..] == q
    ensures CursorOf(x) > 0 ==>
              (forall i :: 0 <= i < k ==> CursorOf(q[i]) <= CursorOf(x)) && (k < |q| ==> CursorOf(q[k]) > CursorOf(x))
    ensures CursorOf(x) <= 0 ==> k == |q|
  {
    k := if CursorOf(x) > 0 then PlaceFor(q, CursorOf(x)) else |q|;
    assert Insert(q, x) == q[..k] + [x] + q[k..];
  }

  // Arrivals in any order.

  datatype Step = Arrive(x: Item, limit: nat) | Take(limit: nat)

  function After(q: seq<Item>, s: Step): seq<Item> {
    match s
    case Arrive(x, limit) => Trim(Insert(q, x), limit)
    case Take(limit) => if limit <= |q| then q[limit..] else []
  }

  function Run(steps: seq<Step>): seq<Item> {
    if steps == [] then [] else After(Run(steps[..|steps| - 1]), steps[|steps| - 1])
  }

  /** Whatever arrives and is taken, in whatever order, the cursors stay in order; and
      after an arrival the queue is within that arrival's limit. */
  lemma {:induction false} AlwaysOrdered(steps: seq<Step>)
    ensures Ordered(Run(steps))
    ensures steps != [] && steps[|steps| - 1].Arrive? ==> |Run(steps)| <= steps[|steps| - 1].limit
    decreases |steps|
  {
    if steps != [] {
      var before := Run(steps[..|steps| - 1]);
      AlwaysOrdered(steps[..|steps| - 1]);
      if steps[|steps| - 1].Arrive? { InsertOrdered(before, steps[|steps| - 1].x); }
    }
  }

  // Replay.

  /** The events of a history after a cursor, as they stand in it. */
  function Newer(history: seq<Item>, cursor: int): seq<Item> {
    if history == [] then []
    else
      var before := Newer(history[..|history| - 1], cursor);
      var x := history[|history| - 1];
      if CursorOf(x) > cursor then before + [x] else before
  }

  function Sorted(items: seq<Item>): seq<Item> {
    if items == [] then [] else Insert(Sorted(items[..|items| - 1]), items[|items| - 1])
  }

  predicate AllPositive(q: seq<Item>) {
    forall i :: 0 <= i < |q| ==> CursorOf(q[i]) > 0
  }

  lemma InsertBag(q: seq<Item>, x: Item)
    ensures multiset(Insert(q, x)) == multiset(q) + multiset{x}
    ensures AllPositive(q) && CursorOf(x) > 0 ==> AllPositive(Insert(q, x))
  {
    hide PlaceFor, AllPositive;
    if CursorOf(x) > 0 {
      var k := PlaceFor(q, CursorOf(x));
      BetweenBag(q, q[..k], q[k..], x);
      if AllPositive(q) { BetweenPositive(q, q[..k], q[k..], x); }
    }
  }

  lemma BetweenBag(q: seq<Item>, a: seq<Item>, b: seq<Item>, x: Item)
    requires a + b == q
    ensures multiset(a + [x] + b) == multiset(q) + multiset{x}
  {
  }

  lemma BetweenPositive(q: seq<Item>, a: seq<Item>, b: seq<Item>, x: Item)
    requires a + b == q && AllPositive(q) && CursorOf(x) > 0
    ensures AllPositive(a + [x] + b)
  {
    var r := a + [x] + b;
    forall i | 0 <= i < |r| ensures CursorOf(r[i]) > 0 {
      assert r[i] == if i < |a| then q[i] else if i == |a| then x else q[i - 1];
    }
  }

  lemma {:induction false} SortedIs(items: seq<Item>)
    requires AllPositive(items)
    ensures var r := Sorted(items); Ordered(r) && multiset(r) == multiset(items) && AllPositive(r) && |r| == |items|
    decreases |items|
  {
    hide Insert, Ordered;
    if items == [] {
      NoneOrdered();
    } else {
      var n := |items| - 1;
      SortedIs(items[..n]);
      InsertOrdered(Sorted(items[..n]), items[n]);
      InsertBag(Sorted(items[..n]), items[n]);
      assert items == items[..n] + [items[n]];
    }
  }

  /** Trimming before an insertion makes no difference to what is kept after it. */
  lemma TrimEarly(q: seq<Item>, x: Item, limit: nat)
    requires Ordered(q) && AllPositive(q) && CursorOf(x) > 0
    ensures Trim(Insert(Trim(q, limit), x), limit) == Trim(Insert(q, x), limit)
  {
    hide Ordered, Insert;
    if |q| > limit > 0 {
      var d := |q| - limit;
      TrimTail(q, q[d..], x, d);
    }
  }

  lemma TrimTail(q: seq<Item>, r: seq<Item>, x: Item, d: nat)
    requires Ordered(q) && AllPositive(q) && CursorOf(x) > 0 && d < |q| && r == q[d..]
    ensures Insert(q, x)[d + 1..] == Insert(r, x)[1..]
  {
    hide Ordered, PlaceFor;
    var c := CursorOf(x);
    var k, k' := PlaceFor(q, c), PlaceFor(r, c);
    if k < d {
      LargerLater(q, k, d);
      SuffixLow(q, x, k, d);
      SuffixLow(r, x, 0, 0);
    } else {
      PlaceInTail(q, c, d, k, k');
      SuffixHigh(q, x, k, d);
    }
  }

  lemma NoneOrdered()
    ensures Ordered([])
  {
  }

  lemma LargerLater(q: seq<Item>, k: nat, d: nat)
    requires Ordered(q) && AllPositive(q) && k < d < |q|
    ensures CursorOf(q[k]) <= CursorOf(q[d])
  {
  }

  lemma SuffixLow(q: seq<Item>, x: Item, k: nat, d: nat)
    requires k <= d <= |q|
    ensures (q[..k] + [x] + q[k..])[d + 1..] == q[d..]
  {
  }

  lemma SuffixHigh(q: seq<Item>, x: Item, k: nat, d: nat)
    requires d <= k <= |q|
    ensures (q[..k] + [x] + q[k..])[d + 1..] == (q[d..][..k - d] + [x] + q[d..][k - d..])[1..]
  {
  }

  lemma PlaceInTail(q: seq<Item>, c: int, d: nat, k: nat, k': nat)
    requires Ordered(q) && AllPositive(q) && d < |q|
    requires k == PlaceFor(q, c) && k' == PlaceFor(q[d..], c) && k >= d
    ensures k == d + k'
  {
    if k' < |q| - d { assert q[d + k'] == q[d..][k']; }
    if k < |q| { assert q[d..][k - d] == q[k]; }
  }

  // The connection as it is written.

  class Connection {
    var queue: seq<Item>

    constructor ()
      ensures queue == []
    {
      queue := [];
    }

    /** Looks for the first event with a larger cursor. */
    method FindPlace(c: int) returns (idx: nat)
      ensures idx == PlaceFor(queue, c)
    {
      idx := 0;
      while idx < |queue| && (queue[idx].cursor.None? || queue[idx].cursor.value <= c)
        invariant idx <= |queue| && PlaceFor(queue, c) == idx + PlaceFor(queue[idx..], c)
      {
        assert queue[idx..][1..] == queue[idx + 1..];
        idx := idx + 1;
      }
    }

    method Enqueue(x: Item, limit: nat)
      modifies this
      ensures queue == Trim(Insert(old(queue), x), limit)
      ensures old(Ordered(queue)) ==> Ordered(queue)
    {
      hide PlaceFor, Ordered, Insert, CursorOf;
      var c := CursorOf(x);
      ghost var was := queue;
      if c > 0 && queue != [] {
        var idx := FindPlace(c);
        queue := queue[..idx] + [x] + queue[idx..];
      } else {
        queue := queue + [x];
      }
      InsertIs(was, x);
      assert queue == Insert(was, x);
      if Ordered(was) { InsertOrdered(was, x); }
      TrimOrdered(queue, limit);
      if |queue| > limit { queue := queue[|queue| - limit..]; }
    }

    method Drain(limit: nat) returns (out: seq<Item>)
      modifies this
      ensures out + queue == old(queue) && |out| == (if limit <= |old(queue)| then limit else |old(queue)|)
      ensures queue == After(old(queue), Take(limit))
    {
      if limit == 0 {
        assert [] + queue == queue;
        return [];
      }
      var n := if limit <= |queue| then limit else |queue|;
      out := queue[..n];
      queue := queue[n..];
    }

    /** Replays into a fresh connection what a history holds after a cursor: in
        ascending order, each event once, and of too many the largest. */
    method Replay(history: seq<Item>, cursor: int, limit: nat) returns (n: nat)
      requires queue == [] && cursor >= 0
      modifies this
      ensures var all := Sorted(Newer(history, cursor));
              && n == |all| && queue == Trim(all, limit)
              && multiset(all) == multiset(Newer(history, cursor))
              && forall i, j :: 0 <= i < j < |all| ==> cursor < CursorOf(all[i]) <= CursorOf(all[j])
    {
      hide Insert, Trim, Sorted, Newer, AllPositive;
      n := 0;
      assert history[..0] == [];
      NothingNewer(cursor, limit);
      for k := 0 to |history|
        invariant AllPositive(Newer(history[..k], cursor)) && n == |Newer(history[..k], cursor)|
        invariant queue == Trim(Sorted(Newer(history[..k], cursor)), limit)
      {
        ReplayStep(history[..k], history[k], cursor, limit);
        assert history[..k + 1] == history[..k] + [history[k]];
        if CursorOf(history[k]) > cursor {
          Enqueue(history[k], limit);
          n := n + 1;
        }
      }
      assert history[..|history|] == history;
      SortedIs(Newer(history, cursor));
      AllNewer(history, cursor);
      ghost var all := Sorted(Newer(history, cursor));
      forall i | 0 <= i < |all| ensures CursorOf(all[i]) > cursor { assert all[i] in multiset(all); }
    }
  }

  lemma NothingNewer(cursor: int, limit: nat)
    ensures Newer([], cursor) == [] && AllPositive([]) && Trim(Sorted([]), limit) == []
  {
  }

  /** One event of the history. */
  lemma ReplayStep(history: seq<Item>, x: Item, cursor: int, limit: nat)
    requires cursor >= 0 && AllPositive(Newer(history, cursor))
    ensures var newer := Newer(history, cursor);
            Newer(history + [x], cursor) == (if CursorOf(x) > cursor then newer + [x] else newer)
            && AllPositive(Newer(history + [x], cursor))
            && (CursorOf(x) > cursor ==>
                  Trim(Insert(Trim(Sorted(newer), limit), x), limit)
                  == Trim(Sorted(newer + [x]), limit))
  {
    hide Insert, Trim;
    var newer := Newer(history, cursor);
    assert (history + [x])[..|history|] == history && (newer + [x])[..|newer|] == newer;
    if CursorOf(x) > cursor {
      SortedIs(newer);
      TrimEarly(Sorted(newer), x, limit);
    }
  }

  lemma {:induction false} AllNewer(history: seq<Item>, cursor: int)
    ensures forall x :: x in Newer(history, cursor) <==> x in history && CursorOf(x) > cursor
    decreases |history|
  {
    if history != [] { AllNewer(history[..|history| - 1], cursor); }
  }
}
