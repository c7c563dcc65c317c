/** Instances of the distributed cache over one shared store and event log. Every
    operation is split at its calls to the shared store, and the calls of different
    instances may be interleaved in any order; each instance runs one operation at a
    time and the shared store is always reachable. */
module Cache {
  import opened Syntax

  datatype Key = Key(ns: string, name: string)

  /** What an event of the log invalidates. */
  datatype Target = OneKey(key: Key) | Pattern(ns: string, pattern: string) | Namespace(ns: string)

  /** `fits` is the shell-style pattern matching of the host. */
  type Fits = (string, string) -> bool

  predicate Matches(fits: Fits, t: Target, k: Key) {
    match t
    case OneKey(key) => k == key
    case Pattern(ns, pattern) => k.ns == ns && fits(k.name, pattern)
    case Namespace(ns) => k.ns == ns
  }

  /** One call of `definir`: the value is identified by the call that wrote it. */
  datatype Write = Write(id: nat, key: Key)

  type Store = map<Key, Write>

  function Without(fits: Fits, s: Store, t: Target): Store {
    map k | k in s && !Matches(fits, t, k) :: s[k]
  }

  /** The event with sequence number n is `events[n - 1]`. */
  datatype Shared = Shared(store: Store, events: seq<Target>)

  datatype Local = Local(store: Store, applied: nat)

  /** Applying events one after the other. */
  function ApplyAll(fits: Fits, s: Store, events: seq<Target>): Store {
    if events == [] then s
    else ApplyAll(fits, Without(fits, s, events[0]), events[1..])
  }

  /** Collects the events not yet applied and applies them. */
  function Synced(fits: Fits, l: Local, shared: Shared): Local {
    if l.applied > |shared.events| then l
    else Local(ApplyAll(fits, l.store, shared.events[l.applied..]), |shared.events|)
  }

  // Operations in progress.

  /** `earlier` holds the writes that were complete when an invalidation was called;
      `barred` the writes that invalidations returned before a read was called had
      to remove. Neither influences a step. */
  datatype Op =
    | Idle
    | DefineCalled(w: Write)
    | DefineStored(w: Write)
    | ReadCalled(key: Key, barred: set<Write>)
    | ReadMissed(key: Key, barred: set<Write>)
    | InvalidateCalled(t: Target, earlier: set<Write>)
    | InvalidateLocal(t: Target, earlier: set<Write>)
    | InvalidateShared(t: Target, earlier: set<Write>)
    | ClearCalled(ns: string)
    | ClearLocal(ns: string)

  datatype World = World(shared: Shared, locals: seq<Local>, ops: seq<Op>, issued: nat,
                         done: set<Write>, dead: set<Write>)

  datatype Action =
    | CallDefine(i: nat, key: Key)
    | CallRead(i: nat, key: Key)
    | CallInvalidate(i: nat, t: Target)
    | CallClear(i: nat, ns: string)
    | Go(i: nat)  // the next call to the shared store, and the local work around it
    | Expire(i: nat, key: Key)
    | ExpireShared(key: Key)

  /** What an action lets its caller see. */
  datatype Seen = Nothing | Defined(w: Write) | Read(r: Option<Write>) | Invalidated

  function Start(n: nat): World {
    World(Shared(map[], []), seq(n, _ => Local(map[], 0)), seq(n, _ => Idle), 0, {}, {})
  }

  function Find(s: Store, k: Key): Option<Write> {
    if k in s then Some(s[k]) else None
  }

  predicate Calls(w: World, i: nat) {
    i < |w.ops| && i < |w.locals| && w.ops[i].Idle?
  }

  /** One action; one that is not possible changes nothing. */
  function Act(fits: Fits, w: World, a: Action): (World, Seen) {
    match a
    case CallDefine(i, key) =>
      if Calls(w, i) then (w.(ops := w.ops[i := DefineCalled(Write(w.issued, key))], issued := w.issued + 1), Nothing)
      else (w, Nothing)
    case CallRead(i, key) =>
      if Calls(w, i) then (w.(ops := w.ops[i := ReadCalled(key, w.dead)]), Nothing) else (w, Nothing)
    case CallInvalidate(i, t) =>
      if Calls(w, i) && !t.Namespace? then
        (w.(ops := w.ops[i := InvalidateCalled(t, set x | x in w.done && Matches(fits, t, x.key))]), Nothing)
      else (w, Nothing)
    case CallClear(i, ns) =>
      if Calls(w, i) then (w.(ops := w.ops[i := ClearCalled(ns)]), Nothing) else (w, Nothing)
    case Go(i) => if i < |w.ops| && i < |w.locals| then Advance(fits, w, i) else (w, Nothing)
    case Expire(i, key) =>
      if i < |w.locals| then (w.(locals := w.locals[i := w.locals[i].(store := w.locals[i].store - {key})]), Nothing)
      else (w, Nothing)
    case ExpireShared(key) => (w.(shared := w.shared.(store := w.shared.store - {key})), Nothing)
  }

  function Advance(fits: Fits, w: World, i: nat): (World, Seen)
    requires i < |w.ops| && i < |w.locals|
  {
    var l := w.locals[i];
    match w.ops[i]
    case Idle => (w, Nothing)
    case DefineCalled(x) =>
      var synced := Synced(fits, l, w.shared);
      (Moved(w, i, synced.(store := synced.store[x.key := x]), DefineStored(x)), Nothing)
    case DefineStored(x) =>
      (Moved(w, i, l, Idle).(shared := w.shared.(store := w.shared.store[x.key := x]), done := w.done + {x}),
       Defined(x))
    case ReadCalled(key, barred) =>
      var synced := Synced(fits, l, w.shared);
      if key in synced.store then (Moved(w, i, synced, Idle), Read(Some(synced.store[key])))
      else (Moved(w, i, synced, ReadMissed(key, barred)), Nothing)
    case ReadMissed(key, barred) =>
      var found := Find(w.shared.store, key);
      (Moved(w, i, if found.Some? then l.(store := l.store[key := found.value]) else l, Idle), Read(found))
    case InvalidateCalled(t, earlier) =>
      var synced := Synced(fits, l, w.shared);
      (Moved(w, i, synced.(store := Without(fits, synced.store, t)), InvalidateLocal(t, earlier)), Nothing)
    case InvalidateLocal(t, earlier) =>
      (Moved(w, i, l, InvalidateShared(t, earlier)).(shared := w.shared.(store := Without(fits, w.shared.store, t))),
       Nothing)
    case InvalidateShared(t, earlier) =>
      (Moved(w, i, l, Idle).(shared := w.shared.(events := w.shared.events + [t]), dead := w.dead + earlier),
       Invalidated)
    case ClearCalled(ns) =>
      var synced := Synced(fits, l, w.shared);
      (Moved(w, i, synced.(store := Without(fits, synced.store, Namespace(ns))), ClearLocal(ns)), Nothing)
    case ClearLocal(ns) =>
      (Moved(w, i, l, Idle).(shared := w.shared.(events := w.shared.events + [Namespace(ns)]),
       dead := w.dead + Gone(w, ns)), Nothing)
  }

  /** The complete writes of a namespace that the shared store does not hold any more. */
  function Gone(w: World, ns: string): set<Write> {
    set x | x in w.done && x.key.ns == ns && Find(w.shared.store, x.key) != Some(x)
  }

  function Moved(w: World, i: nat, l: Local, op: Op): World
    requires i < |w.ops| && i < |w.locals|
  {
    w.(locals := w.locals[i := l], ops := w.ops[i := op])
  }

  // The invariant.

  /** Some event from position `from` on invalidates the key. */
  ghost predicate Pending(fits: Fits, events: seq<Target>, from: nat, k: Key) {
    exists n :: from <= n < |events| && Matches(fits, events[n], k)
  }

  predicate Keyed(s: Store) {
    forall k :: k in s ==> s[k].key == k
  }

  /** Writes known to the shared store were issued; those removed for good do not come back. */
  ghost predicate SharedOk(w: World) {
    && Keyed(w.shared.store)
    && (forall x :: x in w.dead ==> x in w.done && Find(w.shared.store, x.key) != Some(x))
    && (forall x :: x in w.done ==> x.id < w.issued)
  }

  ghost predicate LocalOk(fits: Fits, w: World, l: Local) {
    && Keyed(l.store) && l.applied <= |w.shared.events|
    && forall x :: x in w.dead && Find(l.store, x.key) == Some(x) ==> Pending(fits, w.shared.events, l.applied, x.key)
  }

  ghost predicate OpOk(fits: Fits, w: World, op: Op) {
    match op
    case DefineCalled(x) => x.id < w.issued && x !in w.done
    case DefineStored(x) => x.id < w.issued && x !in w.done
    case ReadCalled(_, barred) => barred <= w.dead
    case ReadMissed(_, barred) => barred <= w.dead
    case InvalidateCalled(t, earlier) => OldOk(fits, w, t, earlier)
    case InvalidateLocal(t, earlier) => OldOk(fits, w, t, earlier)
    case InvalidateShared(t, earlier) =>
      OldOk(fits, w, t, earlier) && forall x :: x in earlier ==> Find(w.shared.store, x.key) != Some(x)
    case _ => true
  }

  ghost predicate OldOk(fits: Fits, w: World, t: Target, earlier: set<Write>) {
    forall x :: x in earlier ==> x in w.done && Matches(fits, t, x.key)
  }

  /** No two operations in progress write the same write. */
  ghost predicate WritesApart(ops: seq<Op>) {
    forall i, j :: 0 <= i < j < |ops| && Writing(ops[i]) && Writing(ops[j]) ==> ops[i].w != ops[j].w
  }

  predicate Writing(op: Op) {
    op.DefineCalled? || op.DefineStored?
  }

  ghost predicate Inv(fits: Fits, w: World) {
    && |w.ops| == |w.locals| && SharedOk(w) && WritesApart(w.ops)
    && (forall i :: 0 <= i < |w.locals| ==> LocalOk(fits, w, w.locals[i]))
    && (forall i :: 0 <= i < |w.ops| ==> OpOk(fits, w, w.ops[i]))
  }

  lemma {:induction false} AppliedGone(fits: Fits, s: Store, events: seq<Target>)
    ensures var r := ApplyAll(fits, s, events);
            (forall k :: k in r ==> k in s && r[k] == s[k])
            && forall k, n :: k in r && 0 <= n < |events| ==> !Matches(fits, events[n], k)
    decreases |events|
  {
    if events != [] {
      AppliedGone(fits, Without(fits, s, events[0]), events[1..]);
      forall k, n | k in ApplyAll(fits, s, events) && 0 <= n < |events| ensures !Matches(fits, events[n], k) {
        if n > 0 { assert events[n] == events[1..][n - 1]; } else { assert k in Without(fits, s, events[0]); }
      }
    }
  }

  /** After synchronizing, an instance holds no write that is dead. */
  lemma SyncFreshens(fits: Fits, w: World, l: Local)
    requires SharedOk(w) && LocalOk(fits, w, l)
    ensures var s := Synced(fits, l, w.shared);
            && Keyed(s.store) && s.applied == |w.shared.events|
            && (forall x :: x in w.dead ==> Find(s.store, x.key) != Some(x))
            && LocalOk(fits, w, s)
  {
    var events := w.shared.events[l.applied..];
    AppliedGone(fits, l.store, events);
    var s := Synced(fits, l, w.shared);
    forall x | x in w.dead ensures Find(s.store, x.key) != Some(x) {
      if Find(l.store, x.key) == Some(x) {
        var n :| l.applied <= n < |w.shared.events| && Matches(fits, w.shared.events[n], x.key);
        assert events[n - l.applied] == w.shared.events[n];
      }
    }
  }

  lemma StartOk(fits: Fits, n: nat)
    ensures Inv(fits, Start(n))
  {
  }

  lemma ActKeeps(fits: Fits, w: World, a: Action)
    requires Inv(fits, w)
    ensures var r := Act(fits, w, a);
            && Inv(fits, r.0)
            && (a.Go? && a.i < |w.ops| && w.ops[a.i].ReadCalled? && r.1.Read? ==> Fresh(r.1, w.ops[a.i].barred))
            && (a.Go? && a.i < |w.ops| && w.ops[a.i].ReadMissed? ==> Fresh(r.1, w.ops[a.i].barred))
  {
    hide Synced, ApplyAll, Advance;
    match a
    case Go(i) => if i < |w.ops| { AdvanceKeeps(fits, w, i); }
    case _ => CallKeeps(fits, w, a);
  }

  /** The read gave none of the barred writes. */
  predicate Fresh(s: Seen, barred: set<Write>) {
    s.Read? ==> s.r.None? || s.r.value !in barred
  }

  lemma CallKeeps(fits: Fits, w: World, a: Action)
    requires Inv(fits, w) && !a.Go?
    ensures Inv(fits, Act(fits, w, a).0)
  {
    hide Synced, ApplyAll;
    var w' := Act(fits, w, a).0;
    forall i | 0 <= i < |w'.locals| ensures LocalOk(fits, w', w'.locals[i]) { assert LocalOk(fits, w, w.locals[i]); }
    forall i | 0 <= i < |w'.ops| ensures OpOk(fits, w', w'.ops[i]) { assert OpOk(fits, w, w.ops[i]); }
  }

  lemma AdvanceKeeps(fits: Fits, w: World, i: nat)
    requires Inv(fits, w) && i < |w.ops|
    ensures var r := Advance(fits, w, i);
            && Inv(fits, r.0)
            && (w.ops[i].ReadCalled? && r.1.Read? ==> Fresh(r.1, w.ops[i].barred))
            && (w.ops[i].ReadMissed? ==> Fresh(r.1, w.ops[i].barred))
  {
    hide Synced, ApplyAll, Inv, OpOk, LocalOk, SharedOk;
    match w.ops[i]
    case Idle =>
    case DefineCalled(_) => SyncKeeps(fits, w, i);
    case ReadCalled(_, _) => SyncKeeps(fits, w, i);
    case InvalidateCalled(_, _) => SyncKeeps(fits, w, i);
    case ClearCalled(_) => SyncKeeps(fits, w, i);
    case DefineStored(_) => StoreKeeps(fits, w, i);
    case ReadMissed(_, _) => ReadKeeps(fits, w, i);
    case InvalidateLocal(_, _) => RemoveKeeps(fits, w, i);
    case InvalidateShared(_, _) => EventKeeps(fits, w, i);
    case ClearLocal(_) => EventKeeps(fits, w, i);
  }

  /** Only instance `i` and its operation change. */
  lemma LocalKeeps(fits: Fits, w: World, i: nat, l: Local, op: Op)
    requires Inv(fits, w) && i < |w.ops| && LocalOk(fits, w, l) && OpOk(fits, w, op)
    requires Writing(op) ==> Writing(w.ops[i]) && op.w == w.ops[i].w
    ensures Inv(fits, Moved(w, i, l, op))
  {
    var w' := Moved(w, i, l, op);
    forall j | 0 <= j < |w.locals| ensures LocalOk(fits, w', w'.locals[j]) {
      assert j != i ==> LocalOk(fits, w, w.locals[j]);
    }
    forall j | 0 <= j < |w.ops| ensures OpOk(fits, w', w'.ops[j]) { assert j != i ==> OpOk(fits, w, w.ops[j]); }
  }

  lemma SyncKeeps(fits: Fits, w: World, i: nat)
    requires Inv(fits, w) && i < |w.ops|
    requires w.ops[i].DefineCalled? || w.ops[i].ReadCalled? || w.ops[i].InvalidateCalled? || w.ops[i].ClearCalled?
    ensures var r := Advance(fits, w, i);
            Inv(fits, r.0) && (w.ops[i].ReadCalled? && r.1.Read? ==> Fresh(r.1, w.ops[i].barred))
  {
    hide Synced, ApplyAll;
    assert LocalOk(fits, w, w.locals[i]) && OpOk(fits, w, w.ops[i]);
    SyncFreshens(fits, w, w.locals[i]);
    var w' := Advance(fits, w, i).0;
    LocalKeeps(fits, w, i, w'.locals[i], w'.ops[i]);
  }

  lemma ReadKeeps(fits: Fits, w: World, i: nat)
    requires Inv(fits, w) && i < |w.ops| && w.ops[i].ReadMissed?
    ensures var r := Advance(fits, w, i); Inv(fits, r.0) && Fresh(r.1, w.ops[i].barred)
  {
    assert LocalOk(fits, w, w.locals[i]) && OpOk(fits, w, w.ops[i]);
    var w' := Advance(fits, w, i).0;
    LocalKeeps(fits, w, i, w'.locals[i], Idle);
  }

  /** The write reaches the shared store and is complete. */
  lemma StoreKeeps(fits: Fits, w: World, i: nat)
    requires Inv(fits, w) && i < |w.ops| && w.ops[i].DefineStored?
    ensures Inv(fits, Advance(fits, w, i).0)
  {
    var x := w.ops[i].w;
    var w' := Advance(fits, w, i).0;
    assert OpOk(fits, w, w.ops[i]);
    assert SharedOk(w');
    forall j | 0 <= j < |w.locals| ensures LocalOk(fits, w', w'.locals[j]) { assert LocalOk(fits, w, w.locals[j]); }
    forall j | 0 <= j < |w.ops| ensures OpOk(fits, w', w'.ops[j]) { assert OpOk(fits, w, w.ops[j]); }
  }

  /** An invalidation empties the shared store of what it matches. */
  lemma RemoveKeeps(fits: Fits, w: World, i: nat)
    requires Inv(fits, w) && i < |w.ops| && w.ops[i].InvalidateLocal?
    ensures Inv(fits, Advance(fits, w, i).0)
  {
    var w' := Advance(fits, w, i).0;
    assert OpOk(fits, w, w.ops[i]);
    assert SharedOk(w');
    forall j | 0 <= j < |w.locals| ensures LocalOk(fits, w', w'.locals[j]) { assert LocalOk(fits, w, w.locals[j]); }
    forall j | 0 <= j < |w.ops| ensures OpOk(fits, w', w'.ops[j]) { assert OpOk(fits, w, w.ops[j]); }
  }

  lemma EventKeeps(fits: Fits, w: World, i: nat)
    requires Inv(fits, w) && i < |w.ops| && (w.ops[i].InvalidateShared? || w.ops[i].ClearLocal?)
    ensures Inv(fits, Advance(fits, w, i).0)
  {
    var w' := Advance(fits, w, i).0;
    assert OpOk(fits, w, w.ops[i]);
    assert SharedOk(w');
    forall j | 0 <= j < |w.locals| ensures LocalOk(fits, w', w'.locals[j]) { PublishKeeps(fits, w, w', w.locals[j]); }
    forall j | 0 <= j < |w.ops| ensures OpOk(fits, w', w'.ops[j]) { assert OpOk(fits, w, w.ops[j]); }
  }

  /** A published event reaches every instance that has not synchronized since. */
  lemma PublishKeeps(fits: Fits, w: World, w': World, l: Local)
    requires LocalOk(fits, w, l) && |w'.shared.events| == |w.shared.events| + 1
             && w'.shared.events[..|w.shared.events|] == w.shared.events
    requires forall x :: x in w'.dead && x !in w.dead ==> Matches(fits, w'.shared.events[|w.shared.events|], x.key)
    ensures LocalOk(fits, w', l)
  {
    forall x | x in w'.dead && Find(l.store, x.key) == Some(x)
      ensures Pending(fits, w'.shared.events, l.applied, x.key) {
      if x in w.dead {
        var n :| l.applied <= n < |w.shared.events| && Matches(fits, w.shared.events[n], x.key);
        assert w'.shared.events[n] == w.shared.events[n];
      }
    }
  }

  // Runs.

  function State(fits: Fits, n: nat, actions: seq<Action>, k: nat): World
    requires k <= |actions|
  {
    if k == 0 then Start(n) else Act(fits, State(fits, n, actions, k - 1), actions[k - 1]).0
  }

  function SeenAt(fits: Fits, n: nat, actions: seq<Action>, k: nat): Seen
    requires k < |actions|
  {
    Act(fits, State(fits, n, actions, k), actions[k]).1
  }

  lemma {:induction false} Reachable(fits: Fits, n: nat, actions: seq<Action>, k: nat)
    requires k <= |actions|
    ensures Inv(fits, State(fits, n, actions, k))
    decreases k
  {
    if k == 0 {
      StartOk(fits, n);
    } else {
      Reachable(fits, n, actions, k - 1);
      ActKeeps(fits, State(fits, n, actions, k - 1), actions[k - 1]);
    }
  }

  predicate Invalidating(op: Op) {
    op.InvalidateCalled? || op.InvalidateLocal? || op.InvalidateShared?
  }

  predicate Reading(op: Op) {
    op.ReadCalled? || op.ReadMissed?
  }

  /** One action on an operation in progress: it goes on with what it remembers, or it is over. */
  lemma OpGoesOn(fits: Fits, w: World, a: Action, i: nat)
    requires Inv(fits, w) && i < |w.ops|
    ensures var w' := Act(fits, w, a).0;
            && |w'.ops| == |w.ops| && w.done <= w'.done && w.dead <= w'.dead
            && (Invalidating(w.ops[i]) ==>
                  if w'.ops[i].Idle? then w.ops[i].earlier <= w'.dead
                  else Invalidating(w'.ops[i]) && w'.ops[i].earlier == w.ops[i].earlier)
            && (Reading(w.ops[i]) ==> w'.ops[i].Idle? || (Reading(w'.ops[i]) && w'.ops[i].barred == w.ops[i].barred))
  {
    hide Synced, ApplyAll, Find, Without, Matches, Gone;
  }

  lemma {:induction false} HistoryGrows(fits: Fits, n: nat, actions: seq<Action>, p: nat, q: nat)
    requires p <= q <= |actions|
    ensures State(fits, n, actions, p).done <= State(fits, n, actions, q).done
    ensures State(fits, n, actions, p).dead <= State(fits, n, actions, q).dead
    ensures |State(fits, n, actions, q).ops| == n
    decreases q
  {
    hide Act;
    if q > 0 {
      var w := State(fits, n, actions, q - 1);
      Reachable(fits, n, actions, q - 1);
      HistoryGrows(fits, n, actions, if p < q then p else q - 1, q - 1);
      Grows(fits, w, actions[q - 1]);
    }
  }

  lemma Grows(fits: Fits, w: World, a: Action)
    ensures var w' := Act(fits, w, a).0; |w'.ops| == |w.ops| && w.done <= w'.done && w.dead <= w'.dead
  {
    hide Synced, ApplyAll;
  }

  /** The operation of instance `i` is in progress from position `p` up to `q`. */
  ghost predicate Busy(fits: Fits, n: nat, actions: seq<Action>, i: nat, p: nat, q: nat)
    requires p <= q <= |actions|
  {
    forall k :: p <= k <= q ==> i < |State(fits, n, actions, k).ops| && !State(fits, n, actions, k).ops[i].Idle?
  }

  lemma {:induction false} Continues(fits: Fits, n: nat, actions: seq<Action>, i: nat, p: nat, q: nat)
    requires p <= q <= |actions| && Busy(fits, n, actions, i, p, q)
    ensures var from, to := State(fits, n, actions, p).ops[i], State(fits, n, actions, q).ops[i];
            && (Invalidating(from) ==> Invalidating(to) && to.earlier == from.earlier)
            && (Reading(from) ==> Reading(to) && to.barred == from.barred)
    decreases q
  {
    hide Act, Inv;
    if p < q {
      Continues(fits, n, actions, i, p, q - 1);
      Reachable(fits, n, actions, q - 1);
      OpGoesOn(fits, State(fits, n, actions, q - 1), actions[q - 1], i);
    }
  }

  /** A write that was complete (at `a`) before a matching invalidation was called (at
      `b`) is not given to any read that is called (at `d`) after the invalidation has
      returned (at `c`), whichever instances are involved and however their steps interleave. */
  lemma Freshness(fits: Fits, n: nat, actions: seq<Action>, a: nat, b: nat, c: nat, d: nat, e: nat, i: nat, j: nat,
                  x: Write, t: Target, key: Key)
    requires a < b < c < d < e < |actions|
    requires SeenAt(fits, n, actions, a) == Defined(x)
    requires actions[b] == CallInvalidate(i, t) && !t.Namespace? && Matches(fits, t, x.key)
    requires Calls(State(fits, n, actions, b), i)
    requires Busy(fits, n, actions, i, b + 1, c) && SeenAt(fits, n, actions, c) == Invalidated && actions[c] == Go(i)
    requires actions[d] == CallRead(j, key) && Calls(State(fits, n, actions, d), j)
    requires Busy(fits, n, actions, j, d + 1, e) && actions[e] == Go(j)
    ensures SeenAt(fits, n, actions, e) != Read(Some(x))
  {
    hide Inv, Busy, Synced, ApplyAll, State, Act, Matches;
    NextState(fits, n, actions, a);
    WasDefined(fits, State(fits, n, actions, a), actions[a], x);
    HistoryGrows(fits, n, actions, a + 1, b);
    InvalidationDies(fits, n, actions, b, c, i, x, t);
    HistoryGrows(fits, n, actions, c + 1, d);
    ReadIsFresh(fits, n, actions, d, e, j, x, key);
  }

  lemma NextState(fits: Fits, n: nat, actions: seq<Action>, k: nat)
    requires k < |actions|
    ensures State(fits, n, actions, k + 1) == Act(fits, State(fits, n, actions, k), actions[k]).0
  {
    hide Act;
  }

  lemma WasDefined(fits: Fits, w: World, a: Action, x: Write)
    requires Act(fits, w, a).1 == Defined(x)
    ensures x in Act(fits, w, a).0.done
  {
    hide Synced, ApplyAll;
  }

  /** When an invalidation returns, what was complete before it was called is dead. */
  lemma InvalidationDies(fits: Fits, n: nat, actions: seq<Action>, b: nat, c: nat, i: nat, x: Write, t: Target)
    requires b < c < |actions| && actions[b] == CallInvalidate(i, t) && !t.Namespace? && Matches(fits, t, x.key)
    requires Calls(State(fits, n, actions, b), i) && x in State(fits, n, actions, b).done
    requires Busy(fits, n, actions, i, b + 1, c) && SeenAt(fits, n, actions, c) == Invalidated && actions[c] == Go(i)
    ensures x in State(fits, n, actions, c + 1).dead
  {
    hide Inv, Synced, ApplyAll, State, Busy;
    NextState(fits, n, actions, b);
    NextState(fits, n, actions, c);
    var called := State(fits, n, actions, b + 1).ops[i];
    assert Invalidating(called) && x in called.earlier;
    Continues(fits, n, actions, i, b + 1, c);
  }

  lemma ReadIsFresh(fits: Fits, n: nat, actions: seq<Action>, d: nat, e: nat, j: nat, x: Write, key: Key)
    requires d < e < |actions| && actions[d] == CallRead(j, key) && Calls(State(fits, n, actions, d), j)
    requires x in State(fits, n, actions, d).dead
    requires Busy(fits, n, actions, j, d + 1, e) && actions[e] == Go(j)
    ensures SeenAt(fits, n, actions, e) != Read(Some(x))
  {
    hide Inv, Synced, ApplyAll, State, Advance;
    NextState(fits, n, actions, d);
    assert State(fits, n, actions, d + 1).ops[j] == ReadCalled(key, State(fits, n, actions, d).dead);
    Continues(fits, n, actions, j, d + 1, e);
    Reachable(fits, n, actions, e);
    ActKeeps(fits, State(fits, n, actions, e), actions[e]);
  }

  // What `limpar` leaves behind: it empties the instances but not the shared store.

  /** The answer of a read whose steps are made one after the other. */
  function ReadNow(fits: Fits, w: World, j: nat, key: Key): Option<Write> {
    var (called, _) := Act(fits, w, CallRead(j, key));
    var (looked, seen) := Act(fits, called, Go(j));
    if seen.Read? then seen.r
    else
      var (_, through) := Act(fits, looked, Go(j));
      if through.Read? then through.r else None
  }

  lemma ReadNowIs(fits: Fits, w: World, j: nat, key: Key)
    requires Calls(w, j)
    ensures var synced := Synced(fits, w.locals[j], w.shared).store;
            ReadNow(fits, w, j, key) == if key in synced then Some(synced[key]) else Find(w.shared.store, key)
  {
    hide Synced, ApplyAll;
  }

  /** Whenever a `limpar` returns (at `c`), whatever the other instances are doing, the shared
      store is as it was, and a read of a cleared key gives exactly what the shared store holds. */
  lemma ClearedReads(fits: Fits, n: nat, actions: seq<Action>, c: nat, i: nat, ns: string, j: nat, key: Key)
    requires c < |actions| && i < |State(fits, n, actions, c).ops|
             && State(fits, n, actions, c).ops[i] == ClearLocal(ns) && actions[c] == Go(i)
    requires key.ns == ns && Calls(State(fits, n, actions, c + 1), j)
    ensures State(fits, n, actions, c + 1).shared.store == State(fits, n, actions, c).shared.store
    ensures ReadNow(fits, State(fits, n, actions, c + 1), j, key) == Find(State(fits, n, actions, c).shared.store, key)
  {
    hide State, Act, Synced, Inv;
    var w, w' := State(fits, n, actions, c), State(fits, n, actions, c + 1);
    NextState(fits, n, actions, c);
    Reachable(fits, n, actions, c);
    HistoryGrows(fits, n, actions, c, c);
    HistoryGrows(fits, n, actions, c + 1, c + 1);
    ClearReturns(fits, w, i, ns, j);
    ReadNowIs(fits, w', j, key);
    NotInSynced(fits, w'.locals[j], w'.shared, key);
  }

  lemma ClearReturns(fits: Fits, w: World, i: nat, ns: string, j: nat)
    requires Inv(fits, w) && i < |w.ops| && w.ops[i] == ClearLocal(ns) && j < |w.ops|
    ensures var w' := Act(fits, w, Go(i)).0;
            && w'.shared == Shared(w.shared.store, w.shared.events + [Namespace(ns)])
            && w'.locals[j].applied < |w'.shared.events| && w'.ops[i].Idle? && w'.dead == w.dead + Gone(w, ns)
  {
    hide Synced, ApplyAll;
    assert LocalOk(fits, w, w.locals[j]);
  }

  lemma NotInSynced(fits: Fits, l: Local, shared: Shared, key: Key)
    requires l.applied < |shared.events| && Matches(fits, shared.events[|shared.events| - 1], key)
    ensures key !in Synced(fits, l, shared).store
  {
    var events := shared.events[l.applied..];
    AppliedGone(fits, l.store, events);
    assert events[|events| - 1] == shared.events[|shared.events| - 1];
  }

  /** Nothing of a namespace is read right after `limpar` exactly when the shared store held
      nothing of it before the call. */
  lemma ClearExact(fits: Fits, n: nat, actions: seq<Action>, b: nat, i: nat, ns: string)
    requires b + 2 < |actions| && Calls(State(fits, n, actions, b), i)
    requires actions[b] == CallClear(i, ns) && actions[b + 1] == Go(i) && actions[b + 2] == Go(i)
    ensures var after := State(fits, n, actions, b + 3);
            (forall j: nat, key: Key | Calls(after, j) && key.ns == ns :: ReadNow(fits, after, j, key) == None)
            <==> forall key | key in State(fits, n, actions, b).shared.store :: key.ns != ns
  {
    hide State, Act, Synced, Inv, ReadNow;
    var held := State(fits, n, actions, b).shared.store;
    var after := State(fits, n, actions, b + 3);
    NextState(fits, n, actions, b);
    NextState(fits, n, actions, b + 1);
    NextState(fits, n, actions, b + 2);
    Reachable(fits, n, actions, b + 2);
    ClearGoes(fits, State(fits, n, actions, b), i, ns);
    ClearReturns(fits, State(fits, n, actions, b + 2), i, ns, i);
    HistoryGrows(fits, n, actions, b + 2, b + 2);
    HistoryGrows(fits, n, actions, b + 3, b + 3);
    Reachable(fits, n, actions, b + 3);
    assert Calls(after, i) by { InvSizes(fits, after); }
    forall j: nat, key: Key | Calls(after, j) && key.ns == ns ensures ReadNow(fits, after, j, key) == Find(held, key) {
      ClearedReads(fits, n, actions, b + 2, i, ns, j, key);
    }
    if key :| key in held && key.ns == ns { assert ReadNow(fits, after, i, key) == Some(held[key]); }
  }

  lemma InvSizes(fits: Fits, w: World)
    requires Inv(fits, w)
    ensures |w.ops| == |w.locals|
  {
  }

  lemma ClearGoes(fits: Fits, w: World, i: nat, ns: string)
    requires Calls(w, i)
    ensures var called := Act(fits, w, CallClear(i, ns)).0;
            var emptied := Act(fits, called, Go(i)).0;
            i < |emptied.ops| && emptied.ops[i] == ClearLocal(ns) && emptied.shared == w.shared
  {
    hide Synced, ApplyAll;
  }

  /** A complete write of a cleared namespace that the shared store did not hold when `limpar`
      returned (at `c`) is given to no read called later (at `d`), in every interleaving. */
  lemma ClearedForGood(fits: Fits, n: nat, actions: seq<Action>, c: nat, d: nat, e: nat, i: nat, j: nat, x: Write,
                       ns: string, key: Key)
    requires c < d < e < |actions|
    requires i < |State(fits, n, actions, c).ops| && State(fits, n, actions, c).ops[i] == ClearLocal(ns)
             && actions[c] == Go(i)
    requires x in State(fits, n, actions, c).done && x.key.ns == ns
             && Find(State(fits, n, actions, c).shared.store, x.key) != Some(x)
    requires actions[d] == CallRead(j, key) && Calls(State(fits, n, actions, d), j)
    requires Busy(fits, n, actions, j, d + 1, e) && actions[e] == Go(j)
    ensures SeenAt(fits, n, actions, e) != Read(Some(x))
  {
    hide State, Act, Synced, Inv, Busy;
    NextState(fits, n, actions, c);
    Reachable(fits, n, actions, c);
    ClearReturns(fits, State(fits, n, actions, c), i, ns, i);
    HistoryGrows(fits, n, actions, c + 1, d);
    ReadIsFresh(fits, n, actions, d, e, j, x, key);
  }

  /** A run in which a cleared value comes back. */
  lemma ClearedComesBack(fits: Fits, key: Key)
    ensures var actions := [CallDefine(0, key), Go(0), Go(0), CallClear(0, key.ns), Go(0), Go(0), CallRead(1, key),
                            Go(1), Go(1)];
            && SeenAt(fits, 2, actions, 2) == Defined(Write(0, key))
            && State(fits, 2, actions, 6).ops == [Idle, Idle]
            && SeenAt(fits, 2, actions, 8) == Read(Some(Write(0, key)))
  {
    hide State, Act;
    var x := Write(0, key);
    var actions := [CallDefine(0, key), Go(0), Go(0), CallClear(0, key.ns), Go(0), Go(0), CallRead(1, key), Go(1),
                    Go(1)];
    var l0, held, cleared := Local(map[], 0), map[key := x], Namespace(key.ns);
    var w1 := World(Shared(map[], []), [l0, l0], [DefineCalled(x), Idle], 1, {}, {});
    var w2 := w1.(locals := [Local(held, 0), l0], ops := [DefineStored(x), Idle]);
    var w3 := World(Shared(held, []), [Local(held, 0), l0], [Idle, Idle], 1, {x}, {});
    var w4 := w3.(ops := [ClearCalled(key.ns), Idle]);
    var w5 := w3.(locals := [l0, l0], ops := [ClearLocal(key.ns), Idle]);
    var w6 := w3.(shared := Shared(held, [cleared]), locals := [l0, l0]);
    var w7 := w6.(ops := [Idle, ReadCalled(key, {})]);
    var w8 := w6.(locals := [l0, Local(map[], 1)], ops := [Idle, ReadMissed(key, {})]);
    Defining(fits, key);
    Clearing(fits, key);
    assert State(fits, 2, actions, 0) == Start(2) by { Begin(fits, actions); }
    Step(fits, actions, 0, Start(2), w1);
    Step(fits, actions, 1, w1, w2);
    Step(fits, actions, 2, w2, w3);
    Step(fits, actions, 3, w3, w4);
    Step(fits, actions, 4, w4, w5);
    Step(fits, actions, 5, w5, w6);
    Step(fits, actions, 6, w6, w7);
    Step(fits, actions, 7, w7, w8);
  }

  lemma Begin(fits: Fits, actions: seq<Action>)
    ensures State(fits, 2, actions, 0) == Start(2)
  {
  }

  lemma Defining(fits: Fits, key: Key)
    ensures var x, l0 := Write(0, key), Local(map[], 0);
            var w1 := World(Shared(map[], []), [l0, l0], [DefineCalled(x), Idle], 1, {}, {});
            var w2 := w1.(locals := [Local(map[key := x], 0), l0], ops := [DefineStored(x), Idle]);
            var w3 := World(Shared(map[key := x], []), [Local(map[key := x], 0), l0], [Idle, Idle], 1, {x}, {});
            && Act(fits, Start(2), CallDefine(0, key)).0 == w1 && Act(fits, w1, Go(0)).0 == w2
            && Act(fits, w2, Go(0)) == (w3, Defined(x))
  {
    var x, l0 := Write(0, key), Local(map[], 0);
    assert Start(2).locals == [l0, l0] && Start(2).ops == [Idle, Idle];
    var w1 := World(Shared(map[], []), [l0, l0], [DefineCalled(x), Idle], 1, {}, {});
    assert Act(fits, Start(2), CallDefine(0, key)).0 == w1;
    assert Synced(fits, l0, w1.shared) == l0;
    var w2 := w1.(locals := [Local(map[key := x], 0), l0], ops := [DefineStored(x), Idle]);
    assert Act(fits, w1, Go(0)).0 == w2;
    var w3 := World(Shared(map[key := x], []), [Local(map[key := x], 0), l0], [Idle, Idle], 1, {x}, {});
    assert {} + {x} == {x} && w2.shared.store[x.key := x] == map[key := x];
    assert Act(fits, w2, Go(0)).0.shared == w3.shared;
    assert Act(fits, w2, Go(0)).0.locals == w3.locals;
    assert Act(fits, w2, Go(0)).0.ops == w3.ops;
    assert Act(fits, w2, Go(0)).0 == w3;
  }

  lemma Clearing(fits: Fits, key: Key)
    ensures var x, l0, cleared := Write(0, key), Local(map[], 0), Namespace(key.ns);
            var w3 := World(Shared(map[key := x], []), [Local(map[key := x], 0), l0], [Idle, Idle], 1, {x}, {});
            var w4 := w3.(ops := [ClearCalled(key.ns), Idle]);
            var w5 := w3.(locals := [l0, l0], ops := [ClearLocal(key.ns), Idle]);
            var w6 := w3.(shared := Shared(map[key := x], [cleared]), locals := [l0, l0]);
            var w7 := w6.(ops := [Idle, ReadCalled(key, {})]);
            var w8 := w6.(locals := [l0, Local(map[], 1)], ops := [Idle, ReadMissed(key, {})]);
            && Act(fits, w3, CallClear(0, key.ns)).0 == w4 && Act(fits, w4, Go(0)).0 == w5
            && Act(fits, w5, Go(0)).0 == w6
            && Act(fits, w6, CallRead(1, key)).0 == w7 && Act(fits, w7, Go(1)).0 == w8
            && Act(fits, w8, Go(1)).1 == Read(Some(x))
  {
    var cleared := Namespace(key.ns);
    assert Without(fits, map[key := Write(0, key)], cleared) == map[];
    assert Without(fits, map[], cleared) == map[];
    assert [cleared][1..] == [] && [cleared][0..] == [cleared];
    assert ApplyAll(fits, map[], [cleared]) == ApplyAll(fits, map[], []) == map[];
    var x, l0 := Write(0, key), Local(map[], 0);
    var w3 := World(Shared(map[key := x], []), [Local(map[key := x], 0), l0], [Idle, Idle], 1, {x}, {});
    assert Gone(w3.(locals := [l0, l0], ops := [ClearLocal(key.ns), Idle]), key.ns) == {};
  }

  lemma Step(fits: Fits, actions: seq<Action>, k: nat, w: World, w': World)
    requires k < |actions| && State(fits, 2, actions, k) == w && Act(fits, w, actions[k]).0 == w'
    ensures State(fits, 2, actions, k + 1) == w'
  {
    hide Act;
  }

  // What single operations do to what is read.

  /** The target is the key itself, a pattern of its namespace that fits its name, or its namespace. */
  predicate Concerns(fits: Fits, t: Target, k: Key) {
    || t == OneKey(k) || t == Namespace(k.ns)
    || (t.Pattern? && t.ns == k.ns && fits(k.name, t.pattern))
  }

  /** An operation called and made in one go; a step of an instance that is idle again does nothing. */
  function InOneGo(fits: Fits, w: World, a: Action, i: nat): World {
    var called := Act(fits, w, a).0;
    Act(fits, Act(fits, Act(fits, called, Go(i)).0, Go(i)).0, Go(i)).0
  }

  lemma WithoutIs(fits: Fits, s: Store, t: Target, k: Key)
    ensures Find(Without(fits, s, t), k) == if Concerns(fits, t, k) then None else Find(s, k)
  {
  }

  lemma {:induction false} ApplyMore(fits: Fits, s: Store, events: seq<Target>, t: Target)
    ensures ApplyAll(fits, s, events + [t]) == Without(fits, ApplyAll(fits, s, events), t)
    decreases |events|
  {
    hide Without;
    if events == [] {
      assert events + [t] == [t] && [t][1..] == [];
    } else {
      assert (events + [t])[1..] == events[1..] + [t];
      ApplyMore(fits, Without(fits, s, events[0]), events[1..], t);
    }
  }

  lemma SyncedMore(fits: Fits, l: Local, shared: Shared, store: Store, t: Target)
    requires l.applied <= |shared.events|
    ensures Synced(fits, l, Shared(store, shared.events + [t])).store == Without(fits, Synced(fits, l, shared).store, t)
  {
    hide ApplyAll, Without;
    assert (shared.events + [t])[l.applied..] == shared.events[l.applied..] + [t];
    ApplyMore(fits, l.store, shared.events[l.applied..], t);
  }

  /** Nothing is left to apply to what is synchronized. */
  lemma SyncedAgain(fits: Fits, l: Local, shared: Shared)
    requires l.applied == |shared.events|
    ensures Synced(fits, l, shared) == l
  {
    assert shared.events[l.applied..] == [];
  }

  /** The steps of one operation leave the other instances alone. */
  ghost predicate Quiet(w: World, w': World, i: nat, l: Local, shared: Shared) {
    && i < |w.locals| && w'.locals == w.locals[i := l] && w'.ops == w.ops && w'.shared == shared
  }

  lemma DefineGoes(fits: Fits, w: World, i: nat, key: Key)
    requires Calls(w, i)
    ensures var x, synced := Write(w.issued, key), Synced(fits, w.locals[i], w.shared);
            Quiet(w, InOneGo(fits, w, CallDefine(i, key), i), i, synced.(store := synced.store[key := x]),
                  w.shared.(store := w.shared.store[key := x]))
  {
    hide Synced, ApplyAll;
  }

  lemma InvalidateGoes(fits: Fits, w: World, i: nat, t: Target)
    requires Calls(w, i) && !t.Namespace?
    ensures var synced := Synced(fits, w.locals[i], w.shared);
            Quiet(w, InOneGo(fits, w, CallInvalidate(i, t), i), i, synced.(store := Without(fits, synced.store, t)),
                  Shared(Without(fits, w.shared.store, t), w.shared.events + [t]))
  {
    hide Synced, ApplyAll, Without, Matches;
  }

  lemma ReadGoes(fits: Fits, w: World, i: nat, key: Key)
    requires Calls(w, i)
    ensures var synced := Synced(fits, w.locals[i], w.shared);
            var found := Find(w.shared.store, key);
            Quiet(w, InOneGo(fits, w, CallRead(i, key), i), i,
                  if key in synced.store || found.None? then synced
                  else synced.(store := synced.store[key := found.value]), w.shared)
  {
    hide Synced, ApplyAll;
  }

  lemma LocalKnows(fits: Fits, w: World, j: nat)
    requires Inv(fits, w) && j < |w.locals|
    ensures w.locals[j].applied <= |w.shared.events| && |w.ops| == |w.locals|
    ensures Synced(fits, w.locals[j], w.shared).applied == |w.shared.events|
  {
    assert LocalOk(fits, w, w.locals[j]);
  }

  /** `definir` in one go: its own instance reads the new value, every other the new value unless
      it holds an old one; no other key reads differently anywhere. */
  lemma DefineReads(fits: Fits, w: World, i: nat, key: Key, j: nat, k: Key)
    requires Inv(fits, w) && Calls(w, i) && Calls(w, j)
    ensures var w' := InOneGo(fits, w, CallDefine(i, key), i);
            Calls(w', j) && ReadNow(fits, w', j, k) ==
                            if k != key then ReadNow(fits, w, j, k)
                            else if j == i || k !in Synced(fits, w.locals[j], w.shared).store
                            then Some(Write(w.issued, key))
                            else ReadNow(fits, w, j, k)
  {
    hide Synced, ApplyAll, Inv, ReadNow, Act, InOneGo;
    LocalKnows(fits, w, i);
    LocalKnows(fits, w, j);
    DefineGoes(fits, w, i, key);
    var w' := InOneGo(fits, w, CallDefine(i, key), i);
    ReadNowIs(fits, w, j, k);
    ReadNowIs(fits, w', j, k);
    if j == i {
      SyncedAgain(fits, w'.locals[i], w'.shared);
    } else {
      SameEvents(fits, w.locals[j], w.shared, w'.shared);
    }
  }

  lemma SameEvents(fits: Fits, l: Local, a: Shared, b: Shared)
    requires a.events == b.events
    ensures Synced(fits, l, a) == Synced(fits, l, b)
  {
  }

  /** An invalidation in one go: every instance reads nothing any more of what it concerns, and
      everything else as before. */
  lemma InvalidateReads(fits: Fits, w: World, i: nat, t: Target, j: nat, k: Key)
    requires Inv(fits, w) && Calls(w, i) && Calls(w, j) && !t.Namespace?
    ensures var w' := InOneGo(fits, w, CallInvalidate(i, t), i);
            Calls(w', j) && ReadNow(fits, w', j, k) == if Concerns(fits, t, k) then None else ReadNow(fits, w, j, k)
  {
    hide Synced, ApplyAll, Inv, ReadNow, Act, InOneGo, Without, Concerns;
    LocalKnows(fits, w, i);
    LocalKnows(fits, w, j);
    InvalidateGoes(fits, w, i, t);
    var w' := InOneGo(fits, w, CallInvalidate(i, t), i);
    ReadNowIs(fits, w, j, k);
    ReadNowIs(fits, w', j, k);
    var synced := Synced(fits, w.locals[j], w.shared);
    WithoutIs(fits, w.shared.store, t, k);
    WithoutIs(fits, synced.store, t, k);
    if j == i {
      SyncedMore(fits, w'.locals[i], w.shared, w'.shared.store, t);
      SyncedAgain(fits, w'.locals[i], w.shared);
      WithoutIs(fits, w'.locals[i].store, t, k);
    } else {
      SyncedMore(fits, w.locals[j], w.shared, w'.shared.store, t);
    }
  }

  /** A read in one go makes no difference to any later one. */
  lemma ReadReads(fits: Fits, w: World, i: nat, key: Key, j: nat, k: Key)
    requires Inv(fits, w) && Calls(w, i) && Calls(w, j)
    ensures var w' := InOneGo(fits, w, CallRead(i, key), i);
            Calls(w', j) && ReadNow(fits, w', j, k) == ReadNow(fits, w, j, k)
  {
    hide Synced, ApplyAll, Inv, ReadNow, Act, InOneGo;
    LocalKnows(fits, w, i);
    LocalKnows(fits, w, j);
    ReadGoes(fits, w, i, key);
    var w' := InOneGo(fits, w, CallRead(i, key), i);
    ReadNowIs(fits, w, j, k);
    ReadNowIs(fits, w', j, k);
    if j == i { SyncedAgain(fits, w'.locals[i], w'.shared); }
  }

  /** An instance keeps what it has read, even when the shared store loses it. */
  lemma ReadStays(fits: Fits, w: World, i: nat, key: Key)
    requires Inv(fits, w) && Calls(w, i)
    ensures var w' := Act(fits, InOneGo(fits, w, CallRead(i, key), i), ExpireShared(key)).0;
            Calls(w', i) && ReadNow(fits, w', i, key) == ReadNow(fits, w, i, key)
  {
    hide Synced, ApplyAll, Inv, ReadNow, InOneGo;
    LocalKnows(fits, w, i);
    ReadGoes(fits, w, i, key);
    var w' := Act(fits, InOneGo(fits, w, CallRead(i, key), i), ExpireShared(key)).0;
    ReadNowIs(fits, w, i, key);
    ReadNowIs(fits, w', i, key);
    SyncedAgain(fits, w'.locals[i], w'.shared);
  }

  /** The step writes the key into the shared store or takes it out. */
  predicate Touches(fits: Fits, w: World, a: Action, k: Key) {
    a == ExpireShared(k)
    || (a.Go? && a.i < |w.ops| && a.i < |w.locals|
        && ((w.ops[a.i].DefineStored? && w.ops[a.i].w.key == k)
            || (w.ops[a.i].InvalidateLocal? && Concerns(fits, w.ops[a.i].t, k))))
  }

  lemma SharedStep(fits: Fits, w: World, a: Action, k: Key)
    requires !Touches(fits, w, a, k)
    ensures Find(Act(fits, w, a).0.shared.store, k) == Find(w.shared.store, k)
  {
    hide Synced, ApplyAll, Without, Concerns;
    if a.Go? && a.i < |w.ops| && w.ops[a.i].InvalidateLocal? { WithoutIs(fits, w.shared.store, w.ops[a.i].t, k); }
  }

  lemma {:induction false} SharedStays(fits: Fits, n: nat, actions: seq<Action>, p: nat, q: nat, k: Key)
    requires p <= q <= |actions|
    requires forall m :: p <= m < q ==> !Touches(fits, State(fits, n, actions, m), actions[m], k)
    ensures Find(State(fits, n, actions, q).shared.store, k) == Find(State(fits, n, actions, p).shared.store, k)
    decreases q
  {
    hide Act, Touches;
    if p < q {
      SharedStays(fits, n, actions, p, q - 1, k);
      SharedStep(fits, State(fits, n, actions, q - 1), actions[q - 1], k);
    }
  }

  /** In every interleaving: what a `definir` has written (at `a`) is what every read gets that
      asks the shared store later (at `e`), unless the key was written again, invalidated or expired. */
  lemma WrittenIsRead(fits: Fits, n: nat, actions: seq<Action>, a: nat, e: nat, j: nat, x: Write, barred: set<Write>)
    requires a < e < |actions| && SeenAt(fits, n, actions, a) == Defined(x) && actions[e] == Go(j)
    requires j < |State(fits, n, actions, e).ops| && State(fits, n, actions, e).ops[j] == ReadMissed(x.key, barred)
    requires forall m :: a < m < e ==> !Touches(fits, State(fits, n, actions, m), actions[m], x.key)
    ensures SeenAt(fits, n, actions, e) == Read(Some(x))
  {
    hide Act, Touches, State, Inv;
    NextState(fits, n, actions, a);
    DefinedIsShared(fits, State(fits, n, actions, a), actions[a], x);
    SharedStays(fits, n, actions, a + 1, e, x.key);
    Reachable(fits, n, actions, e);
    InvSizes(fits, State(fits, n, actions, e));
    MissedReads(fits, State(fits, n, actions, e), j, x.key);
  }

  lemma DefinedIsShared(fits: Fits, w: World, a: Action, x: Write)
    requires Act(fits, w, a).1 == Defined(x)
    ensures Find(Act(fits, w, a).0.shared.store, x.key) == Some(x)
  {
    hide Synced, ApplyAll;
  }

  lemma MissedReads(fits: Fits, w: World, j: nat, key: Key)
    requires j < |w.ops| && j < |w.locals| && w.ops[j].ReadMissed? && w.ops[j].key == key
    ensures Act(fits, w, Go(j)).1 == Read(Find(w.shared.store, key))
  {
  }

  // The shared store and an instance as they are written.

  class Backplane {
    const fits: Fits
    var available: bool
    var store: Store
    var events: seq<Target>

    constructor (fits: Fits)
      ensures this.fits == fits && available && Now() == Shared(map[], [])
    {
      this.fits, available, store, events := fits, true, map[], [];
    }

    function Now(): Shared
      reads this
    {
      Shared(store, events)
    }

    method Upsert(x: Write) returns (ok: bool)
      modifies this`store
      ensures ok == available && store == if ok then old(store)[x.key := x] else old(store)
    {
      ok := available;
      if ok { store := store[x.key := x]; }
    }

    method Get(key: Key) returns (ok: bool, found: Option<Write>)
      ensures ok == available && found == if ok then Find(store, key) else None
    {
      ok, found := available, None;
      if ok && key in store { found := Some(store[key]); }
    }

    method Remove(t: Target) returns (ok: bool)
      modifies this`store
      ensures ok == available && store == if ok then Without(fits, old(store), t) else old(store)
    {
      ok := available;
      if ok { store := Without(fits, store, t); }
    }

    method Publish(t: Target) returns (ok: bool)
      modifies this`events
      ensures ok == available && events == if ok then old(events) + [t] else old(events)
    {
      ok := available;
      if ok { events := events + [t]; }
    }

    /** The events after sequence number `since`. */
    method Collect(since: nat) returns (ok: bool, found: seq<Target>)
      ensures ok == available && found == if ok && since <= |events| then events[since..] else []
    {
      ok, found := available, [];
      if ok && since <= |events| { found := events[since..]; }
    }
  }

  class Instance {
    const shared: Backplane
    var store: Store
    var applied: nat

    constructor (shared: Backplane)
      ensures this.shared == shared && Now() == Local(map[], 0)
    {
      this.shared, store, applied := shared, map[], 0;
    }

    function Now(): Local
      reads this
    {
      Local(store, applied)
    }

    /** Applies the events published since the last time, one by one. */
    method Sync()
      requires applied <= |shared.events|
      modifies this
      ensures Now() == if shared.available then Synced(shared.fits, old(Now()), shared.Now()) else old(Now())
    {
      var ok, events := shared.Collect(applied);
      if !ok { return; }
      assert events[0..] == events;
      for k := 0 to |events|
        invariant applied == old(applied) + k
        invariant ApplyAll(shared.fits, store, events[k..]) == ApplyAll(shared.fits, old(store), events)
      {
        assert events[k..][0] == events[k] && events[k..][1..] == events[k + 1..];
        store := Without(shared.fits, store, events[k]);
        applied := applied + 1;
      }
    }

    /** `definir`: synchronize, store locally, store in the shared store. */
    method Define(x: Write)
      requires applied <= |shared.events|
      modifies this, shared`store
      ensures var synced := if shared.available then Synced(shared.fits, old(Now()), old(shared.Now())) else old(Now());
              Now() == synced.(store := synced.store[x.key := x])
      ensures shared.store == if shared.available then old(shared.store)[x.key := x] else old(shared.store)
    {
      Sync();
      store := store[x.key := x];
      var _ := shared.Upsert(x);
    }

    /** `obter`: synchronize, look here, then read through the shared store. */
    method Get(key: Key) returns (r: Option<Write>)
      requires applied <= |shared.events|
      modifies this
      ensures var synced := if shared.available then Synced(shared.fits, old(Now()), shared.Now()) else old(Now());
              var through := if shared.available then Find(shared.store, key) else None;
              if key in synced.store then r == Some(synced.store[key]) && Now() == synced
              else r == through && Now() == if r.Some? then synced.(store := synced.store[key := r.value]) else synced
    {
      Sync();
      if key in store { return Some(store[key]); }
      var _, found := shared.Get(key);
      if found.Some? { store := store[key := found.value]; }
      r := found;
    }

    /** `invalidar_chave`, `remover` and `invalidar_padrao`: synchronize, remove here,
        remove from the shared store, publish the event. */
    method Invalidate(t: Target)
      requires applied <= |shared.events|
      modifies this, shared`store, shared`events
      ensures var synced := if shared.available then Synced(shared.fits, old(Now()), old(shared.Now())) else old(Now());
              Now() == synced.(store := Without(shared.fits, synced.store, t))
      ensures shared.Now() == if shared.available
                              then Shared(Without(shared.fits, old(shared.store), t), old(shared.events) + [t])
                              else old(shared.Now())
    {
      Sync();
      store := Without(shared.fits, store, t);
      var ok := shared.Remove(t);
      if ok { var _ := shared.Publish(t); }
    }

    /** `limpar`: synchronize, empty the namespace here, publish the event. */
    method Clear(ns: string)
      requires applied <= |shared.events|
      modifies this, shared`events
      ensures var synced := if shared.available then Synced(shared.fits, old(Now()), old(shared.Now())) else old(Now());
              Now() == synced.(store := Without(shared.fits, synced.store, Namespace(ns)))
      ensures shared.Now() == if shared.available
                              then old(shared.Now()).(events := old(shared.events) + [Namespace(ns)])
                              else old(shared.Now())
    {
      Sync();
      store := Without(shared.fits, store, Namespace(ns));
      var _ := shared.Publish(Namespace(ns));
    }
  }

  /** The calls of an operation made one after the other, which is what a method does. */
  lemma Uninterrupted(fits: Fits, w: World, i: nat)
    requires Inv(fits, w) && i < |w.ops|
    ensures w.ops[i].InvalidateCalled? ==>
              var t := w.ops[i].t;
              var w1 := Advance(fits, w, i).0;
              var w2 := Advance(fits, w1, i).0;
              var w3 := Advance(fits, w2, i).0;
              var synced := Synced(fits, w.locals[i], w.shared);
              && w3.ops[i].Idle? && w3.locals[i] == synced.(store := Without(fits, synced.store, t))
              && w3.shared == Shared(Without(fits, w.shared.store, t), w.shared.events + [t])
    ensures w.ops[i].DefineCalled? ==>
              var x := w.ops[i].w;
              var w1 := Advance(fits, w, i).0;
              var w2 := Advance(fits, w1, i).0;
              var synced := Synced(fits, w.locals[i], w.shared);
              && w2.ops[i].Idle? && w2.locals[i] == synced.(store := synced.store[x.key := x])
              && w2.shared == w.shared.(store := w.shared.store[x.key := x])
    ensures w.ops[i].ReadCalled? ==>
              var key := w.ops[i].key;
              var (w1, s1) := Advance(fits, w, i);
              var (w2, s2) := Advance(fits, w1, i);
              var synced := Synced(fits, w.locals[i], w.shared);
              var found := Find(w.shared.store, key);
              if key in synced.store then w1.ops[i].Idle? && s1 == Read(Some(synced.store[key]))
                                          && w1.locals[i] == synced
              else w2.ops[i].Idle? && s2 == Read(found)
                   && w2.locals[i] == if found.Some? then synced.(store := synced.store[key := found.value]) else synced
    ensures w.ops[i].ClearCalled? ==>
              var t := Namespace(w.ops[i].ns);
              var w1 := Advance(fits, w, i).0;
              var w2 := Advance(fits, w1, i).0;
              var synced := Synced(fits, w.locals[i], w.shared);
              && w2.ops[i].Idle? && w2.locals[i] == synced.(store := Without(fits, synced.store, t))
              && w2.shared == w.shared.(events := w.shared.events + [t])
  {
    hide Synced, ApplyAll;
  }
}
