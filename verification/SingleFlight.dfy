/** The table of loads in flight that `obter_ou_carregar` keeps: the first caller to miss
    a key leads, later ones wait, and every leader leaves the table when it is done. */
module SingleFlight {

  datatype Caller =
    | Away
    | Leading(key: string)
    | Waiting(key: string)
    | LoadingAlone(key: string)  // a follower that gave up waiting and has no fallback

  datatype World = World(inFlight: set<string>, callers: seq<Caller>)

  datatype Outcome = Loaded | Failed

  datatype Action =
    | Miss(i: nat, key: string)
    | Wake(i: nat, found: bool, fallback: bool)  // notified or timed out
    | Finish(i: nat, outcome: Outcome)

  function Act(w: World, a: Action): World {
    if a.i >= |w.callers| then w
    else
      var c := w.callers[a.i];
      match a
      case Miss(i, key) =>
        if !c.Away? then w
        else if key in w.inFlight then w.(callers := w.callers[i := Waiting(key)])
        else World(w.inFlight + {key}, w.callers[i := Leading(key)])
      case Wake(i, found, fallback) =>
        if !c.Waiting? then w
        else w.(callers := w.callers[i := if found || fallback then Away else LoadingAlone(c.key)])
      case Finish(i, _) =>
        if c.Leading? then World(w.inFlight - {c.key}, w.callers[i := Away])
        else if c.LoadingAlone? then w.(callers := w.callers[i := Away])
        else w
  }

  function Run(n: nat, actions: seq<Action>): World {
    if actions == [] then World({}, seq(n, _ => Away))
    else Act(Run(n, actions[..|actions| - 1]), actions[|actions| - 1])
  }

  ghost predicate Leads(w: World, i: int, key: string) {
    0 <= i < |w.callers| && w.callers[i] == Leading(key)
  }

  ghost predicate Inv(w: World) {
    && (forall key :: key in w.inFlight <==> exists i :: Leads(w, i, key))
    && (forall i, j, key :: Leads(w, i, key) && Leads(w, j, key) ==> i == j)
  }

  lemma ActKeeps(w: World, a: Action)
    requires Inv(w)
    ensures Inv(Act(w, a))
  {
    var w' := Act(w, a);
    forall key ensures key in w'.inFlight <==> exists i :: Leads(w', i, key) {
      if i :| Leads(w, i, key) {
        if i != a.i || !a.Finish? { assert Leads(w', i, key); }
      }
      if i :| Leads(w', i, key) {
        assert i != a.i ==> Leads(w, i, key);
      }
      if a.Miss? && w' != w { assert w'.callers[a.i].Leading? ==> Leads(w', a.i, w'.callers[a.i].key); }
      if a.Finish? && a.i < |w.callers| && w.callers[a.i].Leading? { assert Leads(w, a.i, w.callers[a.i].key); }
    }
    forall i, j, key | Leads(w', i, key) && Leads(w', j, key) ensures i == j {
      assert i != a.i ==> Leads(w, i, key);
      assert j != a.i ==> Leads(w, j, key);
    }
  }

  /** In every interleaving a key is in flight exactly when a caller leads it, and never
      do two callers lead the same key. */
  lemma {:induction false} OneLeader(n: nat, actions: seq<Action>)
    ensures Inv(Run(n, actions))
    decreases |actions|
  {
    if actions != [] {
      OneLeader(n, actions[..|actions| - 1]);
      ActKeeps(Run(n, actions[..|actions| - 1]), actions[|actions| - 1]);
    } else {
      assert forall i, key :: !Leads(Run(n, []), i, key);
    }
  }

  /** Whatever the outcome of the load, the leader's key leaves the table with it. */
  lemma LeaderLeaves(n: nat, actions: seq<Action>, i: nat, key: string, outcome: Outcome)
    requires Leads(Run(n, actions), i, key)
    ensures key !in Act(Run(n, actions), Finish(i, outcome)).inFlight
    ensures forall k :: k != key ==> (k in Act(Run(n, actions), Finish(i, outcome)).inFlight
                                      <==> k in Run(n, actions).inFlight)
  {
  }

  /** When every caller has returned, nothing is left in the table. */
  lemma NothingLeft(n: nat, actions: seq<Action>)
    requires forall i :: 0 <= i < |Run(n, actions).callers| ==> Run(n, actions).callers[i].Away?
    ensures Run(n, actions).inFlight == {}
  {
    OneLeader(n, actions);
    assert forall i, key :: !Leads(Run(n, actions), i, key);
  }

  /** A caller that missed a key loads it as the leader or waits for the one there is. A waiting one
      returns exactly when it found the value or has a fallback, else it loads by itself; a loading
      one returns when its load is over. Nobody else is moved by that. */
  lemma Returns(n: nat, actions: seq<Action>, i: nat, key: string, found: bool, fallback: bool, outcome: Outcome)
    requires i < |Run(n, actions).callers|
    ensures var w := Run(n, actions);
            var c := w.callers[i];
            var missed, woken, finished := Act(w, Miss(i, key)).callers, Act(w, Wake(i, found, fallback)).callers,
                                           Act(w, Finish(i, outcome)).callers;
            && |missed| == |woken| == |finished| == |w.callers|
            && (c.Away? ==> missed[i] == (if exists j :: Leads(w, j, key) then Waiting(key) else Leading(key)))
            && (c.Waiting? ==> (woken[i].Away? <==> found || fallback)
                               && (!found && !fallback ==> woken[i] == LoadingAlone(c.key)))
            && (c.Leading? || c.LoadingAlone? ==> finished[i].Away?)
            && forall j :: 0 <= j < |w.callers| && j != i ==>
                             missed[j] == woken[j] == finished[j] == w.callers[j]
  {
    hide Run;
    OneLeader(n, actions);
  }

  /** The table as it is written. */
  class Flights {
    var inFlight: set<string>

    constructor ()
      ensures inFlight == {}
    {
      inFlight := {};
    }

    /** Is the caller the leader for this key? */
    method Enter(key: string) returns (leader: bool)
      modifies this
      ensures leader <==> key !in old(inFlight)
      ensures inFlight == old(inFlight) + {key}
    {
      leader := key !in inFlight;
      if leader { inFlight := inFlight + {key}; }
    }

    method Leave(key: string)
      modifies this
      ensures inFlight == old(inFlight) - {key}
    {
      inFlight := inFlight - {key};
    }
  }
}
