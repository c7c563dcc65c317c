/** Realtime hubs that replicate presence, rooms and messages through a log of
    numbered events. A hub's own change and the event it publishes are one step, as
    they are made under the hub's lock; synchronizing is another. */
module Hubs {
  import opened Syntax

  /** A connection is named by the hub that opened it and a number of that hub. */
  datatype Conn = Conn(hub: nat, n: nat, channel: string)

  datatype Info = Info(ip: string, user: string)

  datatype Seat = Seat(room: string, conn: Conn)

  datatype Body =
    | Joined(conn: Conn, info: Info)
    | Left(conn: Conn)
    | Entered(seat: Seat)
    | Exited(seat: Seat)
    | Message(channel: string, text: string)

  datatype Event = Event(origin: nat, body: Body)

  /** Who is connected and who sits in which room. */
  datatype View = View(conns: map<Conn, Info>, seats: set<Seat>)

  /** A message with the cursor it is replayed by. */
  datatype Envelope = Envelope(cursor: nat, channel: string, text: string)

  /** `routes` says which channels are registered at which hub. */
  datatype Limits = Limits(routes: set<(nat, string)>, total: nat, perIp: nat, perUser: nat, perRoom: nat, logSize: nat)

  /** `lost` says that an event was trimmed from the log before the hub read it. */
  datatype Hub = Hub(here: View, remote: View, history: seq<Envelope>, applied: nat, joins: nat, lost: bool)

  /** All events ever published; the first `dropped` are trimmed. */
  datatype World = World(hubs: seq<Hub>, log: seq<Event>, dropped: nat)

  const NOBODY := View(map[], {})

  // What an event does to a view, here or at another hub.

  function Changed(v: View, b: Body): View {
    match b
    case Joined(c, info) => v.(conns := v.conns[c := info])
    case Left(c) => View(v.conns - {c}, set s | s in v.seats && s.conn != c)
    case Entered(s) => v.(seats := v.seats + {s})
    case Exited(s) => v.(seats := v.seats - {s})
    case Message(_, _) => v
  }

  /** Hub `h` takes in the event of this number. */
  function TakenIn(hub: Hub, h: nat, e: Event, number: nat): Hub {
    var read := hub.(applied := if number > hub.applied then number else hub.applied);
    if e.origin == h then read
    else if e.body.Message? then read.(history := hub.history + [Envelope(number, e.body.channel, e.body.text)])
    else read.(remote := Changed(hub.remote, e.body))
  }

  /** Hub `h` takes in the events of the log from position `k` to the end. */
  function TakenAll(hub: Hub, h: nat, log: seq<Event>, k: nat): Hub
    requires k <= |log|
    decreases |log| - k
  {
    if k == |log| then hub else TakenAll(TakenIn(hub, h, log[k], k + 1), h, log, k + 1)
  }

  // Operations.

  function Users(v: View, user: string): set<Conn> {
    set c | c in v.conns && v.conns[c].user == user
  }

  function Ips(v: View, ip: string): set<Conn> {
    set c | c in v.conns && v.conns[c].ip == ip
  }

  function InRoom(v: View, channel: string, room: string): set<Seat> {
    set s | s in v.seats && s.room == room && s.conn.channel == channel
  }

  predicate MayConnect(hub: Hub, h: nat, channel: string, info: Info, lim: Limits) {
    && (h, channel) in lim.routes
    && |hub.here.conns| < lim.total && |Ips(hub.here, info.ip)| < lim.perIp
    && (info.user != "" ==> |Users(hub.here, info.user)| < lim.perUser)
  }

  datatype Action =
    | Connect(h: nat, channel: string, info: Info)
    | Disconnect(h: nat, conn: Conn)
    | Enter(h: nat, conn: Conn, room: string)
    | Leave(h: nat, conn: Conn, room: string)
    | Publish(h: nat, channel: string, text: string)
    | Sync(h: nat)

  /** The event an operation of hub `h` publishes, or none where it is refused. */
  function Wants(hub: Hub, h: nat, a: Action, lim: Limits): Option<Body> {
    match a
    case Connect(_, channel, info) =>
      if MayConnect(hub, h, channel, info, lim) then Some(Joined(Conn(h, hub.joins, channel), info)) else None
    case Disconnect(_, c) => if c.hub == h then Some(Left(c)) else None
    case Enter(_, c, room) =>
      if c.hub == h && |InRoom(hub.here, c.channel, room)| < lim.perRoom then Some(Entered(Seat(room, c))) else None
    case Leave(_, c, room) => if c.hub == h then Some(Exited(Seat(room, c))) else None
    case Publish(_, channel, text) => Some(Message(channel, text))
    case Sync(_) => None
  }

  function Published(w: World, a: Action, lim: Limits): Option<Body> {
    if a.h < |w.hubs| then Wants(w.hubs[a.h], a.h, a, lim) else None
  }

  /** The hub that publishes an event changes itself first. */
  function Did(hub: Hub, b: Body, number: nat): Hub {
    if b.Message? then hub.(history := hub.history + [Envelope(number, b.channel, b.text)])
    else hub.(here := Changed(hub.here, b), joins := if b.Joined? then hub.joins + 1 else hub.joins)
  }

  function Trimmed(n: nat, dropped: nat, size: nat): (d: nat)
    ensures dropped <= d
  {
    if n - dropped > size then n - size else dropped
  }

  /** The events a hub can still read start after the trimmed ones. */
  function Synced(hub: Hub, h: nat, log: seq<Event>, dropped: nat): Hub
    requires hub.applied <= |log| && dropped <= |log|
  {
    if hub.applied < dropped then TakenAll(hub.(lost := true), h, log, dropped) else TakenAll(hub, h, log, hub.applied)
  }

  function Act(w: World, a: Action, lim: Limits): (r: World)
    ensures |r.hubs| == |w.hubs|
  {
    if a.Sync? then
      if a.h < |w.hubs| && w.hubs[a.h].applied <= |w.log| && w.dropped <= |w.log|
      then w.(hubs := w.hubs[a.h := Synced(w.hubs[a.h], a.h, w.log, w.dropped)]) else w
    else
      var b := Published(w, a, lim);
      if b.None? then w
      else
        var log := w.log + [Event(a.h, b.value)];
        World(w.hubs[a.h := Did(w.hubs[a.h], b.value, |log|)], log, Trimmed(|log|, w.dropped, lim.logSize))
  }

  function Start(n: nat): World {
    World(seq(n, _ => Hub(NOBODY, NOBODY, [], 0, 0, false)), [], 0)
  }

  function Run(n: nat, actions: seq<Action>, lim: Limits): (w: World)
    ensures |w.hubs| == n
  {
    if actions == [] then Start(n)
    else Act(Run(n, actions[..|actions| - 1], lim), actions[|actions| - 1], lim)
  }

  // What the log says.

  /** The events of hub `h`, or of all others, one after the other. */
  function Replay(log: seq<Event>, h: nat, own: bool): View {
    if log == [] then NOBODY
    else
      var e := log[|log| - 1];
      var v := Replay(log[..|log| - 1], h, own);
      if (e.origin == h) == own then Changed(v, e.body) else v
  }

  /** The messages hub `h` knows when it has read the first `applied` events: its own, and those. */
  function Known(log: seq<Event>, h: nat, applied: nat): multiset<Envelope> {
    if log == [] then multiset{}
    else
      var e := log[|log| - 1];
      var before := Known(log[..|log| - 1], h, applied);
      if e.body.Message? && (e.origin == h || |log| <= applied)
      then before + multiset{Envelope(|log|, e.body.channel, e.body.text)} else before
  }

  /** All messages of the log in order. */
  function Messages(log: seq<Event>): (ms: seq<Envelope>)
    ensures forall k :: 0 <= k < |ms| ==> ms[k].cursor <= |log|
  {
    if log == [] then []
    else
      var e := log[|log| - 1];
      var before := Messages(log[..|log| - 1]);
      if e.body.Message? then before + [Envelope(|log|, e.body.channel, e.body.text)] else before
  }

  predicate OwnConn(e: Event) {
    match e.body
    case Joined(c, _) => c.hub == e.origin
    case Left(c) => c.hub == e.origin
    case Entered(s) => s.conn.hub == e.origin
    case Exited(s) => s.conn.hub == e.origin
    case Message(_, _) => true
  }

  ghost predicate HubOk(hub: Hub, h: nat, log: seq<Event>) {
    && hub.applied <= |log| && hub.here == Replay(log, h, true)
    && (!hub.lost ==>
          hub.remote == Replay(log[..hub.applied], h, false)
          && multiset(hub.history) == Known(log, h, hub.applied))
  }

  ghost predicate Inv(w: World) {
    && w.dropped <= |w.log|
    && (forall k :: 0 <= k < |w.log| ==> OwnConn(w.log[k]) && w.log[k].origin < |w.hubs|)
    && forall h :: 0 <= h < |w.hubs| ==> HubOk(w.hubs[h], h, w.log)
  }

  lemma KnownGrows(log: seq<Event>, e: Event, h: nat, applied: nat)
    requires applied <= |log|
    ensures Known(log + [e], h, applied)
         == if e.body.Message? && e.origin == h
            then Known(log, h, applied) + multiset{Envelope(|log| + 1, e.body.channel, e.body.text)}
            else Known(log, h, applied)
  {
    assert (log + [e])[..|log|] == log;
  }

  lemma ReplayGrows(log: seq<Event>, e: Event, h: nat, own: bool)
    ensures Replay(log + [e], h, own) == if (e.origin == h) == own then Changed(Replay(log, h, own), e.body)
                                         else Replay(log, h, own)
  {
    assert (log + [e])[..|log|] == log;
  }

  /** What the last event of the log adds. */
  function Last(log: seq<Event>, h: nat, applied: nat): multiset<Envelope>
    requires log != []
  {
    var e := log[|log| - 1];
    if e.body.Message? && (e.origin == h || |log| <= applied)
    then multiset{Envelope(|log|, e.body.channel, e.body.text)} else multiset{}
  }

  lemma KnownIs(log: seq<Event>, h: nat, applied: nat)
    requires log != []
    ensures Known(log, h, applied) == Known(log[..|log| - 1], h, applied) + Last(log, h, applied)
  {
  }

  lemma Swap(a: multiset<Envelope>, b: multiset<Envelope>, c: multiset<Envelope>)
    ensures a + b + c == a + c + b
  {
  }

  /** What reading the event at position `k` adds. */
  function Gain(log: seq<Event>, h: nat, k: nat): multiset<Envelope>
    requires k < |log|
  {
    var e := log[k];
    if e.body.Message? && e.origin != h then multiset{Envelope(k + 1, e.body.channel, e.body.text)} else multiset{}
  }

  lemma LastAndGain(log: seq<Event>, h: nat, k: nat)
    requires k < |log|
    ensures if k + 1 < |log| then Last(log, h, k + 1) == Last(log, h, k)
                                  && Gain(log, h, k) == Gain(log[..|log| - 1], h, k)
            else Last(log, h, k + 1) == Last(log, h, k) + Gain(log, h, k)
  {
  }

  /** Reading one event more. */
  lemma {:induction false} KnownReads(log: seq<Event>, h: nat, k: nat)
    requires k < |log|
    ensures Known(log, h, k + 1) == Known(log, h, k) + Gain(log, h, k)
    decreases |log|
  {
    hide Known, Last, Gain;
    var before := log[..|log| - 1];
    KnownIs(log, h, k + 1);
    KnownIs(log, h, k);
    LastAndGain(log, h, k);
    if k + 1 < |log| {
      KnownReads(before, h, k);
      Swap(Known(before, h, k), Gain(log, h, k), Last(log, h, k));
    } else {
      KnownBeyond(before, h, k, k + 1);
      Group(Known(before, h, k), Last(log, h, k), Gain(log, h, k));
    }
  }

  lemma Group(a: multiset<Envelope>, b: multiset<Envelope>, c: multiset<Envelope>)
    ensures a + (b + c) == a + b + c
  {
  }

  lemma {:induction false} KnownBeyond(log: seq<Event>, h: nat, a: nat, b: nat)
    requires |log| <= a && |log| <= b
    ensures Known(log, h, a) == Known(log, h, b)
    decreases |log|
  {
    if log != [] { KnownBeyond(log[..|log| - 1], h, a, b); }
  }

  lemma {:induction false} TakesAll(hub: Hub, h: nat, log: seq<Event>, k: nat)
    requires k <= |log| && hub.applied == k
    ensures var r := TakenAll(hub, h, log, k);
            && r.applied == |log| && r.here == hub.here && r.joins == hub.joins && r.lost == hub.lost
            && (hub.remote == Replay(log[..k], h, false) ==> r.remote == Replay(log, h, false))
            && (multiset(hub.history) == Known(log, h, k) ==> multiset(r.history) == Known(log, h, |log|))
    decreases |log| - k
  {
    hide Replay, Known, TakenIn;
    if k == |log| {
      assert log[..k] == log;
    } else {
      TakesOne(hub, h, log, k);
      TakesAll(TakenIn(hub, h, log[k], k + 1), h, log, k + 1);
    }
  }

  lemma TakesOne(hub: Hub, h: nat, log: seq<Event>, k: nat)
    requires k < |log| && hub.applied == k
    ensures var r := TakenIn(hub, h, log[k], k + 1);
            && r.applied == k + 1 && r.here == hub.here && r.joins == hub.joins && r.lost == hub.lost
            && (hub.remote == Replay(log[..k], h, false) ==> r.remote == Replay(log[..k + 1], h, false))
            && (multiset(hub.history) == Known(log, h, k) ==> multiset(r.history) == Known(log, h, k + 1))
  {
    hide Replay, Known;
    assert log[..k + 1] == log[..k] + [log[k]];
    ReplayGrows(log[..k], log[k], h, false);
    KnownReads(log, h, k);
  }

  lemma {:induction false} TakenKeeps(hub: Hub, h: nat, log: seq<Event>, k: nat)
    requires k <= |log| && hub.applied <= k
    ensures var r := TakenAll(hub, h, log, k);
            r.here == hub.here && r.lost == hub.lost && r.applied == (if k == |log| then hub.applied else |log|)
    decreases |log| - k
  {
    if k < |log| { TakenKeeps(TakenIn(hub, h, log[k], k + 1), h, log, k + 1); }
  }

  lemma SyncOk(hub: Hub, h: nat, log: seq<Event>, dropped: nat)
    requires HubOk(hub, h, log) && dropped <= |log|
    ensures HubOk(Synced(hub, h, log, dropped), h, log)
  {
    if hub.applied < dropped {
      TakenKeeps(hub.(lost := true), h, log, dropped);
    } else {
      TakesAll(hub, h, log, hub.applied);
      assert log[..|log|] == log;
    }
  }

  lemma PublishOk(hub: Hub, h: nat, log: seq<Event>, e: Event)
    requires HubOk(hub, h, log)
    ensures HubOk(if e.origin == h then Did(hub, e.body, |log| + 1) else hub, h, log + [e])
  {
    assert (log + [e])[..hub.applied] == log[..hub.applied];
    ReplayGrows(log, e, h, true);
    KnownGrows(log, e, h, hub.applied);
  }

  lemma ActOk(w: World, a: Action, lim: Limits)
    requires Inv(w)
    ensures Inv(Act(w, a, lim)) && |Act(w, a, lim).hubs| == |w.hubs|
  {
    hide HubOk;
    var w' := Act(w, a, lim);
    if a.Sync? {
      if a.h < |w.hubs| && w.hubs[a.h].applied <= |w.log| { SyncOk(w.hubs[a.h], a.h, w.log, w.dropped); }
    } else if Published(w, a, lim).Some? {
      var e := Event(a.h, Published(w, a, lim).value);
      forall h | 0 <= h < |w'.hubs| ensures HubOk(w'.hubs[h], h, w'.log) { PublishOk(w.hubs[h], h, w.log, e); }
    }
  }

  lemma {:induction false} Reachable(n: nat, actions: seq<Action>, lim: Limits)
    ensures Inv(Run(n, actions, lim)) && |Run(n, actions, lim).hubs| == n
    decreases |actions|
  {
    if actions != [] {
      Reachable(n, actions[..|actions| - 1], lim);
      ActOk(Run(n, actions[..|actions| - 1], lim), actions[|actions| - 1], lim);
    }
  }

  // What replication means.

  /** At every hub that lost nothing, what it believes about the others is what the
      others' events up to its applied number say. */
  lemma RemoteIsReplay(n: nat, actions: seq<Action>, lim: Limits, h: nat)
    requires h < n
    ensures var w := Run(n, actions, lim);
            |w.hubs| == n && w.hubs[h].applied <= |w.log|
            && (!w.hubs[h].lost ==> w.hubs[h].remote == Replay(w.log[..w.hubs[h].applied], h, false)
                                    && multiset(w.hubs[h].history) == Known(w.log, h, w.hubs[h].applied))
  {
    Reachable(n, actions, lim);
    assert HubOk(Run(n, actions, lim).hubs[h], h, Run(n, actions, lim).log);
  }

  /** A connection of hub `g` is only touched by events of hub `g`. */
  lemma {:induction false} OwnersAgree(log: seq<Event>, h: nat, g: nat, c: Conn)
    requires (forall k :: 0 <= k < |log| ==> OwnConn(log[k])) && c.hub == g && g != h
    ensures var others, own := Replay(log, h, false), Replay(log, g, true);
            && (c in others.conns <==> c in own.conns) && (c in own.conns ==> others.conns[c] == own.conns[c])
            && forall room :: Seat(room, c) in others.seats <==> Seat(room, c) in own.seats
    decreases |log|
  {
    if log != [] {
      var n := |log| - 1;
      assert OwnConn(log[n]);
      OwnersAgree(log[..n], h, g, c);
    }
  }

  lemma {:induction false} NotOwn(log: seq<Event>, h: nat, c: Conn)
    requires (forall k :: 0 <= k < |log| ==> OwnConn(log[k])) && c.hub == h
    ensures var others := Replay(log, h, false); c !in others.conns && forall room :: Seat(room, c) !in others.seats
    decreases |log|
  {
    if log != [] {
      var n := |log| - 1;
      assert OwnConn(log[n]);
      NotOwn(log[..n], h, c);
    }
  }

  /** Every connection in the log belongs to one of the hubs. */
  lemma {:induction false} KnownHubs(log: seq<Event>, n: nat, h: nat, c: Conn)
    requires forall k :: 0 <= k < |log| ==> OwnConn(log[k]) && log[k].origin < n
    ensures var others := Replay(log, h, false);
            c.hub >= n ==> c !in others.conns && forall room :: Seat(room, c) !in others.seats
    decreases |log|
  {
    if log != [] {
      var m := |log| - 1;
      assert OwnConn(log[m]);
      KnownHubs(log[..m], n, h, c);
    }
  }

  /** A hub that has read everything, and lost nothing, believes about every connection
      of every other hub exactly what that hub holds, and nothing else. */
  lemma FullySynced(n: nat, actions: seq<Action>, lim: Limits, h: nat)
    requires h < n && !Run(n, actions, lim).hubs[h].lost
    requires Run(n, actions, lim).hubs[h].applied == |Run(n, actions, lim).log|
    ensures var w := Run(n, actions, lim);
            var remote := w.hubs[h].remote;
            && (forall c :: c in remote.conns <==> c.hub < n && c.hub != h && c in w.hubs[c.hub].here.conns)
            && (forall c :: c in remote.conns ==> remote.conns[c] == w.hubs[c.hub].here.conns[c])
            && (forall s ::
                  s in remote.seats <==> s.conn.hub < n && s.conn.hub != h && s in w.hubs[s.conn.hub].here.seats)
  {
    var w := Run(n, actions, lim);
    var remote := w.hubs[h].remote;
    Reachable(n, actions, lim);
    hide Run, Replay;
    assert remote == Replay(w.log, h, false) by { assert HubOk(w.hubs[h], h, w.log) && w.log[..|w.log|] == w.log; }
    forall c: Conn
      ensures if c.hub < n && c.hub != h then
                && (c in remote.conns <==> c in w.hubs[c.hub].here.conns)
                && (c in remote.conns ==> remote.conns[c] == w.hubs[c.hub].here.conns[c])
                && forall room :: Seat(room, c) in remote.seats <==> Seat(room, c) in w.hubs[c.hub].here.seats
              else c !in remote.conns && forall room :: Seat(room, c) !in remote.seats
    {
      KnownHubs(w.log, n, h, c);
      if c.hub == h {
        NotOwn(w.log, h, c);
      } else if c.hub < n {
        assert HubOk(w.hubs[c.hub], c.hub, w.log);
        OwnersAgree(w.log, h, c.hub, c);
      }
    }
    forall s: Seat ensures s in remote.seats
                      <==> s.conn.hub < n && s.conn.hub != h && s in w.hubs[s.conn.hub].here.seats {
      assert s == Seat(s.room, s.conn);
    }
  }

  // Messages.

  lemma {:induction false} AllKnown(log: seq<Event>, h: nat, applied: nat)
    requires |log| <= applied
    ensures Known(log, h, applied) == multiset(Messages(log))
    decreases |log|
  {
    if log != [] { AllKnown(log[..|log| - 1], h, applied); }
  }

  /** No cursor occurs twice, and cursors ascend. */
  predicate Ascending(ms: seq<Envelope>) {
    forall i, j :: 0 <= i < j < |ms| ==> ms[i].cursor < ms[j].cursor
  }

  lemma {:induction false} MessagesAscend(log: seq<Event>)
    ensures Ascending(Messages(log))
    decreases |log|
  {
    if log != [] { MessagesAscend(log[..|log| - 1]); }
  }

  /** Two ascending lists with the same messages are the same list. */
  lemma {:induction false} OneOrder(a: seq<Envelope>, b: seq<Envelope>)
    requires Ascending(a) && Ascending(b) && multiset(a) == multiset(b)
    ensures a == b
    decreases |a|
  {
    if a == [] || b == [] {
      assert |a| == |multiset(a)| == |multiset(b)| == |b|;
    } else {
      SameHead(a, b);
      TailBag(a);
      TailBag(b);
      OneOrder(a[1..], b[1..]);
      assert a == [a[0]] + a[1..] && b == [b[0]] + b[1..];
    }
  }

  lemma SameHead(a: seq<Envelope>, b: seq<Envelope>)
    requires Ascending(a) && Ascending(b) && multiset(a) == multiset(b) && a != [] && b != []
    ensures a[0] == b[0]
  {
    assert a[0] in multiset(b) && b[0] in multiset(a);
    var i :| 0 <= i < |b| && b[i] == a[0];
    var j :| 0 <= j < |a| && a[j] == b[0];
  }

  lemma TailBag(a: seq<Envelope>)
    requires a != []
    ensures multiset(a[1..]) == multiset(a) - multiset{a[0]}
  {
    assert a == [a[0]] + a[1..];
  }

  /** A hub that has read everything holds every message of the log once: put in the
      order of their cursors, its messages are the log's, whatever the order they came in. */
  lemma Converges(n: nat, actions: seq<Action>, lim: Limits, h: nat, sorted: seq<Envelope>)
    requires h < n && !Run(n, actions, lim).hubs[h].lost
    requires Run(n, actions, lim).hubs[h].applied == |Run(n, actions, lim).log|
    requires multiset(sorted) == multiset(Run(n, actions, lim).hubs[h].history)
             && forall i, j :: 0 <= i < j < |sorted| ==> sorted[i].cursor <= sorted[j].cursor
    ensures sorted == Messages(Run(n, actions, lim).log)
  {
    hide Run;
    var w := Run(n, actions, lim);
    RemoteIsReplay(n, actions, lim, h);
    AllKnown(w.log, h, |w.log|);
    MessagesAscend(w.log);
    assert w.log[..|w.log|] == w.log;
    StrictlyAscending(sorted, Messages(w.log));
    OneOrder(sorted, Messages(w.log));
  }

  /** A sorted rearrangement of a list without repeated cursors has none either. */
  lemma StrictlyAscending(sorted: seq<Envelope>, ms: seq<Envelope>)
    requires Ascending(ms) && multiset(sorted) == multiset(ms)
    requires forall i, j :: 0 <= i < j < |sorted| ==> sorted[i].cursor <= sorted[j].cursor
    ensures Ascending(sorted)
  {
    forall i, j | 0 <= i < j < |sorted| ensures sorted[i].cursor < sorted[j].cursor {
      if sorted[i].cursor == sorted[j].cursor {
        assert sorted[i] in multiset(ms) && sorted[j] in multiset(ms);
        var a :| 0 <= a < |ms| && ms[a] == sorted[i];
        var b :| 0 <= b < |ms| && ms[b] == sorted[j];
        assert a == b;
        Twice(sorted, i, j);
        Once(ms, a);
      }
    }
  }

  lemma Twice(s: seq<Envelope>, i: nat, j: nat)
    requires i < j < |s| && s[i] == s[j]
    ensures multiset(s)[s[i]] >= 2
  {
    assert s == s[..j] + s[j..];
    assert s[i] in s[..j] && s[j] in s[j..];
    assert s[..j][i] == s[i] && s[j..][0] == s[j];
  }

  lemma Once(ms: seq<Envelope>, a: nat)
    requires Ascending(ms) && a < |ms|
    ensures multiset(ms)[ms[a]] == 1
  {
    assert ms == ms[..a] + [ms[a]] + ms[a + 1..];
    assert ms[a] !in ms[..a] && ms[a] !in ms[a + 1..];
  }

  /** Two hubs that have read everything hold the same messages. */
  lemma SameHistories(n: nat, actions: seq<Action>, lim: Limits, g: nat, h: nat)
    requires g < n && h < n && !Run(n, actions, lim).hubs[g].lost && !Run(n, actions, lim).hubs[h].lost
    requires Run(n, actions, lim).hubs[g].applied == |Run(n, actions, lim).log| == Run(n, actions, lim).hubs[h].applied
    ensures multiset(Run(n, actions, lim).hubs[g].history) == multiset(Run(n, actions, lim).hubs[h].history)
  {
    hide Run;
    var w := Run(n, actions, lim);
    RemoteIsReplay(n, actions, lim, g);
    RemoteIsReplay(n, actions, lim, h);
    AllKnown(w.log, g, |w.log|);
    AllKnown(w.log, h, |w.log|);
  }

  // What single operations do to who is here.

  /** The two views agree on every connection but `c`, and on every seat but its seats. */
  ghost predicate SameBut(v: View, v': View, c: Conn) {
    && (forall d :: d != c ==> (d in v'.conns <==> d in v.conns) && (d in v.conns ==> v'.conns[d] == v.conns[d]))
    && forall s: Seat :: s.conn != c ==> (s in v'.seats <==> s in v.seats)
  }

  /** A closed connection is gone with all its seats; everybody else stays. */
  lemma Closes(w: World, h: nat, c: Conn, lim: Limits)
    requires h < |w.hubs| && c.hub == h
    ensures var here, here' := w.hubs[h].here, Act(w, Disconnect(h, c), lim).hubs[h].here;
            c !in here'.conns && (forall s :: s in here'.seats ==> s.conn != c) && SameBut(here, here', c)
  {
  }

  /** Entering a room adds one seat, and leaving it takes that seat away. */
  lemma Seats(w: World, h: nat, c: Conn, room: string, lim: Limits)
    requires h < |w.hubs| && c.hub == h
    ensures var here, in', out := w.hubs[h].here, Act(w, Enter(h, c, room), lim).hubs[h].here,
                                  Act(w, Leave(h, c, room), lim).hubs[h].here;
            && in'.conns == here.conns == out.conns
            && (|InRoom(here, c.channel, room)| < lim.perRoom ==>
                  forall s :: s in in'.seats <==> s in here.seats || s == Seat(room, c))
            && (|InRoom(here, c.channel, room)| >= lim.perRoom ==> in' == here)
            && forall s :: s in out.seats <==> s in here.seats && s != Seat(room, c)
  {
  }

  /** The step opens the connection. */
  predicate Opens(w: World, a: Action, lim: Limits, c: Conn) {
    a.Connect? && a.h < |w.hubs| && MayConnect(w.hubs[a.h], a.h, a.channel, a.info, lim)
    && c == Conn(a.h, w.hubs[a.h].joins, a.channel)
  }

  /** Opened by step `k` and not closed since. */
  ghost predicate OpenSince(n: nat, actions: seq<Action>, lim: Limits, c: Conn, k: int) {
    && 0 <= k < |actions| && Opens(Run(n, actions[..k], lim), actions[k], lim, c)
    && forall j :: k < j < |actions| ==> actions[j] != Disconnect(c.hub, c)
  }

  lemma OpenSnoc(n: nat, before: seq<Action>, a: Action, lim: Limits, c: Conn)
    ensures (exists k :: OpenSince(n, before + [a], lim, c, k))
       <==> Opens(Run(n, before, lim), a, lim, c)
            || ((exists k :: OpenSince(n, before, lim, c, k)) && a != Disconnect(c.hub, c))
  {
    hide Opens, Run;
    var all := before + [a];
    assert all[..|before|] == before && all[|before|] == a;
    if k :| OpenSince(n, all, lim, c, k) {
      assert all[..k] == before[..k];
      if k < |before| { assert OpenSince(n, before, lim, c, k) && all[|before|] != Disconnect(c.hub, c); }
    }
    if Opens(Run(n, before, lim), a, lim, c) { assert OpenSince(n, all, lim, c, |before|); }
    if k :| OpenSince(n, before, lim, c, k) {
      if a != Disconnect(c.hub, c) {
        assert all[..k] == before[..k];
        assert OpenSince(n, all, lim, c, k);
      }
    }
  }

  lemma OpenStep(w: World, a: Action, lim: Limits, c: Conn)
    requires Inv(w) && c.hub < |w.hubs|
    ensures c in Act(w, a, lim).hubs[c.hub].here.conns
       <==> Opens(w, a, lim, c) || (c in w.hubs[c.hub].here.conns && a != Disconnect(c.hub, c))
  {
    hide Inv;
    if a.Sync? && a.h == c.hub { SyncHere(w, a.h, lim); }
  }

  lemma SyncHere(w: World, h: nat, lim: Limits)
    requires Inv(w) && h < |w.hubs|
    ensures var hub := Act(w, Sync(h), lim).hubs[h];
            && hub.here == w.hubs[h].here && hub.joins == w.hubs[h].joins
            && (w.dropped < |w.log| || w.log == [] ==> hub.applied == |w.log|)
            && (hub.lost <==> w.hubs[h].lost || w.hubs[h].applied < w.dropped)
  {
    hide Inv;
    var hub := w.hubs[h];
    HubKnows(w, h);
    hide HubOk;
    if hub.applied < w.dropped {
      TakenKeeps(hub.(lost := true), h, w.log, w.dropped);
      TakenJoins(hub.(lost := true), h, w.log, w.dropped);
    } else {
      TakenKeeps(hub, h, w.log, hub.applied);
      TakenJoins(hub, h, w.log, hub.applied);
    }
  }

  lemma HubKnows(w: World, h: nat)
    requires Inv(w) && h < |w.hubs|
    ensures w.hubs[h].applied <= |w.log| && w.dropped <= |w.log| && HubOk(w.hubs[h], h, w.log)
  {
  }

  lemma {:induction false} TakenJoins(hub: Hub, h: nat, log: seq<Event>, k: nat)
    requires k <= |log|
    ensures TakenAll(hub, h, log, k).joins == hub.joins
    decreases |log| - k
  {
    if k < |log| { TakenJoins(TakenIn(hub, h, log[k], k + 1), h, log, k + 1); }
  }

  /** In every run: a connection is here exactly when it was opened and has not been closed since. */
  lemma {:induction false} OpenExact(n: nat, actions: seq<Action>, lim: Limits, c: Conn)
    requires c.hub < n
    ensures c in Run(n, actions, lim).hubs[c.hub].here.conns <==> exists k :: OpenSince(n, actions, lim, c, k)
    decreases |actions|
  {
    hide Act, Opens, OpenSince;
    if actions == [] {
      NobodyOpened(n, lim, c);
    } else {
      var before, a := actions[..|actions| - 1], actions[|actions| - 1];
      OpenExact(n, before, lim, c);
      assert actions == before + [a];
      OpenSnoc(n, before, a, lim, c);
      Reachable(n, before, lim);
      OpenStep(Run(n, before, lim), a, lim, c);
    }
  }

  lemma NobodyOpened(n: nat, lim: Limits, c: Conn)
    requires c.hub < n
    ensures c !in Run(n, [], lim).hubs[c.hub].here.conns && forall k :: !OpenSince(n, [], lim, c, k)
  {
  }

  /** Seated by step `k`, and neither risen nor closed since. */
  ghost predicate SeatedSince(n: nat, actions: seq<Action>, lim: Limits, s: Seat, k: int) {
    && 0 <= k < |actions| && Enters(Run(n, actions[..k], lim), actions[k], lim, s)
    && forall j :: k < j < |actions| ==> !Rises(actions[j], s)
  }

  predicate Enters(w: World, a: Action, lim: Limits, s: Seat) {
    a == Enter(s.conn.hub, s.conn, s.room) && s.conn.hub < |w.hubs|
    && |InRoom(w.hubs[s.conn.hub].here, s.conn.channel, s.room)| < lim.perRoom
  }

  predicate Rises(a: Action, s: Seat) {
    a == Leave(s.conn.hub, s.conn, s.room) || a == Disconnect(s.conn.hub, s.conn)
  }

  lemma SeatedSnoc(n: nat, before: seq<Action>, a: Action, lim: Limits, s: Seat)
    ensures (exists k :: SeatedSince(n, before + [a], lim, s, k))
       <==> Enters(Run(n, before, lim), a, lim, s) || ((exists k :: SeatedSince(n, before, lim, s, k)) && !Rises(a, s))
  {
    hide Enters, Rises, Run;
    var all := before + [a];
    assert all[..|before|] == before && all[|before|] == a;
    if k :| SeatedSince(n, all, lim, s, k) {
      assert all[..k] == before[..k];
      if k < |before| { assert SeatedSince(n, before, lim, s, k) && !Rises(all[|before|], s); }
    }
    if Enters(Run(n, before, lim), a, lim, s) { assert SeatedSince(n, all, lim, s, |before|); }
    if k :| SeatedSince(n, before, lim, s, k) {
      if !Rises(a, s) {
        assert all[..k] == before[..k];
        assert SeatedSince(n, all, lim, s, k);
      }
    }
  }

  lemma SeatedStep(w: World, a: Action, lim: Limits, s: Seat)
    requires Inv(w) && s.conn.hub < |w.hubs|
    ensures s in Act(w, a, lim).hubs[s.conn.hub].here.seats
       <==> Enters(w, a, lim, s) || (s in w.hubs[s.conn.hub].here.seats && !Rises(a, s))
  {
    hide Inv, MayConnect;
    if a.Sync? && a.h == s.conn.hub { SyncHere(w, a.h, lim); }
  }

  /** In every run: a seat is taken exactly when its connection has entered the room and has
      neither left it nor been closed since. */
  lemma {:induction false} SeatedExact(n: nat, actions: seq<Action>, lim: Limits, s: Seat)
    requires s.conn.hub < n
    ensures s in Run(n, actions, lim).hubs[s.conn.hub].here.seats <==> exists k :: SeatedSince(n, actions, lim, s, k)
    decreases |actions|
  {
    hide Act, Enters, Rises, SeatedSince;
    if actions == [] {
      NobodySeated(n, lim, s);
    } else {
      var before, a := actions[..|actions| - 1], actions[|actions| - 1];
      SeatedExact(n, before, lim, s);
      assert actions == before + [a];
      SeatedSnoc(n, before, a, lim, s);
      Reachable(n, before, lim);
      SeatedStep(Run(n, before, lim), a, lim, s);
    }
  }

  lemma NobodySeated(n: nat, lim: Limits, s: Seat)
    requires s.conn.hub < n
    ensures s !in Run(n, [], lim).hubs[s.conn.hub].here.seats && forall k :: !SeatedSince(n, [], lim, s, k)
  {
  }

  // Limits.

  ghost predicate Within(v: View, lim: Limits) {
    && |v.conns| <= lim.total && (forall ip :: |Ips(v, ip)| <= lim.perIp)
    && (forall user :: user != "" ==> |Users(v, user)| <= lim.perUser)
    && forall channel, room :: |InRoom(v, channel, room)| <= lim.perRoom
  }

  lemma Fewer<T>(a: set<T>, b: set<T>)
    requires a <= b
    ensures |a| <= |b|
  {
    assert b == a + (b - a);
  }

  lemma FewerView(v: View, v': View, lim: Limits)
    requires Within(v, lim) && v'.seats <= v.seats && v'.conns.Keys <= v.conns.Keys
    requires forall c :: c in v'.conns ==> v'.conns[c] == v.conns[c]
    ensures Within(v', lim)
  {
    assert |v.conns| == |v.conns.Keys| && |v'.conns| == |v'.conns.Keys|;
    Fewer(v'.conns.Keys, v.conns.Keys);
    forall ip ensures |Ips(v', ip)| <= lim.perIp { Fewer(Ips(v', ip), Ips(v, ip)); }
    forall user | user != "" ensures |Users(v', user)| <= lim.perUser { Fewer(Users(v', user), Users(v, user)); }
    forall channel, room ensures |InRoom(v', channel, room)| <= lim.perRoom {
      Fewer(InRoom(v', channel, room), InRoom(v, channel, room));
    }
  }

  lemma JoinedWithin(hub: Hub, h: nat, c: Conn, info: Info, lim: Limits)
    requires Within(hub.here, lim) && MayConnect(hub, h, c.channel, info, lim)
    ensures Within(hub.here.(conns := hub.here.conns[c := info]), lim)
  {
    var v, v' := hub.here, hub.here.(conns := hub.here.conns[c := info]);
    assert |v.conns| == |v.conns.Keys| && |v'.conns| == |v'.conns.Keys| && v'.conns.Keys == v.conns.Keys + {c};
    forall ip ensures |Ips(v', ip)| <= lim.perIp {
      Fewer(Ips(v', ip), if ip == info.ip then Ips(v, ip) + {c} else Ips(v, ip));
    }
    forall user | user != "" ensures |Users(v', user)| <= lim.perUser {
      Fewer(Users(v', user), if user == info.user then Users(v, user) + {c} else Users(v, user));
    }
    forall channel, room ensures |InRoom(v', channel, room)| <= lim.perRoom {
      assert InRoom(v', channel, room) == InRoom(v, channel, room);
    }
  }

  lemma EnteredWithin(v: View, s: Seat, lim: Limits)
    requires Within(v, lim) && |InRoom(v, s.conn.channel, s.room)| < lim.perRoom
    ensures Within(v.(seats := v.seats + {s}), lim)
  {
    var v' := v.(seats := v.seats + {s});
    assert forall ip :: Ips(v', ip) == Ips(v, ip);
    assert forall user :: Users(v', user) == Users(v, user);
    forall channel, room ensures |InRoom(v', channel, room)| <= lim.perRoom {
      Fewer(InRoom(v', channel, room), if channel == s.conn.channel && room == s.room
            then InRoom(v, channel, room) + {s} else InRoom(v, channel, room));
    }
  }

  lemma WithinStep(w: World, a: Action, lim: Limits, h: nat)
    requires Inv(w) && h < |w.hubs| && Within(w.hubs[h].here, lim)
    ensures Within(Act(w, a, lim).hubs[h].here, lim)
  {
    hide Inv, Within, MayConnect;
    var hub := w.hubs[h];
    if a.h == h {
      match a
      case Sync(_) => SyncHere(w, h, lim);
      case Connect(_, channel, info) =>
        if MayConnect(hub, h, channel, info, lim) { JoinedWithin(hub, h, Conn(h, hub.joins, channel), info, lim); }
      case Enter(_, c, room) =>
        if c.hub == h && |InRoom(hub.here, c.channel, room)| < lim.perRoom {
          EnteredWithin(hub.here, Seat(room, c), lim);
        }
      case Disconnect(_, _) => FewerView(hub.here, Act(w, a, lim).hubs[h].here, lim);
      case Leave(_, _, _) => FewerView(hub.here, Act(w, a, lim).hubs[h].here, lim);
      case Publish(_, _, _) =>
    }
  }

  /** In every run no hub has more connections, in all, from one address or of one user, and no
      room more seats, than its limits say. */
  lemma {:induction false} WithinLimits(n: nat, actions: seq<Action>, lim: Limits, h: nat)
    requires h < n
    ensures Within(Run(n, actions, lim).hubs[h].here, lim)
    decreases |actions|
  {
    hide Act, Within;
    if actions == [] {
      NobodyWithin(n, lim, h);
    } else {
      var before := actions[..|actions| - 1];
      WithinLimits(n, before, lim, h);
      Reachable(n, before, lim);
      WithinStep(Run(n, before, lim), actions[|actions| - 1], lim, h);
    }
  }

  lemma NobodyWithin(n: nat, lim: Limits, h: nat)
    requires h < n
    ensures Within(Run(n, [], lim).hubs[h].here, lim)
  {
    assert |NOBODY.conns| == 0;
    assert forall ip :: Ips(NOBODY, ip) == {};
    assert forall user :: Users(NOBODY, user) == {};
    assert forall channel, room :: InRoom(NOBODY, channel, room) == {};
  }

  /** And a connection is refused exactly when its channel is unknown or one of the limits is reached. */
  lemma RefusedExact(n: nat, actions: seq<Action>, lim: Limits, h: nat, channel: string, info: Info)
    requires h < n
    ensures var w := Run(n, actions, lim);
            var here := w.hubs[h].here;
            Act(w, Connect(h, channel, info), lim).hubs[h].here.conns == here.conns
            <==> (h, channel) !in lim.routes || |here.conns| == lim.total || |Ips(here, info.ip)| == lim.perIp
                 || (info.user != "" && |Users(here, info.user)| == lim.perUser)
  {
    hide Run;
    var w := Run(n, actions, lim);
    WithinLimits(n, actions, lim, h);
    Fresh(n, actions, lim, h, channel);
    var c := Conn(h, w.hubs[h].joins, channel);
    if MayConnect(w.hubs[h], h, channel, info, lim) {
      assert c in Act(w, Connect(h, channel, info), lim).hubs[h].here.conns;
    }
  }

  /** The next connection of a hub has not been opened before. */
  lemma {:induction false} Fresh(n: nat, actions: seq<Action>, lim: Limits, h: nat, channel: string)
    requires h < n
    ensures var hub := Run(n, actions, lim).hubs[h]; Conn(h, hub.joins, channel) !in hub.here.conns
  {
    var hub := Run(n, actions, lim).hubs[h];
    Numbered(n, actions, lim, h, Conn(h, hub.joins, channel));
  }

  lemma {:induction false} Numbered(n: nat, actions: seq<Action>, lim: Limits, h: nat, c: Conn)
    requires h < n && c.hub == h
    ensures var hub := Run(n, actions, lim).hubs[h]; c in hub.here.conns ==> c.n < hub.joins
    decreases |actions|
  {
    hide Act;
    if actions != [] {
      var before := actions[..|actions| - 1];
      Numbered(n, before, lim, h, c);
      Reachable(n, before, lim);
      NumberedStep(Run(n, before, lim), actions[|actions| - 1], lim, c);
    }
  }

  lemma NumberedStep(w: World, a: Action, lim: Limits, c: Conn)
    requires Inv(w) && c.hub < |w.hubs| && (c in w.hubs[c.hub].here.conns ==> c.n < w.hubs[c.hub].joins)
    ensures var hub := Act(w, a, lim).hubs[c.hub]; c in hub.here.conns ==> c.n < hub.joins
  {
    hide Inv, MayConnect;
    OpenStep(w, a, lim, c);
    if a.Sync? && a.h == c.hub { SyncHere(w, a.h, lim); }
  }

  // What the log keeps, and what is lost.

  /** In every run the log keeps the newest events, as many as its size allows. */
  lemma {:induction false} LogKeeps(n: nat, actions: seq<Action>, lim: Limits)
    ensures var w := Run(n, actions, lim);
            w.dropped <= |w.log| && |w.log| - w.dropped == (if |w.log| < lim.logSize then |w.log| else lim.logSize)
    decreases |actions|
  {
    hide Synced, Wants, Did;
    if actions != [] { LogKeeps(n, actions[..|actions| - 1], lim); }
  }

  /** Synchronizing reads to the end of the log, and loses something exactly when more events
      than the log keeps were published since the last one applied. */
  lemma LosesExactly(n: nat, actions: seq<Action>, lim: Limits, h: nat)
    requires h < n
    ensures var w := Run(n, actions, lim);
            var hub := Act(w, Sync(h), lim).hubs[h];
            (lim.logSize > 0 ==> hub.applied == |w.log|)
            && (hub.lost <==> w.hubs[h].lost || |w.log| - w.hubs[h].applied > lim.logSize)
  {
    hide Run, Act;
    Reachable(n, actions, lim);
    LogKeeps(n, actions, lim);
    SyncHere(Run(n, actions, lim), h, lim);
    HubKnows(Run(n, actions, lim), h);
  }

  /** A message is in the history of its hub when it has been sent, and in that of every hub that
      synchronizes after it and has lost nothing, with its channel, text and number. */
  lemma Delivered(n: nat, actions: seq<Action>, lim: Limits, h: nat, channel: string, text: string, g: nat)
    requires h < n && g < n
    ensures var w := Run(n, actions, lim);
            var sent := Act(w, Publish(h, channel, text), lim);
            var synced := Act(sent, Sync(g), lim).hubs[g];
            var message := Envelope(|w.log| + 1, channel, text);
            message in sent.hubs[h].history && (!synced.lost ==> message in synced.history)
  {
    hide Run;
    var w := Run(n, actions, lim);
    var sent := Act(w, Publish(h, channel, text), lim);
    var message := Envelope(|w.log| + 1, channel, text);
    assert sent.log == w.log + [Event(h, Message(channel, text))];
    Reachable(n, actions, lim);
    ActOk(w, Publish(h, channel, text), lim);
    ActOk(sent, Sync(g), lim);
    SyncHere(sent, g, lim);
    LastKnown(sent.log, g, message);
    var synced := Act(sent, Sync(g), lim);
    HubKnows(synced, g);
    assert synced.log == sent.log;
    if !synced.hubs[g].lost { assert message in multiset(synced.hubs[g].history); }
  }

  lemma LastKnown(log: seq<Event>, g: nat, message: Envelope)
    requires log != [] && log[|log| - 1].body == Message(message.channel, message.text) && message.cursor == |log|
    ensures message in Known(log, g, |log|)
  {
  }

  // The log and a hub as they are written.

  class EventLog {
    const size: nat
    var events: seq<Event>
    var dropped: nat

    constructor (size: nat)
      ensures this.size == size && events == [] && dropped == 0
    {
      this.size, events, dropped := size, [], 0;
    }

    /** Appends an event, trims the log and returns the event's number. */
    method Append(e: Event) returns (number: nat)
      modifies this
      ensures events == old(events) + [e] && number == |events| && dropped == Trimmed(|events|, old(dropped), size)
    {
      events := events + [e];
      if |events| - dropped > size { dropped := |events| - size; }
      number := |events|;
    }
  }

  class LiveHub {
    const id: nat
    const log: EventLog
    const lim: Limits
    var here: View
    var remote: View
    var history: seq<Envelope>
    var applied: nat
    var joins: nat
    var lost: bool

    constructor (id: nat, log: EventLog, lim: Limits)
      ensures this.id == id && this.log == log && this.lim == lim && Now() == Hub(NOBODY, NOBODY, [], 0, 0, false)
    {
      this.id, this.log, this.lim := id, log, lim;
      here, remote, history, applied, joins, lost := NOBODY, NOBODY, [], 0, 0, false;
    }

    function Now(): Hub
      reads this
    {
      Hub(here, remote, history, applied, joins, lost)
    }

    predicate Valid()
      reads this, log
    {
      applied <= |log.events| && log.dropped <= |log.events|
    }

    /** Reads the events after the applied number that are still in the log, one by one;
        its own are skipped. */
    method Synchronize()
      requires Valid()
      modifies this
      ensures Now() == Synced(old(Now()), id, log.events, log.dropped) && Valid()
      ensures here == old(here) && (log.dropped < |log.events| || log.events == [] ==> applied == |log.events|)
      ensures lost <==> old(lost) || old(applied) < log.dropped
    {
      hide Changed;
      TakenKeeps(Now(), id, log.events, applied);
      if applied < log.dropped { TakenKeeps(Now().(lost := true), id, log.events, log.dropped); }
      var k := applied;
      if applied < log.dropped {
        lost := true;
        k := log.dropped;
      }
      while k < |log.events|
        invariant k <= |log.events|
        invariant TakenAll(Now(), id, log.events, k) == Synced(old(Now()), id, log.events, log.dropped)
        decreases |log.events| - k
      {
        var e := log.events[k];
        k := k + 1;
        if k > applied { applied := k; }
        if e.origin != id {
          if e.body.Message? {
            history := history + [Envelope(k, e.body.channel, e.body.text)];
          } else {
            remote := Changed(remote, e.body);
          }
        }
      }
    }

    /** An operation: synchronize, then, unless it is refused, change and publish. */
    ghost predicate Performed(was: Hub, events: seq<Event>, dropped: nat, a: Action, ok: bool)
      requires was.applied <= |events| && dropped <= |events|
      reads this, log
    {
      var hub := Synced(was, id, events, dropped);
      var b := Wants(hub, id, a, lim);
      && ok == b.Some?
      && Now() == (if ok then Did(hub, b.value, |events| + 1) else hub)
      && log.events == (if ok then events + [Event(id, b.value)] else events)
    }

    method Open(channel: string, info: Info) returns (r: Option<Conn>)
      requires Valid()
      modifies this, log
      ensures Performed(old(Now()), old(log.events), old(log.dropped), Connect(id, channel, info), r.Some?)
      ensures r.Some? ==> here.conns == old(here.conns)[r.value := info] && r.value.hub == id
                          && r.value.channel == channel
      ensures r.None? ==> here.conns == old(here.conns)
      ensures here.seats == old(here.seats)
    {
      hide Synced, TakenAll;
      Synchronize();
      if (id, channel) !in lim.routes { return None; }
      if |here.conns| >= lim.total { return None; }
      if |Ips(here, info.ip)| >= lim.perIp { return None; }
      if info.user != "" && |Users(here, info.user)| >= lim.perUser { return None; }
      var c := Conn(id, joins, channel);
      joins := joins + 1;
      here := here.(conns := here.conns[c := info]);
      var _ := log.Append(Event(id, Joined(c, info)));
      r := Some(c);
    }

    method Close(c: Conn)
      requires Valid() && c.hub == id
      modifies this, log
      ensures Performed(old(Now()), old(log.events), old(log.dropped), Disconnect(id, c), true)
      ensures c !in here.conns && (forall s :: s in here.seats ==> s.conn != c) && SameBut(old(here), here, c)
    {
      hide Synced, TakenAll;
      Synchronize();
      here := View(here.conns - {c}, set s | s in here.seats && s.conn != c);
      var _ := log.Append(Event(id, Left(c)));
    }

    method Sit(c: Conn, room: string) returns (ok: bool)
      requires Valid() && c.hub == id
      modifies this, log
      ensures Performed(old(Now()), old(log.events), old(log.dropped), Enter(id, c, room), ok)
      ensures ok <==> |InRoom(old(here), c.channel, room)| < lim.perRoom
      ensures here.conns == old(here.conns)
      ensures forall s :: s in here.seats <==> s in old(here.seats) || (ok && s == Seat(room, c))
    {
      hide Synced, TakenAll;
      Synchronize();
      if |InRoom(here, c.channel, room)| >= lim.perRoom { return false; }
      here := here.(seats := here.seats + {Seat(room, c)});
      var _ := log.Append(Event(id, Entered(Seat(room, c))));
      ok := true;
    }

    method Stand(c: Conn, room: string)
      requires Valid() && c.hub == id
      modifies this, log
      ensures Performed(old(Now()), old(log.events), old(log.dropped), Leave(id, c, room), true)
      ensures here.conns == old(here.conns)
      ensures forall s :: s in here.seats <==> s in old(here.seats) && s != Seat(room, c)
    {
      hide Synced, TakenAll;
      Synchronize();
      here := here.(seats := here.seats - {Seat(room, c)});
      var _ := log.Append(Event(id, Exited(Seat(room, c))));
    }

    method Send(channel: string, text: string) returns (cursor: nat)
      requires Valid()
      modifies this, log
      ensures Performed(old(Now()), old(log.events), old(log.dropped), Publish(id, channel, text), true)
      ensures cursor == |old(log.events)| + 1 && history != []
      ensures history[|history| - 1] == Envelope(cursor, channel, text) && here == old(here)
    {
      hide Synced, TakenAll;
      Synchronize();
      cursor := log.Append(Event(id, Message(channel, text)));
      history := history + [Envelope(cursor, channel, text)];
    }
  }
}
