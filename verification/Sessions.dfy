/** Login sessions and the rotation of their refresh tokens. A token is an
    unforgeable record of claims; every identifier given out is new. */
module Sessions {
  import opened Syntax

  datatype Session = Session(user: string, device: string, current: nat, active: bool, expires: real)

  datatype Token = Token(session: nat, id: nat, user: string, device: string, expires: real)

  /** `denied` maps blocked tokens to the end of their blocking; `exchanged` lists the
      ids of the tokens exchanged so far; identifiers below `next` have been given out. */
  datatype World = World(sessions: map<nat, Session>, issued: set<Token>, denied: map<Token, real>, next: nat,
                         exchanged: seq<nat>)

  datatype Action =
    | Create(user: string, device: string, ttl: int, now: real)
    | Issue(session: nat, user: string, given: Option<string>, life: real, now: real)
    | Exchange(token: Token, life: real, now: real)
    | Check(session: nat, now: real)
    | Revoke(sessions: set<nat>)
    | Block(token: Token, time: real, now: real)

  datatype Error = UserMissing | NoSession | Revoked | Expired | BadToken | Malformed | Reused | Denied

  datatype Answer = Done | Opened(session: nat) | Given(token: Token) | Alive(yes: bool) | Refused(error: Error)

  const START := World(map[], {}, map[], 0, [])

  function Max(a: real, b: real): real {
    if a >= b then a else b
  }

  function Killed(s: Session): Session {
    s.(active := false)
  }

  function RevokedIn(sessions: map<nat, Session>, ids: set<nat>): map<nat, Session> {
    map sid | sid in sessions :: if sid in ids then Killed(sessions[sid]) else sessions[sid]
  }

  predicate IsDenied(w: World, t: Token, now: real) {
    t in w.denied && w.denied[t] > now
  }

  /** The signature holds and the token has not expired. */
  predicate Verifies(w: World, t: Token, now: real) {
    t in w.issued && now <= t.expires
  }

  function Act(w: World, a: Action): (World, Answer) {
    match a
    case Create(user, device, ttl, now) =>
      if user == "" then (w, Refused(UserMissing))
      else
        var s := Session(user, if device == "" then "dispositivo_padrao" else device, w.next + 1, true,
                         now + (if ttl < 1 then 1 else ttl) as real);
        (w.(sessions := w.sessions[w.next := s], next := w.next + 2), Opened(w.next))
    case Issue(sid, user, given, life, now) =>
      if sid !in w.sessions then (w, Refused(NoSession))
      else if !w.sessions[sid].active then (w, Refused(Revoked))
      else
        var s := w.sessions[sid];
        var t := Token(sid, w.next, user, if given.Some? && given.value != "" then given.value else s.device,
                       now + life);
        (w.(sessions := w.sessions[sid := s.(current := w.next)], issued := w.issued + {t}, next := w.next + 1),
         Given(t))
    case Exchange(t, life, now) => Exchanged(w, t, life, now)
    case Check(sid, now) =>
      if sid !in w.sessions || !w.sessions[sid].active then (w, Alive(false))
      else if w.sessions[sid].expires <= now
      then (w.(sessions := w.sessions[sid := Killed(w.sessions[sid])]), Alive(false))
      else (w, Alive(true))
    case Revoke(ids) =>
      (w.(sessions := RevokedIn(w.sessions, ids)), Done)
    case Block(t, time, now) =>
      // Nobody holds a token whose identifier has not been given out.
      (if t.id < w.next then w.(denied := w.denied[t := now + Max(time, 1.0)]) else w, Done)
  }

  /** The session rotates to a new id before the denylist is consulted, so a blocked
      token uses up the current id without giving out another. */
  function Exchanged(w: World, t: Token, life: real, now: real): (World, Answer) {
    if !Verifies(w, t, now) then (w, Refused(BadToken))
    else if t.user == "" then (w, Refused(Malformed))
    else if t.session !in w.sessions || !w.sessions[t.session].active then (w, Refused(Revoked))
    else
      var s := w.sessions[t.session];
      if s.expires <= now then (w.(sessions := w.sessions[t.session := Killed(s)]), Refused(Expired))
      else if t.id != s.current then
        (w.(sessions := w.sessions[t.session := Killed(s)], denied := w.denied[t := now + Max(t.expires - now, 60.0)]),
         Refused(Reused))
      else
        var rotated := w.(sessions := w.sessions[t.session := s.(current := w.next)], next := w.next + 1);
        if IsDenied(w, t, now) then (rotated, Refused(Denied))
        else
          var given := Token(t.session, w.next, t.user, if t.device == "" then "dispositivo_padrao" else t.device,
                             now + life);
          (rotated.(denied := w.denied[t := now + Max(t.expires - now, 60.0)], issued := w.issued + {given},
           exchanged := w.exchanged + [t.id]),
           Given(given))
  }

  function Run(actions: seq<Action>): World {
    if actions == [] then START else Act(Run(actions[..|actions| - 1]), actions[|actions| - 1]).0
  }

  function AnswerAt(actions: seq<Action>, k: nat): Answer
    requires k < |actions|
  {
    Act(Run(actions[..k]), actions[k]).1
  }

  // What every run keeps.

  /** Identifiers are used once: no two tokens share one, a session's current id was given
      out for it, and an exchanged id is current nowhere. */
  ghost predicate Inv(w: World) {
    && (forall sid :: sid in w.sessions ==> sid < w.next && w.sessions[sid].current < w.next)
    && (forall t :: t in w.issued ==> t.id < w.next)
    && (forall t :: t in w.denied ==> t.id < w.next)
    && (forall t, u :: t in w.issued && u in w.issued && t.id == u.id ==> t == u)
    && (forall t, sid :: t in w.issued && sid in w.sessions && w.sessions[sid].current == t.id ==> t.session == sid)
    && (forall k :: 0 <= k < |w.exchanged| ==> w.exchanged[k] < w.next)
    && (forall k, sid :: 0 <= k < |w.exchanged| && sid in w.sessions ==> w.sessions[sid].current != w.exchanged[k])
    && (forall j, k :: 0 <= j < k < |w.exchanged| ==> w.exchanged[j] != w.exchanged[k])
  }

  lemma ActKeeps(w: World, a: Action)
    requires Inv(w)
    ensures Inv(Act(w, a).0)
  {
    hide Inv, Exchanged;
    match a
    case Create(user, device, ttl, now) => if user != "" { CreateKeeps(w, Act(w, a).0, Act(w, a).0.sessions[w.next]); }
    case Issue(sid, user, given, life, now) =>
      if sid in w.sessions && w.sessions[sid].active {
        RotateKeeps(w, sid);
        IssueKeeps(Rotated(w, sid), Act(w, a).1.token, w.next);
      }
    case Exchange(t, life, now) => ExchangeKeeps(w, t, life, now);
    case Check(sid, now) => SameCurrents(w, Act(w, a).0);
    case Revoke(ids) => SameCurrents(w, Act(w, a).0);
    case Block(t, time, now) => SameCurrents(w, Act(w, a).0);
  }

  /** Sessions may end and tokens be blocked without touching the identifiers. */
  lemma SameCurrents(w: World, w': World)
    requires Inv(w) && w'.issued == w.issued && w'.next == w.next && w'.exchanged == w.exchanged
    requires forall t :: t in w'.denied ==> t in w.denied || t.id < w.next
    requires forall sid :: sid in w'.sessions ==>
                             sid in w.sessions && w'.sessions[sid].current == w.sessions[sid].current
    ensures Inv(w')
  {
  }

  lemma CreateKeeps(w: World, w': World, s: Session)
    requires Inv(w) && s.current == w.next + 1
    requires w' == w.(sessions := w.sessions[w.next := s], next := w.next + 2)
    ensures Inv(w')
  {
  }

  function Rotated(w: World, sid: nat): World
    requires sid in w.sessions
  {
    w.(sessions := w.sessions[sid := w.sessions[sid].(current := w.next)], next := w.next + 1)
  }

  lemma RotateKeeps(w: World, sid: nat)
    requires Inv(w) && sid in w.sessions
    ensures Inv(Rotated(w, sid))
    ensures forall t :: t in w.issued ==> t.id != w.next
    ensures forall s :: s in Rotated(w, sid).sessions && Rotated(w, sid).sessions[s].current == w.next ==> s == sid
  {
  }

  /** A token with the id just made current. */
  lemma IssueKeeps(w: World, t: Token, id: nat)
    requires Inv(w) && t.id == id && id < w.next && forall u :: u in w.issued ==> u.id != id
    requires forall s :: s in w.sessions && w.sessions[s].current == id ==> s == t.session
    ensures Inv(w.(issued := w.issued + {t}))
  {
  }

  lemma LogKeeps(w: World, id: nat)
    requires Inv(w) && id < w.next && id !in w.exchanged && forall s :: s in w.sessions ==> w.sessions[s].current != id
    ensures Inv(w.(exchanged := w.exchanged + [id]))
  {
    var w' := w.(exchanged := w.exchanged + [id]);
    assert forall k :: 0 <= k < |w'.exchanged| ==> w'.exchanged[k] == if k < |w.exchanged| then w.exchanged[k] else id;
  }

  lemma ExchangeKeeps(w: World, t: Token, life: real, now: real)
    requires Inv(w)
    ensures Inv(Exchanged(w, t, life, now).0)
  {
    hide Inv;
    var w' := Exchanged(w, t, life, now).0;
    if w'.next == w.next {
      Tokens(w);
      SameCurrents(w, w');
    } else {
      var rotated := Rotated(w, t.session);
      RotateKeeps(w, t.session);
      if |w'.exchanged| > |w.exchanged| {
        var given := Exchanged(w, t, life, now).1.token;
        IssueKeeps(rotated, given, w.next);
        OldId(w, t);
        LogKeeps(rotated.(issued := rotated.issued + {given}), t.id);
        SameCurrents(rotated.(issued := rotated.issued + {given}, exchanged := w.exchanged + [t.id]), w');
      }
    }
  }

  lemma Tokens(w: World)
    requires Inv(w)
    ensures forall t :: t in w.issued ==> t.id < w.next
  {
  }

  /** After the rotation the old id is current nowhere, and it was not exchanged before. */
  lemma OldId(w: World, t: Token)
    requires Inv(w) && t in w.issued && t.session in w.sessions && w.sessions[t.session].current == t.id
    ensures t.id < w.next && t.id !in w.exchanged
    ensures forall s :: s in Rotated(w, t.session).sessions ==> Rotated(w, t.session).sessions[s].current != t.id
  {
  }

  lemma {:induction false} Reachable(actions: seq<Action>)
    ensures Inv(Run(actions))
    decreases |actions|
  {
    if actions != [] {
      Reachable(actions[..|actions| - 1]);
      ActKeeps(Run(actions[..|actions| - 1]), actions[|actions| - 1]);
    }
  }

  /** The session stays as it was or turns inactive; it never turns active again. */
  lemma NeverRevives(w: World, a: Action, sid: nat)
    requires Inv(w) && sid in w.sessions
    ensures var w' := Act(w, a).0; sid in w'.sessions && (w'.sessions[sid].active ==> w.sessions[sid].active)
  {
  }

  lemma {:induction false} StaysDead(actions: seq<Action>, p: nat, q: nat, sid: nat)
    requires p <= q <= |actions| && sid in Run(actions[..p]).sessions && !Run(actions[..p]).sessions[sid].active
    ensures sid in Run(actions[..q]).sessions && !Run(actions[..q]).sessions[sid].active
    decreases q
  {
    hide Act;
    if p < q {
      StaysDead(actions, p, q - 1, sid);
      assert actions[..q][..q - 1] == actions[..q - 1];
      Reachable(actions[..q - 1]);
      NeverRevives(Run(actions[..q - 1]), actions[q - 1], sid);
    }
  }

  /** Could this token be exchanged now? */
  predicate Exchangeable(w: World, t: Token, now: real) {
    && Verifies(w, t, now) && t.user != "" && !IsDenied(w, t, now)
    && t.session in w.sessions && w.sessions[t.session].active && now < w.sessions[t.session].expires
    && w.sessions[t.session].current == t.id
  }

  /** An exchange succeeds exactly when the token is exchangeable, and at any time at most
      one token of a session is. */
  lemma OneExchangeable(actions: seq<Action>, t: Token, u: Token, life: real, now: real)
    ensures Act(Run(actions), Exchange(t, life, now)).1.Given? <==> Exchangeable(Run(actions), t, now)
    ensures Exchangeable(Run(actions), t, now) && Exchangeable(Run(actions), u, now) && t.session == u.session
            ==> t == u
  {
    Reachable(actions);
  }

  /** Over a whole run, no refresh id is exchanged twice. */
  lemma ExchangedOnce(actions: seq<Action>, p: nat, q: nat)
    requires p < q < |actions| && actions[p].Exchange? && actions[q].Exchange?
    requires AnswerAt(actions, p).Given? && AnswerAt(actions, q).Given?
    ensures actions[p].token.id != actions[q].token.id
  {
    hide Act;
    var before, after := Run(actions[..p]), Run(actions[..p + 1]);
    assert actions[..p + 1][..p] == actions[..p];
    Logged(before, actions[p]);
    LogGrows(actions, p + 1, q);
    InPrefix(after.exchanged, Run(actions[..q]).exchanged, actions[p].token.id);
    Reachable(actions[..q]);
    Current(Run(actions[..q]), actions[q]);
  }

  lemma InPrefix(a: seq<nat>, b: seq<nat>, x: nat)
    requires a <= b && x in a
    ensures x in b
  {
    var k :| 0 <= k < |a| && a[k] == x;
    assert b[k] == x;
  }

  lemma Logged(w: World, a: Action)
    requires a.Exchange? && Act(w, a).1.Given?
    ensures Act(w, a).0.exchanged == w.exchanged + [a.token.id]
  {
  }

  lemma Current(w: World, a: Action)
    requires Inv(w) && a.Exchange? && Act(w, a).1.Given?
    ensures a.token.id !in w.exchanged
  {
  }

  lemma {:induction false} LogGrows(actions: seq<Action>, p: nat, q: nat)
    requires p <= q <= |actions|
    ensures Run(actions[..p]).exchanged <= Run(actions[..q]).exchanged
    decreases q
  {
    hide Act;
    if p < q {
      LogGrows(actions, p, q - 1);
      assert actions[..q][..q - 1] == actions[..q - 1];
      LogStep(Run(actions[..q - 1]), actions[q - 1]);
    }
  }

  lemma LogStep(w: World, a: Action)
    ensures w.exchanged <= Act(w, a).0.exchanged
  {
  }

  /** An id that is not current any more never becomes current again. */
  lemma {:induction false} StaysOutdated(actions: seq<Action>, p: nat, q: nat, t: Token)
    requires p <= q <= |actions| && t in Run(actions[..p]).issued && t.session in Run(actions[..p]).sessions
    requires Run(actions[..p]).sessions[t.session].current != t.id
    ensures t in Run(actions[..q]).issued && t.session in Run(actions[..q]).sessions
    ensures Run(actions[..q]).sessions[t.session].current != t.id
    decreases q
  {
    hide Act;
    if p < q {
      StaysOutdated(actions, p, q - 1, t);
      assert actions[..q][..q - 1] == actions[..q - 1];
      Reachable(actions[..q - 1]);
      OutdatedStep(Run(actions[..q - 1]), actions[q - 1], t);
    }
  }

  lemma OutdatedStep(w: World, a: Action, t: Token)
    requires Inv(w) && t in w.issued && t.session in w.sessions && w.sessions[t.session].current != t.id
    ensures var w' := Act(w, a).0; t in w'.issued && t.session in w'.sessions && w'.sessions[t.session].current != t.id
  {
    hide Act;
    ActEffect(w, a);
    NeverRevives(w, a, t.session);
    assert t.id < w.next;
  }

  /** Once a token's id is outdated (at `p`), presenting the token (at `q`) ends its session
      for good: no later exchange (at `r`) of any token of that session succeeds. */
  lemma OutdatedEndsSession(actions: seq<Action>, p: nat, q: nat, r: nat, t: Token)
    requires p <= q < r < |actions| && actions[q].Exchange? && actions[q].token == t && actions[r].Exchange?
    requires t in Run(actions[..p]).issued && t.session in Run(actions[..p]).sessions
    requires Run(actions[..p]).sessions[t.session].current != t.id
    requires t.user != "" && actions[q].now <= t.expires && actions[r].token.session == t.session
    ensures !AnswerAt(actions, r).Given?
  {
    hide Act;
    assert actions[..q + 1][..q] == actions[..q];
    StaysOutdated(actions, p, q, t);
    Outdated(Run(actions[..q]), actions[q]);
    StaysDead(actions, q + 1, r, t.session);
    DeadRefuses(Run(actions[..r]), actions[r]);
  }

  /** In particular, presenting a token once more after it was exchanged. */
  lemma ReuseEndsSession(actions: seq<Action>, p: nat, q: nat, r: nat)
    requires p < q < r < |actions| && actions[p].Exchange? && actions[q].Exchange? && actions[r].Exchange?
    requires AnswerAt(actions, p).Given? && actions[q].token == actions[p].token
             && actions[q].now <= actions[q].token.expires
    requires actions[r].token.session == actions[p].token.session
    ensures !AnswerAt(actions, r).Given?
  {
    hide Act;
    assert actions[..p + 1][..p] == actions[..p];
    Reachable(actions[..p]);
    SessionKnown(Run(actions[..p]), actions[p]);
    OutdatedEndsSession(actions, p + 1, q, r, actions[p].token);
  }

  /** What a successful exchange leaves behind. */
  lemma SessionKnown(w: World, a: Action)
    requires Inv(w) && a.Exchange? && Act(w, a).1.Given?
    ensures var t, w' := a.token, Act(w, a).0;
            t.user != "" && t in w'.issued && t.session in w'.sessions && w'.sessions[t.session].current != t.id
  {
  }

  lemma Outdated(w: World, a: Action)
    requires a.Exchange? && a.token in w.issued && a.token.user != "" && a.now <= a.token.expires
    requires a.token.session in w.sessions && w.sessions[a.token.session].current != a.token.id
    ensures var w' := Act(w, a).0; a.token.session in w'.sessions && !w'.sessions[a.token.session].active
  {
  }

  lemma DeadRefuses(w: World, a: Action)
    requires a.Exchange? && (a.token.session in w.sessions ==> !w.sessions[a.token.session].active)
    ensures !Act(w, a).1.Given?
  {
  }

  // What a blocked token does to its session.

  /** No token that was issued carries the session's current id, so none can be exchanged. */
  ghost predicate Stranded(w: World, sid: nat) {
    sid in w.sessions && forall t :: t in w.issued ==> t.id != w.sessions[sid].current
  }

  /** The exchange refused because the token is blocked has already moved the session on. */
  lemma DeniedStrands(actions: seq<Action>, p: nat)
    requires p < |actions| && actions[p].Exchange? && AnswerAt(actions, p) == Refused(Denied)
    ensures Stranded(Run(actions[..p + 1]), actions[p].token.session)
  {
    assert actions[..p + 1][..p] == actions[..p];
    Reachable(actions[..p]);
  }

  /** Only issuing a token for the session ends this: until then (from `p` to `q`) the session
      stays stranded and no exchange of one of its tokens succeeds. */
  lemma {:induction false} StaysStranded(actions: seq<Action>, p: nat, q: nat, sid: nat)
    requires p <= q <= |actions| && Stranded(Run(actions[..p]), sid)
    requires forall k :: p <= k < q && actions[k].Issue? && actions[k].session == sid ==> !AnswerAt(actions, k).Given?
    ensures Stranded(Run(actions[..q]), sid)
    ensures forall k :: p <= k < q && actions[k].Exchange? && actions[k].token.session == sid ==>
                          !AnswerAt(actions, k).Given?
    decreases q
  {
    hide Act, Stranded;
    if p < q {
      StaysStranded(actions, p, q - 1, sid);
      assert actions[..q][..q - 1] == actions[..q - 1];
      Reachable(actions[..q - 1]);
      StrandedStep(Run(actions[..q - 1]), actions[q - 1], sid);
    }
  }

  lemma StrandedStep(w: World, a: Action, sid: nat)
    requires Inv(w) && Stranded(w, sid) && (a.Issue? && a.session == sid ==> !Act(w, a).1.Given?)
    ensures Stranded(Act(w, a).0, sid)
    ensures a.Exchange? && a.token.session == sid ==> !Act(w, a).1.Given?
  {
    hide Inv;
    if a.Exchange? {
      StrandedExchange(w, a.token, a.life, a.now, sid);
    } else if a.Issue? && Act(w, a).1.Given? {
      NewToken(w, Act(w, a).1.token, sid);
    } else if a.Create? {
      Known(w, sid);
    }
  }

  lemma Known(w: World, sid: nat)
    requires Inv(w) && sid in w.sessions
    ensures sid < w.next && w.sessions[sid].current < w.next
  {
  }

  lemma NewToken(w: World, t: Token, sid: nat)
    requires Inv(w) && Stranded(w, sid) && t.id == w.next
    ensures forall u :: u in w.issued + {t} ==> u.id != w.sessions[sid].current
  {
  }

  lemma StrandedExchange(w: World, t: Token, life: real, now: real, sid: nat)
    requires Inv(w) && Stranded(w, sid)
    ensures Stranded(Exchanged(w, t, life, now).0, sid)
    ensures t.session == sid ==> !Exchanged(w, t, life, now).1.Given?
  {
    hide Inv;
    Known(w, sid);
    if Exchanged(w, t, life, now).1.Given? { NewToken(w, Exchanged(w, t, life, now).1.token, sid); }
  }

  /** Could this token be exchanged if it were not blocked? */
  predicate Presentable(w: World, t: Token, now: real) {
    && Verifies(w, t, now) && t.user != ""
    && t.session in w.sessions && w.sessions[t.session].active && now < w.sessions[t.session].expires
    && w.sessions[t.session].current == t.id
  }

  /** Presenting the current token of a session leaves the session without an exchangeable
      token exactly when that token is blocked, or the new one is given no time to live. */
  lemma StrandedExact(actions: seq<Action>, t: Token, life: real, now: real)
    requires Presentable(Run(actions), t, now)
    ensures var w' := Act(Run(actions), Exchange(t, life, now)).0;
            (forall u: Token :: u.session == t.session ==> !Exchangeable(w', u, now))
            <==> IsDenied(Run(actions), t, now) || life < 0.0
  {
    var w := Run(actions);
    Reachable(actions);
    var (w', r) := Act(w, Exchange(t, life, now));
    if IsDenied(w, t, now) {
      assert Stranded(w', t.session);
    } else {
      assert r.Given? && r.token.id == w.next && (life >= 0.0 ==> Exchangeable(w', r.token, now));
    }
  }

  // What the answers promise.

  /** A new session is active exactly until its time, which is at least one second, is over. */
  lemma CreatedLives(w: World, user: string, device: string, ttl: int, now: real, later: real)
    requires user != ""
    ensures var (w', r) := Act(w, Create(user, device, ttl, now));
            r.Opened? && Act(w', Check(r.session, later)).1
                         == Alive(later < now + (if ttl > 1 then ttl as real else 1.0))
  {
  }

  /** A token issued for a session that is said to be active can be exchanged right then; so can
      the one that an exchange gives out. */
  lemma AliveIssues(actions: seq<Action>, sid: nat, user: string, given: Option<string>, life: real, now: real)
    requires Act(Run(actions), Check(sid, now)).1 == Alive(true) && user != "" && life >= 0.0
    ensures var (w', r) := Act(Run(actions), Issue(sid, user, given, life, now));
            r.Given? && r.token.session == sid && r.token.user == user && Exchangeable(w', r.token, now)
            && (given.Some? && given.value != "" ==> r.token.device == given.value)
            && (given.None? ==> r.token.device == w'.sessions[sid].device)
            && (Verifies(w', r.token, now + life) && forall later :: later > now + life
                                                                     ==> !Verifies(w', r.token, later))
  {
    Reachable(actions);
  }

  lemma ExchangeGoesOn(actions: seq<Action>, t: Token, life: real, now: real)
    requires Exchangeable(Run(actions), t, now) && life >= 0.0
    ensures var (w', r) := Act(Run(actions), Exchange(t, life, now));
            r.Given? && r.token.session == t.session && r.token.user == t.user && Exchangeable(w', r.token, now)
            && (t.device != "" ==> r.token.device == t.device) && !Exchangeable(w', t, now)
            && (Verifies(w', r.token, now + life) && forall later :: later > now + life
                                                                     ==> !Verifies(w', r.token, later))
  {
    Reachable(actions);
  }

  /** What a refused exchange leaves behind. One that comes too late for its session, or with a used
      token, ends the session, and the used token stays blocked for at least a minute and as long as it
      lives; one that is refused before the session is looked at changes nothing. */
  lemma RefusalsEnd(actions: seq<Action>, t: Token, life: real, now: real, later: real)
    ensures var w := Run(actions);
            var (w', r) := Act(w, Exchange(t, life, now));
            && (r == Refused(Expired) ==> Over(w', t.session) && w.sessions[t.session].expires <= now)
            && (r == Refused(Reused) ==> Over(w', t.session) && w.sessions[t.session].current != t.id
                                         && (later < now + 60.0 || later < t.expires ==> IsDenied(w', t, later)))
            && (r == Refused(BadToken) || r == Refused(Malformed) || r == Refused(Revoked) ==> w' == w)
            && (r == Refused(BadToken) <==> t !in w.issued || t.expires < now)
  {
    Reachable(actions);
  }

  /** A session that is not said to be active is over: over every run that goes on from there (to
      `q`) no token of it can be exchanged, and it is never said to be active again. */
  lemma AliveNoMore(actions: seq<Action>, p: nat, q: nat, now: real, later: real, t: Token)
    requires p < q <= |actions| && actions[p] == Check(t.session, now) && AnswerAt(actions, p) == Alive(false)
    requires t.session < Run(actions[..p]).next
    ensures !Exchangeable(Run(actions[..q]), t, later)
    ensures Act(Run(actions[..q]), Check(t.session, later)).1 == Alive(false)
  {
    hide Act;
    assert actions[..p + 1][..p] == actions[..p];
    CheckEnds(Run(actions[..p]), t.session, now);
    StaysOver(actions, p + 1, q, t.session);
    NotAlive(Run(actions[..q]), t.session, later);
  }

  /** The session has been given out, and it is not active. */
  predicate Over(w: World, sid: nat) {
    sid < w.next && (sid in w.sessions ==> !w.sessions[sid].active)
  }

  lemma CheckEnds(w: World, sid: nat, now: real)
    requires sid < w.next && Act(w, Check(sid, now)).1 == Alive(false)
    ensures Over(Act(w, Check(sid, now)).0, sid)
  {
  }

  lemma NotAlive(w: World, sid: nat, now: real)
    requires Over(w, sid)
    ensures Act(w, Check(sid, now)).1 == Alive(false)
  {
  }

  lemma {:induction false} StaysOver(actions: seq<Action>, p: nat, q: nat, sid: nat)
    requires p <= q <= |actions| && Over(Run(actions[..p]), sid)
    ensures Over(Run(actions[..q]), sid)
    decreases q
  {
    hide Act;
    if p < q {
      StaysOver(actions, p, q - 1, sid);
      assert actions[..q][..q - 1] == actions[..q - 1];
      OverStep(Run(actions[..q - 1]), actions[q - 1], sid);
    }
  }

  lemma OverStep(w: World, a: Action, sid: nat)
    requires Over(w, sid)
    ensures Over(Act(w, a).0, sid)
  {
  }

  /** Asking changes nothing but a session that is over: who is active stays active, as long as time allows. */
  lemma CheckExact(w: World, sid: nat, now: real, other: nat, later: real)
    requires now <= later || other != sid
    ensures Act(Act(w, Check(sid, now)).0, Check(other, later)).1 == Act(w, Check(other, later)).1
    ensures Act(w, Check(sid, now)).1 == Alive(true)
       <==> sid in w.sessions && w.sessions[sid].active && now < w.sessions[sid].expires
  {
  }

  /** Revoking ends the listed sessions at once, for good, and no others. */
  lemma RevokeEnds(actions: seq<Action>, p: nat, q: nat, ids: set<nat>, sid: nat, later: real)
    requires p < q <= |actions| && actions[p] == Revoke(ids) && sid in Run(actions[..p]).sessions
    ensures sid in ids ==> Act(Run(actions[..q]), Check(sid, later)).1 == Alive(false)
    ensures sid !in ids ==>
              Act(Run(actions[..p + 1]), Check(sid, later)).1 == Act(Run(actions[..p]), Check(sid, later)).1
  {
    hide Act;
    assert actions[..p + 1][..p] == actions[..p];
    Reachable(actions[..p]);
    RevokedOver(Run(actions[..p]), ids, sid, later);
    if sid in ids {
      StaysOver(actions, p + 1, q, sid);
      NotAlive(Run(actions[..q]), sid, later);
    }
  }

  lemma RevokedOver(w: World, ids: set<nat>, sid: nat, later: real)
    requires Inv(w) && sid in w.sessions
    ensures var w' := Act(w, Revoke(ids)).0;
            if sid in ids then Over(w', sid) else Act(w', Check(sid, later)).1 == Act(w, Check(sid, later)).1
  {
  }

  /** A blocked token cannot be exchanged for the time of its blocking, at least a second; the
      blocking makes no difference to any other token. */
  lemma BlockDenies(w: World, t: Token, time: real, now: real, later: real, other: Token)
    requires t.id < w.next
    ensures var w' := Act(w, Action.Block(t, time, now)).0;
            && (later < now + time || later < now + 1.0 ==> !Exchangeable(w', t, later))
            && (other != t ==> (Exchangeable(w', other, later) <==> Exchangeable(w, other, later)))
            && (later >= now + time && later >= now + 1.0 && Exchangeable(w, t, later) ==> Exchangeable(w', t, later))
  {
  }

  // The exchange as two steps: the lock is released between the rotation and the denylist.

  /** An exchange that has rotated its session to the id `next` and not yet looked at the denylist. */
  datatype Half = Half(token: Token, next: nat)

  datatype Split = Split(w: World, halves: seq<Half>)

  datatype Step =
    | Whole(a: Action)  // any action, an exchange included
    | Begin(token: Token, now: real)
    | Finish(k: nat, life: real, now: real)

  function Began(s: Split, t: Token, now: real): (Split, Answer) {
    if Presentable(s.w, t, now) then (Split(Rotated(s.w, t.session), s.halves + [Half(t, s.w.next)]), Done)
    else Entire(s, Exchange(t, 0.0, now))
  }

  function Entire(s: Split, a: Action): (Split, Answer) {
    var (w, r) := Act(s.w, a);
    (Split(w, s.halves), r)
  }

  function Finished(s: Split, k: nat, life: real, now: real): (Split, Answer)
    requires k < |s.halves|
  {
    var t, rest := s.halves[k].token, s.halves[..k] + s.halves[k + 1..];
    if IsDenied(s.w, t, now) then (Split(s.w, rest), Refused(Denied))
    else
      var given := Token(t.session, s.halves[k].next, t.user, if t.device == "" then "dispositivo_padrao" else t.device,
                         now + life);
      (Split(s.w.(denied := s.w.denied[t := now + Max(t.expires - now, 60.0)], issued := s.w.issued + {given},
       exchanged := s.w.exchanged + [t.id]), rest), Given(given))
  }

  function StepOf(s: Split, step: Step): (Split, Answer) {
    match step
    case Whole(a) => Entire(s, a)
    case Begin(t, now) => Began(s, t, now)
    case Finish(k, life, now) => if k < |s.halves| then Finished(s, k, life, now) else (s, Done)
  }

  function RunSteps(steps: seq<Step>): Split {
    if steps == [] then Split(START, []) else StepOf(RunSteps(steps[..|steps| - 1]), steps[|steps| - 1]).0
  }

  /** An id waiting to be given out is nobody's yet; the id it replaces is used up. */
  ghost predicate HalfOk(w: World, half: Half) {
    && half.next < w.next && half.token in w.issued && half.token.id !in w.exchanged && half.next !in w.exchanged
    && half.next != half.token.id
    && (forall t :: t in w.issued ==> t.id != half.next)
    && (forall sid :: sid in w.sessions ==>
                        w.sessions[sid].current != half.token.id
                        && (w.sessions[sid].current == half.next ==> sid == half.token.session))
  }

  ghost predicate Apart(halves: seq<Half>) {
    forall j, k :: 0 <= j < k < |halves|
                   ==> halves[j].next != halves[k].next && halves[j].token.id != halves[k].token.id
  }

  ghost predicate SplitInv(s: Split) {
    Inv(s.w) && Apart(s.halves) && forall k :: 0 <= k < |s.halves| ==> HalfOk(s.w, s.halves[k])
  }

  lemma StepKeeps(s: Split, step: Step)
    requires SplitInv(s)
    ensures SplitInv(StepOf(s, step).0)
  {
    hide SplitInv, Entire;
    match step
    case Whole(a) => EntireKeeps(s, a);
    case Begin(t, now) => if Presentable(s.w, t, now) {
      BeginKeeps(s, t, now);
    } else {
      EntireKeeps(s, Exchange(t, 0.0, now));
    }
    case Finish(k, life, now) => if k < |s.halves| { FinishKeeps(s, k, life, now); }
  }

  lemma EntireKeeps(s: Split, a: Action)
    requires SplitInv(s)
    ensures SplitInv(Entire(s, a).0)
  {
    hide Inv, HalfOk, Apart, Act;
    ActKeeps(s.w, a);
    forall k | 0 <= k < |s.halves| ensures HalfOk(Act(s.w, a).0, s.halves[k]) { HalfWaits(s.w, a, s.halves[k]); }
  }

  /** What an action does to the identifiers: the one it uses was current, those it makes
      current or gives out are new. */
  ghost predicate Effect(w: World, w': World, used: Option<nat>) {
    && w.next <= w'.next && w.issued <= w'.issued
    && (forall t :: t in w'.issued && t !in w.issued ==> t.id >= w.next)
    && w'.exchanged == w.exchanged + (if used.Some? then [used.value] else [])
    && (used.Some? ==>
          exists t ::
            t in w.issued && t.session in w.sessions && w.sessions[t.session].current == t.id == used.value)
    && (forall sid :: sid in w'.sessions && w'.sessions[sid].current < w.next ==>
                        sid in w.sessions && w.sessions[sid].current == w'.sessions[sid].current)
  }

  lemma ActEffect(w: World, a: Action)
    ensures Effect(w, Act(w, a).0, if a.Exchange? && Act(w, a).1.Given? then Some(a.token.id) else None)
  {
    assert w.exchanged + [] == w.exchanged;
  }

  lemma HalfWaits(w: World, a: Action, half: Half)
    requires Inv(w) && HalfOk(w, half)
    ensures HalfOk(Act(w, a).0, half)
  {
    hide Act, Inv;
    ActEffect(w, a);
    HalfStays(w, Act(w, a).0, if a.Exchange? && Act(w, a).1.Given? then Some(a.token.id) else None, half);
  }

  lemma HalfStays(w: World, w': World, used: Option<nat>, half: Half)
    requires Inv(w) && HalfOk(w, half) && Effect(w, w', used)
    ensures HalfOk(w', half)
  {
    assert used.Some? ==> used.value != half.token.id && used.value != half.next;
  }

  lemma BeginKeeps(s: Split, t: Token, now: real)
    requires SplitInv(s) && Presentable(s.w, t, now)
    ensures SplitInv(Began(s, t, now).0)
  {
    var w', half := Rotated(s.w, t.session), Half(t, s.w.next);
    RotateKeeps(s.w, t.session);
    OldId(s.w, t);
    assert HalfOk(w', half);
    forall k | 0 <= k < |s.halves|
      ensures HalfOk(w', s.halves[k]) && s.halves[k].next != half.next && s.halves[k].token.id != t.id {
      assert HalfOk(s.w, s.halves[k]);
    }
  }

  lemma FinishKeeps(s: Split, k: nat, life: real, now: real)
    requires SplitInv(s) && k < |s.halves|
    ensures SplitInv(Finished(s, k, life, now).0)
  {
    hide Inv, HalfOk, Apart;
    var rest := s.halves[..k] + s.halves[k + 1..];
    RestApart(s.halves, k);
    if !IsDenied(s.w, s.halves[k].token, now) {
      var given := Finished(s, k, life, now).1.token;
      GivenKeeps(s.w, s.halves[k], given, Finished(s, k, life, now).0.w);
      forall j | 0 <= j < |rest| ensures HalfOk(Finished(s, k, life, now).0.w, rest[j]) {
        var i := if j < k then j else j + 1;
        assert rest[j] == s.halves[i];
        TwoApart(s.halves, k, i);
        OtherWaits(s.w, s.halves[k], s.halves[i], given, Finished(s, k, life, now).0.w);
      }
    }
  }

  lemma RestApart(halves: seq<Half>, k: nat)
    requires Apart(halves) && k < |halves|
    ensures Apart(halves[..k] + halves[k + 1..])
  {
  }

  lemma TwoApart(halves: seq<Half>, j: nat, k: nat)
    requires Apart(halves) && j < |halves| && k < |halves| && j != k
    ensures halves[j].next != halves[k].next && halves[j].token.id != halves[k].token.id
  {
  }

  lemma GivenKeeps(w: World, half: Half, given: Token, w': World)
    requires Inv(w) && HalfOk(w, half) && given.id == half.next && given.session == half.token.session
    requires w'.sessions == w.sessions && w'.next == w.next && w'.issued == w.issued + {given}
             && w'.exchanged == w.exchanged + [half.token.id]
    requires forall t :: t in w'.denied ==> t in w.denied || t == half.token
    ensures Inv(w')
  {
    IssueKeeps(w, given, half.next);
    LogKeeps(w.(issued := w.issued + {given}), half.token.id);
    SameCurrents(w.(issued := w.issued + {given}, exchanged := w.exchanged + [half.token.id]), w');
  }

  lemma OtherWaits(w: World, half: Half, other: Half, given: Token, w': World)
    requires HalfOk(w, half) && HalfOk(w, other) && half.next != other.next && half.token.id != other.token.id
             && given.id == half.next
    requires w'.sessions == w.sessions && w'.next == w.next && w'.issued == w.issued + {given}
             && w'.exchanged == w.exchanged + [half.token.id]
    ensures HalfOk(w', other)
  {
    assert half.token in w.issued && other.next != half.token.id;
  }

  lemma {:induction false} SplitReachable(steps: seq<Step>)
    ensures SplitInv(RunSteps(steps))
    decreases |steps|
  {
    if steps != [] {
      SplitReachable(steps[..|steps| - 1]);
      StepKeeps(RunSteps(steps[..|steps| - 1]), steps[|steps| - 1]);
    }
  }

  /** The id a step exchanges, if it gives out a token for it. */
  function Used(s: Split, step: Step): Option<nat> {
    if !StepOf(s, step).1.Given? then None
    else if step.Finish? && step.k < |s.halves| then Some(s.halves[step.k].token.id)
    else if step.Whole? && step.a.Exchange? then Some(step.a.token.id)
    else None
  }

  /** Over a whole run no refresh id is exchanged twice, even when exchanges overlap. */
  lemma ExchangedOnceSplit(steps: seq<Step>, p: nat, q: nat)
    requires p < q < |steps| && Used(RunSteps(steps[..p]), steps[p]).Some? && Used(RunSteps(steps[..q]), steps[q]).Some?
    ensures Used(RunSteps(steps[..p]), steps[p]) != Used(RunSteps(steps[..q]), steps[q])
  {
    hide StepOf, Used, SplitInv;
    assert steps[..p + 1][..p] == steps[..p];
    UsedIsLogged(RunSteps(steps[..p]), steps[p]);
    SplitLogGrows(steps, p + 1, q);
    SplitReachable(steps[..q]);
    UsedIsNew(RunSteps(steps[..q]), steps[q]);
    InPrefix(RunSteps(steps[..p + 1]).w.exchanged, RunSteps(steps[..q]).w.exchanged,
             Used(RunSteps(steps[..p]), steps[p]).value);
  }

  lemma UsedIsLogged(s: Split, step: Step)
    ensures s.w.exchanged <= StepOf(s, step).0.w.exchanged
    ensures Used(s, step).Some? ==> Used(s, step).value in StepOf(s, step).0.w.exchanged
  {
  }

  lemma UsedIsNew(s: Split, step: Step)
    requires SplitInv(s) && Used(s, step).Some?
    ensures Used(s, step).value !in s.w.exchanged
  {
    if step.Finish? { assert HalfOk(s.w, s.halves[step.k]); } else { Current(s.w, step.a); }
  }

  lemma {:induction false} SplitLogGrows(steps: seq<Step>, p: nat, q: nat)
    requires p <= q <= |steps|
    ensures RunSteps(steps[..p]).w.exchanged <= RunSteps(steps[..q]).w.exchanged
    decreases q
  {
    hide StepOf;
    if p < q {
      SplitLogGrows(steps, p, q - 1);
      assert steps[..q][..q - 1] == steps[..q - 1];
      UsedIsLogged(RunSteps(steps[..q - 1]), steps[q - 1]);
    }
  }

  /** No step of overlapping exchanges makes a session active again. */
  lemma NeverRevivesSplit(steps: seq<Step>, step: Step, sid: nat)
    requires sid in RunSteps(steps).w.sessions
    ensures var before, after := RunSteps(steps).w, StepOf(RunSteps(steps), step).0.w;
            sid in after.sessions && (after.sessions[sid].active ==> before.sessions[sid].active)
  {
    SplitReachable(steps);
    if step.Whole? { NeverRevives(RunSteps(steps).w, step.a, sid); }
  }

  /** The two steps made one after the other are the exchange. */
  lemma InOneGo(s: Split, t: Token, life: real, now: real)
    requires Presentable(s.w, t, now)
    ensures Finished(Began(s, t, now).0, |s.halves|, life, now)
         == (Split(Act(s.w, Exchange(t, life, now)).0, s.halves), Act(s.w, Exchange(t, life, now)).1)
  {
    var halves := s.halves + [Half(t, s.w.next)];
    assert halves[..|s.halves|] + halves[|s.halves| + 1..] == s.halves;
  }

  /** A token presented a second time between the two steps of its exchange: both are refused,
      and the session has ended. */
  lemma BothRefused(s: Split, t: Token, now: real, later: real, life: real)
    requires SplitInv(s) && Presentable(s.w, t, now) && later < now + 60.0
    ensures var first := Began(s, t, now).0;
            var (second, r) := Began(first, t, now);
            var (third, r') := Finished(second, |s.halves|, life, later);
            r == Refused(Reused) && r' == Refused(Denied) && t.session in third.w.sessions
            && !third.w.sessions[t.session].active
  {
    OldId(s.w, t);
  }

  // The store as it is written; `issued` stands for the signing key, which only the
  // tokens it signed satisfy.

  class Store {
    var sessions: map<nat, Session>
    var issued: set<Token>
    var denied: map<Token, real>
    var next: nat
    ghost var exchanged: seq<nat>

    constructor ()
      ensures Now() == START
    {
      sessions, issued, denied, next, exchanged := map[], {}, map[], 0, [];
    }

    ghost function Now(): World
      reads this
    {
      World(sessions, issued, denied, next, exchanged)
    }

    method NewId() returns (id: nat)
      modifies this`next
      ensures id == old(next) && next == id + 1
    {
      id := next;
      next := next + 1;
    }

    method Open(user: string, device: string, ttl: int, now: real) returns (r: Answer)
      modifies this
      ensures (Now(), r) == Act(old(Now()), Create(user, device, ttl, now))
    {
      if user == "" { return Refused(UserMissing); }
      var id := NewId();
      var current := NewId();
      var life := if ttl < 1 then 1 else ttl;
      sessions := sessions[id := Session(user, if device == "" then "dispositivo_padrao" else device, current, true,
                                         now + life as real)];
      r := Opened(id);
    }

    method IssueRefresh(sid: nat, user: string, given: Option<string>, life: real, now: real) returns (r: Answer)
      modifies this
      ensures (Now(), r) == Act(old(Now()), Issue(sid, user, given, life, now))
    {
      if sid !in sessions { return Refused(NoSession); }
      if !sessions[sid].active { return Refused(Revoked); }
      var id := NewId();
      var s := sessions[sid];
      sessions := sessions[sid := s.(current := id)];
      var t := Token(sid, id, user, if given.Some? && given.value != "" then given.value else s.device, now + life);
      issued := issued + {t};
      r := Given(t);
    }

    method BlockToken(t: Token, time: real, now: real)
      modifies this`denied
      ensures denied == old(denied)[t := now + Max(time, 1.0)]
      ensures t.id < next ==> (Now(), Done) == Act(old(Now()), Action.Block(t, time, now))
    {
      denied := denied[t := now + Max(time, 1.0)];
    }

    method ExchangeRefresh(t: Token, life: real, now: real) returns (r: Answer)
      modifies this
      ensures (Now(), r) == Act(old(Now()), Exchange(t, life, now))
    {
      if t !in issued || now > t.expires { return Refused(BadToken); }
      if t.user == "" { return Refused(Malformed); }
      if t.session !in sessions || !sessions[t.session].active { return Refused(Revoked); }
      var s := sessions[t.session];
      if s.expires <= now {
        sessions := sessions[t.session := s.(active := false)];
        return Refused(Expired);
      }
      if t.id != s.current {
        sessions := sessions[t.session := s.(active := false)];
        BlockToken(t, Max(t.expires - now, 60.0), now);
        return Refused(Reused);
      }
      var id := NewId();
      sessions := sessions[t.session := s.(current := id)];
      if t in denied && denied[t] > now { return Refused(Denied); }
      BlockToken(t, Max(t.expires - now, 60.0), now);
      var given := Token(t.session, id, t.user, if t.device == "" then "dispositivo_padrao" else t.device, now + life);
      issued := issued + {given};
      exchanged := exchanged + [t.id];
      r := Given(given);
    }

    method IsActive(sid: nat, now: real) returns (r: Answer)
      modifies this
      ensures (Now(), r) == Act(old(Now()), Check(sid, now))
      ensures r == Alive(sid in old(sessions) && old(sessions)[sid].active && now < old(sessions)[sid].expires)
      ensures sid in sessions ==> (sessions[sid].active <==> r.yes)
    {
      if sid !in sessions || !sessions[sid].active { return Alive(false); }
      if sessions[sid].expires <= now {
        sessions := sessions[sid := sessions[sid].(active := false)];
        return Alive(false);
      }
      r := Alive(true);
    }

    /** Ends the listed sessions one by one and counts those that were active. */
    method RevokeAll(ids: seq<nat>) returns (total: nat)
      requires forall j, k :: 0 <= j < k < |ids| ==> ids[j] != ids[k]
      modifies this
      ensures Now() == Act(old(Now()), Revoke(Ids(ids))).0
      ensures total == |ActiveAmong(old(sessions), ids)|
      ensures forall sid :: sid in sessions <==> sid in old(sessions)
      ensures forall sid :: sid in sessions ==> sessions[sid] == if sid in ids then old(sessions)[sid].(active := false)
                                                                 else old(sessions)[sid]
    {
      hide RevokedIn, ActiveAmong, Ids;
      total := 0;
      ghost var before := sessions;
      NothingRevoked(before, ids);
      for k := 0 to |ids|
        invariant sessions == RevokedIn(before, Ids(ids[..k])) && total == |ActiveAmong(before, ids[..k])|
        invariant issued == old(issued) && denied == old(denied) && next == old(next) && exchanged == old(exchanged)
      {
        RevokeStep(before, ids, k);
        if ids[k] in sessions {
          if sessions[ids[k]].active { total := total + 1; }
          sessions := sessions[ids[k] := sessions[ids[k]].(active := false)];
        }
      }
      assert ids[..|ids|] == ids;
      AllRevoked(before, ids);
    }
  }

  lemma AllRevoked(sessions: map<nat, Session>, ids: seq<nat>)
    ensures var revoked := RevokedIn(sessions, Ids(ids));
            (forall sid :: sid in revoked <==> sid in sessions)
            && forall sid :: sid in revoked ==> revoked[sid] == if sid in ids then sessions[sid].(active := false)
                                                                else sessions[sid]
  {
  }

  lemma NothingRevoked(sessions: map<nat, Session>, ids: seq<nat>)
    ensures RevokedIn(sessions, Ids(ids[..0])) == sessions && ActiveAmong(sessions, ids[..0]) == {}
  {
  }

  lemma RevokeStep(sessions: map<nat, Session>, ids: seq<nat>, k: nat)
    requires k < |ids| && forall j :: 0 <= j < k ==> ids[j] != ids[k]
    ensures var now, next, id := RevokedIn(sessions, Ids(ids[..k])), RevokedIn(sessions, Ids(ids[..k + 1])), ids[k];
            && (if id in now then next == now[id := now[id].(active := false)] else next == now)
            && |ActiveAmong(sessions, ids[..k + 1])|
               == |ActiveAmong(sessions, ids[..k])| + (if id in now && now[id].active then 1 else 0)
  {
    assert ids[..k + 1] == ids[..k] + [ids[k]];
    var now, id := RevokedIn(sessions, Ids(ids[..k])), ids[k];
    if id in now && now[id].active {
      assert ActiveAmong(sessions, ids[..k + 1]) == ActiveAmong(sessions, ids[..k]) + {id};
    } else {
      assert ActiveAmong(sessions, ids[..k + 1]) == ActiveAmong(sessions, ids[..k]);
    }
  }

  function Ids(ids: seq<nat>): set<nat> {
    set id | id in ids
  }

  function ActiveAmong(sessions: map<nat, Session>, ids: seq<nat>): set<nat> {
    set id | id in ids && id in sessions && sessions[id].active
  }
}
