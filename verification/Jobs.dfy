/** The SQL job queue and workers that compete for its rows. Choosing a row and
    claiming it are separate steps, so that what a worker chose may have changed
    before it claims it; finishing a job and reprocessing dead ones are single steps. */
module Jobs {
  import opened Syntax

  datatype Status = Pending | Processing | Failed | Completed | Dead

  datatype Row = Row(status: Status, attempts: nat, retries: nat, created: real, availableAt: real, updated: real,
                     lease: Option<real>, key: Option<string>)

  type Table = map<nat, Row>

  /** A worker has chosen a row, as it was, or owns the job it has claimed. */
  datatype Worker = Free | Chose(id: nat, row: Row, at: real) | Owns(id: nat, attempts: nat, retries: nat)

  /** `claims` and `revivals` count, for every job, its claims and its reprocessings. */
  datatype World = World(rows: Table, workers: seq<Worker>, claims: map<nat, nat>, revivals: map<nat, nat>)

  datatype Action =
    | Enqueue(id: nat, retries: int, now: real, key: Option<string>)
    | Choose(w: nat, id: nat, now: real)
    | Claim(w: nat, lease: real)
    | Succeed(w: nat, now: real)
    | Fail(w: nat, now: real)
    | Crash(w: nat)
    | Reprocess(ids: set<nat>, now: real)

  predicate Waiting(s: Status) {
    s.Pending? || s.Failed?
  }

  predicate LeaseFree(r: Row, now: real) {
    r.lease.None? || r.lease.value <= now
  }

  predicate Eligible(r: Row, now: real) {
    Waiting(r.status) && r.availableAt <= now && LeaseFree(r, now)
  }

  /** The eligible row that was created first. */
  predicate IsNext(rows: Table, id: nat, now: real) {
    id in rows && Eligible(rows[id], now)
    && forall j :: j in rows && Eligible(rows[j], now) ==> rows[id].created <= rows[j].created
  }

  predicate KeyTaken(rows: Table, key: Option<string>) {
    key.Some? && exists j :: j in rows && rows[j].key == key
  }

  // The statements that change rows.

  function Enqueued(rows: Table, id: nat, retries: int, now: real, key: Option<string>): Table {
    if id in rows || KeyTaken(rows, key) then rows
    else rows[id := Row(Pending, 0, if retries < 0 then 0 else retries, now, now, now, None, key)]
  }

  predicate ClaimTakes(rows: Table, id: nat, at: real) {
    id in rows && Waiting(rows[id].status) && LeaseFree(rows[id], at)
  }

  /** The claim writes the number of attempts that the chosen row had, plus one. */
  function Claimed(rows: Table, id: nat, chosen: Row, at: real, lease: real): Table
    requires ClaimTakes(rows, id, at)
  {
    rows[id := rows[id].(status := Processing, attempts := chosen.attempts + 1, updated := at,
    lease := Some(at + lease))]
  }

  function Succeeded(rows: Table, id: nat, now: real): Table {
    if id in rows then rows[id := rows[id].(status := Completed, updated := now, lease := None)] else rows
  }

  /** A quarter of a second, doubled with every attempt, at most two seconds. */
  function Backoff(attempts: nat): real {
    if attempts <= 1 then 0.25 else if attempts == 2 then 0.5 else if attempts == 3 then 1.0 else 2.0
  }

  function FailedRow(rows: Table, id: nat, attempts: nat, retries: nat, now: real): Table {
    if id !in rows then rows
    else if attempts > retries then rows[id := rows[id].(status := Dead, updated := now, lease := None)]
    else rows[id := rows[id].(status := Failed, updated := now, lease := None, availableAt := now + Backoff(attempts))]
  }

  function Revived(rows: Table, ids: set<nat>, now: real): Table {
    map id | id in rows :: if id in ids && rows[id].status.Dead?
                           then rows[id].(status := Pending, availableAt := now, updated := now, lease := None)
                           else rows[id]
  }

  function Count(counts: map<nat, nat>, id: nat): nat {
    if id in counts then counts[id] else 0
  }

  function Bumped(counts: map<nat, nat>, ids: set<nat>): map<nat, nat> {
    map id | id in counts.Keys + ids :: Count(counts, id) + (if id in ids then 1 else 0)
  }

  // Steps.

  function Act(w: World, a: Action): World {
    match a
    case Enqueue(id, retries, now, key) => w.(rows := Enqueued(w.rows, id, retries, now, key))
    case Choose(i, id, now) =>
      if i < |w.workers| && w.workers[i].Free? && IsNext(w.rows, id, now)
      then w.(workers := w.workers[i := Chose(id, w.rows[id], now)]) else w
    case Claim(i, lease) =>
      if i < |w.workers| && w.workers[i].Chose? then
        var c := w.workers[i];
        if ClaimTakes(w.rows, c.id, c.at) then
          w.(rows := Claimed(w.rows, c.id, c.row, c.at, lease), claims := Bumped(w.claims, {c.id}),
          workers := w.workers[i := Owns(c.id, c.row.attempts + 1, c.row.retries)])
        else w.(workers := w.workers[i := Free])
      else w
    case Succeed(i, now) =>
      if i < |w.workers| && w.workers[i].Owns? then
        w.(rows := Succeeded(w.rows, w.workers[i].id, now), workers := w.workers[i := Free])
      else w
    case Fail(i, now) =>
      if i < |w.workers| && w.workers[i].Owns? then
        var o := w.workers[i];
        w.(rows := FailedRow(w.rows, o.id, o.attempts, o.retries, now), workers := w.workers[i := Free])
      else w
    case Crash(i) => if i < |w.workers| then w.(workers := w.workers[i := Free]) else w
    case Reprocess(ids, now) =>
      var dead := set id | id in ids && id in w.rows && w.rows[id].status.Dead?;
      w.(rows := Revived(w.rows, ids, now), revivals := Bumped(w.revivals, dead))
  }

  function Start(n: nat): World {
    World(map[], seq(n, _ => Free), map[], map[])
  }

  function Run(n: nat, actions: seq<Action>): World {
    if actions == [] then Start(n) else Act(Run(n, actions[..|actions| - 1]), actions[|actions| - 1])
  }

  // What every run keeps, whatever was chosen before.

  predicate RowOk(r: Row) {
    && (r.lease.Some? <==> r.status.Processing?)
    && (r.status.Failed? ==> r.attempts <= r.retries)
    && (r.status.Dead? ==> r.attempts > r.retries)
  }

  predicate WorkerOk(w: World, c: Worker) {
    match c
    case Free => true
    case Chose(id, row, _) => id in w.rows && row.retries == w.rows[id].retries && row.attempts <= Count(w.claims, id)
    case Owns(id, attempts, retries) =>
      id in w.rows && w.rows[id].status.Processing? && w.rows[id].attempts == attempts && w.rows[id].retries == retries
  }

  ghost predicate OneOwner(workers: seq<Worker>) {
    forall i, j :: 0 <= i < j < |workers| && workers[i].Owns? && workers[j].Owns? ==> workers[i].id != workers[j].id
  }

  ghost predicate KeysApart(rows: Table) {
    forall i, j :: i in rows && j in rows && i != j && rows[i].key.Some? ==> rows[i].key != rows[j].key
  }

  ghost predicate Inv(w: World) {
    && (forall id :: id in w.rows ==> RowOk(w.rows[id]) && w.rows[id].attempts <= Count(w.claims, id))
    && (forall i :: 0 <= i < |w.workers| ==> WorkerOk(w, w.workers[i]))
    && OneOwner(w.workers) && KeysApart(w.rows)
  }

  lemma ActKeeps(w: World, a: Action)
    requires Inv(w)
    ensures Inv(Act(w, a))
  {
    match a
    case Enqueue(id, retries, now, key) => EnqueueKeeps(w, a);
    case Choose(i, id, now) => ChooseKeeps(w, a);
    case Claim(i, lease) => ClaimKeeps(w, a);
    case Succeed(i, _) => EndKeeps(w, a);
    case Fail(i, now) => EndKeeps(w, a);
    case Crash(i) => EndKeeps(w, a);
    case Reprocess(ids, now) => ReprocessKeeps(w, a);
  }

  lemma EnqueueKeeps(w: World, a: Action)
    requires Inv(w) && a.Enqueue?
    ensures Inv(Act(w, a))
  {
    var w' := Act(w, a);
    forall i | 0 <= i < |w'.workers| ensures WorkerOk(w', w'.workers[i]) { assert WorkerOk(w, w.workers[i]); }
  }

  lemma ChooseKeeps(w: World, a: Action)
    requires Inv(w) && a.Choose?
    ensures Inv(Act(w, a))
  {
    var w' := Act(w, a);
    forall i | 0 <= i < |w'.workers| ensures WorkerOk(w', w'.workers[i]) { assert WorkerOk(w, w.workers[i]); }
  }

  /** One worker changes one row that no other worker owns. */
  lemma OneRow(w: World, i: nat, id: nat, r: Row, claims: map<nat, nat>, c: Worker)
    requires Inv(w) && i < |w.workers| && id in w.rows
    requires RowOk(r) && r.retries == w.rows[id].retries && r.key == w.rows[id].key && r.attempts <= Count(claims, id)
    requires forall j :: Count(w.claims, j) <= Count(claims, j)
    requires forall j :: 0 <= j < |w.workers| && j != i && w.workers[j].Owns? ==> w.workers[j].id != id
    requires c.Free? || (c.Owns? && c.id == id && r.status.Processing? && c.attempts == r.attempts
                         && c.retries == r.retries)
    ensures Inv(w.(rows := w.rows[id := r], claims := claims, workers := w.workers[i := c]))
  {
    var w' := w.(rows := w.rows[id := r], claims := claims, workers := w.workers[i := c]);
    forall k | 0 <= k < |w'.workers| ensures WorkerOk(w', w'.workers[k]) {
      assert k != i ==> WorkerOk(w, w.workers[k]);
    }
    assert forall k :: k in w'.rows ==> RowOk(w'.rows[k]) && w'.rows[k].attempts <= Count(w'.claims, k);
  }

  lemma BumpedCount(counts: map<nat, nat>, ids: set<nat>)
    ensures forall j :: Count(Bumped(counts, ids), j) == Count(counts, j) + (if j in ids then 1 else 0)
  {
  }

  /** A claim of a waiting row takes it from nobody. */
  lemma ClaimKeeps(w: World, a: Action)
    requires Inv(w) && a.Claim?
    ensures Inv(Act(w, a))
  {
    hide Bumped, RowOk;
    if a.w < |w.workers| && w.workers[a.w].Chose? {
      var c := w.workers[a.w];
      assert WorkerOk(w, c);
      if ClaimTakes(w.rows, c.id, c.at) {
        BumpedCount(w.claims, {c.id});
        forall j | 0 <= j < |w.workers| && w.workers[j].Owns? ensures w.workers[j].id != c.id {
          assert WorkerOk(w, w.workers[j]);
        }
        var r := Claimed(w.rows, c.id, c.row, c.at, a.lease)[c.id];
        assert RowOk(r) by { NowProcessing(r); }
        OneRow(w, a.w, c.id, r, Bumped(w.claims, {c.id}), Owns(c.id, c.row.attempts + 1, c.row.retries));
      } else {
        FreeKeeps(w, a.w);
      }
    }
  }

  lemma NowProcessing(r: Row)
    requires r.status.Processing? && r.lease.Some?
    ensures RowOk(r)
  {
  }

  lemma FreeKeeps(w: World, i: nat)
    requires Inv(w) && i < |w.workers|
    ensures Inv(w.(workers := w.workers[i := Free]))
  {
    var w' := w.(workers := w.workers[i := Free]);
    forall k | 0 <= k < |w'.workers| ensures WorkerOk(w', w'.workers[k]) { assert WorkerOk(w, w.workers[k]); }
  }

  lemma EndKeeps(w: World, a: Action)
    requires Inv(w) && (a.Succeed? || a.Fail? || a.Crash?)
    ensures Inv(Act(w, a))
  {
    if a.w < |w.workers| && (a.Crash? || w.workers[a.w].Owns?) {
      var c := w.workers[a.w];
      assert WorkerOk(w, c);
      if a.Crash? {
        FreeKeeps(w, a.w);
      } else {
        var rows := if a.Succeed? then Succeeded(w.rows, c.id, a.now)
        else FailedRow(w.rows, c.id, c.attempts, c.retries, a.now);
        OneRow(w, a.w, c.id, rows[c.id], w.claims, Free);
      }
    }
  }

  lemma ReprocessKeeps(w: World, a: Action)
    requires Inv(w) && a.Reprocess?
    ensures Inv(Act(w, a))
  {
    hide Bumped, RowOk;
    var w' := Act(w, a);
    forall i | 0 <= i < |w'.workers| ensures WorkerOk(w', w'.workers[i]) { assert WorkerOk(w, w.workers[i]); }
    forall id | id in w.rows ensures RowOk(w'.rows[id]) { RevivedOk(w.rows[id], w'.rows[id]); }
  }

  lemma RevivedOk(r: Row, r': Row)
    requires RowOk(r) && (r' == r || (r'.status.Pending? && r'.lease.None?))
    ensures RowOk(r')
  {
  }

  /** In every run: a job has at most one owner, exactly the jobs being processed hold a
      lease, a failed job has attempts left and a dead one has none, and no idempotency
      key is used twice. */
  lemma {:induction false} Lifecycle(n: nat, actions: seq<Action>)
    ensures Inv(Run(n, actions))
    decreases |actions|
  {
    if actions != [] {
      Lifecycle(n, actions[..|actions| - 1]);
      ActKeeps(Run(n, actions[..|actions| - 1]), actions[|actions| - 1]);
    }
  }

  // Attempts and claims.

  /** A claim that takes its row, and writes its number of attempts. */
  predicate Takes(w: World, a: Action) {
    a.Claim? && a.w < |w.workers| && w.workers[a.w].Chose? && ClaimTakes(w.rows, w.workers[a.w].id, w.workers[a.w].at)
  }

  /** The number of attempts that was chosen is still the row's. */
  predicate UpToDate(w: World, a: Action) {
    Takes(w, a) ==> w.workers[a.w].row.attempts == w.rows[w.workers[a.w].id].attempts
  }

  /** Every claim of a run that takes its row is up to date. */
  ghost predicate Current(n: nat, actions: seq<Action>) {
    forall k :: 0 <= k < |actions| ==> UpToDate(Run(n, actions[..k]), actions[k])
  }

  /** Every job has been claimed as often as its attempts say. */
  ghost predicate Counted(w: World) {
    forall id :: if id in w.rows then w.rows[id].attempts == Count(w.claims, id) else Count(w.claims, id) == 0
  }

  /** One step keeps the attempts right exactly when its claim, if any, is up to date. */
  lemma CountedStep(w: World, a: Action)
    requires Inv(w) && Counted(w)
    ensures Counted(Act(w, a)) <==> UpToDate(w, a)
  {
    hide Bumped, Inv, KeyTaken;
    match a
    case Claim(i, lease) =>
      if Takes(w, a) {
        var c := w.workers[i];
        BumpedCount(w.claims, {c.id});
        assert Act(w, a).rows[c.id].attempts == c.row.attempts + 1;
      }
    case Reprocess(ids, now) =>
    case _ =>
  }

  ghost predicate AlwaysCounted(n: nat, actions: seq<Action>) {
    forall k :: 0 <= k <= |actions| ==> Counted(Run(n, actions[..k]))
  }

  lemma CurrentSnoc(n: nat, before: seq<Action>, a: Action, actions: seq<Action>)
    requires actions == before + [a]
    ensures Current(n, actions) <==> Current(n, before) && UpToDate(Run(n, before), a)
    ensures AlwaysCounted(n, actions) <==> AlwaysCounted(n, before) && Counted(Run(n, actions))
    ensures Run(n, actions) == Act(Run(n, before), a)
  {
    hide UpToDate, Counted, Act, Current, AlwaysCounted;
    ClaimsSnoc(n, before, a, actions);
    CountsSnoc(n, before, a, actions);
    assert actions[..|before|] == before;
  }

  lemma ClaimsSnoc(n: nat, before: seq<Action>, a: Action, actions: seq<Action>)
    requires actions == before + [a]
    ensures Current(n, actions) <==> Current(n, before) && UpToDate(Run(n, before), a)
  {
    hide UpToDate, Run;
    forall k | 0 <= k < |actions|
      ensures UpToDate(Run(n, actions[..k]), actions[k])
         <==> if k < |before| then UpToDate(Run(n, before[..k]), before[k]) else UpToDate(Run(n, before), a)
    {
      assert actions[..k] == before[..k];
      assert before[..|before|] == before;
    }
    assert UpToDate(Run(n, actions[..|before|]), actions[|before|]) <==> UpToDate(Run(n, before), a);
  }

  lemma CountsSnoc(n: nat, before: seq<Action>, a: Action, actions: seq<Action>)
    requires actions == before + [a]
    ensures AlwaysCounted(n, actions) <==> AlwaysCounted(n, before) && Counted(Run(n, actions))
  {
    hide Counted, Run;
    var m := |actions|;
    assert actions[..m] == actions;
    forall k | 0 <= k < m ensures actions[..k] == before[..k] {}
    if AlwaysCounted(n, actions) {
      forall k | 0 <= k <= |before| ensures Counted(Run(n, before[..k])) { assert Counted(Run(n, actions[..k])); }
      assert Counted(Run(n, actions[..m]));
    }
    if AlwaysCounted(n, before) && Counted(Run(n, actions)) {
      forall k | 0 <= k <= m ensures Counted(Run(n, actions[..k])) { assert k < m ==> Counted(Run(n, before[..k])); }
    }
  }

  /** In every run: the attempts are right after every step exactly when every claim that took
      its row found the number of attempts it had chosen. */
  lemma {:induction false} CountedExact(n: nat, actions: seq<Action>)
    ensures AlwaysCounted(n, actions) <==> Current(n, actions)
    decreases |actions|
  {
    hide Act, Counted, UpToDate, Current, AlwaysCounted, Run;
    if actions == [] {
      NothingCounted(n);
    } else {
      var before, a := actions[..|actions| - 1], actions[|actions| - 1];
      CountedExact(n, before);
      Lifecycle(n, before);
      CurrentSnoc(n, before, a, actions);
      if AlwaysCounted(n, before) {
        LastCounted(n, before);
        CountedStep(Run(n, before), a);
      }
    }
  }

  lemma LastCounted(n: nat, actions: seq<Action>)
    requires AlwaysCounted(n, actions)
    ensures Counted(Run(n, actions))
  {
    hide Counted;
    assert actions[..|actions|] == actions;
  }

  lemma NothingCounted(n: nat)
    ensures AlwaysCounted(n, []) && Current(n, [])
  {
  }

  predicate Bounded(r: Row, claims: nat, revivals: nat) {
    && r.attempts == claims
    && (r.status.Pending? ==> claims <= r.retries + revivals)
    && claims <= r.retries + 1 + revivals
  }

  ghost predicate AllBounded(w: World) {
    && (forall id :: id in w.rows ==> Bounded(w.rows[id], Count(w.claims, id), Count(w.revivals, id)))
    && (forall id :: id !in w.rows ==> Count(w.claims, id) == 0)
  }

  lemma BoundedKeeps(w: World, a: Action)
    requires Inv(w) && AllBounded(w) && UpToDate(w, a)
    ensures AllBounded(Act(w, a))
  {
    hide Inv, AllBounded;
    match a
    case Enqueue(_, _, _, _) => QuietBounded(w, a);
    case Choose(_, _, _) => QuietBounded(w, a);
    case Crash(_) => QuietBounded(w, a);
    case Reprocess(_, _) => ReprocessBounded(w, a);
    case Claim(_, _) => ClaimBounded(w, a);
    case Succeed(_, _) => EndBounded(w, a);
    case Fail(_, _) => EndBounded(w, a);
  }

  lemma QuietBounded(w: World, a: Action)
    requires AllBounded(w) && (a.Enqueue? || a.Choose? || a.Crash?)
    ensures AllBounded(Act(w, a))
  {
    hide KeyTaken, IsNext;
  }

  lemma ReprocessBounded(w: World, a: Action)
    requires Inv(w) && AllBounded(w) && a.Reprocess?
    ensures AllBounded(Act(w, a))
  {
    hide Bumped;
    var dead := set id | id in a.ids && id in w.rows && w.rows[id].status.Dead?;
    var w' := Act(w, a);
    BumpedCount(w.revivals, dead);
    forall id | id in w'.rows ensures Bounded(w'.rows[id], Count(w'.claims, id), Count(w'.revivals, id)) {
      assert Bounded(w.rows[id], Count(w.claims, id), Count(w.revivals, id)) && RowOk(w.rows[id]);
    }
  }

  lemma ClaimBounded(w: World, a: Action)
    requires Inv(w) && AllBounded(w) && a.Claim? && UpToDate(w, a)
    ensures AllBounded(Act(w, a))
  {
    hide Bumped;
    var w' := Act(w, a);
    if Takes(w, a) {
      var c := w.workers[a.w];
      BumpedCount(w.claims, {c.id});
      forall id | id in w'.rows ensures Bounded(w'.rows[id], Count(w'.claims, id), Count(w'.revivals, id)) {
        assert Bounded(w.rows[id], Count(w.claims, id), Count(w.revivals, id)) && RowOk(w.rows[id]);
      }
    }
  }

  lemma EndBounded(w: World, a: Action)
    requires Inv(w) && AllBounded(w) && (a.Succeed? || a.Fail?)
    ensures AllBounded(Act(w, a))
  {
    var w' := Act(w, a);
    if a.w < |w.workers| { assert WorkerOk(w, w.workers[a.w]); }
    forall id | id in w'.rows ensures Bounded(w'.rows[id], Count(w'.claims, id), Count(w'.revivals, id)) {
      assert Bounded(w.rows[id], Count(w.claims, id), Count(w.revivals, id)) && RowOk(w.rows[id]);
    }
  }

  lemma {:induction false} CurrentRuns(n: nat, actions: seq<Action>)
    requires Current(n, actions)
    ensures AllBounded(Run(n, actions))
    decreases |actions|
  {
    hide Bounded, UpToDate, Act, Current;
    if actions != [] {
      var before, a := actions[..|actions| - 1], actions[|actions| - 1];
      CurrentSnoc(n, before, a, actions);
      CurrentRuns(n, before);
      Lifecycle(n, before);
      BoundedKeeps(Run(n, before), a);
    }
  }

  /** When every claim is up to date, a job has been claimed exactly as often as its attempts
      say, and at most once more than its retries and its reprocessings allow. */
  lemma ClaimBound(n: nat, actions: seq<Action>, id: nat)
    requires Current(n, actions) && id in Run(n, actions).rows
    ensures var w := Run(n, actions);
            && Count(w.claims, id) == w.rows[id].attempts
            && Count(w.claims, id) <= w.rows[id].retries + 1 + Count(w.revivals, id)
  {
    CurrentRuns(n, actions);
  }

  // When choosing and claiming are one transaction.

  /** Every claim directly follows its choice, and every choice is directly claimed. */
  predicate Atomic(actions: seq<Action>) {
    && (forall k :: 0 <= k < |actions| && actions[k].Claim? ==>
                      k > 0 && actions[k - 1].Choose? && actions[k - 1].w == actions[k].w)
    && (forall k :: 0 <= k < |actions| - 1 && actions[k].Choose? ==>
                      actions[k + 1].Claim? && actions[k + 1].w == actions[k].w)
  }

  /** The only choice in progress is the one just made, and it is up to date. */
  ghost predicate OnlyChosen(w: World, last: Option<Action>) {
    forall i :: 0 <= i < |w.workers| && w.workers[i].Chose? ==>
                  last.Some? && last.value.Choose? && last.value.w == i
                  && w.workers[i].id in w.rows && w.workers[i].row == w.rows[w.workers[i].id]
  }

  lemma ChosenStep(w: World, last: Option<Action>, a: Action)
    requires OnlyChosen(w, last)
    requires a.Claim? ==> last.Some? && last.value.Choose? && last.value.w == a.w
    requires last.Some? && last.value.Choose? ==> a.Claim? && last.value.w == a.w
    ensures OnlyChosen(Act(w, a), Some(a)) && UpToDate(w, a)
  {
    hide Bumped, KeyTaken, Claimed, Revived, Enqueued, Succeeded, FailedRow;
  }

  /** Atomic claims are up to date. */
  lemma {:induction false} AtomicIsCurrent(n: nat, actions: seq<Action>)
    requires Atomic(actions)
    ensures Current(n, actions)
    ensures OnlyChosen(Run(n, actions), if actions == [] then None else Some(actions[|actions| - 1]))
    decreases |actions|
  {
    hide UpToDate, OnlyChosen, Act, Current, AlwaysCounted;
    if actions == [] {
      NobodyChose(n);
    } else {
      var k := |actions| - 1;
      var before := actions[..k];
      assert forall j :: 0 <= j < k ==> before[j] == actions[j];
      AtomicIsCurrent(n, before);
      CurrentSnoc(n, before, actions[k], actions);
      ChosenStep(Run(n, before), if before == [] then None else Some(before[k - 1]), actions[k]);
    }
  }

  lemma NobodyChose(n: nat)
    ensures OnlyChosen(Run(n, []), None) && Current(n, [])
  {
  }

  /** A run in which they are not: a stale choice writes an old number of attempts: a job with one retry
      is claimed three times and still shows a single attempt. */
  lemma StaleChoice()
    ensures var actions := [Enqueue(0, 1, 0.0, None), Choose(0, 0, 0.0), Choose(1, 0, 0.0), Choose(2, 0, 0.0),
                            Claim(0, 1.0), Fail(0, 0.0), Claim(1, 1.0), Fail(1, 0.0), Claim(2, 1.0)];
            var w := Run(3, actions);
            0 in w.rows && w.rows[0].attempts == 1 && w.rows[0].retries == 1 && Count(w.claims, 0) == 3
            && Count(w.revivals, 0) == 0
  {
    hide Run, Act;
    var actions := [Enqueue(0, 1, 0.0, None), Choose(0, 0, 0.0), Choose(1, 0, 0.0), Choose(2, 0, 0.0),
                    Claim(0, 1.0), Fail(0, 0.0), Claim(1, 1.0), Fail(1, 0.0), Claim(2, 1.0)];
    var queued := Row(Pending, 0, 1, 0.0, 0.0, 0.0, None, None);
    var busy := Row(Processing, 1, 1, 0.0, 0.0, 0.0, Some(1.0), None);
    var failed := Row(Failed, 1, 1, 0.0, 0.25, 0.0, None, None);
    var again := busy.(availableAt := 0.25);
    var c, o := Chose(0, queued, 0.0), Owns(0, 1, 1);
    ChoicesMade(queued, c);
    ClaimsMade(queued, busy, again, failed, c, o);
    NoActions();
    Next(actions, 0, World(map[], [Free, Free, Free], map[], map[]),
         World(map[0 := queued], [Free, Free, Free], map[], map[]));
    Next(actions, 1, World(map[0 := queued], [Free, Free, Free], map[], map[]),
         World(map[0 := queued], [c, Free, Free], map[], map[]));
    Next(actions, 2, World(map[0 := queued], [c, Free, Free], map[], map[]),
         World(map[0 := queued], [c, c, Free], map[], map[]));
    Next(actions, 3, World(map[0 := queued], [c, c, Free], map[], map[]),
         World(map[0 := queued], [c, c, c], map[], map[]));
    Next(actions, 4, World(map[0 := queued], [c, c, c], map[], map[]),
         World(map[0 := busy], [o, c, c], map[0 := 1], map[]));
    Next(actions, 5, World(map[0 := busy], [o, c, c], map[0 := 1], map[]),
         World(map[0 := failed], [Free, c, c], map[0 := 1], map[]));
    Next(actions, 6, World(map[0 := failed], [Free, c, c], map[0 := 1], map[]),
         World(map[0 := again], [Free, o, c], map[0 := 2], map[]));
    Next(actions, 7, World(map[0 := again], [Free, o, c], map[0 := 2], map[]),
         World(map[0 := failed], [Free, Free, c], map[0 := 2], map[]));
    Next(actions, 8, World(map[0 := failed], [Free, Free, c], map[0 := 2], map[]),
         World(map[0 := again], [Free, Free, o], map[0 := 3], map[]));
    assert actions[..9] == actions;
  }

  lemma NoActions()
    ensures Run(3, []) == World(map[], [Free, Free, Free], map[], map[])
  {
  }

  lemma Next(actions: seq<Action>, k: nat, w: World, w': World)
    requires k < |actions| && Run(3, actions[..k]) == w && Act(w, actions[k]) == w'
    ensures Run(3, actions[..k + 1]) == w'
  {
    hide Act;
    assert actions[..k + 1][..k] == actions[..k];
  }

  lemma ChoicesMade(queued: Row, c: Worker)
    requires queued == Row(Pending, 0, 1, 0.0, 0.0, 0.0, None, None) && c == Chose(0, queued, 0.0)
    ensures Act(World(map[], [Free, Free, Free], map[], map[]), Enqueue(0, 1, 0.0, None))
         == World(map[0 := queued], [Free, Free, Free], map[], map[])
    ensures Act(World(map[0 := queued], [Free, Free, Free], map[], map[]), Choose(0, 0, 0.0))
         == World(map[0 := queued], [c, Free, Free], map[], map[])
    ensures Act(World(map[0 := queued], [c, Free, Free], map[], map[]), Choose(1, 0, 0.0))
         == World(map[0 := queued], [c, c, Free], map[], map[])
    ensures Act(World(map[0 := queued], [c, c, Free], map[], map[]), Choose(2, 0, 0.0))
         == World(map[0 := queued], [c, c, c], map[], map[])
  {
  }

  lemma ClaimsMade(queued: Row, busy: Row, again: Row, failed: Row, c: Worker, o: Worker)
    requires queued == Row(Pending, 0, 1, 0.0, 0.0, 0.0, None, None)
             && busy == Row(Processing, 1, 1, 0.0, 0.0, 0.0, Some(1.0), None)
    requires again == busy.(availableAt := 0.25) && failed == Row(Failed, 1, 1, 0.0, 0.25, 0.0, None, None)
             && c == Chose(0, queued, 0.0) && o == Owns(0, 1, 1)
    ensures Act(World(map[0 := queued], [c, c, c], map[], map[]), Claim(0, 1.0))
         == World(map[0 := busy], [o, c, c], map[0 := 1], map[])
    ensures Act(World(map[0 := busy], [o, c, c], map[0 := 1], map[]), Fail(0, 0.0))
         == World(map[0 := failed], [Free, c, c], map[0 := 1], map[])
    ensures Act(World(map[0 := failed], [Free, c, c], map[0 := 1], map[]), Claim(1, 1.0))
         == World(map[0 := again], [Free, o, c], map[0 := 2], map[])
    ensures Act(World(map[0 := again], [Free, o, c], map[0 := 2], map[]), Fail(1, 0.0))
         == World(map[0 := failed], [Free, Free, c], map[0 := 2], map[])
    ensures Act(World(map[0 := failed], [Free, Free, c], map[0 := 2], map[]), Claim(2, 1.0))
         == World(map[0 := again], [Free, Free, o], map[0 := 3], map[])
  {
    assert [c, c, c][0 := o] == [o, c, c] && [o, c, c][0 := Free] == [Free, c, c]
           && [Free, c, c][1 := o] == [Free, o, c];
    assert [Free, o, c][1 := Free] == [Free, Free, c] && [Free, Free, c][2 := o] == [Free, Free, o];
    OneClaim(map[], 0, queued, [c, c, c], 0, c);
    OneFailure(map[0 := 1], busy, [o, c, c], 0);
    OneClaim(map[0 := 1], 1, failed, [Free, c, c], 1, c);
    OneFailure(map[0 := 2], again, [Free, o, c], 1);
    OneClaim(map[0 := 2], 2, failed, [Free, Free, c], 2, c);
  }

  lemma OneClaim(claims: map<nat, nat>, n: nat, r: Row, workers: seq<Worker>, i: nat, c: Worker)
    requires i < |workers| && workers[i] == c && c.Chose? && c.id == 0 && c.row.attempts == 0 && c.row.retries == 1
             && c.at == 0.0
    requires Waiting(r.status) && r.lease.None? && r.updated == 0.0 && r.retries == 1
             && (if n == 0 then claims == map[] else claims == map[0 := n])
    ensures Act(World(map[0 := r], workers, claims, map[]), Claim(i, 1.0))
         == World(map[0 := r.(status := Processing, attempts := 1, lease := Some(1.0))], workers[i := Owns(0, 1, 1)],
                  map[0 := n + 1], map[])
  {
    assert Bumped(claims, {0}) == map[0 := n + 1];
    var r' := r.(status := Processing, attempts := 1, lease := Some(1.0));
    assert map[0 := r][0 := r'] == map[0 := r'];
  }

  lemma OneFailure(claims: map<nat, nat>, r: Row, workers: seq<Worker>, i: nat)
    requires i < |workers| && workers[i] == Owns(0, 1, 1)
    requires r.updated == 0.0
    ensures Act(World(map[0 := r], workers, claims, map[]), Fail(i, 0.0))
         == World(map[0 := r.(status := Failed, lease := None, availableAt := 0.25)], workers[i := Free], claims, map[])
  {
    var r' := r.(status := Failed, lease := None, availableAt := 0.25);
    assert map[0 := r][0 := r'] == map[0 := r'];
  }

  function Ids(ids: seq<nat>): set<nat> {
    set id: nat | id in ids
  }

  function DeadIds(rows: Table): set<nat> {
    set id | id in rows && rows[id].status.Dead?
  }

  /** Dead jobs, none of which was updated after one that is left out. */
  predicate FirstDead(rows: Table, ids: set<nat>) {
    ids <= DeadIds(rows) && forall i, j :: i in ids && j in DeadIds(rows) - ids ==> rows[i].updated <= rows[j].updated
  }

  lemma FirstDeadIs(rows: Table)
    ensures forall ids :: FirstDead(rows, ids) ==> forall i :: i in ids ==> i in rows && rows[i].status.Dead?
    ensures forall ids, i, j :: FirstDead(rows, ids) && i in ids && j in rows && j !in ids && rows[j].status.Dead? ==>
                                  rows[i].updated <= rows[j].updated
  {
  }

  predicate Distinct(ids: seq<nat>) {
    forall j, k :: 0 <= j < k < |ids| ==> ids[j] != ids[k]
  }

  /** The chosen jobs are in order, and those left come after them. */
  ghost predicate Selected(rows: Table, chosen: seq<nat>, left: set<nat>) {
    && left == DeadIds(rows) - Ids(chosen) && Distinct(chosen) && left <= rows.Keys
    && (forall k :: 0 <= k < |chosen| ==> chosen[k] in DeadIds(rows))
    && (forall j, k :: 0 <= j < k < |chosen| ==> rows[chosen[j]].updated <= rows[chosen[k]].updated)
    && (forall k, j :: 0 <= k < |chosen| && j in left ==> rows[chosen[k]].updated <= rows[j].updated)
  }

  lemma SelectNone(rows: Table)
    ensures Selected(rows, [], DeadIds(rows)) && DeadIds(rows) <= rows.Keys
  {
  }

  lemma SelectMore(rows: Table, chosen: seq<nat>, left: set<nat>, id: nat)
    requires Selected(rows, chosen, left) && id in left && forall j :: j in left ==> rows[id].updated <= rows[j].updated
    ensures Selected(rows, chosen + [id], left - {id})
  {
    hide DeadIds;
    var more := chosen + [id];
    assert Ids(more) == Ids(chosen) + {id};
  }

  lemma AllSelected(rows: Table, chosen: seq<nat>, left: set<nat>)
    requires Selected(rows, chosen, left)
    ensures Distinct(chosen) && FirstDead(rows, Ids(chosen)) && left == DeadIds(rows) - Ids(chosen)
    ensures forall k :: 0 <= k < |chosen| ==> chosen[k] in DeadIds(rows)
  {
  }

  lemma RevivedOne(rows: Table, ids: seq<nat>, k: nat, now: real)
    requires k < |ids| && Distinct(ids) && ids[k] in DeadIds(rows)
    ensures var before, next := Revived(rows, Ids(ids[..k]), now), Revived(rows, Ids(ids[..k + 1]), now);
            && ids[k] in before
            && next == before[ids[k] := before[ids[k]].(status := Pending, availableAt := now, updated := now,
                       lease := None)]
  {
    assert ids[..k + 1] == ids[..k] + [ids[k]];
    assert ids[k] !in Ids(ids[..k]);
  }

  lemma {:induction false} IdsCount(ids: seq<nat>)
    requires Distinct(ids)
    ensures |Ids(ids)| == |ids|
    decreases |ids|
  {
    if ids != [] {
      IdsCount(ids[..|ids| - 1]);
      assert Ids(ids) == Ids(ids[..|ids| - 1]) + {ids[|ids| - 1]};
    }
  }

  // How a job begins, ends and comes back.

  predicate OwnerOf(w: World, i: nat, id: nat) {
    i < |w.workers| && w.workers[i].Owns? && w.workers[i].id == id
  }

  /** The tables agree on every job but one. */
  ghost predicate SameBut(rows: Table, rows': Table, id: nat) {
    forall j :: j != id ==> (j in rows' <==> j in rows) && (j in rows ==> rows'[j] == rows[j])
  }

  /** A new job is eligible from now on, with no attempts; one whose key is taken changes nothing. */
  lemma EnqueueWaits(w: World, id: nat, retries: int, now: real, key: Option<string>)
    requires id !in w.rows
    ensures var rows := Act(w, Enqueue(id, retries, now, key)).rows;
            if key.Some? && exists j :: j in w.rows && w.rows[j].key == key then rows == w.rows
            else
              && id in rows && rows[id].attempts == 0 && rows[id].key == key && SameBut(w.rows, rows, id)
              && (retries >= 0 ==> rows[id].retries == retries) && (retries < 0 ==> rows[id].retries == 0)
              && forall t :: Eligible(rows[id], t) <==> t >= now
  {
  }

  /** A claim that takes its job makes the worker its owner, with a lease from the time of the choice;
      nobody else can take the job until it ends. */
  lemma ClaimOwns(w: World, i: nat, lease: real)
    requires Inv(w) && Takes(w, Claim(i, lease))
    ensures var id, at, w' := w.workers[i].id, w.workers[i].at, Act(w, Claim(i, lease));
            && OwnerOf(w', i, id) && id in w'.rows && w'.rows[id].status.Processing?
            && w'.rows[id].lease == Some(at + lease) && SameBut(w.rows, w'.rows, id)
            && Count(w'.claims, id) == Count(w.claims, id) + 1
            && forall t :: !Eligible(w'.rows[id], t) && !ClaimTakes(w'.rows, id, t)
  {
    assert WorkerOk(w, w.workers[i]);
    BumpedCount(w.claims, {w.workers[i].id});
    hide Bumped;
  }

  /** The owner's success completes its job and no other, and frees the worker. */
  lemma SucceedCompletes(w: World, i: nat, id: nat, now: real)
    requires Inv(w) && OwnerOf(w, i, id)
    ensures var w' := Act(w, Succeed(i, now));
            && id in w.rows && id in w'.rows && w'.rows[id].status.Completed?
            && w'.rows[id].attempts == w.rows[id].attempts
            && w'.workers[i].Free? && SameBut(w.rows, w'.rows, id)
  {
    assert WorkerOk(w, w.workers[i]);
  }

  /** A failure kills a job whose attempts exceed its retries; any other becomes eligible
      again when its time has passed, and not before. */
  lemma FailEnds(w: World, i: nat, id: nat, now: real)
    requires Inv(w) && OwnerOf(w, i, id)
    ensures var w' := Act(w, Fail(i, now));
            && id in w.rows && id in w'.rows && w'.rows[id].attempts == w.rows[id].attempts && w'.workers[i].Free?
            && SameBut(w.rows, w'.rows, id)
            && (w'.rows[id].status.Dead? <==> w.rows[id].attempts > w.rows[id].retries)
            && forall t :: Eligible(w'.rows[id], t)
                           <==> w.rows[id].attempts <= w.rows[id].retries && t >= now + Backoff(w.rows[id].attempts)
  {
    assert WorkerOk(w, w.workers[i]);
  }

  /** The wait doubles with every attempt, up to two seconds. */
  lemma BackoffDoubles(attempts: nat)
    requires attempts > 0
    ensures Backoff(0) == Backoff(1) == 0.25
    ensures Backoff(attempts + 1) == if 2.0 * Backoff(attempts) < 2.0 then 2.0 * Backoff(attempts) else 2.0
  {
  }

  /** Reprocessing makes exactly the listed dead jobs eligible, from now on. */
  lemma ReprocessRevives(w: World, ids: set<nat>, now: real, id: nat)
    requires id in w.rows
    ensures var rows := Act(w, Reprocess(ids, now)).rows;
            id in rows && rows[id].attempts == w.rows[id].attempts
            && if id in ids && w.rows[id].status.Dead? then forall t :: Eligible(rows[id], t) <==> t >= now
            else rows[id] == w.rows[id]
  {
  }

  /** While some job is eligible there is a next one. */
  lemma SomeNext(rows: Table, now: real)
    ensures (exists id :: id in rows && Eligible(rows[id], now)) <==> exists id :: IsNext(rows, id, now)
  {
    if id :| id in rows && Eligible(rows[id], now) {
      var eligible := set j | j in rows && Eligible(rows[j], now);
      assert id in eligible;
      var first := FirstOf(rows, eligible);
      assert IsNext(rows, first, now);
    }
  }

  lemma {:induction false} FirstOf(rows: Table, ids: set<nat>) returns (first: nat)
    requires ids != {} && ids <= rows.Keys
    ensures first in ids && forall j :: j in ids ==> rows[first].created <= rows[j].created
    decreases |ids|
  {
    first :| first in ids;
    var others := ids - {first};
    if others != {} {
      var next := FirstOf(rows, others);
      if rows[next].created < rows[first].created { first := next; }
      assert ids == others + {first} || first == next;
    }
  }

  /** Of two jobs that wait, the one that was added earlier is next before the other. */
  lemma EnqueuedFirst(w: World, a: nat, b: nat, retries: int, s: real, t: real, now: real)
    requires a !in w.rows && b !in w.rows && a != b && s < t <= now
    ensures var rows := Act(Act(w, Enqueue(a, retries, s, None)), Enqueue(b, retries, t, None)).rows;
            Eligible(rows[a], now) && Eligible(rows[b], now) && !IsNext(rows, b, now)
  {
    assert !KeyTaken(w.rows, None);
  }

  /** A job that is over: completed, or dead and not to be reprocessed. */
  predicate Over(w: World, id: nat) {
    id in w.rows && (w.rows[id].status.Completed? || w.rows[id].status.Dead?)
  }

  lemma OverStep(w: World, a: Action, id: nat)
    requires Inv(w) && Over(w, id)
    requires w.rows[id].status.Dead? && a.Reprocess? ==> id !in a.ids
    ensures var w' := Act(w, a);
            id in w'.rows && w'.rows[id] == w.rows[id] && Count(w'.claims, id) == Count(w.claims, id)
  {
    hide KeyTaken, IsNext, Bumped;
    match a
    case Claim(i, _) =>
      if i < |w.workers| && w.workers[i].Chose? { BumpedCount(w.claims, {w.workers[i].id}); }
    case Succeed(i, _) => if i < |w.workers| { assert WorkerOk(w, w.workers[i]); }
    case Fail(i, _) => if i < |w.workers| { assert WorkerOk(w, w.workers[i]); }
    case _ =>
  }

  /** A job that is over stays as it is, is never next and never claimed again, over every run
      that goes on from there; a dead one unless it is reprocessed. */
  lemma {:induction false} StaysOver(n: nat, actions: seq<Action>, p: nat, q: nat, id: nat)
    requires p <= q <= |actions| && Over(Run(n, actions[..p]), id)
    requires Run(n, actions[..p]).rows[id].status.Dead? ==>
               forall k :: p <= k < q && actions[k].Reprocess? ==> id !in actions[k].ids
    ensures var w, w' := Run(n, actions[..p]), Run(n, actions[..q]);
            && id in w'.rows && w'.rows[id] == w.rows[id] && Count(w'.claims, id) == Count(w.claims, id)
            && forall now :: !IsNext(w'.rows, id, now)
    decreases q
  {
    hide Act;
    if p < q {
      StaysOver(n, actions, p, q - 1, id);
      assert actions[..q][..q - 1] == actions[..q - 1];
      Lifecycle(n, actions[..q - 1]);
      OverStep(Run(n, actions[..q - 1]), actions[q - 1], id);
    }
  }

  /** A job that its owner has finished (at `p`) is done for good. */
  lemma DoneForGood(n: nat, actions: seq<Action>, p: nat, q: nat, i: nat, id: nat, now: real)
    requires p < q <= |actions| && actions[p] == Succeed(i, now) && OwnerOf(Run(n, actions[..p]), i, id)
    ensures var w, w' := Run(n, actions[..p]), Run(n, actions[..q]);
            && id in w'.rows && w'.rows[id].status.Completed? && Count(w'.claims, id) == Count(w.claims, id)
            && forall t :: !IsNext(w'.rows, id, t)
  {
    assert actions[..p + 1][..p] == actions[..p];
    Lifecycle(n, actions[..p]);
    SucceedCompletes(Run(n, actions[..p]), i, id, now);
    StaysOver(n, actions, p + 1, q, id);
  }

  // The queue as a worker uses it.

  class Queue {
    var rows: Table

    constructor ()
      ensures rows == map[]
    {
      rows := map[];
    }

    /** A new job, unless its idempotency key is taken. */
    method Enqueue(id: nat, retries: int, now: real, key: Option<string>) returns (added: bool)
      requires id !in rows
      modifies this
      ensures rows == Enqueued(old(rows), id, retries, now, key)
      ensures added <==> !KeyTaken(old(rows), key)
    {
      added := !KeyTaken(rows, key);
      if added { rows := rows[id := Row(Pending, 0, if retries < 0 then 0 else retries, now, now, now, None, key)]; }
    }

    /** Chooses the next eligible row and claims it in one transaction. */
    method ClaimNext(now: real, lease: real) returns (claimed: Option<(nat, Row)>)
      modifies this
      ensures claimed.None? ==> rows == old(rows) && forall id :: id in rows ==> !Eligible(rows[id], now)
      ensures claimed.Some? ==>
                var (id, row) := claimed.value;
                && IsNext(old(rows), id, now) && rows == Claimed(old(rows), id, old(rows)[id], now, lease)
                && row == rows[id] && row.attempts == old(rows)[id].attempts + 1
                && row.status.Processing? && row.lease == Some(now + lease) && SameBut(old(rows), rows, id)
    {
      var best: Option<nat> := None;
      var left := rows.Keys;
      while left != {}
        invariant left <= rows.Keys
        invariant best.None? ==> forall id :: id in rows && id !in left ==> !Eligible(rows[id], now)
        invariant best.Some? ==> best.value in rows && Eligible(rows[best.value], now)
                                 && forall id ::
                                   id in rows && id !in left && Eligible(rows[id], now) ==>
                                     rows[best.value].created <= rows[id].created
        decreases |left|
      {
        var id :| id in left;
        left := left - {id};
        if Eligible(rows[id], now) && (best.None? || rows[id].created < rows[best.value].created) { best := Some(id); }
      }
      if best.None? { return None; }
      var id := best.value;
      rows := rows[id := rows[id].(status := Processing, attempts := rows[id].attempts + 1, updated := now,
      lease := Some(now + lease))];
      claimed := Some((id, rows[id]));
    }

    /** The end of a claimed job: done, to be tried again later, or dead. */
    method Finish(id: nat, row: Row, ok: bool, now: real)
      requires id in rows
      modifies this
      ensures rows == if ok then Succeeded(old(rows), id, now)
                      else FailedRow(old(rows), id, row.attempts, row.retries, now)
      ensures id in rows && rows[id].lease.None? && SameBut(old(rows), rows, id)
      ensures ok ==> rows[id].status.Completed?
      ensures !ok ==> (if row.attempts > row.retries then rows[id].status.Dead? else rows[id].status.Failed?)
    {
      if ok {
        rows := rows[id := rows[id].(status := Completed, updated := now, lease := None)];
      } else if row.attempts > row.retries {
        rows := rows[id := rows[id].(status := Dead, updated := now, lease := None)];
      } else {
        rows := rows[id := rows[id].(status := Failed, updated := now, lease := None,
        availableAt := now + Backoff(row.attempts))];
      }
    }

    /** Makes the dead jobs that were updated first pending again, at most `limit` of them. */
    method ReprocessDead(limit: int, now: real) returns (n: nat, ghost ids: set<nat>)
      modifies this
      ensures rows == Revived(old(rows), ids, now) && FirstDead(old(rows), ids)
      ensures n == |ids| == if limit < 0 then 0 else if limit < |DeadIds(old(rows))| then limit
              else |DeadIds(old(rows))|
      ensures forall i :: i in ids ==> i in old(rows) && old(rows)[i].status.Dead?
      ensures forall i, j :: i in ids && j in old(rows) && j !in ids && old(rows)[j].status.Dead? ==>
                               old(rows)[i].updated <= old(rows)[j].updated
    {
      FirstDeadIs(rows);
      hide FirstDead;
      var chosen := SelectDead(if limit < 0 then 0 else limit);
      ghost var was := rows;
      n, ids := 0, Ids(chosen);
      assert rows == Revived(was, Ids(chosen[..0]), now);
      for k := 0 to |chosen|
        invariant n == k && rows == Revived(was, Ids(chosen[..k]), now)
      {
        RevivedOne(was, chosen, k, now);
        rows := rows[chosen[k] := rows[chosen[k]].(status := Pending, availableAt := now, updated := now,
        lease := None)];
        n := n + 1;
      }
      assert chosen[..|chosen|] == chosen;
      IdsCount(chosen);
    }

    /** The dead jobs in the order of their last update, at most `limit` of them. */
    method SelectDead(limit: nat) returns (chosen: seq<nat>)
      ensures Distinct(chosen) && (forall k :: 0 <= k < |chosen| ==> chosen[k] in DeadIds(rows))
      ensures |chosen| == if limit < |DeadIds(rows)| then limit else |DeadIds(rows)|
      ensures FirstDead(rows, Ids(chosen))
      ensures Selected(rows, chosen, DeadIds(rows) - Ids(chosen))
    {
      hide DeadIds, Selected;
      chosen := [];
      var left := DeadIds(rows);
      SelectNone(rows);
      while left != {} && |chosen| < limit
        invariant |chosen| <= limit && |chosen| + |left| == |DeadIds(rows)| && Selected(rows, chosen, left)
                  && left <= rows.Keys
        decreases |left|
      {
        var id := FirstUpdated(left);
        SelectMore(rows, chosen, left, id);
        left := left - {id};
        chosen := chosen + [id];
      }
      AllSelected(rows, chosen, left);
    }

    method FirstUpdated(ids: set<nat>) returns (first: nat)
      requires ids != {} && ids <= rows.Keys
      ensures first in ids && forall id :: id in ids ==> rows[first].updated <= rows[id].updated
    {
      first :| first in ids;
      var left := ids - {first};
      while left != {}
        invariant left <= ids && first in ids
        invariant forall id :: id in ids - left ==> rows[first].updated <= rows[id].updated
        decreases |left|
      {
        var id :| id in left;
        left := left - {id};
        if rows[id].updated < rows[first].updated { first := id; }
      }
    }
  }
}
