/**
 How finished groups are returned to the client across failures of the server (taskmanager.py:55-147,
 186-214 and 271-390). The database has a volatile part and what was last written to disk.
 */
module Delivery {
  import opened Types

  // ----- the database

  datatype Status = ToJudge | ToReturn

  datatype Env = Submitted | Judged(result: int)

  /** A stored dictionary; every key may be missing. */
  datatype Record = Record(
    id: Option<TaskId>,
    env: Option<Env>,
    status: Option<Status>,
    timestamp: Option<int>,
    retryCnt: Option<nat>)

  const NO_KEYS := Record(None, None, None, None, None)

  type Db = map<TaskId, Record>

  function Or<T>(a: Option<T>, b: Option<T>): Option<T> { if b.Some? then b else a }

  /** `dict.update`. */
  function Merge(r: Record, u: Record): Record {
    Record(Or(r.id, u.id), Or(r.env, u.env), Or(r.status, u.status),
           Or(r.timestamp, u.timestamp), Or(r.retryCnt, u.retryCnt))
  }

  /** `DBWrapper.update`: a missing record counts as an empty one. */
  function Update(db: Db, g: TaskId, u: Record): Db {
    db[g := Merge(if g in db then db[g] else NO_KEYS, u)]
  }

  /** The class that keeps both parts; `disk` is what a restart will find. */
  class Database {
    var db: Db
    var disk: Db

    constructor ()
      ensures db == map[] && disk == map[]
    {
      db, disk := map[], map[];
    }

    method Put(g: TaskId, u: Record, sync: bool)
      modifies this
      ensures db == Update(old(db), g, u)
      ensures disk == if sync then db else old(disk)
    {
      var job := NO_KEYS;
      if g in db { job := db[g]; }
      job := Merge(job, u);
      db := db[g := job];
      if sync { Sync(); }
    }

    /** A missing record raises before anything is synced. */
    method Delete(g: TaskId, sync: bool) returns (missing: bool)
      modifies this
      ensures missing == (g !in old(db))
      ensures db == old(db) - {g}
      ensures disk == if sync && !missing then db else old(disk)
    {
      missing := g !in db;
      if !missing {
        db := db - {g};
        if sync { Sync(); }
      }
    }

    method Sync()
      modifies this
      ensures db == old(db) && disk == db
    {
      disk := db;
    }
  }

  function NewRecord(g: TaskId, timestamp: int): Record {
    Record(Some(g), Some(Submitted), Some(ToJudge), Some(timestamp), Some(0))
  }

  function JudgedRecord(result: int): Record {
    NO_KEYS.(env := Some(Judged(result)), status := Some(ToReturn))
  }

  function CountRecord(n: nat): Record { NO_KEYS.(retryCnt := Some(n)) }

  predicate Complete(r: Record) {
    r.id.Some? && r.env.Some? && r.status.Some? && r.timestamp.Some? && r.retryCnt.Some?
  }

  // ----- returning

  const MAX_RETRIES := 6

  /** What the process is doing about a group. `next` is the number the next failure is counted with. */
  datatype Phase =
    | Judging
    | Attempt(env: Env, start: nat, made: nat, next: nat, note: Option<nat>)
    | Delayed(env: Env, start: nat, made: nat, next: nat)

  /** How the returning of a group ended. */
  datatype Settled = Delivered(env: Env) | GivenUp

  datatype Verdict = Verdict(g: TaskId, result: int)

  /**
   `live` is lost in a crash. `accepted`, `rejected`, `verdicts` and `settled` record what has happened.
   */
  datatype Service = Service(
    db: Db,
    disk: Db,
    live: map<TaskId, Phase>,
    up: bool,
    accepted: set<TaskId>,
    rejected: set<TaskId>,
    verdicts: set<Verdict>,
    settled: map<TaskId, Settled>)

  datatype Event =
    | Accept(g: TaskId, timestamp: int)
    | Reject(g: TaskId, error: int)
    | Finish(g: TaskId, result: int)
    | Respond(g: TaskId, ok: bool)
    | Timer(g: TaskId)
    | Sync
    | Crash
    | Restart

  const START := Service(map[], map[], map[], true, {}, {}, {}, map[])

  predicate Enabled(s: Service, ev: Event) {
    match ev
    case Accept(g, _) => s.up && g !in s.accepted && g !in s.rejected
    case Reject(g, _) => s.up && g !in s.accepted && g !in s.rejected
    case Finish(g, _) => s.up && g in s.live && s.live[g] == Judging
    case Respond(g, _) => s.up && g in s.live && s.live[g].Attempt?
    case Timer(g) => s.up && g in s.live && s.live[g].Delayed?
    case Sync => s.up
    case Crash => s.up
    case Restart => !s.up
  }

  /** `returnToSio`: the first attempt is made at once. */
  function FirstAttempt(env: Env, count: nat): Phase { Attempt(env, count, 1, count, None) }

  /** `_updateCount`: a retry stores its number when its reply is there. */
  function Counted(s: Service, g: TaskId): Db
    requires g in s.live && s.live[g].Attempt?
  {
    if s.live[g].note.Some? then Update(s.db, g, CountRecord(s.live[g].note.value)) else s.db
  }

  /**
   The outcome of an attempt: `_updateCount`, `retry` and `_returnDone`. Deleting a record that is not there
   raises; nobody is left to see it, and nothing else changes.
   */
  function AfterAttempt(s: Service, g: TaskId, ok: bool): Service
    requires g in s.live && s.live[g].Attempt?
  {
    var p, db := s.live[g], Counted(s, g);
    if ok then s.(db := db - {g}, live := s.live - {g}, settled := s.settled[g := Delivered(p.env)])
    else if p.next >= MAX_RETRIES then s.(db := db - {g}, live := s.live - {g}, settled := s.settled[g := GivenUp])
    else s.(db := db, live := s.live[g := Delayed(p.env, p.start, p.made, p.next)])
  }

  /** What `startService` reads from each record. */
  predicate Readable(r: Record) {
    && r.timestamp.Some? && r.status.Some? && r.env.Some? && r.id.Some?
    && (r.status == Some(ToReturn) ==> r.retryCnt.Some?)
  }

  predicate Resumable(db: Db) { forall g | g in db :: Readable(db[g]) }

  function Resumed(r: Record): Phase
    requires Readable(r)
  {
    if r.status.value.ToJudge? then Judging else FirstAttempt(r.env.value, r.retryCnt.value)
  }

  function ResumedAll(db: Db): map<TaskId, Phase>
    requires Resumable(db)
  {
    map g | g in db :: Resumed(db[g])
  }

  function Next(s: Service, ev: Event): Service
    requires Enabled(s, ev)
  {
    match ev
    case Accept(g, timestamp) =>
      var db := Update(s.db, g, NewRecord(g, timestamp));
      s.(db := db, disk := db, live := s.live[g := Judging], accepted := s.accepted + {g})
    case Reject(g, error) =>
      s.(live := s.live[g := FirstAttempt(Judged(error), 0)], rejected := s.rejected + {g},
         verdicts := s.verdicts + {Verdict(g, error)})
    case Finish(g, result) =>
      s.(db := Update(s.db, g, JudgedRecord(result)), live := s.live[g := FirstAttempt(Judged(result), 0)],
         verdicts := s.verdicts + {Verdict(g, result)})
    case Respond(g, ok) => AfterAttempt(s, g, ok)
    case Timer(g) =>
      var p := s.live[g];
      s.(live := s.live[g := Attempt(p.env, p.start, p.made + 1, p.next + 1, Some(p.next))])
    case Sync => s.(disk := s.db)
    case Crash => s.(db := s.disk, live := map[], up := false)
    case Restart => if Resumable(s.db) then s.(live := ResumedAll(s.db), up := true) else s
  }

  // ----- the invariant

  /** A stored group that was accepted can be resumed, whichever way. */
  ghost predicate StoredOk(s: Service, g: TaskId, r: Record) {
    && Complete(r) && r.id == Some(g) && r.retryCnt.value < MAX_RETRIES
    && (r.status == Some(ToReturn) ==> r.env.value.Judged? && Verdict(g, r.env.value.result) in s.verdicts)
  }

  ghost predicate DbOk(s: Service, db: Db) {
    && (forall g | g in db && g in s.accepted :: StoredOk(s, g, db[g]))
    && (forall g | g in db && g !in s.accepted :: g in s.rejected && db[g].timestamp.None?)
    && (forall g | g in s.accepted && g !in s.settled :: g in db)
  }

  ghost predicate PhaseOk(s: Service, g: TaskId, p: Phase) {
    match p
    case Judging => g in s.accepted && g in s.db && s.db[g].status == Some(ToJudge)
    case Attempt(env, start, made, next, note) =>
      && env.Judged? && Verdict(g, env.result) in s.verdicts
      && start <= next <= MAX_RETRIES && made == 1 + (next - start)
      && (note.Some? ==> note.value < MAX_RETRIES)
    case Delayed(env, start, made, next) =>
      && env.Judged? && Verdict(g, env.result) in s.verdicts
      && start <= next < MAX_RETRIES && made == 1 + (next - start)
  }

  ghost predicate LiveOk(s: Service) {
    && (forall g | g in s.live :: (g in s.accepted && g in s.db) || g in s.rejected)
    && (forall g | g in s.live :: PhaseOk(s, g, s.live[g]))
    && (s.up ==> forall g | g in s.accepted && g in s.db :: g in s.live)
    && (!s.up ==> s.live == map[] && s.db == s.disk)
  }

  ghost predicate SettledOk(s: Service) {
    forall g | g in s.settled && s.settled[g].Delivered? ::
      s.settled[g].env.Judged? && Verdict(g, s.settled[g].env.result) in s.verdicts
  }

  ghost predicate Inv(s: Service) {
    && s.accepted !! s.rejected
    && DbOk(s, s.db) && DbOk(s, s.disk) && LiveOk(s) && SettledOk(s)
  }

  /** The count of a retry goes into the record of its group, and makes no record of an accepted group worse. */
  lemma CountedOk(s: Service, g: TaskId)
    requires Inv(s) && g in s.live && s.live[g].Attempt?
    ensures DbOk(s, Counted(s, g)) && (g in s.db ==> g in Counted(s, g))
    ensures forall h | h != g ::
              (h in Counted(s, g) <==> h in s.db) && (h in s.db ==> Counted(s, g)[h] == s.db[h])
  {
    assert PhaseOk(s, g, s.live[g]);
    forall h | h in Counted(s, g) && h in s.accepted ensures StoredOk(s, h, Counted(s, g)[h]) {
      assert StoredOk(s, h, s.db[h]);
    }
  }

  lemma AttemptDb(s: Service, g: TaskId, ok: bool)
    requires Inv(s) && Enabled(s, Respond(g, ok))
    ensures DbOk(Next(s, Respond(g, ok)), Next(s, Respond(g, ok)).db)
    ensures DbOk(Next(s, Respond(g, ok)), Next(s, Respond(g, ok)).disk)
  {
    var s' := Next(s, Respond(g, ok));
    CountedOk(s, g);
    forall h | h in s'.db && h in s'.accepted ensures StoredOk(s', h, s'.db[h]) {
      assert StoredOk(s, h, Counted(s, g)[h]);
    }
    forall h | h in s'.disk && h in s'.accepted ensures StoredOk(s', h, s'.disk[h]) {
      assert StoredOk(s, h, s.disk[h]);
    }
  }

  lemma AttemptLive(s: Service, g: TaskId, ok: bool)
    requires Inv(s) && Enabled(s, Respond(g, ok))
    ensures LiveOk(Next(s, Respond(g, ok))) && SettledOk(Next(s, Respond(g, ok)))
  {
    var s' := Next(s, Respond(g, ok));
    assert PhaseOk(s, g, s.live[g]);
    CountedOk(s, g);
    forall h | h in s'.live ensures PhaseOk(s', h, s'.live[h]) {
      assert PhaseOk(s, h, s.live[h]);
    }
  }

  lemma AttemptInv(s: Service, g: TaskId, ok: bool)
    requires Inv(s) && Enabled(s, Respond(g, ok))
    ensures Inv(Next(s, Respond(g, ok)))
  {
    AttemptDb(s, g, ok);
    AttemptLive(s, g, ok);
  }

  lemma NextInv(s: Service, ev: Event)
    requires Inv(s) && Enabled(s, ev)
    ensures Inv(Next(s, ev))
  {
    match ev
    case Respond(g, ok) => AttemptInv(s, g, ok);
    case Restart => RestartInv(s);
    case Finish(g, result) => FinishInv(s, g, result);
    case Timer(g) => TimerInv(s, g);
    case Accept(g, timestamp) => AcceptInv(s, g, timestamp);
    case Reject(g, error) =>
    case Sync =>
    case Crash =>
  }

  lemma AcceptInv(s: Service, g: TaskId, timestamp: int)
    requires Inv(s) && Enabled(s, Accept(g, timestamp))
    ensures Inv(Next(s, Accept(g, timestamp)))
  {
  }

  lemma TimerInv(s: Service, g: TaskId)
    requires Inv(s) && Enabled(s, Timer(g))
    ensures Inv(Next(s, Timer(g)))
  {
    assert PhaseOk(s, g, s.live[g]);
  }

  lemma FinishInv(s: Service, g: TaskId, result: int)
    requires Inv(s) && Enabled(s, Finish(g, result))
    ensures Inv(Next(s, Finish(g, result)))
  {
    var s' := Next(s, Finish(g, result));
    assert PhaseOk(s, g, s.live[g]) && StoredOk(s, g, s.db[g]);
    forall h | h in s'.live ensures PhaseOk(s', h, s'.live[h]) {
      if h != g { assert PhaseOk(s, h, s.live[h]); }
    }
  }

  lemma RestartInv(s: Service)
    requires Inv(s) && !s.up
    ensures Inv(Next(s, Restart))
  {
    if Resumable(s.db) {
      var s' := Next(s, Restart);
      forall g | g in s'.live ensures g in s.accepted && PhaseOk(s', g, s'.live[g]) {
        assert Readable(s.db[g]);
        assert StoredOk(s, g, s.db[g]);
      }
    }
  }

  // ----- whole runs

  predicate RunEnabled(s: Service, events: seq<Event>)
    decreases |events|
  {
    events == [] || (Enabled(s, events[0]) && RunEnabled(Next(s, events[0]), events[1..]))
  }

  function Run(s: Service, events: seq<Event>): Service
    requires RunEnabled(s, events)
    decreases |events|
  {
    if events == [] then s else Run(Next(s, events[0]), events[1..])
  }

  lemma {:induction false} RunInv(s: Service, events: seq<Event>)
    requires Inv(s) && RunEnabled(s, events)
    ensures Inv(Run(s, events))
    decreases |events|
  {
    if events != [] {
      NextInv(s, events[0]);
      RunInv(Next(s, events[0]), events[1..]);
    }
  }

  ghost predicate Reachable(s: Service) {
    exists events :: RunEnabled(START, events) && s == Run(START, events)
  }

  lemma ReachableInv(s: Service)
    requires Reachable(s)
    ensures Inv(s)
  {
    var events :| RunEnabled(START, events) && s == Run(START, events);
    RunInv(START, events);
  }

  /**
   An accepted group that was neither delivered nor given up is on disk with a complete record, and while
   the server is up something is being done about it.
   */
  lemma AtLeastOnce(s: Service, g: TaskId)
    requires Reachable(s) && g in s.accepted
    ensures g in s.settled || (g in s.disk && Complete(s.disk[g]) && g in s.db && Complete(s.db[g]))
    ensures g in s.settled || !s.up || g in s.live
  {
    ReachableInv(s);
    if g !in s.settled {
      assert StoredOk(s, g, s.disk[g]) && StoredOk(s, g, s.db[g]);
    }
  }

  /** What is delivered is a verdict on that very group. */
  lemma OnlyVerdicts(s: Service, g: TaskId)
    requires Reachable(s) && g in s.settled && s.settled[g].Delivered?
    ensures s.settled[g].env.Judged? && Verdict(g, s.settled[g].env.result) in s.verdicts
  {
    ReachableInv(s);
  }

  /** Between starting to return a group and the end, the attempts and the delays stay within their limits. */
  lemma BoundedAttempts(s: Service, g: TaskId)
    requires Reachable(s) && g in s.live && s.live[g] != Judging
    ensures var p := s.live[g];
            && p.made <= 1 + (MAX_RETRIES - p.start)
            && (p.Delayed? ==> p.next < MAX_RETRIES)
  {
    ReachableInv(s);
    assert PhaseOk(s, g, s.live[g]);
  }

  // ----- when a restart succeeds

  /**
   In every reachable state, settled groups included, a record in the database or on disk is complete if it is
   that of an accepted group, and has neither an environment nor a time if it is that of a rejected one.
   */
  lemma RecordsComplete(s: Service, g: TaskId)
    requires Reachable(s)
    ensures g in s.db ==> (Complete(s.db[g]) <==> g in s.accepted) && (Readable(s.db[g]) <==> g in s.accepted)
    ensures g in s.disk ==> (Complete(s.disk[g]) <==> g in s.accepted) && (Readable(s.disk[g]) <==> g in s.accepted)
  {
    ReachableInv(s);
    if g in s.accepted {
      assert g in s.db ==> StoredOk(s, g, s.db[g]);
      assert g in s.disk ==> StoredOk(s, g, s.disk[g]);
    }
  }

  /** The server can be started again exactly when no rejected group has got into the database. */
  lemma RestartIffNoneRejected(s: Service)
    requires Reachable(s)
    ensures Resumable(s.disk) <==> s.rejected !! s.disk.Keys
  {
    ReachableInv(s);
    forall g | g in s.disk ensures Readable(s.disk[g]) <==> g !in s.rejected { RecordsComplete(s, g); }
    if !Resumable(s.disk) {
      var g :| g in s.disk && !Readable(s.disk[g]);
      assert g in s.disk.Keys;
    }
  }

  /** How many attempts have failed since the return was started. */
  function Failures(p: Phase): nat {
    match p
    case Judging => 0
    case Attempt(_, _, made, _, _) => if made == 0 then 0 else made - 1
    case Delayed(_, _, made, _) => made
  }

  predicate FailedTwice(s: Service, g: TaskId) { g in s.live && Failures(s.live[g]) >= 2 }

  /**
   A retry knows that it is one; the count of a rejected group starts at zero, and it has a record from its
   second failure until it is settled.
   */
  ghost predicate CountsOk(s: Service) {
    && (forall g | g in s.live && s.live[g].Attempt? :: s.live[g].note.Some? <==> s.live[g].made >= 2)
    && (forall g | g in s.live && g in s.rejected && s.live[g] != Judging :: s.live[g].start == 0)
    && (s.up ==> forall g | g in s.rejected :: g in s.db <==> FailedTwice(s, g))
  }

  /** The record of the group itself after a reply. */
  lemma RecordAfterAttempt(s: Service, g: TaskId, ok: bool)
    requires Inv(s) && CountsOk(s) && Enabled(s, Respond(g, ok)) && g in s.rejected
    ensures g in Next(s, Respond(g, ok)).db <==> FailedTwice(Next(s, Respond(g, ok)), g)
  {
    assert PhaseOk(s, g, s.live[g]);
  }

  lemma OthersAfterAttempt(s: Service, g: TaskId, ok: bool, h: TaskId)
    requires Enabled(s, Respond(g, ok)) && h != g
    ensures var s' := Next(s, Respond(g, ok));
            && (h in s'.db <==> h in s.db)
            && (h in s'.live <==> h in s.live) && (h in s.live ==> s'.live[h] == s.live[h])
  {
  }

  lemma CountsAfterAttempt(s: Service, g: TaskId, ok: bool)
    requires Inv(s) && CountsOk(s) && Enabled(s, Respond(g, ok))
    ensures CountsOk(Next(s, Respond(g, ok)))
  {
    var s' := Next(s, Respond(g, ok));
    forall h | h in s'.live
      ensures s'.live[h].Attempt? ==> (s'.live[h].note.Some? <==> s'.live[h].made >= 2)
      ensures h in s'.rejected && s'.live[h] != Judging ==> s'.live[h].start == 0
    {
      if h != g { OthersAfterAttempt(s, g, ok, h); }
    }
    forall h | h in s'.rejected ensures h in s'.db <==> FailedTwice(s', h) {
      if h == g { RecordAfterAttempt(s, g, ok); } else { OthersAfterAttempt(s, g, ok, h); }
    }
  }

  lemma CountsAfterRestart(s: Service)
    requires Inv(s) && CountsOk(s) && !s.up
    ensures CountsOk(Next(s, Restart))
  {
    if Resumable(s.db) {
      var s' := Next(s, Restart);
      forall g | g in s.db ensures g in s.accepted { assert Readable(s.db[g]); }
    }
  }

  lemma CountsKept(s: Service, ev: Event)
    requires Inv(s) && CountsOk(s) && Enabled(s, ev)
    ensures CountsOk(Next(s, ev))
  {
    match ev
    case Respond(g, ok) => CountsAfterAttempt(s, g, ok);
    case Restart => CountsAfterRestart(s);
    case Timer(g) => CountsAfterTimer(s, g);
    case Accept(g, timestamp) =>
    case Reject(g, error) =>
    case Finish(g, result) => assert PhaseOk(s, g, s.live[g]);
    case Sync =>
    case Crash =>
  }

  lemma CountsAfterTimer(s: Service, g: TaskId)
    requires Inv(s) && CountsOk(s) && Enabled(s, Timer(g))
    ensures CountsOk(Next(s, Timer(g)))
  {
    assert PhaseOk(s, g, s.live[g]);
    var s' := Next(s, Timer(g));
    forall h | h in s'.rejected ensures h in s'.db <==> FailedTwice(s', h) {
      assert h in s.db <==> FailedTwice(s, h);
    }
  }

  lemma {:induction false} RunCounts(s: Service, events: seq<Event>)
    requires Inv(s) && CountsOk(s) && RunEnabled(s, events)
    ensures CountsOk(Run(s, events))
    decreases |events|
  {
    if events != [] {
      NextInv(s, events[0]);
      CountsKept(s, events[0]);
      RunCounts(Next(s, events[0]), events[1..]);
    }
  }

  lemma ReachableCounts(s: Service)
    requires Reachable(s)
    ensures CountsOk(s)
  {
    var events :| RunEnabled(START, events) && s == Run(START, events);
    RunCounts(START, events);
  }

  /** An end of a return finds no record to delete if and only if a rejected group gets through at its first attempt. */
  lemma DeleteFinds(s: Service, g: TaskId, ok: bool)
    requires Reachable(s) && Enabled(s, Respond(g, ok)) && g !in Next(s, Respond(g, ok)).live
    ensures g !in Counted(s, g) <==> g in s.rejected && s.live[g].made == 1
  {
    ReachableInv(s);
    ReachableCounts(s);
    assert PhaseOk(s, g, s.live[g]);
  }

  /** Events that write to the disk. */
  predicate Writes(ev: Event) { ev.Accept? || ev.Sync? }

  lemma {:induction false} DiskKept(s: Service, events: seq<Event>)
    requires RunEnabled(s, events) && forall i | 0 <= i < |events| :: !Writes(events[i])
    ensures Run(s, events).disk == s.disk
    decreases |events|
  {
    if events != [] {
      assert !Writes(events[0]);
      DiskKept(Next(s, events[0]), events[1..]);
    }
  }

  /** What is in the database can be resumed if and only if no rejected group has failed twice and is not settled. */
  lemma ResumableIff(s: Service)
    requires Reachable(s) && s.up
    ensures Resumable(s.db) <==> forall g | g in s.rejected :: !FailedTwice(s, g)
  {
    ReachableInv(s);
    ReachableCounts(s);
    if g :| g in s.rejected && FailedTwice(s, g) { assert !Readable(s.db[g]); }
    if forall g | g in s.rejected :: !FailedTwice(s, g) {
      forall g | g in s.db ensures Readable(s.db[g]) { assert StoredOk(s, g, s.db[g]); }
    }
  }

  /**
   A write to the disk blocks every start after a crash, up to the next write, if and only if it is made while
   some rejected group has failed twice and is not settled.
   */
  lemma RestartIffNoneFailedTwice(s: Service, write: Event, rest: seq<Event>)
    requires Reachable(s) && Enabled(s, write) && Writes(write) && RunEnabled(Next(s, write), rest)
    requires forall i | 0 <= i < |rest| :: !Writes(rest[i])
    ensures var end := Run(Next(s, write), rest);
            !end.up ==> (Next(end, Restart).up <==> forall g | g in s.rejected :: !FailedTwice(s, g))
  {
    var s1 := Next(s, write);
    WriteKeepsFailures(s, write);
    ReachableNext(s, write);
    ResumableIff(s1);
    DiskKept(s1, rest);
    ReachableRun(s1, rest);
    if !Run(s1, rest).up { RestartReadsDisk(Run(s1, rest)); }
  }

  /** Writing shows the database to the next start, and fails nothing. */
  lemma WriteKeepsFailures(s: Service, write: Event)
    requires Enabled(s, write) && Writes(write)
    ensures var s1 := Next(s, write);
            && s1.up && s1.disk == s1.db && s1.rejected == s.rejected
            && forall g | g in s.rejected :: FailedTwice(s1, g) <==> FailedTwice(s, g)
  {
  }

  lemma RestartReadsDisk(s: Service)
    requires Reachable(s) && !s.up
    ensures Next(s, Restart).up <==> Resumable(s.disk)
  {
    ReachableInv(s);
  }

  lemma ReachableNext(s: Service, ev: Event)
    requires Reachable(s) && Enabled(s, ev)
    ensures Reachable(Next(s, ev))
  {
    var events :| RunEnabled(START, events) && s == Run(START, events);
    var all := Append(events, ev);
  }

  lemma {:induction false} ReachableRun(s: Service, events: seq<Event>)
    requires Reachable(s) && RunEnabled(s, events)
    ensures Reachable(Run(s, events))
    decreases |events|
  {
    if events != [] {
      ReachableNext(s, events[0]);
      ReachableRun(Next(s, events[0]), events[1..]);
    }
  }

  lemma {:induction false} RunConcat(s: Service, a: seq<Event>, b: seq<Event>)
    requires RunEnabled(s, a) && RunEnabled(Run(s, a), b)
    ensures RunEnabled(s, a + b) && Run(s, a + b) == Run(Run(s, a), b)
    decreases |a|
  {
    if a == [] {
      assert a + b == b;
    } else {
      assert (a + b)[0] == a[0] && (a + b)[1..] == a[1..] + b;
      RunConcat(Next(s, a[0]), a[1..], b);
    }
  }

  lemma Append(events: seq<Event>, ev: Event) returns (all: seq<Event>)
    requires RunEnabled(START, events) && Enabled(Run(START, events), ev)
    ensures all == events + [ev] && RunEnabled(START, all) && Run(START, all) == Next(Run(START, events), ev)
  {
    all := events + [ev];
    assert [ev][1..] == [];
    RunConcat(START, events, [ev]);
  }

  /** A rejected group that gets through at its first attempt has no record, and yet one is deleted. */
  lemma DeleteMisses(g: TaskId) returns (events: seq<Event>)
    ensures RunEnabled(START, events)
    ensures var s := Run(START, events);
            Enabled(s, Respond(g, true)) && g !in Next(s, Respond(g, true)).live && g !in Counted(s, g)
  {
    events := Append([], Reject(g, 0));
  }

  /**
   A rejected group has no record; when returning it fails twice, the retry count is stored on its own,
   and after a crash the server cannot sort its records by time.
   */
  lemma RejectedBlocksRestart(g: TaskId) returns (events: seq<Event>)
    ensures RunEnabled(START, events)
    ensures var s := Run(START, events); !s.up && !Resumable(s.disk) && Next(s, Restart) == s
  {
    events := Append([], Reject(g, 0));
    events := Append(events, Respond(g, false));
    events := Append(events, Timer(g));
    events := Append(events, Respond(g, false));
    events := Append(events, Sync);
    events := Append(events, Crash);
    var s := Run(START, events);
    assert g in s.disk && s.disk[g] == CountRecord(0);
    assert !Readable(s.disk[g]);
  }
}
