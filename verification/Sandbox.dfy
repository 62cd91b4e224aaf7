/**
 The lock around an installed sandbox (sandbox.py:57-79, 156-172 and 277-362): a count of the threads
 of one process that are in the context, and a file lock between processes.
 */
module Sandbox {
  import opened Types

  datatype ProcessId = ProcessId(number: nat)
  datatype Thread = Thread(number: nat)

  /** What `flock` has given to the open lock file of a process. */
  datatype Lock = Unlocked | Shared | Exclusive

  /** How far the thread that is making the first entry has come; it holds `local_lock` meanwhile. */
  datatype Stage =
    | FirstLock      // about to lock shared
    | FirstCheck     // about to check under the shared lock
    | UpgradeLock    // has unlocked, about to lock exclusively
    | SecondCheck    // about to check under the exclusive lock
    | Deleting
    | Extracting
    | LastLock       // exchanging the exclusive lock for a shared one

  datatype Entering = Entering(thread: Thread, stage: Stage)

  /** `count` is `_in_context`; `inside` are the threads that are past `__enter__`. */
  datatype Process = Process(count: nat, lock: Lock, entering: Option<Entering>, inside: multiset<Thread>)

  const NEW_PROCESS := Process(0, Unlocked, None, multiset{})

  datatype Act =
    | Enter(thread: Thread)
    | Grant
    | Check(install: bool)
    | Delete
    | Extract
    | Raise
    | Exit(thread: Thread)
    | Crash

  // ----- one process

  predicate LocallyEnabled(p: Process, act: Act) {
    match act
    case Enter(_) => p.entering.None?
    case Exit(t) => p.entering.None? && t in p.inside
    case Grant => p.entering.Some? && p.entering.value.stage in {FirstLock, UpgradeLock, LastLock}
    case Check(_) => p.entering.Some? && p.entering.value.stage in {FirstCheck, SecondCheck}
    case Delete => p.entering.Some? && p.entering.value.stage == Deleting
    case Extract => p.entering.Some? && p.entering.value.stage == Extracting
    case Raise => p.entering.Some?
    case Crash => true
  }

  function At(p: Process, stage: Stage, lock: Lock): Process
    requires p.entering.Some?
  {
    p.(lock := lock, entering := Some(p.entering.value.(stage := stage)))
  }

  /** `__enter__` returns, with the shared lock held. */
  function Entered(p: Process): Process
    requires p.entering.Some?
  {
    p.(lock := Shared, entering := None, inside := p.inside + multiset{p.entering.value.thread})
  }

  /** The exclusive lock is exchanged: in one step, or by giving it up and asking anew. */
  function Exchange(p: Process, atomic: bool): Process
    requires p.entering.Some?
  {
    if atomic then Entered(p) else At(p, LastLock, Unlocked)
  }

  /** Only a failed installation unlocks; any other exception leaves the lock as it is. */
  function Raised(p: Process): Process
    requires p.entering.Some?
  {
    var lock := if p.entering.value.stage in {Deleting, Extracting} then Unlocked else p.lock;
    p.(count := if p.count > 0 then p.count - 1 else 0, lock := lock, entering := None)
  }

  function Local(p: Process, act: Act, atomic: bool): Process
    requires LocallyEnabled(p, act)
  {
    match act
    case Enter(t) =>
      // The first entry opens the lock file anew.
      if p.count == 0 then p.(count := 1, lock := Unlocked, entering := Some(Entering(t, FirstLock)))
      else p.(count := p.count + 1, inside := p.inside + multiset{t})
    case Exit(t) =>
      var count := if p.count > 0 then p.count - 1 else 0;
      p.(count := count, inside := p.inside - multiset{t}, lock := if count == 0 then Unlocked else p.lock)
    case Grant =>
      (match p.entering.value.stage
       case FirstLock => At(p, FirstCheck, Shared)
       case UpgradeLock => At(p, SecondCheck, Exclusive)
       case _ => Entered(p))
    case Check(install) =>
      if p.entering.value.stage == FirstCheck
      then if install then At(p, UpgradeLock, Unlocked) else Entered(p)
      else if install then At(p, Deleting, p.lock) else Exchange(p, atomic)
    case Delete => At(p, Extracting, p.lock)
    case Extract => Exchange(p, atomic)
    case Raise => Raised(p)
    case Crash => NEW_PROCESS
  }

  // ----- all processes

  /** `present`: the directory of the sandbox exists. */
  datatype System = System(processes: map<ProcessId, Process>, present: bool)

  /** `left`: whether an installation that breaks off leaves a directory behind. */
  datatype Event = Event(process: ProcessId, act: Act, left: bool)

  predicate Installing(p: Process) {
    p.entering.Some? && p.entering.value.stage in {Deleting, Extracting}
  }

  ghost predicate OthersHaveNo(s: System, id: ProcessId, locks: set<Lock>) {
    forall q | q in s.processes && q != id :: s.processes[q].lock !in locks
  }

  /** The file lock is granted only where it is compatible with what other processes hold. */
  ghost predicate Grantable(s: System, id: ProcessId)
    requires id in s.processes && s.processes[id].entering.Some?
  {
    var upgrading := s.processes[id].entering.value.stage == UpgradeLock;
    OthersHaveNo(s, id, if upgrading then {Shared, Exclusive} else {Exclusive})
  }

  ghost predicate Enabled(s: System, ev: Event) {
    && ev.process in s.processes
    && LocallyEnabled(s.processes[ev.process], ev.act)
    && (ev.act == Grant ==> Grantable(s, ev.process))
    && (ev.act == Check(false) ==> s.present)
  }

  function PresentAfter(s: System, ev: Event): bool
    requires ev.process in s.processes
  {
    match ev.act
    case Delete => false
    case Extract => true
    case Raise => if Installing(s.processes[ev.process]) then ev.left else s.present
    case Crash => if Installing(s.processes[ev.process]) then ev.left else s.present
    case _ => s.present
  }

  ghost function Next(s: System, ev: Event, atomic: bool): System
    requires Enabled(s, ev)
  {
    System(s.processes[ev.process := Local(s.processes[ev.process], ev.act, atomic)], PresentAfter(s, ev))
  }

  function Start(ids: set<ProcessId>, present: bool): System {
    System(map id | id in ids :: NEW_PROCESS, present)
  }

  // ----- the invariant

  predicate StageLock(stage: Stage, lock: Lock) {
    match stage
    case FirstLock => lock == Unlocked
    case FirstCheck => lock == Shared
    case UpgradeLock => lock == Unlocked
    case LastLock => lock == Unlocked
    case _ => lock == Exclusive
  }

  ghost predicate ProcessOk(p: Process) {
    && p.count == |p.inside| + (if p.entering.Some? then 1 else 0)
    && (p.entering.Some? ==> p.inside == multiset{} && StageLock(p.entering.value.stage, p.lock))
    && (p.inside != multiset{} ==> p.lock == Shared)
  }

  ghost predicate LocksOk(s: System) {
    forall id | id in s.processes && s.processes[id].lock == Exclusive :: OthersHaveNo(s, id, {Shared, Exclusive})
  }

  ghost predicate SystemOk(s: System) {
    (forall id | id in s.processes :: ProcessOk(s.processes[id])) && LocksOk(s)
  }

  lemma LocalOk(p: Process, act: Act, atomic: bool)
    requires ProcessOk(p) && LocallyEnabled(p, act)
    ensures ProcessOk(Local(p, act, atomic))
  {
    if act.Exit? {
      assert multiset{act.thread} <= p.inside;
      assert |p.inside - multiset{act.thread}| == |p.inside| - 1;
    }
  }

  /** A step takes a lock that it did not have only when it is granted, or weakens the one it had. */
  lemma LocalLock(p: Process, act: Act, atomic: bool)
    requires ProcessOk(p) && LocallyEnabled(p, act)
    ensures var lock := Local(p, act, atomic).lock;
            lock == p.lock || lock == Unlocked || (p.lock == Exclusive && lock == Shared)
            || (act == Grant && lock == if p.entering.value.stage == UpgradeLock then Exclusive else Shared)
  {
  }

  lemma NextOk(s: System, ev: Event, atomic: bool)
    requires SystemOk(s) && Enabled(s, ev)
    ensures SystemOk(Next(s, ev, atomic))
  {
    LocalOk(s.processes[ev.process], ev.act, atomic);
    LocalLock(s.processes[ev.process], ev.act, atomic);
    var s' := Next(s, ev, atomic);
    forall id | id in s'.processes && s'.processes[id].lock == Exclusive
      ensures OthersHaveNo(s', id, {Shared, Exclusive})
    {
      if id != ev.process {
        assert OthersHaveNo(s, id, {Shared, Exclusive});
        assert s.processes[ev.process].lock == Unlocked;
      }
    }
  }

  // ----- whole runs

  ghost predicate RunEnabled(s: System, events: seq<Event>, atomic: bool)
    decreases |events|
  {
    events == [] || (Enabled(s, events[0]) && RunEnabled(Next(s, events[0], atomic), events[1..], atomic))
  }

  ghost function Run(s: System, events: seq<Event>, atomic: bool): System
    requires RunEnabled(s, events, atomic)
    decreases |events|
  {
    if events == [] then s else Run(Next(s, events[0], atomic), events[1..], atomic)
  }

  lemma {:induction false} RunOk(s: System, events: seq<Event>, atomic: bool)
    requires SystemOk(s) && RunEnabled(s, events, atomic)
    ensures SystemOk(Run(s, events, atomic))
    decreases |events|
  {
    if events != [] {
      NextOk(s, events[0], atomic);
      RunOk(Next(s, events[0], atomic), events[1..], atomic);
    }
  }

  ghost predicate Reachable(s: System, atomic: bool) {
    exists ids, present, events ::
      RunEnabled(Start(ids, present), events, atomic) && s == Run(Start(ids, present), events, atomic)
  }

  lemma ReachableOk(s: System, atomic: bool)
    requires Reachable(s, atomic)
    ensures SystemOk(s)
  {
    var ids, present, events :|
      RunEnabled(Start(ids, present), events, atomic) && s == Run(Start(ids, present), events, atomic);
    RunOk(Start(ids, present), events, atomic);
  }

  /**
   While a process deletes or extracts the sandbox, no thread of any process is in its context and no
   other process is installing it.
   */
  lemma Exclusion(s: System, atomic: bool, id: ProcessId, other: ProcessId)
    requires Reachable(s, atomic) && id in s.processes && other in s.processes
    requires Installing(s.processes[id])
    ensures s.processes[other].inside == multiset{}
    ensures other != id ==> !Installing(s.processes[other])
  {
    ReachableOk(s, atomic);
    assert OthersHaveNo(s, id, {Shared, Exclusive});
  }

  /**
   The count is the number of threads in the context, plus the one that is entering first; and from the
   first completed entry until the count is back at zero the shared lock is held.
   */
  lemma SharedWhileInside(s: System, atomic: bool, id: ProcessId)
    requires Reachable(s, atomic) && id in s.processes
    ensures var p := s.processes[id];
            && p.count == |p.inside| + (if p.entering.Some? then 1 else 0)
            && (p.count > 0 && p.entering.None? ==> p.lock == Shared)
            && (p.entering.Some? ==> p.inside == multiset{})
  {
    ReachableOk(s, atomic);
  }

  // ----- locks that nobody needs

  predicate Idle(p: Process) { p.count == 0 && p.entering.None? }

  predicate Leftover(p: Process) { Idle(p) && p.lock != Unlocked }

  /** An entry raises in one of the two checks. */
  predicate FailsCheck(p: Process, act: Act) {
    act == Raise && p.entering.Some? && p.entering.value.stage in {FirstCheck, SecondCheck}
  }

  /**
   An entry that fails in one of the two checks keeps its lock, nothing else leaves one behind, and it stays
   until the next step of that process.
   */
  lemma LeftoverStep(s: System, ev: Event, atomic: bool, id: ProcessId)
    requires SystemOk(s) && Enabled(s, ev) && id in s.processes
    ensures Leftover(Next(s, ev, atomic).processes[id]) <==>
            if id == ev.process then FailsCheck(s.processes[id], ev.act) else Leftover(s.processes[id])
  {
    LocalOk(s.processes[ev.process], ev.act, atomic);
    if id == ev.process && Idle(s.processes[id]) { assert s.processes[id].inside == multiset{}; }
  }

  /** The last step of process `id`, if it made one, was such a failure; `before` holds if it made none. */
  ghost predicate LastFailedCheck(s: System, events: seq<Event>, atomic: bool, id: ProcessId, before: bool)
    requires RunEnabled(s, events, atomic) && id in s.processes
    decreases |events|
  {
    if events == [] then before
    else
      var now := if id == events[0].process then FailsCheck(s.processes[id], events[0].act) else before;
      LastFailedCheck(Next(s, events[0], atomic), events[1..], atomic, id, now)
  }

  lemma {:induction false} LeftoverOverRun(s: System, events: seq<Event>, atomic: bool, id: ProcessId)
    requires SystemOk(s) && RunEnabled(s, events, atomic) && id in s.processes
    ensures id in Run(s, events, atomic).processes
    ensures Leftover(Run(s, events, atomic).processes[id])
            <==> LastFailedCheck(s, events, atomic, id, Leftover(s.processes[id]))
    decreases |events|
  {
    if events != [] {
      NextOk(s, events[0], atomic);
      LeftoverStep(s, events[0], atomic, id);
      LeftoverOverRun(Next(s, events[0], atomic), events[1..], atomic, id);
    }
  }

  /** After any run, a process that nobody is in holds a lock if and only if its last step was a failing check. */
  lemma LeftoverLocks(ids: set<ProcessId>, present: bool, events: seq<Event>, atomic: bool, id: ProcessId)
    requires RunEnabled(Start(ids, present), events, atomic) && id in ids
    ensures id in Run(Start(ids, present), events, atomic).processes
    ensures Leftover(Run(Start(ids, present), events, atomic).processes[id])
            <==> LastFailedCheck(Start(ids, present), events, atomic, id, false)
  {
    LeftoverOverRun(Start(ids, present), events, atomic, id);
  }

  // ----- is the sandbox there while it is in use?

  ghost predicate PresentInside(s: System) {
    forall id | id in s.processes && s.processes[id].inside != multiset{} :: s.present
  }

  /** The last lock of an entry is granted while the directory is gone. */
  predicate EntersAbsent(s: System, ev: Event)
    requires ev.process in s.processes
  {
    var p := s.processes[ev.process];
    ev.act == Grant && p.entering.Some? && p.entering.value.stage == LastLock && !s.present
  }

  /** The one step after which a thread is inside a sandbox that is not there. */
  lemma PresentStep(s: System, ev: Event, atomic: bool)
    requires SystemOk(s) && PresentInside(s) && Enabled(s, ev)
    ensures PresentInside(Next(s, ev, atomic)) <==> !EntersAbsent(s, ev)
  {
    var p, s' := s.processes[ev.process], Next(s, ev, atomic);
    if Installing(p) {
      assert OthersHaveNo(s, ev.process, {Shared, Exclusive});
    }
    if EntersAbsent(s, ev) {
      assert p.entering.value.thread in s'.processes[ev.process].inside;
    }
  }

  /** The sandbox is there for all threads inside, in every state of the run. */
  ghost predicate AlwaysPresent(s: System, events: seq<Event>, atomic: bool)
    requires RunEnabled(s, events, atomic)
    decreases |events|
  {
    PresentInside(s) && (events == [] || AlwaysPresent(Next(s, events[0], atomic), events[1..], atomic))
  }

  ghost predicate NeverEntersAbsent(s: System, events: seq<Event>, atomic: bool)
    requires RunEnabled(s, events, atomic)
    decreases |events|
  {
    events == [] || (!EntersAbsent(s, events[0]) && NeverEntersAbsent(Next(s, events[0], atomic), events[1..], atomic))
  }

  lemma {:induction false} PresentOverRun(s: System, events: seq<Event>, atomic: bool)
    requires SystemOk(s) && PresentInside(s) && RunEnabled(s, events, atomic)
    ensures AlwaysPresent(s, events, atomic) <==> NeverEntersAbsent(s, events, atomic)
    decreases |events|
  {
    if events != [] {
      NextOk(s, events[0], atomic);
      PresentStep(s, events[0], atomic);
      if !EntersAbsent(s, events[0]) { PresentOverRun(Next(s, events[0], atomic), events[1..], atomic); }
    }
  }

  /**
   In any run, with the exchange in one step or in two, the sandbox is there for as long as some thread is in
   its context, if and only if the directory exists whenever an entry is granted its last lock.
   */
  lemma PresentIffCheckedAtLastLock(ids: set<ProcessId>, present: bool, events: seq<Event>, atomic: bool)
    requires RunEnabled(Start(ids, present), events, atomic)
    ensures AlwaysPresent(Start(ids, present), events, atomic)
            <==> NeverEntersAbsent(Start(ids, present), events, atomic)
  {
    PresentOverRun(Start(ids, present), events, atomic);
  }

  /** With an atomic exchange no thread waits for its last lock. */
  ghost predicate NoneExchanging(s: System) {
    forall id | id in s.processes && s.processes[id].entering.Some? :: s.processes[id].entering.value.stage != LastLock
  }

  lemma PresentKept(s: System, ev: Event)
    requires SystemOk(s) && PresentInside(s) && NoneExchanging(s) && Enabled(s, ev)
    ensures PresentInside(Next(s, ev, true)) && NoneExchanging(Next(s, ev, true))
  {
    assert !EntersAbsent(s, ev);
    PresentStep(s, ev, true);
    NoneBegins(s, ev);
  }

  lemma NoneBegins(s: System, ev: Event)
    requires NoneExchanging(s) && Enabled(s, ev)
    ensures NoneExchanging(Next(s, ev, true))
  {
  }

  lemma {:induction false} RunPresent(s: System, events: seq<Event>)
    requires SystemOk(s) && PresentInside(s) && NoneExchanging(s) && RunEnabled(s, events, true)
    ensures PresentInside(Run(s, events, true))
    decreases |events|
  {
    if events != [] {
      NextOk(s, events[0], true);
      PresentKept(s, events[0]);
      RunPresent(Next(s, events[0], true), events[1..]);
    }
  }

  lemma {:induction false} RunConcat(s: System, a: seq<Event>, b: seq<Event>, atomic: bool)
    requires RunEnabled(s, a, atomic) && RunEnabled(Run(s, a, atomic), b, atomic)
    ensures RunEnabled(s, a + b, atomic) && Run(s, a + b, atomic) == Run(Run(s, a, atomic), b, atomic)
    decreases |a|
  {
    if a == [] {
      assert a + b == b;
    } else {
      assert (a + b)[0] == a[0] && (a + b)[1..] == a[1..] + b;
      RunConcat(Next(s, a[0], atomic), a[1..], b, atomic);
    }
  }

  lemma Append(s: System, events: seq<Event>, ev: Event, atomic: bool) returns (all: seq<Event>)
    requires RunEnabled(s, events, atomic) && Enabled(Run(s, events, atomic), ev)
    ensures all == events + [ev] && RunEnabled(s, all, atomic)
    ensures Run(s, all, atomic) == Next(Run(s, events, atomic), ev, atomic)
  {
    all := events + [ev];
    assert [ev][1..] == [];
    RunConcat(s, events, [ev], atomic);
  }

  function Do(id: ProcessId, act: Act): Event { Event(id, act, false) }

  function Put(s: System, id: ProcessId, p: Process, present: bool): System {
    System(s.processes[id := p], present)
  }

  /** One more step of process `id`, while the others hold no locks. */
  lemma Go(s: System, events: seq<Event>, id: ProcessId, p: Process, present: bool, act: Act) returns (all: seq<Event>)
    requires id in s.processes && OthersHaveNo(s, id, {Shared, Exclusive})
    requires RunEnabled(s, events, false) && Run(s, events, false) == Put(s, id, p, present)
    requires LocallyEnabled(p, act) && (act == Check(false) ==> present)
    ensures RunEnabled(s, all, false)
    ensures var after := PresentAfter(Put(s, id, p, present), Do(id, act));
            Run(s, all, false) == Put(s, id, Local(p, act, false), after)
  {
    PutTwice(s, id, p, Local(p, act, false), present);
    all := Append(s, events, Do(id, act), false);
  }

  lemma PutTwice(s: System, id: ProcessId, p: Process, p': Process, present: bool)
    ensures Put(s, id, p, present).processes[id := p'] == s.processes[id := p']
  {
  }

  lemma PutSame(s: System, id: ProcessId)
    requires id in s.processes
    ensures Put(s, id, s.processes[id], s.present) == s
  {
    assert s.processes[id := s.processes[id]] == s.processes;
  }

  function EnteringAt(t: Thread, stage: Stage, lock: Lock): Process {
    Process(1, lock, Some(Entering(t, stage)), multiset{})
  }

  /** A process of its own accord comes to the point where it has deleted the sandbox and is about to extract it. */
  lemma ReachExtracting(s: System, id: ProcessId, t: Thread) returns (events: seq<Event>)
    requires id in s.processes && s.processes[id] == NEW_PROCESS && OthersHaveNo(s, id, {Shared, Exclusive})
    ensures RunEnabled(s, events, false)
    ensures Run(s, events, false) == Put(s, id, EnteringAt(t, Extracting, Exclusive), false)
  {
    PutSame(s, id);
    events := Go(s, [], id, NEW_PROCESS, s.present, Enter(t));
    events := Go(s, events, id, EnteringAt(t, FirstLock, Unlocked), s.present, Grant);
    events := Go(s, events, id, EnteringAt(t, FirstCheck, Shared), s.present, Check(true));
    events := Go(s, events, id, EnteringAt(t, UpgradeLock, Unlocked), s.present, Grant);
    events := Go(s, events, id, EnteringAt(t, SecondCheck, Exclusive), s.present, Check(true));
    events := Go(s, events, id, EnteringAt(t, Deleting, Exclusive), s.present, Delete);
  }

  const EXCHANGING := EnteringAt(Thread(0), LastLock, Unlocked)

  lemma ReachExchanging(s: System, id: ProcessId) returns (events: seq<Event>)
    requires id in s.processes && s.processes[id] == NEW_PROCESS && OthersHaveNo(s, id, {Shared, Exclusive})
    ensures RunEnabled(s, events, false) && Run(s, events, false) == Put(s, id, EXCHANGING, true)
  {
    events := ReachExtracting(s, id, Thread(0));
    events := Go(s, events, id, EnteringAt(Thread(0), Extracting, Exclusive), false, Extract);
  }

  /** An installation that fails after the deletion leaves nothing behind. */
  lemma ReachFailed(s: System, id: ProcessId) returns (events: seq<Event>)
    requires id in s.processes && s.processes[id] == NEW_PROCESS && OthersHaveNo(s, id, {Shared, Exclusive})
    ensures RunEnabled(s, events, false) && Run(s, events, false) == Put(s, id, NEW_PROCESS, false)
  {
    events := ReachExtracting(s, id, Thread(0));
    events := Go(s, events, id, EnteringAt(Thread(0), Extracting, Exclusive), false, Raise);
  }

  /** While one process exchanges its lock, another one gets in between, and its installation fails. */
  lemma LostBetweenLocks() returns (events: seq<Event>)
    ensures RunEnabled(Start({ProcessId(1), ProcessId(2)}, true), events, false)
    ensures !PresentInside(Run(Start({ProcessId(1), ProcessId(2)}, true), events, false))
  {
    var p, q := ProcessId(1), ProcessId(2);
    var s := Start({p, q}, true);
    var first := ReachExchanging(s, p);
    var s1 := Put(s, p, EXCHANGING, true);
    var second := ReachFailed(s1, q);
    var s2 := Put(s1, q, NEW_PROCESS, false);
    var third := EntersLost(s2, p);
    RunConcat(s1, second, third, false);
    RunConcat(s, first, second + third, false);
    events := first + (second + third);
  }

  lemma EntersLost(s: System, id: ProcessId) returns (events: seq<Event>)
    requires id in s.processes && s.processes[id] == EXCHANGING && OthersHaveNo(s, id, {Shared, Exclusive})
    requires !s.present
    ensures RunEnabled(s, events, false) && !PresentInside(Run(s, events, false))
  {
    PutSame(s, id);
    events := Go(s, [], id, EXCHANGING, false, Grant);
    assert Run(s, events, false).processes[id].inside == multiset{Thread(0)};
  }

  /**
   That the sandbox is there for as long as some thread is in its context depends on how `flock` exchanges
   an exclusive lock for a shared one: it holds if that is one step, and not if it is two.
   */
  lemma PresentIffAtomic(atomic: bool)
    ensures (forall s | Reachable(s, atomic) :: PresentInside(s)) <==> atomic
  {
    if atomic {
      forall s | Reachable(s, atomic) ensures PresentInside(s) {
        var ids, present, events :|
          RunEnabled(Start(ids, present), events, true) && s == Run(Start(ids, present), events, true);
        RunPresent(Start(ids, present), events);
      }
    } else {
      var events := LostBetweenLocks();
      assert Reachable(Run(Start({ProcessId(1), ProcessId(2)}, true), events, false), false);
    }
  }
}
