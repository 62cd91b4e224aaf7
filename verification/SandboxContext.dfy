/** The context manager itself (sandbox.py:57-79 and 146-172), one process seen from inside. */
module SandboxContext {
  import opened Types
  import opened Sandbox

  /** What the surroundings answer while a thread enters; `None` is an exception. */
  datatype Answers = Answers(firstCheck: Option<bool>, secondCheck: Option<bool>, installs: bool)

  /** The steps that `__enter__` takes, given the count at its start. */
  function Acts(count: nat, t: Thread, a: Answers): seq<Act> {
    if count > 0 then [Enter(t)] else [Enter(t), Grant] + FirstActs(a)
  }

  /** The steps from the first check on. */
  function FirstActs(a: Answers): seq<Act> {
    match a.firstCheck
    case None => [Raise]
    case Some(false) => [Check(false)]
    case Some(true) => [Check(true), Grant] + SecondActs(a)
  }

  /** The steps from the second check on. */
  function SecondActs(a: Answers): seq<Act> {
    match a.secondCheck
    case None => [Raise]
    case Some(false) => [Check(false), Grant]
    case Some(true) => [Check(true), Delete] + if a.installs then [Extract, Grant] else [Raise]
  }

  predicate Succeeds(count: nat, a: Answers) {
    count > 0
    || (a.firstCheck.Some? && (!a.firstCheck.value || (a.secondCheck.Some? && (!a.secondCheck.value || a.installs))))
  }

  predicate LocallyRunnable(p: Process, acts: seq<Act>)
    decreases |acts|
  {
    acts == [] || (LocallyEnabled(p, acts[0]) && LocallyRunnable(Local(p, acts[0], false), acts[1..]))
  }

  function LocalRun(p: Process, acts: seq<Act>): Process
    requires LocallyRunnable(p, acts)
    decreases |acts|
  {
    if acts == [] then p else LocalRun(Local(p, acts[0], false), acts[1..])
  }

  lemma LocalStep(p: Process, act: Act, rest: seq<Act>)
    requires LocallyEnabled(p, act) && LocallyRunnable(Local(p, act, false), rest)
    ensures LocallyRunnable(p, [act] + rest) && LocalRun(p, [act] + rest) == LocalRun(Local(p, act, false), rest)
  {
    assert ([act] + rest)[1..] == rest;
  }

  /** The lock that an unsuccessful first entry leaves behind. */
  function LeftoverLock(a: Answers): Lock {
    if a.firstCheck.None? then Shared else if a.secondCheck.None? then Exclusive else Unlocked
  }

  function AfterEnter(p: Process, t: Thread, a: Answers): Process {
    if Succeeds(p.count, a)
    then Process(p.count + 1, if p.count > 0 then p.lock else Shared, None, p.inside + multiset{t})
    else p.(lock := LeftoverLock(a))
  }

  lemma SecondHalf(p: Process, t: Thread, a: Answers)
    requires p.entering == Some(Entering(t, SecondCheck)) && p.lock == Exclusive && p.count == 1
    requires a.firstCheck == Some(true)
    ensures LocallyRunnable(p, SecondActs(a))
    ensures LocalRun(p, SecondActs(a)) == AfterEnter(p.(count := 0, entering := None), t, a)
  {
    match a.secondCheck
    case None => LocalStep(p, Raise, []);
    case Some(false) =>
      LocalStep(At(p, LastLock, Unlocked), Grant, []);
      LocalStep(p, Check(false), [Grant]);
    case Some(true) => Install(p, t, a);
  }

  lemma Upgrade(p: Process, t: Thread, a: Answers)
    requires p.entering == Some(Entering(t, FirstCheck)) && p.lock == Shared && p.count == 1
    requires a.firstCheck == Some(true)
    ensures var acts := [Check(true), Grant] + SecondActs(a);
            LocallyRunnable(p, acts) && LocalRun(p, acts) == AfterEnter(p.(count := 0, entering := None), t, a)
  {
    var p2, rest := At(p, SecondCheck, Exclusive), SecondActs(a);
    SecondHalf(p2, t, a);
    LocalStep(At(p, UpgradeLock, Unlocked), Grant, rest);
    LocalStep(p, Check(true), [Grant] + rest);
    assert [Check(true)] + ([Grant] + rest) == [Check(true), Grant] + rest;
  }

  lemma Install(p: Process, t: Thread, a: Answers)
    requires p.entering == Some(Entering(t, SecondCheck)) && p.lock == Exclusive && p.count == 1
    ensures var acts := [Check(true), Delete] + if a.installs then [Extract, Grant] else [Raise];
            LocallyRunnable(p, acts) && LocalRun(p, acts) ==
              if a.installs then Process(1, Shared, None, p.inside + multiset{t})
              else Process(0, Unlocked, None, p.inside)
  {
    var p1, p2 := At(p, Deleting, Exclusive), At(p, Extracting, Exclusive);
    var last := if a.installs then [Extract, Grant] else [Raise];
    if a.installs {
      LocalStep(At(p2, LastLock, Unlocked), Grant, []);
      LocalStep(p2, Extract, [Grant]);
    } else {
      LocalStep(p2, Raise, []);
    }
    LocalStep(p1, Delete, last);
    LocalStep(p, Check(true), [Delete] + last);
    assert [Check(true)] + ([Delete] + last) == [Check(true), Delete] + last;
  }

  lemma FirstHalf(p: Process, t: Thread, a: Answers)
    requires p.entering == Some(Entering(t, FirstCheck)) && p.lock == Shared && p.count == 1
    ensures LocallyRunnable(p, FirstActs(a))
    ensures LocalRun(p, FirstActs(a)) == AfterEnter(p.(count := 0, entering := None), t, a)
  {
    match a.firstCheck
    case None => LocalStep(p, Raise, []);
    case Some(false) => LocalStep(p, Check(false), []);
    case Some(true) => Upgrade(p, t, a);
  }

  /** What entering does, computed in one go, is what its steps do one after another. */
  lemma EnterIsItsSteps(p: Process, t: Thread, a: Answers)
    requires ProcessOk(p) && p.entering.None?
    ensures LocallyRunnable(p, Acts(p.count, t, a)) && LocalRun(p, Acts(p.count, t, a)) == AfterEnter(p, t, a)
  {
    if p.count > 0 {
      LocalStep(p, Enter(t), []);
    } else {
      var p1 := Process(1, Unlocked, Some(Entering(t, FirstLock)), p.inside);
      FirstHalf(At(p1, FirstCheck, Shared), t, a);
      LocalStep(p1, Grant, FirstActs(a));
      LocalStep(p, Enter(t), [Grant] + FirstActs(a));
      assert [Enter(t)] + ([Grant] + FirstActs(a)) == [Enter(t), Grant] + FirstActs(a);
    }
  }

  class FileLock {
    var mode: Lock

    constructor ()
      ensures mode == Unlocked
    {
      mode := Unlocked;
    }

    method LockShared()
      modifies this
      ensures mode == Shared
    {
      mode := Shared;
    }

    method LockExclusive()
      modifies this
      ensures mode == Exclusive
    {
      mode := Exclusive;
    }

    method Unlock()
      modifies this
      ensures mode == Unlocked
    {
      mode := Unlocked;
    }
  }

  class Context {
    var inContext: nat
    var fileLock: FileLock?
    ghost var inside: multiset<Thread>

    ghost predicate Valid()
      reads this, fileLock
    {
      (inContext > 0 ==> fileLock != null) && ProcessOk(Model())
    }

    ghost function Model(): Process
      reads this, fileLock
    {
      Process(inContext, if fileLock == null then Unlocked else fileLock.mode, None, inside)
    }

    constructor ()
      ensures Valid() && Model() == NEW_PROCESS
    {
      inContext, fileLock, inside := 0, null, multiset{};
    }

    /** `__enter__`; every lock that it asks for is granted in the end. */
    method Enter(t: Thread, a: Answers) returns (ok: bool)
      requires Valid()
      modifies this, fileLock
      ensures Valid() && ok == Succeeds(old(inContext), a)
      ensures fileLock != old(fileLock) ==> fresh(fileLock)
      ensures LocallyRunnable(old(Model()), Acts(old(inContext), t, a))
      ensures Model() == LocalRun(old(Model()), Acts(old(inContext), t, a))
    {
      EnterIsItsSteps(Model(), t, a);
      ok := true;
      inContext := inContext + 1;
      if inContext == 1 {
        fileLock := new FileLock();
        ok := Get(fileLock, a);
        if !ok {
          inContext := inContext - 1;
          return;
        }
      }
      inside := inside + multiset{t};
    }

    /** `__exit__`. */
    method Exit(t: Thread)
      requires Valid() && t in inside
      modifies this, fileLock
      ensures Valid() && fileLock == old(fileLock)
      ensures Model() == Local(old(Model()), Sandbox.Exit(t), false)
    {
      LocalOk(Model(), Sandbox.Exit(t), false);
      assert multiset{t} <= inside;
      inside := inside - multiset{t};
      inContext := inContext - 1;
      if inContext == 0 {
        fileLock.Unlock();
      }
    }
  }

  /** `_get`: which locks are taken around the checks and the installation. */
  method Get(lock: FileLock, a: Answers) returns (ok: bool)
    modifies lock
    ensures ok == Succeeds(0, a)
    ensures lock.mode == if ok then Shared else LeftoverLock(a)
  {
    lock.LockShared();
    if a.firstCheck.None? { return false; }
    if !a.firstCheck.value { return true; }
    lock.Unlock();
    lock.LockExclusive();
    if a.secondCheck.None? { return false; }
    if !a.secondCheck.value {
      lock.LockShared();
      return true;
    }
    if !a.installs {
      lock.Unlock();
      return false;
    }
    lock.LockShared();
    return true;
  }
}
