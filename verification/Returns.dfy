/**
 What the return of a group comes to, told by the events of a run (taskmanager.py:115-144 and 301-390). A return
 begins when a group is finished or rejected, or when a start finds its result on disk.
 */
module Returns {
  import opened Types
  import opened Delivery

  // ----- delays

  function Power(n: nat): nat { if n == 0 then 1 else 10 * Power(n - 1) }

  /** `RETRY_DELAY_OF_RESULT_RETURNING`. */
  const RETRY_DELAYS: seq<nat> := [10, 100, 1000, 10000, 100000, 1000000]

  lemma DelayIsPower(count: nat)
    requires count < MAX_RETRIES
    ensures RETRY_DELAYS[count] == Power(count + 1)
  {
    assert Power(2) == 10 * Power(1) && Power(3) == 10 * Power(2);
    assert Power(4) == 10 * Power(3) && Power(5) == 10 * Power(4) && Power(6) == 10 * Power(5);
  }

  // ----- replies and delays of one group

  predicate RepliesTo(ev: Event, g: TaskId) { ev.Respond? && ev.g == g }

  /** The replies to the attempts of `g`, in order. */
  function RepliesIn(events: seq<Event>, g: TaskId): seq<bool> {
    if events == [] then []
    else (if RepliesTo(events[0], g) then [events[0].ok] else []) + RepliesIn(events[1..], g)
  }

  /** The delay that an event makes `g` wait for, if any. */
  function DelayAfter(s: Service, ev: Event, g: TaskId): seq<nat>
    requires Enabled(s, ev)
  {
    if RepliesTo(ev, g) && g in Next(s, ev).live && s.live[g].next < MAX_RETRIES
    then [RETRY_DELAYS[s.live[g].next]] else []
  }

  function DelaysIn(s: Service, events: seq<Event>, g: TaskId): seq<nat>
    requires RunEnabled(s, events)
    decreases |events|
  {
    if events == [] then [] else DelayAfter(s, events[0], g) + DelaysIn(Next(s, events[0]), events[1..], g)
  }

  // ----- a return under way

  /** How many attempts a return that begins with `count` has. */
  function Limit(count: nat): nat { if count < MAX_RETRIES then 1 + (MAX_RETRIES - count) else 1 }

  predicate AllFailed(rs: seq<bool>) { forall i | 0 <= i < |rs| :: !rs[i] }

  function LastOutcome(s: Service, g: TaskId): Option<Settled> {
    if g in s.settled then Some(s.settled[g]) else None
  }

  /** The number that is stored after `n` replies to a return that began with `count`. */
  function StoredCount(count: nat, n: nat): nat { if n <= 1 then count else count + n - 2 }

  /** The return of `env` that began with `count` has got the replies `rs` and goes on. */
  ghost predicate Underway(s: Service, g: TaskId, env: Env, count: nat, rs: seq<bool>) {
    && s.up && g in s.live && (g in s.accepted || g in s.rejected)
    && AllFailed(rs) && |rs| < Limit(count)
    && (|| s.live[g] == Attempt(env, count, |rs| + 1, count + |rs|,
                                if rs == [] then None else Some(count + |rs| - 1))
        || (rs != [] && s.live[g] == Delayed(env, count, |rs|, count + |rs| - 1)))
    && (g in s.accepted ==> g in s.db && s.db[g].retryCnt == Some(StoredCount(count, |rs|)))
  }

  /** It has ended: the last reply was a success, or the last one of all that it may have. */
  ghost predicate Over(s: Service, g: TaskId, env: Env, count: nat, rs: seq<bool>) {
    && s.up && g !in s.live && (g in s.accepted || g in s.rejected)
    && rs != [] && AllFailed(rs[..|rs| - 1]) && |rs| <= Limit(count)
    && g in s.settled
    && if rs[|rs| - 1] then s.settled[g] == Delivered(env) else s.settled[g] == GivenUp && |rs| == Limit(count)
  }

  predicate Powers(ds: seq<nat>, count: nat) { forall i | 0 <= i < |ds| :: ds[i] == Power(count + i + 1) }

  lemma LastReply(s: Service, g: TaskId, ok: bool, env: Env, count: nat, rs: seq<bool>)
    requires Underway(s, g, env, count, rs) && Enabled(s, Respond(g, ok)) && (ok || |rs| + 1 == Limit(count))
    ensures Over(Next(s, Respond(g, ok)), g, env, count, rs + [ok]) && DelayAfter(s, Respond(g, ok), g) == []
  {
    assert (rs + [ok])[..|rs|] == rs;
  }

  lemma FailedReply(s: Service, g: TaskId, env: Env, count: nat, rs: seq<bool>)
    requires Underway(s, g, env, count, rs) && Enabled(s, Respond(g, false)) && |rs| + 1 < Limit(count)
    ensures var s' := Next(s, Respond(g, false));
            Underway(s', g, env, count, rs + [false]) && LastOutcome(s', g) == LastOutcome(s, g)
    ensures DelayAfter(s, Respond(g, false), g) == [Power(count + |rs| + 1)]
  {
    DelayIsPower(count + |rs|);
  }

  lemma OtherStep(s: Service, ev: Event, g: TaskId, env: Env, count: nat, rs: seq<bool>)
    requires Underway(s, g, env, count, rs) && Enabled(s, ev) && !ev.Crash? && !RepliesTo(ev, g)
    ensures Underway(Next(s, ev), g, env, count, rs) && LastOutcome(Next(s, ev), g) == LastOutcome(s, g)
    ensures DelayAfter(s, ev, g) == []
  {
  }

  /** Once a return has ended, nothing changes before a crash. */
  lemma {:induction false} OverStays(s: Service, events: seq<Event>, g: TaskId, env: Env, count: nat, rs: seq<bool>)
    requires Over(s, g, env, count, rs)
    requires RunEnabled(s, events) && forall i | 0 <= i < |events| :: !events[i].Crash?
    ensures Over(Run(s, events), g, env, count, rs) && RepliesIn(events, g) == [] && DelaysIn(s, events, g) == []
    decreases |events|
  {
    if events != [] {
      assert !events[0].Crash?;
      OverStays(Next(s, events[0]), events[1..], g, env, count, rs);
    }
  }

  ghost predicate Outcome(s: Service, g: TaskId, env: Env, count: nat, rs: seq<bool>, was: Option<Settled>) {
    if g in s.live then Underway(s, g, env, count, rs) && LastOutcome(s, g) == was else Over(s, g, env, count, rs)
  }

  /** What `end` says of a return that had got the replies `rs`, after `more` replies and the delays `ds`. */
  ghost predicate Told(end: Service, g: TaskId, env: Env, count: nat, rs: seq<bool>, more: seq<bool>, ds: seq<nat>,
                       was: Option<Settled>) {
    && Outcome(end, g, env, count, rs + more, was)
    && Powers(ds, count + |rs|) && |ds| == |more| - if g in end.live then 0 else 1
  }

  lemma ToldAfterReply(end: Service, g: TaskId, env: Env, count: nat, rs: seq<bool>, ok: bool, more: seq<bool>,
                       ds: seq<nat>, was: Option<Settled>)
    requires Told(end, g, env, count, rs + [ok], more, ds, was)
    ensures Told(end, g, env, count, rs, [ok] + more, [Power(count + |rs| + 1)] + ds, was)
  {
    assert rs + ([ok] + more) == rs + [ok] + more;
    var ds' := [Power(count + |rs| + 1)] + ds;
    forall i | 0 < i < |ds'| ensures ds'[i] == Power(count + |rs| + i + 1) { assert ds'[i] == ds[i - 1]; }
  }

  lemma ToldAtEnd(end: Service, g: TaskId, env: Env, count: nat, rs: seq<bool>, ok: bool, was: Option<Settled>)
    requires Over(end, g, env, count, rs + [ok])
    ensures Told(end, g, env, count, rs, [ok], [], was)
  {
  }

  lemma ToldNow(s: Service, g: TaskId, env: Env, count: nat, rs: seq<bool>)
    requires Underway(s, g, env, count, rs)
    ensures Told(s, g, env, count, rs, [], [], LastOutcome(s, g))
  {
    assert rs + [] == rs;
  }

  lemma FirstReply(s: Service, events: seq<Event>, g: TaskId)
    requires RunEnabled(s, events) && events != []
    ensures var reply := if RepliesTo(events[0], g) then [events[0].ok] else [];
            RepliesIn(events, g) == reply + RepliesIn(events[1..], g)
    ensures DelaysIn(s, events, g) == DelayAfter(s, events[0], g) + DelaysIn(Next(s, events[0]), events[1..], g)
  {
  }

  /** Whatever else happens in between, as long as the server does not crash. */
  lemma {:induction false} ReturnGoesOn(s: Service, events: seq<Event>, g: TaskId, env: Env, count: nat, rs: seq<bool>)
    requires Underway(s, g, env, count, rs)
    requires RunEnabled(s, events) && forall i | 0 <= i < |events| :: !events[i].Crash?
    ensures Told(Run(s, events), g, env, count, rs, RepliesIn(events, g), DelaysIn(s, events, g), LastOutcome(s, g))
    decreases |events|
  {
    if events == [] {
      ToldNow(s, g, env, count, rs);
    } else {
      assert !events[0].Crash?;
      var s1, more := Next(s, events[0]), events[1..];
      FirstReply(s, events, g);
      if !RepliesTo(events[0], g) {
        OtherStep(s, events[0], g, env, count, rs);
        ReturnGoesOn(s1, more, g, env, count, rs);
        assert [] + RepliesIn(more, g) == RepliesIn(more, g) && [] + DelaysIn(s1, more, g) == DelaysIn(s1, more, g);
      } else {
        var ok := events[0].ok;
        if ok || |rs| + 1 == Limit(count) {
          LastReply(s, g, ok, env, count, rs);
          OverStays(s1, more, g, env, count, rs + [ok]);
          ToldAtEnd(Run(s, events), g, env, count, rs, ok, LastOutcome(s, g));
          assert [ok] + [] == [ok];
        } else {
          FailedReply(s, g, env, count, rs);
          ReturnGoesOn(s1, more, g, env, count, rs + [ok]);
          ToldAfterReply(Run(s, events), g, env, count, rs, ok, RepliesIn(more, g), DelaysIn(s1, more, g),
                         LastOutcome(s, g));
        }
      }
    }
  }

  // ----- where a return begins

  /** A record of a group that is still to be judged has count 0, and one that is being returned says so. */
  ghost predicate StatusOk(s: Service) {
    && (forall g | g in s.accepted && g in s.db && s.db[g].status == Some(ToJudge) :: s.db[g].retryCnt == Some(0))
    && (forall g | g in s.accepted && g in s.disk && s.disk[g].status == Some(ToJudge) :: s.disk[g].retryCnt == Some(0))
    && (forall g | g in s.accepted && g in s.live && s.live[g] != Judging ::
          g in s.db && s.db[g].status == Some(ToReturn))
  }

  lemma StatusAfterReply(s: Service, g: TaskId, ok: bool)
    requires StatusOk(s) && Enabled(s, Respond(g, ok))
    ensures StatusOk(Next(s, Respond(g, ok)))
  {
    var s' := Next(s, Respond(g, ok));
    forall h | h in s'.live || h in s'.db ensures h != g ==> (h in s'.db <==> h in s.db) {}
  }

  lemma StatusAfterFinish(s: Service, g: TaskId, result: int)
    requires Inv(s) && StatusOk(s) && Enabled(s, Finish(g, result))
    ensures StatusOk(Next(s, Finish(g, result)))
  {
    assert PhaseOk(s, g, s.live[g]);
  }

  lemma StatusAfterRestart(s: Service)
    requires Inv(s) && StatusOk(s) && !s.up
    ensures StatusOk(Next(s, Restart))
  {
  }

  lemma StatusKept(s: Service, ev: Event)
    requires Inv(s) && StatusOk(s) && Enabled(s, ev)
    ensures StatusOk(Next(s, ev))
  {
    match ev
    case Respond(g, ok) => StatusAfterReply(s, g, ok);
    case Finish(g, result) => StatusAfterFinish(s, g, result);
    case Restart => StatusAfterRestart(s);
    case Accept(g, timestamp) =>
    case Reject(g, error) =>
    case Timer(g) =>
    case Sync =>
    case Crash =>
  }

  lemma {:induction false} RunStatus(s: Service, events: seq<Event>)
    requires Inv(s) && StatusOk(s) && RunEnabled(s, events)
    ensures StatusOk(Run(s, events))
    decreases |events|
  {
    if events != [] {
      NextInv(s, events[0]);
      StatusKept(s, events[0]);
      RunStatus(Next(s, events[0]), events[1..]);
    }
  }

  lemma ReachableStatus(s: Service)
    requires Reachable(s)
    ensures Inv(s) && StatusOk(s)
  {
    var events :| RunEnabled(START, events) && s == Run(START, events);
    RunInv(START, events);
    RunStatus(START, events);
  }

  /** The count and the result with which `returnToSio` is called. */
  datatype Begin = Begin(count: nat, env: Env)

  /** An event with which the return of `g` begins: at 0 unless it is a start that finds a count on disk. */
  function BeginOf(s: Service, ev: Event, g: TaskId): Option<Begin> {
    match ev
    case Finish(h, result) => if h == g then Some(Begin(0, Judged(result))) else None
    case Reject(h, error) => if h == g then Some(Begin(0, Judged(error))) else None
    case Restart =>
      if Resumable(s.disk) && g in s.disk && s.disk[g].status == Some(ToReturn) && s.disk[g].retryCnt.Some?
      then Some(Begin(s.disk[g].retryCnt.value, s.disk[g].env.value)) else None
    case _ => None
  }

  lemma BeginsUnderway(s: Service, ev: Event, g: TaskId)
    requires Inv(s) && StatusOk(s) && Enabled(s, ev) && BeginOf(s, ev, g).Some?
    ensures var b := BeginOf(s, ev, g).value;
            b.count < MAX_RETRIES && Underway(Next(s, ev), g, b.env, b.count, [])
    ensures LastOutcome(Next(s, ev), g) == LastOutcome(s, g)
  {
    match ev
    case Finish(h, result) => assert PhaseOk(s, g, s.live[g]);
    case Restart => assert Readable(s.disk[g]); assert g in s.accepted ==> StoredOk(s, g, s.disk[g]);
    case Reject(h, error) =>
  }

  lemma BeginsReachable(s: Service, ev: Event, g: TaskId)
    requires Reachable(s) && Enabled(s, ev) && BeginOf(s, ev, g).Some?
    ensures var b := BeginOf(s, ev, g).value;
            b.count < MAX_RETRIES && Underway(Next(s, ev), g, b.env, b.count, [])
    ensures LastOutcome(Next(s, ev), g) == LastOutcome(s, g)
  {
    ReachableStatus(s);
    BeginsUnderway(s, ev, g);
  }

  lemma ReturnFrom(s: Service, events: seq<Event>, g: TaskId, b: Begin, was: Option<Settled>)
    requires Underway(s, g, b.env, b.count, []) && LastOutcome(s, g) == was
    requires RunEnabled(s, events) && forall i | 0 <= i < |events| :: !events[i].Crash?
    ensures var end, rs, ds := Run(s, events), RepliesIn(events, g), DelaysIn(s, events, g);
            && Outcome(end, g, b.env, b.count, rs, was)
            && |ds| == |rs| - (if g in end.live then 0 else 1) && Powers(ds, b.count)
  {
    ReturnGoesOn(s, events, g, b.env, b.count, []);
    var rs := RepliesIn(events, g);
    assert [] + rs == rs;
  }

  /**
   A return from any reachable state on, up to the next crash: it gets at most 1 + (6 - count) replies, all but the
   last of them failures. It goes on as long as they are fewer and all failures, and nothing is settled. It ends with
   a success, and then its own result is delivered, or with the last reply it may have, and then the group is given
   up. Between the attempts it waits 10^(count + 1), 10^(count + 2), ... seconds. The record of an accepted group has
   the number of the last retry that got a reply.
   */
  lemma WholeReturn(s: Service, ev: Event, events: seq<Event>, g: TaskId)
    requires Reachable(s) && Enabled(s, ev) && BeginOf(s, ev, g).Some?
    requires RunEnabled(Next(s, ev), events) && forall i | 0 <= i < |events| :: !events[i].Crash?
    ensures var b, end := BeginOf(s, ev, g).value, Run(Next(s, ev), events);
            var rs, ds := RepliesIn(events, g), DelaysIn(Next(s, ev), events, g);
            && Outcome(end, g, b.env, b.count, rs, LastOutcome(s, g))
            && |ds| == |rs| - (if g in end.live then 0 else 1) && Powers(ds, b.count)
  {
    var b := BeginOf(s, ev, g).value;
    BeginsReachable(s, ev, g);
    ReturnFrom(Next(s, ev), events, g, b, LastOutcome(s, g));
  }

  // ----- runs from the start

  lemma {:induction false} RunSplit(s: Service, a: seq<Event>, b: seq<Event>)
    requires RunEnabled(s, a + b)
    ensures RunEnabled(s, a) && RunEnabled(Run(s, a), b) && Run(s, a + b) == Run(Run(s, a), b)
    decreases |a|
  {
    if a == [] {
      assert a + b == b;
    } else {
      assert (a + b)[0] == a[0] && (a + b)[1..] == a[1..] + b;
      RunSplit(Next(s, a[0]), a[1..], b);
    }
  }

  lemma SevenIfFromZero(end: Service, g: TaskId, env: Env, rs: seq<bool>, was: Option<Settled>)
    requires Outcome(end, g, env, 0, rs, was)
    ensures |rs| <= 7 && (forall i | 0 <= i < |rs| - 1 :: !rs[i])
    ensures g in end.live <==> |rs| < 7 && forall i | 0 <= i < |rs| :: !rs[i]
    ensures g !in end.live ==> g in end.settled && end.settled[g] == if rs[|rs| - 1] then Delivered(env) else GivenUp
  {
    if g !in end.live { assert forall i | 0 <= i < |rs| - 1 :: rs[..|rs| - 1][i] == rs[i]; }
  }

  /**
   After its group is finished, and as long as the server does not crash, a return has up to seven attempts, ended by
   the first success; the group is given up if and only if seven have failed.
   */
  lemma SevenAttempts(before: seq<Event>, g: TaskId, result: int, after: seq<Event>)
    requires RunEnabled(START, before + ([Finish(g, result)] + after))
    requires forall i | 0 <= i < |after| :: !after[i].Crash?
    ensures var s, rs := Run(START, before + ([Finish(g, result)] + after)), RepliesIn(after, g);
            && |rs| <= 7 && (forall i | 0 <= i < |rs| - 1 :: !rs[i])
            && (g in s.live <==> |rs| < 7 && forall i | 0 <= i < |rs| :: !rs[i])
            && (g !in s.live ==>
                  g in s.settled && s.settled[g] == if rs[|rs| - 1] then Delivered(Judged(result)) else GivenUp)
  {
    var finish := Finish(g, result);
    RunSplit(START, before, [finish] + after);
    var s := Run(START, before);
    assert ([finish] + after)[1..] == after;
    assert Reachable(s);
    WholeReturn(s, finish, after, g);
    SevenIfFromZero(Run(Next(s, finish), after), g, Judged(result), RepliesIn(after, g), LastOutcome(s, g));
  }

  // ----- what has happened, and what the state says about it

  predicate AcceptedIn(events: seq<Event>, g: TaskId) {
    exists i :: 0 <= i < |events| && events[i].Accept? && events[i].g == g
  }

  predicate RejectedIn(events: seq<Event>, g: TaskId) {
    exists i :: 0 <= i < |events| && events[i].Reject? && events[i].g == g
  }

  lemma HistoryStep(s: Service, ev: Event, g: TaskId, result: int)
    requires Enabled(s, ev)
    ensures var s' := Next(s, ev);
            && (g in s'.accepted <==> g in s.accepted || (ev.Accept? && ev.g == g))
            && (g in s'.rejected <==> g in s.rejected || (ev.Reject? && ev.g == g))
            && (Verdict(g, result) in s'.verdicts <==>
                Verdict(g, result) in s.verdicts || ev == Finish(g, result) || ev == Reject(g, result))
            && (g in s'.settled ==> g in s.settled || ev == Respond(g, true) || ev == Respond(g, false))
  {
    if ev.Respond? && ev.g == g { assert ev == Respond(g, true) || ev == Respond(g, false); }
  }

  /** Accepted and rejected groups and verdicts are those of the events, and only replies settle a group. */
  lemma {:induction false} HistoryFrom(s: Service, events: seq<Event>, g: TaskId, result: int)
    requires RunEnabled(s, events)
    ensures var end := Run(s, events);
            && (g in end.accepted <==> g in s.accepted || AcceptedIn(events, g))
            && (g in end.rejected <==> g in s.rejected || RejectedIn(events, g))
            && (Verdict(g, result) in end.verdicts <==>
                Verdict(g, result) in s.verdicts || Finish(g, result) in events || Reject(g, result) in events)
            && (g in end.settled ==> g in s.settled || Respond(g, true) in events || Respond(g, false) in events)
    decreases |events|
  {
    if events != [] {
      var ev, more := events[0], events[1..];
      HistoryStep(s, ev, g, result);
      HistoryFrom(Next(s, ev), more, g, result);
      assert events == [ev] + more;
      OneMore(ev, more, g);
    }
  }

  lemma OneMore(ev: Event, more: seq<Event>, g: TaskId)
    ensures AcceptedIn([ev] + more, g) <==> (ev.Accept? && ev.g == g) || AcceptedIn(more, g)
    ensures RejectedIn([ev] + more, g) <==> (ev.Reject? && ev.g == g) || RejectedIn(more, g)
  {
    var events := [ev] + more;
    assert events[0] == ev && forall i | 0 <= i < |more| :: more[i] == events[i + 1];
  }

  lemma HistoryIsEvents(events: seq<Event>, g: TaskId, result: int)
    requires RunEnabled(START, events)
    ensures var s := Run(START, events);
            && (g in s.accepted <==> AcceptedIn(events, g))
            && (g in s.rejected <==> RejectedIn(events, g))
            && (Verdict(g, result) in s.verdicts <==> Finish(g, result) in events || Reject(g, result) in events)
            && (g in s.settled ==> Respond(g, true) in events || Respond(g, false) in events)
  {
    HistoryFrom(START, events, g, result);
  }

  predicate Stamped(db: Db, g: TaskId, timestamp: int) { g in db && db[g].timestamp == Some(timestamp) }

  lemma StampStep(s: Service, ev: Event, g: TaskId, timestamp: int)
    requires Enabled(s, ev)
    ensures var s' := Next(s, ev);
            Stamped(s'.db, g, timestamp) || Stamped(s'.disk, g, timestamp) ==>
              Stamped(s.db, g, timestamp) || Stamped(s.disk, g, timestamp) || ev == Accept(g, timestamp)
  {
  }

  lemma {:induction false} StampsFrom(s: Service, events: seq<Event>, g: TaskId, timestamp: int)
    requires RunEnabled(s, events)
    ensures var end := Run(s, events);
            Stamped(end.db, g, timestamp) || Stamped(end.disk, g, timestamp) ==>
              Stamped(s.db, g, timestamp) || Stamped(s.disk, g, timestamp) || Accept(g, timestamp) in events
    decreases |events|
  {
    if events != [] {
      StampStep(s, events[0], g, timestamp);
      StampsFrom(Next(s, events[0]), events[1..], g, timestamp);
      assert events == [events[0]] + events[1..];
    }
  }

  /** A stored time, by which a start sorts the groups, is the one at which the group was accepted. */
  lemma StampsAreSubmissions(events: seq<Event>, g: TaskId, timestamp: int)
    requires RunEnabled(START, events)
    ensures var s := Run(START, events);
            Stamped(s.db, g, timestamp) || Stamped(s.disk, g, timestamp) ==> Accept(g, timestamp) in events
  {
    StampsFrom(START, events, g, timestamp);
  }
}
