/** The protocol object itself (rpc.py:52-204); its methods do what the steps of `Rpc` say. */
module WorkerRpc {
  import opened Types
  import opened Rpc

  /** A deferred fires at most once. */
  class Deferred {
    var outcome: Option<Outcome>

    constructor ()
      ensures outcome == None
    {
      outcome := None;
    }

    method Fire(o: Outcome)
      requires outcome.None?
      modifies this
      ensures outcome == Some(o)
    {
      outcome := Some(o);
    }
  }

  datatype Held = Held(sent: Sent, d: Deferred)

  function SentOf(held: seq<Held>): (r: seq<Sent>)
    ensures |r| == |held| && forall i | 0 <= i < |r| :: r[i] == held[i].sent
  {
    seq(|held|, i requires 0 <= i < |held| => held[i].sent)
  }

  /** Every call has a number and a deferred of its own. */
  ghost predicate Apart(pending: map<RequestId, Deferred>, ready: seq<Held>, next: nat) {
    && (forall id | id in pending :: id.number < next)
    && (forall i | 0 <= i < |ready| :: ready[i].sent.id.number < next && ready[i].sent.id !in pending)
    && (forall i, j | 0 <= i < j < |ready| :: ready[i].sent.id != ready[j].sent.id && ready[i].d != ready[j].d)
    && (forall id, k | id in pending && k in pending && id != k :: pending[id] != pending[k])
    && (forall id, i | id in pending && 0 <= i < |ready| :: pending[id] != ready[i].d)
  }

  lemma ApartFirst(pending: map<RequestId, Deferred>, ready: seq<Held>, next: nat)
    requires Apart(pending, ready, next) && ready != []
    ensures Apart(pending[ready[0].sent.id := ready[0].d], ready[1..], next)
  {
  }

  lemma ApartCall(pending: map<RequestId, Deferred>, ready: seq<Held>, next: nat, d: Deferred)
    requires Apart(pending, ready, next)
    requires (forall id | id in pending :: pending[id] != d) && forall i | 0 <= i < |ready| :: ready[i].d != d
    ensures Apart(pending[RequestId(next) := d], ready, next + 1)
  {
  }

  lemma ApartHeld(pending: map<RequestId, Deferred>, ready: seq<Held>, next: nat, request: Request, d: Deferred)
    requires Apart(pending, ready, next)
    requires (forall id | id in pending :: pending[id] != d) && forall i | 0 <= i < |ready| :: ready[i].d != d
    ensures Apart(pending, ready + [Held(Sent(RequestId(next), request), d)], next + 1)
  {
  }

  /** `wire` is everything that was handed to the transport. */
  class WorkerRPC {
    const isServer: bool
    const commands: set<int>
    var state: Phase
    var requestId: nat
    var pendingCalls: map<RequestId, Deferred>
    var ready: seq<Held>
    var running: map<RequestId, Request>
    var wire: seq<Message>

    ghost function Model(): Endpoint
      reads this
    {
      Endpoint(isServer, state, requestId, pendingCalls.Keys, SentOf(ready), running, commands)
    }

    /** Every call has a deferred of its own, which has not fired yet. */
    ghost predicate Valid()
      reads this, pendingCalls.Values, set i | 0 <= i < |ready| :: ready[i].d
    {
      && Apart(pendingCalls, ready, requestId)
      && (forall id | id in pendingCalls :: pendingCalls[id].outcome.None?)
      && (forall i | 0 <= i < |ready| :: ready[i].d.outcome.None?)
    }

    constructor (server: bool, cmds: set<int>)
      ensures Valid() && Model() == Fresh(server, cmds) && wire == []
    {
      isServer, commands := server, cmds;
      state, requestId, pendingCalls, ready, running, wire := NotConnected, 0, map[], [], map[], [];
    }

    method SendMessage(m: Message)
      modifies `wire
      ensures wire == old(wire) + [m]
    {
      wire := wire + [m];
    }

    method ConnectionMade()
      requires Valid()
      modifies `state, `wire
      ensures Valid() && Model() == Rpc.ConnectionMade(old(Model())).e
      ensures wire == old(wire) + Rpc.ConnectionMade(old(Model())).messages
    {
      state := Connected;
      if !isServer {
        SendMessage(Hello);
        state := SentHello;
      }
    }

    /** The deferred of a pending call fires and is forgotten; the others are left alone. */
    method Settle(id: RequestId, o: Outcome)
      requires Valid() && id in pendingCalls
      modifies `pendingCalls, pendingCalls[id]
      ensures Valid() && pendingCalls == old(pendingCalls) - {id}
      ensures old(pendingCalls[id]).outcome == Some(o)
    {
      var d := pendingCalls[id];
      pendingCalls := pendingCalls - {id};
      d.Fire(o);
    }

    /** The call that was held back longest becomes pending and is sent. */
    method SendHeld()
      requires Valid() && ready != []
      modifies `pendingCalls, `ready, `wire
      ensures Valid() && |ready| < |old(ready)| && SentOf(ready) == SentOf(old(ready))[1..]
      ensures pendingCalls.Keys == old(pendingCalls.Keys) + {old(ready)[0].sent.id}
      ensures wire == old(wire) + [Call(old(ready)[0].sent.id, old(ready)[0].sent.request)]
    {
      var h := ready[0];
      ApartFirst(pendingCalls, ready, requestId);
      ready := ready[1..];
      pendingCalls := pendingCalls[h.sent.id := h.d];
      SendMessage(Call(h.sent.id, h.sent.request));
    }

    /** `ready` fires: the calls that were held back become pending and are sent, in order. */
    method FireReady()
      requires Valid()
      modifies `pendingCalls, `ready, `wire
      ensures Valid() && ready == []
      ensures pendingCalls.Keys == old(pendingCalls.Keys) + IdsOf(SentOf(old(ready)))
      ensures wire == old(wire) + CallMessages(SentOf(old(ready)))
    {
      ghost var keys, start, calls := pendingCalls.Keys, wire, SentOf(ready);
      ghost var done, left := [], calls;
      while ready != []
        invariant Valid() && left == SentOf(ready) && calls == done + left
        invariant pendingCalls.Keys == keys + IdsOf(done) && wire == start + CallMessages(done)
        decreases |ready|
      {
        NextSent(done, left, start, keys);
        SendHeld();
        done, left := done + [left[0]], left[1..];
      }
      assert done == calls;
    }

    /** A result or an error arrives for a call. */
    method Resolve(id: RequestId, o: Outcome) returns (error: Option<ProtocolError>)
      requires Valid()
      modifies `pendingCalls, pendingCalls.Values
      ensures Valid()
      ensures var r := Answer(old(Model()), id, o); Model() == r.e && error == r.error
      ensures forall k | k in old(pendingCalls) ::
                old(pendingCalls[k]).outcome == if k == id then Some(o) else old(pendingCalls[k].outcome)
    {
      if id !in pendingCalls { return Some(UnknownCall(id)); }
      Settle(id, o);
      return None;
    }

    /** The same, on the value of the endpoint. */
    method ReleaseHeld()
      requires Valid()
      modifies `pendingCalls, `ready, `wire
      ensures Valid()
      ensures var e := old(Model());
              && Model() == e.(pending := e.pending + IdsOf(e.held), held := [])
              && wire == old(wire) + CallMessages(e.held)
    {
      FireReady();
      assert SentOf(ready) == [];
    }

    /** The handshake; `first` is sent before the calls that were held back. */
    method Greet(first: seq<Message>)
      requires Valid() && !state.Established?
      modifies `state, `pendingCalls, `ready, `wire
      ensures Valid()
      ensures var r := Establish(old(Model()), first); Model() == r.e && wire == old(wire) + r.messages
      ensures forall k | k in old(pendingCalls) :: old(pendingCalls[k]).outcome == None
    {
      ghost var start, calls := wire, Model().held;
      wire := wire + first;
      state := Established;
      ReleaseHeld();
      Assoc(start, first, CallMessages(calls));
    }

    /** `_processMessage`; a protocol error is returned instead of raised. */
    method ProcessMessage(m: Message) returns (error: Option<ProtocolError>)
      requires Valid()
      modifies this, pendingCalls.Values
      ensures Valid()
      ensures var r := Receive(old(Model()), m);
              Model() == r.e && wire == old(wire) + r.messages && error == r.error
      ensures (m.Result? || m.Error?) && m.id in old(pendingCalls) ==>
                old(pendingCalls[m.id]).outcome == Receive(old(Model()), m).fires
      ensures forall id | id in old(pendingCalls) && !((m.Result? || m.Error?) && m.id == id) ::
                old(pendingCalls[id]).outcome == None
    {
      error := None;
      match state
      case Established =>
        match m {
          case Result(id, value) => error := Resolve(id, Returned(value));
          case Error(id, problem) => error := Resolve(id, Failed(problem));
          case Call(id, request) =>
            if request.command in commands {
              running := running[id := request];
            } else {
              SendMessage(Error(id, NoSuchMethod(request.command)));
            }
          case _ =>
        }
      case Connected =>
        if !isServer { return Some(BeforeHello); }
        if !m.Hello? { return Some(ExpectedHello); }
        Greet([HelloAck]);
      case SentHello =>
        if !m.HelloAck? { return Some(ExpectedHelloAck); }
        Greet([]);
      case NotConnected =>
    }

    /** `call`: the new deferred is returned, and is pending from now on or from `ready` on. */
    method MakeCall(request: Request) returns (d: Deferred)
      requires Valid()
      modifies this
      ensures Valid() && fresh(d) && d.outcome == None
      ensures var r := Issue(old(Model()), request); Model() == r.e && wire == old(wire) + r.messages
      ensures var id := RequestId(old(requestId));
              if state.Established? then pendingCalls == old(pendingCalls)[id := d]
              else ready == old(ready) + [Held(Sent(id, request), d)]
    {
      d := new Deferred();
      if !state.Established? {
        HoldCall(request, d);
      } else {
        SendCall(request, d);
      }
    }

    ghost predicate Unused(d: Deferred)
      reads this, d
    {
      && d.outcome.None?
      && (forall id | id in pendingCalls :: pendingCalls[id] != d) && forall i | 0 <= i < |ready| :: ready[i].d != d
    }

    method HoldCall(request: Request, d: Deferred)
      requires Valid() && Unused(d)
      modifies `requestId, `ready
      ensures Valid() && requestId == old(requestId) + 1
      ensures ready == old(ready) + [Held(Sent(RequestId(old(requestId)), request), d)]
    {
      ApartHeld(pendingCalls, ready, requestId, request, d);
      ready := ready + [Held(Sent(RequestId(requestId), request), d)];
      requestId := requestId + 1;
    }

    method SendCall(request: Request, d: Deferred)
      requires Valid() && Unused(d)
      modifies `requestId, `pendingCalls, `wire
      ensures Valid() && requestId == old(requestId) + 1
      ensures pendingCalls == old(pendingCalls)[RequestId(old(requestId)) := d]
      ensures wire == old(wire) + [Call(RequestId(old(requestId)), request)]
    {
      ApartCall(pendingCalls, ready, requestId, d);
      pendingCalls := pendingCalls[RequestId(requestId) := d];
      SendMessage(Call(RequestId(requestId), request));
      requestId := requestId + 1;
    }

    /** `_reply` and `_replyError`. */
    method FinishCall(id: RequestId, o: Outcome)
      requires Valid() && !o.TimedOut?
      modifies `running, `wire
      ensures Valid()
      ensures var r := Finish(old(Model()), id, o); Model() == r.e && wire == old(wire) + r.messages
    {
      running := running - {id};
      SendMessage(ReplyTo(id, o));
    }

    /** `_timeout`. */
    method TimeOut(id: RequestId)
      requires Valid() && id in pendingCalls
      modifies `pendingCalls, pendingCalls[id]
      ensures Valid() && Model() == Expire(old(Model()), id).e
      ensures old(pendingCalls[id]).outcome == Some(TimedOut)
    {
      Settle(id, TimedOut);
    }
  }

  /** What one more call that is sent adds. */
  lemma NextSent(done: seq<Sent>, left: seq<Sent>, start: seq<Message>, keys: set<RequestId>)
    requires left != []
    ensures done + left == done + [left[0]] + left[1..]
    ensures keys + IdsOf(done + [left[0]]) == keys + IdsOf(done) + {left[0].id}
    ensures start + CallMessages(done + [left[0]]) == start + CallMessages(done) + [Call(left[0].id, left[0].request)]
  {
    IdsOfAppend(done, left[0]);
    assert CallMessages(done + [left[0]]) == CallMessages(done) + [Call(left[0].id, left[0].request)];
  }

  lemma Assoc(a: seq<Message>, b: seq<Message>, c: seq<Message>)
    ensures a + b + c == a + (b + c)
  {
  }

  lemma IdsOfAppend(calls: seq<Sent>, x: Sent)
    ensures IdsOf(calls + [x]) == IdsOf(calls) + {x.id}
  {
    var all := calls + [x];
    assert all[|calls|] == x;
    forall id | id in IdsOf(calls) ensures id in IdsOf(all) {
      var i :| 0 <= i < |calls| && calls[i].id == id;
      assert all[i].id == id;
    }
    forall id | id in IdsOf(all) ensures id in IdsOf(calls) + {x.id} {
      var i :| 0 <= i < |all| && all[i].id == id;
      assert i < |calls| ==> calls[i].id == id;
    }
  }
}
