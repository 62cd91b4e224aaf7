/**
 A server and a worker joined by two first-in-first-out channels, in every interleaving of their
 calls, handlers, timeouts and deliveries (rpc.py:52-204).
 */
module RpcSession {
  import opened Types
  import opened Rpc

  datatype Reply = Reply(id: RequestId, outcome: Outcome)

  /**
   What has happened at one end, in order: calls made, calls of the other side taken up, replies given
   to them, replies taken in; and how the deferreds of its own calls fired.
   */
  datatype Log = Log(
    issued: seq<Sent>,
    started: seq<Sent>,
    answers: seq<Reply>,
    received: seq<Reply>,
    fired: map<RequestId, Outcome>)

  datatype Node = Node(e: Endpoint, log: Log)

  datatype Side = Server | Client

  datatype Fault = Fault(side: Side, error: ProtocolError)

  datatype Session = Session(
    server: Node,
    client: Node,
    toServer: seq<Message>,
    toClient: seq<Message>,
    fault: Option<Fault>)

  datatype Act =
    | LinkUp | Deliver | Make(request: Request) | Complete(id: RequestId, outcome: Outcome) | RunOut(id: RequestId)

  datatype Event = Event(side: Side, act: Act)

  const NO_LOG := Log([], [], [], [], map[])

  function Start(serverCommands: set<int>, clientCommands: set<int>): Session {
    Session(Node(Fresh(true, serverCommands), NO_LOG), Node(Fresh(false, clientCommands), NO_LOG), [], [], None)
  }

  // ----- one end

  /** The result of a step at one end. */
  datatype Moved = Moved(n: Node, messages: seq<Message>, error: Option<ProtocolError>)

  function LogArrival(n: Node, m: Message): Log {
    var log := n.log;
    if !n.e.phase.Established? then log
    else
      match m
      case Result(id, value) => LogReply(n, Reply(id, Returned(value)))
      case Error(id, problem) => LogReply(n, Reply(id, Failed(problem)))
      case Call(id, request) =>
        log.(started := log.started + [Sent(id, request)],
             answers := if request.command in n.e.commands then log.answers
                        else log.answers + [Reply(id, Failed(NoSuchMethod(request.command)))])
      case _ => log
  }

  function LogReply(n: Node, r: Reply): Log {
    n.log.(received := n.log.received + [r],
           fired := if r.id in n.e.pending then n.log.fired[r.id := r.outcome] else n.log.fired)
  }

  function Move(n: Node, r: Reaction, log: Log): Moved {
    Moved(Node(r.e, log), r.messages, r.error)
  }

  function ActOn(n: Node, act: Act, arriving: seq<Message>): Moved
    requires act.Deliver? ==> arriving != []
    requires act.Complete? ==> !act.outcome.TimedOut?
    requires act.RunOut? ==> act.id in n.e.pending
  {
    match act
    case LinkUp => Move(n, ConnectionMade(n.e), n.log)
    case Deliver => Move(n, Receive(n.e, arriving[0]), LogArrival(n, arriving[0]))
    case Make(request) =>
      Move(n, Issue(n.e, request), n.log.(issued := n.log.issued + [Sent(RequestId(n.e.next), request)]))
    case Complete(id, outcome) =>
      Move(n, Finish(n.e, id, outcome), n.log.(answers := n.log.answers + [Reply(id, outcome)]))
    case RunOut(id) => Move(n, Expire(n.e, id), n.log.(fired := n.log.fired[id := TimedOut]))
  }

  predicate CanAct(n: Node, act: Act, arriving: seq<Message>) {
    match act
    case LinkUp => n.e.phase == NotConnected
    case Deliver => n.e.phase != NotConnected && arriving != []
    case Make(_) => true
    case Complete(id, outcome) => id in n.e.running && !outcome.TimedOut?
    case RunOut(id) => id in n.e.pending
  }

  // ----- the session

  predicate Enabled(s: Session, ev: Event) {
    s.fault.None?
    && if ev.side == Server then CanAct(s.server, ev.act, s.toServer) else CanAct(s.client, ev.act, s.toClient)
  }

  function Rest(act: Act, arriving: seq<Message>): seq<Message>
    requires act.Deliver? ==> arriving != []
  {
    if act.Deliver? then arriving[1..] else arriving
  }

  function FaultOf(side: Side, error: Option<ProtocolError>): Option<Fault> {
    if error.Some? then Some(Fault(side, error.value)) else None
  }

  function Next(s: Session, ev: Event): Session
    requires Enabled(s, ev)
  {
    if ev.side == Server then
      var moved := ActOn(s.server, ev.act, s.toServer);
      Session(moved.n, s.client, Rest(ev.act, s.toServer), s.toClient + moved.messages, FaultOf(Server, moved.error))
    else
      var moved := ActOn(s.client, ev.act, s.toClient);
      Session(s.server, moved.n, s.toServer + moved.messages, Rest(ev.act, s.toClient), FaultOf(Client, moved.error))
  }

  // ----- one direction: the calls of `c` and the replies of `d`

  function CallsIn(ms: seq<Message>): seq<Sent> {
    if ms == [] then []
    else if ms[0].Call? then [Sent(ms[0].id, ms[0].request)] + CallsIn(ms[1..])
    else CallsIn(ms[1..])
  }

  function RepliesIn(ms: seq<Message>): seq<Reply> {
    if ms == [] then []
    else
      match ms[0]
      case Result(id, value) => [Reply(id, Returned(value))] + RepliesIn(ms[1..])
      case Error(id, problem) => [Reply(id, Failed(problem))] + RepliesIn(ms[1..])
      case _ => RepliesIn(ms[1..])
  }

  lemma {:induction false} CallsInConcat(a: seq<Message>, b: seq<Message>)
    ensures CallsIn(a + b) == CallsIn(a) + CallsIn(b)
  {
    if a == [] {
      assert a + b == b;
    } else {
      assert (a + b)[0] == a[0] && (a + b)[1..] == a[1..] + b;
      CallsInConcat(a[1..], b);
    }
  }

  lemma {:induction false} RepliesInConcat(a: seq<Message>, b: seq<Message>)
    ensures RepliesIn(a + b) == RepliesIn(a) + RepliesIn(b)
  {
    if a == [] {
      assert a + b == b;
    } else {
      assert (a + b)[0] == a[0] && (a + b)[1..] == a[1..] + b;
      RepliesInConcat(a[1..], b);
    }
  }

  lemma InConcat(a: seq<Message>, b: seq<Message>)
    ensures CallsIn(a + b) == CallsIn(a) + CallsIn(b)
    ensures RepliesIn(a + b) == RepliesIn(a) + RepliesIn(b)
  {
    CallsInConcat(a, b);
    RepliesInConcat(a, b);
  }

  lemma {:induction false} InCallMessages(calls: seq<Sent>)
    ensures CallsIn(CallMessages(calls)) == calls && RepliesIn(CallMessages(calls)) == []
  {
    if calls != [] {
      InCallMessages(calls[1..]);
      assert CallMessages(calls)[1..] == CallMessages(calls[1..]);
    }
  }

  predicate Answered(answers: seq<Reply>, id: RequestId) {
    exists i :: 0 <= i < |answers| && answers[i].id == id
  }

  predicate Listed(calls: seq<Sent>, id: RequestId) {
    exists i :: 0 <= i < |calls| && calls[i].id == id
  }

  ghost predicate DistinctIds(answers: seq<Reply>) {
    forall i, j | 0 <= i < j < |answers| :: answers[i].id != answers[j].id
  }

  /** The caller's own books. */
  ghost predicate CallerOk(c: Node) {
    && |c.log.issued| == c.e.next
    && (forall i | 0 <= i < c.e.next :: c.log.issued[i].id == RequestId(i))
    && |c.e.held| <= c.e.next
    && (forall id :: id in c.e.pending || id in c.log.fired <==> id.number < c.e.next - |c.e.held|)
    && (forall id | id in c.e.pending :: id !in c.log.fired && !Answered(c.log.received, id))
    && (forall id | id in c.log.fired && c.log.fired[id] != TimedOut :: Reply(id, c.log.fired[id]) in c.log.received)
  }

  /** The callee's own books: a call taken up is being handled or has been answered, once. */
  ghost predicate CalleeOk(d: Node) {
    && DistinctIds(d.log.answers)
    && (forall id | Answered(d.log.answers, id) :: id !in d.e.running && Listed(d.log.started, id))
    && (forall x | x in d.log.started ::
          (x.id in d.e.running && d.e.running[x.id] == x.request) || Answered(d.log.answers, x.id))
    && (forall id | id in d.e.running :: Listed(d.log.started, id))
    && (forall r | r in d.log.answers :: !r.outcome.TimedOut?)
  }

  /** Calls arrive in the order they were made, replies in the order they were given; nothing is lost. */
  ghost predicate Flow(c: Node, d: Node, out: seq<Message>, back: seq<Message>) {
    && d.log.started + CallsIn(out) + c.e.held == c.log.issued
    && c.log.received + RepliesIn(back) == d.log.answers
  }

  ghost predicate Direction(c: Node, d: Node, out: seq<Message>, back: seq<Message>) {
    CallerOk(c) && CalleeOk(d) && Flow(c, d, out, back)
  }

  ghost predicate PhaseOk(n: Node) {
    && (n.e.phase.Established? ==> n.e.held == [])
    && (!n.e.phase.Established? ==>
          n.e.pending == {} && n.e.running == map[] && n.log == NO_LOG.(issued := n.log.issued))
  }

  predicate NoGreeting(ms: seq<Message>) {
    forall i | 0 <= i < |ms| :: !ms[i].Hello? && !ms[i].HelloAck?
  }

  /** How far the handshake is, and what of it is still in the channels. */
  ghost predicate Handshake(s: Session) {
    && s.server.e.server && !s.client.e.server
    && !s.server.e.phase.SentHello? && !s.client.e.phase.Connected?
    && match s.client.e.phase
       case NotConnected => !s.server.e.phase.Established? && s.toServer == [] && s.toClient == []
       case SentHello =>
         if s.server.e.phase.Established?
         then s.toServer == [] && s.toClient != [] && s.toClient[0] == HelloAck && NoGreeting(s.toClient[1..])
         else s.toServer == [Hello] && s.toClient == []
       case Established => s.server.e.phase.Established? && NoGreeting(s.toServer) && NoGreeting(s.toClient)
       case Connected => false
  }

  ghost predicate SessionInv(s: Session) {
    && Handshake(s) && PhaseOk(s.server) && PhaseOk(s.client)
    && Direction(s.client, s.server, s.toServer, s.toClient)
    && Direction(s.server, s.client, s.toClient, s.toServer)
  }

  // ----- preservation, one role at a time

  /** A protocol error other than a reply to a call that timed out. */
  ghost predicate LateReply(n: Node, error: ProtocolError) {
    error.UnknownCall? && error.id in n.log.fired && n.log.fired[error.id] == TimedOut
  }

  /** The calls taken up so far are the first ones made. */
  lemma StartedAreFirst(c: Node, d: Node, out: seq<Message>, back: seq<Message>)
    requires Direction(c, d, out, back)
    ensures |d.log.started| + |CallsIn(out)| == c.e.next - |c.e.held|
    ensures forall id :: Listed(d.log.started, id) <==> id.number < |d.log.started|
    ensures forall r | r in d.log.answers :: r.id.number < |d.log.started|
    ensures forall i | 0 <= i < |d.log.started| :: d.log.started[i] == c.log.issued[i]
  {
    forall i | 0 <= i < |d.log.started| ensures d.log.started[i] == c.log.issued[i] {
      assert (d.log.started + CallsIn(out) + c.e.held)[i] == d.log.started[i];
    }
    forall id ensures Listed(d.log.started, id) <==> id.number < |d.log.started| {
      if id.number < |d.log.started| { assert d.log.started[id.number].id == id; }
    }
    forall r | r in d.log.answers ensures r.id.number < |d.log.started| {
      var i :| 0 <= i < |d.log.answers| && d.log.answers[i] == r;
      assert Answered(d.log.answers, r.id);
    }
  }

  lemma HeadOfBack(c: Node, d: Node, out: seq<Message>, back: seq<Message>, r: Reply)
    requires Direction(c, d, out, back) && back != []
    requires RepliesIn(back) == [r] + RepliesIn(back[1..])
    ensures !Answered(c.log.received, r.id) && !r.outcome.TimedOut?
    ensures r.id !in c.e.pending ==> r.id in c.log.fired && c.log.fired[r.id] == TimedOut
  {
    var k := |c.log.received|;
    assert d.log.answers[k] == r;
    forall i | 0 <= i < k ensures c.log.received[i].id != r.id {
      assert d.log.answers[i] == c.log.received[i];
    }
    StartedAreFirst(c, d, out, back);
  }

  /** The caller's side of a direction, when only its handlers or its phase change. */
  lemma CallerUntouched(c: Node, c': Node, d: Node, out: seq<Message>, back: seq<Message>, out': seq<Message>,
                        back': seq<Message>)
    requires Direction(c, d, out, back)
    requires c'.e == c.e.(phase := c'.e.phase, running := c'.e.running)
    requires c'.log == c.log.(started := c'.log.started, answers := c'.log.answers)
    requires CallsIn(out') == CallsIn(out) && RepliesIn(back') == RepliesIn(back)
    ensures Direction(c', d, out', back')
  {
  }

  /** The callee's side of a direction, when only its own calls or its phase change. */
  lemma CalleeUntouched(c: Node, d: Node, d': Node, out: seq<Message>, back: seq<Message>, out': seq<Message>,
                        back': seq<Message>)
    requires Direction(c, d, out, back)
    requires d'.e.running == d.e.running && d'.log.started == d.log.started && d'.log.answers == d.log.answers
    requires CallsIn(out') == CallsIn(out) && RepliesIn(back') == RepliesIn(back)
    ensures Direction(c, d', out', back')
  {
  }

  lemma MakeFlow(c: Node, d: Node, out: seq<Message>, back: seq<Message>, request: Request)
    requires Flow(c, d, out, back) && (c.e.phase.Established? ==> c.e.held == [])
    ensures var moved := ActOn(c, Make(request), []); Flow(moved.n, d, out + moved.messages, back)
  {
    var x := Sent(RequestId(c.e.next), request);
    if c.e.phase.Established? {
      OneCall(x);
      InConcat(out, [Call(x.id, request)]);
      GrowEstablished(d.log.started, CallsIn(out), x);
    } else {
      assert out + [] == out;
      GrowHeld(d.log.started, CallsIn(out), c.e.held, x);
    }
  }

  lemma OneCall(x: Sent)
    ensures CallsIn([Call(x.id, x.request)]) == [x]
  {
    assert [Call(x.id, x.request)][1..] == [];
  }

  lemma GrowEstablished(a: seq<Sent>, b: seq<Sent>, x: Sent)
    ensures a + (b + [x]) + [] == (a + b + []) + [x]
  {
  }

  lemma GrowHeld(a: seq<Sent>, b: seq<Sent>, c: seq<Sent>, x: Sent)
    ensures a + b + (c + [x]) == (a + b + c) + [x]
  {
  }

  lemma MakeCaller(c: Node, d: Node, out: seq<Message>, back: seq<Message>, request: Request)
    requires Direction(c, d, out, back) && PhaseOk(c)
    ensures var moved := ActOn(c, Make(request), []); Direction(moved.n, d, out + moved.messages, back)
  {
    MakeFlow(c, d, out, back, request);
    NotYetAnswered(c, d, out, back, RequestId(c.e.next));
    MakeBooks(c, request);
  }

  lemma MakeBooks(c: Node, request: Request)
    requires CallerOk(c) && (c.e.phase.Established? ==> c.e.held == [])
    requires !Answered(c.log.received, RequestId(c.e.next))
    ensures CallerOk(ActOn(c, Make(request), []).n)
  {
  }

  /** A call that was not made has no reply. */
  lemma NotYetAnswered(c: Node, d: Node, out: seq<Message>, back: seq<Message>, id: RequestId)
    requires Direction(c, d, out, back) && id.number >= c.e.next
    ensures !Answered(c.log.received, id)
  {
    StartedAreFirst(c, d, out, back);
    forall i | 0 <= i < |c.log.received| ensures c.log.received[i].id != id {
      assert d.log.answers[i] == c.log.received[i];
    }
  }

  lemma HeldIds(c: Node, d: Node, out: seq<Message>, back: seq<Message>)
    requires Direction(c, d, out, back)
    ensures forall id :: id in IdsOf(c.e.held) <==> c.e.next - |c.e.held| <= id.number < c.e.next
  {
    var n, k := c.e.next, |c.e.held|;
    forall i | 0 <= i < k ensures c.e.held[i].id == RequestId(n - k + i) {
      assert (d.log.started + CallsIn(out) + c.e.held)[n - k + i] == c.e.held[i];
    }
    forall id ensures id in IdsOf(c.e.held) <==> n - k <= id.number < n {
      if n - k <= id.number < n { assert c.e.held[id.number - (n - k)].id == id; }
    }
  }

  lemma EstablishFlow(c: Node, d: Node, out: seq<Message>, back: seq<Message>, first: seq<Message>)
    requires Flow(c, d, out, back) && CallsIn(first) == []
    ensures var r := Establish(c.e, first); Flow(Node(r.e, c.log), d, out + r.messages, back)
  {
    var r := Establish(c.e, first);
    InConcat(out, r.messages);
    InConcat(first, CallMessages(c.e.held));
    InCallMessages(c.e.held);
    Regroup(d.log.started, CallsIn(out), c.e.held);
    assert CallsIn(out + r.messages) == CallsIn(out) + ([] + c.e.held);
  }

  lemma Regroup(a: seq<Sent>, b: seq<Sent>, c: seq<Sent>)
    ensures a + (b + ([] + c)) + [] == a + b + c
    ensures a + (b + c) + [] == a + b + c
  {
  }

  lemma EstablishCaller(c: Node, d: Node, out: seq<Message>, back: seq<Message>, first: seq<Message>)
    requires Direction(c, d, out, back) && PhaseOk(c) && !c.e.phase.Established?
    requires CallsIn(first) == []
    ensures var r := Establish(c.e, first); Direction(Node(r.e, c.log), d, out + r.messages, back)
  {
    EstablishFlow(c, d, out, back, first);
    HeldIds(c, d, out, back);
  }

  lemma RunOutCaller(c: Node, d: Node, out: seq<Message>, back: seq<Message>, id: RequestId)
    requires Direction(c, d, out, back) && id in c.e.pending
    ensures Direction(ActOn(c, RunOut(id), []).n, d, out, back)
  {
  }

  lemma ReplyCaller(c: Node, d: Node, out: seq<Message>, back: seq<Message>, r: Reply)
    requires Direction(c, d, out, back) && c.e.phase.Established? && back != []
    requires RepliesIn(back) == [r] + RepliesIn(back[1..])
    ensures Direction(Node(Answer(c.e, r.id, r.outcome).e, LogReply(c, r)), d, out, back[1..])
  {
    HeadOfBack(c, d, out, back, r);
    ReplyBooks(c, r);
    MoveOver(c.log.received, r, RepliesIn(back[1..]));
  }

  lemma MoveOver<T>(a: seq<T>, x: T, b: seq<T>)
    ensures a + ([x] + b) == (a + [x]) + b
  {
  }

  lemma ReplyBooks(c: Node, r: Reply)
    requires CallerOk(c) && !Answered(c.log.received, r.id) && !r.outcome.TimedOut?
    requires r.id !in c.e.pending ==> r.id in c.log.fired
    ensures CallerOk(Node(Answer(c.e, r.id, r.outcome).e, LogReply(c, r)))
  {
    var received := c.log.received + [r];
    forall id ensures Answered(received, id) ==> Answered(c.log.received, id) || id == r.id {
      if Answered(received, id) {
        var i :| 0 <= i < |received| && received[i].id == id;
        if i < |c.log.received| { assert c.log.received[i].id == id; }
      }
    }
  }

  lemma CompleteCallee(c: Node, d: Node, out: seq<Message>, back: seq<Message>, id: RequestId, outcome: Outcome)
    requires Direction(c, d, out, back) && id in d.e.running && !outcome.TimedOut?
    ensures var moved := ActOn(d, Complete(id, outcome), []); Direction(c, moved.n, out, back + moved.messages)
  {
    AnswerCallee(c, d, out, back, id, outcome);
  }

  /** What a handler's answer changes at its end. */
  function WithAnswer(d: Node, id: RequestId, outcome: Outcome): Node {
    Node(d.e.(running := d.e.running - {id}), d.log.(answers := d.log.answers + [Reply(id, outcome)]))
  }

  lemma AnswerCallee(c: Node, d: Node, out: seq<Message>, back: seq<Message>, id: RequestId, outcome: Outcome)
    requires Direction(c, d, out, back) && id in d.e.running && !outcome.TimedOut?
    ensures Direction(c, WithAnswer(d, id, outcome), out, back + [ReplyTo(id, outcome)])
  {
    assert CalleeOk(WithAnswer(d, id, outcome)) by { GrownAnswers(d, id, outcome); }
    assert RepliesIn(back + [ReplyTo(id, outcome)]) == RepliesIn(back) + [Reply(id, outcome)] by {
      RepliesInConcat(back, [ReplyTo(id, outcome)]);
      OneReply(id, outcome);
    }
    AppendReply(c.log.received, RepliesIn(back), Reply(id, outcome));
  }

  lemma OneReply(id: RequestId, outcome: Outcome)
    requires !outcome.TimedOut?
    ensures RepliesIn([ReplyTo(id, outcome)]) == [Reply(id, outcome)]
  {
    assert [ReplyTo(id, outcome)][1..] == [];
  }

  lemma AppendReply(a: seq<Reply>, b: seq<Reply>, r: Reply)
    ensures a + (b + [r]) == a + b + [r]
  {
  }

  lemma GrownAnswers(d: Node, id: RequestId, outcome: Outcome)
    requires CalleeOk(d) && id in d.e.running && !outcome.TimedOut?
    ensures CalleeOk(WithAnswer(d, id, outcome))
  {
    var answers := d.log.answers + [Reply(id, outcome)];
    forall x: RequestId ensures Answered(answers, x) <==> Answered(d.log.answers, x) || x == id {
      if x == id { assert answers[|d.log.answers|].id == x; }
      if Answered(d.log.answers, x) {
        var i :| 0 <= i < |d.log.answers| && d.log.answers[i].id == x;
        assert answers[i].id == x;
      }
    }
    assert !Answered(d.log.answers, id);
  }

  /** What taking up a call changes at the other end. */
  function WithCall(d: Node, x: Sent): Node {
    Node(d.e.(running := d.e.running[x.id := x.request]), d.log.(started := d.log.started + [x]))
  }

  /** A call is taken up by the other side, and refused at once if there is no such command. */
  lemma CallCallee(c: Node, d: Node, out: seq<Message>, back: seq<Message>, x: Sent)
    requires Direction(c, d, out, back) && d.e.phase.Established? && out != [] && out[0] == Call(x.id, x.request)
    ensures var moved := ActOn(d, Deliver, out); Direction(c, moved.n, out[1..], back + moved.messages)
  {
    var outcome := Failed(NoSuchMethod(x.request.command));
    assert x.id !in d.e.running by { NotStarted(c, d, out, back, x); }
    ArrivedCall(d, out, x);
    StartedCallee(c, d, out, back, x);
    AnswerCallee(c, WithCall(d, x), out[1..], back, x.id, outcome);
    assert back + [] == back;
  }

  lemma ArrivedCall(d: Node, out: seq<Message>, x: Sent)
    requires d.e.phase.Established? && out != [] && out[0] == Call(x.id, x.request) && x.id !in d.e.running
    ensures var outcome := Failed(NoSuchMethod(x.request.command));
            ActOn(d, Deliver, out) ==
              if x.request.command in d.e.commands then Moved(WithCall(d, x), [], None)
              else Moved(WithAnswer(WithCall(d, x), x.id, outcome), [ReplyTo(x.id, outcome)], None)
  {
    PutAndTake(d.e.running, x.id, x.request);
  }

  lemma PutAndTake(running: map<RequestId, Request>, id: RequestId, request: Request)
    requires id !in running
    ensures running[id := request] - {id} == running
  {
  }

  lemma NotStarted(c: Node, d: Node, out: seq<Message>, back: seq<Message>, x: Sent)
    requires Direction(c, d, out, back) && out != [] && out[0] == Call(x.id, x.request)
    ensures !Listed(d.log.started, x.id) && x.id !in d.e.running && !Answered(d.log.answers, x.id)
  {
    var k := |d.log.started|;
    StartedAreFirst(c, d, out, back);
    assert (d.log.started + CallsIn(out) + c.e.held)[k] == x;
    assert x.id == RequestId(k);
  }

  lemma StartedCallee(c: Node, d: Node, out: seq<Message>, back: seq<Message>, x: Sent)
    requires Direction(c, d, out, back) && out != [] && out[0] == Call(x.id, x.request)
    ensures Direction(c, WithCall(d, x), out[1..], back)
  {
    assert !Listed(d.log.started, x.id) && x.id !in d.e.running && !Answered(d.log.answers, x.id) by {
      NotStarted(c, d, out, back, x);
    }
    StartedBooks(d, x);
    TakeUp(d.log.started, x, CallsIn(out[1..]), c.e.held);
  }

  lemma TakeUp(a: seq<Sent>, x: Sent, b: seq<Sent>, c: seq<Sent>)
    ensures a + ([x] + b) + c == a + [x] + b + c
  {
  }

  lemma StartedBooks(d: Node, x: Sent)
    requires CalleeOk(d) && !Listed(d.log.started, x.id) && x.id !in d.e.running && !Answered(d.log.answers, x.id)
    ensures CalleeOk(WithCall(d, x))
  {
    var started := d.log.started + [x];
    forall id: RequestId ensures Listed(started, id) <==> Listed(d.log.started, id) || id == x.id {
      if id == x.id { assert started[|d.log.started|].id == id; }
      if Listed(d.log.started, id) {
        var i :| 0 <= i < |d.log.started| && d.log.started[i].id == id;
        assert started[i].id == id;
      }
    }
    forall y | y in started
      ensures (y.id in d.e.running[x.id := x.request] && d.e.running[x.id := x.request][y.id] == y.request)
              || Answered(d.log.answers, y.id)
    {
      if y in d.log.started { assert Listed(d.log.started, y.id); }
    }
  }

  // ----- one step of one end, in both of its roles

  /** The greeting that an end waits for is the next thing that arrives. */
  predicate Expected(n: Node, act: Act, arriving: seq<Message>) {
    act.Deliver? && arriving != [] ==>
      match n.e.phase
      case Connected => n.e.server && arriving[0].Hello?
      case SentHello => arriving[0].HelloAck?
      case _ => true
  }

  /** The messages that an end sends in a step carry only what its role says. */
  lemma ActAsCaller(n: Node, p: Node, act: Act, arriving: seq<Message>, out: seq<Message>)
    requires Direction(n, p, out, arriving) && PhaseOk(n) && CanAct(n, act, arriving) && Expected(n, act, arriving)
    ensures var moved := ActOn(n, act, arriving); Direction(moved.n, p, out + moved.messages, Rest(act, arriving))
  {
    var moved := ActOn(n, act, arriving);
    InConcat(out, moved.messages);
    assert out + [] == out;
    match act
    case LinkUp => CallerUntouched(n, moved.n, p, out, arriving, out + moved.messages, arriving);
    case Make(request) => MakeCaller(n, p, out, arriving, request);
    case RunOut(id) => RunOutCaller(n, p, out, arriving, id);
    case Complete(id, outcome) => CallerUntouched(n, moved.n, p, out, arriving, out + moved.messages, arriving);
    case Deliver => DeliverAsCaller(n, p, arriving, out);
  }

  lemma DeliverAsCaller(n: Node, p: Node, arriving: seq<Message>, out: seq<Message>)
    requires Direction(n, p, out, arriving) && PhaseOk(n) && CanAct(n, Deliver, arriving)
    requires Expected(n, Deliver, arriving)
    ensures var moved := ActOn(n, Deliver, arriving); Direction(moved.n, p, out + moved.messages, arriving[1..])
  {
    if n.e.phase.Established? {
      HearAsCaller(n, p, arriving, out);
    } else {
      var moved := ActOn(n, Deliver, arriving);
      EstablishCaller(n, p, out, arriving, if n.e.phase.Connected? then [HelloAck] else []);
      CallerUntouched(moved.n, moved.n, p, out + moved.messages, arriving, out + moved.messages, arriving[1..]);
    }
  }

  lemma HearAsCaller(n: Node, p: Node, arriving: seq<Message>, out: seq<Message>)
    requires Direction(n, p, out, arriving) && n.e.phase.Established? && arriving != []
    ensures var moved := ActOn(n, Deliver, arriving); Direction(moved.n, p, out + moved.messages, arriving[1..])
  {
    var moved := ActOn(n, Deliver, arriving);
    match arriving[0]
    case Result(id, value) =>
      assert out + [] == out;
      ReplyCaller(n, p, out, arriving, Reply(id, Returned(value)));
    case Error(id, problem) =>
      assert out + [] == out;
      ReplyCaller(n, p, out, arriving, Reply(id, Failed(problem)));
    case _ =>
      CallsInConcat(out, moved.messages);
      CallerUntouched(n, moved.n, p, out, arriving, out + moved.messages, arriving[1..]);
  }

  lemma ActAsCallee(n: Node, p: Node, act: Act, arriving: seq<Message>, back: seq<Message>)
    requires Direction(p, n, arriving, back) && PhaseOk(n) && CanAct(n, act, arriving) && Expected(n, act, arriving)
    ensures var moved := ActOn(n, act, arriving); Direction(p, moved.n, Rest(act, arriving), back + moved.messages)
  {
    var moved := ActOn(n, act, arriving);
    InConcat(back, moved.messages);
    match act
    case Complete(id, outcome) => CompleteCallee(p, n, arriving, back, id, outcome);
    case Deliver => DeliverAsCallee(n, p, arriving, back);
    case _ => CalleeUntouched(p, n, moved.n, arriving, back, arriving, back + moved.messages);
  }

  lemma EstablishReplies(e: Endpoint, first: seq<Message>)
    requires RepliesIn(first) == []
    ensures RepliesIn(Establish(e, first).messages) == []
  {
    InCallMessages(e.held);
    RepliesInConcat(first, CallMessages(e.held));
  }

  /** Only a call is ever answered on arrival. */
  lemma NoReplySent(n: Node, arriving: seq<Message>)
    requires arriving != [] && !(n.e.phase.Established? && arriving[0].Call?)
    ensures RepliesIn(ActOn(n, Deliver, arriving).messages) == []
  {
    if n.e.phase.Connected? {
      assert RepliesIn([HelloAck]) == [];
      EstablishReplies(n.e, [HelloAck]);
    } else if n.e.phase.SentHello? {
      EstablishReplies(n.e, []);
    }
  }

  lemma DeliverAsCallee(n: Node, p: Node, arriving: seq<Message>, back: seq<Message>)
    requires Direction(p, n, arriving, back) && PhaseOk(n) && CanAct(n, Deliver, arriving)
    requires Expected(n, Deliver, arriving)
    ensures var moved := ActOn(n, Deliver, arriving); Direction(p, moved.n, arriving[1..], back + moved.messages)
  {
    var moved := ActOn(n, Deliver, arriving);
    var m := arriving[0];
    if n.e.phase.Established? && m.Call? {
      CallCallee(p, n, arriving, back, Sent(m.id, m.request));
    } else {
      InConcat(back, moved.messages);
      NoReplySent(n, arriving);
      CalleeUntouched(p, n, moved.n, arriving, back, arriving[1..], back + moved.messages);
    }
  }

  lemma ActPhase(n: Node, act: Act, arriving: seq<Message>)
    requires PhaseOk(n) && CanAct(n, act, arriving) && Expected(n, act, arriving)
    ensures PhaseOk(ActOn(n, act, arriving).n)
  {
  }

  lemma GreetingExpected(s: Session, ev: Event)
    requires Handshake(s) && Enabled(s, ev)
    ensures ev.side == Server ==> Expected(s.server, ev.act, s.toServer)
    ensures ev.side == Client ==> Expected(s.client, ev.act, s.toClient)
  {
  }

  lemma ServerKeepsHandshake(s: Session, act: Act)
    requires Handshake(s) && PhaseOk(s.server) && Enabled(s, Event(Server, act))
    ensures Handshake(Next(s, Event(Server, act)))
  {
  }

  lemma ClientKeepsHandshake(s: Session, act: Act)
    requires Handshake(s) && PhaseOk(s.client) && Enabled(s, Event(Client, act))
    ensures Handshake(Next(s, Event(Client, act)))
  {
  }

  lemma HandshakeKept(s: Session, ev: Event)
    requires Handshake(s) && PhaseOk(s.server) && PhaseOk(s.client) && Enabled(s, ev)
    ensures Handshake(Next(s, ev))
    ensures ev.side == Server ==> Expected(s.server, ev.act, s.toServer)
    ensures ev.side == Client ==> Expected(s.client, ev.act, s.toClient)
  {
    GreetingExpected(s, ev);
    if ev.side == Server { ServerKeepsHandshake(s, ev.act); } else { ClientKeepsHandshake(s, ev.act); }
  }

  lemma NextInv(s: Session, ev: Event)
    requires SessionInv(s) && Enabled(s, ev)
    ensures SessionInv(Next(s, ev))
  {
    HandshakeKept(s, ev);
    if ev.side == Server {
      ActPhase(s.server, ev.act, s.toServer);
      ActAsCaller(s.server, s.client, ev.act, s.toServer, s.toClient);
      ActAsCallee(s.server, s.client, ev.act, s.toServer, s.toClient);
    } else {
      ActPhase(s.client, ev.act, s.toClient);
      ActAsCaller(s.client, s.server, ev.act, s.toClient, s.toServer);
      ActAsCallee(s.client, s.server, ev.act, s.toClient, s.toServer);
    }
  }

  // ----- whole runs

  predicate RunEnabled(s: Session, events: seq<Event>)
    decreases |events|
  {
    events == [] || (Enabled(s, events[0]) && RunEnabled(Next(s, events[0]), events[1..]))
  }

  function Run(s: Session, events: seq<Event>): Session
    requires RunEnabled(s, events)
    decreases |events|
  {
    if events == [] then s else Run(Next(s, events[0]), events[1..])
  }

  /** A session that can break only by a reply to a call that its caller has given up. */
  ghost predicate Sound(s: Session) {
    && SessionInv(s)
    && (s.fault.Some? ==> LateReply(if s.fault.value.side == Server then s.server else s.client, s.fault.value.error))
  }

  lemma ErrorIsLate(n: Node, p: Node, act: Act, arriving: seq<Message>, out: seq<Message>)
    requires Direction(n, p, out, arriving) && PhaseOk(n) && CanAct(n, act, arriving) && Expected(n, act, arriving)
    ensures var moved := ActOn(n, act, arriving); moved.error.Some? ==> LateReply(moved.n, moved.error.value)
  {
    if act.Deliver? && n.e.phase.Established? {
      match arriving[0]
      case Result(id, value) => HeadOfBack(n, p, out, arriving, Reply(id, Returned(value)));
      case Error(id, problem) => HeadOfBack(n, p, out, arriving, Reply(id, Failed(problem)));
      case _ =>
    }
  }

  lemma NextSound(s: Session, ev: Event)
    requires Sound(s) && Enabled(s, ev)
    ensures Sound(Next(s, ev))
  {
    NextInv(s, ev);
    HandshakeKept(s, ev);
    if ev.side == Server {
      ErrorIsLate(s.server, s.client, ev.act, s.toServer, s.toClient);
    } else {
      ErrorIsLate(s.client, s.server, ev.act, s.toClient, s.toServer);
    }
  }

  lemma {:induction false} RunSound(s: Session, events: seq<Event>)
    requires Sound(s) && RunEnabled(s, events)
    ensures Sound(Run(s, events))
    decreases |events|
  {
    if events != [] {
      NextSound(s, events[0]);
      RunSound(Next(s, events[0]), events[1..]);
    }
  }

  ghost predicate Reachable(s: Session) {
    exists sc, cc, events :: RunEnabled(Start(sc, cc), events) && s == Run(Start(sc, cc), events)
  }

  lemma ReachableSound(s: Session)
    requires Reachable(s)
    ensures Sound(s)
  {
    var sc, cc, events :| RunEnabled(Start(sc, cc), events) && s == Run(Start(sc, cc), events);
    RunSound(Start(sc, cc), events);
  }

  // ----- what the invariant means

  function CallerOf(s: Session, side: Side): Node { if side == Server then s.server else s.client }

  function CalleeOf(s: Session, side: Side): Node { if side == Server then s.client else s.server }

  /** The channel that the calls of `side` travel on, and the one that their replies come back on. */
  function CallChannel(s: Session, side: Side): seq<Message> { if side == Server then s.toClient else s.toServer }

  function ReplyChannel(s: Session, side: Side): seq<Message> { if side == Server then s.toServer else s.toClient }

  /** In how many places call `id` of `side` is: on its way, being handled, or answered but not yet heard of. */
  function Places(s: Session, side: Side, id: RequestId): nat {
    Count(IdsSent(CallsIn(CallChannel(s, side))), id)
    + (if id in CalleeOf(s, side).e.running then 1 else 0)
    + Count(IdsReplied(RepliesIn(ReplyChannel(s, side))), id)
  }

  function IdsSent(calls: seq<Sent>): (r: seq<RequestId>)
    ensures |r| == |calls| && forall i | 0 <= i < |r| :: r[i] == calls[i].id
  {
    seq(|calls|, i requires 0 <= i < |calls| => calls[i].id)
  }

  function IdsReplied(replies: seq<Reply>): (r: seq<RequestId>)
    ensures |r| == |replies| && forall i | 0 <= i < |r| :: r[i] == replies[i].id
  {
    seq(|replies|, i requires 0 <= i < |replies| => replies[i].id)
  }

  function Count(ids: seq<RequestId>, id: RequestId): nat {
    multiset(ids)[id]
  }

  lemma {:induction false} CountOnce(ids: seq<RequestId>, id: RequestId)
    requires forall i, j | 0 <= i < j < |ids| :: ids[i] != ids[j]
    ensures Count(ids, id) == if id in ids then 1 else 0
  {
    if ids != [] {
      CountOnce(ids[1..], id);
      assert ids == [ids[0]] + ids[1..];
      if id == ids[0] {
        forall i | 0 <= i < |ids[1..]| ensures ids[1..][i] != id { assert ids[i + 1] != ids[0]; }
      }
    }
  }

  lemma ChannelIds(c: Node, d: Node, out: seq<Message>, back: seq<Message>, id: RequestId)
    requires Direction(c, d, out, back)
    ensures Count(IdsSent(CallsIn(out)), id) == if |d.log.started| <= id.number < c.e.next - |c.e.held| then 1 else 0
    ensures Count(IdsReplied(RepliesIn(back)), id)
            == if Answered(d.log.answers, id) && !Answered(c.log.received, id) then 1 else 0
  {
    StartedAreFirst(c, d, out, back);
    CallIds(c, d, out, back, id);
    ReplyIds(c, d, out, back, id);
  }

  lemma CallIds(c: Node, d: Node, out: seq<Message>, back: seq<Message>, id: RequestId)
    requires Direction(c, d, out, back)
    ensures Count(IdsSent(CallsIn(out)), id) == if |d.log.started| <= id.number < c.e.next - |c.e.held| then 1 else 0
  {
    StartedAreFirst(c, d, out, back);
    forall i | 0 <= i < |CallsIn(out)| ensures CallsIn(out)[i].id == RequestId(|d.log.started| + i) {
      Middle(d.log.started, CallsIn(out), c.e.held, i);
    }
    ConsecutiveIds(IdsSent(CallsIn(out)), |d.log.started|, id);
  }

  lemma Middle(a: seq<Sent>, b: seq<Sent>, c: seq<Sent>, i: nat)
    requires i < |b|
    ensures (a + b + c)[|a| + i] == b[i]
  {
  }

  lemma ConsecutiveIds(ids: seq<RequestId>, k: nat, id: RequestId)
    requires forall i | 0 <= i < |ids| :: ids[i] == RequestId(k + i)
    ensures Count(ids, id) == if k <= id.number < k + |ids| then 1 else 0
  {
    CountOnce(ids, id);
    if k <= id.number < k + |ids| { assert ids[id.number - k] == id; }
  }

  lemma ReplyIds(c: Node, d: Node, out: seq<Message>, back: seq<Message>, id: RequestId)
    requires Direction(c, d, out, back)
    ensures Count(IdsReplied(RepliesIn(back)), id)
            == if Answered(d.log.answers, id) && !Answered(c.log.received, id) then 1 else 0
  {
    SplitReplies(c.log.received, RepliesIn(back), id);
  }

  lemma SplitReplies(received: seq<Reply>, rest: seq<Reply>, id: RequestId)
    requires DistinctIds(received + rest)
    ensures Count(IdsReplied(rest), id) == if Answered(received + rest, id) && !Answered(received, id) then 1 else 0
  {
    var k, all, ids := |received|, received + rest, IdsReplied(rest);
    forall j | 0 <= j < k ensures received[j] == all[j] {}
    forall i | 0 <= i < |ids| ensures ids[i] == all[k + i].id && Answered(all, ids[i]) && !Answered(received, ids[i]) {}
    forall i | k <= i < |all| ensures all[i].id == ids[i - k] {}
    CountOnce(ids, id);
  }

  /**
   In every reachable state each pending call is in exactly one place: on its way, being handled, or
   answered with the reply under way. A call that has timed out is still in at most one, and a call that
   was answered is nowhere.
   */
  lemma PendingInOnePlace(s: Session, side: Side, id: RequestId)
    requires Reachable(s)
    ensures id in CallerOf(s, side).e.pending ==> Places(s, side, id) == 1
    ensures Places(s, side, id) <= 1
    ensures Answered(CallerOf(s, side).log.received, id) ==> Places(s, side, id) == 0
  {
    ReachableSound(s);
    var c, d := CallerOf(s, side), CalleeOf(s, side);
    var out, back := CallChannel(s, side), ReplyChannel(s, side);
    assert Direction(c, d, out, back);
    ChannelIds(c, d, out, back, id);
    WhereStarted(c, d, out, back, id);
  }

  lemma WhereStarted(c: Node, d: Node, out: seq<Message>, back: seq<Message>, id: RequestId)
    requires Direction(c, d, out, back)
    ensures id in d.e.running ==> id.number < |d.log.started| && !Answered(d.log.answers, id)
    ensures Answered(d.log.answers, id) ==> id.number < |d.log.started|
    ensures id.number < |d.log.started| ==> id in d.e.running || Answered(d.log.answers, id)
    ensures Answered(c.log.received, id) ==> Answered(d.log.answers, id)
    ensures id in c.e.pending ==> id.number < c.e.next - |c.e.held| && !Answered(c.log.received, id)
  {
    StartedAreFirst(c, d, out, back);
    if Answered(c.log.received, id) {
      var i :| 0 <= i < |c.log.received| && c.log.received[i].id == id;
      assert d.log.answers[i] == c.log.received[i];
    }
    if id.number < |d.log.started| {
      assert d.log.started[id.number].id == id;
    }
  }

  /** The client never believes in a connection that the server does not know. */
  lemma ClientImpliesServer(s: Session)
    requires Reachable(s)
    ensures s.client.e.phase.Established? ==> s.server.e.phase.Established?
  {
    ReachableSound(s);
  }

  /** The only protocol error that can happen is a reply to a call that has already timed out. */
  lemma OnlyLateReplies(s: Session)
    requires Reachable(s) && s.fault.Some?
    ensures var f := s.fault.value;
            var n := CallerOf(s, f.side);
            f.error.UnknownCall? && f.error.id in n.log.fired && n.log.fired[f.error.id] == TimedOut
  {
    ReachableSound(s);
  }

  /** The arriving message answers a call that its caller has given up. */
  predicate AnswersTimedOut(n: Node, m: Message) {
    (m.Result? || m.Error?) && m.id in n.log.fired && n.log.fired[m.id] == TimedOut
  }

  lemma ErrorIffLate(n: Node, p: Node, arriving: seq<Message>, out: seq<Message>)
    requires Direction(n, p, out, arriving) && PhaseOk(n)
    requires CanAct(n, Deliver, arriving) && Expected(n, Deliver, arriving)
    ensures ActOn(n, Deliver, arriving).error ==
            if AnswersTimedOut(n, arriving[0]) then Some(UnknownCall(arriving[0].id)) else None
  {
    match arriving[0]
    case Result(id, value) => HeadOfBack(n, p, out, arriving, Reply(id, Returned(value)));
    case Error(id, problem) => HeadOfBack(n, p, out, arriving, Reply(id, Failed(problem)));
    case _ =>
  }

  /** A step of a session breaks it if and only if it delivers a reply to a call that has timed out. */
  lemma BreaksIffLateReply(s: Session, ev: Event)
    requires Reachable(s) && Enabled(s, ev)
    ensures Next(s, ev).fault ==
            if ev.act.Deliver? && AnswersTimedOut(CallerOf(s, ev.side), ReplyChannel(s, ev.side)[0])
            then Some(Fault(ev.side, UnknownCall(ReplyChannel(s, ev.side)[0].id))) else None
  {
    ReachableSound(s);
    HandshakeKept(s, ev);
    if ev.act.Deliver? {
      ErrorIffLate(CallerOf(s, ev.side), CalleeOf(s, ev.side), ReplyChannel(s, ev.side), CallChannel(s, ev.side));
    }
  }

  lemma Prepend(s: Session, ev: Event, rest: seq<Event>)
    requires Enabled(s, ev) && RunEnabled(Next(s, ev), rest)
    ensures RunEnabled(s, [ev] + rest) && Run(s, [ev] + rest) == Run(Next(s, ev), rest)
  {
    assert ([ev] + rest)[0] == ev && ([ev] + rest)[1..] == rest;
  }

  const UNKNOWN_REQUEST := Request(0, 0)

  /** Both ends up and greeted, with nothing under way. */
  const GREETED := Session(Node(Fresh(true, {}).(phase := Established), NO_LOG),
                           Node(Fresh(false, {}).(phase := Established), NO_LOG), [], [], None)

  lemma GreetingRun() returns (events: seq<Event>)
    ensures RunEnabled(Start({}, {}), events) && Run(Start({}, {}), events) == GREETED
  {
    var s0 := Start({}, {});
    var s1 := Next(s0, Event(Server, LinkUp));
    var s2 := Next(s1, Event(Client, LinkUp));
    var s3 := Next(s2, Event(Server, Deliver));
    assert s3.toClient == [HelloAck];
    assert Next(s3, Event(Client, Deliver)) == GREETED;
    Prepend(s3, Event(Client, Deliver), []);
    events := [Event(Client, Deliver)] + [];
    Prepend(s2, Event(Server, Deliver), events);
    events := [Event(Server, Deliver)] + events;
    Prepend(s1, Event(Client, LinkUp), events);
    events := [Event(Client, LinkUp)] + events;
    Prepend(s0, Event(Server, LinkUp), events);
    events := [Event(Server, LinkUp)] + events;
  }

  lemma LateReplyRun() returns (events: seq<Event>)
    ensures RunEnabled(GREETED, events) && Run(GREETED, events).fault.Some?
  {
    var id := RequestId(0);
    var s5 := Next(GREETED, Event(Server, Make(UNKNOWN_REQUEST)));
    assert s5.toClient == [Call(id, UNKNOWN_REQUEST)];
    var s6 := Next(s5, Event(Client, Deliver));
    assert s6.toServer == [Error(id, NoSuchMethod(0))];
    var s7 := Next(s6, Event(Server, RunOut(id)));
    var s8 := Next(s7, Event(Server, Deliver));
    assert s8.fault.Some?;
    Prepend(s7, Event(Server, Deliver), []);
    events := [Event(Server, Deliver)] + [];
    Prepend(s6, Event(Server, RunOut(id)), events);
    events := [Event(Server, RunOut(id))] + events;
    Prepend(s5, Event(Client, Deliver), events);
    events := [Event(Client, Deliver)] + events;
    Prepend(GREETED, Event(Server, Make(UNKNOWN_REQUEST)), events);
    events := [Event(Server, Make(UNKNOWN_REQUEST))] + events;
  }

  lemma {:induction false} RunConcat(s: Session, a: seq<Event>, b: seq<Event>)
    requires RunEnabled(s, a) && RunEnabled(Run(s, a), b)
    ensures RunEnabled(s, a + b) && Run(s, a + b) == Run(Run(s, a), b)
    decreases |a|
  {
    if a == [] {
      assert a + b == b;
    } else {
      assert (a + b)[0] == a[0] && (a + b)[1..] == a[1..] + b;
      RunConcat(Next(s, a[0]), a[1..], b);
    }
  }

  /** It does happen: the server asks for something, gives up, and then hears that the worker does not know it. */
  lemma LateReplyHappens()
    ensures exists s :: Reachable(s) && s.fault.Some?
  {
    var a := GreetingRun();
    var b := LateReplyRun();
    RunConcat(Start({}, {}), a, b);
    assert Reachable(Run(Start({}, {}), a + b));
  }

  /**
   The deferred of a call fires with what its own handler produced: the handlers run once for each call,
   in the order in which the calls were made and with the arguments that were given.
   */
  lemma RepliesMatch(s: Session, side: Side)
    requires Reachable(s)
    ensures var c, d := CallerOf(s, side).log, CalleeOf(s, side).log;
            && d.started <= c.issued && c.received <= d.answers
            && (forall id | id in c.fired && c.fired[id] != TimedOut :: Reply(id, c.fired[id]) in d.answers)
            && (forall i, j | 0 <= i < j < |d.answers| :: d.answers[i].id != d.answers[j].id)
            && (forall r | r in d.answers :: exists i :: 0 <= i < |d.started| && d.started[i].id == r.id)
            && (forall i | 0 <= i < |c.issued| :: c.issued[i].id == RequestId(i))
  {
    ReachableSound(s);
    var c, d := CallerOf(s, side), CalleeOf(s, side);
    assert Direction(c, d, CallChannel(s, side), ReplyChannel(s, side));
    MatchOf(c, d, CallChannel(s, side), ReplyChannel(s, side));
  }

  lemma MatchOf(c: Node, d: Node, out: seq<Message>, back: seq<Message>)
    requires Direction(c, d, out, back)
    ensures d.log.started <= c.log.issued && c.log.received <= d.log.answers
    ensures forall id | id in c.log.fired && c.log.fired[id] != TimedOut :: Reply(id, c.log.fired[id]) in d.log.answers
    ensures forall r | r in d.log.answers :: Listed(d.log.started, r.id)
  {
    StartedAreFirst(c, d, out, back);
    forall r | r in d.log.answers ensures Listed(d.log.started, r.id) {
      assert r.id.number < |d.log.started|;
    }
    forall id | id in c.log.fired && c.log.fired[id] != TimedOut ensures Reply(id, c.log.fired[id]) in d.log.answers {
      var i :| 0 <= i < |c.log.received| && c.log.received[i] == Reply(id, c.log.fired[id]);
      assert d.log.answers[i] == c.log.received[i];
    }
  }

  // ----- commands

  /** Only known commands are handled, and a call of another one is answered at once. */
  ghost predicate CommandsOk(n: Node) {
    && (forall id | id in n.e.running :: n.e.running[id].command in n.e.commands)
    && (forall x | x in n.log.started && x.request.command !in n.e.commands ::
          Reply(x.id, Failed(NoSuchMethod(x.request.command))) in n.log.answers)
  }

  lemma ActCommands(n: Node, act: Act, arriving: seq<Message>)
    requires CommandsOk(n) && CanAct(n, act, arriving)
    ensures CommandsOk(ActOn(n, act, arriving).n) && ActOn(n, act, arriving).n.e.commands == n.e.commands
  {
  }

  lemma NextCommands(s: Session, ev: Event)
    requires CommandsOk(s.server) && CommandsOk(s.client) && Enabled(s, ev)
    ensures CommandsOk(Next(s, ev).server) && CommandsOk(Next(s, ev).client)
    ensures Next(s, ev).server.e.commands == s.server.e.commands && Next(s, ev).client.e.commands == s.client.e.commands
  {
    if ev.side == Server {
      ActCommands(s.server, ev.act, s.toServer);
    } else {
      ActCommands(s.client, ev.act, s.toClient);
    }
  }

  /**
   Over any run: a handler runs only for a command that its end was built with, and a call of any other command has
   been refused with the name of that command.
   */
  lemma {:induction false} OnlyKnownCommands(s: Session, events: seq<Event>)
    requires CommandsOk(s.server) && CommandsOk(s.client) && RunEnabled(s, events)
    ensures var end := Run(s, events);
            && CommandsOk(end.server) && CommandsOk(end.client)
            && end.server.e.commands == s.server.e.commands && end.client.e.commands == s.client.e.commands
    decreases |events|
  {
    if events != [] {
      NextCommands(s, events[0]);
      OnlyKnownCommands(Next(s, events[0]), events[1..]);
    }
  }

  // ----- deferreds

  /** The outcome that a step gives to the deferred of call `id` of its own end, if any. */
  function FiresFor(n: Node, act: Act, arriving: seq<Message>, id: RequestId): Option<Outcome>
    requires CanAct(n, act, arriving)
  {
    match act
    case Deliver =>
      if (arriving[0].Result? || arriving[0].Error?) && arriving[0].id == id
      then Receive(n.e, arriving[0]).fires else None
    case RunOut(x) => if x == id then Expire(n.e, id).fires else None
    case _ => None
  }

  /** The history of deferreds is what the steps fire them with: once each, and never again. */
  lemma FiresAreLogged(n: Node, act: Act, arriving: seq<Message>, id: RequestId)
    requires CanAct(n, act, arriving) && (n.e.phase != Established ==> n.e.pending == {})
    requires id in n.e.pending ==> id !in n.log.fired
    ensures var fires, fired := FiresFor(n, act, arriving, id), ActOn(n, act, arriving).n.log.fired;
            if fires.Some? then id in n.e.pending && id in fired && fired[id] == fires.value
            else (id in fired <==> id in n.log.fired) && (id in fired ==> fired[id] == n.log.fired[id])
  {
  }
}
