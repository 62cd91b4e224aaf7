/**
 One end of a connection between the server and a worker (rpc.py:52-204): the handshake, the calls
 that are pending and the calls that are being handled.
 */
module Rpc {
  import opened Types

  datatype RequestId = RequestId(number: nat)

  /** The command of a call and its arguments. */
  datatype Request = Request(command: int, args: int)

  datatype Problem = NoSuchMethod(command: int) | Exception(text: int)

  /** What the deferred of a call fires with. */
  datatype Outcome = Returned(value: int) | Failed(problem: Problem) | TimedOut

  datatype Message =
    | Hello
    | HelloAck
    | Call(id: RequestId, request: Request)
    | Result(id: RequestId, value: int)
    | Error(id: RequestId, problem: Problem)

  datatype Phase = NotConnected | Connected | SentHello | Established

  datatype ProtocolError = BeforeHello | ExpectedHello | ExpectedHelloAck | UnknownCall(id: RequestId)

  datatype Sent = Sent(id: RequestId, request: Request)

  /**
   `held` are the calls made before the connection was established; they wait for `ready`. `running`
   are the calls of the other side whose handlers have not finished. `commands` are the `cmd_` methods.
   */
  datatype Endpoint = Endpoint(
    server: bool,
    phase: Phase,
    next: nat,
    pending: set<RequestId>,
    held: seq<Sent>,
    running: map<RequestId, Request>,
    commands: set<int>)

  /** What a step does besides changing the endpoint. */
  datatype Reaction = Reaction(
    e: Endpoint,
    messages: seq<Message>,
    fires: Option<Outcome>,
    error: Option<ProtocolError>)

  function Quiet(e: Endpoint): Reaction { Reaction(e, [], None, None) }

  function Sends(e: Endpoint, messages: seq<Message>): Reaction { Reaction(e, messages, None, None) }

  function Breaks(e: Endpoint, error: ProtocolError): Reaction { Reaction(e, [], None, Some(error)) }

  function Fresh(server: bool, commands: set<int>): Endpoint {
    Endpoint(server, NotConnected, 0, {}, [], map[], commands)
  }

  function ConnectionMade(e: Endpoint): Reaction {
    if e.server then Quiet(e.(phase := Connected)) else Sends(e.(phase := SentHello), [Hello])
  }

  function CallMessages(calls: seq<Sent>): (r: seq<Message>)
    ensures |r| == |calls|
    ensures forall i | 0 <= i < |calls| :: r[i] == Call(calls[i].id, calls[i].request)
  {
    seq(|calls|, i requires 0 <= i < |calls| => Call(calls[i].id, calls[i].request))
  }

  function IdsOf(calls: seq<Sent>): (r: set<RequestId>)
    ensures forall i | 0 <= i < |calls| :: calls[i].id in r
    ensures forall id | id in r :: exists i :: 0 <= i < |calls| && calls[i].id == id
  {
    set i | 0 <= i < |calls| :: calls[i].id
  }

  /** The connection is established: `ready` fires and the calls that were held back are sent. */
  function Establish(e: Endpoint, first: seq<Message>): Reaction {
    Sends(e.(phase := Established, pending := e.pending + IdsOf(e.held), held := []), first + CallMessages(e.held))
  }

  function Answer(e: Endpoint, id: RequestId, outcome: Outcome): Reaction {
    if id !in e.pending then Breaks(e, UnknownCall(id))
    else Reaction(e.(pending := e.pending - {id}), [], Some(outcome), None)
  }

  /** `_processMessage`. An established endpoint ignores further greetings. */
  function Receive(e: Endpoint, m: Message): Reaction {
    match e.phase
    case Established =>
      (match m
       case Result(id, value) => Answer(e, id, Returned(value))
       case Error(id, problem) => Answer(e, id, Failed(problem))
       case Call(id, request) =>
         if request.command in e.commands then Quiet(e.(running := e.running[id := request]))
         else Sends(e, [Error(id, NoSuchMethod(request.command))])
       case _ => Quiet(e))
    case Connected =>
      if !e.server then Breaks(e, BeforeHello)
      else if m.Hello? then Establish(e, [HelloAck])
      else Breaks(e, ExpectedHello)
    case SentHello =>
      if m.HelloAck? then Establish(e, []) else Breaks(e, ExpectedHelloAck)
    case NotConnected => Quiet(e)
  }

  /** `call`. */
  function Issue(e: Endpoint, request: Request): Reaction {
    var sent := Sent(RequestId(e.next), request);
    if e.phase.Established?
    then Sends(e.(next := e.next + 1, pending := e.pending + {sent.id}), [Call(sent.id, request)])
    else Quiet(e.(next := e.next + 1, held := e.held + [sent]))
  }

  function ReplyTo(id: RequestId, outcome: Outcome): Message
    requires !outcome.TimedOut?
  {
    if outcome.Returned? then Result(id, outcome.value) else Error(id, outcome.problem)
  }

  /** A handler finishes: `_reply` or `_replyError`. */
  function Finish(e: Endpoint, id: RequestId, outcome: Outcome): Reaction
    requires !outcome.TimedOut?
  {
    Sends(e.(running := e.running - {id}), [ReplyTo(id, outcome)])
  }

  /** `_timeout`. */
  function Expire(e: Endpoint, id: RequestId): Reaction
    requires id in e.pending
  {
    Reaction(e.(pending := e.pending - {id}), [], Some(TimedOut), None)
  }

  /** The message that the handshake waits for in this phase. */
  predicate Greets(e: Endpoint, m: Message) {
    (e.phase == Connected && e.server && m.Hello?) || (e.phase == SentHello && m.HelloAck?)
  }

  /**
   A message breaks the connection if and only if it comes where another one has to, or answers a call that is not
   pending; and the connection becomes established by the greeting that is due, and by nothing else.
   */
  lemma ReceiveBreaks(e: Endpoint, m: Message)
    ensures var r := Receive(e, m);
            && r.error == (if e.phase == Connected && !e.server then Some(BeforeHello)
                           else if e.phase == Connected && !m.Hello? then Some(ExpectedHello)
                           else if e.phase == SentHello && !m.HelloAck? then Some(ExpectedHelloAck)
                           else if e.phase == Established && (m.Result? || m.Error?) && m.id !in e.pending
                           then Some(UnknownCall(m.id))
                           else None)
            && (r.error.Some? ==> r.e == e && r.messages == [])
            && (r.e.phase != e.phase <==> Greets(e, m))
            && (Greets(e, m) ==> r.e.phase == Established && r.e.held == [])
  {
  }
}
